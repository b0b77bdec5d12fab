# Loan front end: verified model of its client-side rules

This project models the rules the loan application's Next.js front end
enforces in the browser: the five-step registration wizard, the admin
pages' user and loan tables, the client's payment modal, the newsletter
CSV export, and the login and admin-area routing over `localStorage`. It
proves properties of that model in Dafny. Every server reply, the clock,
`new Date(...)` parsing, `URL.createObjectURL`, `window.confirm` and
`alert` are modelled as method parameters or returned values.

Modules follow the source files:

- `Strings`: JavaScript string behaviour the pages rely on. This covers
  `trim`, ASCII case mapping, `replace(/[^…]/g, "")`, `includes`, `join`,
  and `Number()` of integer text.
- `Lists`: `filter` and the subsequence facts behind keeping the original order.
- `Draft` and `Checks`: the wizard's untyped draft record and its one-key
  merge `updateField`. Also the check chain that every step's `validate()`
  follows: the first failing check alerts; reading a string method of a
  non-string throws; `next()` runs only when all checks pass.
- `BasicStep`, `PersonalStep`, `KycStep`, `BankStep`: the four
  registration steps, each with its validator, its input normalisers, and
  the state it keeps of its own.
- `Register`: the wizard page. It holds the step counter, the shared draft,
  the step gates, the payload built from the truthy entries, and the submit reply.
- `Session`, `Login`, `AdminLayout`: the stored session, the login-by-role
  redirect, and the admin area's token and role gate with its logout.
- `AdminDashboard`, `AdminUsers`, `AdminLoans`, `ClientLoans`, `Newsletter`:
  the list pages.

State the source changes in place becomes a class with `modifies` clauses:

- the draft (`Draft.DraftForm`);
- the wizard (`Register.RegisterWizard`);
- each step's local state;
- each page's fields;
- `localStorage` (`Session.LocalStorage`).

Asynchronous handlers are split at their `await`: a `Begin…` method does
what runs before the request, and a `Finish…` method takes the reply. The
in-flight state in between can then be stated:

- `approving`;
- `PROCESSING`;
- `deletingId`;
- `ifscLoading`.

The model follows the code as written; in particular:

- A KYC upload writes the preview and the file into the draft before it
  checks them. A rejected file therefore stays in the draft, and it
  satisfies that step's "please upload" check (`KycStep.RejectedUploadStillCounts`).
- The age check compares only years and months; the day of the month is
  never consulted (`PersonalStep.Is18PlusBirthdayMonth`).
- On step 5, `next` goes to step 4.
- The initial draft has no `maxLength`. Step 1 compares the phone length
  against it, so without a phone event step 1 never advances
  (`BasicStep.NoPhoneEventNeverPasses`).
- An IFSC reply that has `BANK` but no `BRANCH` writes `undefined` into
  the draft. After that, step 4's `validate()` throws instead of advancing
  (`BankStep.ReplyWithoutBranchBlocks`).
- A login reply without a token stores the text "undefined". That text
  passes the admin layout's token check (`AdminLayout.LoginThenLayout`).
- The CSV export separates records with a bare line feed, not the CRLF that
  section 2, rule 1 of RFC 4180 asks for. It does double the quotes inside
  the quoted e-mail field, as section 2, rule 7 asks.

## Model

| member | source | states |
|---|---|---|
| Lists.FilterCharacterised | app/dashboard/admin/newsletter/page.tsx:55 | `filter` is fixed by order, membership and count: a subsequence whose elements all pass and which holds as many elements as pass is the filtered list |
| Lists.FilterFilter | app/dashboard/admin/page.tsx:55-68 | filtering by status and then by search keeps what passes both |
| Draft.InitialForm | app/auth/register/page.tsx:16-45 | the initial draft has exactly the listed keys, each the empty string |
| Draft.InitialKeysDistinct | app/auth/register/page.tsx:16-45 | the initial draft lists 25 distinct keys |
| Draft.InitialFormEmpty | app/auth/register/page.tsx:16-45 | no initial value is truthy; `maxLength`, `fullPhone`, `countryIso` and `countryDialCode` are absent |
| Draft.DraftForm.constructor | app/auth/register/page.tsx:16-45 | the shared draft starts as the initial draft |
| Draft.DraftForm.Update | app/auth/register/page.tsx:47-49 | `updateField` sets the key, leaves every other key unchanged and adds only that key |
| Checks.FirstFailure | app/auth/register/step1Basic.tsx:45-69 | a check chain passes iff every check is Ok, and otherwise reports the first check that blocks |
| BasicStep.MaxDigits | app/auth/register/step1Basic.tsx:19-32 | the maximum digit count is the table entry for a listed country and 10 otherwise, always 8 to 11 |
| BasicStep.EmailPatternMeaning | app/auth/register/step1Basic.tsx:39-40 | the e-mail pattern holds iff there is no white space, exactly one `@` with text before it, and a dot inside the domain that is neither its first nor its last character |
| BasicStep.EmailMatchHasShape | app/auth/register/step1Basic.tsx:39-40 | an e-mail the pattern matches has that shape |
| BasicStep.EmailShapeMatches | app/auth/register/step1Basic.tsx:39-40 | an e-mail of that shape matches the pattern |
| BasicStep.ValidPasswordExamples | app/auth/register/step1Basic.tsx:42-43 | eight characters with a lower-case letter, an upper-case letter, a digit and a symbol (the underscore counts) are accepted |
| BasicStep.InvalidPasswordExamples | app/auth/register/step1Basic.tsx:42-43 | seven or seventeen characters, or no upper-case letter, are refused |
| BasicStep.LettersNotBlank | app/auth/register/step1Basic.tsx:46-48 | a letters-only name is never blank |
| BasicStep.EmailNotBlank | app/auth/register/step1Basic.tsx:54-55 | a matching e-mail is never blank |
| BasicStep.PasswordNotBlank | app/auth/register/step1Basic.tsx:62-63 | an accepted password is never blank |
| BasicStep.PhoneMessageUndefined | app/auth/register/step1Basic.tsx:57-60 | without `maxLength` the phone alert reads "undefined-digit" |
| BasicStep.ValidateBasicPassIff | app/auth/register/step1Basic.tsx:45-69 | `validate()` calls `next()` iff the first name is letters, the last name is blank or letters, the e-mail matches, the contact length equals `maxLength`, and the password is accepted |
| BasicStep.FirstNameGates | app/auth/register/step1Basic.tsx:46-48 | both first-name checks pass iff the first name is a non-empty string of letters |
| BasicStep.EmailGates | app/auth/register/step1Basic.tsx:54-55 | both e-mail checks pass iff the e-mail matches the pattern |
| BasicStep.PasswordGates | app/auth/register/step1Basic.tsx:62-66 | both password checks pass iff the password is accepted |
| BasicStep.NoPhoneEventNeverPasses | app/auth/register/step1Basic.tsx:57-60 | a draft without `maxLength` never gets past step 1 |
| BasicStep.NoPhoneEventAlert | app/auth/register/step1Basic.tsx:57-60 | once the name and e-mail checks pass, such a draft alerts about an "undefined"-digit number |
| BasicStep.ValidateBasicReportsFirst | app/auth/register/step1Basic.tsx:45-69 | the first blocking check is the one reported |
| BasicStep.NormaliseNameShape | app/auth/register/step1Basic.tsx:85-86 | the stored name is ASCII letters only, the first upper-case and the rest lower-case, as long as the letters typed |
| BasicStep.NormaliseNameIdempotent | app/auth/register/step1Basic.tsx:85-86 | normalising a normalised name changes nothing |
| BasicStep.NormaliseNameEmptyIff | app/auth/register/step1Basic.tsx:85-86 | the stored name is empty iff no letter was typed |
| BasicStep.FirstNameChecksAfterInput | app/auth/register/step1Basic.tsx:84-88 | after a first-name input both first-name checks pass iff the input had a letter |
| BasicStep.StripDial | app/auth/register/step1Basic.tsx:134-137 | a leading dial code is removed once, and otherwise the digits are kept |
| BasicStep.PhoneDigits | app/auth/register/step1Basic.tsx:131-140 | the kept contact is all digits, at most `maxDigits` long, a prefix of the dial-stripped digits, and exactly as long as the smaller of those |
| BasicStep.PhoneUpdated | app/auth/register/step1Basic.tsx:142-148 | a phone event sets `contact`, `fullPhone` = dial + contact, `maxLength`, `countryIso` and `countryDialCode`, and no other key |
| BasicStep.PhoneCheckAfterEvent | app/auth/register/step1Basic.tsx:126-148 | after a phone event the length check passes iff at least the country's digit count was typed after the dial code |
| BasicStep.PhoneDigitsOfTypedNumber | app/auth/register/step1Basic.tsx:132-140 | a number typed after its dial code is kept as typed, cut to the country's count |
| BasicStep.OnPhoneChange | app/auth/register/step1Basic.tsx:126-149 | the five draft writes of the phone input |
| BasicStep.OnNameChange | app/auth/register/step1Basic.tsx:84-105 | the name inputs store the normalised name |
| BasicStep.OnAltContactChange | app/auth/register/step1Basic.tsx:167-168 | the alternate contact keeps digits only |
| BasicStep.OnPlainChange | app/auth/register/step1Basic.tsx:181-193 | e-mail and password are stored as typed |
| PersonalStep.FormatNameKeepsValidity | app/auth/register/step2Personal.tsx:21-24 | formatting keeps the length and the letters up to case, so a name is valid after formatting iff it was before |
| PersonalStep.FormatNameIdempotent | app/auth/register/step2Personal.tsx:21-22 | formatting twice is formatting once |
| PersonalStep.Is18PlusMeaning | app/auth/register/step2Personal.tsx:26-33 | the age check holds iff the calendar month of the 18th birthday has been reached |
| PersonalStep.Is18PlusBirthdayMonth | app/auth/register/step2Personal.tsx:26-33 | in the birthday month the check passes whatever the day; one month earlier it fails |
| PersonalStep.NameGatesPassIff | app/auth/register/step2Personal.tsx:37-40 | father's-name and profession checks pass iff the value is a non-blank string of letters and spaces |
| PersonalStep.IncomeGatesPassIff | app/auth/register/step2Personal.tsx:54-61 | the income checks pass iff the text is a number greater than zero |
| PersonalStep.AddressGatesPassIff | app/auth/register/step2Personal.tsx:64-75 | an address passes iff it is non-blank and at least 10 characters long |
| PersonalStep.ValidatePersonalPassIff | app/auth/register/step2Personal.tsx:35-78 | `validate()` calls `next()` iff every field of step 2 is acceptable |
| PersonalStep.SpacesOnlyNameRejected | app/auth/register/step2Personal.tsx:37-40 | a name of spaces only matches the letters pattern but fails the "required" check |
| PersonalStep.IncomeInputAccepted | app/auth/register/step2Personal.tsx:134-135 | an income typed through the input is accepted iff it has a non-zero digit |
| PersonalStep.PersonalDetails.constructor | app/auth/register/step2Personal.tsx:18 | the checkbox starts unticked |
| PersonalStep.PersonalDetails.OnSameAddressToggle | app/auth/register/step2Personal.tsx:159-163 | ticking copies the communication address into the permanent one; unticking leaves the draft as it was |
| PersonalStep.SameAddressCopies | app/auth/register/step2Personal.tsx:159-163 | after the copy the permanent address is accepted iff the communication address is |
| PersonalStep.OnNameChange | app/auth/register/step2Personal.tsx:93-121 | father's name and profession are stored formatted |
| PersonalStep.OnIncomeChange | app/auth/register/step2Personal.tsx:134-135 | the stored income is digits only |
| PersonalStep.OnPlainChange | app/auth/register/step2Personal.tsx:108-179 | the date and the addresses are stored as typed |
| KycStep.AadhaarInputValidIff | app/auth/register/step3Kyc.tsx:117-119 | the stored Aadhaar is valid iff twelve digits were typed |
| KycStep.PanInputAcceptsAnyCase | app/auth/register/step3Kyc.tsx:140-142 | a PAN typed in any case is stored valid |
| KycStep.PanInputIdempotent | app/auth/register/step3Kyc.tsx:140-142 | the PAN input changes nothing in an already stored PAN |
| KycStep.LastSegment | app/auth/register/step3Kyc.tsx:28 | the extension is the suffix after the last dot, or the whole name when there is none |
| KycStep.LastSegmentOfDotted | app/auth/register/step3Kyc.tsx:28 | a name ending in `.ext` has extension `ext` |
| KycStep.ValidateFile | app/auth/register/step3Kyc.tsx:27-41 | a file is accepted iff its lower-cased extension is allowed and its size is at most the limit; the two alerts in that order |
| KycStep.UploadLimits | app/auth/register/step3Kyc.tsx:53-69 | Aadhaar and PAN allow jpg/jpeg/png/pdf up to 5 MB; the photo allows jpg/jpeg/png up to 3 MB; any other key allows nothing |
| KycStep.UnknownKeyRejectsAll | app/auth/register/step3Kyc.tsx:53-72 | an upload under any other key is always refused |
| KycStep.PdfOnlyForDocuments | app/auth/register/step3Kyc.tsx:56-69 | a PDF is accepted for Aadhaar whatever its case, and refused as a photo |
| KycStep.SizeLimitInclusive | app/auth/register/step3Kyc.tsx:35-38 | a file of exactly the limit is accepted; one byte more is refused |
| KycStep.UploadWrites | app/auth/register/step3Kyc.tsx:50-51 | the preview goes under `key` and the file under `key_file`, and nothing else changes |
| KycStep.UploadWritesTwice | app/auth/register/step3Kyc.tsx:74-78 | the second pair of writes leaves only the second preview |
| KycStep.HandleFileUpload | app/auth/register/step3Kyc.tsx:44-79 | no file changes nothing; a file is written, then checked; a rejected file stays written; an accepted one is rewritten with the second preview |
| KycStep.ValidateKycPassIff | app/auth/register/step3Kyc.tsx:84-101 | `validate()` calls `next()` iff Aadhaar and PAN match and all three uploads are present |
| KycStep.RejectedUploadStillCounts | app/auth/register/step3Kyc.tsx:48-96 | a refused Aadhaar file still satisfies the Aadhaar upload check |
| KycStep.OnAadhaarChange | app/auth/register/step3Kyc.tsx:117-119 | the Aadhaar input stores digits only |
| KycStep.OnPanChange | app/auth/register/step3Kyc.tsx:140-142 | the PAN input stores the upper-cased `[A-Z0-9]` characters |
| BankStep.HolderNameInputShape | app/auth/register/step4Bank.tsx:27-33 | the stored holder name has only letters and spaces, and it is as long as the input iff nothing was removed |
| BankStep.NameErrorFor | app/auth/register/step4Bank.tsx:36-40 | the name error is empty iff the input had only letters and spaces |
| BankStep.LookupApplied | app/auth/register/step4Bank.tsx:55-59 | a reply with `BANK` sets exactly `bankName`, `branch`, `city` and `state` |
| BankStep.ValidateBankPassIff | app/auth/register/step4Bank.tsx:74-103 | `validate()` calls `next()` iff every text field is present, the IFSC is 11 characters, there is no name error, and a cheque was uploaded |
| BankStep.ReplyWithoutBranchBlocks | app/auth/register/step4Bank.tsx:55-91 | a reply with a bank but no branch makes step 4 unable to advance; once the earlier checks pass, it throws |
| BankStep.BankDetails.constructor | app/auth/register/step4Bank.tsx:20 | no name error and no lookup in flight at first |
| BankStep.BankDetails.OnHolderNameChange | app/auth/register/step4Bank.tsx:25-41 | stores the cleaned, capitalised name, and sets the error iff a character was removed |
| BankStep.BankDetails.BeginLookup | app/auth/register/step4Bank.tsx:46-50 | a code shorter than 11 characters sends nothing; otherwise the indicator turns on |
| BankStep.BankDetails.FinishLookup | app/auth/register/step4Bank.tsx:49-68 | a reply with `BANK` fills the four fields; any other reply or a failure alerts and writes nothing; the indicator ends off |
| BankStep.OnIfscChange | app/auth/register/step4Bank.tsx:158-161 | the IFSC is stored upper-cased, and a lookup is triggered iff exactly 11 characters were typed |
| BankStep.OnChequeUpload | app/auth/register/step4Bank.tsx:108-115 | a cheque is stored with no check at all |
| BankStep.OnAccountNumberChange | app/auth/register/step4Bank.tsx:145 | the account number is stored as typed |
| Register.NextStep | app/auth/register/page.tsx:102-106 | `next` moves steps 1 to 4 forward by one and sends step 5 to 4, like `back` |
| Register.BackStep | app/auth/register/page.tsx:103-106 | `back` moves steps 2 to 5 back by one |
| Register.AcceptedEverywhere | app/auth/register/page.tsx:102-105 | a draft every step accepts passes each step's validator |
| Register.InitialDraftRefused | app/auth/register/page.tsx:16-45 | the fresh draft is refused by step 1 because the first name is required |
| Register.AppendPart | app/auth/register/page.tsx:57 | a file entry is sent as a file and anything else as its text |
| Register.InitialPayloadEmpty | app/auth/register/page.tsx:56-58 | the untouched draft sends nothing |
| Register.PayloadUnique | app/auth/register/page.tsx:56-58 | two payloads of one draft hold the same parts |
| Register.StoredFileSentOnce | app/auth/register/page.tsx:56-58 | a stored file is sent exactly once |
| Register.SubmitAlert | app/auth/register/page.tsx:68-76 | only an ok reply redirects; otherwise the alert is the server message, or "Failed", or "Registration failed" |
| Register.RegisterWizard.constructor | app/auth/register/page.tsx:13-16 | the wizard starts at step 1 with the initial draft |
| Register.RegisterWizard.Next | app/auth/register/page.tsx:102-106 | the step moves as `NextStep` says and stays in 1 to 5 |
| Register.RegisterWizard.Back | app/auth/register/page.tsx:103-106 | the step moves as `BackStep` says and stays in 1 to 5 |
| Register.RegisterWizard.PressNext | app/auth/register/page.tsx:102-105 | the step advances iff the step's validator passes |
| Register.RegisterWizard.BuildPayload | app/auth/register/page.tsx:54-58 | the form data holds one part per truthy draft entry, each key once, and nothing else |
| Register.RegisterWizard.BeginSubmit | app/auth/register/page.tsx:53-58 | the indicator turns on and the payload is built |
| Register.RegisterWizard.FinishSubmit | app/auth/register/page.tsx:68-78 | an ok reply redirects to the success page; any other reply alerts; the step is unchanged and the indicator ends off |
| Session.TextEntry | app/auth/login/page.tsx:21 | `setItem` of an absent value stores the text "undefined" |
| Session.LocalStorage.Clear | app/dashboard/admin/layout.tsx:85 | clearing removes every entry |
| Login.HomeFor | app/auth/login/page.tsx:26-30 | ADMIN goes to `/dashboard/admin`; every other role goes to `/dashboard/client` |
| Login.FailureMessage | app/auth/login/page.tsx:34 | the error is the server message when there is one, otherwise "Login failed", and never empty |
| Login.UserEntry | app/auth/login/page.tsx:22 | the stored user is its JSON, and "undefined" when absent |
| Login.LoginStored | app/auth/login/page.tsx:21-23 | a rejection writes nothing; an accepted reply writes the token, the user JSON and (when there is a user) `userId` = id, and no other key |
| Login.LoginPage.constructor | app/auth/login/page.tsx:10 | no error at first |
| Login.LoginPage.BeginLogin | app/auth/login/page.tsx:16 | the error is cleared before the request |
| Login.LoginPage.FinishLogin | app/auth/login/page.tsx:18-35 | the storage writes, the role redirect, and the error for rejections and for replies without a user |
| AdminLayout.LayoutGuard | app/dashboard/admin/layout.tsx:11-24 | the four outcomes of the mount check and exactly when each happens |
| AdminLayout.LoginThenLayout | app/dashboard/admin/layout.tsx:14-26 | after a login with a user, the layout renders iff the login page sent the user to the admin dashboard |
| AdminLayout.LoginWithoutUserNeverRenders | app/dashboard/admin/layout.tsx:14-19 | after a login reply without a user, the layout never renders |
| AdminLayout.Layout.constructor | app/dashboard/admin/layout.tsx:8 | the layout starts loading |
| AdminLayout.Layout.Mount | app/dashboard/admin/layout.tsx:10-27 | loading ends only for a token and an ADMIN user; missing entries redirect to `/login`, and other roles to `/auth/login` |
| AdminLayout.Layout.Logout | app/dashboard/admin/layout.tsx:84-87 | logout clears all storage and redirects to `/` |
| AdminDashboard.FilteredUsers | app/dashboard/admin/page.tsx:55-68 | the result is an order-keeping subsequence whose elements are exactly the users that pass the status filter and the case-insensitive name-or-e-mail search, and its length is the number of users that pass, so every passing user is kept as often as it occurs (`Lists.FilterCharacterised`); ALL with an empty search keeps every user |
| AdminDashboard.StatusBadge | app/dashboard/admin/page.tsx:225-245 | PENDING gives Pending, ACTIVE gives Active, anything else gives Inactive |
| AdminDashboard.ActionCell | app/dashboard/admin/page.tsx:178-190 | the Approve button appears iff the badge is Pending, and it is disabled and reads "Approving..." iff that user is being approved |
| AdminDashboard.Dashboard.constructor | app/dashboard/admin/page.tsx:7-12 | empty list, nothing loading, no approval in flight, no search, filter ALL |
| AdminDashboard.Dashboard.Mount | app/dashboard/admin/page.tsx:41-49 | the fetch happens iff a token and a user are stored, which is iff the layout does not redirect to `/login` |
| AdminDashboard.Dashboard.FinishFetchUsers | app/dashboard/admin/page.tsx:22-31 | a reply replaces the list, a failure keeps it, and loading ends |
| AdminDashboard.Dashboard.BeginApprove | app/dashboard/admin/page.tsx:33-34 | `approving` holds the id |
| AdminDashboard.Dashboard.FinishApprove | app/dashboard/admin/page.tsx:35-38 | the users are fetched again after the approval; `approving` clears only when the approval and the summary fetch both succeed |
| AdminDashboard.Dashboard.SetSearch | app/dashboard/admin/page.tsx:127 | typing sets the search |
| AdminDashboard.Dashboard.SetFilter | app/dashboard/admin/page.tsx:134 | selecting sets the status filter |
| AdminUsers.UsersPage.constructor | app/dashboard/admin/users/page.tsx:7-11 | empty list, nothing loading, no approval in flight, no search, filter ALL |
| AdminUsers.UsersPage.Mount | app/dashboard/admin/users/page.tsx:34-36 | the users are always fetched |
| AdminUsers.UsersPage.FinishFetchUsers | app/dashboard/admin/users/page.tsx:16-25 | a reply replaces the list, a failure keeps it, and loading ends |
| AdminUsers.UsersPage.BeginApprove | app/dashboard/admin/users/page.tsx:27-28 | `approving` holds the id passed in |
| AdminUsers.UsersPage.FinishApprove | app/dashboard/admin/users/page.tsx:29-31 | after a successful approval the users are fetched again and `approving` is cleared |
| AdminUsers.UsersPage.SetSearch | app/dashboard/admin/users/page.tsx:73 | typing sets the search |
| AdminUsers.UsersPage.SetFilter | app/dashboard/admin/users/page.tsx:80 | selecting sets the status filter |
| AdminLoans.SearchedText | app/dashboard/admin/loans/page.tsx:52-53 | a missing name or e-mail is searched as the empty text |
| AdminLoans.NoBorrowerSearch | app/dashboard/admin/loans/page.tsx:49-55 | a loan without a user is kept by the empty search and by no other |
| AdminLoans.FilteredLoans | app/dashboard/admin/loans/page.tsx:43-56 | the result is an order-keeping subsequence whose elements are exactly the loans that pass the status filter and the search, and its length is the number of loans that pass, so repeated loans are all kept; ALL with an empty search keeps every loan |
| AdminLoans.ShowsEmptyRow | app/dashboard/admin/loans/page.tsx:142-151 | "No loans found." shows iff no loan passes both the filter and the search |
| AdminLoans.LoansOf | app/dashboard/admin/loans/page.tsx:29 | an absent `loans` field gives the empty list |
| AdminLoans.LoansPage.constructor | app/dashboard/admin/loans/page.tsx:7-11 | empty list, no search, filter ALL |
| AdminLoans.LoansPage.BeginFetch | app/dashboard/admin/loans/page.tsx:18-20 | loading turns on |
| AdminLoans.LoansPage.FinishFetch | app/dashboard/admin/loans/page.tsx:22-35 | a reply replaces the list, a failure keeps it, and loading ends |
| AdminLoans.LoansPage.SetSearch | app/dashboard/admin/loans/page.tsx:77 | typing sets the search |
| AdminLoans.LoansPage.SetFilter | app/dashboard/admin/loans/page.tsx:83 | selecting sets the status filter |
| ClientLoans.ActiveLoans | app/dashboard/client/loans/page.tsx:107-110 | the active loans are an order-keeping subsequence of the loans whose elements are exactly the ACTIVE loans (the rows with "Pay Now"), and their number, the "Active Loans" count, is the number of ACTIVE loans |
| ClientLoans.ClosedCount | app/dashboard/client/loans/page.tsx:152 | the closed count is the number of CLOSED loans |
| ClientLoans.CountsFitTotal | app/dashboard/client/loans/page.tsx:143-153 | the active and closed counts together never exceed the total |
| ClientLoans.DefaultAmount | app/dashboard/client/loans/page.tsx:58-59 | the default is the smaller of the outstanding amount and 1000 |
| ClientLoans.PaymentCheck | app/dashboard/client/loans/page.tsx:76-84 | an amount is accepted iff it is a number in 1 to the outstanding amount; each refusal gets its own message |
| ClientLoans.DefaultAmountAccepted | app/dashboard/client/loans/page.tsx:55-84 | the proposed amount passes the checks iff something is outstanding |
| ClientLoans.LoansPage.constructor | app/dashboard/client/loans/page.tsx:16-24 | loading, with no loan selected, an empty amount and step FORM |
| ClientLoans.LoansPage.BeginLoad | app/dashboard/client/loans/page.tsx:31-44 | with no stored user the error is "You are not logged in." and nothing is fetched; otherwise the stored user's loans are requested |
| ClientLoans.LoansPage.FinishLoad | app/dashboard/client/loans/page.tsx:44-51 | `res.data.loans` or the empty list replaces the list; a failure keeps it with an error; loading ends |
| ClientLoans.LoansPage.Open | app/dashboard/client/loans/page.tsx:55-63 | opening selects the loan with the default amount, step FORM and no error |
| ClientLoans.LoansPage.Close | app/dashboard/client/loans/page.tsx:65-70 | closing resets the selection, the amount, the step and the error |
| ClientLoans.LoansPage.SetAmount | app/dashboard/client/loans/page.tsx:299 | typing sets the amount |
| ClientLoans.LoansPage.RequestPayment | app/dashboard/client/loans/page.tsx:73-88 | a refused amount sets its message and keeps the step; an accepted one moves to PROCESSING |
| ClientLoans.LoansPage.ResolvePayment | app/dashboard/client/loans/page.tsx:89-103 | the step becomes SUCCESS when the payment went through, and ERROR with its message when it failed |
| Newsletter.EscapeQuotes | app/dashboard/admin/newsletter/page.tsx:74 | escaping adds one character per quote and introduces no other character |
| Newsletter.UnescapeEscape | app/dashboard/admin/newsletter/page.tsx:74 | reading the doubled quotes back gives the e-mail |
| Newsletter.EscapedQuotesDoubled | app/dashboard/admin/newsletter/page.tsx:74 | every quote of the e-mail appears twice in its field |
| Newsletter.Rows | app/dashboard/admin/newsletter/page.tsx:71-77 | one record per subscriber, in order |
| Newsletter.ExportCsv | app/dashboard/admin/newsletter/page.tsx:64-80 | an empty list exports nothing; an invalid date aborts; otherwise the text is the header followed by the records joined by line feeds |
| Newsletter.RowSingleLine | app/dashboard/admin/newsletter/page.tsx:73-76 | a record of single-line fields has no line feed |
| Newsletter.HeaderOneLine | app/dashboard/admin/newsletter/page.tsx:70 | the header ends with its only line feed |
| Newsletter.JoinedLines | app/dashboard/admin/newsletter/page.tsx:70-80 | header plus joined records has one line feed per record and ends with the last record |
| Newsletter.CsvLines | app/dashboard/admin/newsletter/page.tsx:70-80 | with single-line fields the CSV has as many line feeds as subscribers (one line more than subscribers) and no trailing line feed after the last record |
| Newsletter.RemoveById | app/dashboard/admin/newsletter/page.tsx:55 | the result is an order-keeping subsequence holding exactly the entries whose id differs, as many as there are such entries, so only the entries with that id are removed; with no such entry the list is unchanged |
| Newsletter.NewsletterPage.constructor | app/dashboard/admin/newsletter/page.tsx:13-16 | empty list, loading, no error, nothing being deleted |
| Newsletter.NewsletterPage.Mount | app/dashboard/admin/newsletter/page.tsx:19-26 | without a token the error is "Unauthorized" and nothing loads |
| Newsletter.NewsletterPage.FinishLoad | app/dashboard/admin/newsletter/page.tsx:28-43 | a reply replaces the list; a failure keeps it with an error; loading ends |
| Newsletter.NewsletterPage.BeginDelete | app/dashboard/admin/newsletter/page.tsx:49-53 | declining the confirm changes nothing; otherwise the id is marked as being deleted |
| Newsletter.NewsletterPage.FinishDelete | app/dashboard/admin/newsletter/page.tsx:54-61 | a deletion removes that id from the list, a failure alerts "Failed to delete", and the marker clears |

## Left out

- Network calls, the axios instance and its token interceptor: replies are method parameters (ok or failure, with optional fields).
- The IFSC lookup's HTTP request and the race between stale replies: only the handling of one reply is modelled.
- Date parsing and formatting: the date of birth and today are (year, month) pairs, and a timestamp is its ISO text or an invalid date.
- `Number()` semantics: only integer text (optional sign, surrounding white space) parses. Decimals, exponents, hexadecimal and `Infinity` are not modelled, and the amounts on the loan pages are whole numbers.
- Case mapping and letter classes are ASCII only, and lengths count characters rather than UTF-16 code units.
- JSON text in `localStorage` is abstract: the JSON of a user record is a value of its own, and any other text is taken to fail `JSON.parse`. Stored texts that parse to something other than a user record are not modelled.
- A user id is text. Missing `id` or `role` properties of a login reply are not modelled separately; a missing role behaves like any role other than ADMIN.
- A login reply without a body is not modelled.
- The order of `Object.entries`: any order of the payload is allowed.
- `URL.createObjectURL`, `Blob` and the download link: preview handles are parameters, and the CSV text is the result.
- `alert` and `window.confirm`: an alert is a returned message, and a confirm is a boolean parameter.
- The `setTimeout` delay before a payment, and the progress-bar percentage (floating point).
- The internals of the phone-input widget: only its callback arguments (value, dial code, country code) are modelled.
- The HTML `maxLength` attributes of the inputs: typed text is taken as delivered to `onChange`.
- Rendering and styling, apart from the decisions the tables and the modal make (badges, buttons, the empty row, the counts).
- The admin summary cards: the summary reply is not kept, only whether its fetch succeeded.
- Rows whose `fullname` or `email` is not a string (the tables then throw while rendering).
- The newsletter page's subscribe form, the EMI calculator, the display-only pages, the loan-creation form, and the unused frequency and sort selectors of the admin loans page.
- Step components unmount when the step changes, which resets their local state (the address checkbox and the holder-name error); the model keeps each step's state as its own object.
