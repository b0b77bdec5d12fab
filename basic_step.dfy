/**
 * Step 1 of the registration wizard (app/auth/register/step1Basic.tsx):
 * first and last name, email, password and the phone number, whose length
 * must match the selected country's digit count.
 */
module BasicStep {
  import opened Strings
  import opened Draft
  import opened Checks

  /** Mobile number length per upper-cased ISO country code. */
  const CountryDigits: map<string, nat> := map[
    "IN" := 10, "AE" := 9, "SA" := 9, "US" := 10, "NP" := 10, "UK" := 10,
    "CA" := 10, "AU" := 9, "SG" := 8, "PK" := 11, "BD" := 11, "QA" := 8
  ]

  /** `COUNTRY_DIGITS[iso] || 10` */
  function MaxDigits(iso: string): (n: nat)
    ensures iso in CountryDigits ==> n == CountryDigits[iso]
    ensures iso !in CountryDigits ==> n == 10
    ensures 8 <= n <= 11
  {
    if iso in CountryDigits && CountryDigits[iso] != 0 then CountryDigits[iso] else 10
  }

  // ---------------------------------------------------------------------------
  // Email and password patterns
  // ---------------------------------------------------------------------------

  /** `[^\s@]` */
  predicate IsEmailChar(c: char) { !IsSpace(c) && c != '@' }

  /**
   * One way of matching `^[^\s@]+@[^\s@]+\.[^\s@]+$`: the `@` at `at`, the
   * literal dot at `dot`, non-empty runs of `[^\s@]` between and around them.
   */
  predicate EmailMatchAt(e: string, at: int, dot: int) {
    && 0 < at < |e| && at + 1 < dot < |e| - 1
    && e[at] == '@' && e[dot] == '.'
    && forall k :: 0 <= k < |e| && k != at ==> IsEmailChar(e[k])
  }

  /** `isValidEmail(email)` */
  predicate IsValidEmail(e: string) {
    exists at, dot | 0 < at < |e| && 0 < dot < |e| :: EmailMatchAt(e, at, dot)
  }

  /** The domain has a dot that is neither its first nor its last character. */
  predicate HasInnerDot(d: string) {
    exists j :: 0 < j < |d| - 1 && d[j] == '.'
  }

  /**
   * The email pattern, said differently: no white space, exactly one `@`,
   * something before it, and a dot inside the domain after it.
   */
  predicate EmailShape(e: string) {
    && (forall k :: 0 <= k < |e| ==> !IsSpace(e[k]))
    && CountChar(e, '@') == 1
    && exists at :: 0 < at < |e| && e[at] == '@' && HasInnerDot(e[at + 1..])
  }

  lemma EmailPatternMeaning(e: string)
    ensures IsValidEmail(e) <==> EmailShape(e)
  {
    if IsValidEmail(e) { EmailMatchHasShape(e); }
    if EmailShape(e) { EmailShapeMatches(e); }
  }

  lemma EmailMatchHasShape(e: string)
    requires IsValidEmail(e)
    ensures EmailShape(e)
  {
    CountCharOneIff(e, '@');
    var at, dot :| 0 < at < |e| && 0 < dot < |e| && EmailMatchAt(e, at, dot);
    assert e[at + 1..][dot - at - 1] == '.';
    assert HasInnerDot(e[at + 1..]);
    assert forall k :: 0 <= k < |e| && k != at ==> e[k] != '@';
    assert !IsSpace(e[at]);
  }

  lemma EmailShapeMatches(e: string)
    requires EmailShape(e)
    ensures IsValidEmail(e)
  {
    CountCharOneIff(e, '@');
    var at :| 0 < at < |e| && e[at] == '@' && HasInnerDot(e[at + 1..]);
    var i :| 0 <= i < |e| && e[i] == '@' && forall k :: 0 <= k < |e| && k != i ==> e[k] != '@';
    assert i == at;
    var j :| 0 < j < |e[at + 1..]| - 1 && e[at + 1..][j] == '.';
    assert e[at + 1 + j] == '.';
    assert EmailMatchAt(e, at, at + 1 + j);
  }

  /** `isValidPassword(password)`: `^(?=.*[a-z])(?=.*[A-Z])(?=.*\d)(?=.*[\W_]).{8,16}$` */
  predicate IsValidPassword(p: string) {
    && 8 <= |p| <= 16
    && !Any(p, IsLineTerminator)
    && Any(p, IsLower) && Any(p, IsUpper) && Any(p, IsDigit) && Any(p, IsSymbol)
  }

  /** The shortest accepted passwords; the underscore counts as a symbol. */
  lemma ValidPasswordExamples()
    ensures IsValidPassword("Abcdef1!")
    ensures IsValidPassword("Abcdef1_")
  {
    assert IsUpper("Abcdef1!"[0]) && IsLower("Abcdef1!"[1]) && IsDigit("Abcdef1!"[6]) && IsSymbol("Abcdef1!"[7]);
    assert IsUpper("Abcdef1_"[0]) && IsLower("Abcdef1_"[1]) && IsDigit("Abcdef1_"[6]) && IsSymbol("Abcdef1_"[7]);
  }

  /** Seven characters are too few, seventeen too many, and an upper-case letter is required. */
  lemma InvalidPasswordExamples()
    ensures !IsValidPassword("Abcde1!")
    ensures !IsValidPassword("Abcdefghijklmn1!x")
    ensures !IsValidPassword("abcdef1!")
  {
    var p := "abcdef1!";
    assert forall i :: 0 <= i < |p| ==> !IsUpper(p[i]);
  }

  /** `/^[A-Za-z]+$/.test(s)` */
  predicate OnlyLetters(s: string) { |s| > 0 && All(s, IsLetter) }

  /** A string matching any of the three patterns is not blank. */
  lemma LettersNotBlank(s: string)
    requires OnlyLetters(s)
    ensures !IsBlank(s)
  {
    BlankIffAllSpace(s);
    assert !IsSpace(s[0]);
  }

  lemma EmailNotBlank(s: string)
    requires IsValidEmail(s)
    ensures !IsBlank(s)
  {
    BlankIffAllSpace(s);
    var at, dot :| 0 < at < |s| && 0 < dot < |s| && EmailMatchAt(s, at, dot);
    assert !IsSpace(s[at]);
  }

  lemma PasswordNotBlank(s: string)
    requires IsValidPassword(s)
    ensures !IsBlank(s)
  {
    BlankIffAllSpace(s);
    var i :| 0 <= i < |s| && IsLower(s[i]);
    assert !IsSpace(s[i]);
  }

  // ---------------------------------------------------------------------------
  // validate()
  // ---------------------------------------------------------------------------

  const PasswordRule := "Password must be 8\U{2013}16 chars with uppercase, lowercase, number & special character"

  /** The phone alert, which shows `maxLength` as text. */
  function PhoneMessage(maxLength: Value): string {
    "Please enter valid " + Show(maxLength) + "-digit mobile number"
  }

  lemma PhoneMessageUndefined()
    ensures PhoneMessage(Undefined) == "Please enter valid undefined-digit mobile number"
  {
  }

  /** The checks of `validate()`, in the order they run. */
  function BasicGates(form: Form): seq<Gate> {
    var first, last, email := Get(form, "firstName"), Get(form, "lastName"), Get(form, "email");
    var contact, password, maxLength := Get(form, "contact"), Get(form, "password"), Get(form, "maxLength");
    [ NeedText(first, !IsBlank(Text(first)), "First Name is required"),
      NeedText(first, OnlyLetters(Text(first)), "First Name should contain only letters"),
      NeedText(last, IsBlank(Text(last)) || OnlyLetters(Text(last)), "Last Name should contain only letters"),
      NeedText(email, !IsBlank(Text(email)), "Email is required"),
      NeedText(email, IsValidEmail(Text(email)), "Invalid Email"),
      NeedText(contact, maxLength == Num(|Text(contact)|), PhoneMessage(maxLength)),
      NeedText(password, !IsBlank(Text(password)), "Password is required"),
      NeedText(password, IsValidPassword(Text(password)), PasswordRule) ]
  }

  /** `validate()`: Pass means `next()` is called. */
  function ValidateBasic(form: Form): Check {
    FirstFailure(BasicGates(form))
  }

  /** The fields step 1 requires, as a conjunction. */
  predicate BasicAccepted(form: Form) {
    var first, last, email := Get(form, "firstName"), Get(form, "lastName"), Get(form, "email");
    var contact, password := Get(form, "contact"), Get(form, "password");
    && first.Str? && OnlyLetters(first.s)
    && last.Str? && (IsBlank(last.s) || OnlyLetters(last.s))
    && email.Str? && IsValidEmail(email.s)
    && contact.Str? && Get(form, "maxLength") == Num(|contact.s|)
    && password.Str? && IsValidPassword(password.s)
  }

  /** `validate()` calls `next()` exactly when every field of step 1 is acceptable. */
  lemma ValidateBasicPassIff(form: Form)
    ensures ValidateBasic(form) == Pass <==> BasicAccepted(form)
  {
    var g := BasicGates(form);
    FirstNameGates(form);
    EmailGates(form);
    PasswordGates(form);
    assert g[2] == Ok <==> Get(form, "lastName").Str? && (IsBlank(Get(form, "lastName").s) || OnlyLetters(Get(form, "lastName").s));
    assert g[5] == Ok <==> Get(form, "contact").Str? && Get(form, "maxLength") == Num(|Get(form, "contact").s|);
    AllOkEight(g);
  }

  lemma FirstNameGates(form: Form)
    ensures BasicGates(form)[0] == Ok && BasicGates(form)[1] == Ok <==>
      Get(form, "firstName").Str? && OnlyLetters(Get(form, "firstName").s)
  {
    if Get(form, "firstName").Str? && OnlyLetters(Get(form, "firstName").s) { LettersNotBlank(Get(form, "firstName").s); }
  }

  lemma EmailGates(form: Form)
    ensures BasicGates(form)[3] == Ok && BasicGates(form)[4] == Ok <==>
      Get(form, "email").Str? && IsValidEmail(Get(form, "email").s)
  {
    if Get(form, "email").Str? && IsValidEmail(Get(form, "email").s) { EmailNotBlank(Get(form, "email").s); }
  }

  lemma PasswordGates(form: Form)
    ensures BasicGates(form)[6] == Ok && BasicGates(form)[7] == Ok <==>
      Get(form, "password").Str? && IsValidPassword(Get(form, "password").s)
  {
    if Get(form, "password").Str? && IsValidPassword(Get(form, "password").s) { PasswordNotBlank(Get(form, "password").s); }
  }

  /** Without a phone event the draft has no `maxLength`, so step 1 never advances. */
  lemma NoPhoneEventNeverPasses(form: Form)
    requires "maxLength" !in form
    ensures ValidateBasic(form) != Pass
  {
    assert BasicGates(form)[5] != Ok;
  }

  /**
   * Once the name and email checks pass, a draft without `maxLength` alerts
   * about an "undefined"-digit mobile number.
   */
  lemma NoPhoneEventAlert(form: Form)
    requires "maxLength" !in form
    requires forall i :: 0 <= i < 5 ==> BasicGates(form)[i] == Ok
    requires Get(form, "contact").Str?
    ensures ValidateBasic(form) == Alert("Please enter valid undefined-digit mobile number")
  {
    var gates := BasicGates(form);
    assert FirstBlockingAt(gates, 5);
    PhoneMessageUndefined();
  }

  /** The first failing check is the one reported. */
  lemma ValidateBasicReportsFirst(form: Form, i: int)
    requires FirstBlockingAt(BasicGates(form), i)
    ensures ValidateBasic(form) == Outcome(BasicGates(form)[i])
  {
  }

  // ---------------------------------------------------------------------------
  // Input normalisers (onChange handlers)
  // ---------------------------------------------------------------------------

  /** Name input: letters only, then capitalised. */
  function NormaliseName(raw: string): string {
    Capitalize(Keep(raw, IsLetter))
  }

  /** The stored name is ASCII letters, first upper-case and the rest lower-case. */
  lemma NormaliseNameShape(raw: string)
    ensures All(NormaliseName(raw), IsLetter)
    ensures NormaliseName(raw) != [] ==> IsUpper(NormaliseName(raw)[0])
    ensures forall i :: 0 < i < |NormaliseName(raw)| ==> IsLower(NormaliseName(raw)[i])
    ensures |NormaliseName(raw)| == |Keep(raw, IsLetter)|
  {
  }

  lemma NormaliseNameIdempotent(raw: string)
    ensures NormaliseName(NormaliseName(raw)) == NormaliseName(raw)
  {
    var n := NormaliseName(raw);
    NormaliseNameShape(raw);
    assert Keep(n, IsLetter) == n;
    CapitalizeIdempotent(Keep(raw, IsLetter));
  }

  /** The normalised name is empty exactly when the input had no ASCII letter. */
  lemma NormaliseNameEmptyIff(raw: string)
    ensures NormaliseName(raw) == [] <==> !Any(raw, IsLetter)
  {
    if Any(raw, IsLetter) {
      var i :| 0 <= i < |raw| && IsLetter(raw[i]);
      KeepNonEmpty(raw, IsLetter, i);
    } else {
      KeepNone(raw, IsLetter);
    }
  }

  /** After a first-name input event both first-name checks pass iff the input had a letter. */
  lemma FirstNameChecksAfterInput(form: Form, raw: string)
    ensures var f := form["firstName" := Str(NormaliseName(raw))];
      BasicGates(f)[0] == Ok && BasicGates(f)[1] == Ok <==> Any(raw, IsLetter)
  {
    var f := form["firstName" := Str(NormaliseName(raw))];
    assert Get(f, "firstName") == Str(NormaliseName(raw));
    FirstNameGates(f);
    NormaliseNameShape(raw);
    NormaliseNameEmptyIff(raw);
  }

  lemma {:induction false} KeepNonEmpty(s: string, p: char -> bool, i: int)
    requires 0 <= i < |s| && p(s[i])
    ensures Keep(s, p) != []
  {
    if !p(s[0]) { KeepNonEmpty(s[1..], p, i - 1); }
  }

  lemma {:induction false} KeepNone(s: string, p: char -> bool)
    requires !Any(s, p)
    ensures Keep(s, p) == []
  {
    if s != [] {
      assert !p(s[0]);
      assert forall i :: 0 <= i < |s[1..]| ==> s[1..][i] == s[i + 1];
      KeepNone(s[1..], p);
    }
  }

  /** Removes a leading dial code once. */
  function StripDial(digits: string, dial: string): (r: string)
    ensures StartsWith(digits, dial) ==> dial + r == digits
    ensures !StartsWith(digits, dial) ==> r == digits
  {
    if StartsWith(digits, dial) then digits[|dial|..] else digits
  }

  /** The `contact` kept from a phone event: digits only, dial code stripped once, cut to `maxDigits`. */
  function PhoneDigits(value: string, dial: string, maxDigits: nat): (r: string)
    ensures All(r, IsDigit)
    ensures |r| <= maxDigits
    ensures r <= StripDial(Keep(value, IsDigit), dial)
    ensures |r| == if |StripDial(Keep(value, IsDigit), dial)| < maxDigits
                   then |StripDial(Keep(value, IsDigit), dial)| else maxDigits
  {
    var stripped := StripDial(Keep(value, IsDigit), dial);
    assert All(stripped, IsDigit) by {
      if StartsWith(Keep(value, IsDigit), dial) {
        forall i | 0 <= i < |stripped| ensures IsDigit(stripped[i]) {
          assert stripped[i] == Keep(value, IsDigit)[i + |dial|];
        }
      }
    }
    if |stripped| < maxDigits then stripped else stripped[..maxDigits]
  }

  /** The draft after the phone input's `onChange(value, country)`. */
  function PhoneUpdated(form: Form, value: string, dial: string, countryCode: string): (f: Form)
    ensures var contact := PhoneDigits(value, dial, MaxDigits(Upper(countryCode)));
      && Get(f, "contact") == Str(contact)
      && Get(f, "fullPhone") == Str(dial + contact)
      && Get(f, "maxLength") == Num(MaxDigits(Upper(countryCode)))
      && Get(f, "countryIso") == Str(Upper(countryCode))
      && Get(f, "countryDialCode") == Str(dial)
    ensures forall k :: k !in {"fullPhone", "contact", "maxLength", "countryIso", "countryDialCode"} ==>
      Get(f, k) == Get(form, k)
  {
    var iso := Upper(countryCode);
    var maxDigits := MaxDigits(iso);
    var contact := PhoneDigits(value, dial, maxDigits);
    form["fullPhone" := Str(dial + contact)]["contact" := Str(contact)]["maxLength" := Num(maxDigits)]
        ["countryIso" := Str(iso)]["countryDialCode" := Str(dial)]
  }

  /**
   * After a phone event the phone-length check of `validate()` passes exactly
   * when the number typed after the dial code had at least the country's
   * digit count (the input is cut at that count).
   */
  lemma PhoneCheckAfterEvent(form: Form, value: string, dial: string, countryCode: string)
    ensures BasicGates(PhoneUpdated(form, value, dial, countryCode))[5] == Ok <==> |StripDial(Keep(value, IsDigit), dial)| >= MaxDigits(Upper(countryCode))
  {
  }

  /**
   * A number typed in full after its dial code is kept as typed: the dial code
   * goes, the local digits stay, and extra digits beyond the country's count
   * are cut.
   */
  lemma PhoneDigitsOfTypedNumber(dial: string, local: string, maxDigits: nat)
    requires All(dial, IsDigit) && All(local, IsDigit)
    ensures PhoneDigits(dial + local, dial, maxDigits) ==
      if |local| < maxDigits then local else local[..maxDigits]
  {
    var typed := dial + local;
    assert All(typed, IsDigit);
    assert typed[..|dial|] == dial;
    assert typed[|dial|..] == local;
  }

  /** `onChange` of the phone input: five writes to the draft, in the source's order. */
  method OnPhoneChange(d: DraftForm, value: string, dial: string, countryCode: string)
    modifies d
    ensures d.fields == PhoneUpdated(old(d.fields), value, dial, countryCode)
  {
    var iso := Upper(countryCode);
    var maxDigits := MaxDigits(iso);
    var contact := PhoneDigits(value, dial, maxDigits);
    d.Update("fullPhone", Str(dial + contact));
    d.Update("contact", Str(contact));
    d.Update("maxLength", Num(maxDigits));
    d.Update("countryIso", Str(iso));
    d.Update("countryDialCode", Str(dial));
  }

  /** `onChange` of the first- and last-name inputs. */
  method OnNameChange(d: DraftForm, key: string, raw: string)
    requires key == "firstName" || key == "lastName"
    modifies d
    ensures d.fields == old(d.fields)[key := Str(NormaliseName(raw))]
  {
    d.Update(key, Str(NormaliseName(raw)));
  }

  /** `onChange` of the alternate-contact input: digits only. */
  method OnAltContactChange(d: DraftForm, raw: string)
    modifies d
    ensures d.fields == old(d.fields)["altContact" := Str(Keep(raw, IsDigit))]
  {
    d.Update("altContact", Str(Keep(raw, IsDigit)));
  }

  /** `onChange` of the email and password inputs: stored as typed. */
  method OnPlainChange(d: DraftForm, key: string, raw: string)
    requires key == "email" || key == "password"
    modifies d
    ensures d.fields == old(d.fields)[key := Str(raw)]
  {
    d.Update(key, Str(raw));
  }
}
