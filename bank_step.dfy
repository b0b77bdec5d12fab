/**
 * Step 4 of the registration wizard (app/auth/register/step4Bank.tsx): the
 * account holder's name, the account number, the IFSC code whose lookup
 * fills in bank, branch, city and state, and the cheque upload.
 */
module BankStep {
  import opened Strings
  import opened Draft
  import opened Checks

  /** The holder-name input: `[A-Za-z ]` only, then capitalised. */
  function HolderNameInput(value: string): string {
    Capitalize(Keep(value, IsLetterOrSpace))
  }

  /** The stored holder name has only letters and spaces, and capitalising removed nothing. */
  lemma HolderNameInputShape(value: string)
    ensures All(HolderNameInput(value), IsLetterOrSpace)
    ensures |HolderNameInput(value)| == |Keep(value, IsLetterOrSpace)|
    ensures |HolderNameInput(value)| == |value| <==> All(value, IsLetterOrSpace)
  {
    var cleaned := Keep(value, IsLetterOrSpace);
    var r := HolderNameInput(value);
    forall i | 0 <= i < |r| ensures IsLetterOrSpace(r[i]) {
      if i == 0 { assert r[0] == UpperChar(cleaned[0]); } else { assert r[i] == LowerChar(cleaned[i]); }
    }
    KeepUnchangedIff(value, IsLetterOrSpace);
    if |cleaned| == |value| && !All(value, IsLetterOrSpace) {
      KeepShorter(value, IsLetterOrSpace);
    }
  }

  /** Dropping any character makes the result strictly shorter. */
  lemma {:induction false} KeepShorter(s: string, p: char -> bool)
    requires !All(s, p)
    ensures |Keep(s, p)| < |s|
  {
    if p(s[0]) {
      assert !All(s[1..], p) by {
        var i :| 0 <= i < |s| && !p(s[i]);
        assert s[1..][i - 1] == s[i];
      }
      KeepShorter(s[1..], p);
    }
  }

  /** The message `handleAccountHolderName` sets: empty when nothing was removed. */
  function NameErrorFor(value: string): (e: string)
    ensures e == "" <==> All(value, IsLetterOrSpace)
  {
    KeepUnchangedIff(value, IsLetterOrSpace);
    if Keep(value, IsLetterOrSpace) != value then "Only letters are allowed" else ""
  }

  /** What a reply of the IFSC lookup service can be. */
  datatype LookupReply =
    | LookupFailed              // the request or the JSON decoding threw
    | Received(body: Form)      // the decoded record; `null` and non-objects have no properties

  /** The four writes of a reply with a truthy `BANK`; missing properties write `undefined`. */
  function LookupApplied(form: Form, body: Form): (f: Form)
    ensures Get(f, "bankName") == Get(body, "BANK") && Get(f, "branch") == Get(body, "BRANCH")
    ensures Get(f, "city") == Get(body, "CITY") && Get(f, "state") == Get(body, "STATE")
    ensures forall k :: k !in {"bankName", "branch", "city", "state"} ==> Get(f, k) == Get(form, k)
  {
    form["bankName" := Get(body, "BANK")]["branch" := Get(body, "BRANCH")]
        ["city" := Get(body, "CITY")]["state" := Get(body, "STATE")]
  }

  // ---------------------------------------------------------------------------
  // validate()
  // ---------------------------------------------------------------------------

  /** `!form[key].trim()` alerts. */
  function Required(form: Form, key: string, message: string): Gate {
    NeedText(Get(form, key), !IsBlank(Text(Get(form, key))), message)
  }

  /** The checks of `validate()`, in the order they run; `nameError` is the step's own state. */
  function BankGates(form: Form, nameError: string): seq<Gate> {
    var ifsc := Get(form, "ifsc");
    [ Required(form, "accountHolderName", "Account holder name is required"),
      Need(nameError == "", "Account Holder Name contains invalid characters"),
      Required(form, "accountNumber", "Account number is required"),
      NeedText(ifsc, !IsBlank(Text(ifsc)) && |Text(ifsc)| == 11, "Valid IFSC is required"),
      Required(form, "bankName", "Bank name is required"),
      Required(form, "branch", "Branch is required"),
      Required(form, "city", "City is required"),
      Required(form, "state", "State is required"),
      Need(Truthy(Get(form, "chequeUrl")), "Cancelled Cheque / Passbook upload is required") ]
  }

  /** `validate()`: Pass means `next()` is called. */
  function ValidateBank(form: Form, nameError: string): Check {
    FirstFailure(BankGates(form, nameError))
  }

  predicate Present(form: Form, key: string) {
    Get(form, key).Str? && !IsBlank(Get(form, key).s)
  }

  /** What step 4 requires: every text field present, an 11-character IFSC, no name error, a cheque. */
  predicate BankAccepted(form: Form, nameError: string) {
    && Present(form, "accountHolderName") && nameError == ""
    && Present(form, "accountNumber")
    && Present(form, "ifsc") && |Get(form, "ifsc").s| == 11
    && Present(form, "bankName") && Present(form, "branch")
    && Present(form, "city") && Present(form, "state")
    && Truthy(Get(form, "chequeUrl"))
  }

  lemma ValidateBankPassIff(form: Form, nameError: string)
    ensures ValidateBank(form, nameError) == Pass <==> BankAccepted(form, nameError)
  {
    AllOkNine(BankGates(form, nameError));
  }

  /**
   * A lookup reply with a bank but no branch writes `undefined` into the
   * draft's `branch`, and then `validate()` can never call `next()`: once
   * the checks before it pass, reading `branch.trim()` throws.
   */
  lemma ReplyWithoutBranchBlocks(form: Form, body: Form, nameError: string)
    requires Truthy(Get(body, "BANK")) && "BRANCH" !in body
    ensures ValidateBank(LookupApplied(form, body), nameError) != Pass
    ensures (forall i :: 0 <= i < 5 ==> BankGates(LookupApplied(form, body), nameError)[i] == Ok) ==>
      ValidateBank(LookupApplied(form, body), nameError) == Thrown
  {
    var g := BankGates(LookupApplied(form, body), nameError);
    assert g[5] == Throws;
    if forall i :: 0 <= i < 5 ==> g[i] == Ok {
      assert FirstBlockingAt(g, 5);
    }
  }

  /** The step's own state: the holder-name message and the lookup indicator. */
  class BankDetails {
    var nameError: string
    var ifscLoading: bool

    constructor ()
      ensures nameError == "" && !ifscLoading
    {
      nameError := "";
      ifscLoading := false;
    }

    /** `handleAccountHolderName(value)` */
    method OnHolderNameChange(d: DraftForm, value: string)
      modifies this, d
      ensures d.fields == old(d.fields)["accountHolderName" := Str(HolderNameInput(value))]
      ensures nameError == NameErrorFor(value)
      ensures nameError == "" <==> All(value, IsLetterOrSpace)
      ensures ifscLoading == old(ifscLoading)
    {
      var cleaned := Keep(value, IsLetterOrSpace);
      d.Update("accountHolderName", Str(Capitalize(cleaned)));
      if cleaned != value {
        nameError := "Only letters are allowed";
      } else {
        nameError := "";
      }
    }

    /**
     * The start of `fetchBankDetails(ifsc)`: a code shorter than 11
     * characters does nothing; otherwise the indicator is switched on and
     * the request goes out (the result says whether it did).
     */
    method BeginLookup(ifsc: string) returns (sent: bool)
      modifies this
      ensures sent <==> |ifsc| >= 11
      ensures ifscLoading == (if sent then true else old(ifscLoading))
      ensures nameError == old(nameError)
    {
      if |ifsc| < 11 {
        return false;
      }
      ifscLoading := true;
      sent := true;
    }

    /**
     * The rest of `fetchBankDetails`: a reply with a truthy `BANK` fills in
     * the four bank fields, any other reply alerts "Invalid IFSC Code", a
     * failure alerts "Error fetching IFSC details"; the indicator ends off.
     */
    method FinishLookup(d: DraftForm, reply: LookupReply) returns (alert: Option<string>)
      modifies this, d
      ensures !ifscLoading && nameError == old(nameError)
      ensures reply.LookupFailed? ==> alert == Some("Error fetching IFSC details") && d.fields == old(d.fields)
      ensures reply.Received? && Truthy(Get(reply.body, "BANK")) ==>
        alert == None && d.fields == LookupApplied(old(d.fields), reply.body)
      ensures reply.Received? && !Truthy(Get(reply.body, "BANK")) ==>
        alert == Some("Invalid IFSC Code") && d.fields == old(d.fields)
    {
      match reply {
        case LookupFailed =>
          alert := Some("Error fetching IFSC details");
        case Received(body) =>
          if Truthy(Get(body, "BANK")) {
            d.Update("bankName", Get(body, "BANK"));
            d.Update("branch", Get(body, "BRANCH"));
            d.Update("city", Get(body, "CITY"));
            d.Update("state", Get(body, "STATE"));
            alert := None;
          } else {
            alert := Some("Invalid IFSC Code");
          }
      }
      ifscLoading := false;
    }
  }

  /**
   * `onChange` of the IFSC input: stores the upper-cased text, and returns
   * the code to look up when the typed text is exactly 11 characters long.
   */
  method OnIfscChange(d: DraftForm, value: string) returns (lookup: Option<string>)
    modifies d
    ensures d.fields == old(d.fields)["ifsc" := Str(Upper(value))]
    ensures lookup.Some? <==> |value| == 11
    ensures lookup.Some? ==> lookup.value == Upper(value) && |lookup.value| == 11
  {
    d.Update("ifsc", Str(Upper(value)));
    if |value| == 11 {
      lookup := Some(Upper(value));
    } else {
      lookup := None;
    }
  }

  /** `handleFileUpload(e)` of the cheque: stored without any check of extension or size. */
  method OnChequeUpload(d: DraftForm, file: Option<FileRef>, preview: string)
    modifies d
    ensures file.None? ==> d.fields == old(d.fields)
    ensures file.Some? ==>
      d.fields == old(d.fields)["chequeUrl" := Str(preview)]["cheque" := FileVal(file.value)]
  {
    if file.Some? {
      d.Update("chequeUrl", Str(preview));
      d.Update("cheque", FileVal(file.value));
    }
  }

  /** `onChange` of the account-number input: stored as typed. */
  method OnAccountNumberChange(d: DraftForm, raw: string)
    modifies d
    ensures d.fields == old(d.fields)["accountNumber" := Str(raw)]
  {
    d.Update("accountNumber", Str(raw));
  }
}
