/**
 * Step 2 of the registration wizard (app/auth/register/step2Personal.tsx):
 * father's name, date of birth (at least 18 years old), profession, annual
 * income and the two addresses, with a checkbox that copies the
 * communication address into the permanent one.
 */
module PersonalStep {
  import opened Strings
  import opened Draft
  import opened Checks

  // ---------------------------------------------------------------------------
  // Names
  // ---------------------------------------------------------------------------

  /** `formatName(v)`: first character upper-case, the rest lower-case. */
  function FormatName(v: string): string {
    Capitalize(v)
  }

  /** `isValidName(v)`: `/^[A-Za-z ]+$/` */
  predicate IsValidName(v: string) {
    |v| > 0 && All(v, IsLetterOrSpace)
  }

  /**
   * Formatting never removes or reorders characters, only changes their
   * case, so it never changes whether the name is valid.
   */
  lemma FormatNameKeepsValidity(v: string)
    ensures |FormatName(v)| == |v|
    ensures Lower(FormatName(v)) == Lower(v)
    ensures IsValidName(FormatName(v)) <==> IsValidName(v)
  {
    CapitalizePreservesLetters(v);
    var f := FormatName(v);
    forall i | 0 <= i < |v| ensures IsLetterOrSpace(f[i]) <==> IsLetterOrSpace(v[i]) {
      if i == 0 { assert f[0] == UpperChar(v[0]); } else { assert f[i] == LowerChar(v[i]); }
    }
  }

  lemma FormatNameIdempotent(v: string)
    ensures FormatName(FormatName(v)) == FormatName(v)
  {
    CapitalizeIdempotent(v);
  }

  // ---------------------------------------------------------------------------
  // Age
  // ---------------------------------------------------------------------------

  /** The year and the zero-based month of a `Date`, as `getFullYear()`/`getMonth()` see them. */
  datatype YearMonth = YearMonth(year: int, month: int)

  /**
   * `is18Plus(dobStr)`: `dob` is `new Date(dobStr)`, None when it is an
   * Invalid Date (whose year and month are NaN, so both comparisons fail);
   * `today` is `new Date()`. The day of the month is not consulted.
   */
  predicate Is18Plus(dob: Option<YearMonth>, today: YearMonth) {
    match dob
    case None => false
    case Some(d) =>
      var age := today.year - d.year;
      var m := today.month - d.month;
      age > 18 || (age == 18 && m >= 0)
  }

  predicate ValidMonth(d: YearMonth) { 0 <= d.month < 12 }

  /**
   * With months in range, the check says: the calendar month of the 18th
   * birthday has been reached.
   */
  lemma Is18PlusMeaning(dob: YearMonth, today: YearMonth)
    requires ValidMonth(dob) && ValidMonth(today)
    ensures Is18Plus(Some(dob), today) <==>
      12 * today.year + today.month >= 12 * (dob.year + 18) + dob.month
  {
  }

  /**
   * The day is ignored: in the month of the 18th birthday the check passes
   * whatever the day, one month earlier it fails.
   */
  lemma Is18PlusBirthdayMonth(dob: YearMonth)
    requires ValidMonth(dob)
    ensures Is18Plus(Some(dob), YearMonth(dob.year + 18, dob.month))
    ensures dob.month > 0 ==> !Is18Plus(Some(dob), YearMonth(dob.year + 18, dob.month - 1))
    ensures dob.month == 0 ==> !Is18Plus(Some(dob), YearMonth(dob.year + 17, 11))
  {
  }

  // ---------------------------------------------------------------------------
  // validate()
  // ---------------------------------------------------------------------------

  /** `!form[key].trim()` alerts, then `!isValidName(form[key])` alerts. */
  function NameGates(v: Value, required: string, letters: string): seq<Gate> {
    [ NeedText(v, !IsBlank(Text(v)), required),
      Need(IsValidName(Show(v)), letters) ]
  }

  function DobGates(v: Value, dob: Option<YearMonth>, today: YearMonth): seq<Gate> {
    [ Need(Truthy(v), "Date of Birth is required"),
      Need(Is18Plus(dob, today), "Age must be 18 or above") ]
  }

  /** `Number(form.annualIncome)`: not a number, or not positive, alerts. */
  function IncomeGates(v: Value): seq<Gate> {
    var n := ParseInteger(Show(v));
    [ NeedText(v, !IsBlank(Text(v)), "Annual Income is required"),
      Need(n.Some?, "Annual Income must be a number"),
      Need(!(n.Some? && n.value <= 0), "Annual Income must be positive") ]
  }

  /** `!form[key].trim()` alerts, then `form[key].length < 10` alerts. */
  function AddressGates(v: Value, required: string, short: string): seq<Gate> {
    [ NeedText(v, !IsBlank(Text(v)), required),
      NeedText(v, |Text(v)| >= 10, short) ]
  }

  /** The checks of `validate()`, in the order they run. */
  function PersonalGates(form: Form, dob: Option<YearMonth>, today: YearMonth): seq<Gate> {
    NameGates(Get(form, "fatherName"), "Father\U{2019}s Name is required", "Father\U{2019}s Name must contain only letters")
    + DobGates(Get(form, "dob"), dob, today)
    + NameGates(Get(form, "profession"), "Profession is required", "Profession should contain only letters")
    + IncomeGates(Get(form, "annualIncome"))
    + AddressGates(Get(form, "communicationAddress"), "Communication Address is required",
                   "Address must be at least 10 characters")
    + AddressGates(Get(form, "permanentAddress"), "Permanent Address is required",
                   "Permanent Address must be at least 10 characters")
  }

  /**
   * `validate()`: `dob` is the `Date` parsed from `form.dob` and `today` the
   * current date; Pass means `next()` is called.
   */
  function ValidatePersonal(form: Form, dob: Option<YearMonth>, today: YearMonth): Check {
    FirstFailure(PersonalGates(form, dob, today))
  }

  predicate NameAccepted(v: Value) {
    v.Str? && !IsBlank(v.s) && IsValidName(v.s)
  }

  predicate IncomeAccepted(v: Value) {
    v.Str? && ParseInteger(v.s).Some? && ParseInteger(v.s).value > 0
  }

  predicate AddressAccepted(v: Value) {
    v.Str? && !IsBlank(v.s) && |v.s| >= 10
  }

  /** What step 2 requires of the draft, field by field. */
  predicate PersonalAccepted(form: Form, dob: Option<YearMonth>, today: YearMonth) {
    && NameAccepted(Get(form, "fatherName"))
    && Truthy(Get(form, "dob")) && Is18Plus(dob, today)
    && NameAccepted(Get(form, "profession"))
    && IncomeAccepted(Get(form, "annualIncome"))
    && AddressAccepted(Get(form, "communicationAddress"))
    && AddressAccepted(Get(form, "permanentAddress"))
  }

  lemma NameGatesPassIff(v: Value, required: string, letters: string)
    ensures AllOk(NameGates(v, required, letters)) <==> NameAccepted(v)
  {
    AllOkTwo(NameGates(v, required, letters)[0], NameGates(v, required, letters)[1]);
  }

  /** Blank text is 0 to `Number`, so the "positive" check, not the "number" one, rejects it. */
  lemma IncomeGatesPassIff(v: Value)
    ensures AllOk(IncomeGates(v)) <==> IncomeAccepted(v)
  {
    var g := IncomeGates(v);
    AllOkThree(g[0], g[1], g[2]);
    if v.Str? && IsBlank(v.s) {
      assert Trim(v.s) == [];
      assert ParseInteger(v.s) == Some(0);
    }
  }

  lemma AddressGatesPassIff(v: Value, required: string, short: string)
    ensures AllOk(AddressGates(v, required, short)) <==> AddressAccepted(v)
  {
    AllOkTwo(AddressGates(v, required, short)[0], AddressGates(v, required, short)[1]);
  }

  /** `validate()` calls `next()` exactly when every field of step 2 is acceptable. */
  lemma ValidatePersonalPassIff(form: Form, dob: Option<YearMonth>, today: YearMonth)
    ensures ValidatePersonal(form, dob, today) == Pass <==> PersonalAccepted(form, dob, today)
  {
    var father := NameGates(Get(form, "fatherName"), "Father\U{2019}s Name is required", "Father\U{2019}s Name must contain only letters");
    var birth := DobGates(Get(form, "dob"), dob, today);
    var job := NameGates(Get(form, "profession"), "Profession is required", "Profession should contain only letters");
    var income := IncomeGates(Get(form, "annualIncome"));
    var comm := AddressGates(Get(form, "communicationAddress"), "Communication Address is required",
                             "Address must be at least 10 characters");
    var perm := AddressGates(Get(form, "permanentAddress"), "Permanent Address is required",
                             "Permanent Address must be at least 10 characters");
    assert PersonalGates(form, dob, today) == father + birth + job + income + comm + perm;
    AllOkAppend(father + birth + job + income + comm, perm);
    AllOkAppend(father + birth + job + income, comm);
    AllOkAppend(father + birth + job, income);
    AllOkAppend(father + birth, job);
    AllOkAppend(father, birth);
    NameGatesPassIff(Get(form, "fatherName"), "Father\U{2019}s Name is required", "Father\U{2019}s Name must contain only letters");
    AllOkTwo(birth[0], birth[1]);
    NameGatesPassIff(Get(form, "profession"), "Profession is required", "Profession should contain only letters");
    IncomeGatesPassIff(Get(form, "annualIncome"));
    AddressGatesPassIff(Get(form, "communicationAddress"), "Communication Address is required",
                        "Address must be at least 10 characters");
    AddressGatesPassIff(Get(form, "permanentAddress"), "Permanent Address is required",
                        "Permanent Address must be at least 10 characters");
  }

  /** A name of spaces only is a valid name but not a present one: the "required" check catches it. */
  lemma SpacesOnlyNameRejected(v: string)
    requires v != [] && All(v, c => c == ' ')
    ensures IsValidName(v)
    ensures NameGates(Str(v), "r", "l")[0] == Fails("r")
  {
    BlankIffAllSpace(v);
  }

  // ---------------------------------------------------------------------------
  // Input handlers
  // ---------------------------------------------------------------------------

  /** The income input drops everything but digits. */
  function IncomeInput(raw: string): string {
    Keep(raw, IsDigit)
  }

  /**
   * An income typed through the input passes the income checks exactly when
   * it has a non-zero digit.
   */
  lemma IncomeInputAccepted(raw: string)
    ensures IncomeAccepted(Str(IncomeInput(raw))) <==> exists i :: 0 <= i < |IncomeInput(raw)| && IncomeInput(raw)[i] != '0'
  {
    var s := IncomeInput(raw);
    ParseDigits(s);
    DecimalValueZeroIff(s);
  }

  /** The step's own state: the "same as communication address" checkbox. */
  class PersonalDetails {
    var sameAddress: bool

    constructor ()
      ensures !sameAddress
    {
      sameAddress := false;
    }

    /** The checkbox's `onChange`: ticking it copies the communication address. */
    method OnSameAddressToggle(d: DraftForm, checked: bool)
      modifies this, d
      ensures sameAddress == checked
      ensures checked ==>
        d.fields == old(d.fields)["permanentAddress" := Get(old(d.fields), "communicationAddress")]
      ensures !checked ==> d.fields == old(d.fields)
    {
      sameAddress := checked;
      if checked {
        d.Update("permanentAddress", Get(d.fields, "communicationAddress"));
      }
    }
  }

  /** After the copy, the permanent address passes its checks exactly when the communication one does. */
  lemma SameAddressCopies(form: Form)
    ensures var f := form["permanentAddress" := Get(form, "communicationAddress")];
      AddressAccepted(Get(f, "permanentAddress")) <==> AddressAccepted(Get(f, "communicationAddress"))
  {
  }

  /** `onChange` of the father's name and profession inputs. */
  method OnNameChange(d: DraftForm, key: string, raw: string)
    requires key == "fatherName" || key == "profession"
    modifies d
    ensures d.fields == old(d.fields)[key := Str(FormatName(raw))]
  {
    d.Update(key, Str(FormatName(raw)));
  }

  /** `onChange` of the income input. */
  method OnIncomeChange(d: DraftForm, raw: string)
    modifies d
    ensures d.fields == old(d.fields)["annualIncome" := Str(IncomeInput(raw))]
    ensures All(Text(Get(d.fields, "annualIncome")), IsDigit)
  {
    d.Update("annualIncome", Str(IncomeInput(raw)));
  }

  /** `onChange` of the date and the two address inputs: stored as typed. */
  method OnPlainChange(d: DraftForm, key: string, raw: string)
    requires key == "dob" || key == "communicationAddress" || key == "permanentAddress"
    modifies d
    ensures d.fields == old(d.fields)[key := Str(raw)]
  {
    d.Update(key, Str(raw));
  }
}
