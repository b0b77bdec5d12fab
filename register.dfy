/**
 * The registration wizard page (app/auth/register/page.tsx): the step
 * counter, the shared draft, the per-step validators that gate `next()`,
 * and `finalSubmit`, which posts the truthy draft entries as form data.
 */
module Register {
  import opened Strings
  import opened Draft
  import opened Checks
  import BasicStep
  import PersonalStep
  import KycStep
  import BankStep

  /** `next` of the step shown: steps 1 to 4 advance, step 5 goes back to 4. */
  function NextStep(step: int): (r: int)
    requires 1 <= step <= 5
    ensures 1 <= r <= 5
    ensures step <= 4 ==> r == step + 1
    ensures step == 5 ==> r == BackStep(5)
  {
    if step <= 4 then step + 1 else 4
  }

  /** `back`/`prev` of the step shown, which steps 2 to 5 have. */
  function BackStep(step: int): (r: int)
    requires 2 <= step <= 5
    ensures 1 <= r <= 4 && r == step - 1
  {
    step - 1
  }

  /** The validator of each of the first four steps; `dob` and `today` feed step 2, `nameError` step 4. */
  function StepCheck(step: int, form: Form, dob: Option<PersonalStep.YearMonth>, today: PersonalStep.YearMonth,
                     nameError: string): Check
    requires 1 <= step <= 4
  {
    if step == 1 then BasicStep.ValidateBasic(form)
    else if step == 2 then PersonalStep.ValidatePersonal(form, dob, today)
    else if step == 3 then KycStep.ValidateKyc(form)
    else BankStep.ValidateBank(form, nameError)
  }

  /** A draft that every step accepts leaves each validator at Pass. */
  lemma AcceptedEverywhere(form: Form, dob: Option<PersonalStep.YearMonth>, today: PersonalStep.YearMonth,
                           nameError: string)
    requires BasicStep.BasicAccepted(form)
    requires PersonalStep.PersonalAccepted(form, dob, today)
    requires KycStep.KycAccepted(form)
    requires BankStep.BankAccepted(form, nameError)
    ensures forall step :: 1 <= step <= 4 ==> StepCheck(step, form, dob, today, nameError) == Pass
  {
    BasicStep.ValidateBasicPassIff(form);
    PersonalStep.ValidatePersonalPassIff(form, dob, today);
    KycStep.ValidateKycPassIff(form);
    BankStep.ValidateBankPassIff(form, nameError);
  }

  /** The fresh draft is refused by step 1 (its first check: the first name is required). */
  lemma InitialDraftRefused()
    ensures StepCheck(1, InitialForm(), None, PersonalStep.YearMonth(0, 0), "") == Alert("First Name is required")
  {
    var g := BasicStep.BasicGates(InitialForm());
    assert Get(InitialForm(), "firstName") == Str("");
    assert FirstBlockingAt(g, 0);
  }

  // ---------------------------------------------------------------------------
  // The submission payload
  // ---------------------------------------------------------------------------

  /** One `fd.append(k, v)`: a `File` is sent as a file, anything else as its text. */
  datatype Part = Field(name: string, text: string) | FilePart(name: string, file: FileRef)

  function AppendPart(key: string, v: Value): (p: Part)
    ensures p.name == key
    ensures v.FileVal? <==> p.FilePart?
    ensures v.Str? ==> p == Field(key, v.s)
  {
    match v
    case FileVal(f) => FilePart(key, f)
    case _ => Field(key, Show(v))
  }

  /**
   * `parts` is a payload of `form`: one part per truthy entry and nothing
   * else, each key at most once. The order of `Object.entries` is not
   * modelled, so any order is a payload.
   */
  predicate IsPayloadOf(parts: seq<Part>, form: Form) {
    && (forall i :: 0 <= i < |parts| ==>
          parts[i].name in form && Truthy(form[parts[i].name]) && parts[i] == AppendPart(parts[i].name, form[parts[i].name]))
    && (forall i, j :: 0 <= i < j < |parts| ==> parts[i].name != parts[j].name)
    && (forall k :: k in form && Truthy(form[k]) ==> exists i :: 0 <= i < |parts| && parts[i].name == k)
  }

  /** The untouched draft sends nothing: every one of its values is the empty string. */
  lemma InitialPayloadEmpty(parts: seq<Part>)
    requires IsPayloadOf(parts, InitialForm())
    ensures parts == []
  {
    assert parts != [] ==> parts[0].name in InitialForm() && !Truthy(InitialForm()[parts[0].name]);
  }

  /** A payload is determined up to order: two payloads of one draft hold the same parts. */
  lemma PayloadUnique(p: seq<Part>, q: seq<Part>, form: Form)
    requires IsPayloadOf(p, form) && IsPayloadOf(q, form)
    ensures forall x :: x in p <==> x in q
  {
    forall x | x in p ensures x in q {
      var i :| 0 <= i < |p| && p[i] == x;
      var j :| 0 <= j < |q| && q[j].name == x.name;
      assert q[j] == x;
    }
    forall x | x in q ensures x in p {
      var j :| 0 <= j < |q| && q[j] == x;
      var i :| 0 <= i < |p| && p[i].name == x.name;
      assert p[i] == x;
    }
  }

  /** A file stored in the draft is sent exactly once, as a file part. */
  lemma StoredFileSentOnce(parts: seq<Part>, form: Form, key: string, f: FileRef)
    requires IsPayloadOf(parts, form)
    requires key in form && form[key] == FileVal(f)
    ensures exists i :: 0 <= i < |parts| && parts[i] == FilePart(key, f)
    ensures forall i, j :: 0 <= i < |parts| && 0 <= j < |parts| && parts[i].name == key && parts[j].name == key ==> i == j
  {
    var i :| 0 <= i < |parts| && parts[i].name == key;
    assert parts[i] == FilePart(key, f);
  }

  /** What the registration endpoint can answer. */
  datatype SubmitReply =
    | SubmitFailed                              // the request or the JSON decoding threw
    | Responded(ok: bool, body: Option<Form>)   // `res.ok` and the decoded body; None is `null`

  /** The alert `finalSubmit` raises for a reply, or None when it redirects. */
  function SubmitAlert(reply: SubmitReply): (a: Option<string>)
    ensures a == None <==> reply.Responded? && reply.ok
    ensures reply.SubmitFailed? ==> a == Some("Registration failed")
    ensures reply.Responded? && !reply.ok && reply.body.None? ==> a == Some("Registration failed")
    ensures reply.Responded? && !reply.ok && reply.body.Some? ==>
      var m := Get(reply.body.value, "message");
      a == Some(if Truthy(m) then Show(m) else "Failed")
  {
    match reply
    case SubmitFailed => Some("Registration failed")
    case Responded(ok, body) =>
      if ok then None
      else if body.None? then Some("Registration failed")   // `data.message` of null throws
      else
        var m := Get(body.value, "message");
        Some(if Truthy(m) then Show(m) else "Failed")
  }

  /** The page's state: the step shown, the submit indicator, the router, and the draft. */
  class RegisterWizard {
    var step: int
    var loading: bool
    var redirect: Option<string>
    const draft: DraftForm

    ghost predicate Valid()
      reads this
    {
      1 <= step <= 5
    }

    constructor ()
      ensures Valid() && step == 1 && !loading && redirect == None
      ensures fresh(draft) && draft.fields == InitialForm()
    {
      step := 1;
      loading := false;
      redirect := None;
      draft := new DraftForm();
    }

    /** `next` passed to the step shown. */
    method Next()
      requires Valid()
      modifies this
      ensures Valid() && step == NextStep(old(step))
      ensures loading == old(loading) && redirect == old(redirect)
    {
      step := NextStep(step);
    }

    /** `back`/`prev` passed to steps 2 to 5. */
    method Back()
      requires 2 <= step <= 5
      modifies this
      ensures Valid() && step == BackStep(old(step))
      ensures loading == old(loading) && redirect == old(redirect)
    {
      step := BackStep(step);
    }

    /**
     * The Next button of steps 1 to 4: the step's `validate()` runs on the
     * draft, and only a Pass moves to the following step.
     */
    method PressNext(dob: Option<PersonalStep.YearMonth>, today: PersonalStep.YearMonth, nameError: string)
      returns (outcome: Check)
      requires 1 <= step <= 4
      modifies this
      ensures outcome == StepCheck(old(step), draft.fields, dob, today, nameError)
      ensures outcome == Pass ==> step == old(step) + 1
      ensures outcome != Pass ==> step == old(step)
      ensures Valid() && loading == old(loading) && redirect == old(redirect)
    {
      outcome := StepCheck(step, draft.fields, dob, today, nameError);
      if outcome == Pass {
        Next();
      }
    }

    /** The form data `finalSubmit` builds: `if (v) fd.append(k, v)` for every entry. */
    method BuildPayload() returns (parts: seq<Part>)
      ensures IsPayloadOf(parts, draft.fields)
    {
      var form := draft.fields;
      var remaining := form.Keys;
      parts := [];
      while remaining != {}
        invariant remaining <= form.Keys
        invariant forall i :: 0 <= i < |parts| ==>
          parts[i].name in form && parts[i].name !in remaining && Truthy(form[parts[i].name])
          && parts[i] == AppendPart(parts[i].name, form[parts[i].name])
        invariant forall i, j :: 0 <= i < j < |parts| ==> parts[i].name != parts[j].name
        invariant forall k :: k in form && k !in remaining && Truthy(form[k]) ==>
          exists i :: 0 <= i < |parts| && parts[i].name == k
        decreases |remaining|
      {
        var k :| k in remaining;
        if Truthy(form[k]) {
          ghost var before := parts;
          parts := parts + [AppendPart(k, form[k])];
          assert forall i :: 0 <= i < |before| ==> parts[i] == before[i];
          assert parts[|parts| - 1].name == k;
        }
        remaining := remaining - {k};
      }
    }

    /** The start of `finalSubmit`: the indicator goes on and the payload is built. */
    method BeginSubmit() returns (parts: seq<Part>)
      modifies this
      ensures loading && step == old(step) && redirect == old(redirect)
      ensures IsPayloadOf(parts, draft.fields)
    {
      loading := true;
      parts := BuildPayload();
    }

    /**
     * The rest of `finalSubmit`: only an ok reply navigates, to the success
     * page; every other reply alerts. The step and the draft stay as they
     * are, and the indicator ends off.
     */
    method FinishSubmit(reply: SubmitReply) returns (alert: Option<string>)
      modifies this
      ensures !loading && step == old(step)
      ensures alert == SubmitAlert(reply)
      ensures alert == None ==> redirect == Some("/auth/registration-success")
      ensures alert != None ==> redirect == old(redirect)
    {
      alert := SubmitAlert(reply);
      if alert == None {
        redirect := Some("/auth/registration-success");
      }
      loading := false;
    }
  }
}
