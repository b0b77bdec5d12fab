/**
 * The registration draft of app/auth/register/page.tsx: an untyped record
 * (`useState<any>`) whose values are strings, numbers (the phone length),
 * `File` objects (uploads) and `undefined` (what a missing property of a
 * lookup reply writes), changed only through the one-key merge `updateField`.
 */
module Draft {
  import opened Strings

  /** A browser `File`: its name, its size in bytes, and an identity. */
  datatype FileRef = FileRef(name: string, size: nat, handle: nat)

  /** A JavaScript value as stored in the draft. */
  datatype Value = Undefined | Str(s: string) | Num(n: int) | FileVal(file: FileRef)

  type Form = map<string, Value>

  /** `form[key]`: a key the record does not have reads as `undefined`. */
  function Get(form: Form, key: string): Value {
    if key in form then form[key] else Undefined
  }

  /** JavaScript truthiness. */
  predicate Truthy(v: Value) {
    match v
    case Undefined => false
    case Str(s) => s != []
    case Num(n) => n != 0
    case FileVal(_) => true
  }

  /** `String(v)`: what a template literal or a regular-expression test sees. */
  function Show(v: Value): string {
    match v
    case Undefined => "undefined"
    case Str(s) => s
    case Num(n) => IntToString(n)
    case FileVal(_) => "[object File]"
  }

  /** The keys of the initial draft, in declaration order. */
  const InitialKeys: seq<string> := [
    "firstName", "lastName", "email", "password", "contact", "altContact",
    "fatherName", "dob", "profession", "annualIncome", "communicationAddress", "permanentAddress",
    "aadhaarNumber", "panNumber", "aadhaarUrl", "panUrl", "photoUrl",
    "accountHolderName", "accountNumber", "ifsc", "bankName", "branch", "city", "state", "chequeUrl"
  ]

  /** The draft the wizard mounts with: every listed key set to the empty string. */
  function InitialForm(): (f: Form)
    ensures forall k :: k in f <==> k in InitialKeys
    ensures forall k :: k in f ==> f[k] == Str("")
  {
    map k | k in InitialKeys :: Str("")
  }

  /** The initial draft has 25 distinct keys. */
  lemma InitialKeysDistinct()
    ensures |InitialKeys| == 25
    ensures forall i, j :: 0 <= i < j < |InitialKeys| ==> InitialKeys[i] != InitialKeys[j]
  {
  }

  /**
   * No value of the initial draft is truthy, and it has no `maxLength`,
   * `fullPhone`, `countryIso` or `countryDialCode` key.
   */
  lemma InitialFormEmpty()
    ensures forall k :: !Truthy(Get(InitialForm(), k))
    ensures Get(InitialForm(), "maxLength") == Undefined
    ensures forall k :: k in ["fullPhone", "countryIso", "countryDialCode"] ==> k !in InitialForm()
  {
  }

  /** The `form` state of the wizard page, shared by all step components as `update`. */
  class DraftForm {
    var fields: Form

    constructor ()
      ensures fields == InitialForm()
    {
      fields := InitialForm();
    }

    /** `updateField(key, value)`: `{ ...p, [key]: value }`. */
    method Update(key: string, value: Value)
      modifies this
      ensures fields == old(fields)[key := value]
      ensures Get(fields, key) == value
      ensures forall k :: k != key ==> Get(fields, k) == Get(old(fields), k)
      ensures fields.Keys == old(fields).Keys + {key}
    {
      fields := fields[key := value];
    }
  }
}

/**
 * The shape shared by every step's `validate()`: a chain of checks run in
 * order, where the first failing one raises its `alert` and returns, and
 * `next()` is called only when all of them pass. A check that reads a string
 * method of a value that is not a string throws a TypeError, which aborts the
 * handler without an alert and without `next()`.
 */
module Checks {
  import opened Draft

  datatype Gate = Ok | Fails(message: string) | Throws

  /** What a `validate()` does: calls `next()`, alerts, or throws. */
  datatype Check = Pass | Alert(message: string) | Thrown

  /** `if (!cond) return alert(message)` */
  function Need(cond: bool, message: string): (g: Gate)
    ensures g == Ok <==> cond
  {
    if cond then Ok else Fails(message)
  }

  /** The string inside `v`, or the empty string when `v` is not a string. */
  function Text(v: Value): string {
    if v.Str? then v.s else []
  }

  /**
   * A check that first reads `v` as a string (`.trim()`, `.length`): it
   * throws when `v` is not one, and otherwise passes when `ok`, a condition
   * on `Text(v)`, holds.
   */
  function NeedText(v: Value, ok: bool, message: string): (g: Gate)
    ensures g == Ok <==> v.Str? && ok
    ensures g == Throws <==> !v.Str?
  {
    if v.Str? then Need(ok, message) else Throws
  }

  function Outcome(g: Gate): Check
    requires g != Ok
  {
    match g
    case Fails(m) => Alert(m)
    case Throws => Thrown
  }

  /** Gate `i` is the first one that does not pass. */
  ghost predicate FirstBlockingAt(gates: seq<Gate>, i: int) {
    0 <= i < |gates| && gates[i] != Ok && forall j :: 0 <= j < i ==> gates[j] == Ok
  }

  /** Every check of the chain passes. */
  predicate AllOk(gates: seq<Gate>) {
    forall i :: 0 <= i < |gates| ==> gates[i] == Ok
  }

  /** A chain of eight checks passes when each of its checks does. */
  lemma AllOkEight(gates: seq<Gate>)
    requires |gates| == 8
    ensures AllOk(gates) <==>
      && gates[0] == Ok && gates[1] == Ok && gates[2] == Ok && gates[3] == Ok
      && gates[4] == Ok && gates[5] == Ok && gates[6] == Ok && gates[7] == Ok
  {
  }

  /** A chain of nine checks passes when each of its checks does. */
  lemma AllOkNine(gates: seq<Gate>)
    requires |gates| == 9
    ensures AllOk(gates) <==>
      && gates[0] == Ok && gates[1] == Ok && gates[2] == Ok && gates[3] == Ok && gates[4] == Ok
      && gates[5] == Ok && gates[6] == Ok && gates[7] == Ok && gates[8] == Ok
  {
  }

  /** A chain made of two chains passes when both do. */
  lemma AllOkAppend(a: seq<Gate>, b: seq<Gate>)
    ensures AllOk(a + b) <==> AllOk(a) && AllOk(b)
  {
    if AllOk(a) && AllOk(b) {
      forall i | 0 <= i < |a + b| ensures (a + b)[i] == Ok {
        if i >= |a| { assert (a + b)[i] == b[i - |a|]; }
      }
    }
    if AllOk(a + b) {
      forall i | 0 <= i < |a| ensures a[i] == Ok { assert (a + b)[i] == a[i]; }
      forall i | 0 <= i < |b| ensures b[i] == Ok { assert (a + b)[i + |a|] == b[i]; }
    }
  }

  /** A chain of two checks passes when both do. */
  lemma AllOkTwo(a: Gate, b: Gate)
    ensures AllOk([a, b]) <==> a == Ok && b == Ok
  {
    assert [a, b][0] == a && [a, b][1] == b;
  }

  /** A chain of three checks passes when all three do. */
  lemma AllOkThree(a: Gate, b: Gate, c: Gate)
    ensures AllOk([a, b, c]) <==> a == Ok && b == Ok && c == Ok
  {
    assert [a, b, c][0] == a && [a, b, c][1] == b && [a, b, c][2] == c;
  }

  /** Runs the chain: the outcome of the first gate that does not pass. */
  function FirstFailure(gates: seq<Gate>): (r: Check)
    ensures r == Pass <==> AllOk(gates)
    ensures forall i :: FirstBlockingAt(gates, i) ==> r == Outcome(gates[i])
  {
    if gates == [] then Pass
    else if gates[0] == Ok then
      var r := FirstFailure(gates[1..]);
      assert forall i :: FirstBlockingAt(gates, i) ==> FirstBlockingAt(gates[1..], i - 1) by {
        forall i | FirstBlockingAt(gates, i) ensures FirstBlockingAt(gates[1..], i - 1) {
          assert i != 0;
          forall j | 0 <= j < i - 1 ensures gates[1..][j] == Ok { assert gates[1..][j] == gates[j + 1]; }
        }
      }
      assert (forall i :: 0 <= i < |gates| ==> gates[i] == Ok) <==>
             (forall i :: 0 <= i < |gates[1..]| ==> gates[1..][i] == Ok) by {
        if forall i :: 0 <= i < |gates[1..]| ==> gates[1..][i] == Ok {
          forall i | 0 <= i < |gates| ensures gates[i] == Ok { if i > 0 { assert gates[i] == gates[1..][i - 1]; } }
        }
      }
      r
    else
      assert forall i :: FirstBlockingAt(gates, i) ==> i == 0;
      Outcome(gates[0])
  }
}
