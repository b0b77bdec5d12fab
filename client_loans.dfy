/**
 * The client's loans page (app/dashboard/client/loans/page.tsx): the loan
 * list and its counts, loading the list for the stored user, and the
 * payment modal with its FORM, PROCESSING, SUCCESS and ERROR steps.
 */
module ClientLoans {
  import opened Strings
  import opened Lists
  import opened Session

  /** A loan of `/loan/my-loans/<id>`; the outstanding amount is a whole number of rupees. */
  datatype Loan = Loan(id: string, outstanding: int, status: string)

  /** The steps of the payment modal. */
  datatype PayStep = Form | Processing | Success | Error

  /** An ACTIVE loan: counted as active, and its row carries "Pay Now". */
  predicate IsActive(l: Loan) { l.status == "ACTIVE" }

  predicate IsClosed(l: Loan) { l.status == "CLOSED" }

  /**
   * `activeLoans`: the ACTIVE loans in order, each as often as it occurs;
   * its length is the "Active Loans" count.
   */
  function ActiveLoans(loans: seq<Loan>): (r: seq<Loan>)
    ensures IsSubseq(r, loans)
    ensures forall l :: l in r <==> l in loans && IsActive(l)
    ensures |r| == CountIf(loans, IsActive)
  {
    FilterIsSubseq(loans, IsActive);
    FilterLength(loans, IsActive);
    Filter(loans, IsActive)
  }

  /** The "Closed Loans" count. */
  function ClosedCount(loans: seq<Loan>): (n: nat)
    ensures n == CountIf(loans, IsClosed)
  {
    FilterLength(loans, IsClosed);
    |Filter(loans, IsClosed)|
  }

  /** A loan is never both active and closed, so the two counts never exceed the total. */
  lemma CountsFitTotal(loans: seq<Loan>)
    ensures |ActiveLoans(loans)| + ClosedCount(loans) <= |loans|
  {
    DisjointFilters(loans, IsActive, IsClosed);
  }

  /** The amount the modal opens with: the outstanding amount, but at most 1000. */
  function DefaultAmount(outstanding: int): (a: int)
    ensures a <= outstanding && a <= 1000
    ensures a == outstanding || a == 1000
  {
    if outstanding < 1000 then outstanding else 1000
  }

  const InvalidAmount := "Please enter a valid amount."
  const AboveOutstanding := "Amount cannot be more than outstanding."
  const PaymentFailed := "Payment failed. Please try again."

  /**
   * The two checks of `handleSimulatePayment` on the typed amount: not a
   * number, zero or negative; then more than the outstanding amount.
   */
  function PaymentCheck(amount: string, outstanding: int): (r: Option<string>)
    ensures r == None <==>
      ParseInteger(amount).Some? && 0 < ParseInteger(amount).value <= outstanding
    ensures r == Some(InvalidAmount) <==>
      ParseInteger(amount).None? || ParseInteger(amount).value <= 0
    ensures r == Some(AboveOutstanding) <==>
      ParseInteger(amount).Some? && 0 < ParseInteger(amount).value && outstanding < ParseInteger(amount).value
  {
    match ParseInteger(amount)
    case None => Some(InvalidAmount)
    case Some(n) =>
      if n <= 0 then Some(InvalidAmount)
      else if n > outstanding then Some(AboveOutstanding)
      else None
  }

  /** The amount the modal proposes passes both checks exactly when something is outstanding. */
  lemma DefaultAmountAccepted(outstanding: int)
    ensures PaymentCheck(IntToString(DefaultAmount(outstanding)), outstanding) == None <==> outstanding > 0
  {
    ParseIntToString(DefaultAmount(outstanding));
  }

  /** What the loan-list request can end with; `loans` is None when the body has no `loans`. */
  datatype LoansReply = LoansFailed | LoansReceived(loans: Option<seq<Loan>>)

  /** The page's state: the list, its indicator and error, and the modal. */
  class LoansPage {
    var loans: seq<Loan>
    var loading: bool
    var error: string
    var selected: Option<Loan>
    var amount: string
    var step: PayStep
    var payError: string

    constructor ()
      ensures loans == [] && loading && error == ""
      ensures selected == None && amount == "" && step == Form && payError == ""
    {
      loans := [];
      loading := true;
      error := "";
      selected := None;
      amount := "";
      step := Form;
      payError := "";
    }

    /**
     * The start of `loadLoans`: with no stored user the page says so and
     * fetches nothing; a user entry that does not parse ends like a failed
     * request; otherwise the stored user's id is requested (the result).
     */
    method BeginLoad(ls: LocalStorage) returns (request: Option<string>)
      modifies this
      ensures !HasItem(ls.items, "user") ==> request == None && error == "You are not logged in." && !loading
      ensures HasItem(ls.items, "user") && ls.items["user"].Plain? ==>
        request == None && error == "Failed to load loans." && !loading
      ensures "user" in ls.items && ls.items["user"].UserJson? ==>
        request == Some(ls.items["user"].user.id) && error == "" && loading
      ensures loans == old(loans) && selected == old(selected) && amount == old(amount)
      ensures step == old(step) && payError == old(payError)
    {
      loading := true;
      error := "";
      if !HasItem(ls.items, "user") {
        error := "You are not logged in.";
        loading := false;
        return None;
      }
      match ls.items["user"] {
        case Plain(_) =>
          error := "Failed to load loans.";   // `JSON.parse` throws
          loading := false;
          request := None;
        case UserJson(user) =>
          request := Some(user.id);
      }
    }

    /** The end of `loadLoans`: `res.data.loans || []` replaces the list; a failure keeps it. */
    method FinishLoad(reply: LoansReply)
      modifies this
      ensures reply.LoansFailed? ==> loans == old(loans) && error == "Failed to load loans."
      ensures reply.LoansReceived? ==>
        error == old(error) && loans == (if reply.loans.Some? then reply.loans.value else [])
      ensures !loading && selected == old(selected) && amount == old(amount)
      ensures step == old(step) && payError == old(payError)
    {
      match reply {
        case LoansFailed =>
          error := "Failed to load loans.";
        case LoansReceived(list) =>
          loans := if list.Some? then list.value else [];
      }
      loading := false;
    }

    /** `openPaymentModal(loan)` */
    method Open(loan: Loan)
      modifies this
      ensures selected == Some(loan) && amount == IntToString(DefaultAmount(loan.outstanding))
      ensures step == Form && payError == ""
      ensures loans == old(loans) && loading == old(loading) && error == old(error)
    {
      selected := Some(loan);
      amount := IntToString(DefaultAmount(loan.outstanding));
      step := Form;
      payError := "";
    }

    /** `closePaymentModal()` */
    method Close()
      modifies this
      ensures selected == None && amount == "" && step == Form && payError == ""
      ensures loans == old(loans) && loading == old(loading) && error == old(error)
    {
      selected := None;
      amount := "";
      step := Form;
      payError := "";
    }

    /** Typing in the amount box. */
    method SetAmount(value: string)
      modifies this
      ensures amount == value && selected == old(selected) && step == old(step) && payError == old(payError)
      ensures loans == old(loans) && loading == old(loading) && error == old(error)
    {
      amount := value;
    }

    /**
     * The start of `handleSimulatePayment`: with no loan selected nothing
     * happens; a refused amount shows its message and keeps the step; an
     * accepted one moves to PROCESSING with the message cleared (the
     * result says whether the payment request goes out).
     */
    method RequestPayment() returns (started: bool)
      modifies this
      ensures selected.None? ==> !started && step == old(step) && payError == old(payError)
      ensures selected.Some? ==>
        var check := PaymentCheck(amount, selected.value.outstanding);
        && (started <==> check == None)
        && (check.Some? ==> payError == check.value && step == old(step))
        && (started ==> step == Processing && payError == "")
      ensures selected == old(selected) && amount == old(amount)
      ensures loans == old(loans) && loading == old(loading) && error == old(error)
    {
      if selected.None? {
        return false;
      }
      var check := PaymentCheck(amount, selected.value.outstanding);
      if check.Some? {
        payError := check.value;
        return false;
      }
      step := Processing;
      payError := "";
      started := true;
    }

    /**
     * The end of `handleSimulatePayment`: SUCCESS when the payment went
     * through (the list is then loaded again), ERROR with its message when
     * it failed.
     */
    method ResolvePayment(paid: bool)
      modifies this
      ensures step == (if paid then Success else Error)
      ensures payError == (if paid then old(payError) else PaymentFailed)
      ensures selected == old(selected) && amount == old(amount)
      ensures loans == old(loans) && loading == old(loading) && error == old(error)
    {
      if paid {
        step := Success;
      } else {
        step := Error;
        payError := PaymentFailed;
      }
    }
  }
}
