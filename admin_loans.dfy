/**
 * The admin loans page (app/dashboard/admin/loans/page.tsx): the loan
 * table with its status filter and a search over the borrower's name or
 * e-mail, either of which (or the whole borrower) may be missing.
 */
module AdminLoans {
  import opened Strings
  import opened Lists

  /** The borrower of a loan as the list returns it; both fields are optional. */
  datatype Borrower = Borrower(fullname: Option<string>, email: Option<string>)

  /** A row of `/loan/admin-list`. Amounts and dates are shown only and not kept. */
  datatype Loan = Loan(id: string, user: Option<Borrower>, status: string)

  /** `l.user?.<field>?.toLowerCase() || ""`: a missing value is searched as the empty text. */
  function SearchedText(field: Option<string>): (t: string)
    ensures field.None? ==> t == ""
    ensures field.Some? ==> t == Lower(field.value)
  {
    if field.Some? then Lower(field.value) else ""
  }

  function NameOf(l: Loan): string {
    if l.user.Some? then SearchedText(l.user.value.fullname) else ""
  }

  function EmailOf(l: Loan): string {
    if l.user.Some? then SearchedText(l.user.value.email) else ""
  }

  predicate StatusMatches(filter: string, l: Loan) {
    filter == "ALL" || l.status == filter
  }

  predicate SearchMatches(search: string, l: Loan) {
    Contains(NameOf(l), Lower(search)) || Contains(EmailOf(l), Lower(search))
  }

  /** A loan without a borrower is kept by the empty search and by no other. */
  lemma NoBorrowerSearch(search: string, l: Loan)
    requires l.user.None?
    ensures SearchMatches(search, l) <==> search == ""
  {
    ContainsInEmpty(Lower(search));
    assert |Lower(search)| == |search|;
  }

  /** `filteredLoans`: the loans that pass the status filter and then the search, in order. */
  function FilteredLoans(loans: seq<Loan>, search: string, filter: string): (r: seq<Loan>)
    ensures IsSubseq(r, loans)
    ensures forall l :: l in r <==> l in loans && StatusMatches(filter, l) && SearchMatches(search, l)
    ensures |r| == CountIf(loans, (l: Loan) => StatusMatches(filter, l) && SearchMatches(search, l))
    ensures filter == "ALL" && search == "" ==> r == loans
  {
    var byStatus := l => StatusMatches(filter, l);
    var bySearch := l => SearchMatches(search, l);
    var kept := Filter(loans, byStatus);
    var both := (l: Loan) => StatusMatches(filter, l) && SearchMatches(search, l);
    FilterFilter(loans, byStatus, bySearch, both);
    FilterLength(loans, both);
    FilterIsSubseq(loans, byStatus);
    FilterIsSubseq(kept, bySearch);
    SubseqTrans(Filter(kept, bySearch), kept, loans);
    if filter == "ALL" && search == "" then
      FilterAllPass(loans, byStatus);
      assert forall i :: 0 <= i < |kept| ==> bySearch(kept[i]) by {
        forall i | 0 <= i < |kept| ensures bySearch(kept[i]) {
          assert Lower(search) == [];
          ContainsEmpty(NameOf(kept[i]));
        }
      }
      FilterAllPass(kept, bySearch);
      Filter(kept, bySearch)
    else
      Filter(kept, bySearch)
  }

  /** The "No loans found." row: shown exactly when no loan passes both the filter and the search. */
  function ShowsEmptyRow(loans: seq<Loan>, search: string, filter: string): (shown: bool)
    ensures shown <==> forall l :: l in loans ==> !(StatusMatches(filter, l) && SearchMatches(search, l))
  {
    var r := FilteredLoans(loans, search, filter);
    assert r != [] ==> r[0] in r;
    |r| == 0
  }

  /** What the list request can end with; `loans` is None when the body has no `loans`. */
  datatype LoansReply = LoansFailed | LoansReceived(loans: Option<seq<Loan>>)

  /** `res.data.loans || []` */
  function LoansOf(loans: Option<seq<Loan>>): (r: seq<Loan>)
    ensures loans.None? ==> r == []
    ensures loans.Some? ==> r == loans.value
  {
    if loans.Some? then loans.value else []
  }

  /** The page's state (the unused frequency and sort selectors are not kept). */
  class LoansPage {
    var loans: seq<Loan>
    var loading: bool
    var search: string
    var filter: string

    constructor ()
      ensures loans == [] && !loading && search == "" && filter == "ALL"
    {
      loans := [];
      loading := false;
      search := "";
      filter := "ALL";
    }

    function Visible(): seq<Loan>
      reads this
    {
      FilteredLoans(loans, search, filter)
    }

    /** `fetchLoans` starts: the indicator goes on. */
    method BeginFetch()
      modifies this
      ensures loading && loans == old(loans) && search == old(search) && filter == old(filter)
    {
      loading := true;
    }

    /** `fetchLoans` ends: a reply replaces the list (an absent list is empty), a failure keeps it. */
    method FinishFetch(reply: LoansReply)
      modifies this
      ensures loans == (if reply.LoansReceived? then LoansOf(reply.loans) else old(loans))
      ensures !loading && search == old(search) && filter == old(filter)
    {
      if reply.LoansReceived? {
        loans := LoansOf(reply.loans);
      }
      loading := false;
    }

    method SetSearch(value: string)
      modifies this
      ensures search == value && filter == old(filter) && loans == old(loans) && loading == old(loading)
    {
      search := value;
    }

    method SetFilter(value: string)
      modifies this
      ensures filter == value && search == old(search) && loans == old(loans) && loading == old(loading)
    {
      filter := value;
    }
  }
}
