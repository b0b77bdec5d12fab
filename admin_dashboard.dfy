/**
 * The admin dashboard (app/dashboard/admin/page.tsx): the user table with
 * its status filter and name-or-email search, the status badges, the
 * Approve button and its in-flight marker, and the fetch on mount.
 */
module AdminDashboard {
  import opened Strings
  import opened Lists
  import opened Session
  import AdminLayout

  /** A row of `/auth/users`. */
  datatype User = User(id: string, fullname: string, email: string, status: string)

  /** The status filter: "ALL" keeps everyone, any other value keeps that status only. */
  predicate StatusMatches(filter: string, u: User) {
    filter == "ALL" || u.status == filter
  }

  /** The search: the lower-cased query occurs in the lower-cased name or e-mail. */
  predicate SearchMatches(search: string, u: User) {
    Contains(Lower(u.fullname), Lower(search)) || Contains(Lower(u.email), Lower(search))
  }

  /**
   * `filteredUsers`: the users that pass the status filter and then the
   * search, in their original order.
   */
  function FilteredUsers(users: seq<User>, search: string, filter: string): (r: seq<User>)
    ensures IsSubseq(r, users)
    ensures forall u :: u in r <==> u in users && StatusMatches(filter, u) && SearchMatches(search, u)
    ensures |r| == CountIf(users, (u: User) => StatusMatches(filter, u) && SearchMatches(search, u))
    ensures filter == "ALL" && search == "" ==> r == users
  {
    var byStatus := u => StatusMatches(filter, u);
    var bySearch := u => SearchMatches(search, u);
    var kept := Filter(users, byStatus);
    var both := (u: User) => StatusMatches(filter, u) && SearchMatches(search, u);
    FilterFilter(users, byStatus, bySearch, both);
    FilterLength(users, both);
    FilterIsSubseq(users, byStatus);
    FilterIsSubseq(kept, bySearch);
    SubseqTrans(Filter(kept, bySearch), kept, users);
    if filter == "ALL" && search == "" then
      FilterAllPass(users, byStatus);
      assert forall i :: 0 <= i < |kept| ==> bySearch(kept[i]) by {
        forall i | 0 <= i < |kept| ensures bySearch(kept[i]) {
          assert Lower(search) == [];
          ContainsEmpty(Lower(kept[i].fullname));
        }
      }
      FilterAllPass(kept, bySearch);
      Filter(kept, bySearch)
    else
      Filter(kept, bySearch)
  }

  /** `StatusBadge`: the three badges the table can show. */
  datatype Badge = Pending | Active | Inactive

  function StatusBadge(status: string): (b: Badge)
    ensures b == Pending <==> status == "PENDING"
    ensures b == Active <==> status == "ACTIVE"
    ensures b == Inactive <==> status != "PENDING" && status != "ACTIVE"
  {
    if status == "PENDING" then Pending else if status == "ACTIVE" then Active else Inactive
  }

  /** The action cell of a row: an Approve button, or the word "Approved". */
  datatype Action = ApproveButton(disabled: bool, caption: string) | ApprovedLabel

  /**
   * Only PENDING users get the button, so the button appears exactly in the
   * rows whose badge is Pending; it is disabled and reads "Approving..."
   * while that user's approval is in flight.
   */
  function ActionCell(u: User, approving: Option<string>): (a: Action)
    ensures a.ApproveButton? <==> StatusBadge(u.status) == Pending
    ensures a.ApproveButton? ==> (a.disabled <==> approving == Some(u.id))
    ensures a.ApproveButton? ==> a.caption == (if a.disabled then "Approving..." else "Approve")
  {
    if u.status == "PENDING" then
      var busy := approving == Some(u.id);
      ApproveButton(busy, if busy then "Approving..." else "Approve")
    else ApprovedLabel
  }

  /** What `getAllUsers()` can end with. */
  datatype UsersReply = UsersFailed | UsersReceived(users: seq<User>)

  /** The page's state; the summary cards are display only and not kept. */
  class Dashboard {
    var users: seq<User>
    var loading: bool
    var approving: Option<string>
    var search: string
    var filter: string

    constructor ()
      ensures users == [] && !loading && approving == None && search == "" && filter == "ALL"
    {
      users := [];
      loading := false;
      approving := None;
      search := "";
      filter := "ALL";
    }

    /** The rows the table shows. */
    function Visible(): seq<User>
      reads this
    {
      FilteredUsers(users, search, filter)
    }

    /**
     * The mount effect: the users (and the summary) are fetched only when a
     * token and a user are stored, which is exactly when the admin layout
     * does not send the visitor to `/login`. `fetchUsers` sets the
     * indicator at once.
     */
    method Mount(ls: LocalStorage) returns (fetching: bool)
      modifies this
      ensures fetching <==> HasItem(ls.items, "token") && HasItem(ls.items, "user")
      ensures fetching <==> AdminLayout.LayoutGuard(ls.items) != AdminLayout.ToLogin
      ensures loading == (fetching || old(loading))
      ensures users == old(users) && approving == old(approving)
      ensures search == old(search) && filter == old(filter)
    {
      fetching := HasItem(ls.items, "token") && HasItem(ls.items, "user");
      if fetching {
        loading := true;
      }
    }

    /** The end of `fetchUsers`: a failure keeps the old list; the indicator ends off. */
    method FinishFetchUsers(reply: UsersReply)
      modifies this
      ensures users == (if reply.UsersReceived? then reply.users else old(users))
      ensures !loading && approving == old(approving)
      ensures search == old(search) && filter == old(filter)
    {
      if reply.UsersReceived? {
        users := reply.users;
      }
      loading := false;
    }

    /** `handleApprove(id)` starts: the row of `id` shows "Approving...". */
    method BeginApprove(id: string)
      modifies this
      ensures approving == Some(id)
      ensures users == old(users) && loading == old(loading)
      ensures search == old(search) && filter == old(filter)
    {
      approving := Some(id);
    }

    /**
     * The rest of `handleApprove`: after the approval the users are
     * fetched again and then the summary; the marker is cleared only when
     * all of that succeeded (a failed approval or summary fetch rejects the
     * handler before the last line).
     */
    method FinishApprove(approved: bool, reply: UsersReply, summaryLoaded: bool)
      modifies this
      ensures approving == (if approved && summaryLoaded then None else old(approving))
      ensures users == (if approved && reply.UsersReceived? then reply.users else old(users))
      ensures loading == (if approved then false else old(loading))
      ensures search == old(search) && filter == old(filter)
    {
      if !approved {
        return;
      }
      loading := true;
      FinishFetchUsers(reply);
      if summaryLoaded {
        approving := None;
      }
    }

    /** Typing in the search box. */
    method SetSearch(value: string)
      modifies this
      ensures search == value && filter == old(filter)
      ensures users == old(users) && loading == old(loading) && approving == old(approving)
    {
      search := value;
    }

    /** Choosing a status in the filter. */
    method SetFilter(value: string)
      modifies this
      ensures filter == value && search == old(search)
      ensures users == old(users) && loading == old(loading) && approving == old(approving)
    {
      filter := value;
    }
  }
}
