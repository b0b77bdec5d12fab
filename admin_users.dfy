/**
 * The admin users page (app/dashboard/admin/users/page.tsx): the same
 * filter, badges and Approve button as the dashboard, an unconditional
 * fetch on mount, and an approval that refetches only the users.
 */
module AdminUsers {
  import opened Strings
  import opened AdminDashboard

  /** The page's state. */
  class UsersPage {
    var users: seq<User>
    var loading: bool
    var approving: Option<string>
    var search: string
    var filter: string

    constructor ()
      ensures users == [] && !loading && approving == None && search == "" && filter == "ALL"
    {
      users := [];
      loading := false;
      approving := None;
      search := "";
      filter := "ALL";
    }

    /** The rows the table shows: the page's filter is the dashboard's, line for line. */
    function Visible(): seq<User>
      reads this
    {
      FilteredUsers(users, search, filter)
    }

    /** The mount effect: `fetchUsers` runs with no storage check and sets the indicator. */
    method Mount()
      modifies this
      ensures loading && users == old(users) && approving == old(approving)
      ensures search == old(search) && filter == old(filter)
    {
      loading := true;
    }

    /** The end of `fetchUsers`: a failure keeps the old list; the indicator ends off. */
    method FinishFetchUsers(reply: UsersReply)
      modifies this
      ensures users == (if reply.UsersReceived? then reply.users else old(users))
      ensures !loading && approving == old(approving)
      ensures search == old(search) && filter == old(filter)
    {
      if reply.UsersReceived? {
        users := reply.users;
      }
      loading := false;
    }

    /** `handleApprove(id)` starts: `approving` holds the id passed in. */
    method BeginApprove(id: string)
      modifies this
      ensures approving == Some(id)
      ensures users == old(users) && loading == old(loading)
      ensures search == old(search) && filter == old(filter)
    {
      approving := Some(id);
    }

    /**
     * The rest of `handleApprove`: after the approval the users are fetched
     * again and `approving` is cleared; a failed approval rejects the
     * handler and leaves everything, the marker included, as it was.
     */
    method FinishApprove(approved: bool, reply: UsersReply)
      modifies this
      ensures approving == (if approved then None else old(approving))
      ensures users == (if approved && reply.UsersReceived? then reply.users else old(users))
      ensures loading == (if approved then false else old(loading))
      ensures search == old(search) && filter == old(filter)
    {
      if !approved {
        return;
      }
      loading := true;
      FinishFetchUsers(reply);
      approving := None;
    }

    /** Typing in the search box. */
    method SetSearch(value: string)
      modifies this
      ensures search == value && filter == old(filter)
      ensures users == old(users) && loading == old(loading) && approving == old(approving)
    {
      search := value;
    }

    /** Choosing a status in the filter. */
    method SetFilter(value: string)
      modifies this
      ensures filter == value && search == old(search)
      ensures users == old(users) && loading == old(loading) && approving == old(approving)
    {
      filter := value;
    }
  }
}
