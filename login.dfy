/**
 * The login page (app/auth/login/page.tsx): `handleLogin` clears the error,
 * sends the credentials, stores the token, the user's JSON and their id,
 * and sends administrators and everyone else to different dashboards.
 */
module Login {
  import opened Strings
  import opened Session

  /** What the login request can end with. */
  datatype LoginReply =
    | Rejected(message: Option<string>)                           // `err.response?.data?.message`
    | Accepted(token: Option<string>, user: Option<SessionUser>)  // `res.data.token`, `res.data.user`

  /** The dashboard a role is sent to. */
  function HomeFor(role: string): (path: string)
    ensures path == "/dashboard/admin" <==> role == "ADMIN"
    ensures path == "/dashboard/admin" || path == "/dashboard/client"
  {
    if role == "ADMIN" then "/dashboard/admin" else "/dashboard/client"
  }

  /** The error shown for a failed attempt: the server's message when it has one. */
  function FailureMessage(message: Option<string>): (e: string)
    ensures e != ""
    ensures message.Some? && message.value != "" ==> e == message.value
    ensures message.None? || message.value == "" ==> e == "Login failed"
  {
    if message.Some? && message.value != "" then message.value else "Login failed"
  }

  /** The `user` entry `setItem("user", JSON.stringify(user))` leaves: an absent user is "undefined". */
  function UserEntry(user: Option<SessionUser>): (s: Stored)
    ensures user.Some? ==> s == UserJson(user.value)
    ensures user.None? ==> s == Plain("undefined")
  {
    if user.Some? then UserJson(user.value) else Plain("undefined")
  }

  /**
   * The storage after a reply: a rejection writes nothing; an accepted
   * reply writes the token and the user, and the user's id when there is a
   * user (reading the id of an absent user throws after the first two writes).
   */
  function LoginStored(st: Storage, reply: LoginReply): (r: Storage)
    ensures reply.Rejected? ==> r == st
    ensures reply.Accepted? ==>
      && "token" in r && r["token"] == TextEntry(reply.token)
      && "user" in r && r["user"] == UserEntry(reply.user)
    ensures reply.Accepted? && reply.user.Some? ==> "userId" in r && r["userId"] == Plain(reply.user.value.id)
    ensures reply.Accepted? && reply.user.None? ==>
      ("userId" in r <==> "userId" in st) && ("userId" in st ==> r["userId"] == st["userId"])
    ensures forall k :: k != "token" && k != "user" && k != "userId" ==>
      (k in r <==> k in st) && (k in st ==> r[k] == st[k])
  {
    match reply
    case Rejected(_) => st
    case Accepted(token, user) =>
      var written := st["token" := TextEntry(token)]["user" := UserEntry(user)];
      if user.Some? then written["userId" := Plain(user.value.id)] else written
  }

  /** The page's state: the error line and the router. */
  class LoginPage {
    var error: string
    var redirect: Option<string>

    constructor ()
      ensures error == "" && redirect == None
    {
      error := "";
      redirect := None;
    }

    /** The start of `handleLogin`: the previous error is cleared before the request goes out. */
    method BeginLogin()
      modifies this
      ensures error == "" && redirect == old(redirect)
    {
      error := "";
    }

    /**
     * The rest of `handleLogin`: a rejection shows its message and touches
     * nothing else; an accepted reply with a user stores it and goes to the
     * role's dashboard; one without a user stores what it can, then fails.
     */
    method FinishLogin(ls: LocalStorage, reply: LoginReply)
      modifies this, ls
      ensures ls.items == LoginStored(old(ls.items), reply)
      ensures reply.Rejected? ==> error == FailureMessage(reply.message) && redirect == old(redirect)
      ensures reply.Accepted? && reply.user.Some? ==>
        error == old(error) && redirect == Some(HomeFor(reply.user.value.role))
      ensures reply.Accepted? && reply.user.None? ==> error == "Login failed" && redirect == old(redirect)
    {
      match reply {
        case Rejected(message) =>
          error := FailureMessage(message);
        case Accepted(token, user) =>
          ls.SetItem("token", TextEntry(token));
          ls.SetItem("user", UserEntry(user));
          if user.None? {
            error := "Login failed";   // `res.data.user.id` of undefined throws
          } else {
            ls.SetItem("userId", Plain(user.value.id));
            redirect := Some(HomeFor(user.value.role));
          }
      }
    }
  }
}
