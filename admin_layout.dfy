/**
 * The admin area's layout (app/dashboard/admin/layout.tsx): on mount it
 * checks the stored token and user and either renders its children or
 * sends the visitor away; its Logout button clears the storage.
 */
module AdminLayout {
  import opened Strings
  import opened Session
  import Login

  /** Where the mount check ends. */
  datatype Guard =
    | ToLogin        // no token or no user: `router.push("/login")`
    | ParseFailure   // `JSON.parse` of the user entry throws
    | NotAdmin       // a user whose role is not ADMIN: `router.push("/auth/login")`
    | Render         // `setLoading(false)`

  /** The decision of the mount effect for what the storage holds. */
  function LayoutGuard(st: Storage): (g: Guard)
    ensures g == ToLogin <==> !HasItem(st, "token") || !HasItem(st, "user")
    ensures g == ParseFailure <==> HasItem(st, "token") && HasItem(st, "user") && st["user"].Plain?
    ensures g == NotAdmin <==>
      HasItem(st, "token") && "user" in st && st["user"].UserJson? && st["user"].user.role != "ADMIN"
    ensures g == Render <==>
      HasItem(st, "token") && "user" in st && st["user"].UserJson? && st["user"].user.role == "ADMIN"
  {
    if !HasItem(st, "token") || !HasItem(st, "user") then ToLogin
    else
      match st["user"]
      case Plain(_) => ParseFailure
      case UserJson(user) => if user.role != "ADMIN" then NotAdmin else Render
  }

  /**
   * After a login whose reply carries a user and a token that is not the
   * empty text, the layout renders exactly when the login page sent the
   * user to the admin dashboard; anyone else is sent to `/auth/login`. A
   * reply without a token stores the text "undefined", which passes the
   * token check.
   */
  lemma LoginThenLayout(st: Storage, token: Option<string>, user: SessionUser)
    requires token != Some("")
    ensures LayoutGuard(Login.LoginStored(st, Login.Accepted(token, Some(user)))) ==
      (if user.role == "ADMIN" then Render else NotAdmin)
    ensures LayoutGuard(Login.LoginStored(st, Login.Accepted(token, Some(user)))) == Render <==>
      Login.HomeFor(user.role) == "/dashboard/admin"
  {
    var after := Login.LoginStored(st, Login.Accepted(token, Some(user)));
    assert HasItem(after, "token");
  }

  /** A login reply without a user never opens the admin area. */
  lemma LoginWithoutUserNeverRenders(st: Storage, token: Option<string>)
    ensures LayoutGuard(Login.LoginStored(st, Login.Accepted(token, None))) ==
      (if token == Some("") then ToLogin else ParseFailure)
  {
    var after := Login.LoginStored(st, Login.Accepted(token, None));
    assert after["user"] == Plain("undefined");
  }

  /** The layout's state: the loading flag (true at first) and the router. */
  class Layout {
    var loading: bool
    var redirect: Option<string>

    constructor ()
      ensures loading && redirect == None
    {
      loading := true;
      redirect := None;
    }

    /**
     * The mount effect: the children show (loading turns false) only for a
     * stored token and an administrator; every other case keeps showing
     * "Loading..." and two of them navigate away.
     */
    method Mount(ls: LocalStorage)
      modifies this
      ensures loading == (if LayoutGuard(ls.items) == Render then false else old(loading))
      ensures LayoutGuard(ls.items) == ToLogin ==> redirect == Some("/login")
      ensures LayoutGuard(ls.items) == NotAdmin ==> redirect == Some("/auth/login")
      ensures LayoutGuard(ls.items) in {ParseFailure, Render} ==> redirect == old(redirect)
    {
      var st := ls.items;
      if !HasItem(st, "token") || !HasItem(st, "user") {
        redirect := Some("/login");
        return;
      }
      match st["user"] {
        case Plain(_) =>
          return;   // `JSON.parse` throws: the effect stops here
        case UserJson(user) =>
          if user.role != "ADMIN" {
            redirect := Some("/auth/login");
            return;
          }
      }
      loading := false;
    }

    /** The Logout button: the whole storage is cleared and the home page opens. */
    method Logout(ls: LocalStorage)
      modifies this, ls
      ensures ls.items == map[] && redirect == Some("/") && loading == old(loading)
      ensures LayoutGuard(ls.items) == ToLogin
    {
      ls.Clear();
      redirect := Some("/");
    }
  }
}
