/**
 * The browser's `localStorage` as the login page, the admin layout and the
 * dashboards use it: text entries under text keys, the signed-in user kept
 * as the JSON text of a record with an `id` and a `role`.
 */
module Session {
  import opened Strings

  /** The user record a login reply carries; a missing role is the empty text. */
  datatype SessionUser = SessionUser(id: string, role: string)

  /**
   * One stored entry. The text `JSON.stringify(user)` produces is kept
   * abstractly as `UserJson(user)`; any other text is `Plain`, and
   * `JSON.parse` of a `Plain` text is taken to throw.
   */
  datatype Stored = Plain(text: string) | UserJson(user: SessionUser)

  type Storage = map<string, Stored>

  /** `localStorage.getItem(key)` is truthy: the entry exists and is not the empty text. */
  predicate HasItem(st: Storage, key: string) {
    key in st && (st[key].UserJson? || st[key].text != "")
  }

  /** `String(v)` of an optional text, as `setItem` stores it: an absent value becomes "undefined". */
  function TextEntry(v: Option<string>): (s: Stored)
    ensures s.Plain?
    ensures v.Some? ==> s.text == v.value
    ensures v.None? ==> s.text == "undefined" && s.text != ""
  {
    Plain(if v.Some? then v.value else "undefined")
  }

  /** The storage object of the page. */
  class LocalStorage {
    var items: Storage

    constructor (initial: Storage)
      ensures items == initial
    {
      items := initial;
    }

    /** `setItem(key, value)` */
    method SetItem(key: string, value: Stored)
      modifies this
      ensures items == old(items)[key := value]
    {
      items := items[key := value];
    }

    /** `clear()` */
    method Clear()
      modifies this
      ensures items == map[]
      ensures forall key :: !HasItem(items, key)
    {
      items := map[];
    }
  }
}
