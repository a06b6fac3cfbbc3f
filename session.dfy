/**
 * The browser session every page shares: the `"userData"` entry of local
 * storage, holding the signed-in user as JSON. JSON parsing and
 * serialisation are parameters of the operations that use them.
 */
module Session {
  import opened Wrappers
  import opened Records

  /** The user as the login route returns it and the pages read it back; absent fields are `None`. */
  datatype StoredUser = StoredUser(
    id: Option<int>,
    profesorId: Option<int>,
    email: Option<string>,
    nombre: Option<string>,
    roles: Option<seq<string>>,
    appRoles: Option<seq<string>>)

  /** What `JSON.parse` makes of the stored text. */
  datatype ParseResult =
    | Malformed
    /** `null`, a number, a string: no fields to read. */
    | NotAnObject
    | Object(user: StoredUser)

  /** The local-storage entry under `"userData"`. */
  class SessionSlot {
    var value: Option<string>

    constructor(initial: Option<string>)
      ensures value == initial
    {
      value := initial;
    }

    /** `localStorage.setItem`. */
    method SetItem(v: string)
      modifies this
      ensures value == Some(v)
    {
      value := Some(v);
    }

    /** `localStorage.removeItem`. */
    method RemoveItem()
      modifies this
      ensures value == None
    {
      value := None;
    }
  }

  /** How a page judges the stored session. */
  datatype Verdict =
    /** Nothing (or the empty string) is stored. */
    | NoSession
    /** Something is stored, but it is not a user with an email. */
    | Invalid
    | Valid(user: StoredUser)

  predicate HasEmail(u: StoredUser) {
    u.email.Some? && u.email.value != ""
  }

  /**
   * The check the home and profile pages run on mount: an empty slot is no
   * session; text that does not parse, is not an object, or lacks an email
   * is invalid; anything else is the signed-in user.
   */
  function Check(raw: Option<string>, parse: string -> ParseResult): (v: Verdict)
    ensures v == NoSession <==> raw.None? || raw.value == ""
    ensures v.Valid? <==> raw.Some? && raw.value != "" && parse(raw.value).Object? && HasEmail(parse(raw.value).user)
    ensures v.Valid? ==> v.user == parse(raw.value).user && HasEmail(v.user)
  {
    if raw.None? || raw.value == "" then NoSession
    else match parse(raw.value)
      case Object(u) => if HasEmail(u) then Valid(u) else Invalid
      case _ => Invalid
  }

  const LoginPath := "/login"
  const HomePath := "/"

  /** `handleLogout` of the navigation tabs: clear the session, then go to the login page. */
  method Logout(slot: SessionSlot, navigations: seq<Navigation>) returns (after: seq<Navigation>)
    modifies slot
    ensures slot.value == None
    ensures after == navigations + [Push(LoginPath)]
  {
    slot.RemoveItem();
    after := navigations + [Push(LoginPath)];
  }
}
