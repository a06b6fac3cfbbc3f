/**
 * The profile page (`app/configuracion-perfil/page.tsx`): on mount it reads
 * the stored session like the entry page does, and it shows the user's
 * initials, a primary role and the list of all roles.
 */
module ProfilePage {
  import opened Wrappers
  import opened Text
  import opened Seqs
  import opened Records
  import opened Session
  import opened UniversityHeader

  /** The role shown when the session carries none. */
  const DefaultRole := "Administrador"

  /** `user.appRoles?.[0] ?? user.roles?.[0] ?? "Administrador"`. */
  function PrimaryRole(u: StoredUser): (r: string)
    ensures u.appRoles.Some? && |u.appRoles.value| > 0 ==> r == u.appRoles.value[0]
    ensures (u.appRoles.None? || |u.appRoles.value| == 0) && u.roles.Some? && |u.roles.value| > 0 ==>
      r == u.roles.value[0]
    ensures (u.appRoles.None? || |u.appRoles.value| == 0) && (u.roles.None? || |u.roles.value| == 0) ==>
      r == DefaultRole
  {
    if u.appRoles.Some? && |u.appRoles.value| > 0 then u.appRoles.value[0]
    else if u.roles.Some? && |u.roles.value| > 0 then u.roles.value[0]
    else DefaultRole
  }

  /** Both role lists, application roles first; an absent list counts as empty. */
  function RoleList(u: StoredUser): seq<string> {
    u.appRoles.GetOr([]) + u.roles.GetOr([])
  }

  /**
   * `allRoles`: when either list has an entry, the distinct roles of both
   * lists joined with `", "`; otherwise the primary role.
   */
  function AllRoles(u: StoredUser): string {
    if |RoleList(u)| > 0 then Join(Dedupe(RoleList(u)), ", ") else PrimaryRole(u)
  }

  /** Every role the session carries is named in the roles line. */
  lemma AllRolesNamesEveryRole(u: StoredUser, role: string)
    requires role in RoleList(u)
    ensures Contains(AllRoles(u), role)
  {
    var d := Dedupe(RoleList(u));
    var i :| 0 <= i < |d| && d[i] == role;
    JoinContainsPart(d, ", ", i);
  }

  /** The roles line starts with the primary role; with no roles at all the two coincide. */
  lemma AllRolesStartsWithPrimary(u: StoredUser)
    ensures |PrimaryRole(u)| <= |AllRoles(u)| && AllRoles(u)[..|PrimaryRole(u)|] == PrimaryRole(u)
    ensures |RoleList(u)| == 0 ==> AllRoles(u) == DefaultRole
  {
    var all := RoleList(u);
    if |all| > 0 {
      DedupeKeepsHead(all);
      assert all[0] == PrimaryRole(u);
      JoinStartsWithFirst(Dedupe(all), ", ");
    }
  }

  class ProfileView {
    var user: Option<StoredUser>
    var loading: bool
    var navigations: seq<Navigation>

    constructor()
      ensures user.None? && loading && navigations == []
    {
      user := None;
      loading := true;
      navigations := [];
    }

    /**
     * The mount effect: no stored session sends the browser to the login
     * page; a stored value that does not parse or has no email is removed
     * first; a good one becomes the page's user. Loading ends in every case.
     */
    method CheckSession(slot: SessionSlot, parse: string -> ParseResult)
      modifies this, slot
      ensures !loading
      ensures Check(old(slot.value), parse) == NoSession ==>
        slot.value == old(slot.value) && user == old(user)
        && navigations == old(navigations) + [Replace(LoginPath)]
      ensures Check(old(slot.value), parse) == Invalid ==>
        slot.value == None && user == old(user)
        && navigations == old(navigations) + [Replace(LoginPath)]
      ensures Check(old(slot.value), parse).Valid? ==>
        slot.value == old(slot.value) && user == Some(Check(old(slot.value), parse).user)
        && navigations == old(navigations)
    {
      var verdict := Check(slot.value, parse);
      match verdict {
        case NoSession =>
          navigations := navigations + [Replace(LoginPath)];
        case Invalid =>
          slot.RemoveItem();
          navigations := navigations + [Replace(LoginPath)];
        case Valid(u) =>
          user := Some(u);
      }
      loading := false;
    }
  }
}
