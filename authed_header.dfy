/** The shared page header (components/AuthedHeader.tsx): which role it shows,
    the navigation links for that role, and logging out. */
module AuthedHeader {
  import opened Common

  datatype Role = Investor | Bg

  /** The role as its stored string. */
  function RoleName(r: Role): (s: string)
    ensures s == "INVESTOR" <==> r == Investor
    ensures s == "BG" <==> r == Bg
  {
    match r
    case Investor => "INVESTOR"
    case Bg => "BG"
  }

  /** What reading `pfm_role` gives: the stored value (None: no such key), or
      an exception from the storage API. */
  datatype StoredRole = StorageFailure | StoredValue(value: Option<string>)

  /** The role the header settles on: a role passed in by the page wins;
      otherwise the stored role, accepted only when it is exactly one of the
      two role strings. None is the logged-out (null) role. */
  function ResolveRole(propRole: Option<Role>, stored: StoredRole): (r: Option<Role>)
    ensures propRole.Some? ==> r == propRole
    ensures propRole.None? ==>
      (r.Some? <==> stored.StoredValue? && stored.value.Some?
                    && stored.value.value in {"INVESTOR", "BG"})
    ensures propRole.None? && r.Some? ==> RoleName(r.value) == stored.value.value
  {
    if propRole.Some? then propRole
    else match stored
      case StorageFailure => None
      case StoredValue(v) =>
        if v == Some("INVESTOR") then Some(Investor)
        else if v == Some("BG") then Some(Bg)
        else None
  }

  /** A stored role is not normalised: a lower-case "bg" means logged out. */
  lemma StoredRoleIsCaseSensitive()
    ensures ResolveRole(None, StoredValue(Some("bg"))) == None
  {
  }

  datatype NavItem = NavItem(href: string, text: string)

  const HomeItem: NavItem := NavItem("/", "Home")
  const AccountItem: NavItem := NavItem("/account", "My Account")

  /** Building `navItems`: Home, then two entries chosen by the role. */
  method NavItems(role: Option<Role>) returns (items: seq<NavItem>)
    ensures |items| == 3 && items[0] == HomeItem
    ensures role == Some(Investor) ==>
      items[1] == NavItem("/investor", "Investor dashboard") && items[2] == AccountItem
    ensures role == Some(Bg) ==>
      items[1] == NavItem("/bg", "BG dashboard") && items[2] == AccountItem
    ensures role == None ==>
      items[1] == NavItem("/login", "Log in") && items[2] == NavItem("/register", "Register")
  {
    items := [HomeItem];
    if role == Some(Investor) {
      items := items + [NavItem("/investor", "Investor dashboard")];
      items := items + [AccountItem];
    } else if role == Some(Bg) {
      items := items + [NavItem("/bg", "BG dashboard")];
      items := items + [AccountItem];
    } else {
      items := items + [NavItem("/login", "Log in")];
      items := items + [NavItem("/register", "Register")];
    }
  }

  /** `showLogout`. */
  function ShowLogout(role: Option<Role>): (b: bool)
    ensures b <==> role.Some?
  {
    match role
    case Some(r) => r == Investor || r == Bg
    case None => false
  }

  /** The logout button shows exactly when the links lead to the account page. */
  method LogoutMatchesAccountLink(role: Option<Role>) returns (linked: bool)
    ensures linked == ShowLogout(role)
  {
    var items := NavItems(role);
    linked := AccountItem in items;
    // the logged-out links are Home, Log in and Register
    assert role.None? ==> items == [HomeItem, NavItem("/login", "Log in"), NavItem("/register", "Register")];
  }

  /** The session keys `handleLogout` removes. */
  const SessionKeys: set<string> := {TokenKey, UserKey, RoleKey}

  /** `handleLogout`: the three session keys go, every other key stays, and
      the router goes to the login page (returned). */
  method HandleLogout(store: LocalStorage) returns (navigateTo: string)
    modifies store
    ensures store.items == old(store.items) - SessionKeys
    ensures forall k :: k in old(store.items) && k !in SessionKeys ==>
      k in store.items && store.items[k] == old(store.items)[k]
    ensures navigateTo == "/login"
  {
    store.RemoveItem(TokenKey);
    store.RemoveItem(UserKey);
    store.RemoveItem(RoleKey);
    navigateTo := "/login";
  }
}
