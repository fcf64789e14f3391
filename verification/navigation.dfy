/** The navigation bar (`components/navigation.tsx`) every content page
    shows: it reads the localStorage marker on mount, offers a user menu
    with a nested "My Cargo" menu, and signs out. */
module Navigation {
  import opened Wrappers
  import opened Storage

  /** Where a mouse-down lands. The cargo menu's container sits inside the
      user menu's container, so a click inside the first is inside both. */
  datatype ClickTarget = InsideCargoMenu | InsideUserMenuOnly | Elsewhere

  /** `userEmail.split("@")[0]`: the text before the first `@`, or the whole
      address when it has none. */
  function DisplayName(email: string): (r: string)
    ensures |r| <= |email| && r == email[..|r|]
    ensures '@' !in r
    ensures |r| < |email| ==> email[|r|] == '@'
  {
    if email == [] || email[0] == '@' then []
    else [email[0]] + DisplayName(email[1..])
  }

  lemma DisplayNameExamples()
    ensures DisplayName("ana@example.com") == "ana"
    ensures DisplayName("ana") == "ana"
    ensures DisplayName("@example.com") == ""
    ensures DisplayName("a@b@c") == "a"
  {
    assert DisplayName("ana@example.com") == "ana" by {
      var e := "ana@example.com";
      assert e[3] == '@' && e[..3] == "ana";
    }
    assert DisplayName("a@b@c") == "a" by {
      var e := "a@b@c";
      assert e[1] == '@' && e[..1] == "a";
    }
  }

  /** localStorage after sign-out: the marker and the address are removed;
      every other key is kept. */
  function SignedOutLocal(local: map<string, string>): (r: map<string, string>)
    ensures !LocalLoggedIn(r)
    ensures GetItem(r, UserEmailKey) == None
    ensures r.Keys == local.Keys - {IsLoggedInKey, UserEmailKey}
    ensures forall key :: key != IsLoggedInKey && key != UserEmailKey ==> GetItem(r, key) == GetItem(local, key)
  {
    local - {IsLoggedInKey, UserEmailKey}
  }

  /** `localStorage.getItem("userEmail") || ""`. */
  function StoredEmail(local: map<string, string>): (r: string)
    ensures UserEmailKey in local ==> r == local[UserEmailKey]
    ensures UserEmailKey !in local ==> r == ""
  {
    GetItem(local, UserEmailKey).GetOr("")
  }

  class NavigationBar {
    var isLoggedIn: bool
    var userEmail: string
    var userDropdownOpen: bool
    var cargoDropdownOpen: bool

    /** The four `useState` initial values. */
    constructor ()
      ensures !isLoggedIn && userEmail == "" && !userDropdownOpen && !cargoDropdownOpen
    {
      isLoggedIn, userEmail := false, "";
      userDropdownOpen, cargoDropdownOpen := false, false;
    }

    /** The mount effect: read the session from localStorage. */
    method Mount(store: SessionStore)
      modifies this`isLoggedIn, this`userEmail
      ensures isLoggedIn == LocalLoggedIn(store.local)
      ensures userEmail == StoredEmail(store.local)
    {
      isLoggedIn := LocalLoggedIn(store.local);
      userEmail := StoredEmail(store.local);
    }

    /** The user menu (and the button that opens it) is rendered only when
        logged in and open. */
    predicate UserMenuShown()
      reads this
    {
      isLoggedIn && userDropdownOpen
    }

    /** The cargo submenu needs all three flags: it sits inside the user menu. */
    predicate CargoMenuShown()
      reads this
    {
      UserMenuShown() && cargoDropdownOpen
    }

    /** `handleSignOut`: clear the session from localStorage and from the
        bar, close the user menu and go home. The cookies and the cargo
        flag are left as they were. */
    method SignOut(store: SessionStore) returns (nav: string)
      modifies this`isLoggedIn, this`userEmail, this`userDropdownOpen, store`local
      ensures store.local == SignedOutLocal(old(store.local))
      ensures store.cookies == old(store.cookies)
      ensures !isLoggedIn && userEmail == "" && !userDropdownOpen
      ensures cargoDropdownOpen == old(cargoDropdownOpen)
      ensures !UserMenuShown() && !CargoMenuShown()
      ensures nav == "/"
    {
      store.local := SignedOutLocal(store.local);
      isLoggedIn, userEmail := false, "";
      userDropdownOpen := false;
      nav := "/";
    }

    /** `toggleUserDropdown`: flip the user menu; closing it also closes the
        cargo menu, opening it leaves the cargo flag alone. */
    method ToggleUserDropdown()
      modifies this`userDropdownOpen, this`cargoDropdownOpen
      ensures userDropdownOpen == !old(userDropdownOpen)
      ensures cargoDropdownOpen == (old(cargoDropdownOpen) && !old(userDropdownOpen))
    {
      var wasOpen := userDropdownOpen;
      userDropdownOpen := !wasOpen;
      if wasOpen {
        cargoDropdownOpen := false;
      }
    }

    /** `toggleCargoDropdown`: flip the cargo menu only. */
    method ToggleCargoDropdown()
      modifies this`cargoDropdownOpen
      ensures cargoDropdownOpen == !old(cargoDropdownOpen)
    {
      cargoDropdownOpen := !cargoDropdownOpen;
    }

    /** The document's mouse-down handler. Each menu's container is looked
        up through a ref that is set only while it is rendered: the user
        menu's while logged in, the cargo menu's while the user menu is
        shown. Each rendered container that does not hold the click closes
        its own menu, independently of the other. */
    method ClickOutside(target: ClickTarget)
      modifies this`userDropdownOpen, this`cargoDropdownOpen
      ensures userDropdownOpen == (old(userDropdownOpen) && !(isLoggedIn && target == Elsewhere))
      ensures cargoDropdownOpen ==
        (old(cargoDropdownOpen) && !(old(UserMenuShown()) && target != InsideCargoMenu))
      ensures target == Elsewhere ==> !UserMenuShown() && !CargoMenuShown()
      ensures target == InsideCargoMenu ==> userDropdownOpen == old(userDropdownOpen) && cargoDropdownOpen == old(cargoDropdownOpen)
    {
      var userRefSet := isLoggedIn;
      var cargoRefSet := isLoggedIn && userDropdownOpen;
      if userRefSet && target == Elsewhere {
        userDropdownOpen := false;
      }
      if cargoRefSet && target != InsideCargoMenu {
        cargoDropdownOpen := false;
      }
    }
  }
}
