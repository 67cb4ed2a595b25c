/** The sticky navigation bar (src/components/Navbar.tsx): the link table
    and its active-link rule, the first name shown for a signed-in user,
    which account controls appear, and the mobile drawer's open flag. */
module Navbar {
  import opened Options

  datatype NavLink = NavLink(to: string, text: string)

  /** navLinks. */
  const NavLinks: seq<NavLink> := [
    NavLink("/", "Home"),
    NavLink("/feed", "Feed"),
    NavLink("/watchlist", "Watchlist"),
    NavLink("/community", "Community"),
    NavLink("/about", "About")
  ]

  /** A link is highlighted when the current path is its target. */
  predicate IsActive(pathname: string, link: NavLink) {
    pathname == link.to
  }

  /** Links `i` and `j` are both highlighted. */
  predicate ActivePair(pathname: string, i: int, j: int) {
    0 <= i < |NavLinks| && 0 <= j < |NavLinks| && IsActive(pathname, NavLinks[i]) && IsActive(pathname, NavLinks[j])
  }

  /** No two links share a target, so at most one link is highlighted. */
  lemma AtMostOneActive(pathname: string)
    ensures forall i, j :: ActivePair(pathname, i, j) ==> i == j
  {
    assert forall i, j :: 0 <= i < j < |NavLinks| ==> NavLinks[i].to != NavLinks[j].to by {
      assert NavLinks[0].to[..] == "/";
      assert |NavLinks[0].to| == 1 && |NavLinks[1].to| == 5 && |NavLinks[2].to| == 10
        && |NavLinks[3].to| == 10 && |NavLinks[4].to| == 6;
      assert NavLinks[2].to[1] == 'w' && NavLinks[3].to[1] == 'c';
    }
  }

  /** `name.split(' ')[0]`: the characters before the first space. */
  function FirstName(name: string): (first: string)
    ensures |first| <= |name| && first == name[..|first|]
    ensures ' ' !in first
    ensures first == name || name[|first|] == ' '
  {
    if name == [] || name[0] == ' ' then ""
    else [name[0]] + FirstName(name[1..])
  }

  /** A name made of a space-free first word, a space and anything else
      shows that first word. */
  lemma {:induction false} FirstNameOfFullName(first: string, rest: string)
    requires ' ' !in first
    ensures FirstName(first + " " + rest) == first
  {
    if first != [] {
      assert (first + " " + rest)[1..] == first[1..] + " " + rest;
      FirstNameOfFullName(first[1..], rest);
    }
  }

  /** The account controls in one of the two layouts. */
  datatype Controls =
    | NoControls
    | LoginLink
    | ProfileAndLogout(shownName: string)

  /** The name the profile control shows: the first name on the desktop
      bar, the whole name in the mobile drawer. */
  function AccountControls(loading: bool, userName: Option<string>, mobile: bool): (c: Controls)
    ensures loading <==> c == NoControls
    ensures !loading && userName.None? ==> c == LoginLink
    ensures !loading && userName.Some? ==> c == ProfileAndLogout(if mobile then userName.value else FirstName(userName.value))
  {
    if loading then NoControls
    else match userName
      case None => LoginLink
      case Some(name) => ProfileAndLogout(if mobile then name else FirstName(name))
  }

  /** The navbar's own state. `logoutRequests` counts the logout mutations
      it has started. */
  class NavbarState {
    var mobileOpen: bool
    var logoutRequests: nat

    constructor()
      ensures !mobileOpen && logoutRequests == 0
    {
      mobileOpen := false;
      logoutRequests := 0;
    }

    /** The hamburger button. */
    method ToggleMenu()
      modifies this
      ensures mobileOpen == !old(mobileOpen) && logoutRequests == old(logoutRequests)
    {
      mobileOpen := !mobileOpen;
    }

    /** A click on any link of the mobile drawer. */
    method MobileLinkClicked()
      modifies this
      ensures !mobileOpen && logoutRequests == old(logoutRequests)
    {
      mobileOpen := false;
    }

    /** handleLogout: starts the logout and closes the drawer. */
    method Logout()
      modifies this
      ensures !mobileOpen && logoutRequests == old(logoutRequests) + 1
    {
      logoutRequests := logoutRequests + 1;
      mobileOpen := false;
    }
  }
}
