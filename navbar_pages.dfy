/**
 * The page that owns the navigation bar's state, src/pages/NavbarPages.jsx:
 * the item list, which depends on whether an access token is stored, the
 * active item and the mobile menu flag.
 *
 * localStorage is a map passed in. A click is handled here with the route
 * the bar computes (module Navbar).
 */
module NavbarPages {
  import opened Js
  import ApiClient
  import Navbar

  const Common := ["Home", "About", "Professional Feed"]

  /** The items: the three common ones, and "Login" after them when no token is stored. */
  function Items(storage: map<string, string>): (items: seq<string>)
    ensures ApiClient.StoredToken(storage, ApiClient.AccessTokenKey).Some? ==> items == Common
    ensures ApiClient.StoredToken(storage, ApiClient.AccessTokenKey).None? ==> items == Common + ["Login"]
  {
    if ApiClient.StoredToken(storage, ApiClient.AccessTokenKey).Some? then Common else Common + ["Login"]
  }

  /** Where each of the four items leads. */
  lemma ItemRoutes()
    ensures Navbar.Route("Home") == "/" && Navbar.Route("About") == "/about"
    ensures Navbar.Route("Professional Feed") == "/posts" && Navbar.Route("Login") == "/login"
  {
    assert Lower("Home") == "home";
    assert Lower("About") == "about";
  }

  /** The items lead to different pages: home, about, the feed, and login. */
  lemma ItemsRouteApart(storage: map<string, string>)
    ensures var items := Items(storage);
            forall i, j :: 0 <= i < j < |items| ==> Navbar.Route(items[i]) != Navbar.Route(items[j])
  {
    ItemRoutes();
    var routes := ["/", "/about", "/posts", "/login"];
    var items := Items(storage);
    assert forall i :: 0 <= i < |items| ==> Navbar.Route(items[i]) == routes[i];
    // "/" is the only one-character route; the others differ in their second character.
    assert |routes[0]| == 1 && routes[1][1] == 'a' && routes[2][1] == 'p' && routes[3][1] == 'l';
  }

  class NavState {
    var active: string
    var isMenuOpen: bool

    constructor()
      ensures active == "Home" && !isMenuOpen
    {
      active := "Home";
      isMenuOpen := false;
    }

    method ToggleMenu()
      modifies this
      ensures isMenuOpen == !old(isMenuOpen) && active == old(active)
    {
      isMenuOpen := !isMenuOpen;
    }

    /**
     * A click on an item: it becomes active before the navigation, and a
     * click in the mobile menu also closes the menu.
     */
    method Click(item: string, inMobileMenu: bool) returns (route: string)
      modifies this
      ensures active == item && route == Navbar.Route(item)
      ensures isMenuOpen == (if inMobileMenu then false else old(isMenuOpen))
    {
      active := item;
      route := Navbar.Route(item);
      if inMobileMenu {
        isMenuOpen := false;
      }
    }
  }
}
