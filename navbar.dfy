/**
 * The navigation bar's click handler, src/layouts/navbar/Navbar.jsx: the
 * route each item leads to. The active item and the menu flag belong to the
 * page that renders the bar (module NavbarPages); the bar only calls their
 * setters.
 */
module Navbar {
  import opened Js

  const FeedItem := "Professional Feed"
  const LoginItem := "Login"

  /**
   * handleNavClick's route: the feed and the login items have their own
   * paths; an item whose lower case is "home" goes to "/"; any other item to
   * "/" followed by its lower case.
   */
  function Route(item: string): (route: string)
    ensures item == FeedItem ==> route == "/posts"
    ensures item == LoginItem ==> route == "/login"
    ensures item != FeedItem && item != LoginItem && Lower(item) == "home" ==> route == "/"
    ensures item != FeedItem && item != LoginItem && Lower(item) != "home" ==> route == "/" + Lower(item)
  {
    if item == FeedItem then "/posts"
    else if item == LoginItem then "/login"
    else if Lower(item) == "home" then "/"
    else "/" + Lower(item)
  }

  /** Every route is an absolute path. */
  lemma RouteIsAbsolute(item: string)
    ensures StartsWith(Route(item), "/")
  {
  }

  /** Items that differ only in letter case, other than the two special ones, lead to the same page. */
  lemma RouteIgnoresCase(a: string, b: string)
    requires a != FeedItem && a != LoginItem && b != FeedItem && b != LoginItem
    requires Lower(a) == Lower(b)
    ensures Route(a) == Route(b)
  {
  }
}
