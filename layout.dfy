// The page frame of components/Layout.tsx: the document title, the cart badge, the
// dark-mode switch, the user menu with the logout, the category sidebar and the search box.

module Layout {
  import opened Models
  import opened Store
  import opened Errors

  const SITE_NAME := "Sanity Amazon"

  /** The document title: `<title> - Sanity Amazon` for a given (non-empty) title, else the site name. */
  function Title(title: Option<string>): (t: string)
    ensures Truthy(title) ==> t == title.value + " - " + SITE_NAME
    ensures !Truthy(title) ==> t == SITE_NAME
  {
    if Truthy(title) then title.value + " - " + SITE_NAME else SITE_NAME
  }

  /** Every title ends with the site name, and a given title is its prefix. */
  lemma TitleNamesSite(title: Option<string>)
    ensures |Title(title)| >= |SITE_NAME| && Title(title)[|Title(title)| - |SITE_NAME|..] == SITE_NAME
    ensures Truthy(title) ==> |Title(title)| > |title.value| && Title(title)[..|title.value|] == title.value
  {
    var t := Title(title);
    if Truthy(title) {
      assert t == (title.value + " - ") + SITE_NAME;
      assert t[|t| - |SITE_NAME|..] == SITE_NAME;
      assert t[..|title.value|] == title.value;
    }
  }

  /** The cart badge: shown, with the number of lines, only when the cart has lines. */
  function CartBadge(items: seq<CartItem>): (badge: Option<nat>)
    ensures badge.Some? <==> |items| > 0
    ensures badge.Some? ==> badge.value == |items|
  {
    if |items| > 0 then Some(|items|) else None
  }

  /** The link of a category in the sidebar. */
  function CategoryHref(category: string): (url: string)
    ensures |url| == |"/search?category="| + |category|
    ensures url[..|"/search?category="|] == "/search?category="
    ensures url[|"/search?category="|..] == category
  {
    "/search?category=" + category
  }

  /** The route the search box submits to. */
  function SearchHref(query: string): (url: string)
    ensures |url| == |"/search?query="| + |query|
    ensures url[..|"/search?query="|] == "/search?query="
    ensures url[|"/search?query="|..] == query
  {
    "/search?query=" + query
  }

  /** Removing four cookies one after another removes the set of the four. */
  lemma RemoveFour(jar: CookieJar, a: string, b: string, c: string, d: string)
    ensures jar - {a} - {b} - {c} - {d} == jar - {a, b, c, d}
  {
  }

  class LayoutScreen {
    /** Whether the user menu is open (`anchorEl` set). */
    var menuOpen: bool
    var sidebarVisible: bool
    var categories: seq<string>
    /** The text typed into the search box. */
    var query: string

    constructor ()
      ensures !menuOpen && !sidebarVisible && categories == [] && query == ""
    {
      menuOpen := false;
      sidebarVisible := false;
      categories := [];
      query := "";
    }

    /** The dark-mode switch: the flag flips and the cookie records the flipped flag as `ON`/`OFF`. */
    method DarkModeChangeHandler(s: Session)
      modifies s
      ensures s.state == Reduce(old(s.state), if old(s.state.darkMode) then DarkModeOff else DarkModeOn)
      ensures s.state.darkMode == !old(s.state.darkMode)
      ensures s.state.cart == old(s.state.cart) && s.state.userInfo == old(s.state.userInfo)
      ensures s.cookies == old(s.cookies)[DARK_MODE_COOKIE := Text(if s.state.darkMode then "ON" else "OFF")]
      ensures s.pushed == old(s.pushed) && s.notices == old(s.notices) && s.query == old(s.query)
      ensures Persisted(old(s.state), old(s.cookies)) ==> Persisted(s.state, s.cookies)
    {
      ghost var before, jar := s.state, s.cookies;
      var darkMode := s.state.darkMode;
      s.Dispatch(if darkMode then DarkModeOff else DarkModeOn);
      var newDarkMode := !darkMode;
      s.SetCookie(DARK_MODE_COOKIE, Text(if newDarkMode then "ON" else "OFF"));
      if Persisted(before, jar) {
        DarkModeTogglePersists(before, jar);
      }
    }

    /** A click on the user's name opens the menu. */
    method LoginClickHandler()
      modifies this
      ensures menuOpen
      ensures sidebarVisible == old(sidebarVisible) && categories == old(categories) && query == old(query)
    {
      menuOpen := true;
    }

    /** Closing the menu: it goes to `redirect` when that text is not empty. A menu item passes
        its route; the menu's `onClose` passes the close reason (`"backdropClick"` for a click
        outside), which is pushed as a route just the same. */
    method LoginMenuCloseHandler(s: Session, redirect: string)
      modifies this, s
      ensures !menuOpen
      ensures sidebarVisible == old(sidebarVisible) && categories == old(categories) && query == old(query)
      ensures redirect != "" ==> s.pushed == old(s.pushed) + [Href(redirect)]
      ensures redirect == "" ==> s.pushed == old(s.pushed)
      ensures s.state == old(s.state) && s.cookies == old(s.cookies)
      ensures s.notices == old(s.notices) && s.query == old(s.query)
    {
      menuOpen := false;
      if redirect != "" {
        s.Push(Href(redirect));
      }
    }

    /** The Logout item: the menu closes, the user and the cart are cleared, exactly the four
        cookies of the user, the lines, the address and the payment method are removed (the
        dark-mode cookie stays), and the page goes home. */
    method LogoutClickHandler(s: Session)
      modifies this, s
      ensures !menuOpen
      ensures sidebarVisible == old(sidebarVisible) && categories == old(categories) && query == old(query)
      ensures s.state == Reduce(old(s.state), UserLogout)
      ensures s.state.userInfo.None? && s.state.cart.cartItems == [] && s.state.darkMode == old(s.state.darkMode)
      ensures s.cookies == old(s.cookies) - LOGOUT_COOKIES
      ensures DARK_MODE_COOKIE in old(s.cookies) ==>
                DARK_MODE_COOKIE in s.cookies && s.cookies[DARK_MODE_COOKIE] == old(s.cookies)[DARK_MODE_COOKIE]
      ensures s.pushed == old(s.pushed) + [Href("/")]
      ensures s.notices == old(s.notices) && s.query == old(s.query)
      ensures Persisted(old(s.state), old(s.cookies)) ==> Persisted(s.state, s.cookies)
    {
      ghost var before, jar := s.state, s.cookies;
      menuOpen := false;
      s.Dispatch(UserLogout);
      s.RemoveCookie(USER_INFO_COOKIE);
      s.RemoveCookie(CART_ITEMS_COOKIE);
      s.RemoveCookie(SHIPPING_ADDRESS_COOKIE);
      s.RemoveCookie(PAYMENT_METHOD_COOKIE);
      RemoveFour(jar, USER_INFO_COOKIE, CART_ITEMS_COOKIE, SHIPPING_ADDRESS_COOKIE, PAYMENT_METHOD_COOKIE);
      if Persisted(before, jar) {
        LogoutPersists(before, jar);
      }
      s.Push(Href("/"));
    }

    method SidebarOpenHandler()
      modifies this
      ensures sidebarVisible
      ensures menuOpen == old(menuOpen) && categories == old(categories) && query == old(query)
    {
      sidebarVisible := true;
    }

    method SidebarCloseHandler()
      modifies this
      ensures !sidebarVisible
      ensures menuOpen == old(menuOpen) && categories == old(categories) && query == old(query)
    {
      sidebarVisible := false;
    }

    /** Typing into the search box. */
    method QueryChangeHandler(value: string)
      modifies this
      ensures query == value
      ensures menuOpen == old(menuOpen) && sidebarVisible == old(sidebarVisible) && categories == old(categories)
    {
      query := value;
    }

    /** The search box's submit: the page goes to the search with the typed text. */
    method SubmitHandler(s: Session)
      modifies s
      ensures s.pushed == old(s.pushed) + [Href(SearchHref(query))]
      ensures s.state == old(s.state) && s.cookies == old(s.cookies)
      ensures s.notices == old(s.notices) && s.query == old(s.query)
    {
      s.Push(Href("/search?query=" + query));
    }

    /** The category fetch on mount, with the endpoint's answer: the list, or an error notice. */
    method FetchCategories(s: Session, reply: Reply<seq<string>>)
      modifies this, s
      ensures reply.Ok? ==> categories == reply.data && s.notices == old(s.notices)
      ensures reply.Failed? ==>
                categories == old(categories) && s.notices == old(s.notices) + [Notice(GetError(reply.error), Error)]
      ensures menuOpen == old(menuOpen) && sidebarVisible == old(sidebarVisible) && query == old(query)
      ensures s.state == old(s.state) && s.cookies == old(s.cookies)
      ensures s.pushed == old(s.pushed) && s.query == old(s.query)
    {
      match reply
      case Ok(data) =>
        categories := data;
      case Failed(err) =>
        s.Notify(GetError(err), Error);
    }
  }
}
