// The session store of utils/store.tsx: the state, the actions its reducer understands,
// the reducer itself, the cookie writes it performs and the state decoded from cookies
// at start-up. The `Session` class at the end is the running application as the pages
// see it: the store's state, the cookie jar, the router and the notice queue.

module Store {
  import opened Models

  datatype Cart = Cart(cartItems: seq<CartItem>, shippingAddress: ShippingAddress)

  /** The store's state. It has no payment-method field: nothing in it records one. */
  datatype State = State(darkMode: bool, cart: Cart, userInfo: Option<User>)

  /** The actions the pages dispatch. The reducer has a case for the first seven only;
      `CartClear`, `SavePaymentMethod` and any other type fall through to its default. */
  datatype Action =
    | DarkModeOn
    | DarkModeOff
    | CartAddItem(item: CartItem)
    | CartRemoveItem(item: CartItem)
    | UserLogin(user: User)
    | UserLogout
    | SaveShippingAddress(address: ShippingAddress)
    | CartClear
    | SavePaymentMethod(paymentMethod: string)
    | Other(actionType: string)

  const DARK_MODE_COOKIE := "darkMode"
  const CART_ITEMS_COOKIE := "cartItems"
  const SHIPPING_ADDRESS_COOKIE := "shippingAddress"
  const PAYMENT_METHOD_COOKIE := "paymentMethod"
  const USER_INFO_COOKIE := "userInfo"

  /** A cookie's value, already decoded: plain text, or the value whose JSON text was stored. */
  datatype CookieValue =
    | Text(text: string)
    | ItemsJson(items: seq<CartItem>)
    | AddressJson(address: ShippingAddress)
    | UserJson(user: User)

  type CookieJar = map<string, CookieValue>

  // ---------------------------------------------------------------- cart lines

  predicate HasKey(items: seq<CartItem>, key: string) {
    exists i :: 0 <= i < |items| && items[i].key == key
  }

  /** No two lines of the cart share a key. */
  predicate DistinctKeys(items: seq<CartItem>) {
    forall i, j :: 0 <= i < j < |items| ==> items[i].key != items[j].key
  }

  /** `cartItems.find(item => item._key === key)`: the first line with that key. */
  function FindByKey(items: seq<CartItem>, key: string): (r: Option<CartItem>)
    ensures r.None? <==> !HasKey(items, key)
    ensures r.Some? ==> r.value in items && r.value.key == key
  {
    if |items| == 0 then None
    else if items[0].key == key then Some(items[0])
    else
      var r := FindByKey(items[1..], key);
      assert HasKey(items, key) ==> HasKey(items[1..], key) by {
        if HasKey(items, key) {
          var i :| 0 <= i < |items| && items[i].key == key;
          assert items[1..][i - 1].key == key;
        }
      }
      assert r.Some? ==> HasKey(items, key) by {
        if r.Some? {
          var i :| 0 <= i < |items[1..]| && items[1..][i].key == key;
          assert items[i + 1].key == key;
        }
      }
      r
  }

  /** The `map` of the add case: every line with the item's key becomes the item. */
  function ReplaceByKey(items: seq<CartItem>, item: CartItem): (r: seq<CartItem>)
    ensures |r| == |items|
    ensures forall i :: 0 <= i < |items| ==>
              r[i] == (if items[i].key == item.key then item else items[i])
  {
    if |items| == 0 then []
    else [if items[0].key == item.key then item else items[0]] + ReplaceByKey(items[1..], item)
  }

  /** The `filter` of the remove case: the lines whose key differs, in their order. */
  function RemoveByKey(items: seq<CartItem>, key: string): (r: seq<CartItem>)
    ensures |r| <= |items|
    ensures forall x :: x in r <==> x in items && x.key != key
  {
    if |items| == 0 then []
    else (if items[0].key != key then [items[0]] else []) + RemoveByKey(items[1..], key)
  }

  /** The add case: an upsert by key that replaces matching lines (never sums quantities)
      and appends a line with a new key at the end. */
  function AddItem(items: seq<CartItem>, item: CartItem): (r: seq<CartItem>)
    ensures HasKey(items, item.key) ==>
              |r| == |items| &&
              forall i :: 0 <= i < |items| ==>
                r[i] == (if items[i].key == item.key then item else items[i])
    ensures !HasKey(items, item.key) ==> r == items + [item]
  {
    if FindByKey(items, item.key).Some? then ReplaceByKey(items, item) else items + [item]
  }

  // ---------------------------------------------------------------- the reducer

  /** `reducer(state, action)`, seen field by field: which actions change each field, and how. */
  function Reduce(s: State, a: Action): (r: State)
    ensures r.darkMode == (if a.DarkModeOn? then true else if a.DarkModeOff? then false else s.darkMode)
    ensures r.userInfo == (if a.UserLogin? then Some(a.user) else if a.UserLogout? then None else s.userInfo)
    ensures r.cart.shippingAddress ==
              (if a.SaveShippingAddress? then a.address
               else if a.UserLogout? then NO_ADDRESS
               else s.cart.shippingAddress)
    ensures r.cart.cartItems ==
              (if a.CartAddItem? then AddItem(s.cart.cartItems, a.item)
               else if a.CartRemoveItem? then RemoveByKey(s.cart.cartItems, a.item.key)
               else if a.UserLogout? then []
               else s.cart.cartItems)
    ensures a.CartClear? || a.SavePaymentMethod? || a.Other? ==> r == s
  {
    match a
    case DarkModeOn => s.(darkMode := true)
    case DarkModeOff => s.(darkMode := false)
    case CartAddItem(item) => s.(cart := s.cart.(cartItems := AddItem(s.cart.cartItems, item)))
    case CartRemoveItem(item) => s.(cart := s.cart.(cartItems := RemoveByKey(s.cart.cartItems, item.key)))
    case UserLogin(user) => s.(userInfo := Some(user))
    case UserLogout => s.(userInfo := None, cart := Cart([], NO_ADDRESS))
    case SaveShippingAddress(address) => s.(cart := s.cart.(shippingAddress := address))
    case _ => s
  }

  /** The cookie jar after the reducer ran: the add and remove cases store the new line list. */
  function CookiesAfterDispatch(jar: CookieJar, a: Action, next: State): CookieJar {
    if a.CartAddItem? || a.CartRemoveItem? then jar[CART_ITEMS_COOKIE := ItemsJson(next.cart.cartItems)]
    else jar
  }

  /** The actions dispatched one after another, in dispatch order. */
  function Run(s: State, actions: seq<Action>): State
    decreases |actions|
  {
    if |actions| == 0 then s else Run(Reduce(s, actions[0]), actions[1..])
  }

  // ---------------------------------------------------------------- start-up from cookies

  function CookieText(jar: CookieJar, name: string): string {
    if name in jar && jar[name].Text? then jar[name].text else ""
  }

  /** `initialState`: dark mode is on exactly when the cookie reads "ON"; the lines, the
      address and the user are decoded from their cookies, or default when a cookie is absent. */
  function InitialState(jar: CookieJar): (s: State)
    ensures s.darkMode <==> DARK_MODE_COOKIE in jar && jar[DARK_MODE_COOKIE] == Text("ON")
    ensures CART_ITEMS_COOKIE !in jar ==> s.cart.cartItems == []
    ensures SHIPPING_ADDRESS_COOKIE !in jar ==> s.cart.shippingAddress == NO_ADDRESS
    ensures USER_INFO_COOKIE !in jar ==> s.userInfo == None
    ensures s.cart.cartItems ==
              if CART_ITEMS_COOKIE in jar && jar[CART_ITEMS_COOKIE].ItemsJson? then jar[CART_ITEMS_COOKIE].items else []
    ensures s.cart.shippingAddress ==
              if SHIPPING_ADDRESS_COOKIE in jar && jar[SHIPPING_ADDRESS_COOKIE].AddressJson?
              then jar[SHIPPING_ADDRESS_COOKIE].address else NO_ADDRESS
    ensures s.userInfo ==
              if USER_INFO_COOKIE in jar && jar[USER_INFO_COOKIE].UserJson? then Some(jar[USER_INFO_COOKIE].user) else None
  {
    State(
      CookieText(jar, DARK_MODE_COOKIE) == "ON",
      Cart(
        if CART_ITEMS_COOKIE in jar && jar[CART_ITEMS_COOKIE].ItemsJson? then jar[CART_ITEMS_COOKIE].items else [],
        if SHIPPING_ADDRESS_COOKIE in jar && jar[SHIPPING_ADDRESS_COOKIE].AddressJson?
        then jar[SHIPPING_ADDRESS_COOKIE].address else NO_ADDRESS),
      if USER_INFO_COOKIE in jar && jar[USER_INFO_COOKIE].UserJson? then Some(jar[USER_INFO_COOKIE].user) else None)
  }

  /** The cookies hold the state: a reload would start from the state in memory. */
  predicate Persisted(s: State, jar: CookieJar) {
    InitialState(jar) == s
  }

  // ---------------------------------------------------------------- properties of the cart cases

  /** `find` returns the first line carrying the key. */
  lemma {:induction false} FindByKeyFirst(items: seq<CartItem>, key: string, i: nat)
    requires i < |items| && items[i].key == key
    requires forall j :: 0 <= j < i ==> items[j].key != key
    ensures FindByKey(items, key) == Some(items[i])
  {
    if i > 0 {
      FindByKeyFirst(items[1..], key, i - 1);
    }
  }

  /** After an add, the line found under the item's key is the item itself, and so is
      every other line with that key: the stored record is the payload, unsummed. */
  lemma AddItemStoresPayload(items: seq<CartItem>, item: CartItem)
    ensures FindByKey(AddItem(items, item), item.key) == Some(item)
    ensures forall x :: x in AddItem(items, item) && x.key == item.key ==> x == item
  {
    var r := AddItem(items, item);
    assert HasKey(r, item.key) by {
      if HasKey(items, item.key) {
        var i :| 0 <= i < |items| && items[i].key == item.key;
        assert r[i] == item;
      } else {
        assert r[|items|] == item;
      }
    }
  }

  /** In a cart whose keys are distinct, adding an item under the key of line `i`
      overwrites that one line and nothing else. */
  lemma AddItemDistinctIsUpdate(items: seq<CartItem>, i: nat, item: CartItem)
    requires DistinctKeys(items) && i < |items| && items[i].key == item.key
    ensures AddItem(items, item) == items[i := item]
  {
    assert HasKey(items, item.key);
    var r := AddItem(items, item);
    forall j | 0 <= j < |items| ensures r[j] == items[i := item][j] {
      if j != i {
        assert items[j].key != items[i].key;
      }
    }
  }

  /** The add case keeps lines pairwise distinct by key. */
  lemma AddPreservesDistinct(items: seq<CartItem>, item: CartItem)
    requires DistinctKeys(items)
    ensures DistinctKeys(AddItem(items, item))
  {
    var r := AddItem(items, item);
    if HasKey(items, item.key) {
      assert forall i :: 0 <= i < |r| ==> r[i].key == items[i].key;
    } else {
      forall i, j | 0 <= i < j < |r| ensures r[i].key != r[j].key {
        if j == |items| {
          assert r[i] == items[i];
        } else {
          assert r[i] == items[i] && r[j] == items[j];
        }
      }
    }
  }

  lemma DistinctTail(items: seq<CartItem>)
    requires |items| > 0 && DistinctKeys(items)
    ensures DistinctKeys(items[1..])
  {
    forall i, j | 0 <= i < j < |items[1..]| ensures items[1..][i].key != items[1..][j].key {
      assert items[1..][i] == items[i + 1] && items[1..][j] == items[j + 1];
    }
  }

  /** The remove case keeps lines pairwise distinct by key. */
  lemma {:induction false} RemovePreservesDistinct(items: seq<CartItem>, key: string)
    requires DistinctKeys(items)
    ensures DistinctKeys(RemoveByKey(items, key))
    decreases |items|
  {
    if |items| > 0 {
      var rest := RemoveByKey(items[1..], key);
      DistinctTail(items);
      RemovePreservesDistinct(items[1..], key);
      if items[0].key != key {
        var r := [items[0]] + rest;
        assert RemoveByKey(items, key) == r;
        forall y | y in rest ensures y.key != items[0].key {
          assert y in items[1..];
          var j :| 0 <= j < |items[1..]| && items[1..][j] == y;
          assert items[j + 1] == y;
        }
        forall i, j | 0 <= i < j < |r| ensures r[i].key != r[j].key {
          assert r[j] == rest[j - 1];
          if i > 0 {
            assert r[i] == rest[i - 1];
          } else {
            assert rest[j - 1] in rest;
          }
        }
      } else {
        assert RemoveByKey(items, key) == rest;
      }
    }
  }

  /** Every action keeps the lines of the cart pairwise distinct by key. */
  lemma ReducePreservesDistinct(s: State, a: Action)
    requires DistinctKeys(s.cart.cartItems)
    ensures DistinctKeys(Reduce(s, a).cart.cartItems)
  {
    match a
    case CartAddItem(item) => AddPreservesDistinct(s.cart.cartItems, item);
    case CartRemoveItem(item) => RemovePreservesDistinct(s.cart.cartItems, item.key);
    case _ =>
  }

  /** The remove case distributes over concatenation, so it keeps the relative order of
      the lines it keeps. */
  lemma {:induction false} RemoveByKeyAppend(a: seq<CartItem>, b: seq<CartItem>, key: string)
    ensures RemoveByKey(a + b, key) == RemoveByKey(a, key) + RemoveByKey(b, key)
    decreases |a|
  {
    if |a| == 0 {
      assert a + b == b;
    } else {
      assert (a + b)[1..] == a[1..] + b;
      RemoveByKeyAppend(a[1..], b, key);
    }
  }

  /** Removing a key that no line carries leaves the lines as they were. */
  lemma {:induction false} RemoveAbsentKey(items: seq<CartItem>, key: string)
    requires !HasKey(items, key)
    ensures RemoveByKey(items, key) == items
    decreases |items|
  {
    if |items| > 0 {
      forall i | 0 <= i < |items[1..]| ensures items[1..][i].key != key {
        assert items[1..][i] == items[i + 1];
      }
      RemoveAbsentKey(items[1..], key);
      assert items[0].key != key;
      assert items == [items[0]] + items[1..];
    }
  }

  /** A remove followed by an add of the same key puts that line at the end, not back
      at its old position. */
  lemma RemoveThenAddAppends(items: seq<CartItem>, item: CartItem)
    ensures AddItem(RemoveByKey(items, item.key), item) == RemoveByKey(items, item.key) + [item]
  {
    var r := RemoveByKey(items, item.key);
    forall i | 0 <= i < |r| ensures r[i].key != item.key {
      assert r[i] in r;
    }
  }

  /** One add action per item, in order. */
  function AddActions(news: seq<CartItem>): (actions: seq<Action>)
    ensures |actions| == |news|
    ensures forall i :: 0 <= i < |news| ==> actions[i] == CartAddItem(news[i])
    decreases |news|
  {
    if |news| == 0 then [] else AddActions(news[..|news| - 1]) + [CartAddItem(news[|news| - 1])]
  }

  /** No line of `a` shares a key with a line of `b`. */
  predicate KeysDisjoint(a: seq<CartItem>, b: seq<CartItem>) {
    forall i, j :: 0 <= i < |a| && 0 <= j < |b| ==> a[i].key != b[j].key
  }

  /** Dispatching `a` then `b` is dispatching `a + b`. */
  lemma {:induction false} RunAppend(s: State, a: seq<Action>, b: seq<Action>)
    ensures Run(s, a + b) == Run(Run(s, a), b)
    decreases |a|
  {
    if |a| == 0 {
      assert a + b == b;
    } else {
      assert (a + b)[0] == a[0] && (a + b)[1..] == a[1..] + b;
      RunAppend(Reduce(s, a[0]), a[1..], b);
    }
  }

  /** Adding items whose keys are distinct and new appends them all, in first-seen order,
      and touches nothing but the lines. */
  lemma {:induction false} RunAddsDistinctNew(s: State, news: seq<CartItem>)
    requires DistinctKeys(news)
    requires KeysDisjoint(s.cart.cartItems, news)
    ensures Run(s, AddActions(news)) == s.(cart := s.cart.(cartItems := s.cart.cartItems + news))
    decreases |news|
  {
    if |news| == 0 {
      assert s.cart.cartItems + news == s.cart.cartItems;
    } else {
      var n := |news|;
      var prefix, last := news[..n - 1], news[n - 1];
      PrefixFacts(s.cart.cartItems, news);
      RunAddsDistinctNew(s, prefix);
      var mid := s.(cart := s.cart.(cartItems := s.cart.cartItems + prefix));
      LastKeyFresh(s.cart.cartItems, news);
      calc {
        Run(s, AddActions(news));
        { RunAppend(s, AddActions(prefix), [CartAddItem(last)]); }
        Run(mid, [CartAddItem(last)]);
        { OneRun(mid, CartAddItem(last)); }
        Reduce(mid, CartAddItem(last));
        { AppendFresh(mid, last); AppendLast(s.cart.cartItems, news); }
        s.(cart := s.cart.(cartItems := s.cart.cartItems + news));
      }
    }
  }

  lemma AppendLast(lines: seq<CartItem>, news: seq<CartItem>)
    requires |news| > 0
    ensures lines + news[..|news| - 1] + [news[|news| - 1]] == lines + news
  {
    assert news[..|news| - 1] + [news[|news| - 1]] == news;
  }

  /** An add under a key no line carries appends the item and changes nothing else. */
  lemma AppendFresh(s: State, item: CartItem)
    requires !HasKey(s.cart.cartItems, item.key)
    ensures Reduce(s, CartAddItem(item)) == s.(cart := s.cart.(cartItems := s.cart.cartItems + [item]))
  {
  }

  lemma OneRun(s: State, a: Action)
    ensures Run(s, [a]) == Reduce(s, a)
  {
    assert [a][1..] == [];
  }

  /** The hypotheses of the induction carry over to all items but the last. */
  lemma PrefixFacts(olds: seq<CartItem>, news: seq<CartItem>)
    requires |news| > 0 && DistinctKeys(news) && KeysDisjoint(olds, news)
    ensures DistinctKeys(news[..|news| - 1]) && KeysDisjoint(olds, news[..|news| - 1])
  {
    var prefix := news[..|news| - 1];
    forall i, j | 0 <= i < j < |prefix| ensures prefix[i].key != prefix[j].key {
      assert prefix[i] == news[i] && prefix[j] == news[j];
    }
    forall i, j | 0 <= i < |olds| && 0 <= j < |prefix| ensures olds[i].key != prefix[j].key {
      assert prefix[j] == news[j];
    }
  }

  /** The last new item's key is carried by none of the lines before it. */
  lemma LastKeyFresh(olds: seq<CartItem>, news: seq<CartItem>)
    requires |news| > 0 && DistinctKeys(news) && KeysDisjoint(olds, news)
    ensures !HasKey(olds + news[..|news| - 1], news[|news| - 1].key)
  {
    var n := |news|;
    var before := olds + news[..n - 1];
    forall j | 0 <= j < |before| ensures before[j].key != news[n - 1].key {
      if j < |olds| {
        assert before[j] == olds[j];
      } else {
        assert before[j] == news[j - |olds|];
      }
    }
  }

  /** Two adds with the same key leave one line, carrying the second quantity. */
  lemma RepeatedAddReplaces(s: State, a: CartItem, q1: int, q2: int)
    requires s.cart.cartItems == []
    ensures Run(s, [CartAddItem(a.(quantity := q1)), CartAddItem(a.(quantity := q2))]).cart.cartItems
            == [a.(quantity := q2)]
  {
    var s1 := Reduce(s, CartAddItem(a.(quantity := q1)));
    assert s1.cart.cartItems == [a.(quantity := q1)];
    var s2 := Reduce(s1, CartAddItem(a.(quantity := q2)));
    assert HasKey(s1.cart.cartItems, a.key) by { assert s1.cart.cartItems[0].key == a.key; }
    assert s2.cart.cartItems == [a.(quantity := q2)];
    var acts := [CartAddItem(a.(quantity := q1)), CartAddItem(a.(quantity := q2))];
    assert acts[1..][1..] == [];
    assert Run(s, acts) == Run(s1, acts[1..]) == Run(s2, acts[1..][1..]);
  }

  // ---------------------------------------------------------------- persistence

  /** The add and remove cases write the new line list, so cookies that held the state
      still hold it after the dispatch. */
  lemma CartDispatchPersists(s: State, jar: CookieJar, a: Action)
    requires Persisted(s, jar)
    requires a.CartAddItem? || a.CartRemoveItem?
    ensures Persisted(Reduce(s, a), CookiesAfterDispatch(jar, a, Reduce(s, a)))
  {
    var r := Reduce(s, a);
    var jar' := CookiesAfterDispatch(jar, a, r);
    assert CookieText(jar', DARK_MODE_COOKIE) == CookieText(jar, DARK_MODE_COOKIE);
  }

  /** Saving an address together with its cookie keeps cookies and state in step. */
  lemma AddressSavePersists(s: State, jar: CookieJar, address: ShippingAddress)
    requires Persisted(s, jar)
    ensures Persisted(Reduce(s, SaveShippingAddress(address)), jar[SHIPPING_ADDRESS_COOKIE := AddressJson(address)])
  {
    assert CookieText(jar[SHIPPING_ADDRESS_COOKIE := AddressJson(address)], DARK_MODE_COOKIE) == CookieText(jar, DARK_MODE_COOKIE);
  }

  /** Signing a user in together with the user cookie keeps cookies and state in step. */
  lemma LoginPersists(s: State, jar: CookieJar, user: User)
    requires Persisted(s, jar)
    ensures Persisted(Reduce(s, UserLogin(user)), jar[USER_INFO_COOKIE := UserJson(user)])
  {
    assert CookieText(jar[USER_INFO_COOKIE := UserJson(user)], DARK_MODE_COOKIE) == CookieText(jar, DARK_MODE_COOKIE);
  }

  /** Flipping dark mode and writing the flipped flag as `ON`/`OFF` keeps cookies and state in step. */
  lemma DarkModeTogglePersists(s: State, jar: CookieJar)
    requires Persisted(s, jar)
    ensures Persisted(Reduce(s, if s.darkMode then DarkModeOff else DarkModeOn),
                      jar[DARK_MODE_COOKIE := Text(if !s.darkMode then "ON" else "OFF")])
  {
  }

  /** The cookies the logout removes: every state cookie but the dark-mode one, and the payment method's. */
  const LOGOUT_COOKIES: set<string> := {USER_INFO_COOKIE, CART_ITEMS_COOKIE, SHIPPING_ADDRESS_COOKIE, PAYMENT_METHOD_COOKIE}

  /** Logging out and removing those cookies keeps cookies and state in step: the dark-mode
      cookie stays, and so does the mode. */
  lemma LogoutPersists(s: State, jar: CookieJar)
    requires Persisted(s, jar)
    ensures Persisted(Reduce(s, UserLogout), jar - LOGOUT_COOKIES)
  {
    assert CookieText(jar - LOGOUT_COOKIES, DARK_MODE_COOKIE) == CookieText(jar, DARK_MODE_COOKIE);
  }

  /** The `Authorization` header the pages send: the user's token after `Bearer `, or the
      text `undefined` without a user. */
  function Authorization(userInfo: Option<User>): string {
    "Bearer " + (if userInfo.Some? then userInfo.value.token else "undefined")
  }

  /** The cookies the start-up decoding reads. */
  const STATE_COOKIES: set<string> := {DARK_MODE_COOKIE, CART_ITEMS_COOKIE, SHIPPING_ADDRESS_COOKIE, USER_INFO_COOKIE}

  /** Only the four state cookies decide the start-up state: writing or removing any other
      cookie (the payment method's, say) changes nothing a reload would see. */
  lemma OtherCookiesUnread(jar: CookieJar, name: string, value: CookieValue)
    requires name !in STATE_COOKIES
    ensures InitialState(jar[name := value]) == InitialState(jar)
    ensures InitialState(jar - {name}) == InitialState(jar)
  {
    assert CookieText(jar[name := value], DARK_MODE_COOKIE) == CookieText(jar, DARK_MODE_COOKIE);
    assert CookieText(jar - {name}, DARK_MODE_COOKIE) == CookieText(jar, DARK_MODE_COOKIE);
  }

  // ---------------------------------------------------------------- the running application

  datatype Severity = Error | Success

  /** A snackbar notice. */
  datatype Notice = Notice(message: string, severity: Severity)

  /** A `router.push` target: a URL string, or a path with a query object. */
  datatype Url = Href(url: string) | PathQuery(pathname: string, query: map<string, string>)

  /** The application as a page sees it: the store's state and dispatch, the cookie jar,
      the router's query and the targets pushed so far, and the notices on screen. */
  class Session {
    var state: State
    var cookies: CookieJar
    var query: map<string, string>
    var pushed: seq<Url>
    var notices: seq<Notice>

    /** Start-up: the state is decoded from the cookies present. */
    constructor (jar: CookieJar, routerQuery: map<string, string>)
      ensures state == InitialState(jar) && Persisted(state, jar)
      ensures cookies == jar && query == routerQuery && pushed == [] && notices == []
    {
      state := InitialState(jar);
      cookies := jar;
      query := routerQuery;
      pushed := [];
      notices := [];
    }

    /** `dispatch(action)`: the reducer's new state, and its cookie write for add and remove. */
    method Dispatch(a: Action)
      modifies this
      ensures state == Reduce(old(state), a)
      ensures cookies == CookiesAfterDispatch(old(cookies), a, state)
      ensures query == old(query) && pushed == old(pushed) && notices == old(notices)
    {
      state := Reduce(state, a);
      if a.CartAddItem? || a.CartRemoveItem? {
        cookies := cookies[CART_ITEMS_COOKIE := ItemsJson(state.cart.cartItems)];
      }
    }

    /** `Cookies.set(name, value)`. */
    method SetCookie(name: string, value: CookieValue)
      modifies this
      ensures cookies == old(cookies)[name := value]
      ensures state == old(state) && query == old(query) && pushed == old(pushed) && notices == old(notices)
    {
      cookies := cookies[name := value];
    }

    /** `Cookies.remove(name)`. */
    method RemoveCookie(name: string)
      modifies this
      ensures cookies == old(cookies) - {name}
      ensures state == old(state) && query == old(query) && pushed == old(pushed) && notices == old(notices)
    {
      cookies := cookies - {name};
    }

    /** `router.push(url)`. */
    method Push(url: Url)
      modifies this
      ensures pushed == old(pushed) + [url]
      ensures state == old(state) && cookies == old(cookies) && query == old(query) && notices == old(notices)
    {
      pushed := pushed + [url];
    }

    /** `enqueueSnackbar(message, { variant })`. */
    method Notify(message: string, severity: Severity)
      modifies this
      ensures notices == old(notices) + [Notice(message, severity)]
      ensures state == old(state) && cookies == old(cookies) && query == old(query) && pushed == old(pushed)
    {
      notices := notices + [Notice(message, severity)];
    }

    /** `closeSnackbar()`: every open notice is closed. */
    method CloseNotices()
      modifies this
      ensures notices == []
      ensures state == old(state) && cookies == old(cookies) && query == old(query) && pushed == old(pushed)
    {
      notices := [];
    }
  }
}
