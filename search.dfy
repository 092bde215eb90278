// The search page of pages/search.tsx: the five filter parameters read from the router
// query, the catalog query text assembled from them, the filter handlers that rewrite the
// router query, the page's fetch state, and its add-to-cart handler.

module Search {
  import opened Models
  import opened Store
  import opened Errors
  import Home

  /** The five filter parameters of the page. */
  datatype SearchParams = SearchParams(category: string, query: string, price: string, rating: string, sort: string)

  /** The destructuring defaults: a parameter missing from the router query reads as
      `'all'` (`'default'` for the sort); a present one, even empty, is taken as it is. */
  function ParamsOf(routerQuery: map<string, string>): (p: SearchParams)
    ensures p.category == if "category" in routerQuery then routerQuery["category"] else "all"
    ensures p.query == if "query" in routerQuery then routerQuery["query"] else "all"
    ensures p.price == if "price" in routerQuery then routerQuery["price"] else "all"
    ensures p.rating == if "rating" in routerQuery then routerQuery["rating"] else "all"
    ensures p.sort == if "sort" in routerQuery then routerQuery["sort"] else "default"
  {
    SearchParams(
      Lookup(routerQuery, "category", "all"),
      Lookup(routerQuery, "query", "all"),
      Lookup(routerQuery, "price", "all"),
      Lookup(routerQuery, "rating", "all"),
      Lookup(routerQuery, "sort", "default"))
  }

  function Lookup(m: map<string, string>, key: string, default: string): string {
    if key in m then m[key] else default
  }

  // ---------------------------------------------------------------- `split('-')`

  /** `s.split(c)`: the pieces between the separators, in order; always at least one. */
  function Split(s: string, c: char): (pieces: seq<string>)
    ensures |pieces| >= 1
    ensures forall i :: 0 <= i < |pieces| ==> c !in pieces[i]
    decreases |s|
  {
    if |s| == 0 then [""]
    else
      var rest := Split(s[1..], c);
      if s[0] == c then [""] + rest else [[s[0]] + rest[0]] + rest[1..]
  }

  /** `pieces.join(c)`. */
  function Join(pieces: seq<string>, c: char): string
    requires |pieces| >= 1
    decreases |pieces|
  {
    if |pieces| == 1 then pieces[0] else pieces[0] + [c] + Join(pieces[1..], c)
  }

  /** Joining the pieces of a split gives back the text. */
  lemma {:induction false} JoinSplit(s: string, c: char)
    ensures Join(Split(s, c), c) == s
    decreases |s|
  {
    if |s| > 0 {
      var rest := Split(s[1..], c);
      JoinSplit(s[1..], c);
      if s[0] == c {
        assert Split(s, c)[1..] == rest;
      } else {
        var r := Split(s, c);
        if |rest| == 1 {
          assert r == [[s[0]] + rest[0]];
        } else {
          assert r[1..] == rest[1..];
          assert Join(rest, c) == rest[0] + [c] + Join(rest[1..], c);
        }
      }
      assert s == [s[0]] + s[1..];
    }
  }

  /** Splitting a text that starts with the separator gives an empty first piece. */
  lemma SplitLeading(s: string, c: char)
    ensures Split([c] + s, c) == [""] + Split(s, c)
  {
    assert ([c] + s)[1..] == s;
  }

  /** Splitting a join of separator-free pieces gives back the pieces. */
  lemma {:induction false} SplitJoin(pieces: seq<string>, c: char)
    requires |pieces| >= 1
    requires forall i :: 0 <= i < |pieces| ==> c !in pieces[i]
    ensures Split(Join(pieces, c), c) == pieces
    decreases |pieces|, |pieces[0]|
  {
    var head := pieces[0];
    if |head| > 0 {
      var shorter := [head[1..]] + pieces[1..];
      forall i | 0 <= i < |shorter| ensures c !in shorter[i] {
        if i == 0 {
          assert forall x :: x in head[1..] ==> x in head;
        } else {
          assert shorter[i] == pieces[i];
        }
      }
      SplitJoin(shorter, c);
      JoinFirstChar(pieces, c);
      assert head[0] != c by { assert head[0] in head; }
      SplitCons(head[0], Join(shorter, c), c);
      assert [head[0]] + head[1..] == head;
      assert [head] + pieces[1..] == pieces;
    } else if |pieces| > 1 {
      var tail := pieces[1..];
      forall i | 0 <= i < |tail| ensures c !in tail[i] {
        assert tail[i] == pieces[i + 1];
      }
      SplitJoin(tail, c);
      assert Join(pieces, c) == [c] + Join(tail, c);
      SplitLeading(Join(tail, c), c);
      assert [head] + tail == pieces;
    }
  }

  /** Joining pieces whose first is not empty starts with its first character. */
  lemma JoinFirstChar(pieces: seq<string>, c: char)
    requires |pieces| >= 1 && |pieces[0]| > 0
    ensures Join(pieces, c) == [pieces[0][0]] + Join([pieces[0][1..]] + pieces[1..], c)
  {
    var head := pieces[0];
    var shorter := [head[1..]] + pieces[1..];
    assert shorter[1..] == pieces[1..];
    assert head == [head[0]] + head[1..];
    if |pieces| > 1 {
      assert Join(shorter, c) == head[1..] + [c] + Join(pieces[1..], c);
    }
  }

  /** Splitting a text whose first character is not the separator extends the first piece. */
  lemma SplitCons(x: char, t: string, c: char)
    requires x != c
    ensures Split([x] + t, c) == [[x] + Split(t, c)[0]] + Split(t, c)[1..]
  {
    assert ([x] + t)[1..] == t;
  }

  // ---------------------------------------------------------------- `${Number(s)}`

  predicate IsDigits(s: string) {
    forall i :: 0 <= i < |s| ==> '0' <= s[i] <= '9'
  }

  /** The text without its leading zeros: a suffix of it, everything cut off being `0`. */
  function StripLeadingZeros(s: string): (r: string)
    ensures |r| <= |s| && (|r| > 0 ==> r[0] != '0')
    ensures r == s[|s| - |r|..]
    ensures forall i :: 0 <= i < |s| - |r| ==> s[i] == '0'
    ensures IsDigits(s) ==> IsDigits(r)
  {
    if |s| > 0 && s[0] == '0' then StripLeadingZeros(s[1..]) else s
  }

  /** The decimal text of `Number(s)` for the texts modelled: a missing piece is `NaN`;
      a run of at most fifteen significant digits (or none) reads as itself without leading
      zeros (`"0"` when nothing is left); any other text is `NaN`. */
  function NumberText(s: Option<string>): (r: string)
    ensures r == "NaN" || (IsDigits(r) && |r| >= 1 && (r[0] == '0' ==> r == "0"))
    ensures s.None? ==> r == "NaN"
  {
    match s
    case None => "NaN"
    case Some(t) =>
      var d := StripLeadingZeros(t);
      if IsDigits(t) && |d| <= 15 then (if d == "" then "0" else d) else "NaN"
  }

  /** A canonical number text is its own `Number` text. */
  lemma CanonicalNumberText(t: string)
    requires IsDigits(t) && 1 <= |t| <= 15 && (t[0] == '0' ==> t == "0")
    ensures NumberText(Some(t)) == t
  {
    if t[0] == '0' {
      assert t[1..] == "";
    }
  }

  /** Zeros in front of a text do not change what is left once they are stripped. */
  lemma {:induction false} StripZerosPrefix(z: string, t: string)
    requires forall i :: 0 <= i < |z| ==> z[i] == '0'
    ensures StripLeadingZeros(z + t) == StripLeadingZeros(t)
  {
    if z == "" {
      assert z + t == t;
    } else {
      var zt := z + t;
      assert zt[0] == '0' && zt[1..] == z[1..] + t;
      assert StripLeadingZeros(zt) == StripLeadingZeros(zt[1..]);
      StripZerosPrefix(z[1..], t);
    }
  }

  /** A canonical number text behind any run of zeros reads as itself: `"050"` is `50` and
      `"000"` is `0`. */
  lemma LeadingZerosNumberText(z: string, t: string)
    requires forall i :: 0 <= i < |z| ==> z[i] == '0'
    requires IsDigits(t) && 1 <= |t| <= 15 && (t[0] == '0' ==> t == "0")
    ensures NumberText(Some(z + t)) == t
  {
    StripZerosPrefix(z, t);
    assert IsDigits(z + t) by {
      forall i | 0 <= i < |z + t| ensures '0' <= (z + t)[i] <= '9' {
        if i >= |z| {
          assert (z + t)[i] == t[i - |z|];
        }
      }
    }
    if t[0] == '0' {
      assert t[1..] == "";
    }
  }

  lemma LeadingZeroExample()
    ensures NumberText(Some("050")) == "50"
  {
    LeadingZerosNumberText("0", "50");
    assert "0" + "50" == "050";
  }

  /** Reading a number's text as a number gives the same text: `NaN` included. */
  lemma NumberTextIdempotent(s: Option<string>)
    ensures NumberText(Some(NumberText(s))) == NumberText(s)
  {
    var r := NumberText(s);
    if r == "NaN" {
      assert !IsDigits(r) by { assert r[0] == 'N'; }
    } else {
      CanonicalNumberText(r);
    }
  }

  // ---------------------------------------------------------------- the catalog query

  const QUERY_PREFIX := "*[_type == \"product\""

  function CategoryClause(p: SearchParams): string {
    if p.category != "all" then " && category match \"" + p.category + "\" " else ""
  }

  function NameClause(p: SearchParams): string {
    if p.query != "all" then " && name match \"" + p.query + "\" " else ""
  }

  /** The bounds of a price range `"a-b"`: the first and second pieces of its split on `-`. */
  function PriceBounds(price: string): (bounds: (string, string)) {
    var pieces := Split(price, '-');
    (NumberText(Some(pieces[0])), NumberText(if |pieces| > 1 then Some(pieces[1]) else None))
  }

  function PriceClause(p: SearchParams): string {
    if p.price != "all" then
      var (lo, hi) := PriceBounds(p.price);
      " && price >= " + lo + " && price <= " + hi
    else ""
  }

  function RatingClause(p: SearchParams): string {
    if p.rating != "all" then " && rating >= " + NumberText(Some(p.rating)) + " " else ""
  }

  /** The sort mapping: three known sorts, anything else (the default included) unordered. */
  function OrderClause(sort: string): (order: string)
    ensures sort == "lowest" ==> order == "| order(price asc)"
    ensures sort == "highest" ==> order == "| order(price desc)"
    ensures sort == "toprated" ==> order == "| order(rating desc)"
    ensures sort !in {"lowest", "highest", "toprated"} ==> order == ""
  {
    if sort == "lowest" then "| order(price asc)"
    else if sort == "highest" then "| order(price desc)"
    else if sort == "toprated" then "| order(rating desc)"
    else ""
  }

  /** The query text: the product filter, the clauses in the order category, name, price,
      rating, then the closing bracket and the order clause. */
  function QueryText(p: SearchParams): string {
    QUERY_PREFIX + Filters(p) + "] " + OrderClause(p.sort)
  }

  /** The filter clauses of the query, in the order category, name, price, rating. */
  function Filters(p: SearchParams): string {
    CategoryClause(p) + NameClause(p) + PriceClause(p) + RatingClause(p)
  }

  /** The query assembly of `fetchData`, clause by clause onto one variable. */
  method BuildQuery(p: SearchParams) returns (gQuery: string)
    ensures gQuery == QueryText(p)
  {
    gQuery := QUERY_PREFIX;
    ClausePresence(p);
    if p.category != "all" {
      gQuery := gQuery + CategoryClause(p);
    }
    assert gQuery == QUERY_PREFIX + CategoryClause(p);
    if p.query != "all" {
      gQuery := gQuery + NameClause(p);
    }
    assert gQuery == QUERY_PREFIX + CategoryClause(p) + NameClause(p);
    if p.price != "all" {
      gQuery := gQuery + PriceClause(p);
    }
    assert gQuery == QUERY_PREFIX + CategoryClause(p) + NameClause(p) + PriceClause(p);
    if p.rating != "all" {
      gQuery := gQuery + RatingClause(p);
    }
    Regroup(QUERY_PREFIX, CategoryClause(p), NameClause(p), PriceClause(p), RatingClause(p));
    assert gQuery == QUERY_PREFIX + Filters(p);
    var order := "";
    if p.sort != "default" {
      if p.sort == "lowest" { order := "| order(price asc)"; }
      if p.sort == "highest" { order := "| order(price desc)"; }
      if p.sort == "toprated" { order := "| order(rating desc)"; }
    }
    assert order == OrderClause(p.sort);
    gQuery := gQuery + "] " + order;
  }

  /** Every query selects products and ends with the closing bracket and the order clause. */
  lemma QueryShape(p: SearchParams)
    ensures |QueryText(p)| >= |QUERY_PREFIX| + 2 + |OrderClause(p.sort)|
    ensures QueryText(p)[..|QUERY_PREFIX|] == QUERY_PREFIX
    ensures QueryText(p)[|QueryText(p)| - |OrderClause(p.sort)| - 2..] == "] " + OrderClause(p.sort)
  {
    Ends(QUERY_PREFIX, Filters(p), "] ", OrderClause(p.sort));
  }

  /** Appending four texts one by one appends their concatenation. */
  lemma Regroup(a: string, b: string, c: string, d: string, e: string)
    ensures a + b + c + d + e == a + (b + c + d + e)
  {
  }

  /** The two ends of a concatenation of four texts. */
  lemma Ends(a: string, b: string, c: string, d: string)
    ensures |a + b + c + d| == |a| + |b| + |c| + |d|
    ensures (a + b + c + d)[..|a|] == a
    ensures (a + b + c + d)[|a + b + c + d| - |d| - |c|..] == c + d
  {
    assert a + b + c + d == a + (b + (c + d));
    assert a + b + c + d == (a + b) + (c + d);
  }

  /** A clause is present exactly when its parameter is not `'all'`. */
  lemma ClausePresence(p: SearchParams)
    ensures CategoryClause(p) != "" <==> p.category != "all"
    ensures NameClause(p) != "" <==> p.query != "all"
    ensures PriceClause(p) != "" <==> p.price != "all"
    ensures RatingClause(p) != "" <==> p.rating != "all"
  {
    if p.category != "all" { assert |CategoryClause(p)| > 0; }
    if p.query != "all" { assert |NameClause(p)| > 0; }
    if p.price != "all" { assert |PriceClause(p)| > 0; }
    if p.rating != "all" { assert |RatingClause(p)| > 0; }
  }

  /** With no parameter in the router query the page asks for every product, unordered. */
  lemma DefaultQuery()
    ensures QueryText(ParamsOf(map[])) == "*[_type == \"product\"] "
  {
  }

  /** A range `"a-b"` of canonical numbers bounds the price at `a` and `b`. */
  lemma PriceRangeBounds(lo: string, hi: string)
    requires IsDigits(lo) && 1 <= |lo| <= 15 && (lo[0] == '0' ==> lo == "0")
    requires IsDigits(hi) && 1 <= |hi| <= 15 && (hi[0] == '0' ==> hi == "0")
    ensures PriceBounds(lo + "-" + hi) == (lo, hi)
  {
    assert '-' !in lo by { assert forall i :: 0 <= i < |lo| ==> lo[i] != '-'; }
    assert '-' !in hi by { assert forall i :: 0 <= i < |hi| ==> hi[i] != '-'; }
    var pieces := [lo, hi];
    assert Join(pieces, '-') == lo + "-" + hi by {
      assert pieces[1..] == [hi];
    }
    SplitJoin(pieces, '-');
    CanonicalNumberText(lo);
    CanonicalNumberText(hi);
  }

  /** The bounds of the first option of the price menu. */
  lemma FirstPriceOptionBounds()
    ensures PriceBounds("1-50") == ("1", "50")
  {
    assert IsDigits("1") && IsDigits("50");
    assert "1-50" == "1" + "-" + "50";
    PriceRangeBounds("1", "50");
  }

  /** A range `"a-b"` of canonical numbers gives the clause bounding the price at `a` and `b`. */
  lemma PriceRangeClause(p: SearchParams, lo: string, hi: string)
    requires IsDigits(lo) && 1 <= |lo| <= 15 && (lo[0] == '0' ==> lo == "0")
    requires IsDigits(hi) && 1 <= |hi| <= 15 && (hi[0] == '0' ==> hi == "0")
    requires p.price == lo + "-" + hi
    ensures PriceClause(p) == " && price >= " + lo + " && price <= " + hi
  {
    PriceRangeBounds(lo, hi);
    assert p.price != "all" by {
      assert p.price[|lo|] == '-';
      assert '-' !in "all";
    }
  }

  // ---------------------------------------------------------------- the filter handlers

  /** The arguments of `filterSearch`; a missing one is `None`. */
  datatype FilterArgs = FilterArgs(
    category: Option<string>,
    sort: Option<string>,
    searchQuery: Option<string>,
    price: Option<string>,
    rating: Option<string>)

  /** The names of the five arguments, which are also the router query keys they are written under. */
  const FILTER_KEYS: set<string> := {"searchQuery", "category", "sort", "price", "rating"}

  /** `if (value) query[key] = value`. */
  function Write(q: map<string, string>, key: string, value: Option<string>): map<string, string> {
    if Truthy(value) then q[key := value.value] else q
  }

  /** The five writes of `filterSearch`, in the page's order. */
  function Writes(q: map<string, string>, args: FilterArgs): map<string, string> {
    Write(Write(Write(Write(Write(q, "searchQuery", args.searchQuery), "category", args.category),
      "sort", args.sort), "price", args.price), "rating", args.rating)
  }

  /** The router query entries `filterSearch` writes: one per truthy argument, under its name. */
  function Supplied(args: FilterArgs): (m: map<string, string>)
    ensures "searchQuery" in m <==> Truthy(args.searchQuery)
    ensures "category" in m <==> Truthy(args.category)
    ensures "sort" in m <==> Truthy(args.sort)
    ensures "price" in m <==> Truthy(args.price)
    ensures "rating" in m <==> Truthy(args.rating)
    ensures m.Keys <= FILTER_KEYS
    ensures Truthy(args.searchQuery) ==> m["searchQuery"] == args.searchQuery.value
    ensures Truthy(args.category) ==> m["category"] == args.category.value
    ensures Truthy(args.sort) ==> m["sort"] == args.sort.value
    ensures Truthy(args.price) ==> m["price"] == args.price.value
    ensures Truthy(args.rating) ==> m["rating"] == args.rating.value
  {
    FilterKeysDistinct();
    Writes(map[], args)
  }

  /** The five names differ (their lengths already do). */
  lemma FilterKeysDistinct()
    ensures "searchQuery" != "category" && "searchQuery" != "sort" && "searchQuery" != "price" && "searchQuery" != "rating"
    ensures "category" != "sort" && "category" != "price" && "category" != "rating"
    ensures "sort" != "price" && "sort" != "rating" && "price" != "rating"
  {
    assert |"searchQuery"| == 11 && |"category"| == 8 && |"sort"| == 4 && |"price"| == 5 && |"rating"| == 6;
  }

  /** A write onto an overridden query is a write onto the overriding entries. */
  lemma WriteOverride(q: map<string, string>, m: map<string, string>, key: string, value: Option<string>)
    ensures Write(q + m, key, value) == q + Write(m, key, value)
  {
  }

  /** The five writes in the page's order amount to overriding the query with the supplied entries. */
  lemma WritesOverride(q: map<string, string>, args: FilterArgs)
    ensures Writes(q, args) == q + Supplied(args)
  {
    var m0: map<string, string> := map[];
    assert q + m0 == q;
    var m1 := Write(m0, "searchQuery", args.searchQuery);
    WriteOverride(q, m0, "searchQuery", args.searchQuery);
    var m2 := Write(m1, "category", args.category);
    WriteOverride(q, m1, "category", args.category);
    var m3 := Write(m2, "sort", args.sort);
    WriteOverride(q, m2, "sort", args.sort);
    var m4 := Write(m3, "price", args.price);
    WriteOverride(q, m3, "price", args.price);
    WriteOverride(q, m4, "rating", args.rating);
  }

  /** `filterSearch`: each truthy argument is written into the router query under its name,
      and the page is pushed again with that query. */
  method FilterSearch(s: Session, args: FilterArgs)
    modifies s
    ensures s.query == old(s.query) + Supplied(args)
    ensures s.pushed == old(s.pushed) + [PathQuery("/search", s.query)]
    ensures s.state == old(s.state) && s.cookies == old(s.cookies) && s.notices == old(s.notices)
  {
    WritesOverride(s.query, args);
    if Truthy(args.searchQuery) { s.query := s.query["searchQuery" := args.searchQuery.value]; }
    if Truthy(args.category) { s.query := s.query["category" := args.category.value]; }
    if Truthy(args.sort) { s.query := s.query["sort" := args.sort.value]; }
    if Truthy(args.price) { s.query := s.query["price" := args.price.value]; }
    if Truthy(args.rating) { s.query := s.query["rating" := args.rating.value]; }
    s.Push(PathQuery("/search", s.query));
  }

  /** Query entries that `filterSearch` was not given a value for are kept as they were. */
  lemma FilterKeepsOthers(q: map<string, string>, args: FilterArgs, k: string)
    requires k in q && k !in Supplied(args)
    ensures k in q + Supplied(args) && (q + Supplied(args))[k] == q[k]
  {
  }

  /** A menu choice: the category, sort, price and rating handlers each pass the one
      value chosen; the next render reads it back as that parameter. */
  lemma ChoiceReadsBack(q: map<string, string>, value: string)
    requires value != ""
    ensures ParamsOf(q + Supplied(FilterArgs(Some(value), None, None, None, None))).category == value
    ensures ParamsOf(q + Supplied(FilterArgs(None, Some(value), None, None, None))).sort == value
    ensures ParamsOf(q + Supplied(FilterArgs(None, None, None, Some(value), None))).price == value
    ensures ParamsOf(q + Supplied(FilterArgs(None, None, None, None, Some(value)))).rating == value
  {
  }

  /** The `searchQuery` argument is written under a key the parameters are not read from
      (the name filter reads `query`): passing it alone leaves every parameter as it was. */
  lemma SearchQueryIgnored(q: map<string, string>, value: string)
    ensures ParamsOf(q + Supplied(FilterArgs(None, None, Some(value), None, None))) == ParamsOf(q)
  {
    var m := Supplied(FilterArgs(None, None, Some(value), None, None));
    assert m.Keys <= {"searchQuery"};
    assert |"searchQuery"| == 11 && |"category"| == 8 && |"query"| == 5 && |"sort"| == 4 &&
           |"price"| == 5 && |"rating"| == 6;
    assert "query" != "searchQuery";
  }

  // ---------------------------------------------------------------- the fetch state

  /** What the result area shows. */
  datatype SearchView = Spinner | ErrorAlert(message: string) | Results(products: seq<Product>)

  /** The page's `useState` record. Each `setState` replaces the whole record, so a field
      the call leaves out is undefined afterwards: here the empty list or text. */
  class SearchScreen {
    var loading: bool
    var products: seq<Product>
    var error: string

    constructor ()
      ensures loading && products == [] && error == ""
    {
      loading := true;
      products := [];
      error := "";
    }

    /** `fetchData` with the catalog's answer: the query text sent, then the products on
        success or the client's message on failure; in both cases loading ends. */
    method FetchData(p: SearchParams, reply: Reply<seq<Product>>) returns (gQuery: string)
      modifies this
      ensures gQuery == QueryText(p)
      ensures !loading
      ensures reply.Ok? ==> products == reply.data && error == ""
      ensures reply.Failed? ==> products == [] && error == reply.error.message
    {
      gQuery := BuildQuery(p);
      loading, products, error := true, [], "";
      match reply
      case Ok(found) =>
        loading, products, error := false, found, "";
      case Failed(err) =>
        loading, products, error := false, [], err.message;
    }

    /** The result area: the spinner while loading, else the alert when there is an error
        text, else the product grid. */
    function View(): (v: SearchView)
      reads this
      ensures v.Spinner? <==> loading
      ensures v.ErrorAlert? <==> !loading && error != ""
      ensures v.ErrorAlert? ==> v.message == error
      ensures v.Results? ==> v.products == products
    {
      if loading then Spinner else if error != "" then ErrorAlert(error) else Results(products)
    }
  }

  // ---------------------------------------------------------------- add to cart

  /** The search page's `addToCartHandler` follows the home page's rule to the letter. */
  method AddToCartHandler(s: Session, product: Product, thumbnail: string, fetchedStock: int)
    modifies s
    ensures var q := Home.DesiredQuantity(old(s.state.cart.cartItems), product.id);
            fetchedStock < q ==>
              s.state == old(s.state) && s.cookies == old(s.cookies) && s.pushed == old(s.pushed) &&
              s.notices == old(s.notices) + [Notice("Sorry. Product is out of stock", Error)]
    ensures var q := Home.DesiredQuantity(old(s.state.cart.cartItems), product.id);
            fetchedStock >= q ==>
              s.state == Reduce(old(s.state), CartAddItem(Home.AddPayload(product, thumbnail, q))) &&
              s.cookies == old(s.cookies)[CART_ITEMS_COOKIE := ItemsJson(s.state.cart.cartItems)] &&
              s.notices == old(s.notices) + [Notice(product.name + " added to the cart", Success)] &&
              s.pushed == old(s.pushed) + [Href("/cart")]
    ensures s.query == old(s.query)
    ensures Persisted(old(s.state), old(s.cookies)) ==> Persisted(s.state, s.cookies)
  {
    Home.AddToCartHandler(s, product, thumbnail, fetchedStock);
  }
}
