// The order-history page of pages/order-history.tsx: its local fetch reducer, the choice
// between spinner, alert and table, and the effect that loads the signed-in user's orders.

module OrderHistory {
  import opened Models
  import opened Store
  import opened Errors

  /** The page's local state. */
  datatype HistoryState = HistoryState(error: string, loading: bool, orders: seq<Order>)

  /** The page's actions; `Other` stands for any action outside the three, which the
      reducer's default case answers. */
  datatype HistoryAction =
    | FetchFail(message: string)
    | FetchRequest
    | FetchSuccess(payload: seq<Order>)
    | Other

  /** The state before the first fetch: loading, no error, no orders. */
  const INITIAL_HISTORY := HistoryState("", true, [])

  /** The fetch reducer. */
  function HistoryReduce(h: HistoryState, a: HistoryAction): (r: HistoryState)
    ensures a.FetchRequest? ==> r.loading && r.error == "" && r.orders == h.orders
    ensures a.FetchSuccess? ==> !r.loading && r.error == "" && r.orders == a.payload
    ensures a.FetchFail? ==> !r.loading && r.error == a.message && r.orders == h.orders
    ensures a.Other? ==> r == h
  {
    match a
    case FetchRequest => h.(loading := true, error := "")
    case FetchSuccess(orders) => h.(loading := false, orders := orders, error := "")
    case FetchFail(message) => h.(loading := false, error := message)
    case Other => h
  }

  /** What the page shows below its heading. */
  datatype HistoryView = Spinner | ErrorAlert(message: string) | OrderTable(orders: seq<Order>)

  /** The spinner while loading, else the alert when there is an error, else the table. */
  function View(h: HistoryState): (v: HistoryView)
    ensures v.Spinner? <==> h.loading
    ensures v.ErrorAlert? <==> !h.loading && h.error != ""
    ensures v.ErrorAlert? ==> v.message == h.error
    ensures v.OrderTable? ==> v.orders == h.orders
  {
    if h.loading then Spinner else if h.error != "" then ErrorAlert(h.error) else OrderTable(h.orders)
  }

  /** Whatever came before, a request followed by its answer ends loaded: a success shows
      exactly the answer's orders, a failure shows its message and keeps the earlier orders. */
  lemma FetchOutcomes(h: HistoryState, orders: seq<Order>, message: string)
    ensures HistoryReduce(HistoryReduce(h, FetchRequest), FetchSuccess(orders)) == HistoryState("", false, orders)
    ensures HistoryReduce(HistoryReduce(h, FetchRequest), FetchFail(message)) == HistoryState(message, false, h.orders)
    ensures View(HistoryReduce(HistoryReduce(h, FetchRequest), FetchSuccess(orders))) == OrderTable(orders)
    ensures message != "" ==>
              View(HistoryReduce(HistoryReduce(h, FetchRequest), FetchFail(message))) == ErrorAlert(message)
  {
  }

  /** A failure whose message is empty is not shown as an error: the table comes back with the
      orders of the last success. */
  lemma EmptyFailureShowsStaleOrders(h: HistoryState)
    ensures View(HistoryReduce(HistoryReduce(h, FetchRequest), FetchFail(""))) == OrderTable(h.orders)
  {
  }

  /** The first fetch from the initial state shows an empty table on a failure without message. */
  lemma FirstFetch(orders: seq<Order>, message: string)
    ensures View(INITIAL_HISTORY) == Spinner
    ensures View(HistoryReduce(HistoryReduce(INITIAL_HISTORY, FetchRequest), FetchSuccess(orders))) == OrderTable(orders)
    ensures View(HistoryReduce(HistoryReduce(INITIAL_HISTORY, FetchRequest), FetchFail(message))) ==
            (if message == "" then OrderTable([]) else ErrorAlert(message))
  {
  }

  class OrderHistoryScreen {
    var history: HistoryState

    constructor ()
      ensures history == INITIAL_HISTORY
    {
      history := INITIAL_HISTORY;
    }

    /** The arrival effect with the endpoint's answer: without a user the page goes to the
        login, and the fetch is made all the same; the request is dispatched, then the orders
        or the error's text. The returned value is the request's `Authorization` header. */
    method OnArrive(s: Session, reply: Reply<seq<Order>>) returns (authorization: string)
      modifies this, s
      ensures old(s.state.userInfo).None? ==> s.pushed == old(s.pushed) + [Href("/login")]
      ensures old(s.state.userInfo).Some? ==> s.pushed == old(s.pushed)
      ensures authorization == Authorization(old(s.state.userInfo))
      ensures reply.Ok? ==> history == HistoryReduce(HistoryReduce(old(history), FetchRequest), FetchSuccess(reply.data))
      ensures reply.Failed? ==>
                history == HistoryReduce(HistoryReduce(old(history), FetchRequest), FetchFail(GetError(reply.error)))
      ensures !history.loading
      ensures s.state == old(s.state) && s.cookies == old(s.cookies)
      ensures s.notices == old(s.notices) && s.query == old(s.query)
    {
      if s.state.userInfo.None? {
        s.Push(Href("/login"));
      }
      history := HistoryReduce(history, FetchRequest);
      authorization := Authorization(s.state.userInfo);
      match reply
      case Ok(orders) =>
        history := HistoryReduce(history, FetchSuccess(orders));
      case Failed(err) =>
        history := HistoryReduce(history, FetchFail(GetError(err)));
    }
  }
}
