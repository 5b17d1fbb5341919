/**
 The stock exchange: a price table and a subscription table, with the four
 operations of its subject interface. Each operation returns the new exchange;
 a notification pass returns the trace of `Update` calls it makes, in order.
 */
module StockExchange {
  import opened Sequences
  import opened Observers

  /** One call `obs.Update(stock, price)` made while notifying. */
  datatype Notification = Notification(observer: Observer, stock: string, price: real)

  /** The lookup fault of a notification pass that needs a price never set. */
  datatype Error = MissingPrice(stock: string)

  datatype Result<+T> = Ok(value: T) | Err(error: Error)

  /**
   The exchange's state. A stock name keeps its key in `subscribers` once it
   has been subscribed to, even after its list has become empty again.
   */
  datatype Exchange = Exchange(prices: map<string, real>, subscribers: map<string, seq<Observer>>)

  /** A freshly constructed exchange. */
  const Empty: Exchange := Exchange(map[], map[])

  /** The subscribers of `stock`, with a stock never subscribed to reading as no subscribers. */
  function Subscribers(ex: Exchange, stock: string): seq<Observer>
  {
    if stock in ex.subscribers then ex.subscribers[stock] else []
  }

  /** The observers a trace notifies, in the order it notifies them. */
  function Recipients(trace: seq<Notification>): seq<Observer>
  {
    seq(|trace|, i requires 0 <= i < |trace| => trace[i].observer)
  }

  /** What the observers of a trace do, one reaction per notification. */
  function Reactions(trace: seq<Notification>): seq<Reaction>
  {
    seq(|trace|, i requires 0 <= i < |trace| => Update(trace[i].observer, trace[i].stock, trace[i].price))
  }

  /**
   Adds `obs` at the end of the list of `stock`, creating the list first when
   the stock has none. The same observer may be added any number of times.
   */
  function Subscribe(ex: Exchange, obs: Observer, stock: string): (r: Exchange)
    ensures r.prices == ex.prices
    ensures stock in r.subscribers
    ensures Subscribers(r, stock) == Subscribers(ex, stock) + [obs]
    ensures r.subscribers - {stock} == ex.subscribers - {stock}
  {
    var list := if stock in ex.subscribers then ex.subscribers[stock] else [];
    ex.(subscribers := ex.subscribers[stock := list + [obs]])
  }

  /**
   Removes the first occurrence of `obs` from the list of `stock`. An unknown
   stock, or an observer that is not on the list, leaves the exchange as it was.
   */
  function Unsubscribe(ex: Exchange, obs: Observer, stock: string): (r: Exchange)
    ensures r.prices == ex.prices
    ensures obs !in Subscribers(ex, stock) ==> r == ex
    ensures Subscribers(r, stock) == RemoveFirst(Subscribers(ex, stock), obs)
    ensures r.subscribers.Keys == ex.subscribers.Keys
    ensures r.subscribers - {stock} == ex.subscribers - {stock}
  {
    if stock in ex.subscribers then
      var list := ex.subscribers[stock];
      if obs in list then ex.(subscribers := ex.subscribers[stock := RemoveFirst(list, obs)])
      else
        assert ex.subscribers[stock := list] == ex.subscribers;
        ex
    else ex
  }

  /**
   Unsubscribing cuts exactly the first occurrence of `obs` out of the list,
   keeping the entries before and after it in their order, and takes away one
   copy of `obs` while every other observer keeps its multiplicity.
   */
  lemma UnsubscribeRemovesFirstOccurrence(ex: Exchange, obs: Observer, stock: string)
    requires obs in Subscribers(ex, stock)
    ensures var list, i := Subscribers(ex, stock), FirstIndex(Subscribers(ex, stock), obs);
            Subscribers(Unsubscribe(ex, obs, stock), stock) == list[..i] + list[i + 1..]
    ensures multiset(Subscribers(Unsubscribe(ex, obs, stock), stock)) == multiset(Subscribers(ex, stock)) - multiset{obs}
  {
    RemoveFirstIsSplice(Subscribers(ex, stock), obs);
    RemoveFirstMultiset(Subscribers(ex, stock), obs);
  }

  /** The `Update` calls made, in list order, when `stock` is announced at `price` to `list`. */
  function Dispatch(list: seq<Observer>, stock: string, price: real): (r: seq<Notification>)
    ensures |r| == |list|
    ensures Recipients(r) == list
    ensures forall i :: 0 <= i < |r| ==> r[i].stock == stock && r[i].price == price
  {
    if list == [] then []
    else [Notification(list[0], stock, price)] + Dispatch(list[1..], stock, price)
  }

  /**
   Calls every subscriber of `stock`, in list order, with the stock and its
   stored price. A stock with no list, or with an empty list, is a no-op even
   without a price; a non-empty list for a stock without a price is the
   lookup fault.
   */
  function Notify(ex: Exchange, stock: string): (r: Result<seq<Notification>>)
    ensures r.Err? <==> Subscribers(ex, stock) != [] && stock !in ex.prices
    ensures r.Err? ==> r.error == MissingPrice(stock)
    ensures r.Ok? ==> Recipients(r.value) == Subscribers(ex, stock)
    ensures r.Ok? ==> forall i :: 0 <= i < |r.value| ==>
                        stock in ex.prices && r.value[i] == Notification(Subscribers(ex, stock)[i], stock, ex.prices[stock])
  {
    if stock !in ex.subscribers then Ok([])
    else if ex.subscribers[stock] == [] then Ok([])
    else if stock !in ex.prices then Err(MissingPrice(stock))
    else Ok(Dispatch(ex.subscribers[stock], stock, ex.prices[stock]))
  }

  /**
   Stores `price` for `stock`, then notifies the stock's subscribers. The
   notification pass reads the price just stored, so it cannot fault.
   */
  function UpdatePrice(ex: Exchange, stock: string, price: real): (r: (Exchange, seq<Notification>))
    ensures stock in r.0.prices && r.0.prices[stock] == price
    ensures r.0.prices - {stock} == ex.prices - {stock}
    ensures r.0.subscribers == ex.subscribers
    ensures Notify(r.0, stock) == Ok(r.1)
    ensures Recipients(r.1) == Subscribers(ex, stock)
    ensures forall i :: 0 <= i < |r.1| ==> r.1[i].stock == stock && r.1[i].price == price
  {
    var ex' := ex.(prices := ex.prices[stock := price]);
    (ex', Dispatch(Subscribers(ex, stock), stock, price))
  }
}
