/**
 A run of the exchange: a series of calls to its four public operations,
 executed in order, collecting every notification they make. A direct
 notification of a stock that has subscribers but no price throws, which
 ends the run at that call.
 */
module Script {
  import opened Observers
  import opened StockExchange

  /** One call on the exchange's public surface. */
  datatype Command =
    | SubscribeCall(obs: Observer, stock: string)
    | UnsubscribeCall(obs: Observer, stock: string)
    | UpdatePriceCall(stock: string, price: real)
    | NotifyCall(stock: string)

  datatype Option<+T> = None | Some(value: T)

  /**
   The outcome of a run: the exchange after the last call that completed, the
   notifications made, how many calls completed, and the fault that stopped
   the run, if one did.
   */
  datatype RunResult = RunResult(exchange: Exchange, trace: seq<Notification>, done: nat, fault: Option<Error>)

  /** The recorded price of `stock`, if it has one. */
  function PriceOf(ex: Exchange, stock: string): Option<real>
  {
    if stock in ex.prices then Some(ex.prices[stock]) else None
  }

  /**
   Executes one call. Subscribing and unsubscribing notify nobody; a direct
   notification leaves the exchange as it is, and is the only call that can
   fault.
   */
  function Step(ex: Exchange, c: Command): (r: Result<(Exchange, seq<Notification>)>)
    ensures r.Err? <==> c.NotifyCall? && Subscribers(ex, c.stock) != [] && c.stock !in ex.prices
    ensures r.Err? ==> r.error == MissingPrice(c.stock)
    ensures r.Ok? && (c.SubscribeCall? || c.UnsubscribeCall?) ==> r.value.1 == []
    ensures r.Ok? && c.NotifyCall? ==> r.value.0 == ex
  {
    match c
    case SubscribeCall(obs, stock) => Ok((Subscribe(ex, obs, stock), []))
    case UnsubscribeCall(obs, stock) => Ok((Unsubscribe(ex, obs, stock), []))
    case UpdatePriceCall(stock, price) => Ok(UpdatePrice(ex, stock, price))
    case NotifyCall(stock) =>
      match Notify(ex, stock)
      case Ok(trace) => Ok((ex, trace))
      case Err(e) => Err(e)
  }

  /**
   Executes the calls in order, concatenating their notifications, and stops
   at the first call that faults. The run completes every call exactly when
   it does not fault, and a fault is always the missing price of a direct
   notification.
   */
  function Run(ex: Exchange, calls: seq<Command>): (r: RunResult)
    ensures r.done <= |calls|
    ensures r.fault.None? <==> r.done == |calls|
    ensures r.fault.Some? ==> calls[r.done].NotifyCall?
                              && r.fault.value == MissingPrice(calls[r.done].stock)
                              && Notify(r.exchange, calls[r.done].stock).Err?
    decreases |calls|
  {
    if calls == [] then RunResult(ex, [], 0, None)
    else
      match Step(ex, calls[0])
      case Err(e) => RunResult(ex, [], 0, Some(e))
      case Ok((ex', trace)) =>
        var rest := Run(ex', calls[1..]);
        rest.(trace := trace + rest.trace, done := rest.done + 1)
  }

  /** The price of the last update of `stock` among `calls`, if any. */
  function LastUpdate(calls: seq<Command>, stock: string): Option<real>
    decreases |calls|
  {
    if calls == [] then None
    else
      var later := LastUpdate(calls[1..], stock);
      if later.Some? then later
      else if calls[0].UpdatePriceCall? && calls[0].stock == stock then Some(calls[0].price)
      else None
  }

  /**
   Last write wins: after any run, a stock's recorded price is the one the
   last update among the completed calls set; a stock those calls never
   updated keeps the price it had, whatever subscriptions and notifications
   came and went.
   */
  lemma {:induction false} LastWriteWins(ex: Exchange, calls: seq<Command>, stock: string)
    ensures var r := Run(ex, calls);
            PriceOf(r.exchange, stock)
            == if LastUpdate(calls[..r.done], stock).Some? then LastUpdate(calls[..r.done], stock) else PriceOf(ex, stock)
    decreases |calls|
  {
    if calls != [] && Step(ex, calls[0]).Ok? {
      var ex' := Step(ex, calls[0]).value.0;
      var rest := Run(ex', calls[1..]);
      LastWriteWins(ex', calls[1..], stock);
      assert Run(ex, calls) == rest.(trace := Step(ex, calls[0]).value.1 + rest.trace, done := rest.done + 1);
      assert calls[..rest.done + 1][1..] == calls[1..][..rest.done];
      match calls[0]
      case SubscribeCall(_, _) =>
      case UnsubscribeCall(_, _) =>
      case NotifyCall(_) =>
      case UpdatePriceCall(s, p) =>
        if s != stock {
          assert stock in ex'.prices - {s} <==> stock in ex.prices - {s};
        }
    }
  }

  /**
   A run faults only at a direct notification of a stock that had no price
   when the run began and that no completed call of the run updated.
   */
  lemma FaultNeedsUnpricedStock(ex: Exchange, calls: seq<Command>)
    ensures var r := Run(ex, calls);
            r.fault.Some? ==>
              var stock := calls[r.done].stock;
              stock !in ex.prices && LastUpdate(calls[..r.done], stock).None?
  {
    var r := Run(ex, calls);
    if r.fault.Some? {
      LastWriteWins(ex, calls, calls[r.done].stock);
    }
  }

  /**
   Every notification of a run carries a price its stock really had: the
   stock's price when the run began, or the price of one of the run's update
   calls. A run that starts without prices announces only prices its own
   updates set.
   */
  lemma {:induction false} NotificationsCarryRecordedPrices(ex: Exchange, calls: seq<Command>)
    ensures forall n :: n in Run(ex, calls).trace ==>
              UpdatePriceCall(n.stock, n.price) in calls
              || (n.stock in ex.prices && ex.prices[n.stock] == n.price)
    ensures ex.prices == map[] ==>
              forall n :: n in Run(ex, calls).trace ==> UpdatePriceCall(n.stock, n.price) in calls
    decreases |calls|
  {
    if calls != [] && Step(ex, calls[0]).Ok? {
      var (ex', trace) := Step(ex, calls[0]).value;
      var rest := Run(ex', calls[1..]).trace;
      NotificationsCarryRecordedPrices(ex', calls[1..]);
      assert Run(ex, calls).trace == trace + rest;
      forall n | n in trace
        ensures UpdatePriceCall(n.stock, n.price) == calls[0]
                || (n.stock in ex.prices && ex.prices[n.stock] == n.price)
      {
        var i :| 0 <= i < |trace| && trace[i] == n;
      }
      forall n | n in rest
        ensures UpdatePriceCall(n.stock, n.price) in calls
                || (n.stock in ex.prices && ex.prices[n.stock] == n.price)
      {
        if UpdatePriceCall(n.stock, n.price) in calls[1..] {
          assert UpdatePriceCall(n.stock, n.price) in calls;
        } else if !calls[0].UpdatePriceCall? || calls[0].stock != n.stock {
          assert n.stock in ex'.prices - {calls[0].stock} <==> n.stock in ex.prices - {calls[0].stock};
        }
      }
    }
  }
}
