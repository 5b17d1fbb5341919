/**
 Laws relating the exchange's operations to one another: how subscribing and
 unsubscribing undo each other, what duplicates do, that notification follows
 subscription order, and that stocks do not interfere.
 */
module ExchangeLaws {
  import opened Sequences
  import opened Observers
  import opened StockExchange

  /**
   Two exchanges nobody can tell apart through the interface: the same prices
   and the same subscriber list for every stock, where a missing list and an
   empty one look alike.
   */
  ghost predicate SameView(a: Exchange, b: Exchange)
  {
    && a.prices == b.prices
    && forall t :: Subscribers(a, t) == Subscribers(b, t)
  }

  /** A notification pass sees only the prices and the subscriber lists. */
  lemma NotifyRespectsView(a: Exchange, b: Exchange, stock: string)
    requires SameView(a, b)
    ensures Notify(a, stock) == Notify(b, stock)
  {
  }

  /**
   Subscribing an observer that was not yet on the list and unsubscribing it
   again restores the list. The exchange is the same one when the stock
   already had a list; otherwise an empty list remains under the stock, which
   no operation can tell from a missing one.
   */
  lemma SubscribeThenUnsubscribe(ex: Exchange, obs: Observer, stock: string)
    requires obs !in Subscribers(ex, stock)
    ensures Subscribers(Unsubscribe(Subscribe(ex, obs, stock), obs, stock), stock) == Subscribers(ex, stock)
    ensures SameView(Unsubscribe(Subscribe(ex, obs, stock), obs, stock), ex)
    ensures stock in ex.subscribers ==> Unsubscribe(Subscribe(ex, obs, stock), obs, stock) == ex
  {
    RemoveFirstOfFreshAppend(Subscribers(ex, stock), obs);
    var r := Unsubscribe(Subscribe(ex, obs, stock), obs, stock);
    assert forall t | t != stock :: Subscribers(r, t) == Subscribers(ex, t) by {
      forall t | t != stock
        ensures Subscribers(r, t) == Subscribers(ex, t)
      {
        assert t in r.subscribers - {stock} <==> t in ex.subscribers - {stock};
      }
    }
    if stock in ex.subscribers {
      assert r.subscribers == ex.subscribers;
    }
  }

  /**
   When the observer is already on the list, subscribing it again and then
   unsubscribing it takes out the EARLIER entry: the observer moves to the end
   of the list instead of the list coming back unchanged.
   */
  lemma ResubscribeMovesToEnd(ex: Exchange, obs: Observer, stock: string)
    requires obs in Subscribers(ex, stock)
    ensures Subscribers(Unsubscribe(Subscribe(ex, obs, stock), obs, stock), stock)
            == RemoveFirst(Subscribers(ex, stock), obs) + [obs]
    ensures multiset(Subscribers(Unsubscribe(Subscribe(ex, obs, stock), obs, stock), stock))
            == multiset(Subscribers(ex, stock))
  {
    RemoveFirstBeforeAppend(Subscribers(ex, stock), obs, obs);
    RemoveFirstMultiset(Subscribers(ex, stock), obs);
  }

  /**
   Unsubscribing an observer that was on the list at most once a second time
   is a no-op and raises nothing.
   */
  lemma UnsubscribeTwice(ex: Exchange, obs: Observer, stock: string)
    requires multiset(Subscribers(ex, stock))[obs] <= 1
    ensures obs !in Subscribers(Unsubscribe(ex, obs, stock), stock)
    ensures Unsubscribe(Unsubscribe(ex, obs, stock), obs, stock) == Unsubscribe(ex, obs, stock)
  {
    RemoveFirstMultiset(Subscribers(ex, stock), obs);
    assert multiset(Subscribers(Unsubscribe(ex, obs, stock), stock))[obs] == 0;
  }

  /**
   Subscriptions are not deduplicated: an observer subscribed twice more is
   called twice more by the next price update.
   */
  lemma DuplicateSubscriptionNotifiesTwice(ex: Exchange, obs: Observer, stock: string, price: real)
    ensures var twice := Subscribe(Subscribe(ex, obs, stock), obs, stock);
            multiset(Recipients(UpdatePrice(twice, stock, price).1))[obs]
            == multiset(Subscribers(ex, stock))[obs] + 2
  {
  }

  /** Subscribes each observer of `observers` to `stock`, in order. */
  function SubscribeAll(ex: Exchange, observers: seq<Observer>, stock: string): (r: Exchange)
    ensures r.prices == ex.prices
    decreases |observers|
  {
    if observers == [] then ex
    else SubscribeAll(Subscribe(ex, observers[0], stock), observers[1..], stock)
  }

  /** Subscribing a series of observers appends them to the list in that order. */
  lemma {:induction false} SubscribeAllAppends(ex: Exchange, observers: seq<Observer>, stock: string)
    ensures Subscribers(SubscribeAll(ex, observers, stock), stock) == Subscribers(ex, stock) + observers
    decreases |observers|
  {
    if observers != [] {
      var ex', rest := Subscribe(ex, observers[0], stock), observers[1..];
      SubscribeAllAppends(ex', rest, stock);
      var before := Subscribers(ex, stock);
      assert Subscribers(ex', stock) == before + [observers[0]];
      assert observers == [observers[0]] + rest;
      assert before + observers == (before + [observers[0]]) + rest;
    }
  }

  /**
   Observers subscribed one after another to a stock without subscribers are
   called in exactly that order, each once per occurrence, at the new price.
   */
  lemma NotificationFollowsSubscriptionOrder(ex: Exchange, observers: seq<Observer>, stock: string, price: real)
    requires Subscribers(ex, stock) == []
    ensures var trace := UpdatePrice(SubscribeAll(ex, observers, stock), stock, price).1;
            Recipients(trace) == observers
            && forall i :: 0 <= i < |trace| ==> trace[i] == Notification(observers[i], stock, price)
  {
    SubscribeAllAppends(ex, observers, stock);
  }

  /** Operations on one stock never change what a notification of another stock does. */
  lemma StocksAreIndependent(ex: Exchange, obs: Observer, stock: string, other: string, price: real)
    requires stock != other
    ensures Notify(Subscribe(ex, obs, stock), other) == Notify(ex, other)
    ensures Notify(Unsubscribe(ex, obs, stock), other) == Notify(ex, other)
    ensures Notify(UpdatePrice(ex, stock, price).0, other) == Notify(ex, other)
  {
  }
}
