/**
 The two kinds of observer that the exchange notifies, and what each of them
 does with an update. An observer's console line becomes a `Reaction` value.
 */
module Observers {

  /** The concrete class behind an observer. */
  datatype Kind =
    | Trader(name: string)
    | Robot

  /**
   An observer object. The exchange compares observers by reference, so each
   one carries a `handle` that stands for its identity: two traders with the
   same name but different handles are different observers.
   */
  datatype Observer = Observer(handle: nat, kind: Kind)

  /** What an observer reports when it is told that `stock` now costs `price`. */
  datatype Reaction =
    | Report(trader: string, stock: string, price: real)
    | Buy(stock: string)
    | Sell(stock: string)

  /** The robot buys only above this price. */
  const Threshold: real := 100.0

  /** The buy-or-sell decision of a robot trader. */
  function RobotDecision(stock: string, price: real): (r: Reaction)
    ensures r.stock == stock
    ensures r.Buy? <==> price > Threshold
    ensures r.Sell? <==> price <= Threshold
  {
    if price > Threshold then Buy(stock) else Sell(stock)
  }

  /**
   The reaction of observer `o` to one notification. A trader reports its own
   name with the stock and price it was given; a robot decides.
   */
  function Update(o: Observer, stock: string, price: real): (r: Reaction)
    ensures r.stock == stock
    ensures r.Report? <==> o.kind.Trader?
    ensures r.Report? ==> r.trader == o.kind.name && r.price == price
    ensures o.kind.Robot? ==> r == RobotDecision(stock, price)
  {
    match o.kind
    case Trader(name) => Report(name, stock, price)
    case Robot => RobotDecision(stock, price)
  }

  /**
   No observer keeps state between calls: the reaction depends only on the
   observer's kind and the arguments, so every robot decides alike and a
   trader's handle plays no part.
   */
  lemma ReactionIgnoresIdentity(o1: Observer, o2: Observer, stock: string, price: real)
    requires o1.kind == o2.kind
    ensures Update(o1, stock, price) == Update(o2, stock, price)
  {
  }

  /** The threshold is strict: exactly 100 sells, anything above buys. */
  lemma RobotThresholdBoundary(stock: string)
    ensures RobotDecision(stock, 100.0) == Sell(stock)
    ensures RobotDecision(stock, 101.0) == Buy(stock)
    ensures RobotDecision(stock, 150.0) == Buy(stock)
    ensures RobotDecision(stock, 90.0) == Sell(stock)
  {
  }

  /** Buying is upward closed in the price, and selling downward closed. */
  lemma RobotDecisionMonotone(stock: string, p: real, q: real)
    requires p <= q
    ensures RobotDecision(stock, p).Buy? ==> RobotDecision(stock, q).Buy?
    ensures RobotDecision(stock, q).Sell? ==> RobotDecision(stock, p).Sell?
  {
  }
}
