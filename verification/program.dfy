/**
 The demonstration program: two traders and a robot follow "AAPL" through
 three price updates, with one trader leaving before the last.
 */
module Program {
  import opened Sequences
  import opened Observers
  import opened StockExchange

  const Lidiya: Observer := Observer(1, Trader("Lidiya"))
  const Stylez: Observer := Observer(2, Trader("Stylez"))
  const Bot: Observer := Observer(3, Robot)

  /** Lidiya, Stylez and the robot subscribe to "AAPL", in that order. */
  function Opening(): (ex: Exchange)
    ensures ex.prices == map[]
    ensures Subscribers(ex, "AAPL") == [Lidiya, Stylez, Bot]
  {
    Subscribe(Subscribe(Subscribe(Empty, Lidiya, "AAPL"), Stylez, "AAPL"), Bot, "AAPL")
  }

  /** Stylez leaves: the robot moves up behind Lidiya. */
  function Leaving(ex: Exchange): (r: Exchange)
    requires Subscribers(ex, "AAPL") == [Lidiya, Stylez, Bot]
    ensures Subscribers(r, "AAPL") == [Lidiya, Bot]
  {
    var all := [Lidiya, Stylez, Bot];
    assert all[1..] == [Stylez, Bot];
    assert RemoveFirst(all, Stylez) == [Lidiya] + RemoveFirst([Stylez, Bot], Stylez);
    Unsubscribe(ex, Stylez, "AAPL")
  }

  /** The notifications of a price update to a stock with three subscribers. */
  lemma UpdateReachesThree(ex: Exchange, stock: string, a: Observer, b: Observer, c: Observer, price: real)
    requires Subscribers(ex, stock) == [a, b, c]
    ensures UpdatePrice(ex, stock, price).1
            == [Notification(a, stock, price), Notification(b, stock, price), Notification(c, stock, price)]
  {
  }

  /** The notifications of a price update to a stock with two subscribers. */
  lemma UpdateReachesTwo(ex: Exchange, stock: string, a: Observer, b: Observer, price: real)
    requires Subscribers(ex, stock) == [a, b]
    ensures UpdatePrice(ex, stock, price).1 == [Notification(a, stock, price), Notification(b, stock, price)]
  {
  }

  /** The traders report the price they are given; the robot decides on it. */
  lemma AllThreeReact(price: real)
    ensures Reactions([Notification(Lidiya, "AAPL", price), Notification(Stylez, "AAPL", price), Notification(Bot, "AAPL", price)])
            == [Report("Lidiya", "AAPL", price), Report("Stylez", "AAPL", price), RobotDecision("AAPL", price)]
  {
  }

  /** Once Stylez has left, only Lidiya reports and the robot decides. */
  lemma LidiyaAndBotReact(price: real)
    ensures Reactions([Notification(Lidiya, "AAPL", price), Notification(Bot, "AAPL", price)])
            == [Report("Lidiya", "AAPL", price), RobotDecision("AAPL", price)]
  {
  }

  /**
   The program's call sequence, returning the notifications of each of its
   three price updates and what the observers do with them. The first two
   updates reach all three observers in the order they subscribed, the robot
   buying at 150 and selling at 90; after Stylez unsubscribes, the update to
   120 reaches only Lidiya and the robot, which buys.
   */
  method Demo() returns (first: seq<Notification>, second: seq<Notification>, third: seq<Notification>)
    ensures first == [Notification(Lidiya, "AAPL", 150.0), Notification(Stylez, "AAPL", 150.0), Notification(Bot, "AAPL", 150.0)]
    ensures second == [Notification(Lidiya, "AAPL", 90.0), Notification(Stylez, "AAPL", 90.0), Notification(Bot, "AAPL", 90.0)]
    ensures third == [Notification(Lidiya, "AAPL", 120.0), Notification(Bot, "AAPL", 120.0)]
    ensures Reactions(first) == [Report("Lidiya", "AAPL", 150.0), Report("Stylez", "AAPL", 150.0), Buy("AAPL")]
    ensures Reactions(second) == [Report("Lidiya", "AAPL", 90.0), Report("Stylez", "AAPL", 90.0), Sell("AAPL")]
    ensures Reactions(third) == [Report("Lidiya", "AAPL", 120.0), Buy("AAPL")]
  {
    var ex := Opening();
    UpdateReachesThree(ex, "AAPL", Lidiya, Stylez, Bot, 150.0);
    var step := UpdatePrice(ex, "AAPL", 150.0);
    ex, first := step.0, step.1;
    UpdateReachesThree(ex, "AAPL", Lidiya, Stylez, Bot, 90.0);
    step := UpdatePrice(ex, "AAPL", 90.0);
    ex, second := step.0, step.1;
    ex := Leaving(ex);
    UpdateReachesTwo(ex, "AAPL", Lidiya, Bot, 120.0);
    step := UpdatePrice(ex, "AAPL", 120.0);
    third := step.1;
    AllThreeReact(150.0);
    AllThreeReact(90.0);
    LidiyaAndBotReact(120.0);
  }
}
