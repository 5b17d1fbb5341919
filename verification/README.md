# Stock exchange observer registry, modelled in Dafny

The program is a small in-process publish/subscribe registry. A `StockExchange`
keeps two tables: the last price of each stock, and for each stock an ordered
list of observers that may hold the same observer more than once. Observers
subscribe to and unsubscribe from a stock. A price update stores the new price
and then calls every subscriber of that stock, in list order. There are two
kinds of observer. A `Trader` reports its name, the stock and the price. A
`RobotTrader` buys when the price is strictly above 100 and sells otherwise.

The model is functional. An exchange is an immutable value
(`StockExchange.Exchange`). Each operation returns the new exchange. A
notification pass returns its trace: the sequence of `Update(stock, price)`
calls it makes. What an observer does with a call is a `Reaction` value
(`Report`, `Buy` or `Sell`) in place of its console line. Observers are
compared by reference in the program. Here each observer carries a `handle`
that stands for its identity, so two traders with the same name are still
different observers. The program's `decimal` prices are `real`s, which are
exact.

Files, one module each:

- `sequences.dfy` (`Sequences`): `List<T>.Remove` as `RemoveFirst`, with the
  first-occurrence index and the splice and multiset laws.
- `observers.dfy` (`Observers`): the two observer kinds and their reactions.
- `stock_exchange.dfy` (`StockExchange`): the state and its four operations.
- `exchange_laws.dfy` (`ExchangeLaws`): laws that relate the operations.
- `script.dfy` (`Script`): runs of several calls, and last-write-wins.
- `program.dfy` (`Program`): the demonstration in `Main`.

Details of the code's behaviour that the model keeps:

- `Notify` in Program.cs looks up the price only inside the loop over
  subscribers. So a stock whose list exists but is empty (everyone has
  unsubscribed) is notified without error even when it has no price. Only a
  non-empty list without a price throws the dictionary's key-not-found
  exception. `Notify` returns `Err(MissingPrice)` in exactly that case.
- The robot's threshold is the constant 100 written in `RobotTrader.Update`.
- `Notify` loops over the stock's list itself. No observer in the program
  changes subscriptions from inside a call, so the list does not change
  during the loop. The model dispatches over the list as it is when the pass
  begins.
- `Unsubscribe` never deletes a stock's entry from the subscription table,
  even when its list becomes empty.

## Model

| member | source | states |
|---|---|---|
| `StockExchange.Subscribe` | Program.cs:21-28 | adds the observer at the end of the stock's list, creating the list when the stock has none; the list grows by exactly one, with no deduplication; prices and every other stock's list are unchanged |
| `StockExchange.Unsubscribe` | Program.cs:30-36 | the stock's list becomes the list with the first occurrence of the observer removed; an unknown stock or an absent observer leaves the exchange exactly as it was, with no error; prices, the set of known stocks and other stocks' lists are unchanged |
| `StockExchange.UnsubscribeRemovesFirstOccurrence` | Program.cs:30-36 | unsubscribing cuts out exactly the entry at the first index of the observer, keeping the entries before and after it in order, and removes one copy of it from the multiset of subscribers |
| `StockExchange.Dispatch` | Program.cs:42-45 | a pass over a list makes one call per entry, in list order, each with the given stock and price |
| `StockExchange.Notify` | Program.cs:38-47 | fails exactly when the stock has a non-empty list and no recorded price (the dictionary lookup fault); otherwise it calls each subscriber once per entry, in list order, with the stock and its stored price; no list or an empty list means no calls |
| `StockExchange.UpdatePrice` | Program.cs:49-53 | stores the price for the stock, leaving other prices and all lists unchanged; the trace it returns is what `Notify` yields on the new state, so it never faults; it has one call per entry of the stock's list, in order, each carrying the new price |
| `Sequences.FirstIndex` | Program.cs:34 | the index `List.Remove` removes at: it holds the observer and no earlier entry does |
| `Sequences.RemoveFirst` | Program.cs:34 | removing an absent element gives the list back; removing a present one shortens the list by exactly one |
| `Sequences.RemoveFirstIsSplice` | Program.cs:34 | removal is the splice around the first index: the prefix before it and the suffix after it, in their original order |
| `Sequences.RemoveFirstMultiset` | Program.cs:34 | removal takes away exactly one copy of the element and keeps every other element's multiplicity |
| `Sequences.RemoveFirstOfFreshAppend` | Program.cs:27-34 | appending an element that is not in the list and then removing it gives the list back |
| `Sequences.RemoveFirstBeforeAppend` | Program.cs:27-34 | when the element is already in the list, removal after an append takes the earlier occurrence and keeps the appended entry last |
| `Observers.RobotDecision` | Program.cs:73-83 | the robot buys exactly when the price is strictly above 100 and sells exactly when it is at most 100, naming the stock it was told about |
| `Observers.Update` | Program.cs:65-83 | a trader reports its own name with the stock and price it was given, and a robot makes its threshold decision; the reaction always names the notified stock |
| `Observers.ReactionIgnoresIdentity` | Program.cs:56-83 | observers keep no state between calls: two observers of the same kind react alike to the same call, whatever their identity |
| `Observers.RobotThresholdBoundary` | Program.cs:75-82 | 100 itself sells, 101 and 150 buy, 90 sells |
| `Observers.RobotDecisionMonotone` | Program.cs:75-82 | if the robot buys at a price it buys at every higher one, and if it sells at a price it sells at every lower one |
| `ExchangeLaws.NotifyRespectsView` | Program.cs:38-47 | a notification depends only on the prices and the subscriber lists, so an empty list and a missing one behave the same |
| `ExchangeLaws.SubscribeThenUnsubscribe` | Program.cs:21-36 | subscribing an observer that is not on the list and then unsubscribing it restores the list; the exchange is identical when the stock already had a list, and otherwise differs only by an empty list |
| `ExchangeLaws.ResubscribeMovesToEnd` | Program.cs:21-36 | subscribing an observer that is already on the list and then unsubscribing it removes the earlier entry, so the observer moves to the end and the multiset of subscribers is unchanged |
| `ExchangeLaws.UnsubscribeTwice` | Program.cs:30-36 | an observer that was on the list at most once is gone after one unsubscribe, and a second unsubscribe changes nothing |
| `ExchangeLaws.DuplicateSubscriptionNotifiesTwice` | Program.cs:21-53 | subscribing the same observer twice makes the next price update call it twice more |
| `ExchangeLaws.SubscribeAllAppends` | Program.cs:21-28 | subscribing a series of observers appends them to the stock's list in that order |
| `ExchangeLaws.NotificationFollowsSubscriptionOrder` | Program.cs:21-53 | observers subscribed in turn to a stock with no subscribers are called by the next update in exactly subscription order, at the new price |
| `ExchangeLaws.StocksAreIndependent` | Program.cs:18-53 | subscribing, unsubscribing or updating one stock never changes what a notification of another stock does |
| `Script.Step` | Program.cs:21-53 | one call of any of the four public operations: only a direct `Notify` of a stock with subscribers and no price faults, with `MissingPrice`; subscribing and unsubscribing notify nobody; a direct `Notify` leaves the exchange unchanged |
| `Script.Run` | Program.cs:9-14 | a series of calls stops at the first fault, since the exception ends the caller; every call completes exactly when there is no fault, and a fault is always a direct `Notify` whose stock has subscribers and no price |
| `Script.LastWriteWins` | Program.cs:49-51 | after any series of calls a stock's price is the one the last completed update set, or its earlier price when no completed call updated it, whatever subscriptions and notifications came and went |
| `Script.FaultNeedsUnpricedStock` | Program.cs:38-51 | a run can fault only at a direct `Notify` of a stock that had no price when the run began and that no earlier call of the run updated |
| `Script.NotificationsCarryRecordedPrices` | Program.cs:38-53 | every notification in a run, direct `Notify` calls included, carries the stock's price at the start of the run or the stock and price of one of the run's update calls; from an exchange without prices, only the latter |
| `Program.Opening` | Program.cs:97-99 | no prices are recorded, and the AAPL list is Lidiya, Stylez and the robot, in that order |
| `Program.UpdateReachesThree` | Program.cs:101-102 | an update to a stock with three subscribers yields exactly three calls, to them in order, at the new price |
| `Program.UpdateReachesTwo` | Program.cs:106 | an update to a stock with two subscribers yields exactly two calls, to them in order, at the new price |
| `Program.Leaving` | Program.cs:104 | when Stylez unsubscribes, the list shrinks to Lidiya followed by the robot |
| `Program.Demo` | Program.cs:89-107 | the demonstration's three updates: at 150 and at 90 all three observers are called in subscription order, the robot buying and then selling; after Stylez leaves, the update to 120 reaches only Lidiya and the robot, which buys |

## Left out

- A run that faults stops there. What a caller catching the exception would
  do next is not modelled, because the program never catches it.
- Console output and the exact wording of the traders' and robot's messages
  are I/O. Each message is a `Reaction` value carrying what it reports.
- The `IObserver` and `ISubject` interfaces and the .NET `Dictionary` and
  `List` classes are replaced by a tagged observer datatype, maps and
  sequences.
- Changing subscriptions from inside an observer's `Update` while `Notify`
  loops over the list is not modelled. No observer in the program does it.
- Threads and locking are not modelled. The program is single-threaded and
  synchronous.
- Null arguments are not modelled. The program does not handle them.
- `decimal`'s limits are not modelled. Its 28-digit precision, range and
  overflow exception have no counterpart in `real`. The program only stores
  and compares prices, so no rounding ever arises.
- `Notify` returns only its trace, not an exchange, because it changes no
  state.
