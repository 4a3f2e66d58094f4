# Verified model of the order-routing stack

A Dafny model of the parts of the trading stack whose correctness is global: properties of whole runs, of chains of
stages, or of a transformation and its inverse. The model follows the code, branch by branch; where code and the
expected law disagree, the law is stated with the exact condition under which the code meets it.

**Order path.** `OrderTypes` and `Pipeline` hold the state machine: the chain messaging, order table, throttle, wash-trade
prevention, risk, PnL, exchange channel, and one step per event (send, acknowledgement, reject, fill, bust, external fill,
rebuild). `Gateway` is the object that updates orders, table, positions, wash-trade lists and counters in place; each of
its handlers is proved to take the step of the state machine. On top of it:
`Effects` and `Counts` (kept counts against sums over live orders), `Conservation` (positions against fills), `TableLaw`
(the order table against the orders), `Lifecycle` (the states of an order), `Limits` (position limit), `Views` (account
and strategy views), `Chain` and `Rollback` (compensation when a later stage refuses), `MessagingIndex` (memoised counters),
`Messages` (the counters against the requests sent), `RequestCounters` (modifies in flight and rejects of an order),
`Acceptance` (what the chain answers, and why), `WashTrade`, `WashTradeVerdict`, `WashTradeQuotes` (the check, by prices and
quotes, and runs with quotes in use), `WashTradeBook`, `WashTradeShadow`, `WashTradeOverlap`, `WashTradeSafety`,
`WashTradeRecord`, `WashTradeLimits`, `WashTradeRuns` (no own orders cross: in the process's own book, and at the exchange;
exactly when, and runs where it fails).

**Persistence.** `Storage` (queue, batch cache, database, hand-over to a file, shutdown) and `Journal` (the line format of
the file).

**Order ids.** `IdFactory` (base-36 ids in a fixed buffer), `Routing` (responses through ClOrdID replacement chains, FIX
4.2), `Bridge` (ids rewritten between clients and exchange), `ResendCache` (messages for resend requests).

**Two loops.** `RangeWindow` (price-range window of the replay verifier) and `TrailingStop` (trailing stop of the
transition strategy).

Results where the code does not meet the plain law, stated as they are:

- A fresh order refused by its own validation is removed from the counts without having been added, and with a duplicate
  id takes the resident table entry along (`Rollback.RefusalExact`, `Counts.TidyIffNoDrift`, `TableLaw.CleanStep`).
- A cancel acknowledgement has no state check; a bust of a cancelled or overfilled order still moves the open count
  (`Counts.TidyStep`), and the bust of a filled order revives it without putting it back into the table.
- A cancel sent over an unanswered modify to a more aggressive price hides a price at which the exchange may still act
  (`WashTradeSafety.ShadowedIffGentle`, `WashTradeRuns.CancelOvertakesModify`). With two modifies in flight the second hides
  the first, and the acknowledgement of the first hides the second (`WashTradeOverlap.ShadowedIffSteady`,
  `WashTradeRuns.SecondModifyHidesFirst`, `WashTradeRuns.AckHidesSecond`).
- With quotes in use only the first crossing order is looked at; behind one that is away from the market another at the
  best quote goes unseen, and the two orders let through may cross (`WashTradeVerdict.SecondAtBestUnseen`,
  `WashTradeQuotes.LetThroughCrosses`).
- A refused cancel of a modifying order leaves it working with its request still counted, and a refused cancel of a
  pending order stays kept (`Lifecycle.RefusedCancelExact`).
- The bridge answers a later request to the client of the new order, whoever sent it (`Bridge.ReplyReachesSender`).
- A session message with the journal's delimiter or replacement byte in its text does not come back from its line
  (`Journal.LineRoundTrip`).
- An item queued for the database while others wait for the file is stored out of order (`Storage.OrderKeptIff`).
- `stop` clears the account positions but not the strategy positions (`Views.StopBreaksViews`).
- A shutdown in which a commit fails while a file thread has been started and has not yet given the database up stores
  that item twice; nothing is ever lost (`Storage.ShutdownOfRun`, `Storage.ShutdownDoubles`, `Storage.ShutdownLosesNothing`).
- `generate(0)` gives the empty text, while a cleared id reads "0".

## Model

| member | source | states |
|---|---|---|
| `Counts.ExactIffTidy` | src/cpp/lib/tw/channel_or/processor_orders.cpp:164-190 | from exact counts, a run keeps every account's and strategy's open bids and asks equal to the sum of `qty - cumQty` over live orders after every event, if and only if every event is tidy: fresh orders valid, terminal answers on live orders, fills on live or filled orders, busts on live or exactly filled ones, rebuilt orders of known instruments (or no lots involved) |
| `Counts.ExactFromFresh` | src/cpp/lib/tw/channel_or/processor_orders.cpp:164-190 | the same for every run from a fresh start |
| `Counts.CountsOfRun` | src/cpp/lib/tw/channel_or/processor_orders.cpp:529-618 | every run from a fresh start, whatever its events: each kept count is the sum over live orders plus the exact drift of the run |
| `Counts.GapStep` | src/cpp/lib/tw/channel_or/processor_orders.cpp:356-459 | one event in any state moves (kept count - sum over live orders) by exactly the event's drift, including the overfilling fill that removes the order and then changes the position |
| `Counts.GapRun` | src/cpp/lib/tw/channel_or/processor_orders.cpp:529-618 | the drifts of a run add up |
| `Counts.TidyIffNoDrift` | src/cpp/lib/tw/channel_or/processor_orders.cpp:173-186 | an event drifts in no count iff it is tidy; the refused fresh order, the cancel answer without a live order, the bust of a cancelled or overfilled order are the ones that do |
| `Counts.TidyStep` | src/cpp/lib/tw/channel_or/processor_orders.cpp:412-459 | from exact counts one event keeps all of them exact iff it is tidy |
| `Counts.ExactStep` | src/cpp/lib/tw/channel_or/processor_orders.cpp:412-459 | the same for a single count: exact afterwards iff the event does not drift there |
| `Counts.StepOpen` | src/cpp/lib/tw/channel_or/processor_orders.cpp:345-459 | how each event changes the plain sum over live orders |
| `Counts.DriftTable` | src/cpp/lib/tw/channel_or/processor_orders.cpp:529-618 | what an event posts to a count is the change of the sum plus the drift |
| `Effects.StepLedger` | src/cpp/lib/tw/channel_or/processor_orders.cpp:529-618 | every event changes every position of both views by exactly the posting listed for it, whatever stage of the chain refused or accepted it |
| `Effects.NewLedger` | src/cpp/lib/tw/channel_or/processor.h:93-103 | a new-order request as a whole posts the order if taken, its removal if invalid, nothing if refused later |
| `Effects.FillLedger` | src/cpp/lib/tw/channel_or/processor_orders.cpp:429-459 | a fill that completes an order takes out what was open before it and adds the full fill to the position |
| `Conservation.PositionIsFills` | src/cpp/lib/tw/channel_or/processor_orders.cpp:429-459 | every run from a fresh start, overfills, busts, rejects and rebuilds included: each account's and strategy's position is the signed filled quantity of its orders plus what came from outside (external fills, stored positions, less the fills of rebuilt orders) |
| `Conservation.LotsConserved` | src/cpp/lib/tw/channel_or/processor_orders.cpp:566-618 | every event moves position and filled lots alike, except for what comes from outside |
| `Conservation.StepTraded` | src/cpp/lib/tw/channel_or/processor_orders.cpp:436-456 | how each event changes the filled lots: only fills of orders not yet filled, busts, and rebuilt orders do |
| `TableLaw.TableIffClean` | src/cpp/lib/tw/channel_or/processor_orders.cpp:164-190 | from an exact table, it holds the live orders, all of them under their ids and nothing else, throughout a run if and only if every event is clean: what removes an order finds it live or its id unused, no bust revives a filled order, nothing dead is rebuilt for an unknown instrument |
| `TableLaw.TableFromFresh` | src/cpp/lib/tw/channel_or/processor_orders.cpp:164-190 | the same for every run from a fresh start |
| `TableLaw.CleanStep` | src/cpp/lib/tw/channel_or/processor_orders.cpp:529-535 | the same for one event, in both directions |
| `TableLaw.NewTable` | src/cpp/lib/tw/channel_or/processor_orders.cpp:173-186 | the table after a new-order request, including the resident entry lost to a duplicate id |
| `Lifecycle.StepLegal` | src/cpp/lib/tw/channel_or/processor_orders.cpp:164-459 | every event changes only the order it names, that one only along the state change matrix, never its terms, and its quantity only by fills and busts |
| `Lifecycle.SentAtMostOnce` | src/cpp/lib/tw/channel_or/processor_orders.cpp:164-171 | over every run terms are fixed, and an order once sent is refused whenever it is sent again |
| `Lifecycle.DeadStaysDead` | src/cpp/lib/tw/channel_or/processor_orders.cpp:412-459 | cancelled, rejected and filled orders stay so over every run that does not bust them while filled |
| `Lifecycle.RevivalExact` | src/cpp/lib/tw/channel_or/processor_orders.cpp:449-453 | an event revives a dead order iff it is the bust of that order while filled |
| `Lifecycle.CancelNotLost` | src/cpp/lib/tw/channel_or/processor_orders.cpp:233-251 | an accepted cancel leaves the order cancelling, or kept with the order in its former state |
| `Lifecycle.KeptCancelGoesOut` | src/cpp/lib/tw/common_strat/strategy_container.h:343-357 | a cancel kept while pending goes out with the acknowledgement exactly if reject count, throttle, session and side allow it, and is kept no longer |
| `Lifecycle.CancelWorking` | src/cpp/lib/tw/common_strat/strategy_container.cpp:699-731 | a cancel of a working order is accepted under exactly those conditions, and otherwise leaves it working |
| `Lifecycle.RefusedCancel` | src/cpp/lib/tw/channel_or/processor_orders.cpp:418-427 | exactly what a refused cancel leaves: the order untouched beyond the reject limit, working again (even from modifying), or the cancel kept although refused |
| `Lifecycle.RefusedCancelExact` | src/cpp/lib/tw/channel_or/processor.h:117-127 | a refused cancel leaves the order as it was, but for its reject count, iff it was refused for that count, or the order was working, or it kept a cancel already; requests in flight stay counted |
| `Lifecycle.RefusedCancelOfModify` | src/cpp/lib/tw/channel_or/processor_orders.cpp:392-396 | after a refused cancel of a modifying order the acknowledgement of its modify is ignored |
| `Limits.PositionWithinLimit` | src/cpp/lib/tw/channel_or/processor_risk.cpp:100-123 | every orderly run from a fresh start (valid sends, no overfill, no bust, external fill or rebuild) keeps `pos + bids` and `-pos + asks` of every configured instrument within the limit, hence the position between minus and plus the limit |
| `Limits.LimitRun` | src/cpp/lib/tw/channel_or/processor_risk.cpp:100-123 | every run with no assumption on its events: exposure exceeds the larger of limit and start by at most the sum of the overruns forced on it |
| `Limits.LimitStep` | src/cpp/lib/tw/channel_or/processor_risk.cpp:62-124 | one event: exposure stays within the limit or where it was, plus that event's overrun |
| `Limits.GrowthExact` | src/cpp/lib/tw/channel_or/processor_orders.cpp:529-618 | every event moves the exposure by exactly its posting, so it ends within a limit iff exposure plus posting does |
| `Limits.OrderlyRunExact` | src/cpp/lib/tw/channel_or/processor_orders.cpp:164-190 | orderly runs neither drift nor overrun, and live orders always have something left |
| `Limits.AcceptedPassedRisk` | src/cpp/lib/tw/channel_or/processor_risk.cpp:62-124 | an order the chain takes was fresh, valid, of the configured account, on a side, and its own quantity is within the limit it was checked against |
| `Limits.OverfillExceeds` | src/cpp/lib/tw/channel_or/processor_orders.cpp:442-446 | an overfill lifts the exposure on the order's side, buy or sell, by exactly its excess, whatever the limit |
| `Limits.BustExceeds` | src/cpp/lib/tw/channel_or/processor_orders.cpp:449-453 | a bust lifts the exposure on the side opposite to the order's by the whole bust, and leaves the order's own side alone |
| `Limits.QueryForetellsRisk` | src/cpp/lib/tw/channel_or/processor_risk.cpp:196-240 | the pre-trade query agrees with the check inside the chain, in both directions, for a fresh valid order |
| `Acceptance.AcceptedIff` | src/cpp/lib/tw/channel_or/processor.h:93-103 | the whole chain takes an untouched order if and only if none of the reasons of the verdict holds on the state before the request |
| `Acceptance.AcceptedLists` | src/cpp/lib/tw/channel_or/processor_wtp.cpp:79-89 | an accepted order is appended to its side's list and nothing else of the lists changes, when nothing was listed opposite |
| `Acceptance.NewVerdictExact` | src/cpp/lib/tw/channel_or/processor.h:93-103 | the chain's answer to an untouched new order, told from the state before the request: the first that holds of state, quantity, price, duplicate id, throttle, wash trade, account, trading disabled, symbol, clip size, side, position limit with the order's own quantity, loss limit, order kind, session down, failed send; only the failed send is an outside refusal |
| `Acceptance.ModVerdictExact` | src/cpp/lib/tw/channel_or/processor.h:105-115 | the same for a modify: price, same price, reject limit, state, modify limit, throttle, wash trade, session, kind or side, failed send |
| `Acceptance.CxlVerdictExact` | src/cpp/lib/tw/channel_or/processor_orders.cpp:233-251 | the same for a cancel: a repeated one is taken, then reject limit, throttle, session; a kept one is taken without being sent |
| `Acceptance.VerdictsFromFresh` | src/cpp/lib/tw/channel_or/processor.h:93-127 | after every run from a fresh start, with no assumption on its events, the answers to a new order without fills, a modify and a cancel are those verdicts |
| `RequestCounters.CountersStep` | src/cpp/lib/tw/channel_or/processor_orders.cpp:194-251 | what every event makes of the counters of every order: modifies in flight, modify rejects in a row, cancel rejects, the kept cancel's included |
| `RequestCounters.NeverWrapsFromFresh` | src/cpp/lib/tw/channel_or/processor_orders.cpp:377-410 | over every run from a fresh start at most five modifies of an order are counted in flight, at least one while it is modifying, so the 32-bit counter never wraps |
| `Views.ViewsAgree` | src/cpp/lib/tw/channel_or/processor_orders.cpp:537-618 | for any event sequence at all the totals of bids, asks and position over accounts equal the totals over strategies, per instrument |
| `Views.ViewsFromFresh` | src/cpp/lib/tw/channel_or/processor_orders.cpp:537-618 | from a fresh start, for any event sequence at all, the two totals are equal in every instrument |
| `Views.StepInStep` | src/cpp/lib/tw/channel_or/processor_orders.cpp:537-618 | every single event keeps the two totals equal |
| `Views.TotalBump` | src/cpp/lib/tw/channel_or/processor_orders.cpp:329-341 | adding to one entry adds to the total of its instrument, entry new or not |
| `Views.StopBreaksViews` | src/cpp/lib/tw/channel_or/processor_orders.cpp:157-162 | `stop` clears only the account view: afterwards the views agree iff the strategies were flat in total |
| `WashTrade.ScanRefinesEager` | src/cpp/lib/tw/channel_or/processor_wtp.h:55-82 | searching while purging returns the first crossing order among the non-dead ones, and leaves the same non-dead orders in the same order |
| `WashTrade.ScanClear` | src/cpp/lib/tw/channel_or/processor_wtp.h:55-82 | the scan finds nothing iff no listed non-dead order crosses, and drops no non-dead order |
| `WashTrade.ScanPurges` | src/cpp/lib/tw/channel_or/processor_wtp.h:55-82 | the search drops exactly the dead orders listed before the one it finds, all of them if it finds none, and leaves the rest of the list as it was |
| `WashTradeVerdict.VerdictExact` | src/cpp/lib/tw/channel_or/processor_wtp.cpp:44-77 | the check refuses a price, as a wash trade, iff the order is no stop-loss and the first non-dead listed order it crosses is not, with quotes in use, strictly worse than both the last trade and its own side's best quote, all valid; the requested price counts while that order modifies to a more aggressive one |
| `WashTradeVerdict.BestBuyRefused` | src/cpp/lib/tw/channel_or/processor_wtp.cpp:7-16 | a first crossing buy at or above the best bid or the last trade, or an invalid quote, always refuses |
| `WashTradeVerdict.BestSellRefused` | src/cpp/lib/tw/channel_or/processor_wtp.cpp:7-16 | a first crossing sell at or below the best ask or the last trade, or an invalid quote, always refuses |
| `WashTradeVerdict.SecondAtBestUnseen` | src/cpp/lib/tw/channel_or/processor_wtp.cpp:53-67 | with quotes in use only the first crossing order is looked at: behind one that is away from the market, a second at the best bid is let through unseen |
| `WashTradeQuotes.CrossedStep` | src/cpp/lib/tw/channel_or/processor_wtp.cpp:44-93 | one fair event, quotes in use or not: a live buy and a live sell that cross afterwards crossed before, or one of them was let through by this event: it crosses the other, and the first listed order it crosses is away from the market |
| `WashTradeQuotes.CrossedWasLetThrough` | src/cpp/lib/tw/channel_or/processor_wtp.cpp:44-93 | over every fair run: a pair that crosses at the end crossed at the start, or was let through on the way |
| `WashTradeQuotes.QuotesFromFresh` | src/cpp/lib/tw/channel_or/processor_wtp.cpp:44-93 | from a fresh start every crossed pair was let through at some event, and without quotes in use there is none |
| `WashTradeQuotes.LetThroughCrosses` | src/cpp/lib/tw/channel_or/processor_wtp.cpp:53-66 | an order taken although a listed order of the other side meets it leaves the two crossed in the book |
| `WashTradeBook.BookNeverCrosses` | src/cpp/lib/tw/channel_or/processor_wtp.cpp:44-93 | over every fair run (quote override off, no stop-loss, rebuilt or revived orders, at most one modify in flight per live order, modify acknowledgements echoing the request; cancels at any time) every live buy is priced strictly below every live sell of its instrument, counting the price and a modifying order's requested price |
| `WashTradeBook.BookFromFresh` | src/cpp/lib/tw/channel_or/processor_wtp.cpp:44-93 | the same for every fair run from a fresh start |
| `WashTradeBook.BookStep` | src/cpp/lib/tw/channel_or/processor_wtp.cpp:44-93 | each fair event keeps that, with every live order listed on its side |
| `WashTradeBook.PassedIsClear` | src/cpp/lib/tw/channel_or/processor_wtp.cpp:44-77 | a price that passes the check meets no live order of the other side, provided all are listed |
| `WashTradeBook.AcceptedIsClear` | src/cpp/lib/tw/channel_or/processor_wtp.cpp:79-89 | an accepted new order is a valid-priced order on a side whose price is clear of every live opposite order |
| `WashTradeBook.ModAccepted` | src/cpp/lib/tw/channel_or/processor_orders.cpp:194-231 | an accepted modify leaves exactly that order modifying with one more request counted and a clear requested price |
| `WashTradeBook.ModRefused` | src/cpp/lib/tw/common_strat/strategy_container.cpp:657-697 | a refused modify clears the request, counts one reject and keeps the price; the state changes only if other modifies were counted |
| `WashTradeSafety.ShadowedIffGentle` | src/cpp/lib/tw/channel_or/processor_orders.cpp:233-251 | a fair run keeps every live order shadowed throughout (each price the exchange may hold is no more aggressive than one the order quotes) if and only if every cancel in it is gentle: the order is not modifying, or it is refused for its reject count, or the requested price is no more aggressive than the resting one |
| `WashTradeSafety.GentleRunIsSafe` | src/cpp/lib/tw/channel_or/processor_wtp.cpp:44-93 | over every such run no live buy can trade with a live sell of its instrument at any price the exchange may hold, resting or in flight |
| `WashTradeSafety.SafeFromFresh` | src/cpp/lib/tw/channel_or/processor_wtp.cpp:44-93 | both from a fresh start |
| `WashTradeSafety.ShadowedStep` | src/cpp/lib/tw/channel_or/processor_orders.cpp:233-251 | one fair event keeps all live orders shadowed iff it is gentle |
| `WashTradeSafety.SteadyIffGentle` | src/cpp/lib/tw/channel_or/processor_orders.cpp:192-251 | with one modify in flight at most, an event is steady in the general sense exactly if it is gentle |
| `WashTradeSafety.CancelExact` | src/cpp/lib/tw/channel_or/processor_orders.cpp:233-251 | a cancel of a modifying order keeps that order shadowed iff it is refused for the reject count or the requested price is no more aggressive than the resting one |
| `WashTradeShadow.ShadowedIsSafe` | src/cpp/lib/tw/channel_or/processor_wtp.cpp:44-77 | an uncrossed book whose live orders are shadowed is safe at the exchange |
| `WashTradeSafety.HarshCancelExposes` | src/cpp/lib/tw/channel_or/processor_orders.cpp:240-246 | after a cancel that is not gentle, any opposite order the chain takes at or through the requested price makes the world unsafe, whatever the prices |
| `WashTradeRuns.HarshCancelUnsafe` | src/cpp/lib/tw/channel_or/processor_orders.cpp:240-246 | the same with the taking spelled out: any acceptable opposite order does |
| `WashTradeRuns.CancelOvertakesModify` | src/cpp/lib/tw/channel_or/processor_orders.cpp:240-246 | a run from a fresh start, on either side and at all prices with the opposite order beyond the first and not beyond the requested price: create, create, send, acknowledge, modify, cancel, send; the two orders can then trade with each other |
| `WashTradeRuns.SecondModifyHidesFirst` | src/cpp/lib/tw/channel_or/processor_orders.cpp:192-223 | the same run with a second modify in place of the cancel |
| `WashTradeRuns.AckHidesSecond` | src/cpp/lib/tw/channel_or/processor_orders.cpp:392-410 | the run with two modifies in flight, the second more aggressive: the acknowledgement of the first hides the second, and an opposite order between them can trade with it |
| `WashTradeLimits.SecondModifyExact` | src/cpp/lib/tw/channel_or/processor_orders.cpp:192-223 | a second modify over an unanswered one keeps, for the time being, the order shadowed iff the first requested price is behind the order's price or the second request |
| `WashTradeOverlap.FirstAckExact` | src/cpp/lib/tw/channel_or/processor_orders.cpp:392-410 | the acknowledgement of the first of two requests in flight, which clears the second from the order, keeps it shadowed iff the second is no more aggressive than the first |
| `WashTradeOverlap.ShadowedIffSteady` | src/cpp/lib/tw/channel_or/processor_orders.cpp:192-251 | over runs with any number of modifies in flight, answered oldest first with their prices, and cancels at any time: every live order is shadowed throughout iff every event is steady, that is, what the exchange may hold after it is behind what the order still quotes after it, told from the state before |
| `WashTradeOverlap.SteadyRunIsSafe` | src/cpp/lib/tw/channel_or/processor_wtp.cpp:44-93 | over every such run no two own orders can trade with each other at the exchange, and the process's own book never crosses |
| `WashTradeOverlap.OverlapFromFresh` | src/cpp/lib/tw/channel_or/processor_wtp.cpp:44-93 | both from a fresh start |
| `WashTradeOverlap.OverlapStep` | src/cpp/lib/tw/channel_or/processor_orders.cpp:192-251 | one event, modifies overlapping or not: all live orders stay shadowed iff it is steady, and then the invariant holds again |
| `WashTradeRecord.CarefulRunIsTracked` | src/cpp/lib/tw/channel_or/processor_orders.cpp:392-410 | where moreover no cancel overtakes a modify, the process's record of every live order (price, requested price, one request in flight) is exactly what the exchange holds |
| `WashTradeRecord.RecordStep` | src/cpp/lib/tw/channel_or/processor_orders.cpp:392-410 | each such event keeps that |
| `WashTradeLimits.BustRevivesCrossing` | src/cpp/lib/tw/channel_or/processor_orders.cpp:449-453 | a bust that revives a filled buy at or above a live sell makes them meet at the exchange |
| `WashTradeLimits.BustExact` | src/cpp/lib/tw/channel_or/processor_orders.cpp:449-453 | the bust of a filled order keeps the book uncrossed iff its price is strictly beyond every live opposite price |
| `WashTradeLimits.AckExact` | src/cpp/lib/tw/channel_or/processor_orders.cpp:392-410 | a modify acknowledgement at any valid price keeps the book uncrossed iff that price is strictly beyond every live opposite price |
| `Chain.ChainCalls` | src/cpp/lib/tw/channel_or/processor.h:93-103 | for any stages: all stages up to the refusing one are called once, outermost first; exactly the ones before it get one compensation each, innermost first; later stages are never called |
| `Chain.ChainUnwinds` | src/cpp/lib/tw/channel_or/processor.h:93-103 | for any stages: the resulting state is the forward run to the refusing stage followed by the compensations on the way back |
| `Chain.ChainRestores` | src/cpp/lib/tw/channel_or/processor.h:93-103 | for any stages: if the refusing stage leaves intact what a relation at its depth can tell of the state it met, and each earlier compensation for this reject turns agreement after its send into agreement before it, the refused request leaves nothing the outermost relation can tell |
| `Rollback.SendNewIsChain` | src/cpp/lib/tw/common_strat/strategy_container.h:391-397 | the order path's new-order request is that nested chain over its seven stages, in the order the container nests them |
| `Rollback.OrderCalls` | src/cpp/lib/tw/channel_or/processor.h:93-103 | on the order path: the reason of a refusal names the refusing stage; every stage up to it is called exactly once, every stage before it is told of the reject exactly once, innermost first, and no other is called |
| `Rollback.RefuserByReason` | src/cpp/lib/tw/common_strat/strategy_container.h:391-397 | the depth of the refusing stage is the one its reason stands for |
| `Rollback.RefusedLeavesNoTrace` | src/cpp/lib/tw/channel_or/processor_orders.cpp:356-366 | a fresh valid order refused by any later stage ends Rejected with all counts, positions and the order table as before |
| `Rollback.RefusalExact` | src/cpp/lib/tw/channel_or/processor_orders.cpp:173-186 | a refused fresh order leaves all positions alone iff it was valid, or had nothing open, or no side: an invalid one is removed without having been added |
| `Rollback.NewMessages` | src/cpp/lib/tw/channel_or/processor_messaging.cpp:105-114 | after a new-order request the field `news` of its symbol and account is one higher exactly if it was accepted or refused outside the process; `mods`, `cxls` and every other counter are as before, an internal refusal taking back what was counted |
| `Rollback.ModMessages` | src/cpp/lib/tw/channel_or/processor_messaging.cpp:116-125 | after a modify request, whatever its clean-up, the field `mods` is one higher exactly if the request left the process; `news`, `cxls` and every other counter are as before |
| `Rollback.CxlMessages` | src/cpp/lib/tw/channel_or/processor_messaging.cpp:127-136 | after a cancel request the field `cxls` is one higher exactly if the request left the process and was no second cancel of a cancelling order; everything else is as before |
| `Messages.CountersStep` | src/cpp/lib/tw/channel_or/processor_messaging.cpp:105-185 | every event raises each field of each counter by exactly the requests of its kind that it sends out of the process, the cancel that was kept and goes out with an answer included |
| `Messages.CountersFromFresh` | src/cpp/lib/tw/channel_or/processor_messaging.cpp:105-185 | after every run from a fresh start `news`, `mods` and `cxls` of every symbol and account are the numbers of new orders, modifies and cancels that left the process |
| `Rollback.RefusedListsAlive` | src/cpp/lib/tw/channel_or/processor_wtp.cpp:79-89 | the wash-trade lists keep a refused order only as a dead entry |
| `MessagingIndex.MessagingStage.GetInfo` | src/cpp/lib/tw/channel_or/processor_messaging.cpp:22-54 | the memo returns the record the search would find, creating it once; none iff the instrument is unknown |
| `MessagingIndex.MessagingStage.Count` | src/cpp/lib/tw/channel_or/processor_messaging.cpp:105-114 | counting through memo and list raises the field of its kind by one for the order's symbol and account, leaves the other two fields, and takes the step of the map of counters |
| `MessagingIndex.CountRefines` | src/cpp/lib/tw/channel_or/processor_messaging.cpp:105-114 | counting in the first record of a key changes that key's counter and no other |
| `MessagingIndex.AppendKeepsCounts` | src/cpp/lib/tw/channel_or/processor_messaging.cpp:41-48 | creating a record changes no counter |
| `MessagingIndex.FirstAfterAppend` | src/cpp/lib/tw/channel_or/processor_messaging.cpp:33-39 | a record appended at the end is found only for a key that had none |
| `Gateway.OrderGateway.Handle` | src/cpp/lib/tw/common_strat/strategy_container.cpp:823-917 | one event on the object: it takes the step of the state machine, and from the state before: counts stay exact iff the event is tidy, the table iff it is clean, account and strategy totals stay in step, exposure stays within limit or former exposure plus overrun, lots are conserved, and every order moves legally or not at all |
| `Gateway.OrderGateway.Dispatch` | src/cpp/lib/tw/common_strat/strategy_container.cpp:823-917 | the dispatch of every kind of event takes the step of the state machine |
| `Gateway.OrderGateway.GetCrossingOrder` | src/cpp/lib/tw/channel_or/processor_wtp.h:55-82 | the erasing loop ends, returns the first crossing non-dead order and keeps all non-dead ones in order |
| `Gateway.OrderGateway.CheckCrossing` | src/cpp/lib/tw/channel_or/processor_wtp.cpp:44-77 | the verdict on a price and the list left behind are those of the check on the opposite list: stop-loss bypass, scan, quote override (`WashTradeVerdict.VerdictExact`) |
| `Gateway.OrderGateway.WtpSendNewOrder` | src/cpp/lib/tw/channel_or/processor_wtp.cpp:79-89 | a price that passes puts the order at the end of its side's list |
| `Gateway.OrderGateway.CheckRisk` | src/cpp/lib/tw/channel_or/processor_risk.cpp:62-124 | the risk verdict, reason by reason in the order of the checks |
| `Gateway.OrderGateway.OrdersSendNewOrder` | src/cpp/lib/tw/channel_or/processor_orders.cpp:164-190 | state, quantity, price and duplicate checks, then table and counts |
| `Gateway.OrderGateway.OnNewReject` | src/cpp/lib/tw/channel_or/processor_orders.cpp:356-366 | rejects and removes a pending or unsent order, ignores others |
| `Gateway.OrderGateway.OrdersSendModify` | src/cpp/lib/tw/channel_or/processor_orders.cpp:194-231 | the modify checks and counters, with the state change before the counter check |
| `Gateway.OrderGateway.CloseModify` | src/cpp/lib/tw/channel_or/processor_orders.cpp:392-410 | closes one modify request with a 32-bit counter decrement |
| `Gateway.OrderGateway.OrdersSendCancel` | src/cpp/lib/tw/channel_or/processor_orders.cpp:233-251 | cancelling from working or modifying, otherwise a cancel kept for the next answer |
| `Gateway.OrderGateway.OnCancelReject` | src/cpp/lib/tw/channel_or/processor_orders.cpp:418-427 | counts the reject and returns a cancelling order to work |
| `Gateway.OrderGateway.ChangeOpenOrdersCounts` | src/cpp/lib/tw/channel_or/processor_orders.cpp:537-564 | both views move by the open quantity on the order's side and by nothing else |
| `Gateway.OrderGateway.ChangePosCounts` | src/cpp/lib/tw/channel_or/processor_orders.cpp:566-618 | position and open count move in opposite directions, normal and busted fills |
| `Gateway.OrderGateway.RemoveOrder` | src/cpp/lib/tw/channel_or/processor_orders.cpp:529-535 | takes the open quantity out of the counts and the id out of the table |
| `Gateway.OrderGateway.SendNewOrder` | src/cpp/lib/tw/channel_or/processor.h:93-103 | the chain for new orders with its compensations: an untouched order is taken iff acceptable, and a valid one refused leaves positions and table as they were |
| `Gateway.OrderGateway.SendModify` | src/cpp/lib/tw/common_strat/strategy_container.cpp:657-697 | the chain for modifies and the clean-up of a refused one |
| `Gateway.OrderGateway.SendCancel` | src/cpp/lib/tw/common_strat/strategy_container.cpp:699-731 | the chain for cancels with its compensations |
| `Gateway.OrderGateway.CheckCancelOnAck` | src/cpp/lib/tw/common_strat/strategy_container.h:343-357 | a kept cancel goes out once, with the next answer |
| `Gateway.OrderGateway.OnNewAcknowledged` | src/cpp/lib/tw/common_strat/strategy_container.cpp:964-982 | the acknowledgement of a new order |
| `Gateway.OrderGateway.OnModAcknowledged` | src/cpp/lib/tw/common_strat/strategy_container.cpp:1003-1022 | the acknowledgement of a modify, echoing a price |
| `Gateway.OrderGateway.OnModRejected` | src/cpp/lib/tw/common_strat/strategy_container.cpp:1024-1043 | the exchange's reject of a modify |
| `Gateway.OrderGateway.OnCancelled` | src/cpp/lib/tw/channel_or/processor_orders.cpp:412-416 | the cancel acknowledgement, without a state check |
| `Gateway.OrderGateway.OnFilled` | src/cpp/lib/tw/channel_or/processor_orders.cpp:429-448 | a normal fill: ignored on a filled order, otherwise quantity, state, removal and position |
| `Gateway.OrderGateway.OnBusted` | src/cpp/lib/tw/channel_or/processor_orders.cpp:449-453 | a bust: quantity back, a filled order works again, and is not put back into the table |
| `Gateway.OrderGateway.RebuildStoredOrder` | src/cpp/lib/tw/channel_or/processor_orders.cpp:309-323 | an order read back at start-up enters table and counts, or is taken out again |
| `Gateway.OrderGateway.RebuildPosition` | src/cpp/lib/tw/channel_or/processor_orders.cpp:329-341 | a stored position is added to both views for a known instrument |
| `Storage.RunKeepsOrder` | src/cpp/lib/tw/channel_or/channel_or_storage.cpp:1248-1281 | every run of producers and threads, any commits and rollbacks: database, file, cache and queues in that order are the accepted items in acceptance order, provided no item is queued for the database while others wait for the file |
| `Storage.OrderKeptIff` | src/cpp/lib/tw/channel_or/channel_or_storage.cpp:946-982 | for distinct items that condition is exact: the order is kept if and only if no item of the run overtakes a waiting one |
| `Storage.OvertakingRun` | src/cpp/lib/tw/channel_or/channel_or_storage.cpp:946-972 | a run from a fresh store after which the next item overtakes one that waits for the file |
| `Storage.StoredIsPrefix` | src/cpp/lib/tw/channel_or/channel_or_storage.cpp:1000-1214 | hence what database and file hold is always a prefix of the accepted items |
| `Storage.StepKeepsOrder` | src/cpp/lib/tw/channel_or/channel_or_storage.cpp:1434-1512 | every thread step (read, batch commit, rollback, giving up, hand-over, file write) moves items without reordering any |
| `Storage.PutKeepsOrder` | src/cpp/lib/tw/channel_or/channel_or_storage.cpp:946-982 | a new item lands at the end iff it is not sent to the database queue while items wait for the file; a refused one changes nothing |
| `Storage.ShutdownOfRun` | src/cpp/lib/tw/channel_or/channel_or_storage.cpp:482-508 | every run from a fresh store, then `stop`, wherever the database path first fails: database and file hold exactly the accepted items, if and only if it is not the case that the connection is up, a file thread has been started but has not given the database up, and a commit fails during the shutdown; that item is then stored twice |
| `Storage.ShutdownLosesNothing` | src/cpp/lib/tw/channel_or/channel_or_storage.cpp:482-508 | whatever happens, every accepted item is stored at least once |
| `Storage.QuietShutdown` | src/cpp/lib/tw/channel_or/channel_or_storage.cpp:482-508 | with no file thread at work, or one past its hand-over, `stop` loses and duplicates nothing |
| `Storage.ShutdownDoubles` | src/cpp/lib/tw/channel_or/channel_or_storage.cpp:1347-1367 | a run whose item is stored twice, for every batch size: its commit fails, which starts the file thread, and fails again in the shutdown, which leaves it in the cache and in the queue |
| `Storage.RunConserves` | src/cpp/lib/tw/channel_or/channel_or_storage.cpp:1248-1281 | every run, overtaking or not, keeps exactly the accepted items in stores and queues |
| `Storage.PutExact` | src/cpp/lib/tw/channel_or/channel_or_storage.cpp:946-970 | the whole state after an item is put, by the flags and the lengths of the queues: nothing changes iff the database is given up and the file queue is over its limit |
| `Storage.AllAcceptedIff` | src/cpp/lib/tw/channel_or/channel_or_storage.h:162-168 | the accepted items of a run are all items put, in order, iff the file queue is within its limit at every put after the database was given up |
| `Storage.ReadExact` | src/cpp/lib/tw/channel_or/channel_or_storage.cpp:1248-1281 | one turn of the database thread by the flags, the cache size and the batch size: what it reads, keeps and commits, and when it does nothing |
| `Storage.CacheBounded` | src/cpp/lib/tw/channel_or/channel_or_storage.cpp:1262-1263 | over every run the cache stays within one item of its limit |
| `Storage.HealthyDrain` | src/cpp/lib/tw/channel_or/channel_or_storage.cpp:1434-1449 | while the database takes commits, as many turns as items wait move all of them to the database, in order, and nothing else changes |
| `Storage.SpillReachesFile` | src/cpp/lib/tw/channel_or/channel_or_storage.cpp:1462-1504 | once the file thread has been started it brings everything that waits to the file: cache, then database queue, then file queue |
| `Storage.ClosedFileKeeps` | src/cpp/lib/tw/channel_or/channel_or_storage.cpp:1283-1322 | over every run a file that could not be opened is never written, and what was handed over stays in the file queue |
| `Storage.ShutdownOrder` | src/cpp/lib/tw/channel_or/channel_or_storage.cpp:1333-1387 | in what order a shutdown stores what waits: the cache backwards and then the database queue if all commits succeed, the queue backwards and then the cache, to the file, if the first one fails |
| `Storage.ShutdownExact` | src/cpp/lib/tw/channel_or/channel_or_storage.cpp:482-508 | from any state with the file open, `stop` keeps the multiset of items iff, with the database given up, a file thread is joined or nothing went through, and otherwise no file thread is joined after a failed commit |
| `Storage.StoppedContents` | src/cpp/lib/tw/channel_or/channel_or_storage.cpp:1333-1387 | the exact multiset in database plus file after a shutdown: everything, less what a given-up database swallows with no file thread to join, plus the failed item a joined one finds in the cache |
| `Storage.FlushEndsIff` | src/cpp/lib/tw/channel_or/channel_or_storage.cpp:1000-1010 | the flush loop ends iff the batch size is positive or there is nothing to flush; a batch of zero commits nothing for ever |
| `Storage.ChannelStorage.Stop` | src/cpp/lib/tw/channel_or/channel_or_storage.cpp:482-508 | `stop` reaches that state: a prefix of the turned-around pending items in the database, then the hand-over of a file thread it waits for, then the rest turned around again in the file |
| `Storage.ChannelStorage.JoinFileThread` | src/cpp/lib/tw/channel_or/channel_or_storage.cpp:490-495 | waiting for a file thread that has not handed over puts what is in the cache before the file queue |
| `Storage.ChannelStorage.DoPersist` | src/cpp/lib/tw/channel_or/channel_or_storage.cpp:946-982 | an item is refused iff the database is given up and the file queue is over its limit, and then nothing changes; otherwise it goes to the end of the file queue if the database is given up or its queue is over its limit, the latter starting the file thread, and to the end of the database queue if not |
| `Storage.ChannelStorage.DoFlushToDb` | src/cpp/lib/tw/channel_or/channel_or_storage.cpp:1000-1214 | commits a prefix of the cache batch by batch, keeps the rest; success iff the cache is empty or the database given up |
| `Storage.ChannelStorage.FlushToDb` | src/cpp/lib/tw/channel_or/channel_or_storage.cpp:984-998 | up to five attempts together commit a prefix of the cache |
| `Storage.ChannelStorage.PersistToDb` | src/cpp/lib/tw/channel_or/channel_or_storage.cpp:1248-1281 | one item into the cache and a flush of a full batch; refusal leaves everything alone |
| `Storage.ChannelStorage.DbThreadRead` | src/cpp/lib/tw/channel_or/channel_or_storage.cpp:1434-1460 | one turn of the database thread; the item leaves the queue only when taken |
| `Storage.ChannelStorage.DbThreadTick` | src/cpp/lib/tw/channel_or/channel_or_storage.cpp:1434-1460 | the periodic flush; a cache that stays non-empty starts the file thread |
| `Storage.ChannelStorage.FileThreadGiveUp` | src/cpp/lib/tw/channel_or/channel_or_storage.cpp:1462-1467 | the file thread gives the database up, and new items go to the file queue |
| `Storage.ChannelStorage.FileThreadHandOver` | src/cpp/lib/tw/channel_or/channel_or_storage.cpp:1469-1494 | the hand-over: the file queue becomes cache, then database queue, then what it held |
| `Storage.ChannelStorage.FileThreadWrite` | src/cpp/lib/tw/channel_or/channel_or_storage.cpp:1462-1512 | one item from the file queue to the file |
| `Storage.ChannelStorage.FlushDbCache` | src/cpp/lib/tw/channel_or/channel_or_storage.cpp:1333-1373 | which pending items reach the database at shutdown, in which order the rest reaches the file queue, and what stays in the cache: all that went through if the database is given up, else the item whose commit failed |
| `Storage.ChannelStorage.FlushFileCache` | src/cpp/lib/tw/channel_or/channel_or_storage.cpp:1375-1387 | empties the file queue into the file, or drops it if the file is closed |
| `Journal.LineRoundTrip` | src/cpp/lib/tw/channel_or/channel_or_storage.cpp:48-162 | for every item whose own payloads round-trip without the delimiter in their texts, a session message's text being written as it is, and a message reader that makes up no delimiter: the item comes back unchanged from its line iff its id fits in 32 bits and it is not a session message with a comma replacement byte or a delimiter in its text |
| `Journal.LineReread` | src/cpp/lib/tw/channel_or/channel_or_storage.cpp:48-162 | without a delimiter in its text an item comes back with id, kind and payload, a session message with every replacement byte read as a comma |
| `Journal.WideNotRead` | src/cpp/lib/tw/channel_or/channel_or_storage.cpp:93-110 | a line whose id does not fit in 32 bits is not read |
| `Journal.LineLayout` | src/cpp/lib/tw/channel_or/channel_or_storage.cpp:48-91 | the line of every kind of item: id, kind, then the payloads in order, with byte 3 between and byte 4 for commas |
| `Journal.DelimitedNotRestored` | src/cpp/lib/tw/channel_or/channel_or_storage.cpp:93-97 | with such a reader a session message with a delimiter in its text never comes back |
| `Journal.ReadHasNoDelimiter` | src/cpp/lib/tw/channel_or/channel_or_storage.cpp:93-97 | with such a reader no line at all gives a session message with a delimiter in its text |
| `Journal.SplitJoin` | src/cpp/lib/tw/channel_or/channel_or_storage.cpp:93-110 | fields free of the delimiter come back from the joined line |
| `Journal.CommasRestored` | src/cpp/lib/tw/channel_or/channel_or_storage.cpp:16-27 | the comma replacement is undone iff the message had no replacement byte |
| `Journal.DecimalRoundTrip` | src/cpp/lib/tw/channel_or/channel_or_storage.cpp:93-110 | item ids are read back as written |
| `Journal.UnknownNotRead` | src/cpp/lib/tw/channel_or/channel_or_storage.cpp:48-91 | an item of no known kind writes a line that is not read as an item |
| `Routing.AlwaysRouted` | src/cpp/lib/tw/channel_or_cme/channel_or_onix.cpp:222-320 | over any interleaving of new orders, overlapping modifies, cancels, acknowledgements and rejects every open order is in the table under its last acknowledged ClOrdID and every unanswered request's, and no entry leads to another order |
| `Routing.RoutedFromFresh` | src/cpp/lib/tw/channel_or_cme/channel_or_onix.cpp:222-320 | the same for every run from an empty session |
| `Routing.AlwaysExact` | src/cpp/lib/tw/channel_or_cme/channel_or_onix.cpp:446-484 | if modify acknowledgements carry their price, an open order is in the table under exactly those ids, and its OrigClOrdID is the last acknowledged one |
| `Routing.ExactFromFresh` | src/cpp/lib/tw/channel_or_cme/channel_or_onix.cpp:446-484 | the same for every run from an empty session |
| `Routing.CarriesLastId` | src/cpp/lib/tw/channel_or_cme/channel_or_onix.cpp:222-320 | over every run an order carries the ClOrdID of the last request sent for it, until an acknowledged modify puts its own in place |
| `Routing.DownNotRouted` | src/cpp/lib/tw/channel_or_cme/channel_or_onix.cpp:222-233 | a new order while the session is down takes an id, and no response will find it; a request then changes nothing |
| `Routing.AckDropsReplaced` | src/cpp/lib/tw/channel_or_cme/channel_or_onix.cpp:457-462 | a modify acknowledgement belongs to the order under its ClOrdID, else under its OrigClOrdID; the id it quotes as replaced and the order's former one leave the table, unless they are the ClOrdID itself, and nothing else does |
| `Routing.RejectDropsOwn` | src/cpp/lib/tw/channel_or_cme/channel_or_onix.cpp:451-456 | a reject takes its own ClOrdID out of the table, unless it quotes the same as OrigClOrdID, and nothing else changes |
| `Routing.InvStep` | src/cpp/lib/tw/channel_or_cme/channel_or_onix.cpp:446-484 | every event keeps the routing invariant |
| `Routing.ResponseFindsOrder` | src/cpp/lib/tw/channel_or_cme/channel_or_onix.h:125-131 | every response about an open order finds that order |
| `Routing.ExactResponse` | src/cpp/lib/tw/channel_or_cme/channel_or_onix.cpp:446-484 | every answer keeps the table exact for open orders |
| `Routing.ClosingLeaves` | src/cpp/lib/tw/channel_or_cme/channel_or_onix.h:112-117 | the end of an order leaves the ids it did not quote; nothing is left iff it quoted all |
| `Routing.OnixSession.ProcessOrderResp` | src/cpp/lib/tw/channel_or_cme/channel_or_onix.cpp:446-484 | the response handler: order found first, then table and ids changed by kind |
| `Routing.OnixSession.SendNewOrder` | src/cpp/lib/tw/channel_or_cme/channel_or_onix.cpp:222-253 | a new order takes a fresh id even when the session is down, and a table entry only when it is up |
| `Routing.OnixSession.SendModOrCxl` | src/cpp/lib/tw/channel_or_cme/channel_or_onix.cpp:255-320 | a request takes a fresh id and an entry, and leaves the last acknowledged id alone |
| `Bridge.RoundTrip` | src/cpp/lib/tw/channel_or_cme_bridge/translator.cpp:238-273 | a response quoting the bridge id of a request reaches the client of the new order, with that request's own ClOrdID, and the id of the last acknowledged request as OrigClOrdID |
| `Bridge.ReplyReachesSender` | src/cpp/lib/tw/channel_or_cme_bridge/cme_route.cpp:256-340 | it reaches the client that sent the request if and only if that client sent the new order |
| `Bridge.RepliesReachSenders` | src/cpp/lib/tw/channel_or_cme_bridge/cme_route.cpp:256-340 | over every run in which clients name their own orders only, every response quoting a request reaches the client that sent it |
| `Bridge.RepliesFromFresh` | src/cpp/lib/tw/channel_or_cme_bridge/cme_route.cpp:256-340 | the same for every run from an empty bridge |
| `Bridge.RequestQuotesLast` | src/cpp/lib/tw/channel_or_cme_bridge/translator.cpp:92-124 | the message of a modify or cancel that names a known id goes out under its own bridge id and quotes the bridge id the exchange last acknowledged for that order; an unknown id sends nothing |
| `Bridge.MessagesFromFresh` | src/cpp/lib/tw/channel_or_cme_bridge/translator.cpp:92-124 | after every honest run from an empty bridge this holds of the next request, and a new order goes out under its bridge id, quoting none |
| `Bridge.RegisteredTwice` | src/cpp/lib/tw/channel_or_cme_bridge/cme_route.h:112-128 | a new order and a request are both registered under the client's and the bridge's id with number, client and order, and no other id changes |
| `Bridge.OwnersStep` | src/cpp/lib/tw/channel_or_cme_bridge/cme_route.cpp:256-340 | an event leaves every request sent by its order's client iff it names an own order |
| `Bridge.SecondClientUnanswered` | src/cpp/lib/tw/channel_or_cme_bridge/cme_route.cpp:312-324 | a run of two clients: the second one's cancel is answered to the first |
| `Bridge.CleanUpComplete` | src/cpp/lib/tw/channel_or_cme_bridge/cme_route.h:163-175 | after NewRej, Fill or CxlAck no key refers to the order, however many modifies and cancels it had, and no other order's key is touched |
| `Bridge.AnsweredTo` | src/cpp/lib/tw/channel_or_cme_bridge/cme_route.cpp:392-455 | any response, whatever it quotes: the order is looked for under OrigClOrdID before ClOrdID, its client alone is answered, no other order's record changes, and the table changes only with the end of an order |
| `Bridge.EndedIsUnknown` | src/cpp/lib/tw/channel_or_cme_bridge/cme_route.h:177-198 | a response about an ended order is dropped and changes nothing |
| `Bridge.RunKeepsInv` | src/cpp/lib/tw/channel_or_cme_bridge/cme_route.cpp:218-340 | over every run the table holds all names of all open orders and nothing else, and the records agree with what was sent |
| `Bridge.InvStep` | src/cpp/lib/tw/channel_or_cme_bridge/cme_route.cpp:392-455 | every request and response keeps that |
| `Bridge.CmeRoute.SendNewOrder` | src/cpp/lib/tw/channel_or_cme_bridge/cme_route.cpp:218-254 | a new order is sent on under the bridge id, both ids registered |
| `Bridge.CmeRoute.SendModOrCxl` | src/cpp/lib/tw/channel_or_cme_bridge/cme_route.cpp:256-340 | a request naming a known id is sent on with the bridge id last acknowledged; an unknown one is refused |
| `Bridge.CmeRoute.RemoveOrderInfo` | src/cpp/lib/tw/channel_or_cme_bridge/cme_route.h:163-175 | the clean-up loop removes exactly the order's names |
| `Bridge.CmeRoute.OnInbound` | src/cpp/lib/tw/channel_or_cme_bridge/cme_route.cpp:392-455 | look-up, translation, the acknowledged pair, clean-up |
| `IdFactory.AllIdsDistinct` | src/cpp/lib/tw/channel_or_cme/id_factory.cpp:71-183 | for any interleaving of requests and refills until the counter wraps, all ids handed out are different texts |
| `IdFactory.QueueInOrder` | src/cpp/lib/tw/channel_or_cme/id_factory.cpp:115-183 | the ids that pass through the queue are handed out in the order in which they were drawn, oldest first |
| `IdFactory.Alphabet` | src/cpp/lib/tw/channel_or_cme/id_factory.cpp:10-52 | the digits of the texts are 0 to 9 and A to Z |
| `IdFactory.DecodeEncode` | src/cpp/lib/tw/channel_or_cme/id_factory.cpp:44-55 | the base-36 text of a number decodes to it |
| `IdFactory.EncodeInjective` | src/cpp/lib/tw/channel_or_cme/id_factory.cpp:44-55 | two texts are equal iff the numbers are |
| `IdFactory.EncodeClean` | src/cpp/lib/tw/channel_or_cme/id_factory.cpp:44-55 | no leading zero and no terminator inside a text |
| `IdFactory.EncodeLength` | src/cpp/lib/tw/channel_or_cme/id_factory.cpp:44-55 | at most k digits iff below 36 to the k |
| `IdFactory.ThirteenDigits` | src/cpp/lib/tw/channel_or_cme/id_factory.cpp:44-55 | every 64-bit number fits in 13 digits |
| `IdFactory.StepSound` | src/cpp/lib/tw/channel_or_cme/id_factory.cpp:115-183 | every step keeps the drawn numbers distinct and within the counter |
| `IdFactory.Id.Generate` | src/cpp/lib/tw/channel_or_cme/id_factory.cpp:44-55 | the digit loop stays in the 21-byte buffer and writes the base-36 text |
| `IdFactory.Id.CopyFrom` | src/cpp/lib/tw/channel_or_cme/id_factory.cpp:25-32 | copying preserves the text, self-assignment included |
| `IdFactory.Id.Clear` | src/cpp/lib/tw/channel_or_cme/id_factory.cpp:34-38 | the cleared id is terminated and reads "0" |
| `IdFactory.IdSource.GetNext` | src/cpp/lib/tw/channel_or_cme/id_factory.cpp:142-158 | the head of the queue, or the next number when it is empty |
| `IdFactory.IdSource.constructor` | src/cpp/lib/tw/channel_or_cme/id_factory.cpp:71-111 | the queue is filled with distinct numbers after the first |
| `ResendCache.ReplayIsLogged` | src/cpp/lib/tw/channel_or_cme/channel_or_onix_storage.cpp:89-108 | over an increasing log a resend request replays exactly the logged messages of its range that are among the last 10000, in order |
| `ResendCache.CallsReplayed` | src/cpp/lib/tw/channel_or_cme/channel_or_onix_storage.cpp:89-143 | over any calls, heartbeats and inbound messages among them, whose outbound messages are numbered upwards: the cache is the window of those messages and a resend request replays exactly those in its range |
| `ResendCache.CallsAreLog` | src/cpp/lib/tw/channel_or_cme/channel_or_onix_storage.cpp:110-143 | the cache after any calls is the cache of the outbound messages among them that are no heartbeats |
| `ResendCache.CacheIsWindow` | src/cpp/lib/tw/channel_or_cme/channel_or_onix_storage.cpp:110-143 | over an increasing log the cache is exactly the last 10000 (or fewer) messages |
| `ResendCache.AlwaysBounded` | src/cpp/lib/tw/channel_or_cme/channel_or_onix_storage.cpp:110-143 | for arbitrary numbers bodies are cached only for queued numbers, and both sizes stay within 10000 |
| `ResendCache.FirstBodyKept` | src/cpp/lib/tw/channel_or_cme/channel_or_onix_storage.cpp:110-143 | for arbitrary numbers, until the cache is full, the first message with a number is the one that is replayed |
| `ResendCache.CallsBounded` | src/cpp/lib/tw/channel_or_cme/channel_or_onix_storage.cpp:110-143 | after any calls both sizes stay within the limit |
| `ResendCache.OutboundCache.PersistMessage` | src/cpp/lib/tw/channel_or_cme/channel_or_onix_storage.cpp:110-143 | heartbeats and inbound messages change nothing; others are stored, the oldest making room |
| `ResendCache.OutboundCache.GetOutbound` | src/cpp/lib/tw/channel_or_cme/channel_or_onix_storage.cpp:89-108 | the replay loop returns the cached messages of the range, ascending |
| `RangeWindow.WindowOfHistory` | src/cpp/mains/channel_pf_simple_publisher/publisher.cpp:909-952 | after any trades a price has a level iff it traded since the market was last out of its range; the level's bid and ask volumes are the plain sums of the bid and of the ask volumes of exactly those trades; the levels are strictly ascending, within the range, and non-empty once a trade was seen |
| `RangeWindow.TotalIsSums` | src/cpp/mains/channel_pf_simple_publisher/publisher.cpp:935-938 | joining trades level by level gives, side by side, the sums of their volumes |
| `RangeWindow.LastTradeHasLevel` | src/cpp/mains/channel_pf_simple_publisher/publisher.cpp:909-952 | the last trade's price always has a level |
| `RangeWindow.UpdateLookup` | src/cpp/mains/channel_pf_simple_publisher/publisher.cpp:915-952 | one trade forgets exactly the levels out of its range and joins its own |
| `RangeWindow.MergeKeeps` | src/cpp/mains/channel_pf_simple_publisher/publisher.cpp:931-951 | a trade between the ends changes its own level only and keeps the order |
| `RangeWindow.RangeDeque.Trade` | src/cpp/mains/channel_pf_simple_publisher/publisher.cpp:915-952 | the deque follows that update; a breakout is reported iff the price is beyond either end of a non-empty window |
| `RangeWindow.RangeDeque.Insert` | src/cpp/mains/channel_pf_simple_publisher/publisher.cpp:931-951 | the search and insert loops |
| `TrailingStop.HighWaterMark` | src/cpp/mains/transition/TransitionImpl.h:1352-1413 | over any run of quotes the stop is one slide at the best quote seen, for longs and shorts, and never retreats |
| `TrailingStop.SlideTwice` | src/cpp/mains/transition/TransitionImpl.h:1385-1400 | two slides are one slide at the higher bid, in either order, and a slide never lowers the stop |
| `TrailingStop.SlideInSteps` | src/cpp/mains/transition/TransitionImpl.h:1385-1400 | with a profit of at least m+1 and less than m+2 steps the stop becomes the better of itself and fill plus m steps plus the payup; below one step it stays; mirrored for shorts |
| `TrailingStop.MovedStopTrails` | src/cpp/mains/transition/TransitionImpl.h:1352-1413 | a stop that moved trails the best bid by at least one and less than two steps, less the payup; mirrored for shorts on the ask |
| `TrailingStop.BestIsBest` | src/cpp/mains/transition/TransitionImpl.h:1352-1413 | the best quote of a run is attained and bounds all quotes |
| `TrailingStop.CountSteps` | src/cpp/mains/transition/TransitionImpl.h:1385-1390 | counting steps one by one computes the floor quotient, and ends if the step is positive or the first test fails |
| `TrailingStop.TerminatesIff` | src/cpp/mains/transition/TransitionImpl.h:1358-1390 | the counting loop ends iff the step is positive or its first test fails; otherwise it counts for ever |
| `TrailingStop.FillInfo.ProcessSlides` | src/cpp/mains/transition/TransitionImpl.h:1352-1413 | the counting form gives `max(stop, fill + (n-1)*step + payup)` with `n` the floor of the profit over the step if `n >= 1`, otherwise the stop unchanged; mirrored for shorts on the ask |

## Left out

- Throttle, PnL limits, quotes, session state, MySQL transactions and the exchange appear as answers given to each step, not as components of their own.
- Thread interleavings inside a handler: handlers and the persistence threads' turns are atomic steps; only the id factory's refill (drawing, queueing) and the start of the file thread (giving up the database, hand-over) are split; a shutdown's flush is one step between the file thread's.
- 32-bit overflow of quantities, counts and positions; only the modify counter's unsigned decrement and the 64-bit id counter wrap.
- Timestamps, alerts, message-bus output, commands, the stuck-order timer and the order filters of the table.
- The volume counter of the messaging stage and the copies of its counters kept on orders and fills.
- Fills whose account, strategy or side differ from their order's, and exceptions thrown by the session's send after the table entry is made.
- A request refused because the storage cannot persist: it does not reach the chain and changes nothing.
- `rebuildOrder` and `addOrderForRebuild` of the FIX channel; in the order path a rebuilt order enters table and counts and is not in the wash-trade lists, as in the code, so wash-trade runs exclude it.
- `sendCxlAll` of the bridge and the symbol fields of its records; message fields other than the ids.
- The test on a constant in the bridge's inbound handler is read as its evident intent, a response type that is not known.
- Storage.ChannelStorage.DoFlushToDb: requires what makes its loop end, a positive batch size or nothing to flush (Storage.FlushEndsIff); the methods that call it require the same of the flushes they may do.
- IdFactory.AllIdsDistinct: up to the wrap of the 64-bit counter.
- TrailingStop.FillInfo.ProcessSlides: requires what makes its loop end, a positive step or a first test that fails (TrailingStop.TerminatesIff); the remaining stop evaluations of the strategy are not part of this model.
- Gateway.OrderGateway.CheckCrossing: the list is handed to the scan as a value and written back, so iterator validity and aliasing of the list are not captured.
- The simulated-trade book that follows the range window, instrument loaders, settings parsers, price feeds and the sample programs.
