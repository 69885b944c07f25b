# krx-alpha: verified model

A Dafny 4.11 model of the parts of krx-alpha whose correctness is a matter of whole runs: the order-execution
core and its crash recovery, the host-wide pacer and token store, tick-tape certification, the shared alert
budget, duplicate suppression during connection handover, the restart circuit breaker and gap-span merging.
`dafny verify dfyconfig.toml` checks the whole project.

## What is modelled

**Order execution** (`Contracts`, `Risk`, `Accounting`, `Recovery`, `Session`, `Replay`, `Restoring`, `Invariants`,
`Reconcile`, `Matching`, `Adoption`, `Restating`, `ExactlyOnce`, `RestartedReconcile`, `Operations`, `CatchingUp`,
`Repeating`, `WorkingDays`, `RowMeanings`, `LifeCycle`, `Admission`, `GatedDays`, `HonestBroker`, `Ownership`,
`Witnesses`, `AmountWitnesses`, `Alternating`, `Guarantees`, `Assumptions`, `OrderManager`). A session is the order
manager's memory together with the records it has written. Every operation is a sequence of actions that append at most
one record each, so a crash can fall between any two records; a crash is "restore from the records in the file". A day
of recorded actions is any interleaving of enabled actions and crashes after the first session start. `OrderManager` is
the object itself, with its loops; its methods are proved equal to functions on sessions, and those functions are proved
to be runs of actions, a reconcile but for amounts it does not record. Main results: crash replay, no oversell,
conservation, adoption safety and a legal life cycle, each for every day of recorded actions.

Reconciles are also taken as they come, with any list the broker may send (`Operations`, `WorkingDays`): a working day is
any sequence of actions, reconciles, crashes between operations and crashes inside a reconcile. The second loop stores
some amounts without recording them, so memory and journal are followed side by side (`Restating`). Proved for every
working day without conditions: no oversell, conservation, one order per number and doubt, legal reconciles, client ids
used once, and the life cycle in everything but amounts (`LifeCycle`). Proved exactly when they hold:
crash replay, the ability to restart at all, that closed orders keep their amounts (`LifeCycle`), exactly-once reconcile
(`CatchingUp`, `Repeating`, at every moment of every working day in `Restarts`) and ownership of broker numbers
(`Ownership`). `Witnesses`, `AmountWitnesses` and `Alternating` hold the days on which they do not.

What single operations answer is told by the fields they read: which orders pass the gate and with which code the others
are refused (`Admission`, over whole days in `GatedDays`), which row an order in doubt is given (`Matching`), which status
and fill a row means (`RowMeanings`), what a fill costs (`Accounting`), and which journals the restore accepts and what they
mean (`Restoring`).

**Journal file** (`Journal`, `Restarts`). Bytes, line splitting, the torn-tail rule. Encoding and parsing are parameters;
the four facts used of them are the predicate `Journal.Codec`. A record whose append was interrupted is read back whole
or not at all, so "a crash between records" above is what a crash inside an append amounts to; `Restarts` joins the two:
any number of bytes of any day's file restores a moment of that day, or of the working day cut short there.

**Paper trading** (`Paper`, `PaperSolvency`). The book sweep and the gateway, and solvency of sessions built from the
order manager's own submit and reconcile.

**Host broker contract** (`Pacer`, `Tokens`). Runs are arbitrary interleavings of the steps of any number of processes.
Time is real-valued and every clock reading is an input.

**Tape certification** (`Tape`, `TapeCertification`). The page loop is proved equal to a closed form of the ticks read,
and the closed form is judged against the full tape the pages were cut from.

**Alert budget** (`Alerts`, `AlertLedger`), **handover** (`Handover`), **restart breaker** (`Supervisor`), **gap spans**
(`GapSpans`).

## Modelling choices

- A client id is its numeric suffix; the orders dictionary is a map visited in ascending id order, which is insertion
  order. Times and order-time strings are integers. The broker's three identifiers are one value, as they are always
  assigned together.
- Basis-point costs are exact rationals rounded down.
- Reservation ids, token strings and paper order numbers come from outside; freshness is stated where it is used.
- Sums over dictionaries and maxima are specified independently of order and computed by loops.

## What is assumed of the surroundings

- Accepted sends carry broker numbers not seen before; an answer other than an acceptance carries no identifiers
  (`src/brokers/kis/trading.py:303-337` builds them so). `Assumptions.AnswerMirrorsExactly` shows that crash replay
  depends on exactly this.
- Rows of a broker list have non-empty numbers, distinct within the list (`src/brokers/kis/trading.py:253-254`).
- Days of single actions (`Guarantees.Day`) contain no step that changes memory without a record. A reconcile takes such a
  step when the row of an order shows another amount for the quantity the order has: because the broker restates, or
  because the order was just given another row. Working days contain it; `Restating.MirrorsExactly` says when it happens
  and `HonestBroker.HonestDayReplays` that a broker who never restates is enough where no list offers a numbered order in
  doubt another row.
- Exactly-once reconcile assumes that each submit of the day read the clock once, so that the recorded timestamp is the
  creation time in memory. The code reads it separately for each.
- An exception out of the gateway's submit ends the session, as `src/cli/order.py:138-144` does.
- The day's first record is a session start with distinct, non-negative holdings.
- Sleeping lasts at least as long as asked. Token spacing and the pacer's backlog bound need a clock that does not step
  back; the pacer's rate bound does not.

## Findings

- The first reconcile loop looks at every UNKNOWN order, also at one that already holds a number. An order is left in
  doubt with a number when the process crashes between its adoption and its status record, and when a reconcile raises
  before the order's turn in the second loop. If the next list then shows exactly one other matching row, the order is
  given that number and its first one becomes free for another order (`Witnesses.ReadoptionIsReachable`,
  `Ownership.GivenUpIsFree`). `Ownership.ReconcileKeepsNumbersExactly` is the exact condition. Five things follow.
  - One broker fill can count for two orders: `Witnesses.FillBookedTwice` is a day on which the five shares of one row
    are booked by two orders and the position shows ten. Where every list is checked for the exact condition first, a
    number belongs to one order for good (`Ownership.OneOwnerPerNumber`).
  - The session can become impossible to restart although the broker restates nothing and no reconcile raises: the new row
    has the same quantity for another amount, the amount is stored unrecorded, and the next fill contradicts the records
    (`AmountWitnesses.UnreadableDay`). `WorkingDays.DayRestartsExactly` says exactly which days can be restarted at every
    moment, `WorkingDays.DayReplaysExactly` on which of them a restart continues the session as it is.
  - A closed order can change: if the new row closes the order for another amount and brings no fill, only the status is
    recorded, and after the next restart the closed order has the old amount (`AmountWitnesses.ClosedOrderChanges`, a day
    of an honest broker on which nothing raises). Nothing else of a closed order ever changes
    but the creation time a restart reads back (`LifeCycle.EveryListAdvances`); `LifeCycle.ClosedStayExactly` is the exact
    condition for the amount.
  - A reconcile that is cut, restored and rerun on the same list can end elsewhere than the uninterrupted one: with another
    number (`Witnesses.CutEndsElsewhere`), or with the old amount of an order the new row has closed
    (`AmountWitnesses.AmountLostDay`). Once an amount is stored unrecorded, a later list that agrees with memory in every
    amount can do the same by closing the order, or by not showing it (`AmountWitnesses.UnrecordedAmountDay`).
    `Repeating.ExactlyOnceExactly` gives the exact condition for any session of a working day.
  - Reconciling the same list again need not settle: while the row of an earlier order is over-filled, so that every
    reconcile raises, an order in doubt changes between two numbers with every call (`Alternating.NeverSettles`).
    `Repeating.IdempotentExactly` is the exact condition.
- In paper trading the filled part of an order is neither deducted nor held back until it is booked
  (`PaperSolvency.FillNotHeldBack`), so two submits without a reconcile between them can spend the same cash and leave
  it below what is held back (`PaperSolvency.SpentTwice`); `PaperSolvency.OverspentExactly` says when.
- A standby refresh that is denied a replacement leaves the primary unguarded, and it repeats what the dropped standby
  had let through: `Handovers.DeniedRefreshDuplicates` is such a run, `Handovers.DeniedRefreshExactly` the exact condition
  over runs. The handover object would also repeat payloads if a
  refresh were carried out after its standby was promoted (`Handovers.LateRefreshDuplicates`); the receive loop in
  `src/realtime/streamer.py:352-388` steps before it promotes.
- The docstring of `walk_symbol_tape` calls delivery chronological. Each day's ticks are. Of two days the older is
  delivered first if and only if one page certified both; a later page only certifies older days (`Tape.PageDone`,
  `Tape.LaterIsOlder`).
- The edge-day removals at the end of the tape never remove anything: the oldest day read is never certified
  (`Tape.EdgeIsOpen`).

## Model

| member | source | states |
|---|---|---|
| Guarantees.CrashReplay | src/execution/recovery.py:78-171 | For every day of recorded actions and every non-empty durable prefix of its journal, the restore succeeds and continues the session that lived at that moment: same visible orders (an unanswered send becomes UNKNOWN), same ledger, a sequence number above every recorded id |
| WorkingDays.DayReplaysExactly | src/execution/recovery.py:78-171 | On every working day, whatever lists the broker sends: a restart continues the session as it is between any two operations if and only if no list shows an order the reconcile comes to another amount for the quantity it has, counting the row it was just given |
| WorkingDays.DayRestartsExactly | src/execution/recovery.py:149-155 | On every working day: there can be a restart between any two operations if and only if every fill a list brings goes on top of an amount that is on record |
| WorkingDays.StandingDayRuns | src/execution/oms.py:274-391 | A working day on which every list stands is a day of enabled actions and crashes, so all that is proved of those holds at each of its records |
| WorkingDays.EveryListSafe | src/execution/oms.py:274-391 | On every working day, whatever the lists: open sells are held, worth is constant, positions are the morning's plus the fills, no two orders share a number or a doubt |
| WorkingDays.EveryListLegal | src/execution/oms.py:332-376 | On no working day does a reconcile of any list raise an illegal transition or reach the oversell branch |
| HonestBroker.HonestDayReplays | src/execution/oms.py:373-374 | If no two lists show one number and quantity at two amounts, unfilled rows cost nothing and no list offers a numbered order in doubt exactly one unclaimed row, a restart continues the session between any two operations |
| AmountWitnesses.UnreadableDay | src/execution/oms.py:373-374 | A working day of an honest broker on which nothing raises and after which the restore refuses the journal |
| LifeCycle.IdsNeverReused | src/execution/recovery.py:81-91 | At every moment of every working day an id that reached the journal is at most the live sequence number, and at most the restored one if there is a restart, so it is never given out again |
| Guarantees.IdsNeverReused | src/execution/recovery.py:81-91 | The same for every day of recorded actions, on which there is always a restart |
| Guarantees.NeverOversold | src/execution/risk.py:87-88 | At every moment of every day the remaining quantity of all open sells of a symbol is held |
| Guarantees.DayConserves | src/execution/ledger.py:40-68 | Cash plus position cost minus realized profit is constant over every day; each position is the morning's plus buys minus sells of the orders; nothing is negative |
| Guarantees.AdoptionSafe | src/execution/oms.py:285-331 | At every moment no two orders hold one broker number, and two orders in doubt never share a candidate row |
| LifeCycle.EveryListAdvances | src/execution/oms.py:274-391 | Between any two moments of every working day, whatever the lists and crashes: orders keep id and intent and move along allowed transitions, fills grow and stay within the order, and a closed order changes in nothing but its amount and the creation time a restart reads back |
| LifeCycle.ClosedStayExactly | src/execution/oms.py:373-390 | On every working day: every restart, between operations or inside a reconcile, leaves closed orders as they were if and only if no list closes an order, without bringing it a fill, at another amount than the recorded one, counting the orders before which no fill went on top of an unrecorded amount |
| LifeCycle.ClosedNeverChange | src/execution/oms.py:332-390 | Under that condition a closed order keeps status, fill, amount and number from any moment of the working day to any later one |
| AmountWitnesses.ClosedOrderChanges | src/execution/oms.py:373-390 | A working day of an honest broker on which nothing raises, an order is closed at 505, and after a restart the closed order has 500 |
| Guarantees.OrdersOnlyAdvance | src/execution/oms.py:332-390 | Between any two moments of a day of recorded actions orders move along allowed transitions, fills and amounts grow, fills stay within the order, and a closed order never changes |
| LifeCycle.FillsFitStatus | src/execution/contracts.py:189-232 | At every moment of every working day a partially filled order has a fill, an unanswered one has none, and every fill is within the order and under a number |
| RowMeanings.StatusByFields | src/execution/contracts.py:219-232 | If a reconcile gets through an open order's turn and the list has a row of its number, the order has the row's fill and amount, and it is FILLED if and only if the row is filled to its ordered quantity, REJECTED if and only if it is not, nothing is filled, some is rejected and neither it nor a row naming it shows a cancel, CANCELLED if and only if it is not full, is cancelled, amended, rejected or has nothing remaining, and is not REJECTED, PARTIALLY_FILLED or ACCEPTED otherwise by its fill; all other orders of such turns stay as the first loop left them |
| RowMeanings.RaisesByFields | src/execution/oms.py:336-376 | A reconcile raises if and only if the row of some open order runs backwards, exceeds the order or itself, or shows more shares for less money |
| RowMeanings.FilledIsFull | src/execution/oms.py:332-390 | On every working day whose rows carry their orders' quantities: a filled order has its whole quantity and any other closed order less; without a crash inside a reconcile an order is filled if and only if it has its whole quantity |
| Guarantees.FillsFitStatus | src/execution/contracts.py:189-232 | The same for every day of recorded actions |
| Guarantees.NumbersStayExactly | src/execution/oms.py:285-331 | Orders keep their numbers from every moment of a day to every later one if and only if no adoption of the day replaces a number |
| Guarantees.OneOwnerPerNumber | src/execution/oms.py:285-331 | On a day on which no adoption replaces a number, a broker number held by one order now and another later means they are the same order |
| Ownership.OneOwnerPerNumber | src/execution/oms.py:285-331 | On a working day, each list checked beforehand to offer no numbered order in doubt exactly one unclaimed row, an order that ever holds another's number is that order |
| Ownership.ReconcileKeepsNumbersExactly | src/execution/oms.py:274-391 | A whole reconcile leaves every number with its order if and only if no numbered order in doubt has exactly one unclaimed row |
| Ownership.GivenUpIsFree | src/execution/oms.py:304-308 | A number that is replaced is held by no order after the reconcile |
| Witnesses.ReadoptionIsReachable | src/execution/oms.py:286-316 | A day ending in a crash after which an order in doubt that holds a number has exactly one unclaimed row |
| Witnesses.FillBookedTwice | src/execution/oms.py:286-376 | A day on which two orders book the same five shares of one broker row and the position goes from five to ten |
| Guarantees.ReconcileNeverIllegal | src/execution/oms.py:332-376 | On no day does a reconcile of any broker list raise an illegal transition or reach the oversell branch |
| CatchingUp.CutRestoreReconcile | src/execution/oms.py:274-391 | For any session whose journal can be read: if the list is repeatable, its fills go on top of recorded amounts, it shows unrecorded amounts again and closes no order without a fill at another amount than the recorded one, a reconcile cut after any of its records, restored and rerun on the same list ends with the orders, ledger and error of the uninterrupted one |
| CatchingUp.AmountIsLost | src/execution/oms.py:373-390 | If an order is closed, without a fill, at another amount than the recorded one, a restart after the last record and a rerun end with the recorded amount |
| CatchingUp.AmountLags | src/execution/oms.py:373-390 | If an unrecorded amount is not shown again, a restart before the first record and a rerun end elsewhere |
| Repeating.ExactlyOnceExactly | src/execution/oms.py:274-391 | For any list and any session a working day can reach, unrecorded amounts included: every cut of the reconcile ends where the uninterrupted one ends if and only if the journal can be read, no order in doubt with at most one unclaimed row matches a row whose number is about to be given up, every fill goes on top of a recorded amount, every unrecorded amount is shown again, and no order is closed without a fill at another amount than the recorded one |
| Restarts.WorkingExactlyOnce | src/execution/oms.py:274-391 | The same equivalence for any list at every moment of every working day whose submits read the clock once |
| Restarts.WorkingOneClock | src/execution/oms.py:162-165 | On such a working day every intent record carries the creation time its order has in memory, as long as the journal can be read |
| Restarts.DayExactlyOnce | src/execution/oms.py:274-391 | On days of recorded actions whose submits read the clock once, the equivalence with two conditions: the list is repeatable and closes no order without a fill at another amount |
| Restarts.DayOneClock | src/execution/oms.py:162-165 | On such a day every intent record carries the creation time its order has in memory, crashes included |
| Witnesses.CutEndsElsewhere | src/execution/oms.py:286-316 | A day, a list and a cut after which the restored and rerun reconcile ends with another number |
| AmountWitnesses.AmountLostDay | src/execution/oms.py:373-390 | A working day and a repeatable list after whose last record the restored and rerun reconcile ends with another amount |
| AmountWitnesses.UnrecordedAmountDay | src/execution/oms.py:373-390 | A working day after which memory and record differ in an amount; a list that agrees with memory and closes the order, and an empty list, each with a cut after which the rerun ends with another amount |
| Repeating.IdempotentExactly | src/execution/oms.py:274-391 | For any list: a second reconcile, after one that ended or raised, changes neither orders nor ledger and ends or raises the same way if and only if no order then in doubt has exactly one unclaimed row |
| Alternating.NeverSettles | src/execution/oms.py:286-346 | A working day without a crash after which every further reconcile of one list raises and moves an order in doubt to the number it does not hold |
| Repeating.ReconcileIdempotent | src/execution/oms.py:274-391 | So it is after every reconcile of a repeatable list, raising or not |
| RestartedReconcile.FindCut | src/execution/oms.py:304-390 | For any list: every journal prefix that ends inside a reconcile is the journal of one of its intermediate states; that state is lawful, and what the records describe there is reached by a run of enabled actions |
| ExactlyOnce.ReconcileAgain | src/execution/oms.py:274-391 | For any repeatable list, reconciling again from the memory of any intermediate state ends where the uninterrupted reconcile ends |
| Invariants.RunInv | src/execution/oms.py:101-391 | Every run of actions and crashes keeps the whole invariant: order shape, journal mirrors memory, one order in doubt per key, distinct numbers, positions and worth |
| Invariants.ActionInv | src/execution/oms.py:101-391 | Each single action keeps the whole invariant |
| Invariants.CrashInv | src/execution/recovery.py:78-204 | Restoring from the journal succeeds at every reachable state, continues it and keeps the whole invariant |
| Invariants.BookSucceeds | src/execution/oms.py:356-374 | A fill within the order is always accepted by the ledger |
| Invariants.SellCovered | src/execution/ledger.py:54-56 | What an open sell order may still sell is held |
| Replay.RestoreContinues | src/execution/recovery.py:94-171 | If the journal mirrors memory, the restored session is the live one up to the changes a restart makes |
| Replay.RecordKeeps | src/execution/recovery.py:95-166 | A record whose replay makes the same change as memory keeps the mirror |
| Replay.RecordedIdsBounded | src/execution/recovery.py:84-90 | No recorded id exceeds the recovered sequence number |
| Restoring.JournalMeans | src/execution/recovery.py:94-166 | For any records: the restore accepts them if and only if each fits those before it (intents new, events after their intent, fills consecutive and within the order, statuses naming the fill so far), and otherwise names what is wrong with the first that does not; accepted, each intended order has its intent record's intent and time, its last fill, and the status, number and verdict of the last records that say so |
| Restoring.HoldingsMean | src/execution/recovery.py:174-190 | Holdings are taken over if and only if none is negative and no symbol is named twice, each as the position of its symbol |
| Restoring.FirstStartMeans | src/execution/recovery.py:174-190 | The day's holdings are those of the first session start |
| Restoring.NextSeqMeans | src/execution/recovery.py:84-90 | The sequence number goes on from the highest recorded id |
| Recovery.RestoreSession | src/execution/recovery.py:78-171 | The two restore loops compute the replay fold, errors included; in paper mode they restore no order and no ledger |
| Recovery.SettleAll | src/execution/recovery.py:167-169 | Unanswered sends become UNKNOWN and nothing else changes |
| Recovery.RebuildLedger | src/execution/recovery.py:174-204 | The ledger loop equals folding all recorded fills over the first session start's holdings, with its errors |
| Guarantees.LegalMoves | src/execution/contracts.py:189-216 | A move is legal if and only if it goes to a later stage, a partly filled order is not rejected and an order being submitted moves only by its answer |
| Contracts.DerivedMoveIsLegal | src/execution/contracts.py:189-232 | Deriving a status from a later cumulative row is always a legal move and fits the fill |
| Accounting.CostsAreBasisPoints | src/execution/ledger.py:15-19 | Commission and tax are the whole number of won in amount times rate over ten thousand, rounded down |
| Accounting.FillConserves | src/execution/ledger.py:40-68 | One fill keeps cash + cost - profit, moves exactly its symbol's quantity, and keeps costs non-negative |
| Accounting.RemovedShare | src/execution/ledger.py:59-61 | The cost removed is the share rounded down; it is everything if and only if the whole position is sold or it cost nothing |
| Accounting.RoundingDrift | src/execution/ledger.py:57-61 | After n partial sells 0 <= Cn*Q0 - C0*Qn < n*Q0 |
| Accounting.LedgerDrift | src/execution/ledger.py:40-68 | The same bound for any run of sells a ledger accepts |
| Accounting.Ledger.Fill | src/execution/ledger.py:40-68 | Raises, changing nothing, if and only if the quantity is not positive, the amount negative or more is sold than held; a buy takes amount and commission out of the cash and into the cost; a sell brings amount less commission and tax, and its profit is that less the position's cost share, rounded down |
| Adoption.LoopDecidesAtOnce | src/execution/oms.py:286-331 | The adoption loop equals deciding every order from the state before the loop: no order's adoption depends on another's |
| Matching.AdoptsByFields | src/execution/oms.py:286-316 | After the adoption loop an order was given another number if and only if it was UNKNOWN and exactly one row of the list is an original order of its symbol, side and quantity, at its limit price (0 for a market order), not earlier than five seconds before its creation, under a number no order held before and no earlier order was given; number, office and time are that row's and nothing else changes |
| Adoption.NumbersKeptExactly | src/execution/oms.py:286-316 | The loop keeps the numbers orders hold if and only if no numbered order in doubt has exactly one unclaimed candidate |
| Adoption.AbandonedNumberIsFree | src/execution/oms.py:304-308 | Once the turn of an order that is given another number has passed, no order holds its first one |
| Assumptions.MirrorKeptExactly | src/execution/oms.py:373-374 | A turn of the second loop keeps the journal a mirror of memory if and only if the row of the order's number does not show another amount for its quantity |
| Restating.MirrorsExactly | src/execution/oms.py:274-391 | After a reconcile of any list, raising or not, the journal mirrors memory, and a restart continues it, if and only if no order the second loop comes to is shown another amount for its quantity after the first loop |
| Restating.QuietMirrorsExactly | src/execution/oms.py:274-391 | The same for a reconcile that raises nothing, over all orders |
| Restating.AmountsStandAfterAdoption | src/execution/oms.py:286-316 | A list that restates no order's amount, shows unfilled rows at nothing and offers no numbered order in doubt another row moves amounts only with quantities, also after the first loop |
| Restating.SyncDecidesAtOnce | src/execution/oms.py:332-390 | The second loop equals deciding every order from the state before it, up to the first order whose row cannot be read, and raises exactly there |
| Operations.ReconcileKept | src/execution/oms.py:356-374 | Whatever the list, a readable journal can still be read after the reconcile if and only if every fill goes on top of an amount that is on record |
| Assumptions.RestatedAmountRefused | src/execution/recovery.py:149-155 | After an unrecorded restatement the order's next fill makes the restore fail |
| Assumptions.AnswerMirrorsExactly | src/execution/recovery.py:116-128 | A send's answer keeps the mirror if and only if an answer that is not an acceptance carries no identifiers |
| Reconciling.SyncRaises | src/execution/oms.py:332-376 | Where sells are covered, one order's turn never raises an illegal transition or an oversell |
| Restating.ReconcileRunsAside | src/execution/oms.py:274-391 | A reconcile of any list is a run of enabled actions to a session that differs from its result at most in amounts, and the journal mirrors that session |
| Admission.GateExactly | src/execution/risk.py:37-90 | An order passes the gate if and only if the kill switch is off, submits are not blocked, no order of its symbol and side is UNKNOWN, the symbol is allowed, the quantity is positive, the price fits tick table and band, trading is not halted, fewer than the limit were sent in the last minute, and notional, loss, position, cash and cover bounds hold on the session's own fields; otherwise the code names the first rule that is broken |
| Risk.ChecksInOrder | src/execution/risk.py:48-90 | The check answers with the first rule, in the order of the codes, that is broken, and with none if none is |
| GatedDays.SubmitIsGated | src/execution/oms.py:101-165 | A submit that passes the gate with one clock places its order as such a day asks |
| GatedDays.GateHolds | src/execution/oms.py:101-165 | At every moment of a working day on which every order passed the gate with one clock: no recorded order is from a time at which the kill switch was on, and any sixty seconds hold at most the limit of them, restarts included |
| Admission.GateAdmits | src/execution/oms.py:117-141 | Passing the gate makes placing the order an enabled action |
| OrderManagement.SubmitRuns | src/execution/oms.py:101-206 | A submit, answered or not, is a run of enabled actions |
| OrderManagement.ResolveRuns | src/execution/oms.py:223-243 | An operator's resolve is a run of enabled actions |
| OrderManagement.TouchedIsChanged | src/execution/oms.py:377-390 | The orders a reconcile reports changed by a turn are exactly those with a status record |
| OrderManagement.OrderManager.Submit | src/execution/oms.py:101-206 | An admissible order is recorded, sent and recorded as answered: accepted under the broker's identifiers, rejected by the broker, or unknown; any other is recorded as refused with the first rule it breaks; nothing else changes, and a closed session raises |
| OrderManagement.OrderManager.Cancel | src/execution/oms.py:208-221 | An unknown order raises, a closed one is returned as it is, one without a number raises, any other has the request and its answer recorded; no order changes |
| OrderManagement.OrderManager.ReconcileOrders | src/execution/oms.py:274-391 | Both loops together equal the specified reconcile and report exactly the changed orders |
| OrderManagement.OrderManager.AdoptOrders | src/execution/oms.py:285-331 | The first loop equals the specified adoption, and gives each order the row the list's fields say |
| OrderManagement.OrderManager.SyncOrders | src/execution/oms.py:332-391 | The second loop equals the specified sync and stops at the first error |
| OrderManagement.OrderManager.ResolveUnknown | src/execution/oms.py:223-243 | Reconciles, refuses a matched order and otherwise retires it as rejected by the operator; only an UNKNOWN order without a number is retired |
| OrderManagement.Assemble | src/execution/service.py:116-170 | A new process continues from the restored day and records its session start |
| Journal.CrashedAppend | src/execution/journal.py:42-89 | However much of a line reached the disk, reading gives the records before it or those and the record, the latter exactly when its text is whole; the day is torn exactly when part of a line is there |
| Restarts.EveryCutReads | src/execution/journal.py:42-89 | Any number of bytes of a day's file reads as exactly the records whose text is whole, and is torn exactly when it does not end with a whole line |
| Restarts.EveryByteRestarts | src/execution/journal.py:42-89 | Cut after any number of bytes, the file of any working day reads as a prefix of its records; it restarts if and only if they can be read, as the last moment of the working day cut short there, and always if every fill went on top of a recorded amount |
| Restarts.EveryRecordRestarts | src/execution/recovery.py:78-171 | The same for every prefix of the records |
| Restarts.EveryCutRestores | src/execution/journal.py:42-89 | Cut after any number of bytes, the file of any day of recorded actions reads as the journal of some moment of it, and the restore succeeds and continues the session of that moment |
| Journal.WholeFile | src/execution/journal.py:62-89 | A file of whole appends reads back as its records of the journal's mode |
| Journal.LinesJoin | src/execution/journal.py:70 | Splitting cuts any file into lines without newlines or returns, followed by breaks that are a newline, a return or both; together they are the file |
| Journal.ScanMeans | src/execution/journal.py:70-89 | Any file is refused if and only if a line that is not blank holds no object, a last unparsable line excepted, and for the first such line; otherwise its records are those of the mode in file order, and it is torn if and only if the last line cannot be parsed |
| Journal.OrderJournal.Append | src/execution/journal.py:42-60 | Fails exactly on a day found torn; otherwise the record becomes the last line |
| Journal.OrderJournal.ReadDay | src/execution/journal.py:62-89 | Equals the line scan, with its errors, and marks the day torn exactly as specified |
| PaperTrading.SimulatePaperFills | src/execution/gateways.py:48-67 | The loop equals the sweep of the levels |
| PaperTrading.SweepByLevels | src/execution/gateways.py:48-67 | From each level, best first, an order takes what the better ones have left of it, at that level's price, up to the first price beyond its limit |
| PaperTrading.SweepTakes | src/execution/gateways.py:48-67 | A sweep takes the smaller of the order and what is on offer within reach |
| PaperTrading.SweepPays | src/execution/gateways.py:48-67 | It pays no more per share than any bound on the prices within reach |
| PaperTrading.PaperGateway.Submit | src/execution/gateways.py:91-115 | Accepts under the next number and enters the simulated fill and the reserve price |
| PaperTrading.PaperGateway.Cancel | src/execution/gateways.py:117-138 | An order not in the book raises; a fully filled one is left alone; any other is marked cancelled |
| PaperTrading.PaperGateway.FetchStatuses | src/execution/gateways.py:140-161 | One row per order in order of submission, showing what was ordered, filled and cancelled, with nothing remaining of a cancelled one |
| PaperTrading.PaperGateway.OrderableCash | src/execution/gateways.py:163-169 | Cash less what is held back for open, uncancelled buys |
| PaperSolvency.PaperStaysSolvent | src/execution/gateways.py:91-169 | Whatever the events, provided quotes are fair books and a reconcile lies between any two submits: cash less reserves covers every unbooked fill and is never negative, and the next reconcile raises nothing |
| PaperSolvency.ReconcileQuiet | src/execution/oms.py:332-376 | A reconcile of a paper session against its own book never raises |
| PaperSolvency.ReconcileNets | src/execution/oms.py:356-374 | It takes out of the cash exactly what the unbooked buys cost less what the unbooked sells bring |
| PaperSolvency.ReconcileKeeps | src/execution/oms.py:332-376 | Reconciling never lowers cash less what is owed, and without an error nothing is owed afterwards |
| PaperSolvency.BuyCosts | src/execution/risk.py:77-86 | Paying the fill and holding back the rest costs at most the notional and commission the gate checked |
| PaperSolvency.FillNotHeldBack | src/execution/gateways.py:163-169 | A submit lowers orderable cash only by the open part |
| PaperSolvency.OverspentExactly | src/execution/gateways.py:163-169 | At every moment of every paper session with fair quotes, whether anybody reconciles or not, buys and sells mixed: a reconcile leaves cash below what is held back if and only if the unbooked fills take out more than was orderable |
| PaperSolvency.SpentTwice | src/execution/gateways.py:91-115 | Two fully filled orders pass the gate on cash for one, and the reconcile after them leaves cash below what is held back |
| Pacer.SlotsSpaced | deploy/shared/host_broker_contract.py:598-618 | Consecutive bookings are an interval apart for any clocks |
| Pacer.BookingByFields | deploy/shared/host_broker_contract.py:598-618 | A caller is denied if and only if the next free slot is further ahead than its lead; served, it gets that slot or the present and wakes exactly at it; denied, it waits until the slot is within its lead, but at least an interval |
| Pacer.RateBound | deploy/shared/host_broker_contract.py:598-618 | Any window of length W holds at most floor(W/interval)+1 slots, for every interleaving and every clock |
| Pacer.BacklogBound | deploy/shared/host_broker_contract.py:606-614 | With a monotone clock, from any file: k unlimited bookings among limited ones leave a backlog of at most k intervals more than the larger of the limit plus one interval and the backlog found at first |
| Pacer.BacklogReached | deploy/shared/host_broker_contract.py:606-614 | Runs that reach the bound exactly |
| Pacer.FirstRetryServed | deploy/shared/host_broker_contract.py:609-611 | A denied caller that sleeps as told and has no competitor is served on its first retry |
| Pacer.HostPacer.Book | deploy/shared/host_broker_contract.py:598-618 | The file moves as the booking function says |
| Pacer.HostPacer.Acquire | deploy/shared/host_broker_contract.py:733-747 | Alone, it tries once if the slot is within its lead and twice otherwise, takes exactly one slot, and wakes at it if its last sleep is exact |
| Tokens.GenerationsCount | deploy/shared/host_broker_contract.py:264-274 | In every interleaving the n-th publish carries the first generation plus n and the file holds the latest |
| Tokens.ChainRun | deploy/shared/host_broker_contract.py:541-578 | Every publish was decided on the record published just before it; one process at most is past the lock |
| Tokens.OneReplacement | deploy/shared/host_broker_contract.py:563-578 | All callers reporting one rejected token publish at most one replacement while replacements are fresh and usable |
| Tokens.SecondReplacement | deploy/shared/host_broker_contract.py:563-578 | A second replacement happens only after the record before it stopped being usable |
| Tokens.EveryPublishNeeded | deploy/shared/host_broker_contract.py:264-281 | In every interleaving each published record carries a token issued to the same process, the reading of its publish and that reading plus the granted time, and the process had read, under the lock, no record it could keep: none good for longer than the margin, or younger than the allowed age if it has no expiry, or only the rejected token |
| Tokens.CallRuns | deploy/shared/host_broker_contract.py:541-578 | A call of the store is a run of the protocol, ending at once if its first look finds a good record |
| Tokens.IssuesSpaced | deploy/shared/host_broker_contract.py:528-539 | Every issue attempt of a throttled vendor is stamped and stamps are pairwise an interval apart |
| Tokens.TokenStore.GuardBeforeIssue | deploy/shared/host_broker_contract.py:528-539 | Refuses if and only if the last issue was less than an interval ago and waiting for the rest is not wanted or would exceed the lock timeout; otherwise stamps |
| Tokens.TokenStore.GetOrIssue | deploy/shared/host_broker_contract.py:541-561 | A record good for longer than the margin at the first look or under the lock is returned and nothing is touched; otherwise the call is held back, fails, or publishes the issued token with its expiry |
| Tokens.TokenStore.ReplaceRejected | deploy/shared/host_broker_contract.py:563-578 | A good record of another token is returned and nothing is touched; otherwise the call is held back, fails, or publishes the issued token with its expiry |
| Tape.WalkSymbolTape | src/marketdata/kiwoom_ticks.py:241-337 | The page loop ends as specified, reports the closed form of what it read, and has delivered each emitted day once, the days of a page ascending and pages in turn, errors included |
| Tape.PageDone | src/marketdata/kiwoom_ticks.py:289-293 | Each page keeps the order of the deliveries: of two days the first is older if and only if one page certified both; otherwise an earlier page certified it and it is newer |
| Tape.LaterIsOlder | src/marketdata/kiwoom_ticks.py:252-253 | A day certified by a later page is older than every day certified before |
| Tape.ReadTicks | src/marketdata/kiwoom_ticks.py:279-288 | Takes in a page if and only if the tape stays newest first |
| Tape.EmitDays | src/marketdata/kiwoom_ticks.py:289-293 | Hands over exactly the finished days, ascending, and drops them |
| Tape.Certify | src/marketdata/kiwoom_ticks.py:310-318 | Computes the complete and the bracketed empty days |
| Tape.EdgeIsOpen | src/marketdata/kiwoom_ticks.py:320-324 | The oldest day read is certified neither way |
| TapeCertification.CertifiedAgainstTape | src/marketdata/kiwoom_ticks.py:271-337 | Against the full tape: complete days are whole and chronological, bracketed empty days are empty, no day is called two things |
| TapeCertification.DeliveredAgainstTape | src/marketdata/kiwoom_ticks.py:289-293 | Delivered days are whole, chronological and delivered once |
| TapeCertification.CrossedResolves | src/marketdata/kiwoom_ticks.py:300-302 | After a crossed walk exactly the wanted days not newer than the newest tick are resolved |
| TapeCertification.StreamingAgrees | src/marketdata/kiwoom_ticks.py:289-318 | Without a cap, streaming emits exactly the days and ticks buffering completes and agrees on all else |
| TapeCertification.WalkEnds | src/marketdata/kiwoom_ticks.py:271-307 | What each termination says about the pages taken in |
| TapeCertification.NewestFirstByFields | src/marketdata/kiwoom_ticks.py:279-283 | Ticks are newest first if and only if none is of a later day than the one before it, or later on the same day |
| TapeCertification.NeverOutOfOrder | src/marketdata/kiwoom_ticks.py:281-283 | Pages cut from a newest-first tape never raise the order error |
| Alerts.BudgetsHold | src/core/alerts.py:112-189 | On every day count = confirmed + pending within the key's cap, the total is the sum and within the daily cap, repeats leave the reserve |
| Alerts.SendsCooldown | src/core/alerts.py:178-189 | Confirmed sends of one key are pairwise at least a cooldown apart |
| Alerts.SavedStatesLoad | src/core/alerts.py:276-307 | Every reachable state passes load validation and loads as saved |
| Alerts.LoadedConsistent | src/core/alerts.py:276-307 | Whatever passes validation loads as a consistent state |
| Alerts.StepSound | src/core/alerts.py:112-189 | Each reserve, commit, release or reap keeps consistency, limits and spacing |
| Alerts.DecidesRightly | src/core/alerts.py:178-189 | A slot is granted if and only if day, key, repeat reserve and cooldown allow it; otherwise the first of the four reasons is given |
| AlertLedger.RefreshKey | src/core/alerts.py:112-121 | Recomputes count, last time and total from reservations and confirmations |
| AlertLedger.FinishReservation | src/core/alerts.py:123-135 | Ends exactly the named reservation of that key |
| AlertLedger.ReapAbandoned | src/core/alerts.py:161-175 | Gives back exactly the slots of dead owners, as a run of reap events |
| AlertLedger.CheckLoaded | src/core/alerts.py:290-303 | Accepts a file if and only if it is loadable |
| AlertLedger.FileAlertLedger.Reserve | src/core/alerts.py:324-338 | Loads, rolls the day, reaps, and grants a slot if and only if nothing forbids it; the file then holds the reservation, and with an id not used that day stays where one run of all calls leads |
| AlertLedger.FileAlertLedger.Finish | src/core/alerts.py:349-358 | Confirms or releases one reservation of the same day, as one more event of that run, and otherwise changes nothing |
| AlertLedger.FollowsSound | src/core/alerts.py:276-358 | After any sequence of calls the file passes its own checks, loads as saved and keeps every limit, and confirmed sends of one key are a cooldown apart |
| Handovers.OneOwner | src/realtime/connection_handover.py:231-287 | Between two clearings every payload is let through at least once and all copies let through come from one connection, refreshes with a replacement included |
| Handovers.FlagsTell | src/realtime/connection_handover.py:165-380 | After any events there is a standby if and only if one was adopted and since then neither refreshed, lost, promoted nor closed; likewise for connections being opened and refreshes under way |
| Handovers.DeniedRefreshExactly | src/realtime/connection_handover.py:257-267 | After any run, a refresh denied a replacement and any deliveries of the primary: all copies of each payload let through come from one connection if and only if the primary delivers nothing the dropped standby had let through |
| Handovers.DeniedRefreshDuplicates | src/realtime/connection_handover.py:257-267 | The run in which both copies of a payload are let through |
| Handovers.LateRefreshDuplicates | src/realtime/connection_handover.py:257-287 | A sequence of steps in which a late refresh lets one payload through from two connections |
| Handovers.Handover.Admit | src/realtime/connection_handover.py:231-255 | Lets a frame through exactly when specified, records it and counts drops |
| Handovers.Handover.DoRefresh | src/realtime/connection_handover.py:259-267 | Drops the standby but keeps what it recorded |
| Handovers.Handover.FinishOpening | src/realtime/connection_handover.py:268-287 | Adopts under a new token; clears unless a refresh is under way |
| Supervisor.WindowBound | src/orchestration/supervisor.py:55-82 | In every run of admitted attempts those within one window exceed the budget by fewer than window/probe base |
| Supervisor.QuietWindowCloses | src/orchestration/supervisor.py:55-62 | A window without attempts closes the breaker |
| Supervisor.BeyondBudget | src/orchestration/supervisor.py:64-72 | Beyond the budget each attempt follows the one before by at least the base interval |
| Supervisor.SpacingDoubles | src/orchestration/supervisor.py:64-72 | The gap before a probe is the base interval right after the budget is spent and doubles with every further attempt in the window, up to the ceiling |
| Supervisor.AllowsByFields | src/orchestration/supervisor.py:55-72 | With n attempts in the window a restart is allowed if and only if n is below the budget, a probe if and only if it is not and the gap for n has passed since the last attempt |
| Supervisor.RestartCircuitBreaker.Prune | src/orchestration/supervisor.py:55-57 | Keeps exactly the attempts inside the window |
| Supervisor.RestartCircuitBreaker.AllowProbe | src/orchestration/supervisor.py:64-72 | Answers as the full history says |
| Supervisor.ProcessSupervisor.EnsureRunning | src/orchestration/supervisor.py:138-174 | Its restarts are exactly the admitted ones, so its history satisfies the window bound; the look at the breaker enters the alert latch |
| Supervisor.ProcessSupervisor.TakeCircuitAlert | src/orchestration/supervisor.py:176-191 | Takes the alert exactly if it is the first to ask since the breaker was last seen closed |
| Supervisor.OncePerEpisode | src/orchestration/supervisor.py:176-191 | Between two alerts the breaker was seen closed |
| Supervisor.EpisodeAlerts | src/orchestration/supervisor.py:176-191 | Whoever asks while the breaker is open takes the alert or follows one since which it was never seen closed |
| Supervisor.OpenSince | src/orchestration/supervisor.py:74-77 | A breaker that is open was open ever since its last attempt, so what is not seen between looks is no interruption |
| GapSpans.ClipMergeSpans | src/orchestration/eod.py:193-214 | Spans are sorted and separated, cover exactly the gaps' part of the session, and the total counts the nanoseconds covered |
| GapSpans.SplitSilentLoss | src/orchestration/eod.py:217-235 | Splits the spans by overlap with regular-session intervals; the two parts add up to the total |
| GapSpans.OverlapsByFields | src/orchestration/eod.py:217-235 | A span counts as loss if and only if some regular-session interval lies neither wholly before nor wholly after it |
| GapSpans.TotalCounts | src/orchestration/eod.py:213-214 | The total length of separated spans is the number of nanoseconds they cover |
| GapSpans.Merge | src/orchestration/eod.py:206-212 | Merging keeps the coverage and leaves the spans strictly apart |

## Left out

- Reject texts, latency figures, log lines and `await_terminal` of the order manager.
- The position-parity loop and account checks of `src/execution/service.py`; only the session it starts is modelled.
- Parsing of journal fields: malformed timestamps, identifiers and numbers; fills and statuses that do not fit are modelled.
- OrderManagement.Assemble: requires distinct, non-negative holdings, because the restore refuses a session start without them; the position-parity loop before the session start, and the block it may put on the session, are not modelled.
- Guarantees.IdsNeverReused: covers days of recorded actions; working days are covered by `LifeCycle.IdsNeverReused`.
- Guarantees.FillsFitStatus: covers days of recorded actions; working days are covered by `LifeCycle.FillsFitStatus`.
- Guarantees.OrdersOnlyAdvance: covers days of recorded actions; on working days a closed order's amount can change (see Findings), which `LifeCycle.EveryListAdvances` and `LifeCycle.ClosedStayExactly` cover.
- Restarts.EveryCutRestores: covers days of recorded actions; working days are covered by `Restarts.EveryByteRestarts`.
- Guarantees.CrashReplay: covers days of actions that record what they change; amounts that a reconcile stores unrecorded are covered by `WorkingDays.DayReplaysExactly` and `WorkingDays.DayRestartsExactly`.
- OrderManagement.ResolveRuns: needs a list that shows no order another amount for its quantity; for other lists its reconcile is `Restating.ReconcileRunsAside`.
- Guarantees.OneOwnerPerNumber: needs that no adoption replaces a number, because the code allows it (see Findings); `Ownership.OneOwnerPerNumber` puts this as a check on each list.
- CatchingUp.CutRestoreReconcile: needs the conditions that `Repeating.ExactlyOnceExactly` shows to be exact, and one clock reading per submit, because adoption compares order times with the creation time and a restart reads that back from the record.
- Repeating.ExactlyOnceExactly: needs one clock reading per submit, for the same reason.
- Restarts.WorkingExactlyOnce: needs one clock reading per submit, for the same reason.
- Restarts.DayExactlyOnce: needs one clock reading per submit, and covers days of recorded actions; working days are covered by `Restarts.WorkingExactlyOnce`.
- PaperSolvency.PaperStaysSolvent: needs a reconcile between any two submits, because of what `PaperSolvency.SpentTwice` shows, and covers one session; a restarted paper session begins with an empty book and no orders.
- The live gateway, quotes and broker clients: the broker is an arbitrary supplier of rows.
- The asynchronous twins of pacer and token store; corrupt pacing and token files; lock timeouts other than as a call that ends early.
- Argument validation of constructors: it is stated as their preconditions.
- Pacer.HostPacer.Acquire: states the run without competitors; with competitors its tries are part of the runs of `Pacer.RateBound` and `Pacer.BacklogBound`.
- Handovers.OneOwner: needs that every refresh finds a standby and is granted a replacement; evictions above the table's cap, hash collisions, leases and event times are not modelled.
- Alert ledgers of schema version 1, degraded-open operation and mail delivery.
- The supervisor's process handling and restart reasons; a supervisor without a breaker.
- Everything else: stream clients, stores, calendars, command lines.
