# Order, accounting and shutdown protocols: a Dafny model

This project models the crash- and concurrency-aware layer of a set of trading
bots and proves what that layer promises. Venue, database, file system and
thread scheduler are adversaries: they answer, fail, raise after taking effect,
interleave or die at any step. Time, prices and random ids come in as
parameters; amounts are reals and unusable numbers are absent.

| file | what it models |
|---|---|
| `ShutdownControl.dfy` | the handoff of a shutdown request through target file, claim files, pending map and epoch counter, as an interleaved step machine |
| `OrderEvidence.dfy`, `Snapshots.dfy` | what an order snapshot proves, when it contradicts a request, and the strict equality of payloads |
| `TradeRecovery.dfy` | rebuilding one order from trade fills |
| `OrderLookup.dfy` | finding an order by client id, and when it may be called absent |
| `OrderSubmission.dfy` | submitting one order while answers can be lost |
| `FuturesClose.dfy` | write-ahead accounting of an emergency futures close, with closers that did not get the lock |
| `CloseFragments.dfy` | accumulating the fills of a close that comes in pieces |
| `SpotSell.dfy` | the spot sell loop over precision and balance rejections |
| `SpotClose.dfy` | durable intent, marker and booking of an emergency spot close |
| `SpotLedger.dfy` | sales made before the buy price was known: deferral, recovery, staging |
| `ShutdownFinalizer.dfy` | the repeated finalization pass of a bot's shutdown |
| `SafeMode.dfy` | the sticky emergency state: triggers, retry timers, direct writers, last write, shutdown callers |
| `FundingHistory.dfy` | paging through funding payments, and counting settlements |
| `ExceptionGraph.dfy` | the bounded searches of the graph of linked exceptions |
| `ApiBudget.dfy` | the process-local sliding windows of the call budget |
| `RotatingLog.dfy` | the early-boot error log and its backups |
| `BoundedTail.dfy` | the bounded capture of subprocess output and its UTF-8 text |
| `CrossMargin.dfy` | the cross-margin liquidation price as account insolvency |

Protocols are state machines: an action is one atomic step, `Next` says what it
does, and a run is any sequence of actions. Where the code keeps its state in an
object or in module variables, a class carries out the same steps by mutating
its fields, and each method is proved equal to the steps it stands for. A crash
is an action that throws away memory and keeps the durable copy.

Assumptions about code outside the modelled files:

* a rename that had no effect raises "file not found" only when the source is missing,
  and so does reading a file's identity; that reading may fail in any other way, and
  if it fails before the rename the call ends with nothing changed;
* a conditional state update that is confirmed and read back is in memory and on
  disk; one that is not confirmed may be in either, in both or in neither;
* the per-symbol close lock is exclusive; whoever does not get it never writes state;
* a lookup by client id finds only orders that were sent;
* a publication has its own file identity: no file gets the identity of one that was
  removed between two looks of the same consumer;
* of a mirrored call the minute log gets the time before the short log does, and
  nobody merely counts the short one (`_fallback_burst_count` has no caller).

## What turned out differently from what the code seems to promise

* **Newest request.** A rename that takes effect and still raises loses the
  request if the moved file is not recognised: because another request was
  published after the target was looked at, or because the identity of the moved
  file cannot be read. Only a parked copy of the same request still helps.
  `NewestSurvivesStep` gives this exact condition for one step and
  `NewestIsConserved` for whole runs; `AmbushLosesTheNewest` and
  `UnreadableClaimLosesTheNewest` show a run for each reason.
* **No order after the marker.** A closer without the lock reads the row under the
  registry guard, but marker writes do not take that guard, and the order wrapper
  may send up to five times after one look. `OnlyAnOvertakenFlattenOrdersLate`
  says exactly when an order follows a confirmed marker, `AFlattenCanBeOvertaken` shows a run.
* **Replayed receipts.** Saving a receipt twice always clears the client id of its
  fragment. `ReplayChangesOnlyTheClientIdIff` says exactly when it changes nothing
  else, `ReplayOfABackedRow` that a backed row is such a case, and
  `AReplayRevivesTheRest` shows sold units coming back. A receipt that is saved again
  later takes the newest intent of its leg out of the row (`LaterReplayTakesTheIntent`).
* **Two closing sales.** If two fragments count as the closing sale, staging keeps
  only the later one (`StagingConservesCostIffOneFinal`); only a sale of at most
  twice the tolerance can be such a second one (`OnlyDustFollowsAFinal`), but the
  one that is lost is the larger. `TwoFinalsHappen` shows a row on which it happens,
  and `UnitAndDustAreTaken` how deferral gets there. Staging again does not settle:
  the last two closing sales take turns for ever (`StagingTwiceIsStagingOnceIff`).
* **Cut amounts.** The barrier of a spot sell with an unknown status may take the
  observed sale off the position without recording a fill. `QuantityIsConserved`
  counts what was cut beside rest and fills, `CutIsUnaccounted` says exactly which
  step cuts and how much, `ASaleIsCutOff` shows a run.
* **Funding ties.** A cursor moves past the time of a full page's last payment, so
  payments at that very time that did not fit are never served, and a total is
  published all the same. `CursorVenueIsSummedCompletely` says by how much it is
  off, `NothingIsLostIff` when nothing is lost, `ATiedPaymentIsLost` shows a history.
* **Call windows.** Times are read before the lock is taken, so they can go back in
  lock order, by as long as a thread waits for the lock. No such lateness is
  harmless: the minute bound holds of all runs with lateness at most `d` exactly
  when `d` is zero or the share is one (`LatenessIsHarmlessIff`, `OrderIsNeededIff`).
  The short window, whose share is always one, needs no order (`BurstWindowNeedsNoOrder`).
* **Recovered orders.** The sums over the fills do not depend on the order in which
  the venue lists them, but the rebuilt order carries the payload of the first fill
  that has one, and is judged by it. `VerdictIsOrderFreeIff` says exactly when the
  verdict does not depend on the listing; `TheFirstTradeDecides` shows two fills that
  end the lookup with the order or with a conflict.
* **Liquidation price.** The documentation calls a result on the wrong side of the
  mark one that cannot liquidate the account; `AnswerIffSolventAtTheMark` shows
  that it means the account is already at or below maintenance. It also calls the
  exact single-leg price slightly tighter than the linear one. For a short that
  holds exactly when the maintenance rate is below the reciprocal of the leverage,
  for a long exactly when it is above it (`ExactAgainstIsolated`); `ALongIsLooser`
  shows a usual long for which it fails.

## Model

| member | source | states |
|---|---|---|
| `ShutdownControl.ControlPlane.PublishRequest` | bot_utils/shutdown_control.py:344-444 | a publication replaces the target by a new request |
| `ShutdownControl.ControlPlane.StatTarget` | bot_utils/shutdown_control.py:463-468 | under the lock, the identity of the target is noted before the rename |
| `ShutdownControl.ControlPlane.ReplaceTarget` | bot_utils/shutdown_control.py:469-500 | every outcome of the rename and of reading the claim's identity, including a rename that took effect and raised, has the outcome of the protocol step |
| `ShutdownControl.RenameDecides` | bot_utils/shutdown_control.py:469-500 | what a rename leaves, by whether it took effect and whether the moved file is recognised, and exactly when the consumer holds the request |
| `ShutdownControl.ControlPlane.ClaimTarget` | bot_utils/shutdown_control.py:463-500 | identity check, a possible publication in between, rename and second identity check together are steps of the machine |
| `ShutdownControl.ControlPlane.DropStale` | bot_utils/shutdown_control.py:515-523 | a superseded pending claim is unlinked or left, nothing else changes |
| `ShutdownControl.ControlPlane.ReadClaim` | bot_utils/shutdown_control.py:524-576 | a read of a valid request adds it to the delivered ones, a read of an invalid one to the rejected ones, and neither touches the other; an interrupted read adds to neither and goes to restore |
| `ShutdownControl.ControlPlane.DiscardClaim` | bot_utils/shutdown_control.py:577-595 | only the consumer's own claim file is unlinked |
| `ShutdownControl.ControlPlane.FinishClaim` | bot_utils/shutdown_control.py:514-595 | everything after the claim as steps of the machine; the claim's request is delivered, rejected or neither as its read ended |
| `ShutdownControl.ControlPlane.LockForRestore` | bot_utils/shutdown_control.py:157-161 | restore gives way when a newer generation was acquired |
| `ShutdownControl.ControlPlane.LinkClaim` | bot_utils/shutdown_control.py:162-185 | one create-only link, and what is registered or withdrawn after it |
| `ShutdownControl.ControlPlane.RestoreClaim` | bot_utils/shutdown_control.py:148-216 | the two-attempt restore loop is a run of the machine |
| `ShutdownControl.RestoreEnds` | bot_utils/shutdown_control.py:148-216 | however the link attempts end, the lock is free and the claim is back at the target, superseded, or pending |
| `ShutdownControl.ProgramsKeepInv` | bot_utils/shutdown_control.py:447-595 | claim, read and restore keep the custody invariant for all faults and races |
| `ShutdownControl.RunKeepsInv` | bot_utils/shutdown_control.py:148-595 | path and custody invariants hold over every interleaving |
| `ShutdownControl.NeverDeliveredTwice` | bot_utils/shutdown_control.py:514-595 | in every run no request is delivered twice, nor both delivered and rejected |
| `ShutdownControl.ReadsDecide` | bot_utils/shutdown_control.py:524-576 | in every run a request is delivered exactly when some consumer read its claim and found it valid, rejected exactly when one found it invalid, and no request is read to an end twice |
| `ShutdownControl.HeldByOneConsumer` | bot_utils/shutdown_control.py:466-513 | in every run no request is held by two consumers |
| `ShutdownControl.GenerationsNeverGoBack` | bot_utils/shutdown_control.py:466-500 | generations are acquired in publication order and a pending claim carries the current epoch |
| `ShutdownControl.RestoreIsNeverStale` | bot_utils/shutdown_control.py:157-185 | a restore puts back only the newest generation acquired so far |
| `ShutdownControl.NewestSurvivesStep` | bot_utils/shutdown_control.py:466-595 | a step keeps the newest unfinished request in one authoritative place, except exactly the rename that took effect and raised, whose file was not recognised, and of which no copy is parked |
| `ShutdownControl.NewestIsConserved` | bot_utils/shutdown_control.py:148-595 | after every run the newest request is finished, in the target, pending, or held by a consumer, exactly when no such rename happened since its publication |
| `ShutdownControl.AmbushLosesTheNewest` | bot_utils/shutdown_control.py:467-491 | a run in which a publication between check and rename loses the newest request |
| `ShutdownControl.UnreadableClaimLosesTheNewest` | bot_utils/shutdown_control.py:306-313 | a run without a race in which an unreadable claim loses it |
| `OrderEvidence.UncontradictedIffBound` | bot_utils/futures_order.py:540-718 | an order is without conflict exactly when it agrees with the request wherever it says anything: id, client id, symbol, side, leg, reduce-only flags of payload and venue, amounts |
| `OrderEvidence.AcceptedReplyHasLanded` | bot_utils/futures_order.py:784-832 | a reply that has evidence, no conflict and no empty terminal state has landed |
| `OrderEvidence.LandedIff` | bot_utils/futures_order.py:811-833 | an order has landed exactly when it is not rejected, shows a fill where it is canceled or expired, and otherwise shows a fill, a live status or exactly one id |
| `OrderEvidence.StatesMean` | bot_utils/futures_order.py:232-265 | when an order counts as filled, partly filled, acknowledged, failed or unknown, by its status and amounts |
| `Snapshots.StrictEqualIsIdentity` | bot_utils/order_utils.py:130-184 | strict equality is identity on trees of plain values, hence an equivalence there and only there |
| `TradeRecovery.Deduplicate` | bot_utils/futures_order.py:945-975 | the loop keeps one row per trade id and notices rows that disagree |
| `TradeRecovery.Accumulate` | bot_utils/futures_order.py:1020-1050 | the running sums are the sums over the kept rows |
| `TradeRecovery.CollectEvidence` | bot_utils/futures_order.py:977-1019 | the collected ids, symbols and sides are those of the kept rows, and the payload is that of the first row that has one |
| `TradeRecovery.AggregateTrades` | bot_utils/futures_order.py:927-1102 | the loops build the order that the fills define |
| `TradeRecovery.KeptIsTheSet` | bot_utils/futures_order.py:945-975 | of consistent rows each is kept once |
| `TradeRecovery.ClashIffInconsistent` | bot_utils/futures_order.py:964-975 | conflicting duplicates and rows without an id are flagged wherever they stand, and nothing else is |
| `TradeRecovery.RecoveryDependsOnTheSetOnly` | bot_utils/futures_order.py:927-1102 | repeating or permuting fills changes neither soundness nor quantity, cost and average, and of a sound order nothing but its payload |
| `TradeRecovery.SoundIsRefusedIff` | bot_utils/futures_order.py:540-718 | a sound recovery is refused exactly when its first payload, or for lack of a side code in it the fills' own side, contradicts the request |
| `TradeRecovery.VerdictIsOrderFreeIff` | bot_utils/futures_order.py:976-984 | all permutations of the fills are judged alike exactly when the recovery is flagged anyway or no two fills have payloads of which one contradicts the request and the other does not |
| `TradeRecovery.AgreeingPayloadsAreOrderFree` | bot_utils/futures_order.py:976-1102 | under that condition repeated fills are judged alike too |
| `TradeRecovery.TheFirstFillDecides` | bot_utils/futures_order.py:983-984 | two fills that are accepted or refused by which of them comes first |
| `TradeRecovery.AverageIsBetweenFillPrices` | bot_utils/futures_order.py:1076-1080 | the average of a sound recovery lies between the smallest and the largest fill price |
| `TradeRecovery.SoundRecoveryIsBound` | bot_utils/futures_order.py:1051-1102 | a sound recovery has one venue id, this client id, a fill, and no excess over the request |
| `TradeRecovery.SoundIff` | bot_utils/futures_order.py:945-1102 | a recovery is sound exactly when, on the raw fills, each is countable, those under one trade id agree, and they name one order, client id, symbol and side within the request |
| `TradeRecovery.SoundOrderSays` | bot_utils/futures_order.py:1051-1102 | what a sound recovery reports: the id of its fills, the client id, the sum of the quantities and the weighted price |
| `TradeRecovery.OneFillIsTheOrder` | bot_utils/futures_order.py:927-1102 | a single fill is rebuilt as an order of its quantity and price |
| `OrderLookup.Lookup.SelectCandidate` | bot_utils/futures_order.py:1229-1260 | a candidate is returned, flagged or deferred, with the ids seen so far |
| `OrderLookup.Lookup.SelectBatch` | bot_utils/futures_order.py:1262-1278 | the loop over a listing is the fold of the candidate rule |
| `OrderLookup.Lookup.RecoveryRows` | bot_utils/futures_order.py:1172-1218 | a listing's rows, mark and completeness for every kind of answer |
| `OrderLookup.Lookup.AskExact` | bot_utils/futures_order.py:1291-1302 | up to three tries, repeated only after a raised error |
| `OrderLookup.Lookup.ReadExact` | bot_utils/futures_order.py:1283-1420 | the venue-native lookup by client id and what it records |
| `OrderLookup.Lookup.ReadOrders` | bot_utils/futures_order.py:1421-1500 | open orders and order histories, read and judged |
| `OrderLookup.Lookup.ReadTrades` | bot_utils/futures_order.py:1510-1545 | matching trades are aggregated into one candidate |
| `OrderLookup.Lookup.Find` | bot_utils/futures_order.py:1105-1578 | the whole lookup is the composition of its sources in order |
| `OrderLookup.AbsentIffQuorum` | bot_utils/futures_order.py:1549-1578 | an order is declared absent exactly when exact lookup, open orders, trades and a history were read to the end, nothing that was asked failed, and no row carried the client id, deferred or not |
| `OrderLookup.BatchFindsMatches` | bot_utils/futures_order.py:1220-1278 | a listing finds and defers nothing exactly when no row carries the client id |
| `OrderLookup.FoundIsOurs` | bot_utils/futures_order.py:1229-1260 | an unflagged result carries the client id, was not refused, and is the only venue order seen under it |
| `OrderLookup.RecordIsJudged` | bot_utils/futures_order.py:1346-1380 | the exact record is flagged exactly when it does not name this client id alone, lacks one order id or a readable state, is for a foreign symbol, has amounts that disagree or exceed the request, or contradicts it |
| `OrderLookup.ExactRecordDecides` | bot_utils/futures_order.py:1283-1420 | an exact record ends the whole lookup, unflagged exactly when its own fields are sound and it agrees with the request |
| `OrderLookup.UnflaggedRecordIsOurs` | bot_utils/futures_order.py:1346-1349 | an unflagged answer to a lookup that got an exact record comes from a record whose only external id is the client id |
| `OrderLookup.BatchIsUnanimous` | bot_utils/futures_order.py:1262-1278 | an unflagged result of a listing has no other matching row beside repeats and deferred ones |
| `OrderLookup.BatchIff` | bot_utils/futures_order.py:1220-1278 | what a listing comes to, exactly: a conflict if a row with the client id contradicts the request, names another venue order than the rest or than was seen before, or stands beside a different one; else the first row that stands, or nothing when all ended empty |
| `OrderLookup.ListingsDecide` | bot_utils/futures_order.py:1421-1578 | what the whole lookup returns when the exact source leaves it open: the first of open orders, history and closed orders that is not quiet answers, then the trades, then the last order that ended empty, with the ids of all rows before taken into account |
| `OrderLookup.TradesDecide` | bot_utils/futures_order.py:1105-1578 | a lookup that only trades answer finds an order, flagged exactly when the order rebuilt from them is refused |
| `OrderLookup.TheFirstTradeDecides` | bot_utils/futures_order.py:983-984 | the same two trades end the lookup with the order or with a conflict by which of them is listed first |
| `OrderSubmission.Reconcile` | bot_utils/futures_order.py:1660-1896 | how one attempt ends, asking the venue again only where the source does |
| `OrderSubmission.CreateOrder` | bot_utils/futures_order.py:1581-1919 | the attempt loop is the course of the call, and what it sent |
| `OrderSubmission.NoVerdictLeavesRoom` | bot_utils/futures_order.py:1782-1896 | another attempt is allowed in exactly one situation: reduce-only, retryable error, nothing found, no contradiction |
| `OrderSubmission.NoBlindResubmission` | bot_utils/futures_order.py:1626-1919 | for every venue an entry is sent at most once, a reduce-only order at most max_attempts <= 5 times, always the identical request under one client id |
| `OrderSubmission.NotSubmittedMeansNothingSent` | bot_utils/futures_order.py:1638-1683 | "not submitted" exactly when nothing was sent; the regional restriction only for one refused entry |
| `OrderSubmission.PlacedIsTheRequestedOrder` | bot_utils/futures_order.py:1684-1781 | an order returned as placed has landed and agrees with the request |
| `OrderSubmission.PlacedIff` | bot_utils/futures_order.py:1684-1781 | one attempt ends with an order exactly when the reply, or else the lookup after an unclear end, shows an order that is uncontradicted and has landed |
| `OrderSubmission.UnknownIff` | bot_utils/futures_order.py:1684-1890 | one attempt ends as unknown exactly when something may have been accepted and the lookup neither shows a landed order nor, for a reduce-only retry, its absence |
| `OrderSubmission.LookupIsBound` | bot_utils/futures_order.py:1105-1578 | what the lookup returns without doubt agrees with the request of the call |
| `OrderSubmission.LostEntryIsFoundOrUnknown` | bot_utils/futures_order.py:1835-1890 | an entry whose answer was lost is found or reported as unknown, never as failed |
| `FuturesClose.Closer.Store` | bot_utils/futures_exits.py:106-150 | a conditional update with read-back, and what it may leave behind when it is not confirmed |
| `FuturesClose.Closer.SaveFragment` | bot_utils/futures_exits.py:1133-1156 | a fragment that is not durable blocks the symbol |
| `FuturesClose.Closer.ReadLive` | bot_utils/futures_exits.py:641-710 | a row that waits for accounting, or an open list that is not durable, ends the close |
| `FuturesClose.Closer.SendOrder` | bot_utils/futures_exits.py:993-1067 | the order is called only for an owned row with something left to close |
| `FuturesClose.Closer.VerifyClosed` | bot_utils/futures_exits.py:1158-1248 | what each verification result records, and the block on unexplained flatness |
| `FuturesClose.Closer.CloseAtVenue` | bot_utils/futures_exits.py:606-1248 | checks, order and verification in sequence |
| `FuturesClose.Closer.MarkDurably` | bot_utils/futures_exits.py:1377-1557 | funding cutoff, then marker, each confirmed before going on |
| `FuturesClose.Closer.BookTrade` | bot_utils/futures_exits.py:1558-1602 | one booking attempt and its answer |
| `FuturesClose.Closer.RemoveRow` | bot_utils/futures_exits.py:1683-1727 | what removal leaves in memory and on disk |
| `FuturesClose.Closer.BookAndRemove` | bot_utils/futures_exits.py:1558-1749 | booking, dashboard cleanup and removal in sequence |
| `FuturesClose.Closer.CloseSinglePosition` | bot_utils/futures_exits.py:606-1765 | the whole close by the lock-holder is a run of the machine |
| `FuturesClose.Closer.FlattenWithoutAccounting` | bot_utils/futures_exits.py:713-813 | without the lock: look at the row once, then send up to five times, and write nothing |
| `FuturesClose.CloseIsARun` | bot_utils/futures_exits.py:606-1765 | the procedure is a run, so all results about runs hold of it, cut off anywhere |
| `FuturesClose.AccountingIsWriteAhead` | bot_utils/futures_exits.py:1501-1749 | in every run with failures and crashes: booking only after a durable marker and only once, removal only after a confirmed booking, no order by the lock-holder after the marker |
| `FuturesClose.UnbookedPositionsSurvive` | bot_utils/futures_exits.py:1604-1727 | in every run an opened position is in memory and on disk until it is booked |
| `FuturesClose.OnlyAnOvertakenFlattenOrdersLate` | bot_utils/futures_exits.py:766-793 | an order follows a confirmed marker exactly when the marker was confirmed between a lock-less closer's look and one of its attempts |
| `FuturesClose.AFlattenCanBeOvertaken` | bot_utils/futures_exits.py:713-813 | a run in which that happens between two attempts |
| `FuturesClose.BlockedStopsTheCloser` | bot_utils/futures_exits.py:94-103 | a blocked symbol stays blocked until restart, and only an already checked flatten still acts |
| `FuturesClose.FragmentsNeverExceedThePosition` | bot_utils/futures_exits.py:1133-1214 | in every run recorded fragments stay between zero and the position's amount in every copy |
| `FuturesClose.FragmentsMatchTheVenue` | bot_utils/futures_exits.py:1186-1207 | after a verified partial close the fragments are what the venue no longer holds |
| `FuturesClose.BookedCloseIsAccountedFor` | bot_utils/futures_exits.py:1282-1331 | in every run a position is marked or booked after a returned order only if that order reported no fill or its report equals amount minus recorded fragments within the tolerance |
| `FuturesClose.UnexplainedFlatIsBlocked` | bot_utils/futures_exits.py:1282-1331 | a flat position that the reported fill does not explain blocks the symbol, the row waits, and exactly the reported fill, or nothing where it is too large, is added to the fragments |
| `FuturesClose.ExplainedFlatGoesOn` | bot_utils/futures_exits.py:1282-1331 | a flat position that the reported fill explains goes on to the marker and blocks nothing |
| `FuturesClose.UnclosedIsRecorded` | bot_utils/futures_exits.py:1186-1248 | a close that is not verified flat records exactly the fragment it can prove and ends |
| `CloseFragments.FoldSums` | bot_utils/close_fragments.py:46-122 | the accumulated state holds the sums of quantity, notional and fee, and their quotient |
| `CloseFragments.ReadIff` | bot_utils/close_fragments.py:49-64 | the recorded numbers are readable exactly when none is negative and quantity, notional and price fit each other, and what is then read |
| `CloseFragments.AddIsExact` | bot_utils/close_fragments.py:66-122 | one more fill adds its quantity, its notional and its fee, and the average is their quotient |
| `CloseFragments.OrderDoesNotMatter` | bot_utils/close_fragments.py:66-122 | the same fills in any order give the same quantity, weighted price and fee |
| `SpotSell.RoundedIsBelow` | bot_utils/spot_exits.py:668-672 | rounding gives less than one step below the amount, never above it |
| `SpotSell.FirstAmountIs` | bot_utils/spot_exits.py:1866-1894 | the first amount is the venue's own rounding, unless that failed or amplified; then less than one step of the market is lost |
| `SpotSell.StepsAre` | bot_utils/spot_exits.py:1895-1908 | first the amount as it is, then each step of the market and each coarser one, all once |
| `SpotSell.AmountOfStep` | bot_utils/spot_exits.py:1931-1940 | what is tried at a step is the largest whole number of steps within the request |
| `SpotSell.CollectSteps` | bot_utils/spot_exits.py:1895-1908 | the sequence of steps that is tried |
| `SpotSell.MarketSell` | bot_utils/spot_exits.py:1850-2030 | the loop ends as the tries and their classified errors say |
| `SpotSell.AmbiguousFailureIsTheLastSell` | bot_utils/spot_exits.py:1931-2030 | amounts are positive and within the request; only a precision or balance rejection is followed by another sell; with a client id any other failure is the last one and ends in recovery or the unknown outcome |
| `SpotSell.SaleEnds` | bot_utils/spot_exits.py:1909-2030 | from the answers alone: the first try that is not refused for its precision ends the call, with the amount sold, the rest of the wallet, the balance error, recovery, the unknown outcome or the error, and what reached the venue is exactly those tries |
| `SpotSell.InvalidIff` | bot_utils/spot_exits.py:1858-1894 | a sale is refused before anything is sent exactly when the amount, or what rounding leaves of it, is not positive |
| `SpotClose.Closer.Store` | bot_utils/spot_exits.py:1718-1755 | a conditional update with read-back |
| `SpotClose.Closer.ReadLive` | bot_utils/spot_exits.py:2166-2248 | the checks under the lock; a list of partials is confirmed durable before it may coexist with a sell |
| `SpotClose.Closer.ConfirmIntent` | bot_utils/spot_exits.py:711-756 | the client id is durable before a sell, and an id already in memory is used again |
| `SpotClose.Closer.Weigh` | bot_utils/spot_exits.py:2540-2675 | what is recorded for an order that is not terminal, not filled, without price, or filled |
| `SpotClose.Closer.SellOnce` | bot_utils/spot_exits.py:2422-2537 | a new intent is sent only if the guard still finds it in the row |
| `SpotClose.Closer.LookUp` | bot_utils/spot_exits.py:2375-2402 | an earlier intent is only looked up |
| `SpotClose.Closer.MarkFill` | bot_utils/spot_exits.py:2737-2840 | the write-ahead step, partial or full, before booking |
| `SpotClose.Closer.BookFill` | bot_utils/spot_exits.py:2842-2853 | one booking attempt and its answer |
| `SpotClose.Closer.RemoveRow` | bot_utils/spot_exits.py:2937-2950 | what removal leaves in memory and on disk |
| `SpotClose.Closer.CloseSymbol` | bot_utils/spot_exits.py:2133-2952 | one symbol of the emergency close is a run of the machine |
| `SpotClose.CloseIsARun` | bot_utils/spot_exits.py:2133-2952 | so all results about runs hold of the procedure, cut off anywhere |
| `SpotClose.SellsFollowDurableIntents` | bot_utils/spot_exits.py:2366-2537 | in every run a sell starts at most once per intent, after the intent is durable, and while no earlier sell of the position is open and no full close is marked |
| `SpotClose.BookingIsWriteAhead` | bot_utils/spot_exits.py:2821-2952 | in every run booking only after the durable marker and only once, removal only after the booked full close |
| `SpotClose.UnbookedPositionsSurvive` | bot_utils/spot_exits.py:2183-2209 | in every run a position is in memory and on disk until its full close is booked |
| `SpotClose.QuantityIsConserved` | bot_utils/spot_exits.py:2550-2866 | in every run rest, fills to be booked, fills booked and what was cut off add up to the opened amount in every copy |
| `SpotClose.CutIsUnaccounted` | bot_utils/spot_exits.py:2550-2595 | a step cuts exactly when an applied barrier has seen less than the amount left, by that difference, and records no fill for it |
| `SpotClose.ASaleIsCutOff` | bot_utils/spot_exits.py:2550-2595 | a run in which a sold unit is in no fill |
| `SpotLedger.Ledger.Defer` | bot_utils/spot_exits.py:143-207 | a receipt is taken exactly when it is usable, continues what is recorded and fits, and then the row is the deferred one |
| `SpotLedger.Ledger.Recover` | bot_utils/spot_exits.py:229-313 | the basis is taken exactly when it is plausible and covers the sales |
| `SpotLedger.Ledger.Stage` | bot_utils/spot_exits.py:329-399 | the loop stages every fragment or none |
| `SpotLedger.TakenIff` | bot_utils/spot_exits.py:143-176 | the exact condition, on the fields of row and receipt, under which a sale is taken: it can be named, has quantity, price and readable fee, neither contradicts nor shrinks what is recorded of it, which is not staged, and what it adds fits into the rest |
| `SpotLedger.TakenSaleIsRecorded` | bot_utils/spot_exits.py:177-190 | the taken receipt is the one fragment of its sale, with the time of its first report, and no other fragment changes |
| `SpotLedger.RecoverableIff` | bot_utils/spot_exits.py:250-283 | the exact condition, on the amounts, under which a recovered buy is taken as the basis |
| `SpotLedger.SoldAfterDefer` | bot_utils/spot_exits.py:160-186 | a receipt replaces what it had recorded before by what it reports now |
| `SpotLedger.SalesStayWithinTheBuy` | bot_utils/spot_exits.py:130-207 | for all sequences of new exit intents, receipts, repeats and failed saves the sales stay within the observed buy up to the summed tolerances |
| `SpotLedger.ReplayIsRecognised` | bot_utils/spot_exits.py:161-176 | a receipt reported again is found where it was recorded and adds nothing |
| `SpotLedger.ReplayOfABackedRow` | bot_utils/spot_exits.py:161-207 | a replay on a backed row changes nothing at all but the client id of the receipt's fragment |
| `SpotLedger.ReplayChangesOnlyTheClientIdIff` | bot_utils/spot_exits.py:161-207 | the exact condition, for new and known receipts, under which a replay changes nothing but that client id |
| `SpotLedger.AReplayRevivesTheRest` | bot_utils/spot_exits.py:187-199 | a row and a receipt whose replay brings a sold unit back |
| `SpotLedger.UnnamedReplayIsRefused` | bot_utils/spot_exits.py:150-154 | a receipt without order id cannot be replayed |
| `SpotLedger.ReplayedFragments` | bot_utils/spot_exits.py:177-190 | a replay clears the client id that the fragment was recorded under and changes no other field of any fragment |
| `SpotLedger.LaterReplayTakesTheIntent` | bot_utils/spot_exits.py:150-191 | saved again after any other receipts and new intents, a receipt adds nothing, and its fragment takes the newest intent of the leg out of the row |
| `SpotLedger.BackedRestIsExact` | bot_utils/spot_exits.py:187-199 | while receipts grow, a backed row stays backed and its remainder is the observed buy minus the sales |
| `SpotLedger.RecoverySplitsTheBuy` | bot_utils/spot_exits.py:271-299 | after recovery sold and remaining are the net buy, and cost and fee split in proportion |
| `SpotLedger.StagingConservesCostIffOneFinal` | bot_utils/spot_exits.py:345-391 | staged bookings carry all cost slices exactly when at most one fragment is the closing sale |
| `SpotLedger.StagingConservesFees` | bot_utils/spot_exits.py:363-371 | then they also carry all entry-fee slices and exit fees |
| `SpotLedger.StagingConservesProfit` | bot_utils/spot_exits.py:364-371 | and the profits of all bookings are what the sales brought over the buy price, less entry-fee slices and exit fees |
| `SpotLedger.NothingIsStagedIff` | bot_utils/spot_exits.py:351-385 | staging leaves the row as it is exactly when each sale is accounted for, or staged with its booking still waiting |
| `SpotLedger.BookedAndRestAreTheWholeCost` | bot_utils/spot_exits.py:290-391 | recovered and staged, bookings and remainder together carry the whole cost of the buy |
| `SpotLedger.SlicesAndRestAreTheEntryFee` | bot_utils/spot_exits.py:290-373 | entry-fee slices and the remainder's part are the whole entry fee |
| `SpotLedger.StagingTwiceIsStagingOnceIff` | bot_utils/spot_exits.py:351-390 | staging again while the bookings wait changes nothing exactly when at most one fragment is a closing sale; otherwise the last two take turns as the closing booking |
| `SpotLedger.OnlyDustFollowsAFinal` | bot_utils/spot_exits.py:364-365 | after a closing sale only a sale of at most twice the tolerance can follow |
| `SpotLedger.UnitAndDustAreTaken` | bot_utils/spot_exits.py:143-207 | a sale of the whole position and a sale of dust after it are both deferred |
| `SpotLedger.TwoFinalsHappen` | bot_utils/spot_exits.py:345-391 | recovered, that row has two closing sales and staging loses cost |
| `ShutdownFinalizer.Finalizer.RegisterAll` | bot_utils/runtime_threads.py:603-611 | required resources, reported results and closers are taken over |
| `ShutdownFinalizer.Finalizer.CloseResource` | bot_utils/runtime_threads.py:638-679 | a resource is closed at most once, only when teardown is allowed, and its acknowledgement is kept except for the log queues |
| `ShutdownFinalizer.Finalizer.CloseProducers` | bot_utils/runtime_threads.py:681-684 | the producers of DB work come first |
| `ShutdownFinalizer.Finalizer.CloseRegularResources` | bot_utils/runtime_threads.py:686-698 | the loop over the regular resources, with the DB workers waiting for their producers |
| `ShutdownFinalizer.Finalizer.CloseLlmResources` | bot_utils/runtime_threads.py:700-706 | the language-model clients wait for the news tasks |
| `ShutdownFinalizer.Finalizer.CloseExchangeForShutdown` | bot_utils/runtime_threads.py:245-291 | the exchange is closed only after quiescence and a terminal position action |
| `ShutdownFinalizer.Finalizer.FlushLogger` | bot_utils/runtime_threads.py:726-747 | the log queues are flushed only when everything else is closed |
| `ShutdownFinalizer.Finalizer.FinalizeRuntimeShutdown` | bot_utils/runtime_threads.py:496-876 | one pass of the finalizer |
| `ShutdownFinalizer.CompletionIsFinal` | bot_utils/runtime_threads.py:507-510 | completion is monotone: later calls change nothing |
| `ShutdownFinalizer.ClosingKeepsItsOrder` | bot_utils/runtime_threads.py:535-747 | over every sequence of passes closers, exchange, DB workers, clients and log queues are called in their order and only when allowed |
| `ShutdownFinalizer.AcknowledgedIsNotClosedAgain` | bot_utils/runtime_threads.py:638-725 | over every sequence of passes no acknowledged closer but the logger runs again, nor the exchange, nor anything after completion |
| `ShutdownFinalizer.CompletionMeansAllClosed` | bot_utils/runtime_threads.py:708-856 | completion means all workers dead, exactly one position action ended, no position left behind a close, exchange and every required resource closed, logger flushed last |
| `ShutdownFinalizer.EventsFitTheirPass` | bot_utils/runtime_threads.py:535-747 | every call that a pass makes is one that its inputs and what was acknowledged before allow |
| `ShutdownFinalizer.PassCompletesIff` | bot_utils/runtime_threads.py:535-876 | a pass completes exactly when, on its inputs, all workers are dead, one position action ended and left nothing behind, the exchange and every closer that is still due can be closed, and the status is written |
| `SafeMode.Holder.EnterSafeMode` | bot_utils/circuit_breaker.py:856-876 | afterwards SAFE_MODE is active with its first reason, whatever becomes of the alert; the alert is taken over exactly when none was sent or is in flight and there is a Telegram |
| `SafeMode.Holder.AnswerAlert` | bot_utils/circuit_breaker.py:893-908 | an alert that is not accepted leads to no record of it |
| `SafeMode.Holder.RecordAcceptance` | bot_utils/circuit_breaker.py:909-916 | an accepted alert is recorded, and marked for writing unless shutdown has begun |
| `SafeMode.Holder.FinishDirectWrite` | bot_utils/circuit_breaker.py:917-929 | the result of the trigger's own write |
| `SafeMode.Holder.RetryFromTrigger` | bot_utils/circuit_breaker.py:930-931 | after a failed direct write a retry is scheduled |
| `SafeMode.Holder.LeaveTrigger` | bot_utils/circuit_breaker.py:932-934 | when a trigger ends, no alert is in flight |
| `SafeMode.Holder.ScheduleRetry` | bot_utils/circuit_breaker.py:533-578 | at most one retry generation is armed, and none after shutdown has begun |
| `SafeMode.Holder.Elapse` | bot_utils/circuit_breaker.py:544-550 | a timer that was not cancelled calls its retry |
| `SafeMode.Holder.EnterRetry` | bot_utils/circuit_breaker.py:580-596 | a retry timer writes only what is pending before shutdown |
| `SafeMode.Holder.FinishRetryWrite` | bot_utils/circuit_breaker.py:597-601 | a retry that was written takes the pending mark away |
| `SafeMode.Holder.LeaveRetry` | bot_utils/circuit_breaker.py:602-610 | a retry timer ends its generation |
| `SafeMode.Holder.RetryFromTimer` | bot_utils/circuit_breaker.py:602-610 | a retry that failed schedules the next one |
| `SafeMode.Holder.BeginShutdown` | bot_utils/circuit_breaker.py:681-699 | shutdown stops new writers and captures the live ones |
| `SafeMode.Holder.CancelTimer` | bot_utils/circuit_breaker.py:700-708 | a captured timer is cancelled, or not |
| `SafeMode.Holder.LeaveJoins` | bot_utils/circuit_breaker.py:711-755 | shutdown goes on only without live writers and with a settled generation |
| `SafeMode.Holder.DecideFlush` | bot_utils/circuit_breaker.py:756-772 | with writers gone, shutdown answers or starts the last write |
| `SafeMode.Holder.StartFlush` | bot_utils/circuit_breaker.py:628-664 | the last write is started at most once at a time |
| `SafeMode.Holder.FinishFlush` | bot_utils/circuit_breaker.py:612-626 | the last write notes its result and takes the pending mark away when it was written |
| `SafeMode.Holder.ConcludeShutdown` | bot_utils/circuit_breaker.py:783-797 | shutdown answers True only for a settled, successful write |
| `SafeMode.RunKeepsInv` | bot_utils/circuit_breaker.py:533-934 | over every interleaving each live writer is where shutdown looks for it |
| `SafeMode.ActivationIsSticky` | bot_utils/circuit_breaker.py:856-865 | activation and its reason never change again |
| `SafeMode.ActiveIffTriggered` | bot_utils/circuit_breaker.py:856-865 | in every run SAFE_MODE is active exactly when some trigger happened, and then with the reason of the first one, whatever Telegram, earlier alerts or alerts in flight do |
| `SafeMode.AtMostOneAlertIsAccepted` | bot_utils/circuit_breaker.py:866-934 | over every interleaving at most one alert is accepted, none if today's was sent |
| `SafeMode.TrueShutdownIsFinal` | bot_utils/circuit_breaker.py:666-797 | once a shutdown call answered True no writer is live, no marker pending, and in any continuation no step starts a write |
| `SafeMode.MarkerIsNeverForgotten` | bot_utils/circuit_breaker.py:580-626 | a marker that was to be written is on disk or still pending |
| `SafeMode.HistoryIsTrue` | bot_utils/circuit_breaker.py:533-934 | in every run the recorded history is what independent events say: a write started, a marker wanted, a marker saved |
| `SafeMode.UnsavedMarkerIsRetried` | bot_utils/circuit_breaker.py:533-610 | in every run without shutdown or thread starts that fail, a wanted marker that is not saved has a writer or a timer that will save it |
| `FundingHistory.FetchRealizedFunding` | bot_utils/futures_funding.py:314-481 | the nested loops over pages and rows compute the specified answer |
| `FundingHistory.NeverAPartialSum` | bot_utils/futures_funding.py:336-463 | a total is minus the sum of a history that holds every served payment of the window once, from consecutive readable pages up to a short one |
| `FundingHistory.RealizedIff` | bot_utils/futures_funding.py:336-481 | for every venue: there is a total exactly when its pages up to a short one come within the page limit, are legible, do not contradict each other and, with a cursor, each bring something new and later, and the sum is within the bound; then it is minus the sum of the distinct payments of the window |
| `FundingHistory.CursorVenueIsSummed` | bot_utils/futures_funding.py:336-463 | for a venue that answers in time order, ties included, what the total is and exactly when it is given |
| `FundingHistory.CursorVenueIsSummedCompletely` | bot_utils/futures_funding.py:442-463 | that total is off by exactly the counting payments that tie with the last one of a full page, and complete exactly when there are none |
| `FundingHistory.NothingIsLostIff` | bot_utils/futures_funding.py:442-448 | without ties across multiples of fifty nothing is lost, and where all payments count, only then |
| `FundingHistory.ATiedPaymentIsLost` | bot_utils/futures_funding.py:442-448 | a history of which a partial total is published |
| `FundingHistory.NumberedVenueIsSummedCompletely` | bot_utils/futures_funding.py:349-357 | with numbered pages the total is complete whatever the times, and the page limit alone decides whether it is given |
| `FundingHistory.SettlementsAreTheCrossedBoundaries` | bot_utils/futures_funding.py:487-505 | the count is the number of boundaries in the half-open holding period |
| `ExceptionGraph.NetworkExceptionChain` | bot_utils/network_retry.py:128-144 | the search ends on every graph and returns exactly the reachable exceptions, or None when there are more than sixteen |
| `ExceptionGraph.Search.Visit` | bot_utils/network_retry.py:235-268 | a visit that fails has found a cycle, too many or an unclean exception; one that succeeds has finished everything below it |
| `ExceptionGraph.IsUnambiguousRateLimitRejection` | bot_utils/network_retry.py:214-270 | True exactly when what is reachable is acyclic, at most sixteen, and each an explicit clean rejection |
| `ApiBudget.Fallback.TryAdmission` | bot_utils/api_budget.py:231-272 | check and record of one call in one section |
| `ApiBudget.Fallback.RecordCall` | bot_utils/api_budget.py:182-186 | an unbudgeted call is logged and the log pruned |
| `ApiBudget.Fallback.RecordBurstCall` | bot_utils/api_budget.py:189-198 | the same for a short window |
| `ApiBudget.Fallback.BurstCount` | bot_utils/api_budget.py:201-213 | counting prunes the short window |
| `ApiBudget.RunFits` | bot_utils/api_budget.py:182-272 | with times that do not go back the pruned logs show the same recent calls as the full history |
| `ApiBudget.AdmittedIffRoom` | bot_utils/api_budget.py:182-272 | with times that do not go back, a call is admitted exactly when it is critical or the whole history has room for it in the last minute and in the short window, and every action adds exactly its own calls |
| `ApiBudget.ShareIsLargest` | bot_utils/api_budget.py:222-229 | the share is the largest number that all consumers may use at once, and at least one |
| `ApiBudget.MinuteWindowIsBounded` | bot_utils/api_budget.py:231-272 | with times that do not go back, no minute holds more budgeted calls than the process's share, despite pruning and critical calls |
| `ApiBudget.BurstWindowIsBounded` | bot_utils/api_budget.py:253-271 | with times that do not go back, no short window holds more budgeted calls than its share, at least one |
| `ApiBudget.ClusterStaysWithinTheLimit` | bot_utils/api_budget.py:222-250 | as many processes as the limit is divided by stay within the limit together |
| `ApiBudget.ShareOfOneIsBounded` | bot_utils/api_budget.py:241-272 | with a share of one every minute stays bounded whatever the order of times, shared endpoints and refusals included |
| `ApiBudget.BurstWindowNeedsNoOrder` | bot_utils/api_budget.py:56-65 | with at least six consumers the share of the short window is one, and it is kept whatever the order of times |
| `ApiBudget.LateEntryOverruns` | bot_utils/api_budget.py:241-251 | for every share above one and every lateness up to a minute, a run with that lateness exceeds the share |
| `ApiBudget.LatenessIsHarmlessIff` | bot_utils/api_budget.py:182-272 | all runs whose times go back by at most `d` keep the minute bound exactly when `d` is zero or the share is one |
| `ApiBudget.OrderIsNeededIff` | bot_utils/api_budget.py:182-272 | the runs keep the minute bound in all orders of times exactly when the share is one |
| `RotatingLog.CompactionKeepsAnEnd` | bot_utils/errors.py:65-114 | compaction keeps an end of the segment from a line start on, within half the cap and the room left for the payload |
| `RotatingLog.CompactionKeepsTheMost` | bot_utils/errors.py:73-90 | no longer end that starts at a line would have left the room |
| `RotatingLog.TrimmedIsAnEnd` | bot_utils/errors.py:179-196 | of whatever size a segment was, afterwards it is within the cap and a line-aligned end of what it was |
| `RotatingLog.TrimmedIsTheMost` | bot_utils/errors.py:179-196 | segments within the cap and files beyond the log stay as they are, and of the others no longer line-aligned end would do |
| `RotatingLog.Log.CompactSegment` | bot_utils/errors.py:65-114 | one compaction, which can fail with the tail written over the beginning |
| `RotatingLog.Log.CompactOversized` | bot_utils/errors.py:179-196 | backups and active file are compacted where they are too long, and only there |
| `RotatingLog.Fit` | bot_utils/errors.py:174-178 | a payload is unchanged when it fits; otherwise it takes exactly the cap, its beginning and the marker, or the end of the marker |
| `RotatingLog.MoveKeepsStream` | bot_utils/errors.py:202-206 | moving a segment into a free slot leaves the stream as it was |
| `RotatingLog.Log.Rotate` | bot_utils/errors.py:198-206 | the shift moves every segment one slot up, drops at most the oldest and neither reorders nor overwrites another, wherever it fails |
| `RotatingLog.Log.Append` | bot_utils/errors.py:117-209 | from segments of any size: afterwards each is within the cap, and the files are the compacted ones, shifted if needed, with the payload appended; on a log that only this writes, the segments are always a suffix of everything written |
| `BoundedTail.RoundTrip` | bot_utils/subprocess_capture.py:496-508 | encoded text decodes to itself (section 4 of RFC 3629) |
| `BoundedTail.DecodedEncodesBack` | bot_utils/subprocess_capture.py:496-498 | bytes that decode are the encoding of their text |
| `BoundedTail.IgnoringKeeps` | bot_utils/subprocess_capture.py:505-508 | a whole character at the front is kept |
| `BoundedTail.IgnoringSkips` | bot_utils/subprocess_capture.py:505-508 | where no whole character stands, exactly the longest beginning of one is dropped, or one byte that begins none |
| `BoundedTail.CutTextIsItsRest` | bot_utils/subprocess_capture.py:496-508 | of text that is cut anywhere exactly the characters wholly behind the cut remain |
| `BoundedTail.Utf8IsLawful` | bot_utils/subprocess_capture.py:496-508 | the laws of decoding and encoding that the text rests on |
| `BoundedTail.DecodedTextFits` | bot_utils/subprocess_capture.py:496-508 | the text re-encodes to at most the allowed bytes for every input, to the input itself when it is valid, and otherwise to the note and what can be decoded of as much of the end as fits |
| `BoundedTail.ByteTail.Append` | bot_utils/subprocess_capture.py:465-479 | the buffer is exactly the end of everything appended, and dropped plus kept is its length |
| `BoundedTail.ByteTail.Text` | bot_utils/subprocess_capture.py:481-493 | the text is the whole stream, or the note on dropped bytes and the end of the stream; exactly when that end does not decode, it is the note on undecodable bytes and what can be decoded of a shorter end |
| `CrossMargin.CrossLiquidationPrice` | bot_utils/futures_math.py:88-169 | the loop and the early returns compute the specified answer |
| `CrossMargin.PriceIsInsolvency` | bot_utils/futures_math.py:99-118 | only one price can be returned; there equity equals total maintenance, and from there to the mark it is strictly above |
| `CrossMargin.AnswerIffSolventAtTheMark` | bot_utils/futures_math.py:161-169 | there is an answer exactly when the account is solvent at the mark and, for a long, would not be at zero; a wrong-side result means equity at or below maintenance |
| `CrossMargin.AnswerIff` | bot_utils/futures_math.py:121-169 | for all numbers: there is an answer exactly when they describe a position, its book and a positive collateral, and the account is solvent at the mark but, for a long, not at zero |
| `CrossMargin.AdverseMovesComeCloser` | bot_utils/futures_math.py:92-97 | an adverse move of any other leg moves that price up for a long and down for a short, so towards the mark |
| `CrossMargin.ExactAgainstIsolated` | bot_utils/futures_math.py:114-116 | for a single leg the exact price is tighter than the linear one exactly when, for a short, the maintenance rate is below the reciprocal of the leverage, and for a long, above it |
| `CrossMargin.ALongIsLooser` | bot_utils/futures_math.py:114-116 | a usual long whose exact price is further from the mark |

## Left out

- An interrupt between accepting a shutdown request and returning its mode, and a crash of the consumer process: the claim file then stays behind, which is the business of the stale-artifact cleanup.
- One target path only: the maps keyed by path are modelled at one key.
- Fee lists, fee extraction and the list of fills in recovered orders; which payload key a field came from, and what the payload says beside side code, reduce-only fields and position sides.
- Calls of the lookup that name no amount: every lookup here carries a full request, with the request checks on or off.
- The attempts of one order or sell call by a closer that holds the lock are one event of the close; how they may repeat is modelled with the order wrapper and the sell loop.
- Back-off waits, retry logs, metrics, structured logs and Telegram texts around submission.
- Prices, fees, funding and profit of a close: the accounting protocols carry quantities and steps, not the booked numbers; a close in paper mode is modelled for futures only.
- Intents of other exit paths on the same spot position: they appear as one flag that blocks the close.
- The dust limit of a residual spot amount and the shape of order states are inputs of the spot close, not computed.
- A spot sale of a position whose buy is unverified enters the ledger model, not the emergency-close model.
- Rounding of booked profits to four decimals, and all rounding of floating-point numbers.
- The second entry into the finalizer by its retry scheduler, its status refresh timer and quiet mode: any sequence of passes is allowed instead.
- Thread starts that fail with something that is not an ordinary exception.
- Slippage and spread observation lists of SafeMode: pruned lists like the call windows, without a bound of their own.
- Durable ledger rows, reservations and error counts of the call budget.
- Windows handles, byte-range locks, directory syncs and process plumbing.
- The generic retry wrapper of the network helpers: a bounded loop around one call, with its error texts as classifiers.
- Estimates used when funding history is unavailable, and allocation of private funding to partial closes: single formulas.
