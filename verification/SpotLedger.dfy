/**
  The ledger of spot sales that were made before the buy price was known
  (`defer_spot_close_for_entry_basis`, `_recover_spot_entry_basis_locked` and
  `_stage_spot_entry_basis_closes_locked` in bot_utils/spot_exits.py).

  Sales are kept as raw fragments, the real basis is recovered later, and the
  fragments are then turned into bookings that each carry their slice of the
  cost and of the entry fee.  Amounts are reals; profits are not rounded.
 */
module SpotLedger {
  import opened Wrappers

  type Id = string

  datatype Leg = Full | Partial | Emergency | Launcher

  datatype Fragment = Fragment(
    clientId: Option<Id>,
    orderId: Option<Id>,
    filled: real,
    price: real,
    fee: real,
    leg: Leg,
    soldAt: nat,
    reason: string,
    entryId: Id,
    staged: bool,
    accounted: bool)

  /** One trade to be booked, with its slice of the position's cost and its fees. */
  datatype Item = Item(receipt: Option<Id>, price: real, soldAt: nat, reason: string, invested: real, fees: real,
      profit: real)

  datatype Row = Row(
    entryId: Id,
    unverified: bool,
    amount: real,
    observed: real,
    remaining: real,
    partialSold: bool,
    flat: bool,
    exitIds: map<Leg, Id>,
    fragments: seq<Fragment>,
    buy: real,
    original: real,
    invested: real,
    initialCost: real,
    entryFee: real,
    feesPaid: real,
    pending: seq<Item>,
    closing: Option<Item>,
    alreadyBooked: bool)

  /** The sale as the venue reported it. */
  datatype Receipt = Receipt(leg: Leg, orderId: Option<Id>, filled: real, price: real, fee: Option<real>,
      reason: string)

  function Pos(x: real): real {
    if x > 0.0 then x else 0.0
  }

  function Min(a: real, b: real): real {
    if a < b then a else b
  }

  function Max(a: real, b: real): real {
    if a < b then b else a
  }

  function Abs(x: real): real {
    if x < 0.0 then -x else x
  }

  /** max(1e-10, x * 1e-8) */
  function Tolerance(x: real): (t: real)
    ensures t > 0.0
  {
    Max(0.0000000001, x * 0.00000001)
  }

  function Sum(weight: Fragment -> real, fragments: seq<Fragment>): real {
    if fragments == [] then 0.0
    else Sum(weight, fragments[..|fragments| - 1]) + weight(fragments[|fragments| - 1])
  }

  function Quantity(): Fragment -> real {
    (f: Fragment) => Pos(f.filled)
  }

  function ExitFee(): Fragment -> real {
    (f: Fragment) => f.fee
  }

  function Sold(fragments: seq<Fragment>): real {
    Sum(Quantity(), fragments)
  }

  /** `spot_entry_close_amount`: while the buy is unverified, only what was seen bought may be sold. */
  function CloseAmount(row: Row): real {
    if !row.unverified then Pos(row.amount)
    else Min(Pos(row.amount), Max(0.0, Pos(row.observed) - Sold(row.fragments)))
  }

  // ----------------------------------------------------------- deferring a sale

  predicate SameReceipt(f: Fragment, clientId: Option<Id>, orderId: Option<Id>) {
    (clientId.Some? && f.clientId == clientId) || (orderId.Some? && f.orderId == orderId)
  }

  /** Position of the first fragment of that receipt, or the length when it is new. */
  function Find(fragments: seq<Fragment>, clientId: Option<Id>, orderId: Option<Id>): (i: nat)
    ensures i <= |fragments|
    ensures i < |fragments| ==> SameReceipt(fragments[i], clientId, orderId)
    ensures forall k :: 0 <= k < i ==> !SameReceipt(fragments[k], clientId, orderId)
    decreases |fragments|
  {
    if fragments == [] then 0
    else if SameReceipt(fragments[0], clientId, orderId) then 0
    else 1 + Find(fragments[1..], clientId, orderId)
  }

  function ExitId(row: Row, leg: Leg): Option<Id> {
    if leg in row.exitIds then Some(row.exitIds[leg]) else None
  }

  /** The fragment that a receipt continues, unless the two contradict each other. */
  predicate Continues(previous: Fragment, r: Receipt)
    requires r.fee.Some?
  {
    && r.filled + Tolerance(r.filled) >= Pos(previous.filled)
    && !previous.staged
    && Abs(Pos(previous.price) - r.price) <= r.price * 0.00000001
    && Abs(previous.fee - r.fee.value) <= 0.00000001
  }

  predicate Usable(row: Row, r: Receipt) {
    (ExitId(row, r.leg).Some? || r.orderId.Some?) && r.filled > 0.0 && r.price > 0.0 && r.fee.Some?
  }

  function AlreadyCounted(row: Row, r: Receipt): real {
    var i := Find(row.fragments, ExitId(row, r.leg), r.orderId);
    if i < |row.fragments| then Pos(row.fragments[i].filled) else 0.0
  }

  /** The quantity that this receipt adds to what is already recorded. */
  function Delta(row: Row, r: Receipt): real {
    Max(0.0, r.filled - AlreadyCounted(row, r))
  }

  predicate Deferrable(row: Row, r: Receipt) {
    && Usable(row, r)
    && (var i := Find(row.fragments, ExitId(row, r.leg), r.orderId);
        i < |row.fragments| ==> Continues(row.fragments[i], r))
    && Delta(row, r) <= CloseAmount(row) + Tolerance(r.filled)
  }

  function Merged(row: Row, r: Receipt, now: nat): seq<Fragment>
    requires r.fee.Some?
  {
    var i := Find(row.fragments, ExitId(row, r.leg), r.orderId);
    var fragment := Fragment(ExitId(row, r.leg), r.orderId, r.filled, r.price, r.fee.value, r.leg, now, r.reason,
        row.entryId, false, false);
    if i == |row.fragments| then row.fragments + [fragment]
    else row.fragments[i := fragment.(soldAt := row.fragments[i].soldAt, accounted := row.fragments[i].accounted)]
  }

  /** The row after a deferred sale that was saved. */
  function Deferred(row: Row, r: Receipt, now: nat): Row
    requires Deferrable(row, r)
  {
    var residual := Max(0.0, CloseAmount(row) - Delta(row, r));
    var row' := row.(fragments := Merged(row, r, now), remaining := residual, exitIds := row.exitIds - {r.leg});
    if residual > Tolerance(r.filled) then row'.(amount := residual, partialSold := true) else row'.(flat := true)
  }

  // --------------------------------------------------------- recovering the basis

  /** What the recovered buy order says, after the venue and fee look-ups. */
  datatype Basis = Basis(gross: real, price: real, invested: real, entryFee: real, baseFee: real)

  predicate PlausibleBasis(b: Basis) {
    b.gross > 0.0 && b.price > 0.0 && b.invested > 0.0 && 0.0 <= b.baseFee < b.gross
  }

  /** The part of `c` that goes with the quantity `x` out of `n`. */
  function Share(c: real, x: real, n: real): real
    requires n > 0.0
  {
    c * x / n
  }

  predicate Recoverable(row: Row, b: Basis) {
    && PlausibleBasis(b)
    && b.gross + Tolerance(b.gross) >= Pos(row.observed)
    && (forall k :: 0 <= k < |row.fragments| ==> row.fragments[k].entryId == row.entryId)
    && var net := b.gross - b.baseFee;
    && Sold(row.fragments) <= net + Tolerance(net)
    && (row.fragments != [] ==> Max(0.0, net - Sold(row.fragments)) <= Pos(row.amount) + Tolerance(net))
  }

  function Recovered(row: Row, b: Basis): Row
    requires Recoverable(row, b)
  {
    var net := b.gross - b.baseFee;
    var remaining := Max(0.0, net - Sold(row.fragments));
    var flat := if remaining <= Tolerance(net) then true
                else if row.fragments != [] && !row.alreadyBooked && row.closing.None? then false
                else row.flat;
    row.(buy := b.price, amount := if remaining > Tolerance(net) then remaining else net, original := net,
         invested := Share(b.invested, remaining, net), entryFee := b.entryFee,
         feesPaid := b.entryFee + Sum(ExitFee(), row.fragments), initialCost := b.invested,
         unverified := false, observed := b.gross, remaining := remaining, flat := flat)
  }

  // ---------------------------------------------------------- staging bookings

  function ReceiptId(f: Fragment): Option<Id> {
    if f.orderId.Some? then f.orderId else f.clientId
  }

  predicate Staged(items: seq<Item>, receipt: Option<Id>) {
    exists k :: 0 <= k < |items| && items[k].receipt == receipt
  }

  /** Already booked, or staged and still waiting to be booked. */
  predicate Settled(row: Row, f: Fragment, pending: seq<Item>) {
    f.accounted
    || (f.staged && (Staged(pending, ReceiptId(f)) || (row.closing.Some? && row.closing.value.receipt == ReceiptId(f))))
  }

  predicate Bookable(row: Row, f: Fragment) {
    f.filled > 0.0 && f.price > 0.0 && f.entryId == row.entryId
  }

  /** The last sale, after which nothing but dust is left, closes the position. */
  predicate IsFinal(row: Row, f: Fragment, soldSoFar: real) {
    f.leg != Partial && soldSoFar + Tolerance(row.original) >= row.original
  }

  function EntryFeeSlice(row: Row, f: Fragment): real
    requires row.original > 0.0
  {
    Share(row.entryFee, f.filled, row.original)
  }

  function CostSlice(row: Row, f: Fragment): real
    requires row.original > 0.0
  {
    Share(row.initialCost, f.filled, row.original)
  }

  function Trade(row: Row, f: Fragment): Item
    requires row.original > 0.0
  {
    var fees := EntryFeeSlice(row, f) + f.fee;
    Item(ReceiptId(f), f.price, f.soldAt, f.reason, CostSlice(row, f), fees, f.filled * (f.price - row.buy) - fees)
  }

  datatype Progress = Progress(pending: seq<Item>, closing: Option<Item>, fragments: seq<Fragment>, changed: bool)

  function StageOne(row: Row, p: Progress, f: Fragment, soldSoFar: real): Option<Progress>
    requires row.original > 0.0
  {
    if Settled(row, f, p.pending) then Some(p.(fragments := p.fragments + [f]))
    else if !Bookable(row, f) then None
    else
      var p' := p.(fragments := p.fragments + [f.(staged := true)], changed := true);
      if IsFinal(row, f, soldSoFar) then Some(p'.(closing := Some(Trade(row, f))))
      else Some(p'.(pending := p.pending + [Trade(row, f)]))
  }

  /** The loop over the first `n` fragments. */
  function StageTo(row: Row, n: nat): Option<Progress>
    requires n <= |row.fragments| && row.original > 0.0
  {
    if n == 0 then Some(Progress(row.pending, None, [], false))
    else
      var before := StageTo(row, n - 1);
      if before.None? then None
      else StageOne(row, before.value, row.fragments[n - 1], Sold(row.fragments[..n]))
  }

  predicate Stageable(row: Row) {
    !row.unverified && row.buy > 0.0 && row.original > 0.0 && row.initialCost > 0.0
    && StageTo(row, |row.fragments|).Some?
  }

  function StagedRow(row: Row): Row
    requires Stageable(row)
  {
    var p := StageTo(row, |row.fragments|).value;
    if !p.changed then row
    else row.(pending := p.pending, fragments := p.fragments,
        closing := if p.closing.Some? then p.closing else row.closing)
  }

  // -------------------------------------------------------------- the procedures

  /** The managed row as the caller holds it; the state store may refuse to save. */
  class Ledger {
    var row: Row

    constructor (row: Row)
      ensures this.row == row
    {
      this.row := row;
    }

    method Defer(r: Receipt, now: nat, saved: bool) returns (ok: bool)
      modifies this
      ensures ok == (Deferrable(old(row), r) && saved)
      ensures row == if ok then Deferred(old(row), r, now) else old(row)
    {
      var clientId := ExitId(row, r.leg);
      if (clientId.None? && r.orderId.None?) || r.filled <= 0.0 || r.price <= 0.0 || r.fee.None? {
        return false;
      }
      var i := 0;
      while i < |row.fragments| && !SameReceipt(row.fragments[i], clientId, r.orderId)
        invariant 0 <= i <= |row.fragments|
        invariant forall k :: 0 <= k < i ==> !SameReceipt(row.fragments[k], clientId, r.orderId)
      {
        i := i + 1;
      }
      assert i == Find(row.fragments, clientId, r.orderId);
      var before := if i < |row.fragments| then Pos(row.fragments[i].filled) else 0.0;
      if i < |row.fragments| && !Continues(row.fragments[i], r) {
        return false;
      }
      var delta := Max(0.0, r.filled - before);
      var current := CloseAmount(row);
      if delta > current + Tolerance(r.filled) || !saved {
        return false;
      }
      var residual := Max(0.0, current - delta);
      var merged := Merged(row, r, now);
      row := row.(fragments := merged, remaining := residual, exitIds := row.exitIds - {r.leg});
      if residual > Tolerance(r.filled) {
        row := row.(amount := residual, partialSold := true);
      } else {
        row := row.(flat := true);
      }
      ok := true;
    }

    method Recover(b: Basis, saved: bool) returns (ok: bool)
      modifies this
      ensures ok == (!old(row).unverified || (Recoverable(old(row), b) && saved))
      ensures row == if ok && old(row).unverified then Recovered(old(row), b) else old(row)
    {
      if !row.unverified {
        return true;
      }
      if !PlausibleBasis(b) || b.gross + Tolerance(b.gross) < Pos(row.observed) {
        return false;
      }
      var sold, exitFees, ours, n := 0.0, 0.0, true, 0;
      while n < |row.fragments|
        invariant 0 <= n <= |row.fragments|
        invariant sold == Sold(row.fragments[..n]) && exitFees == Sum(ExitFee(), row.fragments[..n])
        invariant ours <==> forall k :: 0 <= k < n ==> row.fragments[k].entryId == row.entryId
      {
        assert row.fragments[..n + 1][..n] == row.fragments[..n];
        sold, exitFees := sold + Pos(row.fragments[n].filled), exitFees + row.fragments[n].fee;
        ours := ours && row.fragments[n].entryId == row.entryId;
        n := n + 1;
      }
      assert row.fragments[..n] == row.fragments;
      var net := b.gross - b.baseFee;
      var remaining := Max(0.0, net - sold);
      if !ours || sold > net + Tolerance(net)
         || (row.fragments != [] && remaining > Pos(row.amount) + Tolerance(net)) || !saved {
        return false;
      }
      row := Recovered(row, b);
      ok := true;
    }

    method Stage(saved: bool) returns (ok: bool)
      modifies this
      ensures ok <==> Stageable(old(row)) && (saved || !StageTo(old(row), |old(row).fragments|).value.changed)
      ensures row == if ok then StagedRow(old(row)) else old(row)
    {
      if row.unverified || row.buy <= 0.0 || row.original <= 0.0 || row.initialCost <= 0.0 {
        return false;
      }
      var progress := Progress(row.pending, None, [], false);
      var sold, n := 0.0, 0;
      while n < |row.fragments|
        invariant 0 <= n <= |row.fragments|
        invariant sold == Sold(row.fragments[..n])
        invariant StageTo(row, n) == Some(progress)
      {
        assert row.fragments[..n + 1][..n] == row.fragments[..n];
        sold := sold + Pos(row.fragments[n].filled);
        var next := StageOne(row, progress, row.fragments[n], sold);
        assert StageTo(row, n + 1) == next;
        if next.None? {
          StageFailsEarly(row, n + 1);
          return false;
        }
        progress := next.value;
        n := n + 1;
      }
      if !progress.changed {
        return true;
      }
      if !saved {
        return false;
      }
      row := row.(pending := progress.pending, fragments := progress.fragments,
                  closing := if progress.closing.Some? then progress.closing else row.closing);
      ok := true;
    }
  }

  /** A fragment that cannot be booked stops the whole staging. */
  lemma {:induction false} StageFailsEarly(row: Row, n: nat)
    requires n <= |row.fragments| && row.original > 0.0 && StageTo(row, n).None?
    ensures StageTo(row, |row.fragments|).None?
    decreases |row.fragments| - n
  {
    if n < |row.fragments| {
      StageFailsEarly(row, n + 1);
    }
  }

  // --------------------------------------------- the sum of sales is bounded

  lemma {:induction false} SumOfUpdate(weight: Fragment -> real, fragments: seq<Fragment>, i: nat, f: Fragment)
    requires i < |fragments|
    ensures Sum(weight, fragments[i := f]) == Sum(weight, fragments) - weight(fragments[i]) + weight(f)
    decreases |fragments|
  {
    var last := |fragments| - 1;
    if i < last {
      SumOfUpdate(weight, fragments[..last], i, f);
      assert fragments[i := f][..last] == fragments[..last][i := f];
    } else {
      assert fragments[i := f][..last] == fragments[..last];
    }
  }

  lemma SumOfAppend(weight: Fragment -> real, fragments: seq<Fragment>, f: Fragment)
    ensures Sum(weight, fragments + [f]) == Sum(weight, fragments) + weight(f)
  {
    assert (fragments + [f])[..|fragments|] == fragments;
  }

  /** A deferred sale replaces what its receipt had already recorded by what it reports now. */
  lemma SoldAfterDefer(row: Row, r: Receipt, now: nat)
    requires Usable(row, r)
    ensures Sold(Merged(row, r, now)) == Sold(row.fragments) - AlreadyCounted(row, r) + r.filled
  {
    var i := Find(row.fragments, ExitId(row, r.leg), r.orderId);
    var merged := Merged(row, r, now);
    if i < |row.fragments| {
      SumOfUpdate(Quantity(), row.fragments, i, merged[i]);
    } else {
      SumOfAppend(Quantity(), row.fragments, merged[i]);
    }
  }

  /** The first fragment under the leg's client id or under the receipt's order id, if there is one. */
  ghost predicate IsRecordOf(row: Row, r: Receipt, i: nat) {
    var named := (f: Fragment) => (r.leg in row.exitIds && f.clientId == Some(row.exitIds[r.leg]))
                                  || (r.orderId.Some? && f.orderId == r.orderId);
    i <= |row.fragments| && (i < |row.fragments| ==> named(row.fragments[i]))
    && forall k :: 0 <= k < i ==> !named(row.fragments[k])
  }

  /**
    What may still be sold: of a known position its amount, else no more of it
    than was seen bought and is not sold.
   */
  ghost predicate IsRest(row: Row, rest: real) {
    var unsold := row.observed - Sold(row.fragments);
    && rest >= 0.0
    && (row.amount <= 0.0 ==> rest == 0.0)
    && (row.amount > 0.0 && !row.unverified ==> rest == row.amount)
    && (row.amount > 0.0 && row.unverified ==>
          if row.observed <= 0.0 || unsold <= 0.0 then rest == 0.0
          else if unsold <= row.amount then rest == unsold else rest == row.amount)
  }

  lemma CloseAmountIsTheRest(row: Row, rest: real)
    ensures IsRest(row, rest) <==> rest == CloseAmount(row)
  {
    SoldIsNotNegative(row.fragments);
  }

  lemma {:induction false} SoldIsNotNegative(fragments: seq<Fragment>)
    ensures Sold(fragments) >= 0.0
  {
    if fragments != [] {
      SoldIsNotNegative(fragments[..|fragments| - 1]);
    }
  }

  /**
    A sale is taken exactly when it can be named, has a quantity, a price and a
    readable fee, does not contradict or shrink what is recorded of it, which
    must not be staged, and what it adds fits into what may still be sold.
   */
  lemma TakenIff(row: Row, r: Receipt, i: nat, rest: real)
    requires IsRecordOf(row, r, i) && IsRest(row, rest)
    ensures Deferrable(row, r) <==>
              var known := i < |row.fragments|;
              var counted := if known && row.fragments[i].filled > 0.0 then row.fragments[i].filled else 0.0;
              var price := if known && row.fragments[i].price > 0.0 then row.fragments[i].price else 0.0;
              && (r.leg in row.exitIds || r.orderId.Some?) && r.filled > 0.0 && r.price > 0.0 && r.fee.Some?
              && (known ==> && !row.fragments[i].staged
                            && counted <= r.filled + Tolerance(r.filled)
                            && -(r.price * 0.00000001) <= price - r.price <= r.price * 0.00000001
                            && -0.00000001 <= row.fragments[i].fee - r.fee.value <= 0.00000001)
              && r.filled - counted <= rest + Tolerance(r.filled)
  {
    RecordIsFound(row, r, i);
    CloseAmountIsTheRest(row, rest);
  }

  lemma RecordIsFound(row: Row, r: Receipt, i: nat)
    requires IsRecordOf(row, r, i)
    ensures i == Find(row.fragments, ExitId(row, r.leg), r.orderId)
  {
  }

  /** Then the leg has no intent left, and the rest is what the sale leaves. */
  lemma TakenSaleIs(row: Row, r: Receipt, now: nat, i: nat, rest: real)
    requires Deferrable(row, r) && IsRecordOf(row, r, i) && IsRest(row, rest)
    ensures var row' := Deferred(row, r, now);
            var known := i < |row.fragments|;
            var counted := if known && row.fragments[i].filled > 0.0 then row.fragments[i].filled else 0.0;
            var left := if r.filled <= counted then rest else if r.filled - counted >= rest then 0.0
                        else rest - (r.filled - counted);
            && row' == row.(fragments := row'.fragments, remaining := left, exitIds := row'.exitIds,
                            amount := if left > Tolerance(r.filled) then left else row.amount,
                            partialSold := row.partialSold || left > Tolerance(r.filled),
                            flat := row.flat || left <= Tolerance(r.filled))
            && (forall leg :: leg in row'.exitIds <==> leg in row.exitIds && leg != r.leg)
            && (forall leg :: leg in row'.exitIds ==> row'.exitIds[leg] == row.exitIds[leg])
  {
    RecordIsFound(row, r, i);
    CloseAmountIsTheRest(row, rest);
  }

  /** And the receipt is the fragment, with the time of its first report and nothing staged. */
  lemma TakenSaleIsRecorded(row: Row, r: Receipt, now: nat, i: nat)
    requires Deferrable(row, r) && IsRecordOf(row, r, i)
    ensures var row', known := Deferred(row, r, now), i < |row.fragments|;
            && |row'.fragments| == |row.fragments| + (if known then 0 else 1)
            && (forall k :: 0 <= k < |row.fragments| && k != i ==> row'.fragments[k] == row.fragments[k])
            && var f := row'.fragments[i];
            && f.clientId == (if r.leg in row.exitIds then Some(row.exitIds[r.leg]) else None)
            && f.orderId == r.orderId && f.filled == r.filled && f.price == r.price && f.fee == r.fee.value
            && f.leg == r.leg && f.reason == r.reason && f.entryId == row.entryId && !f.staged
            && f.soldAt == (if known then row.fragments[i].soldAt else now)
            && f.accounted == (known && row.fragments[i].accounted)
  {
    RecordIsFound(row, r, i);
  }

  lemma DeferOversellsByTolerance(row: Row, r: Receipt, now: nat)
    requires Deferrable(row, r) && row.unverified
    ensures var row' := Deferred(row, r, now);
            && row'.unverified && row'.observed == row.observed
            && Sold(row'.fragments) <= Max(Sold(row.fragments), Pos(row.observed)) + Tolerance(r.filled)
  {
    SoldAfterDefer(row, r, now);
  }

  /** A new client id before a sell, or a sale reported: the receipt, the clock, and whether the state was saved. */
  datatype Event =
    | NewIntent(leg: Leg, id: Id)
    | Report(receipt: Receipt, now: nat, saved: bool)

  predicate Taken(row: Row, e: Event) {
    e.Report? && e.saved && Deferrable(row, e.receipt)
  }

  function Next(row: Row, e: Event): Row {
    if e.NewIntent? then row.(exitIds := row.exitIds[e.leg := e.id])
    else if Taken(row, e) then Deferred(row, e.receipt, e.now)
    else row
  }

  function After(row: Row, events: seq<Event>): Row {
    if events == [] then row else Next(After(row, events[..|events| - 1]), events[|events| - 1])
  }

  /** The summed per-receipt tolerances of the sales that were taken. */
  function Slack(row: Row, events: seq<Event>): real {
    if events == [] then 0.0
    else
      var init := events[..|events| - 1];
      var e := events[|events| - 1];
      Slack(row, init) + (if Taken(After(row, init), e) then Tolerance(e.receipt.filled) else 0.0)
  }

  /**
    Whatever sells are prepared and whatever sales are reported while the buy is
    unverified, in any order, with repeats, updates and failed saves: their total
    never exceeds the quantity seen bought, up to the tolerances of the sales
    that were taken.
   */
  lemma {:induction false} SalesStayWithinTheBuy(row: Row, events: seq<Event>)
    requires row.unverified && Sold(row.fragments) <= Pos(row.observed)
    ensures var row' := After(row, events);
            && row'.unverified && row'.observed == row.observed
            && Sold(row'.fragments) <= Pos(row.observed) + Slack(row, events)
            && Slack(row, events) >= 0.0
  {
    if events != [] {
      var init, e := events[..|events| - 1], events[|events| - 1];
      SalesStayWithinTheBuy(row, init);
      if Taken(After(row, init), e) {
        DeferOversellsByTolerance(After(row, init), e.receipt, e.now);
      }
    }
  }

  // -------------------------------------------------------- replaying a receipt

  /** The row accounts for at least what was bought and is not sold yet. */
  predicate Backed(row: Row) {
    row.amount >= Pos(row.observed) - Sold(row.fragments)
  }

  lemma {:induction false} FindIsFirst(fragments: seq<Fragment>, clientId: Option<Id>, orderId: Option<Id>, i: nat)
    requires i <= |fragments| && (i < |fragments| ==> SameReceipt(fragments[i], clientId, orderId))
    requires forall k :: 0 <= k < i ==> !SameReceipt(fragments[k], clientId, orderId)
    ensures Find(fragments, clientId, orderId) == i
    decreases |fragments|
  {
    if fragments != [] && i > 0 {
      FindIsFirst(fragments[1..], clientId, orderId, i - 1);
    }
  }

  lemma MergedFindsIt(row: Row, r: Receipt, now: nat)
    requires Usable(row, r) && r.orderId.Some?
    ensures var i, merged := Find(row.fragments, ExitId(row, r.leg), r.orderId), Merged(row, r, now);
            && i < |merged| && Find(merged, None, r.orderId) == i
            && Pos(merged[i].filled) == r.filled && Continues(merged[i], r)
  {
    var i, merged := Find(row.fragments, ExitId(row, r.leg), r.orderId), Merged(row, r, now);
    assert forall k :: 0 <= k < i ==> merged[k] == row.fragments[k];
    FindIsFirst(merged, None, r.orderId, i);
  }

  /** Reported again, the receipt is found where it was recorded, with nothing left to add. */
  lemma ReplayIsRecognised(row: Row, r: Receipt, now: nat)
    requires Deferrable(row, r) && r.orderId.Some?
    ensures var row' := Deferred(row, r, now);
            && ExitId(row', r.leg) == None
            && Find(row'.fragments, None, r.orderId) == Find(row.fragments, ExitId(row, r.leg), r.orderId)
            && Find(row'.fragments, None, r.orderId) < |row'.fragments|
            && Delta(row', r) == 0.0 && Deferrable(row', r)
  {
    MergedFindsIt(row, r, now);
    var row' := Deferred(row, r, now);
    assert row'.fragments == Merged(row, r, now) && ExitId(row', r.leg) == None;
    assert CloseAmount(row') >= 0.0;
  }

  /** Without an order id the first save leaves nothing by which the receipt could be told again. */
  lemma UnnamedReplayIsRefused(row: Row, r: Receipt, now: nat)
    requires Deferrable(row, r) && r.orderId.None?
    ensures !Deferrable(Deferred(row, r, now), r)
  {
    assert ExitId(Deferred(row, r, now), r.leg) == None;
  }

  /** The fragment at an index loses the client id it was recorded under. */
  function ClientIdCleared(fragments: seq<Fragment>, i: nat): seq<Fragment>
    requires i < |fragments|
  {
    fragments[i := fragments[i].(clientId := None)]
  }

  /** What a save writes into the fragment of its receipt. */
  lemma MergedFragment(row: Row, r: Receipt, now: nat, i: nat)
    requires r.fee.Some? && i == Find(row.fragments, ExitId(row, r.leg), r.orderId)
    ensures var merged := Merged(row, r, now);
            && i < |merged|
            && merged[i] == Fragment(ExitId(row, r.leg), r.orderId, r.filled, r.price, r.fee.value, r.leg,
                                     merged[i].soldAt, r.reason, row.entryId, false, merged[i].accounted)
            && (i < |row.fragments| ==>
                  && merged == row.fragments[i := merged[i]]
                  && merged[i].soldAt == row.fragments[i].soldAt && merged[i].accounted == row.fragments[i].accounted)
  {
  }

  lemma ReplayedFragments(row: Row, r: Receipt, now: nat, later: nat)
    requires Deferrable(row, r) && r.orderId.Some?
    ensures var row' := Deferred(row, r, now);
            var i := Find(row.fragments, ExitId(row, r.leg), r.orderId);
            && i < |row'.fragments| && row'.fragments[i].clientId == ExitId(row, r.leg)
            && Merged(row', r, later) == ClientIdCleared(row'.fragments, i)
  {
    MergedFindsIt(row, r, now);
    var row' := Deferred(row, r, now);
    assert row'.fragments == Merged(row, r, now) && ExitId(row', r.leg) == None;
    var i := Find(row.fragments, ExitId(row, r.leg), r.orderId);
    MergedFragment(row, r, now, i);
    MergedFragment(row', r, later, i);
  }

  /**
    When the second save leaves the remaining amount alone, by the amount of the
    row, what was seen bought and not sold yet, and the sale that the first save
    added or took back.
   */
  predicate RestLasts(amount: real, unsold: real, sale: real, tolerance: real) {
    || sale == 0.0 || amount <= 0.0 || unsold <= sale
    || Min(amount, Max(0.0, unsold)) - Max(0.0, sale) > tolerance
    || (if sale > 0.0 then amount >= unsold else amount <= unsold)
  }

  /** What may be closed after the first save, and with it what remains after the second. */
  function RestAgain(amount: real, unsold: real, sale: real, tolerance: real): real {
    var rest := Max(0.0, Min(Pos(amount), Max(0.0, unsold)) - Max(0.0, sale));
    Min(Pos(if rest > tolerance then rest else amount), Max(0.0, unsold - sale))
  }

  lemma RestLastsIff(amount: real, unsold: real, sale: real, tolerance: real)
    requires tolerance > 0.0
    ensures RestAgain(amount, unsold, sale, tolerance) == Max(0.0, Min(Pos(amount), Max(0.0, unsold)) - Max(0.0, sale))
       <==> RestLasts(amount, unsold, sale, tolerance)
  {
  }

  lemma CloseAmountAfterDefer(row: Row, r: Receipt, now: nat)
    requires Deferrable(row, r) && row.unverified
    ensures CloseAmount(Deferred(row, r, now))
         == RestAgain(row.amount, Pos(row.observed) - Sold(row.fragments), r.filled - AlreadyCounted(row, r),
             Tolerance(r.filled))
  {
    SoldAfterDefer(row, r, now);
  }

  /** What a save leaves behind it. */
  predicate Saved(row: Row, r: Receipt) {
    && r.leg !in row.exitIds
    && (if row.remaining > Tolerance(r.filled) then row.amount == row.remaining && row.partialSold else row.flat)
  }

  lemma SaveLeaves(row: Row, r: Receipt, now: nat)
    requires Deferrable(row, r) && row.unverified
    ensures var row' := Deferred(row, r, now);
            && Saved(row', r)
            && row'.remaining == Max(0.0, Min(Pos(row.amount), Max(0.0, Pos(row.observed) - Sold(row.fragments)))
                                          - Max(0.0, r.filled - AlreadyCounted(row, r)))
  {
  }

  /** A second save that adds nothing changes more than the fragments only if it changes the rest. */
  lemma SecondSave(row: Row, r: Receipt, now: nat)
    requires Deferrable(row, r) && Delta(row, r) == 0.0 && Saved(row, r)
    ensures Deferred(row, r, now) == row.(fragments := Merged(row, r, now)) <==> CloseAmount(row) == row.remaining
    ensures Deferred(row, r, now).remaining == CloseAmount(row)
  {
    assert row.exitIds - {r.leg} == row.exitIds;
  }

  /**
    Saving a receipt twice.  The second save changes nothing but the client id of
    the fragment, which the first one has cleared from the row, exactly under
    the condition above; otherwise it brings sold units back.
   */
  lemma ReplayChangesOnlyTheClientIdIff(row: Row, r: Receipt, now: nat, later: nat)
    requires Deferrable(row, r) && r.orderId.Some? && row.unverified
    ensures var row' := Deferred(row, r, now);
            var i := Find(row.fragments, ExitId(row, r.leg), r.orderId);
            && Deferrable(row', r) && i < |row'.fragments|
            && (Deferred(row', r, later) == row'.(fragments := ClientIdCleared(row'.fragments, i)) <==>
                  RestLasts(row.amount, Pos(row.observed) - Sold(row.fragments), r.filled - AlreadyCounted(row, r),
                      Tolerance(r.filled)))
  {
    ReplayIsRecognised(row, r, now);
    ReplayedFragments(row, r, now, later);
    CloseAmountAfterDefer(row, r, now);
    SaveLeaves(row, r, now);
    SecondSave(Deferred(row, r, now), r, later);
    RestLastsIff(row.amount, Pos(row.observed) - Sold(row.fragments), r.filled - AlreadyCounted(row, r),
        Tolerance(r.filled));
  }

  /** A backed row meets the condition as long as receipts do not shrink. */
  lemma ReplayOfABackedRow(row: Row, r: Receipt, now: nat, later: nat)
    requires Deferrable(row, r) && r.orderId.Some? && row.unverified && Backed(row)
        && r.filled >= AlreadyCounted(row, r)
    ensures var row' := Deferred(row, r, now);
            var i := Find(row.fragments, ExitId(row, r.leg), r.orderId);
            && Deferrable(row', r) && i < |row'.fragments|
            && Deferred(row', r, later) == row'.(fragments := ClientIdCleared(row'.fragments, i))
  {
    ReplayChangesOnlyTheClientIdIff(row, r, now, later);
  }

  /** Fragment `i` holds what the receipt reported. */
  predicate Records(row: Row, r: Receipt, i: nat) {
    i < |row.fragments| && r.orderId.Some? && r.fee.Some? && r.filled > 0.0 && r.price > 0.0 &&
    var f := row.fragments[i];
    f == Fragment(f.clientId, r.orderId, r.filled, r.price, r.fee.value, r.leg, f.soldAt, r.reason, row.entryId, false,
                  f.accounted)
  }

  /** None of the events reports a sale of fragment `i`. */
  predicate NoneIsAbout(row: Row, events: seq<Event>, i: nat) {
    events == [] ||
    var init, e := events[..|events| - 1], events[|events| - 1];
    && NoneIsAbout(row, init, i)
    && (e.Report? ==> Find(After(row, init).fragments, ExitId(After(row, init), e.receipt.leg), e.receipt.orderId) != i)
  }

  lemma OtherSaleKeepsRecord(row: Row, r: Receipt, i: nat, other: Receipt, now: nat)
    requires Records(row, r, i) && Deferrable(row, other)
    requires Find(row.fragments, ExitId(row, other.leg), other.orderId) != i
    ensures Records(Deferred(row, other, now), r, i)
  {
    var row' := Deferred(row, other, now);
    MergedFragment(row, other, now, Find(row.fragments, ExitId(row, other.leg), other.orderId));
    assert row'.fragments[i] == row.fragments[i];
  }

  /** A fragment outlives all events that are not about it. */
  lemma {:induction false} RecordLasts(row: Row, r: Receipt, events: seq<Event>, i: nat)
    requires Records(row, r, i) && NoneIsAbout(row, events, i)
    ensures Records(After(row, events), r, i)
  {
    if events != [] {
      var init, e := events[..|events| - 1], events[|events| - 1];
      RecordLasts(row, r, init, i);
      if Taken(After(row, init), e) {
        OtherSaleKeepsRecord(After(row, init), r, i, e.receipt, e.now);
      }
    }
  }

  lemma RecordedSaleIsTaken(row: Row, r: Receipt, i: nat)
    requires Records(row, r, i) && Find(row.fragments, ExitId(row, r.leg), r.orderId) == i
    ensures Deferrable(row, r) && Delta(row, r) == 0.0 && AlreadyCounted(row, r) == r.filled
  {
    assert CloseAmount(row) >= 0.0;
  }

  lemma RelabelledFragments(row: Row, r: Receipt, now: nat, i: nat)
    requires Records(row, r, i) && Find(row.fragments, ExitId(row, r.leg), r.orderId) == i
    ensures Merged(row, r, now) == row.fragments[i := row.fragments[i].(clientId := ExitId(row, r.leg))]
  {
  }

  /** What a report of a recorded sale does to a row. */
  lemma RecordedSaleTakesTheIntent(row: Row, r: Receipt, now: nat, i: nat)
    requires Records(row, r, i) && Find(row.fragments, ExitId(row, r.leg), r.orderId) == i
    ensures Deferrable(row, r) && Delta(row, r) == 0.0
    ensures var row' := Deferred(row, r, now);
            && row'.fragments == row.fragments[i := row.fragments[i].(clientId := ExitId(row, r.leg))]
            && row'.exitIds == row.exitIds - {r.leg} && Sold(row'.fragments) == Sold(row.fragments)
            && row'.remaining == CloseAmount(row)
  {
    RecordedSaleIsTaken(row, r, i);
    RelabelledFragments(row, r, now, i);
    SoldAfterDefer(row, r, now);
  }

  lemma SaveRecords(row: Row, r: Receipt, now: nat, i: nat)
    requires Deferrable(row, r) && r.orderId.Some? && i == Find(row.fragments, ExitId(row, r.leg), r.orderId)
    ensures Records(Deferred(row, r, now), r, i)
  {
    MergedFragment(row, r, now, i);
  }

  /**
    A receipt that is reported again at any later time, when other sales have been
    reported and new intents have come into the row, still adds nothing.  But it
    takes the newest intent of its leg with it: its fragment gets that client id,
    and the row loses it.
   */
  lemma LaterReplayTakesTheIntent(row: Row, r: Receipt, now: nat, events: seq<Event>, later: nat)
    requires Deferrable(row, r) && r.orderId.Some?
    requires var i, row' := Find(row.fragments, ExitId(row, r.leg), r.orderId), After(Deferred(row, r, now), events);
             NoneIsAbout(Deferred(row, r, now), events, i) && Find(row'.fragments, ExitId(row', r.leg), r.orderId) == i
    ensures var i, row' := Find(row.fragments, ExitId(row, r.leg), r.orderId), After(Deferred(row, r, now), events);
            && i < |row'.fragments| && Deferrable(row', r) && Delta(row', r) == 0.0
            && var row'' := Deferred(row', r, later);
            && row''.fragments == row'.fragments[i := row'.fragments[i].(clientId := ExitId(row', r.leg))]
            && row''.exitIds == row'.exitIds - {r.leg} && Sold(row''.fragments) == Sold(row'.fragments)
            && row''.remaining == CloseAmount(row')
  {
    var i := Find(row.fragments, ExitId(row, r.leg), r.orderId);
    SaveRecords(row, r, now, i);
    RecordLasts(Deferred(row, r, now), r, events, i);
    RecordedSaleTakesTheIntent(After(Deferred(row, r, now), events), r, later, i);
  }

  /** A position of `amount` units, `observed` of which were seen bought, with an order id for its emergency sale. */
  function FreshRow(amount: real, observed: real): Row {
    Row("e", true, amount, observed, observed, false, false, map[Emergency := "c"], [],
        0.0, amount, 0.0, 0.0, 0.0, 0.0, [], None, false)
  }

  function SaleOf(orderId: Id, filled: real): Receipt {
    Receipt(Emergency, Some(orderId), filled, 1.0, Some(0.0), "")
  }

  lemma NoFragments()
    ensures Sold([]) == 0.0 && forall c: Option<Id>, o: Option<Id> :: Find([], c, o) == 0
  {
  }

  /** It happens: of three units seen bought, one is sold; reported again, that unit is there again. */
  lemma AReplayRevivesTheRest()
    ensures var row, r := FreshRow(1.0, 3.0), SaleOf("o", 1.0);
            && Deferrable(row, r) && Deferrable(Deferred(row, r, 0), r)
            && Deferred(row, r, 0).remaining == 0.0 && Deferred(Deferred(row, r, 0), r, 0).remaining == 1.0
  {
    var row, r := FreshRow(1.0, 3.0), SaleOf("o", 1.0);
    NoFragments();
    assert Deferrable(row, r);
    ReplayIsRecognised(row, r, 0);
    CloseAmountAfterDefer(row, r, 0);
    SaveLeaves(row, r, 0);
    SecondSave(Deferred(row, r, 0), r, 0);
  }

  /** While the receipts only grow, a backed row stays backed and its rest is exact. */
  lemma BackedRestIsExact(row: Row, r: Receipt, now: nat)
    requires Deferrable(row, r) && row.unverified && Backed(row) && r.filled >= AlreadyCounted(row, r)
    requires row.amount >= 0.0
    ensures var row' := Deferred(row, r, now);
            Backed(row') && row'.remaining == Max(0.0, Pos(row.observed) - Sold(row'.fragments))
  {
    SoldAfterDefer(row, r, now);
  }

  // ------------------------------------------------ the basis splits exactly

  lemma Proportion(c: real, a: real, b: real, sum: real, n: real)
    requires n > 0.0 && a + b == sum
    ensures Share(c, a, n) + Share(c, b, n) == Share(c, sum, n)
  {
    Distribute(c, a, b, n);
    assert c * (a + b) == c * sum;
  }

  lemma Distribute(c: real, a: real, b: real, n: real)
    requires n > 0.0
    ensures c * a / n + c * b / n == c * (a + b) / n
  {
  }

  lemma Whole(c: real, n: real)
    requires n > 0.0
    ensures Share(c, n, n) == c
  {
  }

  /**
    Recovery keeps every unit: what was sold and what remains is the net amount
    bought, and cost and entry fee split in the same proportion.  Only a total
    within the tolerance above the net amount is accepted beyond that.
   */
  lemma RecoverySplitsTheBuy(row: Row, b: Basis)
    requires Recoverable(row, b)
    ensures var row', net, sold := Recovered(row, b), b.gross - b.baseFee, Sold(row.fragments);
            && row'.original == net > 0.0
            && (sold <= net ==>
                  && sold + row'.remaining == net
                  && Share(row'.initialCost, sold, row'.original) + row'.invested == b.invested
                  && Share(row'.entryFee, sold, row'.original) + Share(row'.entryFee, row'.remaining, row'.original)
                      == b.entryFee)
            && (sold > net ==> row'.remaining == 0.0 && sold <= net + Tolerance(net))
  {
    var net, sold := b.gross - b.baseFee, Sold(row.fragments);
    if sold <= net {
      Proportion(b.invested, sold, net - sold, net, net);
      Proportion(b.entryFee, sold, net - sold, net, net);
      Whole(b.invested, net);
      Whole(b.entryFee, net);
    }
  }

  /**
    A basis is taken exactly when it makes sense, covers what was seen and
    sold, and leaves no more than the row has.
   */
  lemma RecoverableIff(row: Row, b: Basis)
    ensures Recoverable(row, b) <==>
              var net, sold := b.gross - b.baseFee, Sold(row.fragments);
              && b.gross > 0.0 && b.price > 0.0 && b.invested > 0.0 && b.baseFee >= 0.0 && net > 0.0
              && row.observed <= b.gross + Tolerance(b.gross)
              && (forall f :: f in row.fragments ==> f.entryId == row.entryId)
              && sold <= net + Tolerance(net)
              && (row.fragments != [] ==> net - sold <= (if row.amount > 0.0 then row.amount else 0.0) + Tolerance(net))
  {
  }

  /** What recovery writes beside the amounts; a flat mark that only the placeholder exhausted is taken back. */
  lemma RecoveredIs(row: Row, b: Basis)
    requires Recoverable(row, b)
    ensures var row', rest := Recovered(row, b), Recovered(row, b).remaining;
            && row' == row.(buy := b.price, entryFee := b.entryFee, initialCost := b.invested, observed := b.gross,
                            unverified := false, original := b.gross - b.baseFee, remaining := rest,
                            amount := row'.amount, invested := row'.invested, feesPaid := row'.feesPaid,
                            flat := row'.flat)
            && row'.amount == (if rest > Tolerance(row'.original) then rest else row'.original)
            && row'.feesPaid == b.entryFee + Sum(ExitFee(), row.fragments)
            && (rest <= Tolerance(row'.original) ==> row'.flat)
            && (rest > Tolerance(row'.original) ==>
                  row'.flat == (row.flat && (row.fragments == [] || row.alreadyBooked || row.closing.Some?)))
  {
  }

  // ------------------------------------------------------- one turn of the staging

  /** The booking of a sale carries its own order, price, time, reason, share of the cost, fees and profit. */
  ghost predicate IsBookingOf(row: Row, f: Fragment, item: Item)
    requires row.original > 0.0
  {
    && item.receipt == (match f.orderId case Some(id) => Some(id) case None => f.clientId)
    && item.price == f.price && item.soldAt == f.soldAt && item.reason == f.reason
    && item.invested == row.initialCost * f.filled / row.original
    && item.fees == row.entryFee * f.filled / row.original + f.fee
    && item.profit == f.filled * (f.price - row.buy) - item.fees
  }

  /** A sale that is booked, or whose booking waits, is not booked again. */
  ghost predicate IsSettled(row: Row, f: Fragment, pending: seq<Item>) {
    var id := match f.orderId case Some(id) => Some(id) case None => f.clientId;
    f.accounted
    || (f.staged && ((exists item :: item in pending && item.receipt == id)
                     || (row.closing.Some? && row.closing.value.receipt == id)))
  }

  /** It closes the position if it is no partial sale and at most dust is left after it. */
  ghost predicate ClosesThePosition(row: Row, f: Fragment, sold: real) {
    f.leg != Partial && row.original - sold <= Tolerance(row.original)
  }

  /** Every turn books its fragment, or leaves everything as it is when that is settled. */
  lemma TurnIs(row: Row, k: nat)
    requires k < |row.fragments| && row.original > 0.0 && StageTo(row, k + 1).Some?
    ensures StageTo(row, k).Some?
    ensures var p, p', f := StageTo(row, k).value, StageTo(row, k + 1).value, row.fragments[k];
            if IsSettled(row, f, p.pending) then p' == p.(fragments := p.fragments + [f])
            else
              && p'.changed && p'.fragments == p.fragments + [f.(staged := true)]
              && f.filled > 0.0 && f.price > 0.0 && f.entryId == row.entryId
              && (if ClosesThePosition(row, f, Sold(row.fragments[..k + 1])) then
                    p'.pending == p.pending && p'.closing.Some? && IsBookingOf(row, f, p'.closing.value)
                  else
                    && p'.closing == p.closing && |p'.pending| == |p.pending| + 1
                    && p'.pending[..|p.pending|] == p.pending && IsBookingOf(row, f, p'.pending[|p.pending|]))
  {
    SettledIff(row, row.fragments[k], StageTo(row, k).value.pending);
    BookingIs(row, row.fragments[k]);
  }

  lemma BookingIs(row: Row, f: Fragment)
    requires row.original > 0.0
    ensures IsBookingOf(row, f, Trade(row, f))
  {
  }

  lemma SettledIff(row: Row, f: Fragment, pending: seq<Item>)
    ensures IsSettled(row, f, pending) <==> Settled(row, f, pending)
  {
    if exists item :: item in pending && item.receipt == ReceiptId(f) {
      var item :| item in pending && item.receipt == ReceiptId(f);
      var k :| 0 <= k < |pending| && pending[k] == item;
      assert pending[k].receipt == ReceiptId(f);
    }
  }

  /** A turn fails exactly for a fragment that is not settled and cannot be booked. */
  lemma TurnFailsIff(row: Row, k: nat)
    requires k < |row.fragments| && row.original > 0.0 && StageTo(row, k).Some?
    ensures StageTo(row, k + 1).None? <==>
              var f := row.fragments[k];
              && !IsSettled(row, f, StageTo(row, k).value.pending)
              && (f.filled <= 0.0 || f.price <= 0.0 || f.entryId != row.entryId)
  {
    SettledIff(row, row.fragments[k], StageTo(row, k).value.pending);
  }

  /** Staging leaves the row as it is exactly when every sale of it is settled. */
  lemma NothingIsStagedIff(row: Row)
    requires Stageable(row)
    ensures StagedRow(row) == row <==> forall f :: f in row.fragments ==> IsSettled(row, f, row.pending)
  {
    var n := |row.fragments|;
    UnchangedIff(row, n);
    if StageTo(row, n).value.changed {
      StagedDiffers(row, n);
    }
  }

  lemma {:induction false} UnchangedIff(row: Row, n: nat)
    requires n <= |row.fragments| && row.original > 0.0 && StageTo(row, n).Some?
    ensures var p := StageTo(row, n).value;
            && |p.pending| >= |row.pending| && p.pending[..|row.pending|] == row.pending
            && (!p.changed ==> p.pending == row.pending)
            && (!p.changed <==> forall k :: 0 <= k < n ==> IsSettled(row, row.fragments[k], row.pending))
  {
    if n > 0 {
      TurnIs(row, n - 1);
      UnchangedIff(row, n - 1);
    }
  }

  /** A turn that books leaves more bookings waiting, or another closing one. */
  lemma {:induction false} StagedDiffers(row: Row, n: nat)
    requires n <= |row.fragments| && row.original > 0.0 && StageTo(row, n).Some? && StageTo(row, n).value.changed
    ensures var p := StageTo(row, n).value;
            |p.pending| > |row.pending| || (p.closing.Some? && p.closing != row.closing)
            || exists k :: 0 <= k < n && !row.fragments[k].staged && k < |p.fragments| && p.fragments[k].staged
    ensures |StageTo(row, n).value.fragments| == n
  {
    TurnIs(row, n - 1);
    LengthOfStaged(row, n - 1);
    UnchangedIff(row, n - 1);
    var p, f := StageTo(row, n - 1).value, row.fragments[n - 1];
    if p.changed {
      StagedDiffers(row, n - 1);
    }
    if !IsSettled(row, f, p.pending) && !f.staged {
      assert StageTo(row, n).value.fragments[n - 1].staged;
    }
  }

  lemma {:induction false} LengthOfStaged(row: Row, n: nat)
    requires n <= |row.fragments| && row.original > 0.0 && StageTo(row, n).Some?
    ensures |StageTo(row, n).value.fragments| == n
  {
    if n > 0 {
      TurnIs(row, n - 1);
      LengthOfStaged(row, n - 1);
    }
  }

  // -------------------------------------------------- staging keeps the slices

  function Total(weight: Item -> real, items: seq<Item>): real {
    if items == [] then 0.0 else Total(weight, items[..|items| - 1]) + weight(items[|items| - 1])
  }

  function OfClosing(weight: Item -> real, closing: Option<Item>): real {
    if closing.Some? then weight(closing.value) else 0.0
  }

  function Invested(): Item -> real {
    (i: Item) => i.invested
  }

  function Fees(): Item -> real {
    (i: Item) => i.fees
  }

  /** Nothing of this row has been staged or booked yet. */
  predicate Fresh(row: Row) {
    row.closing.None? && forall k :: 0 <= k < |row.fragments| ==>
        !row.fragments[k].staged && !row.fragments[k].accounted
  }

  predicate FinalAt(row: Row, k: nat)
    requires k < |row.fragments|
  {
    IsFinal(row, row.fragments[k], Sold(row.fragments[..k + 1]))
  }

  function Finals(row: Row, n: nat): nat
    requires n <= |row.fragments|
  {
    if n == 0 then 0 else Finals(row, n - 1) + (if FinalAt(row, n - 1) then 1 else 0)
  }

  /** The bookings that a later closing sale overwrites. */
  function Overwritten(row: Row, weight: Item -> real, n: nat): real
    requires n <= |row.fragments| && row.original > 0.0 && StageTo(row, n).Some?
  {
    if n == 0 then 0.0
    else Overwritten(row, weight, n - 1)
         + (if FinalAt(row, n - 1) then OfClosing(weight, StageTo(row, n - 1).value.closing) else 0.0)
  }

  /** `slice` gives each fragment what its booking is worth under `weight`. */
  ghost predicate Matches(row: Row, weight: Item -> real, slice: Fragment -> real)
    requires row.original > 0.0
  {
    forall f: Fragment :: f.filled > 0.0 ==> weight(Trade(row, f)) == slice(f)
  }

  lemma TotalOfAppend(weight: Item -> real, items: seq<Item>, item: Item)
    ensures Total(weight, items + [item]) == Total(weight, items) + weight(item)
  {
    assert (items + [item])[..|items|] == items;
  }

  lemma FreshStep(row: Row, n: nat)
    requires Fresh(row) && 0 < n <= |row.fragments| && row.original > 0.0 && StageTo(row, n).Some?
    ensures StageTo(row, n - 1).Some?
    ensures var p, p', f := StageTo(row, n - 1).value, StageTo(row, n).value, row.fragments[n - 1];
            && Bookable(row, f) && p'.changed && p'.fragments == p.fragments + [f.(staged := true)]
            && (if FinalAt(row, n - 1) then p'.pending == p.pending && p'.closing == Some(Trade(row, f))
                else p'.pending == p.pending + [Trade(row, f)] && p'.closing == p.closing)
  {
  }

  /** Worth of the bookings made in the first `n` turns, and of those overwritten. */
  function StagedSoFar(row: Row, weight: Item -> real, n: nat): real
    requires row.original > 0.0
  {
    if n > |row.fragments| || StageTo(row, n).None? then 0.0
    else
      var p := StageTo(row, n).value;
      Total(weight, p.pending) + OfClosing(weight, p.closing) + Overwritten(row, weight, n)
  }

  /** The booking that a turn makes, known by its worth alone. */
  lemma OneTurn(row: Row, weight: Item -> real, slice: Fragment -> real, n: nat) returns (item: Item)
    requires Fresh(row) && n < |row.fragments| && row.original > 0.0 && StageTo(row, n + 1).Some?
    requires Matches(row, weight, slice)
    ensures StageTo(row, n).Some? && weight(item) == slice(row.fragments[n])
    ensures var p, p' := StageTo(row, n).value, StageTo(row, n + 1).value;
            if FinalAt(row, n) then p'.pending == p.pending && p'.closing == Some(item)
            else p'.pending == p.pending + [item] && p'.closing == p.closing
  {
    FreshStep(row, n + 1);
    item := Trade(row, row.fragments[n]);
  }

  lemma OneTurnAddsASlice(row: Row, weight: Item -> real, slice: Fragment -> real, n: nat)
    requires Fresh(row) && n < |row.fragments| && row.original > 0.0 && StageTo(row, n + 1).Some?
    requires Matches(row, weight, slice)
    ensures StagedSoFar(row, weight, n + 1) == StagedSoFar(row, weight, n) + slice(row.fragments[n])
  {
    var item := OneTurn(row, weight, slice, n);
    OneItemMore(weight, StageTo(row, n).value, StageTo(row, n + 1).value, item, FinalAt(row, n));
  }

  lemma OneItemMore(weight: Item -> real, p: Progress, p': Progress, item: Item, final: bool)
    requires if final then p'.pending == p.pending && p'.closing == Some(item)
             else p'.pending == p.pending + [item] && p'.closing == p.closing
    ensures Total(weight, p'.pending) + OfClosing(weight, p'.closing)
        + (if final then OfClosing(weight, p.closing) else 0.0)
         == Total(weight, p.pending) + OfClosing(weight, p.closing) + weight(item)
  {
    TotalOfAppend(weight, p.pending, item);
  }

  lemma EarlierTurnSucceeded(row: Row, n: nat)
    requires n < |row.fragments| && row.original > 0.0 && StageTo(row, n + 1).Some?
    ensures StageTo(row, n).Some?
  {
  }

  lemma StagedAtFirst(row: Row, weight: Item -> real)
    requires row.original > 0.0
    ensures StagedSoFar(row, weight, 0) == Total(weight, row.pending)
  {
  }

  /** Bookings made, plus bookings overwritten, are worth exactly the slices of the fragments. */
  lemma {:induction false} StagingAddsTheSlices(row: Row, weight: Item -> real, slice: Fragment -> real, n: nat)
    requires Fresh(row) && n <= |row.fragments| && row.original > 0.0 && StageTo(row, n).Some?
    requires Matches(row, weight, slice)
    ensures StagedSoFar(row, weight, n) == Total(weight, row.pending) + Sum(slice, row.fragments[..n])
  {
    if n == 0 {
      StagedAtFirst(row, weight);
    } else {
      EarlierTurnSucceeded(row, n - 1);
      StagingAddsTheSlices(row, weight, slice, n - 1);
      OneTurnAddsASlice(row, weight, slice, n - 1);
      SumOfPrefix(slice, row.fragments, n - 1);
    }
  }

  lemma SumOfPrefix(weight: Fragment -> real, fragments: seq<Fragment>, n: nat)
    requires n < |fragments|
    ensures Sum(weight, fragments[..n + 1]) == Sum(weight, fragments[..n]) + weight(fragments[n])
  {
    assert fragments[..n + 1][..n] == fragments[..n];
  }

  lemma {:induction false} OneFinalOverwritesNothing(row: Row, weight: Item -> real, n: nat)
    requires Fresh(row) && n <= |row.fragments| && row.original > 0.0 && StageTo(row, n).Some?
    ensures StageTo(row, n).value.closing.Some? <==> Finals(row, n) > 0
    ensures Finals(row, n) <= 1 ==> Overwritten(row, weight, n) == 0.0
  {
    if n > 0 {
      FreshStep(row, n);
      OneFinalOverwritesNothing(row, weight, n - 1);
    }
  }

  lemma PositiveSlice(c: real, q: real, n: real)
    requires c > 0.0 && q > 0.0 && n > 0.0
    ensures c * q / n > 0.0
  {
  }

  lemma {:induction false} TwoFinalsOverwriteSomething(row: Row, n: nat)
    requires Fresh(row) && n <= |row.fragments| && row.original > 0.0 && row.initialCost > 0.0 && StageTo(row, n).Some?
    ensures OfClosing(Invested(), StageTo(row, n).value.closing) >= 0.0
    ensures Finals(row, n) > 0 ==> OfClosing(Invested(), StageTo(row, n).value.closing) > 0.0
    ensures Overwritten(row, Invested(), n) >= 0.0
    ensures Finals(row, n) > 1 ==> Overwritten(row, Invested(), n) > 0.0
  {
    if n > 0 {
      FreshStep(row, n);
      TwoFinalsOverwriteSomething(row, n - 1);
      TradeIsPositive(row, row.fragments[n - 1]);
    }
  }

  lemma TradeIsPositive(row: Row, f: Fragment)
    requires row.original > 0.0 && row.initialCost > 0.0 && Bookable(row, f)
    ensures Invested()(Trade(row, f)) > 0.0
  {
    PositiveSlice(row.initialCost, f.filled, row.original);
  }

  /** Each fragment's part of `c`, in proportion to its quantity out of `n`. */
  function Slices(c: real, n: real): Fragment -> real
    requires n > 0.0
  {
    (f: Fragment) => Share(c, Pos(f.filled), n)
  }

  function FeeSlices(row: Row): Fragment -> real
    requires row.original > 0.0
  {
    (f: Fragment) => Share(row.entryFee, Pos(f.filled), row.original) + f.fee
  }

  lemma {:induction false} SumIsAdditive(weight: Fragment -> real, part: real -> real, fragments: seq<Fragment>)
    requires forall f: Fragment :: weight(f) == part(Pos(f.filled))
    requires Additive(part)
    ensures Sum(weight, fragments) == part(Sold(fragments))
  {
    if fragments == [] {
      assert part(0.0) + part(0.0) == part(0.0);
    } else {
      SumIsAdditive(weight, part, fragments[..|fragments| - 1]);
    }
  }

  ghost predicate Additive(part: real -> real) {
    forall x: real, y: real, z: real :: x + y == z ==> part(x) + part(y) == part(z)
  }

  function Part(c: real, n: real): real -> real
    requires n > 0.0
  {
    (x: real) => Share(c, x, n)
  }

  lemma PartIsAdditive(c: real, n: real)
    requires n > 0.0
    ensures Additive(Part(c, n))
  {
    forall x: real, y: real, z: real | x + y == z ensures Part(c, n)(x) + Part(c, n)(y) == Part(c, n)(z) {
      Proportion(c, x, y, z, n);
    }
  }

  lemma SlicesAreProportional(c: real, n: real, fragments: seq<Fragment>)
    requires n > 0.0
    ensures Sum(Slices(c, n), fragments) == Part(c, n)(Sold(fragments))
  {
    PartIsAdditive(c, n);
    SumIsAdditive(Slices(c, n), Part(c, n), fragments);
  }

  lemma {:induction false} FeeSlicesSplit(row: Row, fragments: seq<Fragment>)
    requires row.original > 0.0
    ensures Sum(FeeSlices(row), fragments) == Sum(Slices(row.entryFee, row.original), fragments)
        + Sum(ExitFee(), fragments)
  {
    if fragments != [] {
      var f := fragments[|fragments| - 1];
      FeeSlicesSplit(row, fragments[..|fragments| - 1]);
      assert FeeSlices(row)(f) == Slices(row.entryFee, row.original)(f) + ExitFee()(f);
    }
  }

  lemma SlicesMatch(row: Row)
    requires row.original > 0.0
    ensures Matches(row, Invested(), Slices(row.initialCost, row.original)) && Matches(row, Fees(), FeeSlices(row))
  {
    forall f: Fragment | f.filled > 0.0
      ensures Invested()(Trade(row, f)) == Slices(row.initialCost, row.original)(f)
          && Fees()(Trade(row, f)) == FeeSlices(row)(f)
    {
      assert Pos(f.filled) == f.filled;
    }
  }

  /** What the bookings of a row are worth. */
  function Worth(weight: Item -> real, row: Row): real {
    Total(weight, row.pending) + OfClosing(weight, row.closing)
  }

  lemma StagedWorth(row: Row, weight: Item -> real, slice: Fragment -> real)
    requires Fresh(row) && Stageable(row) && Matches(row, weight, slice)
    ensures Worth(weight, StagedRow(row)) + Overwritten(row, weight, |row.fragments|)
         == Worth(weight, row) + Sum(slice, row.fragments)
  {
    StagedRowIsProgress(row);
    StagingAddsTheSlices(row, weight, slice, |row.fragments|);
    assert row.fragments[..|row.fragments|] == row.fragments;
  }

  /**
    Staging a freshly recovered row books every fragment with its share of the
    cost, exactly when at most one of them counts as the closing sale: a second
    one overwrites the first, whose share is then in no booking.
   */
  lemma StagingConservesCostIffOneFinal(row: Row)
    requires Fresh(row) && Stageable(row)
    ensures var slices := Sum(Slices(row.initialCost, row.original), row.fragments);
            Worth(Invested(), StagedRow(row)) == Worth(Invested(), row) + slices <==> Finals(row, |row.fragments|) <= 1
  {
    SlicesMatch(row);
    StagedWorth(row, Invested(), Slices(row.initialCost, row.original));
    OneFinalOverwritesNothing(row, Invested(), |row.fragments|);
    TwoFinalsOverwriteSomething(row, |row.fragments|);
  }

  lemma StagedRowIsProgress(row: Row)
    requires Fresh(row) && Stageable(row)
    ensures var p := StageTo(row, |row.fragments|).value;
            StagedRow(row).pending == p.pending && StagedRow(row).closing == p.closing
  {
    if |row.fragments| > 0 {
      FreshStep(row, |row.fragments|);
    }
  }

  /** Fees are conserved with it: entry-fee shares and exit fees, each in one booking. */
  lemma StagingConservesFees(row: Row)
    requires Fresh(row) && Stageable(row) && Finals(row, |row.fragments|) <= 1
    ensures Worth(Fees(), StagedRow(row))
         == Worth(Fees(), row) + Sum(Slices(row.entryFee, row.original), row.fragments) + Sum(ExitFee(), row.fragments)
  {
    SlicesMatch(row);
    StagedWorth(row, Fees(), FeeSlices(row));
    FeeSlicesSplit(row, row.fragments);
    OneFinalOverwritesNothing(row, Fees(), |row.fragments|);
  }

  function Profit(): Item -> real {
    (i: Item) => i.profit
  }

  function Earned(row: Row): Fragment -> real
    requires row.original > 0.0
  {
    (f: Fragment) => Pos(f.filled) * (f.price - row.buy) - FeeSlices(row)(f)
  }

  lemma EarnedBy(row: Row, f: Fragment, q: real)
    requires row.original > 0.0 && q == Pos(f.filled) == f.filled
    ensures Profit()(Trade(row, f)) == Earned(row)(f)
  {
    assert FeeSlices(row)(f) == Share(row.entryFee, q, row.original) + f.fee;
    assert Earned(row)(f) == q * (f.price - row.buy) - FeeSlices(row)(f);
    assert Trade(row, f).profit == q * (f.price - row.buy) - (Share(row.entryFee, q, row.original) + f.fee);
  }

  /** And profits: the bookings show what each sale brought over the buy price, less its fees. */
  lemma StagingConservesProfit(row: Row)
    requires Fresh(row) && Stageable(row) && Finals(row, |row.fragments|) <= 1
    ensures Worth(Profit(), StagedRow(row)) == Worth(Profit(), row) + Sum(Earned(row), row.fragments)
  {
    forall f: Fragment | f.filled > 0.0 ensures Profit()(Trade(row, f)) == Earned(row)(f) {
      EarnedBy(row, f, Pos(f.filled));
    }
    StagedWorth(row, Profit(), Earned(row));
    OneFinalOverwritesNothing(row, Profit(), |row.fragments|);
  }

  /** Recovery followed by staging: bookings and the rest of the position carry the whole cost of the buy. */
  lemma BookedAndRestAreTheWholeCost(row: Row, b: Basis)
    requires Recoverable(row, b) && Sold(row.fragments) <= b.gross - b.baseFee
    requires Fresh(Recovered(row, b)) && Stageable(Recovered(row, b))
    requires Finals(Recovered(row, b), |row.fragments|) <= 1
    ensures var row' := StagedRow(Recovered(row, b));
            Worth(Invested(), row') - Worth(Invested(), row) + Recovered(row, b).invested == b.invested
  {
    SlicesAndRestAreTheCost(row, b);
    RecoveryKeepsBookings(row, b);
    StagingConservesCostIffOneFinal(Recovered(row, b));
  }

  lemma SlicesAndRestAreTheCost(row: Row, b: Basis)
    requires Recoverable(row, b) && Sold(row.fragments) <= b.gross - b.baseFee
    ensures var r := Recovered(row, b); Sum(Slices(r.initialCost, r.original), row.fragments) + r.invested == b.invested
  {
    RecoverySplitsTheBuy(row, b);
    SlicesAreProportional(b.invested, b.gross - b.baseFee, row.fragments);
  }

  /** The entry fee splits the same way over the sales and what remains. */
  lemma SlicesAndRestAreTheEntryFee(row: Row, b: Basis)
    requires Recoverable(row, b) && Sold(row.fragments) <= b.gross - b.baseFee
    ensures var r := Recovered(row, b);
            Sum(Slices(r.entryFee, r.original), row.fragments) + Share(r.entryFee, r.remaining, r.original)
                == b.entryFee
  {
    RecoverySplitsTheBuy(row, b);
    SlicesAreProportional(b.entryFee, b.gross - b.baseFee, row.fragments);
  }

  lemma RecoveryKeepsBookings(row: Row, b: Basis)
    requires Recoverable(row, b)
    ensures Recovered(row, b).fragments == row.fragments
        && Worth(Invested(), Recovered(row, b)) == Worth(Invested(), row)
  {
  }

  // ------------------------------------------------------------ staging twice

  /** No two fragments have one receipt, and none has that of a booking that waits. */
  ghost predicate DistinctReceipts(row: Row) {
    && (forall i, j :: 0 <= i < j < |row.fragments| ==> ReceiptId(row.fragments[i]) != ReceiptId(row.fragments[j]))
    && (forall i :: 0 <= i < |row.fragments| ==> !Staged(row.pending, ReceiptId(row.fragments[i])))
  }

  /** The booking of the last closing sale among the first `n` fragments, that of one receipt apart. */
  function LastFinal(row: Row, apart: Option<Option<Id>>, n: nat): Option<Item>
    requires n <= |row.fragments| && row.original > 0.0
  {
    if n == 0 then None
    else if FinalAt(row, n - 1) && Some(ReceiptId(row.fragments[n - 1])) != apart
        then Some(Trade(row, row.fragments[n - 1]))
    else LastFinal(row, apart, n - 1)
  }

  /** The receipt of the closing booking that waits. */
  function Waiting(row: Row): Option<Option<Id>> {
    if row.closing.Some? then Some(row.closing.value.receipt) else None
  }

  /** A fragment has been staged, and waits among the partial bookings unless it closes. */
  predicate StagedAt(row: Row, k: nat)
    requires k < |row.fragments|
  {
    var f := row.fragments[k];
    f.staged && !f.accounted && Bookable(row, f) && (FinalAt(row, k) <==> !Staged(row.pending, ReceiptId(f)))
  }

  ghost predicate AllStaged(row: Row) {
    row.original > 0.0 && forall k {:trigger StagedAt(row, k)} :: 0 <= k < |row.fragments| ==> StagedAt(row, k)
  }

  /** A turn over a fragment that has been staged: only a closing sale that does not wait is staged again. */
  lemma RestagedOne(row: Row, p: Progress, k: nat)
    requires k < |row.fragments| && row.original > 0.0 && StagedAt(row, k) && p.pending == row.pending
    ensures var f := row.fragments[k];
            StageOne(row, p, f, Sold(row.fragments[..k + 1]))
            == Some(if FinalAt(row, k) && Some(ReceiptId(f)) != Waiting(row)
                    then p.(fragments := p.fragments + [f], changed := true, closing := Some(Trade(row, f)))
                    else p.(fragments := p.fragments + [f]))
  {
    var f := row.fragments[k];
    assert f.(staged := true) == f;
    assert Settled(row, f, p.pending) <==> !(FinalAt(row, k) && Some(ReceiptId(f)) != Waiting(row));
  }

  /** When all is staged, the closing sales but the one that waits are staged over again. */
  lemma {:induction false} Restaged(row: Row, n: nat)
    requires AllStaged(row) && n <= |row.fragments|
    ensures var last := LastFinal(row, Waiting(row), n);
            StageTo(row, n) == Some(Progress(row.pending, last, row.fragments[..n], last.Some?))
  {
    if n > 0 {
      Restaged(row, n - 1);
      assert StagedAt(row, n - 1);
      RestagedOne(row, StageTo(row, n - 1).value, n - 1);
      assert row.fragments[..n] == row.fragments[..n - 1] + [row.fragments[n - 1]];
    }
  }

  lemma RestagedRow(row: Row)
    requires AllStaged(row) && !row.unverified && row.buy > 0.0 && row.initialCost > 0.0
    ensures Stageable(row)
    ensures var last := LastFinal(row, Waiting(row), |row.fragments|);
            StagedRow(row) == row.(closing := if last.Some? then last else row.closing)
  {
    Restaged(row, |row.fragments|);
    assert row.fragments[..|row.fragments|] == row.fragments;
  }

  // ---- the first staging leaves everything staged

  function Marked(fragments: seq<Fragment>): seq<Fragment> {
    seq(|fragments|, k requires 0 <= k < |fragments| => fragments[k].(staged := true))
  }

  /** The receipts that wait after `n` turns. */
  ghost predicate PendingAre(row: Row, pending: seq<Item>, n: nat)
    requires n <= |row.fragments|
  {
    forall receipt :: Staged(pending, receipt) <==>
      Staged(row.pending, receipt)
      || exists k :: 0 <= k < n && !FinalAt(row, k) && ReceiptId(row.fragments[k]) == receipt
  }

  lemma StagedAppends(pending: seq<Item>, item: Item, receipt: Option<Id>)
    ensures Staged(pending + [item], receipt) <==> Staged(pending, receipt) || item.receipt == receipt
  {
    if Staged(pending, receipt) {
      var k :| 0 <= k < |pending| && pending[k].receipt == receipt;
      assert (pending + [item])[k] == pending[k];
    }
    assert (pending + [item])[|pending|] == item;
  }

  lemma OneMorePending(row: Row, pending: seq<Item>, pending': seq<Item>, n: nat)
    requires n < |row.fragments| && row.original > 0.0 && PendingAre(row, pending, n)
    requires pending' == if FinalAt(row, n) then pending else pending + [Trade(row, row.fragments[n])]
    ensures PendingAre(row, pending', n + 1)
  {
    forall receipt
      ensures Staged(pending', receipt) <==>
        Staged(row.pending, receipt)
        || exists k :: 0 <= k < n + 1 && !FinalAt(row, k) && ReceiptId(row.fragments[k]) == receipt
    {
      StagedAppends(pending, Trade(row, row.fragments[n]), receipt);
    }
  }

  lemma {:induction false} FreshlyPending(row: Row, n: nat)
    requires Fresh(row) && n <= |row.fragments| && row.original > 0.0 && StageTo(row, n).Some?
    ensures PendingAre(row, StageTo(row, n).value.pending, n)
  {
    if n > 0 {
      FreshStep(row, n);
      FreshlyPending(row, n - 1);
      OneMorePending(row, StageTo(row, n - 1).value.pending, StageTo(row, n).value.pending, n - 1);
    }
  }

  lemma MarkedAppends(fragments: seq<Fragment>, n: nat)
    requires n < |fragments|
    ensures Marked(fragments[..n + 1]) == Marked(fragments[..n]) + [fragments[n].(staged := true)]
  {
  }

  lemma {:induction false} FreshlyStaged(row: Row, n: nat)
    requires Fresh(row) && n <= |row.fragments| && row.original > 0.0 && StageTo(row, n).Some?
    ensures var p := StageTo(row, n).value;
            p.fragments == Marked(row.fragments[..n]) && p.closing == LastFinal(row, None, n)
    ensures forall k :: 0 <= k < n ==> Bookable(row, row.fragments[k])
  {
    if n > 0 {
      FreshStep(row, n);
      FreshlyStaged(row, n - 1);
      MarkedAppends(row.fragments, n - 1);
    }
  }

  lemma {:induction false} SameQuantities(a: seq<Fragment>, b: seq<Fragment>)
    requires |a| == |b| && forall k :: 0 <= k < |a| ==> a[k].filled == b[k].filled
    ensures Sold(a) == Sold(b)
  {
    if a != [] {
      SameQuantities(a[..|a| - 1], b[..|b| - 1]);
    }
  }

  /** The same position with its fragments marked and other bookings. */
  predicate MarkedVersion(row: Row, row': Row) {
    && row' == row.(pending := row'.pending, closing := row'.closing, fragments := row'.fragments)
    && row'.fragments == Marked(row.fragments)
  }

  /** Marking fragments and moving bookings changes no verdict on what closes. */
  lemma SameFinals(row: Row, row': Row, k: nat)
    requires k < |row.fragments| && MarkedVersion(row, row')
    ensures FinalAt(row', k) == FinalAt(row, k)
    ensures row.original > 0.0 ==> Trade(row', row'.fragments[k]) == Trade(row, row.fragments[k])
  {
    SameQuantities(row.fragments[..k + 1], row'.fragments[..k + 1]);
  }

  lemma {:induction false} SameLastFinal(row: Row, row': Row, apart: Option<Option<Id>>, n: nat)
    requires MarkedVersion(row, row') && n <= |row.fragments| && row.original > 0.0
    ensures LastFinal(row', apart, n) == LastFinal(row, apart, n)
  {
    if n > 0 {
      SameFinals(row, row', n - 1);
      SameLastFinal(row, row', apart, n - 1);
      assert ReceiptId(row'.fragments[n - 1]) == ReceiptId(row.fragments[n - 1]);
    }
  }

  lemma StagedRowIs(row: Row)
    requires Fresh(row) && Stageable(row)
    ensures var row', n := StagedRow(row), |row.fragments|;
            && MarkedVersion(row, row') && row'.closing == LastFinal(row, None, n)
            && PendingAre(row, row'.pending, n)
    ensures forall k :: 0 <= k < |row.fragments| ==> Bookable(row, row.fragments[k])
  {
    FreshlyStaged(row, |row.fragments|);
    FreshlyPending(row, |row.fragments|);
    StagedRowIsProgress(row);
    assert row.fragments[..|row.fragments|] == row.fragments;
    if row.fragments == [] {
      assert Marked(row.fragments) == row.fragments;
    } else {
      FreshStep(row, |row.fragments|);
    }
  }

  lemma StagedIsAllStaged(row: Row)
    requires Fresh(row) && Stageable(row) && DistinctReceipts(row)
    ensures AllStaged(StagedRow(row))
  {
    StagedRowIs(row);
    var row' := StagedRow(row);
    forall k | 0 <= k < |row'.fragments| ensures StagedAt(row', k) {
      SameFinals(row, row', k);
      var receipt := ReceiptId(row.fragments[k]);
      assert Bookable(row, row.fragments[k]);
      assert !Staged(row.pending, receipt);
      if FinalAt(row, k) {
        assert forall j :: 0 <= j < |row.fragments| && ReceiptId(row.fragments[j]) == receipt ==> j == k;
      }
    }
  }

  // ---- the last two closing sales take turns

  lemma {:induction false} LastFinalIsOne(row: Row, apart: Option<Option<Id>>, n: nat)
    requires n <= |row.fragments| && row.original > 0.0
    ensures LastFinal(row, apart, n).Some? ==>
              exists k :: 0 <= k < n && ReceiptId(row.fragments[k]) == LastFinal(row, apart, n).value.receipt
    ensures LastFinal(row, None, n).Some? <==> Finals(row, n) > 0
    ensures (forall k :: 0 <= k < n ==> Some(ReceiptId(row.fragments[k])) != apart) ==>
              LastFinal(row, apart, n) == LastFinal(row, None, n)
  {
    if n > 0 {
      LastFinalIsOne(row, apart, n - 1);
    }
  }

  lemma {:induction false} LastTwoFinals(row: Row, n: nat)
    requires DistinctReceipts(row) && n <= |row.fragments| && row.original > 0.0 && Finals(row, n) > 0
    ensures LastFinal(row, None, n).Some?
    ensures var last := LastFinal(row, None, n).value;
            var other := LastFinal(row, Some(last.receipt), n);
            && (other.Some? <==> Finals(row, n) > 1)
            && (other.Some? ==> other.value.receipt != last.receipt
                                && LastFinal(row, Some(other.value.receipt), n) == Some(last))
  {
    LastFinalIsOne(row, None, n);
    if FinalAt(row, n - 1) {
      LastFinalIsOne(row, Some(ReceiptId(row.fragments[n - 1])), n - 1);
    } else {
      LastTwoFinals(row, n - 1);
    }
  }

  /**
    Staging again while the bookings wait changes nothing exactly when at most one
    fragment is a closing sale.  With more of them the last two take turns: each
    further staging replaces the closing booking by the other one, for ever.
   */
  lemma StagingTwiceIsStagingOnceIff(row: Row)
    requires Fresh(row) && Stageable(row) && DistinctReceipts(row)
    ensures var once := StagedRow(row);
            && Stageable(once) && Stageable(StagedRow(once))
            && (StagedRow(once) == once <==> Finals(row, |row.fragments|) <= 1)
            && StagedRow(StagedRow(once)) == once
  {
    var once, n := StagedRow(row), |row.fragments|;
    StagedRowIs(row);
    StagedIsAllStaged(row);
    RestagedRow(once);
    var twice := StagedRow(once);
    assert forall k :: 0 <= k < n && StagedAt(once, k) ==> StagedAt(twice, k);
    RestagedRow(twice);
    SameLastFinal(row, once, Waiting(once), n);
    SameLastFinal(row, twice, Waiting(twice), n);
    LastFinalIsOne(row, None, n);
    if Finals(row, n) > 0 {
      LastTwoFinals(row, n);
    }
  }

  lemma {:induction false} SoldGrows(fragments: seq<Fragment>, m: nat, n: nat)
    requires m <= n <= |fragments|
    ensures Sold(fragments[..m]) <= Sold(fragments[..n])
    decreases n
  {
    if m < n {
      SoldGrows(fragments, m, n - 1);
      assert fragments[..n][..n - 1] == fragments[..n - 1];
    }
  }

  /** After a closing sale only dust can follow, so a second one needs a sale of at most twice the tolerance. */
  lemma OnlyDustFollowsAFinal(row: Row, k: nat, j: nat)
    requires k < j < |row.fragments| && row.original > 0.0 && FinalAt(row, k)
    requires Sold(row.fragments) <= row.original + Tolerance(row.original)
    ensures Pos(row.fragments[j].filled) <= 2.0 * Tolerance(row.original)
  {
    SoldGrows(row.fragments, k + 1, j);
    SoldGrows(row.fragments, j + 1, |row.fragments|);
    assert row.fragments[..j + 1][..j] == row.fragments[..j];
    assert row.fragments[..|row.fragments|] == row.fragments;
  }

  const DUST := 0.0000000001

  /** The unit that was bought, sold, and a sale of dust after it. */
  function UnitAndDust(): seq<Fragment> {
    [Fragment(Some("c"), Some("a"), 1.0, 1.0, 0.0, Emergency, 0, "", "e", false, false),
     Fragment(None, Some("b"), DUST, 1.0, 0.0, Emergency, 0, "", "e", false, false)]
  }

  const UnitBasis := Basis(1.0, 1.0, 1.0, 0.0, 0.0)

  lemma UnitAndDustAreSold()
    ensures Sold(UnitAndDust()) == 1.0 + DUST && Sold(UnitAndDust()[..1]) == 1.0
  {
    var f := UnitAndDust();
    assert f[..1] == [] + [f[0]] && f == f[..1] + [f[1]];
    NoFragments();
    SumOfAppend(Quantity(), [], f[0]);
    SumOfAppend(Quantity(), f[..1], f[1]);
  }

  function UnitSold(): Row {
    FreshRow(1.0, 1.0).(fragments := UnitAndDust()[..1], remaining := 0.0, exitIds := map[], flat := true)
  }

  lemma UnitIsTaken()
    ensures var row, unit := FreshRow(1.0, 1.0), SaleOf("a", 1.0);
            Deferrable(row, unit) && Deferred(row, unit, 0) == UnitSold()
  {
    NoFragments();
    assert Deferrable(FreshRow(1.0, 1.0), SaleOf("a", 1.0));
    assert FreshRow(1.0, 1.0).exitIds - {Emergency} == map[];
    assert Merged(FreshRow(1.0, 1.0), SaleOf("a", 1.0), 0) == UnitAndDust()[..1];
  }

  lemma DustIsTaken()
    ensures Deferrable(UnitSold(), SaleOf("b", DUST))
    ensures Deferred(UnitSold(), SaleOf("b", DUST), 0) == UnitSold().(fragments := UnitAndDust())
  {
    UnitAndDustAreSold();
    FindIsFirst(UnitSold().fragments, None, Some("b"), 1);
    assert ExitId(UnitSold(), Emergency) == None && UnitSold().exitIds - {Emergency} == map[];
    assert Merged(UnitSold(), SaleOf("b", DUST), 0) == UnitAndDust();
  }

  /** Both sales are taken while the buy is unverified. */
  lemma UnitAndDustAreTaken()
    ensures var row, unit, dust := FreshRow(1.0, 1.0), SaleOf("a", 1.0), SaleOf("b", DUST);
            && Deferrable(row, unit) && Deferrable(Deferred(row, unit, 0), dust)
            && Deferred(Deferred(row, unit, 0), dust, 0) == UnitSold().(fragments := UnitAndDust())
  {
    UnitIsTaken();
    DustIsTaken();
  }

  lemma BothAreFinal(r: Row)
    requires r.fragments == UnitAndDust() && r.original == 1.0
    ensures Finals(r, 2) == 2
  {
    UnitAndDustAreSold();
    assert r.fragments[..2] == UnitAndDust();
    assert FinalAt(r, 0) && FinalAt(r, 1);
    assert Finals(r, 1) == 1;
  }

  lemma BothAreBookable(r: Row)
    requires r.fragments == UnitAndDust() && r.original == 1.0 && r.entryId == "e"
    ensures StageTo(r, 2).Some?
  {
    assert Bookable(r, r.fragments[0]) && Bookable(r, r.fragments[1]);
    assert StageTo(r, 0).Some?;
    assert StageTo(r, 1).Some?;
  }

  lemma UnitAndDustRecover(row: Row)
    requires row == UnitSold().(fragments := UnitAndDust())
    ensures Recoverable(row, UnitBasis)
    ensures var r := Recovered(row, UnitBasis);
            r == row.(buy := 1.0, amount := 1.0, original := 1.0, invested := r.invested, entryFee := 0.0,
                feesPaid := r.feesPaid,
                      initialCost := 1.0, unverified := false, observed := 1.0, remaining := 0.0, flat := true)
  {
    UnitAndDustAreSold();
  }

  lemma BothAreStaged(r: Row)
    requires r.fragments == UnitAndDust() && r.original == 1.0 && r.entryId == "e"
    requires !r.unverified && r.buy > 0.0 && r.initialCost > 0.0 && r.closing.None?
    ensures Fresh(r) && Stageable(r) && Finals(r, |r.fragments|) == 2
  {
    BothAreFinal(r);
    BothAreBookable(r);
  }

  /**
    It happens: after recovery both sales of the row above count as the closing
    one, and the unit's whole cost is in no booking.
   */
  lemma TwoFinalsHappen(row: Row)
    requires row == UnitSold().(fragments := UnitAndDust())
    ensures Recoverable(row, UnitBasis)
    ensures var r := Recovered(row, UnitBasis);
            && Fresh(r) && Stageable(r) && Finals(r, |r.fragments|) == 2
            && Worth(Invested(), StagedRow(r)) != Worth(Invested(), r)
                + Sum(Slices(r.initialCost, r.original), r.fragments)
  {
    UnitAndDustRecover(row);
    var r := Recovered(row, UnitBasis);
    BothAreStaged(r);
    StagingConservesCostIffOneFinal(r);
  }
}
