/**
  Rebuilding one order from the trade fills that carry its client id
  (`_order_from_recovery_trades` in bot_utils/futures_order.py).  Fills are
  deduplicated by trade id and summed; the sums must not depend on the order or
  the multiplicity in which the venue returned them.  The payload of the rebuilt
  order is that of the first fill that has one, so its verdict may.
 */
module TradeRecovery {
  import opened Wrappers
  import opened OrderEvidence
  import opened Snapshots

  /**
    What a raw payload says about the order, apart from the ids that its row
    contributes: MEXC's side code, the reduce-only fields, the position sides.
   */
  datatype Payload = Payload(side: Evidence<Code>, reduceFlags: seq<Flag>, legs: seq<LegText>)

  /**
    One trade row, parsed: an id field is present only when exactly one
    distinct id was readable, `info` when it is not empty.
   */
  datatype Fill = Fill(
    tradeId: Option<Id>,
    orderId: Option<Id>,
    clientIds: set<Id>,
    symbol: Evidence<string>,
    side: Evidence<Side>,
    sideProven: bool,
    info: Option<Payload>,
    amount: Num,
    price: Num,
    cost: Num)

  type Parser = Json -> Fill

  datatype Recovery = Recovery(order: Order, filled: real, cost: Option<real>, average: Option<real>)

  // --------------------------------------------------------- deduplication

  predicate SameTrade(parse: Parser, x: Json, y: Json) {
    parse(x).tradeId.Some? && parse(x).tradeId == parse(y).tradeId
  }

  predicate Seen(parse: Parser, kept: seq<Json>, t: Json) {
    exists i :: 0 <= i < |kept| && SameTrade(parse, kept[i], t)
  }

  /** The rows that survive: the first row of every trade id, and every row without one. */
  function Kept(parse: Parser, rows: seq<Json>): seq<Json> {
    if rows == [] then [] else
    var kept := Kept(parse, rows[..|rows| - 1]);
    var t := rows[|rows| - 1];
    if Seen(parse, kept, t) then kept else kept + [t]
  }

  predicate RepeatsExactly(parse: Parser, kept: seq<Json>, t: Json) {
    forall i :: 0 <= i < |kept| && SameTrade(parse, kept[i], t) ==> StrictEqual(kept[i], t)
  }

  /** A row has no usable id, or repeats a trade id with different content. */
  predicate Clashes(parse: Parser, rows: seq<Json>) {
    rows != [] &&
    var t := rows[|rows| - 1];
    || Clashes(parse, rows[..|rows| - 1])
    || parse(t).tradeId.None?
    || !RepeatsExactly(parse, Kept(parse, rows[..|rows| - 1]), t)
  }

  // ----------------------------------------------------------- aggregation

  function Sum(weight: Json -> real, rows: seq<Json>): real {
    if rows == [] then 0.0 else Sum(weight, rows[..|rows| - 1]) + weight(rows[|rows| - 1])
  }

  /** A row without a usable amount contributes nothing to any sum. */
  function AmountOf(f: Fill): real {
    OrZero(f.amount)
  }

  function NotionalOf(f: Fill): real {
    OrZero(f.amount) * OrZero(f.price)
  }

  function CostOf(f: Fill): real {
    if Positive(f.amount) then OrZero(f.cost) else 0.0
  }

  function Amounts(parse: Parser): Json -> real {
    t => AmountOf(parse(t))
  }

  function Notionals(parse: Parser): Json -> real {
    t => NotionalOf(parse(t))
  }

  function Costs(parse: Parser): Json -> real {
    t => CostOf(parse(t))
  }

  function Filled(parse: Parser, rows: seq<Json>): real {
    Sum(Amounts(parse), rows)
  }

  function Notional(parse: Parser, rows: seq<Json>): real {
    Sum(Notionals(parse), rows)
  }

  function Cost(parse: Parser, rows: seq<Json>): real {
    Sum(Costs(parse), rows)
  }

  predicate CostKnown(parse: Parser, rows: seq<Json>) {
    forall k :: 0 <= k < |rows| && Positive(parse(rows[k]).amount) ==> !parse(rows[k]).cost.Absent?
  }

  function OrderIds(parse: Parser, rows: seq<Json>): set<Id> {
    set t | t in rows && parse(t).orderId.Some? :: parse(t).orderId.value
  }

  function Symbols(parse: Parser, rows: seq<Json>): set<string> {
    set t | t in rows && parse(t).symbol.Is? :: parse(t).symbol.value
  }

  function Sides(parse: Parser, rows: seq<Json>): set<Side> {
    set t | t in rows && parse(t).side.Is? :: parse(t).side.value
  }

  predicate Usable(f: Fill, clientId: Id) {
    && f.sideProven
    && f.orderId.Some?
    && (clientId == "" || f.clientIds == {} || f.clientIds == {clientId})
    && !f.symbol.Unreadable?
    && !f.side.Unreadable?
    && Positive(f.amount)
    && Positive(f.price)
    && !f.cost.Malformed?
  }

  predicate Coherent(parse: Parser, rows: seq<Json>, req: Request) {
    && |OrderIds(parse, rows)| == 1
    && |Symbols(parse, rows)| <= 1
    && |Sides(parse, rows)| <= 1
    && (Symbols(parse, rows) == {} || req.symbol in Symbols(parse, rows))
  }

  predicate AllUsable(parse: Parser, rows: seq<Json>, clientId: Id) {
    forall t :: t in rows ==> Usable(parse(t), clientId)
  }

  predicate Excessive(filled: real, requested: real) {
    filled <= 0.0 || requested <= 0.0 || filled > requested + Tolerance(requested)
  }

  predicate Malformed(parse: Parser, rows: seq<Json>, req: Request) {
    var kept := Kept(parse, rows);
    || Clashes(parse, rows)
    || !AllUsable(parse, kept, req.clientId)
    || !Coherent(parse, kept, req)
    || Excessive(Filled(parse, kept), req.amount)
  }

  function Total(x: real): Num {
    if x > 0.0 then Val(x) else Absent
  }

  /** The first payload that is not empty. */
  function FirstInfo(parse: Parser, rows: seq<Json>): Option<Payload> {
    if rows == [] then None
    else if FirstInfo(parse, rows[..|rows| - 1]).Some? then FirstInfo(parse, rows[..|rows| - 1])
    else parse(rows[|rows| - 1]).info
  }

  function PayloadOf(info: Option<Payload>): Payload {
    if info.Some? then info.value else Payload(Missing, [], [])
  }

  function SideOf(sides: set<Side>): SideText {
    if sides == {Buy} then Named(Buy) else if sides == {Sell} then Named(Sell) else NoSide
  }

  /** The order-shaped answer built from what was summed and collected. */
  function Assemble(sums: Sums, named: Evidences, malformed: bool, req: Request): Recovery {
    var cost := if sums.costKnown && !malformed then Some(sums.cost) else None;
    var average := if !malformed && sums.filled > 0.0 then Some(sums.notional / sums.filled) else None;
    var info := PayloadOf(named.info);
    Recovery(
      Order(true, malformed, named.orderIds, {req.clientId}, Closed,
            Total(sums.filled), Total(sums.filled),
            if cost.Some? && cost.value >= 0.0 then Val(cost.value) else Absent,
            Is(req.symbol), SideOf(named.sides), true, info.side, [], info.reduceFlags, info.legs),
      sums.filled, cost, average)
  }

  /** The running sums over the kept rows. */
  datatype Sums = Sums(filled: real, notional: real, cost: real, costKnown: bool)

  /** What the kept rows name. */
  datatype Evidences = Evidences(orderIds: set<Id>, symbols: set<string>, sides: set<Side>, info: Option<Payload>)

  function SumsOf(parse: Parser, rows: seq<Json>): Sums {
    Sums(Filled(parse, rows), Notional(parse, rows), Cost(parse, rows), CostKnown(parse, rows))
  }

  function EvidencesOf(parse: Parser, rows: seq<Json>): Evidences {
    Evidences(OrderIds(parse, rows), Symbols(parse, rows), Sides(parse, rows), FirstInfo(parse, rows))
  }

  function Recover(parse: Parser, rows: seq<Json>, req: Request): Recovery {
    var kept := Kept(parse, rows);
    Assemble(SumsOf(parse, kept), EvidencesOf(parse, kept), Malformed(parse, rows, req), req)
  }

  /** First loop of the source: keep one row per trade id, and notice rows that disagree. */
  method Deduplicate(parse: Parser, rows: seq<Json>) returns (unique: seq<Json>, clashes: bool)
    ensures unique == Kept(parse, rows)
    ensures clashes == Clashes(parse, rows)
  {
    unique, clashes := [], false;
    var n := 0;
    while n < |rows|
      invariant 0 <= n <= |rows|
      invariant unique == Kept(parse, rows[..n])
      invariant clashes == Clashes(parse, rows[..n])
    {
      var t := rows[n];
      assert rows[..n + 1][..n] == rows[..n];
      if parse(t).tradeId.None? {
        clashes, unique := true, unique + [t];
      } else if Seen(parse, unique, t) {
        clashes := clashes || !RepeatsExactly(parse, unique, t);
      } else {
        unique := unique + [t];
      }
      n := n + 1;
    }
    assert rows[..n] == rows;
  }

  /** Second loop, its sums. */
  method Accumulate(parse: Parser, unique: seq<Json>) returns (sums: Sums)
    ensures sums == SumsOf(parse, unique)
  {
    var filled, notional, cost, costKnown := 0.0, 0.0, 0.0, true;
    var n := 0;
    while n < |unique|
      invariant 0 <= n <= |unique|
      invariant filled == Filled(parse, unique[..n]) && notional == Notional(parse, unique[..n])
      invariant cost == Cost(parse, unique[..n]) && costKnown == CostKnown(parse, unique[..n])
    {
      var f := parse(unique[n]);
      assert unique[..n + 1][..n] == unique[..n];
      if Positive(f.amount) {
        filled := filled + f.amount.value;
        if Positive(f.price) {
          notional := notional + f.amount.value * f.price.value;
        }
        costKnown := costKnown && !f.cost.Absent?;
        cost := cost + OrZero(f.cost);
      }
      n := n + 1;
    }
    assert unique[..n] == unique;
    sums := Sums(filled, notional, cost, costKnown);
  }

  /** Second loop, its evidence: the identities that the kept rows name, and the first payload. */
  method CollectEvidence(parse: Parser, unique: seq<Json>, clientId: Id) returns (named: Evidences, usable: bool)
    ensures named == EvidencesOf(parse, unique)
    ensures usable == AllUsable(parse, unique, clientId)
  {
    var orderIds: set<Id>, symbols: set<string>, sides: set<Side> := {}, {}, {};
    var info: Option<Payload> := None;
    usable := true;
    var n := 0;
    while n < |unique|
      invariant 0 <= n <= |unique|
      invariant orderIds == OrderIds(parse, unique[..n]) && symbols == Symbols(parse, unique[..n])
      invariant sides == Sides(parse, unique[..n]) && info == FirstInfo(parse, unique[..n])
      invariant usable == AllUsable(parse, unique[..n], clientId)
    {
      var f := parse(unique[n]);
      assert unique[..n + 1] == unique[..n] + [unique[n]];
      usable := usable && Usable(f, clientId);
      if info.None? {
        info := f.info;
      }
      orderIds := orderIds + (if f.orderId.Some? then {f.orderId.value} else {});
      symbols := symbols + (if f.symbol.Is? then {f.symbol.value} else {});
      sides := sides + (if f.side.Is? then {f.side.value} else {});
      n := n + 1;
    }
    assert unique[..n] == unique;
    named := Evidences(orderIds, symbols, sides, info);
  }

  method AggregateTrades(parse: Parser, rows: seq<Json>, req: Request) returns (r: Recovery)
    ensures r == Recover(parse, rows, req)
  {
    var unique, malformed := Deduplicate(parse, rows);
    var sums := Accumulate(parse, unique);
    var named, usable := CollectEvidence(parse, unique, req.clientId);
    malformed := malformed || !usable || |named.orderIds| != 1 || |named.symbols| > 1 || |named.sides| > 1
      || (named.symbols != {} && req.symbol !in named.symbols) || Excessive(sums.filled, req.amount);
    r := Assemble(sums, named, malformed, req);
  }

  // ------------------------------------------- a function of the executions

  /** No two rows with one trade id differ, and every row has a trade id. */
  ghost predicate Consistent(parse: Parser, rows: seq<Json>) {
    && (forall t :: t in rows ==> parse(t).tradeId.Some?)
    && (forall x, y :: x in rows && y in rows && SameTrade(parse, x, y) ==> x == y)
  }

  ghost predicate AllPlain(rows: seq<Json>) {
    forall t :: t in rows ==> Plain(t)
  }

  ghost predicate NoRepeats(rows: seq<Json>) {
    forall i, j :: 0 <= i < j < |rows| ==> rows[i] != rows[j]
  }

  lemma {:induction false} KeptIsRows(parse: Parser, rows: seq<Json>)
    ensures forall t :: t in Kept(parse, rows) ==> t in rows
    ensures forall t :: t in rows ==> t in Kept(parse, rows) || Seen(parse, Kept(parse, rows), t)
    ensures forall i, j :: 0 <= i < j < |Kept(parse, rows)| ==>
              !SameTrade(parse, Kept(parse, rows)[i], Kept(parse, rows)[j])
  {
    if rows != [] {
      var init, t := rows[..|rows| - 1], rows[|rows| - 1];
      KeptIsRows(parse, init);
      assert rows == init + [t];
      var kept := Kept(parse, init);
      if !Seen(parse, kept, t) {
        forall x | x in rows ensures x in kept + [t] || Seen(parse, kept + [t], x) {
          if x in init && x !in kept {
            var i :| 0 <= i < |kept| && SameTrade(parse, kept[i], x);
            assert (kept + [t])[i] == kept[i];
          }
        }
      }
    }
  }

  /** Of consistent rows, what is kept is each of them once. */
  lemma KeptIsTheSet(parse: Parser, rows: seq<Json>)
    requires Consistent(parse, rows)
    ensures forall t :: t in Kept(parse, rows) <==> t in rows
    ensures NoRepeats(Kept(parse, rows))
  {
    KeptIsRows(parse, rows);
    var kept := Kept(parse, rows);
    forall t | t in rows ensures t in kept {
      if Seen(parse, kept, t) {
        var i :| 0 <= i < |kept| && SameTrade(parse, kept[i], t);
        assert kept[i] in rows && kept[i] == t;
      }
    }
    forall i, j | 0 <= i < j < |kept| ensures kept[i] != kept[j] {
      assert kept[i] in rows && !SameTrade(parse, kept[i], kept[j]);
    }
  }

  /** Conflicting duplicates and rows without an id are flagged, wherever they stand; nothing else is. */
  lemma {:induction false} ClashIffInconsistent(parse: Parser, rows: seq<Json>)
    requires AllPlain(rows)
    ensures Clashes(parse, rows) <==> !Consistent(parse, rows)
  {
    if rows != [] {
      var init, t := rows[..|rows| - 1], rows[|rows| - 1];
      assert rows == init + [t];
      ClashIffInconsistent(parse, init);
      KeptIsRows(parse, init);
      var kept := Kept(parse, init);
      forall i | 0 <= i < |kept| ensures StrictEqual(kept[i], t) <==> kept[i] == t {
        StrictEqualIsIdentity(kept[i], t);
        assert kept[i] in kept;
      }
      if Consistent(parse, init) && parse(t).tradeId.Some? {
        KeptIsTheSet(parse, init);
        if RepeatsExactly(parse, kept, t) {
          forall x | x in init && SameTrade(parse, x, t) ensures x == t {
            var i :| 0 <= i < |kept| && kept[i] == x;
            assert SameTrade(parse, kept[i], t);
          }
          assert Consistent(parse, rows);
        } else {
          var i :| 0 <= i < |kept| && SameTrade(parse, kept[i], t) && !StrictEqual(kept[i], t);
          assert kept[i] in init && kept[i] in rows && t in rows;
        }
      } else if !Consistent(parse, init) {
        assert forall x :: x in init ==> x in rows;
      }
    }
  }

  function Without(rows: seq<Json>, k: nat): seq<Json>
    requires k < |rows|
  {
    rows[..k] + rows[k + 1..]
  }

  /** Taking one row out of any position takes its weight out of the sum. */
  lemma {:induction false} SumWithout(weight: Json -> real, rows: seq<Json>, k: nat)
    requires k < |rows|
    ensures Sum(weight, rows) == Sum(weight, Without(rows, k)) + weight(rows[k])
    decreases |rows|
  {
    var last := |rows| - 1;
    if k == last {
      assert Without(rows, k) == rows[..last];
    } else {
      SumWithout(weight, rows[..last], k);
      assert Without(rows, k)[..last - 1] == Without(rows[..last], k);
      assert Without(rows, k)[last - 1] == rows[last];
    }
  }

  ghost predicate SameRows(a: seq<Json>, b: seq<Json>) {
    forall t :: t in a <==> t in b
  }

  lemma FirstIsARow(rows: seq<Json>)
    requires rows != []
    ensures rows[0] in rows
  {
  }

  lemma RestIsTheSame(a: seq<Json>, b: seq<Json>, k: nat)
    requires NoRepeats(a) && NoRepeats(b) && SameRows(a, b)
    requires a != [] && k < |b| && b[k] == a[|a| - 1]
    ensures NoRepeats(a[..|a| - 1]) && NoRepeats(Without(b, k)) && SameRows(a[..|a| - 1], Without(b, k))
  {
    var last := |a| - 1;
    forall x ensures x in a[..last] <==> x in Without(b, k) {
      assert x in Without(b, k) ==> x in b;
      assert x in a[..last] ==> x in a;
    }
  }

  /** Two repetition-free lists of the same rows have the same sum. */
  lemma {:induction false} SameRowsSameSum(weight: Json -> real, a: seq<Json>, b: seq<Json>)
    requires NoRepeats(a) && NoRepeats(b) && SameRows(a, b)
    ensures Sum(weight, a) == Sum(weight, b)
    decreases |a|
  {
    if a == [] {
      if b != [] {
        FirstIsARow(b);
      }
    } else {
      var t := a[|a| - 1];
      assert t in b;
      var k :| 0 <= k < |b| && b[k] == t;
      SumWithout(weight, b, k);
      RestIsTheSame(a, b, k);
      SameRowsSameSum(weight, a[..|a| - 1], Without(b, k));
    }
  }

  /** Two orders that differ at most in their payload. */
  predicate SameButInfo(o: Order, o': Order) {
    o' == o.(infoSide := o'.infoSide, infoReduceFlags := o'.infoReduceFlags, legs := o'.legs)
  }

  /**
    Duplicating or permuting rows leaves soundness, quantity, cost and average
    price, and of a sound recovery all of the order but its payload.
   */
  lemma RecoveryDependsOnTheSetOnly(parse: Parser, rows: seq<Json>, others: seq<Json>, req: Request)
    requires AllPlain(rows) && SameRows(rows, others)
    ensures Malformed(parse, rows, req) == Malformed(parse, others, req)
    ensures !Malformed(parse, rows, req) ==>
              var r, r' := Recover(parse, rows, req), Recover(parse, others, req);
              r' == r.(order := r'.order) && SameButInfo(r.order, r'.order)
  {
    ClashIffInconsistent(parse, rows);
    ClashIffInconsistent(parse, others);
    assert Consistent(parse, rows) <==> Consistent(parse, others);
    if Consistent(parse, rows) {
      KeptIsTheSet(parse, rows);
      KeptIsTheSet(parse, others);
      SameRowsSameVerdict(parse, Kept(parse, rows), Kept(parse, others), req);
    }
  }

  lemma SameRowsSameVerdict(parse: Parser, a: seq<Json>, b: seq<Json>, req: Request)
    requires NoRepeats(a) && NoRepeats(b) && SameRows(a, b)
    ensures AllUsable(parse, a, req.clientId) == AllUsable(parse, b, req.clientId)
    ensures Coherent(parse, a, req) == Coherent(parse, b, req)
    ensures SumsOf(parse, a) == SumsOf(parse, b)
    ensures EvidencesOf(parse, b) == EvidencesOf(parse, a).(info := FirstInfo(parse, b))
  {
    SameRowsSameTotals(parse, a, b);
  }

  lemma SameRowsSameTotals(parse: Parser, a: seq<Json>, b: seq<Json>)
    requires NoRepeats(a) && NoRepeats(b) && SameRows(a, b)
    ensures Filled(parse, a) == Filled(parse, b) && Notional(parse, a) == Notional(parse, b)
    ensures Cost(parse, a) == Cost(parse, b) && CostKnown(parse, a) == CostKnown(parse, b)
    ensures OrderIds(parse, a) == OrderIds(parse, b) && Symbols(parse, a) == Symbols(parse, b)
    ensures Sides(parse, a) == Sides(parse, b)
  {
    SameRowsSameSum(Amounts(parse), a, b);
    SameRowsSameSum(Notionals(parse), a, b);
    SameRowsSameSum(Costs(parse), a, b);
    SameCostKnown(parse, a, b);
  }

  lemma SameCostKnown(parse: Parser, a: seq<Json>, b: seq<Json>)
    requires forall t :: t in a <==> t in b
    ensures CostKnown(parse, a) == CostKnown(parse, b)
  {
    assert CostKnown(parse, a) <==> forall t :: t in a && Positive(parse(t).amount) ==> !parse(t).cost.Absent?;
    assert CostKnown(parse, b) <==> forall t :: t in b && Positive(parse(t).amount) ==> !parse(t).cost.Absent?;
  }

  lemma Distribute(c: real, a: real, b: real)
    ensures c * (a + b) == c * a + c * b
  {
  }

  lemma {:induction false} SumBetween(part: Json -> real, whole: Json -> real, rows: seq<Json>, lo: real, hi: real)
    requires forall t :: t in rows ==> lo * part(t) <= whole(t) <= hi * part(t)
    ensures lo * Sum(part, rows) <= Sum(whole, rows) <= hi * Sum(part, rows)
  {
    if rows != [] {
      var t := rows[|rows| - 1];
      SumBetween(part, whole, rows[..|rows| - 1], lo, hi);
      Distribute(lo, Sum(part, rows[..|rows| - 1]), part(t));
      Distribute(hi, Sum(part, rows[..|rows| - 1]), part(t));
    }
  }

  lemma Scale(x: real, y: real, a: real)
    requires x < y && a > 0.0
    ensures x * a < y * a
  {
  }

  lemma DivideBetween(lo: real, hi: real, a: real, b: real)
    requires a > 0.0 && lo * a <= b <= hi * a
    ensures lo <= b / a <= hi
  {
    var q := b / a;
    assert q * a == b;
    if q < lo {
      Scale(q, lo, a);
    }
    if q > hi {
      Scale(hi, q, a);
    }
  }

  lemma Between(lo: real, hi: real, amount: real, price: real)
    requires amount >= 0.0 && lo <= price <= hi
    ensures lo * amount <= amount * price <= hi * amount
  {
  }

  lemma RowIsBetween(parse: Parser, t: Json, lo: real, hi: real)
    requires lo <= OrZero(parse(t).price) <= hi
    ensures lo * Amounts(parse)(t) <= Notionals(parse)(t) <= hi * Amounts(parse)(t)
  {
    Between(lo, hi, OrZero(parse(t).amount), OrZero(parse(t).price));
  }

  lemma NotionalIsBetween(parse: Parser, rows: seq<Json>, lo: real, hi: real)
    requires forall t :: t in rows ==> lo <= OrZero(parse(t).price) <= hi
    ensures lo * Filled(parse, rows) <= Notional(parse, rows) <= hi * Filled(parse, rows)
  {
    forall t | t in rows ensures lo * Amounts(parse)(t) <= Notionals(parse)(t) <= hi * Amounts(parse)(t) {
      RowIsBetween(parse, t, lo, hi);
    }
    SumBetween(Amounts(parse), Notionals(parse), rows, lo, hi);
  }

  lemma AverageOfSound(parse: Parser, rows: seq<Json>, req: Request)
    requires !Malformed(parse, rows, req)
    ensures Filled(parse, Kept(parse, rows)) > 0.0
    ensures forall t :: t in Kept(parse, rows) ==> t in rows && Positive(parse(t).price)
    ensures var kept := Kept(parse, rows);
            Recover(parse, rows, req).average == Some(Notional(parse, kept) / Filled(parse, kept))
  {
    KeptIsRows(parse, rows);
    forall t | t in Kept(parse, rows) ensures Positive(parse(t).price) {
      assert Usable(parse(t), req.clientId);
    }
  }

  lemma QuotientIsBetween(parse: Parser, rows: seq<Json>, lo: real, hi: real)
    requires forall t :: t in rows ==> lo <= OrZero(parse(t).price) <= hi
    requires Filled(parse, rows) > 0.0
    ensures lo <= Notional(parse, rows) / Filled(parse, rows) <= hi
  {
    NotionalIsBetween(parse, rows, lo, hi);
    DivideBetween(lo, hi, Filled(parse, rows), Notional(parse, rows));
  }

  /** The average of a sound recovery lies between the smallest and the largest fill price. */
  lemma AverageIsBetweenFillPrices(parse: Parser, rows: seq<Json>, req: Request, lo: real, hi: real)
    requires !Malformed(parse, rows, req)
    requires forall t :: t in rows && Positive(parse(t).price) ==> lo <= parse(t).price.value <= hi
    ensures var average := Recover(parse, rows, req).average;
            average.Some? && lo <= average.value <= hi
  {
    AverageOfSound(parse, rows, req);
    QuotientIsBetween(parse, Kept(parse, rows), lo, hi);
  }

  /** A sound recovery is about the requested order: one venue order id, this client id, no excess. */
  lemma SoundRecoveryIsBound(parse: Parser, rows: seq<Json>, req: Request)
    ensures var r := Recover(parse, rows, req);
            && r.order.recoveryConflict == Malformed(parse, rows, req)
            && (!Malformed(parse, rows, req) ==>
                  && |r.order.ids| == 1 && r.order.clientIds == {req.clientId}
                  && HasFill(r.order) && Landed(r.order)
                  && 0.0 < r.filled <= req.amount + Tolerance(req.amount))
  {
  }

  // ------------------------------------------------- when a recovery is sound

  /** One fill that can be counted: it names one order, us or nobody, and has a quantity and a price. */
  ghost predicate Countable(f: Fill, clientId: Id) {
    && f.sideProven && f.orderId.Some?
    && (clientId != "" ==> forall id :: id in f.clientIds ==> id == clientId)
    && !f.symbol.Unreadable? && !f.side.Unreadable? && !f.cost.Malformed?
    && f.amount.Val? && f.amount.value > 0.0 && f.price.Val? && f.price.value > 0.0
  }

  /** All fills are of one order, of the requested symbol and of one side where they say so. */
  ghost predicate OfOneOrder(parse: Parser, rows: seq<Json>, symbol: string) {
    && rows != []
    && (forall x, y :: x in rows && y in rows ==> parse(x).orderId == parse(y).orderId)
    && (forall x :: x in rows && parse(x).symbol.Is? ==> parse(x).symbol.value == symbol)
    && (forall x, y :: x in rows && y in rows && parse(x).side.Is? && parse(y).side.Is? ==>
          parse(x).side == parse(y).side)
  }

  lemma UsableIff(f: Fill, clientId: Id)
    ensures Usable(f, clientId) <==> Countable(f, clientId)
  {
    OnlyId(f.clientIds, clientId);
  }

  lemma OneElement<T>(s: set<T>)
    ensures |s| <= 1 <==> forall a, b :: a in s && b in s ==> a == b
    ensures |s| == 1 <==> s != {} && forall a, b :: a in s && b in s ==> a == b
  {
    if x :| x in s {
      if forall a, b :: a in s && b in s ==> a == b {
        assert s == {x};
      } else {
        var a, b :| a in s && b in s && a != b;
        assert |s| >= |{a, b}| by {
          SubsetIsSmaller({a, b}, s);
        }
      }
    }
  }

  lemma SubsetIsSmaller<T>(a: set<T>, b: set<T>)
    requires a <= b
    ensures |a| <= |b|
  {
    assert b == a + (b - a);
  }

  lemma CoherentIff(parse: Parser, rows: seq<Json>, req: Request)
    requires forall t :: t in rows ==> parse(t).orderId.Some?
    ensures Coherent(parse, rows, req) <==> OfOneOrder(parse, rows, req.symbol)
  {
    OneElement(OrderIds(parse, rows));
    OneElement(Symbols(parse, rows));
    OneElement(Sides(parse, rows));
    IdsOfOneOrder(parse, rows);
    SymbolsOfOneOrder(parse, rows, req);
    SidesOfOneOrder(parse, rows);
  }

  lemma IdsOfOneOrder(parse: Parser, rows: seq<Json>)
    requires forall t :: t in rows ==> parse(t).orderId.Some?
    ensures var ids := OrderIds(parse, rows);
            (ids != {} && forall a, b :: a in ids && b in ids ==> a == b)
            <==> (rows != [] && forall x, y :: x in rows && y in rows ==> parse(x).orderId == parse(y).orderId)
  {
    forall x | x in rows ensures parse(x).orderId.value in OrderIds(parse, rows) {}
    if rows != [] {
      assert rows[0] in rows;
    }
  }

  lemma SymbolsOfOneOrder(parse: Parser, rows: seq<Json>, req: Request)
    ensures (forall a, b :: a in Symbols(parse, rows) && b in Symbols(parse, rows) ==> a == b)
              && (Symbols(parse, rows) == {} || req.symbol in Symbols(parse, rows))
        <==> forall x :: x in rows && parse(x).symbol.Is? ==> parse(x).symbol.value == req.symbol
  {
    var symbols := Symbols(parse, rows);
    forall x | x in rows && parse(x).symbol.Is? ensures parse(x).symbol.value in symbols {}
    if symbols != {} {
      var s :| s in symbols;
      var x :| x in rows && parse(x).symbol.Is? && parse(x).symbol.value == s;
    }
  }

  lemma SidesOfOneOrder(parse: Parser, rows: seq<Json>)
    ensures (forall a, b :: a in Sides(parse, rows) && b in Sides(parse, rows) ==> a == b)
        <==> forall x, y :: x in rows && y in rows && parse(x).side.Is? && parse(y).side.Is? ==>
                              parse(x).side == parse(y).side
  {
    forall x | x in rows && parse(x).side.Is? ensures parse(x).side.value in Sides(parse, rows) {}
  }

  /**
    A recovery is sound exactly when no trade id is missing or reported with two
    contents, every fill can be counted, all are of one order, and together they
    do not exceed the request.
   */
  lemma SoundIff(parse: Parser, rows: seq<Json>, req: Request)
    requires AllPlain(rows)
    ensures var total := Filled(parse, Kept(parse, rows));
            !Malformed(parse, rows, req) <==>
              && Consistent(parse, rows)
              && (forall t :: t in rows ==> Countable(parse(t), req.clientId))
              && OfOneOrder(parse, rows, req.symbol)
              && total > 0.0 && req.amount > 0.0 && total <= req.amount + Tolerance(req.amount)
  {
    ClashIffInconsistent(parse, rows);
    if Consistent(parse, rows) {
      var kept := Kept(parse, rows);
      KeptIsTheSet(parse, rows);
      forall t ensures Usable(parse(t), req.clientId) <==> Countable(parse(t), req.clientId) {
        UsableIff(parse(t), req.clientId);
      }
      assert AllUsable(parse, kept, req.clientId) <==> forall t :: t in rows ==> Countable(parse(t), req.clientId);
      if AllUsable(parse, kept, req.clientId) {
        CoherentIff(parse, kept, req);
        SameOrderOfSameRows(parse, kept, rows, req.symbol);
      }
    }
  }

  lemma SameOrderOfSameRows(parse: Parser, a: seq<Json>, b: seq<Json>, symbol: string)
    requires SameRows(a, b)
    ensures OfOneOrder(parse, a, symbol) <==> OfOneOrder(parse, b, symbol)
  {
    if a != [] {
      FirstIsARow(a);
    }
    if b != [] {
      FirstIsARow(b);
    }
  }

  /** What a sound recovery says, in the order and beside it. */
  lemma SoundOrderSays(parse: Parser, rows: seq<Json>, req: Request)
    requires !Malformed(parse, rows, req)
    ensures var r, kept := Recover(parse, rows, req), Kept(parse, rows);
            var o, total := r.order, Filled(parse, kept);
            && o.fromTrades && !o.recoveryConflict && o.status == Closed && o.infoIsMapping
            && o.symbol == Is(req.symbol) && o.clientIds == {req.clientId} && o.filled == o.amount == Val(total)
            && (forall t :: t in kept ==> o.ids == {parse(t).orderId.value}
                                          && (parse(t).side.Is? ==> o.side == Named(parse(t).side.value)))
            && (o.side.NoSide? || exists t :: t in kept && parse(t).side.Is?)
            && r.filled == total && r.average == Some(Notional(parse, kept) / total)
            && (r.cost.Some? <==> forall t :: t in kept ==> parse(t).cost.Val?)
            && (r.cost.Some? ==> r.cost == Some(Cost(parse, kept)) && o.cost.Val? && o.cost.value == Cost(parse, kept))
            && (r.cost.None? ==> o.cost.Absent?)
  {
    var kept := Kept(parse, rows);
    OneElement(OrderIds(parse, kept));
    OneElement(Sides(parse, kept));
    SidesSay(parse, kept);
    CostIsNotNegative(parse, kept);
    forall t | t in kept ensures OrderIds(parse, kept) == {parse(t).orderId.value} {
      assert parse(t).orderId.value in OrderIds(parse, kept);
    }
    CostKnownIff(parse, kept, req.clientId);
  }

  /** An unsound one is flagged and has neither cost nor price. */
  lemma UnsoundOrderSays(parse: Parser, rows: seq<Json>, req: Request)
    requires Malformed(parse, rows, req)
    ensures var r := Recover(parse, rows, req);
            && r.order.fromTrades && r.order.recoveryConflict
            && r.cost.None? && r.order.cost.Absent? && r.average.None?
  {
    assert Recover(parse, rows, req).order.recoveryConflict;
  }

  lemma SideOfOne(side: Side)
    ensures SideOf({side}) == Named(side)
  {
    assert Buy in {side} <==> side == Buy;
    assert Sell in {side} <==> side == Sell;
  }

  lemma SidesSay(parse: Parser, rows: seq<Json>)
    requires |Sides(parse, rows)| <= 1
    ensures forall t :: t in rows && parse(t).side.Is? ==> SideOf(Sides(parse, rows)) == Named(parse(t).side.value)
    ensures SideOf(Sides(parse, rows)).NoSide? || exists t :: t in rows && parse(t).side.Is?
  {
    OneElement(Sides(parse, rows));
    forall t | t in rows && parse(t).side.Is? ensures SideOf(Sides(parse, rows)) == Named(parse(t).side.value) {
      assert parse(t).side.value in Sides(parse, rows);
      assert Sides(parse, rows) == {parse(t).side.value};
      SideOfOne(parse(t).side.value);
    }
    if s :| s in Sides(parse, rows) {
      var t :| t in rows && parse(t).side.Is? && parse(t).side.value == s;
    }
  }

  lemma {:induction false} CostIsNotNegative(parse: Parser, rows: seq<Json>)
    ensures Cost(parse, rows) >= 0.0
  {
    if rows != [] {
      CostIsNotNegative(parse, rows[..|rows| - 1]);
    }
  }

  lemma CostKnownIff(parse: Parser, rows: seq<Json>, clientId: Id)
    requires AllUsable(parse, rows, clientId)
    ensures CostKnown(parse, rows) <==> forall t :: t in rows ==> parse(t).cost.Val?
  {
    forall k | 0 <= k < |rows| ensures Usable(parse(rows[k]), clientId) {
      assert rows[k] in rows;
    }
  }

  // ---- what is summed: the numbers of a single fill, and sums of sums

  /** Of one fill, the recovered numbers are its own. */
  lemma OneFillIsTheOrder(parse: Parser, t: Json, req: Request)
    requires !Malformed(parse, [t], req)
    ensures var r, f := Recover(parse, [t], req), parse(t);
            && r.filled == f.amount.value && r.average == Some(f.price.value)
            && r.cost == (if f.cost.Val? then Some(f.cost.value) else None)
  {
    KeptOfOne(parse, t);
    assert Usable(parse(t), req.clientId) by {
      assert t in [t];
    }
    SumsOfOne(parse, t);
    QuotientOfOne(Notional(parse, [t]), Filled(parse, [t]), parse(t).price.value);
    AverageOfSound(parse, [t], req);
    CostKnownIff(parse, [t], req.clientId);
    assert CostKnown(parse, [t]) <==> parse(t).cost.Val? by {
      assert [t][0] == t;
    }
  }

  lemma SumOfOne(weight: Json -> real, t: Json)
    ensures Sum(weight, [t]) == weight(t)
  {
    assert [t][..0] == [];
  }

  lemma SumsOfOne(parse: Parser, t: Json)
    requires Positive(parse(t).amount) && Positive(parse(t).price)
    ensures Filled(parse, [t]) == parse(t).amount.value && Cost(parse, [t]) == OrZero(parse(t).cost)
    ensures Notional(parse, [t]) == parse(t).amount.value * parse(t).price.value
  {
    SumOfOne(Amounts(parse), t);
    SumOfOne(Notionals(parse), t);
    SumOfOne(Costs(parse), t);
  }

  lemma QuotientOfOne(n: real, a: real, p: real)
    requires a > 0.0 && n == a * p
    ensures n / a == p
  {
  }

  /** Quantities, notionals and costs of two lists of fills add up. */
  lemma {:induction false} SumsAdd(weight: Json -> real, a: seq<Json>, b: seq<Json>)
    ensures Sum(weight, a + b) == Sum(weight, a) + Sum(weight, b)
  {
    if b == [] {
      assert a + b == a;
    } else {
      SumsAdd(weight, a, b[..|b| - 1]);
      assert (a + b)[..|a + b| - 1] == a + b[..|b| - 1];
    }
  }

  // ------------------------------------------------ the verdict on the order

  predicate CodeContradicts(c: Code, req: Request) {
    CodeSide(c) != req.side || (req.leg.Some? && CodeLeg(c) != req.leg.value) || CodeReduces(c) != req.reduceOnly
  }

  /** A payload, or for lack of a side code in it the fills' own side, contradicts the request. */
  predicate Contradicts(p: Payload, side: SideText, req: Request) {
    || (req.venue == Mexc && p.side.Unreadable?)
    || (if req.venue == Mexc && p.side.Is? then CodeContradicts(p.side.value, req)
        else side.Named? && side.side != req.side)
    || (exists k :: 0 <= k < |p.reduceFlags| && FlagConflicts(p.reduceFlags[k], req.reduceOnly))
    || (exists k :: 0 <= k < |p.legs| && LegConflicts(p.legs[k], req.leg))
  }

  predicate Refuses(parse: Parser, rows: seq<Json>, req: Request) {
    Conflicts(Snapshot(Recover(parse, rows, req).order), req)
  }

  /** An order with no other conflict is refused exactly when its payload contradicts the request. */
  lemma OnlyThePayloadIsJudged(o: Order, p: Payload, req: Request)
    requires !o.recoveryConflict && |o.ids| == 1 && o.clientIds == {req.clientId} && o.symbol == Is(req.symbol)
    requires !AmountConflicts(o, req.amount) && !StatusConflicts(o) && (o.side.NoSide? || o.side.Named?)
    requires o.infoIsMapping && o.infoSide == p.side && o.reduceFlags == []
    requires o.infoReduceFlags == p.reduceFlags && o.legs == p.legs
    ensures Conflicts(Snapshot(o), req) <==> Contradicts(p, o.side, req)
  {
  }

  lemma SoundHasNoOtherConflict(parse: Parser, rows: seq<Json>, req: Request)
    requires !Malformed(parse, rows, req)
    ensures var o := Recover(parse, rows, req).order;
            && !o.recoveryConflict && |o.ids| == 1 && !AmountConflicts(o, req.amount) && !StatusConflicts(o)
  {
  }

  /** A sound recovery is refused exactly when its first payload contradicts the request. */
  lemma SoundIsRefusedIff(parse: Parser, rows: seq<Json>, req: Request)
    requires !Malformed(parse, rows, req)
    ensures var kept := Kept(parse, rows);
            Refuses(parse, rows, req)
            <==> Contradicts(PayloadOf(FirstInfo(parse, kept)), SideOf(Sides(parse, kept)), req)
  {
    var o := Recover(parse, rows, req).order;
    SoundHasNoOtherConflict(parse, rows, req);
    OnlyThePayloadIsJudged(o, PayloadOf(FirstInfo(parse, Kept(parse, rows))), req);
  }

  /** The payloads of all fills give one answer. */
  ghost predicate PayloadsAgree(parse: Parser, rows: seq<Json>, req: Request) {
    var side := SideOf(Sides(parse, rows));
    forall x, y :: x in rows && y in rows && parse(x).info.Some? && parse(y).info.Some? ==>
      (Contradicts(parse(x).info.value, side, req) <==> Contradicts(parse(y).info.value, side, req))
  }

  lemma {:induction false} FirstInfoIsARow(parse: Parser, rows: seq<Json>)
    ensures match FirstInfo(parse, rows)
            case Some(p) => exists t :: t in rows && parse(t).info == Some(p)
            case None => forall t :: t in rows ==> parse(t).info.None?
    ensures rows != [] && parse(rows[0]).info.Some? ==> FirstInfo(parse, rows) == parse(rows[0]).info
  {
    if rows != [] {
      var init, t := rows[..|rows| - 1], rows[|rows| - 1];
      FirstInfoIsARow(parse, init);
      assert rows == init + [t];
      if init != [] {
        assert init[0] == rows[0];
      }
    }
  }

  lemma {:induction false} KeptStarts(parse: Parser, rows: seq<Json>)
    requires rows != []
    ensures Kept(parse, rows) != [] && Kept(parse, rows)[0] == rows[0]
  {
    if |rows| > 1 {
      KeptStarts(parse, rows[..|rows| - 1]);
    } else {
      assert rows[..0] == [];
      assert !Seen(parse, [], rows[0]);
    }
  }

  lemma SameRowsSameSides(parse: Parser, a: seq<Json>, b: seq<Json>)
    requires SameRows(a, b)
    ensures Sides(parse, a) == Sides(parse, b)
  {
  }

  /** Where the payloads agree, every listing of the same executions is judged alike. */
  lemma AgreeingPayloadsAreOrderFree(parse: Parser, rows: seq<Json>, others: seq<Json>, req: Request)
    requires AllPlain(rows) && SameRows(rows, others)
    requires Malformed(parse, rows, req) || PayloadsAgree(parse, rows, req)
    ensures Refuses(parse, rows, req) == Refuses(parse, others, req)
  {
    RecoveryDependsOnTheSetOnly(parse, rows, others, req);
    if !Malformed(parse, rows, req) {
      var a, b := Kept(parse, rows), Kept(parse, others);
      ClashIffInconsistent(parse, rows);
      ClashIffInconsistent(parse, others);
      KeptIsTheSet(parse, rows);
      KeptIsTheSet(parse, others);
      SameRowsSameSides(parse, rows, a);
      SameRowsSameSides(parse, rows, b);
      SoundIsRefusedIff(parse, rows, req);
      SoundIsRefusedIff(parse, others, req);
      FirstInfoIsARow(parse, a);
      FirstInfoIsARow(parse, b);
    }
  }

  /** The same rows with row `k` in front. */
  function InFront(rows: seq<Json>, k: nat): seq<Json>
    requires k < |rows|
  {
    [rows[k]] + Without(rows, k)
  }

  lemma InFrontIsAPermutation(rows: seq<Json>, k: nat)
    requires k < |rows|
    ensures multiset(InFront(rows, k)) == multiset(rows) && SameRows(rows, InFront(rows, k))
  {
    assert rows == rows[..k] + [rows[k]] + rows[k + 1..];
    SameMultiset(rows, InFront(rows, k));
  }

  lemma SameMultiset(a: seq<Json>, b: seq<Json>)
    requires multiset(a) == multiset(b)
    ensures SameRows(a, b)
  {
    forall t ensures t in a <==> t in b {
      assert t in a <==> t in multiset(a);
      assert t in b <==> t in multiset(b);
    }
  }

  /** The fill in front decides. */
  lemma FrontDecides(parse: Parser, rows: seq<Json>, k: nat, req: Request)
    requires AllPlain(rows) && k < |rows| && parse(rows[k]).info.Some? && !Malformed(parse, rows, req)
    ensures Refuses(parse, InFront(rows, k), req)
            <==> Contradicts(parse(rows[k]).info.value, SideOf(Sides(parse, rows)), req)
  {
    var front := InFront(rows, k);
    InFrontIsAPermutation(rows, k);
    RecoveryDependsOnTheSetOnly(parse, rows, front, req);
    SoundIsRefusedIff(parse, front, req);
    KeptStarts(parse, front);
    FirstInfoIsARow(parse, Kept(parse, front));
    ClashIffInconsistent(parse, front);
    KeptIsTheSet(parse, front);
    SameRowsSameSides(parse, rows, Kept(parse, front));
  }

  /**
    Exactly when the verdict does not depend on the order in which the venue
    listed the fills: the recovery is flagged anyway, or no two fills have
    payloads of which one contradicts the request and the other does not.
   */
  lemma VerdictIsOrderFreeIff(parse: Parser, rows: seq<Json>, req: Request)
    requires AllPlain(rows)
    ensures (forall others | multiset(others) == multiset(rows) ::
               Refuses(parse, others, req) == Refuses(parse, rows, req))
       <==> Malformed(parse, rows, req) || PayloadsAgree(parse, rows, req)
  {
    if Malformed(parse, rows, req) || PayloadsAgree(parse, rows, req) {
      forall others | multiset(others) == multiset(rows)
        ensures Refuses(parse, others, req) == Refuses(parse, rows, req)
      {
        SameMultiset(others, rows);
        AgreeingPayloadsAreOrderFree(parse, rows, others, req);
      }
    } else {
      var side := SideOf(Sides(parse, rows));
      var x, y :| x in rows && y in rows && parse(x).info.Some? && parse(y).info.Some?
        && Contradicts(parse(x).info.value, side, req) && !Contradicts(parse(y).info.value, side, req);
      var i :| 0 <= i < |rows| && rows[i] == x;
      var j :| 0 <= j < |rows| && rows[j] == y;
      InFrontIsAPermutation(rows, i);
      InFrontIsAPermutation(rows, j);
      FrontDecides(parse, rows, i, req);
      FrontDecides(parse, rows, j, req);
    }
  }

  // ---------------------------------------- two fills whose payloads disagree

  /** One of two fills of an order: one contract sold at ten. */
  function OneFill(tradeId: Id, info: Payload): Fill {
    Fill(Some(tradeId), Some("7"), {"c"}, Is("S"), Is(Sell), true, Some(info), Val(1.0), Val(10.0), Absent)
  }

  const ENTRY_REQUEST := Request("S", Sell, None, false, "c", 2.0, OtherVenue)

  lemma SumOfTwo(weight: Json -> real, x: Json, y: Json)
    ensures Sum(weight, [x, y]) == weight(x) + weight(y)
  {
    assert [x, y][..1] == [x] && [x][..0] == [];
    assert Sum(weight, [x]) == weight(x);
  }

  lemma KeptOfOne(parse: Parser, x: Json)
    ensures Kept(parse, [x]) == [x] && (Clashes(parse, [x]) <==> parse(x).tradeId.None?)
  {
    assert [x][..0] == [];
    assert !Seen(parse, [], x) && RepeatsExactly(parse, [], x);
  }

  lemma KeptOfTwo(parse: Parser, x: Json, y: Json)
    requires parse(x).tradeId.Some? && parse(y).tradeId.Some? && parse(x).tradeId != parse(y).tradeId
    ensures Kept(parse, [x, y]) == [x, y] && !Clashes(parse, [x, y])
  {
    KeptOfOne(parse, x);
    assert [x, y][..1] == [x];
    assert !Seen(parse, [x], y) && RepeatsExactly(parse, [x], y);
  }

  lemma TwoFillsAreSound(parse: Parser, x: Json, y: Json, p: Payload, q: Payload)
    requires parse(x) == OneFill("1", p) && parse(y) == OneFill("2", q)
    ensures !Malformed(parse, [x, y], ENTRY_REQUEST) && Sides(parse, [x, y]) == {Sell}
  {
    var rows := [x, y];
    KeptOfTwo(parse, x, y);
    SumOfTwo(Amounts(parse), x, y);
    assert x in rows;
    assert OrderIds(parse, rows) == {"7"};
    assert Symbols(parse, rows) == {"S"};
    assert Sides(parse, rows) == {Sell};
  }

  lemma InFrontOfTwo(x: Json, y: Json)
    ensures InFront([x, y], 0) == [x, y] && InFront([x, y], 1) == [y, x]
    ensures Plain(x) && Plain(y) ==> AllPlain([x, y])
  {
  }

  /** Of two fills, the one that is listed first decides. */
  lemma FirstOfTwoDecides(parse: Parser, x: Json, y: Json, p: Payload, q: Payload)
    requires parse(x) == OneFill("1", p) && parse(y) == OneFill("2", q) && Plain(x) && Plain(y)
    ensures Refuses(parse, [x, y], ENTRY_REQUEST) <==> Contradicts(p, Named(Sell), ENTRY_REQUEST)
    ensures Refuses(parse, [y, x], ENTRY_REQUEST) <==> Contradicts(q, Named(Sell), ENTRY_REQUEST)
  {
    TwoFillsAreSound(parse, x, y, p, q);
    InFrontOfTwo(x, y);
    FrontDecides(parse, [x, y], 0, ENTRY_REQUEST);
    FrontDecides(parse, [x, y], 1, ENTRY_REQUEST);
  }

  function FillRow(tradeId: string, reduceOnly: bool): Json {
    Dict(map["tradeId" := Str(tradeId), "reduceOnly" := Bool(reduceOnly)])
  }

  function FlagOf(reduceOnly: bool): Payload {
    Payload(Missing, [Literal(reduceOnly)], [])
  }

  function TwoFills(): Parser {
    (t: Json) => if t == FillRow("1", false) then OneFill("1", FlagOf(false)) else OneFill("2", FlagOf(true))
  }

  lemma FillRowsDiffer(a: string, b: string, x: bool, y: bool)
    ensures Plain(FillRow(a, x))
    ensures a != b ==> FillRow(a, x) != FillRow(b, y)
  {
    assert FillRow(a, x).entries["tradeId"] == Str(a);
    assert FillRow(b, y).entries["tradeId"] == Str(b);
  }

  lemma FlagDecides(reduceOnly: bool)
    ensures Contradicts(FlagOf(reduceOnly), Named(Sell), ENTRY_REQUEST) <==> reduceOnly
  {
    assert FlagOf(reduceOnly).reduceFlags[0] == Literal(reduceOnly);
  }

  /** The same two executions are accepted as the entry that was asked for, or refused, by which is listed first. */
  lemma TheFirstFillDecides()
    ensures !Refuses(TwoFills(), [FillRow("1", false), FillRow("2", true)], ENTRY_REQUEST)
    ensures Refuses(TwoFills(), [FillRow("2", true), FillRow("1", false)], ENTRY_REQUEST)
  {
    var x, y := FillRow("1", false), FillRow("2", true);
    FillRowsDiffer("1", "2", false, true);
    FillRowsDiffer("2", "1", true, false);
    FirstOfTwoDecides(TwoFills(), x, y, FlagOf(false), FlagOf(true));
    FlagDecides(false);
    FlagDecides(true);
  }
}
