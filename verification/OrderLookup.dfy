/**
  Finding out whether an order landed after its answer was lost
  (`_find_order_by_client_id` in bot_utils/futures_order.py).  The venue is
  asked through several sources; each may be denied by the local budget, raise,
  answer nonsense or answer incompletely.  What is concluded, both "here it is"
  and "it does not exist", has to follow from what was actually read.
 */
module OrderLookup {
  import opened Wrappers
  import opened OrderEvidence
  import opened Snapshots
  import opened TradeRecovery

  datatype Source = RequestItself | Exact | OpenOrders | Orders | ClosedOrders | Trades

  datatype Mark = Empty | Unavailable | Found | Contradicted

  datatype Row = NotARow | Row(payload: Json)

  /** One answer of a listing endpoint; `Denied` means the local call budget refused to ask. */
  datatype Page = Denied | Raised | NotAList | Listed(rows: seq<Row>)

  datatype ExactReply = ExactDenied | ExactRaised | Answered(answer: ExactAnswer)

  datatype ExactAnswer = Data(native: NativeRow) | EmptySuccess | OtherAnswer

  /** MEXC's own order record; an unreadable state leaves the order without a status. */
  datatype NativeRow = NativeRow(order: Order, externalIds: set<Id>, foreignSymbol: bool)

  datatype Venues = Venues(
    anchored: bool,
    exact: Option<nat -> ExactReply>,
    openOrders: Page,
    orders: Option<Page>,
    closedOrders: Option<Page>,
    trades: Option<Page>,
    orderOf: Json -> Order,
    fillOf: Parser)

  /** `binds` says whether the caller named the expected side, which turns the request checks on. */
  datatype Query = Query(req: Request, binds: bool)

  datatype State = State(
    marks: map<Source, Mark>,
    complete: map<Source, bool>,
    denied: bool,
    ids: set<Id>,
    deferred: Option<Order>,
    answer: Option<Order>)

  const EXACT_ATTEMPTS: nat := 3

  const Start := State(map[], map[], false, {}, None, None)

  function Anchored(w: Venues, q: Query): bool {
    q.req.venue == Mexc && w.anchored
  }

  /** Page size of the history endpoints; the open orders are not paged. */
  function HistoryLimit(w: Venues, q: Query): nat {
    if Anchored(w, q) then 100 else 20
  }

  function Marked(s: State, source: Source, mark: Mark): State {
    s.(marks := s.marks[source := mark])
  }

  // --------------------------------------------------- choosing a candidate

  function Flagged(o: Order): Order {
    o.(recoveryConflict := true)
  }

  predicate IdsDisagree(observed: set<Id>, current: set<Id>) {
    |current| > 1 || (observed != {} && current != {} && observed != current)
  }

  /** An explicit end without a fill: evidence, but not yet the answer. */
  predicate Defers(o: Order) {
    !o.recoveryConflict && o.status in {Canceled, Expired} && !HasFill(o)
  }

  predicate Refused(o: Order, q: Query) {
    q.binds && Conflicts(Snapshot(o), q.req)
  }

  /** `_select_recovery_candidate`: the new state, and the candidate unless it is deferred. */
  function Candidate(s: State, o: Order, q: Query): (State, Option<Order>) {
    if IdsDisagree(s.ids, o.ids) then (s, Some(Flagged(o)))
    else
      var s' := s.(ids := s.ids + o.ids);
      if Refused(o, q) then (s', Some(Flagged(o)))
      else if Defers(o) then (s'.(deferred := Some(o)), None)
      else (s', Some(o))
  }

  /** Only an aggregation of trades is typed as one. */
  function RowOrder(w: Venues, row: Json): Order {
    w.orderOf(row).(fromTrades := false)
  }

  predicate Ours(ids: set<Id>, q: Query) {
    q.req.clientId in ids
  }

  /** `_select_recovery_batch`: the first matching row, provided no later one contradicts or differs from it. */
  function Batch(s: State, w: Venues, rows: seq<Json>, selected: Option<Json>, q: Query): (State, Option<Order>)
    decreases |rows|
  {
    if rows == [] then
      (s, if selected.Some? then Some(RowOrder(w, selected.value)) else None)
    else if !Ours(RowOrder(w, rows[0]).clientIds, q) then Batch(s, w, rows[1..], selected, q)
    else
      var (s', candidate) := Candidate(s, RowOrder(w, rows[0]), q);
      if candidate.None? then Batch(s', w, rows[1..], selected, q)
      else if candidate.value.recoveryConflict then (s', candidate)
      else if selected.None? then Batch(s', w, rows[1..], Some(rows[0]), q)
      else if !StrictEqual(selected.value, rows[0]) then (s', Some(Flagged(candidate.value)))
      else Batch(s', w, rows[1..], selected, q)
  }

  // ------------------------------------------------------- reading a source

  function Payloads(rows: seq<Row>): seq<Json> {
    if rows == [] then []
    else Payloads(rows[..|rows| - 1]) + (if rows[|rows| - 1].Row? then [rows[|rows| - 1].payload] else [])
  }

  predicate AllRows(rows: seq<Row>) {
    forall k :: 0 <= k < |rows| ==> rows[k].Row?
  }

  predicate Fits(rows: seq<Row>, limit: Option<nat>) {
    limit.None? || |rows| < limit.value
  }

  /** `_budgeted` and `_recovery_rows` together. */
  function Read(s: State, source: Source, page: Page, limit: Option<nat>): State {
    match page
    case Denied => Marked(s, source, Unavailable).(denied := true, complete := s.complete[source := false])
    case Raised => Marked(s, source, Unavailable)
    case NotAList => Marked(s, source, Unavailable).(complete := s.complete[source := false])
    case Listed(rows) =>
      Marked(s, source, if AllRows(rows) then Empty
          else Unavailable).(complete := s.complete[source := Fits(rows, limit)])
  }

  function Usables(page: Page): seq<Json> {
    if page.Listed? then Payloads(page.rows) else []
  }

  function Answer(s: State, source: Source, selected: Option<Order>): State {
    if selected.None? then s
    else Marked(s, source, if selected.value.recoveryConflict then Contradicted else Found).(answer := selected)
  }

  function OrderStage(s: State, w: Venues, source: Source, page: Page, limit: Option<nat>, q: Query): State {
    if s.answer.Some? then s else
    var (s', selected) := Batch(Read(s, source, page, limit), w, Usables(page), None, q);
    Answer(s', source, selected)
  }

  function OptionalStage(s: State, w: Venues, source: Source, page: Option<Page>, q: Query): State {
    if page.None? then s else OrderStage(s, w, source, page.value, Some(HistoryLimit(w, q)), q)
  }

  /** The trades that carry the client id, in the order they were listed. */
  function OurTrades(w: Venues, rows: seq<Json>, q: Query): seq<Json> {
    if rows == [] then []
    else OurTrades(w, rows[..|rows| - 1], q)
         + (if Ours(w.fillOf(rows[|rows| - 1]).clientIds, q) then [rows[|rows| - 1]] else [])
  }

  function TradeStage(s: State, w: Venues, q: Query): State {
    if s.answer.Some? || w.trades.None? then s else
    var read := Read(s, Trades, w.trades.value, Some(HistoryLimit(w, q)));
    var ours := OurTrades(w, Usables(w.trades.value), q);
    if ours == [] then read else
    var (s', selected) := Candidate(read, Recover(w.fillOf, ours, q.req).order, q);
    Answer(s', Trades, selected)
  }

  predicate Beyond(x: Num, limit: real) {
    x.Val? && x.value > limit + Tolerance(limit)
  }

  /** The record names another order, or its own numbers contradict each other or the request. */
  predicate NativeMalformed(n: NativeRow, q: Query) {
    var o := n.order;
    || o.status == NoStatus
    || n.externalIds != {q.req.clientId}
    || |o.ids| != 1
    || n.foreignSymbol
    || o.filled.Malformed?
    || (!o.amount.Absent? && !Positive(o.amount))
    || (o.filled.Val? && o.amount.Val? &&
        (|| o.filled.value > o.amount.value + Tolerance(o.amount.value)
         || (o.status == Closed && Abs(o.filled.value - o.amount.value) > Tolerance(o.amount.value))))
    || (q.req.amount > 0.0 && (Beyond(o.amount, q.req.amount) || Beyond(o.filled, q.req.amount)))
  }

  function NativeOrder(n: NativeRow, q: Query): Order {
    n.order.(fromTrades := false, clientIds := n.order.clientIds + {q.req.clientId},
             recoveryConflict := NativeMalformed(n, q))
  }

  /** The answer of the exact lookup after its retries: the first that did not raise. */
  function ExactOutcome(reply: nat -> ExactReply, attempt: nat): ExactReply
    decreases EXACT_ATTEMPTS - attempt
  {
    if attempt + 1 < EXACT_ATTEMPTS && reply(attempt).ExactRaised? then ExactOutcome(reply, attempt + 1)
        else reply(attempt)
  }

  function ExactStage(s: State, w: Venues, q: Query): State {
    if q.req.venue != Mexc || w.exact.None? then s else
    match ExactOutcome(w.exact.value, 0)
    case ExactDenied => Marked(s, Exact, Unavailable).(denied := true)
    case ExactRaised => Marked(s, Exact, Unavailable)
    case Answered(OtherAnswer) => Marked(s, Exact, Unavailable)
    case Answered(EmptySuccess) => Marked(s, Exact, Empty).(complete := s.complete[Exact := true])
    case Answered(Data(n)) =>
      var (s', selected) := Candidate(s, NativeOrder(n, q), q);
      if selected.Some? then Answer(s', Exact, selected) else Marked(s', Exact, Found)
  }

  /** Every source in the order in which it is asked. */
  function Asked(w: Venues, q: Query): State {
    var s1 := ExactStage(Start, w, q);
    var s2 := OrderStage(s1, w, OpenOrders, w.openOrders, None, q);
    var s3 := OptionalStage(s2, w, Orders, w.orders, q);
    var s4 := OptionalStage(s3, w, ClosedOrders, w.closedOrders, q);
    TradeStage(s4, w, q)
  }

  predicate AllMarked(s: State, mark: Mark) {
    forall source :: source in s.marks ==> s.marks[source] == mark
  }

  predicate AllComplete(s: State) {
    forall source :: source in s.marks ==> source in s.complete && s.complete[source]
  }

  predicate IsEmpty(s: State, source: Source) {
    source in s.marks && s.marks[source] == Empty
  }

  /** `complete_negative` as computed from the recorded marks. */
  predicate CompleteNegative(s: State, w: Venues, q: Query) {
    && s.answer.None? && s.deferred.None?
    && q.req.venue == Mexc
    && IsEmpty(s, Exact) && IsEmpty(s, OpenOrders) && IsEmpty(s, Trades)
    && (IsEmpty(s, Orders) || IsEmpty(s, ClosedOrders))
    && AllMarked(s, Empty)
    && w.anchored
    && AllComplete(s)
    && !s.denied
  }

  datatype Conclusion = Conclusion(order: Option<Order>, absent: bool)

  function Conclude(w: Venues, q: Query): Conclusion {
    if q.req.clientId == "" then Conclusion(None, false) else
    var s := Asked(w, q);
    if s.answer.Some? then Conclusion(s.answer, false)
    else if s.deferred.Some? then Conclusion(s.deferred, false)
    else Conclusion(None, CompleteNegative(s, w, q))
  }

  // ---------------------------------------------------------- the procedure

  /** One run of the lookup: the variables its inner functions share. */
  class Lookup {
    const w: Venues
    const q: Query
    var marks: map<Source, Mark>
    var complete: map<Source, bool>
    var denied: bool
    var ids: set<Id>
    var deferred: Option<Order>
    var answer: Option<Order>

    function View(): State
      reads this
    {
      State(marks, complete, denied, ids, deferred, answer)
    }

    constructor (w: Venues, q: Query)
      ensures this.w == w && this.q == q
      ensures View() == Start
    {
      this.w, this.q := w, q;
      marks, complete, denied, ids, deferred, answer := map[], map[], false, {}, None, None;
    }

    method SelectCandidate(o: Order) returns (candidate: Option<Order>)
      modifies this
      ensures (View(), candidate) == Candidate(old(View()), o, q)
    {
      if IdsDisagree(ids, o.ids) {
        return Some(Flagged(o));
      }
      ids := ids + o.ids;
      if Refused(o, q) {
        return Some(Flagged(o));
      }
      if !Defers(o) {
        return Some(o);
      }
      deferred := Some(o);
      return None;
    }

    method SelectBatch(rows: seq<Json>) returns (result: Option<Order>)
      modifies this
      ensures (View(), result) == Batch(old(View()), w, rows, None, q)
    {
      var selected: Option<Json> := None;
      var n := 0;
      while n < |rows|
        invariant 0 <= n <= |rows|
        invariant Batch(View(), w, rows[n..], selected, q) == Batch(old(View()), w, rows, None, q)
      {
        var o := RowOrder(w, rows[n]);
        assert rows[n..][0] == rows[n] && rows[n..][1..] == rows[n + 1..];
        if Ours(o.clientIds, q) {
          var candidate := SelectCandidate(o);
          if candidate.Some? {
            if candidate.value.recoveryConflict {
              return candidate;
            }
            if selected.None? {
              selected := Some(rows[n]);
            } else if !StrictEqual(selected.value, rows[n]) {
              return Some(Flagged(candidate.value));
            }
          }
        }
        n := n + 1;
      }
      result := if selected.Some? then Some(RowOrder(w, selected.value)) else None;
    }

    static method KeepRows(raw: seq<Row>) returns (rows: seq<Json>, sound: bool)
      ensures rows == Payloads(raw) && sound == AllRows(raw)
    {
      rows, sound := [], true;
      var n := 0;
      while n < |raw|
        invariant 0 <= n <= |raw|
        invariant rows == Payloads(raw[..n])
        invariant sound == forall k :: 0 <= k < n ==> raw[k].Row?
      {
        assert raw[..n + 1][..n] == raw[..n];
        if raw[n].Row? {
          rows := rows + [raw[n].payload];
        } else {
          sound := false;
        }
        n := n + 1;
      }
      assert raw[..n] == raw;
    }

    method RecoveryRows(source: Source, page: Page, limit: Option<nat>) returns (rows: seq<Json>)
      modifies this
      ensures View() == Read(old(View()), source, page, limit)
      ensures denied == (old(denied) || page.Denied?)
      ensures marks == old(marks)[source := if page.Listed? && forall k :: 0 <= k < |page.rows| ==> page.rows[k].Row?
                                            then Empty else Unavailable]
      ensures complete == if page.Raised? then old(complete)
                          else old(complete)[source := page.Listed? && (limit.Some? ==> |page.rows| < limit.value)]
      ensures rows == Usables(page)
    {
      rows := [];
      match page
      case Raised => marks := marks[source := Unavailable];
      case Denied =>
        denied := true;
        marks, complete := marks[source := Unavailable], complete[source := false];
      case NotAList =>
        marks, complete := marks[source := Unavailable], complete[source := false];
      case Listed(raw) =>
        var sound;
        rows, sound := KeepRows(raw);
        complete := complete[source := Fits(raw, limit)];
        marks := marks[source := if sound then Empty else Unavailable];
    }

    method Settle(source: Source, selected: Option<Order>)
      modifies this
      ensures View() == Answer(old(View()), source, selected)
    {
      if selected.Some? {
        marks := marks[source := if selected.value.recoveryConflict then Contradicted else Found];
        answer := selected;
      }
    }

    method ReadOrders(source: Source, page: Page, limit: Option<nat>)
      modifies this
      ensures View() == OrderStage(old(View()), w, source, page, limit, q)
    {
      if answer.None? {
        var rows := RecoveryRows(source, page, limit);
        var selected := SelectBatch(rows);
        Settle(source, selected);
      }
    }

    method ReadTrades()
      modifies this
      ensures View() == TradeStage(old(View()), w, q)
    {
      if answer.Some? || w.trades.None? {
        return;
      }
      var rows := RecoveryRows(Trades, w.trades.value, Some(HistoryLimit(w, q)));
      var ours, n := [], 0;
      while n < |rows|
        invariant 0 <= n <= |rows|
        invariant ours == OurTrades(w, rows[..n], q)
        invariant View() == Read(old(View()), Trades, w.trades.value, Some(HistoryLimit(w, q)))
      {
        assert rows[..n + 1][..n] == rows[..n];
        if Ours(w.fillOf(rows[n]).clientIds, q) {
          ours := ours + [rows[n]];
        }
        n := n + 1;
      }
      assert rows[..n] == rows;
      if ours != [] {
        var recovered := AggregateTrades(w.fillOf, ours, q.req);
        var selected := SelectCandidate(recovered.order);
        Settle(Trades, selected);
      }
    }

    /** Up to three tries; only a raised error is tried again. */
    method AskExact(native: nat -> ExactReply) returns (reply: ExactReply)
      ensures reply == ExactOutcome(native, 0)
    {
      var attempt := 0;
      reply := native(0);
      while attempt + 1 < EXACT_ATTEMPTS && reply.ExactRaised?
        invariant attempt < EXACT_ATTEMPTS
        invariant reply == native(attempt)
        invariant ExactOutcome(native, 0) == ExactOutcome(native, attempt)
      {
        attempt := attempt + 1;
        reply := native(attempt);
      }
    }

    method ReadExact()
      modifies this
      ensures View() == ExactStage(old(View()), w, q)
    {
      if q.req.venue != Mexc || w.exact.None? {
        return;
      }
      var reply := AskExact(w.exact.value);
      match reply
      case ExactDenied =>
        denied, marks := true, marks[Exact := Unavailable];
      case ExactRaised =>
        marks := marks[Exact := Unavailable];
      case Answered(OtherAnswer) =>
        marks := marks[Exact := Unavailable];
      case Answered(EmptySuccess) =>
        marks, complete := marks[Exact := Empty], complete[Exact := true];
      case Answered(Data(n)) =>
        var selected := SelectCandidate(NativeOrder(n, q));
        if selected.Some? {
          Settle(Exact, selected);
        } else {
          marks := marks[Exact := Found];
        }
    }

    method Find() returns (result: Conclusion)
      requires View() == Start
      modifies this
      ensures result == Conclude(w, q)
    {
      if q.req.clientId == "" {
        marks := marks[RequestItself := Unavailable];
        return Conclusion(None, false);
      }
      ReadExact();
      ReadOrders(OpenOrders, w.openOrders, None);
      if w.orders.Some? {
        ReadOrders(Orders, w.orders.value, Some(HistoryLimit(w, q)));
      }
      if w.closedOrders.Some? {
        ReadOrders(ClosedOrders, w.closedOrders.value, Some(HistoryLimit(w, q)));
      }
      ReadTrades();
      assert View() == Asked(w, q);
      if answer.Some? {
        return Conclusion(answer, false);
      }
      if deferred.Some? {
        return Conclusion(deferred, false);
      }
      return Conclusion(None, CompleteNegative(View(), w, q));
    }
  }

  // ------------------------------------------------- "it does not exist"

  function OrderCarries(w: Venues, q: Query): Json -> bool {
    t => q.req.clientId in w.orderOf(t).clientIds
  }

  function TradeCarries(w: Venues, q: Query): Json -> bool {
    t => q.req.clientId in w.fillOf(t).clientIds
  }

  /** The listing was read to its end, every entry was readable, and none carries the client id. */
  ghost predicate NoTrace(page: Page, limit: Option<nat>, carries: Json -> bool) {
    page.Listed? && (limit.Some? ==> |page.rows| < limit.value)
    && forall k :: 0 <= k < |page.rows| ==> page.rows[k].Row? && !carries(page.rows[k].payload)
  }

  /** Some try of the exact lookup found nothing, and every earlier one raised. */
  ghost predicate ExactSaysNo(reply: nat -> ExactReply) {
    exists a: nat :: a < EXACT_ATTEMPTS && reply(a) == Answered(EmptySuccess) && forall b: nat :: b < a ==>
        reply(b).ExactRaised?
  }

  /** Every order history that was asked was read to its end without a trace. */
  ghost predicate HistoriesSilent(w: Venues, q: Query) {
    && (w.orders.Some? ==> NoTrace(w.orders.value, Some(HistoryLimit(w, q)), OrderCarries(w, q)))
    && (w.closedOrders.Some? ==> NoTrace(w.closedOrders.value, Some(HistoryLimit(w, q)), OrderCarries(w, q)))
  }

  /** What has to be read before an order may be declared absent. */
  ghost predicate Quorum(w: Venues, q: Query) {
    && q.req.venue == Mexc && q.req.clientId != "" && w.anchored
    && w.exact.Some? && ExactSaysNo(w.exact.value)
    && NoTrace(w.openOrders, None, OrderCarries(w, q))
    && (w.orders.Some? || w.closedOrders.Some?)
    && HistoriesSilent(w, q)
    && w.trades.Some? && NoTrace(w.trades.value, Some(100), TradeCarries(w, q))
  }

  /** Nothing was found or put aside, and every source asked so far was read to an empty end. */
  predicate Clean(s: State) {
    s.answer.None? && s.deferred.None? && !s.denied && AllMarked(s, Empty) && AllComplete(s)
  }

  ghost predicate NoneCarries(rows: seq<Json>, carries: Json -> bool) {
    forall t :: t in rows ==> !carries(t)
  }

  lemma {:induction false} PayloadsOfRows(rows: seq<Row>)
    requires AllRows(rows)
    ensures |Payloads(rows)| == |rows|
    ensures forall k :: 0 <= k < |rows| ==> Payloads(rows)[k] == rows[k].payload
  {
    if rows != [] {
      PayloadsOfRows(rows[..|rows| - 1]);
    }
  }

  lemma NoTraceIsCleanAndQuiet(page: Page, limit: Option<nat>, carries: Json -> bool)
    ensures NoTrace(page, limit, carries) <==>
              page.Listed? && AllRows(page.rows) && Fits(page.rows, limit) && NoneCarries(Usables(page), carries)
  {
    if page.Listed? && AllRows(page.rows) {
      PayloadsOfRows(page.rows);
      if NoneCarries(Usables(page), carries) {
        forall k | 0 <= k < |page.rows| ensures !carries(page.rows[k].payload) {
          assert Usables(page)[k] in Usables(page);
        }
      }
    }
  }

  /** Reading a new source keeps the slate clean exactly when the source was read in full. */
  lemma ReadKeepsClean(s: State, source: Source, page: Page, limit: Option<nat>)
    requires source !in s.marks
    ensures Clean(Read(s, source, page, limit)) <==>
              Clean(s) && page.Listed? && AllRows(page.rows) && Fits(page.rows, limit)
  {
    var s' := Read(s, source, page, limit);
    assert source in s'.marks;
    if Clean(s') {
      forall x | x in s.marks ensures s.marks[x] == Empty && x in s.complete && s.complete[x] {
        assert x in s'.marks;
      }
    }
  }

  lemma NoneCarriesSplit(rows: seq<Json>, carries: Json -> bool)
    requires rows != []
    ensures NoneCarries(rows, carries) <==> !carries(rows[0]) && NoneCarries(rows[1..], carries)
  {
    assert rows == [rows[0]] + rows[1..];
  }

  /** Only the ids and the deferred order may differ, and a deferral is not forgotten. */
  predicate Observes(s: State, s': State) {
    && s'.marks == s.marks && s'.complete == s.complete && s'.denied == s.denied && s'.answer == s.answer
    && (s.deferred.Some? ==> s'.deferred.Some?)
  }

  lemma {:induction false} BatchFrame(s: State, w: Venues, rows: seq<Json>, selected: Option<Json>, q: Query)
    ensures Observes(s, Batch(s, w, rows, selected, q).0)
    decreases |rows|
  {
    if rows != [] {
      var o := RowOrder(w, rows[0]);
      if !Ours(o.clientIds, q) {
        BatchFrame(s, w, rows[1..], selected, q);
      } else {
        var (s', candidate) := Candidate(s, o, q);
        assert Observes(s, s');
        if candidate.Some? && selected.None? {
          BatchFrame(s', w, rows[1..], Some(rows[0]), q);
        } else {
          BatchFrame(s', w, rows[1..], selected, q);
        }
      }
    }
  }

  /** Once a row is selected the batch ends with an order, whatever follows. */
  lemma {:induction false} SelectedEndsWithOrder(s: State, w: Venues, rows: seq<Json>, selected: Option<Json>, q: Query)
    requires selected.Some?
    ensures Batch(s, w, rows, selected, q).1.Some?
    decreases |rows|
  {
    if rows != [] {
      var o := RowOrder(w, rows[0]);
      SelectedEndsWithOrder(if Ours(o.clientIds, q) then Candidate(s, o, q).0 else s, w, rows[1..], selected, q);
    }
  }

  /** A batch without a matching row finds nothing and defers nothing; any matching row does one of the two. */
  lemma {:induction false} BatchFindsMatches(s: State, w: Venues, rows: seq<Json>, q: Query)
    requires s.deferred.None?
    ensures var (s', r) := Batch(s, w, rows, None, q);
            r.None? && s'.deferred.None? <==> NoneCarries(rows, OrderCarries(w, q))
    decreases |rows|
  {
    if rows != [] {
      NoneCarriesSplit(rows, OrderCarries(w, q));
      var o := RowOrder(w, rows[0]);
      if !Ours(o.clientIds, q) {
        BatchFindsMatches(s, w, rows[1..], q);
      } else {
        var (s', candidate) := Candidate(s, o, q);
        if candidate.None? {
          BatchFrame(s', w, rows[1..], None, q);
        } else if !candidate.value.recoveryConflict {
          SelectedEndsWithOrder(s', w, rows[1..], Some(rows[0]), q);
        }
      }
    }
  }

  lemma BatchKeepsClean(s: State, w: Venues, source: Source, rows: seq<Json>, q: Query)
    requires s.answer.None? && source in s.marks
    ensures var (s', selected) := Batch(s, w, rows, None, q);
            && (Clean(Answer(s', source, selected)) <==> Clean(s) && NoneCarries(rows, OrderCarries(w, q)))
            && Answer(s', source, selected).marks.Keys == s.marks.Keys
  {
    BatchFrame(s, w, rows, None, q);
    var (s', selected) := Batch(s, w, rows, None, q);
    if s.deferred.None? {
      BatchFindsMatches(s, w, rows, q);
      assert selected.None? && s'.deferred.None? <==> NoneCarries(rows, OrderCarries(w, q));
    }
    assert Clean(Answer(s', source, selected)) ==> selected.None?;
  }

  lemma OrderStageKeepsClean(s: State, w: Venues, source: Source, page: Page, limit: Option<nat>, q: Query)
    requires source !in s.marks
    ensures var s' := OrderStage(s, w, source, page, limit, q);
            && (Clean(s') <==> Clean(s) && NoTrace(page, limit, OrderCarries(w, q)))
            && (Clean(s') ==> s'.marks.Keys == s.marks.Keys + {source})
            && s'.marks.Keys <= s.marks.Keys + {source}
  {
    if s.answer.None? {
      var read := Read(s, source, page, limit);
      ReadKeepsClean(s, source, page, limit);
      NoTraceIsCleanAndQuiet(page, limit, OrderCarries(w, q));
      BatchKeepsClean(read, w, source, Usables(page), q);
    }
  }

  lemma {:induction false} OurTradesAreThose(w: Venues, rows: seq<Json>, q: Query)
    ensures OurTrades(w, rows, q) == [] <==> NoneCarries(rows, TradeCarries(w, q))
  {
    if rows != [] {
      var init, t := rows[..|rows| - 1], rows[|rows| - 1];
      OurTradesAreThose(w, init, q);
      assert rows == init + [t];
      assert TradeCarries(w, q)(t) <==> Ours(w.fillOf(t).clientIds, q);
      assert forall x :: x in rows <==> x in init || x == t;
    }
  }

  lemma TradeStageKeepsClean(s: State, w: Venues, q: Query)
    requires Trades !in s.marks && w.trades.Some?
    ensures var s' := TradeStage(s, w, q);
            && (Clean(s') <==> Clean(s) && NoTrace(w.trades.value, Some(HistoryLimit(w, q)), TradeCarries(w, q)))
            && (Clean(s') ==> s'.marks.Keys == s.marks.Keys + {Trades})
  {
    if s.answer.None? {
      var page, limit := w.trades.value, Some(HistoryLimit(w, q));
      ReadKeepsClean(s, Trades, page, limit);
      NoTraceIsCleanAndQuiet(page, limit, TradeCarries(w, q));
      OurTradesAreThose(w, Usables(page), q);
    }
  }

  lemma {:induction false} ExactOutcomeIsFirstAnswer(reply: nat -> ExactReply, attempt: nat)
    requires attempt < EXACT_ATTEMPTS && forall b: nat :: b < attempt ==> reply(b).ExactRaised?
    ensures ExactOutcome(reply, attempt) == Answered(EmptySuccess) <==> ExactSaysNo(reply)
    decreases EXACT_ATTEMPTS - attempt
  {
    if attempt + 1 < EXACT_ATTEMPTS && reply(attempt).ExactRaised? {
      ExactOutcomeIsFirstAnswer(reply, attempt + 1);
    } else if ExactSaysNo(reply) {
      var a: nat :| a < EXACT_ATTEMPTS && reply(a) == Answered(EmptySuccess) && forall b: nat :: b < a ==>
          reply(b).ExactRaised?;
      assert a == attempt;
    }
  }

  lemma ExactStageClean(w: Venues, q: Query)
    ensures var s := ExactStage(Start, w, q);
            && s.marks.Keys <= {Exact}
            && (Clean(s) && Exact in s.marks <==> q.req.venue == Mexc && w.exact.Some? && ExactSaysNo(w.exact.value))
  {
    if w.exact.Some? {
      ExactOutcomeIsFirstAnswer(w.exact.value, 0);
    }
    var s := ExactStage(Start, w, q);
    if Exact in s.marks && s.marks[Exact] != Empty {
      assert !AllMarked(s, Empty);
    }
  }

  /**
    An order is declared absent exactly when the quorum was met: the exact
    lookup, the open orders, the trades and at least one order history were read
    to their end, no source that was asked failed, and no entry carried the
    client id, whatever its state.
   */
  lemma AbsentIffQuorum(w: Venues, q: Query)
    ensures Conclude(w, q).absent <==> Quorum(w, q)
  {
    var s1 := ExactStage(Start, w, q);
    ExactStageClean(w, q);
    var s2 := OrderStage(s1, w, OpenOrders, w.openOrders, None, q);
    OrderStageKeepsClean(s1, w, OpenOrders, w.openOrders, None, q);
    var s4 := OptionalStage(OptionalStage(s2, w, Orders, w.orders, q), w, ClosedOrders, w.closedOrders, q);
    HistoriesKeepClean(s2, w, q);
    if w.trades.Some? {
      TradeStageKeepsClean(s4, w, q);
    }
    NegativeIsClean(Asked(w, q), w, q);
  }

  lemma HistoriesKeepClean(s: State, w: Venues, q: Query)
    requires s.marks.Keys <= {Exact, OpenOrders}
    ensures var s' := OptionalStage(OptionalStage(s, w, Orders, w.orders, q), w, ClosedOrders, w.closedOrders, q);
            && (Clean(s') <==> Clean(s) && HistoriesSilent(w, q))
            && Trades !in s'.marks
            && (Clean(s') ==>
                  && (Orders in s'.marks <==> w.orders.Some?)
                  && (ClosedOrders in s'.marks <==> w.closedOrders.Some?)
                  && (Exact in s'.marks <==> Exact in s.marks)
                  && (OpenOrders in s'.marks <==> OpenOrders in s.marks))
  {
    var s3 := OptionalStage(s, w, Orders, w.orders, q);
    if w.orders.Some? {
      OrderStageKeepsClean(s, w, Orders, w.orders.value, Some(HistoryLimit(w, q)), q);
    }
    if w.closedOrders.Some? {
      OrderStageKeepsClean(s3, w, ClosedOrders, w.closedOrders.value, Some(HistoryLimit(w, q)), q);
    }
  }

  lemma NegativeIsClean(s: State, w: Venues, q: Query)
    ensures CompleteNegative(s, w, q) <==>
              && Clean(s) && q.req.venue == Mexc && w.anchored
              && Exact in s.marks && OpenOrders in s.marks && Trades in s.marks
              && (Orders in s.marks || ClosedOrders in s.marks)
  {
  }

  // ----------------------------------------------------- "here it is"

  /** Unless flagged, an order carries our client id, was not refused, and its venue id is the one seen so far. */
  predicate Vouched(o: Order, ids: set<Id>, q: Query) {
    o.recoveryConflict || (Ours(o.clientIds, q) && !Refused(o, q) && o.ids <= ids)
  }

  /** At most one venue order id was seen, and whatever is held for the caller is vouched for. */
  predicate Trusted(s: State, q: Query) {
    && |s.ids| <= 1
    && (s.deferred.Some? ==> Vouched(s.deferred.value, s.ids, q))
    && (s.answer.Some? ==> Vouched(s.answer.value, s.ids, q))
  }

  lemma JoinedIds(a: set<Id>, b: set<Id>)
    requires |a| <= 1 && !IdsDisagree(a, b)
    ensures |a + b| <= 1
  {
    if a == {} {
      assert a + b == b;
    } else {
      assert a + b == a;
    }
  }

  lemma CandidateIsTrusted(s: State, o: Order, q: Query)
    requires Trusted(s, q) && Ours(o.clientIds, q)
    ensures var (s', c) := Candidate(s, o, q);
            && Trusted(s', q) && s.ids <= s'.ids
            && (c.Some? ==> Vouched(c.value, s'.ids, q) && (c.value == o || c.value.recoveryConflict))
            && (c.None? ==> s'.deferred == Some(o) && Defers(o))
  {
    if !IdsDisagree(s.ids, o.ids) {
      JoinedIds(s.ids, o.ids);
    }
  }

  lemma {:induction false} BatchIsTrusted(s: State, w: Venues, rows: seq<Json>, selected: Option<Json>, q: Query)
    requires Trusted(s, q)
    requires selected.Some? ==> Vouched(RowOrder(w, selected.value), s.ids, q)
    ensures var (s', r) := Batch(s, w, rows, selected, q);
            Trusted(s', q) && (r.Some? ==> Vouched(r.value, s'.ids, q))
    decreases |rows|
  {
    if rows != [] {
      var o := RowOrder(w, rows[0]);
      if !Ours(o.clientIds, q) {
        BatchIsTrusted(s, w, rows[1..], selected, q);
      } else {
        CandidateIsTrusted(s, o, q);
        var (s', candidate) := Candidate(s, o, q);
        if candidate.Some? && selected.None? {
          if !candidate.value.recoveryConflict {
            BatchIsTrusted(s', w, rows[1..], Some(rows[0]), q);
          }
        } else {
          BatchIsTrusted(s', w, rows[1..], selected, q);
        }
      }
    }
  }

  lemma OrderStageIsTrusted(s: State, w: Venues, source: Source, page: Page, limit: Option<nat>, q: Query)
    requires Trusted(s, q)
    ensures Trusted(OrderStage(s, w, source, page, limit, q), q)
  {
    if s.answer.None? {
      BatchIsTrusted(Read(s, source, page, limit), w, Usables(page), None, q);
    }
  }

  /**
    An order that the lookup returns without a conflict flag carries the client
    id, has not been refused by the request checks, and is the only venue order
    that any source linked to this client id before it was chosen.
   */
  lemma FoundIsOurs(w: Venues, q: Query)
    ensures var o := Conclude(w, q).order;
            o.Some? && !o.value.recoveryConflict ==>
              && Ours(o.value.clientIds, q)
              && (q.binds ==> !Conflicts(Snapshot(o.value), q.req))
              && o.value.ids <= Asked(w, q).ids && |Asked(w, q).ids| <= 1
  {
    var s1 := ExactStage(Start, w, q);
    ExactIsTrusted(w, q);
    var s2 := OrderStage(s1, w, OpenOrders, w.openOrders, None, q);
    OrderStageIsTrusted(s1, w, OpenOrders, w.openOrders, None, q);
    var s3 := OptionalStage(s2, w, Orders, w.orders, q);
    if w.orders.Some? {
      OrderStageIsTrusted(s2, w, Orders, w.orders.value, Some(HistoryLimit(w, q)), q);
    }
    var s4 := OptionalStage(s3, w, ClosedOrders, w.closedOrders, q);
    if w.closedOrders.Some? {
      OrderStageIsTrusted(s3, w, ClosedOrders, w.closedOrders.value, Some(HistoryLimit(w, q)), q);
    }
    TradesAreTrusted(s4, w, q);
  }

  lemma ExactIsTrusted(w: Venues, q: Query)
    ensures Trusted(ExactStage(Start, w, q), q)
  {
    if w.exact.Some? {
      var reply := ExactOutcome(w.exact.value, 0);
      if reply.Answered? && reply.answer.Data? {
        CandidateIsTrusted(Start, NativeOrder(reply.answer.native, q), q);
      }
    }
  }

  lemma TradesAreTrusted(s: State, w: Venues, q: Query)
    requires Trusted(s, q)
    ensures Trusted(TradeStage(s, w, q), q)
  {
    if s.answer.None? && w.trades.Some? {
      var ours := OurTrades(w, Usables(w.trades.value), q);
      var order := Recover(w.fillOf, ours, q.req).order;
      assert Ours(order.clientIds, q);
      CandidateIsTrusted(Read(s, Trades, w.trades.value, Some(HistoryLimit(w, q))), order, q);
    }
  }

  // ------------------------------------------------- the venue's own record

  /** The record is about this order alone and names it completely. */
  ghost predicate NamesOurOrder(n: NativeRow, clientId: Id) {
    n.externalIds == {clientId} && |n.order.ids| == 1 && n.order.status != NoStatus && !n.foreignSymbol
  }

  /** Its two amounts are readable where they are given, agree with each other, and stay within the request. */
  ghost predicate AmountsAgree(o: Order, requested: real) {
    && !o.filled.Malformed? && (o.amount.Absent? || (o.amount.Val? && o.amount.value > 0.0))
    && (o.filled.Val? && o.amount.Val? ==>
          && o.filled.value <= o.amount.value + Tolerance(o.amount.value)
          && (o.status == Closed ==> o.filled.value >= o.amount.value - Tolerance(o.amount.value)))
    && (requested > 0.0 ==>
          && (o.filled.Val? ==> o.filled.value <= requested + Tolerance(requested))
          && (o.amount.Val? ==> o.amount.value <= requested + Tolerance(requested)))
  }

  /** The order that the record is turned into, before it is judged. */
  function OfRecord(n: NativeRow, q: Query): Order {
    n.order.(fromTrades := false, clientIds := n.order.clientIds + {q.req.clientId}, recoveryConflict := false)
  }

  ghost predicate SoundRecord(n: NativeRow, q: Query) {
    && NamesOurOrder(n, q.req.clientId) && AmountsAgree(n.order, q.req.amount)
    && (q.binds ==> Bound(OfRecord(n, q), q.req))
  }

  /** The first try of the exact lookup that does not raise answers with a record. */
  ghost predicate AnswersWithRecord(w: Venues, n: NativeRow) {
    w.exact.Some? && exists a: nat :: a < EXACT_ATTEMPTS && w.exact.value(a) == Answered(Data(n))
                                      && forall b: nat :: b < a ==> w.exact.value(b).ExactRaised?
  }

  lemma {:induction false} FirstAnswerIsTheOutcome(reply: nat -> ExactReply, attempt: nat, a: nat)
    requires attempt <= a < EXACT_ATTEMPTS && !reply(a).ExactRaised?
    requires forall b: nat :: b < a ==> reply(b).ExactRaised?
    ensures ExactOutcome(reply, attempt) == reply(a)
    decreases a - attempt
  {
    if attempt < a {
      FirstAnswerIsTheOutcome(reply, attempt + 1, a);
    }
  }

  lemma MalformedIff(n: NativeRow, q: Query)
    ensures !NativeMalformed(n, q) <==> NamesOurOrder(n, q.req.clientId) && AmountsAgree(n.order, q.req.amount)
  {
  }

  /** A record is passed on unflagged exactly when it is sound; an unfilled ended order is put aside. */
  lemma RecordIsJudged(n: NativeRow, q: Query)
    ensures var (s, c) := Candidate(Start, NativeOrder(n, q), q);
            var o := OfRecord(n, q);
            if !SoundRecord(n, q) then c == Some(Flagged(o))
            else if o.status in {Canceled, Expired} && !ShowsFill(o) then c.None? && s.deferred == Some(o)
            else c == Some(o)
  {
    MalformedIff(n, q);
    UncontradictedIffBound(OfRecord(n, q), q.req);
    var o := NativeOrder(n, q);
    if SoundRecord(n, q) {
      assert o == OfRecord(n, q);
    } else {
      assert Flagged(o) == Flagged(OfRecord(n, q));
    }
  }

  lemma ExactStageWithRecord(w: Venues, q: Query, n: NativeRow)
    requires q.req.venue == Mexc && AnswersWithRecord(w, n)
    ensures var s, o := ExactStage(Start, w, q), OfRecord(n, q);
            if !SoundRecord(n, q) then s.answer == Some(Flagged(o))
            else if o.status in {Canceled, Expired} && !ShowsFill(o) then s.answer.None? && s.deferred == Some(o)
            else s.answer == Some(o)
  {
    var a: nat :| a < EXACT_ATTEMPTS && w.exact.value(a) == Answered(Data(n))
      && forall b: nat :: b < a ==> w.exact.value(b).ExactRaised?;
    FirstAnswerIsTheOutcome(w.exact.value, 0, a);
    RecordIsJudged(n, q);
  }

  lemma AnswerStays(s: State, w: Venues, q: Query)
    requires s.answer.Some?
    ensures var s2 := OrderStage(s, w, OpenOrders, w.openOrders, None, q);
            TradeStage(OptionalStage(OptionalStage(s2, w, Orders, w.orders, q), w, ClosedOrders, w.closedOrders, q),
                w, q)
            == s
  {
  }

  /**
    What the lookup makes of MEXC's own record.  It is returned unflagged exactly
    when it is sound: it names this client id alone, one order id, a readable
    state and no other symbol, its amounts agree with each other and with the
    request, and the request checks, where they are on, hold.  An unsound record
    comes back flagged; only a sound one of an order that ended unfilled lets the
    other sources be asked.
   */
  lemma ExactRecordDecides(w: Venues, q: Query, n: NativeRow)
    requires q.req.venue == Mexc && q.req.clientId != "" && AnswersWithRecord(w, n)
    requires !(SoundRecord(n, q) && n.order.status in {Canceled, Expired} && !ShowsFill(n.order))
    ensures Conclude(w, q)
         == Conclusion(Some(if SoundRecord(n, q) then OfRecord(n, q) else Flagged(OfRecord(n, q))), false)
  {
    ExactStageWithRecord(w, q, n);
    AnswerStays(ExactStage(Start, w, q), w, q);
  }

  /** Conversely, an unflagged answer of the exact source is a record whose external ids are this client id alone. */
  lemma UnflaggedRecordIsOurs(w: Venues, q: Query)
    requires q.req.venue == Mexc
    requires var o := ExactStage(Start, w, q).answer; o.Some? && !o.value.recoveryConflict
    ensures exists n :: AnswersWithRecord(w, n) && n.externalIds == {q.req.clientId} && SoundRecord(n, q)
                        && ExactStage(Start, w, q).answer == Some(OfRecord(n, q))
  {
    var a := FirstAnswer(w.exact.value, 0);
    var n := w.exact.value(a).answer.native;
    assert AnswersWithRecord(w, n);
    ExactStageWithRecord(w, q, n);
  }

  lemma {:induction false} FirstAnswer(reply: nat -> ExactReply, attempt: nat) returns (a: nat)
    requires attempt < EXACT_ATTEMPTS && forall b: nat :: b < attempt ==> reply(b).ExactRaised?
    ensures a < EXACT_ATTEMPTS && reply(a) == ExactOutcome(reply, attempt)
    ensures forall b: nat :: b < a ==> reply(b).ExactRaised?
    decreases EXACT_ATTEMPTS - attempt
  {
    if attempt + 1 < EXACT_ATTEMPTS && reply(attempt).ExactRaised? {
      a := FirstAnswer(reply, attempt + 1);
    } else {
      a := attempt;
    }
  }

  /** A listing that yields an unflagged order holds no other matching row, apart from repeats and deferred ones. */
  lemma {:induction false} BatchIsUnanimous(s: State, w: Venues, rows: seq<Json>, selected: Option<Json>, q: Query)
    requires Batch(s, w, rows, selected, q).1.Some? && !Batch(s, w, rows, selected, q).1.value.recoveryConflict
    ensures exists p :: (selected == Some(p) || (selected.None? && p in rows)) && Unanimous(w, rows, p, q)
                        && RowOrder(w, p) == Batch(s, w, rows, selected, q).1.value
    decreases |rows|
  {
    if rows == [] {
      assert Unanimous(w, rows, selected.value, q);
    } else {
      var o := RowOrder(w, rows[0]);
      var (s', candidate) := if Ours(o.clientIds, q) then Candidate(s, o, q) else (s, None);
      var next := if candidate.Some? && selected.None? then Some(rows[0]) else selected;
      BatchIsUnanimous(s', w, rows[1..], next, q);
      var p :| (next == Some(p) || (next.None? && p in rows[1..])) && Unanimous(w, rows[1..], p, q)
               && RowOrder(w, p) == Batch(s', w, rows[1..], next, q).1.value;
      if candidate.Some? {
        StrictEqualIsIdentity(p, rows[0]);
      }
      assert Unanimous(w, [rows[0]] + rows[1..], p, q);
      assert rows == [rows[0]] + rows[1..];
    }
  }

  ghost predicate Unanimous(w: Venues, rows: seq<Json>, p: Json, q: Query) {
    forall t :: t in rows && Ours(RowOrder(w, t).clientIds, q) ==> t == p || Defers(RowOrder(w, t))
  }

  // ------------------------------------------------ what a listing comes to

  /** An order that may be passed on: not flagged, and in agreement with the request where that is checked. */
  ghost predicate SoundOrder(o: Order, q: Query) {
    !o.recoveryConflict && (q.binds ==> Bound(o, q.req))
  }

  /** It ended without a fill, so it does not settle the matter alone. */
  ghost predicate EndedEmpty(o: Order) {
    o.status in {Canceled, Expired} && !ShowsFill(o)
  }

  /** Ids that can belong to one venue order. */
  ghost predicate Compatible(a: set<Id>, b: set<Id>) {
    a == {} || b == {} || a == b
  }

  /** Whether a candidate is flagged, deferred or passed on, and what is remembered of it. */
  lemma CandidateIff(s: State, o: Order, q: Query)
    requires |s.ids| <= 1
    ensures var (s', c) := Candidate(s, o, q);
            if SoundOrder(o, q) && |o.ids| <= 1 && Compatible(s.ids, o.ids) then
              && s' == s.(ids := s.ids + o.ids, deferred := if EndedEmpty(o) then Some(o) else s.deferred)
              && c == (if EndedEmpty(o) then None else Some(o))
            else c == Some(Flagged(o))
  {
    UncontradictedIffBound(o, q.req);
    assert o.recoveryConflict ==> Flagged(o) == o;
  }

  /** The rows that carry the client id are sound and can be sightings of one venue order, that of `ids` if any. */
  ghost predicate Peaceful(ids: set<Id>, w: Venues, rows: seq<Json>, q: Query) {
    && (forall t :: t in rows && CarriesOurs(w, t, q) ==>
          var o := RowOrder(w, t); SoundOrder(o, q) && |o.ids| <= 1 && Compatible(ids, o.ids))
    && (forall t, u :: t in rows && u in rows && CarriesOurs(w, t, q) && CarriesOurs(w, u, q) ==>
          Compatible(RowOrder(w, t).ids, RowOrder(w, u).ids))
  }

  ghost predicate CarriesOurs(w: Venues, t: Json, q: Query) {
    q.req.clientId in w.orderOf(t).clientIds
  }

  /** A row that carries the client id and did not end empty. */
  ghost predicate Stands(w: Venues, t: Json, q: Query) {
    CarriesOurs(w, t, q) && !EndedEmpty(RowOrder(w, t))
  }

  lemma JoinedIdsAre(a: set<Id>, b: set<Id>)
    requires |a| <= 1 && |b| <= 1 && Compatible(a, b)
    ensures a + b == (if a == {} then b else a) && |a + b| <= 1
  {
    assert a + b == (if a == {} then b else a);
  }

  lemma PeacefulStep(ids: set<Id>, w: Venues, rows: seq<Json>, q: Query)
    requires rows != [] && CarriesOurs(w, rows[0], q) && |ids| <= 1
    ensures var o := RowOrder(w, rows[0]);
            Peaceful(ids, w, rows, q) <==>
              SoundOrder(o, q) && |o.ids| <= 1 && Compatible(ids, o.ids) && Peaceful(ids + o.ids, w, rows[1..], q)
  {
    var o, rest := RowOrder(w, rows[0]), rows[1..];
    assert rows == [rows[0]] + rest;
    if |o.ids| <= 1 && Compatible(ids, o.ids) {
      JoinedIdsAre(ids, o.ids);
    }
    if Peaceful(ids, w, rows, q) {
      assert Peaceful(ids + o.ids, w, rest, q);
    }
  }

  lemma OtherRowIsPeaceful(ids: set<Id>, w: Venues, rows: seq<Json>, q: Query)
    requires rows != [] && !CarriesOurs(w, rows[0], q)
    ensures Peaceful(ids, w, rows, q) <==> Peaceful(ids, w, rows[1..], q)
  {
    assert rows == [rows[0]] + rows[1..];
  }

  /** All standing rows are the same as `p`. */
  ghost predicate AllSame(w: Venues, rows: seq<Json>, p: Json, q: Query) {
    forall t :: t in rows && Stands(w, t, q) ==> StrictEqual(p, t)
  }

  /** After the first standing row: it stays the answer, unless a row speaks against it. */
  lemma {:induction false} SelectedIff(s: State, w: Venues, rows: seq<Json>, p: Json, q: Query)
    requires |s.ids| <= 1 && !RowOrder(w, p).recoveryConflict
    ensures var r := Batch(s, w, rows, Some(p), q).1;
            if Peaceful(s.ids, w, rows, q) && AllSame(w, rows, p, q) then r == Some(RowOrder(w, p))
            else r.Some? && r.value.recoveryConflict
    decreases |rows|
  {
    if rows != [] {
      var o := RowOrder(w, rows[0]);
      assert rows == [rows[0]] + rows[1..];
      if !CarriesOurs(w, rows[0], q) {
        OtherRowIsPeaceful(s.ids, w, rows, q);
        SelectedIff(s, w, rows[1..], p, q);
      } else {
        CandidateIff(s, o, q);
        PeacefulStep(s.ids, w, rows, q);
        if SoundOrder(o, q) && |o.ids| <= 1 && Compatible(s.ids, o.ids) {
          JoinedIdsAre(s.ids, o.ids);
          SelectedIff(Candidate(s, o, q).0, w, rows[1..], p, q);
        }
      }
    }
  }

  /** `f` is the place of the first standing row, or the length when there is none. */
  ghost predicate IsFirstStanding(w: Venues, rows: seq<Json>, f: nat, q: Query) {
    && f <= |rows| && (f < |rows| ==> Stands(w, rows[f], q))
    && forall k :: 0 <= k < f ==> !Stands(w, rows[k], q)
  }

  /**
    What a listing comes to, exactly: a conflict if a row that carries the client
    id contradicts the request, names another venue order than the others or
    than was seen before, or stands beside a different one; else the first row
    that stands, or nothing when all of them ended empty.
   */
  lemma {:induction false} BatchIff(s: State, w: Venues, rows: seq<Json>, f: nat, q: Query)
    requires |s.ids| <= 1 && IsFirstStanding(w, rows, f, q)
    ensures var r := Batch(s, w, rows, None, q).1;
            if Peaceful(s.ids, w, rows, q) && (f < |rows| ==> AllSame(w, rows[f + 1..], rows[f], q)) then
              r == (if f < |rows| then Some(RowOrder(w, rows[f])) else None)
            else r.Some? && r.value.recoveryConflict
    decreases |rows|
  {
    if rows != [] {
      var o := RowOrder(w, rows[0]);
      if !CarriesOurs(w, rows[0], q) {
        OtherRowIsPeaceful(s.ids, w, rows, q);
        BatchIff(s, w, rows[1..], f - 1, q);
        assert f < |rows| ==> rows[1..][f..] == rows[f + 1..];
      } else {
        CandidateIff(s, o, q);
        PeacefulStep(s.ids, w, rows, q);
        if SoundOrder(o, q) && |o.ids| <= 1 && Compatible(s.ids, o.ids) {
          JoinedIdsAre(s.ids, o.ids);
          var s' := Candidate(s, o, q).0;
          if EndedEmpty(o) {
            BatchIff(s', w, rows[1..], f - 1, q);
            assert f < |rows| ==> rows[1..][f..] == rows[f + 1..];
          } else {
            SelectedIff(s', w, rows[1..], rows[0], q);
          }
        }
      }
    }
  }

  /** Nothing in the listing settles the matter or speaks against it. */
  ghost predicate Quiet(ids: set<Id>, w: Venues, rows: seq<Json>, q: Query) {
    Peaceful(ids, w, rows, q) && forall t :: t in rows ==> !Stands(w, t, q)
  }

  /** The venue order ids that rows with the client id name. */
  ghost function Seen(w: Venues, rows: seq<Json>, q: Query): set<Id> {
    set t, id | t in rows && CarriesOurs(w, t, q) && id in RowOrder(w, t).ids :: id
  }

  /** The last row with the client id; what was there before when there is none. */
  ghost function LastOurs(before: Option<Order>, w: Venues, rows: seq<Json>, q: Query): Option<Order>
    decreases |rows|
  {
    if rows == [] then before
    else LastOurs(if CarriesOurs(w, rows[0], q) then Some(RowOrder(w, rows[0])) else before, w, rows[1..], q)
  }

  lemma SeenStep(w: Venues, rows: seq<Json>, q: Query)
    requires rows != []
    ensures Seen(w, rows, q)
         == (if CarriesOurs(w, rows[0], q) then RowOrder(w, rows[0]).ids else {}) + Seen(w, rows[1..], q)
  {
    assert rows == [rows[0]] + rows[1..];
  }

  lemma {:induction false} QuietBatch(s: State, w: Venues, rows: seq<Json>, q: Query)
    requires |s.ids| <= 1 && Quiet(s.ids, w, rows, q)
    ensures var (s', r) := Batch(s, w, rows, None, q);
            && r.None? && s' == s.(ids := s.ids + Seen(w, rows, q), deferred := LastOurs(s.deferred, w, rows, q))
            && |s'.ids| <= 1
    decreases |rows|
  {
    if rows == [] {
      assert s.ids + Seen(w, rows, q) == s.ids;
    } else {
      SeenStep(w, rows, q);
      QuietStep(s, w, rows, q);
      if CarriesOurs(w, rows[0], q) {
        QuietBatch(Candidate(s, RowOrder(w, rows[0]), q).0, w, rows[1..], q);
        Regrouped(s.ids, RowOrder(w, rows[0]).ids, Seen(w, rows[1..], q), Seen(w, rows, q));
      } else {
        QuietBatch(s, w, rows[1..], q);
      }
    }
  }

  lemma Regrouped(a: set<Id>, b: set<Id>, c: set<Id>, d: set<Id>)
    requires d == b + c
    ensures a + b + c == a + d
  {
  }

  lemma QuietStep(s: State, w: Venues, rows: seq<Json>, q: Query)
    requires |s.ids| <= 1 && Quiet(s.ids, w, rows, q) && rows != []
    ensures if CarriesOurs(w, rows[0], q) then
              var o := RowOrder(w, rows[0]);
              && Candidate(s, o, q) == (s.(ids := s.ids + o.ids, deferred := Some(o)), None)
              && |s.ids + o.ids| <= 1 && Quiet(s.ids + o.ids, w, rows[1..], q)
            else Quiet(s.ids, w, rows[1..], q)
  {
    assert rows == [rows[0]] + rows[1..];
    if CarriesOurs(w, rows[0], q) {
      assert !Stands(w, rows[0], q);
      CandidateIff(s, RowOrder(w, rows[0]), q);
      PeacefulStep(s.ids, w, rows, q);
      JoinedIdsAre(s.ids, RowOrder(w, rows[0]).ids);
    } else {
      OtherRowIsPeaceful(s.ids, w, rows, q);
    }
  }

  /** A listing that is not quiet is answered with its first standing row, or with a conflict. */
  ghost predicate Answers(ids: set<Id>, w: Venues, rows: seq<Json>, q: Query, order: Option<Order>) {
    order.Some? && exists f: nat :: IsFirstStanding(w, rows, f, q) && AnswersFrom(ids, w, rows, f, q, order.value)
  }

  ghost predicate AnswersFrom(ids: set<Id>, w: Venues, rows: seq<Json>, f: nat, q: Query, order: Order) {
    if f < |rows| && Peaceful(ids, w, rows, q) && AllSame(w, rows[f + 1..], rows[f], q)
    then order == w.orderOf(rows[f]).(fromTrades := false) else order.recoveryConflict
  }

  lemma {:induction false} SomeFirst(w: Venues, rows: seq<Json>, q: Query) returns (f: nat)
    ensures IsFirstStanding(w, rows, f, q)
  {
    if rows == [] || Stands(w, rows[0], q) {
      f := 0;
    } else {
      f := SomeFirst(w, rows[1..], q);
      f := f + 1;
    }
  }

  lemma BatchAnswers(s: State, w: Venues, rows: seq<Json>, q: Query)
    requires |s.ids| <= 1 && !Quiet(s.ids, w, rows, q)
    ensures Answers(s.ids, w, rows, q, Batch(s, w, rows, None, q).1)
  {
    var f := SomeFirst(w, rows, q);
    BatchIff(s, w, rows, f, q);
    assert f == |rows| ==> !Peaceful(s.ids, w, rows, q);
    assert AnswersFrom(s.ids, w, rows, f, q, Batch(s, w, rows, None, q).1.value);
  }

  /** The rows of a source; one that is not asked is like one without rows. */
  function RowsOf(page: Option<Page>): seq<Json> {
    if page.None? then [] else Usables(page.value)
  }

  /** What is known after the listings asked so far: nothing decided, and what was remembered of the rows. */
  ghost predicate Undecided(s: State, ids: set<Id>, deferred: Option<Order>) {
    s.answer.None? && s.ids == ids && s.deferred == deferred && |ids| <= 1
  }

  lemma StageDecides(s: State, w: Venues, source: Source, page: Page, limit: Option<nat>, q: Query)
    requires s.answer.None? && |s.ids| <= 1
    ensures var s', rows := OrderStage(s, w, source, page, limit, q), Usables(page);
            if Quiet(s.ids, w, rows, q)
            then Undecided(s', s.ids + Seen(w, rows, q), LastOurs(s.deferred, w, rows, q))
            else Answers(s.ids, w, rows, q, s'.answer)
  {
    var rows, read := Usables(page), Read(s, source, page, limit);
    if Quiet(s.ids, w, rows, q) {
      QuietBatch(read, w, rows, q);
    } else {
      BatchAnswers(read, w, rows, q);
    }
  }

  lemma OptionalStageDecides(s: State, w: Venues, source: Source, page: Option<Page>, q: Query)
    requires s.answer.None? && |s.ids| <= 1
    ensures var s', rows := OptionalStage(s, w, source, page, q), RowsOf(page);
            if Quiet(s.ids, w, rows, q)
            then Undecided(s', s.ids + Seen(w, rows, q), LastOurs(s.deferred, w, rows, q))
            else Answers(s.ids, w, rows, q, s'.answer)
  {
    if page.Some? {
      StageDecides(s, w, source, page.value, Some(HistoryLimit(w, q)), q);
    } else {
      assert s.ids + Seen(w, [], q) == s.ids;
    }
  }

  /** Trades come last: the order rebuilt from ours is judged like any other; without any, what ended empty is left. */
  lemma TradesComeLast(s: State, w: Venues, q: Query)
    requires s.answer.None? && |s.ids| <= 1
    ensures var s', ours := TradeStage(s, w, q), OurTrades(w, RowsOf(w.trades), q);
            var o := Recover(w.fillOf, ours, q.req).order;
            if ours == [] then s'.answer.None? && s'.deferred == s.deferred
            else s'.answer == Some(if SoundOrder(o, q) && |o.ids| <= 1 && Compatible(s.ids, o.ids)
                                   then o else Flagged(o))
  {
    var ours := OurTrades(w, RowsOf(w.trades), q);
    if ours != [] {
      TradesAreClosed(w, ours, q);
      RebuiltIsJudged(s, w, q, Recover(w.fillOf, ours, q.req).order);
    }
  }

  lemma RebuiltIsJudged(s: State, w: Venues, q: Query, o: Order)
    requires s.answer.None? && |s.ids| <= 1 && OurTrades(w, RowsOf(w.trades), q) != [] && o.status == Closed
    requires o == Recover(w.fillOf, OurTrades(w, RowsOf(w.trades), q), q.req).order
    ensures TradeStage(s, w, q).answer
         == Some(if SoundOrder(o, q) && |o.ids| <= 1 && Compatible(s.ids, o.ids) then o else Flagged(o))
  {
    CandidateIff(Read(s, Trades, w.trades.value, Some(HistoryLimit(w, q))), o, q);
  }

  lemma TradesAreClosed(w: Venues, ours: seq<Json>, q: Query)
    ensures Recover(w.fillOf, ours, q.req).order.status == Closed
  {
  }

  /**
    What the lookup returns when the exact source leaves it open, from the rows
    alone: the first of open orders, order history and closed orders that is not
    quiet answers; if all are, the trades do; and if there are none either, it is
    the last order that ended empty, or nothing.
   */
  lemma ListingsDecide(w: Venues, q: Query, exact: State)
    requires q.req.clientId != "" && exact == ExactStage(Start, w, q) && exact.answer.None?
    ensures var open, orders, closed := Usables(w.openOrders), RowsOf(w.orders), RowsOf(w.closedOrders);
            var ids1 := exact.ids + Seen(w, open, q);
            var ids2 := ids1 + Seen(w, orders, q);
            var ids3 := ids2 + Seen(w, closed, q);
            var ended := LastOurs(LastOurs(LastOurs(exact.deferred, w, open, q), w, orders, q), w, closed, q);
            var ours := OurTrades(w, RowsOf(w.trades), q);
            var o, order := Recover(w.fillOf, ours, q.req).order, Conclude(w, q).order;
            if !Quiet(exact.ids, w, open, q) then Answers(exact.ids, w, open, q, order)
            else if !Quiet(ids1, w, orders, q) then Answers(ids1, w, orders, q, order)
            else if !Quiet(ids2, w, closed, q) then Answers(ids2, w, closed, q, order)
            else if ours == [] then order == ended
            else order == Some(if SoundOrder(o, q) && |o.ids| <= 1 && Compatible(ids3, o.ids) then o else Flagged(o))
  {
    ExactIsTrusted(w, q);
    var s2 := OrderStage(exact, w, OpenOrders, w.openOrders, None, q);
    StageDecides(exact, w, OpenOrders, w.openOrders, None, q);
    var s3 := OptionalStage(s2, w, Orders, w.orders, q);
    var s4 := OptionalStage(s3, w, ClosedOrders, w.closedOrders, q);
    if s2.answer.None? {
      OptionalStageDecides(s2, w, Orders, w.orders, q);
      if s3.answer.None? {
        OptionalStageDecides(s3, w, ClosedOrders, w.closedOrders, q);
        if s4.answer.None? {
          TradesComeLast(s4, w, q);
        }
      }
    }
  }

  // ------------------------------------------- the order in which trades come

  /** Nothing but trades answers; all of them carry the client id. */
  ghost predicate OnlyTradesAnswer(w: Venues, q: Query, rows: seq<Json>) {
    && q.req.venue != Mexc && q.req.clientId != ""
    && w.openOrders == Listed([]) && w.orders.None? && w.closedOrders.None?
    && w.trades.Some? && w.trades.value.Listed? && Payloads(w.trades.value.rows) == rows && rows != []
    && OurTrades(w, rows, q) == rows
  }

  /** What is found among the trades alone is flagged exactly when the order rebuilt from them is refused. */
  lemma TradesDecide(w: Venues, q: Query, rows: seq<Json>)
    requires OnlyTradesAnswer(w, q, rows) && q.binds
    ensures Conclude(w, q).order.Some?
    ensures Conclude(w, q).order.value.recoveryConflict <==> Refuses(w.fillOf, rows, q.req)
  {
    var s := Asked(w, q);
    var order := Recover(w.fillOf, rows, q.req).order;
    assert OrderStage(Start, w, OpenOrders, w.openOrders, None, q).ids == {};
    assert s.answer == Some(if Refused(order, q) then Flagged(order) else order);
  }

  function TwoTrades(first: Json, second: Json): Venues {
    Venues(false, None, Listed([]), None, None, Some(Listed([Row(first), Row(second)])),
           (t: Json) => NativeStub(), TwoFills())
  }

  function NativeStub(): Order {
    Order(false, false, {}, {}, NoStatus, Absent, Absent, Absent, Missing, NoSide, true, Missing, [], [], [])
  }

  lemma PayloadsOfTwo(first: Json, second: Json)
    ensures Payloads([Row(first), Row(second)]) == [first, second]
  {
    assert [Row(first), Row(second)][..1] == [Row(first)] && [Row(first)][..0] == [];
    assert Payloads([Row(first)]) == [first];
  }

  lemma OurTwoTrades(w: Venues, first: Json, second: Json, q: Query)
    requires Ours(w.fillOf(first).clientIds, q) && Ours(w.fillOf(second).clientIds, q)
    ensures OurTrades(w, [first, second], q) == [first, second]
  {
    assert [first, second][..1] == [first] && [first][..0] == [];
    assert OurTrades(w, [first], q) == [first];
  }

  lemma TwoTradesAnswer(first: Json, second: Json)
    ensures OnlyTradesAnswer(TwoTrades(first, second), Query(ENTRY_REQUEST, true), [first, second])
  {
    PayloadsOfTwo(first, second);
    OurTwoTrades(TwoTrades(first, second), first, second, Query(ENTRY_REQUEST, true));
  }

  /** The same two trades end the lookup with the order, or with a conflict, by which of them is listed first. */
  lemma TheFirstTradeDecides()
    ensures var q, x, y := Query(ENTRY_REQUEST, true), FillRow("1", false), FillRow("2", true);
            && Conclude(TwoTrades(x, y), q).order.Some? && !Conclude(TwoTrades(x, y), q).order.value.recoveryConflict
            && Conclude(TwoTrades(y, x), q).order.Some? && Conclude(TwoTrades(y, x), q).order.value.recoveryConflict
  {
    var q, x, y := Query(ENTRY_REQUEST, true), FillRow("1", false), FillRow("2", true);
    TheFirstFillDecides();
    TwoTradesAnswer(x, y);
    TwoTradesAnswer(y, x);
    TradesDecide(TwoTrades(x, y), q, [x, y]);
    TradesDecide(TwoTrades(y, x), q, [y, x]);
  }
}
