/**
  The emergency close of spot positions (`emergency_close_all_spot` and
  `ensure_spot_exit_client_order_id` in bot_utils/spot_exits.py), for one symbol.

  A sell is preceded by a durable intent (its client id) and followed by a
  durable marker before it is booked.  A run interleaves closes under the
  exclusive close lock with failures and crashes at every step.
 */
module SpotClose {
  import opened Wrappers

  type Gen = nat

  /** A client order id; each names one sell intent. */
  type Id = nat

  /** The part of a position that one sell filled. */
  datatype Slice = Slice(id: Id, sold: real)

  /**
    One managed position generation.  `initial`, `settled` and `cut` are history:
    the first amount, what was struck off the list, and what was taken off the
    amount without recording a fill.
   */
  datatype Row = Row(
    gen: Gen,
    initial: real,
    amount: real,
    intent: Option<Id>,
    uncertain: bool,
    pendingFull: Option<Slice>,
    booked: bool,
    partials: seq<Slice>,
    blocked: bool,
    settled: real,
    cut: real)

  datatype Copies = Copies(ram: Option<Row>, disk: Option<Row>)

  /** Progress of the closer under the lock. */
  datatype Phase =
    | Idle
    | Entered(gen: Gen, intent: Option<Id>, uncertain: bool)
    | Intended(gen: Gen, id: Id, again: bool)
    | Filled(gen: Gen, id: Id, sold: real)
    | Marked(gen: Gen, slice: Slice, full: bool)
    | Striking(gen: Gen, slice: Slice)
    | Removing(gen: Gen)

  datatype Event =
    | IntentConfirmed(id: Id, gen: Gen)
    | SellStarted(id: Id, gen: Gen)
    | ZeroFill(id: Id)
    | PartialConfirmed(id: Id)
    | FullConfirmed(id: Id, gen: Gen)
    | BookingTried(id: Id)
    | BookingConfirmed(id: Id)
    | FullBooked(gen: Gen)
    | RowRemoved(gen: Gen)

  datatype State = State(copies: Copies, phase: Phase, nextGen: Gen, nextId: Id, trace: seq<Event>)

  /** Confirmed and read back, which saves all of memory; otherwise either copy may hold the new row or not. */
  datatype Saved = Durable | Unconfirmed(inRam: bool, onDisk: bool)

  /** What a found or returned order proves. */
  datatype Proof =
    | NotTerminal(rest: Option<real>)
    | NothingFilled(proven: bool)
    | NoPrice
    | Fill(sold: real)

  datatype SellAnswer = Answered(proof: Proof) | OutcomeUnknown | SellFailed

  datatype Removal = Removed | Unremoved(inRam: bool, onDisk: bool)

  datatype Action =
    | Open(amount: real)
    | Block(blocked: bool)
    | Enter(partials: Saved)
    | EnsureIntent(saved: Saved)
    | Send(answer: SellAnswer, saved: Saved)
    | Lookup(found: Option<Proof>, saved: Saved)
    | WriteAhead(dust: bool, saved: Saved, again: Saved)
    | Book(confirmed: bool)
    | Strike(saved: Saved)
    | Remove(removal: Removal)
    | Fail
    | Crash

  const Start := State(Copies(None, None), Idle, 0, 0, [])

  predicate Holds(copy: Option<Row>, gen: Gen) {
    copy.Some? && copy.value.gen == gen
  }

  function Log(s: State, e: Event): State {
    s.(trace := s.trace + [e])
  }

  function Min(a: real, b: real): real {
    if a < b then a else b
  }

  // ------------------------------------------------------------- state writes

  function Write(c: Copies, gen: Gen, change: Row -> Row, saved: Saved): Copies {
    if !Holds(c.ram, gen) then c
    else
      var row := Some(change(c.ram.value));
      if saved.Durable? then Copies(row, row)
      else Copies(if saved.inRam then row else c.ram, if saved.onDisk then row else c.disk)
  }

  predicate Confirms(c: Copies, gen: Gen, saved: Saved) {
    saved.Durable? && Holds(c.ram, gen)
  }

  function Same(): Row -> Row {
    (r: Row) => r
  }

  function SetIntent(id: Id): Row -> Row {
    (r: Row) => r.(intent := Some(id))
  }

  function SetUncertain(): Row -> Row {
    (r: Row) => r.(uncertain := true)
  }

  /** The barrier of a sell that is not terminal; what it is seen to have sold is taken off the amount. */
  function Barrier(rest: Option<real>): Row -> Row {
    (r: Row) =>
      if rest.Some? && rest.value < r.amount
      then r.(uncertain := true, amount := rest.value, cut := r.cut + (r.amount - rest.value))
      else r.(uncertain := true)
  }

  function ClearIntent(): Row -> Row {
    (r: Row) => r.(intent := None, uncertain := false)
  }

  function TakePartial(slice: Slice): Row -> Row {
    (r: Row) => r.(amount := r.amount - slice.sold, intent := None, uncertain := false,
        partials := r.partials + [slice])
  }

  function TakeFull(slice: Slice): Row -> Row {
    (r: Row) => r.(pendingFull := Some(slice))
  }

  function StrikeOff(slice: Slice): Row -> Row {
    (r: Row) =>
      if r.partials != [] && r.partials[|r.partials| - 1] == slice
      then r.(partials := r.partials[..|r.partials| - 1], settled := r.settled + slice.sold) else r
  }

  function SetBooked(): Row -> Row {
    (r: Row) => r.(booked := true)
  }

  // --------------------------------------------------------------- the closer

  function NextOpen(s: State, amount: real): State {
    if s.copies.ram.Some? || amount <= 0.0 then s
    else
      var row := Some(Row(s.nextGen, amount, amount, None, false, None, false, [], false, 0.0, 0.0));
      s.(copies := Copies(row, row), nextGen := s.nextGen + 1)
  }

  function ConfirmAll(trace: seq<Event>, slices: seq<Slice>): seq<Event> {
    if slices == [] then trace
    else
      var before := ConfirmAll(trace, slices[..|slices| - 1]);
      var e := PartialConfirmed(slices[|slices| - 1].id);
      if e in before then before else before + [e]
  }

  /** The checks under the lock; a list of partials is made durable once more before it may coexist with a sell. */
  function NextEnter(s: State, partials: Saved): State {
    if !s.phase.Idle? || s.copies.ram.None? then s
    else
      var r := s.copies.ram.value;
      if r.booked then s.(phase := Removing(r.gen))
      else if r.pendingFull.Some? || r.blocked then s
      else if r.partials == [] then s.(phase := if r.amount > 0.0 then Entered(r.gen, r.intent, r.uncertain) else Idle)
      else
        var copies := Write(s.copies, r.gen, Same(), partials);
        if !partials.Durable? then s.(copies := copies)
        else s.(copies := copies, trace := ConfirmAll(s.trace, r.partials),
                phase := if r.amount > 0.0 then Entered(r.gen, r.intent, r.uncertain) else Idle)
  }

  /** The id in memory is used again; a new one is made only when there is none. */
  function NextEnsureIntent(s: State, saved: Saved): State {
    if !s.phase.Entered? then s
    else
      var gen := s.phase.gen;
      if !Holds(s.copies.ram, gen) then s.(phase := Idle)
      else
        var known := s.copies.ram.value.intent;
        var id := if known.Some? then known.value else s.nextId;
        var s' := s.(copies := Write(s.copies, gen, SetIntent(id), saved),
            nextId := if known.Some? then s.nextId else s.nextId + 1);
        if !saved.Durable? then s'.(phase := Idle)
        else
          var again := s.phase.intent == Some(id) || s.phase.uncertain;
          Log(s', IntentConfirmed(id, gen)).(phase := Intended(gen, id, again))
  }

  /** What is done with an order, whether returned or found. */
  function Judge(s: State, gen: Gen, id: Id, proof: Proof, saved: Saved): State {
    match proof
    case NotTerminal(rest) => s.(copies := Write(s.copies, gen, Barrier(rest), saved), phase := Idle)
    case NothingFilled(proven) =>
      if proven then Log(s, ZeroFill(id)).(copies := Write(s.copies, gen, ClearIntent(), saved), phase := Idle)
      else s.(copies := Write(s.copies, gen, SetUncertain(), saved), phase := Idle)
    case NoPrice => s.(copies := Write(s.copies, gen, SetUncertain(), saved), phase := Idle)
    case Fill(sold) => if sold > 0.0 then s.(phase := Filled(gen, id, sold)) else s.(phase := Idle)
  }

  /** The guard reads the row once more before the sell. */
  predicate MaySell(c: Copies, gen: Gen, id: Id) {
    Holds(c.ram, gen) && !c.ram.value.blocked && !c.ram.value.booked && c.ram.value.pendingFull.None?
        && c.ram.value.intent == Some(id)
  }

  function NextSend(s: State, answer: SellAnswer, saved: Saved): State {
    if !s.phase.Intended? || s.phase.again then s
    else
      var gen, id := s.phase.gen, s.phase.id;
      if !MaySell(s.copies, gen, id) then s.(phase := Idle)
      else
        var s' := Log(s, SellStarted(id, gen));
        match answer
        case Answered(proof) => Judge(s', gen, id, proof, saved)
        case OutcomeUnknown => s'.(copies := Write(s.copies, gen, SetUncertain(), saved), phase := Idle)
        case SellFailed => s'.(phase := Idle)
  }

  /** An earlier intent is only looked up, never sent again; the venue knows only what was sent. */
  function NextLookup(s: State, found: Option<Proof>, saved: Saved): State {
    if !s.phase.Intended? || !s.phase.again then s
    else
      var gen, id := s.phase.gen, s.phase.id;
      if found.None? || SellStarted(id, gen) !in s.trace then s.(phase := Idle)
          else Judge(s, gen, id, found.value, saved)
  }

  function NextWriteAhead(s: State, dust: bool, saved: Saved, again: Saved): State {
    if !s.phase.Filled? then s
    else
      var gen, id := s.phase.gen, s.phase.id;
      if !Holds(s.copies.ram, gen) then s.(phase := Idle)
      else
        var slice := Slice(id, Min(s.phase.sold, s.copies.ram.value.amount));
        var full := slice.sold >= s.copies.ram.value.amount || dust;
        var copies := Write(s.copies, gen, if full then TakeFull(slice) else TakePartial(slice), saved);
        if !saved.Durable? then s.(copies := Write(copies, gen, SetUncertain(), again), phase := Idle)
        else Log(s.(copies := copies), if full then FullConfirmed(id, gen)
            else PartialConfirmed(id)).(phase := Marked(gen, slice, full))
  }

  function NextBook(s: State, confirmed: bool): State {
    if !s.phase.Marked? then s
    else
      var gen, slice := s.phase.gen, s.phase.slice;
      var s' := Log(s, BookingTried(slice.id));
      if !confirmed then s'.(phase := Idle)
      else if s.phase.full then Log(Log(s', BookingConfirmed(slice.id)), FullBooked(gen)).(phase := Removing(gen))
      else Log(s', BookingConfirmed(slice.id)).(phase := Striking(gen, slice))
  }

  function NextStrike(s: State, saved: Saved): State {
    if !s.phase.Striking? then s
    else s.(copies := Write(s.copies, s.phase.gen, StrikeOff(s.phase.slice), saved), phase := Idle)
  }

  function Drop(copy: Option<Row>, gen: Gen): Option<Row> {
    if Holds(copy, gen) then None else copy
  }

  /** A row with partials still to be booked is kept; otherwise it goes, or stays flagged as booked. */
  function NextRemove(s: State, removal: Removal): State {
    if !s.phase.Removing? then s
    else
      var gen, c := s.phase.gen, s.copies;
      var s' := s.(phase := Idle);
      if Holds(c.ram, gen) && c.ram.value.partials != [] then
        s'.(copies := Write(c, gen, SetBooked(), if removal.Removed? then Durable
            else Unconfirmed(removal.inRam, removal.onDisk)))
      else match removal
        case Removed => Log(s'.(copies := Copies(Drop(c.ram, gen), Drop(c.disk, gen))), RowRemoved(gen))
        case Unremoved(inRam, onDisk) => s'.(copies := Write(c, gen, SetBooked(), Unconfirmed(inRam, onDisk)))
  }

  function Next(s: State, a: Action): State {
    match a
    case Open(amount) => NextOpen(s, amount)
    case Block(blocked) =>
      if s.copies.ram.None? then s
      else s.(copies := s.copies.(ram := Some(s.copies.ram.value.(blocked := blocked))))
    case Enter(partials) => NextEnter(s, partials)
    case EnsureIntent(saved) => NextEnsureIntent(s, saved)
    case Send(answer, saved) => NextSend(s, answer, saved)
    case Lookup(found, saved) => NextLookup(s, found, saved)
    case WriteAhead(dust, saved, again) => NextWriteAhead(s, dust, saved, again)
    case Book(confirmed) => NextBook(s, confirmed)
    case Strike(saved) => NextStrike(s, saved)
    case Remove(removal) => NextRemove(s, removal)
    case Fail => s.(phase := Idle)
    case Crash => s.(copies := Copies(s.copies.disk, s.copies.disk), phase := Idle)
  }

  function Run(s: State, actions: seq<Action>): State {
    if actions == [] then s else Next(Run(s, actions[..|actions| - 1]), actions[|actions| - 1])
  }

  // --------------------------------------------------------------- the rules

  /** A sell whose fate is settled: proven unfilled, or marked for accounting. */
  ghost predicate Resolved(past: seq<Event>, id: Id, gen: Gen) {
    ZeroFill(id) in past || PartialConfirmed(id) in past || FullConfirmed(id, gen) in past
  }

  ghost predicate AllResolved(past: seq<Event>, gen: Gen) {
    forall id: Id :: SellStarted(id, gen) in past ==> Resolved(past, id, gen)
  }

  ghost predicate NoneStarted(past: seq<Event>, id: Id) {
    forall g: Gen :: SellStarted(id, g) !in past
  }

  ghost predicate NoneFull(past: seq<Event>, gen: Gen) {
    forall id: Id :: FullConfirmed(id, gen) !in past
  }

  ghost predicate MarkedFor(past: seq<Event>, id: Id) {
    PartialConfirmed(id) in past || exists g: Gen :: FullConfirmed(id, g) in past
  }

  /** Whether `e` may come next after `past`. */
  ghost predicate Admissible(past: seq<Event>, e: Event) {
    match e
    case SellStarted(id, g) => NoneStarted(past, id) && IntentConfirmed(id, g) in past && AllResolved(past, g)
        && NoneFull(past, g)
    case PartialConfirmed(id) => !MarkedFor(past, id)
    case FullConfirmed(id, g) => SellStarted(id, g) in past && !MarkedFor(past, id)
    case BookingTried(id) => MarkedFor(past, id) && BookingTried(id) !in past
    case BookingConfirmed(id) => BookingTried(id) in past
    case FullBooked(g) => exists id: Id :: FullConfirmed(id, g) in past && BookingConfirmed(id) in past
    case RowRemoved(g) => FullBooked(g) in past
    case _ => true
  }

  ghost predicate Sound(trace: seq<Event>) {
    forall i :: 0 <= i < |trace| ==> Admissible(trace[..i], trace[i])
  }

  // -------------------------------------------------------------- invariants

  predicate Listed(slices: seq<Slice>, id: Id) {
    exists k :: 0 <= k < |slices| && slices[k].id == id
  }

  predicate Closing(r: Row) {
    r.pendingFull.Some? || r.booked
  }

  /** The row shows every sell of its generation whose fate is open. */
  ghost predicate ShowsOpenSells(trace: seq<Event>, r: Row) {
    forall id: Id :: SellStarted(id, r.gen) in trace && !Resolved(trace, id, r.gen) ==>
      (r.intent.Some? && r.intent.value == id) || Listed(r.partials, id) || Closing(r)
  }

  ghost predicate ShowsFull(trace: seq<Event>, r: Row) {
    Closing(r) || NoneFull(trace, r.gen)
  }

  /** An intent that may still be looked up has not been marked for accounting. */
  ghost predicate IntentIsOpen(trace: seq<Event>, r: Row) {
    r.intent.Some? && !Closing(r) ==> !MarkedFor(trace, r.intent.value) && !Listed(r.partials, r.intent.value)
  }

  /** A sell in the list of partials was not marked as the full close. */
  ghost predicate ListIsPartial(trace: seq<Event>, r: Row) {
    forall id: Id, g: Gen :: Listed(r.partials, id) ==> FullConfirmed(id, g) !in trace
  }

  ghost predicate RowFits(trace: seq<Event>, nextGen: Gen, nextId: Id, r: Row) {
    && r.gen < nextGen && (r.intent.Some? ==> r.intent.value < nextId)
    && (forall id: Id :: Listed(r.partials, id) ==> id < nextId)
    && ShowsOpenSells(trace, r) && ShowsFull(trace, r) && IntentIsOpen(trace, r) && ListIsPartial(trace, r)
    && (r.booked ==> FullBooked(r.gen) in trace)
  }

  ghost predicate CopyFits(trace: seq<Event>, nextGen: Gen, nextId: Id, copy: Option<Row>) {
    copy.Some? ==> RowFits(trace, nextGen, nextId, copy.value)
  }

  ghost predicate HistoryFits(trace: seq<Event>, nextGen: Gen, nextId: Id) {
    && (forall id: Id, g: Gen :: SellStarted(id, g) in trace ==> id < nextId)
    && (forall id: Id :: MarkedFor(trace, id) ==> id < nextId)
    && (forall id: Id :: BookingTried(id) in trace ==> MarkedFor(trace, id))
    && (forall g: Gen :: FullBooked(g) in trace ==> g < nextGen)
    && (forall id: Id, g: Gen :: FullConfirmed(id, g) in trace ==> g < nextGen)
    && (forall id: Id, g: Gen :: SellStarted(id, g) in trace ==> g < nextGen)
  }

  ghost predicate NothingUnbookedIsLost(s: State) {
    forall g: Gen :: g < s.nextGen && FullBooked(g) !in s.trace ==> Holds(s.copies.ram, g) && Holds(s.copies.disk, g)
  }

  /** Both copies hold that generation with that intent, and it is not being closed. */
  predicate BothIntend(c: Copies, gen: Gen, id: Id) {
    && Holds(c.ram, gen) && Holds(c.disk, gen)
    && c.ram.value.intent == Some(id) && c.disk.value.intent == Some(id)
    && !Closing(c.ram.value) && !Closing(c.disk.value)
  }

  ghost predicate PhaseFits(s: State) {
    match s.phase
    case Idle => true
    case Entered(gen, intent, uncertain) =>
      && Holds(s.copies.ram, gen) && !Closing(s.copies.ram.value)
      && s.copies.ram.value.intent == intent && s.copies.ram.value.uncertain == uncertain
      && (intent.None? ==> AllResolved(s.trace, gen))
    case Intended(gen, id, again) =>
      && BothIntend(s.copies, gen, id) && IntentConfirmed(id, gen) in s.trace
      && (!again ==> AllResolved(s.trace, gen) && NoneStarted(s.trace, id))
    case Filled(gen, id, sold) =>
      BothIntend(s.copies, gen, id) && SellStarted(id, gen) in s.trace && sold > 0.0
    case Marked(gen, slice, full) =>
      && MarkedFor(s.trace, slice.id) && BookingTried(slice.id) !in s.trace
      && (if full then FullConfirmed(slice.id, gen) in s.trace else PartialConfirmed(slice.id) in s.trace)
          && gen < s.nextGen
    case Striking(gen, slice) => PartialConfirmed(slice.id) in s.trace
    case Removing(gen) => FullBooked(gen) in s.trace
  }

  ghost predicate Inv(s: State) {
    && Sound(s.trace)
    && HistoryFits(s.trace, s.nextGen, s.nextId)
    && CopyFits(s.trace, s.nextGen, s.nextId, s.copies.ram)
    && CopyFits(s.trace, s.nextGen, s.nextId, s.copies.disk)
    && NothingUnbookedIsLost(s)
    && PhaseFits(s)
  }

  lemma LogKeepsSound(trace: seq<Event>, e: Event)
    requires Sound(trace) && Admissible(trace, e)
    ensures Sound(trace + [e])
  {
    var longer := trace + [e];
    forall i | 0 <= i < |longer| ensures Admissible(longer[..i], longer[i]) {
      assert longer[..i] == if i < |trace| then trace[..i] else trace;
    }
  }

  /** Recording `e` adds `e` to the history and nothing else. */
  lemma InHistory(trace: seq<Event>, e: Event)
    ensures forall x :: x in trace + [e] <==> x in trace || x == e
    ensures forall id: Id :: MarkedFor(trace, id) ==> MarkedFor(trace + [e], id)
    ensures forall id: Id :: MarkedFor(trace + [e], id) ==>
              MarkedFor(trace, id) || e == PartialConfirmed(id) || (e.FullConfirmed? && e.id == id)
    ensures forall id: Id, g: Gen :: Resolved(trace, id, g) ==> Resolved(trace + [e], id, g)
  {
    forall id: Id | MarkedFor(trace, id) ensures MarkedFor(trace + [e], id) {
      if PartialConfirmed(id) !in trace {
        var g: Gen :| FullConfirmed(id, g) in trace;
        assert FullConfirmed(id, g) in trace + [e];
      }
    }
    forall id: Id | MarkedFor(trace + [e], id)
      ensures MarkedFor(trace, id) || e == PartialConfirmed(id) || (e.FullConfirmed? && e.id == id)
    {
      if PartialConfirmed(id) !in trace + [e] {
        var g: Gen :| FullConfirmed(id, g) in trace + [e];
        assert FullConfirmed(id, g) in trace || e == FullConfirmed(id, g);
      }
    }
  }

  /** Events that open or mark no sell. */
  predicate Plain(e: Event) {
    e.IntentConfirmed? || e.ZeroFill? || e.BookingTried? || e.BookingConfirmed? || e.FullBooked? || e.RowRemoved?
  }

  lemma PlainKeepsRow(trace: seq<Event>, nextGen: Gen, nextId: Id, r: Row, e: Event)
    requires RowFits(trace, nextGen, nextId, r) && Plain(e)
    ensures RowFits(trace + [e], nextGen, nextId, r)
  {
    InHistory(trace, e);
  }

  lemma PlainKeepsHistory(trace: seq<Event>, nextGen: Gen, nextId: Id, e: Event)
    requires HistoryFits(trace, nextGen, nextId) && Plain(e)
    requires e.BookingTried? ==> MarkedFor(trace, e.id)
    requires e.FullBooked? ==> e.gen < nextGen
    ensures HistoryFits(trace + [e], nextGen, nextId)
  {
    InHistory(trace, e);
  }

  /** A plain event with any write whose new row fits. */
  lemma WriteKeepsCopies(trace: seq<Event>, nextGen: Gen, nextId: Id, c: Copies, gen: Gen, change: Row -> Row,
      saved: Saved)
    requires CopyFits(trace, nextGen, nextId, c.ram) && CopyFits(trace, nextGen, nextId, c.disk)
    requires Holds(c.ram, gen) ==> RowFits(trace, nextGen, nextId, change(c.ram.value))
    ensures var c' := Write(c, gen, change, saved);
            CopyFits(trace, nextGen, nextId, c'.ram) && CopyFits(trace, nextGen, nextId, c'.disk)
  {
  }

  lemma CopyKeepsPlain(trace: seq<Event>, nextGen: Gen, nextId: Id, copy: Option<Row>, e: Event)
    requires CopyFits(trace, nextGen, nextId, copy) && Plain(e)
    ensures CopyFits(trace + [e], nextGen, nextId, copy)
  {
    if copy.Some? {
      PlainKeepsRow(trace, nextGen, nextId, copy.value, e);
    }
  }

  /** Recording a plain event while the copies stay as they are. */
  lemma PlainStep(s: State, e: Event)
    requires Inv(s) && Plain(e) && Admissible(s.trace, e)
    requires e.BookingTried? ==> MarkedFor(s.trace, e.id)
    requires e.FullBooked? ==> e.gen < s.nextGen
    ensures Inv(Log(s, e).(phase := Idle))
  {
    LogKeepsSound(s.trace, e);
    PlainKeepsHistory(s.trace, s.nextGen, s.nextId, e);
    CopyKeepsPlain(s.trace, s.nextGen, s.nextId, s.copies.ram, e);
    CopyKeepsPlain(s.trace, s.nextGen, s.nextId, s.copies.disk, e);
    InHistory(s.trace, e);
  }

  lemma IdleKeepsInv(s: State)
    requires Inv(s)
    ensures Inv(s.(phase := Idle))
  {
  }

  /** A write that changes no exit control, after which the closer stops. */
  lemma HarmlessWriteKeepsInv(s: State, gen: Gen, change: Row -> Row, saved: Saved)
    requires Inv(s)
    requires forall r: Row ::
               && change(r).gen == r.gen && change(r).intent == r.intent && change(r).pendingFull == r.pendingFull
               && change(r).booked == r.booked && change(r).partials == r.partials
    ensures Inv(s.(copies := Write(s.copies, gen, change, saved), phase := Idle))
  {
    if Holds(s.copies.ram, gen) {
      var r := s.copies.ram.value;
      assert RowFits(s.trace, s.nextGen, s.nextId, change(r)) by {
        SameControlsFit(s.trace, s.nextGen, s.nextId, r, change(r));
      }
    }
    WriteKeepsCopies(s.trace, s.nextGen, s.nextId, s.copies, gen, change, saved);
    KeepsUnbooked(s, Write(s.copies, gen, change, saved));
  }

  lemma SameControlsFit(trace: seq<Event>, nextGen: Gen, nextId: Id, r: Row, r': Row)
    requires RowFits(trace, nextGen, nextId, r)
    requires r'.gen == r.gen && r'.intent == r.intent && r'.pendingFull == r.pendingFull && r'.booked == r.booked
        && r'.partials == r.partials
    ensures RowFits(trace, nextGen, nextId, r')
  {
  }

  lemma KeepsUnbooked(s: State, c: Copies)
    requires NothingUnbookedIsLost(s)
    requires forall g: Gen :: Holds(s.copies.ram, g) && Holds(s.copies.disk, g) ==> Holds(c.ram, g) && Holds(c.disk, g)
    ensures NothingUnbookedIsLost(s.(copies := c, phase := Idle))
  {
  }

  lemma OpenKeepsInv(s: State, amount: real)
    requires Inv(s)
    ensures Inv(NextOpen(s, amount))
  {
    var s' := NextOpen(s, amount);
    if s' != s {
      var r := s'.copies.ram.value;
      assert NoneFull(s.trace, r.gen) && forall id: Id :: SellStarted(id, r.gen) !in s.trace;
      forall g: Gen | g < s'.nextGen && FullBooked(g) !in s'.trace ensures Holds(s'.copies.ram, g)
          && Holds(s'.copies.disk, g) {
        assert g < s.nextGen ==> Holds(s.copies.ram, g);
      }
    }
  }

  lemma BlockKeepsInv(s: State, blocked: bool)
    requires Inv(s)
    ensures Inv(Next(s, Block(blocked)))
  {
    if s.copies.ram.Some? {
      var r := s.copies.ram.value;
      SameControlsFit(s.trace, s.nextGen, s.nextId, r, r.(blocked := blocked));
    }
  }

  lemma CrashKeepsInv(s: State)
    requires Inv(s)
    ensures Inv(Next(s, Crash))
  {
  }

  // ------------------------------------------------------------- entering

  lemma {:induction false} ConfirmAllAdds(trace: seq<Event>, slices: seq<Slice>)
    ensures forall x :: x in trace ==> x in ConfirmAll(trace, slices)
    ensures forall x :: x in ConfirmAll(trace, slices) ==> x in trace || (x.PartialConfirmed? && Listed(slices, x.id))
    ensures forall id: Id :: Listed(slices, id) ==> PartialConfirmed(id) in ConfirmAll(trace, slices)
  {
    if slices != [] {
      var init, last := slices[..|slices| - 1], slices[|slices| - 1];
      ConfirmAllAdds(trace, init);
      assert forall id: Id :: Listed(init, id) ==> Listed(slices, id);
      assert Listed(slices, last.id);
      assert forall id: Id :: Listed(slices, id) ==> Listed(init, id) || id == last.id;
    }
  }

  lemma {:induction false} ConfirmAllIsSound(trace: seq<Event>, slices: seq<Slice>)
    requires Sound(trace) && forall id: Id, g: Gen :: Listed(slices, id) ==> FullConfirmed(id, g) !in trace
    ensures Sound(ConfirmAll(trace, slices))
  {
    if slices != [] {
      var init, last := slices[..|slices| - 1], slices[|slices| - 1];
      assert forall id: Id :: Listed(init, id) ==> Listed(slices, id);
      ConfirmAllIsSound(trace, init);
      ConfirmAllAdds(trace, init);
      var before := ConfirmAll(trace, init);
      assert Listed(slices, last.id);
      if PartialConfirmed(last.id) !in before {
        assert forall g: Gen :: FullConfirmed(last.id, g) !in before;
        assert !MarkedFor(before, last.id);
        LogKeepsSound(before, PartialConfirmed(last.id));
      }
    }
  }

  /** Confirming sells that are listed as partials leaves every fitting row fitting. */
  lemma ConfirmKeepsRow(trace: seq<Event>, longer: seq<Event>, nextGen: Gen, nextId: Id, r: Row)
    requires RowFits(trace, nextGen, nextId, r)
    requires forall x :: x in trace ==> x in longer
    requires forall x :: x in longer ==> x in trace || (x.PartialConfirmed? && Listed(r.partials, x.id))
    ensures RowFits(longer, nextGen, nextId, r)
  {
    forall id: Id | MarkedFor(longer, id) ensures MarkedFor(trace, id) || Listed(r.partials, id) {
      if PartialConfirmed(id) !in longer {
        var g: Gen :| FullConfirmed(id, g) in longer;
        assert FullConfirmed(id, g) in trace;
      }
    }
  }

  lemma ConfirmKeepsHistory(trace: seq<Event>, longer: seq<Event>, nextGen: Gen, nextId: Id, partials: seq<Slice>)
    requires HistoryFits(trace, nextGen, nextId) && forall id: Id :: Listed(partials, id) ==> id < nextId
    requires forall x :: x in trace ==> x in longer
    requires forall x :: x in longer ==> x in trace || (x.PartialConfirmed? && Listed(partials, x.id))
    ensures HistoryFits(longer, nextGen, nextId)
  {
    forall id: Id | MarkedFor(longer, id) ensures MarkedFor(trace, id) || Listed(partials, id) {
      if PartialConfirmed(id) !in longer {
        var g: Gen :| FullConfirmed(id, g) in longer;
        assert FullConfirmed(id, g) in trace;
      }
    }
    forall id: Id | MarkedFor(trace, id) ensures MarkedFor(longer, id) {
      if PartialConfirmed(id) !in trace {
        var g: Gen :| FullConfirmed(id, g) in trace;
        assert FullConfirmed(id, g) in longer;
      }
    }
  }

  /** With the list of partials confirmed and no intent, no sell of the generation is open. */
  lemma ListedIsResolved(trace: seq<Event>, r: Row)
    requires ShowsOpenSells(trace, r) && !Closing(r) && r.intent.None?
    requires forall id: Id :: Listed(r.partials, id) ==> PartialConfirmed(id) in trace
    ensures AllResolved(trace, r.gen)
  {
  }

  lemma EnterKeepsInv(s: State, partials: Saved)
    requires Inv(s) && s.phase.Idle? && s.copies.ram.Some?
    ensures Inv(NextEnter(s, partials))
  {
    var r := s.copies.ram.value;
    if r.booked || r.pendingFull.Some? || r.blocked {
    } else if r.partials == [] {
      if r.intent.None? {
        ListedIsResolved(s.trace, r);
      }
    } else if !partials.Durable? {
      HarmlessWriteKeepsInv(s, r.gen, Same(), partials);
    } else {
      var longer := ConfirmAll(s.trace, r.partials);
      ConfirmAllAdds(s.trace, r.partials);
      ConfirmAllIsSound(s.trace, r.partials);
      ConfirmKeepsRow(s.trace, longer, s.nextGen, s.nextId, r);
      ConfirmKeepsHistory(s.trace, longer, s.nextGen, s.nextId, r.partials);
      if r.intent.None? {
        ListedIsResolved(longer, r);
      }
      forall g: Gen | g < s.nextGen && FullBooked(g) !in longer ensures g == r.gen {
        assert FullBooked(g) !in s.trace;
      }
    }
  }

  // --------------------------------------------------------------- the intent

  lemma FreshIdIsUnused(s: State)
    requires Inv(s)
    ensures NoneStarted(s.trace, s.nextId) && !MarkedFor(s.trace, s.nextId)
  {
  }

  /** A row that takes a new intent, or keeps the one it has. */
  lemma IntentFits(trace: seq<Event>, nextGen: Gen, nextId: Id, r: Row, id: Id)
    requires RowFits(trace, nextGen, nextId, r) && !Closing(r)
    requires r.intent == Some(id) || (r.intent.None? && id == nextId && !MarkedFor(trace, id))
    ensures RowFits(trace, nextGen, nextId + 1, SetIntent(id)(r))
  {
  }

  lemma LaterIdFits(trace: seq<Event>, nextGen: Gen, nextId: Id, copy: Option<Row>)
    requires CopyFits(trace, nextGen, nextId, copy)
    ensures CopyFits(trace, nextGen, nextId + 1, copy)
  {
  }

  lemma EnsureKeepsInv(s: State, saved: Saved)
    requires Inv(s) && s.phase.Entered?
    ensures Inv(NextEnsureIntent(s, saved))
  {
    var gen, r := s.phase.gen, s.copies.ram.value;
    var id := if r.intent.Some? then r.intent.value else s.nextId;
    FreshIdIsUnused(s);
    if r.intent.Some? {
      assert SetIntent(id)(r) == r;
      assert RowFits(s.trace, s.nextGen, s.nextId, SetIntent(id)(r));
    } else {
      IntentFits(s.trace, s.nextGen, s.nextId, r, id);
      LaterIdFits(s.trace, s.nextGen, s.nextId, s.copies.ram);
      LaterIdFits(s.trace, s.nextGen, s.nextId, s.copies.disk);
    }
    var nextId := if r.intent.Some? then s.nextId else s.nextId + 1;
    var c := Write(s.copies, gen, SetIntent(id), saved);
    WriteKeepsCopies(s.trace, s.nextGen, nextId, s.copies, gen, SetIntent(id), saved);
    KeepsUnbooked(s, c);
    var stopped := State(c, Idle, s.nextGen, nextId, s.trace);
    assert Inv(stopped);
    if saved.Durable? {
      PlainStep(stopped, IntentConfirmed(id, gen));
      InHistory(s.trace, IntentConfirmed(id, gen));
    }
  }

  // ----------------------------------------------------- sending and looking up

  /** A sell that starts is shown by the intent in both copies. */
  lemma StartedFits(trace: seq<Event>, nextGen: Gen, nextId: Id, copy: Option<Row>, id: Id, gen: Gen)
    requires CopyFits(trace, nextGen, nextId, copy)
    requires Holds(copy, gen) ==> copy.value.intent == Some(id)
    ensures CopyFits(trace + [SellStarted(id, gen)], nextGen, nextId, copy)
  {
    InHistory(trace, SellStarted(id, gen));
  }

  lemma StartKeepsHistory(trace: seq<Event>, nextGen: Gen, nextId: Id, id: Id, gen: Gen)
    requires HistoryFits(trace, nextGen, nextId) && id < nextId && gen < nextGen
    ensures HistoryFits(trace + [SellStarted(id, gen)], nextGen, nextId)
  {
    InHistory(trace, SellStarted(id, gen));
  }

  lemma StartKeepsSound(s: State, id: Id, gen: Gen)
    requires Inv(s) && s.phase == Intended(gen, id, false)
    ensures Sound(s.trace + [SellStarted(id, gen)])
  {
    assert NoneFull(s.trace, gen);
    LogKeepsSound(s.trace, SellStarted(id, gen));
  }

  lemma StartKeepsInv(s: State, id: Id, gen: Gen)
    requires Inv(s) && s.phase == Intended(gen, id, false)
    ensures Inv(Log(s, SellStarted(id, gen)).(phase := Idle))
  {
    StartKeepsSound(s, id, gen);
    StartKeepsHistory(s.trace, s.nextGen, s.nextId, id, gen);
    StartedFits(s.trace, s.nextGen, s.nextId, s.copies.ram, id, gen);
    StartedFits(s.trace, s.nextGen, s.nextId, s.copies.disk, id, gen);
  }

  /** A row whose sell was proven unfilled may drop its intent. */
  lemma ClearedFits(trace: seq<Event>, nextGen: Gen, nextId: Id, r: Row, id: Id)
    requires RowFits(trace, nextGen, nextId, r) && r.intent == Some(id) && ZeroFill(id) in trace
    ensures RowFits(trace, nextGen, nextId, ClearIntent()(r))
  {
  }

  lemma JudgeKeepsInv(s: State, gen: Gen, id: Id, proof: Proof, saved: Saved)
    requires Inv(s) && s.phase.Idle? && BothIntend(s.copies, gen, id) && SellStarted(id, gen) in s.trace
    ensures Inv(Judge(s, gen, id, proof, saved))
  {
    match proof
    case NotTerminal(rest) => HarmlessWriteKeepsInv(s, gen, Barrier(rest), saved);
    case NothingFilled(proven) =>
      if proven {
        PlainStep(s, ZeroFill(id));
        var s' := Log(s, ZeroFill(id));
        ClearedFits(s'.trace, s.nextGen, s.nextId, s.copies.ram.value, id);
        WriteKeepsCopies(s'.trace, s.nextGen, s.nextId, s.copies, gen, ClearIntent(), saved);
        KeepsUnbooked(s', Write(s.copies, gen, ClearIntent(), saved));
      } else {
        HarmlessWriteKeepsInv(s, gen, SetUncertain(), saved);
      }
    case NoPrice => HarmlessWriteKeepsInv(s, gen, SetUncertain(), saved);
    case Fill(_) =>
  }

  lemma JudgeIgnoresThePhase(s: State, gen: Gen, id: Id, proof: Proof, saved: Saved)
    ensures Judge(s, gen, id, proof, saved) == Judge(s.(phase := Idle), gen, id, proof, saved)
  {
  }

  lemma AnsweredSellKeepsInv(s: State, gen: Gen, id: Id, proof: Proof, saved: Saved)
    requires Inv(s) && s.phase == Intended(gen, id, false)
    ensures Inv(Judge(Log(s, SellStarted(id, gen)), gen, id, proof, saved))
  {
    var e := SellStarted(id, gen);
    StartKeepsInv(s, id, gen);
    InHistory(s.trace, e);
    JudgeIgnoresThePhase(Log(s, e), gen, id, proof, saved);
    JudgeKeepsInv(Log(s, e).(phase := Idle), gen, id, proof, saved);
  }

  lemma SendKeepsInv(s: State, answer: SellAnswer, saved: Saved)
    requires Inv(s) && s.phase.Intended? && !s.phase.again
    ensures Inv(NextSend(s, answer, saved))
  {
    var gen, id := s.phase.gen, s.phase.id;
    if !MaySell(s.copies, gen, id) {
      IdleKeepsInv(s);
    } else if answer.Answered? {
      AnsweredSellKeepsInv(s, gen, id, answer.proof, saved);
    } else {
      StartKeepsInv(s, id, gen);
      if answer.OutcomeUnknown? {
        HarmlessWriteKeepsInv(Log(s, SellStarted(id, gen)).(phase := Idle), gen, SetUncertain(), saved);
      }
    }
  }

  lemma LookupKeepsInv(s: State, found: Option<Proof>, saved: Saved)
    requires Inv(s) && s.phase.Intended? && s.phase.again
    ensures Inv(NextLookup(s, found, saved))
  {
    var gen, id := s.phase.gen, s.phase.id;
    IdleKeepsInv(s);
    if found.Some? && SellStarted(id, gen) in s.trace {
      JudgeKeepsInv(s.(phase := Idle), gen, id, found.value, saved);
      assert Judge(s, gen, id, found.value, saved) == Judge(s.(phase := Idle), gen, id, found.value, saved);
    }
  }

  // -------------------------------------------------------- the write-ahead step

  lemma TakenFits(trace: seq<Event>, nextGen: Gen, nextId: Id, r: Row, slice: Slice, full: bool)
    requires RowFits(trace, nextGen, nextId, r) && !Closing(r) && r.intent == Some(slice.id)
    requires SellStarted(slice.id, r.gen) in trace && forall g: Gen :: FullConfirmed(slice.id, g) !in trace
    ensures RowFits(trace, nextGen, nextId, (if full then TakeFull(slice) else TakePartial(slice))(r))
  {
    if !full {
      var longer := r.partials + [slice];
      assert longer[|r.partials|] == slice;
      forall id: Id | Listed(r.partials, id) ensures Listed(longer, id) {
        var k :| 0 <= k < |r.partials| && r.partials[k].id == id;
        assert longer[k] == r.partials[k];
      }
      assert forall id: Id :: Listed(longer, id) ==> Listed(r.partials, id) || id == slice.id;
    }
  }

  lemma MarkedRowFits(trace: seq<Event>, nextGen: Gen, nextId: Id, r: Row, e: Event)
    requires RowFits(trace, nextGen, nextId, r)
    requires e.PartialConfirmed? ==> r.intent != Some(e.id) || Closing(r)
    requires e.FullConfirmed? ==> Closing(r) && !Listed(r.partials, e.id)
    requires e.PartialConfirmed? || e.FullConfirmed?
    ensures RowFits(trace + [e], nextGen, nextId, r)
  {
    InHistory(trace, e);
  }

  lemma MarkedHistoryFits(trace: seq<Event>, nextGen: Gen, nextId: Id, e: Event)
    requires HistoryFits(trace, nextGen, nextId) && (e.PartialConfirmed? || e.FullConfirmed?) && e.id < nextId
    requires e.FullConfirmed? ==> e.gen < nextGen
    ensures HistoryFits(trace + [e], nextGen, nextId)
  {
    InHistory(trace, e);
  }

  /** The sell that has filled: what its row and the history say about it. */
  lemma FilledIsUnmarked(s: State)
    requires Inv(s) && s.phase.Filled?
    ensures var id, r := s.phase.id, s.copies.ram.value;
            && !MarkedFor(s.trace, id) && BookingTried(id) !in s.trace && !Listed(r.partials, id) && id < s.nextId
            && forall g: Gen :: FullConfirmed(id, g) !in s.trace
  {
    assert IntentIsOpen(s.trace, s.copies.ram.value);
  }

  lemma WriteAheadKeepsInv(s: State, dust: bool, saved: Saved, again: Saved)
    requires Inv(s) && s.phase.Filled?
    ensures Inv(NextWriteAhead(s, dust, saved, again))
  {
    var gen, id, r := s.phase.gen, s.phase.id, s.copies.ram.value;
    var slice := Slice(id, Min(s.phase.sold, r.amount));
    var full := slice.sold >= r.amount || dust;
    var change := if full then TakeFull(slice) else TakePartial(slice);
    FilledIsUnmarked(s);
    TakenFits(s.trace, s.nextGen, s.nextId, r, slice, full);
    var copies := Write(s.copies, gen, change, saved);
    WriteKeepsCopies(s.trace, s.nextGen, s.nextId, s.copies, gen, change, saved);
    KeepsUnbooked(s, copies);
    var written := s.(copies := copies, phase := Idle);
    if !saved.Durable? {
      HarmlessWriteKeepsInv(written, gen, SetUncertain(), again);
    } else {
      var e := if full then FullConfirmed(id, gen) else PartialConfirmed(id);
      LogKeepsSound(s.trace, e);
      MarkedRowFits(s.trace, s.nextGen, s.nextId, change(r), e);
      MarkedHistoryFits(s.trace, s.nextGen, s.nextId, e);
      InHistory(s.trace, e);
      assert e in s.trace + [e];
    }
  }

  // ----------------------------------------------------------- booking, removal

  lemma BookKeepsInv(s: State, confirmed: bool)
    requires Inv(s) && s.phase.Marked?
    ensures Inv(NextBook(s, confirmed))
  {
    var gen, slice := s.phase.gen, s.phase.slice;
    var tried := Log(s, BookingTried(slice.id)).(phase := Idle);
    PlainStep(s, BookingTried(slice.id));
    InHistory(s.trace, BookingTried(slice.id));
    if confirmed {
      PlainStep(tried, BookingConfirmed(slice.id));
      var booked := Log(tried, BookingConfirmed(slice.id));
      InHistory(tried.trace, BookingConfirmed(slice.id));
      if s.phase.full {
        assert FullConfirmed(slice.id, gen) in booked.trace && BookingConfirmed(slice.id) in booked.trace;
        PlainStep(booked, FullBooked(gen));
        InHistory(booked.trace, FullBooked(gen));
      }
    }
  }

  lemma StruckFits(trace: seq<Event>, nextGen: Gen, nextId: Id, r: Row, slice: Slice)
    requires RowFits(trace, nextGen, nextId, r) && Resolved(trace, slice.id, r.gen)
    ensures RowFits(trace, nextGen, nextId, StrikeOff(slice)(r))
  {
    var r' := StrikeOff(slice)(r);
    if r' != r {
      assert r.partials == r'.partials + [slice];
      forall id: Id | Listed(r'.partials, id) ensures Listed(r.partials, id) {
        var k :| 0 <= k < |r'.partials| && r'.partials[k].id == id;
        assert r.partials[k] == r'.partials[k];
      }
      assert forall id: Id :: Listed(r.partials, id) ==> Listed(r'.partials, id) || id == slice.id;
    }
  }

  lemma StrikeKeepsInv(s: State, saved: Saved)
    requires Inv(s) && s.phase.Striking?
    ensures Inv(NextStrike(s, saved))
  {
    var gen, slice := s.phase.gen, s.phase.slice;
    if Holds(s.copies.ram, gen) {
      StruckFits(s.trace, s.nextGen, s.nextId, s.copies.ram.value, slice);
    }
    WriteKeepsCopies(s.trace, s.nextGen, s.nextId, s.copies, gen, StrikeOff(slice), saved);
    KeepsUnbooked(s, Write(s.copies, gen, StrikeOff(slice), saved));
  }

  lemma BookedFits(trace: seq<Event>, nextGen: Gen, nextId: Id, r: Row)
    requires RowFits(trace, nextGen, nextId, r) && FullBooked(r.gen) in trace
    ensures RowFits(trace, nextGen, nextId, SetBooked()(r))
  {
  }

  lemma FlagBookedKeepsInv(s: State, gen: Gen, saved: Saved)
    requires Inv(s) && FullBooked(gen) in s.trace
    ensures Inv(s.(copies := Write(s.copies, gen, SetBooked(), saved), phase := Idle))
  {
    if Holds(s.copies.ram, gen) {
      BookedFits(s.trace, s.nextGen, s.nextId, s.copies.ram.value);
    }
    WriteKeepsCopies(s.trace, s.nextGen, s.nextId, s.copies, gen, SetBooked(), saved);
    KeepsUnbooked(s, Write(s.copies, gen, SetBooked(), saved));
  }

  lemma RemoveKeepsInv(s: State, removal: Removal)
    requires Inv(s) && s.phase.Removing?
    ensures Inv(NextRemove(s, removal))
  {
    var gen, c := s.phase.gen, s.copies;
    if Holds(c.ram, gen) && c.ram.value.partials != [] {
      FlagBookedKeepsInv(s, gen, if removal.Removed? then Durable else Unconfirmed(removal.inRam, removal.onDisk));
    } else if removal.Unremoved? {
      FlagBookedKeepsInv(s, gen, Unconfirmed(removal.inRam, removal.onDisk));
    } else {
      var dropped := s.(copies := Copies(Drop(c.ram, gen), Drop(c.disk, gen)), phase := Idle);
      assert NothingUnbookedIsLost(dropped);
      PlainStep(dropped, RowRemoved(gen));
    }
  }

  lemma StepKeepsInv(s: State, a: Action)
    requires Inv(s)
    ensures Inv(Next(s, a))
  {
    match a
    case Open(amount) => OpenKeepsInv(s, amount);
    case Block(blocked) => BlockKeepsInv(s, blocked);
    case Enter(partials) => if s.phase.Idle? && s.copies.ram.Some? { EnterKeepsInv(s, partials); }
    case EnsureIntent(saved) => if s.phase.Entered? { EnsureKeepsInv(s, saved); }
    case Send(answer, saved) => if s.phase.Intended? && !s.phase.again { SendKeepsInv(s, answer, saved); }
    case Lookup(found, saved) => if s.phase.Intended? && s.phase.again { LookupKeepsInv(s, found, saved); }
    case WriteAhead(dust, saved, again) => if s.phase.Filled? { WriteAheadKeepsInv(s, dust, saved, again); }
    case Book(confirmed) => if s.phase.Marked? { BookKeepsInv(s, confirmed); }
    case Strike(saved) => if s.phase.Striking? { StrikeKeepsInv(s, saved); }
    case Remove(removal) => if s.phase.Removing? { RemoveKeepsInv(s, removal); }
    case Fail => IdleKeepsInv(s);
    case Crash => CrashKeepsInv(s);
  }

  lemma {:induction false} RunKeepsInv(actions: seq<Action>)
    ensures Inv(Run(Start, actions))
  {
    if actions != [] {
      RunKeepsInv(actions[..|actions| - 1]);
      StepKeepsInv(Run(Start, actions[..|actions| - 1]), actions[|actions| - 1]);
    }
  }

  // ------------------------------------------------------------- main results

  /**
    In every run, crashes included: a sell starts at most once under each intent,
    only after that intent was confirmed durable, and only while every earlier
    sell of the position is resolved and no full close of it is marked.
   */
  lemma SellsFollowDurableIntents(actions: seq<Action>, i: nat)
    requires i < |Run(Start, actions).trace| && Run(Start, actions).trace[i].SellStarted?
    ensures var t := Run(Start, actions).trace;
            var id, gen, past := t[i].id, t[i].gen, t[..i];
            && IntentConfirmed(id, gen) in past && NoneStarted(past, id)
            && (forall other: Id :: SellStarted(other, gen) in past ==> Resolved(past, other, gen))
            && (forall other: Id :: FullConfirmed(other, gen) !in past)
  {
    RunKeepsInv(actions);
    assert Admissible(Run(Start, actions).trace[..i], Run(Start, actions).trace[i]);
  }

  /**
    In every run, crashes included: a fill is booked only after its marker was
    confirmed durable, and asked to be booked only once; a row is removed only
    after its full close was booked.
   */
  lemma BookingIsWriteAhead(actions: seq<Action>, i: nat)
    requires i < |Run(Start, actions).trace|
    ensures var t := Run(Start, actions).trace;
            var past := t[..i];
            match t[i]
            case BookingTried(id) => MarkedFor(past, id) && BookingTried(id) !in past
            case RowRemoved(gen) => FullBooked(gen) in past
            case FullBooked(gen) => exists id: Id :: FullConfirmed(id, gen) in past && BookingConfirmed(id) in past
            case _ => true
  {
    RunKeepsInv(actions);
    assert Admissible(Run(Start, actions).trace[..i], Run(Start, actions).trace[i]);
  }

  /** In every run, crashes included, a position is in memory and on disk until its full close is booked. */
  lemma UnbookedPositionsSurvive(actions: seq<Action>, g: Gen)
    ensures var s := Run(Start, actions);
            g < s.nextGen && FullBooked(g) !in s.trace ==> Holds(s.copies.ram, g) && Holds(s.copies.disk, g)
  {
    RunKeepsInv(actions);
  }

  // ------------------------------------------------------------- quantities

  function SoldIn(slices: seq<Slice>): real {
    if slices == [] then 0.0 else SoldIn(slices[..|slices| - 1]) + slices[|slices| - 1].sold
  }

  /** What a row accounts for: the rest, the fills waiting to be booked, and those booked and struck off. */
  function Tracked(r: Row): real {
    r.amount + SoldIn(r.partials) + r.settled
  }

  ghost predicate Conserves(copy: Option<Row>) {
    copy.Some? ==> Tracked(copy.value) + copy.value.cut == copy.value.initial && copy.value.cut >= 0.0
  }

  ghost predicate Balanced(c: Copies) {
    Conserves(c.ram) && Conserves(c.disk)
  }

  lemma SoldInAppends(slices: seq<Slice>, slice: Slice)
    ensures SoldIn(slices + [slice]) == SoldIn(slices) + slice.sold
  {
    assert (slices + [slice])[..|slices|] == slices;
  }

  lemma TakePartialConserves(r: Row, slice: Slice)
    ensures Tracked(TakePartial(slice)(r)) == Tracked(r)
  {
    SoldInAppends(r.partials, slice);
  }

  lemma WriteConserves(c: Copies, gen: Gen, change: Row -> Row, saved: Saved)
    requires Balanced(c)
    requires Holds(c.ram, gen) ==> Conserves(Some(change(c.ram.value)))
    ensures Balanced(Write(c, gen, change, saved))
  {
  }

  lemma JudgeConserves(s: State, gen: Gen, id: Id, proof: Proof, saved: Saved)
    requires Balanced(s.copies)
    ensures Balanced(Judge(s, gen, id, proof, saved).copies)
  {
    match proof
    case NotTerminal(rest) => WriteConserves(s.copies, gen, Barrier(rest), saved);
    case NothingFilled(proven) => WriteConserves(s.copies, gen, if proven then ClearIntent() else SetUncertain(),
        saved);
    case NoPrice => WriteConserves(s.copies, gen, SetUncertain(), saved);
    case Fill(_) =>
  }

  lemma WriteAheadConserves(s: State, dust: bool, saved: Saved, again: Saved)
    requires Balanced(s.copies) && s.phase.Filled?
    ensures Balanced(NextWriteAhead(s, dust, saved, again).copies)
  {
    var gen := s.phase.gen;
    if Holds(s.copies.ram, gen) {
      var r := s.copies.ram.value;
      var slice := Slice(s.phase.id, Min(s.phase.sold, r.amount));
      var change := if slice.sold >= r.amount || dust then TakeFull(slice) else TakePartial(slice);
      TakePartialConserves(r, slice);
      WriteConserves(s.copies, gen, change, saved);
      WriteConserves(Write(s.copies, gen, change, saved), gen, SetUncertain(), again);
    }
  }

  lemma SendConserves(s: State, answer: SellAnswer, saved: Saved)
    requires Balanced(s.copies)
    ensures Balanced(NextSend(s, answer, saved).copies)
  {
    if s.phase.Intended? && !s.phase.again {
      WriteConserves(s.copies, s.phase.gen, SetUncertain(), saved);
      if answer.Answered? {
        JudgeConserves(Log(s, SellStarted(s.phase.id, s.phase.gen)), s.phase.gen, s.phase.id, answer.proof, saved);
      }
    }
  }

  lemma StepConserves(s: State, a: Action)
    requires Balanced(s.copies)
    ensures Balanced(Next(s, a).copies)
  {
    match a
    case Open(_) =>
    case Block(_) =>
    case Enter(partials) => if s.copies.ram.Some? { WriteConserves(s.copies, s.copies.ram.value.gen, Same(),
        partials); }
    case EnsureIntent(saved) =>
      if s.phase.Entered? && Holds(s.copies.ram, s.phase.gen) {
        var known := s.copies.ram.value.intent;
        WriteConserves(s.copies, s.phase.gen, SetIntent(if known.Some? then known.value else s.nextId), saved);
      }
    case Send(answer, saved) => SendConserves(s, answer, saved);
    case Lookup(found, saved) =>
      if s.phase.Intended? && found.Some? { JudgeConserves(s, s.phase.gen, s.phase.id, found.value, saved); }
    case WriteAhead(dust, saved, again) => if s.phase.Filled? { WriteAheadConserves(s, dust, saved, again); }
    case Book(_) =>
    case Strike(saved) =>
      if s.phase.Striking? {
        WriteConserves(s.copies, s.phase.gen, StrikeOff(s.phase.slice), saved);
      }
    case Remove(removal) =>
      if s.phase.Removing? {
        var saved := if removal.Removed? then Durable else Unconfirmed(removal.inRam, removal.onDisk);
        WriteConserves(s.copies, s.phase.gen, SetBooked(), saved);
      }
    case Fail =>
    case Crash =>
  }

  /**
    In every run, crashes included, in memory and on disk: rest, fills to be
    booked, fills booked, and what was cut off without a fill add up to the
    amount the position was opened with.
   */
  lemma {:induction false} QuantityIsConserved(actions: seq<Action>)
    ensures Balanced(Run(Start, actions).copies)
  {
    if actions != [] {
      QuantityIsConserved(actions[..|actions| - 1]);
      StepConserves(Run(Start, actions[..|actions| - 1]), actions[|actions| - 1]);
    }
  }

  /** The order that a step judges, with what is saved for it. */
  function Judged(s: State, a: Action): Option<Proof> {
    if !s.phase.Intended? then None
    else if a.Send? && !s.phase.again && MaySell(s.copies, s.phase.gen, s.phase.id)
        && a.answer.Answered? then Some(a.answer.proof)
    else if a.Lookup? && s.phase.again && SellStarted(s.phase.id, s.phase.gen) in s.trace then a.found
    else None
  }

  /** The order is not terminal, has visibly sold some of the position, and the barrier reaches the copy in memory. */
  predicate CutsOff(s: State, a: Action) {
    && Judged(s, a).Some? && Judged(s, a).value.NotTerminal? && Judged(s, a).value.rest.Some?
    && Holds(s.copies.ram, s.phase.gen) && Judged(s, a).value.rest.value < s.copies.ram.value.amount
    && (a.saved.Durable? || a.saved.inRam)
  }

  /** Exactly such a step cuts the position in memory, and by the part that was seen to be sold. */
  lemma CutIsUnaccounted(s: State, a: Action, gen: Gen)
    requires Holds(s.copies.ram, gen) && Holds(Next(s, a).copies.ram, gen) && !a.Crash?
    ensures var r, r' := s.copies.ram.value, Next(s, a).copies.ram.value;
            && (r'.cut > r.cut <==> CutsOff(s, a))
            && r'.cut - r.cut == (if CutsOff(s, a) then r.amount - Judged(s, a).value.rest.value else 0.0)
            && (CutsOff(s, a) ==> r'.partials == r.partials && r'.settled == r.settled)
  {
    if a.Send? || a.Lookup? {
      if Judged(s, a).Some? {
        JudgeCuts(if a.Send? then Log(s, SellStarted(s.phase.id, s.phase.gen)) else s, s.phase.gen, s.phase.id,
            Judged(s, a).value, a.saved);
      } else {
        UnjudgedStepCutsNothing(s, a);
      }
    } else {
      OtherStepCutsNothing(s, a, gen);
    }
  }

  lemma JudgeCuts(s: State, gen: Gen, id: Id, proof: Proof, saved: Saved)
    requires s.copies.ram.Some?
    ensures var c := Judge(s, gen, id, proof, saved).copies;
            var r := s.copies.ram.value;
            var cuts := proof.NotTerminal? && proof.rest.Some? && Holds(s.copies.ram, gen)
                && proof.rest.value < r.amount
                        && (saved.Durable? || saved.inRam);
            && c.ram.Some? && c.ram.value.cut - r.cut == (if cuts then r.amount - proof.rest.value else 0.0)
            && (cuts ==> c.ram.value.partials == r.partials && c.ram.value.settled == r.settled)
  {
  }

  lemma UnjudgedStepCutsNothing(s: State, a: Action)
    requires s.copies.ram.Some? && (a.Send? || a.Lookup?) && Judged(s, a).None?
    ensures Next(s, a).copies.ram.Some? && Next(s, a).copies.ram.value.cut == s.copies.ram.value.cut
  {
  }

  lemma OtherStepCutsNothing(s: State, a: Action, gen: Gen)
    requires Holds(s.copies.ram, gen) && Holds(Next(s, a).copies.ram, gen) && !a.Crash? && !a.Send? && !a.Lookup?
    ensures Next(s, a).copies.ram.value.cut == s.copies.ram.value.cut
  {
  }

  /** A position of two units, one of which a sell of unknown status has visibly sold. */
  function CuttingScript(): seq<Action> {
    [Open(2.0), Enter(Durable), EnsureIntent(Durable), Send(Answered(NotTerminal(Some(1.0))), Durable)]
  }

  /** It happens: the unit that was sold is in no fill. */
  lemma ASaleIsCutOff()
    ensures var c := Run(Start, CuttingScript()).copies;
            && c.ram.Some? && c.disk == c.ram && c.ram.value.initial == 2.0 && c.ram.value.amount == 1.0
            && c.ram.value.cut == 1.0 && c.ram.value.partials == [] && c.ram.value.settled == 0.0
  {
    var script := CuttingScript();
    RunThen(Start, script, 0, Start);
    var s1 := Next(Start, script[0]);
    RunThen(Start, script, 1, s1);
    var s2 := Next(s1, script[1]);
    RunThen(Start, script, 2, s2);
    RunThen(Start, script, 3, Next(s2, script[2]));
    assert script[..4] == script;
  }

  // ---------------------------------------------------------- the procedures

  /** What the store, the venue and the DB answer during one close. */
  datatype Answers = Answers(
    partials: Saved,
    intent: Saved,
    sell: SellAnswer,
    found: Option<Proof>,
    barrier: Saved,
    dust: bool,
    marker: Saved,
    retry: Saved,
    booked: bool,
    struck: Saved,
    removal: Removal)

  /** A sell that is new is sent, one that is not is looked up. */
  function SendOrLookup(s: State, a: Answers): State {
    NextLookup(NextSend(s, a.sell, a.barrier), a.found, a.barrier)
  }

  function Finish(s: State, a: Answers): State {
    NextRemove(NextStrike(NextBook(NextWriteAhead(s, a.dust, a.marker, a.retry), a.booked), a.struck), a.removal)
  }

  /** One close of the symbol; an early end leaves the later steps without effect. */
  function Close(s: State, a: Answers): State {
    Finish(SendOrLookup(NextEnsureIntent(NextEnter(s, a.partials), a.intent), a), a)
  }

  function Script(a: Answers): seq<Action> {
    [Enter(a.partials), EnsureIntent(a.intent), Send(a.sell, a.barrier), Lookup(a.found, a.barrier)]
    + [WriteAhead(a.dust, a.marker, a.retry), Book(a.booked), Strike(a.struck), Remove(a.removal)]
  }

  /** One more action of a script. */
  lemma RunThen(s: State, script: seq<Action>, n: nat, before: State)
    requires n < |script| && Run(s, script[..n]) == before
    ensures Run(s, script[..n + 1]) == Next(before, script[n])
  {
    assert script[..n + 1][..n] == script[..n];
  }

  lemma SellingIsARun(s: State, a: Answers)
    ensures Run(s, Script(a)[..4]) == SendOrLookup(NextEnsureIntent(NextEnter(s, a.partials), a.intent), a)
  {
    var s1 := NextEnter(s, a.partials);
    var s2 := NextEnsureIntent(s1, a.intent);
    RunThen(s, Script(a), 0, s);
    RunThen(s, Script(a), 1, s1);
    RunThen(s, Script(a), 2, s2);
    RunThen(s, Script(a), 3, NextSend(s2, a.sell, a.barrier));
  }

  /** So everything proved of runs holds of the procedure, cut off at any step. */
  lemma CloseIsARun(s: State, a: Answers)
    ensures Close(s, a) == Run(s, Script(a))
  {
    SellingIsARun(s, a);
    var s4 := SendOrLookup(NextEnsureIntent(NextEnter(s, a.partials), a.intent), a);
    RunThen(s, Script(a), 4, s4);
    var s5 := NextWriteAhead(s4, a.dust, a.marker, a.retry);
    RunThen(s, Script(a), 5, s5);
    RunThen(s, Script(a), 6, NextBook(s5, a.booked));
    RunThen(s, Script(a), 7, NextStrike(NextBook(s5, a.booked), a.struck));
    assert Script(a)[..8] == Script(a);
  }

  /** The process: both copies of the managed row, the next unused id, and the effects so far. */
  class Closer {
    var copies: Copies
    var nextGen: Gen
    var nextId: Id
    var trace: seq<Event>

    function View(phase: Phase): State
      reads this
    {
      State(copies, phase, nextGen, nextId, trace)
    }

    constructor ()
      ensures View(Idle) == Start
    {
      copies, nextGen, nextId, trace := Copies(None, None), 0, 0, [];
    }

    /** `_persist_spot_exit_fields`: a conditional update and its read-back. */
    method Store(gen: Gen, change: Row -> Row, saved: Saved) returns (confirmed: bool)
      modifies this`copies
      ensures copies == Write(old(copies), gen, change, saved)
      ensures confirmed <==> saved.Durable? && Holds(old(copies.ram), gen)
      ensures Holds(old(copies.ram), gen) ==>
                var row := Some(change(old(copies.ram.value)));
                && copies.ram == (if saved.Durable? || saved.inRam then row else old(copies.ram))
                && copies.disk == (if saved.Durable? || saved.onDisk then row else old(copies.disk))
      ensures !Holds(old(copies.ram), gen) ==> copies == old(copies)
    {
      confirmed := saved.Durable? && Holds(copies.ram, gen);
      if Holds(copies.ram, gen) {
        var row := Some(change(copies.ram.value));
        copies := Copies(if saved.Durable? || saved.inRam then row else copies.ram,
                         if saved.Durable? || saved.onDisk then row else copies.disk);
      }
    }

    method ReadLive(partials: Saved) returns (phase: Phase)
      modifies this`copies, this`trace
      ensures View(phase) == NextEnter(old(View(Idle)), partials)
      ensures phase.Idle? || phase.Entered? || phase.Removing?
      ensures phase.Removing? <==> old(copies.ram.Some? && copies.ram.value.booked)
      ensures phase.Entered? <==>
                && old(copies.ram.Some? && !copies.ram.value.booked && copies.ram.value.pendingFull.None?
                       && !copies.ram.value.blocked && copies.ram.value.amount > 0.0)
                && (partials.Durable? || old(copies.ram.value.partials == []))
      ensures !phase.Idle? ==> Holds(copies.ram, phase.gen)
      ensures phase.Entered? ==>
                phase.intent == copies.ram.value.intent && phase.uncertain == copies.ram.value.uncertain
      ensures phase.Entered? && copies.ram.value.partials != [] ==> copies.disk == copies.ram
    {
      if copies.ram.None? {
        return Idle;
      }
      var r := copies.ram.value;
      if r.booked {
        return Removing(r.gen);
      }
      if r.pendingFull.Some? || r.blocked {
        return Idle;
      }
      if r.partials != [] {
        var durable := Store(r.gen, Same(), partials);
        if !durable {
          return Idle;
        }
        trace := ConfirmAll(trace, r.partials);
      }
      phase := if r.amount > 0.0 then Entered(r.gen, r.intent, r.uncertain) else Idle;
    }

    /** `ensure_spot_exit_client_order_id`. */
    method ConfirmIntent(gen: Gen, intent: Option<Id>, uncertain: bool, saved: Saved) returns (phase: Phase)
      requires Holds(copies.ram, gen)
      modifies this`copies, this`nextId, this`trace
      ensures View(phase) == NextEnsureIntent(old(View(Entered(gen, intent, uncertain))), saved)
      ensures phase.Idle? || phase.Intended?
      ensures phase.Intended? <==> saved.Durable?
      ensures phase.Intended? ==>
                && phase.gen == gen && copies.ram == copies.disk && copies.ram.value.intent == Some(phase.id)
                && (old(copies.ram.value.intent).Some? ==> copies.ram.value.intent == old(copies.ram.value.intent))
                && (old(copies.ram.value.intent).None? ==> phase.id == old(nextId) < nextId)
                && (phase.again <==> intent == Some(phase.id) || uncertain)
      ensures copies.ram.Some? && copies.ram.value == old(copies.ram.value).(intent := copies.ram.value.intent)
    {
      var id := nextId;
      if copies.ram.value.intent.Some? {
        id := copies.ram.value.intent.value;
      } else {
        nextId := nextId + 1;
      }
      var durable := Store(gen, SetIntent(id), saved);
      if !durable {
        return Idle;
      }
      trace := trace + [IntentConfirmed(id, gen)];
      phase := Intended(gen, id, intent == Some(id) || uncertain);
    }

    method Weigh(gen: Gen, id: Id, proof: Proof, saved: Saved) returns (phase: Phase)
      modifies this`copies, this`trace
      ensures forall p :: View(phase) == Judge(old(View(p)), gen, id, proof, saved)
      ensures phase == (if proof.Fill? && proof.sold > 0.0 then Filled(gen, id, proof.sold) else Idle)
      ensures trace == old(trace) + (if proof == NothingFilled(true) then [ZeroFill(id)] else [])
      ensures proof.Fill? || !Holds(old(copies.ram), gen) ==> copies == old(copies)
      ensures !proof.Fill? && saved.Durable? && Holds(old(copies.ram), gen) ==>
                && Holds(copies.ram, gen) && copies.disk == copies.ram
                && var r, r' := old(copies.ram.value), copies.ram.value;
                   if proof == NothingFilled(true) then r' == r.(intent := None, uncertain := false)
                   else
                     && r' == r.(uncertain := true, amount := r'.amount, cut := r'.cut)
                     && r'.amount == (if proof.NotTerminal? && proof.rest.Some? && proof.rest.value < r.amount
                                      then proof.rest.value else r.amount)
    {
      match proof
      case NotTerminal(rest) =>
        var _ := Store(gen, Barrier(rest), saved);
        return Idle;
      case NothingFilled(proven) =>
        if proven {
          trace := trace + [ZeroFill(id)];
        }
        var _ := Store(gen, if proven then ClearIntent() else SetUncertain(), saved);
        return Idle;
      case NoPrice =>
        var _ := Store(gen, SetUncertain(), saved);
        return Idle;
      case Fill(sold) =>
        return if sold > 0.0 then Filled(gen, id, sold) else Idle;
    }

    method SellOnce(gen: Gen, id: Id, answer: SellAnswer, saved: Saved) returns (phase: Phase)
      modifies this`copies, this`trace
      ensures View(phase) == NextSend(old(View(Intended(gen, id, false))), answer, saved)
      ensures phase.Idle? || phase.Filled?
      ensures var free := old(Holds(copies.ram, gen) && !copies.ram.value.blocked && !copies.ram.value.booked
                              && copies.ram.value.pendingFull.None? && copies.ram.value.intent == Some(id));
              && (phase.Filled? <==> free && answer.Answered? && answer.proof.Fill? && answer.proof.sold > 0.0)
              && (free ==> |trace| > |old(trace)| && trace[..|old(trace)| + 1] == old(trace) + [SellStarted(id, gen)])
              && (!free ==> trace == old(trace) && copies == old(copies))
              && (free && answer.OutcomeUnknown? && saved.Durable? ==>
                    Holds(copies.ram, gen) && copies.ram.value.uncertain && copies.disk == copies.ram)
      ensures phase.Filled? ==> phase == Filled(gen, id, answer.proof.sold)
    {
      if !MaySell(copies, gen, id) {
        return Idle;
      }
      trace := trace + [SellStarted(id, gen)];
      ghost var started := View(Intended(gen, id, false));
      assert started == Log(old(View(Intended(gen, id, false))), SellStarted(id, gen));
      match answer
      case Answered(proof) => phase := Weigh(gen, id, proof, saved);
      case OutcomeUnknown =>
        var _ := Store(gen, SetUncertain(), saved);
        phase := Idle;
      case SellFailed => phase := Idle;
    }

    method LookUp(gen: Gen, id: Id, found: Option<Proof>, saved: Saved) returns (phase: Phase)
      modifies this`copies, this`trace
      ensures View(phase) == NextLookup(old(View(Intended(gen, id, true))), found, saved)
      ensures phase.Idle? || phase.Filled?
      ensures phase.Filled? <==> SellStarted(id, gen) in old(trace) && found.Some? && found.value.Fill?
                                 && found.value.sold > 0.0
      ensures phase.Filled? ==> phase == Filled(gen, id, found.value.sold)
      ensures forall i, g :: SellStarted(i, g) in trace ==> SellStarted(i, g) in old(trace)
    {
      if found.None? || SellStarted(id, gen) !in trace {
        return Idle;
      }
      phase := Weigh(gen, id, found.value, saved);
    }

    method MarkFill(gen: Gen, id: Id, sold: real, a: Answers) returns (phase: Phase)
      modifies this`copies, this`trace
      ensures View(phase) == NextWriteAhead(old(View(Filled(gen, id, sold))), a.dust, a.marker, a.retry)
      ensures phase.Idle? || phase.Marked?
      ensures phase.Marked? <==> Holds(old(copies.ram), gen) && a.marker.Durable?
      ensures phase.Marked? ==>
                var r := old(copies.ram.value);
                && phase.gen == gen && phase.slice == Slice(id, if sold < r.amount then sold else r.amount)
                && (phase.full <==> sold >= r.amount || a.dust) && copies.disk == copies.ram
                && copies.ram == Some(if phase.full then r.(pendingFull := Some(phase.slice))
                                      else r.(amount := r.amount - sold, intent := None, uncertain := false,
                                              partials := r.partials + [phase.slice]))
                && trace == old(trace) + [if phase.full then FullConfirmed(id, gen) else PartialConfirmed(id)]
      ensures phase.Idle? ==> trace == old(trace)
      ensures phase.Idle? && Holds(old(copies.ram), gen) && a.retry.Durable? ==>
                Holds(copies.ram, gen) && copies.ram.value.uncertain && copies.disk == copies.ram
      ensures !Holds(old(copies.ram), gen) ==> copies == old(copies)
    {
      if !Holds(copies.ram, gen) {
        return Idle;
      }
      var slice := Slice(id, Min(sold, copies.ram.value.amount));
      var full := slice.sold >= copies.ram.value.amount || a.dust;
      var durable := Store(gen, if full then TakeFull(slice) else TakePartial(slice), a.marker);
      if !durable {
        var _ := Store(gen, SetUncertain(), a.retry);
        return Idle;
      }
      trace := trace + [if full then FullConfirmed(id, gen) else PartialConfirmed(id)];
      phase := Marked(gen, slice, full);
    }

    method BookFill(gen: Gen, slice: Slice, full: bool, confirmed: bool) returns (phase: Phase)
      modifies this`trace
      ensures View(phase) == NextBook(old(View(Marked(gen, slice, full))), confirmed)
      ensures phase == (if !confirmed then Idle else if full then Removing(gen) else Striking(gen, slice))
      ensures trace == old(trace) + [BookingTried(slice.id)]
                       + (if confirmed then [BookingConfirmed(slice.id)] else [])
                       + (if confirmed && full then [FullBooked(gen)] else [])
    {
      trace := trace + [BookingTried(slice.id)];
      if !confirmed {
        return Idle;
      }
      trace := trace + [BookingConfirmed(slice.id)];
      if !full {
        return Striking(gen, slice);
      }
      trace := trace + [FullBooked(gen)];
      phase := Removing(gen);
    }

    method RemoveRow(gen: Gen, removal: Removal)
      modifies this`copies, this`trace
      ensures View(Idle) == NextRemove(old(View(Removing(gen))), removal)
      ensures var kept := old(Holds(copies.ram, gen) && copies.ram.value.partials != []);
              && (!kept && removal.Removed? ==>
                    !Holds(copies.ram, gen) && !Holds(copies.disk, gen) && trace == old(trace) + [RowRemoved(gen)])
              && (kept || removal.Unremoved? ==> trace == old(trace))
              && (kept && removal.Removed? ==>
                    copies.disk == copies.ram == Some(old(copies.ram.value).(booked := true)))
              && (removal.Unremoved? && old(Holds(copies.ram, gen)) ==>
                    && copies.ram == Some(old(copies.ram.value).(booked := removal.inRam
                        || old(copies.ram.value.booked)))
                    && (removal.onDisk ==> copies.disk == Some(old(copies.ram.value).(booked := true))))
    {
      var kept := Holds(copies.ram, gen) && copies.ram.value.partials != [];
      if kept || removal.Unremoved? {
        var _ := Store(gen, SetBooked(), if removal.Removed? then Durable
            else Unconfirmed(removal.inRam, removal.onDisk));
        return;
      }
      copies := Copies(Drop(copies.ram, gen), Drop(copies.disk, gen));
      trace := trace + [RowRemoved(gen)];
    }

    method FinishClose(start: Phase, a: Answers)
      requires start.Idle? || start.Filled? || start.Removing?
      modifies this`copies, this`trace
      ensures View(Idle) == Finish(old(View(start)), a)
    {
      var phase := start;
      if phase.Filled? {
        phase := MarkFill(phase.gen, phase.id, phase.sold, a);
      }
      if phase.Marked? {
        phase := BookFill(phase.gen, phase.slice, phase.full, a.booked);
      }
      if phase.Striking? {
        var _ := Store(phase.gen, StrikeOff(phase.slice), a.struck);
        phase := Idle;
      }
      if phase.Removing? {
        RemoveRow(phase.gen, a.removal);
      }
    }

    method SellOrLookUp(start: Phase, a: Answers) returns (phase: Phase)
      requires start.Idle? || start.Intended? || start.Removing?
      modifies this`copies, this`trace
      ensures View(phase) == SendOrLookup(old(View(start)), a)
      ensures phase.Idle? || phase.Filled? || phase.Removing?
    {
      if !start.Intended? {
        return start;
      }
      if start.again {
        phase := LookUp(start.gen, start.id, a.found, a.barrier);
      } else {
        phase := SellOnce(start.gen, start.id, a.sell, a.barrier);
      }
    }

    /** One symbol of the emergency close, under its lock. */
    method CloseSymbol(a: Answers)
      modifies this
      ensures View(Idle) == Close(old(View(Idle)), a)
    {
      var phase := ReadLive(a.partials);
      if phase.Entered? {
        phase := ConfirmIntent(phase.gen, phase.intent, phase.uncertain, a.intent);
      }
      phase := SellOrLookUp(phase, a);
      FinishClose(phase, a);
    }
  }
}
