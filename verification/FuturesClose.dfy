/**
  Write-ahead accounting of an emergency futures close
  (`_close_single_position`, `_close_single_position_impl` and
  `_flatten_without_accounting` in bot_utils/futures_exits.py), for one symbol.

  A run interleaves one closer that holds the close lock, any number of closers
  that failed to get it and only flatten, process crashes, and the rest of the
  bot.  Every effect may fail, and a failed state write may or may not have
  reached memory and disk.
 */
module FuturesClose {
  import opened Wrappers

  type Gen = nat

  type Fid = nat

  /** One managed position generation; amounts are contracts. */
  datatype Row = Row(
    gen: Gen,
    amount: real,
    pending: real,
    accountingPending: bool,
    alreadyBooked: bool,
    verifiedFlat: bool,
    cutoff: bool,
    claimConflict: bool,
    partials: bool)

  /** Progress of the closer that holds the lock; `d` is the row it read on entry. */
  datatype Phase =
    | Idle
    | Entered(d: Row)
    | Sent(d: Row, fill: Option<real>)
    | Closed(d: Row)
    | CutOff(d: Row)
    | Marked(d: Row)
    | Booked(d: Row)
    | Cleaned(d: Row)

  datatype Event =
    | OrderCalled(gen: Gen)
    | FlattenChecked(fid: Fid, gen: Gen)
    | FlattenCalled(fid: Fid, gen: Gen)
    | MarkerConfirmed(gen: Gen)
    | BookingTried(gen: Gen)
    | BookingConfirmed(gen: Gen)
    | RowRemoved(gen: Gen)

  /** A closer without the lock: the generation it looked at, and how often it has sent its order. */
  datatype Flatten = Flatten(gen: Gen, sent: nat)

  datatype State = State(
    simulation: bool,
    ram: Option<Row>,
    disk: Option<Row>,
    blocked: bool,
    phase: Phase,
    flattens: map<Fid, Flatten>,
    next: Gen,
    trace: seq<Event>)

  /** Confirmed by the store and read back; otherwise each copy may hold the new fields or not. */
  datatype Saved = Durable | Unconfirmed(inRam: bool, onDisk: bool)

  datatype OrderAnswer = Returned(reportedFill: real) | NoPosition | OrderFailed

  datatype VerifyAnswer = Flat | Remaining(left: real) | VerifyRaised

  /** What is left of the row in one copy after a removal, or the update in its place, that was not confirmed. */
  datatype Leftover = AsItWas | Flagged | Gone

  datatype Removal = Removed | Unremoved(ram: Leftover, disk: Leftover)

  datatype Action =
    | Open(amount: real, partials: bool)
    | RegistryConflict
    | Enter(partialsDurable: bool)
    | Submit(answer: OrderAnswer)
    | Verify(result: VerifyAnswer, saved: Saved)
    | FreezeCutoff(saved: Saved)
    | Mark(saved: Saved, fundingPending: bool)
    | Book(confirmed: bool)
    | CleanDashboard(done: bool, saved: Saved)
    | Remove(removal: Removal)
    | Fail
    | FlattenCheck(fid: Fid)
    | FlattenSend(fid: Fid)
    | FlattenEnd(fid: Fid)
    | Crash

  /** How often the order wrapper sends the order of one flatten. */
  const ATTEMPTS := 5

  const DUST := 0.000000000001

  function Start(simulation: bool): State {
    State(simulation, None, None, false, Idle, map[], 0, [])
  }

  function Max(a: real, b: real): real {
    if a < b then b else a
  }

  function Min(a: real, b: real): real {
    if a < b then a else b
  }

  function Abs(a: real): real {
    if a < 0.0 then -a else a
  }

  /** A row that already waits for accounting: no further order, no fresh booking. */
  predicate Waiting(r: Row) {
    r.accountingPending || r.alreadyBooked || r.verifiedFlat
  }

  predicate Holds(copy: Option<Row>, gen: Gen) {
    copy.Some? && copy.value.gen == gen
  }

  function Log(s: State, e: Event): State {
    s.(trace := s.trace + [e])
  }

  // ------------------------------------------------------------ state writes

  /** Writes reach only the generation they were meant for. */
  function Put(copy: Option<Row>, gen: Gen, change: Row -> Row): Option<Row> {
    if Holds(copy, gen) then Some(change(copy.value)) else copy
  }

  /** A write and its read-back: confirmed only if memory still holds that generation. */
  predicate Confirms(s: State, gen: Gen, saved: Saved) {
    saved.Durable? && Holds(s.ram, gen)
  }

  function Write(s: State, gen: Gen, change: Row -> Row, saved: Saved): State {
    s.(ram := if saved.Durable? || saved.inRam then Put(s.ram, gen, change) else s.ram,
       disk := if saved.Durable? || saved.onDisk then Put(s.disk, gen, change) else s.disk)
  }

  /** The new total is computed from the row the closer read, not from the copy it is written to. */
  function AddFragment(d: Row, amount: real): Row -> Row {
    (r: Row) => r.(pending := d.pending + amount)
  }

  function FlatGap(d: Row, amount: real): Row -> Row {
    (r: Row) => r.(pending := d.pending + amount, verifiedFlat := true)
  }

  function SetCutoff(): Row -> Row {
    (r: Row) => r.(cutoff := true)
  }

  function SetMarker(): Row -> Row {
    (r: Row) => r.(accountingPending := true)
  }

  function SetBooked(): Row -> Row {
    (r: Row) => r.(alreadyBooked := true)
  }

  // ------------------------------------------------------------- the closer

  function ToClose(d: Row): real {
    Max(0.0, d.amount - d.pending)
  }

  /** The fragment that the verification result proves, zero if it proves none. */
  function ProvenFragment(d: Row, fill: real, result: VerifyAnswer): real {
    match result
    case Flat => 0.0
    case Remaining(left) => if left > 0.0 then Max(0.0, Max(0.0, d.amount - left) - d.pending) else 0.0
    case VerifyRaised => Max(0.0, Min(ToClose(d), fill))
  }

  /** The order's own fill report does not explain a position that is now flat. */
  predicate FillGap(d: Row, fill: real) {
    fill > 0.0 && Abs(fill - ToClose(d)) > Max(DUST, ToClose(d) * 0.000000001)
  }

  function PersistFragment(s: State, d: Row, amount: real, saved: Saved): State {
    if amount <= 0.0 then s
    else
      var s' := Write(s, d.gen, AddFragment(d, amount), saved);
      if Confirms(s, d.gen, saved) then s' else s'.(blocked := true)
  }

  function NextEnter(s: State, partialsDurable: bool): State {
    if s.phase.Idle? && !s.blocked && s.ram.Some? && !Waiting(s.ram.value)
       && (s.ram.value.partials ==> partialsDurable && !s.ram.value.claimConflict)
    then s.(phase := Entered(s.ram.value))
    else s
  }

  function NextSubmit(s: State, answer: OrderAnswer): State {
    if !s.phase.Entered? then s else
    var d := s.phase.d;
    if s.simulation then s.(phase := Closed(d))
    else if d.amount - d.pending <= DUST || s.ram.None? || s.ram.value.claimConflict then s.(phase := Idle)
    else
      Log(s, OrderCalled(d.gen)).(phase :=
        match answer
        case Returned(fill) => Sent(d, Some(fill))
        case NoPosition => Sent(d, None)
        case OrderFailed => Idle)
  }

  function NextVerify(s: State, result: VerifyAnswer, saved: Saved): State {
    if !s.phase.Sent? then s else
    var d := s.phase.d;
    var idle := s.(phase := Idle);
    if s.phase.fill.None? then
      if result.Flat? && d.pending <= 0.0 then s.(phase := Closed(d)) else idle
    else
      var fill := s.phase.fill.value;
      if !result.Flat? then PersistFragment(idle, d, ProvenFragment(d, fill, result), saved)
      else if FillGap(d, fill) then
        Write(idle, d.gen, FlatGap(d, if fill <= ToClose(d) then fill else 0.0), saved).(blocked := true)
      else s.(phase := Closed(d))
  }

  function NextFreeze(s: State, saved: Saved): State {
    if !s.phase.Closed? then s else
    var d := s.phase.d;
    Write(s, d.gen, SetCutoff(), saved).(phase := if Confirms(s, d.gen, saved) then CutOff(d) else Idle)
  }

  function NextMark(s: State, saved: Saved, fundingPending: bool): State {
    if !s.phase.CutOff? then s else
    var d := s.phase.d;
    var s' := Write(s, d.gen, SetMarker(), saved);
    if !Confirms(s, d.gen, saved) then s'.(phase := Idle)
    else Log(s', MarkerConfirmed(d.gen)).(phase := if fundingPending then Idle else Marked(d))
  }

  function NextBook(s: State, confirmed: bool): State {
    if !s.phase.Marked? then s else
    var d := s.phase.d;
    var s' := Log(s, BookingTried(d.gen));
    if confirmed then Log(s', BookingConfirmed(d.gen)).(phase := Phase.Booked(d)) else s'.(phase := Idle)
  }

  function NextClean(s: State, done: bool, saved: Saved): State {
    if !s.phase.Booked? then s else
    var d := s.phase.d;
    if done then s.(phase := Cleaned(d)) else Write(s, d.gen, SetBooked(), saved).(phase := Idle)
  }

  function Left(copy: Option<Row>, gen: Gen, leftover: Leftover): Option<Row> {
    if !Holds(copy, gen) then copy else
    match leftover
    case AsItWas => copy
    case Flagged => Some(SetBooked()(copy.value))
    case Gone => None
  }

  /** A row with partials to be booked is only flagged, and a copy that the update does not reach stays as it was. */
  function Flagging(leftover: Leftover): Leftover {
    if leftover.AsItWas? then AsItWas else Flagged
  }

  function NextRemove(s: State, removal: Removal): State {
    if !s.phase.Cleaned? then s else
    var d := s.phase.d;
    var s' := s.(phase := Idle);
    if Holds(s.ram, d.gen) && s.ram.value.partials then
      match removal
      case Removed => s'.(ram := Left(s.ram, d.gen, Flagged), disk := Left(s.disk, d.gen, Flagged))
      case Unremoved(ram, disk) =>
        s'.(ram := Left(s.ram, d.gen, Flagging(ram)), disk := Left(s.disk, d.gen, Flagging(disk)))
    else match removal
      case Removed => Log(s'.(ram := Left(s.ram, d.gen, Gone), disk := Left(s.disk, d.gen, Gone)), RowRemoved(d.gen))
      case Unremoved(ram, disk) => s'.(ram := Left(s.ram, d.gen, ram), disk := Left(s.disk, d.gen, disk))
  }

  // ---------------------------------------------------- everything else that runs

  function NextOpen(s: State, amount: real, partials: bool): State {
    if s.ram.Some? || amount <= 0.0 then s else
    var row := Row(s.next, amount, 0.0, false, false, false, false, false, partials);
    s.(ram := Some(row), disk := Some(row), next := s.next + 1)
  }

  /** The registry guard hands out a copy of the row; the flags are read from that copy. */
  function NextFlattenCheck(s: State, fid: Fid): State {
    if s.simulation || s.blocked || fid in s.flattens || s.ram.None? || s.ram.value.claimConflict
        || Waiting(s.ram.value)
    then s
    else Log(s, FlattenChecked(fid, s.ram.value.gen)).(flattens := s.flattens[fid := Flatten(s.ram.value.gen, 0)])
  }

  /** One attempt of the order wrapper; the row is not looked at again. */
  function NextFlattenSend(s: State, fid: Fid): State {
    if fid !in s.flattens || s.flattens[fid].sent >= ATTEMPTS then s
    else
      var f := s.flattens[fid];
      Log(s, FlattenCalled(fid, f.gen)).(flattens := s.flattens[fid := Flatten(f.gen, f.sent + 1)])
  }

  function NextFlattenEnd(s: State, fid: Fid): State {
    s.(flattens := s.flattens - {fid})
  }

  function Next(s: State, a: Action): State {
    match a
    case Open(amount, partials) => NextOpen(s, amount, partials)
    case RegistryConflict => if s.ram.Some? then s.(ram := Some(s.ram.value.(claimConflict := true))) else s
    case Enter(partialsDurable) => NextEnter(s, partialsDurable)
    case Submit(answer) => NextSubmit(s, answer)
    case Verify(result, saved) => NextVerify(s, result, saved)
    case FreezeCutoff(saved) => NextFreeze(s, saved)
    case Mark(saved, fundingPending) => NextMark(s, saved, fundingPending)
    case Book(confirmed) => NextBook(s, confirmed)
    case CleanDashboard(done, saved) => NextClean(s, done, saved)
    case Remove(removal) => NextRemove(s, removal)
    case Fail => s.(phase := Idle)
    case FlattenCheck(fid) => NextFlattenCheck(s, fid)
    case FlattenSend(fid) => NextFlattenSend(s, fid)
    case FlattenEnd(fid) => NextFlattenEnd(s, fid)
    case Crash => s.(ram := s.disk, blocked := false, phase := Idle, flattens := map[])
  }

  function Run(s: State, actions: seq<Action>): State {
    if actions == [] then s else Next(Run(s, actions[..|actions| - 1]), actions[|actions| - 1])
  }

  // ------------------------------------------------------ write-ahead safety

  /** Whether `e` may come next after `past`. */
  ghost predicate Admissible(past: seq<Event>, e: Event) {
    match e
    case OrderCalled(g) => MarkerConfirmed(g) !in past
    case FlattenChecked(_, g) => MarkerConfirmed(g) !in past
    case FlattenCalled(f, g) => FlattenChecked(f, g) in past
    case MarkerConfirmed(g) => MarkerConfirmed(g) !in past && BookingTried(g) !in past
    case BookingTried(g) => MarkerConfirmed(g) in past && BookingTried(g) !in past
    case BookingConfirmed(g) => BookingTried(g) in past && BookingConfirmed(g) !in past
    case RowRemoved(g) => BookingConfirmed(g) in past
  }

  /** Every event was admissible when it happened; a crash merely ends a prefix. */
  ghost predicate WriteAhead(trace: seq<Event>) {
    forall i :: 0 <= i < |trace| ==> Admissible(trace[..i], trace[i])
  }

  /** A confirmed marker is never lost from a copy that still holds the generation. */
  ghost predicate MarkersHold(s: State) {
    forall g: Gen :: MarkerConfirmed(g) in s.trace ==>
      && (Holds(s.ram, g) ==> Waiting(s.ram.value))
      && (Holds(s.disk, g) ==> Waiting(s.disk.value))
  }

  /** A position that was opened and not booked is in memory and on disk. */
  ghost predicate NothingUnbookedIsLost(s: State) {
    forall g: Gen :: g < s.next && BookingConfirmed(g) !in s.trace ==> Holds(s.ram, g) && Holds(s.disk, g)
  }

  ghost predicate PhaseFits(s: State) {
    match s.phase
    case Idle => true
    case Entered(d) => Unmarked(s, d.gen)
    case Sent(d, _) => Unmarked(s, d.gen)
    case Closed(d) => Unmarked(s, d.gen)
    case CutOff(d) => Unmarked(s, d.gen)
    case Marked(d) => MarkerConfirmed(d.gen) in s.trace && BookingTried(d.gen) !in s.trace
        && BookingConfirmed(d.gen) !in s.trace
    case Booked(d) => BookingConfirmed(d.gen) in s.trace
    case Cleaned(d) => BookingConfirmed(d.gen) in s.trace
  }

  ghost predicate Unmarked(s: State, g: Gen) {
    MarkerConfirmed(g) !in s.trace && BookingTried(g) !in s.trace && BookingConfirmed(g) !in s.trace
  }

  /** Booking follows marking, flattening follows checking, and generations are numbered as they open. */
  ghost predicate HistoryFits(s: State) {
    && (forall g: Gen :: BookingConfirmed(g) in s.trace ==> BookingTried(g) in s.trace)
    && (forall g: Gen :: BookingTried(g) in s.trace ==> MarkerConfirmed(g) in s.trace)
    && (forall g: Gen :: MarkerConfirmed(g) in s.trace ==> g < s.next)
    && (forall f :: f in s.flattens ==> FlattenChecked(f, s.flattens[f].gen) in s.trace)
    && (s.ram.Some? ==> s.ram.value.gen < s.next)
    && (s.disk.Some? ==> s.disk.value.gen < s.next)
  }

  ghost predicate Inv(s: State) {
    && WriteAhead(s.trace)
    && MarkersHold(s)
    && NothingUnbookedIsLost(s)
    && PhaseFits(s)
    && HistoryFits(s)
    && (s.blocked ==> s.phase.Idle?)
  }

  lemma LogKeepsWriteAhead(trace: seq<Event>, e: Event)
    requires WriteAhead(trace) && Admissible(trace, e)
    ensures WriteAhead(trace + [e])
  {
    var longer := trace + [e];
    forall i | 0 <= i < |longer| ensures Admissible(longer[..i], longer[i]) {
      if i < |trace| {
        assert longer[..i] == trace[..i];
      } else {
        assert longer[..i] == trace;
      }
    }
  }

  /** The same generation is held, and if it was waiting it still is. */
  predicate Carries(before: Option<Row>, after: Option<Row>) {
    && before.Some? == after.Some?
    && (before.Some? ==> before.value.gen == after.value.gen && (Waiting(before.value) ==> Waiting(after.value)))
  }

  predicate SameHistory(s: State, s': State) {
    s'.trace == s.trace && s'.next == s.next && s'.flattens == s.flattens
  }

  /** A step that records nothing and only writes fields into the rows. */
  lemma QuietStepKeepsInv(s: State, s': State)
    requires Inv(s) && SameHistory(s, s') && Carries(s.ram, s'.ram) && Carries(s.disk, s'.disk)
    requires PhaseFits(s') && (s'.blocked ==> s'.phase.Idle?)
    ensures Inv(s')
  {
    assert forall g: Gen :: Holds(s'.ram, g) <==> Holds(s.ram, g);
    assert forall g: Gen :: Holds(s'.disk, g) <==> Holds(s.disk, g);
  }

  /** A step that records one event and changes neither rows nor generations. */
  lemma LoggedStepKeepsInv(s: State, s': State, e: Event)
    requires Inv(s) && s'.trace == s.trace + [e] && Admissible(s.trace, e)
    requires s'.next == s.next && s'.ram == s.ram && s'.disk == s.disk
    requires !e.MarkerConfirmed? && (e.BookingTried? ==> MarkerConfirmed(e.gen) in s.trace)
    requires e.BookingConfirmed? ==> BookingTried(e.gen) in s.trace
    requires forall f :: f in s'.flattens ==> FlattenChecked(f, s'.flattens[f].gen) in s'.trace
    requires PhaseFits(s') && (s'.blocked ==> s'.phase.Idle?)
    ensures Inv(s')
  {
    LogKeepsWriteAhead(s.trace, e);
    Longer(s.trace, e);
    LoggedStepKeepsHistory(s, s', e);
  }

  lemma Longer(trace: seq<Event>, e: Event)
    ensures forall x :: x in trace + [e] <==> x in trace || x == e
  {
  }

  lemma LoggedStepKeepsHistory(s: State, s': State, e: Event)
    requires HistoryFits(s) && MarkersHold(s) && s'.trace == s.trace + [e]
    requires s'.next == s.next && s'.ram == s.ram && s'.disk == s.disk
    requires !e.MarkerConfirmed? && (e.BookingTried? ==> MarkerConfirmed(e.gen) in s.trace)
    requires e.BookingConfirmed? ==> BookingTried(e.gen) in s.trace
    requires forall f :: f in s'.flattens ==> FlattenChecked(f, s'.flattens[f].gen) in s'.trace
    ensures HistoryFits(s') && MarkersHold(s')
  {
    Longer(s.trace, e);
  }

  lemma WriteCarries(s: State, gen: Gen, change: Row -> Row, saved: Saved)
    requires forall r: Row :: change(r).gen == r.gen && (Waiting(r) ==> Waiting(change(r)))
    ensures var s' := Write(s, gen, change, saved);
            && Carries(s.ram, s'.ram) && Carries(s.disk, s'.disk) && SameHistory(s, s')
            && s'.phase == s.phase && s'.blocked == s.blocked
  {
  }

  lemma PersistKeepsInv(s: State, d: Row, amount: real, saved: Saved)
    requires Inv(s) && s.phase.Idle?
    ensures Inv(PersistFragment(s, d, amount, saved))
  {
    WriteCarries(s, d.gen, AddFragment(d, amount), saved);
    QuietStepKeepsInv(s, PersistFragment(s, d, amount, saved));
  }

  lemma GapKeepsInv(s: State, d: Row, amount: real, saved: Saved)
    requires Inv(s) && s.phase.Idle?
    ensures Inv(Write(s, d.gen, FlatGap(d, amount), saved).(blocked := true))
  {
    WriteCarries(s, d.gen, FlatGap(d, amount), saved);
    QuietStepKeepsInv(s, Write(s, d.gen, FlatGap(d, amount), saved).(blocked := true));
  }

  lemma VerifyKeepsInv(s: State, result: VerifyAnswer, saved: Saved)
    requires Inv(s) && s.phase.Sent?
    ensures Inv(NextVerify(s, result, saved))
  {
    var d, idle := s.phase.d, s.(phase := Idle);
    QuietStepKeepsInv(s, idle);
    QuietStepKeepsInv(s, s.(phase := Closed(d)));
    if s.phase.fill.Some? {
      var fill := s.phase.fill.value;
      if !result.Flat? {
        PersistKeepsInv(idle, d, ProvenFragment(d, fill, result), saved);
      } else {
        GapKeepsInv(idle, d, if fill <= ToClose(d) then fill else 0.0, saved);
      }
    }
  }

  lemma FreezeKeepsInv(s: State, saved: Saved)
    requires Inv(s) && s.phase.Closed?
    ensures Inv(NextFreeze(s, saved))
  {
    WriteCarries(s, s.phase.d.gen, SetCutoff(), saved);
    QuietStepKeepsInv(s, NextFreeze(s, saved));
  }

  lemma MarkKeepsInv(s: State, saved: Saved, fundingPending: bool)
    requires Inv(s) && s.phase.CutOff?
    ensures Inv(NextMark(s, saved, fundingPending))
  {
    var g := s.phase.d.gen;
    WriteCarries(s, g, SetMarker(), saved);
    var s1 := Write(s, g, SetMarker(), saved);
    var s' := NextMark(s, saved, fundingPending);
    if Confirms(s, g, saved) {
      LogKeepsWriteAhead(s.trace, MarkerConfirmed(g));
      assert forall x :: x in s'.trace <==> x in s.trace || x == MarkerConfirmed(g);
      assert forall h: Gen :: Holds(s'.ram, h) <==> Holds(s.ram, h);
      assert forall h: Gen :: Holds(s'.disk, h) <==> Holds(s.disk, h);
    } else {
      QuietStepKeepsInv(s, s');
    }
  }

  lemma BookKeepsInv(s: State, confirmed: bool)
    requires Inv(s) && s.phase.Marked?
    ensures Inv(NextBook(s, confirmed))
  {
    var d := s.phase.d;
    var tried := Log(s, BookingTried(d.gen)).(phase := Idle);
    LoggedStepKeepsInv(s, tried, BookingTried(d.gen));
    if confirmed {
      LoggedStepKeepsInv(tried, NextBook(s, true), BookingConfirmed(d.gen));
    }
  }

  lemma CleanKeepsInv(s: State, done: bool, saved: Saved)
    requires Inv(s) && s.phase.Booked?
    ensures Inv(NextClean(s, done, saved))
  {
    WriteCarries(s, s.phase.d.gen, SetBooked(), saved);
    QuietStepKeepsInv(s, NextClean(s, done, saved));
  }

  lemma LeftIsBounded(before: Option<Row>, after: Option<Row>, g: Gen)
    requires exists leftover :: after == Left(before, g, leftover)
    ensures forall h: Gen :: Holds(after, h) ==> Holds(before, h) && (Waiting(before.value) ==> Waiting(after.value))
    ensures forall h: Gen :: h != g && Holds(before, h) ==> Holds(after, h)
  {
  }

  /** Whatever the removal's outcome, each copy keeps some leftover. */
  lemma RemovalLeaves(s: State, removal: Removal) returns (ram: Leftover, disk: Leftover, trace: seq<Event>)
    requires s.phase.Cleaned?
    ensures var g := s.phase.d.gen;
            && NextRemove(s, removal)
               == s.(phase := Idle, ram := Left(s.ram, g, ram), disk := Left(s.disk, g, disk), trace := trace)
            && (trace == s.trace || trace == s.trace + [RowRemoved(g)])
  {
    trace := NextRemove(s, removal).trace;
    if Holds(s.ram, s.phase.d.gen) && s.ram.value.partials {
      ram := if removal.Removed? then Flagged else Flagging(removal.ram);
      disk := if removal.Removed? then Flagged else Flagging(removal.disk);
    } else {
      ram := if removal.Removed? then Gone else removal.ram;
      disk := if removal.Removed? then Gone else removal.disk;
    }
  }

  /** Taking a booked generation out of a copy, or leaving it in some form, endangers nothing. */
  lemma RemoveKeepsInv(s: State, removal: Removal)
    requires Inv(s) && s.phase.Cleaned?
    ensures Inv(NextRemove(s, removal))
  {
    var g := s.phase.d.gen;
    var s' := NextRemove(s, removal);
    var ram, disk, trace := RemovalLeaves(s, removal);
    LeftIsBounded(s.ram, s'.ram, g);
    LeftIsBounded(s.disk, s'.disk, g);
    if s'.trace != s.trace {
      LogKeepsWriteAhead(s.trace, RowRemoved(g));
      assert forall x :: x in s'.trace <==> x in s.trace || x == RowRemoved(g);
    }
  }

  lemma OpenKeepsInv(s: State, amount: real, partials: bool)
    requires Inv(s)
    ensures Inv(NextOpen(s, amount, partials))
  {
    var s' := NextOpen(s, amount, partials);
    if s' != s {
      forall g: Gen | g < s'.next && BookingConfirmed(g) !in s'.trace ensures Holds(s'.ram, g) && Holds(s'.disk, g) {
        assert g < s.next ==> Holds(s.ram, g);
      }
      assert MarkersHold(s');
    }
  }

  lemma SubmitKeepsInv(s: State, answer: OrderAnswer)
    requires Inv(s) && s.phase.Entered?
    ensures Inv(NextSubmit(s, answer))
  {
    var s' := NextSubmit(s, answer);
    if s'.trace == s.trace {
      QuietStepKeepsInv(s, s');
    } else {
      assert forall x :: x in s'.trace ==> x in s.trace || x == OrderCalled(s.phase.d.gen);
      LoggedStepKeepsInv(s, s', OrderCalled(s.phase.d.gen));
    }
  }

  lemma FlattenCheckKeepsInv(s: State, fid: Fid)
    requires Inv(s)
    ensures Inv(NextFlattenCheck(s, fid))
  {
    var s' := NextFlattenCheck(s, fid);
    if s' != s {
      var e := FlattenChecked(fid, s.ram.value.gen);
      assert forall x :: x in s'.trace <==> x in s.trace || x == e;
      LoggedStepKeepsInv(s, s', e);
    }
  }

  lemma FlattenSendKeepsInv(s: State, fid: Fid)
    requires Inv(s)
    ensures Inv(NextFlattenSend(s, fid))
  {
    var s' := NextFlattenSend(s, fid);
    if s' != s {
      var e := FlattenCalled(fid, s.flattens[fid].gen);
      assert forall x :: x in s'.trace <==> x in s.trace || x == e;
      LoggedStepKeepsInv(s, s', e);
    }
  }

  lemma FlattenEndKeepsInv(s: State, fid: Fid)
    requires Inv(s)
    ensures Inv(NextFlattenEnd(s, fid))
  {
  }

  lemma CrashKeepsInv(s: State)
    requires Inv(s)
    ensures Inv(Next(s, Crash))
  {
  }

  lemma EnterKeepsInv(s: State, partialsDurable: bool)
    requires Inv(s)
    ensures Inv(NextEnter(s, partialsDurable))
  {
    var s' := NextEnter(s, partialsDurable);
    if s' != s {
      assert Holds(s.ram, s.ram.value.gen);
      QuietStepKeepsInv(s, s');
    }
  }

  lemma StepKeepsInv(s: State, a: Action)
    requires Inv(s)
    ensures Inv(Next(s, a))
  {
    match a
    case Open(amount, partials) => OpenKeepsInv(s, amount, partials);
    case RegistryConflict => QuietStepKeepsInv(s, Next(s, a));
    case Enter(partialsDurable) => EnterKeepsInv(s, partialsDurable);
    case Submit(answer) => if s.phase.Entered? { SubmitKeepsInv(s, answer); }
    case Verify(result, saved) => if s.phase.Sent? { VerifyKeepsInv(s, result, saved); }
    case FreezeCutoff(saved) => if s.phase.Closed? { FreezeKeepsInv(s, saved); }
    case Mark(saved, fundingPending) => if s.phase.CutOff? { MarkKeepsInv(s, saved, fundingPending); }
    case Book(confirmed) => if s.phase.Marked? { BookKeepsInv(s, confirmed); }
    case CleanDashboard(done, saved) => if s.phase.Booked? { CleanKeepsInv(s, done, saved); }
    case Remove(removal) => if s.phase.Cleaned? { RemoveKeepsInv(s, removal); }
    case Fail => QuietStepKeepsInv(s, Next(s, a));
    case FlattenCheck(fid) => FlattenCheckKeepsInv(s, fid);
    case FlattenSend(fid) => FlattenSendKeepsInv(s, fid);
    case FlattenEnd(fid) => FlattenEndKeepsInv(s, fid);
    case Crash => CrashKeepsInv(s);
  }

  lemma {:induction false} RunKeepsInv(s: State, actions: seq<Action>)
    requires Inv(s)
    ensures Inv(Run(s, actions))
  {
    if actions != [] {
      RunKeepsInv(s, actions[..|actions| - 1]);
      StepKeepsInv(Run(s, actions[..|actions| - 1]), actions[|actions| - 1]);
    }
  }

  // ------------------------------------------------------------ main results

  /**
    In every run, whatever fails and wherever the process dies: the DB is asked
    to book a close only after its marker was confirmed durable, and only once; a
    row is removed only after that booking was confirmed; and the closer that
    holds the lock calls no order for a generation whose marker is confirmed.
   */
  lemma AccountingIsWriteAhead(simulation: bool, actions: seq<Action>)
    ensures var t := Run(Start(simulation), actions).trace;
            && (forall i, g: Gen :: 0 <= i < |t| && t[i] == BookingTried(g) ==>
                  MarkerConfirmed(g) in t[..i] && BookingTried(g) !in t[..i])
            && (forall i, g: Gen :: 0 <= i < |t| && t[i] == RowRemoved(g) ==> BookingConfirmed(g) in t[..i])
            && (forall i, g: Gen :: 0 <= i < |t| && t[i] == OrderCalled(g) ==> MarkerConfirmed(g) !in t[..i])
  {
    RunKeepsInv(Start(simulation), actions);
    var t := Run(Start(simulation), actions).trace;
    assert forall i :: 0 <= i < |t| ==> Admissible(t[..i], t[i]);
  }

  /** In every run, crashes included, a position that was opened is in memory and on disk until it is booked. */
  lemma UnbookedPositionsSurvive(simulation: bool, actions: seq<Action>, g: Gen)
    ensures var s := Run(Start(simulation), actions);
            g < s.next && BookingConfirmed(g) !in s.trace ==> Holds(s.ram, g) && Holds(s.disk, g)
  {
    RunKeepsInv(Start(simulation), actions);
  }

  predicate LateAt(t: seq<Event>, i: nat, f: Fid, g: Gen) {
    i < |t| && t[i] in {OrderCalled(g), FlattenCalled(f, g)} && MarkerConfirmed(g) in t[..i]
  }

  /** An order was called for a generation whose marker had been confirmed. */
  ghost predicate OrderAfterMarker(t: seq<Event>) {
    exists i: nat, f: Fid, g: Gen :: LateAt(t, i, f, g)
  }

  predicate OvertakenAt(t: seq<Event>, i: nat, j: nat, k: nat, f: Fid, g: Gen) {
    k < j < i < |t| && t[k] == FlattenChecked(f, g) && t[j] == MarkerConfirmed(g) && t[i] == FlattenCalled(f, g)
  }

  /** A marker was confirmed between a flattening closer's look at the row and its order. */
  ghost predicate Overtaken(t: seq<Event>) {
    exists i: nat, j: nat, k: nat, f: Fid, g: Gen :: OvertakenAt(t, i, j, k, f, g)
  }

  lemma LateIsOvertaken(t: seq<Event>, i: nat, f: Fid, g: Gen)
    requires WriteAhead(t) && LateAt(t, i, f, g)
    ensures Overtaken(t)
  {
    assert Admissible(t[..i], t[i]);
    assert t[i] == FlattenCalled(f, g);
    var j: nat :| j < i && t[..i][j] == MarkerConfirmed(g);
    var k: nat :| k < i && t[..i][k] == FlattenChecked(f, g);
    assert t[j] == MarkerConfirmed(g) && t[k] == FlattenChecked(f, g);
    assert Admissible(t[..k], t[k]);
    if j < k {
      InPrefix(t, k, j);
    }
    assert OvertakenAt(t, i, j, k, f, g);
  }

  lemma InPrefix(t: seq<Event>, k: nat, j: nat)
    requires j < k <= |t|
    ensures t[j] in t[..k]
  {
    assert t[..k][j] == t[j];
  }

  /**
    No retry calls another order once the marker is confirmed, with one
    exception: a closer without the lock that had already read the unmarked row.
   */
  lemma OnlyAnOvertakenFlattenOrdersLate(simulation: bool, actions: seq<Action>)
    ensures var t := Run(Start(simulation), actions).trace; OrderAfterMarker(t) <==> Overtaken(t)
  {
    RunKeepsInv(Start(simulation), actions);
    LateIffOvertaken(Run(Start(simulation), actions).trace);
  }

  lemma LateIffOvertaken(t: seq<Event>)
    requires WriteAhead(t)
    ensures OrderAfterMarker(t) <==> Overtaken(t)
  {
    if OrderAfterMarker(t) {
      var i: nat, f: Fid, g: Gen :| LateAt(t, i, f, g);
      LateIsOvertaken(t, i, f, g);
    }
    if Overtaken(t) {
      var i: nat, j: nat, k: nat, f: Fid, g: Gen :| OvertakenAt(t, i, j, k, f, g);
      assert t[..i][j] == MarkerConfirmed(g);
      assert LateAt(t, i, f, g);
    }
  }

  /** The state in which one closer has sent its order and another the first attempt of its own. */
  function BothAtWork(): State {
    var row := Row(0, 1.0, 0.0, false, false, false, false, false, false);
    State(false, Some(row), Some(row), false, Sent(row, Some(1.0)), map[0 := Flatten(0, 1)], 1,
          [FlattenChecked(0, 0), FlattenCalled(0, 0), OrderCalled(0)])
  }

  /** One more action of a script. */
  lemma RunThen(s: State, script: seq<Action>, n: nat, before: State)
    requires n < |script| && Run(s, script[..n]) == before
    ensures Run(s, script[..n + 1]) == Next(before, script[n])
  {
    assert script[..n + 1][..n] == script[..n];
  }

  function ToWork(): seq<Action> {
    [Open(1.0, false), FlattenCheck(0), FlattenSend(0), Enter(true), Submit(Returned(1.0))]
  }

  /** The state after the first attempt of the other closer. */
  function OneAtWork(): State {
    var row := Row(0, 1.0, 0.0, false, false, false, false, false, false);
    State(false, Some(row), Some(row), false, Idle, map[0 := Flatten(0, 1)], 1,
          [FlattenChecked(0, 0), FlattenCalled(0, 0)])
  }

  lemma OneCanBeAtWork()
    ensures Run(Start(false), ToWork()[..3]) == OneAtWork()
  {
    var script, s0 := ToWork(), Start(false);
    RunThen(s0, script, 0, s0);
    var s1 := Next(s0, script[0]);
    RunThen(s0, script, 1, s1);
    RunThen(s0, script, 2, Next(s1, script[1]));
  }

  lemma BothCanBeAtWork()
    ensures Run(Start(false), ToWork()) == BothAtWork()
  {
    var script := ToWork();
    OneCanBeAtWork();
    RunThen(Start(false), script, 3, OneAtWork());
    RunThen(Start(false), script, 4, Next(OneAtWork(), script[3]));
    assert script[..5] == script;
  }

  function ToMarkAndRetry(): seq<Action> {
    [Verify(Flat, Durable), FreezeCutoff(Durable), Mark(Durable, false), FlattenSend(0)]
  }

  lemma MarkerThenOrder()
    ensures Run(BothAtWork(), ToMarkAndRetry()).trace
         == [FlattenChecked(0, 0), FlattenCalled(0, 0), OrderCalled(0), MarkerConfirmed(0), FlattenCalled(0, 0)]
  {
    var script, s0 := ToMarkAndRetry(), BothAtWork();
    RunThen(s0, script, 0, s0);
    var s1 := Next(s0, script[0]);
    RunThen(s0, script, 1, s1);
    var s2 := Next(s1, script[1]);
    RunThen(s0, script, 2, s2);
    RunThen(s0, script, 3, Next(s2, script[2]));
    assert script[..4] == script;
  }

  /** That exception happens: the lock-holder verifies and marks between two attempts of the other closer. */
  lemma AFlattenCanBeOvertaken()
    ensures OrderAfterMarker(Run(Start(false), ToWork() + ToMarkAndRetry()).trace)
  {
    BothCanBeAtWork();
    MarkerThenOrder();
    RunConcat(Start(false), ToWork(), ToMarkAndRetry());
    var t := Run(Start(false), ToWork() + ToMarkAndRetry()).trace;
    assert OvertakenAt(t, 4, 3, 0, 0, 0);
    OnlyAnOvertakenFlattenOrdersLate(false, ToWork() + ToMarkAndRetry());
  }

  lemma {:induction false} RunConcat(s: State, first: seq<Action>, second: seq<Action>)
    ensures Run(s, first + second) == Run(Run(s, first), second)
  {
    if second == [] {
      assert first + second == first;
    } else {
      var init, last := second[..|second| - 1], second[|second| - 1];
      RunConcat(s, first, init);
      assert first + second == (first + init) + [last];
      RunAppends(s, first + init, last);
    }
  }

  lemma RunAppends(s: State, actions: seq<Action>, a: Action)
    ensures Run(s, actions + [a]) == Next(Run(s, actions), a)
  {
    assert (actions + [a])[..|actions|] == actions;
  }

  /**
    Once blocked, a symbol stays blocked until the process dies, and nothing
    but a flatten already checked happens to it.
   */
  lemma BlockedStopsTheCloser(s: State, a: Action)
    requires Inv(s) && s.blocked && !a.Crash?
    ensures var s' := Next(s, a);
            && s'.blocked
            && (s'.trace == s.trace ||
                exists f :: f in s.flattens && s'.trace == s.trace + [FlattenCalled(f, s.flattens[f].gen)])
  {
    if a.FlattenSend? && a.fid in s.flattens && Next(s, a) != s {
      assert Next(s, a).trace == s.trace + [FlattenCalled(a.fid, s.flattens[a.fid].gen)];
    }
  }

  // ------------------------------------------------------------- quantities

  predicate SizedRow(r: Row) {
    0.0 <= r.pending <= r.amount
  }

  predicate SizedCopy(copy: Option<Row>) {
    copy.Some? ==> SizedRow(copy.value)
  }

  predicate Reading(phase: Phase, gen: Gen, amount: real) {
    !phase.Idle? && phase.d.gen == gen ==> phase.d.amount == amount
  }

  /** Recorded fragments never exceed the position, in any copy; all copies agree on its amount. */
  predicate Sized(s: State) {
    && SizedCopy(s.ram) && SizedCopy(s.disk)
    && (!s.phase.Idle? ==> SizedRow(s.phase.d) && s.phase.d.gen < s.next)
    && (s.ram.Some? ==> s.ram.value.gen < s.next && Reading(s.phase, s.ram.value.gen, s.ram.value.amount))
    && (s.disk.Some? ==> s.disk.value.gen < s.next && Reading(s.phase, s.disk.value.gen, s.disk.value.amount))
    && (s.ram.Some? && s.disk.Some? && s.ram.value.gen == s.disk.value.gen ==>
        s.ram.value.amount == s.disk.value.amount)
  }

  lemma ProvenFragmentFits(d: Row, fill: real, result: VerifyAnswer)
    requires SizedRow(d)
    ensures 0.0 <= ProvenFragment(d, fill, result) <= d.amount - d.pending
  {
  }

  lemma WriteKeepsSized(s: State, d: Row, change: Row -> Row, saved: Saved)
    requires Sized(s) && !s.phase.Idle? && s.phase.d == d
    requires forall r: Row :: SizedRow(r) && r.amount == d.amount ==> SizedRow(change(r))
    requires forall r: Row :: change(r).gen == r.gen && change(r).amount == r.amount
    ensures Sized(Write(s, d.gen, change, saved))
  {
  }

  lemma FragmentStepKeepsSized(s: State, amount: real, flat: bool, saved: Saved)
    requires Sized(s) && !s.phase.Idle? && 0.0 <= amount <= s.phase.d.amount - s.phase.d.pending
    ensures var d := s.phase.d; Sized(Write(s, d.gen, if flat then FlatGap(d, amount) else AddFragment(d, amount),
        saved))
  {
    WriteKeepsSized(s, s.phase.d, if flat then FlatGap(s.phase.d, amount) else AddFragment(s.phase.d, amount), saved);
  }

  predicate SameSize(before: Option<Row>, after: Option<Row>) {
    after.Some? ==> before.Some? && after.value.gen == before.value.gen
                    && after.value.amount == before.value.amount && after.value.pending == before.value.pending
  }

  /** Steps that change neither amounts nor fragments, at most drop a row and go on with the same one. */
  lemma SameSizesStaySized(s: State, s': State)
    requires Sized(s) && SameSize(s.ram, s'.ram) && SameSize(s.disk, s'.disk) && s'.next == s.next
    requires s'.phase.Idle? || (!s.phase.Idle? && s'.phase.d == s.phase.d)
    ensures Sized(s')
  {
  }

  lemma PersistKeepsSized(s: State, amount: real, saved: Saved)
    requires Sized(s) && !s.phase.Idle? && 0.0 <= amount <= s.phase.d.amount - s.phase.d.pending
    ensures Sized(PersistFragment(s.(phase := Idle), s.phase.d, amount, saved))
  {
    FragmentStepKeepsSized(s, amount, false, saved);
    SameSizesStaySized(Write(s, s.phase.d.gen, AddFragment(s.phase.d, amount), saved),
                       Write(s, s.phase.d.gen, AddFragment(s.phase.d, amount), saved).(phase := Idle));
  }

  lemma GapKeepsSized(s: State, amount: real, saved: Saved)
    requires Sized(s) && !s.phase.Idle? && 0.0 <= amount <= s.phase.d.amount - s.phase.d.pending
    ensures Sized(Write(s.(phase := Idle), s.phase.d.gen, FlatGap(s.phase.d, amount), saved).(blocked := true))
  {
    FragmentStepKeepsSized(s, amount, true, saved);
    SameSizesStaySized(Write(s, s.phase.d.gen, FlatGap(s.phase.d, amount), saved),
                       Write(s, s.phase.d.gen, FlatGap(s.phase.d, amount), saved).(phase := Idle));
  }

  lemma VerifyKeepsSized(s: State, result: VerifyAnswer, saved: Saved)
    requires Sized(s) && s.phase.Sent?
    ensures Sized(NextVerify(s, result, saved))
  {
    var d := s.phase.d;
    if s.phase.fill.Some? {
      var fill := s.phase.fill.value;
      ProvenFragmentFits(d, fill, result);
      if !result.Flat? {
        PersistKeepsSized(s, ProvenFragment(d, fill, result), saved);
      } else if FillGap(d, fill) {
        GapKeepsSized(s, if fill <= ToClose(d) then fill else 0.0, saved);
      }
    }
  }

  /** Writes that leave the quantities alone. */
  lemma FieldWriteKeepsSized(s: State, gen: Gen, change: Row -> Row, saved: Saved)
    requires Sized(s)
    requires forall r: Row :: change(r).gen == r.gen && change(r).amount == r.amount && change(r).pending == r.pending
    ensures Sized(Write(s, gen, change, saved))
  {
    SameSizesStaySized(s, Write(s, gen, change, saved));
  }

  lemma PhaseMoveKeepsSized(s: State, phase: Phase, trace: seq<Event>)
    requires Sized(s) && (phase.Idle? || (!s.phase.Idle? && phase.d == s.phase.d))
    ensures Sized(s.(phase := phase)) && Sized(s.(phase := phase, trace := trace))
  {
  }

  lemma FreezeKeepsSized(s: State, saved: Saved)
    requires Sized(s) && s.phase.Closed?
    ensures Sized(NextFreeze(s, saved))
  {
    var s' := Write(s, s.phase.d.gen, SetCutoff(), saved);
    FieldWriteKeepsSized(s, s.phase.d.gen, SetCutoff(), saved);
    PhaseMoveKeepsSized(s', NextFreeze(s, saved).phase, s'.trace);
  }

  lemma MarkKeepsSized(s: State, saved: Saved, fundingPending: bool)
    requires Sized(s) && s.phase.CutOff?
    ensures Sized(NextMark(s, saved, fundingPending))
  {
    var s' := Write(s, s.phase.d.gen, SetMarker(), saved);
    FieldWriteKeepsSized(s, s.phase.d.gen, SetMarker(), saved);
    PhaseMoveKeepsSized(s', NextMark(s, saved, fundingPending).phase, NextMark(s, saved, fundingPending).trace);
  }

  lemma CleanKeepsSized(s: State, done: bool, saved: Saved)
    requires Sized(s) && s.phase.Booked?
    ensures Sized(NextClean(s, done, saved))
  {
    var s' := Write(s, s.phase.d.gen, SetBooked(), saved);
    FieldWriteKeepsSized(s, s.phase.d.gen, SetBooked(), saved);
    PhaseMoveKeepsSized(s', Idle, s'.trace);
    PhaseMoveKeepsSized(s, Cleaned(s.phase.d), s.trace);
  }

  lemma RemoveKeepsSized(s: State, removal: Removal)
    requires Sized(s) && s.phase.Cleaned?
    ensures Sized(NextRemove(s, removal))
  {
    SameSizesStaySized(s, NextRemove(s, removal));
  }

  lemma SubmitKeepsSized(s: State, answer: OrderAnswer)
    requires Sized(s) && s.phase.Entered?
    ensures Sized(NextSubmit(s, answer))
  {
    PhaseMoveKeepsSized(s, NextSubmit(s, answer).phase, NextSubmit(s, answer).trace);
  }

  lemma BookKeepsSized(s: State, confirmed: bool)
    requires Sized(s) && s.phase.Marked?
    ensures Sized(NextBook(s, confirmed))
  {
    PhaseMoveKeepsSized(s, NextBook(s, confirmed).phase, NextBook(s, confirmed).trace);
  }

  lemma OtherStepsKeepSized(s: State, a: Action)
    requires Sized(s) && (a.Open? || a.RegistryConflict? || a.Enter? || a.Fail? || a.FlattenCheck? || a.FlattenSend?
        || a.FlattenEnd? || a.Crash?)
    ensures Sized(Next(s, a))
  {
  }

  lemma StepKeepsSized(s: State, a: Action)
    requires Sized(s)
    ensures Sized(Next(s, a))
  {
    match a
    case Submit(answer) => if s.phase.Entered? { SubmitKeepsSized(s, answer); }
    case Verify(result, saved) => if s.phase.Sent? { VerifyKeepsSized(s, result, saved); }
    case FreezeCutoff(saved) => if s.phase.Closed? { FreezeKeepsSized(s, saved); }
    case Mark(saved, fundingPending) => if s.phase.CutOff? { MarkKeepsSized(s, saved, fundingPending); }
    case Book(confirmed) => if s.phase.Marked? { BookKeepsSized(s, confirmed); }
    case CleanDashboard(done, saved) => if s.phase.Booked? { CleanKeepsSized(s, done, saved); }
    case Remove(removal) => if s.phase.Cleaned? { RemoveKeepsSized(s, removal); }
    case _ => OtherStepsKeepSized(s, a);
  }

  lemma {:induction false} FragmentsNeverExceedThePosition(simulation: bool, actions: seq<Action>)
    ensures Sized(Run(Start(simulation), actions))
  {
    if actions != [] {
      FragmentsNeverExceedThePosition(simulation, actions[..|actions| - 1]);
      StepKeepsSized(Run(Start(simulation), actions[..|actions| - 1]), actions[|actions| - 1]);
    }
  }

  lemma RemainderIsTheFragment(d: Row, fill: real, left: real)
    requires SizedRow(d) && 0.0 < left <= d.amount - d.pending
    ensures d.pending + ProvenFragment(d, fill, Remaining(left)) == d.amount - left
  {
  }

  /** After a partial close that was verified and saved, the fragments are what the venue no longer holds. */
  lemma FragmentsMatchTheVenue(s: State, left: real)
    requires Sized(s) && s.phase.Sent? && s.phase.fill.Some? && s.ram == Some(s.phase.d)
    requires 0.0 < left <= s.phase.d.amount - s.phase.d.pending
    ensures var s' := Next(s, Verify(Remaining(left), Durable));
            s'.phase.Idle? && s'.blocked == s.blocked && s'.ram == Some(s.phase.d.(pending := s.phase.d.amount - left))
  {
    var d, fill := s.phase.d, s.phase.fill.value;
    RemainderIsTheFragment(d, fill, left);
    var amount := ProvenFragment(d, fill, Remaining(left));
    if amount > 0.0 {
      assert AddFragment(d, amount)(d) == d.(pending := d.pending + amount);
    } else {
      assert d == d.(pending := d.amount - left);
    }
  }

  // -------------------------------------------- what explains a booked close

  /** The order called last, the row it was for, its answer, and what the verification after it said. */
  datatype Attempt = Attempt(d: Row, answer: OrderAnswer, verified: Option<VerifyAnswer>)

  function LastAttempt(s: State, actions: seq<Action>): Option<Attempt> {
    if actions == [] then None
    else Since(LastAttempt(s, actions[..|actions| - 1]), Run(s, actions[..|actions| - 1]), actions[|actions| - 1])
  }

  function Since(last: Option<Attempt>, s: State, a: Action): Option<Attempt> {
    if a.Submit? && s.phase.Entered? && Next(s, a).trace != s.trace then Some(Attempt(s.phase.d, a.answer, None))
    else if a.Verify? && s.phase.Sent? && last.Some? then Some(last.value.(verified := Some(a.result)))
    else last
  }

  /** How far a reported fill may be off what was still to be closed. */
  function Slack(open: real): real {
    Max(DUST, open * 0.000000001)
  }

  /**
    The venue was seen flat after the order, and the order accounts for what was
    open: its report is no fill at all, or all that was open; an order that
    found no position accounts for a position without fragments.
   */
  predicate AccountsFor(t: Attempt) {
    var open := t.d.amount - t.d.pending;
    && t.verified == Some(Flat)
    && (match t.answer
        case Returned(fill) => fill <= 0.0 || open - Slack(open) <= fill <= open + Slack(open)
        case NoPosition => t.d.pending <= 0.0
        case OrderFailed => false)
  }

  predicate AttemptFits(s: State, last: Option<Attempt>) {
    match s.phase
    case Idle => true
    case Entered(_) => true
    case Sent(d, fill) =>
      && last.Some? && last.value.d == d && !last.value.answer.OrderFailed?
      && fill == (if last.value.answer.Returned? then Some(last.value.answer.reportedFill) else None)
    case _ => last.Some? && last.value.d == s.phase.d && AccountsFor(last.value)
  }

  lemma SubmitFits(s: State, last: Option<Attempt>, answer: OrderAnswer)
    requires !s.simulation && s.phase.Entered?
    ensures AttemptFits(NextSubmit(s, answer), Since(last, s, Submit(answer)))
  {
  }

  lemma VerifyFits(s: State, last: Option<Attempt>, result: VerifyAnswer, saved: Saved)
    requires !s.simulation && s.phase.Sent? && SizedRow(s.phase.d) && AttemptFits(s, last)
    ensures AttemptFits(NextVerify(s, result, saved), Since(last, s, Verify(result, saved)))
  {
  }

  lemma StepFits(s: State, last: Option<Attempt>, a: Action)
    requires !s.simulation && Sized(s) && AttemptFits(s, last)
    ensures AttemptFits(Next(s, a), Since(last, s, a))
  {
    match a
    case Submit(answer) => if s.phase.Entered? { SubmitFits(s, last, answer); }
    case Verify(result, saved) => if s.phase.Sent? { VerifyFits(s, last, result, saved); }
    case _ => OtherStepFits(s, last, a);
  }

  lemma OtherStepFits(s: State, last: Option<Attempt>, a: Action)
    requires AttemptFits(s, last) && !a.Submit? && !a.Verify?
    ensures AttemptFits(Next(s, a), Since(last, s, a))
  {
  }

  lemma SimulationStays(s: State, a: Action)
    ensures Next(s, a).simulation == s.simulation
  {
  }

  lemma {:induction false} RunFits(actions: seq<Action>)
    ensures !Run(Start(false), actions).simulation
    ensures AttemptFits(Run(Start(false), actions), LastAttempt(Start(false), actions))
  {
    if actions != [] {
      var init, a := actions[..|actions| - 1], actions[|actions| - 1];
      RunFits(init);
      FragmentsNeverExceedThePosition(false, init);
      SimulationStays(Run(Start(false), init), a);
      StepFits(Run(Start(false), init), LastAttempt(Start(false), init), a);
    }
  }

  /**
    In every live run a close is marked, and booked, only when the position was
    seen flat after the order and that order accounts for what was open: the
    amount minus the fragments recorded before.
   */
  lemma BookedCloseIsAccountedFor(actions: seq<Action>, a: Action, g: Gen)
    requires var s := Run(Start(false), actions);
             || (MarkerConfirmed(g) !in s.trace && MarkerConfirmed(g) in Next(s, a).trace)
             || (BookingTried(g) !in s.trace && BookingTried(g) in Next(s, a).trace)
    ensures var last := LastAttempt(Start(false), actions);
            last.Some? && last.value.d.gen == g && AccountsFor(last.value)
  {
    RunFits(actions);
    OnlyTheCloserBooks(Run(Start(false), actions), a, g);
  }

  lemma OnlyTheCloserBooks(s: State, a: Action, g: Gen)
    requires (MarkerConfirmed(g) !in s.trace && MarkerConfirmed(g) in Next(s, a).trace)
          || (BookingTried(g) !in s.trace && BookingTried(g) in Next(s, a).trace)
    ensures (s.phase.CutOff? || s.phase.Marked?) && s.phase.d.gen == g
  {
  }

  /** What a copy holds after a write that reached it or not. */
  predicate Reached(before: Option<Row>, after: Option<Row>, gen: Gen, row: Row -> Row, reached: bool) {
    after == if reached && Holds(before, gen) then Some(row(before.value)) else before
  }

  /** A flat position that the order accounts for goes on to its booking, and nothing else changes. */
  lemma ExplainedFlatGoesOn(s: State, saved: Saved)
    requires s.phase.Sent? && SizedRow(s.phase.d)
    requires var open := s.phase.d.amount - s.phase.d.pending;
             match s.phase.fill
             case Some(fill) => fill <= 0.0 || open - Slack(open) <= fill <= open + Slack(open)
             case None => s.phase.d.pending <= 0.0
    ensures Next(s, Verify(Flat, saved)) == s.(phase := Closed(s.phase.d))
  {
  }

  /**
    A position that is flat although the order reported a fill that does not
    account for it: nothing is booked, the symbol is blocked, and what the store
    takes is that the row waits and that exactly the reported fill is a fragment,
    or nothing if it is more than was open.
   */
  lemma UnexplainedFlatIsBlocked(s: State, d: Row, fill: real, saved: Saved)
    requires s.phase == Sent(d, Some(fill)) && SizedRow(d)
    requires fill > 0.0
    requires var open := d.amount - d.pending; fill < open - Slack(open) || fill > open + Slack(open)
    ensures var s' := Next(s, Verify(Flat, saved));
            var fragments := d.pending + (if fill <= d.amount - d.pending then fill else 0.0);
            var row := (r: Row) => r.(pending := fragments, verifiedFlat := true);
            && s'.blocked && s'.phase.Idle? && s'.trace == s.trace
            && Reached(s.ram, s'.ram, d.gen, row, saved.Durable? || saved.inRam)
            && Reached(s.disk, s'.disk, d.gen, row, saved.Durable? || saved.onDisk)
  {
  }

  /** The fragment that a verification proves when it does not find the position flat. */
  function Proven(open: real, fill: real, result: VerifyAnswer): real {
    match result
    case Flat => 0.0
    case Remaining(left) => if 0.0 < left < open then open - left else 0.0
    case VerifyRaised => if fill <= 0.0 then 0.0 else if fill <= open then fill else open
  }

  /**
    A position that is not flat: what the venue no longer holds becomes a
    fragment, or as much of the reported fill as was open when the venue cannot
    be asked.  The row stays for a retry, and if that fragment is not confirmed
    the symbol is blocked.
   */
  lemma UnclosedIsRecorded(s: State, d: Row, fill: real, result: VerifyAnswer, saved: Saved)
    requires s.phase == Sent(d, Some(fill)) && SizedRow(d) && !result.Flat?
    ensures var s', sold := Next(s, Verify(result, saved)), Proven(d.amount - d.pending, fill, result);
            var more := (r: Row) => r.(pending := d.pending + sold);
            && s'.phase.Idle? && s'.trace == s.trace
            && Reached(s.ram, s'.ram, d.gen, more, sold > 0.0 && (saved.Durable? || saved.inRam))
            && Reached(s.disk, s'.disk, d.gen, more, sold > 0.0 && (saved.Durable? || saved.onDisk))
            && s'.blocked == (s.blocked || (sold > 0.0 && !(saved.Durable? && Holds(s.ram, d.gen))))
  {
    assert ProvenFragment(d, fill, result) == Proven(d.amount - d.pending, fill, result);
  }

  // ---------------------------------------------------------- the procedures

  /** What the venue, the store and the DB answer during one close. */
  datatype Answers = Answers(
    partialsDurable: bool,
    order: OrderAnswer,
    verify: VerifyAnswer,
    fragment: Saved,
    cutoff: Saved,
    marker: Saved,
    fundingPending: bool,
    booked: bool,
    dashboard: bool,
    flagged: Saved,
    removal: Removal)

  function CloseOnVenue(s: State, a: Answers): State {
    NextVerify(NextSubmit(NextEnter(s, a.partialsDurable), a.order), a.verify, a.fragment)
  }

  function MarkClosed(s: State, a: Answers): State {
    NextMark(NextFreeze(s, a.cutoff), a.marker, a.fundingPending)
  }

  function BookMarked(s: State, a: Answers): State {
    NextRemove(NextClean(NextBook(s, a.booked), a.dashboard, a.flagged), a.removal)
  }

  /** One whole close by the lock-holder, as steps of the machine; an early return leaves the rest without effect. */
  function Close(s: State, a: Answers): State {
    BookMarked(MarkClosed(CloseOnVenue(s, a), a), a)
  }

  function Script(a: Answers): seq<Action> {
    [Enter(a.partialsDurable), Submit(a.order), Verify(a.verify, a.fragment), FreezeCutoff(a.cutoff)]
    + [Mark(a.marker, a.fundingPending), Book(a.booked), CleanDashboard(a.dashboard, a.flagged), Remove(a.removal)]
  }

  lemma OrderingIsARun(s: State, a: Answers)
    ensures Run(s, Script(a)[..4]) == NextFreeze(CloseOnVenue(s, a), a.cutoff)
  {
    RunThen(s, Script(a), 0, s);
    var s1 := NextEnter(s, a.partialsDurable);
    RunThen(s, Script(a), 1, s1);
    var s2 := NextSubmit(s1, a.order);
    RunThen(s, Script(a), 2, s2);
    RunThen(s, Script(a), 3, NextVerify(s2, a.verify, a.fragment));
  }

  lemma BookingIsARun(s: State, a: Answers, marked: State)
    requires Run(s, Script(a)[..5]) == marked
    ensures Run(s, Script(a)) == BookMarked(marked, a)
  {
    RunThen(s, Script(a), 5, marked);
    var s6 := NextBook(marked, a.booked);
    RunThen(s, Script(a), 6, s6);
    RunThen(s, Script(a), 7, NextClean(s6, a.dashboard, a.flagged));
    assert Script(a)[..8] == Script(a);
  }

  /** So everything proved of runs holds of the procedure, cut off at any step. */
  lemma CloseIsARun(s: State, a: Answers)
    ensures Close(s, a) == Run(s, Script(a))
  {
    OrderingIsARun(s, a);
    var s4 := NextFreeze(CloseOnVenue(s, a), a.cutoff);
    RunThen(s, Script(a), 4, s4);
    BookingIsARun(s, a, NextMark(s4, a.marker, a.fundingPending));
  }

  /** The process: the managed row in memory and on disk, the blocked flag, and the effects so far. */
  class Closer {
    const simulation: bool
    var ram: Option<Row>
    var disk: Option<Row>
    var blocked: bool
    var flattens: map<Fid, Flatten>
    var next: Gen
    var trace: seq<Event>

    ghost function View(phase: Phase): State
      reads this
    {
      State(simulation, ram, disk, blocked, phase, flattens, next, trace)
    }

    constructor (simulation: bool)
      ensures View(Idle) == Start(simulation)
    {
      this.simulation := simulation;
      ram, disk, blocked, flattens, next, trace := None, None, false, map[], 0, [];
    }

    /** `update_many_if_current` followed by the read-back. */
    method Store(gen: Gen, change: Row -> Row, saved: Saved) returns (confirmed: bool)
      modifies this`ram, this`disk
      ensures View(Idle) == Write(old(View(Idle)), gen, change, saved)
      ensures confirmed <==> saved.Durable? && Holds(old(ram), gen)
      ensures Reached(old(ram), ram, gen, change, saved.Durable? || saved.inRam)
      ensures Reached(old(disk), disk, gen, change, saved.Durable? || saved.onDisk)
    {
      confirmed := saved.Durable? && Holds(ram, gen);
      if saved.Durable? || saved.inRam {
        ram := Put(ram, gen, change);
      }
      if saved.Durable? || saved.onDisk {
        disk := Put(disk, gen, change);
      }
    }

    method SaveFragment(d: Row, amount: real, saved: Saved)
      modifies this`ram, this`disk, this`blocked
      ensures View(Idle) == PersistFragment(old(View(Idle)), d, amount, saved)
      ensures amount <= 0.0 ==> ram == old(ram) && disk == old(disk) && blocked == old(blocked)
      ensures amount > 0.0 ==>
                var more := (r: Row) => r.(pending := d.pending + amount);
                && Reached(old(ram), ram, d.gen, more, saved.Durable? || saved.inRam)
                && Reached(old(disk), disk, d.gen, more, saved.Durable? || saved.onDisk)
                && blocked == (old(blocked) || !(saved.Durable? && Holds(old(ram), d.gen)))
    {
      if amount > 0.0 {
        var persisted := Store(d.gen, AddFragment(d, amount), saved);
        if !persisted {
          blocked := true;
        }
      }
    }

    method ReadLive(partialsDurable: bool) returns (phase: Phase)
      ensures View(phase) == NextEnter(old(View(Idle)), partialsDurable)
      ensures phase.Idle? || phase.Entered?
      ensures phase.Entered? <==>
                && !blocked && ram.Some?
                && !ram.value.accountingPending && !ram.value.alreadyBooked && !ram.value.verifiedFlat
                && (ram.value.partials ==> partialsDurable && !ram.value.claimConflict)
      ensures phase.Entered? ==> phase.d == ram.value
    {
      if blocked || ram.None? || Waiting(ram.value) {
        return Idle;
      }
      if ram.value.partials && (!partialsDurable || ram.value.claimConflict) {
        return Idle;
      }
      return Entered(ram.value);
    }

    method SendOrder(d: Row, answer: OrderAnswer) returns (phase: Phase)
      modifies this`trace
      ensures View(phase) == NextSubmit(old(View(Entered(d))), answer)
      ensures phase.Idle? || phase == Sent(d, if answer.Returned? then Some(answer.reportedFill) else None)
          || phase == Closed(d)
      ensures var open := ram.Some? && !ram.value.claimConflict && d.amount - d.pending > DUST;
              && (phase.Closed? <==> simulation)
              && (phase.Sent? <==> !simulation && open && !answer.OrderFailed?)
              && trace == old(trace) + (if !simulation && open then [OrderCalled(d.gen)] else [])
    {
      if simulation {
        return Closed(d);
      }
      if d.amount - d.pending <= DUST || ram.None? || ram.value.claimConflict {
        return Idle;
      }
      trace := trace + [OrderCalled(d.gen)];
      match answer
      case Returned(fill) => phase := Sent(d, Some(fill));
      case NoPosition => phase := Sent(d, None);
      case OrderFailed => phase := Idle;
    }

    method VerifyClosed(d: Row, fill: Option<real>, result: VerifyAnswer, saved: Saved) returns (flat: bool)
      modifies this`ram, this`disk, this`blocked
      ensures View(if flat then Closed(d) else Idle) == NextVerify(old(View(Sent(d, fill))), result, saved)
      ensures SizedRow(d) ==>
                var open := d.amount - d.pending;
                && (fill.None? ==> flat == (result.Flat? && d.pending <= 0.0))
                && (fill.Some? ==> flat == (result.Flat? && (fill.value <= 0.0
                                            || open - Slack(open) <= fill.value <= open + Slack(open))))
      ensures fill.Some? && result.Flat? && !flat ==> blocked
    {
      if fill.None? {
        return result.Flat? && d.pending <= 0.0;
      }
      if !result.Flat? {
        SaveFragment(d, ProvenFragment(d, fill.value, result), saved);
        return false;
      }
      if FillGap(d, fill.value) {
        var _ := Store(d.gen, FlatGap(d, if fill.value <= ToClose(d) then fill.value else 0.0), saved);
        blocked := true;
        return false;
      }
      return true;
    }

    method CloseAtVenue(a: Answers) returns (phase: Phase)
      modifies this
      ensures View(phase) == CloseOnVenue(old(View(Idle)), a)
      ensures phase.Idle? || phase.Closed?
    {
      phase := ReadLive(a.partialsDurable);
      if phase.Idle? {
        return;
      }
      var d := phase.d;
      phase := SendOrder(d, a.order);
      if phase.Sent? {
        var flat := VerifyClosed(d, phase.fill, a.verify, a.fragment);
        phase := if flat then Closed(d) else Idle;
      }
    }

    method MarkDurably(d: Row, a: Answers) returns (marked: bool)
      modifies this`ram, this`disk, this`trace
      ensures View(if marked then Marked(d) else Idle) == MarkClosed(old(View(Closed(d))), a)
      ensures var confirmed := Holds(old(ram), d.gen) && a.cutoff.Durable? && a.marker.Durable?;
              && (marked <==> confirmed && !a.fundingPending)
              && trace == old(trace) + (if confirmed then [MarkerConfirmed(d.gen)] else [])
              && (confirmed ==> ram == Some(old(ram.value).(cutoff := true, accountingPending := true)))
              && (confirmed && Holds(old(disk), d.gen) ==>
                    disk == Some(old(disk.value).(cutoff := true, accountingPending := true)))
      ensures a.cutoff.Unconfirmed? && Holds(old(ram), d.gen) ==>
                ram.value.accountingPending == old(ram.value.accountingPending)
    {
      var frozen := Store(d.gen, SetCutoff(), a.cutoff);
      if !frozen {
        return false;
      }
      var persisted := Store(d.gen, SetMarker(), a.marker);
      if !persisted {
        return false;
      }
      trace := trace + [MarkerConfirmed(d.gen)];
      return !a.fundingPending;
    }

    method BookTrade(d: Row, confirmed: bool)
      modifies this`trace
      ensures View(if confirmed then Phase.Booked(d) else Idle) == NextBook(old(View(Marked(d))), confirmed)
      ensures trace == old(trace) + [BookingTried(d.gen)] + (if confirmed then [BookingConfirmed(d.gen)] else [])
    {
      trace := trace + [BookingTried(d.gen)];
      if confirmed {
        trace := trace + [BookingConfirmed(d.gen)];
      }
    }

    method RemoveRow(d: Row, removal: Removal) returns (removed: bool)
      modifies this`ram, this`disk, this`trace
      ensures View(Idle) == NextRemove(old(View(Cleaned(d))), removal)
      ensures removed ==> RowRemoved(d.gen) in trace && !Holds(ram, d.gen) && !Holds(disk, d.gen)
      ensures removed <==> removal.Removed? && !(Holds(old(ram), d.gen) && old(ram.value.partials))
      ensures !removed && removal.Removed? ==>
                && ram == Some(old(ram.value).(alreadyBooked := true))
                && (Holds(old(disk), d.gen) ==> disk == Some(old(disk.value).(alreadyBooked := true)))
      ensures !removed ==> trace == old(trace)
    {
      if Holds(ram, d.gen) && ram.value.partials {
        match removal {
          case Removed => ram, disk := Left(ram, d.gen, Flagged), Left(disk, d.gen, Flagged);
          case Unremoved(inRam, onDisk) =>
            ram, disk := Left(ram, d.gen, Flagging(inRam)), Left(disk, d.gen, Flagging(onDisk));
        }
        return false;
      }
      match removal
      case Removed =>
        ram, disk := Left(ram, d.gen, Gone), Left(disk, d.gen, Gone);
        trace := trace + [RowRemoved(d.gen)];
        removed := true;
      case Unremoved(inRam, onDisk) =>
        ram, disk := Left(ram, d.gen, inRam), Left(disk, d.gen, onDisk);
        removed := false;
    }

    method BookAndRemove(d: Row, a: Answers) returns (removed: bool)
      modifies this`ram, this`disk, this`trace
      ensures View(Idle) == BookMarked(old(View(Marked(d))), a)
      ensures removed ==> a.booked && RowRemoved(d.gen) in trace
      ensures removed <==> a.booked && a.dashboard && a.removal.Removed?
                           && !(Holds(old(ram), d.gen) && old(ram.value.partials))
      ensures !a.booked ==> ram == old(ram) && disk == old(disk)
      ensures a.booked && !a.dashboard && a.flagged.Durable? && Holds(old(ram), d.gen) ==>
                ram == Some(old(ram.value).(alreadyBooked := true))
    {
      BookTrade(d, a.booked);
      if !a.booked {
        return false;
      }
      if !a.dashboard {
        var _ := Store(d.gen, SetBooked(), a.flagged);
        return false;
      }
      removed := RemoveRow(d, a.removal);
    }

    /** The close by the lock-holder. */
    method CloseSinglePosition(a: Answers) returns (closed: bool)
      modifies this
      ensures View(Idle) == Close(old(View(Idle)), a)
      ensures closed ==> a.booked && exists g: Gen :: RowRemoved(g) in trace
    {
      var phase := CloseAtVenue(a);
      if phase.Idle? {
        return false;
      }
      var d := phase.d;
      var marked := MarkDurably(d, a);
      if !marked {
        return false;
      }
      closed := BookAndRemove(d, a);
    }

    /** A closer without the lock: look at the row under the registry guard, then send, up to five times. */
    method FlattenWithoutAccounting(fid: Fid, attempts: nat)
      requires fid !in flattens && attempts <= ATTEMPTS
      modifies this`trace
      ensures View(Idle) == NextFlattenEnd(Sends(NextFlattenCheck(old(View(Idle)), fid), fid, attempts), fid)
      ensures simulation || blocked || ram.None? || ram.value.claimConflict || Waiting(ram.value) ==>
          trace == old(trace)
      ensures !simulation && !blocked && ram.Some? && !ram.value.claimConflict && !Waiting(ram.value) ==>
                && |trace| == |old(trace)| + 1 + attempts
                && trace[..|old(trace)| + 1] == old(trace) + [FlattenChecked(fid, ram.value.gen)]
                && forall k :: |old(trace)| < k < |trace| ==> trace[k] == FlattenCalled(fid, ram.value.gen)
    {
      ghost var before := View(Idle);
      assert before.flattens - {fid} == before.flattens;
      if simulation || blocked || ram.None? || ram.value.claimConflict || Waiting(ram.value) {
        NothingIsSent(before, fid, attempts);
        return;
      }
      var gen := ram.value.gen;
      ghost var s := NextFlattenCheck(before, fid);
      trace := trace + [FlattenChecked(fid, gen)];
      var n := 0;
      while n < attempts
        invariant 0 <= n <= attempts
        invariant View(Idle).(flattens := before.flattens[fid := Flatten(gen, n)]) == Sends(s, fid, n)
        invariant |trace| == |before.trace| + 1 + n
        invariant trace[..|before.trace| + 1] == before.trace + [FlattenChecked(fid, gen)]
        invariant forall k :: |before.trace| < k < |trace| ==> trace[k] == FlattenCalled(fid, gen)
      {
        trace := trace + [FlattenCalled(fid, gen)];
        n := n + 1;
      }
      assert before.flattens[fid := Flatten(gen, n)] - {fid} == before.flattens;
    }
  }

  /** That many attempts. */
  function Sends(s: State, fid: Fid, n: nat): State {
    if n == 0 then s else NextFlattenSend(Sends(s, fid, n - 1), fid)
  }

  lemma {:induction false} NothingIsSent(s: State, fid: Fid, n: nat)
    requires fid !in s.flattens
    ensures Sends(s, fid, n) == s
  {
    if n > 0 {
      NothingIsSent(s, fid, n - 1);
    }
  }
}
