/**
  SAFE_MODE (`SafeMode` in bot_utils/circuit_breaker.py): a sticky emergency
  state with one alert and one persisted marker of that alert.  Triggering
  threads write the marker themselves, retry timers write it later, and shutdown
  callers stop the timers, wait for the writers and may start a last write.

  Each action below is one critical section of one thread, so a run is an
  arbitrary interleaving.  A writer counts as live until the section in which it
  reports its result.
 */
module SafeMode {
  import opened Wrappers

  type Tid = nat

  type Gid = nat

  type Fid = nat

  type Cid = nat

  /** A triggering thread between its sections; a thread that is done is not listed. */
  datatype TriggerPhase =
    | Sending
    | Accepted
    | Writing
    | WriteFailed
    | Leaving
    | Retrying

  /** The thread of a retry timer; its generation carries the same number. */
  datatype TimerThread =
    | Counting(cancelled: bool)
    | Called
    | Saving
    | Ending(reschedule: bool)
    | Rescheduling
    | Dead

  datatype Generation = Generation(done: bool, startRaised: bool, thread: TimerThread)

  datatype Flush = Flush(done: bool, result: bool, alive: bool)

  /** A shutdown caller between its sections. */
  datatype CallerPhase =
    | Joining(generation: Option<Gid>, timer: Option<Gid>, workers: set<Gid>, directs: set<Tid>, cancelled: bool)
    | AwaitingWriters(directs: set<Tid>)
    | AwaitingFlush(flush: Fid)

  /** The emergency state and its alert; `inflight` names the thread that holds the source's in-flight flag. */
  datatype Alerts = Alerts(
    active: bool,
    reason: string,
    sent: bool,
    inflight: Option<Tid>,
    triggers: map<Tid, TriggerPhase>,
    accepted: nat)

  /** The retry timers: the current generation, the current timer, and every timer thread ever started. */
  datatype Timers = Timers(generation: Option<Gid>, timer: Option<Gid>, generations: map<Gid, Generation>,
      running: set<Gid>)

  datatype Flushes = Flushes(current: Option<Fid>, all: map<Fid, Flush>)

  /** Not part of the program: writes started, markers to be written, markers written, a shutdown that returned True. */
  datatype History = History(writes: nat, recorded: bool, saved: bool, settled: bool)

  datatype State = State(
    alerts: Alerts,
    timers: Timers,
    flushes: Flushes,
    pending: bool,
    shutdown: bool,
    direct: set<Tid>,
    retiring: set<Gid>,
    callers: map<Cid, CallerPhase>,
    history: History)

  /** What starting a thread may do; an error may come after the launch. */
  datatype StartResult = Started | RaisedAfterLaunch | NeverStarted | NotConstructed

  datatype Action =
    | Trigger(tid: Tid, reason: string, telegram: bool)
    | AlertAnswer(tid: Tid, ok: bool)
    | RecordAlert(tid: Tid)
    | DirectResult(tid: Tid, ok: bool)
    | TriggerRetry(tid: Tid, gid: Gid, start: StartResult)
    | TriggerLeave(tid: Tid)
    | TimerElapse(gid: Gid)
    | TimerEnter(gid: Gid)
    | TimerResult(gid: Gid, ok: bool)
    | TimerEnd(gid: Gid)
    | TimerRetry(gid: Gid, successor: Gid, start: StartResult)
    | FlushResult(fid: Fid, ok: bool)
    | FlushExit(fid: Fid)
    | ShutdownBegin(cid: Cid)
    | ShutdownCancel(cid: Cid, ok: bool)
    | ShutdownJoined(cid: Cid, alive: set<Gid>)
    | ShutdownDecide(cid: Cid, fid: Fid, start: StartResult)
    | ShutdownConclude(cid: Cid)
    | GiveUp(cid: Cid)

  function Start(sentToday: bool): State {
    State(Alerts(false, "normal", sentToday, None, map[], 0), Timers(None, None, map[], {}), Flushes(None, map[]),
          false, false, {}, {}, map[], History(0, false, false, false))
  }

  predicate At(a: Alerts, tid: Tid, phase: TriggerPhase) {
    tid in a.triggers && a.triggers[tid] == phase
  }

  predicate Is(t: Timers, gid: Gid, thread: TimerThread) {
    gid in t.generations && t.generations[gid].thread == thread
  }

  predicate Alive(t: Timers, gid: Gid) {
    gid in t.generations && !t.generations[gid].thread.Dead?
  }

  function Move(a: Alerts, tid: Tid, phase: TriggerPhase): Alerts {
    a.(triggers := a.triggers[tid := phase])
  }

  function Gone(a: Alerts, tid: Tid): Alerts {
    a.(triggers := a.triggers - {tid})
  }

  function Thread(t: Timers, gid: Gid, thread: TimerThread): Timers
    requires gid in t.generations
  {
    t.(generations := t.generations[gid := t.generations[gid].(thread := thread)])
  }

  function WriteStarted(h: History): History {
    h.(writes := h.writes + 1)
  }

  function WriteEnded(h: History, ok: bool): History {
    h.(saved := h.saved || ok)
  }

  // ----------------------------------------------------------------- trigger

  function NextTrigger(s: State, tid: Tid, reason: string, telegram: bool): State {
    var a := s.alerts;
    if tid in a.triggers then s else
    var send := !a.sent && a.inflight.None? && telegram;
    var a' := a.(active := true, reason := if a.active then a.reason else reason,
        inflight := if send then Some(tid) else a.inflight);
    s.(alerts := if send then Move(a', tid, Sending) else if a.active && s.pending then Move(a', tid, Retrying) else a')
  }

  /** The message channel answers; only an explicit refusal or an error counts as not accepted. */
  function NextAlertAnswer(s: State, tid: Tid, ok: bool): State {
    if !At(s.alerts, tid, Sending) then s
    else if ok then s.(alerts := Move(s.alerts, tid, Accepted).(accepted := s.alerts.accepted + 1))
    else s.(alerts := Move(s.alerts, tid, Leaving))
  }

  function NextRecordAlert(s: State, tid: Tid): State {
    if !At(s.alerts, tid, Accepted) then s
    else if s.shutdown then s.(alerts := Move(s.alerts, tid, Leaving).(sent := true))
    else s.(alerts := Move(s.alerts, tid, Writing).(sent := true), direct := s.direct + {tid}, pending := true,
            history := WriteStarted(s.history).(recorded := true))
  }

  function NextDirectResult(s: State, tid: Tid, ok: bool): State {
    if !At(s.alerts, tid, Writing) then s
    else s.(alerts := Move(s.alerts, tid, if ok then Leaving else WriteFailed), direct := s.direct - {tid},
            pending := s.pending && !ok, history := WriteEnded(s.history, ok))
  }

  predicate GenerationBusy(t: Timers) {
    || (t.generation.Some? && t.generation.value in t.generations && !t.generations[t.generation.value].done)
    || (t.timer.Some? && Alive(t, t.timer.value))
  }

  /** A new retry generation, unless one is under way. */
  function Arm(t: Timers, gid: Gid, start: StartResult): Timers {
    if GenerationBusy(t) then t
    else match start
      case NotConstructed => t
      case NeverStarted => Timers(None, None, t.generations[gid := Generation(true, true, Dead)], t.running)
      case Started => Timers(Some(gid), Some(gid), t.generations[gid := Generation(false, false, Counting(false))],
          t.running)
      case RaisedAfterLaunch =>
        Timers(Some(gid), Some(gid), t.generations[gid := Generation(false, true, Counting(false))], t.running)
  }

  /** `_schedule_alert_state_retry`, one section; `gid` is a fresh name for the generation it may create. */
  function Schedule(s: State, gid: Gid, start: StartResult): State {
    if s.shutdown then s else s.(pending := true, timers := Arm(s.timers, gid, start))
  }

  function NextTriggerRetry(s: State, tid: Tid, gid: Gid, start: StartResult): State {
    if gid in s.timers.generations then s
    else if At(s.alerts, tid, WriteFailed) then Schedule(s, gid, start).(alerts := Move(s.alerts, tid, Leaving))
    else if At(s.alerts, tid, Retrying) then Schedule(s, gid, start).(alerts := Gone(s.alerts, tid))
    else s
  }

  function NextTriggerLeave(s: State, tid: Tid): State {
    if At(s.alerts, tid, Leaving) then s.(alerts := Gone(s.alerts, tid).(inflight := None)) else s
  }

  // ------------------------------------------------------------------- timers

  function NextTimerElapse(s: State, gid: Gid): State {
    var t := s.timers;
    if gid !in t.generations || !t.generations[gid].thread.Counting? then s
    else s.(timers := Thread(t, gid, if t.generations[gid].thread.cancelled then Dead else Called))
  }

  function NextTimerEnter(s: State, gid: Gid): State {
    if !Is(s.timers, gid, Called) then s else
    var t := s.timers.(running := s.timers.running + {gid},
                       timer := if s.timers.generation == Some(gid) then None else s.timers.timer);
    if s.pending && !s.shutdown then s.(timers := Thread(t, gid, Saving), history := WriteStarted(s.history))
    else s.(timers := Thread(t, gid, Ending(false)))
  }

  function NextTimerResult(s: State, gid: Gid, ok: bool): State {
    if !Is(s.timers, gid, Saving) then s
    else s.(timers := Thread(s.timers, gid, Ending(!ok)), pending := s.pending && !ok,
            history := WriteEnded(s.history, ok))
  }

  function NextTimerEnd(s: State, gid: Gid): State {
    var t := s.timers;
    if gid !in t.generations || !t.generations[gid].thread.Ending? then s else
    var mine := t.generation == Some(gid);
    var ended := t.generations[gid].(done := true,
        thread := if t.generations[gid].thread.reschedule then Rescheduling else Dead);
    s.(timers := Timers(if mine then None else t.generation, if mine then None else t.timer,
                        t.generations[gid := ended], t.running - {gid}))
  }

  function NextTimerRetry(s: State, gid: Gid, successor: Gid, start: StartResult): State {
    if !Is(s.timers, gid, Rescheduling) || successor in s.timers.generations then s
    else Schedule(s.(timers := Thread(s.timers, gid, Dead)), successor, start)
  }

  // -------------------------------------------------------------- the last write

  function NextFlushResult(s: State, fid: Fid, ok: bool): State {
    var f := s.flushes;
    if fid !in f.all || !f.all[fid].alive || f.all[fid].done then s
    else s.(flushes := f.(all := f.all[fid := Flush(true, ok, true)]), pending := s.pending && !ok,
            history := WriteEnded(s.history, ok))
  }

  function NextFlushExit(s: State, fid: Fid): State {
    var f := s.flushes;
    if fid in f.all && f.all[fid].done then s.(flushes := f.(all := f.all[fid := f.all[fid].(alive := false)])) else s
  }

  predicate Unresolved(f: Flushes, fid: Fid) {
    fid in f.all && (!f.all[fid].done || f.all[fid].alive)
  }

  predicate Flushed(f: Flushes, fid: Fid) {
    fid in f.all && f.all[fid].done && !f.all[fid].alive && f.all[fid].result
  }

  // ----------------------------------------------------------------- shutdown

  function Return(s: State, cid: Cid, ok: bool): State {
    s.(callers := s.callers - {cid}, history := s.history.(settled := s.history.settled || ok))
  }

  function NextShutdownBegin(s: State, cid: Cid): State {
    if cid in s.callers then s else
    var t := s.timers;
    var timer := if t.generation.Some? then t.generation else t.timer;
    var workers := t.running + s.retiring + (if timer.Some? then {timer.value} else {});
    s.(shutdown := true, timers := t.(timer := None), retiring := s.retiring + workers,
       callers := s.callers[cid := Joining(t.generation, timer, workers, s.direct, false)])
  }

  function NextShutdownCancel(s: State, cid: Cid, ok: bool): State {
    if cid !in s.callers || !s.callers[cid].Joining? || s.callers[cid].timer.None? then s else
    var gid := s.callers[cid].timer.value;
    s.(callers := s.callers[cid := s.callers[cid].(cancelled := ok)],
       timers := if gid in s.timers.generations && s.timers.generations[gid].thread.Counting?
                 then Thread(s.timers, gid, Counting(true)) else s.timers)
  }

  /** After the joins: `alive` are the workers found alive, no thread that is still alive is missing from it. */
  predicate Observed(s: State, cid: Cid, alive: set<Gid>) {
    && cid in s.callers && s.callers[cid].Joining?
    && alive <= s.callers[cid].workers
    && forall gid :: gid in s.callers[cid].workers && Alive(s.timers, gid) ==> gid in alive
  }

  /** A cancelled timer that died without entering its callback: shutdown ends its generation. */
  predicate EndsGeneration(t: Timers, c: CallerPhase, alive: set<Gid>)
    requires c.Joining?
  {
    && c.generation.Some? && c.generation.value in t.generations
    && !t.generations[c.generation.value].done && !t.generations[c.generation.value].startRaised
    && c.cancelled && c.timer.Some? && c.timer.value !in alive
  }

  predicate GenerationDone(t: Timers, c: CallerPhase)
    requires c.Joining?
  {
    c.generation.None? || c.generation.value !in t.generations || t.generations[c.generation.value].done
  }

  function AfterJoins(t: Timers, c: CallerPhase, alive: set<Gid>): Timers
    requires c.Joining?
  {
    var t' := if EndsGeneration(t, c, alive)
              then
                var g := c.generation.value;
                t.(generations := t.generations[g := t.generations[g].(done := true)])
              else t;
    if GenerationDone(t', c) && t.generation == c.generation then t'.(generation := None) else t'
  }

  function NextShutdownJoined(s: State, cid: Cid, alive: set<Gid>): State {
    if !Observed(s, cid, alive) then s else
    var c := s.callers[cid];
    var s' := s.(retiring := s.retiring * alive, timers := AfterJoins(s.timers, c, alive));
    if alive != {} || !GenerationDone(s'.timers, c) then Return(s', cid, false)
    else s'.(callers := s.callers[cid := AwaitingWriters(c.directs)])
  }

  /** `_start_shutdown_alert_flush_locked`, and the section around it. */
  function NextShutdownDecide(s: State, cid: Cid, fid: Fid, start: StartResult): State {
    var f := s.flushes;
    if cid !in s.callers || !s.callers[cid].AwaitingWriters? || s.callers[cid].directs * s.direct != {}
        || fid in f.all then s
    else if s.direct != {} then Return(s, cid, false)
    else if !s.pending then Return(s, cid, f.current.None? || Flushed(f, f.current.value))
    else if f.current.Some? && (Unresolved(f, f.current.value) || Flushed(f, f.current.value)) then
      s.(callers := s.callers[cid := AwaitingFlush(f.current.value)])
    else match start
      case NotConstructed => Return(s.(flushes := f.(current := None)), cid, false)
      case NeverStarted =>
        s.(flushes := Flushes(None, f.all[fid := Flush(true, false, false)]),
            callers := s.callers[cid := AwaitingFlush(fid)])
      case _ =>
        s.(flushes := Flushes(Some(fid), f.all[fid := Flush(false, false, true)]),
           callers := s.callers[cid := AwaitingFlush(fid)], history := WriteStarted(s.history))
  }

  function NextShutdownConclude(s: State, cid: Cid): State {
    if cid !in s.callers || !s.callers[cid].AwaitingFlush? then s else
    var fid := s.callers[cid].flush;
    Return(s, cid, s.flushes.current == Some(fid) && Flushed(s.flushes, fid) && !s.pending)
  }

  function Next(s: State, a: Action): State {
    match a
    case Trigger(tid, reason, telegram) => NextTrigger(s, tid, reason, telegram)
    case AlertAnswer(tid, ok) => NextAlertAnswer(s, tid, ok)
    case RecordAlert(tid) => NextRecordAlert(s, tid)
    case DirectResult(tid, ok) => NextDirectResult(s, tid, ok)
    case TriggerRetry(tid, gid, start) => NextTriggerRetry(s, tid, gid, start)
    case TriggerLeave(tid) => NextTriggerLeave(s, tid)
    case TimerElapse(gid) => NextTimerElapse(s, gid)
    case TimerEnter(gid) => NextTimerEnter(s, gid)
    case TimerResult(gid, ok) => NextTimerResult(s, gid, ok)
    case TimerEnd(gid) => NextTimerEnd(s, gid)
    case TimerRetry(gid, successor, start) => NextTimerRetry(s, gid, successor, start)
    case FlushResult(fid, ok) => NextFlushResult(s, fid, ok)
    case FlushExit(fid) => NextFlushExit(s, fid)
    case ShutdownBegin(cid) => NextShutdownBegin(s, cid)
    case ShutdownCancel(cid, ok) => NextShutdownCancel(s, cid, ok)
    case ShutdownJoined(cid, alive) => NextShutdownJoined(s, cid, alive)
    case ShutdownDecide(cid, fid, start) => NextShutdownDecide(s, cid, fid, start)
    case ShutdownConclude(cid) => NextShutdownConclude(s, cid)
    case GiveUp(cid) => Return(s, cid, false)
  }

  function Run(s: State, actions: seq<Action>): State {
    if actions == [] then s else Next(Run(s, actions[..|actions| - 1]), actions[|actions| - 1])
  }

  // -------------------------------------------------------------- invariants

  predicate InAlert(phase: TriggerPhase) {
    !phase.Retrying?
  }

  /** One thread at a time handles the alert, and it has not been accepted before it is sent. */
  ghost predicate AlertInv(a: Alerts) {
    && (forall t :: t in a.triggers && InAlert(a.triggers[t]) ==> a.inflight.Some? && a.inflight.value == t)
    && (a.inflight.Some? ==> a.active && a.inflight.value in a.triggers && InAlert(a.triggers[a.inflight.value]))
    && (a.inflight.Some? && a.triggers[a.inflight.value].Sending? ==> !a.sent && a.accepted == 0)
    && (a.inflight.Some? && a.triggers[a.inflight.value].Accepted? ==> !a.sent && a.accepted == 1)
    && a.accepted <= 1
    && (a.accepted == 1 ==> a.sent || (a.inflight.Some? && a.triggers[a.inflight.value].Accepted?))
  }

  ghost predicate NoTimerSaves(t: Timers) {
    forall g :: g in t.generations ==> !t.generations[g].thread.Saving?
  }

  ghost predicate NoFlushLives(f: Flushes) {
    forall x :: x in f.all ==> !f.all[x].alive
  }

  ghost predicate CallerFits(s: State, c: CallerPhase) {
    s.shutdown &&
    match c
    case Joining(_, _, workers, _, _) => forall g :: Is(s.timers, g, Saving) ==> g in workers
    case AwaitingWriters(_) => NoTimerSaves(s.timers)
    case AwaitingFlush(_) => NoTimerSaves(s.timers) && s.direct == {}
  }

  ghost predicate CallersFit(s: State) {
    forall c :: c in s.callers ==> CallerFits(s, s.callers[c])
  }

  /** Every saving timer is in the set that shutdown joins. */
  ghost predicate TimersFit(t: Timers) {
    forall g :: Is(t, g, Saving) ==> g in t.running
  }

  ghost predicate DirectFits(s: State) {
    forall t :: t in s.direct <==> At(s.alerts, t, Writing)
  }

  /** At most the current flush is alive. */
  ghost predicate FlushFits(f: Flushes) {
    && (forall x :: x in f.all && f.all[x].alive ==> f.current.Some? && f.current.value == x)
    && (f.current.Some? ==> f.current.value in f.all)
  }

  /** A shutdown has returned True: nothing is written now, and nothing is left to write. */
  ghost predicate Quiescent(s: State) {
    s.shutdown && !s.pending && s.direct == {} && NoTimerSaves(s.timers) && NoFlushLives(s.flushes)
  }

  /** A marker that was to be written is on disk or still pending. */
  ghost predicate MarkerFits(s: State) {
    s.history.recorded ==> s.pending || s.history.saved
  }

  ghost predicate Inv(s: State) {
    && AlertInv(s.alerts)
    && TimersFit(s.timers)
    && DirectFits(s)
    && FlushFits(s.flushes)
    && CallersFit(s)
    && MarkerFits(s)
    && (s.history.settled ==> Quiescent(s))
  }

  predicate ByTrigger(a: Action) {
    a.Trigger? || a.AlertAnswer? || a.RecordAlert? || a.DirectResult? || a.TriggerRetry? || a.TriggerLeave?
  }

  lemma TriggerStepKeepsAlerts(s: State, a: Action)
    requires AlertInv(s.alerts) && ByTrigger(a)
    ensures AlertInv(Next(s, a).alerts)
  {
  }

  lemma OtherStepKeepsAlerts(s: State, a: Action)
    requires !ByTrigger(a)
    ensures Next(s, a).alerts == s.alerts
  {
  }

  lemma StepKeepsAlerts(s: State, a: Action)
    requires AlertInv(s.alerts)
    ensures AlertInv(Next(s, a).alerts)
  {
    if ByTrigger(a) {
      TriggerStepKeepsAlerts(s, a);
    } else {
      OtherStepKeepsAlerts(s, a);
    }
  }

  lemma TimerStepKeepsTimers(s: State, a: Action)
    requires TimersFit(s.timers) && (a.TimerElapse? || a.TimerEnter? || a.TimerResult? || a.TimerEnd? || a.TimerRetry?)
    ensures TimersFit(Next(s, a).timers)
  {
  }

  lemma OtherStepKeepsTimers(s: State, a: Action)
    requires TimersFit(s.timers) && !(a.TimerElapse? || a.TimerEnter? || a.TimerResult? || a.TimerEnd? || a.TimerRetry?)
    ensures TimersFit(Next(s, a).timers)
  {
  }

  lemma StepKeepsTimers(s: State, a: Action)
    requires TimersFit(s.timers)
    ensures TimersFit(Next(s, a).timers)
  {
    if a.TimerElapse? || a.TimerEnter? || a.TimerResult? || a.TimerEnd? || a.TimerRetry? {
      TimerStepKeepsTimers(s, a);
    } else {
      OtherStepKeepsTimers(s, a);
    }
  }

  lemma StepKeepsDirect(s: State, a: Action)
    requires DirectFits(s)
    ensures DirectFits(Next(s, a))
  {
  }

  lemma StepKeepsFlush(s: State, a: Action)
    requires FlushFits(s.flushes)
    ensures FlushFits(Next(s, a).flushes)
  {
  }

  lemma StepKeepsMarker(s: State, a: Action)
    requires MarkerFits(s)
    ensures MarkerFits(Next(s, a))
  {
  }

  /** After the shutdown flag no timer starts to save. */
  lemma NoNewSavers(s: State, a: Action)
    requires s.shutdown
    ensures Next(s, a).shutdown && Next(s, a).direct <= s.direct && (Next(s, a).pending ==> s.pending)
    ensures forall g :: Is(Next(s, a).timers, g, Saving) ==> Is(s.timers, g, Saving)
  {
  }

  /** What a caller has established stays true, because nothing new starts to write. */
  lemma CallerStillFits(s: State, s': State, c: CallerPhase)
    requires CallerFits(s, c) && s'.shutdown && s'.direct <= s.direct
    requires forall g :: Is(s'.timers, g, Saving) ==> Is(s.timers, g, Saving)
    ensures CallerFits(s', c)
  {
    if NoTimerSaves(s.timers) {
      forall g | g in s'.timers.generations ensures !s'.timers.generations[g].thread.Saving? {
        assert Is(s'.timers, g, Saving) ==> Is(s.timers, g, Saving);
      }
    }
  }

  lemma BeginFits(s: State, cid: Cid)
    requires TimersFit(s.timers) && cid !in s.callers
    ensures CallerFits(NextShutdownBegin(s, cid), NextShutdownBegin(s, cid).callers[cid])
  {
  }

  /** All workers that could be saving were joined, so none is. */
  lemma JoinedFits(s: State, cid: Cid, alive: set<Gid>)
    requires cid in s.callers && CallerFits(s, s.callers[cid]) && Observed(s, cid, alive)
    requires cid in NextShutdownJoined(s, cid, alive).callers
    ensures CallerFits(NextShutdownJoined(s, cid, alive), NextShutdownJoined(s, cid, alive).callers[cid])
  {
    var s' := NextShutdownJoined(s, cid, alive);
    forall g | g in s'.timers.generations ensures !s'.timers.generations[g].thread.Saving? {
      assert Is(s.timers, g, Saving) ==> Alive(s.timers, g);
    }
  }

  lemma DecideFits(s: State, cid: Cid, fid: Fid, start: StartResult)
    requires cid in s.callers && CallerFits(s, s.callers[cid])
    requires cid in NextShutdownDecide(s, cid, fid, start).callers
    ensures CallerFits(NextShutdownDecide(s, cid, fid, start), NextShutdownDecide(s, cid, fid, start).callers[cid])
  {
  }

  lemma CancelFits(s: State, cid: Cid, ok: bool)
    requires cid in s.callers && CallerFits(s, s.callers[cid])
    ensures CallerFits(NextShutdownCancel(s, cid, ok), NextShutdownCancel(s, cid, ok).callers[cid])
  {
  }

  predicate ActsFor(a: Action, c: Cid) {
    (a.ShutdownBegin? || a.ShutdownCancel? || a.ShutdownJoined? || a.ShutdownDecide? || a.ShutdownConclude?
        || a.GiveUp?)
    && a.cid == c
  }

  lemma OthersKeepTheirPhase(s: State, a: Action, c: Cid)
    requires c in Next(s, a).callers && !ActsFor(a, c)
    ensures c in s.callers && Next(s, a).callers[c] == s.callers[c]
  {
  }

  lemma ActorFits(s: State, a: Action, c: Cid)
    requires TimersFit(s.timers) && CallersFit(s) && ActsFor(a, c) && c in Next(s, a).callers
    ensures CallerFits(Next(s, a), Next(s, a).callers[c])
  {
    match a
    case ShutdownBegin(_) => if c !in s.callers { BeginFits(s, c); }
    case ShutdownCancel(_, ok) => CancelFits(s, c, ok);
    case ShutdownJoined(_, alive) => if Observed(s, c, alive) { JoinedFits(s, c, alive); }
    case ShutdownDecide(_, fid, start) => DecideFits(s, c, fid, start);
    case _ =>
  }

  lemma StepKeepsCallers(s: State, a: Action)
    requires CallersFit(s) && TimersFit(s.timers)
    ensures CallersFit(Next(s, a))
  {
    forall c | c in Next(s, a).callers ensures CallerFits(Next(s, a), Next(s, a).callers[c]) {
      if ActsFor(a, c) {
        ActorFits(s, a, c);
      } else {
        OthersKeepTheirPhase(s, a, c);
        assert CallerFits(s, s.callers[c]);
        NoNewSavers(s, a);
        CallerStillFits(s, Next(s, a), s.callers[c]);
      }
    }
  }

  // ------------------------------------------------- what a True answer means

  /** Once quiescent, no step starts a write or makes one pending. */
  lemma QuiescenceLasts(s: State, a: Action)
    requires Quiescent(s)
    ensures Quiescent(Next(s, a)) && Next(s, a).history.writes == s.history.writes
  {
    NoNewSavers(s, a);
    var s' := Next(s, a);
    forall g | g in s'.timers.generations ensures !s'.timers.generations[g].thread.Saving? {
      assert Is(s'.timers, g, Saving) ==> Is(s.timers, g, Saving);
    }
  }

  lemma DecisionIsQuiescent(s: State, cid: Cid, fid: Fid, start: StartResult)
    requires CallersFit(s) && FlushFits(s.flushes)
    requires NextShutdownDecide(s, cid, fid, start).history.settled && !s.history.settled
    ensures Quiescent(NextShutdownDecide(s, cid, fid, start))
  {
    assert CallerFits(s, s.callers[cid]);
  }

  lemma ConclusionIsQuiescent(s: State, cid: Cid)
    requires CallersFit(s) && FlushFits(s.flushes)
    requires NextShutdownConclude(s, cid).history.settled && !s.history.settled
    ensures Quiescent(NextShutdownConclude(s, cid))
  {
    assert CallerFits(s, s.callers[cid]);
  }

  lemma OnlyShutdownSettles(s: State, a: Action)
    requires !s.history.settled && !a.ShutdownDecide? && !a.ShutdownConclude?
    ensures !Next(s, a).history.settled
  {
  }

  lemma StepKeepsSettled(s: State, a: Action)
    requires CallersFit(s) && FlushFits(s.flushes) && (s.history.settled ==> Quiescent(s))
    ensures Next(s, a).history.settled ==> Quiescent(Next(s, a))
  {
    if s.history.settled {
      QuiescenceLasts(s, a);
    } else if Next(s, a).history.settled {
      match a
      case ShutdownDecide(cid, fid, start) => DecisionIsQuiescent(s, cid, fid, start);
      case ShutdownConclude(cid) => ConclusionIsQuiescent(s, cid);
      case _ => OnlyShutdownSettles(s, a);
    }
  }

  lemma StepKeepsInv(s: State, a: Action)
    requires Inv(s)
    ensures Inv(Next(s, a))
  {
    StepKeepsAlerts(s, a);
    StepKeepsTimers(s, a);
    StepKeepsDirect(s, a);
    StepKeepsFlush(s, a);
    StepKeepsMarker(s, a);
    StepKeepsCallers(s, a);
    StepKeepsSettled(s, a);
  }

  lemma {:induction false} RunKeepsInv(s: State, actions: seq<Action>)
    requires Inv(s)
    ensures Inv(Run(s, actions))
  {
    if actions != [] {
      RunKeepsInv(s, actions[..|actions| - 1]);
      StepKeepsInv(Run(s, actions[..|actions| - 1]), actions[|actions| - 1]);
    }
  }

  // ------------------------------------------------------------ main results

  lemma StickyStep(s: State, a: Action)
    requires s.alerts.active
    ensures Next(s, a).alerts.active && Next(s, a).alerts.reason == s.alerts.reason
  {
  }

  /** Activation and its reason are sticky over every continuation of a run. */
  lemma {:induction false} ActivationIsSticky(s: State, actions: seq<Action>)
    requires s.alerts.active
    ensures Run(s, actions).alerts.active && Run(s, actions).alerts.reason == s.alerts.reason
  {
    if actions != [] {
      ActivationIsSticky(s, actions[..|actions| - 1]);
      StickyStep(Run(s, actions[..|actions| - 1]), actions[|actions| - 1]);
    }
  }

  /** The first call of `trigger` in a run. */
  predicate FirstTrigger(actions: seq<Action>, i: nat) {
    i < |actions| && actions[i].Trigger? && forall j :: 0 <= j < i ==> !actions[j].Trigger?
  }

  /**
    Over every interleaving SAFE_MODE is active exactly when it was triggered, and
    then for the reason of the first trigger: whatever becomes of the alert, and
    whether one was sent before, is on its way, or can be sent at all.
   */
  lemma ActiveIffTriggered(sentToday: bool, actions: seq<Action>)
    ensures var a := Run(Start(sentToday), actions).alerts;
            && (a.active <==> exists i :: 0 <= i < |actions| && actions[i].Trigger?)
            && (forall i: nat :: FirstTrigger(actions, i) ==> a.reason == actions[i].reason)
            && (!a.active ==> a.reason == "normal")
  {
    if k: nat :| FirstTrigger(actions, k) {
      FirstTriggerDecides(sentToday, actions, k);
    } else {
      FirstIsFound(actions);
      UntriggeredIsNormal(sentToday, actions);
      assert forall i: nat :: !FirstTrigger(actions, i);
    }
  }

  lemma {:induction false} FirstIsFound(actions: seq<Action>)
    requires forall k: nat :: !FirstTrigger(actions, k)
    ensures forall i :: 0 <= i < |actions| ==> !actions[i].Trigger?
  {
    if actions != [] {
      var init := actions[..|actions| - 1];
      forall k: nat ensures !FirstTrigger(init, k) {
        assert FirstTrigger(init, k) ==> FirstTrigger(actions, k);
      }
      FirstIsFound(init);
      assert forall i :: 0 <= i < |init| ==> actions[i] == init[i];
      assert !FirstTrigger(actions, |actions| - 1);
    }
  }

  /** Before the first trigger there is neither an alert nor a thread that could raise one. */
  lemma {:induction false} UntriggeredIsNormal(sentToday: bool, actions: seq<Action>)
    requires forall i :: 0 <= i < |actions| ==> !actions[i].Trigger?
    ensures Run(Start(sentToday), actions).alerts == Start(sentToday).alerts
  {
    if actions != [] {
      var init := actions[..|actions| - 1];
      UntriggeredIsNormal(sentToday, init);
      UntriggeredStep(Run(Start(sentToday), init), actions[|actions| - 1]);
    }
  }

  lemma UntriggeredStep(s: State, a: Action)
    requires s.alerts.triggers == map[] && !a.Trigger?
    ensures Next(s, a).alerts == s.alerts
  {
  }

  lemma FirstTriggerDecides(sentToday: bool, actions: seq<Action>, k: nat)
    requires FirstTrigger(actions, k)
    ensures var a := Run(Start(sentToday), actions).alerts; a.active && a.reason == actions[k].reason
    ensures forall i: nat :: FirstTrigger(actions, i) ==> i == k
  {
    UntriggeredIsNormal(sentToday, actions[..k]);
    var s := Run(Start(sentToday), actions[..k]);
    var s' := Next(s, actions[k]);
    assert s'.alerts.active && s'.alerts.reason == actions[k].reason;
    assert actions == actions[..k + 1] + actions[k + 1..] && actions[..k + 1][..k] == actions[..k];
    RunConcat(Start(sentToday), actions[..k + 1], actions[k + 1..]);
    ActivationIsSticky(s', actions[k + 1..]);
  }

  lemma {:induction false} RunConcat(s: State, first: seq<Action>, second: seq<Action>)
    ensures Run(s, first + second) == Run(Run(s, first), second)
  {
    if second == [] {
      assert first + second == first;
    } else {
      var init, last := second[..|second| - 1], second[|second| - 1];
      RunConcat(s, first, init);
      assert (first + second)[..|first + second| - 1] == first + init;
    }
  }

  /** Over every interleaving at most one alert is accepted, and none if today's was already sent. */
  lemma AtMostOneAlertIsAccepted(sentToday: bool, actions: seq<Action>)
    ensures Run(Start(sentToday), actions).alerts.accepted <= (if sentToday then 0 else 1)
  {
    RunKeepsInv(Start(sentToday), actions);
    if sentToday {
      SentMeansNoAlert(actions);
    }
  }

  ghost predicate NoAlertEver(a: Alerts) {
    a.accepted == 0 && a.sent && forall t :: t in a.triggers ==> a.triggers[t].Retrying?
  }

  lemma NoAlertStep(s: State, a: Action)
    requires NoAlertEver(s.alerts)
    ensures NoAlertEver(Next(s, a).alerts)
  {
  }

  lemma {:induction false} SentMeansNoAlert(actions: seq<Action>)
    ensures NoAlertEver(Run(Start(true), actions).alerts)
  {
    if actions != [] {
      SentMeansNoAlert(actions[..|actions| - 1]);
      NoAlertStep(Run(Start(true), actions[..|actions| - 1]), actions[|actions| - 1]);
    }
  }

  /**
    Over every interleaving: once some shutdown call has returned True, no
    thread is writing the marker, none is pending, whatever was to be written is
    on disk, and in no continuation of the run does a thread start to write.
   */
  lemma TrueShutdownIsFinal(sentToday: bool, actions: seq<Action>, more: seq<Action>, next: Action)
    requires Run(Start(sentToday), actions).history.settled
    ensures var s := Run(Start(sentToday), actions);
            && Quiescent(s) && (Wanted(Start(sentToday), actions) ==> Saved(Start(sentToday), actions))
            && Quiescent(Run(s, more)) && !StartsWrite(Run(s, more), next)
  {
    var s := Run(Start(sentToday), actions);
    RunKeepsInv(Start(sentToday), actions);
    HistoryIsTrue(sentToday, actions);
    QuiescentRuns(s, more);
    QuiescenceLasts(Run(s, more), next);
    QuietRunsKeepInv(sentToday, actions, more);
    HistoryStep(Run(s, more), next);
  }

  lemma QuietRunsKeepInv(sentToday: bool, actions: seq<Action>, more: seq<Action>)
    ensures Inv(Run(Run(Start(sentToday), actions), more))
  {
    RunKeepsInv(Start(sentToday), actions);
    RunKeepsInv(Run(Start(sentToday), actions), more);
  }

  // ---- the history, told from what the threads do

  datatype Writer = TriggerWriter(tid: Tid) | TimerWriter(gid: Gid) | FlushWriter(fid: Fid)

  /** The thread is between the section that makes it write and the one in which it reports. */
  predicate Writes(s: State, w: Writer) {
    match w
    case TriggerWriter(tid) => tid in s.alerts.triggers && s.alerts.triggers[tid] == Writing
    case TimerWriter(gid) => gid in s.timers.generations && s.timers.generations[gid].thread == Saving
    case FlushWriter(fid) => fid in s.flushes.all && s.flushes.all[fid].alive && !s.flushes.all[fid].done
  }

  ghost predicate StartsWrite(s: State, a: Action) {
    exists w :: !Writes(s, w) && Writes(Next(s, a), w)
  }

  /** A thread that was writing reports that the marker is on disk. */
  predicate SavesMarker(s: State, a: Action) {
    || (a.DirectResult? && a.ok && Writes(s, TriggerWriter(a.tid)))
    || (a.TimerResult? && a.ok && Writes(s, TimerWriter(a.gid)))
    || (a.FlushResult? && a.ok && Writes(s, FlushWriter(a.fid)))
  }

  /** An accepted alert is recorded before shutdown has begun: its marker is to be written. */
  predicate WantsMarker(s: State, a: Action) {
    a.RecordAlert? && At(s.alerts, a.tid, Accepted) && !s.shutdown
  }

  predicate Wanted(s: State, actions: seq<Action>) {
    actions != [] && (Wanted(s, actions[..|actions| - 1])
                      || WantsMarker(Run(s, actions[..|actions| - 1]), actions[|actions| - 1]))
  }

  predicate Saved(s: State, actions: seq<Action>) {
    actions != [] && (Saved(s, actions[..|actions| - 1])
                      || SavesMarker(Run(s, actions[..|actions| - 1]), actions[|actions| - 1]))
  }

  ghost function WritesStarted(s: State, actions: seq<Action>): nat {
    if actions == [] then 0
    else WritesStarted(s, actions[..|actions| - 1])
         + (if StartsWrite(Run(s, actions[..|actions| - 1]), actions[|actions| - 1]) then 1 else 0)
  }

  /** Which thread a step may turn into a writer. */
  function StarterOf(a: Action): Option<Writer> {
    match a
    case RecordAlert(tid) => Some(TriggerWriter(tid))
    case TimerEnter(gid) => Some(TimerWriter(gid))
    case ShutdownDecide(_, fid, _) => Some(FlushWriter(fid))
    case _ => None
  }

  lemma OnlyStartersStart(s: State, a: Action, w: Writer)
    requires !Writes(s, w) && Writes(Next(s, a), w)
    ensures StarterOf(a) == Some(w)
  {
    match w
    case TriggerWriter(tid) => OnlyRecordingStarts(s, a, tid);
    case TimerWriter(gid) => OnlyEnteringStarts(s, a, gid);
    case FlushWriter(fid) => OnlyDecidingStarts(s, a, fid);
  }

  lemma OnlyRecordingStarts(s: State, a: Action, tid: Tid)
    requires !At(s.alerts, tid, Writing) && At(Next(s, a).alerts, tid, Writing)
    ensures a == RecordAlert(tid)
  {
  }

  lemma OnlyEnteringStarts(s: State, a: Action, gid: Gid)
    requires !Is(s.timers, gid, Saving) && Is(Next(s, a).timers, gid, Saving)
    ensures a == TimerEnter(gid)
  {
  }

  lemma OnlyDecidingStarts(s: State, a: Action, fid: Fid)
    requires !Writes(s, FlushWriter(fid)) && Writes(Next(s, a), FlushWriter(fid))
    ensures a.ShutdownDecide? && a.fid == fid
  {
  }

  lemma MarkersInHistory(s: State, a: Action)
    ensures var h, h' := s.history, Next(s, a).history;
            (h'.saved <==> h.saved || SavesMarker(s, a)) && (h'.recorded <==> h.recorded || WantsMarker(s, a))
  {
  }

  lemma HistoryStep(s: State, a: Action)
    requires Inv(s)
    ensures var h, h' := s.history, Next(s, a).history;
            && h'.writes == h.writes + (if StartsWrite(s, a) then 1 else 0)
            && (h'.saved <==> h.saved || SavesMarker(s, a)) && (h'.recorded <==> h.recorded || WantsMarker(s, a))
  {
    MarkersInHistory(s, a);
    if StartsWrite(s, a) {
      var w :| !Writes(s, w) && Writes(Next(s, a), w);
      OnlyStartersStart(s, a, w);
    } else if StarterOf(a).Some? {
      var w := StarterOf(a).value;
      assert Writes(s, w) || !Writes(Next(s, a), w);
    }
  }

  lemma {:induction false} HistoryIsTrue(sentToday: bool, actions: seq<Action>)
    ensures var h := Run(Start(sentToday), actions).history;
            && h.writes == WritesStarted(Start(sentToday), actions)
            && (h.saved <==> Saved(Start(sentToday), actions)) && (h.recorded <==> Wanted(Start(sentToday), actions))
  {
    if actions != [] {
      HistoryIsTrue(sentToday, actions[..|actions| - 1]);
      RunKeepsInv(Start(sentToday), actions[..|actions| - 1]);
      HistoryStep(Run(Start(sentToday), actions[..|actions| - 1]), actions[|actions| - 1]);
    }
  }

  // ---- an unsaved marker is tried again

  /** Every timer thread that a run asks for can be started. */
  predicate TimersStart(actions: seq<Action>) {
    forall i :: 0 <= i < |actions| && (actions[i].TriggerRetry? || actions[i].TimerRetry?) ==>
      actions[i].start.Started? || actions[i].start.RaisedAfterLaunch?
  }

  /** The thread writes the marker or will schedule a retry. */
  predicate Tries(phase: TriggerPhase) {
    phase.Writing? || phase.WriteFailed? || phase.Retrying?
  }

  /** The timer waits for its time, writes, or will schedule its successor. */
  predicate StillTries(thread: TimerThread) {
    thread in {Counting(false), Called, Saving, Ending(true), Rescheduling}
  }

  ghost predicate RetryUnderWay(s: State) {
    || (exists t :: t in s.alerts.triggers && Tries(s.alerts.triggers[t]))
    || (exists g :: g in s.timers.generations && StillTries(s.timers.generations[g].thread))
  }

  /** Before shutdown a generation is done exactly when its thread has left its callback. */
  predicate GenerationFits(g: Generation) {
    g.thread != Counting(true) && (g.done <==> g.thread.Rescheduling? || g.thread.Dead?)
  }

  /** Timers exist only for a marker that was to be written, and while it is unsaved none gives it up. */
  ghost predicate RetryShape(s: State) {
    && (s.pending ==> s.history.recorded)
    && (forall g :: g in s.timers.generations ==> s.history.recorded)
    && (forall t :: t in s.alerts.triggers && Tries(s.alerts.triggers[t]) ==> s.history.recorded)
    && (s.timers.generation.Some? ==> s.timers.generation.value in s.timers.generations)
    && (s.timers.timer.Some? ==> s.timers.timer.value in s.timers.generations)
    && (!s.shutdown ==> forall g :: g in s.timers.generations ==> GenerationFits(s.timers.generations[g]))
    && (Unsaved(s) ==> forall g :: g in s.timers.generations ==> s.timers.generations[g].thread != Ending(false))
  }

  /** The marker is to be written, is not on disk, and shutdown has not begun. */
  predicate Unsaved(s: State) {
    !s.shutdown && s.history.recorded && !s.history.saved
  }

  ghost predicate RetryInv(s: State) {
    RetryShape(s) && (Unsaved(s) ==> RetryUnderWay(s))
  }

  lemma KeptGoing(s: State, s': State, t: Tid)
    requires t in s'.alerts.triggers && Tries(s'.alerts.triggers[t])
    ensures RetryUnderWay(s')
  {
  }

  lemma TimerGoesOn(s': State, g: Gid)
    requires g in s'.timers.generations && StillTries(s'.timers.generations[g].thread)
    ensures RetryUnderWay(s')
  {
  }

  /** What scheduling leaves: a timer that tries, be it the new one or one that was under way. */
  lemma SchedulingLeavesATimer(s: State, gid: Gid, start: StartResult)
    requires RetryShape(s) && Unsaved(s)
    requires gid !in s.timers.generations && (start.Started? || start.RaisedAfterLaunch?)
    ensures exists g :: g in Schedule(s, gid, start).timers.generations
                        && StillTries(Schedule(s, gid, start).timers.generations[g].thread)
  {
    var t, t' := s.timers, Schedule(s, gid, start).timers;
    if GenerationBusy(t) {
      if t.generation.Some? && !t.generations[t.generation.value].done {
        assert GenerationFits(t.generations[t.generation.value]);
        assert StillTries(t'.generations[t.generation.value].thread);
      } else {
        assert GenerationFits(t.generations[t.timer.value]);
        assert StillTries(t'.generations[t.timer.value].thread);
      }
    } else {
      assert gid in t'.generations && StillTries(t'.generations[gid].thread);
    }
  }

  lemma SchedulingKeepsShape(s: State, gid: Gid, start: StartResult)
    requires RetryShape(s) && s.history.recorded
    ensures RetryShape(Schedule(s, gid, start))
  {
  }

  lemma TriggerStepKeepsShape(s: State, a: Action)
    requires RetryShape(s) && ByTrigger(a) && !a.TriggerRetry?
    ensures RetryShape(Next(s, a))
  {
  }

  lemma TriggerRetryKeepsShape(s: State, tid: Tid, gid: Gid, start: StartResult)
    requires RetryShape(s)
    ensures RetryShape(NextTriggerRetry(s, tid, gid, start))
  {
    if tid in s.alerts.triggers && Tries(s.alerts.triggers[tid]) {
      SchedulingKeepsShape(s, gid, start);
    }
  }

  lemma TimerStepKeepsShape(s: State, a: Action)
    requires RetryShape(s) && MarkerFits(s) && (a.TimerElapse? || a.TimerEnter? || a.TimerResult? || a.TimerEnd?)
    ensures RetryShape(Next(s, a))
  {
  }

  lemma TimerRetryKeepsShape(s: State, gid: Gid, successor: Gid, start: StartResult)
    requires RetryShape(s)
    ensures RetryShape(NextTimerRetry(s, gid, successor, start))
  {
    if Is(s.timers, gid, Rescheduling) && successor !in s.timers.generations {
      var s1 := s.(timers := Thread(s.timers, gid, Dead));
      assert s1.history == s.history && gid in s.timers.generations;
      SchedulingKeepsShape(s1, successor, start);
    }
  }

  lemma ShutdownStepKeepsShape(s: State, a: Action)
    requires RetryShape(s) && CallersFit(s) && !ByTrigger(a)
    requires !a.TimerElapse? && !a.TimerEnter? && !a.TimerResult? && !a.TimerEnd? && !a.TimerRetry?
    ensures RetryShape(Next(s, a))
  {
  }

  lemma StepKeepsShape(s: State, a: Action)
    requires RetryShape(s) && Inv(s)
    ensures RetryShape(Next(s, a))
  {
    if ByTrigger(a) {
      if a.TriggerRetry? {
        TriggerRetryKeepsShape(s, a.tid, a.gid, a.start);
      } else {
        TriggerStepKeepsShape(s, a);
      }
    } else if a.TimerRetry? {
      TimerRetryKeepsShape(s, a.gid, a.successor, a.start);
    } else if a.TimerElapse? || a.TimerEnter? || a.TimerResult? || a.TimerEnd? {
      TimerStepKeepsShape(s, a);
    } else {
      ShutdownStepKeepsShape(s, a);
    }
  }

  /** A thread that tries goes on trying until it has saved, or has scheduled a timer that tries. */
  lemma TriggerGoesOn(s: State, a: Action, t: Tid)
    requires RetryShape(s) && Unsaved(s) && Unsaved(Next(s, a)) && TimersStart([a])
    requires t in s.alerts.triggers && Tries(s.alerts.triggers[t])
    ensures RetryUnderWay(Next(s, a))
  {
    var s' := Next(s, a);
    if a.TriggerRetry? && a.tid == t && !s.alerts.triggers[t].Writing? && a.gid !in s.timers.generations {
      assert [a][0] == a;
      SchedulingLeavesATimer(s, a.gid, a.start);
      var g :| g in Schedule(s, a.gid, a.start).timers.generations
        && StillTries(Schedule(s, a.gid, a.start).timers.generations[g].thread);
      TimerGoesOn(s', g);
    } else {
      assert t in s'.alerts.triggers && Tries(s'.alerts.triggers[t]);
    }
  }

  lemma RescheduledTimerGoesOn(s: State, g: Gid, successor: Gid, start: StartResult)
    requires RetryShape(s) && Unsaved(s) && Is(s.timers, g, Rescheduling) && successor !in s.timers.generations
    requires start.Started? || start.RaisedAfterLaunch?
    ensures RetryUnderWay(NextTimerRetry(s, g, successor, start))
  {
    SchedulingLeavesATimer(s.(timers := Thread(s.timers, g, Dead)), successor, start);
  }

  lemma TimerThreadGoesOn(s: State, a: Action, g: Gid)
    requires RetryShape(s) && Inv(s) && Unsaved(s) && Unsaved(Next(s, a)) && TimersStart([a])
    requires g in s.timers.generations && StillTries(s.timers.generations[g].thread)
    ensures RetryUnderWay(Next(s, a))
  {
    var s' := Next(s, a);
    if a.TimerRetry? && a.gid == g && Is(s.timers, g, Rescheduling) && a.successor !in s.timers.generations {
      assert [a][0] == a;
      RescheduledTimerGoesOn(s, g, a.successor, a.start);
    } else {
      assert g in s'.timers.generations && StillTries(s'.timers.generations[g].thread);
    }
  }

  lemma StepKeepsRetry(s: State, a: Action)
    requires RetryInv(s) && Inv(s) && TimersStart([a])
    ensures RetryInv(Next(s, a))
  {
    StepKeepsShape(s, a);
    if Unsaved(Next(s, a)) {
      if Unsaved(s) {
        if t :| t in s.alerts.triggers && Tries(s.alerts.triggers[t]) {
          TriggerGoesOn(s, a, t);
        } else {
          var g :| g in s.timers.generations && StillTries(s.timers.generations[g].thread);
          TimerThreadGoesOn(s, a, g);
        }
      } else {
        HistoryStep(s, a);
        assert WantsMarker(s, a);
        KeptGoing(s, Next(s, a), a.tid);
      }
    }
  }

  /**
    Over every interleaving in which timer threads can be started: as long as the
    marker of an accepted alert is not on disk and shutdown has not begun, some
    thread is writing it, is about to schedule a retry, or is a timer under way.
   */
  lemma {:induction false} UnsavedMarkerIsRetried(sentToday: bool, actions: seq<Action>)
    requires TimersStart(actions)
    ensures RetryInv(Run(Start(sentToday), actions))
    ensures var s := Run(Start(sentToday), actions);
            !s.shutdown && Wanted(Start(sentToday), actions) && !Saved(Start(sentToday), actions) ==> RetryUnderWay(s)
  {
    HistoryIsTrue(sentToday, actions);
    if actions != [] {
      var init, a := actions[..|actions| - 1], actions[|actions| - 1];
      UnsavedMarkerIsRetried(sentToday, init);
      RunKeepsInv(Start(sentToday), init);
      StepKeepsRetry(Run(Start(sentToday), init), a);
    }
  }

  lemma {:induction false} QuiescentRuns(s: State, actions: seq<Action>)
    requires Quiescent(s)
    ensures Quiescent(Run(s, actions)) && Run(s, actions).history.writes == s.history.writes
  {
    if actions != [] {
      QuiescentRuns(s, actions[..|actions| - 1]);
      QuiescenceLasts(Run(s, actions[..|actions| - 1]), actions[|actions| - 1]);
    }
  }

  /** A marker that was to be written is on disk or still marked pending. */
  lemma MarkerIsNeverForgotten(sentToday: bool, actions: seq<Action>)
    ensures var s := Run(Start(sentToday), actions); s.history.recorded ==> s.pending || s.history.saved
  {
    RunKeepsInv(Start(sentToday), actions);
  }

  // ---------------------------------------------------- the critical sections

  /** The object: its fields, its threads, and the callers of its shutdown. */
  class Holder {
    var active: bool
    var reason: string
    var sent: bool
    var inflight: Option<Tid>
    var pending: bool
    var shutdown: bool
    var generation: Option<Gid>
    var timer: Option<Gid>
    var running: set<Gid>
    var retiring: set<Gid>
    var direct: set<Tid>
    var flush: Option<Fid>
    var triggers: map<Tid, TriggerPhase>
    var generations: map<Gid, Generation>
    var flushes: map<Fid, Flush>
    var callers: map<Cid, CallerPhase>
    ghost var accepted: nat
    ghost var history: History

    ghost function View(): State
      reads this
    {
      State(Alerts(active, reason, sent, inflight, triggers, accepted), Timers(generation, timer, generations, running),
            Flushes(flush, flushes), pending, shutdown, direct, retiring, callers, history)
    }

    constructor (sentToday: bool)
      ensures View() == Start(sentToday)
      ensures !active && sent == sentToday && !pending && !shutdown && inflight.None? && direct == {}
    {
      active, reason, sent, inflight, pending, shutdown := false, "normal", sentToday, None, false, false;
      generation, timer, running, retiring, direct, flush := None, None, {}, {}, {}, None;
      triggers, generations, flushes, callers := map[], map[], map[], map[];
      accepted, history := 0, History(0, false, false, false);
    }

    /** First section of `trigger`. */
    method EnterSafeMode(tid: Tid, why: string, telegram: bool)
      requires tid !in triggers
      modifies this`active, this`reason, this`inflight, this`triggers
      ensures View() == NextTrigger(old(View()), tid, why, telegram)
      ensures active && reason == if old(active) then old(reason) else why
      ensures var sends := telegram && !sent && old(inflight).None?;
              && inflight == (if sends then Some(tid) else old(inflight))
              && triggers == (if sends then old(triggers)[tid := Sending]
                              else if old(active) && pending then old(triggers)[tid := Retrying]
                              else old(triggers))
    {
      var already := active;
      if !already {
        active, reason := true, why;
      }
      if !sent && inflight.None? && telegram {
        inflight, triggers := Some(tid), triggers[tid := Sending];
      } else if already && pending {
        triggers := triggers[tid := Retrying];
      }
    }

    /** The message channel answers the alert. */
    method AnswerAlert(tid: Tid, ok: bool)
      requires tid in triggers && triggers[tid] == Sending
      modifies this`triggers, this`accepted
      ensures View() == NextAlertAnswer(old(View()), tid, ok)
      ensures triggers == old(triggers)[tid := if ok then Accepted else Leaving]
    {
      if ok {
        triggers, accepted := triggers[tid := Accepted], accepted + 1;
      } else {
        triggers := triggers[tid := Leaving];
      }
    }

    /** Second section of `trigger`, after the alert was accepted. */
    method RecordAcceptance(tid: Tid)
      requires tid in triggers && triggers[tid] == Accepted
      modifies this`sent, this`triggers, this`direct, this`pending, this`history
      ensures View() == NextRecordAlert(old(View()), tid)
      ensures sent && triggers == old(triggers)[tid := if shutdown then Leaving else Writing]
      ensures direct == old(direct) + (if shutdown then {} else {tid}) && pending == (old(pending) || !shutdown)
    {
      sent := true;
      if shutdown {
        triggers := triggers[tid := Leaving];
      } else {
        direct, pending, triggers := direct + {tid}, true, triggers[tid := Writing];
        history := WriteStarted(history).(recorded := true);
      }
    }

    /** Third section of `trigger`, after its own write. */
    method FinishDirectWrite(tid: Tid, persisted: bool)
      requires tid in triggers && triggers[tid] == Writing
      modifies this`pending, this`direct, this`triggers, this`history
      ensures View() == NextDirectResult(old(View()), tid, persisted)
      ensures pending == (old(pending) && !persisted) && direct == old(direct) - {tid}
      ensures triggers == old(triggers)[tid := if persisted then Leaving else WriteFailed]
    {
      if persisted {
        pending := false;
      }
      direct := direct - {tid};
      triggers := triggers[tid := if persisted then Leaving else WriteFailed];
      history := WriteEnded(history, persisted);
    }

    method ArmTimer(gid: Gid, start: StartResult)
      modifies this`generation, this`timer, this`generations
      ensures Timers(generation, timer, generations, running)
          == Arm(old(Timers(generation, timer, generations, running)), gid, start)
    {
      if GenerationBusy(Timers(generation, timer, generations, running)) {
        return;
      }
      if start == NeverStarted {
        generations := generations[gid := Generation(true, true, Dead)];
        generation, timer := None, None;
      } else if start != NotConstructed {
        generations := generations[gid := Generation(false, start.RaisedAfterLaunch?, Counting(false))];
        generation, timer := Some(gid), Some(gid);
      }
    }

    /** `_schedule_alert_state_retry`. */
    method ScheduleRetry(gid: Gid, start: StartResult)
      requires gid !in generations
      modifies this`pending, this`generation, this`timer, this`generations
      ensures View() == Schedule(old(View()), gid, start)
      ensures pending == (old(pending) || !shutdown)
      ensures !shutdown && start in {Started, RaisedAfterLaunch} ==>
                GenerationBusy(Timers(generation, timer, generations, running))
    {
      if shutdown {
        return;
      }
      pending := true;
      ArmTimer(gid, start);
    }

    /** `trigger` schedules a retry: after a write of its own that failed, or for a marker that waited already. */
    method RetryFromTrigger(tid: Tid, gid: Gid, start: StartResult)
      requires tid in triggers && triggers[tid] in {WriteFailed, Retrying} && gid !in generations
      modifies this`pending, this`generation, this`timer, this`generations, this`triggers
      ensures View() == NextTriggerRetry(old(View()), tid, gid, start)
      ensures pending == (old(pending) || !shutdown)
      ensures triggers
           == if old(triggers)[tid] == WriteFailed then old(triggers)[tid := Leaving] else old(triggers) - {tid}
    {
      ScheduleRetry(gid, start);
      triggers := if triggers[tid] == WriteFailed then triggers[tid := Leaving] else triggers - {tid};
    }

    /** Last section of `trigger` by the thread that sent the alert. */
    method LeaveTrigger(tid: Tid)
      requires tid in triggers && triggers[tid] == Leaving
      modifies this`triggers, this`inflight
      ensures View() == NextTriggerLeave(old(View()), tid)
      ensures inflight.None? && triggers == old(triggers) - {tid}
    {
      triggers, inflight := triggers - {tid}, None;
    }

    /** A timer's time has come: its callback starts unless it was cancelled. */
    method Elapse(gid: Gid)
      requires gid in generations && generations[gid].thread.Counting?
      modifies this`generations
      ensures View() == NextTimerElapse(old(View()), gid)
      ensures generations[gid].thread == if old(generations[gid].thread.cancelled) then Dead else Called
    {
      generations := generations[gid := generations[gid].(thread :=
        if generations[gid].thread.cancelled then Dead else Called)];
    }

    /** First section of a retry timer's callback. */
    method EnterRetry(gid: Gid)
      requires Is(Timers(generation, timer, generations, running), gid, Called)
      modifies this`running, this`timer, this`generations, this`history
      ensures View() == NextTimerEnter(old(View()), gid)
      ensures running == old(running) + {gid} && timer == if generation == Some(gid) then None else old(timer)
      ensures generations[gid].thread == if pending && !shutdown then Saving else Ending(false)
    {
      running := running + {gid};
      if generation == Some(gid) {
        timer := None;
      }
      var saves := pending && !shutdown;
      generations := generations[gid := generations[gid].(thread := if saves then Saving else Ending(false))];
      if saves {
        history := WriteStarted(history);
      }
    }

    /** The timer's write is over; a failed one will be scheduled again. */
    method FinishRetryWrite(gid: Gid, persisted: bool)
      requires gid in generations && generations[gid].thread == Saving
      modifies this`generations, this`pending, this`history
      ensures View() == NextTimerResult(old(View()), gid, persisted)
      ensures generations[gid].thread == Ending(!persisted) && pending == (old(pending) && !persisted)
    {
      generations := generations[gid := generations[gid].(thread := Ending(!persisted))];
      if persisted {
        pending := false;
      }
      history := WriteEnded(history, persisted);
    }

    /** Last section of a retry timer's callback. */
    method LeaveRetry(gid: Gid)
      requires gid in generations && generations[gid].thread.Ending?
      modifies this`running, this`generations, this`generation, this`timer
      ensures View() == NextTimerEnd(old(View()), gid)
      ensures running == old(running) - {gid} && generations[gid].done
      ensures generations[gid].thread == if old(generations[gid].thread.reschedule) then Rescheduling else Dead
      ensures generation == (if old(generation) == Some(gid) then None else old(generation))
      ensures timer == (if old(generation) == Some(gid) then None else old(timer))
    {
      running := running - {gid};
      var again := generations[gid].thread.reschedule;
      generations := generations[gid := generations[gid].(done := true,
          thread := if again then Rescheduling else Dead)];
      if generation == Some(gid) {
        generation, timer := None, None;
      }
    }

    /** After a failed write the dying timer schedules its successor. */
    method RetryFromTimer(gid: Gid, successor: Gid, start: StartResult)
      requires gid in generations && generations[gid].thread == Rescheduling && successor !in generations
      modifies this`generations, this`pending, this`generation, this`timer
      ensures View() == NextTimerRetry(old(View()), gid, successor, start)
      ensures pending == (old(pending) || !shutdown) && gid in generations && generations[gid].thread == Dead
    {
      generations := generations[gid := generations[gid].(thread := Dead)];
      ScheduleRetry(successor, start);
    }

    /** First section of shutdown. */
    method BeginShutdown(cid: Cid)
      requires cid !in callers
      modifies this`shutdown, this`timer, this`retiring, this`callers
      ensures View() == NextShutdownBegin(old(View()), cid)
      ensures shutdown && timer.None? && cid in callers && callers[cid].Joining? && callers[cid].directs == direct
      ensures callers[cid].generation == generation
      ensures callers[cid].timer == if generation.Some? then generation else old(timer)
      ensures !callers[cid].cancelled && retiring == old(retiring) + callers[cid].workers
      ensures callers[cid].workers == old(retiring) + running
                  + (match callers[cid].timer case Some(last) => {last} case None => {})
    {
      shutdown := true;
      var captured := if generation.Some? then generation else timer;
      timer := None;
      var workers := running + retiring + (if captured.Some? then {captured.value} else {});
      retiring := retiring + workers;
      callers := callers[cid := Joining(generation, captured, workers, direct, false)];
    }

    /** Shutdown cancels the timer it captured. */
    method CancelTimer(cid: Cid, ok: bool)
      requires cid in callers && callers[cid].Joining? && callers[cid].timer.Some?
      modifies this`callers, this`generations
      ensures View() == NextShutdownCancel(old(View()), cid, ok)
      ensures callers == old(callers)[cid := old(callers[cid]).(cancelled := ok)]
      ensures var gid := old(callers[cid]).timer.value;
              gid in generations && old(gid in generations && generations[gid].thread.Counting?) ==>
                generations[gid].thread == Counting(true)
    {
      var gid := callers[cid].timer.value;
      callers := callers[cid := callers[cid].(cancelled := ok)];
      if gid in generations && generations[gid].thread.Counting? {
        generations := generations[gid := generations[gid].(thread := Counting(true))];
      }
    }

    /**
      Second section of shutdown, after the joins.  Whoever is found alive, or a
      generation that is not done, ends the call with False.
     */
    method LeaveJoins(cid: Cid, alive: set<Gid>) returns (goesOn: bool)
      requires Observed(View(), cid, alive)
      modifies this`callers, this`retiring, this`generation, this`generations, this`history
      ensures View() == NextShutdownJoined(old(View()), cid, alive)
      ensures retiring == old(retiring) * alive
      ensures goesOn <==> alive == {} && (var g := old(callers[cid]).generation;
                                          g.None? || g.value !in generations || generations[g.value].done)
      // a cancelled timer that is gone without its callback has no one else to end its generation
      ensures var c, t := old(callers[cid]), old(generations);
              var ends := && c.generation.Some? && c.generation.value in t && !t[c.generation.value].startRaised
                          && c.cancelled && c.timer.Some? && c.timer.value !in alive;
              && (forall g :: g in generations <==> g in t)
              && (forall g :: g in t ==>
                    generations[g] == if ends && g == c.generation.value then t[g].(done := true) else t[g])
              && generation == (if old(generation) == c.generation
                                   && (c.generation.None? || c.generation.value !in t
                                       || generations[c.generation.value].done)
                                then None else old(generation))
      ensures goesOn ==> cid in callers && callers[cid] == AwaitingWriters(old(callers[cid]).directs)
      ensures !goesOn ==> cid !in callers && history.settled == old(history.settled)
    {
      var c := callers[cid];
      retiring := retiring * alive;
      if EndsGeneration(Timers(generation, timer, generations, running), c, alive) {
        generations := generations[c.generation.value := generations[c.generation.value].(done := true)];
      }
      var done := GenerationDone(Timers(generation, timer, generations, running), c);
      if done && generation == c.generation {
        generation := None;
      }
      goesOn := alive == {} && done;
      if goesOn {
        callers := callers[cid := AwaitingWriters(c.directs)];
      } else {
        Leave(cid, false);
      }
    }

    /** Third section of shutdown; a last write may start. */
    method DecideFlush(cid: Cid, fid: Fid, start: StartResult) returns (answer: Option<bool>)
      requires cid in callers && callers[cid].AwaitingWriters? && callers[cid].directs * direct == {} && fid !in flushes
      modifies this`flush, this`flushes, this`callers, this`history
      ensures View() == NextShutdownDecide(old(View()), cid, fid, start)
      ensures answer == Some(true) <==>
                direct == {} && !pending && (flush.None? || Flushed(Flushes(flush, flushes), flush.value))
      ensures answer.None? <==>
                && direct == {} && pending
                && (start != NotConstructed
                    || (old(flush).Some? && var f := Flushes(old(flush), old(flushes));
                        Unresolved(f, old(flush).value) || Flushed(f, old(flush).value)))
      ensures answer.None? <==> cid in callers
      ensures answer.None? ==>
                callers[cid] == AwaitingFlush(
                    if old(flush).Some? && (var f := Flushes(old(flush), old(flushes));
                                            Unresolved(f, old(flush).value) || Flushed(f, old(flush).value))
                    then old(flush).value else fid)
      ensures history.settled == (old(history.settled) || answer == Some(true))
    {
      if direct != {} {
        Leave(cid, false);
        return Some(false);
      }
      if !pending {
        var clean := flush.None? || Flushed(Flushes(flush, flushes), flush.value);
        Leave(cid, clean);
        return Some(clean);
      }
      if flush.Some? && (Unresolved(Flushes(flush, flushes), flush.value)
          || Flushed(Flushes(flush, flushes), flush.value)) {
        callers := callers[cid := AwaitingFlush(flush.value)];
        return None;
      }
      answer := StartFlush(cid, fid, start);
    }

    /** `_start_shutdown_alert_flush_locked`, when no earlier flush is of use. */
    method StartFlush(cid: Cid, fid: Fid, start: StartResult) returns (answer: Option<bool>)
      requires cid in callers && callers[cid].AwaitingWriters? && callers[cid].directs * direct == {} && fid !in flushes
      requires direct == {} && pending
      requires flush.Some? ==> !Unresolved(Flushes(flush, flushes), flush.value)
      requires flush.Some? ==> !Flushed(Flushes(flush, flushes), flush.value)
      modifies this`flush, this`flushes, this`callers, this`history
      ensures View() == NextShutdownDecide(old(View()), cid, fid, start)
      ensures answer == (if start == NotConstructed then Some(false) else None) && (answer.None? <==> cid in callers)
      ensures start in {Started, RaisedAfterLaunch} ==>
                flush == Some(fid) && flushes == old(flushes)[fid := Flush(false, false, true)]
      ensures start in {NeverStarted, NotConstructed} ==> flush.None?
      ensures start == NeverStarted ==> flushes == old(flushes)[fid := Flush(true, false, false)]
      ensures start == NotConstructed ==> flushes == old(flushes)
      ensures answer.None? ==> callers[cid] == AwaitingFlush(fid)
      ensures history.settled == old(history.settled)
    {
      flush := None;
      if start == NotConstructed {
        Leave(cid, false);
        return Some(false);
      }
      if start == NeverStarted {
        flushes := flushes[fid := Flush(true, false, false)];
      } else {
        flush, flushes, history := Some(fid), flushes[fid := Flush(false, false, true)], WriteStarted(history);
      }
      callers := callers[cid := AwaitingFlush(fid)];
      return None;
    }

    method Leave(cid: Cid, ok: bool)
      modifies this`callers, this`history
      ensures View() == Return(old(View()), cid, ok)
    {
      callers, history := callers - {cid}, history.(settled := history.settled || ok);
    }

    /** The last write reports its result; its thread may live on for a moment. */
    method FinishFlush(fid: Fid, persisted: bool)
      requires fid in flushes && flushes[fid].alive && !flushes[fid].done
      modifies this`flushes, this`pending, this`history
      ensures View() == NextFlushResult(old(View()), fid, persisted)
      ensures flushes == old(flushes)[fid := Flush(true, persisted, true)] && pending == (old(pending) && !persisted)
    {
      flushes := flushes[fid := Flush(true, persisted, true)];
      if persisted {
        pending := false;
      }
      history := WriteEnded(history, persisted);
    }

    /** Last section of shutdown. */
    method ConcludeShutdown(cid: Cid) returns (persisted: bool)
      requires cid in callers && callers[cid].AwaitingFlush?
      modifies this`callers, this`history
      ensures View() == NextShutdownConclude(old(View()), cid)
      ensures var fid := old(callers[cid]).flush;
              && persisted == (flush == Some(fid) && !pending && fid in flushes
                               && flushes[fid].done && !flushes[fid].alive && flushes[fid].result)
              && history.settled == (old(history.settled) || persisted) && cid !in callers
    {
      var fid := callers[cid].flush;
      persisted := flush == Some(fid) && Flushed(Flushes(flush, flushes), fid) && !pending;
      Leave(cid, persisted);
    }
  }
}
