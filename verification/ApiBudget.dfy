/**
  The process-local call budget used while the shared ledger is unreachable
  (`_try_fallback_admission`, `_fallback_record` and the burst log in
  bot_utils/api_budget.py).  Pruned logs stand in for the unbounded history of
  calls; the bound they enforce is about that history.
 */
module ApiBudget {
  import opened Wrappers

  type Scope = string

  /** `gated` calls passed the budget; critical and merely recorded calls did not have to. */
  datatype Call = Call(at: real, minute: bool, scope: Option<Scope>, gated: bool)

  /** A short-window policy of a shared endpoint. */
  datatype Burst = Burst(scope: Scope, max: nat, window: real)

  /** `calls` is the history that the logs stand in for. */
  datatype State = State(
    log: seq<real>,
    bursts: map<Scope, seq<real>>,
    calls: seq<Call>)

  const MINUTE := 60.0

  /** The one policy there is: order books of one venue, ten calls in two seconds. */
  const DEPTH := Burst("mexc_contract_depth", 10, 2.0)

  /** The settings of one process: the cluster limit and the assumed number of consumers. */
  datatype Settings = Settings(limit: nat, consumers: nat)

  datatype Action =
    | Admit(now: real, burst: Option<Burst>, critical: bool)
    | Record(now: real)
    | RecordBurst(now: real, recorded: Burst)
    | CountBurst(now: real, counted: Burst)

  const Start := State([], map[], [])

  function Share(total: nat, consumers: nat): (share: nat)
    ensures share >= 1
  {
    if consumers == 0 || total / consumers < 1 then 1 else total / consumers
  }

  function Since(times: seq<real>, cutoff: real): seq<real> {
    if times == [] then []
    else if times[|times| - 1] >= cutoff then Since(times[..|times| - 1], cutoff) + [times[|times| - 1]]
    else Since(times[..|times| - 1], cutoff)
  }

  function BurstLog(s: State, scope: Scope): seq<real> {
    if scope in s.bursts then s.bursts[scope] else []
  }

  function ScopeOf(burst: Option<Burst>): Option<Scope> {
    if burst.None? then None else Some(burst.value.scope)
  }

  predicate Exhausted(s: State, k: Settings, now: real, burst: Option<Burst>) {
    || |Since(s.log, now - MINUTE)| >= Share(k.limit, k.consumers)
    || (burst.Some? &&
        |Since(BurstLog(s, burst.value.scope), now - burst.value.window)| >= Share(burst.value.max, k.consumers))
  }

  function Admitted(s: State, now: real, burst: Option<Burst>, critical: bool): State {
    State(Since(s.log, now - MINUTE) + [now],
          if burst.None? then s.bursts
          else s.bursts[burst.value.scope := Since(BurstLog(s, burst.value.scope), now - burst.value.window) + [now]],
          s.calls + [Call(now, true, ScopeOf(burst), !critical)])
  }

  function Next(s: State, k: Settings, a: Action): State {
    match a
    case Admit(now, burst, critical) =>
      if Exhausted(s, k, now, burst) && !critical then s.(log := Since(s.log, now - MINUTE))
      else Admitted(s, now, burst, critical)
    case Record(now) =>
      s.(log := Since(s.log + [now], now - MINUTE), calls := s.calls + [Call(now, true, None, false)])
    case RecordBurst(now, b) =>
      s.(bursts := s.bursts[b.scope := Since(BurstLog(s, b.scope), now - b.window) + [now]],
         calls := s.calls + [Call(now, false, Some(b.scope), false)])
    case CountBurst(now, b) =>
      var recent := Since(BurstLog(s, b.scope), now - b.window);
      s.(bursts := if recent == [] then s.bursts - {b.scope} else s.bursts[b.scope := recent])
  }

  function Run(k: Settings, actions: seq<Action>): State {
    if actions == [] then Start else Next(Run(k, actions[..|actions| - 1]), k, actions[|actions| - 1])
  }

  // ----------------------------------------------------------- the procedures

  method Prune(times: seq<real>, cutoff: real) returns (recent: seq<real>)
    ensures recent == Since(times, cutoff)
  {
    recent := [];
    var i := 0;
    while i < |times|
      invariant 0 <= i <= |times|
      invariant recent == Since(times[..i], cutoff)
    {
      assert times[..i + 1][..i] == times[..i];
      if times[i] >= cutoff {
        recent := recent + [times[i]];
      }
      i := i + 1;
    }
    assert times[..i] == times;
  }

  /** The module's logs; `calls` is the history they stand in for. */
  class Fallback {
    const k: Settings
    var log: seq<real>
    var bursts: map<Scope, seq<real>>
    ghost var calls: seq<Call>

    ghost function View(): State
      reads this
    {
      State(log, bursts, calls)
    }

    constructor (k: Settings)
      ensures this.k == k && View() == Start
    {
      this.k, log, bursts, calls := k, [], map[], [];
    }

    method TryAdmission(now: real, burst: Option<Burst>, critical: bool) returns (ok: bool)
      modifies this
      ensures View() == Next(old(View()), k, Admit(now, burst, critical))
      ensures ok == (critical || !Exhausted(old(View()), k, now, burst))
      ensures calls == if ok then old(calls) + [Call(now, true, ScopeOf(burst), !critical)] else old(calls)
    {
      log := Prune(log, now - MINUTE);
      var exhausted := |log| >= Share(k.limit, k.consumers);
      var recent := [];
      if burst.Some? {
        recent := Prune(if burst.value.scope in bursts then bursts[burst.value.scope] else [],
            now - burst.value.window);
        exhausted := exhausted || |recent| >= Share(burst.value.max, k.consumers);
      }
      if exhausted && !critical {
        return false;
      }
      log := log + [now];
      if burst.Some? {
        bursts := bursts[burst.value.scope := recent + [now]];
      }
      calls := calls + [Call(now, true, ScopeOf(burst), !critical)];
      ok := true;
    }

    method RecordCall(now: real)
      modifies this`log, this`calls
      ensures View() == Next(old(View()), k, Record(now))
      ensures calls == old(calls) + [Call(now, true, None, false)]
    {
      log := Prune(log + [now], now - MINUTE);
      calls := calls + [Call(now, true, None, false)];
    }

    method RecordBurstCall(now: real, b: Burst)
      modifies this`bursts, this`calls
      ensures View() == Next(old(View()), k, RecordBurst(now, b))
      ensures calls == old(calls) + [Call(now, false, Some(b.scope), false)]
    {
      var recent := Prune(if b.scope in bursts then bursts[b.scope] else [], now - b.window);
      bursts := bursts[b.scope := recent + [now]];
      calls := calls + [Call(now, false, Some(b.scope), false)];
    }

    method BurstCount(now: real, b: Burst) returns (count: nat)
      modifies this`bursts
      ensures View() == Next(old(View()), k, CountBurst(now, b))
      ensures count == |Since(BurstLog(old(View()), b.scope), now - b.window)|
      ensures b.scope in bursts <==> count > 0
    {
      var recent := Prune(if b.scope in bursts then bursts[b.scope] else [], now - b.window);
      bursts := if recent == [] then bursts - {b.scope} else bursts[b.scope := recent];
      count := |recent|;
    }
  }

  // ------------------------------------------- the logs stand for the history

  /** Times of the calls of one kind. */
  function Times(calls: seq<Call>, kind: Call -> bool): seq<real> {
    if calls == [] then []
    else if kind(calls[|calls| - 1]) then Times(calls[..|calls| - 1], kind) + [calls[|calls| - 1].at]
    else Times(calls[..|calls| - 1], kind)
  }

  function Minute(): Call -> bool {
    (c: Call) => c.minute
  }

  function OfScope(scope: Scope): Call -> bool {
    (c: Call) => c.scope == Some(scope)
  }

  lemma {:induction false} SinceAgain(times: seq<real>, first: real, second: real)
    requires first <= second
    ensures Since(Since(times, first), second) == Since(times, second)
  {
    if times != [] {
      var init, t := times[..|times| - 1], times[|times| - 1];
      SinceAgain(init, first, second);
      if t >= first {
        SinceAppends(Since(init, first), t, second);
      }
    }
  }

  lemma SinceAppends(times: seq<real>, t: real, cutoff: real)
    ensures Since(times + [t], cutoff) == if t >= cutoff then Since(times, cutoff) + [t] else Since(times, cutoff)
  {
    assert (times + [t])[..|times|] == times;
  }

  lemma TimesAppends(calls: seq<Call>, c: Call, kind: Call -> bool)
    ensures Times(calls + [c], kind) == if kind(c) then Times(calls, kind) + [c.at] else Times(calls, kind)
  {
    assert (calls + [c])[..|calls|] == calls;
  }

  /** From `latest` on, log and history show the same calls. */
  ghost predicate StandsFor(log: seq<real>, calls: seq<Call>, kind: Call -> bool, latest: real) {
    forall cutoff: real :: latest <= cutoff ==> Since(log, cutoff) == Since(Times(calls, kind), cutoff)
  }

  lemma PrunedStandsFor(log: seq<real>, calls: seq<Call>, kind: Call -> bool, latest: real, cutoff: real)
    requires StandsFor(log, calls, kind, latest) && latest <= cutoff
    ensures StandsFor(Since(log, cutoff), calls, kind, cutoff)
  {
    forall later: real | cutoff <= later ensures Since(Since(log, cutoff), later) == Since(Times(calls, kind), later) {
      SinceAgain(log, cutoff, later);
    }
  }

  lemma ExtendedStandsFor(log: seq<real>, calls: seq<Call>, kind: Call -> bool, latest: real, c: Call)
    requires StandsFor(log, calls, kind, latest) && kind(c)
    ensures StandsFor(log + [c.at], calls + [c], kind, latest)
  {
    TimesAppends(calls, c, kind);
    forall cutoff: real | latest <= cutoff ensures Since(log + [c.at], cutoff)
        == Since(Times(calls + [c], kind), cutoff) {
      SinceAppends(log, c.at, cutoff);
      SinceAppends(Times(calls, kind), c.at, cutoff);
    }
  }

  lemma OtherCallStandsFor(log: seq<real>, calls: seq<Call>, kind: Call -> bool, latest: real, c: Call)
    requires StandsFor(log, calls, kind, latest) && !kind(c)
    ensures StandsFor(log, calls + [c], kind, latest)
  {
    TimesAppends(calls, c, kind);
  }

  lemma LaterStandsFor(log: seq<real>, calls: seq<Call>, kind: Call -> bool, latest: real, later: real)
    requires StandsFor(log, calls, kind, latest) && latest <= later
    ensures StandsFor(log, calls, kind, later)
  {
  }

  /** A call of the kind is added to a log that has been pruned for it. */
  lemma CallIsShown(log: seq<real>, calls: seq<Call>, kind: Call -> bool, latest: real, cutoff: real, c: Call)
    requires StandsFor(log, calls, kind, latest) && latest <= cutoff && kind(c)
    ensures StandsFor(Since(log, cutoff) + [c.at], calls + [c], kind, cutoff)
  {
    PrunedStandsFor(log, calls, kind, latest, cutoff);
    ExtendedStandsFor(Since(log, cutoff), calls, kind, cutoff, c);
  }

  /** A call of another kind leaves the log alone. */
  lemma OtherCallIsNotShown(log: seq<real>, calls: seq<Call>, kind: Call -> bool, latest: real, cutoff: real, c: Call)
    requires StandsFor(log, calls, kind, latest) && latest <= cutoff && !kind(c)
    ensures StandsFor(log, calls + [c], kind, cutoff)
  {
    LaterStandsFor(log, calls, kind, latest, cutoff);
    OtherCallStandsFor(log, calls, kind, cutoff, c);
  }

  /** The short window that an action names, if any, is that of the one policy. */
  ghost predicate Policies(a: Action) {
    match a
    case Admit(_, burst, _) => burst.Some? ==> burst.value == DEPTH
    case Record(_) => true
    case RecordBurst(_, b) => b == DEPTH
    case CountBurst(_, b) => b == DEPTH
  }

  function DepthLog(s: State): seq<real> {
    BurstLog(s, DEPTH.scope)
  }

  function Depth(): Call -> bool {
    OfScope(DEPTH.scope)
  }

  /** At time `now`, both kinds of log show what the history shows. */
  ghost predicate LogsFit(s: State, now: real) {
    && StandsFor(s.log, s.calls, Minute(), now - MINUTE)
    && StandsFor(DepthLog(s), s.calls, Depth(), now - DEPTH.window)
  }

  lemma AdmissionFits(s: State, k: Settings, a: Action, before: real)
    requires StandsFor(s.log, s.calls, Minute(), before - MINUTE) && before <= a.now && a.Admit?
    ensures StandsFor(Next(s, k, a).log, Next(s, k, a).calls, Minute(), a.now - MINUTE)
  {
    var was, cutoff := before - MINUTE, a.now - MINUTE;
    var c := Call(a.now, true, ScopeOf(a.burst), !a.critical);
    PrunedStandsFor(s.log, s.calls, Minute(), was, cutoff);
    CallIsShown(s.log, s.calls, Minute(), was, cutoff, c);
    if Exhausted(s, k, a.now, a.burst) && !a.critical {
      assert Next(s, k, a).log == Since(s.log, cutoff) && Next(s, k, a).calls == s.calls;
    } else {
      assert Next(s, k, a).log == Since(s.log, cutoff) + [c.at] && Next(s, k, a).calls == s.calls + [c];
    }
  }

  lemma RecordingFits(s: State, k: Settings, a: Action, before: real)
    requires StandsFor(s.log, s.calls, Minute(), before - MINUTE) && before <= a.now && a.Record?
    ensures StandsFor(Next(s, k, a).log, Next(s, k, a).calls, Minute(), a.now - MINUTE)
  {
    var c, cutoff := Call(a.now, true, None, false), a.now - MINUTE;
    CallIsShown(s.log, s.calls, Minute(), before - MINUTE, cutoff, c);
    SinceAppends(s.log, a.now, cutoff);
    assert Next(s, k, a).log == Since(s.log, cutoff) + [c.at] && Next(s, k, a).calls == s.calls + [c];
  }

  lemma MinuteLogFits(s: State, k: Settings, a: Action, before: real)
    requires StandsFor(s.log, s.calls, Minute(), before - MINUTE) && before <= a.now
    ensures StandsFor(Next(s, k, a).log, Next(s, k, a).calls, Minute(), a.now - MINUTE)
  {
    var was, cutoff := before - MINUTE, a.now - MINUTE;
    match a
    case Admit(_, _, _) => AdmissionFits(s, k, a, before);
    case Record(_) => RecordingFits(s, k, a, before);
    case RecordBurst(now, b) =>
      OtherCallIsNotShown(s.log, s.calls, Minute(), was, cutoff, Call(now, false, Some(b.scope), false));
    case CountBurst(_, _) => LaterStandsFor(s.log, s.calls, Minute(), was, cutoff);
  }

  /** No call was added, and the short log at most pruned. */
  predicate AtMostPruned(s: State, s': State, cutoff: real) {
    s'.calls == s.calls && (DepthLog(s') == DepthLog(s) || DepthLog(s') == Since(DepthLog(s), cutoff))
  }

  /** One call was added, to the short log too if it is of that scope. */
  predicate OneMoreCall(s: State, s': State, cutoff: real, now: real) {
    var n := |s.calls|;
    && |s'.calls| == n + 1 && s'.calls == s.calls + [s'.calls[n]] && s'.calls[n].at == now
    && DepthLog(s') == if Depth()(s'.calls[n]) then Since(DepthLog(s), cutoff) + [now] else DepthLog(s)
  }

  lemma DepthLogAfterAdmission(s: State, k: Settings, a: Action)
    requires Policies(a) && a.Admit?
    ensures AtMostPruned(s, Next(s, k, a), a.now - DEPTH.window)
         || OneMoreCall(s, Next(s, k, a), a.now - DEPTH.window, a.now)
  {
    if !Exhausted(s, k, a.now, a.burst) || a.critical {
      assert Next(s, k, a) == Admitted(s, a.now, a.burst, a.critical);
    }
  }

  /** What one action does to the short log. */
  lemma DepthLogAfter(s: State, k: Settings, a: Action)
    requires Policies(a)
    ensures AtMostPruned(s, Next(s, k, a), a.now - DEPTH.window)
         || OneMoreCall(s, Next(s, k, a), a.now - DEPTH.window, a.now)
  {
    if a.Admit? {
      DepthLogAfterAdmission(s, k, a);
    }
  }

  lemma DepthStepFits(s: State, s': State, was: real, cutoff: real, now: real)
    requires StandsFor(DepthLog(s), s.calls, Depth(), was) && was <= cutoff
    requires AtMostPruned(s, s', cutoff) || OneMoreCall(s, s', cutoff, now)
    ensures StandsFor(DepthLog(s'), s'.calls, Depth(), cutoff)
  {
    var log, kind := DepthLog(s), Depth();
    if AtMostPruned(s, s', cutoff) {
      LaterStandsFor(log, s.calls, kind, was, cutoff);
      PrunedStandsFor(log, s.calls, kind, was, cutoff);
    } else if kind(s'.calls[|s.calls|]) {
      CallIsShown(log, s.calls, kind, was, cutoff, s'.calls[|s.calls|]);
    } else {
      OtherCallIsNotShown(log, s.calls, kind, was, cutoff, s'.calls[|s.calls|]);
    }
  }

  lemma DepthLogFits(s: State, k: Settings, a: Action, before: real)
    requires StandsFor(DepthLog(s), s.calls, Depth(), before - DEPTH.window) && before <= a.now && Policies(a)
    ensures StandsFor(DepthLog(Next(s, k, a)), Next(s, k, a).calls, Depth(), a.now - DEPTH.window)
  {
    DepthLogAfter(s, k, a);
    DepthStepFits(s, Next(s, k, a), before - DEPTH.window, a.now - DEPTH.window, a.now);
  }

  // --------------------------------------------------- the bound on windows

  function Count(calls: seq<Call>, kind: Call -> bool): nat {
    if calls == [] then 0 else Count(calls[..|calls| - 1], kind) + (if kind(calls[|calls| - 1]) then 1 else 0)
  }

  /** Calls of a kind that had to pass the budget, in a window. */
  function GatedIn(kind: Call -> bool, from: real, width: real): Call -> bool {
    (c: Call) => kind(c) && c.gated && from <= c.at <= from + width
  }

  lemma CountAppends(calls: seq<Call>, c: Call, kind: Call -> bool)
    ensures Count(calls + [c], kind) == Count(calls, kind) + (if kind(c) then 1 else 0)
  {
    assert (calls + [c])[..|calls|] == calls;
  }

  /** The calls of a window are among those since its start. */
  lemma {:induction false} GatedAreRecent(calls: seq<Call>, kind: Call -> bool, from: real, width: real, cutoff: real)
    requires cutoff <= from
    ensures Count(calls, GatedIn(kind, from, width)) <= |Since(Times(calls, kind), cutoff)|
  {
    if calls != [] {
      var init, c := calls[..|calls| - 1], calls[|calls| - 1];
      GatedAreRecent(init, kind, from, width, cutoff);
      if kind(c) {
        SinceAppends(Times(init, kind), c.at, cutoff);
      }
    }
  }

  /** No window of that width holds more gated calls than allowed. */
  ghost predicate Bounded(calls: seq<Call>, kind: Call -> bool, width: real, cap: nat) {
    forall from: real :: Count(calls, GatedIn(kind, from, width)) <= cap
  }

  /** A gated call whose window leaves room for it keeps every window bounded. */
  lemma GatedCallKeepsBound(calls: seq<Call>, c: Call, kind: Call -> bool, width: real, cap: nat)
    requires Bounded(calls, kind, width, cap)
    requires c.gated && kind(c) ==> |Since(Times(calls, kind), c.at - width)| < cap
    ensures Bounded(calls + [c], kind, width, cap)
  {
    forall from: real ensures Count(calls + [c], GatedIn(kind, from, width)) <= cap {
      CountAppends(calls, c, GatedIn(kind, from, width));
      if GatedIn(kind, from, width)(c) {
        GatedAreRecent(calls, kind, from, width, c.at - width);
      }
    }
  }

  lemma StepKeepsMinuteBound(s: State, k: Settings, a: Action, before: real)
    requires StandsFor(s.log, s.calls, Minute(), before - MINUTE) && before <= a.now
    requires Bounded(s.calls, Minute(), MINUTE, Share(k.limit, k.consumers))
    ensures Bounded(Next(s, k, a).calls, Minute(), MINUTE, Share(k.limit, k.consumers))
  {
    var s' := Next(s, k, a);
    if s'.calls != s.calls {
      assert s'.calls == s.calls + [s'.calls[|s.calls|]];
      GatedCallKeepsBound(s.calls, s'.calls[|s.calls|], Minute(), MINUTE, Share(k.limit, k.consumers));
    }
  }

  lemma StepKeepsBurstBound(s: State, k: Settings, a: Action, before: real)
    requires StandsFor(DepthLog(s), s.calls, Depth(), before - DEPTH.window) && before <= a.now && Policies(a)
    requires Bounded(s.calls, Depth(), DEPTH.window, Share(DEPTH.max, k.consumers))
    ensures Bounded(Next(s, k, a).calls, Depth(), DEPTH.window, Share(DEPTH.max, k.consumers))
  {
    var s' := Next(s, k, a);
    if s'.calls != s.calls {
      assert s'.calls == s.calls + [s'.calls[|s.calls|]];
      GatedCallKeepsBound(s.calls, s'.calls[|s.calls|], Depth(), DEPTH.window, Share(DEPTH.max, k.consumers));
    }
  }

  /** In lock order no time is more than `d` below an earlier one. */
  ghost predicate AtMostLate(actions: seq<Action>, d: real) {
    forall i, j :: 0 <= i < j < |actions| ==> actions[i].now - d <= actions[j].now
  }

  /** Times in lock order never go back. */
  ghost predicate Orderly(actions: seq<Action>) {
    AtMostLate(actions, 0.0) && forall i :: 0 <= i < |actions| ==> Policies(actions[i])
  }

  lemma StartFits(now: real)
    ensures LogsFit(Start, now)
  {
  }

  lemma {:induction false} RunFits(k: Settings, actions: seq<Action>, now: real)
    requires Orderly(actions) && forall i :: 0 <= i < |actions| ==> actions[i].now <= now
    ensures LogsFit(Run(k, actions), now)
    decreases |actions|
  {
    if actions == [] {
      StartFits(now);
    } else {
      var init, a := actions[..|actions| - 1], actions[|actions| - 1];
      RunFits(k, init, a.now);
      MinuteLogFits(Run(k, init), k, a, a.now);
      DepthLogFits(Run(k, init), k, a, a.now);
      LogsFitLater(Next(Run(k, init), k, a), a.now, now);
    }
  }

  lemma LogsFitLater(s: State, now: real, later: real)
    requires LogsFit(s, now) && now <= later
    ensures LogsFit(s, later)
  {
    LaterStandsFor(s.log, s.calls, Minute(), now - MINUTE, later - MINUTE);
    LaterStandsFor(DepthLog(s), s.calls, Depth(), now - DEPTH.window, later - DEPTH.window);
  }

  // ------------------------------------------- admission decided by the history

  /** Calls of a kind since some time. */
  function RecentOf(kind: Call -> bool, from: real): Call -> bool {
    (c: Call) => kind(c) && c.at >= from
  }

  lemma {:induction false} RecentAreCounted(calls: seq<Call>, kind: Call -> bool, from: real)
    ensures Count(calls, RecentOf(kind, from)) == |Since(Times(calls, kind), from)|
  {
    if calls != [] {
      var init, c := calls[..|calls| - 1], calls[|calls| - 1];
      RecentAreCounted(init, kind, from);
      if kind(c) {
        SinceAppends(Times(init, kind), c.at, from);
      }
    }
  }

  /** All calls that were ever made leave room for one more, in the last minute and in the short window. */
  ghost predicate HasRoom(k: Settings, calls: seq<Call>, now: real, burst: Option<Burst>) {
    && Count(calls, RecentOf(Minute(), now - MINUTE)) < Share(k.limit, k.consumers)
    && (burst.Some? ==> Count(calls, RecentOf(Depth(), now - DEPTH.window)) < Share(DEPTH.max, k.consumers))
  }

  /** The calls that an action makes after those before it. */
  ghost function CallsOf(k: Settings, calls: seq<Call>, a: Action): seq<Call> {
    match a
    case Admit(now, burst, critical) =>
      if critical || HasRoom(k, calls, now, burst) then [Call(now, true, ScopeOf(burst), !critical)] else []
    case Record(now) => [Call(now, true, None, false)]
    case RecordBurst(now, b) => [Call(now, false, Some(b.scope), false)]
    case CountBurst(_, _) => []
  }

  /**
    With times that do not go back, the pruned logs admit exactly the calls that
    the whole history has room for: nothing is let through or held up by pruning.
   */
  lemma AdmittedIffRoom(k: Settings, actions: seq<Action>, a: Action)
    requires Orderly(actions + [a])
    ensures Run(k, actions + [a]).calls == Run(k, actions).calls + CallsOf(k, Run(k, actions).calls, a)
  {
    var s, all := Run(k, actions), actions + [a];
    assert all[..|actions|] == actions && all[|actions|] == a;
    forall i | 0 <= i < |actions| ensures actions[i] == all[i] {}
    RunFits(k, actions, a.now);
    RecentAreCounted(s.calls, Minute(), a.now - MINUTE);
    RecentAreCounted(s.calls, Depth(), a.now - DEPTH.window);
    assert Policies(all[|actions|]);
  }

  /** The share is the largest number, from one on, that all consumers may use at once. */
  lemma ShareIsLargest(total: nat, consumers: nat, n: nat)
    requires consumers > 0
    ensures 1 <= n <= Share(total, consumers) <==> n == 1 || (n > 1 && n * consumers <= total)
    ensures Share(total, 0) == 1
  {
    var share := total / consumers;
    assert share * consumers <= total < (share + 1) * consumers;
    if n <= share {
      Scaled(n, share, consumers);
    } else {
      Scaled(share + 1, n, consumers);
    }
  }

  lemma Scaled(a: nat, b: nat, factor: nat)
    requires a <= b
    ensures a * factor <= b * factor
  {
  }

  /**
    Over every sequence of calls whose times do not go back: no window of a
    minute holds more budgeted calls than this process's share, although the log
    is pruned and critical calls are let through.
   */
  lemma {:induction false} MinuteWindowIsBounded(k: Settings, actions: seq<Action>)
    requires Orderly(actions)
    ensures Bounded(Run(k, actions).calls, Minute(), MINUTE, Share(k.limit, k.consumers))
  {
    if actions != [] {
      var init, a := actions[..|actions| - 1], actions[|actions| - 1];
      MinuteWindowIsBounded(k, init);
      RunFits(k, init, a.now);
      StepKeepsMinuteBound(Run(k, init), k, a, a.now);
    }
  }

  /** The same for the short window of the shared endpoint, down to its least share of one. */
  lemma {:induction false} BurstWindowIsBounded(k: Settings, actions: seq<Action>)
    requires Orderly(actions)
    ensures Bounded(Run(k, actions).calls, Depth(), DEPTH.window, Share(DEPTH.max, k.consumers))
  {
    if actions != [] {
      var init, a := actions[..|actions| - 1], actions[|actions| - 1];
      BurstWindowIsBounded(k, init);
      RunFits(k, init, a.now);
      StepKeepsBurstBound(Run(k, init), k, a, a.now);
    }
  }

  // ------------------------------------------------------------ the cluster

  ghost function Together(histories: seq<seq<Call>>, kind: Call -> bool): nat {
    if histories == [] then 0
    else Together(histories[..|histories| - 1], kind) + Count(histories[|histories| - 1], kind)
  }

  lemma OneMore(n: nat, cap: nat)
    ensures n * cap + cap == (n + 1) * cap
  {
  }

  lemma {:induction false} TogetherBounded(histories: seq<seq<Call>>, kind: Call -> bool, cap: nat)
    requires forall h :: h in histories ==> Count(h, kind) <= cap
    ensures Together(histories, kind) <= |histories| * cap
  {
    if histories != [] {
      TogetherBounded(histories[..|histories| - 1], kind, cap);
      OneMore(|histories| - 1, cap);
    }
  }

  lemma SharesFit(total: nat, consumers: nat)
    requires 1 <= consumers <= total
    ensures consumers * Share(total, consumers) <= total
  {
  }

  /**
    As many processes as the limit is divided by, each with its own log, clock
    order and calls: together they stay within the limit in every minute.
   */
  lemma ClusterStaysWithinTheLimit(k: Settings, runs: seq<seq<Action>>, from: real)
    requires |runs| == k.consumers && 1 <= k.consumers <= k.limit
    requires forall r :: r in runs ==> Orderly(r)
    ensures Together(seq(|runs|, i requires 0 <= i < |runs| => Run(k, runs[i]).calls), GatedIn(Minute(), from, MINUTE))
            <= k.limit
  {
    var histories := seq(|runs|, i requires 0 <= i < |runs| => Run(k, runs[i]).calls);
    forall h | h in histories ensures Count(h, GatedIn(Minute(), from, MINUTE)) <= Share(k.limit, k.consumers) {
      var i :| 0 <= i < |runs| && histories[i] == h;
      MinuteWindowIsBounded(k, runs[i]);
    }
    TogetherBounded(histories, GatedIn(Minute(), from, MINUTE), Share(k.limit, k.consumers));
    SharesFit(k.limit, k.consumers);
  }

  // ------------------------------------------------ times that are out of order

  /**
    How the logs are written: a mirrored call goes into the minute log before it
    goes into the short one, with the same time, and nobody merely counts the
    short one.  Other threads may come in between.
   */
  ghost predicate IsCalled(actions: seq<Action>, i: nat)
    requires i < |actions|
  {
    Policies(actions[i]) && !actions[i].CountBurst?
    && (actions[i].RecordBurst? ==> Record(actions[i].now) in actions[..i])
  }

  ghost predicate FromCallers(actions: seq<Action>) {
    forall i {:trigger actions[i]} :: 0 <= i < |actions| ==> IsCalled(actions, i)
  }

  /** A log that is empty from some time on stands for times of which none is later. */
  ghost predicate ShowsLatest(log: seq<real>, times: seq<real>) {
    forall cutoff: real :: Since(log, cutoff) == [] ==> Since(times, cutoff) == []
  }

  lemma {:induction false} SinceEarlier(times: seq<real>, first: real, second: real)
    requires second <= first
    ensures Since(Since(times, first), second) == Since(times, first)
    ensures Since(times, second) == [] ==> Since(times, first) == []
  {
    if times != [] {
      var init, t := times[..|times| - 1], times[|times| - 1];
      SinceEarlier(init, first, second);
      if t >= first {
        SinceAppends(Since(init, first), t, second);
      }
    }
  }

  /** Pruning never shows more. */
  lemma PruningHides(times: seq<real>, first: real, cutoff: real)
    ensures Since(times, cutoff) == [] ==> Since(Since(times, first), cutoff) == []
  {
    if first <= cutoff {
      SinceAgain(times, first, cutoff);
    } else {
      SinceEarlier(times, first, cutoff);
    }
  }

  /** A log that pruning does not empty shows its latest times still. */
  lemma PrunedShowsLatest(log: seq<real>, times: seq<real>, first: real)
    requires ShowsLatest(log, times) && Since(log, first) != []
    ensures ShowsLatest(Since(log, first), times)
  {
    forall cutoff: real | Since(Since(log, first), cutoff) == [] ensures Since(times, cutoff) == [] {
      if first <= cutoff {
        SinceAgain(log, first, cutoff);
      } else {
        SinceEarlier(log, first, cutoff);
      }
    }
  }

  /** Nor is anything lost when the time for which it was pruned is added. */
  lemma ExtendedShowsLatest(log: seq<real>, times: seq<real>, now: real, width: real)
    requires ShowsLatest(log, times) && width >= 0.0
    ensures ShowsLatest(Since(log, now - width) + [now], times + [now])
  {
    forall cutoff: real | Since(Since(log, now - width) + [now], cutoff) == []
        ensures Since(times + [now], cutoff) == [] {
      SinceAppends(Since(log, now - width), now, cutoff);
      SinceAgain(log, now - width, cutoff);
      SinceAppends(times, now, cutoff);
    }
  }

  /** A later record only adds to what is shown. */
  lemma LongerShowsLatest(log: seq<real>, times: seq<real>, now: real)
    requires ShowsLatest(log, times)
    ensures ShowsLatest(log + [now], times)
  {
    forall cutoff: real | Since(log + [now], cutoff) == [] ensures Since(times, cutoff) == [] {
      SinceAppends(log, now, cutoff);
    }
  }

  /** The short log gets a time that is no later than one of the minute's history. */
  lemma ShortTimeIsShown(times: seq<real>, short: seq<real>, first: real, now: real)
    requires ShowsLatest(times, short) && HasFrom(times, now)
    ensures ShowsLatest(times, Since(short, first) + [now])
  {
    forall cutoff: real | Since(times, cutoff) == [] ensures Since(Since(short, first) + [now], cutoff) == [] {
      PruningHides(short, first, cutoff);
      SinceAppends(Since(short, first), now, cutoff);
    }
  }

  /** Some time is `now` or later. */
  ghost predicate HasFrom(times: seq<real>, now: real) {
    forall cutoff: real :: cutoff <= now ==> Since(times, cutoff) != []
  }

  lemma AddedIsFrom(times: seq<real>, now: real)
    ensures HasFrom(times + [now], now)
  {
    forall cutoff: real | cutoff <= now ensures Since(times + [now], cutoff) != [] {
      SinceAppends(times, now, cutoff);
    }
  }

  lemma {:induction false} RecordedIsShown(k: Settings, actions: seq<Action>, t: real)
    requires Record(t) in actions
    ensures HasFrom(Times(Run(k, actions).calls, Minute()), t)
  {
    var init, a := actions[..|actions| - 1], actions[|actions| - 1];
    var s, s' := Run(k, init), Run(k, actions);
    if s'.calls != s.calls {
      var c := s'.calls[|s.calls|];
      assert s'.calls == s.calls + [c];
      TimesAppends(s.calls, c, Minute());
    }
    if a == Record(t) {
      AddedIsFrom(Times(s.calls, Minute()), t);
    } else {
      RecordedIsShown(k, init, t);
      MoreIsFrom(Times(s.calls, Minute()), a.now, t);
    }
  }

  lemma MoreIsFrom(times: seq<real>, t: real, now: real)
    requires HasFrom(times, now)
    ensures HasFrom(times + [t], now)
  {
    forall cutoff: real | cutoff <= now ensures Since(times + [t], cutoff) != [] {
      SinceAppends(times, t, cutoff);
    }
  }

  /** Both logs show their latest times, and the short log shows none that the minute's history has not. */
  ghost predicate InStep(log: seq<real>, times: seq<real>, short: seq<real>, shortTimes: seq<real>) {
    ShowsLatest(log, times) && ShowsLatest(short, shortTimes) && ShowsLatest(times, short)
  }

  lemma MinuteGrows(log: seq<real>, times: seq<real>, short: seq<real>, shortTimes: seq<real>, now: real)
    requires InStep(log, times, short, shortTimes)
    ensures InStep(Since(log, now - MINUTE) + [now], times + [now], short, shortTimes)
  {
    ExtendedShowsLatest(log, times, now, MINUTE);
    LongerShowsLatest(times, short, now);
  }

  lemma ShortGrows(log: seq<real>, times: seq<real>, short: seq<real>, shortTimes: seq<real>, now: real)
    requires InStep(log, times, short, shortTimes) && HasFrom(times, now)
    ensures InStep(log, times, Since(short, now - DEPTH.window) + [now], shortTimes + [now])
  {
    ExtendedShowsLatest(short, shortTimes, now, DEPTH.window);
    ShortTimeIsShown(times, short, now - DEPTH.window, now);
  }

  lemma BothGrow(log: seq<real>, times: seq<real>, short: seq<real>, shortTimes: seq<real>, now: real)
    requires InStep(log, times, short, shortTimes)
    ensures InStep(Since(log, now - MINUTE) + [now], times + [now],
                   Since(short, now - DEPTH.window) + [now], shortTimes + [now])
  {
    MinuteGrows(log, times, short, shortTimes, now);
    AddedIsFrom(times, now);
    ShortGrows(Since(log, now - MINUTE) + [now], times + [now], short, shortTimes, now);
  }

  ghost predicate Current(s: State) {
    InStep(s.log, Times(s.calls, Minute()), DepthLog(s), Times(s.calls, Depth()))
  }

  /** What is refused for the short window finds a time of it in the minute log too. */
  lemma FullShortLogIsInStep(log: seq<real>, times: seq<real>, short: seq<real>, shortTimes: seq<real>, now: real)
    requires InStep(log, times, short, shortTimes) && Since(short, now - DEPTH.window) != []
    ensures Since(log, now - MINUTE) != []
  {
    if Since(log, now - MINUTE) == [] {
      assert Since(times, now - MINUTE) == [] && Since(short, now - MINUTE) == [];
      SinceEarlier(short, now - DEPTH.window, now - MINUTE);
    }
  }

  /** A refusal leaves something in the minute log, be it for the minute or for the short window. */
  lemma RefusalKeepsCurrent(s: State, k: Settings, a: Action)
    requires Current(s) && Policies(a) && a.Admit? && Exhausted(s, k, a.now, a.burst) && !a.critical
    ensures Current(Next(s, k, a))
  {
    if |Since(s.log, a.now - MINUTE)| < Share(k.limit, k.consumers) {
      FullShortLogIsInStep(s.log, Times(s.calls, Minute()), DepthLog(s), Times(s.calls, Depth()), a.now);
    }
    PrunedShowsLatest(s.log, Times(s.calls, Minute()), a.now - MINUTE);
  }

  /** What an admission does to the logs and to what they stand for. */
  lemma AdmissionAdds(s: State, k: Settings, a: Action)
    requires Policies(a) && a.Admit? && (a.critical || !Exhausted(s, k, a.now, a.burst))
    ensures var s' := Next(s, k, a);
            && s'.log == Since(s.log, a.now - MINUTE) + [a.now]
            && Times(s'.calls, Minute()) == Times(s.calls, Minute()) + [a.now]
            && DepthLog(s') == (if a.burst.Some? then Since(DepthLog(s), a.now - DEPTH.window) + [a.now]
                else DepthLog(s))
            && Times(s'.calls, Depth()) == (if a.burst.Some? then Times(s.calls, Depth()) + [a.now]
                else Times(s.calls, Depth()))
  {
    var c := Call(a.now, true, ScopeOf(a.burst), !a.critical);
    TimesAppends(s.calls, c, Minute());
    TimesAppends(s.calls, c, Depth());
  }

  lemma GrownIsCurrent(s: State, s': State, now: real, both: bool)
    requires Current(s)
    requires s'.log == Since(s.log, now - MINUTE) + [now]
    requires Times(s'.calls, Minute()) == Times(s.calls, Minute()) + [now]
    requires DepthLog(s') == if both then Since(DepthLog(s), now - DEPTH.window) + [now] else DepthLog(s)
    requires Times(s'.calls, Depth()) == if both then Times(s.calls, Depth()) + [now] else Times(s.calls, Depth())
    ensures Current(s')
  {
    if both {
      BothGrow(s.log, Times(s.calls, Minute()), DepthLog(s), Times(s.calls, Depth()), now);
    } else {
      MinuteGrows(s.log, Times(s.calls, Minute()), DepthLog(s), Times(s.calls, Depth()), now);
    }
  }

  lemma AdmissionKeepsCurrent(s: State, k: Settings, a: Action)
    requires Current(s) && Policies(a) && a.Admit? && (a.critical || !Exhausted(s, k, a.now, a.burst))
    ensures Current(Next(s, k, a))
  {
    AdmissionAdds(s, k, a);
    GrownIsCurrent(s, Next(s, k, a), a.now, a.burst.Some?);
  }

  lemma RecordAdds(s: State, k: Settings, now: real)
    ensures var s' := Next(s, k, Record(now));
            && s'.log == Since(s.log, now - MINUTE) + [now]
            && Times(s'.calls, Minute()) == Times(s.calls, Minute()) + [now]
            && DepthLog(s') == DepthLog(s) && Times(s'.calls, Depth()) == Times(s.calls, Depth())
  {
    var c := Call(now, true, None, false);
    TimesAppends(s.calls, c, Minute());
    TimesAppends(s.calls, c, Depth());
    SinceAppends(s.log, now, now - MINUTE);
  }

  lemma RecordKeepsCurrent(s: State, k: Settings, a: Action)
    requires Current(s) && a.Record?
    ensures Current(Next(s, k, a))
  {
    RecordAdds(s, k, a.now);
    GrownIsCurrent(s, Next(s, k, a), a.now, false);
  }

  lemma RecordBurstKeepsCurrent(s: State, k: Settings, a: Action)
    requires Current(s) && a == RecordBurst(a.now, DEPTH) && HasFrom(Times(s.calls, Minute()), a.now)
    ensures Current(Next(s, k, a))
  {
    var c := Call(a.now, false, Some(DEPTH.scope), false);
    TimesAppends(s.calls, c, Minute());
    TimesAppends(s.calls, c, Depth());
    ShortGrows(s.log, Times(s.calls, Minute()), DepthLog(s), Times(s.calls, Depth()), a.now);
  }

  lemma {:induction false} RunIsCurrent(k: Settings, actions: seq<Action>)
    requires FromCallers(actions)
    ensures Current(Run(k, actions))
  {
    if actions != [] {
      var n := |actions| - 1;
      var init, a := actions[..n], actions[n];
      PrefixIsFromCallers(actions);
      RunIsCurrent(k, init);
      var s := Run(k, init);
      assert IsCalled(actions, n);
      match a
      case Admit(now, burst, critical) =>
        if Exhausted(s, k, now, burst) && !critical {
          RefusalKeepsCurrent(s, k, a);
        } else {
          AdmissionKeepsCurrent(s, k, a);
        }
      case Record(_) => RecordKeepsCurrent(s, k, a);
      case RecordBurst(now, _) =>
        RecordedIsShown(k, init, now);
        RecordBurstKeepsCurrent(s, k, a);
    }
  }

  lemma PrefixIsFromCallers(actions: seq<Action>)
    requires actions != [] && FromCallers(actions)
    ensures FromCallers(actions[..|actions| - 1])
  {
    var init := actions[..|actions| - 1];
    forall i | 0 <= i < |init| ensures IsCalled(init, i) {
      assert IsCalled(actions, i) && init[i] == actions[i] && init[..i] == actions[..i];
    }
  }

  /** With a share of one the minute bound holds in whatever order the times come. */
  lemma {:induction false} ShareOfOneIsBounded(k: Settings, actions: seq<Action>)
    requires Share(k.limit, k.consumers) == 1 && FromCallers(actions)
    ensures Bounded(Run(k, actions).calls, Minute(), MINUTE, 1)
  {
    if actions != [] {
      var init, a := actions[..|actions| - 1], actions[|actions| - 1];
      PrefixIsFromCallers(actions);
      ShareOfOneIsBounded(k, init);
      RunIsCurrent(k, init);
      var s, s' := Run(k, init), Next(Run(k, init), k, a);
      if s'.calls != s.calls {
        assert s'.calls == s.calls + [s'.calls[|s.calls|]];
        GatedCallKeepsBound(s.calls, s'.calls[|s.calls|], Minute(), MINUTE, 1);
      }
    }
  }

  /**
    So with the short window: the number of consumers is never taken to be below
    six, which leaves each a share of one, and that bound needs no order of times.
   */
  lemma {:induction false} BurstWindowNeedsNoOrder(k: Settings, actions: seq<Action>)
    requires k.consumers >= 6 && FromCallers(actions)
    ensures Bounded(Run(k, actions).calls, Depth(), DEPTH.window, Share(DEPTH.max, k.consumers))
    ensures Share(DEPTH.max, k.consumers) == 1
  {
    if actions != [] {
      var n := |actions| - 1;
      var init, a := actions[..n], actions[n];
      PrefixIsFromCallers(actions);
      BurstWindowNeedsNoOrder(k, init);
      RunIsCurrent(k, init);
      assert IsCalled(actions, n);
      var s, s' := Run(k, init), Next(Run(k, init), k, a);
      if s'.calls != s.calls {
        assert s'.calls == s.calls + [s'.calls[|s.calls|]];
        GatedCallKeepsBound(s.calls, s'.calls[|s.calls|], Depth(), DEPTH.window, 1);
      }
    }
  }

  lemma RunAppends(k: Settings, actions: seq<Action>, a: Action)
    ensures Run(k, actions + [a]) == Next(Run(k, actions), k, a)
  {
    assert (actions + [a])[..|actions|] == actions;
  }

  /** What an admitted call without a scope leaves behind. */
  lemma PlainAdmission(k: Settings, before: seq<Action>, now: real, kept: seq<real>)
    requires Since(Run(k, before).log, now - MINUTE) == kept && |kept| < Share(k.limit, k.consumers)
    ensures var s, s' := Run(k, before), Run(k, before + [Admit(now, None, false)]);
            && s'.log == kept + [now] && s'.calls == s.calls + [Call(now, true, None, true)]
            && Count(s'.calls, GatedIn(Minute(), 10.0, MINUTE))
               == Count(s.calls, GatedIn(Minute(), 10.0, MINUTE)) + (if 10.0 <= now <= 70.0 then 1 else 0)
  {
    RunAppends(k, before, Admit(now, None, false));
    CountAppends(Run(k, before).calls, Call(now, true, None, true), GatedIn(Minute(), 10.0, MINUTE));
  }

  /** `n` calls at one time. */
  function Early(n: nat): seq<Action> {
    if n == 0 then [] else Early(n - 1) + [Admit(10.0, None, false)]
  }

  lemma {:induction false} EarlyCallsAreEarly(n: nat)
    ensures |Early(n)| == n && forall i :: 0 <= i < n ==> Early(n)[i] == Admit(10.0, None, false)
  {
    if n > 0 {
      EarlyCallsAreEarly(n - 1);
    }
  }

  predicate AllAt(times: seq<real>, t: real) {
    forall i :: 0 <= i < |times| ==> times[i] == t
  }

  lemma {:induction false} SinceOneTime(times: seq<real>, t: real, cutoff: real)
    requires AllAt(times, t)
    ensures Since(times, cutoff) == if cutoff <= t then times else []
  {
    if times != [] {
      SinceOneTime(times[..|times| - 1], t, cutoff);
    }
  }

  lemma {:induction false} EarlyCallsFillTheShare(k: Settings, n: nat)
    requires n <= Share(k.limit, k.consumers)
    ensures var s := Run(k, Early(n));
            && |s.log| == n && AllAt(s.log, 10.0) && Count(s.calls, GatedIn(Minute(), 10.0, MINUTE)) == n
  {
    if n > 0 {
      var log := Run(k, Early(n - 1)).log;
      EarlyCallsFillTheShare(k, n - 1);
      SinceOneTime(log, 10.0, 10.0 - MINUTE);
      PlainAdmission(k, Early(n - 1), 10.0, log);
    }
  }

  /** The share is used up, a later call prunes the log, and a call that is `d` late comes in after it. */
  function LateEntries(n: nat, d: real): seq<Action> {
    Early(n) + [Admit(70.0 + d / 2.0, None, false)] + [Admit(70.0 - d / 2.0, None, false)]
  }

  lemma LateEntriesAreLate(n: nat, d: real)
    requires 0.0 < d <= MINUTE
    ensures FromCallers(LateEntries(n, d)) && AtMostLate(LateEntries(n, d), d)
  {
    var actions := LateEntries(n, d);
    EarlyCallsAreEarly(n);
    forall i | 0 <= i < |actions|
      ensures IsCalled(actions, i) && 10.0 <= actions[i].now <= 70.0 + d / 2.0
      ensures i < |actions| - 2 ==> actions[i].now == 10.0
    {
      if i < |actions| - 2 {
        assert actions[i] == Early(n)[i];
      }
    }
  }

  /** Times are read before the lock is taken, so this happens; with any lateness it overruns every share above one. */
  lemma LateEntryOverruns(k: Settings, d: real)
    requires 0.0 < d <= MINUTE && Share(k.limit, k.consumers) > 1
    ensures var cap := Share(k.limit, k.consumers);
            && FromCallers(LateEntries(cap, d)) && AtMostLate(LateEntries(cap, d), d)
            && !Bounded(Run(k, LateEntries(cap, d)).calls, Minute(), MINUTE, cap)
  {
    var cap := Share(k.limit, k.consumers);
    LateEntriesAreLate(cap, d);
    LateEntriesAreAdmitted(k, cap, 70.0 + d / 2.0, 70.0 - d / 2.0);
    assert Count(Run(k, LateEntries(cap, d)).calls, GatedIn(Minute(), 10.0, MINUTE)) > cap;
  }

  lemma LateEntriesAreAdmitted(k: Settings, cap: nat, first: real, second: real)
    requires cap == Share(k.limit, k.consumers) > 1 && 10.0 <= second <= 70.0 < first
    ensures Count(Run(k, Early(cap) + [Admit(first, None, false)] + [Admit(second, None, false)]).calls,
                  GatedIn(Minute(), 10.0, MINUTE)) == cap + 1
  {
    EarlyCallsFillTheShare(k, cap);
    SinceOneTime(Run(k, Early(cap)).log, 10.0, first - MINUTE);
    PlainAdmission(k, Early(cap), first, []);
    assert [] + [first] == [first];
    SinceAppends([], first, second - MINUTE);
    PlainAdmission(k, Early(cap) + [Admit(first, None, false)], second, [first]);
  }

  /**
    How late a time may be: the minute bound holds of all runs with lateness at
    most `d` exactly when there is none, or the share is one.
   */
  lemma LatenessIsHarmlessIff(k: Settings, d: real)
    requires d >= 0.0
    ensures (forall actions: seq<Action> | FromCallers(actions) && AtMostLate(actions, d) ::
               Bounded(Run(k, actions).calls, Minute(), MINUTE, Share(k.limit, k.consumers)))
       <==> d == 0.0 || Share(k.limit, k.consumers) == 1
  {
    if d == 0.0 || Share(k.limit, k.consumers) == 1 {
      forall actions: seq<Action> | FromCallers(actions) && AtMostLate(actions, d)
        ensures Bounded(Run(k, actions).calls, Minute(), MINUTE, Share(k.limit, k.consumers))
      {
        if d == 0.0 {
          assert forall i :: 0 <= i < |actions| ==> IsCalled(actions, i);
          MinuteWindowIsBounded(k, actions);
        } else {
          ShareOfOneIsBounded(k, actions);
        }
      }
    } else {
      LateEntryOverruns(k, if d <= MINUTE then d else MINUTE);
    }
  }

  /** So the bound holds in all orders of times exactly when the share is one. */
  lemma OrderIsNeededIff(k: Settings)
    ensures (forall actions: seq<Action> | FromCallers(actions) ::
               Bounded(Run(k, actions).calls, Minute(), MINUTE, Share(k.limit, k.consumers)))
       <==> Share(k.limit, k.consumers) == 1
  {
    if Share(k.limit, k.consumers) == 1 {
      forall actions: seq<Action> | FromCallers(actions)
        ensures Bounded(Run(k, actions).calls, Minute(), MINUTE, Share(k.limit, k.consumers))
      {
        ShareOfOneIsBounded(k, actions);
      }
    } else {
      LateEntryOverruns(k, MINUTE);
    }
  }
}
