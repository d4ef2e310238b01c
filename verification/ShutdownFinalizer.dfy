/**
  The finalization of a bot's shutdown (`finalize_runtime_shutdown` and
  `_close_exchange_for_shutdown` in bot_utils/runtime_threads.py): a pass that
  is repeated until it succeeds.  Each pass observes worker threads and the
  outcome of the position action, closes resources in a fixed order of groups,
  and may only then report completion.
 */
module ShutdownFinalizer {
  import opened Wrappers

  /** The place of a name in alphabetical order, where the DB workers stand at zero and the news tasks at one. */
  type Place = p: real | p != 0.0 && p != 1.0 witness 2.0

  /** The resources that the order of closing singles out, and all others. */
  datatype Name = Expectancy | TradeState | DbWorkers | News | Llm | Logger | Other(place: Place)

  /** A resource without a place of its own in the order. */
  type Regular = n: Name | n !in {Expectancy, TradeState, Llm, Logger} witness News

  /** What a closer answers; None and True acknowledge, everything else leaves the resource open. */
  datatype Answer = Acknowledged | NotConfirmed

  datatype Exchange = NoExchange | NoCloser | Closer(answer: Answer)

  datatype Count = NoCounter | CountFailed | Counted(open: nat)

  /** Everything one pass meets. */
  datatype Pass = Pass(
    threads: Option<map<nat, bool>>,
    inProgress: bool,
    emergencyClosed: bool,
    preserved: bool,
    count: Count,
    results: map<Name, bool>,
    closers: map<Name, bool>,
    answer: Name -> Answer,
    exchange: Exchange,
    stillInProgress: bool,
    statusWritten: bool)

  datatype Event =
    | Required(name: Name)
    | Reported(name: Name)
    | Called(name: Name, acknowledged: bool, quiet: bool)
    | ExchangeAbsent
    | ExchangeCalled(acknowledged: bool, quiet: bool, terminal: bool)
    | Reopened(quiet: bool)
    | Completed(quiet: bool, emergencyClosed: bool, preserved: bool, empty: bool)

  datatype State = State(
    complete: bool,
    required: set<Name>,
    callable: map<Name, bool>,
    closed: set<Name>,
    exchangeClosed: bool,
    trace: seq<Event>)

  /** A pass under way: the state, and what is known of each resource in this pass. */
  datatype Progress = Progress(s: State, results: map<Name, bool>)

  const Start := State(false, {}, map[], {}, false, [])

  // ----------------------------------------------------- reading one pass

  predicate ThreadsKnown(w: Pass) {
    w.threads.Some? && w.threads.value != map[]
  }

  predicate Quiet(w: Pass) {
    ThreadsKnown(w) && (forall t :: t in w.threads.value ==> !w.threads.value[t]) && !w.inProgress
  }

  /** Positions are still there, or nobody can tell: the close has to be done again. */
  predicate PositionsLeft(w: Pass) {
    w.count.CountFailed? || (w.count.Counted? && w.count.open > 0)
  }

  predicate MustReopen(w: Pass) {
    Quiet(w) && w.emergencyClosed && !w.preserved && PositionsLeft(w)
  }

  predicate ClosedAfterCheck(w: Pass) {
    w.emergencyClosed && !MustReopen(w)
  }

  predicate Terminal(w: Pass) {
    ClosedAfterCheck(w) || w.preserved
  }

  function Log(s: State, e: Event): State {
    s.(trace := s.trace + [e])
  }

  // ---------------------------------------------------------- one pass

  function Require(s: State, n: Name): State {
    if n in s.required then s else Log(s.(required := s.required + {n}), Required(n))
  }

  function Report(s: State, n: Name): State {
    if n in s.closed then s else Log(s.(closed := s.closed + {n}), Reported(n))
  }

  function RegisterOne(s: State, n: Name, w: Pass): State {
    var s' := Require(s, n);
    var s'' := if n in w.results && w.results[n] then Report(s', n) else s';
    if n in w.closers then s''.(callable := s''.callable[n := w.closers[n]]) else s''
  }

  /** Results and closers that the caller hands in, in any order. */
  function Register(s: State, names: seq<Name>, w: Pass): (s': State)
    ensures s'.complete == s.complete
  {
    if names == [] then s else RegisterOne(Register(s, names[..|names| - 1], w), names[|names| - 1], w)
  }

  function CloseOne(p: Progress, n: Name, w: Pass): (p': Progress)
    ensures p'.s.complete == p.s.complete && p'.s.required == p.s.required
  {
    if n in p.s.closed then p.(results := p.results[n := true])
    else if !Quiet(w) || n !in p.s.callable || !p.s.callable[n] then p.(results := p.results[n := false])
    else
      var done := w.answer(n).Acknowledged?;
      var s := Log(p.s, Called(n, done, Quiet(w)));
      Progress(if done && n != Logger then s.(closed := s.closed + {n}) else s, p.results[n := done])
  }

  function CloseIfRequired(p: Progress, n: Name, w: Pass): Progress {
    if n in p.s.required then CloseOne(p, n, w) else p
  }

  predicate Succeeded(p: Progress, n: Name) {
    n in p.results && p.results[n]
  }

  /** The DB workers wait for the producers that still write through them. */
  predicate ProducersDone(p: Progress) {
    forall n :: n in {Expectancy, TradeState} && n in p.s.required ==> Succeeded(p, n)
  }

  function CloseRegular(p: Progress, names: seq<Regular>, w: Pass): (p': Progress)
    ensures p'.s.complete == p.s.complete && p'.s.required == p.s.required
  {
    if names == [] then p
    else
      var before := CloseRegular(p, names[..|names| - 1], w);
      var n := names[|names| - 1];
      if n == DbWorkers && !ProducersDone(before) then before.(results := before.results[n := false])
      else CloseOne(before, n, w)
  }

  function Rank(n: Regular): real {
    match n
    case DbWorkers => 0.0
    case News => 1.0
    case Other(place) => place
  }

  /** Some name comes first. */
  lemma {:induction false} FirstExists(names: set<Regular>)
    requires names != {}
    ensures exists n :: IsFirst(names, n)
    decreases |names|
  {
    var x :| x in names;
    var others := names - {x};
    assert names == others + {x};
    if others == {} {
      assert IsFirst(names, x);
    } else {
      FirstExists(others);
      var y :| IsFirst(others, y);
      assert IsFirst(names, if Rank(x) <= Rank(y) then x else y);
    }
  }

  lemma RankTellsApart(n: Regular, m: Regular)
    requires Rank(n) == Rank(m)
    ensures n == m
  {
  }

  predicate IsFirst(names: set<Regular>, n: Regular) {
    n in names && forall m :: m in names ==> Rank(n) <= Rank(m)
  }

  function First(names: set<Regular>): (n: Regular)
    requires names != {}
    ensures IsFirst(names, n)
  {
    FirstExists(names);
    assert forall n, m :: IsFirst(names, n) && IsFirst(names, m) ==> n == m by {
      forall n, m | IsFirst(names, n) && IsFirst(names, m) ensures n == m {
        RankTellsApart(n, m);
      }
    }
    var n :| IsFirst(names, n);
    n
  }

  /** The names in alphabetical order. */
  function Sorted(names: set<Regular>): seq<Regular>
    decreases |names|
  {
    if names == {} then [] else [First(names)] + Sorted(names - {First(names)})
  }

  lemma {:induction false} SortedHoldsAll(names: set<Regular>)
    ensures forall n :: n in names ==> n in Sorted(names)
    decreases |names|
  {
    if names != {} {
      SortedHoldsAll(names - {First(names)});
    }
  }

  function RegularOf(required: set<Name>): set<Regular> {
    set n: Name | n in required && n !in {Expectancy, TradeState, Llm, Logger}
  }

  /** The language-model clients wait for the news tasks that may be inside them. */
  function CloseLlm(p: Progress, w: Pass): Progress {
    if Llm !in p.s.required then p
    else if News in p.results && !p.results[News] then p.(results := p.results[Llm := false])
    else CloseOne(p, Llm, w)
  }

  function CloseExchange(s: State, w: Pass): State {
    if s.exchangeClosed || !Terminal(w) then s
    else match w.exchange
      case NoExchange => Log(s.(exchangeClosed := true), ExchangeAbsent)
      case NoCloser => if Quiet(w) && !w.stillInProgress then Log(s.(exchangeClosed := true), ExchangeAbsent) else s
      case Closer(answer) =>
        if !Quiet(w) || w.stillInProgress then s
        else Log(s.(exchangeClosed := answer.Acknowledged?),
            ExchangeCalled(answer.Acknowledged?, Quiet(w), Terminal(w)))
  }

  predicate OthersDone(p: Progress) {
    forall n :: n in p.s.required && n != Logger ==> Succeeded(p, n)
  }

  /** The log queues come last: they carry what every other closer still reports. */
  function CloseLogger(p: Progress, w: Pass): Progress {
    if Logger !in p.s.required then p
    else if Logger !in p.s.closed && !(Quiet(w) && p.s.exchangeClosed && OthersDone(p)) then
      p.(results := p.results[Logger := false])
    else CloseOne(p, Logger, w)
  }

  predicate AllDone(p: Progress) {
    p.s.exchangeClosed && forall n :: n in p.s.required ==> Succeeded(p, n)
  }

  predicate Clean(p: Progress, w: Pass) {
    && Quiet(w)
    && ClosedAfterCheck(w) != w.preserved
    && AllDone(p)
    && w.statusWritten
  }

  function CloseEverything(s: State, w: Pass): Progress {
    var p1 := CloseIfRequired(CloseIfRequired(Progress(s, map[]), Expectancy, w), TradeState, w);
    var p2 := CloseLlm(CloseRegular(p1, Sorted(RegularOf(s.required)), w), w);
    CloseLogger(p2.(s := CloseExchange(p2.s, w)), w)
  }

  function Finish(p: Progress, w: Pass): State {
    if !Clean(p, w) then p.s
    else Log(p.s.(complete := true), Completed(Quiet(w), ClosedAfterCheck(w), w.preserved, !PositionsLeft(w)))
  }

  function Registered(s: State, names: seq<Name>, w: Pass): State {
    var s' := if MustReopen(w) then Log(s, Reopened(Quiet(w))) else s;
    Register(s', names, w)
  }

  /** One call; `names` are the resources it hands in. */
  function Finalize(s: State, names: seq<Name>, w: Pass): State {
    if s.complete then s else Finish(CloseEverything(Registered(s, names, w), w), w)
  }

  // ------------------------------------------------------------ the procedure

  class Finalizer {
    var complete: bool
    var required: set<Name>
    var callable: map<Name, bool>
    var closed: set<Name>
    var exchangeClosed: bool
    var trace: seq<Event>

    function View(): State
      reads this
    {
      State(complete, required, callable, closed, exchangeClosed, trace)
    }

    constructor ()
      ensures View() == Start
    {
      complete, required, callable, closed, exchangeClosed, trace := false, {}, map[], {}, false, [];
    }

    method RegisterAll(names: seq<Name>, w: Pass)
      modifies this
      ensures View() == Register(old(View()), names, w)
    {
      var i := 0;
      while i < |names|
        invariant 0 <= i <= |names|
        invariant View() == Register(old(View()), names[..i], w)
      {
        var n := names[i];
        assert names[..i + 1][..i] == names[..i];
        if n !in required {
          required, trace := required + {n}, trace + [Required(n)];
        }
        if n in w.results && w.results[n] && n !in closed {
          closed, trace := closed + {n}, trace + [Reported(n)];
        }
        if n in w.closers {
          callable := callable[n := w.closers[n]];
        }
        i := i + 1;
      }
      assert names[..i] == names;
    }

    method CloseResource(n: Name, w: Pass, results: map<Name, bool>) returns (updated: map<Name, bool>)
      modifies this
      ensures Progress(View(), updated) == CloseOne(Progress(old(View()), results), n, w)
    {
      if n in closed {
        return results[n := true];
      }
      if !Quiet(w) || n !in callable || !callable[n] {
        return results[n := false];
      }
      var done := w.answer(n).Acknowledged?;
      trace := trace + [Called(n, done, Quiet(w))];
      if done && n != Logger {
        closed := closed + {n};
      }
      return results[n := done];
    }

    method CloseRegularResources(w: Pass, known: map<Name, bool>) returns (results: map<Name, bool>)
      modifies this
      ensures Progress(View(), results)
           == CloseRegular(Progress(old(View()), known), Sorted(RegularOf(old(required))), w)
    {
      var order := Sorted(RegularOf(required));
      results := known;
      var i := 0;
      while i < |order|
        invariant 0 <= i <= |order|
        invariant Progress(View(), results) == CloseRegular(Progress(old(View()), known), order[..i], w)
      {
        var n := order[i];
        assert order[..i + 1][..i] == order[..i];
        var waits := (Expectancy in required && !(Expectancy in results && results[Expectancy]))
                  || (TradeState in required && !(TradeState in results && results[TradeState]));
        if n == DbWorkers && waits {
          results := results[n := false];
        } else {
          results := CloseResource(n, w, results);
        }
        i := i + 1;
      }
      assert order[..i] == order;
    }

    method CloseExchangeForShutdown(w: Pass)
      modifies this
      ensures View() == CloseExchange(old(View()), w)
    {
      if exchangeClosed || !Terminal(w) {
        return;
      }
      if w.exchange.NoExchange? {
        exchangeClosed, trace := true, trace + [ExchangeAbsent];
        return;
      }
      if !Quiet(w) || w.stillInProgress {
        return;
      }
      match w.exchange
      case NoCloser =>
        exchangeClosed, trace := true, trace + [ExchangeAbsent];
      case Closer(answer) =>
        exchangeClosed, trace := answer.Acknowledged?,
            trace + [ExchangeCalled(answer.Acknowledged?, Quiet(w), Terminal(w))];
    }

    method CloseLlmResources(w: Pass, known: map<Name, bool>) returns (results: map<Name, bool>)
      modifies this
      ensures Progress(View(), results) == CloseLlm(Progress(old(View()), known), w)
    {
      results := known;
      if Llm in required {
        if News in results && !results[News] {
          results := results[Llm := false];
        } else {
          results := CloseResource(Llm, w, results);
        }
      }
    }

    method FlushLogger(w: Pass, known: map<Name, bool>) returns (results: map<Name, bool>)
      modifies this
      ensures Progress(View(), results) == CloseLogger(Progress(old(View()), known), w)
    {
      results := known;
      if Logger in required {
        var othersDone := forall n :: n in required && n != Logger ==> n in results && results[n];
        if Logger !in closed && !(Quiet(w) && exchangeClosed && othersDone) {
          results := results[Logger := false];
        } else {
          results := CloseResource(Logger, w, results);
        }
      }
    }

    method CloseProducers(w: Pass) returns (results: map<Name, bool>)
      modifies this
      ensures Progress(View(), results)
           == CloseIfRequired(CloseIfRequired(Progress(old(View()), map[]), Expectancy, w), TradeState, w)
    {
      results := map[];
      if Expectancy in required {
        results := CloseResource(Expectancy, w, results);
      }
      if TradeState in required {
        results := CloseResource(TradeState, w, results);
      }
    }

    method CloseInOrder(w: Pass) returns (results: map<Name, bool>)
      modifies this
      ensures Progress(View(), results) == CloseEverything(old(View()), w)
    {
      results := CloseProducers(w);
      results := CloseRegularResources(w, results);
      results := CloseLlmResources(w, results);
      CloseExchangeForShutdown(w);
      results := FlushLogger(w, results);
    }

    method Conclude(results: map<Name, bool>, w: Pass) returns (clean: bool)
      modifies this`complete, this`trace
      ensures View() == Finish(Progress(old(View()), results), w)
      ensures clean == Clean(Progress(old(View()), results), w)
    {
      clean := Clean(Progress(View(), results), w);
      if clean {
        complete := true;
        trace := trace + [Completed(Quiet(w), ClosedAfterCheck(w), w.preserved, !PositionsLeft(w))];
      }
    }

    method FinalizeRuntimeShutdown(names: seq<Name>, w: Pass) returns (clean: bool)
      modifies this
      ensures View() == Finalize(old(View()), names, w)
      ensures clean == complete
    {
      if complete {
        return true;
      }
      ghost var s := View();
      if MustReopen(w) {
        trace := trace + [Reopened(Quiet(w))];
      }
      RegisterAll(names, w);
      ghost var registered := View();
      assert registered == Registered(s, names, w);
      var results := CloseInOrder(w);
      assert Progress(View(), results) == CloseEverything(registered, w);
      clean := Conclude(results, w);
    }
  }

  // --------------------------------------------------------- safety of runs

  /** The resource is known to be closed, by its own acknowledgement or by the caller's report. */
  ghost predicate Done(past: seq<Event>, n: Name) {
    Reported(n) in past || Called(n, true, true) in past
  }

  ghost predicate ExchangeDone(past: seq<Event>) {
    ExchangeAbsent in past || ExchangeCalled(true, true, true) in past
  }

  ghost predicate AllOthersDone(past: seq<Event>) {
    forall n: Name :: Required(n) in past && n != Logger ==> Done(past, n)
  }

  ghost predicate Ended(past: seq<Event>) {
    exists a, b, c, d :: Completed(a, b, c, d) in past
  }

  /** Whether `e` may come next after `past`. */
  ghost predicate Admissible(past: seq<Event>, e: Event) {
    !Ended(past) &&
    match e
    case Required(_) => true
    case Reported(_) => true
    case Reopened(quiet) => quiet
    case Called(n, _, quiet) =>
      && quiet && Required(n) in past
      && Reported(n) !in past
      && (n != Logger ==> Called(n, true, true) !in past)
      && (n == DbWorkers ==> forall p :: p in {Expectancy, TradeState} && Required(p) in past ==> Done(past, p))
      && (n == Llm ==> Required(News) in past ==> Done(past, News))
      && (n == Logger ==> ExchangeDone(past) && AllOthersDone(past))
    case ExchangeAbsent => !ExchangeDone(past)
    case ExchangeCalled(_, quiet, terminal) => quiet && terminal && !ExchangeDone(past)
    case Completed(quiet, closed, preserved, empty) =>
      && quiet && closed != preserved && (closed ==> empty)
      && ExchangeDone(past) && AllOthersDone(past)
      && (Required(Logger) in past && Reported(Logger) !in past ==>
            past != [] && past[|past| - 1] == Called(Logger, true, true))
  }

  ghost predicate Sound(trace: seq<Event>) {
    forall i :: 0 <= i < |trace| ==> Admissible(trace[..i], trace[i])
  }

  /** The fields are what the history says. */
  ghost predicate FieldsFit(s: State) {
    && (forall n :: n in s.required <==> Required(n) in s.trace)
    && (forall n :: n in s.closed <==> Reported(n) in s.trace || (n != Logger && Called(n, true, true) in s.trace))
    && (s.exchangeClosed <==> ExchangeDone(s.trace))
    && (s.complete <==> Ended(s.trace))
    && (forall n :: n in s.callable ==> n in s.required)
  }

  ghost predicate Inv(s: State) {
    Sound(s.trace) && FieldsFit(s)
  }

  lemma LogKeepsSound(trace: seq<Event>, e: Event)
    requires Sound(trace) && Admissible(trace, e)
    ensures Sound(trace + [e])
  {
    var longer := trace + [e];
    forall i | 0 <= i < |longer| ensures Admissible(longer[..i], longer[i]) {
      assert longer[..i] == if i < |trace| then trace[..i] else trace;
    }
  }

  /** Recording `e` changes the history by `e` only. */
  lemma InHistory(trace: seq<Event>, e: Event)
    ensures forall x :: x in trace + [e] <==> x in trace || x == e
    ensures !e.Completed? ==> (Ended(trace + [e]) <==> Ended(trace))
  {
    if Ended(trace) {
      var a, b, c, d :| Completed(a, b, c, d) in trace;
      assert Completed(a, b, c, d) in trace + [e];
    }
    if Ended(trace + [e]) && !e.Completed? {
      var a, b, c, d :| Completed(a, b, c, d) in trace + [e];
      assert Completed(a, b, c, d) in trace;
    }
  }

  ghost predicate Open(s: State) {
    Inv(s) && !s.complete
  }

  lemma RequireKeepsInv(s: State, n: Name)
    requires Open(s)
    ensures Open(Require(s, n)) && n in Require(s, n).required
  {
    if n !in s.required {
      LogKeepsSound(s.trace, Required(n));
      InHistory(s.trace, Required(n));
    }
  }

  lemma ReportKeepsInv(s: State, n: Name)
    requires Open(s)
    ensures Open(Report(s, n)) && Report(s, n).required == s.required
  {
    if n !in s.closed {
      LogKeepsSound(s.trace, Reported(n));
      InHistory(s.trace, Reported(n));
    }
  }

  lemma {:induction false} RegisterKeepsInv(s: State, names: seq<Name>, w: Pass)
    requires Open(s)
    ensures Open(Register(s, names, w))
  {
    if names != [] {
      var before := Register(s, names[..|names| - 1], w);
      RegisterKeepsInv(s, names[..|names| - 1], w);
      RequireKeepsInv(before, names[|names| - 1]);
      ReportKeepsInv(Require(before, names[|names| - 1]), names[|names| - 1]);
    }
  }

  /** What this pass counts as closed is closed; the log queues are looked at last. */
  ghost predicate Faithful(p: Progress) {
    Open(p.s) && forall n :: n != Logger && Succeeded(p, n) ==> n in p.s.closed
  }

  /** A resource may be closed now. */
  ghost predicate MayCall(p: Progress, n: Name) {
    && (n == DbWorkers ==> ProducersDone(p))
    && (n == Llm ==> News in p.s.required ==> News in p.s.closed)
    && (n == Logger ==> p.s.exchangeClosed && OthersDone(p))
  }

  predicate WillCall(p: Progress, n: Name, w: Pass) {
    n !in p.s.closed && Quiet(w) && n in p.s.callable && p.s.callable[n]
  }

  lemma CallIsAdmissible(p: Progress, n: Name, w: Pass, e: Event)
    requires Faithful(p) && MayCall(p, n) && WillCall(p, n, w) && e.Called? && e.name == n && e.quiet
    ensures Admissible(p.s.trace, e)
  {
  }

  function Recorded(s: State, n: Name, done: bool): State {
    Log(s, Called(n, done, true)).(closed := if done && n != Logger then s.closed + {n} else s.closed)
  }

  lemma RecordedCallFits(s: State, n: Name, done: bool)
    requires FieldsFit(s)
    ensures FieldsFit(Recorded(s, n, done))
  {
    InHistory(s.trace, Called(n, done, true));
  }

  lemma RecordedCallKeepsInv(s: State, n: Name, done: bool)
    requires Open(s) && Admissible(s.trace, Called(n, done, true))
    ensures Open(Recorded(s, n, done))
  {
    LogKeepsSound(s.trace, Called(n, done, true));
    RecordedCallFits(s, n, done);
  }

  lemma CloseOneKeepsInv(p: Progress, n: Name, w: Pass)
    requires Faithful(p) && (n in p.s.closed || MayCall(p, n))
    ensures Open(CloseOne(p, n, w).s)
  {
    if WillCall(p, n, w) {
      var e := Called(n, w.answer(n).Acknowledged?, true);
      CallIsAdmissible(p, n, w, e);
      RecordedCallKeepsInv(p.s, n, w.answer(n).Acknowledged?);
    }
  }

  /** Closed resources stay closed, and nothing but closing happened. */
  predicate Extends(p: Progress, p': Progress) {
    p.s.closed <= p'.s.closed && p'.s.required == p.s.required && p'.s.exchangeClosed == p.s.exchangeClosed
  }

  lemma CloseOneKeepsFaithful(p: Progress, n: Name, w: Pass)
    requires Faithful(p) && (n in p.s.closed || MayCall(p, n))
    ensures var p' := CloseOne(p, n, w);
            Faithful(p') && Extends(p, p') && p'.results.Keys == p.results.Keys + {n}
  {
    CloseOneKeepsInv(p, n, w);
    CloseOneExtends(p, n, w);
    var p' := CloseOne(p, n, w);
    forall m | m != Logger && Succeeded(p', m) ensures m in p'.s.closed {
      if m != n {
        assert Succeeded(p, m);
      }
    }
  }

  lemma CloseOneExtends(p: Progress, n: Name, w: Pass)
    ensures var p' := CloseOne(p, n, w);
            && Extends(p, p') && p'.results.Keys == p.results.Keys + {n}
            && (forall m | m != n :: Succeeded(p', m) <==> Succeeded(p, m))
            && (n != Logger && Succeeded(p', n) ==> n in p'.s.closed)
  {
  }

  lemma GiveUpKeepsFaithful(p: Progress, n: Name)
    requires Faithful(p)
    ensures var p' := p.(results := p.results[n := false]);
            Faithful(p') && Extends(p, p') && p'.results.Keys == p.results.Keys + {n}
  {
  }

  function CloseRegularOne(p: Progress, n: Regular, w: Pass): Progress {
    if n == DbWorkers && !ProducersDone(p) then p.(results := p.results[n := false]) else CloseOne(p, n, w)
  }

  lemma CloseRegularOneKeepsFaithful(p: Progress, n: Regular, w: Pass)
    requires Faithful(p)
    ensures var p' := CloseRegularOne(p, n, w);
            Faithful(p') && Extends(p, p') && p'.results.Keys == p.results.Keys + {n}
  {
    if n == DbWorkers && !ProducersDone(p) {
      GiveUpKeepsFaithful(p, n);
    } else {
      CloseOneKeepsFaithful(p, n, w);
    }
  }

  lemma {:induction false} CloseRegularKeepsFaithful(p: Progress, names: seq<Regular>, w: Pass)
    requires Faithful(p)
    ensures var p' := CloseRegular(p, names, w);
            Faithful(p') && Extends(p, p') && p'.results.Keys == p.results.Keys + set n: Name | n in names
  {
    if names != [] {
      var init, n := names[..|names| - 1], names[|names| - 1];
      CloseRegularKeepsFaithful(p, init, w);
      CloseRegularOneKeepsFaithful(CloseRegular(p, init, w), n, w);
      assert names == init + [n];
    }
  }

  lemma CloseIfRequiredKeepsFaithful(p: Progress, n: Name, w: Pass)
    requires Faithful(p) && n in {Expectancy, TradeState}
    ensures var p' := CloseIfRequired(p, n, w);
            Faithful(p') && Extends(p, p') && p'.results.Keys <= p.results.Keys + {n}
  {
    if n in p.s.required {
      CloseOneKeepsFaithful(p, n, w);
    }
  }

  lemma CloseLlmKeepsFaithful(p: Progress, w: Pass)
    requires Faithful(p) && (News in p.s.required ==> News in p.results)
    ensures var p' := CloseLlm(p, w); Faithful(p') && Extends(p, p') && p'.results.Keys <= p.results.Keys + {Llm}
  {
    if Llm in p.s.required {
      if News in p.results && !p.results[News] {
        GiveUpKeepsFaithful(p, Llm);
      } else {
        CloseOneKeepsFaithful(p, Llm, w);
      }
    }
  }

  lemma ExchangeFits(s: State, e: Event)
    requires FieldsFit(s) && (e == ExchangeAbsent || e.ExchangeCalled?)
    requires e.ExchangeCalled? ==> e.quiet && e.terminal
    requires !s.exchangeClosed
    ensures FieldsFit(Log(s, e).(exchangeClosed := e == ExchangeAbsent || e.acknowledged))
  {
    InHistory(s.trace, e);
  }

  lemma CloseExchangeKeepsInv(s: State, w: Pass)
    requires Open(s)
    ensures Open(CloseExchange(s, w)) && CloseExchange(s, w).closed == s.closed
        && CloseExchange(s, w).required == s.required
  {
    var s' := CloseExchange(s, w);
    if s' != s {
      var e := if w.exchange.Closer? then ExchangeCalled(w.exchange.answer.Acknowledged?, true, true)
          else ExchangeAbsent;
      assert Admissible(s.trace, e);
      LogKeepsSound(s.trace, e);
      ExchangeFits(s, e);
    }
  }

  lemma CloseLoggerKeepsFaithful(p: Progress, w: Pass)
    requires Faithful(p) && Logger !in p.results
    ensures var p' := CloseLogger(p, w);
            && Faithful(p') && Extends(p, p')
            && (Logger in p.s.required && Succeeded(p', Logger) ==>
                  Reported(Logger) in p'.s.trace || p'.s.trace == p.s.trace + [Called(Logger, true, true)])
  {
    if Logger in p.s.required {
      GiveUpKeepsFaithful(p, Logger);
      if Logger in p.s.closed || (Quiet(w) && p.s.exchangeClosed && OthersDone(p)) {
        CloseOneKeepsFaithful(p, Logger, w);
      }
    }
  }

  lemma CloseEverythingKeepsFaithful(s: State, w: Pass)
    requires Open(s)
    ensures var p' := CloseEverything(s, w);
            && Faithful(p') && p'.s.required == s.required
            && (Logger in s.required && Succeeded(p', Logger) ==>
                  Reported(Logger) in p'.s.trace
                  || (p'.s.trace != [] && p'.s.trace[|p'.s.trace| - 1] == Called(Logger, true, true)))
  {
    var p0 := Progress(s, map[]);
    CloseIfRequiredKeepsFaithful(p0, Expectancy, w);
    var p1 := CloseIfRequired(p0, Expectancy, w);
    CloseIfRequiredKeepsFaithful(p1, TradeState, w);
    var p2 := CloseIfRequired(p1, TradeState, w);
    var order := Sorted(RegularOf(s.required));
    SortedHoldsAll(RegularOf(s.required));
    CloseRegularKeepsFaithful(p2, order, w);
    var p3 := CloseRegular(p2, order, w);
    CloseLlmKeepsFaithful(p3, w);
    var p4 := CloseLlm(p3, w);
    CloseExchangeKeepsInv(p4.s, w);
    CloseLoggerKeepsFaithful(p4.(s := CloseExchange(p4.s, w)), w);
  }

  lemma FinishKeepsInv(p: Progress, w: Pass)
    requires Faithful(p)
    requires Logger in p.s.required && Succeeded(p, Logger) ==>
               Reported(Logger) in p.s.trace
               || (p.s.trace != [] && p.s.trace[|p.s.trace| - 1] == Called(Logger, true, true))
    ensures Inv(Finish(p, w))
  {
    if Clean(p, w) {
      var e := Completed(Quiet(w), ClosedAfterCheck(w), w.preserved, !PositionsLeft(w));
      assert AllOthersDone(p.s.trace);
      assert Admissible(p.s.trace, e);
      LogKeepsSound(p.s.trace, e);
      CompletionFits(p.s, e);
    }
  }

  lemma CompletionFits(s: State, e: Event)
    requires FieldsFit(s) && e.Completed?
    ensures FieldsFit(Log(s, e).(complete := true))
  {
    InHistory(s.trace, e);
    assert e in s.trace + [e];
  }

  lemma ReopenKeepsInv(s: State)
    requires Open(s)
    ensures Open(Log(s, Reopened(true)))
  {
    LogKeepsSound(s.trace, Reopened(true));
    InHistory(s.trace, Reopened(true));
  }

  lemma PassKeepsInv(s: State, names: seq<Name>, w: Pass)
    requires Inv(s)
    ensures Inv(Finalize(s, names, w))
  {
    if !s.complete {
      if MustReopen(w) {
        ReopenKeepsInv(s);
      }
      RegisterKeepsInv(if MustReopen(w) then Log(s, Reopened(true)) else s, names, w);
      CloseEverythingKeepsFaithful(Registered(s, names, w), w);
      FinishKeepsInv(CloseEverything(Registered(s, names, w), w), w);
    }
  }

  // -------------------------------------------------------------- every run

  /** One call of the finalizer, first or repeated. */
  datatype Call = Call(names: seq<Name>, pass: Pass)

  function Run(calls: seq<Call>): State {
    if calls == [] then Start
    else Finalize(Run(calls[..|calls| - 1]), calls[|calls| - 1].names, calls[|calls| - 1].pass)
  }

  lemma {:induction false} RunKeepsInv(calls: seq<Call>)
    ensures Inv(Run(calls))
  {
    if calls != [] {
      RunKeepsInv(calls[..|calls| - 1]);
      PassKeepsInv(Run(calls[..|calls| - 1]), calls[|calls| - 1].names, calls[|calls| - 1].pass);
    }
  }

  /** Completion is final: no later call changes anything. */
  lemma {:induction false} CompletionIsFinal(calls: seq<Call>, more: seq<Call>)
    requires Run(calls).complete
    ensures Run(calls + more) == Run(calls)
  {
    if more == [] {
      assert calls + more == calls;
    } else {
      assert (calls + more)[..|calls + more| - 1] == calls + more[..|more| - 1];
      CompletionIsFinal(calls, more[..|more| - 1]);
    }
  }

  /**
    In every run: closers are called only while all workers are dead and no
    emergency close is under way; the exchange only after the position action
    has ended, and not again once closed; the DB workers only after their
    producers; the language-model clients only after the news tasks; the log
    queues only after everything else, the exchange included.
   */
  lemma ClosingKeepsItsOrder(calls: seq<Call>, i: nat)
    requires i < |Run(calls).trace|
    ensures var t := Run(calls).trace;
            var past := t[..i];
            match t[i]
            case Called(n, _, quiet) =>
              && quiet
              && (n == DbWorkers ==> forall p :: p in {Expectancy, TradeState} && Required(p) in past ==> Done(past, p))
              && (n == Llm && Required(News) in past ==> Done(past, News))
              && (n == Logger ==> ExchangeDone(past) && forall m: Name :: Required(m) in past && m != Logger ==>
                  Done(past, m))
            case ExchangeCalled(_, quiet, terminal) => quiet && terminal && !ExchangeDone(past)
            case _ => true
  {
    RunKeepsInv(calls);
    assert Admissible(Run(calls).trace[..i], Run(calls).trace[i]);
  }

  /** In every run: a closer that acknowledged is not called again, except for the log queues. */
  lemma AcknowledgedIsNotClosedAgain(calls: seq<Call>, i: nat, j: nat)
    requires i < j < |Run(calls).trace|
    ensures var t := Run(calls).trace;
            && (t[i].Called? && t[i].acknowledged && t[j].Called? && t[j].name == t[i].name ==> t[i].name == Logger)
            && (t[i].ExchangeCalled? && t[i].acknowledged ==> !t[j].ExchangeCalled?)
            && !t[i].Completed?
  {
    RunKeepsInv(calls);
    var t := Run(calls).trace;
    assert Admissible(t[..j], t[j]) && Admissible(t[..i], t[i]);
    assert t[..j][i] == t[i];
    assert t[i] in t[..j];
    if t[i].Completed? {
      assert Ended(t[..j]);
    }
  }

  lemma CompletedEnds(past: seq<Event>, e: Event)
    requires e in past && e.Completed?
    ensures Ended(past)
  {
    assert e == Completed(e.quiet, e.emergencyClosed, e.preserved, e.empty);
  }

  lemma FollowedMeansOpen(trace: seq<Event>, i: nat)
    requires Sound(trace) && i + 1 < |trace|
    ensures !trace[i].Completed?
  {
    var past := trace[..i + 1];
    assert Admissible(past, trace[i + 1]);
    assert past[i] == trace[i];
    if trace[i].Completed? {
      CompletedEnds(past, trace[i]);
    }
  }

  lemma CompletedIsLast(trace: seq<Event>)
    requires Sound(trace) && Ended(trace)
    ensures trace != [] && trace[|trace| - 1].Completed? && Admissible(trace[..|trace| - 1], trace[|trace| - 1])
  {
    var a, b, c, d :| Completed(a, b, c, d) in trace;
    var i: nat :| i < |trace| && trace[i] == Completed(a, b, c, d);
    if i + 1 < |trace| {
      FollowedMeansOpen(trace, i);
    }
  }

  /**
    A complete state ends with its completion, which was made with all workers
    dead, exactly one position action ended and no position left behind a close;
    the exchange and every required resource are closed, and the log queues were
    flushed as the last step before it.
   */
  ghost predicate EndsClosed(s: State) {
    && s.trace != [] && var e, past := s.trace[|s.trace| - 1], s.trace[..|s.trace| - 1];
    && e.Completed? && e.quiet && e.emergencyClosed != e.preserved && (e.emergencyClosed ==> e.empty)
    && s.exchangeClosed && (forall n :: n in s.required && n != Logger ==> n in s.closed)
    && (Logger in s.required && Logger !in s.closed ==> past != [] && past[|past| - 1] == Called(Logger, true, true))
  }

  lemma CompletedStateEndsClosed(s: State)
    requires FieldsFit(s) && s.trace != [] && s.trace[|s.trace| - 1].Completed?
    requires Admissible(s.trace[..|s.trace| - 1], s.trace[|s.trace| - 1])
    ensures EndsClosed(s)
  {
    var past, e := s.trace[..|s.trace| - 1], s.trace[|s.trace| - 1];
    InHistory(past, e);
    assert s.trace == past + [e];
  }

  lemma CompletionMeansAllClosed(calls: seq<Call>)
    ensures Run(calls).complete ==> EndsClosed(Run(calls))
  {
    RunKeepsInv(calls);
    if Run(calls).complete {
      CompletedIsLast(Run(calls).trace);
      CompletedStateEndsClosed(Run(calls));
    }
  }

  // ------------------------------------------- what a pass may do, from what it meets

  /** Every worker was seen, none is alive, and no emergency close is under way. */
  ghost predicate AllDead(w: Pass) {
    && w.threads.Some? && w.threads.value != map[] && !w.inProgress
    && forall t :: t in w.threads.value ==> w.threads.value[t] == false
  }

  /** Nobody can say that a position is left. */
  ghost predicate NoneLeft(w: Pass) {
    w.count.NoCounter? || w.count == Counted(0)
  }

  /** What was recorded in a pass follows from what that pass met. */
  ghost predicate FitsPass(e: Event, w: Pass) {
    match e
    case Required(_) => true
    case Reported(n) => n in w.results && w.results[n]
    case Called(n, acknowledged, _) => AllDead(w) && acknowledged == w.answer(n).Acknowledged?
    case ExchangeAbsent =>
      && (w.preserved || (w.emergencyClosed && (AllDead(w) ==> NoneLeft(w))))
      && (w.exchange.NoExchange? || (w.exchange.NoCloser? && AllDead(w) && !w.stillInProgress))
    case ExchangeCalled(acknowledged, _, _) =>
      && AllDead(w) && !w.stillInProgress && (w.preserved || (w.emergencyClosed && NoneLeft(w)))
      && w.exchange == Closer(if acknowledged then Acknowledged else NotConfirmed)
    case Reopened(_) => AllDead(w) && w.emergencyClosed && !w.preserved && !NoneLeft(w)
    case Completed(_, closed, _, _) =>
      && AllDead(w) && w.statusWritten && closed == w.emergencyClosed
      && (if w.preserved then !w.emergencyClosed else w.emergencyClosed && NoneLeft(w))
  }

  /** The history goes on, with events that fit the pass. */
  ghost predicate Adds(s: State, s': State, w: Pass) {
    s.trace <= s'.trace && forall i :: |s.trace| <= i < |s'.trace| ==> FitsPass(s'.trace[i], w)
  }

  lemma AddsNothing(s: State, s': State, w: Pass)
    requires s'.trace == s.trace
    ensures Adds(s, s', w)
  {
  }

  lemma AddsOne(s: State, s': State, w: Pass, e: Event)
    requires s'.trace == s.trace + [e] && FitsPass(e, w)
    ensures Adds(s, s', w)
  {
  }

  lemma AddsMore(a: State, b: State, c: State, w: Pass)
    requires Adds(a, b, w) && Adds(b, c, w)
    ensures Adds(a, c, w)
  {
    forall i | |a.trace| <= i < |c.trace| ensures FitsPass(c.trace[i], w) {
      if i < |b.trace| {
        assert c.trace[i] == b.trace[i];
      }
    }
  }

  lemma QuietIff(w: Pass)
    ensures Quiet(w) <==> AllDead(w)
    ensures !PositionsLeft(w) <==> NoneLeft(w)
  {
  }

  lemma {:induction false} RegisterAdds(s: State, names: seq<Name>, w: Pass)
    ensures Adds(s, Register(s, names, w), w)
  {
    if names == [] {
      AddsNothing(s, s, w);
    } else {
      var n, before := names[|names| - 1], Register(s, names[..|names| - 1], w);
      RegisterAdds(s, names[..|names| - 1], w);
      var s1 := Require(before, n);
      AddsMore(s, before, s1, w);
      AddsMore(s, s1, Register(s, names, w), w);
    }
  }

  lemma CloseOneAdds(p: Progress, n: Name, w: Pass)
    ensures Adds(p.s, CloseOne(p, n, w).s, w)
  {
    QuietIff(w);
    if WillCall(p, n, w) {
      AddsOne(p.s, CloseOne(p, n, w).s, w, Called(n, w.answer(n).Acknowledged?, Quiet(w)));
    } else {
      AddsNothing(p.s, CloseOne(p, n, w).s, w);
    }
  }

  lemma {:induction false} CloseRegularAdds(p: Progress, names: seq<Regular>, w: Pass)
    ensures Adds(p.s, CloseRegular(p, names, w).s, w)
  {
    if names == [] {
      AddsNothing(p.s, p.s, w);
    } else {
      var before := CloseRegular(p, names[..|names| - 1], w);
      CloseRegularAdds(p, names[..|names| - 1], w);
      CloseOneAdds(before, names[|names| - 1], w);
      AddsMore(p.s, before.s, CloseRegular(p, names, w).s, w);
    }
  }

  lemma CloseExchangeAdds(s: State, w: Pass)
    ensures Adds(s, CloseExchange(s, w), w)
  {
    QuietIff(w);
    var s' := CloseExchange(s, w);
    if s' == s {
      AddsNothing(s, s', w);
    } else {
      AddsOne(s, s', w, if w.exchange.Closer? then ExchangeCalled(w.exchange.answer.Acknowledged?, true, true)
                        else ExchangeAbsent);
    }
  }

  lemma CloseEverythingAdds(s: State, w: Pass)
    ensures Adds(s, CloseEverything(s, w).s, w)
  {
    var p0 := Progress(s, map[]);
    CloseOneAdds(p0, Expectancy, w);
    var p1 := CloseIfRequired(p0, Expectancy, w);
    CloseOneAdds(p1, TradeState, w);
    var p2 := CloseIfRequired(p1, TradeState, w);
    AddsMore(s, p1.s, p2.s, w);
    var p3 := CloseRegular(p2, Sorted(RegularOf(s.required)), w);
    CloseRegularAdds(p2, Sorted(RegularOf(s.required)), w);
    AddsMore(s, p2.s, p3.s, w);
    CloseOneAdds(p3, Llm, w);
    var p4 := CloseLlm(p3, w);
    AddsMore(s, p3.s, p4.s, w);
    CloseExchangeAdds(p4.s, w);
    var p5 := p4.(s := CloseExchange(p4.s, w));
    AddsMore(s, p4.s, p5.s, w);
    CloseOneAdds(p5, Logger, w);
    AddsMore(s, p5.s, CloseLogger(p5, w).s, w);
  }

  lemma FinishAdds(p: Progress, w: Pass)
    ensures Adds(p.s, Finish(p, w), w)
  {
    QuietIff(w);
    if Clean(p, w) {
      AddsOne(p.s, Finish(p, w), w, Completed(Quiet(w), ClosedAfterCheck(w), w.preserved, !PositionsLeft(w)));
    } else {
      AddsNothing(p.s, Finish(p, w), w);
    }
  }

  lemma PassAdds(s: State, names: seq<Name>, w: Pass)
    ensures Adds(s, Finalize(s, names, w), w)
  {
    if s.complete {
      AddsNothing(s, s, w);
    } else {
      QuietIff(w);
      var s0 := if MustReopen(w) then Log(s, Reopened(Quiet(w))) else s;
      var s1 := Register(s0, names, w);
      RegisterAdds(s0, names, w);
      AddsMore(s, s0, s1, w);
      CloseEverythingAdds(s1, w);
      var p := CloseEverything(s1, w);
      AddsMore(s, s1, p.s, w);
      FinishAdds(p, w);
      AddsMore(s, p.s, Finish(p, w), w);
    }
  }

  /** The event was recorded in the `k`-th call, and follows from what that pass met. */
  ghost predicate FitsCall(calls: seq<Call>, i: nat, k: nat)
    requires i < |Run(calls).trace|
  {
    k < |calls| && |Run(calls[..k]).trace| <= i < |Run(calls[..k + 1]).trace|
    && FitsPass(Run(calls).trace[i], calls[k].pass)
  }

  lemma EarlierCallFits(calls: seq<Call>, i: nat, k: nat)
    requires calls != [] && i < |Run(calls[..|calls| - 1]).trace| && FitsCall(calls[..|calls| - 1], i, k)
    requires Run(calls[..|calls| - 1]).trace <= Run(calls).trace
    ensures FitsCall(calls, i, k)
  {
    var init := calls[..|calls| - 1];
    assert init[..k] == calls[..k] && init[..k + 1] == calls[..k + 1];
  }

  lemma LastCallFits(calls: seq<Call>, i: nat)
    requires calls != [] && |Run(calls[..|calls| - 1]).trace| <= i < |Run(calls).trace|
    requires Adds(Run(calls[..|calls| - 1]), Run(calls), calls[|calls| - 1].pass)
    ensures FitsCall(calls, i, |calls| - 1)
  {
    assert calls[..|calls| - 1 + 1] == calls;
  }

  /**
    In every run whatever is called, and completion itself, belongs to a pass that
    met it so: a closer only if that pass found every worker dead and no emergency
    close under way, the exchange only if it moreover found the position action
    ended, completion only if exactly one action had ended and left nothing.
   */
  lemma {:induction false} EventsFitTheirPass(calls: seq<Call>, i: nat)
    requires i < |Run(calls).trace|
    ensures exists k: nat :: FitsCall(calls, i, k)
  {
    var init, last := calls[..|calls| - 1], calls[|calls| - 1];
    PassAdds(Run(init), last.names, last.pass);
    if i < |Run(init).trace| {
      EventsFitTheirPass(init, i);
      var k: nat :| FitsCall(init, i, k);
      EarlierCallFits(calls, i, k);
    } else {
      LastCallFits(calls, i);
    }
  }

  // ------------------------------------------------------- when a pass completes

  /** A resource has a closer: the one handed in now, or the one known before. */
  predicate HasCloser(s: State, names: seq<Name>, w: Pass, n: Name) {
    if n in names && n in w.closers then w.closers[n] else n in s.callable && s.callable[n]
  }

  /** A resource is closed already, is reported as closed, or has a closer that acknowledges now. */
  predicate Closable(s: State, names: seq<Name>, w: Pass, n: Name) {
    || n in s.closed
    || (n in names && n in w.results && w.results[n])
    || (HasCloser(s, names, w, n) && w.answer(n).Acknowledged?)
  }

  predicate ExchangeClosable(s: State, w: Pass) {
    || s.exchangeClosed || w.exchange.NoExchange?
    || (!w.stillInProgress && (w.exchange.NoCloser? || w.exchange == Closer(Acknowledged)))
  }

  lemma RegisteredOne(s: State, n: Name, w: Pass)
    ensures var s' := RegisterOne(s, n, w);
            && s'.required == s.required + {n}
            && s'.closed == s.closed + (if n in w.results && w.results[n] then {n} else {})
            && s'.callable == (if n in w.closers then s.callable[n := w.closers[n]] else s.callable)
            && s'.exchangeClosed == s.exchangeClosed
  {
    assert n in s.required ==> s.required + {n} == s.required;
    assert n in s.closed ==> s.closed + {n} == s.closed;
  }

  lemma {:induction false} RegisteredResources(s: State, names: seq<Name>, w: Pass)
    ensures var s' := Register(s, names, w);
            && (forall n :: n in s'.required <==> n in s.required || n in names)
            && (forall n :: n in s'.closed <==> n in s.closed || (n in names && n in w.results && w.results[n]))
            && s'.exchangeClosed == s.exchangeClosed
    ensures forall n :: (n in Register(s, names, w).callable && Register(s, names, w).callable[n])
                        <==> HasCloser(s, names, w, n)
  {
    if names != [] {
      var init, n := names[..|names| - 1], names[|names| - 1];
      RegisteredResources(s, init, w);
      RegisteredOne(Register(s, init, w), n, w);
      assert forall m :: m in names <==> m in init || m == n by {
        assert names == init + [n];
      }
    }
  }

  /** In this pass the resource can be closed. */
  predicate Yields(s: State, w: Pass, n: Name) {
    n in s.closed || (Quiet(w) && n in s.callable && s.callable[n] && w.answer(n).Acknowledged?)
  }

  /** Looking at a resource neither takes closers away nor makes others closable. */
  ghost predicate SameYield(s: State, s': State, w: Pass) {
    && s'.required == s.required && s'.callable == s.callable
    && (forall n :: Yields(s', w, n) <==> Yields(s, w, n))
  }

  /** What was looked at so far succeeded where it can be closed. */
  ghost predicate Truthful(s: State, p: Progress, w: Pass) {
    SameYield(s, p.s, w) && forall n :: n in p.results && p.results[n] ==> Yields(s, w, n)
  }

  ghost predicate AllYield(s: State, w: Pass) {
    forall n :: n in s.required ==> Yields(s, w, n)
  }

  ghost predicate Complete(s: State, p: Progress, w: Pass) {
    AllYield(s, w) ==> forall n :: n in p.results ==> p.results[n]
  }

  lemma ProducersAreDone(s: State, p: Progress, w: Pass)
    requires Complete(s, p, w) && AllYield(s, w) && p.s.required == s.required
    requires forall n :: n in {Expectancy, TradeState} && n in s.required ==> n in p.results
    ensures ProducersDone(p)
  {
  }

  lemma CloseOneYields(s: State, p: Progress, n: Name, w: Pass)
    requires Truthful(s, p, w)
    ensures var p' := CloseOne(p, n, w);
            && Truthful(s, p', w) && p'.results == p.results[n := Yields(s, w, n)]
            && p'.s.exchangeClosed == p.s.exchangeClosed
  {
  }

  lemma {:induction false} CloseRegularYields(s: State, p: Progress, names: seq<Regular>, w: Pass)
    requires Truthful(s, p, w) && Complete(s, p, w) && (forall n :: n in names ==> n in s.required)
    requires forall n :: n in {Expectancy, TradeState} && n in s.required ==> n in p.results
    ensures var p' := CloseRegular(p, names, w);
            && Truthful(s, p', w) && Complete(s, p', w) && p'.s.exchangeClosed == p.s.exchangeClosed
            && forall m :: m in p'.results <==> m in p.results || m in names
  {
    if names != [] {
      var init, n := names[..|names| - 1], names[|names| - 1];
      assert names == init + [n];
      var before := CloseRegular(p, init, w);
      CloseRegularYields(s, p, init, w);
      if AllYield(s, w) {
        ProducersAreDone(s, before, w);
      }
      if !(n == DbWorkers && !ProducersDone(before)) {
        CloseOneYields(s, before, n, w);
      }
    }
  }

  lemma ProducersYield(s: State, w: Pass)
    ensures var p := CloseIfRequired(CloseIfRequired(Progress(s, map[]), Expectancy, w), TradeState, w);
            && Truthful(s, p, w) && Complete(s, p, w) && p.s.exchangeClosed == s.exchangeClosed
            && (forall n :: n in p.results <==> n in {Expectancy, TradeState} && n in s.required)
  {
    var p0 := Progress(s, map[]);
    CloseOneYields(s, p0, Expectancy, w);
    CloseOneYields(s, CloseIfRequired(p0, Expectancy, w), TradeState, w);
  }

  lemma LlmYields(s: State, p: Progress, w: Pass)
    requires Truthful(s, p, w) && Complete(s, p, w)
    ensures var p' := CloseLlm(p, w);
            && Truthful(s, p', w) && Complete(s, p', w) && p'.s.exchangeClosed == p.s.exchangeClosed
            && p'.results.Keys == p.results.Keys + (if Llm in s.required then {Llm} else {})
  {
    CloseOneYields(s, p, Llm, w);
  }

  lemma ExchangeYields(s: State, w: Pass)
    requires AllDead(w)
    ensures CloseExchange(s, w).exchangeClosed <==>
              s.exchangeClosed || ((w.preserved || (w.emergencyClosed && NoneLeft(w))) && ExchangeClosable(s, w))
    ensures CloseExchange(s, w) == s.(exchangeClosed := CloseExchange(s, w).exchangeClosed,
                                      trace := CloseExchange(s, w).trace)
  {
    QuietIff(w);
  }

  /** What the groups before the exchange leave. */
  lemma GroupsYield(s: State, w: Pass) returns (p: Progress)
    ensures CloseEverything(s, w) == CloseLogger(p.(s := CloseExchange(p.s, w)), w)
    ensures Truthful(s, p, w) && Complete(s, p, w) && p.s.exchangeClosed == s.exchangeClosed
    ensures Logger !in p.results && forall n :: n in s.required && n != Logger ==> n in p.results
  {
    var order := Sorted(RegularOf(s.required));
    var p2 := CloseIfRequired(CloseIfRequired(Progress(s, map[]), Expectancy, w), TradeState, w);
    ProducersYield(s, w);
    SortedHoldsAll(RegularOf(s.required));
    SortedHoldsOnly(RegularOf(s.required));
    CloseRegularYields(s, p2, order, w);
    var p3 := CloseRegular(p2, order, w);
    assert p3.s.exchangeClosed == p2.s.exchangeClosed == s.exchangeClosed;
    LlmYields(s, p3, w);
    p := CloseLlm(p3, w);
  }

  /** With every worker dead, a pass closes everything exactly when everything can be closed. */
  lemma EverythingYields(s: State, w: Pass)
    requires AllDead(w) && (w.preserved || (w.emergencyClosed && NoneLeft(w)))
    ensures AllDone(CloseEverything(s, w)) <==> ExchangeClosable(s, w) && AllYield(s, w)
  {
    QuietIff(w);
    var p := GroupsYield(s, w);
    ExchangeYields(p.s, w);
    LoggerYields(s, p.(s := CloseExchange(p.s, w)), w);
  }

  lemma {:induction false} SortedHoldsOnly(names: set<Regular>)
    ensures forall n :: n in Sorted(names) ==> n in names
    decreases |names|
  {
    if names != {} {
      SortedHoldsOnly(names - {First(names)});
    }
  }

  lemma LoggerYields(s: State, p: Progress, w: Pass)
    requires Quiet(w) && Truthful(s, p, w) && Complete(s, p, w) && Logger !in p.results
    requires forall n :: n in s.required && n != Logger ==> n in p.results
    ensures AllDone(CloseLogger(p, w)) <==> p.s.exchangeClosed && AllYield(s, w)
  {
    CloseOneYields(s, p, Logger, w);
    var p' := CloseLogger(p, w);
    if p.s.exchangeClosed && AllYield(s, w) {
      assert OthersDone(p);
      if Logger in s.required {
        assert p' == CloseOne(p, Logger, w);
      }
      assert AllDone(p');
    }
  }

  /**
    A pass completes the shutdown exactly when it finds every worker dead, exactly
    one position action ended with nothing left behind, the final status written,
    the exchange closed or closable, and every resource ever required closed,
    reported as closed, or with a closer that acknowledges now.
   */
  lemma PassCompletesIff(s: State, names: seq<Name>, w: Pass)
    requires !s.complete
    ensures Finalize(s, names, w).complete <==>
              && AllDead(w) && w.statusWritten
              && (if w.preserved then !w.emergencyClosed else w.emergencyClosed && NoneLeft(w))
              && ExchangeClosable(s, w)
              && forall n :: n in s.required || n in names ==> Closable(s, names, w, n)
  {
    QuietIff(w);
    var s0 := if MustReopen(w) then Log(s, Reopened(Quiet(w))) else s;
    var s1 := Register(s0, names, w);
    RegisteredResources(s0, names, w);
    if AllDead(w) && (if w.preserved then !w.emergencyClosed else w.emergencyClosed && NoneLeft(w)) {
      EverythingYields(s1, w);
      forall n ensures Yields(s1, w, n) <==> Closable(s, names, w, n) {}
    }
  }
}
