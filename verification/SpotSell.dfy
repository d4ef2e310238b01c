/**
  Selling spot inventory through precision and balance rejections
  (`spot_market_sell_safe` in bot_utils/spot_exits.py).  Each try may be refused
  locally, rejected, accepted, or lost; what the error text says decides whether
  another sell may be sent.
 */
module SpotSell {
  import opened Wrappers

  /** Which of the markers the error text carries, and whether the request was never sent. */
  datatype Failure = Failure(precision: bool, balance: bool, notSent: bool)

  datatype Reply = Accepted | Failed(failure: Failure)

  datatype Outcome =
    | Sold(amount: real)
    | Recovered(amount: real)
    | OutcomeUnknown
    | InsufficientBalance
    | Raised
    | Exhausted
    | Invalid

  /** A request that reached the venue, and what came back. */
  datatype Sent = Sent(amount: real, reply: Reply)

  datatype Run = Run(outcome: Outcome, sent: seq<Sent>)

  /** `reply` answers the n-th try; `found` says whether the recovery lookup after it finds the order. */
  datatype Sale = Sale(
    raw: real,
    native: Option<real>,
    precisionStep: Option<real>,
    minAmount: Option<real>,
    hasClientId: bool,
    reply: nat -> Reply,
    found: nat -> bool,
    free: Option<real>,
    precise: Option<real>)

  const DEFAULT_STEP := 0.0001

  /** The coarsening steps tried after those of the market. */
  const COARSER: seq<real> := [0.001, 0.01, 0.1, 1.0, 10.0, 100.0, 1000.0, 10000.0]

  function RoundToStep(amount: real, step: real): real {
    if step <= 0.0 then amount else (amount / step).Floor as real * step
  }

  lemma Scaled(a: real, b: real, c: real)
    requires a <= b && c > 0.0
    ensures a * c <= b * c
  {
  }

  /** Rounding down gives a multiple of the step, less than one step below the amount. */
  lemma RoundedIsBelow(amount: real, step: real)
    requires amount >= 0.0 && step > 0.0
    ensures 0.0 <= RoundToStep(amount, step) <= amount < RoundToStep(amount, step) + step
  {
    Quotient(amount, step);
    Below((amount / step).Floor as real, amount / step, amount, step);
  }

  lemma Quotient(amount: real, step: real)
    requires amount >= 0.0 && step > 0.0
    ensures amount / step * step == amount && amount / step >= 0.0
  {
  }

  lemma Below(n: real, q: real, amount: real, step: real)
    requires 0.0 <= n <= q < n + 1.0 && step > 0.0 && q * step == amount
    ensures 0.0 <= n * step <= amount < n * step + step
  {
    Scaled(n, q, step);
    Scaled(0.0, n, step);
    calc {
      amount;
      q * step;
    < { Stretch(q, n + 1.0, step); }
      (n + 1.0) * step;
    == { NextMultiple(n, step); }
      n * step + step;
    }
  }

  lemma NextMultiple(n: real, step: real)
    ensures (n + 1.0) * step == n * step + step
  {
  }

  lemma Stretch(a: real, b: real, c: real)
    requires a < b && c > 0.0
    ensures a * c < b * c
  {
  }

  function Or(first: Option<real>, second: real): real {
    if first.Some? then first.value else second
  }

  /** The first amount: the venue's own rounding, unless it failed or amplified. */
  function FirstAmount(s: Sale): real {
    if s.native.Some? && s.native.value <= s.raw then s.native.value
    else RoundToStep(s.raw, Or(if s.precisionStep.Some? then s.precisionStep else s.minAmount, DEFAULT_STEP))
  }

  /** The steps in order; `None` stands for the first amount as it is. */
  function Steps(s: Sale): seq<Option<real>> {
    var market := [None]
      + (if s.precisionStep.Some? then [s.precisionStep] else [])
      + (if s.minAmount.Some? && s.minAmount != s.precisionStep then [s.minAmount] else []);
    WithCoarser(market, COARSER)
  }

  function WithCoarser(steps: seq<Option<real>>, coarser: seq<real>): seq<Option<real>>
    decreases |coarser|
  {
    if coarser == [] then steps
    else WithCoarser(if Some(coarser[0]) in steps then steps else steps + [Some(coarser[0])], coarser[1..])
  }

  function AmountAt(s: Sale, step: Option<real>): real {
    if step.None? then FirstAmount(s) else RoundToStep(s.raw, step.value)
  }

  function Log(sent: seq<Sent>, amount: real, reply: Reply): seq<Sent> {
    if reply.Failed? && reply.failure.notSent then sent else sent + [Sent(amount, reply)]
  }

  /** After a failure that may hide an accepted sell: look for it by client id, or admit not to know. */
  function Reconcile(s: Sale, n: nat, amount: real): Outcome {
    if s.found(n) then Recovered(amount) else OutcomeUnknown
  }

  /** What can be sold of the free balance. */
  function Sellable(s: Sale, free: real): real {
    if s.precise.Some? && 0.0 <= s.precise.value <= free then s.precise.value else free
  }

  /** The one retry with what the wallet really holds. */
  function RetryCapped(s: Sale, n: nat, amount: real, sent: seq<Sent>): Run {
    if s.free.None? then Run(Raised, sent)
    else if s.free.value <= 0.0 then Run(InsufficientBalance, sent)
    else
      var capped := Sellable(s, s.free.value);
      if capped <= 0.0 || (s.minAmount.Some? && capped < s.minAmount.value) then Run(InsufficientBalance, sent)
      else if capped >= amount then Run(Raised, sent)
      else
        var reply := s.reply(n);
        var sent' := Log(sent, capped, reply);
        if reply.Accepted? then Run(Sold(capped), sent')
        else if s.hasClientId && !reply.failure.notSent then Run(Reconcile(s, n, capped), sent')
        else Run(Raised, sent')
  }

  /** What follows a try of `amount`: the end of the call, or None when the next step may be tried. */
  function Judge(s: Sale, n: nat, amount: real, sent: seq<Sent>): Option<Run> {
    var reply := s.reply(n);
    if reply.Accepted? then Some(Run(Sold(amount), sent))
    else if reply.failure.precision then None
    else if reply.failure.balance then Some(RetryCapped(s, n + 1, amount, sent))
    else if s.hasClientId && !reply.failure.notSent then Some(Run(Reconcile(s, n, amount), sent))
    else Some(Run(Raised, sent))
  }

  /** The loop over the remaining amounts; `n` tries were made before. */
  function From(s: Sale, amounts: seq<real>, n: nat, sent: seq<Sent>): Run
    decreases |amounts|
  {
    if amounts == [] then Run(Exhausted, sent)
    else if amounts[0] <= 0.0 then From(s, amounts[1..], n, sent)
    else
      var sent' := Log(sent, amounts[0], s.reply(n));
      var end := Judge(s, n, amounts[0], sent');
      if end.Some? then end.value else From(s, amounts[1..], n + 1, sent')
  }

  function Amounts(s: Sale): seq<real> {
    var steps := Steps(s);
    seq(|steps|, i requires 0 <= i < |steps| => AmountAt(s, steps[i]))
  }

  function Sell(s: Sale): Run {
    if s.raw <= 0.0 || FirstAmount(s) <= 0.0 then Run(Invalid, []) else From(s, Amounts(s), 0, [])
  }

  method CollectSteps(s: Sale) returns (steps: seq<Option<real>>)
    ensures steps == Steps(s)
  {
    steps := [None];
    if s.precisionStep.Some? {
      steps := steps + [s.precisionStep];
    }
    if s.minAmount.Some? && s.minAmount != s.precisionStep {
      steps := steps + [s.minAmount];
    }
    assert steps == [None] + (if s.precisionStep.Some? then [s.precisionStep] else [])
      + (if s.minAmount.Some? && s.minAmount != s.precisionStep then [s.minAmount] else []);
    var i := 0;
    while i < |COARSER|
      invariant 0 <= i <= |COARSER|
      invariant WithCoarser(steps, COARSER[i..]) == Steps(s)
    {
      assert COARSER[i..][1..] == COARSER[i + 1..];
      if Some(COARSER[i]) !in steps {
        steps := steps + [Some(COARSER[i])];
      }
      i := i + 1;
    }
  }

  /** One turn of the loop. */
  lemma FromGoesOn(s: Sale, amounts: seq<real>, i: nat, n: nat, sent: seq<Sent>)
    requires i < |amounts|
    ensures From(s, amounts[i..], n, sent)
         == if amounts[i] <= 0.0 then From(s, amounts[i + 1..], n, sent)
            else
              var sent' := Log(sent, amounts[i], s.reply(n));
              var end := Judge(s, n, amounts[i], sent');
              if end.Some? then end.value else From(s, amounts[i + 1..], n + 1, sent')
  {
    assert amounts[i..][0] == amounts[i] && amounts[i..][1..] == amounts[i + 1..];
  }

  /** The loop over the steps. */
  method SellInSteps(s: Sale, steps: seq<Option<real>>, ghost amounts: seq<real>)
      returns (outcome: Outcome, sent: seq<Sent>)
    requires |amounts| == |steps| && forall k :: 0 <= k < |steps| ==> amounts[k] == AmountAt(s, steps[k])
    ensures Run(outcome, sent) == From(s, amounts, 0, [])
  {
    sent := [];
    var n, i := 0, 0;
    assert amounts[0..] == amounts;
    while i < |steps|
      invariant 0 <= i <= |steps| && n >= 0
      invariant From(s, amounts[i..], n, sent) == From(s, amounts, 0, [])
    {
      var amount := AmountAt(s, steps[i]);
      FromGoesOn(s, amounts, i, n, sent);
      if amount > 0.0 {
        sent := Log(sent, amount, s.reply(n));
        var end := Judge(s, n, amount, sent);
        if end.Some? {
          return end.value.outcome, end.value.sent;
        }
        n := n + 1;
      }
      i := i + 1;
    }
    outcome := Exhausted;
  }

  method MarketSell(s: Sale) returns (outcome: Outcome, sent: seq<Sent>)
    ensures Run(outcome, sent) == Sell(s)
  {
    if s.raw <= 0.0 || FirstAmount(s) <= 0.0 {
      return Invalid, [];
    }
    var steps := CollectSteps(s);
    outcome, sent := SellInSteps(s, steps, Amounts(s));
  }

  // ------------------------------------------------------------------ safety

  predicate Within(s: Sale, x: Sent) {
    0.0 < x.amount <= s.raw
  }

  /** A rejection after which the source may send again, as its text is read. */
  predicate Rejected(x: Sent) {
    x.reply.Failed? && (x.reply.failure.precision || x.reply.failure.balance)
  }

  /** Amounts stay within the request, and everything but the last was rejected. */
  ghost predicate Careful(s: Sale, sent: seq<Sent>) {
    && (forall k :: 0 <= k < |sent| ==> Within(s, sent[k]))
    && (forall k :: 0 <= k < |sent| - 1 ==> Rejected(sent[k]))
  }

  lemma AmountIsWithin(s: Sale, step: Option<real>)
    requires s.raw > 0.0 && (step.Some? ==> step.value > 0.0) && StepsPositive(s)
    ensures AmountAt(s, step) <= s.raw
  {
    if step.Some? {
      RoundedIsBelow(s.raw, step.value);
    } else if !(s.native.Some? && s.native.value <= s.raw) {
      RoundedIsBelow(s.raw, Or(if s.precisionStep.Some? then s.precisionStep else s.minAmount, DEFAULT_STEP));
    }
  }

  /** Market steps are read as positive numbers or not at all. */
  predicate StepsPositive(s: Sale) {
    (s.precisionStep.Some? ==> s.precisionStep.value > 0.0) && (s.minAmount.Some? ==> s.minAmount.value > 0.0)
  }

  predicate AllPositive(steps: seq<Option<real>>) {
    forall k :: 0 <= k < |steps| && steps[k].Some? ==> steps[k].value > 0.0
  }

  lemma {:induction false} CoarserStaysPositive(steps: seq<Option<real>>, coarser: seq<real>)
    requires AllPositive(steps) && forall k :: 0 <= k < |coarser| ==> coarser[k] > 0.0
    ensures AllPositive(WithCoarser(steps, coarser)) && |WithCoarser(steps, coarser)| <= |steps| + |coarser|
    decreases |coarser|
  {
    if coarser != [] {
      CoarserStaysPositive(if Some(coarser[0]) in steps then steps else steps + [Some(coarser[0])], coarser[1..]);
    }
  }

  /** Every earlier try so far was rejected. */
  ghost predicate AllRejected(s: Sale, sent: seq<Sent>) {
    forall k :: 0 <= k < |sent| ==> Within(s, sent[k]) && Rejected(sent[k])
  }

  lemma CappedIsCareful(s: Sale, n: nat, amount: real, sent: seq<Sent>)
    requires AllRejected(s, sent) && 0.0 < amount <= s.raw
    ensures var r := RetryCapped(s, n, amount, sent); Careful(s, r.sent) && |r.sent| <= |sent| + 1
    ensures var r := RetryCapped(s, n, amount, sent);
            s.hasClientId && |r.sent| > |sent| && r.sent[|sent|].reply.Failed? ==>
                r.outcome in {Recovered(r.sent[|sent|].amount), OutcomeUnknown}
  {
  }

  /** How the last request that reached the venue may end. */
  ghost predicate EndsKnown(s: Sale, r: Run) {
    s.hasClientId && r.sent != [] && r.sent[|r.sent| - 1].reply.Failed? && !Rejected(r.sent[|r.sent| - 1]) ==>
      r.outcome in {Recovered(r.sent[|r.sent| - 1].amount), OutcomeUnknown}
  }

  lemma JudgeIsCareful(s: Sale, n: nat, amount: real, sent: seq<Sent>)
    requires AllRejected(s, sent) && 0.0 < amount <= s.raw
    ensures var sent' := Log(sent, amount, s.reply(n));
            var end := Judge(s, n, amount, sent');
            && (end.None? ==> AllRejected(s, sent'))
            && (end.Some? ==> Careful(s, end.value.sent) && EndsKnown(s, end.value) && |end.value.sent| <= |sent| + 2)
  {
    var sent' := Log(sent, amount, s.reply(n));
    if s.reply(n).Failed? && s.reply(n).failure.balance {
      CappedIsCareful(s, n + 1, amount, sent');
    }
  }

  lemma {:induction false} FromIsCareful(s: Sale, amounts: seq<real>, n: nat, sent: seq<Sent>)
    requires AllRejected(s, sent) && forall k :: 0 <= k < |amounts| ==> amounts[k] <= s.raw
    ensures var r := From(s, amounts, n, sent);
            Careful(s, r.sent) && |r.sent| <= |sent| + |amounts| + 1 && EndsKnown(s, r)
    decreases |amounts|
  {
    if amounts != [] {
      if amounts[0] <= 0.0 {
        FromIsCareful(s, amounts[1..], n, sent);
      } else {
        JudgeIsCareful(s, n, amounts[0], sent);
        var sent' := Log(sent, amounts[0], s.reply(n));
        if Judge(s, n, amounts[0], sent').None? {
          FromIsCareful(s, amounts[1..], n + 1, sent');
        }
      }
    }
  }

  lemma AmountsAreWithin(s: Sale)
    requires s.raw > 0.0 && StepsPositive(s)
    ensures |Amounts(s)| <= 11 && forall k :: 0 <= k < |Amounts(s)| ==> Amounts(s)[k] <= s.raw
  {
    var market := [None] + (if s.precisionStep.Some? then [s.precisionStep] else [])
      + (if s.minAmount.Some? && s.minAmount != s.precisionStep then [s.minAmount] else []);
    CoarserStaysPositive(market, COARSER);
    forall k | 0 <= k < |Amounts(s)| ensures Amounts(s)[k] <= s.raw {
      AmountIsWithin(s, Steps(s)[k]);
    }
  }

  /**
    For every sequence of answers: each amount sent is positive and at most the
    requested one; a further sell is sent only after a precision or balance
    rejection; and with a client id a failure of any other kind is the last
    request, followed only by recovery or the typed unknown outcome.
   */
  lemma AmbiguousFailureIsTheLastSell(s: Sale)
    requires StepsPositive(s)
    ensures Careful(s, Sell(s).sent) && EndsKnown(s, Sell(s)) && |Sell(s).sent| <= 12
  {
    if s.raw > 0.0 && FirstAmount(s) > 0.0 {
      AmountsAreWithin(s);
      FromIsCareful(s, Amounts(s), 0, []);
    }
  }

  // --------------------------------------------------- how a sale goes and ends

  /** The step by which the first amount is rounded when the venue's own rounding is of no use. */
  function FirstStep(s: Sale): real {
    match (s.precisionStep, s.minAmount)
    case (Some(step), _) => step
    case (None, Some(step)) => step
    case (None, None) => 0.0001
  }

  /** The first amount is the venue's own rounding unless that failed or amplified; else less than one step is lost. */
  lemma FirstAmountIs(s: Sale)
    requires s.raw > 0.0 && StepsPositive(s)
    ensures s.native.Some? && s.native.value <= s.raw ==> FirstAmount(s) == s.native.value
    ensures s.native.None? || s.native.value > s.raw ==>
              0.0 <= FirstAmount(s) <= s.raw < FirstAmount(s) + FirstStep(s)
              && exists n: int :: FirstAmount(s) == Multiple(n, FirstStep(s))
  {
    if !(s.native.Some? && s.native.value <= s.raw) {
      RoundedIsBelow(s.raw, FirstStep(s));
      assert FirstAmount(s) == Multiple((s.raw / FirstStep(s)).Floor, FirstStep(s));
    }
  }

  function Multiple(n: int, step: real): real {
    n as real * step
  }

  function MarketSteps(s: Sale): seq<Option<real>> {
    [None] + (if s.precisionStep.Some? then [s.precisionStep] else [])
    + (if s.minAmount.Some? && s.minAmount != s.precisionStep then [s.minAmount] else [])
  }

  lemma MarketStepsAre(s: Sale)
    ensures var steps := MarketSteps(s);
            && steps[0].None? && (forall i, j :: 0 <= i < j < |steps| ==> steps[i] != steps[j])
            && (forall x: real :: Some(x) in steps <==> s.precisionStep == Some(x) || s.minAmount == Some(x))
  {
  }

  /** Which steps are tried: the first amount as it is, then each step of the market and each coarser one once. */
  lemma StepsAre(s: Sale, coarser: seq<real>)
    requires coarser == COARSER
    ensures var steps := Steps(s);
            && steps != [] && steps[0].None? && (forall i, j :: 0 <= i < j < |steps| ==> steps[i] != steps[j])
            && (forall x: real :: Some(x) in steps <==>
                s.precisionStep == Some(x) || s.minAmount == Some(x) || x in coarser)
  {
    MarketStepsAre(s);
    CoarserAreAdded(MarketSteps(s), coarser);
    assert Steps(s) == WithCoarser(MarketSteps(s), coarser);
  }

  lemma {:induction false} CoarserAreAdded(steps: seq<Option<real>>, coarser: seq<real>)
    requires steps != [] && forall i, j :: 0 <= i < j < |steps| ==> steps[i] != steps[j]
    ensures var all := WithCoarser(steps, coarser);
            && all != [] && all[0] == steps[0]
            && (forall x: Option<real> :: x in all <==> x in steps || (x.Some? && x.value in coarser))
            && (forall i, j :: 0 <= i < j < |all| ==> all[i] != all[j])
    decreases |coarser|
  {
    if coarser != [] {
      CoarserAreAdded(if Some(coarser[0]) in steps then steps else steps + [Some(coarser[0])], coarser[1..]);
    }
  }

  /** What is tried at a step: the whole number of steps that comes closest to the request from below. */
  lemma AmountOfStep(s: Sale, k: nat, step: real)
    requires k < |Steps(s)| && Steps(s)[k] == Some(step) && step > 0.0 && s.raw > 0.0
    ensures |Amounts(s)| == |Steps(s)| && 0.0 <= Amounts(s)[k] <= s.raw < Amounts(s)[k] + step
    ensures exists n: int :: Amounts(s)[k] == Multiple(n, step)
  {
    assert Amounts(s)[k] == AmountAt(s, Some(step));
    RoundedAtStep(s, step);
  }

  lemma RoundedAtStep(s: Sale, step: real)
    requires step > 0.0 && s.raw > 0.0
    ensures var amount := AmountAt(s, Some(step));
            0.0 <= amount <= s.raw < amount + step && exists n: int :: amount == Multiple(n, step)
  {
    RoundedIsBelow(s.raw, step);
    assert AmountAt(s, Some(step)) == Multiple((s.raw / step).Floor, step);
  }

  /** Only positive amounts are tried. */
  function Positives(amounts: seq<real>): seq<real> {
    if amounts == [] then []
    else (if amounts[0] > 0.0 then [amounts[0]] else []) + Positives(amounts[1..])
  }

  predicate RefusedForPrecision(s: Sale, n: nat) {
    s.reply(n).Failed? && s.reply(n).failure.precision
  }

  /** A failure that may hide an accepted sell is looked up under the client id; without one the error goes on. */
  function Unclear(s: Sale, n: nat, amount: real, notSent: bool): Outcome {
    if !s.hasClientId || notSent then Raised else if s.found(n) then Recovered(amount) else OutcomeUnknown
  }

  /** What the wallet holds, as the venue would round it. */
  function Offer(s: Sale): real
    requires s.free.Some?
  {
    match s.precise
    case Some(precise) => if precise < 0.0 || precise > s.free.value then s.free.value else precise
    case None => s.free.value
  }

  /** The wallet can be read, holds less than the amount, and that may be sold. */
  predicate TriesTheRest(s: Sale, amount: real) {
    && s.free.Some? && s.free.value > 0.0
    && 0.0 < Offer(s) < amount && (s.minAmount.Some? ==> s.minAmount.value <= Offer(s))
  }

  /**
    How a try that is not refused for its precision ends the call.  If it is
    accepted, so much was sold.  If the balance does not suffice, the call is
    tried once more with what the wallet holds, provided that it may be sold and
    is less; with nothing that may be sold it ends with the typed balance error,
    else with the error itself.  Any other failure is unclear.
   */
  ghost predicate EndsAs(s: Sale, k: nat, amount: real, outcome: Outcome) {
    match s.reply(k)
    case Accepted => outcome == Sold(amount)
    case Failed(f) =>
      if !f.balance then outcome == Unclear(s, k, amount, f.notSent)
      else if TriesTheRest(s, amount) then
        outcome == match s.reply(k + 1)
                   case Accepted => Sold(Offer(s))
                   case Failed(g) => Unclear(s, k + 1, Offer(s), g.notSent)
      else if s.free.None? || (s.free.value > 0.0 && Offer(s) >= amount
                               && (s.minAmount.Some? ==> s.minAmount.value <= Offer(s))) then outcome == Raised
      else outcome == InsufficientBalance
  }

  /** The requests of the first `m` tries that reached the venue. */
  function Reached(s: Sale, tried: seq<real>, n: nat, m: nat): seq<Sent>
    requires m <= |tried|
  {
    if m == 0 then []
    else
      (if s.reply(n).Accepted? || !s.reply(n).failure.notSent then [Sent(tried[0], s.reply(n))] else [])
      + Reached(s, tried[1..], n + 1, m - 1)
  }

  /** The request with the rest of the wallet, if there was one and it reached the venue. */
  function RestSent(s: Sale, k: nat, amount: real): seq<Sent> {
    if s.reply(k).Failed? && s.reply(k).failure.balance && TriesTheRest(s, amount)
       && (s.reply(k + 1).Accepted? || !s.reply(k + 1).failure.notSent)
    then [Sent(Offer(s), s.reply(k + 1))] else []
  }

  lemma JudgeEnds(s: Sale, n: nat, amount: real, sent: seq<Sent>)
    requires amount > 0.0
    ensures Judge(s, n, amount, sent).None? <==> RefusedForPrecision(s, n)
    ensures !RefusedForPrecision(s, n) ==>
              var r := Judge(s, n, amount, sent).value;
              EndsAs(s, n, amount, r.outcome) && r.sent == sent + RestSent(s, n, amount)
  {
    if s.free.Some? {
      assert Sellable(s, s.free.value) == Offer(s);
    }
  }

  /** A run from where `sent` was sent ends as its first `m` answers and the next one say. */
  ghost predicate GoesAs(s: Sale, tried: seq<real>, n: nat, m: nat, sent: seq<Sent>, r: Run)
    requires m <= |tried|
  {
    if m == |tried| then r == Run(Exhausted, sent + Reached(s, tried, n, m))
    else EndsAs(s, n + m, tried[m], r.outcome)
         && r.sent == sent + Reached(s, tried, n, m + 1) + RestSent(s, n + m, tried[m])
  }

  /** The first try is refused for its precision, and the rest goes on from there. */
  lemma GoesOn(s: Sale, tried: seq<real>, n: nat, m: nat, sent: seq<Sent>, r: Run)
    requires 0 < m <= |tried| && GoesAs(s, tried[1..], n + 1, m - 1, Log(sent, tried[0], s.reply(n)), r)
    ensures GoesAs(s, tried, n, m, sent, r)
  {
    LogThen(s, tried, n, m, sent);
    if m < |tried| {
      LogThen(s, tried, n, m + 1, sent);
    }
  }

  lemma LogThen(s: Sale, tried: seq<real>, n: nat, m: nat, sent: seq<Sent>)
    requires 0 < m <= |tried|
    ensures sent + Reached(s, tried, n, m)
         == Log(sent, tried[0], s.reply(n)) + Reached(s, tried[1..], n + 1, m - 1)
  {
  }

  lemma EndsAtOnce(s: Sale, tried: seq<real>, n: nat, sent: seq<Sent>)
    requires tried != [] && tried[0] > 0.0 && !RefusedForPrecision(s, n)
    ensures var r := Judge(s, n, tried[0], Log(sent, tried[0], s.reply(n)));
            r.Some? && GoesAs(s, tried, n, 0, sent, r.value)
  {
    JudgeEnds(s, n, tried[0], Log(sent, tried[0], s.reply(n)));
    LogThen(s, tried, n, 1, sent);
    assert Reached(s, tried[1..], n + 1, 0) == [];
  }

  /** After `m` tries refused for their precision, the next one ends the call, if there is one. */
  lemma {:induction false} FromEnds(s: Sale, amounts: seq<real>, n: nat, sent: seq<Sent>, m: nat)
    requires m <= |Positives(amounts)| && forall j :: n <= j < n + m ==> RefusedForPrecision(s, j)
    requires m < |Positives(amounts)| ==> !RefusedForPrecision(s, n + m)
    ensures GoesAs(s, Positives(amounts), n, m, sent, From(s, amounts, n, sent))
    decreases |amounts|
  {
    if amounts != [] {
      var tried := Positives(amounts);
      if amounts[0] <= 0.0 {
        assert tried == Positives(amounts[1..]);
        FromEnds(s, amounts[1..], n, sent, m);
      } else if m == 0 {
        EndsAtOnce(s, tried, n, sent);
      } else {
        assert tried[1..] == Positives(amounts[1..]);
        JudgeEnds(s, n, amounts[0], Log(sent, amounts[0], s.reply(n)));
        FromEnds(s, amounts[1..], n + 1, Log(sent, amounts[0], s.reply(n)), m - 1);
        GoesOn(s, tried, n, m, sent, From(s, amounts[1..], n + 1, Log(sent, amounts[0], s.reply(n))));
      }
    }
  }

  /**
    Every sale, from its answers alone: the positive amounts are tried in the order
    of the steps; the first try that is not refused for its precision ends the
    call as above, and if there is none the call gives up.  What was sent is
    exactly those tries that reached the venue.
   */
  lemma SaleEnds(s: Sale, tried: seq<real>, m: nat)
    requires s.raw > 0.0 && FirstAmount(s) > 0.0 && tried == Positives(Amounts(s))
    requires m <= |tried| && (forall j :: 0 <= j < m ==> RefusedForPrecision(s, j))
    requires m < |tried| ==> !RefusedForPrecision(s, m)
    ensures var r := Sell(s);
            if m == |tried| then r == Run(Exhausted, Reached(s, tried, 0, m))
            else EndsAs(s, m, tried[m], r.outcome)
                 && r.sent == Reached(s, tried, 0, m + 1) + RestSent(s, m, tried[m])
  {
    SaleGoesAs(s, Amounts(s), m);
    Unprefixed(Reached(s, tried, 0, m));
    if m < |tried| {
      Unprefixed(Reached(s, tried, 0, m + 1));
    }
  }

  lemma SaleGoesAs(s: Sale, amounts: seq<real>, m: nat)
    requires s.raw > 0.0 && FirstAmount(s) > 0.0 && amounts == Amounts(s)
    requires m <= |Positives(amounts)| && (forall j :: 0 <= j < m ==> RefusedForPrecision(s, j))
    requires m < |Positives(amounts)| ==> !RefusedForPrecision(s, m)
    ensures GoesAs(s, Positives(amounts), 0, m, [], Sell(s))
  {
    TriesItsAmounts(s, amounts);
    GoesAsFrom(s, amounts, m, Sell(s));
  }

  lemma TriesItsAmounts(s: Sale, amounts: seq<real>)
    requires s.raw > 0.0 && FirstAmount(s) > 0.0 && amounts == Amounts(s)
    ensures Sell(s) == From(s, amounts, 0, [])
  {
  }

  lemma GoesAsFrom(s: Sale, amounts: seq<real>, m: nat, r: Run)
    requires r == From(s, amounts, 0, [])
    requires m <= |Positives(amounts)| && (forall j :: 0 <= j < m ==> RefusedForPrecision(s, j))
    requires m < |Positives(amounts)| ==> !RefusedForPrecision(s, m)
    ensures GoesAs(s, Positives(amounts), 0, m, [], r)
  {
    FromEnds(s, amounts, 0, [], m);
  }

  lemma Unprefixed(sent: seq<Sent>)
    ensures [] + sent == sent
  {
  }

  /** A sale that cannot start is refused before anything is sent. */
  lemma InvalidIff(s: Sale)
    ensures Sell(s).outcome == Invalid <==> s.raw <= 0.0 || FirstAmount(s) <= 0.0
    ensures Sell(s).outcome == Invalid ==> Sell(s).sent == []
  {
    if s.raw > 0.0 && FirstAmount(s) > 0.0 {
      TriesItsAmounts(s, Amounts(s));
      NeverInvalid(s, Amounts(s), 0, []);
    }
  }

  lemma {:induction false} NeverInvalid(s: Sale, amounts: seq<real>, n: nat, sent: seq<Sent>)
    ensures From(s, amounts, n, sent).outcome != Invalid
    decreases |amounts|
  {
    if amounts != [] {
      NeverInvalid(s, amounts[1..], n, sent);
      NeverInvalid(s, amounts[1..], n + 1, Log(sent, amounts[0], s.reply(n)));
    }
  }
}
