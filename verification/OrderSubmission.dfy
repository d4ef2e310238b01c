/**
  Placing one market order when answers can be lost
  (`create_order_with_retry` in bot_utils/futures_order.py).  The venue is an
  adversary: for every attempt it chooses whether the call returns, what it
  returns, and what the recovery lookup will see.
 */
module OrderSubmission {
  import opened Wrappers
  import opened OrderEvidence
  import opened OrderLookup

  datatype Gate = GateRaised | GateDenied | Reserved

  /** A raised create call: does its text prove the regional opening restriction, is it of a permanent kind? */
  datatype Reply = Replied(response: Response) | Threw(restriction: bool, permanent: bool)

  /** What one attempt meets: the budget gate, the venue, the sources of a lookup, and the wait before the next. */
  datatype Attempt = Attempt(gate: Gate, reply: Reply, venues: Venues, shutdown: bool)

  /** The arguments as normalised; `None` and `Malformed` stand for values the call refuses. */
  datatype Arguments = Arguments(
    symbol: Option<string>,
    side: Option<Side>,
    amount: Num,
    maxAttempts: Option<int>,
    params: Option<Params>,
    abortOnShutdown: bool,
    venue: Venue,
    generated: Id)

  datatype Params = Params(clientId: Id, reduceOnly: bool, leg: Option<Leg>)

  datatype Outcome =
    | Placed(order: Order)
    | OutcomeUnknown(clientId: Id)
    | NotSubmitted
    | OpeningRestricted
    | InvalidResponse
    | PermanentError
    | GateFailed
    | Aborted
    | Exhausted
    | BadInput

  /** How the call ended and every request it sent, in order. */
  datatype Run = Run(outcome: Outcome, sent: seq<Request>)

  const MAX_ATTEMPTS := 5

  predicate Accepted(a: Arguments) {
    && a.symbol.Some? && a.side.Some? && Positive(a.amount) && a.params.Some?
    && a.maxAttempts.Some? && 0 < a.maxAttempts.value <= MAX_ATTEMPTS
  }

  function RequestOf(a: Arguments): Request
    requires Accepted(a)
  {
    var p := a.params.value;
    Request(a.symbol.value, a.side.value, p.leg, p.reduceOnly,
            if p.clientId != "" then p.clientId else a.generated, a.amount.value, a.venue)
  }

  /** A request that says what the caller asked for, under his client id or else the generated one. */
  predicate IsTheCallers(r: Request, a: Arguments)
    requires Accepted(a)
  {
    && a.symbol == Some(r.symbol) && a.side == Some(r.side) && a.amount.value == r.amount && a.venue == r.venue
    && a.params.value.reduceOnly == r.reduceOnly && a.params.value.leg == r.leg
    && (a.params.value.clientId != "" ==> r.clientId == a.params.value.clientId)
    && (a.params.value.clientId == "" ==> r.clientId == a.generated)
  }

  // ------------------------------------------------- judging one attempt

  /** What the lookup reports: this caller gives no time anchor, and names the whole request. */
  function Existing(v: Venues, req: Request): Option<Order> {
    Conclude(v.(anchored := false), Query(req, true)).order
  }

  predicate Recovered(existing: Option<Order>, req: Request) {
    existing.Some? && Landed(existing.value) && !Conflicts(Snapshot(existing.value), req)
  }

  predicate Contradicted(existing: Option<Order>, req: Request) {
    existing.Some? && Conflicts(Snapshot(existing.value), req)
  }

  predicate Doubtful(r: Response, req: Request) {
    !HasEvidence(r) || Conflicts(r, req)
  }

  function JudgeReply(r: Response, existing: Option<Order>, req: Request): Outcome {
    if Doubtful(r, req) then
      if Recovered(existing, req) then Placed(existing.value)
      else if Conflicts(r, req) || Contradicted(existing, req) || !req.reduceOnly then OutcomeUnknown(req.clientId)
      else InvalidResponse
    else if Classify(r.order) in {Failed, StateCanceled, StateExpired} && !HasFill(r.order) then InvalidResponse
    else Placed(r.order)
  }

  predicate Restricted(f: Reply, req: Request)
    requires f.Threw?
  {
    !req.reduceOnly && req.venue == Mexc && f.restriction
  }

  /** The outcome of a raised create call, or `None` when another attempt is allowed. */
  function JudgeFailure(f: Reply, existing: Option<Order>, req: Request): Option<Outcome>
    requires f.Threw?
  {
    if Restricted(f, req) then Some(OpeningRestricted)
    else if f.permanent then Some(PermanentError)
    else if Recovered(existing, req) then Some(Placed(existing.value))
    else if Contradicted(existing, req) || !req.reduceOnly then Some(OutcomeUnknown(req.clientId))
    else None
  }

  /** How an attempt that was sent ends the call, or `None` when another one is allowed. */
  function Verdict(now: Attempt, req: Request): Option<Outcome> {
    var existing := Existing(now.venues, req);
    if now.reply.Replied? then Some(JudgeReply(now.reply.response, existing, req))
    else JudgeFailure(now.reply, existing, req)
  }

  /** One call, as far as its loop is concerned. */
  datatype Course = Course(
    req: Request,
    limit: nat,
    reserved: nat -> bool,
    judge: nat -> Option<Outcome>,
    stops: nat -> bool)

  function Judge(world: nat -> Attempt, req: Request): nat -> Option<Outcome> {
    (n: nat) => Verdict(world(n), req)
  }

  function CourseOf(a: Arguments, world: nat -> Attempt): Course
    requires Accepted(a)
  {
    Course(RequestOf(a), a.maxAttempts.value, (n: nat) => world(n).gate.Reserved?, Judge(world, RequestOf(a)),
           (n: nat) => a.abortOnShutdown && world(n).shutdown)
  }

  /** The same request, `n` times. */
  function Copies(req: Request, n: nat): (sent: seq<Request>)
    ensures |sent| == n && forall k :: 0 <= k < n ==> sent[k] == req
  {
    if n == 0 then [] else Copies(req, n - 1) + [req]
  }

  /** The loop from attempt `n` on, with `n` requests already sent. */
  function From(c: Course, n: nat): Run
    requires n <= c.limit
    decreases c.limit - n
  {
    var sent := Copies(c.req, n);
    if n == c.limit then Run(Exhausted, sent)
    else if !c.reserved(n) then Run(if n == 0 then NotSubmitted else GateFailed, sent)
    else if c.judge(n).Some? then Run(c.judge(n).value, sent + [c.req])
    else if n + 1 < c.limit && c.stops(n) then Run(Aborted, sent + [c.req])
    else From(c, n + 1)
  }

  /** One round of the loop. */
  lemma FromUnfolds(a: Arguments, world: nat -> Attempt, n: nat, req: Request)
    requires Accepted(a) && n < a.maxAttempts.value && req == RequestOf(a)
    ensures var c, now, sent, verdict := CourseOf(a, world), world(n), Copies(req, n), Verdict(world(n), req);
            From(c, n)
            == if !now.gate.Reserved? then Run(if n == 0 then NotSubmitted else GateFailed, sent)
               else if verdict.Some? then Run(verdict.value, sent + [req])
               else if n + 1 < a.maxAttempts.value && a.abortOnShutdown && now.shutdown then Run(Aborted, sent + [req])
               else From(c, n + 1)
  {
  }

  function Create(a: Arguments, world: nat -> Attempt): Run {
    if Accepted(a) then From(CourseOf(a, world), 0) else Run(BadInput, [])
  }

  method LookUp(v: Venues, req: Request) returns (existing: Option<Order>)
    ensures existing == Existing(v, req)
  {
    var lookup := new Lookup(v.(anchored := false), Query(req, true));
    var conclusion := lookup.Find();
    existing := conclusion.order;
  }

  /** Judges an attempt that was sent, asking the venue again only where the source does. */
  method Reconcile(now: Attempt, req: Request) returns (verdict: Option<Outcome>)
    ensures verdict == Verdict(now, req)
  {
    match now.reply
    case Replied(r) =>
      if Doubtful(r, req) {
        var existing := LookUp(now.venues, req);
        return Some(JudgeReply(r, existing, req));
      }
      return Some(JudgeReply(r, None, req));
    case Threw(_, permanent) =>
      if Restricted(now.reply, req) {
        return Some(OpeningRestricted);
      }
      if permanent {
        return Some(PermanentError);
      }
      var existing := LookUp(now.venues, req);
      return JudgeFailure(now.reply, existing, req);
  }

  method CreateOrder(a: Arguments, world: nat -> Attempt) returns (outcome: Outcome, sent: seq<Request>)
    ensures Run(outcome, sent) == Create(a, world)
    ensures forall k :: 0 <= k < |sent| ==> Accepted(a) && IsTheCallers(sent[k], a)
  {
    sent := [];
    if !Accepted(a) {
      return BadInput, sent;
    }
    var req := RequestOf(a);
    ghost var course := CourseOf(a, world);
    var attempt := 0;
    while attempt < a.maxAttempts.value
      invariant 0 <= attempt <= a.maxAttempts.value
      invariant sent == Copies(req, attempt)
      invariant From(course, attempt) == Create(a, world)
    {
      var now := world(attempt);
      FromUnfolds(a, world, attempt, req);
      if !now.gate.Reserved? {
        return if attempt == 0 then NotSubmitted else GateFailed, sent;
      }
      sent := sent + [req];
      var verdict := Reconcile(now, req);
      if verdict.Some? {
        return verdict.value, sent;
      }
      if attempt + 1 < a.maxAttempts.value && a.abortOnShutdown && now.shutdown {
        return Aborted, sent;
      }
      attempt := attempt + 1;
    }
    outcome := Exhausted;
  }

  // ------------------------------------------------------ no duplicate entry

  /** An attempt after which sending again is allowed. */
  ghost predicate LeavesRoom(now: Attempt, req: Request) {
    && req.reduceOnly && now.gate.Reserved?
    && now.reply.Threw? && !now.reply.permanent
    && !Contradicted(Existing(now.venues, req), req) && !Recovered(Existing(now.venues, req), req)
  }

  lemma {:induction false} SentFrom(c: Course, n: nat)
    requires n <= c.limit
    ensures var r := From(c, n);
            && n <= |r.sent| <= c.limit
            && (forall k :: 0 <= k < |r.sent| ==> r.sent[k] == c.req)
            && (forall k: nat :: n <= k && k + 1 < |r.sent| ==> c.reserved(k) && c.judge(k).None?)
    decreases c.limit - n
  {
    if n < c.limit {
      SentFrom(c, n + 1);
    }
  }

  /** The call ends for a reason of its own, or with the verdict on the last request it sent. */
  lemma {:induction false} EndFrom(c: Course, n: nat)
    requires n <= c.limit
    ensures var r := From(c, n);
            && (r.sent == [] <==> n == 0 && (c.limit == 0 || !c.reserved(0)))
            && (r.sent == [] && c.limit > 0 ==> r.outcome == NotSubmitted)
            && (r.outcome in {Exhausted, GateFailed, Aborted}
                || r.sent == []
                || (|r.sent| > n && c.reserved(|r.sent| - 1) && c.judge(|r.sent| - 1) == Some(r.outcome)))
    decreases c.limit - n
  {
    if n < c.limit {
      EndFrom(c, n + 1);
      SentFrom(c, n + 1);
    }
  }

  /** Another attempt is allowed in exactly one situation. */
  lemma NoVerdictLeavesRoom(now: Attempt, req: Request)
    requires now.gate.Reserved?
    ensures Verdict(now, req).None? <==> LeavesRoom(now, req)
  {
  }

  /**
    Whatever the venue answers: an entry is sent at most once, a reduce-only
    order at most as often as allowed and never more than five times, always as
    the identical request under one client id; and nothing is sent again unless
    the attempt before raised a retryable error and the lookup neither found the
    order nor saw a contradiction.
   */
  lemma NoBlindResubmission(a: Arguments, world: nat -> Attempt)
    ensures var r := Create(a, world);
            && |r.sent| <= MAX_ATTEMPTS
            && (Accepted(a) ==>
                  && |r.sent| <= a.maxAttempts.value
                  && (!RequestOf(a).reduceOnly ==> |r.sent| <= 1)
                  && (forall k :: 0 <= k < |r.sent| ==> r.sent[k] == RequestOf(a))
                  && (forall k: nat :: k + 1 < |r.sent| ==> LeavesRoom(world(k), RequestOf(a))))
  {
    if Accepted(a) {
      var c := CourseOf(a, world);
      SentFrom(c, 0);
      forall k: nat | k + 1 < |Create(a, world).sent| ensures LeavesRoom(world(k), RequestOf(a)) {
        assert c.reserved(k) && c.judge(k).None?;
        NoVerdictLeavesRoom(world(k), RequestOf(a));
      }
      if |Create(a, world).sent| > 1 {
        assert LeavesRoom(world(0), RequestOf(a));
      }
    }
  }

  lemma VerdictKinds(now: Attempt, req: Request)
    requires Verdict(now, req).Some?
    ensures var outcome := Verdict(now, req).value;
            && outcome !in {BadInput, NotSubmitted, Exhausted, GateFailed, Aborted}
            && (outcome == OpeningRestricted ==> now.reply.Threw? && Restricted(now.reply, req))
  {
  }

  /** "Not submitted" is reported exactly when nothing was sent, "restricted" only for one refused MEXC entry. */
  lemma NotSubmittedMeansNothingSent(a: Arguments, world: nat -> Attempt)
    ensures var r := Create(a, world);
            && (r.sent == [] <==> r.outcome in {BadInput, NotSubmitted})
            && (r.outcome == OpeningRestricted ==>
                  |r.sent| == 1 && !r.sent[0].reduceOnly && r.sent[0].venue == Mexc
                  && world(0).reply.Threw? && world(0).reply.restriction)
  {
    if Accepted(a) {
      var c, r := CourseOf(a, world), Create(a, world);
      NoBlindResubmission(a, world);
      EndFrom(c, 0);
      if r.sent != [] {
        var last: nat := |r.sent| - 1;
        if c.judge(last) == Some(r.outcome) {
          VerdictKinds(world(last), RequestOf(a));
        }
      }
    }
  }

  // ------------------------------------------------- what a success proves

  /** The create call itself answers with the order: evidence that contradicts nothing and is no unfilled end. */
  ghost predicate AnswersWith(reply: Reply, o: Order, req: Request) {
    && reply == Replied(Snapshot(o)) && !o.recoveryConflict && Bound(o, req)
    && (|| o.ids != {} || ShowsFill(o)
        || o.status in {Open, New, Partial, Canceled, Expired, Rejected})
    && (o.status in {Canceled, Expired, Rejected} ==> ShowsFill(o))
  }

  /** The answer leaves open whether the order exists: it was lost, or it says nothing that fits. */
  ghost predicate LeavesOpen(reply: Reply, req: Request) {
    match reply
    case Replied(NoOrder) => true
    case Replied(Snapshot(o)) =>
      || o.recoveryConflict || !Bound(o, req)
      || (o.ids == {} && !ShowsFill(o) && o.status !in {Open, New, Partial, Canceled, Expired, Rejected})
    case Threw(restriction, permanent) =>
      !permanent && !(restriction && req.venue == Mexc && !req.reduceOnly)
  }

  /** What the lookup after the attempt found is the order that was sent, and it was placed. */
  ghost predicate Found(now: Attempt, o: Order, req: Request) {
    Existing(now.venues, req) == Some(o) && !o.recoveryConflict && Bound(o, req) && IsPlaced(o)
  }

  /** What the lookup or the reply shows under this client id does not fit the request. */
  ghost predicate ShowsContradiction(now: Attempt, req: Request) {
    var existing := Existing(now.venues, req);
    || (existing.Some? && (existing.value.recoveryConflict || !Bound(existing.value, req)))
    || (now.reply.Replied? && now.reply.response.Snapshot?
        && (now.reply.response.order.recoveryConflict || !Bound(now.reply.response.order, req)))
  }

  lemma TerminalStates(o: Order)
    requires !StatusConflicts(o)
    ensures Classify(o) in {Failed, StateCanceled, StateExpired} <==> o.status in {Canceled, Expired, Rejected}
  {
  }

  lemma DoubtIff(r: Response, req: Request)
    ensures Doubtful(r, req) <==> LeavesOpen(Replied(r), req)
  {
    if r.Snapshot? {
      UncontradictedIffBound(r.order, req);
    }
  }

  /** What the lookup hands back unflagged carries this client id and agrees with the whole request. */
  lemma LookupIsBound(v: Venues, req: Request)
    ensures var existing := Existing(v, req);
            existing.Some? && !existing.value.recoveryConflict ==>
              req.clientId in existing.value.clientIds && Bound(existing.value, req)
  {
    var w, q := v.(anchored := false), Query(req, true);
    FoundIsOurs(w, q);
    if Existing(v, req).Some? {
      UncontradictedIffBound(Existing(v, req).value, req);
    }
  }

  lemma RecoveredIff(now: Attempt, req: Request)
    ensures forall o :: Found(now, o, req) <==>
              Recovered(Existing(now.venues, req), req) && o == Existing(now.venues, req).value
  {
    var existing := Existing(now.venues, req);
    if existing.Some? {
      UncontradictedIffBound(existing.value, req);
      LandedIff(existing.value);
    }
  }

  /**
    An order is reported as placed exactly when the create call answers with it,
    or when that call leaves it open and the lookup finds it placed.
   */
  lemma PlacedIff(now: Attempt, req: Request, o: Order)
    ensures Verdict(now, req) == Some(Placed(o)) <==>
              AnswersWith(now.reply, o, req) || (LeavesOpen(now.reply, req) && Found(now, o, req))
  {
    RecoveredIff(now, req);
    if now.reply.Replied? {
      DoubtIff(now.reply.response, req);
      if now.reply.response.Snapshot? {
        UncontradictedIffBound(now.reply.response.order, req);
        if !Doubtful(now.reply.response, req) {
          TerminalStates(now.reply.response.order);
        }
      }
    }
  }

  /**
    The outcome is reported as unknown exactly when the create call leaves it
    open, the lookup does not find the order placed, and either something under
    its client id contradicts the request or the order was an entry.
   */
  lemma UnknownIff(now: Attempt, req: Request)
    ensures Verdict(now, req) == Some(OutcomeUnknown(req.clientId)) <==>
              && LeavesOpen(now.reply, req) && (forall o :: !Found(now, o, req))
              && (ShowsContradiction(now, req) || !req.reduceOnly)
  {
    var existing := Existing(now.venues, req);
    RecoveredIff(now, req);
    if existing.Some? {
      UncontradictedIffBound(existing.value, req);
    }
    if Recovered(existing, req) {
      assert Found(now, existing.value, req);
    }
    if now.reply.Replied? {
      DoubtIff(now.reply.response, req);
      if now.reply.response.Snapshot? {
        UncontradictedIffBound(now.reply.response.order, req);
      }
    }
  }

  lemma PlacedVerdictHasLanded(now: Attempt, req: Request)
    requires Verdict(now, req).Some? && Verdict(now, req).value.Placed?
    ensures var o := Verdict(now, req).value.order; IsPlaced(o) && !o.recoveryConflict && Bound(o, req)
  {
    var o := Verdict(now, req).value.order;
    PlacedIff(now, req, o);
    if AnswersWith(now.reply, o, req) {
      OneIdAtMost(o.ids);
    }
  }

  /**
    An order that is returned as placed is alive or filled, never a rejected or an
    unfilled ended one, and agrees with the request wherever it says anything:
    symbol, side, leg, reduce-only, client id and amount.
   */
  lemma PlacedIsTheRequestedOrder(a: Arguments, world: nat -> Attempt)
    requires Create(a, world).outcome.Placed?
    ensures Accepted(a)
    ensures var o, req := Create(a, world).outcome.order, RequestOf(a);
            && !o.recoveryConflict && Bound(o, req)
            && o.status != Rejected && (o.status in {Canceled, Expired} ==> ShowsFill(o))
            && (ShowsFill(o) || o.status in {Open, New, Partial} || |o.ids| == 1)
  {
    var r, c := Create(a, world), CourseOf(a, world);
    EndFrom(c, 0);
    assert c.judge(|r.sent| - 1) == Some(r.outcome);
    PlacedVerdictHasLanded(world(|r.sent| - 1), RequestOf(a));
  }

  /**
    An entry whose create call raised without proof of rejection is never
    reported as failed: it is either found, or its outcome is unknown.
   */
  lemma LostEntryIsFoundOrUnknown(a: Arguments, world: nat -> Attempt)
    requires Accepted(a) && !RequestOf(a).reduceOnly && world(0).gate.Reserved?
    requires world(0).reply.Threw? && !world(0).reply.permanent
    ensures var req := RequestOf(a);
            var existing := Existing(world(0).venues, req);
            Create(a, world) == Run(
              if Restricted(world(0).reply, req) then OpeningRestricted
              else if Recovered(existing, req) then Placed(existing.value)
              else OutcomeUnknown(req.clientId), [req])
  {
    var c := CourseOf(a, world);
    assert c.judge(0) == Verdict(world(0), RequestOf(a));
    assert From(c, 0).sent == [] + [c.req];
  }
}
