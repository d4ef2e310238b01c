/**
  What an exchange reply proves about one futures order
  (bot_utils/futures_order.py): the evidence fields of an order snapshot, the
  order state machine, and the test that binds a snapshot to the request.

  A snapshot is a parsed record.  Which payload key a field came from does not
  matter here; whether it was absent, present but unusable, or readable does.
 */
module OrderEvidence {
  import opened Wrappers

  type Id = string

  /** A finite non-negative number, a field that is not there, or one that is there but is neither. */
  datatype Num = Absent | Malformed | Val(value: NonNegative)

  type NonNegative = x: real | x >= 0.0

  datatype Evidence<+T> = Missing | Unreadable | Is(value: T)

  datatype Status = NoStatus | Open | New | Partial | Closed | FilledAlias | Canceled | Expired | Rejected | OtherStatus

  datatype Side = Buy | Sell

  datatype Leg = Long | Short

  datatype LegText = NoLeg | BadLeg | BothOrNet | OfLeg(leg: Leg)

  datatype Venue = Mexc | Okx | OtherVenue

  /** The MEXC contract action codes: 1 open long, 2 close short, 3 open short, 4 close long. */
  datatype Code = OpenLong | CloseShort | OpenShort | CloseLong

  datatype SideText = NoSide | BadSide | Named(side: Side) | Coded(code: Code)

  datatype Order = Order(
    fromTrades: bool,
    recoveryConflict: bool,
    ids: set<Id>,
    clientIds: set<Id>,
    status: Status,
    amount: Num,
    filled: Num,
    cost: Num,
    symbol: Evidence<string>,
    side: SideText,
    infoIsMapping: bool,
    infoSide: Evidence<Code>,
    reduceFlags: seq<Flag>,
    infoReduceFlags: seq<Flag>,
    legs: seq<LegText>)

  /** A reduce-only field: a literal boolean, or a text or number that reads as one. */
  datatype Flag = NoFlag | BadFlag | Literal(value: bool) | Reads(value: bool)

  /** What `create_order` or a lookup hands back; None and non-dict answers carry no order. */
  datatype Response = NoOrder | Snapshot(order: Order)

  datatype Request = Request(
    symbol: string,
    side: Side,
    leg: Option<Leg>,
    reduceOnly: bool,
    clientId: Id,
    amount: real,
    venue: Venue)

  datatype OrderState = Submitted | Acknowledged | PartiallyFilled | StateFilled | Failed | StateCanceled | StateExpired

  /** The fraction of the amount from which an order counts as filled. */
  const FILL_THRESHOLD: real := 0.9999

  predicate Positive(n: Num) {
    n.Val? && n.value > 0.0
  }

  /** `_finite_nonnegative_order_value`: anything unusable reads as zero. */
  function OrZero(n: Num): real {
    if n.Val? then n.value else 0.0
  }

  function Max(a: real, b: real): real {
    if a < b then b else a
  }

  /** max(1e-12, requested * 1e-9) */
  function Tolerance(requested: real): (t: real)
    ensures t > 0.0 && t >= requested * 0.000000001
  {
    Max(0.000000000001, requested * 0.000000001)
  }

  function Abs(x: real): real {
    if x < 0.0 then -x else x
  }

  predicate HasFill(o: Order) {
    OrZero(o.filled) > 0.0 || OrZero(o.cost) > 0.0
  }

  /** `_order_response_has_evidence`: status "closed" alone is not evidence. */
  predicate HasEvidence(r: Response) {
    r.Snapshot? && (
      || r.order.ids != {}
      || r.order.status in {Open, New, Partial, Canceled, Expired, Rejected}
      || HasFill(r.order))
  }

  predicate Landed(o: Order) {
    |o.ids| <= 1
    && o.status != Rejected
    && (HasFill(o)
        || (o.status !in {Canceled, Expired} && (o.status in {Open, New, Partial} || o.ids != {})))
  }

  function Classify(o: Order): OrderState {
    var filled, amount := OrZero(o.filled), OrZero(o.amount);
    if o.status == FilledAlias && filled > 0.0 then StateFilled
    else if o.status == Closed then StateFilled
    else if o.status == Canceled then StateCanceled
    else if o.status == Expired then StateExpired
    else if o.status == Rejected then Failed
    else if amount > 0.0 && filled >= amount * FILL_THRESHOLD then StateFilled
    else if o.status == Open then
      if filled > 0.0 && amount > 0.0 && filled < amount then PartiallyFilled else Acknowledged
    else if filled > 0.0 then PartiallyFilled
    else Submitted
  }

  function CodeSide(c: Code): Side {
    if c in {OpenLong, CloseShort} then Buy else Sell
  }

  function CodeLeg(c: Code): Leg {
    if c in {OpenLong, CloseLong} then Long else Short
  }

  function CodeReduces(c: Code): bool {
    c in {CloseShort, CloseLong}
  }

  // ------------------------------------------------- binding to the request

  predicate AmountConflicts(o: Order, requested: real) {
    var tolerance := Tolerance(requested);
    || requested <= 0.0
    || (!o.amount.Absent? &&
        (if !Positive(o.amount) then true
         else if o.fromTrades then o.amount.value > requested + tolerance
         else Abs(o.amount.value - requested) > tolerance))
    || (!o.filled.Absent? && (o.filled.Malformed? || o.filled.value > requested + tolerance))
  }

  predicate StatusConflicts(o: Order) {
    || (o.status in {Closed, FilledAlias} && !o.filled.Absent? && !Positive(o.filled))
    || (o.status == Rejected && HasFill(o))
  }

  /** The side text that counts: on MEXC the venue's own code outranks the unified field. */
  function ReadSide(o: Order, venue: Venue): SideText {
    if venue == Mexc && o.infoSide.Is? then Coded(o.infoSide.value) else o.side
  }

  predicate SideConflicts(o: Order, req: Request) {
    || (req.venue == Mexc && o.infoSide.Unreadable?)
    || (match ReadSide(o, req.venue)
        case NoSide => false
        case BadSide => true
        case Named(s) => s != req.side
        case Coded(c) =>
          || req.venue != Mexc
          || CodeSide(c) != req.side
          || (req.leg.Some? && CodeLeg(c) != req.leg.value)
          || CodeReduces(c) != req.reduceOnly)
  }

  predicate FlagConflicts(flag: Flag, reduceOnly: bool) {
    flag.BadFlag? || (!flag.NoFlag? && flag.value != reduceOnly)
  }

  /** OKX acknowledgements carry a synthesized top-level False that proves nothing by itself. */
  predicate Synthesized(o: Order, flag: Flag, venue: Venue) {
    venue == Okx && flag == Literal(false) && forall k :: 0 <= k < |o.infoReduceFlags| ==> o.infoReduceFlags[k].NoFlag?
  }

  predicate ReduceConflicts(o: Order, req: Request) {
    || (exists k :: 0 <= k < |o.reduceFlags| && !Synthesized(o, o.reduceFlags[k], req.venue)
                    && FlagConflicts(o.reduceFlags[k], req.reduceOnly))
    || (exists k :: 0 <= k < |o.infoReduceFlags| && FlagConflicts(o.infoReduceFlags[k], req.reduceOnly))
  }

  predicate LegConflicts(text: LegText, leg: Option<Leg>) {
    match text
    case NoLeg => false
    case BadLeg => true
    case BothOrNet => leg.Some?
    case OfLeg(l) => leg != Some(l)
  }

  /** `_order_request_conflicts`: some explicit evidence contradicts the request. */
  predicate Conflicts(r: Response, req: Request) {
    r.Snapshot? && var o := r.order;
    || o.recoveryConflict
    || |o.ids| > 1
    || (req.clientId != "" && o.clientIds != {} && o.clientIds != {req.clientId})
    || AmountConflicts(o, req.amount)
    || StatusConflicts(o)
    || o.symbol.Unreadable? || (o.symbol.Is? && o.symbol.value != req.symbol)
    || !o.infoIsMapping
    || SideConflicts(o, req)
    || ReduceConflicts(o, req)
    || (exists k :: 0 <= k < |o.legs| && LegConflicts(o.legs[k], req.leg))
  }

  predicate Agrees(flag: Flag, reduceOnly: bool) {
    flag.NoFlag? || (!flag.BadFlag? && flag.value == reduceOnly)
  }

  /**
    The numbers of an order that belongs to the request: aggregated trades may
    be fewer, an order's own amount may not.
   */
  ghost predicate NumbersFit(o: Order, req: Request) {
    var slack := Tolerance(req.amount);
    && req.amount > 0.0
    && !o.amount.Malformed? && !o.filled.Malformed?
    && (o.amount.Val? ==> 0.0 < o.amount.value <= req.amount + slack)
    && (o.amount.Val? && !o.fromTrades ==> o.amount.value >= req.amount - slack)
    && (o.filled.Val? ==> o.filled.value <= req.amount + slack)
    && (o.filled.Val? && o.filled.value == 0.0 ==> o.status !in {Closed, FilledAlias})
    && (o.status == Rejected ==> !HasFill(o))
  }

  /** The side that counts is the requested one; a MEXC code also names the leg and whether the order reduces. */
  ghost predicate SideFits(o: Order, req: Request) {
    if req.venue == Mexc && !o.infoSide.Missing? then o.infoSide.Is? && CodeFits(o.infoSide.value, req)
    else
      || o.side.NoSide?
      || o.side == Named(req.side)
      || (o.side.Coded? && req.venue == Mexc && CodeFits(o.side.code, req))
  }

  ghost predicate CodeFits(c: Code, req: Request) {
    match c
    case OpenLong => req.side == Buy && req.leg != Some(Short) && !req.reduceOnly
    case CloseShort => req.side == Buy && req.leg != Some(Long) && req.reduceOnly
    case OpenShort => req.side == Sell && req.leg != Some(Long) && !req.reduceOnly
    case CloseLong => req.side == Sell && req.leg != Some(Short) && req.reduceOnly
  }

  /** No reduce-only field says otherwise; a False that OKX was made to say does not count. */
  ghost predicate FlagsFit(o: Order, req: Request) {
    && (forall k :: 0 <= k < |o.infoReduceFlags| ==> Agrees(o.infoReduceFlags[k], req.reduceOnly))
    && (forall k :: 0 <= k < |o.reduceFlags| ==>
          || Agrees(o.reduceFlags[k], req.reduceOnly)
          || (req.venue == Okx && o.reduceFlags[k] == Literal(false)
              && forall j :: 0 <= j < |o.infoReduceFlags| ==> o.infoReduceFlags[j].NoFlag?))
  }

  ghost predicate LegsFit(o: Order, req: Request) {
    forall k :: 0 <= k < |o.legs| ==>
      o.legs[k].NoLeg? || (o.legs[k].BothOrNet? && req.leg.None?)
          || (o.legs[k].OfLeg? && req.leg == Some(o.legs[k].leg))
  }

  /** What is known about an order that was accepted as the answer to a request. */
  ghost predicate Bound(o: Order, req: Request) {
    && (forall id, id' :: id in o.ids && id' in o.ids ==> id == id')
    && (req.clientId != "" ==> forall id :: id in o.clientIds ==> id == req.clientId)
    && (o.symbol.Missing? || o.symbol == Is(req.symbol))
    && o.infoIsMapping
    && NumbersFit(o, req) && SideFits(o, req) && FlagsFit(o, req) && LegsFit(o, req)
  }

  lemma AtMostOneId(s: set<Id>)
    requires |s| <= 1
    ensures forall a, b :: a in s && b in s ==> a == b
  {
    forall a, b | a in s && b in s ensures a == b {
      if a != b {
        assert {a, b} <= s;
        CardinalityGrows({a, b}, s);
      }
    }
  }

  lemma CardinalityGrows(a: set<Id>, b: set<Id>)
    requires a <= b
    ensures |a| <= |b|
  {
    assert b == a + (b - a);
  }

  lemma OneIdAtMost(s: set<Id>)
    requires forall a, b :: a in s && b in s ==> a == b
    ensures |s| <= 1
  {
    if x :| x in s {
      assert s == {x};
    }
  }

  lemma OnlyId(s: set<Id>, id: Id)
    ensures s == {} || s == {id} <==> forall x :: x in s ==> x == id
  {
    if s != {} && forall x :: x in s ==> x == id {
      assert s <= {id};
      var y :| y in s;
    }
  }

  lemma NumbersFitIff(o: Order, req: Request)
    ensures !AmountConflicts(o, req.amount) && !StatusConflicts(o) <==> NumbersFit(o, req)
  {
  }

  lemma SideFitsIff(o: Order, req: Request)
    ensures !SideConflicts(o, req) <==> SideFits(o, req)
  {
  }

  lemma FlagsFitIff(o: Order, req: Request)
    ensures !ReduceConflicts(o, req) <==> FlagsFit(o, req)
  {
    forall k | 0 <= k < |o.reduceFlags|
      ensures FlagConflicts(o.reduceFlags[k], req.reduceOnly) <==> !Agrees(o.reduceFlags[k], req.reduceOnly)
    {
    }
  }

  lemma LegsFitIff(o: Order, req: Request)
    ensures (forall k :: 0 <= k < |o.legs| ==> !LegConflicts(o.legs[k], req.leg)) <==> LegsFit(o, req)
  {
  }

  /**
    An order is free of contradiction exactly when it agrees with the request in
    everything it says: the order ids with each other, the client id, symbol,
    amounts, side, leg and reduce-only fields with the request.
   */
  lemma UncontradictedIffBound(o: Order, req: Request)
    ensures !Conflicts(Snapshot(o), req) <==> !o.recoveryConflict && Bound(o, req)
  {
    if |o.ids| <= 1 {
      AtMostOneId(o.ids);
    } else if Bound(o, req) {
      OneIdAtMost(o.ids);
    }
    OnlyId(o.clientIds, req.clientId);
    NumbersFitIff(o, req);
    SideFitsIff(o, req);
    FlagsFitIff(o, req);
    LegsFitIff(o, req);
  }

  /** The venue says that something was filled. */
  ghost predicate ShowsFill(o: Order) {
    (o.filled.Val? && o.filled.value > 0.0) || (o.cost.Val? && o.cost.value > 0.0)
  }

  /**
    What counts as placed: never a rejected order, a canceled or expired one only
    with a fill, and in any case with a fill, a live status or one order id.
   */
  ghost predicate IsPlaced(o: Order) {
    && |o.ids| <= 1 && o.status != Rejected
    && (o.status in {Canceled, Expired} ==> ShowsFill(o))
    && (ShowsFill(o) || o.status in {Open, New, Partial} || |o.ids| == 1)
  }

  lemma LandedIff(o: Order)
    ensures Landed(o) <==> IsPlaced(o)
  {
    assert o.ids == {} <==> |o.ids| == 0;
  }

  /**
    The state machine's answers.  A closed order counts as filled, and so does one
    that has not ended and reports all but a ten-thousandth of its amount; the
    text "filled" needs a fill to count.  An open order without an amount is
    merely acknowledged whatever fill it reports.
   */
  lemma StatesMean(o: Order)
    ensures var state, filled, amount, ended :=
              Classify(o), OrZero(o.filled), OrZero(o.amount), o.status in {Canceled, Expired, Rejected};
            var whole := amount > 0.0 && filled >= amount * FILL_THRESHOLD;
            && (state == StateFilled <==>
                  || o.status == Closed
                  || (o.status == FilledAlias && filled > 0.0)
                  || (!ended && whole))
            && (state == PartiallyFilled <==>
                  && !ended && o.status !in {Closed, FilledAlias} && !whole && filled > 0.0
                  && (o.status == Open ==> amount > 0.0))
            && (state == Acknowledged <==> o.status == Open && !whole && (filled == 0.0 || amount == 0.0))
            && (state == Submitted <==> !ended && o.status !in {Closed, Open} && !whole && filled == 0.0)
            && (state == StateCanceled <==> o.status == Canceled) && (state == StateExpired <==> o.status == Expired)
            && (state == Failed <==> o.status == Rejected)
  {
    if OrZero(o.amount) > 0.0 && OrZero(o.filled) < OrZero(o.amount) * FILL_THRESHOLD {
      Threshold(OrZero(o.filled), OrZero(o.amount));
    }
  }

  lemma Threshold(filled: real, amount: real)
    requires amount > 0.0 && filled < amount * FILL_THRESHOLD
    ensures filled < amount
  {
  }

  /**
    The two acceptance tests agree: a direct reply that has evidence, does not
    contradict the request and is not an unfilled terminal order has landed.
   */
  lemma AcceptedReplyHasLanded(o: Order, req: Request)
    requires HasEvidence(Snapshot(o)) && !Conflicts(Snapshot(o), req)
    requires Classify(o) in {Failed, StateCanceled, StateExpired} ==> HasFill(o)
    ensures Landed(o)
  {
  }
}
