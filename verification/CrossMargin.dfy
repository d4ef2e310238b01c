/**
  The cross-margin liquidation price of one leg (`cross_liquidation_price` in
  bot_utils/futures_math.py) and what it means for the account: where equity
  meets the maintenance margin of all legs together.
 */
module CrossMargin {
  import opened Wrappers

  /** A leg of the book; `qty` is positive for a long and negative for a short. */
  datatype Leg = Leg(entry: real, qty: real, mm: real, mark: real)

  function Abs(x: real): real {
    if x < 0.0 then -x else x
  }

  predicate Sound(l: Leg) {
    l.entry > 0.0 && 0.0 <= l.mm < 1.0 && l.mark > 0.0
  }

  /** Unrealised profit of a leg at a price. */
  function Profit(l: Leg, price: real): real {
    l.qty * (price - l.entry)
  }

  function Maintenance(l: Leg, price: real): real {
    l.mm * Abs(l.qty) * price
  }

  /** What a leg adds to equity beyond its own maintenance margin. */
  function Contribution(l: Leg): real {
    Profit(l, l.mark) - Maintenance(l, l.mark)
  }

  function Contributions(others: seq<Leg>): real {
    if others == [] then 0.0 else Contributions(others[..|others| - 1]) + Contribution(others[|others| - 1])
  }

  function Profits(others: seq<Leg>): real {
    if others == [] then 0.0
    else Profits(others[..|others| - 1]) + Profit(others[|others| - 1], others[|others| - 1].mark)
  }

  function Maintenances(others: seq<Leg>): real {
    if others == [] then 0.0
    else Maintenances(others[..|others| - 1]) + Maintenance(others[|others| - 1], others[|others| - 1].mark)
  }

  /** Account equity with the target leg at `price` and every other leg at its mark. */
  function Equity(l: Leg, others: seq<Leg>, collateral: real, price: real): real {
    collateral + Profit(l, price) + Profits(others)
  }

  function TotalMaintenance(l: Leg, others: seq<Leg>, price: real): real {
    Maintenance(l, price) + Maintenances(others)
  }

  /** How far equity is above the maintenance margin. */
  function Margin(l: Leg, others: seq<Leg>, collateral: real, price: real): real {
    Equity(l, others, collateral, price) - TotalMaintenance(l, others, price)
  }

  predicate Usable(l: Leg, others: seq<Leg>, collateral: real) {
    Sound(l) && l.qty != 0.0 && collateral > 0.0 && forall i :: 0 <= i < |others| ==> Sound(others[i])
  }

  /** The slope with which the margin falls in the target's price. */
  function Slope(l: Leg): real {
    l.mm * Abs(l.qty) - l.qty
  }

  /** The margin that would be left at price zero. */
  function Base(l: Leg, others: seq<Leg>, collateral: real): real {
    collateral + Contributions(others) - l.qty * l.entry
  }

  predicate WrongSide(l: Leg, price: real) {
    (l.qty > 0.0 && price >= l.mark) || (l.qty < 0.0 && price <= l.mark)
  }

  lemma SlopeSign(l: Leg)
    requires Sound(l) && l.qty != 0.0
    ensures l.qty > 0.0 ==> Slope(l) < 0.0
    ensures l.qty < 0.0 ==> Slope(l) > 0.0
  {
    if l.qty > 0.0 {
      assert Slope(l) == (l.mm - 1.0) * l.qty;
    } else {
      assert Slope(l) == (l.mm + 1.0) * -l.qty;
    }
  }

  function Price(l: Leg, others: seq<Leg>, collateral: real): Option<real> {
    if !Usable(l, others, collateral) then None
    else
      SlopeSign(l);
      var price := Base(l, others, collateral) / Slope(l);
      if price <= 0.0 || WrongSide(l, price) then None else Some(price)
  }

  method CrossLiquidationPrice(l: Leg, others: seq<Leg>, collateral: real) returns (price: Option<real>)
    ensures price == Price(l, others, collateral)
  {
    if !Sound(l) || l.qty == 0.0 || collateral <= 0.0 {
      return None;
    }
    var sum, i := 0.0, 0;
    while i < |others|
      invariant 0 <= i <= |others|
      invariant sum == Contributions(others[..i])
      invariant forall k :: 0 <= k < i ==> Sound(others[k])
    {
      if !Sound(others[i]) {
        return None;
      }
      assert others[..i + 1][..i] == others[..i];
      sum := sum + Contribution(others[i]);
      i := i + 1;
    }
    assert others[..i] == others;
    SlopeSign(l);
    assert Usable(l, others, collateral);
    var p := (collateral + sum - l.qty * l.entry) / Slope(l);
    assert p == Base(l, others, collateral) / Slope(l);
    if p <= 0.0 || WrongSide(l, p) {
      return None;
    }
    price := Some(p);
  }

  // ------------------------------------------------------------- its meaning

  lemma {:induction false} ContributionsSplit(others: seq<Leg>)
    ensures Contributions(others) == Profits(others) - Maintenances(others)
  {
    if others != [] {
      ContributionsSplit(others[..|others| - 1]);
    }
  }

  lemma Spread(q: real, price: real, entry: real, k: real)
    ensures q * (price - entry) - k * price == -(q * entry) - (k - q) * price
  {
  }

  /** The margin is a straight line in the target's price. */
  lemma MarginIsLinear(l: Leg, others: seq<Leg>, collateral: real, price: real)
    ensures Margin(l, others, collateral, price) == Base(l, others, collateral) - Slope(l) * price
  {
    ContributionsSplit(others);
    Spread(l.qty, price, l.entry, l.mm * Abs(l.qty));
  }

  lemma Root(base: real, slope: real)
    requires slope != 0.0
    ensures slope * (base / slope) == base
  {
  }

  /** With root `root`, a line of that slope is above zero exactly on one side of it. */
  lemma LineSign(base: real, slope: real, root: real, x: real)
    requires slope != 0.0 && base == slope * root
    ensures slope < 0.0 ==> (base - slope * x > 0.0 <==> x > root) && (base - slope * x < 0.0 <==> x < root)
    ensures slope > 0.0 ==> (base - slope * x > 0.0 <==> x < root) && (base - slope * x < 0.0 <==> x > root)
  {
    if slope < 0.0 {
      Factor(-slope, x, root);
      Product(-slope, x - root);
    } else {
      Factor(slope, root, x);
      Product(slope, root - x);
    }
  }

  lemma Factor(a: real, x: real, y: real)
    ensures a * x - a * y == a * (x - y)
  {
  }

  lemma Product(a: real, b: real)
    requires a > 0.0
    ensures a * b > 0.0 <==> b > 0.0
    ensures a * b < 0.0 <==> b < 0.0
  {
  }

  function RootOf(l: Leg, others: seq<Leg>, collateral: real): real
    requires Sound(l) && l.qty != 0.0
  {
    SlopeSign(l);
    Base(l, others, collateral) / Slope(l)
  }

  /** Above the root a long is solvent, below it a short is. */
  lemma MarginSign(l: Leg, others: seq<Leg>, collateral: real, x: real)
    requires Sound(l) && l.qty != 0.0
    ensures var root, margin := RootOf(l, others, collateral), Margin(l, others, collateral, x);
            && (l.qty > 0.0 ==> (margin > 0.0 <==> x > root) && (margin < 0.0 <==> x < root))
            && (l.qty < 0.0 ==> (margin > 0.0 <==> x < root) && (margin < 0.0 <==> x > root))
  {
    SlopeSign(l);
    MarginIsLinear(l, others, collateral, x);
    Root(Base(l, others, collateral), Slope(l));
    LineSign(Base(l, others, collateral), Slope(l), RootOf(l, others, collateral), x);
  }

  /**
    Only one price can be returned.  At that price the account's equity is
    exactly its total maintenance margin, and at every price from there
    (excluded) to the mark it is strictly above it.
   */
  lemma PriceIsInsolvency(l: Leg, others: seq<Leg>, collateral: real, x: real)
    requires Usable(l, others, collateral)
    ensures Price(l, others, collateral) in {None, Some(RootOf(l, others, collateral))}
    ensures var p := RootOf(l, others, collateral);
            && Equity(l, others, collateral, p) == TotalMaintenance(l, others, p)
            && ((l.qty > 0.0 && p < x <= l.mark) || (l.qty < 0.0 && l.mark <= x < p) ==>
                  Equity(l, others, collateral, x) > TotalMaintenance(l, others, x))
  {
    MarginSign(l, others, collateral, RootOf(l, others, collateral));
    MarginSign(l, others, collateral, x);
  }

  /**
    When there is an answer: the account is solvent at the mark, and, for a
    long, would not be at price zero.  So an answer on the wrong side of the mark
    means that equity is already at or below maintenance.
   */
  lemma AnswerIffSolventAtTheMark(l: Leg, others: seq<Leg>, collateral: real)
    requires Usable(l, others, collateral)
    ensures Price(l, others, collateral).Some? <==>
              Margin(l, others, collateral, l.mark) > 0.0 && (l.qty > 0.0 ==> Margin(l, others, collateral, 0.0) < 0.0)
    ensures WrongSide(l, RootOf(l, others, collateral)) <==>
              Equity(l, others, collateral, l.mark) <= TotalMaintenance(l, others, l.mark)
  {
    MarginSign(l, others, collateral, l.mark);
    MarginSign(l, others, collateral, 0.0);
  }

  /** Numbers that can describe an open position and its account. */
  ghost predicate WellFormed(l: Leg) {
    l.entry > 0.0 && l.mm >= 0.0 && l.mm < 1.0 && l.mark > 0.0
  }

  /**
    For all numbers whatever: there is an answer exactly when they describe a leg
    with a quantity, a book and a positive collateral, and equity is above
    maintenance at the mark but, for a long, below it at price zero.
   */
  lemma AnswerIff(l: Leg, others: seq<Leg>, collateral: real)
    ensures Price(l, others, collateral).Some? <==>
              && WellFormed(l) && l.qty != 0.0 && collateral > 0.0
              && (forall i :: 0 <= i < |others| ==> WellFormed(others[i]))
              && Equity(l, others, collateral, l.mark) > TotalMaintenance(l, others, l.mark)
              && (l.qty > 0.0 ==> Equity(l, others, collateral, 0.0) < TotalMaintenance(l, others, 0.0))
  {
    assert Usable(l, others, collateral) <==>
      WellFormed(l) && l.qty != 0.0 && collateral > 0.0 && forall i :: 0 <= i < |others| ==> WellFormed(others[i]);
    if Usable(l, others, collateral) {
      AnswerIffSolventAtTheMark(l, others, collateral);
    }
  }

  /** A leg whose mark moved against it. */
  ghost predicate Worse(l: Leg, l': Leg) {
    l' == l.(mark := l'.mark) && Sound(l') && ((l.qty > 0.0 && l'.mark < l.mark) || (l.qty < 0.0 && l'.mark > l.mark))
  }

  lemma ContributionOf(l: Leg)
    ensures Contribution(l) == -(l.qty * l.entry) - Slope(l) * l.mark
  {
    Spread(l.qty, l.mark, l.entry, l.mm * Abs(l.qty));
  }

  lemma Steeper(slope: real, a: real, b: real)
    requires (slope < 0.0 && a < b) || (slope > 0.0 && a > b)
    ensures -(slope * a) < -(slope * b)
  {
  }

  lemma WorseContributesLess(l: Leg, l': Leg)
    requires Sound(l) && Worse(l, l')
    ensures Contribution(l') < Contribution(l)
  {
    SlopeSign(l);
    ContributionOf(l);
    ContributionOf(l');
    Steeper(Slope(l), l'.mark, l.mark);
  }

  lemma {:induction false} ContributionsUpdate(others: seq<Leg>, i: nat, l: Leg)
    requires i < |others|
    ensures Contributions(others[i := l]) == Contributions(others) - Contribution(others[i]) + Contribution(l)
  {
    var last := |others| - 1;
    if i < last {
      ContributionsUpdate(others[..last], i, l);
      assert others[i := l][..last] == others[..last][i := l];
    } else {
      assert others[i := l][..last] == others[..last];
    }
  }

  lemma QuotientMoves(a: real, b: real, slope: real)
    requires a < b && slope != 0.0
    ensures if slope < 0.0 then a / slope > b / slope else a / slope < b / slope
  {
    Root(a, slope);
    Root(b, slope);
    var x, y := a / slope, b / slope;
    assert slope * (y - x) == b - a;
    if slope < 0.0 {
      Product(-slope, x - y);
    } else {
      Product(slope, y - x);
    }
  }

  /**
    Any adverse move of another leg moves the one possible price upwards for a
    long and downwards for a short, which from a returned price is towards the mark.
   */
  lemma AdverseMovesComeCloser(l: Leg, others: seq<Leg>, collateral: real, i: nat, worse: Leg)
    requires Usable(l, others, collateral) && i < |others| && Worse(others[i], worse)
    ensures Price(l, others, collateral) in {None, Some(RootOf(l, others, collateral))}
    ensures Price(l, others[i := worse], collateral) in {None, Some(RootOf(l, others[i := worse], collateral))}
    ensures var before, after := RootOf(l, others, collateral), RootOf(l, others[i := worse], collateral);
            (l.qty > 0.0 ==> before < after) && (l.qty < 0.0 ==> after < before)
  {
    SlopeSign(l);
    WorseContributesLess(others[i], worse);
    ContributionsUpdate(others, i, worse);
    QuotientMoves(Base(l, others[i := worse], collateral), Base(l, others, collateral), Slope(l));
  }

  // ------------------------------------------------ against the isolated formula

  /** `calc_liquidation_price` on sane input, with the reciprocal of the leverage. */
  function IsolatedPrice(l: Leg, reciprocal: real): real {
    if l.qty > 0.0 then l.entry * (1.0 - reciprocal + l.mm) else l.entry * (1.0 + reciprocal - l.mm)
  }

  lemma Cancel(q: real, a: real, b: real)
    requires q != 0.0 && q * a == q * b
    ensures a == b
  {
  }

  /** The single-leg price of a long, cleared of its quantity. */
  lemma LongAlone(l: Leg, reciprocal: real)
    requires Sound(l) && l.qty > 0.0
    ensures (1.0 - l.mm) * RootOf(l, [], l.entry * l.qty * reciprocal) == l.entry * (1.0 - reciprocal)
  {
    var p := RootOf(l, [], l.entry * l.qty * reciprocal);
    SlopeSign(l);
    Root(Base(l, [], l.entry * l.qty * reciprocal), Slope(l));
    assert l.qty * ((1.0 - l.mm) * p) == l.qty * (l.entry * (1.0 - reciprocal));
    Cancel(l.qty, (1.0 - l.mm) * p, l.entry * (1.0 - reciprocal));
  }

  /** The same of a short. */
  lemma ShortAlone(l: Leg, reciprocal: real)
    requires Sound(l) && l.qty < 0.0
    ensures (1.0 + l.mm) * RootOf(l, [], l.entry * -l.qty * reciprocal) == l.entry * (1.0 + reciprocal)
  {
    var p := RootOf(l, [], l.entry * -l.qty * reciprocal);
    SlopeSign(l);
    Root(Base(l, [], l.entry * -l.qty * reciprocal), Slope(l));
    assert -l.qty * ((1.0 + l.mm) * p) == -l.qty * (l.entry * (1.0 + reciprocal));
    Cancel(-l.qty, (1.0 + l.mm) * p, l.entry * (1.0 + reciprocal));
  }

  /** The exact price of a leg whose collateral is its own margin. */
  function ExactPrice(l: Leg, reciprocal: real): real
    requires Sound(l) && l.qty != 0.0
  {
    RootOf(l, [], l.entry * Abs(l.qty) * reciprocal)
  }

  lemma LongAgainstIsolated(l: Leg, reciprocal: real)
    requires Sound(l) && l.qty > 0.0 && l.mm > 0.0
    ensures ExactPrice(l, reciprocal) < IsolatedPrice(l, reciprocal) <==> l.mm < reciprocal
    ensures ExactPrice(l, reciprocal) > IsolatedPrice(l, reciprocal) <==> l.mm > reciprocal
  {
    var exact, linear, mm := ExactPrice(l, reciprocal), IsolatedPrice(l, reciprocal), l.mm;
    LongAlone(l, reciprocal);
    Difference(l.entry, mm, reciprocal, exact);
    Product(1.0 - mm, linear - exact);
    Product(l.entry * mm, reciprocal - mm);
  }

  lemma ShortAgainstIsolated(l: Leg, reciprocal: real)
    requires Sound(l) && l.qty < 0.0 && l.mm > 0.0
    ensures ExactPrice(l, reciprocal) < IsolatedPrice(l, reciprocal) <==> l.mm < reciprocal
  {
    var exact, linear, mm := ExactPrice(l, reciprocal), IsolatedPrice(l, reciprocal), l.mm;
    ShortAlone(l, reciprocal);
    ShortDifference(l.entry, mm, reciprocal, exact);
    Product(1.0 + mm, linear - exact);
    Product(l.entry * mm, reciprocal - mm);
  }

  lemma Difference(entry: real, mm: real, r: real, exact: real)
    requires (1.0 - mm) * exact == entry * (1.0 - r)
    ensures (1.0 - mm) * (entry * (1.0 - r + mm) - exact) == entry * mm * (r - mm)
  {
    assert (1.0 - mm) * (entry * (1.0 - r + mm)) - entry * (1.0 - r)
        == entry * ((1.0 - mm) * (1.0 - r + mm) - (1.0 - r));
    assert (1.0 - mm) * (1.0 - r + mm) - (1.0 - r) == mm * (r - mm);
  }

  lemma ShortDifference(entry: real, mm: real, r: real, exact: real)
    requires (1.0 + mm) * exact == entry * (1.0 + r)
    ensures (1.0 + mm) * (entry * (1.0 + r - mm) - exact) == entry * mm * (r - mm)
  {
    assert (1.0 + mm) * (entry * (1.0 + r - mm)) - entry * (1.0 + r)
        == entry * ((1.0 + mm) * (1.0 + r - mm) - (1.0 + r));
    assert (1.0 + mm) * (1.0 + r - mm) - (1.0 + r) == mm * (r - mm);
  }

  /** Closer to the mark: above for a long, below for a short. */
  predicate Tighter(l: Leg, price: real, other: real) {
    if l.qty > 0.0 then price > other else price < other
  }

  /**
    For one leg the exact price is tighter than the linear isolated one exactly
    when, for a short, the maintenance rate is below the reciprocal of the
    leverage, and for a long, above it.
   */
  lemma ExactAgainstIsolated(l: Leg, reciprocal: real)
    requires Sound(l) && l.qty != 0.0 && l.mm > 0.0
    ensures Tighter(l, ExactPrice(l, reciprocal), IsolatedPrice(l, reciprocal))
       <==> if l.qty > 0.0 then l.mm > reciprocal else l.mm < reciprocal
  {
    if l.qty > 0.0 {
      LongAgainstIsolated(l, reciprocal);
    } else {
      ShortAgainstIsolated(l, reciprocal);
    }
  }

  /** One unit bought at a hundred with leverage ten: the exact price is returned, and it is further from the mark. */
  lemma ALongIsLooser()
    ensures var l := Leg(100.0, 1.0, 0.01, 100.0);
            Price(l, [], 10.0) == Some(ExactPrice(l, 0.1)) && ExactPrice(l, 0.1) < IsolatedPrice(l, 0.1) == 91.0
  {
    var l := Leg(100.0, 1.0, 0.01, 100.0);
    LongAgainstIsolated(l, 0.1);
    LongAlone(l, 0.1);
    assert l.entry * Abs(l.qty) * 0.1 == 10.0;
  }
}
