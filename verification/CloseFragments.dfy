/**
  Accumulating the fills of a close that comes in pieces
  (`pending_close_values` and `add_close_fragment_update` in
  bot_utils/close_fragments.py).  Numbers are real; a field that is there but is
  no number is `None` and makes the state unreadable.
 */
module CloseFragments {
  import opened Wrappers

  /** The durable fields; a missing key reads as zero. */
  datatype Pending = Pending(amount: Option<real>, notional: Option<real>, price: Option<real>, fee: Option<real>,
      orderId: Option<string>)

  datatype Values = Values(amount: real, price: real, fee: real, orderId: Option<string>)

  datatype Error = Invalid

  datatype Fill = Fill(amount: real, price: real, fee: real, orderId: Option<string>)

  const Empty := Pending(Some(0.0), Some(0.0), Some(0.0), Some(0.0), None)

  function Pos(x: real): real {
    if x > 0.0 then x else 0.0
  }

  function Worth(amount: real, price: real): real {
    amount * price
  }

  predicate Numbers(s: Pending) {
    s.amount.Some? && s.notional.Some? && s.price.Some? && s.fee.Some?
  }

  function Read(s: Pending): Result<Values, Error> {
    if !Numbers(s) then Err(Invalid)
    else
      var amount, notional, price := s.amount.value, s.notional.value, s.price.value;
      if amount < 0.0 || notional < 0.0 || price < 0.0 then Err(Invalid)
      else if amount > 0.0 && notional <= 0.0 && price <= 0.0 then Err(Invalid)
      else if amount <= 0.0 && notional > 0.0 then Err(Invalid)
      else Ok(Values(amount, if amount > 0.0 && notional > 0.0 then notional / amount else price, s.fee.value,
          s.orderId))
  }

  /** The quantity and notional that count as recorded so far; a legacy state carries only an average price. */
  function Recorded(s: Pending, v: Values): (real, real)
    requires Numbers(s)
  {
    if v.amount <= 0.0 then (v.amount, 0.0)
    else if s.notional.value > 0.0 then (v.amount, s.notional.value)
    else if v.price > 0.0 then (v.amount, v.amount * v.price)
    else (0.0, 0.0)
  }

  function Add(s: Pending, f: Fill): Result<Pending, Error> {
    var v := Read(s);
    if v.Err? then Err(v.error)
    else
      var (amount, notional) := Recorded(s, v.value);
      var newAmount := amount + Pos(f.amount);
      var newNotional := notional + Worth(Pos(f.amount), Pos(f.price));
      Ok(Pending(Some(newAmount), Some(newNotional),
                 Some(if newAmount > 0.0 then newNotional / newAmount else Pos(f.price)), Some(v.value.fee + f.fee),
                 if f.orderId.Some? then f.orderId else v.value.orderId))
  }

  function Fold(fills: seq<Fill>): Result<Pending, Error> {
    if fills == [] then Ok(Empty)
    else
      var before := Fold(fills[..|fills| - 1]);
      if before.Err? then before else Add(before.value, fills[|fills| - 1])
  }

  function Sum(weight: Fill -> real, fills: seq<Fill>): real {
    if fills == [] then 0.0 else Sum(weight, fills[..|fills| - 1]) + weight(fills[|fills| - 1])
  }

  function Amount(): Fill -> real {
    (f: Fill) => f.amount
  }

  function Notional(): Fill -> real {
    (f: Fill) => Worth(f.amount, f.price)
  }

  function Fee(): Fill -> real {
    (f: Fill) => f.fee
  }

  predicate Proper(fills: seq<Fill>) {
    forall k :: 0 <= k < |fills| ==> fills[k].amount > 0.0 && fills[k].price > 0.0
  }

  lemma PositiveProduct(a: real, b: real)
    requires a > 0.0 && b > 0.0
    ensures Worth(a, b) > 0.0
  {
  }

  /** A state that holds these sums, and their quotient as its price. */
  predicate Carries(s: Pending, amount: real, notional: real, fee: real) {
    && s.amount == Some(amount) && s.notional == Some(notional) && s.fee == Some(fee)
    && s.price.Some? && s.price.value >= 0.0
    && (if amount > 0.0 then notional > 0.0 && s.price.value == notional / amount else amount == 0.0 && notional == 0.0)
  }

  lemma QuotientIsPositive(a: real, b: real)
    requires a > 0.0 && b > 0.0
    ensures a / b > 0.0
  {
  }

  lemma AddCarries(s: Pending, f: Fill, amount: real, notional: real, fee: real)
    requires Carries(s, amount, notional, fee) && f.amount > 0.0 && f.price > 0.0
    ensures Add(s, f).Ok? && Carries(Add(s, f).value, amount + f.amount, notional + Worth(f.amount, f.price),
        fee + f.fee)
  {
    assert Pos(f.amount) == f.amount && Pos(f.price) == f.price;
    PositiveProduct(f.amount, f.price);
    assert Recorded(s, Read(s).value) == (amount, notional);
    QuotientIsPositive(notional + Worth(f.amount, f.price), amount + f.amount);
    assert Add(s, f).value.notional == Some(notional + Worth(f.amount, f.price));
  }

  /** The accumulated state holds the sums of what was added, and their quotient is its price. */
  lemma {:induction false} FoldSums(fills: seq<Fill>)
    requires Proper(fills)
    ensures Fold(fills).Ok?
    ensures Carries(Fold(fills).value, Sum(Amount(), fills), Sum(Notional(), fills), Sum(Fee(), fills))
  {
    if fills != [] {
      var init, f := fills[..|fills| - 1], fills[|fills| - 1];
      FoldSums(init);
      AddCarries(Fold(init).value, f, Sum(Amount(), init), Sum(Notional(), init), Sum(Fee(), init));
    }
  }

  /** What is read back from such a state. */
  lemma CarriedIsRead(s: Pending, amount: real, notional: real, fee: real)
    requires Carries(s, amount, notional, fee)
    ensures Read(s).Ok? && Read(s).value == Values(amount, s.price.value, fee, s.orderId)
  {
  }

  function Without(fills: seq<Fill>, k: nat): seq<Fill>
    requires k < |fills|
  {
    fills[..k] + fills[k + 1..]
  }

  lemma {:induction false} SumWithout(weight: Fill -> real, fills: seq<Fill>, k: nat)
    requires k < |fills|
    ensures Sum(weight, fills) == Sum(weight, Without(fills, k)) + weight(fills[k])
  {
    var last := |fills| - 1;
    if k == last {
      assert Without(fills, k) == fills[..last];
    } else {
      SumWithout(weight, fills[..last], k);
      assert Without(fills, k)[..last - 1] == Without(fills[..last], k);
      assert Without(fills, k)[last - 1] == fills[last];
    }
  }

  /** A sum does not depend on the order. */
  lemma {:induction false} SumOfPermutation(weight: Fill -> real, a: seq<Fill>, b: seq<Fill>)
    requires multiset(a) == multiset(b)
    ensures Sum(weight, a) == Sum(weight, b)
    decreases |a|
  {
    if a == [] {
      assert |multiset(b)| == 0;
    } else {
      var last := |a| - 1;
      var f := a[last];
      assert a == a[..last] + [f];
      assert f in multiset(b);
      var k :| 0 <= k < |b| && b[k] == f;
      assert b == b[..k] + [f] + b[k + 1..];
      assert multiset(Without(b, k)) == multiset(b) - multiset{f};
      SumWithout(weight, b, k);
      SumOfPermutation(weight, a[..last], Without(b, k));
    }
  }

  /** Folding the same fragments in any order gives the same quantity, weighted price and fee. */
  lemma OrderDoesNotMatter(a: seq<Fill>, b: seq<Fill>)
    requires Proper(a) && multiset(a) == multiset(b)
    ensures Fold(a).Ok? && Fold(b).Ok? && Read(Fold(a).value).Ok? && Read(Fold(b).value).Ok?
    ensures var v, w := Read(Fold(a).value).value, Read(Fold(b).value).value;
            v.amount == w.amount && v.price == w.price && v.fee == w.fee
  {
    forall k | 0 <= k < |b| ensures b[k].amount > 0.0 && b[k].price > 0.0 {
      assert b[k] in multiset(a);
      assert b[k] in a;
    }
    FoldSums(a);
    FoldSums(b);
    SumOfPermutation(Amount(), a, b);
    SumOfPermutation(Notional(), a, b);
    SumOfPermutation(Fee(), a, b);
    CarriedIsRead(Fold(a).value, Sum(Amount(), a), Sum(Notional(), a), Sum(Fee(), a));
    CarriedIsRead(Fold(b).value, Sum(Amount(), b), Sum(Notional(), b), Sum(Fee(), b));
    if a == [] {
      assert |multiset(b)| == 0;
    } else {
      SomethingWasFilled(a);
    }
  }

  lemma {:induction false} SomethingWasFilled(fills: seq<Fill>)
    requires Proper(fills) && fills != []
    ensures Sum(Amount(), fills) > 0.0
  {
    if |fills| > 1 {
      SomethingWasFilled(fills[..|fills| - 1]);
    }
  }

  // ------------------------------------------------- any state that may be found

  /** Numbers that can be the record of a partial close: a quantity has a price, and only a quantity has a notional. */
  predicate Readable(s: Pending) {
    && s.amount.Some? && s.notional.Some? && s.price.Some? && s.fee.Some?
    && s.amount.value >= 0.0 && s.notional.value >= 0.0 && s.price.value >= 0.0
    && (s.amount.value > 0.0 ==> s.notional.value > 0.0 || s.price.value > 0.0)
    && (s.amount.value == 0.0 ==> s.notional.value == 0.0)
  }

  /** What the recorded quantity was sold for; a legacy record has only its average price. */
  function SoldFor(s: Pending): real
    requires Readable(s)
  {
    if s.amount.value == 0.0 then 0.0
    else if s.notional.value > 0.0 then s.notional.value
    else Worth(s.amount.value, s.price.value)
  }

  /** Exactly those states are read, and the price is what the quantity was sold for, per unit. */
  lemma ReadIff(s: Pending)
    ensures Read(s).Ok? <==> Readable(s)
    ensures Readable(s) ==>
              var v := Read(s).value;
              && v.amount == s.amount.value && v.fee == s.fee.value && v.orderId == s.orderId
              && (v.amount > 0.0 ==> v.price > 0.0 && v.price == SoldFor(s) / v.amount)
  {
    if Readable(s) && s.amount.value > 0.0 {
      if s.notional.value > 0.0 {
        QuotientIsPositive(s.notional.value, s.amount.value);
      } else {
        PriceBack(s.amount.value, s.price.value);
      }
    }
  }

  lemma PriceBack(a: real, p: real)
    requires a > 0.0
    ensures Worth(a, p) / a == p
  {
  }

  lemma SoldForIsPositive(s: Pending)
    requires Readable(s) && s.amount.value > 0.0
    ensures SoldFor(s) > 0.0
  {
    if s.notional.value == 0.0 {
      PositiveProduct(s.amount.value, s.price.value);
    }
  }

  lemma WorthIsNotNegative(a: real, p: real)
    requires a >= 0.0 && p >= 0.0
    ensures Worth(a, p) >= 0.0 && (Worth(a, p) > 0.0 <==> a > 0.0 && p > 0.0)
  {
    if a > 0.0 && p > 0.0 {
      PositiveProduct(a, p);
    }
  }

  /**
    A fragment added to any readable record, a legacy one included: quantity,
    notional and fee grow by exactly what it brings, and the newest order id is
    kept.  The record stays readable unless its first quantity came without a price.
   */
  lemma AddIsExact(s: Pending, f: Fill)
    requires Readable(s)
    ensures var amount, price := if f.amount > 0.0 then f.amount else 0.0, if f.price > 0.0 then f.price else 0.0;
            && Add(s, f).Ok? && var r := Add(s, f).value;
            && r.amount == Some(s.amount.value + amount) && r.notional == Some(SoldFor(s) + Worth(amount, price))
            && r.fee == Some(s.fee.value + f.fee) && r.orderId == (if f.orderId.Some? then f.orderId else s.orderId)
            && (Readable(r) <==> !(s.amount.value == 0.0 && f.amount > 0.0 && f.price <= 0.0))
  {
    ReadIff(s);
    var amount, price := Pos(f.amount), Pos(f.price);
    WorthIsNotNegative(amount, price);
    if s.amount.value > 0.0 {
      SoldForIsPositive(s);
    }
    var whole, worth := s.amount.value + amount, SoldFor(s) + Worth(amount, price);
    if whole > 0.0 && worth > 0.0 {
      QuotientIsPositive(worth, whole);
    }
    if whole > 0.0 && worth == 0.0 {
      assert worth / whole == 0.0;
    }
  }
}
