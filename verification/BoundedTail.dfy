/**
  Capturing the end of a subprocess's output (`_BoundedByteTail` and
  `_decode_bounded_utf8` in bot_utils/subprocess_capture.py).  The buffer is the
  exact end of everything that was read, and the text made from it never takes
  more bytes than allowed, whatever the bytes were.
 */
module BoundedTail {
  import opened Wrappers

  // ------------------------------------------------------------- UTF-8 (RFC 3629)

  predicate IsScalar(c: int) {
    0 <= c < 0xD800 || 0xE000 <= c < 0x110000
  }

  /** A Unicode scalar value. */
  type Scalar = c: int | 0 <= c < 0xD800 || 0xE000 <= c < 0x110000

  /** The six low bits of a continuation byte, and the digits of a value in that base. */
  function Digit(b: Byte): int {
    b as int - 0x80
  }

  lemma DigitsOf(c: int)
    requires 0 <= c < 0x110000
    ensures c == c / 0x40 * 0x40 + c % 0x40
    ensures c / 0x40 == c / 0x1000 * 0x40 + c / 0x40 % 0x40
    ensures c / 0x1000 == c / 0x40000 * 0x40 + c / 0x1000 % 0x40
  {
  }

  lemma DigitsBack(a: int, b: int, d: int, e: int)
    requires 0 <= a && 0 <= b < 0x40 && 0 <= d < 0x40 && 0 <= e < 0x40
    ensures var c := a * 0x40000 + b * 0x1000 + d * 0x40 + e;
            c % 0x40 == e && c / 0x40 % 0x40 == d && c / 0x1000 % 0x40 == b && c / 0x40000 == a
            && c / 0x40 == a * 0x1000 + b * 0x40 + d && c / 0x1000 == a * 0x40 + b
  {
    LastDigit(a * 0x1000 + b * 0x40 + d, e);
    LastDigit(a * 0x40 + b, d);
    LastDigit(a, b);
    var c := a * 0x40000 + b * 0x1000 + d * 0x40 + e;
    assert c == (a * 0x1000 + b * 0x40 + d) * 0x40 + e;
    assert c / 0x1000 == c / 0x40 / 0x40 && c / 0x40000 == c / 0x1000 / 0x40;
  }

  lemma LastDigit(q: int, r: int)
    requires 0 <= r < 0x40
    ensures (q * 0x40 + r) / 0x40 == q && (q * 0x40 + r) % 0x40 == r
  {
  }

  /** Encoding of a value in two, three or four bytes. */
  function Two(c: int): seq<Byte>
    requires 0x80 <= c < 0x800
  {
    var lead, last := 0xC0 + c / 0x40, 0x80 + c % 0x40;
    [lead as Byte, last as Byte]
  }

  function Three(c: int): seq<Byte>
    requires 0x800 <= c < 0x10000
  {
    var lead, mid, last := 0xE0 + c / 0x1000, 0x80 + c / 0x40 % 0x40, 0x80 + c % 0x40;
    [lead as Byte, mid as Byte, last as Byte]
  }

  function Four(c: int): seq<Byte>
    requires 0x10000 <= c < 0x110000
  {
    var lead, second, mid, last := 0xF0 + c / 0x40000, 0x80 + c / 0x1000 % 0x40, 0x80 + c / 0x40 % 0x40,
        0x80 + c % 0x40;
    [lead as Byte, second as Byte, mid as Byte, last as Byte]
  }

  function EncodeOne(c: Scalar): seq<Byte> {
    if c < 0x80 then [c as Byte] else if c < 0x800 then Two(c) else if c < 0x10000 then Three(c) else Four(c)
  }

  function Encode(text: seq<Scalar>): seq<Byte> {
    if text == [] then [] else EncodeOne(text[0]) + Encode(text[1..])
  }

  predicate Continues(b: Byte) {
    0x80 <= b < 0xC0
  }

  /** The second byte that a lead byte allows; it rules out overlong forms, surrogates and values beyond U+10FFFF. */
  predicate SecondFits(lead: Byte, b: Byte) {
    if lead == 0xE0 then 0xA0 <= b < 0xC0
    else if lead == 0xED then 0x80 <= b < 0xA0
    else if lead == 0xF0 then 0x90 <= b < 0xC0
    else if lead == 0xF4 then 0x80 <= b < 0x90
    else Continues(b)
  }

  /** Length of the sequence that a lead byte announces, zero if it cannot lead. */
  function Announced(lead: Byte): nat {
    if lead < 0x80 then 1
    else if 0xC2 <= lead < 0xE0 then 2
    else if 0xE0 <= lead < 0xF0 then 3
    else if 0xF0 <= lead < 0xF5 then 4
    else 0
  }

  /** How many of the first bytes could belong to one well-formed sequence. */
  function Prefix(s: seq<Byte>): (n: nat)
    requires s != []
    ensures n <= |s| && n <= Announced(s[0])
  {
    var size := Announced(s[0]);
    if size <= 1 then size
    else if |s| < 2 || !SecondFits(s[0], s[1]) then 1
    else if size == 2 || |s| < 3 || !Continues(s[2]) then 2
    else if size == 3 || |s| < 4 || !Continues(s[3]) then 3
    else 4
  }

  /** The bytes form one complete sequence at the front. */
  predicate Complete(s: seq<Byte>) {
    s != [] && Announced(s[0]) > 0 && Prefix(s) == Announced(s[0])
  }

  function DecodeOne(s: seq<Byte>): int
    requires Complete(s)
  {
    var size, lead := Announced(s[0]), s[0] as int;
    if size == 1 then lead
    else if size == 2 then (lead - 0xC0) * 0x40 + Digit(s[1])
    else if size == 3 then (lead - 0xE0) * 0x1000 + Digit(s[1]) * 0x40 + Digit(s[2])
    else (lead - 0xF0) * 0x40000 + Digit(s[1]) * 0x1000 + Digit(s[2]) * 0x40 + Digit(s[3])
  }

  lemma DecodedTwo(s: seq<Byte>)
    requires Complete(s) && Announced(s[0]) == 2
    ensures 0x80 <= DecodeOne(s) < 0x800 && Two(DecodeOne(s)) == s[..2]
  {
    DigitsBack(0, 0, s[0] as int - 0xC0, Digit(s[1]));
  }

  lemma DecodedThree(s: seq<Byte>)
    requires Complete(s) && Announced(s[0]) == 3
    ensures 0x800 <= DecodeOne(s) < 0x10000 && IsScalar(DecodeOne(s)) && Three(DecodeOne(s)) == s[..3]
  {
    DigitsBack(0, s[0] as int - 0xE0, Digit(s[1]), Digit(s[2]));
  }

  lemma DecodedFour(s: seq<Byte>)
    requires Complete(s) && Announced(s[0]) == 4
    ensures 0x10000 <= DecodeOne(s) < 0x110000 && Four(DecodeOne(s)) == s[..4]
  {
    DigitsBack(s[0] as int - 0xF0, Digit(s[1]), Digit(s[2]), Digit(s[3]));
  }

  lemma DecodedIsScalar(s: seq<Byte>)
    requires Complete(s)
    ensures IsScalar(DecodeOne(s))
    ensures EncodeOne(DecodeOne(s)) == s[..Announced(s[0])]
  {
    if Announced(s[0]) == 2 {
      DecodedTwo(s);
    } else if Announced(s[0]) == 3 {
      DecodedThree(s);
    } else if Announced(s[0]) == 4 {
      DecodedFour(s);
    }
  }

  /** Strict decoding; None where Python raises. */
  function Decode(s: seq<Byte>): (text: Option<seq<Scalar>>)
    decreases |s|
  {
    if s == [] then Some([])
    else if !Complete(s) then None
    else
      DecodedIsScalar(s);
      var rest := Decode(s[Announced(s[0])..]);
      if rest.None? then None else Some([DecodeOne(s) as Scalar] + rest.value)
  }

  /** Decoding that skips what is ill-formed, each time as far as a sequence could have gone. */
  function DecodeIgnoring(s: seq<Byte>): seq<Scalar>
    decreases |s|
  {
    if s == [] then []
    else if !Complete(s) then DecodeIgnoring(s[if Prefix(s) == 0 then 1 else Prefix(s)..])
    else
      DecodedIsScalar(s);
      [DecodeOne(s) as Scalar] + DecodeIgnoring(s[Announced(s[0])..])
  }

  lemma TwoIsComplete(c: int, rest: seq<Byte>)
    requires 0x80 <= c < 0x800
    ensures var s := Two(c) + rest; Complete(s) && Announced(s[0]) == 2 && DecodeOne(s) == c
  {
    DigitsOf(c);
  }

  lemma ThreeIsComplete(c: int, rest: seq<Byte>)
    requires 0x800 <= c < 0x10000 && IsScalar(c)
    ensures var s := Three(c) + rest; Complete(s) && Announced(s[0]) == 3 && DecodeOne(s) == c
  {
    DigitsOf(c);
  }

  lemma FourIsComplete(c: int, rest: seq<Byte>)
    requires 0x10000 <= c < 0x110000
    ensures var s := Four(c) + rest; Complete(s) && Announced(s[0]) == 4 && DecodeOne(s) == c
  {
    DigitsOf(c);
  }

  lemma EncodedIsComplete(c: Scalar, rest: seq<Byte>)
    ensures var s := EncodeOne(c) + rest;
            Complete(s) && Announced(s[0]) == |EncodeOne(c)| && DecodeOne(s) == c
  {
    if 0x80 <= c < 0x800 {
      TwoIsComplete(c, rest);
    } else if 0x800 <= c < 0x10000 {
      ThreeIsComplete(c, rest);
    } else if 0x10000 <= c {
      FourIsComplete(c, rest);
    }
  }

  /** What was encoded decodes to itself. */
  lemma {:induction false} RoundTrip(text: seq<Scalar>)
    ensures Decode(Encode(text)) == Some(text)
  {
    if text != [] {
      var rest := Encode(text[1..]);
      EncodedIsComplete(text[0], rest);
      assert (EncodeOne(text[0]) + rest)[|EncodeOne(text[0])|..] == rest;
      RoundTrip(text[1..]);
      assert text == [text[0]] + text[1..];
    }
  }

  lemma EncodeStep(c: Scalar, text: seq<Scalar>)
    ensures Encode([c] + text) == EncodeOne(c) + Encode(text)
  {
    assert ([c] + text)[1..] == text;
  }

  lemma EncodesJoined(c: Scalar, text: seq<Scalar>, s: seq<Byte>, n: nat)
    requires n <= |s| && EncodeOne(c) == s[..n] && Encode(text) == s[n..]
    ensures Encode([c] + text) == s
  {
    EncodeStep(c, text);
    assert s == s[..n] + s[n..];
  }

  /** The first character of bytes that decode, and how many bytes it takes. */
  lemma DecodeHead(s: seq<Byte>) returns (c: Scalar, n: nat)
    requires s != [] && Decode(s).Some?
    ensures 0 < n <= |s| && Decode(s[n..]).Some?
    ensures Decode(s).value == [c] + Decode(s[n..]).value && EncodeOne(c) == s[..n]
  {
    DecodedIsScalar(s);
    c, n := DecodeOne(s), Announced(s[0]);
  }

  /** Bytes that decode are the encoding of their text. */
  lemma {:induction false} DecodedEncodesBack(s: seq<Byte>)
    requires Decode(s).Some?
    ensures Encode(Decode(s).value) == s
    decreases |s|
  {
    if s != [] {
      var c, n := DecodeHead(s);
      DecodedEncodesBack(s[n..]);
      EncodesJoined(c, Decode(s[n..]).value, s, n);
    }
  }

  /** Skipping never makes text longer than the bytes it came from. */
  lemma {:induction false} IgnoringShrinks(s: seq<Byte>)
    ensures |Encode(DecodeIgnoring(s))| <= |s|
    decreases |s|
  {
    if s == [] {
    } else if !Complete(s) {
      IgnoringShrinks(s[if Prefix(s) == 0 then 1 else Prefix(s)..]);
    } else {
      DecodedIsScalar(s);
      IgnoringShrinks(s[Announced(s[0])..]);
    }
  }

  // ------------------------------------------------ what skipping keeps and drops

  /** Some character can begin with these bytes. */
  ghost predicate Begins(s: seq<Byte>) {
    exists c: Scalar :: s <= EncodeOne(c)
  }

  lemma BeginsAsPrefixed(s: seq<Byte>, n: nat, c: Scalar)
    requires 0 < n <= |s| && s[..n] <= EncodeOne(c)
    ensures n <= Prefix(s)
  {
    var e := EncodeOne(c);
    EncodedIsComplete(c, []);
    assert e + [] == e;
    assert forall k :: 0 <= k < n ==> s[k] == s[..n][k] == e[k];
  }

  /** A second byte that the lead byte allows. */
  function SomeSecond(lead: Byte): Byte {
    if lead == 0xE0 then 0xA0 else if lead == 0xF0 then 0x90 else 0x80
  }

  /** A complete sequence with the same beginning. */
  function Completed(s: seq<Byte>): seq<Byte>
    requires s != [] && Prefix(s) > 0
  {
    var n, size := Prefix(s), Announced(s[0]);
    var second := if n < 2 then SomeSecond(s[0]) else s[1];
    var third, fourth := if n < 3 then 0x80 else s[2], if n < 4 then 0x80 else s[3];
    if size == 1 then [s[0]]
    else if size == 2 then [s[0], second]
    else if size == 3 then [s[0], second, third]
    else [s[0], second, third, fourth]
  }

  lemma CompletedIsComplete(s: seq<Byte>)
    requires s != [] && Prefix(s) > 0
    ensures var whole := Completed(s);
            Complete(whole) && |whole| == Announced(whole[0]) && s[..Prefix(s)] <= whole
  {
  }

  lemma PrefixBegins(s: seq<Byte>, n: nat)
    requires s != [] && 0 < n <= Prefix(s)
    ensures Begins(s[..n])
  {
    CompletedIsComplete(s);
    var whole := Completed(s);
    DecodedIsScalar(whole);
    var c: Scalar := DecodeOne(whole);
    assert whole[..|whole|] == whole;
    assert s[..n] == s[..Prefix(s)][..n] == whole[..n];
    assert s[..n] <= EncodeOne(c);
  }

  /** `Prefix` is the length of the longest beginning of a character. */
  lemma PrefixIff(s: seq<Byte>, n: nat)
    requires 0 < n <= |s|
    ensures n <= Prefix(s) <==> Begins(s[..n])
  {
    if n <= Prefix(s) {
      PrefixBegins(s, n);
    }
    forall c: Scalar | s[..n] <= EncodeOne(c) ensures n <= Prefix(s) {
      BeginsAsPrefixed(s, n, c);
    }
  }

  /** A whole character is kept. */
  lemma IgnoringKeeps(c: Scalar, s: seq<Byte>)
    ensures DecodeIgnoring(EncodeOne(c) + s) == [c] + DecodeIgnoring(s)
  {
    EncodedIsComplete(c, s);
    assert (EncodeOne(c) + s)[|EncodeOne(c)|..] == s;
  }

  /**
    Where no whole character stands, the longest beginning of one is dropped, or
    a single byte that cannot begin any.
   */
  lemma IgnoringSkips(s: seq<Byte>) returns (n: nat)
    requires s != [] && forall c: Scalar :: !(EncodeOne(c) <= s)
    ensures 0 < n <= |s| && DecodeIgnoring(s) == DecodeIgnoring(s[n..])
    ensures (n == 1 || Begins(s[..n])) && forall m :: n < m <= |s| ==> !Begins(s[..m])
  {
    if Complete(s) {
      DecodedIsScalar(s);
      assert false;
    }
    n := if Prefix(s) == 0 then 1 else Prefix(s);
    PrefixIff(s, n);
    forall m | n < m <= |s| ensures !Begins(s[..m]) {
      PrefixIff(s, m);
    }
  }

  /** What is left of a character whose beginning was cut off is dropped. */
  lemma {:induction false} IgnoringDropsTheCut(c: Scalar, k: nat, s: seq<Byte>)
    requires 0 < k <= |EncodeOne(c)|
    ensures DecodeIgnoring(EncodeOne(c)[k..] + s) == DecodeIgnoring(s)
    decreases |EncodeOne(c)| - k
  {
    var e := EncodeOne(c);
    if k == |e| {
      assert e[k..] + s == s;
    } else {
      DigitsOf(c);
      assert Continues(e[k]);
      assert (e[k..] + s)[1..] == e[k + 1..] + s && (e[k..] + s)[0] == e[k];
      IgnoringDropsTheCut(c, k + 1, s);
    }
  }

  lemma {:induction false} IgnoringKeepsAll(text: seq<Scalar>)
    ensures DecodeIgnoring(Encode(text)) == text
  {
    if text != [] {
      IgnoringKeeps(text[0], Encode(text[1..]));
      IgnoringKeepsAll(text[1..]);
    }
  }

  /** Of text that is cut anywhere, exactly the characters that lie wholly behind the cut remain. */
  lemma {:induction false} CutTextIsItsRest(text: seq<Scalar>, k: nat) returns (j: nat)
    requires k <= |Encode(text)|
    ensures j <= |text| && DecodeIgnoring(Encode(text)[k..]) == text[j..]
    ensures |Encode(text[..j])| >= k && (j > 0 ==> |Encode(text[..j - 1])| < k)
  {
    if k == 0 {
      j := 0;
      IgnoringKeepsAll(text);
    } else {
      var c, rest := text[0], text[1..];
      var e := EncodeOne(c);
      if k <= |e| {
        j := 1;
        assert Encode(text)[k..] == e[k..] + Encode(rest);
        IgnoringDropsTheCut(c, k, Encode(rest));
        IgnoringKeepsAll(rest);
        EncodeStep(c, []);
        assert text[..1] == [c] + [];
      } else {
        var i := CutTextIsItsRest(rest, k - |e|);
        j := i + 1;
        assert Encode(text)[k..] == Encode(rest)[k - |e|..];
        EncodeStep(c, rest[..i]);
        assert text[..j] == [c] + rest[..i];
        if i > 0 {
          EncodeStep(c, rest[..i - 1]);
          assert text[..i] == [c] + rest[..i - 1];
        }
      }
    }
  }

  /** The pieces that `one` makes of the elements, one after the other. */
  function Pieces(one: Scalar -> seq<Byte>, text: seq<Scalar>): seq<Byte> {
    if text == [] then [] else one(text[0]) + Pieces(one, text[1..])
  }

  lemma {:induction false} PiecesConcat(one: Scalar -> seq<Byte>, a: seq<Scalar>, b: seq<Scalar>)
    ensures Pieces(one, a + b) == Pieces(one, a) + Pieces(one, b)
  {
    if a == [] {
      assert a + b == b;
    } else {
      PiecesConcat(one, a[1..], b);
      assert (a + b)[1..] == a[1..] + b;
    }
  }

  lemma {:induction false} EncodeIsPieces(one: Scalar -> seq<Byte>, text: seq<Scalar>)
    requires forall c: Scalar :: one(c) == EncodeOne(c)
    ensures Encode(text) == Pieces(one, text)
  {
    if text != [] {
      EncodeIsPieces(one, text[1..]);
    }
  }

  lemma EncodeConcat(a: seq<Scalar>, b: seq<Scalar>)
    ensures Encode(a + b) == Encode(a) + Encode(b)
  {
    var one := (c: Scalar) => EncodeOne(c);
    EncodeIsPieces(one, a + b);
    EncodeIsPieces(one, a);
    EncodeIsPieces(one, b);
    PiecesConcat(one, a, b);
  }

  predicate Ascii(s: seq<Byte>) {
    forall k :: 0 <= k < |s| ==> s[k] < 0x80
  }

  lemma {:induction false} AsciiDecodes(s: seq<Byte>)
    requires Ascii(s)
    ensures Decode(s).Some?
  {
    if s != [] {
      AsciiDecodes(s[1..]);
    }
  }

  /** Plain text before it does not change whether bytes decode. */
  lemma {:induction false} DecodesAfterAscii(a: seq<Byte>, s: seq<Byte>)
    requires Ascii(a)
    ensures Decode(a + s).Some? <==> Decode(s).Some?
  {
    if a == [] {
      assert a + s == s;
    } else {
      DecodesAfterAscii(a[1..], s);
      assert (a + s)[1..] == a[1..] + s && (a + s)[0] == a[0];
    }
  }

  // ---------------------------------------------------------------- the text

  /** What the text of a buffer is made with. */
  datatype Codec = Codec(
    encode: seq<Scalar> -> seq<Byte>,
    decode: seq<Byte> -> Option<seq<Scalar>>,
    ignoring: seq<Byte> -> seq<Scalar>)

  function Utf8(): Codec {
    Codec((text: seq<Scalar>) => Encode(text), (s: seq<Byte>) => Decode(s), (s: seq<Byte>) => DecodeIgnoring(s))
  }

  /** Decoded bytes encode back, skipping never lengthens, and plain text neither fails nor disturbs what follows. */
  ghost predicate Lawful(c: Codec) {
    && (forall s: seq<Byte> :: c.decode(s).Some? ==> c.encode(c.decode(s).value) == s)
    && (forall s: seq<Byte> :: |c.encode(c.ignoring(s))| <= |s|)
    && (forall a: seq<Scalar>, b: seq<Scalar> :: c.encode(a + b) == c.encode(a) + c.encode(b))
    && (forall s: seq<Byte> :: Ascii(s) ==> c.decode(s).Some?)
    && (forall a: seq<Byte>, s: seq<Byte> :: Ascii(a) ==> (c.decode(a + s).Some? <==> c.decode(s).Some?))
  }

  lemma Utf8IsLawful()
    ensures Lawful(Utf8())
  {
    forall s: seq<Byte> ensures Decode(s).Some? ==> Encode(Decode(s).value) == s {
      if Decode(s).Some? {
        DecodedEncodesBack(s);
      }
    }
    forall s: seq<Byte> ensures |Encode(DecodeIgnoring(s))| <= |s| {
      IgnoringShrinks(s);
    }
    forall a: seq<Scalar>, b: seq<Scalar> ensures Encode(a + b) == Encode(a) + Encode(b) {
      EncodeConcat(a, b);
    }
    forall s: seq<Byte> | Ascii(s) ensures Decode(s).Some? {
      AsciiDecodes(s);
    }
    forall a: seq<Byte>, s: seq<Byte> | Ascii(a) ensures Decode(a + s).Some? <==> Decode(s).Some? {
      DecodesAfterAscii(a, s);
    }
  }

  function Last(s: seq<Byte>, n: nat): seq<Byte> {
    if |s| <= n then s else s[|s| - n..]
  }

  function Cut(s: seq<Byte>, n: nat): seq<Byte> {
    if |s| <= n then s else s[..n]
  }

  function AsText(c: Codec, s: seq<Byte>): seq<Scalar> {
    if c.decode(s).Some? then c.decode(s).value else []
  }

  /** `_decode_bounded_utf8`; `marker` is its ASCII note about undecodable bytes. */
  function DecodeBounded(c: Codec, raw: seq<Byte>, max: nat, marker: seq<Byte>): seq<Scalar> {
    if c.decode(raw).Some? then c.decode(raw).value
    else if |marker| >= max then AsText(c, marker[..max])
    else
      var budget := max - |marker|;
      var tail := c.ignoring(Last(raw, budget));
      AsText(c, marker) + if |c.encode(tail)| > budget then c.ignoring(Last(c.encode(tail), budget)) else tail
  }

  /** The note on undecodable bytes, and what can be decoded of as much of the end as still fits. */
  function Salvaged(c: Codec, raw: seq<Byte>, max: nat, marker: seq<Byte>): seq<Byte> {
    if |marker| >= max then marker[..max] else marker + c.encode(c.ignoring(Last(raw, max - |marker|)))
  }

  /**
    For every input, valid or not, the text takes at most `max` bytes; valid
    input comes back, and of any other the note and what can be decoded.
   */
  lemma DecodedTextFits(c: Codec, raw: seq<Byte>, max: nat, marker: seq<Byte>)
    requires Lawful(c) && max > 0 && Ascii(marker) && |raw| <= max
    ensures var text := c.encode(DecodeBounded(c, raw, max, marker));
            && |text| <= max
            && (if c.decode(raw).Some? then text == raw else text == Salvaged(c, raw, max, marker))
  {
    if c.decode(raw).None? && |marker| < max {
      var budget := max - |marker|;
      var tail := c.ignoring(Last(raw, budget));
      assert |c.encode(tail)| <= budget;
      assert c.encode(AsText(c, marker) + tail) == marker + c.encode(tail);
    }
  }

  // -------------------------------------------------------------- the buffer

  /** A note, cut to the limit, or the note and as much of the end as fits. */
  function Noted(raw: seq<Byte>, note: seq<Byte>, max: nat): seq<Byte> {
    if |note| >= max then note[..max] else note + Last(raw, max - |note|)
  }

  /**
    What the text of a stream is: the stream if it is short and decodes; a note
    on the bytes before, and the end of a longer one if that end decodes.  A cut
    inside a character makes the end undecodable, and the text is then the note
    on undecodable bytes and what can be decoded of an end that is shorter still.
   */
  ghost predicate IsTextOf(c: Codec, text: seq<Byte>, stream: seq<Byte>, max: nat, note: seq<Byte>,
      undecodable: seq<Byte>) {
    && |text| <= max
    && (|stream| <= max ==> if c.decode(stream).Some? then text == stream
                         else text == Salvaged(c, stream, max, undecodable))
    && (|stream| > max && |note| < max ==>
          var end := Last(stream, max - |note|);
          if c.decode(end).Some? then text == note + end else text == Salvaged(c, note + end, max, undecodable))
    && (|stream| > max && |note| >= max ==> text == Cut(note, max))
  }

  lemma BufferedText(c: Codec, stream: seq<Byte>, max: nat, note: seq<Byte>, undecodable: seq<Byte>)
    requires Lawful(c) && max > 0 && Ascii(note) && Ascii(undecodable)
    ensures var data := Last(stream, max);
            var raw := if |stream| > max then Noted(data, note, max) else data;
            IsTextOf(c, c.encode(DecodeBounded(c, raw, max, undecodable)), stream, max, note, undecodable)
  {
    if |stream| <= max {
      DecodedTextFits(c, stream, max, undecodable);
    } else {
      assert |note| < max ==> Last(Last(stream, max), max - |note|) == Last(stream, max - |note|);
      DecodedTextFits(c, Noted(Last(stream, max), note, max), max, undecodable);
    }
  }

  /** The end of a longer stream is the end of the old end and what came after it. */
  lemma LastOfLonger(stream: seq<Byte>, chunk: seq<Byte>, max: nat)
    ensures Last(stream + chunk, max) == Last(Last(stream, max) + chunk, max)
  {
  }

  /** The text of a buffer that holds the end of a stream. */
  function BufferText(c: Codec, data: seq<Byte>, dropped: nat, max: nat, note: seq<Byte>,
      undecodable: seq<Byte>): seq<Scalar> {
    DecodeBounded(c, if dropped > 0 then Noted(data, note, max) else data, max, undecodable)
  }

  lemma Utf8Text(stream: seq<Byte>, data: seq<Byte>, dropped: nat, max: nat, note: seq<Byte>, undecodable: seq<Byte>)
    requires max > 0 && Ascii(note) && Ascii(undecodable) && data == Last(stream, max) && dropped + |data| == |stream|
    ensures IsTextOf(Utf8(), Encode(BufferText(Utf8(), data, dropped, max, note, undecodable)), stream, max, note,
        undecodable)
  {
    Utf8IsLawful();
    BufferedText(Utf8(), stream, max, note, undecodable);
    EncodeIsUtf8(BufferText(Utf8(), data, dropped, max, note, undecodable));
  }

  lemma EncodeIsUtf8(text: seq<Scalar>)
    ensures Utf8().encode(text) == Encode(text)
  {
  }

  class ByteTail {
    const max: nat
    var data: seq<Byte>
    var dropped: nat
    /** Everything that was appended. */
    ghost var stream: seq<Byte>

    ghost predicate Valid()
      reads this
    {
      max > 0 && data == Last(stream, max) && dropped + |data| == |stream|
    }

    constructor (max: nat)
      requires max > 0
      ensures Valid() && this.max == max && stream == []
    {
      this.max, data, dropped, stream := max, [], 0, [];
    }

    method Append(chunk: seq<Byte>)
      requires Valid()
      modifies this
      ensures Valid() && stream == old(stream) + chunk
    {
      if chunk == [] {
        assert stream == stream + chunk;
        return;
      }
      LastOfLonger(stream, chunk, max);
      stream := stream + chunk;
      var combined := |data| + |chunk|;
      if |chunk| >= max {
        assert Last(data + chunk, max) == chunk[|chunk| - max..];
        dropped := dropped + (combined - max);
        data := chunk[|chunk| - max..];
        return;
      }
      data := data + chunk;
      if |data| > max {
        var excess := |data| - max;
        data := data[excess..];
        dropped := dropped + excess;
      }
    }

    /** `text` */
    method Text(omitted: nat -> seq<Byte>, undecodable: seq<Byte>) returns (text: seq<Scalar>)
      requires Valid() && Ascii(undecodable) && forall n: nat :: Ascii(omitted(n))
      ensures IsTextOf(Utf8(), Encode(text), stream, max, if |stream| > max then omitted(|stream| - max) else [],
          undecodable)
    {
      var note := if dropped > 0 then omitted(dropped) else [];
      Utf8Text(stream, data, dropped, max, note, undecodable);
      text := BufferText(Utf8(), data, dropped, max, note, undecodable);
    }
  }
}
