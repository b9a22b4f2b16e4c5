/** The UTF-8 bytes of a text, and the order of texts by their bytes. */
module Utf8 {
  import opened Ordering

  type Byte = n: nat | n < 0x100

  function EncodeChar(c: char): seq<Byte> {
    var n := c as int;
    if n < 0x80 then [n]
    else if n < 0x800 then [(0xC0 + n / 0x40), (0x80 + n % 0x40)]
    else if n < 0x10000 then
      [(0xE0 + n / 0x1000), (0x80 + n / 0x40 % 0x40), (0x80 + n % 0x40)]
    else
      [(0xF0 + n / 0x40000), (0x80 + n / 0x1000 % 0x40),
       (0x80 + n / 0x40 % 0x40), (0x80 + n % 0x40)]
  }

  function Encode(s: string): seq<Byte> {
    if s == [] then [] else EncodeChar(s[0]) + Encode(s[1..])
  }

  // ------------------------------------------------------ what the bytes stand for

  /** The low six bits of a continuation byte. */
  function Six(b: Byte): int { b - 0x80 }

  predicate IsContinuation(b: Byte) { 0x80 <= b < 0xC0 }

  /** The byte shapes of section 3 of RFC 3629, each for its own range. */
  predicate StandsFor(b: seq<Byte>, n: nat) {
    && 1 <= |b| <= 4
    && (forall i | 1 <= i < |b| :: IsContinuation(b[i]))
    && if |b| == 1 then n < 0x80 && n == b[0]
       else if |b| == 2 then
         0x80 <= n < 0x800 && n == (b[0] - 0xC0) * 0x40 + Six(b[1])
       else if |b| == 3 then
         0x800 <= n < 0x10000 && n == (b[0] - 0xE0) * 0x1000 + Six(b[1]) * 0x40 + Six(b[2])
       else
         0x10000 <= n && n == (b[0] - 0xF0) * 0x40000 + Six(b[1]) * 0x1000 + Six(b[2]) * 0x40 + Six(b[3])
  }

  lemma {:induction false} EncodesItself(c: char)
    ensures StandsFor(EncodeChar(c), c as int)
  {
    var n := c as int;
    assert n / 0x40 / 0x40 == n / 0x1000 && n / 0x1000 / 0x40 == n / 0x40000;
  }

  lemma {:induction false} SplitsOnce(h: int, l: int, g: int, k: int)
    requires 0 <= l < 0x40 && 0 <= k < 0x40 && h * 0x40 + l == g * 0x40 + k
    ensures h == g && l == k
  {
  }

  lemma {:induction false} StandsForOne(a: seq<Byte>, b: seq<Byte>, n: nat)
    requires StandsFor(a, n) && StandsFor(b, n)
    ensures a == b
  {
    assert |a| == |b|;
    if |a| == 2 {
      SplitsOnce(a[0] - 0xC0, Six(a[1]), b[0] - 0xC0, Six(b[1]));
    } else if |a| == 3 {
      SplitsOnce((a[0] - 0xE0) * 0x40 + Six(a[1]), Six(a[2]), (b[0] - 0xE0) * 0x40 + Six(b[1]), Six(b[2]));
      SplitsOnce(a[0] - 0xE0, Six(a[1]), b[0] - 0xE0, Six(b[1]));
    } else if |a| == 4 {
      SplitsOnce((a[0] - 0xF0) * 0x1000 + Six(a[1]) * 0x40 + Six(a[2]), Six(a[3]),
                 (b[0] - 0xF0) * 0x1000 + Six(b[1]) * 0x40 + Six(b[2]), Six(b[3]));
      SplitsOnce((a[0] - 0xF0) * 0x40 + Six(a[1]), Six(a[2]), (b[0] - 0xF0) * 0x40 + Six(b[1]), Six(b[2]));
      SplitsOnce(a[0] - 0xF0, Six(a[1]), b[0] - 0xF0, Six(b[1]));
    }
  }

  /** A character is encoded by the one byte sequence that stands for it. */
  lemma {:induction false} EncodesIff(b: seq<Byte>, c: char)
    ensures b == EncodeChar(c) <==> StandsFor(b, c as int)
  {
    EncodesItself(c);
    if StandsFor(b, c as int) {
      StandsForOne(b, EncodeChar(c), c as int);
    }
  }

  lemma {:induction false} EncodeConcat(s: string, t: string)
    ensures Encode(s + t) == Encode(s) + Encode(t)
  {
    if s == [] {
      assert s + t == t;
    } else {
      assert (s + t)[1..] == s[1..] + t;
      EncodeConcat(s[1..], t);
    }
  }

  // ------------------------------------------------------------------- byte order

  /** Rust's order on strings: byte by byte, a proper prefix first. */
  predicate BytesLeq(a: seq<Byte>, b: seq<Byte>) {
    a == [] || (b != [] && (a[0] < b[0] || (a[0] == b[0] && BytesLeq(a[1..], b[1..]))))
  }

  lemma {:induction false} SameStart(p: seq<Byte>, a: seq<Byte>, b: seq<Byte>)
    ensures BytesLeq(p + a, p + b) <==> BytesLeq(a, b)
  {
    if p == [] {
      assert p + a == a && p + b == b;
    } else {
      assert (p + a)[1..] == p[1..] + a && (p + b)[1..] == p[1..] + b;
      SameStart(p[1..], a, b);
    }
  }

  lemma {:induction false} FirstDifference(a: seq<Byte>, b: seq<Byte>, k: nat)
    requires k < |a| && k < |b| && a[..k] == b[..k] && a[k] < b[k]
    ensures BytesLeq(a, b) && !BytesLeq(b, a)
  {
    var p := a[..k];
    assert a == p + a[k..] && b == p + b[k..];
    SameStart(p, a[k..], b[k..]);
    SameStart(p, b[k..], a[k..]);
  }

  /** The first place where they differ, and the left one is smaller there. */
  predicate PartsAt(a: seq<Byte>, b: seq<Byte>, k: nat) {
    k < |a| && k < |b| && a[..k] == b[..k] && a[k] < b[k]
  }

  lemma {:induction false} SameLengthPart(a: seq<Byte>, b: seq<Byte>, m: nat, n: nat) returns (k: nat)
    requires StandsFor(a, m) && StandsFor(b, n) && |a| == |b| && m < n
    ensures PartsAt(a, b, k)
  {
    k := if a[0] != b[0] then 0 else if a[1] != b[1] then 1 else if a[2] != b[2] then 2 else 3;
  }

  /** A longer sequence starts with a larger byte. */
  lemma {:induction false} LongerPart(a: seq<Byte>, b: seq<Byte>, m: nat, n: nat)
    requires StandsFor(a, m) && StandsFor(b, n) && |a| < |b|
    ensures PartsAt(a, b, 0)
  {
  }

  lemma {:induction false} ShorterIsSmaller(a: seq<Byte>, b: seq<Byte>, m: nat, n: nat)
    requires StandsFor(a, m) && StandsFor(b, n) && m < n
    ensures |a| <= |b|
  {
  }

  /** Where the bytes of two characters part, the smaller character has the
      smaller byte. */
  lemma {:induction false} CharsPart(c: char, d: char) returns (k: nat)
    requires c < d
    ensures PartsAt(EncodeChar(c), EncodeChar(d), k)
  {
    var a, b := EncodeChar(c), EncodeChar(d);
    EncodesItself(c);
    EncodesItself(d);
    ShorterIsSmaller(a, b, c as int, d as int);
    if |a| == |b| {
      k := SameLengthPart(a, b, c as int, d as int);
    } else {
      LongerPart(a, b, c as int, d as int);
      k := 0;
    }
  }

  lemma {:induction false} CharOrder(c: char, d: char, s: seq<Byte>, t: seq<Byte>)
    requires c < d
    ensures BytesLeq(EncodeChar(c) + s, EncodeChar(d) + t) && !BytesLeq(EncodeChar(d) + t, EncodeChar(c) + s)
  {
    var k := CharsPart(c, d);
    var a, b := EncodeChar(c) + s, EncodeChar(d) + t;
    assert a[..k] == EncodeChar(c)[..k] && b[..k] == EncodeChar(d)[..k];
    FirstDifference(a, b, k);
  }

  /** Ordering texts by their bytes is ordering them by their code points. */
  lemma {:induction false} ByteOrderIsCodePointOrder(s: string, t: string)
    ensures BytesLeq(Encode(s), Encode(t)) <==> StringLeq(s, t)
  {
    if s != [] && t != [] {
      if s[0] == t[0] {
        SameStart(EncodeChar(s[0]), Encode(s[1..]), Encode(t[1..]));
        ByteOrderIsCodePointOrder(s[1..], t[1..]);
      } else if s[0] < t[0] {
        CharOrder(s[0], t[0], Encode(s[1..]), Encode(t[1..]));
      } else {
        CharOrder(t[0], s[0], Encode(t[1..]), Encode(s[1..]));
      }
    }
  }
}
