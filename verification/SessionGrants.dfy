/** The 64-bit FNV-1a hash of canonical JSON text, and the session grants that
    compare it. */
module SessionGrants {
  import opened Json
  import opened CanonicalJson
  import opened MachineInts
  import opened Utf8

  // ------------------------------------------------------------------- FNV-1a

  const TWO_64: int := 0x1_0000_0000_0000_0000
  type U64 = n: nat | n < TWO_64

  const FNV_OFFSET: U64 := 0xcbf2_9ce4_8422_2325
  const FNV_PRIME: U64 := 0x0000_0100_0000_01b3
  /** FNV_PRIME is odd, so it has an inverse modulo 2^64. */
  const FNV_PRIME_INVERSE: U64 := 0xce96_5057_aff6_957b

  function WrappingMulPrime(h: U64): U64 {
    (h * FNV_PRIME) % TWO_64
  }

  /** Exclusive or, bit by bit from the lowest. */
  function Xor(m: nat, n: nat): nat {
    if m == 0 && n == 0 then 0 else (m % 2 + n % 2) % 2 + 2 * Xor(m / 2, n / 2)
  }

  function Pow(base: nat, n: nat): nat { if n == 0 then 1 else base * Pow(base, n - 1) }

  lemma {:induction false} XorBound(m: nat, n: nat, bits: nat)
    requires m < Pow(2, bits) && n < Pow(2, bits)
    ensures Xor(m, n) < Pow(2, bits)
    decreases bits
  {
    if bits > 0 {
      XorBound(m / 2, n / 2, bits - 1);
    }
  }

  lemma {:induction false} Pow64()
    ensures Pow(2, 64) == TWO_64 && Pow(16, 16) == TWO_64
  {
    PowSquare(2, 1); PowSquare(2, 2); PowSquare(2, 4); PowSquare(2, 8); PowSquare(2, 16); PowSquare(2, 32);
    PowSquare(16, 1); PowSquare(16, 2); PowSquare(16, 4); PowSquare(16, 8);
    assert Pow(2, 1) == 2 && Pow(16, 1) == 16;
  }

  lemma {:induction false} PowSquare(base: nat, n: nat)
    ensures Pow(base, n + n) == Pow(base, n) * Pow(base, n)
  {
    PowAdd(base, n, n);
  }

  lemma {:induction false} PowAdd(base: nat, m: nat, n: nat)
    ensures Pow(base, m + n) == Pow(base, m) * Pow(base, n)
  {
    if m > 0 {
      PowAdd(base, m - 1, n);
      assert Pow(base, m + n) == base * (Pow(base, m - 1) * Pow(base, n)) == base * Pow(base, m - 1) * Pow(base, n);
    }
  }

  /** The k-th binary digit, the lowest first. */
  function Bit(n: nat, k: nat): nat { if k == 0 then n % 2 else Bit(n / 2, k - 1) }

  /** Each digit of the result tells whether the digits differ. */
  lemma {:induction false} XorBits(m: nat, n: nat, k: nat)
    ensures Bit(Xor(m, n), k) == if Bit(m, k) == Bit(n, k) then 0 else 1
    decreases k
  {
    assert Xor(m, n) / 2 == Xor(m / 2, n / 2);
    if k > 0 {
      XorBits(m / 2, n / 2, k - 1);
    }
  }

  function XorByte(h: U64, b: Byte): U64 {
    Pow64();
    XorBound(h, b, 64);
    Xor(h, b)
  }

  function Step(h: U64, b: Byte): U64 {
    WrappingMulPrime(XorByte(h, b))
  }

  function HashFrom(h: U64, bytes: seq<Byte>): U64
    decreases |bytes|
  {
    if bytes == [] then h else HashFrom(Step(h, bytes[0]), bytes[1..])
  }

  /** The lower-case hexadecimal digits of a number, most significant first. */
  function HexDigits(n: nat, width: nat): (r: string)
    ensures |r| == width
  {
    if width == 0 then [] else HexDigits(n / 16, width - 1) + [LowerHex(n % 16)]
  }

  function Fnv1a64(bytes: seq<Byte>): string {
    HexDigits(HashFrom(FNV_OFFSET, bytes), 16)
  }

  method ComputeFnv1a64(bytes: seq<Byte>) returns (out: string)
    ensures out == Fnv1a64(bytes)
  {
    var hash := FNV_OFFSET;
    for i := 0 to |bytes|
      invariant HashFrom(hash, bytes[i..]) == HashFrom(FNV_OFFSET, bytes)
    {
      assert bytes[i..][1..] == bytes[i + 1..];
      hash := XorByte(hash, bytes[i]);
      hash := WrappingMulPrime(hash);
    }
    out := HexDigits(hash, 16);
  }

  lemma {:induction false} FourMore(n: nat, w: nat, s: string, a: nat, b: nat, c: nat, d: nat)
    returns (m: nat, v: nat, t: string)
    requires HexDigits(n, w) == s && a < 16 && b < 16 && c < 16 && d < 16
    ensures m == 0x10000 * n + 0x1000 * a + 0x100 * b + 0x10 * c + d && v == w + 4
    ensures t == s + [LowerHex(a), LowerHex(b), LowerHex(c), LowerHex(d)]
    ensures HexDigits(m, v) == t
  {
    var p, q, r := 16 * n + a, 0x100 * n + 0x10 * a + b, 0x1000 * n + 0x100 * a + 0x10 * b + c;
    m, v := 0x10000 * n + 0x1000 * a + 0x100 * b + 0x10 * c + d, w + 4;
    t := s + [LowerHex(a), LowerHex(b), LowerHex(c), LowerHex(d)];
    assert p / 16 == n && q / 16 == p && r / 16 == q && m / 16 == r;
    assert HexDigits(p, w + 1) == s + [LowerHex(a)];
    assert HexDigits(q, w + 2) == s + [LowerHex(a)] + [LowerHex(b)];
    assert HexDigits(r, w + 3) == s + [LowerHex(a)] + [LowerHex(b)] + [LowerHex(c)];
    assert HexDigits(m, w + 4) == HexDigits(r, w + 3) + [LowerHex(d)];
  }

  lemma {:induction false} OffsetDigits(h: nat)
    requires h == 0xcbf29ce484222325
    ensures HexDigits(h, 16) == "cbf29ce484222325"
  {
    var n, w, s := 0, 0, "";
    n, w, s := FourMore(n, w, s, 0xc, 0xb, 0xf, 0x2);
    n, w, s := FourMore(n, w, s, 0x9, 0xc, 0xe, 0x4);
    n, w, s := FourMore(n, w, s, 0x8, 0x4, 0x2, 0x2);
    n, w, s := FourMore(n, w, s, 0x2, 0x3, 0x2, 0x5);
  }

  lemma {:induction false} AnswerDigits(h: nat)
    requires h == 0xaf63dc4c8601ec8c
    ensures HexDigits(h, 16) == "af63dc4c8601ec8c"
  {
    var n, w, s := 0, 0, "";
    n, w, s := FourMore(n, w, s, 0xa, 0xf, 0x6, 0x3);
    n, w, s := FourMore(n, w, s, 0xd, 0xc, 0x4, 0xc);
    n, w, s := FourMore(n, w, s, 0x8, 0x6, 0x0, 0x1);
    n, w, s := FourMore(n, w, s, 0xe, 0xc, 0x8, 0xc);
  }

  /** The published FNV-1a values of the empty input and of "a". */
  lemma {:induction false} KnownAnswers()
    ensures Fnv1a64([]) == "cbf29ce484222325"
    ensures Fnv1a64(Encode("a")) == "af63dc4c8601ec8c"
  {
    OffsetDigits(FNV_OFFSET);
    AnswerXor(FNV_OFFSET);
    StepIs(FNV_OFFSET, 0x61, 0xcbf29ce484222344, 0xcbf29ce5de, 0xaf63dc4c8601ec8c);
    AnswerDigits(Step(FNV_OFFSET, 0x61));
    assert Encode("a") == [0x61];
    assert HashFrom(FNV_OFFSET, [0x61]) == HashFrom(Step(FNV_OFFSET, 0x61), []);
  }

  lemma {:induction false} StepIs(h: U64, b: Byte, x: nat, q: nat, y: nat)
    requires Xor(h, b) == x && x * FNV_PRIME == q * TWO_64 + y && y < TWO_64
    ensures Step(h, b) == y
  {
  }

  lemma {:induction false} AnswerXor(h: nat)
    requires h == 0xcbf29ce484222325
    ensures Xor(h, 0x61) == 0xcbf29ce484222344
  {
    var m: nat := 0x197e539c9084446;
    var n: nat, x := 0, m;
    XorNothing(m);
    m, n, x := XorMore(m, n, x, 0, 1);
    m, n, x := XorMore(m, n, x, 1, 1);
    m, n, x := XorMore(m, n, x, 0, 0);
    m, n, x := XorMore(m, n, x, 0, 0);
    m, n, x := XorMore(m, n, x, 1, 0);
    m, n, x := XorMore(m, n, x, 0, 0);
    m, n, x := XorMore(m, n, x, 1, 1);
  }

  /** One more digit on each side. */
  lemma {:induction false} XorMore(m: nat, n: nat, x: nat, a: nat, b: nat) returns (p: nat, q: nat, y: nat)
    requires Xor(m, n) == x && a < 2 && b < 2
    ensures p == 2 * m + a && q == 2 * n + b && y == 2 * x + (a + b) % 2
    ensures Xor(p, q) == y
  {
    p, q, y := 2 * m + a, 2 * n + b, 2 * x + (a + b) % 2;
    assert p / 2 == m && q / 2 == n && p % 2 == a && q % 2 == b;
  }

  lemma {:induction false} XorNothing(n: nat)
    ensures Xor(n, 0) == n
  {
    if n > 0 {
      XorNothing(n / 2);
    }
  }

  ghost function HashInput(v: Value): string { Fnv1a64(Encode(Canonical(v))) }

  method ComputeHashInput(v: Value) returns (out: string)
    ensures out == HashInput(v)
  {
    var buf := new Buffer();
    WriteCanonical(v, buf);
    assert buf.text == Canonical(v);
    out := ComputeFnv1a64(Encode(buf.text));
  }

  // ------------------------------------------------------- the hash separates

  lemma {:induction false} MulPrimeInjective(x: U64, y: U64)
    requires WrappingMulPrime(x) == WrappingMulPrime(y)
    ensures x == y
  {
    var k := (x * FNV_PRIME) / TWO_64 - (y * FNV_PRIME) / TWO_64;
    assert (x - y) * FNV_PRIME == k * TWO_64;
    var m := (FNV_PRIME * FNV_PRIME_INVERSE) / TWO_64;
    assert FNV_PRIME * FNV_PRIME_INVERSE == 1 + m * TWO_64;
    assert (x - y) + (x - y) * m * TWO_64 == k * FNV_PRIME_INVERSE * TWO_64;
    assert x - y == (k * FNV_PRIME_INVERSE - (x - y) * m) * TWO_64;
  }

  lemma {:induction false} XorCancels(m: nat, n: nat, b: nat)
    requires Xor(m, b) == Xor(n, b)
    ensures m == n
    decreases m + n + b
  {
    if m + n + b > 0 {
      SameBits((m % 2 + b % 2) % 2, Xor(m / 2, b / 2), (n % 2 + b % 2) % 2, Xor(n / 2, b / 2));
      XorCancels(m / 2, n / 2, b / 2);
      assert m % 2 == n % 2;
      assert m == 2 * (m / 2) + m % 2 && n == 2 * (n / 2) + n % 2;
    }
  }

  lemma {:induction false} SameBits(a: nat, x: nat, b: nat, y: nat)
    requires a < 2 && b < 2 && a + 2 * x == b + 2 * y
    ensures a == b && x == y
  {
  }

  lemma {:induction false} XorCommutes(m: nat, n: nat)
    ensures Xor(m, n) == Xor(n, m)
    decreases m + n
  {
    if m + n > 0 {
      XorCommutes(m / 2, n / 2);
    }
  }

  /** One step separates hashes under the same byte and bytes under the same hash. */
  lemma {:induction false} StepInjective(g: U64, h: U64, a: Byte, b: Byte)
    requires Step(g, a) == Step(h, b)
    ensures a == b ==> g == h
    ensures g == h ==> a == b
  {
    MulPrimeInjective(XorByte(g, a), XorByte(h, b));
    if a == b {
      XorCancels(g, h, a);
    }
    if g == h {
      XorCommutes(g, a);
      XorCommutes(h, b);
      XorCancels(a, b, g);
    }
  }

  lemma {:induction false} HashFromInjective(g: U64, h: U64, bytes: seq<Byte>)
    requires HashFrom(g, bytes) == HashFrom(h, bytes)
    ensures g == h
    decreases |bytes|
  {
    if bytes != [] {
      HashFromInjective(Step(g, bytes[0]), Step(h, bytes[0]), bytes[1..]);
      StepInjective(g, h, bytes[0], bytes[0]);
    }
  }

  lemma {:induction false} HashFromConcat(h: U64, a: seq<Byte>, b: seq<Byte>)
    ensures HashFrom(h, a + b) == HashFrom(HashFrom(h, a), b)
    decreases |a|
  {
    if a == [] {
      assert a + b == b;
    } else {
      assert (a + b)[1..] == a[1..] + b;
      HashFromConcat(Step(h, a[0]), a[1..], b);
    }
  }

  lemma {:induction false} HexDigitsInjective(m: nat, n: nat, width: nat)
    requires HexDigits(m, width) == HexDigits(n, width)
    requires m < Pow(16, width) && n < Pow(16, width)
    ensures m == n
    decreases width
  {
    if width > 0 {
      var p, q := HexDigits(m / 16, width - 1), HexDigits(n / 16, width - 1);
      assert HexDigits(m, width)[..width - 1] == p && HexDigits(n, width)[..width - 1] == q;
      assert HexDigits(m, width)[width - 1] == LowerHex(m % 16);
      assert HexDigits(n, width)[width - 1] == LowerHex(n % 16);
      HexDigitsInjective(m / 16, n / 16, width - 1);
    }
  }

  /** Byte strings that differ in one byte only have different hashes. */
  lemma {:induction false} OneByteChangeSeparates(before: seq<Byte>, a: Byte, b: Byte, after: seq<Byte>)
    requires a != b
    ensures Fnv1a64(before + [a] + after) != Fnv1a64(before + [b] + after)
  {
    var h := HashFrom(FNV_OFFSET, before);
    HashFromConcat(FNV_OFFSET, before + [a], after);
    HashFromConcat(FNV_OFFSET, before + [b], after);
    HashFromConcat(FNV_OFFSET, before, [a]);
    HashFromConcat(FNV_OFFSET, before, [b]);
    var x, y := HashFrom(h, [a]), HashFrom(h, [b]);
    assert x == Step(h, a) && y == Step(h, b);
    if HashFrom(x, after) == HashFrom(y, after) {
      HashFromInjective(x, y, after);
      StepInjective(h, h, a, b);
    }
    if Fnv1a64(before + [a] + after) == Fnv1a64(before + [b] + after) {
      Pow64();
      HexDigitsInjective(HashFrom(x, after), HashFrom(y, after), 16);
    }
  }

  // ------------------------------------------------------------------- grants

  datatype RiskLevel = Low | Medium | High | Critical

  function RiskRank(r: RiskLevel): nat {
    match r case Low => 0 case Medium => 1 case High => 2 case Critical => 3
  }

  datatype SessionGrant = SessionGrant(
    toolName: string, inputHash: string, riskCeiling: RiskLevel, grantedAtTurn: Usize, expiresInTurns: Usize)

  ghost predicate Covers(g: SessionGrant, toolName: string, input: Value, risk: RiskLevel, turn: Usize) {
    && g.toolName == toolName
    && !(RiskRank(risk) > RiskRank(g.riskCeiling))
    && g.inputHash == HashInput(input)
    && SaturatingSub(SaturatingAdd(g.grantedAtTurn, g.expiresInTurns), turn) > 0
  }

  ghost function NewGrant(toolName: string, input: Value, ceiling: RiskLevel, at: Usize, turns: Usize): SessionGrant {
    SessionGrant(toolName, HashInput(input), ceiling, at, turns)
  }

  /** The order of the risk levels, case by case. */
  predicate NoRiskier(r: RiskLevel, s: RiskLevel) {
    r == Low || r == s || s == Critical || (r == Medium && s == High)
  }

  /** A grant answers for its own tool, for inputs with the hash of the one it
      was given for, up to its risk ceiling, and for no turn from the expiry on. */
  lemma {:induction false} GrantCovers(toolName: string, granted: Value, ceiling: RiskLevel, at: Usize, turns: Usize,
                                       name: string, asked: Value, risk: RiskLevel, turn: Usize)
    ensures Covers(NewGrant(toolName, granted, ceiling, at, turns), name, asked, risk, turn)
       <==> && name == toolName
            && Fnv1a64(Encode(Canonical(asked))) == Fnv1a64(Encode(Canonical(granted)))
            && NoRiskier(risk, ceiling)
            && turn < at + turns && turn < USIZE_MAX
  {
  }

  /** An input whose canonical text differs in a single ASCII character is
      never covered: the one collision FNV-1a cannot have. */
  lemma {:induction false} OneCharacterChangeIsNotCovered(
    g: SessionGrant, granted: Value, asked: Value, before: string, a: char, b: char, after: string,
    risk: RiskLevel, turn: Usize)
    requires g.inputHash == HashInput(granted)
    requires Canonical(granted) == before + [a] + after && Canonical(asked) == before + [b] + after
    requires a != b && a as int < 0x80 && b as int < 0x80
    ensures !Covers(g, g.toolName, asked, risk, turn)
  {
    OneCharacterBytes(before, a, after);
    OneCharacterBytes(before, b, after);
    OneByteChangeSeparates(Encode(before), a as int, b as int, Encode(after));
  }

  lemma {:induction false} OneCharacterBytes(before: string, c: char, after: string)
    requires c as int < 0x80
    ensures Encode(before + [c] + after) == Encode(before) + [c as int] + Encode(after)
  {
    EncodeConcat(before + [c], after);
    EncodeConcat(before, [c]);
    assert Encode([c]) == [c as int] + [];
  }
}
