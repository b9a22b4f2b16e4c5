/** The grammar of JSON text (RFC 8259, sections 2 to 7), as a relation between
    texts and values, and the proof that the reader follows it.

    Two rules are the reader's own: a nesting limit, and that of several members
    with one name the last one counts.
 */
module JsonGrammar {
  import opened Json

  /** Insignificant white space, section 2. */
  predicate IsBlank(s: string) {
    forall i | 0 <= i < |s| :: s[i] in {' ', '\t', '\n', '\r'}
  }

  // ----------------------------------------------------------- numbers, section 6

  predicate AllDigits(s: string) { s != "" && forall i | 0 <= i < |s| :: 0x30 <= s[i] as int <= 0x39 }

  predicate IntText(s: string) { s == "0" || (AllDigits(s) && s[0] != '0') }

  predicate FracText(s: string) { s == "" || (s[0] == '.' && AllDigits(s[1..])) }

  predicate ExpText(s: string) {
    s == "" ||
    (s[0] in {'e', 'E'} && (AllDigits(s[1..]) || (|s| > 1 && s[1] in {'+', '-'} && AllDigits(s[2..]))))
  }

  /** A sign, an integer part, a fraction and an exponent, end to end. */
  ghost predicate NumeralParts(s: string, i: nat, j: nat, k: nat) {
    && i <= j <= k <= |s| && s[..i] in {"", "-"}
    && IntText(s[i..j]) && FracText(s[j..k]) && ExpText(s[k..])
  }

  ghost predicate NumeralText(s: string) { exists i: nat, j: nat, k: nat :: NumeralParts(s, i, j, k) }

  // ----------------------------------------------------------- strings, section 7

  predicate HexText(c: char, d: nat) {
    (d < 10 && c as int == 0x30 + d) || (10 <= d < 16 && (c as int == 0x41 + d - 10 || c as int == 0x61 + d - 10))
  }

  /** Four hexadecimal digits, most significant first. */
  ghost predicate UnitText(h: string, n: nat) {
    |h| == 4 && exists a: nat, b: nat, c: nat, d: nat ::
      HexText(h[0], a) && HexText(h[1], b) && HexText(h[2], c) && HexText(h[3], d)
      && n == 4096 * a + 256 * b + 16 * c + d
  }

  predicate ShortEscape(letter: char, c: char) {
    (letter, c as int) in {('"', 0x22), ('\\', 0x5C), ('/', 0x2F), ('b', 8), ('f', 0xC), ('n', 0xA), ('r', 0xD), ('t', 9)}
  }

  /** A code unit for a character of the basic plane, two surrogates for one
      beyond it. */
  ghost predicate UnitEscape(p: string, c: char) {
    exists h :: p == "\\u" + h && UnitText(h, c as int)
  }

  /** A high surrogate with the upper ten bits and a low one with the lower. */
  predicate Surrogates(high: nat, low: nat, c: char) {
    && 0xD800 <= high < 0xDC00 && 0xDC00 <= low < 0xE000
    && c as int - 0x10000 == (high - 0xD800) * 0x400 + (low - 0xDC00)
  }

  ghost predicate PairText(h: string, l: string, c: char) {
    exists high: nat, low: nat :: UnitText(h, high) && UnitText(l, low) && Surrogates(high, low, c)
  }

  ghost predicate PairEscape(p: string, c: char) {
    exists h, l :: p == "\\u" + h + ("\\u" + l) && PairText(h, l, c)
  }

  /** A character as itself or escaped. */
  ghost predicate CharText(p: string, c: char) {
    || (p == [c] && c as int >= 0x20 && c != '"' && c != '\\')
    || (|p| == 2 && p[0] == '\\' && ShortEscape(p[1], c))
    || UnitEscape(p, c)
    || PairEscape(p, c)
  }

  ghost predicate StringBody(b: string, t: string)
    decreases |t|
  {
    if t == "" then b == "" else exists p, q :: b == p + q && CharText(p, t[0]) && StringBody(q, t[1..])
  }

  ghost predicate StringText(s: string, t: string) {
    |s| >= 2 && s[0] == '"' && s[|s| - 1] == '"' && StringBody(s[1..|s| - 1], t)
  }

  // --------------------------------------------------------- values, sections 3 to 5

  ghost predicate ValueText(s: string, v: Value, depth: nat, num: NumberReader)
    decreases |s|, 0
  {
    match v
    case Null => s == "null"
    case Bool(b) => s == if b then "true" else "false"
    case Number(text) => NumeralText(s) && num(s) == Some(text)
    case Str(t) => StringText(s, t)
    case Array(items) =>
      && depth > 1 && |s| >= 2 && s[0] == '[' && s[|s| - 1] == ']'
      && var body := s[1..|s| - 1];
         if items == [] then IsBlank(body) else ElementsText(body, items, depth - 1, num)
    case Object(fields) =>
      && depth > 1 && |s| >= 2 && s[0] == '{' && s[|s| - 1] == '}'
      && var body := s[1..|s| - 1];
         if fields == map[] then IsBlank(body)
         else exists members :: MembersText(body, members, depth - 1, num) && LastOfEach(fields, members)
  }

  /** A value with white space around it. */
  ghost predicate Padded(s: string, v: Value, depth: nat, num: NumberReader)
    decreases |s|, 1
  {
    exists w, t, x :: s == w + t + x && IsBlank(w) && ValueText(t, v, depth, num) && IsBlank(x)
  }

  /** One or more values with commas between them. */
  ghost predicate ElementsText(s: string, items: seq<Value>, depth: nat, num: NumberReader)
    decreases |s|, 2
  {
    && items != []
    && if |items| == 1 then Padded(s, items[0], depth, num)
       else exists a, b :: s == a + "," + b && Padded(a, items[0], depth, num) && ElementsText(b, items[1..], depth, num)
  }

  ghost predicate PaddedString(s: string, t: string) {
    exists w, k, x :: s == w + k + x && IsBlank(w) && StringText(k, t) && IsBlank(x)
  }

  ghost predicate MemberText(s: string, m: (string, Value), depth: nat, num: NumberReader)
    decreases |s|, 2
  {
    exists a, b :: s == a + ":" + b && PaddedString(a, m.0) && Padded(b, m.1, depth, num)
  }

  ghost predicate MembersText(s: string, members: seq<(string, Value)>, depth: nat, num: NumberReader)
    decreases |s|, 3
  {
    && members != []
    && if |members| == 1 then MemberText(s, members[0], depth, num)
       else exists a, b :: s == a + "," + b && MemberText(a, members[0], depth, num) && MembersText(b, members[1..], depth, num)
  }

  /** The names are those of the members, each with its last value. */
  ghost predicate LastOfEach(fields: map<string, Value>, members: seq<(string, Value)>) {
    && (forall k :: k in fields <==> exists i :: 0 <= i < |members| && members[i].0 == k)
    && (forall i | 0 <= i < |members| && (forall j | i < j < |members| :: members[j].0 != members[i].0) ::
          members[i].0 in fields && fields[members[i].0] == members[i].1)
  }

  // --------------------------------------------------------------- shared with the reader

  lemma {:induction false} BlankIsSpace(s: string)
    ensures IsBlank(s) <==> AllJsonSpace(s)
  {
  }

  lemma {:induction false} SkipBlank(w: string, s: string)
    requires IsBlank(w)
    ensures SkipSpace(w + s) == SkipSpace(s)
  {
    if w == [] {
      assert w + s == s;
    } else {
      assert (w + s)[1..] == w[1..] + s;
      SkipBlank(w[1..], s);
    }
  }

  lemma {:induction false} Skipped(s: string) returns (w: string)
    ensures s == w + SkipSpace(s) && IsBlank(w)
  {
    if s == [] || !IsJsonSpace(s[0]) {
      w := [];
    } else {
      w := Skipped(s[1..]);
      w := [s[0]] + w;
    }
  }

  lemma {:induction false} SkippedAll(s: string)
    ensures SkipSpace(s) == [] <==> IsBlank(s)
  {
    var w := Skipped(s);
    if IsBlank(s) {
      SkipBlank(s, []);
      assert s + [] == s;
    }
  }

  lemma {:induction false} ParsesSkipped(s: string, t: string, depth: nat, num: NumberReader)
    requires SkipSpace(s) == SkipSpace(t)
    ensures ParseValue(s, depth, num) == ParseValue(t, depth, num)
  {
  }

  // ------------------------------------------------------------------------- numbers

  lemma {:induction false} DigitsRun(s: string, n: nat)
    requires n <= |s| && (forall k | 0 <= k < n :: IsDigit(s[k])) && (n == |s| || !IsDigit(s[n]))
    ensures Digits(s) == n
  {
    if n > 0 {
      DigitsRun(s[1..], n - 1);
    }
  }

  lemma {:induction false} DigitsAre(s: string)
    ensures AllDigits(s) <==> s != "" && forall i | 0 <= i < |s| :: IsDigit(s[i])
  {
  }

  lemma {:induction false} IntEnd(s: string, i: nat, j: nat)
    requires i <= j <= |s| && IntText(s[i..j]) && (j == |s| || !IsDigit(s[j]))
    ensures IntegerEnd(s, i) == Some(j)
  {
    var t := s[i..j];
    DigitsAre(t);
    assert IsDigit(t[0]) && s[i] == t[0];
    if t[0] != '0' {
      assert forall k | 0 <= k < j - i :: s[i..][k] == t[k];
      DigitsRun(s[i..], j - i);
    }
  }

  lemma {:induction false} FracEnd(s: string, i: nat, j: nat)
    requires i <= j <= |s| && FracText(s[i..j]) && (j == |s| || (!IsDigit(s[j]) && s[j] != '.'))
    ensures FractionEnd(s, i) == Some(j)
  {
    var t := s[i..j];
    if t != "" {
      DigitsAre(t[1..]);
      assert s[i] == t[0];
      assert forall k | 0 <= k < j - i - 1 :: s[i + 1..][k] == t[1..][k];
      DigitsRun(s[i + 1..], j - i - 1);
    }
  }

  lemma {:induction false} ExpEndAt(s: string, i: nat, d: nat, j: nat)
    requires i + d < j <= |s| && (s[i] == 'e' || s[i] == 'E')
    requires if d == 1 then s[i + 1] != '+' && s[i + 1] != '-' else d == 2 && (s[i + 1] == '+' || s[i + 1] == '-')
    requires (forall k | i + d <= k < j :: IsDigit(s[k])) && (j == |s| || !IsDigit(s[j]))
    ensures ExponentEnd(s, i) == Some(j)
  {
    DigitsRun(s[i + d..], j - i - d);
  }

  lemma {:induction false} ExpEnd(s: string, i: nat, j: nat)
    requires i <= j <= |s| && ExpText(s[i..j]) && (j == |s| || !ContinuesNumeral(s[j]))
    ensures ExponentEnd(s, i) == Some(j)
  {
    var t := s[i..j];
    if t != "" {
      var d := if AllDigits(t[1..]) then 1 else 2;
      assert AllDigits(t[d..]);
      DigitsAre(t[d..]);
      assert s[i] == t[0] && s[i + 1] == t[1];
      assert d == 1 ==> t[1..][0] == t[1];
      forall k | i + d <= k < j ensures IsDigit(s[k]) {
        assert s[k] == t[d..][k - i - d];
      }
      ExpEndAt(s, i, d, j);
    }
  }

  /** Which characters the parts start with. */
  lemma {:induction false} PartStarts(t: string, i: nat, j: nat, k: nat)
    requires NumeralParts(t, i, j, k)
    ensures i < j && IsDigit(t[i])
    ensures k < |t| ==> t[k] == 'e' || t[k] == 'E'
    ensures j < k ==> t[j] == '.'
  {
    DigitsAre(t[i..j]);
  }

  /** The reader takes a whole numeral and stops at its end. */
  lemma {:induction false} NumeralReads(t: string, x: string)
    requires NumeralText(t) && (x == [] || !ContinuesNumeral(x[0]))
    ensures t != [] && StartsNumeral(t[0]) && NumeralEnd(t + x) == Some(|t|)
  {
    var i: nat, j: nat, k: nat :| NumeralParts(t, i, j, k);
    PartStarts(t, i, j, k);
    SameParts(t, x, i, j, k);
    var s := t + x;
    IntEnd(s, i, j);
    FracEnd(s, j, k);
    ExpEnd(s, k, |t|);
  }

  lemma {:induction false} SameParts(t: string, x: string, i: nat, j: nat, k: nat)
    requires NumeralParts(t, i, j, k) && i < |t| && IsDigit(t[i])
    ensures var s := t + x;
      s[i..j] == t[i..j] && s[j..k] == t[j..k] && s[k..|t|] == t[k..] && i == if s[0] == '-' then 1 else 0
  {
    assert t[..i] == "" || t[..i] == "-";
    assert (t + x)[i] == t[i] && (i > 0 ==> (t + x)[0] == t[..i][0]);
    SliceOfFront(t, x, i, j);
    SliceOfFront(t, x, j, k);
    SliceOfFront(t, x, k, |t|);
  }

  lemma {:induction false} SliceOfFront(t: string, x: string, a: nat, b: nat)
    requires a <= b <= |t|
    ensures (t + x)[a..b] == t[a..b]
  {
  }

  lemma {:induction false} NumeralSound(s: string)
    requires NumeralEnd(s).Some?
    ensures NumeralText(s[..NumeralEnd(s).value])
  {
    var i := if s[0] == '-' then 1 else 0;
    var j := IntegerEnd(s, i).value;
    var k := FractionEnd(s, j).value;
    var n := ExponentEnd(s, k).value;
    IntSound(s, i);
    FracSound(s, j);
    ExpSound(s, k);
    assert s[..i] == if i == 0 then "" else "-";
    CutParts(s, i, j, k, n);
  }

  lemma {:induction false} CutParts(s: string, i: nat, j: nat, k: nat, n: nat)
    requires i <= j <= k <= n <= |s| && s[..i] in {"", "-"}
    requires IntText(s[i..j]) && FracText(s[j..k]) && ExpText(s[k..n])
    ensures NumeralParts(s[..n], i, j, k)
  {
    var t := s[..n];
    assert t[..i] == s[..i] && t[i..j] == s[i..j] && t[j..k] == s[j..k] && t[k..] == s[k..n];
  }

  lemma {:induction false} IntSound(s: string, i: nat)
    requires i <= |s| && IntegerEnd(s, i).Some?
    ensures IntText(s[i..IntegerEnd(s, i).value])
  {
    DigitsAre(s[i..IntegerEnd(s, i).value]);
  }

  lemma {:induction false} FracSound(s: string, i: nat)
    requires i <= |s| && FractionEnd(s, i).Some?
    ensures FracText(s[i..FractionEnd(s, i).value])
  {
    var f := s[i..FractionEnd(s, i).value];
    if f != [] {
      DigitsAre(f[1..]);
    }
  }

  lemma {:induction false} ExpSound(s: string, i: nat)
    requires i <= |s| && ExponentEnd(s, i).Some?
    ensures ExpText(s[i..ExponentEnd(s, i).value])
  {
    var e := s[i..ExponentEnd(s, i).value];
    if e != [] {
      DigitsAre(e[1..]);
      if |e| > 1 {
        DigitsAre(e[2..]);
      }
    }
  }

  // ------------------------------------------------------------------------- strings

  lemma {:induction false} HexIs(c: char)
    ensures HexDigit(c).Some? ==> HexText(c, HexDigit(c).value)
    ensures forall d: nat | HexText(c, d) :: HexDigit(c) == Some(d)
  {
  }

  lemma {:induction false} UnitReads(h: string, n: nat, x: string)
    requires UnitText(h, n)
    ensures ParseHex4(h + x) == Ok(n, x)
  {
    HexIs(h[0]);
    HexIs(h[1]);
    HexIs(h[2]);
    HexIs(h[3]);
    assert (h + x)[4..] == x;
  }

  lemma {:induction false} UnitSound(s: string)
    requires ParseHex4(s).Ok?
    ensures UnitText(s[..4], ParseHex4(s).value) && s == s[..4] + ParseHex4(s).rest
  {
    HexIs(s[0]);
    HexIs(s[1]);
    HexIs(s[2]);
    HexIs(s[3]);
    var a, b, c, d := HexDigit(s[0]).value, HexDigit(s[1]).value, HexDigit(s[2]).value, HexDigit(s[3]).value;
    assert HexText(s[..4][0], a) && HexText(s[..4][1], b) && HexText(s[..4][2], c) && HexText(s[..4][3], d);
  }

  function Prepend(c: char, r: Parsed<string>): Parsed<string> {
    if r.Ok? then Ok([c] + r.value, r.rest) else Err
  }

  lemma {:induction false} UnitEscapeReads(h: string, c: char, x: string)
    requires UnitText(h, c as int)
    ensures ParseUnicodeEscape(h + x) == Ok(c, x)
  {
    UnitReads(h, c as int, x);
  }

  lemma {:induction false} PairEscapeReads(h: string, l: string, c: char, x: string)
    requires PairText(h, l, c)
    ensures ParseUnicodeEscape(h + ("\\u" + (l + x))) == Ok(c, x)
  {
    var high: nat, low: nat :| UnitText(h, high) && UnitText(l, low) && Surrogates(high, low, c);
    UnitReads(h, high, "\\u" + (l + x));
    UnitReads(l, low, x);
    PairIsRead(h + ("\\u" + (l + x)), "\\u" + (l + x), l + x, x, high, low, c);
  }

  lemma {:induction false} PairIsRead(s: string, r: string, q: string, x: string, high: nat, low: nat, c: char)
    requires ParseHex4(s) == Ok(high, r) && r == "\\u" + q && ParseHex4(q) == Ok(low, x) && Surrogates(high, low, c)
    ensures ParseUnicodeEscape(s) == Ok(c, x)
  {
    assert r[2..] == q;
  }

  lemma {:induction false} EscapeOfUnicode(s: string)
    ensures ParseEscape("u" + s) == ParseUnicodeEscape(s)
    ensures ("\\u" + s)[0] == '\\' && ("\\u" + s)[1..] == "u" + s
  {
    assert ("u" + s)[1..] == s;
  }

  lemma {:induction false} StringOfEscape(s: string, c: char, x: string)
    requires s != [] && s[0] == '\\' && ParseEscape(s[1..]) == Ok(c, x)
    ensures ParseString(s) == Prepend(c, ParseString(x))
  {
  }

  lemma {:induction false} CharReads(p: string, c: char, x: string)
    requires CharText(p, c)
    ensures ParseString(p + x) == Prepend(c, ParseString(x))
  {
    if p == [c] && c as int >= 0x20 && c != '"' && c != '\\' {
      assert (p + x)[1..] == x;
    } else if |p| == 2 && p[0] == '\\' && ShortEscape(p[1], c) {
      ShortReads(p, c, x);
    } else if UnitEscape(p, c) {
      var h :| p == "\\u" + h && UnitText(h, c as int);
      UnitReadsIn(p, h, c, x);
    } else {
      var h, l :| p == "\\u" + h + ("\\u" + l) && PairText(h, l, c);
      PairReads(p, h, l, c, x);
    }
  }

  lemma {:induction false} UnicodeReadsIn(s: string, rest: string, c: char, x: string)
    requires s == "\\u" + rest && ParseUnicodeEscape(rest) == Ok(c, x)
    ensures ParseString(s) == Prepend(c, ParseString(x))
  {
    EscapeOfUnicode(rest);
    StringOfEscape(s, c, x);
  }

  lemma {:induction false} UnitReadsIn(p: string, h: string, c: char, x: string)
    requires p == "\\u" + h && UnitText(h, c as int)
    ensures ParseString(p + x) == Prepend(c, ParseString(x))
  {
    UnitEscapeReads(h, c, x);
    Regroup("\\u", h, x);
    UnicodeReadsIn(p + x, h + x, c, x);
  }

  lemma {:induction false} ShortReads(p: string, c: char, x: string)
    requires |p| == 2 && p[0] == '\\' && ShortEscape(p[1], c)
    ensures ParseString(p + x) == Prepend(c, ParseString(x))
  {
    var s := p + x;
    assert s[1..] == [p[1]] + x && ([p[1]] + x)[1..] == x;
    StringOfEscape(s, c, x);
  }

  lemma {:induction false} PairReads(p: string, h: string, l: string, c: char, x: string)
    requires p == "\\u" + h + ("\\u" + l) && PairText(h, l, c)
    ensures ParseString(p + x) == Prepend(c, ParseString(x))
  {
    var rest := h + ("\\u" + (l + x));
    PairEscapeReads(h, l, c, x);
    FourTogether("\\u", h, "\\u", l, x);
    UnicodeReadsIn(p + x, rest, c, x);
  }

  lemma {:induction false} FourTogether(a: string, h: string, b: string, l: string, x: string)
    ensures a + h + (b + l) + x == a + (h + (b + (l + x)))
  {
  }

  lemma {:induction false} BodyReads(b: string, t: string, x: string)
    requires StringBody(b, t)
    ensures ParseString(b + ("\"" + x)) == Ok(t, x)
    decreases |t|
  {
    if t == "" {
      assert b + ("\"" + x) == "\"" + x && ("\"" + x)[1..] == x;
    } else {
      var p, q :| b == p + q && CharText(p, t[0]) && StringBody(q, t[1..]);
      BodyReads(q, t[1..], x);
      Regroup(p, q, "\"" + x);
      CharReads(p, t[0], q + ("\"" + x));
      assert [t[0]] + t[1..] == t;
    }
  }

  lemma {:induction false} Regroup(a: string, b: string, c: string)
    ensures a + (b + c) == a + b + c
  {
  }

  lemma {:induction false} StringReads(s: string, t: string, x: string)
    requires StringText(s, t)
    ensures ParseString(s[1..] + x) == Ok(t, x)
  {
    var b := s[1..|s| - 1];
    BodyReads(b, t, x);
    assert s[1..] + x == b + ("\"" + x);
  }

  lemma {:induction false} EscapeSound(s: string) returns (p: string)
    requires ParseEscape(s).Ok?
    ensures ['\\'] + s == p + ParseEscape(s).rest && CharText(p, ParseEscape(s).value)
  {
    assert s == [s[0]] + s[1..];
    if s[0] == 'u' {
      p := UnicodeSound(s[1..]);
      assert ['\\'] + s == "\\u" + s[1..];
    } else {
      p := ['\\', s[0]];
      ShortSound(s);
      assert ['\\'] + s == p + s[1..];
    }
  }

  lemma {:induction false} ShortSound(s: string)
    requires ParseEscape(s).Ok? && s[0] != 'u'
    ensures ParseEscape(s).rest == s[1..] && ShortEscape(s[0], ParseEscape(s).value)
  {
  }

  lemma {:induction false} UnicodeSound(s: string) returns (p: string)
    requires ParseUnicodeEscape(s).Ok?
    ensures "\\u" + s == p + ParseUnicodeEscape(s).rest && CharText(p, ParseUnicodeEscape(s).value)
  {
    var e, h := ParseUnicodeEscape(s), ParseHex4(s);
    UnitSound(s);
    if h.value < 0xD800 || 0xE000 <= h.value {
      p := "\\u" + s[..4];
      Regroup("\\u", s[..4], h.rest);
      assert UnitEscape(p, e.value);
    } else {
      p := PairFound(s, h.rest);
    }
  }

  lemma {:induction false} PairValue(s: string, r: string) returns (l: Parsed<nat>)
    requires ParseUnicodeEscape(s).Ok? && ParseHex4(s).Ok? && r == ParseHex4(s).rest
    requires 0xD800 <= ParseHex4(s).value < 0xE000
    ensures |r| > 2 && r == "\\u" + r[2..] && l == ParseHex4(r[2..]) && l.Ok?
    ensures ParseUnicodeEscape(s).rest == l.rest && Surrogates(ParseHex4(s).value, l.value, ParseUnicodeEscape(s).value)
  {
    l := ParseHex4(r[2..]);
  }

  lemma {:induction false} PairFound(s: string, r: string) returns (p: string)
    requires ParseUnicodeEscape(s).Ok? && ParseHex4(s).Ok? && r == ParseHex4(s).rest
    requires 0xD800 <= ParseHex4(s).value < 0xE000
    ensures "\\u" + s == p + ParseUnicodeEscape(s).rest && CharText(p, ParseUnicodeEscape(s).value)
  {
    var l := PairValue(s, r);
    UnitSound(s);
    UnitSound(r[2..]);
    var a, b := s[..4], r[2..][..4];
    assert PairText(a, b, ParseUnicodeEscape(s).value);
    p := "\\u" + a + ("\\u" + b);
    FourTogether("\\u", a, "\\u", b, l.rest);
  }

  /** Every character beyond the basic plane has its one pair of surrogates. */
  lemma {:induction false} SurrogatesOf(c: char, high: nat, low: nat)
    requires c as int >= 0x10000
    ensures Surrogates(high, low, c) <==>
      high == 0xD800 + (c as int - 0x10000) / 0x400 && low == 0xDC00 + (c as int - 0x10000) % 0x400
  {
  }

  lemma {:induction false} StringSound(s: string) returns (b: string)
    requires ParseString(s).Ok?
    ensures s == b + ("\"" + ParseString(s).rest) && StringBody(b, ParseString(s).value)
    decreases |s|
  {
    var r := ParseString(s);
    if s[0] == '"' {
      b := [];
    } else {
      var p, next := [s[0]], s[1..];
      if s[0] == '\\' {
        p := EscapeSound(s[1..]);
        next := ParseEscape(s[1..]).rest;
      }
      assert s == p + next;
      var q := StringSound(next);
      b := p + q;
      Regroup(p, q, "\"" + r.rest);
      assert r.value[1..] == ParseString(next).value;
    }
  }

  // ------------------------------------------------------- what the grammar allows is read

  /** The members as the reader collects them. */
  function Collected(members: seq<(string, Value)>): map<string, Value> {
    if members == [] then map[] else map[members[0].0 := members[0].1] + Collected(members[1..])
  }

  lemma {:induction false} CollectedNames(members: seq<(string, Value)>, k: string)
    ensures k in Collected(members) <==> exists i :: 0 <= i < |members| && members[i].0 == k
  {
    if members != [] {
      CollectedNames(members[1..], k);
      if i :| 0 <= i < |members[1..]| && members[1..][i].0 == k {
        assert members[i + 1].0 == k;
      }
      if i :| 0 < i < |members| && members[i].0 == k {
        assert members[1..][i - 1].0 == k;
      }
    }
  }

  lemma {:induction false} CollectedValue(members: seq<(string, Value)>, i: nat)
    requires i < |members| && forall j | i < j < |members| :: members[j].0 != members[i].0
    ensures members[i].0 in Collected(members) && Collected(members)[members[i].0] == members[i].1
  {
    var rest := members[1..];
    if i == 0 {
      CollectedNames(rest, members[0].0);
    } else {
      forall j | i - 1 < j < |rest| ensures rest[j].0 != rest[i - 1].0 {
        assert rest[j] == members[j + 1];
      }
      CollectedValue(rest, i - 1);
    }
  }

  lemma {:induction false} CollectedLast(members: seq<(string, Value)>)
    ensures LastOfEach(Collected(members), members)
  {
    forall k ensures k in Collected(members) <==> exists i :: 0 <= i < |members| && members[i].0 == k {
      CollectedNames(members, k);
    }
    forall i | 0 <= i < |members| && (forall j | i < j < |members| :: members[j].0 != members[i].0)
      ensures members[i].0 in Collected(members) && Collected(members)[members[i].0] == members[i].1
    {
      CollectedValue(members, i);
    }
  }

  lemma {:induction false} LastPlace(members: seq<(string, Value)>, i: nat) returns (last: nat)
    requires i < |members|
    ensures i <= last < |members| && members[last].0 == members[i].0
    ensures forall j | last < j < |members| :: members[j].0 != members[last].0
    decreases |members| - i
  {
    if j :| i < j < |members| && members[j].0 == members[i].0 {
      last := LastPlace(members, j);
    } else {
      last := i;
    }
  }

  lemma {:induction false} LastIsUnique(a: map<string, Value>, b: map<string, Value>, members: seq<(string, Value)>)
    requires LastOfEach(a, members) && LastOfEach(b, members)
    ensures a == b
  {
    forall k | k in a ensures k in b && a[k] == b[k] {
      var i :| 0 <= i < |members| && members[i].0 == k;
      var last := LastPlace(members, i);
    }
    forall k | k in b ensures k in a {
      var i :| 0 <= i < |members| && members[i].0 == k;
    }
  }

  /** The text of a value, with anything after it that does not go on a number. */
  lemma {:induction false} ValueReads(t: string, v: Value, depth: nat, num: NumberReader, x: string)
    requires ValueText(t, v, depth, num) && (v.Number? ==> Delimits([], x))
    ensures ParseValue(t + x, depth, num) == Ok(v, x)
    decreases |t|, 1
  {
    match v
    case Null => WordReads(t, v, depth, num, x);
    case Bool(_) => WordReads(t, v, depth, num, x);
    case Number(text) => NumberReads(t, text, depth, num, x);
    case Str(u) => QuotedReads(t, u, depth, num, x);
    case Array(items) => ArrayReads(t, items, depth, num, x);
    case Object(fields) => ObjectReads(t, fields, depth, num, x);
  }

  lemma {:induction false} WordReads(t: string, v: Value, depth: nat, num: NumberReader, x: string)
    requires (v.Null? || v.Bool?) && ValueText(t, v, depth, num)
    ensures ParseValue(t + x, depth, num) == Ok(v, x)
  {
    var s := t + x;
    assert s[0] == t[0] && SkipSpace(s) == s && s[|t|..] == x && t <= s;
  }

  lemma {:induction false} NumberReads(t: string, text: string, depth: nat, num: NumberReader, x: string)
    requires NumeralText(t) && num(t) == Some(text) && Delimits([], x)
    ensures ParseValue(t + x, depth, num) == Ok(Number(text), x)
  {
    NumeralReads(t, x);
    NumberIsRead(t + x, t, text, num, x);
    assert (t + x)[0] == t[0];
    NumberAsValue(t + x, text, depth, num, x);
  }

  lemma {:induction false} NumberAsValue(s: string, text: string, depth: nat, num: NumberReader, x: string)
    requires s != [] && StartsNumeral(s[0]) && ParseNumber(s, num) == Ok(text, x)
    ensures ParseValue(s, depth, num) == Ok(Number(text), x)
  {
  }

  lemma {:induction false} NumberIsRead(s: string, t: string, text: string, num: NumberReader, x: string)
    requires s == t + x && NumeralEnd(s) == Some(|t|) && num(t) == Some(text)
    ensures ParseNumber(s, num) == Ok(text, x)
  {
    assert s[..|t|] == t && s[|t|..] == x;
  }

  lemma {:induction false} QuotedReads(t: string, u: string, depth: nat, num: NumberReader, x: string)
    requires StringText(t, u)
    ensures ParseValue(t + x, depth, num) == Ok(Str(u), x)
  {
    StringReads(t, u, x);
    assert (t + x)[0] == '"' && (t + x)[1..] == t[1..] + x && SkipSpace(t + x) == t + x;
  }

  lemma {:induction false} PaddedReads(s: string, v: Value, depth: nat, num: NumberReader, x: string) returns (r: string)
    requires Padded(s, v, depth, num) && (v.Number? ==> Delimits([], x))
    ensures ParseValue(s + x, depth, num) == Ok(v, r) && SkipSpace(r) == SkipSpace(x)
    decreases |s|, 2
  {
    var w, t, b :| s == w + t + b && IsBlank(w) && ValueText(t, v, depth, num) && IsBlank(b);
    r := b + x;
    ValueReads(t, v, depth, num, r);
    SkipBlank(b, x);
    SkipBlank(w, t + r);
    ThreeAndRest(w, t, b, x);
    ParsesSkipped(s + x, t + r, depth, num);
  }

  lemma {:induction false} ThreeAndRest(a: string, b: string, c: string, x: string)
    ensures a + b + c + x == a + (b + (c + x))
  {
  }

  /** The first element is read, and the list goes on after it. */
  ghost predicate ListReads(s: string, items: seq<Value>, depth: nat, num: NumberReader, x: string)
    requires items != []
  {
    var p := SkipSpace(s + ("]" + x));
    var v := ParseValue(p, depth, num);
    p != [] && v.Ok? && v.value == items[0] && ParseElements(v.rest, depth, num, false) == Ok(items[1..], x)
  }

  lemma {:induction false} ElementsRead(s: string, items: seq<Value>, depth: nat, num: NumberReader, x: string)
    requires ElementsText(s, items, depth, num)
    ensures ListReads(s, items, depth, num, x)
    decreases |s|, 3
  {
    if |items| == 1 {
      var r := PaddedReads(s, items[0], depth, num, "]" + x);
      LastElement(s, items, depth, num, x, r);
    } else {
      var a, b :| s == a + "," + b && Padded(a, items[0], depth, num) && ElementsText(b, items[1..], depth, num);
      ElementsRead(b, items[1..], depth, num, x);
      var r := PaddedReads(a, items[0], depth, num, "," + (b + ("]" + x)));
      ThreeAndRest(a, ",", b, "]" + x);
      MoreElements(s, b, items, depth, num, x, r);
    }
  }

  lemma {:induction false} SkipTwice(s: string)
    ensures SkipSpace(SkipSpace(s)) == SkipSpace(s)
  {
  }

  lemma {:induction false} NothingThere(s: string, depth: nat, num: NumberReader)
    requires SkipSpace(s) == [] || SkipSpace(s)[0] in {']', '}', ','}
    ensures ParseValue(s, depth, num).Err?
  {
  }

  lemma {:induction false} LastElement(s: string, items: seq<Value>, depth: nat, num: NumberReader, x: string, r: string)
    requires |items| == 1
    requires ParseValue(s + ("]" + x), depth, num) == Ok(items[0], r) && SkipSpace(r) == SkipSpace("]" + x)
    ensures ListReads(s, items, depth, num, x)
  {
    SkipTwice(s + ("]" + x));
    ParsesSkipped(SkipSpace(s + ("]" + x)), s + ("]" + x), depth, num);
    assert SkipSpace("]" + x) == "]" + x && items[1..] == [];
    Closes(r, x, ']');
    if SkipSpace(s + ("]" + x)) == [] {
      NothingThere(s + ("]" + x), depth, num);
    }
  }

  lemma {:induction false} MoreElements(s: string, b: string, items: seq<Value>, depth: nat, num: NumberReader, x: string, r: string)
    requires |items| > 1 && ListReads(b, items[1..], depth, num, x)
    requires ParseValue(s + ("]" + x), depth, num) == Ok(items[0], r)
    requires SkipSpace(r) == SkipSpace("," + (b + ("]" + x)))
    ensures ListReads(s, items, depth, num, x)
  {
    var next := b + ("]" + x);
    SkipTwice(s + ("]" + x));
    ParsesSkipped(SkipSpace(s + ("]" + x)), s + ("]" + x), depth, num);
    if SkipSpace(s + ("]" + x)) == [] {
      NothingThere(s + ("]" + x), depth, num);
    }
    assert SkipSpace("," + next) == "," + next && ("," + next)[1..] == next;
    var p := SkipSpace(next);
    if p[0] == ']' {
      NothingThere(p, depth, num);
    }
    CommaLeads(r, next, ']');
    assert items[1..] == [items[1]] + items[1..][1..];
  }

  lemma {:induction false} Closes(r: string, x: string, close: char)
    requires SkipSpace(r) == [close] + x
    ensures Separator(r, close, false) == Ok(true, x)
  {
    assert ([close] + x)[1..] == x;
  }

  lemma {:induction false} CommaLeads(r: string, next: string, close: char)
    requires SkipSpace(r) == "," + next && close != ','
    requires SkipSpace(next) != [] && SkipSpace(next)[0] != close
    ensures Separator(r, close, false) == Ok(false, SkipSpace(next))
  {
    assert ("," + next)[1..] == next;
  }

  lemma {:induction false} ArrayReads(t: string, items: seq<Value>, depth: nat, num: NumberReader, x: string)
    requires ValueText(t, Array(items), depth, num)
    ensures ParseValue(t + x, depth, num) == Ok(Array(items), x)
    decreases |t|, 0
  {
    var body := t[1..|t| - 1];
    if items != [] {
      ElementsRead(body, items, depth - 1, num, x);
      FirstElement(body, items, depth - 1, num, x);
    } else {
      EmptyList(body, x, ']');
    }
    ListIsRead(t, body, items, depth, num, x);
  }

  lemma {:induction false} ListIsRead(t: string, body: string, items: seq<Value>, depth: nat, num: NumberReader, x: string)
    requires depth > 1 && |t| >= 2 && t[0] == '[' && t[|t| - 1] == ']' && body == t[1..|t| - 1]
    requires ParseElements(body + ("]" + x), depth - 1, num, true) == Ok(items, x)
    ensures ParseValue(t + x, depth, num) == Ok(Array(items), x)
  {
    var s := t + x;
    assert s[0] == '[' && SkipSpace(s) == s && s[1..] == body + ("]" + x);
  }

  lemma {:induction false} FirstElement(body: string, items: seq<Value>, depth: nat, num: NumberReader, x: string)
    requires items != [] && ListReads(body, items, depth, num, x)
    ensures ParseElements(body + ("]" + x), depth, num, true) == Ok(items, x)
  {
    var p := SkipSpace(body + ("]" + x));
    if p[0] == ']' {
      NothingThere(p, depth, num);
    }
    assert items == [items[0]] + items[1..];
  }

  lemma {:induction false} EmptyList(body: string, x: string, close: char)
    requires IsBlank(body) && !IsJsonSpace(close)
    ensures Separator(body + ([close] + x), close, true) == Ok(true, x)
  {
    SkipBlank(body, [close] + x);
    assert ([close] + x)[1..] == x;
  }

  // objects

  ghost predicate TableReads(s: string, members: seq<(string, Value)>, depth: nat, num: NumberReader, x: string)
    requires members != []
  {
    var p := SkipSpace(s + ("}" + x));
    var k := ParseKey(p);
    && p != [] && k.Ok? && k.value == members[0].0
    && var v := ParseValue(k.rest, depth, num);
       v.Ok? && v.value == members[0].1 && ParseMembers(v.rest, depth, num, false) == Ok(Collected(members[1..]), x)
  }

  lemma {:induction false} KeyReads(a: string, key: string, b: string)
    requires PaddedString(a, key)
    ensures ParseKey(SkipSpace(a + (":" + b))) == Ok(key, b) && SkipSpace(a + (":" + b)) != []
  {
    var w, k, x :| a == w + k + x && IsBlank(w) && StringText(k, key) && IsBlank(x);
    ThreeAndRest(w, k, x, ":" + b);
    var rest := x + (":" + b);
    SkipBlank(w, k + rest);
    SkipBlank(x, ":" + b);
    StringReads(k, key, rest);
    QuotedKey(k + rest, k, key, rest, b);
  }

  lemma {:induction false} QuotedKey(s: string, k: string, key: string, rest: string, b: string)
    requires s == k + rest && k != [] && k[0] == '"' && ParseString(k[1..] + rest) == Ok(key, rest)
    requires SkipSpace(rest) == SkipSpace(":" + b)
    ensures SkipSpace(s) == s && ParseKey(s) == Ok(key, b)
  {
    assert s[0] == '"' && s[1..] == k[1..] + rest;
    assert SkipSpace(":" + b) == ":" + b;
    KeyIsRead(s, key, rest, b);
  }

  lemma {:induction false} KeyIsRead(s: string, key: string, rest: string, b: string)
    requires s != [] && s[0] == '"' && ParseString(s[1..]) == Ok(key, rest) && SkipSpace(rest) == ":" + b
    ensures ParseKey(s) == Ok(key, b)
  {
    assert (":" + b)[1..] == b;
  }

  lemma {:induction false} MemberReads(s: string, m: (string, Value), depth: nat, num: NumberReader, x: string) returns (r: string)
    requires MemberText(s, m, depth, num) && (m.1.Number? ==> Delimits([], x))
    ensures var k := ParseKey(SkipSpace(s + x));
      && SkipSpace(s + x) != [] && k.Ok? && k.value == m.0 && ParseValue(k.rest, depth, num) == Ok(m.1, r)
    ensures SkipSpace(r) == SkipSpace(x)
    decreases |s|, 3
  {
    var a, b :| s == a + ":" + b && PaddedString(a, m.0) && Padded(b, m.1, depth, num);
    r := PaddedReads(b, m.1, depth, num, x);
    ThreeAndRest(a, ":", b, x);
    KeyReads(a, m.0, b + x);
  }

  lemma {:induction false} MembersRead(s: string, members: seq<(string, Value)>, depth: nat, num: NumberReader, x: string)
    requires MembersText(s, members, depth, num)
    ensures TableReads(s, members, depth, num, x)
    decreases |s|, 4
  {
    if |members| == 1 {
      var r := MemberReads(s, members[0], depth, num, "}" + x);
      assert SkipSpace("}" + x) == "}" + x && members[1..] == [];
      Closes(r, x, '}');
    } else {
      var a, b :| s == a + "," + b && MemberText(a, members[0], depth, num) && MembersText(b, members[1..], depth, num);
      MembersRead(b, members[1..], depth, num, x);
      var r := MemberReads(a, members[0], depth, num, "," + (b + ("}" + x)));
      ThreeAndRest(a, ",", b, "}" + x);
      MoreMembers(b, members, depth, num, x, r);
    }
  }

  lemma {:induction false} MoreMembers(b: string, members: seq<(string, Value)>, depth: nat, num: NumberReader, x: string, r: string)
    requires |members| > 1 && TableReads(b, members[1..], depth, num, x)
    requires SkipSpace(r) == SkipSpace("," + (b + ("}" + x)))
    ensures ParseMembers(r, depth, num, false) == Ok(Collected(members[1..]), x)
  {
    var next := b + ("}" + x);
    assert SkipSpace("," + next) == "," + next;
    var p := SkipSpace(next);
    assert p[0] == '"';
    CommaLeads(r, next, '}');
    SkipTwice(next);
  }

  lemma {:induction false} ObjectReads(t: string, fields: map<string, Value>, depth: nat, num: NumberReader, x: string)
    requires ValueText(t, Object(fields), depth, num)
    ensures ParseValue(t + x, depth, num) == Ok(Object(fields), x)
    decreases |t|, 0
  {
    var body := t[1..|t| - 1];
    if fields != map[] {
      var members :| MembersText(body, members, depth - 1, num) && LastOfEach(fields, members);
      MembersRead(body, members, depth - 1, num, x);
      CollectedLast(members);
      LastIsUnique(fields, Collected(members), members);
      FirstMember(body, members, depth - 1, num, x);
    } else {
      EmptyList(body, x, '}');
    }
    TableIsRead(t, body, fields, depth, num, x);
  }

  lemma {:induction false} FirstMember(body: string, members: seq<(string, Value)>, depth: nat, num: NumberReader, x: string)
    requires members != [] && TableReads(body, members, depth, num, x)
    ensures ParseMembers(body + ("}" + x), depth, num, true) == Ok(Collected(members), x)
  {
    var p := SkipSpace(body + ("}" + x));
    assert p[0] == '"';
  }

  lemma {:induction false} TableIsRead(t: string, body: string, fields: map<string, Value>, depth: nat, num: NumberReader, x: string)
    requires depth > 1 && |t| >= 2 && t[0] == '{' && t[|t| - 1] == '}' && body == t[1..|t| - 1]
    requires ParseMembers(body + ("}" + x), depth - 1, num, true) == Ok(fields, x)
    ensures ParseValue(t + x, depth, num) == Ok(Object(fields), x)
  {
    var s := t + x;
    assert s[0] == '{' && SkipSpace(s) == s && s[1..] == body + ("}" + x);
  }

  // ----------------------------------------------------- what is read follows the grammar

  lemma {:induction false} Blanks(a: string, b: string)
    requires IsBlank(a) && IsBlank(b)
    ensures IsBlank(a + b)
  {
  }

  lemma {:induction false} FourAndRest(a: string, b: string, c: string, d: string, y: string)
    ensures a + (b + (c + (d + y))) == (a + b + c + d) + y
  {
  }

  /** A value's text, found behind the space before it. */
  lemma {:induction false} ValueSound(s0: string, depth: nat, num: NumberReader) returns (w: string, t: string)
    requires ParseValue(s0, depth, num).Ok?
    ensures s0 == w + (t + ParseValue(s0, depth, num).rest) && IsBlank(w)
    ensures ValueText(t, ParseValue(s0, depth, num).value, depth, num)
    decreases |s0|, 1
  {
    w := Skipped(s0);
    var s, r := SkipSpace(s0), ParseValue(s0, depth, num);
    if s[0] == '[' {
      t := ArrayFound(s, s0, depth, num);
    } else if s[0] == '{' {
      t := ObjectFound(s, s0, depth, num);
    } else {
      t := ScalarSound(s, s0, depth, num);
    }
  }

  lemma {:induction false} ArrayFound(s: string, s0: string, depth: nat, num: NumberReader) returns (t: string)
    requires s == SkipSpace(s0) && s != [] && s[0] == '[' && ParseValue(s0, depth, num).Ok?
    ensures s == t + ParseValue(s0, depth, num).rest && ValueText(t, ParseValue(s0, depth, num).value, depth, num)
    decreases |s0|, 0
  {
    var body := ElementsSound(s[1..], depth - 1, num);
    t := Bracketed('[', body, ']', s, ParseValue(s0, depth, num).rest);
  }

  lemma {:induction false} ObjectFound(s: string, s0: string, depth: nat, num: NumberReader) returns (t: string)
    requires s == SkipSpace(s0) && s != [] && s[0] == '{' && ParseValue(s0, depth, num).Ok?
    ensures s == t + ParseValue(s0, depth, num).rest && ValueText(t, ParseValue(s0, depth, num).value, depth, num)
    decreases |s0|, 0
  {
    var body, members := MembersSound(s[1..], depth - 1, num);
    t := Bracketed('{', body, '}', s, ParseValue(s0, depth, num).rest);
    ObjectSound(t, body, members, ParseValue(s0, depth, num).value, depth, num);
  }

  lemma {:induction false} Bracketed(open: char, body: string, close: char, s: string, rest: string) returns (t: string)
    requires s != [] && s[0] == open && s[1..] == body + ([close] + rest)
    ensures s == t + rest && |t| >= 2 && t[0] == open && t[|t| - 1] == close && t[1..|t| - 1] == body
  {
    t := [open] + body + [close];
    assert s == [open] + s[1..];
  }

  lemma {:induction false} ObjectSound(t: string, body: string, members: seq<(string, Value)>, v: Value, depth: nat, num: NumberReader)
    requires depth > 1 && |t| >= 2 && t[0] == '{' && t[|t| - 1] == '}' && t[1..|t| - 1] == body
    requires if members == [] then IsBlank(body) else MembersText(body, members, depth - 1, num)
    requires v == Object(Collected(members))
    ensures ValueText(t, v, depth, num)
  {
    CollectedLast(members);
    if members != [] {
      assert members[0].0 in Collected(members);
    }
  }

  lemma {:induction false} ScalarSound(s: string, s0: string, depth: nat, num: NumberReader) returns (t: string)
    requires s == SkipSpace(s0) && ParseValue(s0, depth, num).Ok? && s[0] != '[' && s[0] != '{'
    ensures s == t + ParseValue(s0, depth, num).rest
    ensures ValueText(t, ParseValue(s0, depth, num).value, depth, num)
  {
    var r := ParseValue(s0, depth, num);
    if s[0] == '"' {
      var b := StringSound(s[1..]);
      t := Bracketed('"', b, '"', s, r.rest);
    } else if StartsNumeral(s[0]) {
      NumeralSound(s);
      t := s[..NumeralEnd(s).value];
    } else {
      t := if s[0] == 'n' then "null" else if s[0] == 't' then "true" else "false";
      WordSound(s, t, r.value);
    }
  }

  lemma {:induction false} WordSound(s: string, word: string, v: Value)
    requires ParseWord(s, word, v).Ok?
    ensures s == word + ParseWord(s, word, v).rest
  {
  }

  lemma {:induction false} ElementsSound(s: string, depth: nat, num: NumberReader) returns (body: string)
    requires ParseElements(s, depth, num, true).Ok?
    ensures var r := ParseElements(s, depth, num, true);
      && s == body + ("]" + r.rest)
      && if r.value == [] then IsBlank(body) else ElementsText(body, r.value, depth, num)
    decreases |s|, 4
  {
    var q := SkipSpace(s);
    if q[0] == ']' {
      body := Skipped(s);
      assert q == "]" + q[1..];
    } else {
      body := ListSound(s, depth, num);
    }
  }

  /** One value and what follows it up to the closing bracket. */
  lemma {:induction false} ListSound(s: string, depth: nat, num: NumberReader) returns (body: string)
    requires var v := ParseValue(SkipSpace(s), depth, num); v.Ok? && ParseElements(v.rest, depth, num, false).Ok?
    ensures var v := ParseValue(SkipSpace(s), depth, num);
      var more := ParseElements(v.rest, depth, num, false);
      s == body + ("]" + more.rest) && ElementsText(body, [v.value] + more.value, depth, num)
    decreases |s|, 3
  {
    var w0 := Skipped(s);
    var q := SkipSpace(s);
    var v := ParseValue(q, depth, num);
    var w, t := ValueSound(q, depth, num);
    var x, tail := TailSound(v.rest, depth, num);
    var more := ParseElements(v.rest, depth, num, false);
    var a := w0 + w + t + x;
    Blanks(w0, w);
    assert Padded(a, v.value, depth, num);
    if more.value == [] {
      body := a;
      FourAndRest(w0, w, t, x, "]" + more.rest);
    } else {
      body := a + "," + tail;
      FourAndRest(w0, w, t, x, "," + (tail + ("]" + more.rest)));
      ThreeTogether(a, ",", tail, "]" + more.rest);
      ConsElements(body, a, tail, v.value, more.value, depth, num);
    }
  }

  lemma {:induction false} ThreeTogether(a: string, b: string, c: string, x: string)
    ensures a + (b + (c + x)) == a + b + c + x
  {
  }

  lemma {:induction false} ConsElements(body: string, a: string, b: string, v: Value, items: seq<Value>, depth: nat, num: NumberReader)
    requires body == a + "," + b && Padded(a, v, depth, num) && ElementsText(b, items, depth, num)
    ensures ElementsText(body, [v] + items, depth, num)
  {
    assert ([v] + items)[1..] == items;
  }

  /** After an element: space, then the end or a comma and more. */
  lemma {:induction false} TailSound(s: string, depth: nat, num: NumberReader) returns (x: string, more: string)
    requires ParseElements(s, depth, num, false).Ok?
    ensures var r := ParseElements(s, depth, num, false);
      && IsBlank(x)
      && if r.value == [] then s == x + ("]" + r.rest)
         else s == x + ("," + (more + ("]" + r.rest))) && ElementsText(more, r.value, depth, num)
    decreases |s|, 2
  {
    var q := SkipSpace(s);
    x := Skipped(s);
    more := [];
    assert q == [q[0]] + q[1..];
    if q[0] != ']' {
      more := ListSound(q[1..], depth, num);
    }
  }

  lemma {:induction false} MembersSound(s: string, depth: nat, num: NumberReader)
    returns (body: string, members: seq<(string, Value)>)
    requires ParseMembers(s, depth, num, true).Ok?
    ensures var r := ParseMembers(s, depth, num, true);
      && s == body + ("}" + r.rest) && r.value == Collected(members)
      && if members == [] then IsBlank(body) else MembersText(body, members, depth, num)
    decreases |s|, 4
  {
    var q := SkipSpace(s);
    if q[0] == '}' {
      body := Skipped(s);
      members := [];
      assert q == "}" + q[1..];
    } else {
      body, members := TableSound(s, depth, num);
    }
  }

  /** A key's text: the quoted string, space, and the colon. */
  lemma {:induction false} KeySound(q: string) returns (k: string, x: string)
    requires ParseKey(q).Ok?
    ensures q == k + (x + (":" + ParseKey(q).rest)) && StringText(k, ParseKey(q).value) && IsBlank(x)
  {
    var r := ParseString(q[1..]);
    var b := StringSound(q[1..]);
    k := Bracketed('"', b, '"', q, r.rest);
    x := Skipped(r.rest);
    var c := SkipSpace(r.rest);
    assert c == ":" + c[1..];
  }

  /** One member; `x` is the space after it. */
  lemma {:induction false} MemberSound(s: string, depth: nat, num: NumberReader, x: string, after: string) returns (m: string)
    requires var k := ParseKey(SkipSpace(s)); k.Ok? && ParseValue(k.rest, depth, num).Ok?
    requires IsBlank(x) && ParseValue(ParseKey(SkipSpace(s)).rest, depth, num).rest == x + after
    ensures var k := ParseKey(SkipSpace(s));
      s == m + after && MemberText(m, (k.value, ParseValue(k.rest, depth, num).value), depth, num)
    decreases |s|, 2
  {
    var w0 := Skipped(s);
    var key := ParseKey(SkipSpace(s));
    var k, x0 := KeySound(SkipSpace(s));
    var w, t := ValueSound(key.rest, depth, num);
    var a, b := w0 + k + x0, w + t + x;
    assert PaddedString(a, key.value);
    assert Padded(b, ParseValue(key.rest, depth, num).value, depth, num);
    m := a + ":" + b;
    MemberTogether(w0, k, x0, w, t, x, after);
  }

  lemma {:induction false} TableSound(s: string, depth: nat, num: NumberReader)
    returns (body: string, members: seq<(string, Value)>)
    requires var k := ParseKey(SkipSpace(s));
      k.Ok? && var v := ParseValue(k.rest, depth, num); v.Ok? && ParseMembers(v.rest, depth, num, false).Ok?
    ensures var k := ParseKey(SkipSpace(s));
      var v := ParseValue(k.rest, depth, num);
      var more := ParseMembers(v.rest, depth, num, false);
      && s == body + ("}" + more.rest) && MembersText(body, members, depth, num)
      && Collected(members) == map[k.value := v.value] + more.value
    decreases |s|, 3
  {
    var key := ParseKey(SkipSpace(s));
    var v := ParseValue(key.rest, depth, num);
    var x, tail, rest := TableTail(v.rest, depth, num);
    var end := "}" + ParseMembers(v.rest, depth, num, false).rest;
    var after := if rest == [] then end else "," + (tail + end);
    var m := MemberSound(s, depth, num, x, after);
    members := [(key.value, v.value)] + rest;
    assert members[1..] == rest;
    if rest == [] {
      body := m;
    } else {
      body := m + "," + tail;
      ThreeTogether(m, ",", tail, end);
      ConsMembers(body, m, tail, members, depth, num);
    }
  }

  lemma {:induction false} ConsMembers(body: string, a: string, b: string, members: seq<(string, Value)>, depth: nat, num: NumberReader)
    requires |members| > 1 && body == a + "," + b
    requires MemberText(a, members[0], depth, num) && MembersText(b, members[1..], depth, num)
    ensures MembersText(body, members, depth, num)
  {
  }

  lemma {:induction false} MemberTogether(w0: string, k: string, x0: string, w: string, t: string, x: string, after: string)
    ensures w0 + (k + (x0 + (":" + (w + (t + (x + after)))))) == (w0 + k + x0) + ":" + (w + t + x) + after
  {
    ThreeTogether(w, t, x, after);
    ThreeTogether(w0, k, x0, ":" + ((w + t + x) + after));
    ThreeTogether(w0 + k + x0, ":", w + t + x, after);
  }

  lemma {:induction false} TableTail(s: string, depth: nat, num: NumberReader)
    returns (x: string, more: string, rest: seq<(string, Value)>)
    requires ParseMembers(s, depth, num, false).Ok?
    ensures var r := ParseMembers(s, depth, num, false);
      && IsBlank(x) && r.value == Collected(rest)
      && if rest == [] then s == x + ("}" + r.rest)
         else s == x + ("," + (more + ("}" + r.rest))) && MembersText(more, rest, depth, num)
    decreases |s|, 2
  {
    var q := SkipSpace(s);
    x := Skipped(s);
    more, rest := [], [];
    assert q == [q[0]] + q[1..];
    if q[0] != '}' {
      more, rest := TableSound(q[1..], depth, num);
    }
  }

  lemma {:induction false} GrammarIsRead(s: string, v: Value, num: NumberReader)
    requires Padded(s, v, RECURSION_LIMIT, num)
    ensures FromStr(s, num) == Some(v)
  {
    var rest := PaddedReads(s, v, RECURSION_LIMIT, num, []);
    assert s + [] == s;
  }

  lemma {:induction false} ReadIsGrammar(s: string, num: NumberReader)
    requires FromStr(s, num).Some?
    ensures Padded(s, FromStr(s, num).value, RECURSION_LIMIT, num)
  {
    var rest := ParseValue(s, RECURSION_LIMIT, num).rest;
    var w, t := ValueSound(s, RECURSION_LIMIT, num);
    SkippedAll(rest);
    PaddedBy(s, w, t, rest, FromStr(s, num).value, RECURSION_LIMIT, num);
  }

  lemma {:induction false} PaddedBy(s: string, w: string, t: string, x: string, v: Value, depth: nat, num: NumberReader)
    requires s == w + (t + x) && IsBlank(w) && IsBlank(x) && ValueText(t, v, depth, num)
    ensures Padded(s, v, depth, num)
  {
    assert s == w + t + x;
  }

  /** The reader accepts exactly the texts of the grammar, and gives exactly the
      value the grammar gives them. */
  lemma {:induction false} ReadsTheGrammar(s: string, v: Value, num: NumberReader)
    ensures FromStr(s, num) == Some(v) <==> Padded(s, v, RECURSION_LIMIT, num)
  {
    if Padded(s, v, RECURSION_LIMIT, num) {
      GrammarIsRead(s, v, num);
    }
    if FromStr(s, num) == Some(v) {
      ReadIsGrammar(s, num);
    }
  }
}
