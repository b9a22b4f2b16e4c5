/** JSON values and the reader the harness uses for them (`serde_json::from_str`).

    Text is a sequence of Unicode scalar values.  A number is kept as the text
    the harness prints for it; how a numeral is rounded, and whether it is in
    range at all, is decided by an oracle `num` that every statement quantifies
    over.
 */
module Json {
  datatype Option<+T> = None | Some(value: T)

  datatype Value =
    | Null
    | Bool(b: bool)
    | Number(text: string)
    | Str(s: string)
    | Array(items: seq<Value>)
    | Object(fields: map<string, Value>)

  /** Result of reading a prefix of a text: the value and the unread rest. */
  datatype Parsed<+T> = Ok(value: T, rest: string) | Err

  /** Reads the text of a numeral; None when the number is out of range. */
  type NumberReader = string -> Option<string>

  /** Containers may nest 127 deep: the reader starts with 128 and refuses at 0. */
  const RECURSION_LIMIT: nat := 128

  predicate IsJsonSpace(c: char) {
    c == ' ' || c == '\n' || c == '\t' || c == '\r'
  }

  predicate AllJsonSpace(s: string) {
    forall i | 0 <= i < |s| :: IsJsonSpace(s[i])
  }

  function SkipSpace(s: string): (r: string)
    ensures |r| <= |s|
    ensures r == [] || !IsJsonSpace(r[0])
  {
    if s == [] || !IsJsonSpace(s[0]) then s else SkipSpace(s[1..])
  }

  // ------------------------------------------------------------------ numbers

  predicate IsDigit(c: char) { '0' <= c <= '9' }

  /** The number of leading digits. */
  function Digits(s: string): (n: nat)
    ensures n <= |s|
    ensures n < |s| ==> !IsDigit(s[n])
    ensures forall i | 0 <= i < n :: IsDigit(s[i])
  {
    if s == [] || !IsDigit(s[0]) then 0 else 1 + Digits(s[1..])
  }

  /** Where the integer part ends: no leading zero before another digit. */
  function IntegerEnd(s: string, i: nat): (r: Option<nat>)
    requires i <= |s|
    ensures r.Some? ==> i < r.value <= |s|
  {
    if i == |s| || !IsDigit(s[i]) then None
    else if s[i] == '0' then
      if i + 1 < |s| && IsDigit(s[i + 1]) then None else Some(i + 1)
    else Some(i + Digits(s[i..]))
  }

  function FractionEnd(s: string, i: nat): (r: Option<nat>)
    requires i <= |s|
    ensures r.Some? ==> i <= r.value <= |s|
  {
    if i == |s| || s[i] != '.' then Some(i)
    else
      var d := Digits(s[i + 1..]);
      if d == 0 then None else Some(i + 1 + d)
  }

  function ExponentEnd(s: string, i: nat): (r: Option<nat>)
    requires i <= |s|
    ensures r.Some? ==> i <= r.value <= |s|
  {
    if i == |s| || (s[i] != 'e' && s[i] != 'E') then Some(i)
    else
      var j := if i + 1 < |s| && (s[i + 1] == '+' || s[i + 1] == '-') then i + 2 else i + 1;
      var d := Digits(s[j..]);
      if d == 0 then None else Some(j + d)
  }

  /** The length of the longest numeral at the start of the text, None if malformed. */
  function NumeralEnd(s: string): (r: Option<nat>)
    ensures r.Some? ==> 0 < r.value <= |s|
  {
    var i0 := if s != [] && s[0] == '-' then 1 else 0;
    var i1 := IntegerEnd(s, i0);
    if i1.None? then None else
    var i2 := FractionEnd(s, i1.value);
    if i2.None? then None else ExponentEnd(s, i2.value)
  }

  /** A whole text that is one numeral of section 6 of RFC 8259. */
  predicate IsNumeral(s: string) { NumeralEnd(s) == Some(|s|) }

  predicate StartsNumeral(c: char) { c == '-' || IsDigit(c) }

  /** A character that could make a numeral longer. */
  predicate ContinuesNumeral(c: char) { IsDigit(c) || c == '.' || c == 'e' || c == 'E' }

  function ParseNumber(s: string, num: NumberReader): (r: Parsed<string>)
    ensures r.Ok? ==> |r.rest| < |s|
  {
    var n := NumeralEnd(s);
    if n.None? then Err else
    var t := num(s[..n.value]);
    if t.None? then Err else Ok(t.value, s[n.value..])
  }

  // ------------------------------------------------------------------ strings

  function HexDigit(c: char): Option<nat> {
    if '0' <= c <= '9' then Some(c as int - '0' as int)
    else if 'a' <= c <= 'f' then Some(c as int - 'a' as int + 10)
    else if 'A' <= c <= 'F' then Some(c as int - 'A' as int + 10)
    else None
  }

  function ParseHex4(s: string): (r: Parsed<nat>)
    ensures r.Ok? ==> |r.rest| + 4 == |s| && r.value < 0x10000
  {
    if |s| < 4 then Err else
    var (a, b, c, d) := (HexDigit(s[0]), HexDigit(s[1]), HexDigit(s[2]), HexDigit(s[3]));
    if a.None? || b.None? || c.None? || d.None? then Err
    else Ok(((a.value * 16 + b.value) * 16 + c.value) * 16 + d.value, s[4..])
  }

  /** After a backslash and 'u': one code unit, or a surrogate pair.  A lone
      surrogate is an error. */
  function ParseUnicodeEscape(s: string): (r: Parsed<char>)
    ensures r.Ok? ==> |r.rest| < |s|
  {
    var h := ParseHex4(s);
    if h.Err? || 0xDC00 <= h.value < 0xE000 then Err
    else if h.value < 0xD800 || 0xE000 <= h.value then Ok(h.value as char, h.rest)
    else if |h.rest| < 2 || h.rest[0] != '\\' || h.rest[1] != 'u' then Err
    else
      var l := ParseHex4(h.rest[2..]);
      if l.Err? || l.value < 0xDC00 || 0xE000 <= l.value then Err
      else Ok((0x10000 + (h.value - 0xD800) * 0x400 + (l.value - 0xDC00)) as char, l.rest)
  }

  /** After a backslash. */
  function ParseEscape(s: string): (r: Parsed<char>)
    ensures r.Ok? ==> |r.rest| < |s|
  {
    if s == [] then Err else
    match s[0]
    case '"' => Ok('"', s[1..])
    case '\\' => Ok('\\', s[1..])
    case '/' => Ok('/', s[1..])
    case 'b' => Ok(8 as char, s[1..])
    case 'f' => Ok(12 as char, s[1..])
    case 'n' => Ok('\n', s[1..])
    case 'r' => Ok('\r', s[1..])
    case 't' => Ok('\t', s[1..])
    case 'u' => ParseUnicodeEscape(s[1..])
    case _ => Err
  }

  /** After an opening quote: the characters up to the closing one. */
  function ParseString(s: string): (r: Parsed<string>)
    ensures r.Ok? ==> |r.rest| < |s|
    decreases |s|
  {
    if s == [] then Err
    else if s[0] == '"' then Ok([], s[1..])
    else if s[0] == '\\' then
      var e := ParseEscape(s[1..]);
      if e.Err? then Err else
      var tail := ParseString(e.rest);
      if tail.Err? then Err else Ok([e.value] + tail.value, tail.rest)
    else if s[0] as int < 0x20 then Err
    else
      var tail := ParseString(s[1..]);
      if tail.Err? then Err else Ok([s[0]] + tail.value, tail.rest)
  }

  // ------------------------------------------------------------------- values

  function ParseWord(s: string, word: string, v: Value): (r: Parsed<Value>)
    ensures r.Ok? ==> |r.rest| + |word| == |s|
  {
    if word <= s then Ok(v, s[|word|..]) else Err
  }

  /** Reads one value, leading space skipped; `depth` counts down to the
      recursion limit as containers are entered. */
  function ParseValue(s0: string, depth: nat, num: NumberReader): (r: Parsed<Value>)
    ensures r.Ok? ==> |r.rest| < |s0|
    decreases |s0|, 1
  {
    var s := SkipSpace(s0);
    if s == [] then Err
    else if s[0] == 'n' then ParseWord(s, "null", Null)
    else if s[0] == 't' then ParseWord(s, "true", Bool(true))
    else if s[0] == 'f' then ParseWord(s, "false", Bool(false))
    else if StartsNumeral(s[0]) then
      var n := ParseNumber(s, num);
      if n.Err? then Err else Ok(Number(n.value), n.rest)
    else if s[0] == '"' then
      var t := ParseString(s[1..]);
      if t.Err? then Err else Ok(Str(t.value), t.rest)
    else if s[0] == '[' then
      if depth <= 1 then Err else
      var a := ParseElements(s[1..], depth - 1, num, true);
      if a.Err? then Err else Ok(Array(a.value), a.rest)
    else if s[0] == '{' then
      if depth <= 1 then Err else
      var m := ParseMembers(s[1..], depth - 1, num, true);
      if m.Err? then Err else Ok(Object(m.value), m.rest)
    else Err
  }

  /** Before the first element (`first`) only a closing bracket may end the
      list; later a comma must lead to another element. */
  function Separator(s0: string, close: char, first: bool): (r: Parsed<bool>)
    ensures r.Ok? ==> |r.rest| <= |s0| && (r.value ==> |r.rest| < |s0|)
  {
    var s := SkipSpace(s0);
    if s == [] then Err
    else if s[0] == close then Ok(true, s[1..])
    else if first then Ok(false, s)
    else if s[0] == ',' then
      var t := SkipSpace(s[1..]);
      if t == [] || t[0] == close then Err else Ok(false, t)
    else Err
  }

  function ParseElements(s: string, depth: nat, num: NumberReader, first: bool): (r: Parsed<seq<Value>>)
    ensures r.Ok? ==> |r.rest| < |s|
    decreases |s|, 2
  {
    var p := Separator(s, ']', first);
    if p.Err? then Err
    else if p.value then Ok([], p.rest)
    else
      var v := ParseValue(p.rest, depth, num);
      if v.Err? then Err else
      var vs := ParseElements(v.rest, depth, num, false);
      if vs.Err? then Err else Ok([v.value] + vs.value, vs.rest)
  }

  /** A key that occurs twice keeps its last value. */
  function ParseMembers(s: string, depth: nat, num: NumberReader, first: bool): (r: Parsed<map<string, Value>>)
    ensures r.Ok? ==> |r.rest| < |s|
    decreases |s|, 2
  {
    var p := Separator(s, '}', first);
    if p.Err? then Err
    else if p.value then Ok(map[], p.rest)
    else
      var k := ParseKey(p.rest);
      if k.Err? then Err else
      var v := ParseValue(k.rest, depth, num);
      if v.Err? then Err else
      var ms := ParseMembers(v.rest, depth, num, false);
      if ms.Err? then Err else Ok(map[k.value := v.value] + ms.value, ms.rest)
  }

  /** A quoted key and its colon. */
  function ParseKey(s: string): (r: Parsed<string>)
    ensures r.Ok? ==> |r.rest| < |s|
  {
    if s == [] || s[0] != '"' then Err else
    var k := ParseString(s[1..]);
    if k.Err? then Err else
    var c := SkipSpace(k.rest);
    if c == [] || c[0] != ':' then Err else Ok(k.value, c[1..])
  }

  /** The whole text is one value with JSON space around it. */
  function FromStr(s: string, num: NumberReader): Option<Value> {
    var r := ParseValue(s, RECURSION_LIMIT, num);
    if r.Ok? && SkipSpace(r.rest) == [] then Some(r.value) else None
  }

  // --------------------------------------------------- reading is self-delimiting

  /** What follows a read value cannot change it, unless the value is a number
      that `x` would make longer. */
  predicate Delimits(rest: string, x: string) {
    rest != [] || x == [] || !ContinuesNumeral(x[0])
  }

  lemma {:induction false} SkipSpaceAppend(s: string, x: string)
    ensures SkipSpace(s) != [] ==> SkipSpace(s + x) == SkipSpace(s) + x
    ensures SkipSpace(s) == [] ==> SkipSpace(s + x) == SkipSpace(x)
  {
    if s == [] {
      assert s + x == x;
    } else if IsJsonSpace(s[0]) {
      assert (s + x)[1..] == s[1..] + x;
      SkipSpaceAppend(s[1..], x);
    }
  }

  lemma {:induction false} DigitsAppend(s: string, x: string)
    requires Digits(s) < |s| || x == [] || !IsDigit(x[0])
    ensures Digits(s + x) == Digits(s)
  {
    if s == [] {
      assert s + x == x;
    } else if IsDigit(s[0]) {
      assert (s + x)[1..] == s[1..] + x;
      DigitsAppend(s[1..], x);
    }
  }

  lemma {:induction false} IntegerAppend(s: string, i: nat, x: string)
    requires i <= |s| && IntegerEnd(s, i).Some? && Delimits(s[IntegerEnd(s, i).value..], x)
    ensures IntegerEnd(s + x, i) == IntegerEnd(s, i)
  {
    if s[i] != '0' {
      assert (s + x)[i..] == s[i..] + x;
      DigitsAppend(s[i..], x);
    }
  }

  lemma {:induction false} FractionAppend(s: string, i: nat, x: string)
    requires i <= |s| && FractionEnd(s, i).Some? && Delimits(s[FractionEnd(s, i).value..], x)
    ensures FractionEnd(s + x, i) == FractionEnd(s, i)
  {
    if i < |s| && s[i] == '.' {
      assert (s + x)[i + 1..] == s[i + 1..] + x;
      DigitsAppend(s[i + 1..], x);
    }
  }

  lemma {:induction false} ExponentAppend(s: string, i: nat, x: string)
    requires i <= |s| && ExponentEnd(s, i).Some? && Delimits(s[ExponentEnd(s, i).value..], x)
    ensures ExponentEnd(s + x, i) == ExponentEnd(s, i)
  {
    if i < |s| && (s[i] == 'e' || s[i] == 'E') {
      var j := if i + 1 < |s| && (s[i + 1] == '+' || s[i + 1] == '-') then i + 2 else i + 1;
      assert (s + x)[j..] == s[j..] + x;
      DigitsAppend(s[j..], x);
    }
  }

  lemma {:induction false} NumeralAppend(s: string, x: string)
    requires NumeralEnd(s).Some? && Delimits(s[NumeralEnd(s).value..], x)
    ensures NumeralEnd(s + x) == NumeralEnd(s)
  {
    var i0 := if s[0] == '-' then 1 else 0;
    var i1 := IntegerEnd(s, i0).value;
    var i2 := FractionEnd(s, i1).value;
    IntegerAppend(s, i0, x);
    FractionAppend(s, i1, x);
    ExponentAppend(s, i2, x);
  }

  lemma {:induction false} Hex4Append(s: string, x: string)
    requires ParseHex4(s).Ok?
    ensures ParseHex4(s + x) == Ok(ParseHex4(s).value, ParseHex4(s).rest + x)
  {
    assert (s + x)[4..] == s[4..] + x;
  }

  lemma {:induction false} EscapeAppend(s: string, x: string)
    requires ParseEscape(s).Ok?
    ensures ParseEscape(s + x) == Ok(ParseEscape(s).value, ParseEscape(s).rest + x)
  {
    assert (s + x)[1..] == s[1..] + x;
    if s[0] == 'u' {
      var h := ParseHex4(s[1..]);
      Hex4Append(s[1..], x);
      if 0xD800 <= h.value < 0xE000 {
        assert (h.rest + x)[2..] == h.rest[2..] + x;
        Hex4Append(h.rest[2..], x);
      }
    }
  }

  lemma {:induction false} StringAppend(s: string, x: string)
    requires ParseString(s).Ok?
    ensures ParseString(s + x) == Ok(ParseString(s).value, ParseString(s).rest + x)
    decreases |s|
  {
    assert (s + x)[1..] == s[1..] + x;
    if s[0] == '"' {
    } else if s[0] == '\\' {
      EscapeAppend(s[1..], x);
      StringAppend(ParseEscape(s[1..]).rest, x);
    } else {
      StringAppend(s[1..], x);
    }
  }

  lemma {:induction false} SeparatorAppend(s0: string, close: char, first: bool, x: string)
    requires Separator(s0, close, first).Ok?
    ensures Separator(s0 + x, close, first)
         == Ok(Separator(s0, close, first).value, Separator(s0, close, first).rest + x)
  {
    SkipSpaceAppend(s0, x);
    var s := SkipSpace(s0);
    assert (s + x)[1..] == s[1..] + x;
    if s[0] == ',' {
      SkipSpaceAppend(s[1..], x);
    }
  }

  lemma {:induction false} KeyAppend(s: string, x: string)
    requires ParseKey(s).Ok?
    ensures ParseKey(s + x) == Ok(ParseKey(s).value, ParseKey(s).rest + x)
  {
    assert (s + x)[1..] == s[1..] + x;
    StringAppend(s[1..], x);
    var k := ParseString(s[1..]);
    SkipSpaceAppend(k.rest, x);
    var c := SkipSpace(k.rest);
    assert (c + x)[1..] == c[1..] + x;
  }

  lemma {:induction false} WordAppend(s: string, x: string, word: string, v: Value)
    requires ParseWord(s, word, v).Ok?
    ensures ParseWord(s + x, word, v) == Ok(v, s[|word|..] + x)
  {
    assert word <= s + x && (s + x)[|word|..] == s[|word|..] + x;
  }

  lemma {:induction false} NumberAppend(s: string, num: NumberReader, x: string, r: Parsed<string>)
    requires r == ParseNumber(s, num) && r.Ok? && Delimits(r.rest, x)
    ensures ParseNumber(s + x, num) == Ok(r.value, r.rest + x)
  {
    NumeralAppend(s, x);
    CutAppend(s, x, NumeralEnd(s).value);
  }

  lemma {:induction false} CutAppend(s: string, x: string, n: nat)
    requires n <= |s|
    ensures (s + x)[..n] == s[..n] && (s + x)[n..] == s[n..] + x
  {
  }

  lemma {:induction false} ScalarAppend(s0: string, depth: nat, num: NumberReader, x: string, r: Parsed<Value>)
    requires r == ParseValue(s0, depth, num) && r.Ok? && !r.value.Array? && !r.value.Object?
    requires r.value.Number? ==> Delimits(r.rest, x)
    ensures ParseValue(s0 + x, depth, num) == Ok(r.value, r.rest + x)
  {
    var s := SkipSpace(s0);
    SkipSpaceAppend(s0, x);
    assert (s + x)[0] == s[0];
    if StartsNumeral(s[0]) {
      NumberAppend(s, num, x, ParseNumber(s, num));
    } else if s[0] == '"' {
      assert (s + x)[1..] == s[1..] + x;
      StringAppend(s[1..], x);
    } else if s[0] == 'n' {
      WordAppend(s, x, "null", Null);
    } else if s[0] == 't' {
      WordAppend(s, x, "true", Bool(true));
    } else {
      WordAppend(s, x, "false", Bool(false));
    }
  }

  /** JSON values are self-delimiting: once a value has been read, text that
      arrives later is left unread, unless it continues a number. */
  lemma {:induction false} ValueAppend(s0: string, depth: nat, num: NumberReader, x: string, r: Parsed<Value>)
    requires r == ParseValue(s0, depth, num) && r.Ok?
    requires r.value.Number? ==> Delimits(r.rest, x)
    ensures ParseValue(s0 + x, depth, num) == Ok(r.value, r.rest + x)
    decreases |s0|, 1
  {
    var s := SkipSpace(s0);
    if s[0] == '[' {
      SkipSpaceAppend(s0, x);
      assert (s + x)[0] == s[0] && (s + x)[1..] == s[1..] + x;
      ElementsAppend(s[1..], depth - 1, num, true, x, ParseElements(s[1..], depth - 1, num, true));
    } else if s[0] == '{' {
      SkipSpaceAppend(s0, x);
      assert (s + x)[0] == s[0] && (s + x)[1..] == s[1..] + x;
      MembersAppend(s[1..], depth - 1, num, true, x, ParseMembers(s[1..], depth - 1, num, true));
    } else {
      ScalarAppend(s0, depth, num, x, r);
    }
  }

  lemma {:induction false} ElementsAppend(
    s: string, depth: nat, num: NumberReader, first: bool, x: string, r: Parsed<seq<Value>>)
    requires r == ParseElements(s, depth, num, first) && r.Ok?
    ensures ParseElements(s + x, depth, num, first) == Ok(r.value, r.rest + x)
    decreases |s|, 2
  {
    SeparatorAppend(s, ']', first, x);
    var p := Separator(s, ']', first);
    if !p.value {
      var v := ParseValue(p.rest, depth, num);
      var vs := ParseElements(v.rest, depth, num, false);
      assert v.rest != [];
      ValueAppend(p.rest, depth, num, x, v);
      ElementsAppend(v.rest, depth, num, false, x, vs);
    }
  }

  lemma {:induction false} MembersAppend(
    s: string, depth: nat, num: NumberReader, first: bool, x: string, r: Parsed<map<string, Value>>)
    requires r == ParseMembers(s, depth, num, first) && r.Ok?
    ensures ParseMembers(s + x, depth, num, first) == Ok(r.value, r.rest + x)
    decreases |s|, 2
  {
    SeparatorAppend(s, '}', first, x);
    var p := Separator(s, '}', first);
    if !p.value {
      KeyAppend(p.rest, x);
      var k := ParseKey(p.rest);
      var v := ParseValue(k.rest, depth, num);
      var ms := ParseMembers(v.rest, depth, num, false);
      assert v.rest != [];
      ValueAppend(k.rest, depth, num, x, v);
      MembersAppend(v.rest, depth, num, false, x, ms);
    }
  }
}
