/** What the canonical text of a value looks like: no white space, the shortest
    escape of every character, and the members in the byte order of their names. */
module CanonicalForm {
  import opened Json
  import opened Ordering
  import opened CanonicalJson
  import opened JsonGrammar
  import Utf8

  // ------------------------------------------------------------------ characters

  /** No hexadecimal digit is written with a capital letter. */
  predicate LowerCase(p: string) { forall i | 2 <= i < |p| :: !('A' <= p[i] <= 'F') }

  lemma {:induction false} ControlUnit(n: nat)
    requires n < 0x20
    ensures UnitText(Hex4(n), n) && forall i | 0 <= i < 4 :: !('A' <= Hex4(n)[i] <= 'F')
  {
    var h := Hex4(n);
    assert n / 0x1000 == 0 && n / 0x100 % 16 == 0;
    assert HexText(h[0], 0) && HexText(h[1], 0) && HexText(h[2], n / 16 % 16) && HexText(h[3], n % 16);
    assert n == 4096 * 0 + 256 * 0 + 16 * (n / 16 % 16) + n % 16;
  }

  lemma {:induction false} EscapeIsText(c: char)
    ensures CharText(EscapeChar(c), c) && (|EscapeChar(c)| > 1 ==> LowerCase(EscapeChar(c)))
  {
    if |EscapeChar(c)| == 6 {
      ControlUnit(c as int);
      var e := "\\u" + Hex4(c as int);
      assert UnitEscape(e, c);
      assert forall i | 2 <= i < 6 :: e[i] == Hex4(c as int)[i - 2];
    }
  }

  lemma {:induction false} SameDigits(a: nat, b: nat, c: nat, d: nat, p: nat, q: nat, r: nat, s: nat)
    requires a < 16 && b < 16 && c < 16 && d < 16 && p < 16 && q < 16 && r < 16 && s < 16
    requires 4096 * a + 256 * b + 16 * c + d == 4096 * p + 256 * q + 16 * r + s
    ensures a == p && b == q && c == r && d == s
  {
  }

  /** The digits of a unit, read one by one. */
  ghost predicate Spelled(h: string, a: nat, b: nat, c: nat, d: nat) {
    |h| == 4 && HexText(h[0], a) && HexText(h[1], b) && HexText(h[2], c) && HexText(h[3], d)
  }

  lemma {:induction false} SpelledAlike(h: string, g: string, a: nat, b: nat, c: nat, d: nat)
    requires Spelled(h, a, b, c, d) && Spelled(g, a, b, c, d)
    requires forall i | 0 <= i < 4 :: !('A' <= h[i] <= 'F') && !('A' <= g[i] <= 'F')
    ensures h == g
  {
    assert h[0] == g[0] && h[1] == g[1] && h[2] == g[2] && h[3] == g[3];
  }

  lemma {:induction false} UnitSpelled(h: string, n: nat) returns (a: nat, b: nat, c: nat, d: nat)
    requires UnitText(h, n)
    ensures Spelled(h, a, b, c, d) && n == 4096 * a + 256 * b + 16 * c + d
  {
    a, b, c, d :| HexText(h[0], a) && HexText(h[1], b) && HexText(h[2], c) && HexText(h[3], d)
      && n == 4096 * a + 256 * b + 16 * c + d;
  }

  lemma {:induction false} OneUnit(h: string, g: string, n: nat)
    requires UnitText(h, n) && UnitText(g, n)
    requires forall i | 0 <= i < 4 :: !('A' <= h[i] <= 'F') && !('A' <= g[i] <= 'F')
    ensures h == g
  {
    var a, b, c, d := UnitSpelled(h, n);
    var p, q, r, s := UnitSpelled(g, n);
    SameDigits(a, b, c, d, p, q, r, s);
    SpelledAlike(h, g, a, b, c, d);
  }

  lemma {:induction false} SixLong(p: string, c: char)
    requires UnitEscape(p, c)
    ensures |p| == 6 && p[..2] == "\\u" && UnitText(p[2..], c as int)
  {
    var h :| p == "\\u" + h && UnitText(h, c as int);
    assert p[2..] == h;
  }

  lemma {:induction false} TwelveLong(p: string, c: char)
    requires PairEscape(p, c)
    ensures |p| == 12 && c as int >= 0x10000
  {
    var h, l :| p == "\\u" + h + ("\\u" + l) && PairText(h, l, c);
  }

  lemma {:induction false} ShortEscapeIs(p: string, c: char)
    requires |p| == 2 && p[0] == '\\' && ShortEscape(p[1], c)
    ensures c == '/' || p == EscapeChar(c)
  {
    assert p == [p[0], p[1]];
  }

  /** Of all the texts of a character (section 7 of RFC 8259) the printer takes
      the shortest, with lower-case digits. */
  lemma {:induction false} EscapeIsShortest(c: char, p: string)
    requires CharText(p, c)
    ensures CharText(EscapeChar(c), c) && |EscapeChar(c)| <= |p|
    ensures |p| == |EscapeChar(c)| && LowerCase(p) ==> p == EscapeChar(c)
  {
    EscapeIsText(c);
    if UnitEscape(p, c) {
      SixLong(p, c);
      if |EscapeChar(c)| == 6 && LowerCase(p) {
        SixLong(EscapeChar(c), c);
        var e := EscapeChar(c);
        assert forall i | 0 <= i < 4 :: p[2..][i] == p[i + 2] && e[2..][i] == e[i + 2];
        OneUnit(p[2..], e[2..], c as int);
        assert p == p[..2] + p[2..] && e == e[..2] + e[2..];
      }
    } else if PairEscape(p, c) {
      TwelveLong(p, c);
    } else if |p| == 2 {
      ShortEscapeIs(p, c);
    }
  }

  // ------------------------------------------------------------------- containers

  function Commas(parts: seq<string>): string {
    if |parts| == 0 then ""
    else if |parts| == 1 then parts[0]
    else parts[0] + "," + Commas(parts[1..])
  }

  ghost function ItemTexts(items: seq<Value>): seq<string> {
    seq(|items|, i requires 0 <= i < |items| => Canonical(items[i]))
  }

  ghost function MemberTexts(fields: map<string, Value>, names: seq<string>): seq<string>
    requires AllIn(names, fields)
  {
    seq(|names|, i requires 0 <= i < |names| => "\"" + Escape(names[i]) + "\":" + Canonical(fields[names[i]]))
  }

  lemma {:induction false} CommasFrom(parts: seq<string>, i: nat)
    requires i + 1 < |parts|
    ensures Commas(parts[i..]) == parts[i] + "," + Commas(parts[i + 1..])
  {
    assert parts[i..][1..] == parts[i + 1..];
  }

  lemma {:induction false} CommasLast(parts: seq<string>, i: nat)
    requires i + 1 == |parts|
    ensures Commas(parts[i..]) == parts[i]
  {
  }

  lemma {:induction false} Regroup(comma: string, part: string, rest: string)
    ensures comma + part + ("," + rest) == comma + (part + "," + rest)
  {
  }

  lemma {:induction false} ItemsAre(items: seq<Value>, i: nat)
    requires i < |items|
    ensures ItemsFrom(Array(items), i) == Comma(i) + Commas(ItemTexts(items)[i..])
    decreases |items| - i
  {
    var parts := ItemTexts(items);
    ItemsStep(items, i);
    if i + 1 < |items| {
      ItemsAre(items, i + 1);
      CommasFrom(parts, i);
      Regroup(Comma(i), parts[i], Commas(parts[i + 1..]));
    } else {
      CommasLast(parts, i);
      NoMore(Comma(i) + parts[i]);
    }
  }

  lemma {:induction false} NoMore(s: string)
    ensures s + "" == s
  {
  }

  lemma {:induction false} ItemsStep(items: seq<Value>, i: nat)
    requires i < |items|
    ensures ItemsFrom(Array(items), i) == Comma(i) + ItemTexts(items)[i] + ItemsFrom(Array(items), i + 1)
  {
  }

  lemma {:induction false} EntriesStep(fields: map<string, Value>, names: seq<string>, i: nat)
    requires i < |names| && AllIn(names, fields)
    ensures EntriesFrom(Object(fields), names, i)
         == Comma(i) + MemberTexts(fields, names)[i] + EntriesFrom(Object(fields), names, i + 1)
  {
    EntryIs(names[i], Canonical(fields[names[i]]), i);
  }

  lemma {:induction false} EntryIs(name: string, text: string, i: nat)
    ensures Entry(name, text, i) == Comma(i) + ("\"" + Escape(name) + "\":" + text)
  {
  }

  lemma {:induction false} EntriesAre(fields: map<string, Value>, names: seq<string>, i: nat)
    requires i < |names| && AllIn(names, fields)
    ensures EntriesFrom(Object(fields), names, i) == Comma(i) + Commas(MemberTexts(fields, names)[i..])
    decreases |names| - i
  {
    var parts := MemberTexts(fields, names);
    EntriesStep(fields, names, i);
    if i + 1 < |names| {
      EntriesAre(fields, names, i + 1);
      CommasFrom(parts, i);
      Regroup(Comma(i), parts[i], Commas(parts[i + 1..]));
    } else {
      CommasLast(parts, i);
      NoMore(Comma(i) + parts[i]);
    }
  }

  /** An array is its items between brackets, with commas and nothing else. */
  lemma {:induction false} ArrayForm(items: seq<Value>)
    ensures Canonical(Array(items)) == "[" + Commas(ItemTexts(items)) + "]"
  {
    if items != [] {
      ItemsAre(items, 0);
      assert ItemTexts(items)[0..] == ItemTexts(items);
    }
  }

  /** The names in the order in which Rust compares strings. */
  ghost predicate InByteOrder(names: seq<string>) {
    forall i, j | 0 <= i < j < |names| :: Utf8.BytesLeq(Utf8.Encode(names[i]), Utf8.Encode(names[j]))
  }

  lemma {:induction false} ByteOrderedIsSorted(names: seq<string>, fields: map<string, Value>)
    requires Enumerates(names, fields.Keys) && InByteOrder(names)
    ensures names == SortedKeys(fields.Keys)
  {
    forall i, j | 0 <= i < j < |names| ensures StringLeq(names[i], names[j]) {
      Utf8.ByteOrderIsCodePointOrder(names[i], names[j]);
    }
    SortedKeysProperties(fields.Keys);
    EnumerationsPermute(names, SortedKeys(fields.Keys), fields.Keys);
    StringOrder();
    SortedUnique(StringLeq, names, SortedKeys(fields.Keys));
  }

  /** An object is its members between braces, each name once and the names in
      byte order. */
  lemma {:induction false} ObjectForm(fields: map<string, Value>, names: seq<string>)
    requires Enumerates(names, fields.Keys) && InByteOrder(names)
    ensures Canonical(Object(fields)) == "{" + Commas(MemberTexts(fields, names)) + "}"
  {
    ByteOrderedIsSorted(names, fields);
    EntriesFromStart(fields, names);
  }

  lemma {:induction false} EntriesFromStart(fields: map<string, Value>, names: seq<string>)
    requires AllIn(names, fields)
    ensures EntriesFrom(Object(fields), names, 0) == Commas(MemberTexts(fields, names))
  {
    if names != [] {
      EntriesAre(fields, names, 0);
      assert MemberTexts(fields, names)[0..] == MemberTexts(fields, names);
    }
  }

  // ----------------------------------------------------- printed text is JSON text

  /** Numbers are printed as numerals that the reader maps to the same number,
      and containers stay within the depth. */
  ghost predicate Readable(v: Value, depth: nat, num: NumberReader)
    decreases v
  {
    match v
    case Number(text) => IsNumeral(text) && num(text) == Some(text)
    case Array(items) => depth > 1 && forall i | 0 <= i < |items| :: Readable(items[i], depth - 1, num)
    case Object(fields) => depth > 1 && forall k | k in fields :: Readable(fields[k], depth - 1, num)
    case _ => true
  }

  lemma {:induction false} EscapeIsBody(s: string)
    ensures StringBody(Escape(s), s)
  {
    if s != "" {
      EscapeIsText(s[0]);
      EscapeIsBody(s[1..]);
    }
  }

  lemma {:induction false} QuotedIsText(s: string)
    ensures StringText(Quoted(s), s)
  {
    EscapeIsBody(s);
    assert Quoted(s)[1..|Quoted(s)| - 1] == Escape(s);
  }

  lemma {:induction false} NumeralIsText(text: string)
    requires IsNumeral(text)
    ensures NumeralText(text)
  {
    NumeralSound(text);
    assert text[..|text|] == text;
  }

  lemma {:induction false} WithoutPadding(t: string, v: Value, depth: nat, num: NumberReader)
    requires ValueText(t, v, depth, num)
    ensures Padded(t, v, depth, num)
  {
    assert t == "" + t + "" && IsBlank("");
  }

  ghost predicate EachIsText(parts: seq<string>, items: seq<Value>, depth: nat, num: NumberReader) {
    |parts| == |items| && forall i | 0 <= i < |items| :: Padded(parts[i], items[i], depth, num)
  }

  lemma {:induction false} CommasAreElements(parts: seq<string>, items: seq<Value>, depth: nat, num: NumberReader)
    requires items != [] && EachIsText(parts, items, depth, num)
    ensures ElementsText(Commas(parts), items, depth, num)
    decreases |items|
  {
    if |items| > 1 {
      CommasAreElements(parts[1..], items[1..], depth, num);
      assert Commas(parts) == parts[0] + "," + Commas(parts[1..]);
    }
  }

  ghost predicate EachIsMember(parts: seq<string>, members: seq<(string, Value)>, depth: nat, num: NumberReader) {
    |parts| == |members| && forall i | 0 <= i < |members| :: MemberText(parts[i], members[i], depth, num)
  }

  lemma {:induction false} CommasAreMembers(parts: seq<string>, members: seq<(string, Value)>, depth: nat, num: NumberReader)
    requires members != [] && EachIsMember(parts, members, depth, num)
    ensures MembersText(Commas(parts), members, depth, num)
    decreases |members|
  {
    if |members| > 1 {
      CommasAreMembers(parts[1..], members[1..], depth, num);
      assert Commas(parts) == parts[0] + "," + Commas(parts[1..]);
    }
  }

  lemma {:induction false} PrintedMember(name: string, text: string, v: Value, depth: nat, num: NumberReader)
    requires Padded(text, v, depth, num)
    ensures MemberText("\"" + Escape(name) + "\":" + text, (name, v), depth, num)
  {
    QuotedIsText(name);
    assert Quoted(name) == "" + Quoted(name) + "" && IsBlank("");
    assert PaddedString(Quoted(name), name);
    assert "\"" + Escape(name) + "\":" + text == Quoted(name) + ":" + text;
  }

  function Members(fields: map<string, Value>, names: seq<string>): seq<(string, Value)>
    requires AllIn(names, fields)
  {
    seq(|names|, i requires 0 <= i < |names| => (names[i], fields[names[i]]))
  }

  lemma {:induction false} MembersAreFields(fields: map<string, Value>, names: seq<string>)
    requires Enumerates(names, fields.Keys)
    ensures LastOfEach(fields, Members(fields, names))
  {
    var members := Members(fields, names);
    forall k ensures k in fields <==> exists i :: 0 <= i < |members| && members[i].0 == k {
      if k in fields {
        assert k in names;
        var i :| 0 <= i < |names| && names[i] == k;
        assert members[i].0 == k;
      }
    }
  }

  lemma {:induction false} Inside(open: string, body: string, close: string)
    requires |open| == 1 && |close| == 1
    ensures var s := open + body + close;
      |s| >= 2 && s[0] == open[0] && s[|s| - 1] == close[0] && s[1..|s| - 1] == body
  {
  }

  lemma {:induction false} ArrayIsText(items: seq<Value>, depth: nat, num: NumberReader)
    requires depth > 1 && EachIsText(ItemTexts(items), items, depth - 1, num)
    ensures ValueText(Canonical(Array(items)), Array(items), depth, num)
  {
    ArrayForm(items);
    Inside("[", Commas(ItemTexts(items)), "]");
    if items != [] {
      CommasAreElements(ItemTexts(items), items, depth - 1, num);
    }
  }

  lemma {:induction false} ObjectIsText(fields: map<string, Value>, names: seq<string>, depth: nat, num: NumberReader)
    requires depth > 1 && Enumerates(names, fields.Keys) && names == SortedKeys(fields.Keys)
    requires EachIsMember(MemberTexts(fields, names), Members(fields, names), depth - 1, num)
    ensures ValueText(Canonical(Object(fields)), Object(fields), depth, num)
  {
    EntriesFromStart(fields, names);
    Inside("{", Commas(MemberTexts(fields, names)), "}");
    if fields != map[] {
      var k :| k in fields;
      assert k in names;
      CommasAreMembers(MemberTexts(fields, names), Members(fields, names), depth - 1, num);
      MembersAreFields(fields, names);
    } else {
      assert names == [] by {
        assert forall k | k in names :: k in fields;
      }
    }
  }

  /** What the printer writes is a JSON text of the value. */
  lemma {:induction false} CanonicalIsText(v: Value, depth: nat, num: NumberReader)
    requires Readable(v, depth, num)
    ensures ValueText(Canonical(v), v, depth, num)
    decreases v
  {
    match v
    case Number(text) => NumeralIsText(text);
    case Str(s) => QuotedIsText(s);
    case Array(items) =>
      forall i | 0 <= i < |items| ensures Padded(ItemTexts(items)[i], items[i], depth - 1, num) {
        CanonicalIsText(items[i], depth - 1, num);
        WithoutPadding(Canonical(items[i]), items[i], depth - 1, num);
      }
      ArrayIsText(items, depth, num);
    case Object(fields) =>
      var names := SortedKeys(fields.Keys);
      SortedKeysProperties(fields.Keys);
      forall i | 0 <= i < |names|
        ensures MemberText(MemberTexts(fields, names)[i], Members(fields, names)[i], depth - 1, num)
      {
        var item := fields[names[i]];
        CanonicalIsText(item, depth - 1, num);
        WithoutPadding(Canonical(item), item, depth - 1, num);
        PrintedMember(names[i], Canonical(item), item, depth - 1, num);
      }
      ObjectIsText(fields, names, depth, num);
    case _ =>
  }

  // ------------------------------------------------------------ reading it back

  /** An escaped string reads back as itself. */
  lemma {:induction false} EscapeRoundTrip(s: string, t: string)
    ensures ParseString(Escape(s) + "\"" + t) == Ok(s, t)
  {
    QuotedIsText(s);
    StringReads(Quoted(s), s, t);
    assert Quoted(s)[1..] + t == Escape(s) + "\"" + t;
  }

  /** Reading the canonical text back gives the value, whatever follows it. */
  lemma {:induction false} CanonicalRoundTrip(v: Value, depth: nat, num: NumberReader, x: string)
    requires Readable(v, depth, num) && (v.Number? ==> Delimits([], x))
    ensures ParseValue(Canonical(v) + x, depth, num) == Ok(v, x)
  {
    CanonicalIsText(v, depth, num);
    ValueReads(Canonical(v), v, depth, num, x);
  }

  // ------------------------------------------------------------- unambiguity

  /** Numbers are numerals; nothing else about a value matters to the printer. */
  ghost predicate Numeric(v: Value) {
    match v
    case Number(text) => IsNumeral(text)
    case Array(items) => forall i | 0 <= i < |items| :: Numeric(items[i])
    case Object(fields) => forall k | k in fields :: Numeric(fields[k])
    case _ => true
  }

  /** The nesting of a value is bounded by the length of its text. */
  lemma {:induction false} ReadableWithin(v: Value, depth: nat)
    requires Numeric(v) && depth >= |Canonical(v)|
    ensures Readable(v, depth, t => Some(t))
    decreases v
  {
    match v
    case Array(items) =>
      forall i | 0 <= i < |items| ensures Readable(items[i], depth - 1, t => Some(t)) {
        ItemsLength(v, 0, i);
        ReadableWithin(items[i], depth - 1);
      }
    case Object(fields) =>
      var keys := SortedKeys(fields.Keys);
      SortedKeysProperties(fields.Keys);
      forall k | k in fields ensures Readable(fields[k], depth - 1, t => Some(t)) {
        assert k in keys;
        var i :| 0 <= i < |keys| && keys[i] == k;
        EntriesLength(v, keys, 0, i);
        ReadableWithin(fields[k], depth - 1);
      }
    case _ =>
  }

  lemma {:induction false} ItemsLength(v: Value, i: nat, j: nat)
    requires v.Array? && i <= j < |v.items|
    ensures |ItemsFrom(v, i)| >= |Canonical(v.items[j])|
    decreases j - i
  {
    if i < j {
      ItemsLength(v, i + 1, j);
    }
  }

  lemma {:induction false} EntriesLength(v: Value, keys: seq<string>, i: nat, j: nat)
    requires v.Object? && i <= j < |keys| && AllIn(keys, v.fields)
    ensures |EntriesFrom(v, keys, i)| >= |Canonical(v.fields[keys[j]])|
    decreases j - i
  {
    if i < j {
      EntriesLength(v, keys, i + 1, j);
    }
  }

  /** Canonical texts are a prefix code: followed by anything that does not go
      on with a number, a text determines its value and where it stops. */
  lemma {:induction false} CanonicalPrefixCode(a: Value, b: Value, x: string, y: string)
    requires Numeric(a) && Numeric(b)
    requires Delimits([], x) && Delimits([], y)
    requires Canonical(a) + x == Canonical(b) + y
    ensures a == b && x == y
  {
    var depth := |Canonical(a)| + |Canonical(b)|;
    var num := t => Some(t);
    ReadableWithin(a, depth);
    ReadableWithin(b, depth);
    CanonicalRoundTrip(a, depth, num, x);
    CanonicalRoundTrip(b, depth, num, y);
  }

  /** Two values print alike exactly when they are equal, objects read as maps. */
  lemma {:induction false} CanonicalUnambiguous(a: Value, b: Value)
    requires Numeric(a) && Numeric(b)
    ensures Canonical(a) == Canonical(b) <==> a == b
  {
    if Canonical(a) == Canonical(b) {
      CanonicalPrefixCode(a, b, [], []);
    }
  }

  // --------------------------------------------------- the reader's depth limit

  /** Containers nest less deep than `depth`. */
  ghost predicate NestsWithin(v: Value, depth: nat)
    decreases v
  {
    match v
    case Array(items) => depth > 1 && forall i | 0 <= i < |items| :: NestsWithin(items[i], depth - 1)
    case Object(fields) => depth > 1 && forall k | k in fields :: NestsWithin(fields[k], depth - 1)
    case _ => true
  }

  lemma {:induction false} ParsedNestsWithin(s: string, depth: nat, num: NumberReader)
    requires ParseValue(s, depth, num).Ok?
    ensures NestsWithin(ParseValue(s, depth, num).value, depth)
    decreases |s|, 1
  {
    var u := SkipSpace(s);
    if u[0] == '[' {
      ParsedElementsNest(u[1..], depth - 1, num, true);
    } else if u[0] == '{' {
      ParsedMembersNest(u[1..], depth - 1, num, true);
    }
  }

  lemma {:induction false} ParsedElementsNest(s: string, depth: nat, num: NumberReader, first: bool)
    requires ParseElements(s, depth, num, first).Ok?
    ensures forall v | v in ParseElements(s, depth, num, first).value :: NestsWithin(v, depth)
    decreases |s|, 2
  {
    var p := Separator(s, ']', first);
    if !p.value {
      var v := ParseValue(p.rest, depth, num);
      ParsedNestsWithin(p.rest, depth, num);
      ParsedElementsNest(v.rest, depth, num, false);
    }
  }

  lemma {:induction false} ParsedMembersNest(s: string, depth: nat, num: NumberReader, first: bool)
    requires ParseMembers(s, depth, num, first).Ok?
    ensures forall k | k in ParseMembers(s, depth, num, first).value ::
              NestsWithin(ParseMembers(s, depth, num, first).value[k], depth)
    decreases |s|, 2
  {
    var p := Separator(s, '}', first);
    if !p.value {
      var k := ParseKey(p.rest);
      var v := ParseValue(k.rest, depth, num);
      ParsedNestsWithin(k.rest, depth, num);
      ParsedMembersNest(v.rest, depth, num, false);
    }
  }

  /** Every number prints as a numeral that is read back as that number. */
  ghost predicate Faithful(v: Value, num: NumberReader) {
    match v
    case Number(text) => IsNumeral(text) && num(text) == Some(text)
    case Array(items) => forall i | 0 <= i < |items| :: Faithful(items[i], num)
    case Object(fields) => forall k | k in fields :: Faithful(fields[k], num)
    case _ => true
  }

  lemma {:induction false} FaithfulReadable(v: Value, depth: nat, num: NumberReader)
    requires Faithful(v, num) && NestsWithin(v, depth)
    ensures Readable(v, depth, num)
    decreases v
  {
    match v
    case Array(items) =>
      forall i | 0 <= i < |items| ensures Readable(items[i], depth - 1, num) {
        FaithfulReadable(items[i], depth - 1, num);
      }
    case Object(fields) =>
      forall k | k in fields ensures Readable(fields[k], depth - 1, num) {
        FaithfulReadable(fields[k], depth - 1, num);
      }
    case _ =>
  }

  /** The harness reads its own canonical text back exactly when the value
      nests no deeper than 127 containers. */
  lemma {:induction false} ReadsBackIffShallow(v: Value, num: NumberReader)
    requires Faithful(v, num)
    ensures FromStr(Canonical(v), num) == Some(v) <==> NestsWithin(v, RECURSION_LIMIT)
  {
    assert Canonical(v) + [] == Canonical(v);
    if NestsWithin(v, RECURSION_LIMIT) {
      FaithfulReadable(v, RECURSION_LIMIT, num);
      CanonicalRoundTrip(v, RECURSION_LIMIT, num, []);
    } else if FromStr(Canonical(v), num) == Some(v) {
      ParsedNestsWithin(Canonical(v), RECURSION_LIMIT, num);
    }
  }
}
