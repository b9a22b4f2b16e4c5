/** The canonical JSON text that session grants are hashed from. */
module CanonicalJson {
  import opened Json
  import opened Ordering

  /** The growing text that the printer pushes to. */
  class Buffer {
    var text: string

    constructor ()
      ensures text == ""
    {
      text := "";
    }

    method PushStr(s: string)
      modifies this
      ensures text == old(text) + s
    {
      text := text + s;
    }
  }

  // ------------------------------------------------------------ specification

  function LowerHex(n: nat): char
    requires n < 16
  {
    if n < 10 then ('0' as int + n) as char else ('a' as int + (n - 10)) as char
  }

  /** Four lower-case hexadecimal digits. */
  function Hex4(n: nat): string
    requires n < 0x10000
  {
    [LowerHex(n / 0x1000), LowerHex(n / 0x100 % 16), LowerHex(n / 16 % 16), LowerHex(n % 16)]
  }

  function EscapeChar(c: char): string {
    if c == '"' then "\\\""
    else if c == '\\' then "\\\\"
    else if c == '\n' then "\\n"
    else if c == '\r' then "\\r"
    else if c == '\t' then "\\t"
    else if c as int == 8 then "\\b"
    else if c as int == 12 then "\\f"
    else if c as int < 0x20 then "\\u" + Hex4(c as int)
    else [c]
  }

  function Escape(s: string): string {
    if s == [] then [] else EscapeChar(s[0]) + Escape(s[1..])
  }

  function Quoted(s: string): string { "\"" + Escape(s) + "\"" }

  ghost function Canonical(v: Value): string
    decreases v, 1, 0
  {
    match v
    case Null => "null"
    case Bool(b) => if b then "true" else "false"
    case Number(text) => text
    case Str(s) => Quoted(s)
    case Array(items) => "[" + ItemsFrom(v, 0) + "]"
    case Object(fields) => "{" + EntriesFrom(v, SortedKeys(fields.Keys), 0) + "}"
  }

  predicate AllIn(keys: seq<string>, fields: map<string, Value>) {
    forall k | k in keys :: k in fields
  }

  function Comma(i: nat): string { if i > 0 then "," else "" }

  /** The items from index i on, with the commas in front of them. */
  ghost function ItemsFrom(v: Value, i: nat): string
    requires v.Array? && i <= |v.items|
    decreases v, 0, |v.items| - i
  {
    if i == |v.items| then ""
    else Comma(i) + Canonical(v.items[i]) + ItemsFrom(v, i + 1)
  }

  ghost function EntriesFrom(v: Value, keys: seq<string>, i: nat): string
    requires v.Object? && i <= |keys| && AllIn(keys, v.fields)
    decreases v, 0, |keys| - i
  {
    if i == |keys| then ""
    else Entry(keys[i], Canonical(v.fields[keys[i]]), i) + EntriesFrom(v, keys, i + 1)
  }

  function Entry(key: string, text: string, i: nat): string { Comma(i) + Quoted(key) + ":" + text }

  lemma {:induction false} Associative(a: string, b: string, c: string)
    ensures a + b + c == a + (b + c)
  {
  }

  lemma {:induction false} Bracketed(before: string, open: string, body: string, close: string)
    ensures before + open + body + close == before + (open + body + close)
  {
  }

  // ---------------------------------------------------------------- operations

  method EscapeJsonString(s: string) returns (out: string)
    ensures out == Escape(s)
  {
    out := "";
    for i := 0 to |s|
      invariant out + Escape(s[i..]) == Escape(s)
    {
      EscapeStep(out, s, i);
      out := out + EscapeChar(s[i]);
    }
  }

  lemma {:induction false} EscapeStep(out: string, s: string, i: nat)
    requires i < |s|
    ensures out + Escape(s[i..]) == out + EscapeChar(s[i]) + Escape(s[i + 1..])
  {
    assert s[i..][1..] == s[i + 1..];
  }

  method WriteCanonical(v: Value, buf: Buffer)
    modifies buf
    ensures buf.text == old(buf.text) + Canonical(v)
    decreases v, 1
  {
    match v
    case Null => buf.PushStr("null");
    case Bool(b) => buf.PushStr(if b then "true" else "false");
    case Number(text) => buf.PushStr(text);
    case Str(s) =>
      WriteQuoted(s, buf);
    case Array(items) =>
      buf.PushStr("[");
      WriteItems(v, buf);
      buf.PushStr("]");
      Bracketed(old(buf.text), "[", ItemsFrom(v, 0), "]");
    case Object(fields) =>
      var keys := SortedEntries(fields);
      buf.PushStr("{");
      WriteEntries(v, keys, buf);
      buf.PushStr("}");
      Bracketed(old(buf.text), "{", EntriesFrom(v, keys, 0), "}");
  }

  method WriteQuoted(s: string, buf: Buffer)
    modifies buf
    ensures buf.text == old(buf.text) + Quoted(s)
  {
    var e := EscapeJsonString(s);
    buf.PushStr("\"");
    buf.PushStr(e);
    buf.PushStr("\"");
    Bracketed(old(buf.text), "\"", e, "\"");
  }

  /** The loop over the items of an array. */
  method WriteItems(v: Value, buf: Buffer)
    requires v.Array?
    modifies buf
    ensures buf.text == old(buf.text) + ItemsFrom(v, 0)
    decreases v, 0
  {
    for i := 0 to |v.items|
      invariant buf.text + ItemsFrom(v, i) == old(buf.text) + ItemsFrom(v, 0)
    {
      ghost var before := buf.text;
      if i > 0 {
        buf.PushStr(",");
      }
      WriteCanonical(v.items[i], buf);
      Associative(before, Comma(i), Canonical(v.items[i]));
      Associative(before, Comma(i) + Canonical(v.items[i]), ItemsFrom(v, i + 1));
    }
  }

  /** The loop over the sorted entries of an object. */
  method WriteEntries(v: Value, keys: seq<string>, buf: Buffer)
    requires v.Object? && AllIn(keys, v.fields)
    modifies buf
    ensures buf.text == old(buf.text) + EntriesFrom(v, keys, 0)
    decreases v, 0
  {
    for i := 0 to |keys|
      invariant buf.text + EntriesFrom(v, keys, i) == old(buf.text) + EntriesFrom(v, keys, 0)
    {
      ghost var before := buf.text;
      WriteEntryKey(keys[i], i, buf);
      WriteCanonical(v.fields[keys[i]], buf);
      ghost var text := Canonical(v.fields[keys[i]]);
      Associative(before, Comma(i) + Quoted(keys[i]) + ":", text);
      Associative(before, Entry(keys[i], text, i), EntriesFrom(v, keys, i + 1));
    }
  }

  method WriteEntryKey(key: string, i: nat, buf: Buffer)
    modifies buf
    ensures buf.text == old(buf.text) + (Comma(i) + Quoted(key) + ":")
  {
    if i > 0 {
      buf.PushStr(",");
    }
    WriteQuoted(key, buf);
    buf.PushStr(":");
  }

  method SortedEntries(fields: map<string, Value>) returns (keys: seq<string>)
    ensures keys == SortedKeys(fields.Keys)
  {
    var entries := EntriesInMapOrder(fields);
    keys := Sort(StringLeq, entries);
    SortOfAnyOrder(entries, fields.Keys);
  }

  /** A map hands out its keys in an order the printer may not rely on. */
  method EntriesInMapOrder(fields: map<string, Value>) returns (order: seq<string>)
    ensures Enumerates(order, fields.Keys)
  {
    order := [];
    var rest := fields.Keys;
    while rest != {}
      invariant rest <= fields.Keys && Enumerates(order, fields.Keys - rest)
      decreases |rest|
    {
      var k :| k in rest;
      order := order + [k];
      rest := rest - {k};
    }
  }
}
