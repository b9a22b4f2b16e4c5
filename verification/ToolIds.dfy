/** Printing and parsing canonical tool ids. */
module ToolIds {
  import opened Json
  import opened ToolNames

  function Display(id: ToolId): string {
    match id.namespace
    case BuiltIn => "builtin:" + id.name
    case Extension(ext) => "extension:" + ext + ":" + id.name
    case Mcp(server) => "mcp:" + server + ":" + id.name
  }

  /** `str::split(':')`: at least one part, none of which holds a colon. */
  function Split(s: string): (parts: seq<string>)
    ensures parts != []
  {
    if s == "" then [""]
    else if s[0] == ':' then [""] + Split(s[1..])
    else var rest := Split(s[1..]); [[s[0]] + rest[0]] + rest[1..]
  }

  function FromText(s: string): Option<ToolId> {
    var parts := Split(s);
    if parts[0] == "builtin" then
      if |parts| == 2 then Some(ToolId(BuiltIn, parts[1])) else None
    else if parts[0] == "extension" then
      if |parts| == 3 then Some(ToolId(Extension(parts[1]), parts[2])) else None
    else if parts[0] == "mcp" then
      if |parts| == 3 then Some(ToolId(Mcp(parts[1]), parts[2])) else None
    else None
  }

  // ------------------------------------------------------------------ splitting

  function Join(parts: seq<string>): string
    requires parts != []
  {
    if |parts| == 1 then parts[0] else parts[0] + ":" + Join(parts[1..])
  }

  predicate Plain(s: string) { ':' !in s }

  ghost predicate AllPlain(parts: seq<string>) { forall i | 0 <= i < |parts| :: Plain(parts[i]) }

  lemma {:induction false} SplitJoins(s: string)
    ensures Join(Split(s)) == s && AllPlain(Split(s))
  {
    if s != "" {
      SplitJoins(s[1..]);
      var rest := Split(s[1..]);
      assert s == [s[0]] + s[1..];
      if s[0] == ':' {
        assert ([""] + rest)[1..] == rest;
      } else {
        var parts := [[s[0]] + rest[0]] + rest[1..];
        assert parts[1..] == rest[1..];
      }
    }
  }

  lemma {:induction false} PlainSplit(s: string)
    requires Plain(s)
    ensures Split(s) == [s]
  {
    if s != "" {
      assert s[0] in s && Plain(s[1..]);
      PlainSplit(s[1..]);
      assert s == [s[0]] + s[1..];
    }
  }

  lemma {:induction false} SplitAt(a: string, b: string)
    requires Plain(a)
    ensures Split(a + ":" + b) == [a] + Split(b)
  {
    var s := a + ":" + b;
    if a == "" {
      assert s[1..] == b;
    } else {
      assert a[0] in a && Plain(a[1..]);
      assert s[1..] == a[1..] + ":" + b && s[0] == a[0];
      SplitAt(a[1..], b);
      assert [a[0]] + a[1..] == a;
    }
  }

  lemma {:induction false} JoinSplits(parts: seq<string>)
    requires parts != [] && AllPlain(parts)
    ensures Split(Join(parts)) == parts
  {
    if |parts| == 1 {
      PlainSplit(parts[0]);
    } else {
      JoinSplits(parts[1..]);
      SplitAt(parts[0], Join(parts[1..]));
    }
  }

  // ---------------------------------------------------------------- round trips

  function Parts(id: ToolId): seq<string> {
    match id.namespace
    case BuiltIn => ["builtin", id.name]
    case Extension(ext) => ["extension", ext, id.name]
    case Mcp(server) => ["mcp", server, id.name]
  }

  lemma {:induction false} DisplayJoins(id: ToolId)
    ensures Display(id) == Join(Parts(id))
  {
    var parts := Parts(id);
    assert Join([id.name]) == id.name;
    if id.namespace.BuiltIn? {
      assert parts[1..] == [id.name];
    } else {
      assert parts[1..][1..] == [id.name];
      assert parts[1] + ":" + id.name == Join(parts[1..]);
      assert parts[0] + ":" + (parts[1] + ":" + id.name) == parts[0] + ":" + parts[1] + ":" + id.name;
    }
  }

  /** An accepted text is exactly what its id prints. */
  lemma {:induction false} ParsedPrintsBack(s: string)
    requires FromText(s).Some?
    ensures Display(FromText(s).value) == s
  {
    SplitJoins(s);
    DisplayJoins(FromText(s).value);
    assert Parts(FromText(s).value) == Split(s);
  }

  ghost predicate PlainId(id: ToolId) { AllPlain(Parts(id)) }

  /** A printed id parses back exactly when none of its parts holds a colon; any
      other id prints to a text that is refused. */
  lemma {:induction false} PrintedParsesBackIffPlain(id: ToolId)
    ensures FromText(Display(id)) == Some(id) <==> PlainId(id)
    ensures !PlainId(id) ==> FromText(Display(id)) == None
  {
    DisplayJoins(id);
    SplitJoins(Display(id));
    if PlainId(id) {
      JoinSplits(Parts(id));
    } else {
      ColonAddsParts(Parts(id));
      FirstPart(id);
    }
  }

  function Colons(s: string): nat {
    if s == "" then 0 else (if s[0] == ':' then 1 else 0) + Colons(s[1..])
  }

  lemma {:induction false} SplitCounts(s: string)
    ensures |Split(s)| == 1 + Colons(s)
  {
    if s != "" {
      SplitCounts(s[1..]);
    }
  }

  lemma {:induction false} ColonsAppend(a: string, b: string)
    ensures Colons(a + b) == Colons(a) + Colons(b)
  {
    if a == "" {
      assert a + b == b;
    } else {
      assert (a + b)[1..] == a[1..] + b;
      ColonsAppend(a[1..], b);
    }
  }

  lemma {:induction false} PlainIffNoColons(s: string)
    ensures Plain(s) <==> Colons(s) == 0
  {
    if s != "" {
      PlainIffNoColons(s[1..]);
      assert s == [s[0]] + s[1..];
    }
  }

  /** A colon inside a part makes the joined text split into more parts. */
  lemma {:induction false} ColonAddsParts(parts: seq<string>)
    requires parts != []
    ensures |Split(Join(parts))| >= |parts|
    ensures !AllPlain(parts) ==> |Split(Join(parts))| > |parts|
  {
    SplitCounts(Join(parts));
    PlainIffNoColons(parts[0]);
    if |parts| > 1 {
      ColonAddsParts(parts[1..]);
      SplitCounts(Join(parts[1..]));
      ColonsAppend(parts[0] + ":", Join(parts[1..]));
      ColonsAppend(parts[0], ":");
      assert Colons(":") == 1;
      assert parts == [parts[0]] + parts[1..];
    }
  }

  lemma {:induction false} FirstPart(id: ToolId)
    ensures Split(Display(id))[0] == Parts(id)[0]
  {
    var head := Parts(id)[0];
    DisplayJoins(id);
    SplitAt(head, Join(Parts(id)[1..]));
  }
}
