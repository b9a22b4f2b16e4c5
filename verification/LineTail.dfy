/** Following a trace file that another process is still appending to. */
module LineTail {
  type Byte = n: nat | n < 0x100
  const NEWLINE: Byte := 10

  /** What happens between two reads: the writer appends, and the read may be
      interrupted by a signal. */
  datatype Moment = Moment(appended: seq<Byte>, interrupted: bool)

  datatype ReadResult = ReadByte(b: Byte) | EndOfFile | Interrupted

  datatype LineResult = Line(bytes: seq<Byte>) | NoLine | InvalidData

  /** One newline, at the end. */
  predicate IsLine(l: seq<Byte>) {
    l != [] && l[|l| - 1] == NEWLINE && forall i | 0 <= i < |l| - 1 :: l[i] != NEWLINE
  }

  function AppendedBytes(moments: seq<Moment>): nat {
    if moments == [] then 0 else |moments[0].appended| + AppendedBytes(moments[1..])
  }

  /** An append-only file with one reader; `future` is the writer's schedule,
      one moment for each read to come. */
  class File {
    var content: seq<Byte>
    var position: nat
    var future: seq<Moment>

    constructor (initial: seq<Byte>, schedule: seq<Moment>)
      ensures content == initial && position == 0 && future == schedule
    {
      content, position, future := initial, 0, schedule;
    }

    /** Bytes that are still to be read. */
    function Ahead(): int
      reads this
    {
      |content| + AppendedBytes(future) - position
    }

    method Read() returns (r: ReadResult)
      requires position <= |content|
      modifies this
      ensures old(content) <= content && position <= |content|
      ensures match r
        case ReadByte(b) => position == old(position) + 1 && b == content[old(position)]
                         && Ahead() == old(Ahead()) - 1
        case EndOfFile => position == old(position) == |content| && Ahead() == old(Ahead())
        case Interrupted => position == old(position) && |future| < |old(future)| && Ahead() == old(Ahead())
      ensures if old(future) == [] then future == [] && content == old(content) else |future| < |old(future)|
    {
      var interrupted := false;
      if future != [] {
        content := content + future[0].appended;
        interrupted := future[0].interrupted;
        future := future[1..];
      }
      if interrupted {
        return Interrupted;
      }
      if position == |content| {
        return EndOfFile;
      }
      r := ReadByte(content[position]);
      position := position + 1;
    }

    method Seek(start: nat)
      modifies this`position
      ensures position == start
    {
      position := start;
    }
  }

  /** `utf8` is the validity check of `String::from_utf8`. */
  method ReadNextLine(file: File, utf8: seq<Byte> -> bool) returns (r: LineResult)
    requires file.position <= |file.content|
    modifies file
    ensures old(file.content) <= file.content && |file.future| <= |old(file.future)|
    ensures old(file.future) == [] ==> file.content == old(file.content)
    ensures old(file.position) <= file.position <= |file.content|
    ensures var taken := file.content[old(file.position)..file.position];
      match r
      case Line(l) => l == taken && IsLine(l) && utf8(l) && file.Ahead() < old(file.Ahead())
      case NoLine => taken == [] && NEWLINE !in file.content[file.position..] && file.Ahead() == old(file.Ahead())
                  && (|file.future| < |old(file.future)| || file.future == [])
      case InvalidData => IsLine(taken) && !utf8(taken)
  {
    var bytes := [];
    var startPos := file.position;
    while true
      invariant startPos == old(file.position) <= file.position <= |file.content|
      invariant old(file.content) <= file.content && |file.future| <= |old(file.future)|
      invariant old(file.future) == [] ==> file.content == old(file.content)
      invariant bytes == file.content[startPos..file.position] && NEWLINE !in bytes
      invariant file.Ahead() == old(file.Ahead()) - |bytes|
      decreases file.Ahead(), |file.future|
    {
      ghost var before := file.content;
      var read := file.Read();
      assert before[startPos..startPos + |bytes|] == file.content[startPos..startPos + |bytes|];
      match read
      case EndOfFile =>
        if bytes != [] {
          file.Seek(startPos);
        }
        assert file.content[startPos..] == bytes;
        return NoLine;
      case ReadByte(b) =>
        bytes := bytes + [b];
        assert bytes == file.content[startPos..file.position];
        if b == NEWLINE {
          assert IsLine(bytes);
          return if utf8(bytes) then Line(bytes) else InvalidData;
        }
      case Interrupted =>
    }
  }

  function Flatten(lines: seq<seq<Byte>>): seq<Byte> {
    if lines == [] then [] else Flatten(lines[..|lines| - 1]) + lines[|lines| - 1]
  }

  /** Everything up to the position has been handed out, line by line. */
  ghost predicate Delivered(printed: seq<seq<Byte>>, file: File)
    reads file
  {
    && file.position <= |file.content|
    && Flatten(printed) == file.content[..file.position]
    && forall i | 0 <= i < |printed| :: IsLine(printed[i])
  }

  lemma {:induction false} OneMoreLine(printed: seq<seq<Byte>>, line: seq<Byte>, before: seq<Byte>, after: seq<Byte>, p: nat)
    requires p + |line| <= |after| && before <= after && p <= |before|
    requires Flatten(printed) == before[..p] && line == after[p..p + |line|]
    ensures Flatten(printed + [line]) == after[..p + |line|]
  {
    assert (printed + [line])[..|printed|] == printed;
    assert after[..p + |line|] == after[..p] + after[p..p + |line|];
  }

  /** A position where a line starts. */
  ghost predicate AtLineStart(content: seq<Byte>, p: nat) {
    p == 0 || (p <= |content| && content[p - 1] == NEWLINE)
  }

  /** Nothing more will be appended and no complete line is left. */
  ghost predicate CaughtUp(file: File)
    requires file.position <= |file.content|
    reads file
  {
    file.future == [] && NEWLINE !in file.content[file.position..]
  }

  /** The loop over the lines that are already there, then `polls` rounds of
      the endless one.  `printed` is what went to the terminal.  Given a round
      for each moment and each byte, every line ever written is printed. */
  method Tail(file: File, utf8: seq<Byte> -> bool, polls: nat) returns (printed: seq<seq<Byte>>, failed: bool)
    requires file.position == 0
    modifies file
    ensures old(file.content) <= file.content
    ensures !failed ==> Delivered(printed, file) && AtLineStart(file.content, file.position)
    ensures failed ==> StoppedAt(printed, file.content, utf8)
    ensures !failed && polls >= |old(file.future)| + old(file.Ahead()) ==> CaughtUp(file)
  {
    printed, failed := ReadExisting(file, utf8);
    for i := 0 to polls
      invariant old(file.content) <= file.content
      invariant !failed ==> Delivered(printed, file)
      invariant !failed ==> CaughtUp(file) || i + |file.future| + file.Ahead() <= |old(file.future)| + old(file.Ahead())
      invariant failed ==> StoppedAt(printed, file.content, utf8)
    {
      if failed {
        break;
      }
      printed, failed := Poll(file, utf8, printed);
    }
    if !failed {
      DeliveredAtLineStart(printed, file.content[..file.position]);
    }
  }

  /** The text printed so far ends in front of a line that is not valid text. */
  ghost predicate StoppedAt(printed: seq<seq<Byte>>, content: seq<Byte>, utf8: seq<Byte> -> bool) {
    exists p: nat, q: nat :: p <= q <= |content| &&
      Flatten(printed) == content[..p] && IsLine(content[p..q]) && !utf8(content[p..q])
  }

  /** One call of the line reader and its use. */
  method Poll(file: File, utf8: seq<Byte> -> bool, printed0: seq<seq<Byte>>)
    returns (printed: seq<seq<Byte>>, failed: bool)
    requires Delivered(printed0, file)
    modifies file
    ensures old(file.content) <= file.content && printed0 <= printed
    ensures !failed ==> Delivered(printed, file)
    ensures failed ==> StoppedAt(printed, file.content, utf8)
    ensures |file.future| <= |old(file.future)|
    ensures !failed && printed == printed0 ==>
      && NEWLINE !in file.content[file.position..]
      && file.Ahead() == old(file.Ahead())
      && (file.future == [] || |file.future| < |old(file.future)|)
    ensures !failed && printed != printed0 ==> file.Ahead() < old(file.Ahead())
    ensures !failed && old(CaughtUp(file)) ==> CaughtUp(file)
  {
    ghost var content, p := file.content, file.position;
    var line := ReadNextLine(file, utf8);
    match line
    case NoLine =>
      assert file.content[..p] == content[..p];
      return printed0, false;
    case Line(l) =>
      OneMoreLine(printed0, l, content, file.content, p);
      return printed0 + [l], false;
    case InvalidData =>
      assert file.content[..p] == content[..p];
      return printed0, true;
  }

  method ReadExisting(file: File, utf8: seq<Byte> -> bool) returns (printed: seq<seq<Byte>>, failed: bool)
    requires file.position == 0
    modifies file
    ensures old(file.content) <= file.content
    ensures !failed ==> Delivered(printed, file) && NEWLINE !in file.content[file.position..]
    ensures !failed ==> |file.future| <= |old(file.future)| && file.Ahead() <= old(file.Ahead())
    ensures failed ==> StoppedAt(printed, file.content, utf8)
  {
    printed, failed := [], false;
    while true
      invariant old(file.content) <= file.content
      invariant Delivered(printed, file)
      invariant |file.future| <= |old(file.future)| && file.Ahead() <= old(file.Ahead())
      decreases file.Ahead()
    {
      var more, stop := Poll(file, utf8, printed);
      if stop || more == printed {
        return more, stop;
      }
      printed := more;
    }
  }

  lemma {:induction false} DeliveredAtLineStart(printed: seq<seq<Byte>>, taken: seq<Byte>)
    requires Flatten(printed) == taken && forall i | 0 <= i < |printed| :: IsLine(printed[i])
    ensures AtLineStart(taken, |taken|)
  {
  }

  /** A text splits into lines in one way only, so what was printed is exactly
      the lines of the file up to the position, in order. */
  lemma {:induction false} LinesAreUnique(a: seq<seq<Byte>>, b: seq<seq<Byte>>)
    requires Flatten(a) == Flatten(b)
    requires (forall i | 0 <= i < |a| :: IsLine(a[i])) && (forall i | 0 <= i < |b| :: IsLine(b[i]))
    ensures a == b
    decreases |a|
  {
    NoLinesNoText(a);
    NoLinesNoText(b);
    if a != [] {
      var m, n := |a| - 1, |b| - 1;
      LastLineStart(a);
      LastLineStart(b);
      SameLastLine(Flatten(a[..m]), a[m], Flatten(b[..n]), b[n]);
      LinesAreUnique(a[..m], b[..n]);
      assert a == a[..m] + [a[m]] && b == b[..n] + [b[n]];
    }
  }

  lemma {:induction false} NoLinesNoText(lines: seq<seq<Byte>>)
    requires forall i | 0 <= i < |lines| :: IsLine(lines[i])
    ensures Flatten(lines) == [] <==> lines == []
  {
  }

  lemma {:induction false} LastLineStart(lines: seq<seq<Byte>>)
    requires lines != [] && forall i | 0 <= i < |lines| :: IsLine(lines[i])
    ensures var before := Flatten(lines[..|lines| - 1]); before == [] || before[|before| - 1] == NEWLINE
  {
  }

  lemma {:induction false} SameLastLine(x: seq<Byte>, a: seq<Byte>, y: seq<Byte>, b: seq<Byte>)
    requires x + a == y + b && IsLine(a) && IsLine(b)
    requires (x == [] || x[|x| - 1] == NEWLINE) && (y == [] || y[|y| - 1] == NEWLINE)
    ensures x == y && a == b
  {
    var s := x + a;
    assert forall k | |x| <= k < |s| - 1 :: s[k] == a[k - |x|];
    assert forall k | |y| <= k < |s| - 1 :: s[k] == b[k - |y|];
    assert x != [] ==> s[|x| - 1] == NEWLINE;
    assert y != [] ==> s[|y| - 1] == NEWLINE;
    assert |x| == |y|;
    assert x == s[..|x|] && y == s[..|y|] && a == s[|x|..] && b == s[|y|..];
  }
}
