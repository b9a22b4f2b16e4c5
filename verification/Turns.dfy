/** Assembling one assistant turn from interleaved streaming deltas. */
module Turns {
  import opened Json
  import opened AgentEvents
  import opened Ordering

  datatype ToolCall = ToolCall(id: string, name: string, input: Value)

  datatype AssistantTurn = AssistantTurn(
    textDeltas: seq<string>, thinkingDeltas: seq<string>, toolCalls: seq<ToolCall>)

  datatype FinishResult =
    | Finished(turn: AssistantTurn)
    | MissingToolCall(id: string)
    | MalformedToolCall(id: string)

  /** How a whole text is read as JSON; None on an error. */
  type JsonReader = string -> Option<Value>

  /** `serde_json::from_str`. */
  function SerdeReader(num: NumberReader): JsonReader { s => FromStr(s, num) }

  function Concat(deltas: seq<string>): string {
    if deltas == [] then "" else Concat(deltas[..|deltas| - 1]) + deltas[|deltas| - 1]
  }

  /** The message a turn is committed as: text, thinking, then the calls. */
  function IntoMessage(turn: AssistantTurn): Message {
    var text, thinking := Concat(turn.textDeltas), Concat(turn.thinkingDeltas);
    Assistant(
      (if text != "" then [TextBlock(text)] else [])
      + (if thinking != "" then [ThinkingBlock(thinking)] else [])
      + seq(|turn.toolCalls|, i requires 0 <= i < |turn.toolCalls| =>
              ToolUseBlock(turn.toolCalls[i].id, turn.toolCalls[i].name, turn.toolCalls[i].input)))
  }

  // ------------------------------------------------------- what a message holds

  function TextIn(blocks: seq<ContentBlock>): string {
    if blocks == [] then "" else (if blocks[0].TextBlock? then blocks[0].text else "") + TextIn(blocks[1..])
  }

  function ThinkingIn(blocks: seq<ContentBlock>): string {
    if blocks == [] then "" else (if blocks[0].ThinkingBlock? then blocks[0].thinking else "") + ThinkingIn(blocks[1..])
  }

  function CallOf(block: ContentBlock): seq<ToolCall> {
    if block.ToolUseBlock? then [ToolCall(block.id, block.name, block.input)] else []
  }

  function CallsIn(blocks: seq<ContentBlock>): seq<ToolCall> {
    if blocks == [] then [] else CallOf(blocks[0]) + CallsIn(blocks[1..])
  }

  /** At most one text and one thinking, neither empty; text before thinking
      before calls. */
  ghost predicate InOrder(blocks: seq<ContentBlock>) {
    && (forall i | 0 <= i < |blocks| :: !(blocks[i] == TextBlock("")) && !(blocks[i] == ThinkingBlock("")))
    && (forall i | 0 < i < |blocks| :: !blocks[i].TextBlock?)
    && (forall i | 0 < i < |blocks| :: blocks[i].ThinkingBlock? ==> i == 1 && blocks[0].TextBlock?)
  }

  lemma {:induction false} TextAppend(a: seq<ContentBlock>, b: seq<ContentBlock>)
    ensures TextIn(a + b) == TextIn(a) + TextIn(b)
  {
    if a == [] {
      assert a + b == b;
    } else {
      assert (a + b)[1..] == a[1..] + b;
      TextAppend(a[1..], b);
    }
  }

  lemma {:induction false} ThinkingAppend(a: seq<ContentBlock>, b: seq<ContentBlock>)
    ensures ThinkingIn(a + b) == ThinkingIn(a) + ThinkingIn(b)
  {
    if a == [] {
      assert a + b == b;
    } else {
      assert (a + b)[1..] == a[1..] + b;
      ThinkingAppend(a[1..], b);
    }
  }

  lemma {:induction false} CallsAppend(a: seq<ContentBlock>, b: seq<ContentBlock>)
    ensures CallsIn(a + b) == CallsIn(a) + CallsIn(b)
  {
    if a == [] {
      assert a + b == b;
    } else {
      assert (a + b)[1..] == a[1..] + b;
      CallsAppend(a[1..], b);
      CallsTogether(CallOf(a[0]), CallsIn(a[1..]), CallsIn(b));
    }
  }

  lemma {:induction false} CallsTogether(a: seq<ToolCall>, b: seq<ToolCall>, c: seq<ToolCall>)
    ensures a + (b + c) == a + b + c
  {
  }

  function TextPart(text: string): seq<ContentBlock> { if text != "" then [TextBlock(text)] else [] }

  function ThinkingPart(thinking: string): seq<ContentBlock> {
    if thinking != "" then [ThinkingBlock(thinking)] else []
  }

  lemma {:induction false} PartsHold(text: string, thinking: string)
    ensures var a, b := TextPart(text), ThinkingPart(thinking);
      && TextIn(a) == text && ThinkingIn(a) == "" && CallsIn(a) == []
      && TextIn(b) == "" && ThinkingIn(b) == thinking && CallsIn(b) == []
  {
    assert TextPart(text) != [] ==> TextPart(text)[1..] == [];
    assert ThinkingPart(thinking) != [] ==> ThinkingPart(thinking)[1..] == [];
  }

  function CallBlocks(calls: seq<ToolCall>): seq<ContentBlock> {
    seq(|calls|, i requires 0 <= i < |calls| => ToolUseBlock(calls[i].id, calls[i].name, calls[i].input))
  }

  lemma {:induction false} CallBlocksHold(calls: seq<ToolCall>)
    ensures CallsIn(CallBlocks(calls)) == calls && TextIn(CallBlocks(calls)) == "" && ThinkingIn(CallBlocks(calls)) == ""
  {
    if calls != [] {
      CallBlocksHold(calls[1..]);
      assert CallBlocks(calls)[1..] == CallBlocks(calls[1..]);
      assert calls == [calls[0]] + calls[1..];
    }
  }

  ghost predicate HoldsTurn(m: Message, turn: AssistantTurn) {
    && m.Assistant?
    && TextIn(m.content) == Concat(turn.textDeltas) && ThinkingIn(m.content) == Concat(turn.thinkingDeltas)
    && CallsIn(m.content) == turn.toolCalls && InOrder(m.content)
  }

  /** The committed message holds all the text, all the thinking and the calls,
      once and in order, and nothing else. */
  lemma {:induction false} MessageHoldsTurn(turn: AssistantTurn)
    ensures HoldsTurn(IntoMessage(turn), turn)
  {
    var a, b := TextPart(Concat(turn.textDeltas)), ThinkingPart(Concat(turn.thinkingDeltas));
    var c := CallBlocks(turn.toolCalls);
    assert IntoMessage(turn).content == a + b + c;
    PartsHold(Concat(turn.textDeltas), Concat(turn.thinkingDeltas));
    CallBlocksHold(turn.toolCalls);
    ThreeParts(a, b, c);
    PartsInOrder(Concat(turn.textDeltas), Concat(turn.thinkingDeltas), turn.toolCalls);
  }

  lemma {:induction false} ThreeParts(a: seq<ContentBlock>, b: seq<ContentBlock>, c: seq<ContentBlock>)
    ensures TextIn(a + b + c) == TextIn(a) + TextIn(b) + TextIn(c)
    ensures ThinkingIn(a + b + c) == ThinkingIn(a) + ThinkingIn(b) + ThinkingIn(c)
    ensures CallsIn(a + b + c) == CallsIn(a) + CallsIn(b) + CallsIn(c)
  {
    TextAppend(a + b, c);
    TextAppend(a, b);
    ThinkingAppend(a + b, c);
    ThinkingAppend(a, b);
    CallsAppend(a + b, c);
    CallsAppend(a, b);
  }

  lemma {:induction false} PartsInOrder(text: string, thinking: string, calls: seq<ToolCall>)
    ensures InOrder(TextPart(text) + ThinkingPart(thinking) + CallBlocks(calls))
  {
  }

  // -------------------------------------------------------------- trimmed text

  /** White_Space of the Unicode character database, which `str::trim` removes. */
  predicate IsUnicodeSpace(c: char) {
    var n := c as int;
    || 0x9 <= n <= 0xD || n == 0x20 || n == 0x85 || n == 0xA0 || n == 0x1680
    || 0x2000 <= n <= 0x200A || n == 0x2028 || n == 0x2029 || n == 0x202F
    || n == 0x205F || n == 0x3000
  }

  predicate AllUnicodeSpace(s: string) {
    forall i | 0 <= i < |s| :: IsUnicodeSpace(s[i])
  }

  /** The number of leading white-space characters. */
  function LeadingSpace(s: string): (n: nat)
    ensures n <= |s|
  {
    if s == [] || !IsUnicodeSpace(s[0]) then 0 else 1 + LeadingSpace(s[1..])
  }

  /** The length of the text without its trailing white space. */
  function TrimmedLength(s: string): (n: nat)
    ensures n <= |s|
  {
    if s == [] || !IsUnicodeSpace(s[|s| - 1]) then |s| else TrimmedLength(s[..|s| - 1])
  }

  function Trim(s: string): string {
    var t := s[LeadingSpace(s)..];
    t[..TrimmedLength(t)]
  }

  // ----------------------------------------------------------- accumulator state

  datatype Pending = Pending(name: string, input: string)

  datatype AccState = AccState(
    textDeltas: seq<string>, thinkingDeltas: seq<string>,
    pending: map<string, Pending>, order: seq<string>, proposed: set<string>)

  const EMPTY: AccState := AccState([], [], map[], [], {})

  function Recorded(st: AccState, event: Event): AccState {
    match event
    case Text(delta) => st.(textDeltas := st.textDeltas + [delta])
    case Thinking(delta) => st.(thinkingDeltas := st.thinkingDeltas + [delta])
    case ToolCallStreamed(id, name, inputDelta) =>
      var order := if id in st.pending then st.order else st.order + [id];
      var entry := if id in st.pending then st.pending[id] else Pending(name, "");
      var kept := if name != "" && entry.name == "" then name else entry.name;
      st.(order := order, pending := st.pending[id := Pending(kept, entry.input + inputDelta)])
    case _ => st
  }

  /** The proposal that a pending call is ready for. */
  function ReadyProposal(id: string, p: Pending, read: JsonReader): Option<Event> {
    var t := Trim(p.input);
    if p.name != "" && t != "" && t[0] == '{' && t[|t| - 1] == '}' then
      var v := read(t);
      if v.Some? then Some(ToolCallProposed(id, p.name, v.value)) else None
    else None
  }

  function Pushed(st0: AccState, event: Event, read: JsonReader): (AccState, seq<Event>) {
    var st := Recorded(st0, event);
    match event
    case ToolCallStreamed(id, _, _) => Propose(st, id, ReadyProposal(id, st.pending[id], read))
    case _ => (st, [event])
  }

  /** Each id is proposed at most once. */
  function Propose(st: AccState, id: string, ready: Option<Event>): (AccState, seq<Event>) {
    if id in st.proposed || ready.None? then (st, [])
    else (st.(proposed := st.proposed + {id}), [ready.value])
  }

  /** Blank text counts as an object without fields. */
  function FinishedInput(text: string, read: JsonReader): Option<Value> {
    if Trim(text) == "" then Some(Object(map[])) else read(text)
  }

  function FinishedCalls(st: AccState, i: nat, read: JsonReader): FinishResult
    requires i <= |st.order|
    decreases |st.order| - i
  {
    if i == |st.order| then Finished(AssistantTurn(st.textDeltas, st.thinkingDeltas, []))
    else
      var id := st.order[i];
      if id !in st.pending then MissingToolCall(id) else
      var input := FinishedInput(st.pending[id].input, read);
      if input.None? then MalformedToolCall(id) else
      var rest := FinishedCalls(st, i + 1, read);
      if rest.Finished? then
        Finished(rest.turn.(toolCalls := [ToolCall(id, st.pending[id].name, input.value)] + rest.turn.toolCalls))
      else rest
  }

  class TurnAccumulator {
    var textDeltas: seq<string>
    var thinkingDeltas: seq<string>
    var pendingToolCalls: map<string, Pending>
    var toolCallOrder: seq<string>
    var proposedToolCalls: set<string>

    ghost function View(): AccState
      reads this
    {
      AccState(textDeltas, thinkingDeltas, pendingToolCalls, toolCallOrder, proposedToolCalls)
    }

    constructor ()
      ensures View() == EMPTY
    {
      textDeltas, thinkingDeltas := [], [];
      pendingToolCalls, toolCallOrder, proposedToolCalls := map[], [], {};
    }

    method Record(event: Event)
      modifies this
      ensures View() == Recorded(old(View()), event)
    {
      match event
      case Text(delta) => textDeltas := textDeltas + [delta];
      case Thinking(delta) => thinkingDeltas := thinkingDeltas + [delta];
      case ToolCallStreamed(id, name, inputDelta) =>
        var entry;
        if id in pendingToolCalls {
          entry := pendingToolCalls[id];
        } else {
          toolCallOrder := toolCallOrder + [id];
          entry := Pending(name, "");
        }
        if name != "" && entry.name == "" {
          entry := entry.(name := name);
        }
        entry := entry.(input := entry.input + inputDelta);
        pendingToolCalls := pendingToolCalls[id := entry];
      case _ =>
    }

    method Push(event: Event, read: JsonReader) returns (events: seq<Event>)
      modifies this
      ensures (View(), events) == Pushed(old(View()), event, read)
    {
      Record(event);
      match event
      case ToolCallStreamed(id, _, _) =>
        if id in proposedToolCalls {
          return [];
        }
        var proposal := Ready(id, read);
        if proposal.Some? {
          proposedToolCalls := proposedToolCalls + {id};
          return [proposal.value];
        }
        return [];
      case other => return [other];
    }

    /** The proposal of a call whose text so far is a JSON object. */
    method Ready(id: string, read: JsonReader) returns (r: Option<Event>)
      ensures r == if id in pendingToolCalls then ReadyProposal(id, pendingToolCalls[id], read) else None
    {
      if id in pendingToolCalls {
        var pending := pendingToolCalls[id];
        if pending.name != "" {
          var trimmed := Trim(pending.input);
          if trimmed != "" && trimmed[0] == '{' && trimmed[|trimmed| - 1] == '}' {
            var value := read(trimmed);
            if value.Some? {
              return Some(ToolCallProposed(id, pending.name, value.value));
            }
          }
        }
      }
      return None;
    }

    method Finish(read: JsonReader) returns (r: FinishResult)
      ensures r == FinishedCalls(View(), 0, read)
    {
      var toolCalls := [];
      for i := 0 to |toolCallOrder|
        invariant FinishedCalls(View(), 0, read) == WithCallsBefore(toolCalls, FinishedCalls(View(), i, read))
      {
        var id := toolCallOrder[i];
        if id !in pendingToolCalls {
          return MissingToolCall(id);
        }
        var pending := pendingToolCalls[id];
        var input;
        if Trim(pending.input) == "" {
          input := Object(map[]);
        } else {
          var value := read(pending.input);
          if value.None? {
            return MalformedToolCall(id);
          }
          input := value.value;
        }
        CallBefore(toolCalls, ToolCall(id, pending.name, input), FinishedCalls(View(), i + 1, read));
        toolCalls := toolCalls + [ToolCall(id, pending.name, input)];
      }
      assert toolCalls + [] == toolCalls;
      return Finished(AssistantTurn(textDeltas, thinkingDeltas, toolCalls));
    }
  }

  ghost function WithCallsBefore(calls: seq<ToolCall>, r: FinishResult): FinishResult {
    if r.Finished? then Finished(r.turn.(toolCalls := calls + r.turn.toolCalls)) else r
  }

  lemma {:induction false} CallBefore(calls: seq<ToolCall>, call: ToolCall, r: FinishResult)
    ensures WithCallsBefore(calls, WithCallsBefore([call], r)) == WithCallsBefore(calls + [call], r)
  {
    if r.Finished? {
      assert calls + ([call] + r.turn.toolCalls) == calls + [call] + r.turn.toolCalls;
    }
  }

  // ------------------------------------------------- what a stream of events says

  /** Accumulator state and emitted events after a whole stream. */
  function Run(events: seq<Event>, read: JsonReader): (AccState, seq<Event>) {
    if events == [] then (EMPTY, []) else
    var n := |events| - 1;
    var (st, out) := Run(events[..n], read);
    var (st', more) := Pushed(st, events[n], read);
    (st', out + more)
  }

  predicate About(event: Event, id: string) {
    event.ToolCallStreamed? && event.id == id
  }

  /** The ids of streamed calls, each at its first appearance. */
  function FirstAppearances(events: seq<Event>): seq<string> {
    if events == [] then [] else
    var n := |events| - 1;
    var ids := FirstAppearances(events[..n]);
    if events[n].ToolCallStreamed? && events[n].id !in ids then ids + [events[n].id] else ids
  }

  /** The deltas of one id, concatenated in stream order. */
  function InputOf(events: seq<Event>, id: string): string {
    if events == [] then ""
    else (if About(events[0], id) then events[0].inputDelta else "") + InputOf(events[1..], id)
  }

  /** The first name of one id that is not empty. */
  function NameOf(events: seq<Event>, id: string): string {
    if events == [] then ""
    else if About(events[0], id) && events[0].name != "" then events[0].name
    else NameOf(events[1..], id)
  }

  lemma {:induction false} InputOfAppend(a: seq<Event>, b: seq<Event>, id: string)
    ensures InputOf(a + b, id) == InputOf(a, id) + InputOf(b, id)
  {
    if a == [] {
      assert a + b == b;
    } else {
      assert (a + b)[1..] == a[1..] + b;
      InputOfAppend(a[1..], b, id);
    }
  }

  lemma {:induction false} NameOfAppend(a: seq<Event>, b: seq<Event>, id: string)
    ensures NameOf(a + b, id) == if NameOf(a, id) != "" then NameOf(a, id) else NameOf(b, id)
  {
    if a == [] {
      assert a + b == b;
    } else {
      assert (a + b)[1..] == a[1..] + b;
      NameOfAppend(a[1..], b, id);
    }
  }

  /** What a stream of events says in text, and what it thinks. */
  function TextOf(events: seq<Event>): string {
    if events == [] then ""
    else
      var e := events[|events| - 1];
      TextOf(events[..|events| - 1]) + if e.Text? then e.delta else ""
  }

  function ThinkingOf(events: seq<Event>): string {
    if events == [] then ""
    else
      var e := events[|events| - 1];
      ThinkingOf(events[..|events| - 1]) + if e.Thinking? then e.delta else ""
  }

  lemma {:induction false} NoTextLost(events: seq<Event>, read: JsonReader)
    ensures Concat(Run(events, read).0.textDeltas) == TextOf(events)
    ensures Concat(Run(events, read).0.thinkingDeltas) == ThinkingOf(events)
  {
    if events != [] {
      var n := |events| - 1;
      NoTextLost(events[..n], read);
      PushedText(Run(events[..n], read).0, events[n], read);
    }
  }

  lemma {:induction false} PushedText(st: AccState, e: Event, read: JsonReader)
    ensures var after := Pushed(st, e, read).0;
      && Concat(after.textDeltas) == Concat(st.textDeltas) + (if e.Text? then e.delta else "")
      && Concat(after.thinkingDeltas) == Concat(st.thinkingDeltas) + (if e.Thinking? then e.delta else "")
  {
    if e.Text? {
      assert (st.textDeltas + [e.delta])[..|st.textDeltas|] == st.textDeltas;
    } else if e.Thinking? {
      assert (st.thinkingDeltas + [e.delta])[..|st.thinkingDeltas|] == st.thinkingDeltas;
    }
  }

  lemma {:induction false} FinishKeepsText(st: AccState, i: nat, read: JsonReader)
    requires i <= |st.order| && FinishedCalls(st, i, read).Finished?
    ensures FinishedCalls(st, i, read).turn.textDeltas == st.textDeltas
    ensures FinishedCalls(st, i, read).turn.thinkingDeltas == st.thinkingDeltas
    decreases |st.order| - i
  {
    if i < |st.order| {
      FinishKeepsText(st, i + 1, read);
    }
  }

  /** The accumulator holds exactly what the stream said, however the deltas of
      different calls interleave. */
  ghost predicate Assembled(events: seq<Event>, st: AccState) {
    && st.order == FirstAppearances(events)
    && Distinct(st.order)
    && (forall id | id in st.order :: id in st.pending)
    && (forall id | id in st.pending ::
          id in st.order && st.pending[id] == Pending(NameOf(events, id), InputOf(events, id)))
    && (forall id :: id !in st.pending ==> InputOf(events, id) == "" && NameOf(events, id) == "")
  }

  lemma {:induction false} OneMoreEvent(before: seq<Event>, event: Event, id: string)
    ensures InputOf(before + [event], id)
         == InputOf(before, id) + (if About(event, id) then event.inputDelta else "")
    ensures NameOf(before + [event], id)
         == if NameOf(before, id) != "" || !About(event, id) then NameOf(before, id) else event.name
  {
    InputOfAppend(before, [event], id);
    NameOfAppend(before, [event], id);
    assert [event][1..] == [];
  }

  lemma {:induction false} FirstAppearancesStep(before: seq<Event>, event: Event)
    ensures FirstAppearances(before + [event])
         == if event.ToolCallStreamed? && event.id !in FirstAppearances(before)
            then FirstAppearances(before) + [event.id] else FirstAppearances(before)
  {
    assert (before + [event])[..|before|] == before;
  }

  lemma {:induction false} RecordedAssembles(before: seq<Event>, event: Event, st: AccState)
    requires Assembled(before, st)
    ensures Assembled(before + [event], Recorded(st, event))
  {
    var after := Recorded(st, event);
    FirstAppearancesStep(before, event);
    forall id
      ensures id in after.pending <==> id in after.order
      ensures id in after.pending ==>
        after.pending[id] == Pending(NameOf(before + [event], id), InputOf(before + [event], id))
      ensures id !in after.pending ==> InputOf(before + [event], id) == "" && NameOf(before + [event], id) == ""
    {
      OneMoreEvent(before, event, id);
    }
  }

  lemma {:induction false} PushedAssembles(before: seq<Event>, event: Event, st: AccState, read: JsonReader)
    requires Assembled(before, st)
    ensures Assembled(before + [event], Pushed(st, event, read).0)
  {
    RecordedAssembles(before, event, st);
    var (st', _) := Pushed(st, event, read);
    assert st' == Recorded(st, event).(proposed := st'.proposed);
  }

  lemma {:induction false} OneMoreRun(events: seq<Event>, read: JsonReader)
    requires events != []
    ensures var n := |events| - 1;
      var (st, out) := Run(events[..n], read);
      Run(events, read) == (Pushed(st, events[n], read).0, out + Pushed(st, events[n], read).1)
  {
  }

  lemma {:induction false} NothingAssembled()
    ensures Assembled([], EMPTY)
  {
  }

  lemma {:induction false} RunAssembles(events: seq<Event>, read: JsonReader)
    ensures Assembled(events, Run(events, read).0)
  {
    if events == [] {
      NothingAssembled();
    } else {
      var n := |events| - 1;
      RunAssembles(events[..n], read);
      PushedAssembles(events[..n], events[n], Run(events[..n], read).0, read);
      OneMoreRun(events, read);
      assert events == events[..n] + [events[n]];
    }
  }

  // --------------------------------------------------------- the finished turn

  /** What a finished turn must be, read off the stream alone. */
  ghost predicate TurnOf(events: seq<Event>, turn: AssistantTurn, read: JsonReader) {
    var ids := FirstAppearances(events);
    && Concat(turn.textDeltas) == TextOf(events) && Concat(turn.thinkingDeltas) == ThinkingOf(events)
    && |turn.toolCalls| == |ids|
    && Distinct(ids)
    && forall i | 0 <= i < |ids| ::
         && turn.toolCalls[i].id == ids[i]
         && turn.toolCalls[i].name == NameOf(events, ids[i])
         && ReadsAs(InputOf(events, ids[i]), read, Some(turn.toolCalls[i].input))
  }

  /** What the whole text of a call comes to: blank text is an object without
      fields, any other text is read as it stands. */
  ghost predicate ReadsAs(text: string, read: JsonReader, v: Option<Value>) {
    if AllUnicodeSpace(text) then v == Some(Object(map[])) else v == read(text)
  }

  lemma {:induction false} BlankIffTrimmedAway(s: string)
    ensures Trim(s) == "" <==> AllUnicodeSpace(s)
  {
    var pre, post := TrimParts(s);
    if Trim(s) == "" {
      assert s == pre + post;
    } else {
      assert s[|pre|] == (pre + Trim(s) + post)[|pre|] == Trim(s)[0];
    }
  }

  lemma {:induction false} FinishedInputIs(text: string, read: JsonReader)
    ensures ReadsAs(text, read, FinishedInput(text, read))
  {
    BlankIffTrimmedAway(text);
  }

  lemma {:induction false} FinishFails(st: AccState, i: nat, read: JsonReader)
    requires i <= |st.order| && forall id | id in st.order :: id in st.pending
    ensures !FinishedCalls(st, i, read).MissingToolCall?
    ensures FinishedCalls(st, i, read).MalformedToolCall? <==> Unreadable(st, i, read)
    decreases |st.order| - i
  {
    if i < |st.order| {
      FinishFails(st, i + 1, read);
    }
  }

  /** Some call from position i on does not read. */
  ghost predicate Unreadable(st: AccState, i: nat, read: JsonReader)
    requires i <= |st.order| && forall id | id in st.order :: id in st.pending
    decreases |st.order| - i
  {
    i < |st.order| && (FinishedInput(st.pending[st.order[i]].input, read).None? || Unreadable(st, i + 1, read))
  }

  ghost predicate IsCall(st: AccState, id: string, call: ToolCall, read: JsonReader) {
    && id in st.pending && call.id == id && call.name == st.pending[id].name
    && Some(call.input) == FinishedInput(st.pending[id].input, read)
  }

  ghost predicate AreCalls(st: AccState, i: nat, calls: seq<ToolCall>, read: JsonReader) {
    && |calls| + i == |st.order|
    && forall j | 0 <= j < |calls| :: IsCall(st, st.order[i + j], calls[j], read)
  }

  lemma {:induction false} FinishSucceeds(st: AccState, i: nat, read: JsonReader)
    requires i <= |st.order| && FinishedCalls(st, i, read).Finished?
    ensures AreCalls(st, i, FinishedCalls(st, i, read).turn.toolCalls, read)
    decreases |st.order| - i
  {
    if i < |st.order| {
      FinishSucceeds(st, i + 1, read);
      var turn, rest := FinishedCalls(st, i, read).turn, FinishedCalls(st, i + 1, read).turn;
      forall j | 0 <= j < |turn.toolCalls| ensures IsCall(st, st.order[i + j], turn.toolCalls[j], read) {
        if j > 0 {
          assert turn.toolCalls[j] == rest.toolCalls[j - 1];
        }
      }
    }
  }

  lemma {:induction false} UnreadableSome(st: AccState, i: nat, read: JsonReader)
    requires i <= |st.order| && forall id | id in st.order :: id in st.pending
    ensures Unreadable(st, i, read) <==>
      exists id :: id in st.order[i..] && FinishedInput(st.pending[id].input, read).None?
    decreases |st.order| - i
  {
    if i < |st.order| {
      UnreadableSome(st, i + 1, read);
      assert st.order[i..] == [st.order[i]] + st.order[i + 1..];
    }
  }

  /** Finishing never misses an accumulated call; it fails exactly when the
      text of some call is neither blank nor a JSON value. */
  lemma {:induction false} FinishVerdict(events: seq<Event>, read: JsonReader)
    ensures !FinishedCalls(Run(events, read).0, 0, read).MissingToolCall?
    ensures FinishedCalls(Run(events, read).0, 0, read).MalformedToolCall? <==>
      exists id :: id in FirstAppearances(events) && ReadsAs(InputOf(events, id), read, None)
    ensures FinishedCalls(Run(events, read).0, 0, read).MalformedToolCall? ==>
      FirstUnreadable(events, FinishedCalls(Run(events, read).0, 0, read).id, read)
  {
    var st := Run(events, read).0;
    RunAssembles(events, read);
    FinishFails(st, 0, read);
    UnreadableSome(st, 0, read);
    assert st.order[0..] == st.order;
    forall id | id in st.order ensures FinishedInput(st.pending[id].input, read).None? <==> ReadsAs(InputOf(events, id), read, None) {
      FinishedInputIs(InputOf(events, id), read);
    }
    if FinishedCalls(st, 0, read).MalformedToolCall? {
      var i := FirstMalformed(st, 0, read);
      assert ReadsAs(InputOf(events, st.order[i]), read, None);
    }
  }

  /** The id is the first whose text does not read. */
  ghost predicate FirstUnreadable(events: seq<Event>, id: string, read: JsonReader) {
    var ids := FirstAppearances(events);
    exists i :: 0 <= i < |ids| && ids[i] == id && ReadsAs(InputOf(events, id), read, None)
      && forall j | 0 <= j < i :: !ReadsAs(InputOf(events, ids[j]), read, None)
  }

  lemma {:induction false} FirstMalformed(st: AccState, i: nat, read: JsonReader) returns (k: nat)
    requires i <= |st.order| && (forall id | id in st.order :: id in st.pending)
    requires FinishedCalls(st, i, read).MalformedToolCall?
    ensures i <= k < |st.order| && st.order[k] == FinishedCalls(st, i, read).id
    ensures FinishedInput(st.pending[st.order[k]].input, read).None?
    ensures forall j | i <= j < k :: FinishedInput(st.pending[st.order[j]].input, read).Some?
    decreases |st.order| - i
  {
    if FinishedInput(st.pending[st.order[i]].input, read).None? {
      k := i;
    } else {
      k := FirstMalformed(st, i + 1, read);
    }
  }

  /** A finished turn holds all the text, and each streamed call once, in order
      of first appearance, under its first name and with all its deltas read. */
  lemma {:induction false} FinishedTurn(events: seq<Event>, read: JsonReader, turn: AssistantTurn)
    requires FinishedCalls(Run(events, read).0, 0, read) == Finished(turn)
    ensures TurnOf(events, turn, read)
  {
    var st := Run(events, read).0;
    RunAssembles(events, read);
    FinishSucceeds(st, 0, read);
    FinishedText(events, read, turn);
    CallsAreTurn(events, st, turn, read);
  }

  lemma {:induction false} FinishedText(events: seq<Event>, read: JsonReader, turn: AssistantTurn)
    requires FinishedCalls(Run(events, read).0, 0, read) == Finished(turn)
    ensures Concat(turn.textDeltas) == TextOf(events) && Concat(turn.thinkingDeltas) == ThinkingOf(events)
  {
    NoTextLost(events, read);
    FinishKeepsText(Run(events, read).0, 0, read);
  }

  lemma {:induction false} CallsAreTurn(events: seq<Event>, st: AccState, turn: AssistantTurn, read: JsonReader)
    requires Assembled(events, st) && AreCalls(st, 0, turn.toolCalls, read)
    requires Concat(turn.textDeltas) == TextOf(events) && Concat(turn.thinkingDeltas) == ThinkingOf(events)
    ensures TurnOf(events, turn, read)
  {
    forall i | 0 <= i < |st.order| ensures
      && turn.toolCalls[i].id == st.order[i]
      && turn.toolCalls[i].name == NameOf(events, st.order[i])
      && ReadsAs(InputOf(events, st.order[i]), read, Some(turn.toolCalls[i].input))
    {
      assert IsCall(st, st.order[0 + i], turn.toolCalls[i], read);
      FinishedInputIs(InputOf(events, st.order[i]), read);
    }
  }

  // ------------------------------------------------------------ early proposals

  lemma {:induction false} SkipsJsonSpace(a: string, b: string)
    requires AllJsonSpace(a)
    ensures SkipSpace(a + b) == SkipSpace(b)
  {
    if a == [] {
      assert a + b == b;
    } else {
      assert (a + b)[1..] == a[1..] + b;
      SkipsJsonSpace(a[1..], b);
    }
  }

  lemma {:induction false} SkippedAllIsSpace(s: string)
    ensures SkipSpace(s) == [] <==> AllJsonSpace(s)
  {
    if s != [] && IsJsonSpace(s[0]) {
      SkippedAllIsSpace(s[1..]);
      assert s == [s[0]] + s[1..];
    }
  }

  /** White space that is not JSON space starts no value. */
  lemma {:induction false} OddSpaceStartsNoValue(pre: string, t: string, depth: nat, num: NumberReader)
    requires AllUnicodeSpace(pre) && !AllJsonSpace(pre)
    ensures ParseValue(pre + t, depth, num).Err?
  {
    var s := SkipSpace(pre + t);
    OddSpaceRemains(pre, t);
  }

  lemma {:induction false} OddSpaceRemains(pre: string, t: string)
    requires AllUnicodeSpace(pre) && !AllJsonSpace(pre)
    ensures SkipSpace(pre + t) != [] && IsUnicodeSpace(SkipSpace(pre + t)[0])
  {
    assert (pre + t)[0] == pre[0];
    if IsJsonSpace(pre[0]) {
      assert (pre + t)[1..] == pre[1..] + t;
      OddSpaceRemains(pre[1..], t);
    }
  }

  lemma {:induction false} LeadingIsSpace(s: string)
    ensures AllUnicodeSpace(s[..LeadingSpace(s)])
    ensures LeadingSpace(s) < |s| ==> !IsUnicodeSpace(s[LeadingSpace(s)])
  {
    if s != [] && IsUnicodeSpace(s[0]) {
      LeadingIsSpace(s[1..]);
      assert s[..LeadingSpace(s)] == [s[0]] + s[1..][..LeadingSpace(s[1..])];
    }
  }

  lemma {:induction false} TrailingIsSpace(s: string)
    ensures AllUnicodeSpace(s[TrimmedLength(s)..])
    ensures TrimmedLength(s) > 0 ==> !IsUnicodeSpace(s[TrimmedLength(s) - 1])
  {
    if s != [] && IsUnicodeSpace(s[|s| - 1]) {
      var u := s[..|s| - 1];
      TrailingIsSpace(u);
      assert s[TrimmedLength(s)..] == u[TrimmedLength(u)..] + [s[|s| - 1]];
    }
  }

  lemma {:induction false} TrimParts(s: string) returns (pre: string, post: string)
    ensures s == pre + Trim(s) + post
    ensures AllUnicodeSpace(pre) && AllUnicodeSpace(post)
    ensures Trim(s) != "" ==> !IsUnicodeSpace(Trim(s)[0]) && !IsUnicodeSpace(Trim(s)[|Trim(s)| - 1])
  {
    var n := LeadingSpace(s);
    var t := s[n..];
    LeadingIsSpace(s);
    TrailingIsSpace(t);
    pre, post := s[..n], t[TrimmedLength(t)..];
  }

  lemma {:induction false} ParseSkipped(s: string, t: string, depth: nat, num: NumberReader)
    requires SkipSpace(s) == SkipSpace(t)
    ensures ParseValue(s, depth, num) == ParseValue(t, depth, num)
  {
  }

  /** The heart of early proposing: once `text` is a whole JSON object, a
      longer text around it is a JSON value exactly when only JSON space was
      added, and then it is the same value. */
  lemma {:induction false} ObjectTextIsFinal(pre: string, text: string, post: string, v: Value, num: NumberReader)
    requires AllUnicodeSpace(pre)
    requires text != "" && text[0] == '{' && FromStr(text, num) == Some(v)
    ensures FromStr(pre + text + post, num).Some? <==> AllJsonSpace(pre) && AllJsonSpace(post)
    ensures FromStr(pre + text + post, num).Some? ==> FromStr(pre + text + post, num) == Some(v)
  {
    var full := pre + text + post;
    assert full == pre + (text + post);
    if !AllJsonSpace(pre) {
      OddSpaceStartsNoValue(pre, text + post, RECURSION_LIMIT, num);
    } else {
      SkipsJsonSpace(pre, text + post);
      ParseSkipped(full, text + post, RECURSION_LIMIT, num);
      var r := ParseValue(text, RECURSION_LIMIT, num);
      assert r.value.Object?;
      ValueAppend(text, RECURSION_LIMIT, num, post, r);
      SkippedAllIsSpace(r.rest);
      SkipsJsonSpace(r.rest, post);
      SkippedAllIsSpace(post);
    }
  }

  lemma {:induction false} ProposalMeans(id: string, p: Pending, more: string, num: NumberReader)
    requires ReadyProposal(id, p, SerdeReader(num)).Some?
    ensures FinishedInput(p.input + more, SerdeReader(num)).Some? ==>
      && FinishedInput(p.input + more, SerdeReader(num)) == Some(ReadyProposal(id, p, SerdeReader(num)).value.input)
      && AllJsonSpace(more)
  {
    var pre, post := TrimParts(p.input);
    var t := Trim(p.input);
    var v := ReadyProposal(id, p, SerdeReader(num)).value.input;
    var full := p.input + more;
    assert full == pre + t + (post + more);
    NotBlank(full, |pre|);
    ObjectTextIsFinal(pre, t, post + more, v, num);
    assert AllJsonSpace(post + more) ==> AllJsonSpace(more) by {
      assert forall i | 0 <= i < |more| :: more[i] == (post + more)[|post| + i];
    }
  }

  lemma {:induction false} NotBlank(s: string, i: nat)
    requires i < |s| && !IsUnicodeSpace(s[i])
    ensures Trim(s) != ""
  {
    var pre, post := TrimParts(s);
    assert s[i] == (pre + Trim(s) + post)[i];
  }

  /** Whatever text follows a proposed one, if it reads at all it reads as what
      was proposed, and only JSON space followed. */
  ghost predicate StaysRight(id: string, p: Pending, more: string, read: JsonReader) {
    ReadyProposal(id, p, read).Some? && FinishedInput(p.input + more, read).Some? ==>
      && FinishedInput(p.input + more, read) == Some(ReadyProposal(id, p, read).value.input)
      && AllJsonSpace(more)
  }

  ghost predicate ProposalsStayRight(read: JsonReader) {
    forall id: string, p: Pending, more: string :: StaysRight(id, p, more, read)
  }

  lemma {:induction false} SerdeProposalsStayRight(num: NumberReader)
    ensures ProposalsStayRight(SerdeReader(num))
  {
    forall id: string, p: Pending, more: string ensures StaysRight(id, p, more, SerdeReader(num)) {
      if ReadyProposal(id, p, SerdeReader(num)).Some? {
        ProposalMeans(id, p, more, num);
      }
    }
  }

  lemma {:induction false} ProposalIsCall(before: seq<Event>, event: Event, after: seq<Event>,
                                          read: JsonReader, proposal: Event, turn: AssistantTurn) returns (i: nat)
    requires event.ToolCallStreamed? && ProposalsStayRight(read)
    requires Pushed(Run(before, read).0, event, read).1 == [proposal]
    requires FinishedCalls(Run(before + [event] + after, read).0, 0, read) == Finished(turn)
    ensures i < |turn.toolCalls| && AsProposal(turn.toolCalls[i]) == proposal && proposal.id == event.id
    ensures AllJsonSpace(InputOf(after, event.id))
  {
    var id, early, all := event.id, before + [event], before + [event] + after;
    RunAssembles(before, read);
    RecordedAssembles(before, event, Run(before, read).0);
    var p := Recorded(Run(before, read).0, event).pending[id];
    assert ReadyProposal(id, p, read) == Some(proposal);
    assert p == Pending(NameOf(early, id), InputOf(early, id));
    InputOfAppend(early, after, id);
    NameOfAppend(early, after, id);
    assert InputOf(early, id) != "";
    i := CallOfId(all, id, read, turn);
    FinishedInputIs(InputOf(all, id), read);
    assert StaysRight(id, p, InputOf(after, id), read);
  }

  lemma {:induction false} CallOfId(events: seq<Event>, id: string, read: JsonReader, turn: AssistantTurn) returns (i: nat)
    requires FinishedCalls(Run(events, read).0, 0, read) == Finished(turn) && InputOf(events, id) != ""
    ensures i < |turn.toolCalls| && turn.toolCalls[i].id == id && turn.toolCalls[i].name == NameOf(events, id)
    ensures ReadsAs(InputOf(events, id), read, Some(turn.toolCalls[i].input))
  {
    FinishedTurn(events, read, turn);
    RunAssembles(events, read);
    assert id in FirstAppearances(events);
    i :| 0 <= i < |FirstAppearances(events)| && FirstAppearances(events)[i] == id;
  }

  /** Every call proposed while streaming is the call that is finally
      committed, and only JSON space can have arrived for it in between. */
  lemma {:induction false} EarlyProposalIsRight(before: seq<Event>, event: Event, after: seq<Event>,
                             num: NumberReader, read: JsonReader, proposal: Event, turn: AssistantTurn) returns (i: nat)
    requires event.ToolCallStreamed? && read == SerdeReader(num)
    requires Pushed(Run(before, read).0, event, read).1 == [proposal]
    requires FinishedCalls(Run(before + [event] + after, read).0, 0, read) == Finished(turn)
    ensures proposal.ToolCallProposed? && proposal.id == event.id
    ensures i < |turn.toolCalls|
    ensures turn.toolCalls[i] == ToolCall(proposal.id, proposal.name, proposal.input)
    ensures AllJsonSpace(InputOf(after, event.id))
  {
    SerdeProposalsStayRight(num);
    i := ProposalIsCall(before, event, after, read, proposal, turn);
  }

  // ------------------------------------------------------ one proposal per call

  predicate NoneProposed(events: seq<Event>) {
    forall e | e in events :: !e.ToolCallProposed?
  }

  /** The proposals among the emitted events. */
  function Proposals(events: seq<Event>): seq<Event> {
    if events == [] then [] else
    var n := |events| - 1;
    Proposals(events[..n]) + (if events[n].ToolCallProposed? then [events[n]] else [])
  }

  function AsProposal(call: ToolCall): Event { ToolCallProposed(call.id, call.name, call.input) }

  function AsProposals(calls: seq<ToolCall>): seq<Event> {
    seq(|calls|, i requires 0 <= i < |calls| => AsProposal(calls[i]))
  }

  function ProposedIds(proposals: seq<Event>): set<string> {
    set p | p in proposals && p.ToolCallProposed? :: p.id
  }

  /** After the stream, the loop proposes the calls that were not proposed yet. */
  function LateProposals(calls: seq<ToolCall>, emitted: set<string>): seq<Event> {
    if calls == [] then [] else
    var n := |calls| - 1;
    LateProposals(calls[..n], emitted) + (if calls[n].id in emitted then [] else [AsProposal(calls[n])])
  }

  lemma {:induction false} ProposalsAppend(a: seq<Event>, b: seq<Event>)
    ensures Proposals(a + b) == Proposals(a) + Proposals(b)
  {
    if b == [] {
      assert a + b == a;
    } else {
      var n := |b| - 1;
      assert (a + b)[..|a| + n] == a + b[..n];
      ProposalsAppend(a, b[..n]);
    }
  }

  /** The proposals made so far are those of the proposed ids, once each. */
  ghost predicate ProposedOnce(proposals: seq<Event>, st: AccState) {
    && (forall p | p in proposals :: p.ToolCallProposed? && p.id in st.proposed)
    && (forall id | id in st.proposed :: id in ProposedIds(proposals))
    && Distinct(proposals)
  }

  lemma {:induction false} EarlyProposals(events: seq<Event>, read: JsonReader)
    requires NoneProposed(events)
    ensures ProposedOnce(Proposals(Run(events, read).1), Run(events, read).0)
  {
    if events != [] {
      var n := |events| - 1;
      var (st, out) := Run(events[..n], read);
      EarlyProposals(events[..n], read);
      assert events[n] in events;
      PushKeepsProposedOnce(Proposals(out), st, events[n], read);
      ProposalsAppend(out, Pushed(st, events[n], read).1);
    }
  }

  lemma {:induction false} OneMoreProposal(proposals: seq<Event>, st: AccState, p: Event)
    requires ProposedOnce(proposals, st) && p.ToolCallProposed? && p.id !in st.proposed
    ensures ProposedOnce(proposals + [p], st.(proposed := st.proposed + {p.id}))
  {
    var after := proposals + [p];
    assert after[|proposals|] in after;
    forall id | id in st.proposed ensures id in ProposedIds(after) {
      assert id in ProposedIds(proposals);
      var q :| q in proposals && q.ToolCallProposed? && q.id == id;
      assert q in after;
    }
  }

  lemma {:induction false} PushKeepsProposedOnce(proposals: seq<Event>, st: AccState, event: Event, read: JsonReader)
    requires ProposedOnce(proposals, st) && !event.ToolCallProposed?
    ensures ProposedOnce(proposals + Proposals(Pushed(st, event, read).1), Pushed(st, event, read).0)
  {
    var more := PushedProposals(st, event, read);
    if event.ToolCallStreamed? && more != [] {
      OneMoreProposal(proposals, st, more[0]);
      assert more == [more[0]];
    } else {
      assert proposals + [] == proposals;
    }
  }

  lemma {:induction false} PushedProposals(st: AccState, event: Event, read: JsonReader) returns (more: seq<Event>)
    requires !event.ToolCallProposed?
    ensures more == Pushed(st, event, read).1
    ensures Proposals(more) == if event.ToolCallStreamed? then more else []
    ensures |more| <= 1
    ensures Pushed(st, event, read).0.proposed
         == st.proposed + (if event.ToolCallStreamed? && more != [] then {more[0].id} else {})
    ensures event.ToolCallStreamed? && more != [] ==> more[0].ToolCallProposed? && more[0].id !in st.proposed
  {
    more := Pushed(st, event, read).1;
    if event.ToolCallStreamed? {
      var after := Recorded(st, event);
      ProposeAtMostOnce(after, event.id, ReadyProposal(event.id, after.pending[event.id], read));
    }
    if more != [] {
      ProposalsOfOne(more[0]);
      assert more == [more[0]];
    }
  }

  lemma {:induction false} ProposalsOfOne(e: Event)
    ensures Proposals([e]) == if e.ToolCallProposed? then [e] else []
  {
    assert [e][..0] == [];
  }

  lemma {:induction false} ProposeAtMostOnce(st: AccState, id: string, ready: Option<Event>)
    requires ready.Some? ==> ready.value.ToolCallProposed? && ready.value.id == id
    ensures Propose(st, id, ready).1 == if id !in st.proposed && ready.Some? then [ready.value] else []
    ensures Propose(st, id, ready).0.proposed
         == st.proposed + (if id !in st.proposed && ready.Some? then {id} else {})
  {
  }

  lemma {:induction false} NextProposalIsCall(before: seq<Event>, event: Event, after: seq<Event>, read: JsonReader, turn: AssistantTurn)
    requires !event.ToolCallProposed? && ProposalsStayRight(read)
    requires FinishedCalls(Run(before + [event] + after, read).0, 0, read) == Finished(turn)
    ensures forall p | p in Proposals(Pushed(Run(before, read).0, event, read).1) :: p in AsProposals(turn.toolCalls)
  {
    var more := PushedProposals(Run(before, read).0, event, read);
    if event.ToolCallStreamed? && more != [] {
      assert more == [more[0]];
      var i := ProposalIsCall(before, event, after, read, more[0], turn);
      assert AsProposals(turn.toolCalls)[i] == more[0];
    }
  }

  lemma {:induction false} Regroup(front: seq<Event>, event: Event, before: seq<Event>, after: seq<Event>)
    requires before != [] && front == before[..|before| - 1] && event == before[|before| - 1]
    ensures before + after == front + [event] + after == front + ([event] + after)
    ensures front + [event] == before
  {
  }

  lemma {:induction false} EarlyProposalsAreCalls(before: seq<Event>, after: seq<Event>, read: JsonReader, turn: AssistantTurn)
    requires NoneProposed(before) && ProposalsStayRight(read)
    requires FinishedCalls(Run(before + after, read).0, 0, read) == Finished(turn)
    ensures forall p | p in Proposals(Run(before, read).1) :: p in AsProposals(turn.toolCalls)
    decreases |before|
  {
    if before != [] {
      var n := |before| - 1;
      var front, event := before[..n], before[n];
      assert event in before;
      Regroup(front, event, before, after);
      EarlyProposalsAreCalls(front, [event] + after, read, turn);
      NextProposalIsCall(front, event, after, read, turn);
      ProposalsAppend(Run(front, read).1, Pushed(Run(front, read).0, event, read).1);
    }
  }

  lemma {:induction false} LateProposalsAre(calls: seq<ToolCall>, emitted: set<string>)
    requires forall i, j | 0 <= i < j < |calls| :: calls[i].id != calls[j].id
    ensures var late := LateProposals(calls, emitted);
      && Distinct(late)
      && forall p :: p in late <==> p in AsProposals(calls) && p.id !in emitted
  {
    if calls != [] {
      var n := |calls| - 1;
      LateProposalsAre(calls[..n], emitted);
      assert AsProposals(calls) == AsProposals(calls[..n]) + [AsProposal(calls[n])];
      assert AsProposal(calls[n]) !in AsProposals(calls[..n]);
    }
  }

  lemma {:induction false} EarlyAndLateAreAll(early: seq<Event>, calls: seq<ToolCall>)
    requires forall i, j | 0 <= i < j < |calls| :: calls[i].id != calls[j].id
    requires Distinct(early) && forall p | p in early :: p in AsProposals(calls)
    ensures multiset(early + LateProposals(calls, ProposedIds(early))) == multiset(AsProposals(calls))
  {
    var late, all := LateProposals(calls, ProposedIds(early)), AsProposals(calls);
    LateProposalsAre(calls, ProposedIds(early));
    forall p | p in all ensures p in early <==> p.id in ProposedIds(early) {
      if p.id in ProposedIds(early) {
        var q :| q in early && q.ToolCallProposed? && q.id == p.id;
        assert q in all;
      }
    }
    DistinctUnion(early, late, all);
  }

  /** Two lists without repetition that split a third. */
  lemma {:induction false} DistinctUnion(a: seq<Event>, b: seq<Event>, all: seq<Event>)
    requires Distinct(a) && Distinct(b) && Distinct(all)
    requires forall p :: p in all <==> p in a || p in b
    requires forall p | p in a :: p !in b
    ensures multiset(a + b) == multiset(all)
  {
    DistinctMultiset(a);
    DistinctMultiset(b);
    DistinctMultiset(all);
    forall p ensures multiset(a + b)[p] == multiset(all)[p] {
      assert multiset(a + b)[p] == multiset(a)[p] + multiset(b)[p];
      assert p in a <==> p in multiset(a);
      assert p in b <==> p in multiset(b);
      assert p in all <==> p in multiset(all);
    }
  }

  /** When the provider streams no proposals of its own, the events of a turn
      hold exactly one proposal for each committed call, early or late. */
  lemma {:induction false} EachCallProposedOnce(events: seq<Event>, num: NumberReader, read: JsonReader, turn: AssistantTurn)
    requires NoneProposed(events) && read == SerdeReader(num)
    requires FinishedCalls(Run(events, read).0, 0, read) == Finished(turn)
    ensures var early := Proposals(Run(events, read).1);
      multiset(early + LateProposals(turn.toolCalls, ProposedIds(early))) == multiset(AsProposals(turn.toolCalls))
  {
    var early := Proposals(Run(events, read).1);
    EarlyProposals(events, read);
    assert events + [] == events;
    SerdeProposalsStayRight(num);
    EarlyProposalsAreCalls(events, [], read, turn);
    FinishedTurn(events, read, turn);
    DistinctCalls(events, turn, read);
    EarlyAndLateAreAll(early, turn.toolCalls);
  }

  lemma {:induction false} ProposedIdsOfProposals(events: seq<Event>)
    ensures ProposedIds(Proposals(events)) == ProposedIds(events)
    ensures forall p :: p in Proposals(events) <==> p in events && p.ToolCallProposed?
  {
    if events != [] {
      var n := |events| - 1;
      ProposedIdsOfProposals(events[..n]);
      assert forall p :: p in events <==> p in events[..n] || p == events[n];
    }
  }

  lemma {:induction false} DistinctCalls(events: seq<Event>, turn: AssistantTurn, read: JsonReader)
    requires TurnOf(events, turn, read)
    ensures forall i, j | 0 <= i < j < |turn.toolCalls| :: turn.toolCalls[i].id != turn.toolCalls[j].id
  {
  }
}
