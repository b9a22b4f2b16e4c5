/** When a call is proposed while it is still streaming. */
module EarlyCalls {
  import opened Json
  import opened JsonGrammar
  import opened AgentEvents
  import opened Turns

  /** The call so far has a name, and its text without the space around it is a
      whole JSON object. */
  ghost predicate IsWhole(events: seq<Event>, id: string, num: NumberReader) {
    && NameOf(events, id) != ""
    && var v := FromStr(Trim(InputOf(events, id)), num); v.Some? && v.value.Object?
  }

  /** Some earlier delta of the call made it whole. */
  ghost predicate WasWhole(events: seq<Event>, id: string, num: NumberReader) {
    exists k: nat :: k < |events| && About(events[k], id) && IsWhole(events[..k + 1], id, num)
  }

  /** What one more event of the stream leads to: a delta to a proposal when it is
      the first to make its call whole, and to nothing otherwise; any other event
      to itself. */
  ghost function EmittedFor(before: seq<Event>, event: Event, num: NumberReader): seq<Event> {
    if !event.ToolCallStreamed? then [event]
    else
      var all := before + [event];
      if IsWhole(all, event.id, num) && !WasWhole(before, event.id, num) then
        [ToolCallProposed(event.id, NameOf(all, event.id), FromStr(Trim(InputOf(all, event.id)), num).value)]
      else []
  }

  ghost function Emitted(events: seq<Event>, num: NumberReader): seq<Event> {
    if events == [] then []
    else
      var n := |events| - 1;
      Emitted(events[..n], num) + EmittedFor(events[..n], events[n], num)
  }

  // ------------------------------------------------------------ trimmed object texts

  lemma {:induction false} BlankIsUnicodeSpace(s: string)
    requires IsBlank(s) && s != ""
    ensures IsUnicodeSpace(s[0]) && IsUnicodeSpace(s[|s| - 1])
  {
  }

  /** A trimmed text that reads as an object starts and ends with its braces. */
  lemma {:induction false} TrimmedObject(t: string, num: NumberReader)
    requires t != "" ==> !IsUnicodeSpace(t[0]) && !IsUnicodeSpace(t[|t| - 1])
    requires FromStr(t, num).Some? && FromStr(t, num).value.Object?
    ensures t != "" && t[0] == '{' && t[|t| - 1] == '}'
  {
    ReadIsGrammar(t, num);
    var v := FromStr(t, num).value;
    var w, u, x :| t == w + u + x && IsBlank(w) && ValueText(u, v, RECURSION_LIMIT, num) && IsBlank(x);
    assert w != "" ==> t[0] == w[0];
    assert x != "" ==> t[|t| - 1] == x[|x| - 1];
    if w != "" {
      BlankIsUnicodeSpace(w);
      assert false;
    }
    if x != "" {
      BlankIsUnicodeSpace(x);
      assert false;
    }
    assert t == u;
  }

  lemma {:induction false} BraceIsObject(t: string, num: NumberReader)
    requires t != "" && t[0] == '{' && FromStr(t, num).Some?
    ensures FromStr(t, num).value.Object?
  {
  }

  /** The accumulator's test of braces and text asks exactly for a whole object. */
  lemma {:induction false} ReadyIffWhole(id: string, p: Pending, num: NumberReader)
    ensures var v := FromStr(Trim(p.input), num);
      ReadyProposal(id, p, SerdeReader(num))
      == if p.name != "" && v.Some? && v.value.Object? then Some(ToolCallProposed(id, p.name, v.value)) else None
  {
    var pre, post := TrimParts(p.input);
    var t := Trim(p.input);
    if FromStr(t, num).Some? {
      if FromStr(t, num).value.Object? {
        TrimmedObject(t, num);
      } else if t != "" && t[0] == '{' {
        BraceIsObject(t, num);
      }
    }
  }

  // ------------------------------------------------------------ what a stream emits

  lemma {:induction false} WholeMore(events: seq<Event>, event: Event, id: string, num: NumberReader)
    ensures WasWhole(events + [event], id, num)
       <==> WasWhole(events, id, num) || (About(event, id) && IsWhole(events + [event], id, num))
  {
    var all := events + [event];
    assert all[..|events| + 1] == all && all[|events|] == event;
    forall k: nat | k < |events| ensures all[k] == events[k] && all[..k + 1] == events[..k + 1] {
    }
    if WasWhole(events, id, num) {
      var k: nat :| k < |events| && About(events[k], id) && IsWhole(events[..k + 1], id, num);
      assert About(all[k], id) && IsWhole(all[..k + 1], id, num);
    }
  }

  /** The calls marked as proposed are those that have been whole. */
  ghost predicate MarksWhole(st: AccState, events: seq<Event>, num: NumberReader) {
    forall id :: id in st.proposed <==> WasWhole(events, id, num)
  }

  /** The call of the event is ready exactly when it is whole. */
  lemma {:induction false} RecordedReady(before: seq<Event>, event: Event, st: AccState, num: NumberReader)
    requires Assembled(before, st) && event.ToolCallStreamed?
    ensures var all, now := before + [event], Recorded(st, event);
      var v := FromStr(Trim(InputOf(all, event.id)), num);
      && event.id in now.pending && now.proposed == st.proposed
      && ReadyProposal(event.id, now.pending[event.id], SerdeReader(num))
         == if NameOf(all, event.id) != "" && v.Some? && v.value.Object?
            then Some(ToolCallProposed(event.id, NameOf(all, event.id), v.value)) else None
  {
    var all := before + [event];
    RecordedAssembles(before, event, st);
    var p := Recorded(st, event).pending[event.id];
    assert p == Pending(NameOf(all, event.id), InputOf(all, event.id));
    ReadyIffWhole(event.id, p, num);
  }

  /** What pushing one event does, in terms of the stream so far. */
  lemma {:induction false} PushedEmits(before: seq<Event>, event: Event, st: AccState, num: NumberReader)
    requires Assembled(before, st) && MarksWhole(st, before, num)
    ensures Pushed(st, event, SerdeReader(num)).1 == EmittedFor(before, event, num)
    ensures MarksWhole(Pushed(st, event, SerdeReader(num)).0, before + [event], num)
  {
    var all := before + [event];
    if event.ToolCallStreamed? {
      RecordedReady(before, event, st, num);
    }
    forall id ensures id in Pushed(st, event, SerdeReader(num)).0.proposed <==> WasWhole(all, id, num) {
      WholeMore(before, event, id, num);
    }
  }

  lemma {:induction false} RunProposed(events: seq<Event>, num: NumberReader)
    ensures MarksWhole(Run(events, SerdeReader(num)).0, events, num)
    ensures Run(events, SerdeReader(num)).1 == Emitted(events, num)
  {
    var read := SerdeReader(num);
    if events == [] {
      NothingWhole(num);
    } else {
      var n := |events| - 1;
      RunProposed(events[..n], num);
      RunAssembles(events[..n], read);
      PushedEmits(events[..n], events[n], Run(events[..n], read).0, num);
      assert events[..n] + [events[n]] == events;
      OneMoreRun(events, read);
    }
  }

  lemma {:induction false} NothingWhole(num: NumberReader)
    ensures MarksWhole(EMPTY, [], num)
  {
  }

  /** Over every stream, a delta emits a proposal exactly when it is the first of
      its call after which the call has a name and its trimmed text is a JSON
      object; the proposal carries that name and that object. */
  lemma {:induction false} StreamEmitsExactly(before: seq<Event>, event: Event, num: NumberReader)
    ensures var read := SerdeReader(num);
      Run(before + [event], read).1 == Run(before, read).1 + EmittedFor(before, event, num)
  {
    RunProposed(before + [event], num);
    RunProposed(before, num);
    assert (before + [event])[..|before|] == before;
  }
}
