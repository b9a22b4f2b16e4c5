/** The agent loop: turns, checkpoints, stop reasons and one-shot overrides.

    Providers, hooks, the context pipeline, the tool executor and the steering
    queue are oracles: a script says what each of them answers in each turn.
    The scripts' event types keep their one contract, that they emit no
    checkpoints and no model requests of their own.
 */
module AgentLoop {
  import opened Json
  import opened Wrappers
  import opened AgentEvents
  import opened MachineInts
  import opened Sessions
  import Turns
  import ToolBatch

  // ------------------------------------------------------------------ results

  datatype LoopError = Cancelled | HookError | BatchError | EmitError | QueueError | ContextError | ProviderFailed | BadToolCall

  type Status = Outcome<LoopError>

  // ------------------------------------------------------------------- oracles

  type HookEvent = e: Event | !e.Checkpoint? && !e.ModelRequest? && !e.ToolCallProposed? witness Other("")
  type ProviderEvent = e: Event | !e.Checkpoint? && !e.ModelRequest? witness Other("")

  datatype HookOutcome = HookEvents(events: seq<HookEvent>) | HookCancelled | HookFails

  datatype QueuedMessage = QueuedMessage(id: string, content: string)

  datatype DrainOutcome = NoQueue | Drained(messages: seq<QueuedMessage>) | DrainFails | DrainCancelled

  datatype StreamItem = Item(event: ProviderEvent) | StreamFails | StreamCancelled

  datatype StreamOutcome = Opened(items: seq<StreamItem>) | OpenFails | OpenCancelled

  /** Everything the outside answers during one turn. */
  datatype TurnScript = TurnScript(
    cancelled: bool,
    drain: DrainOutcome,
    beforeContext: seq<HookOutcome>,
    pipelineEvents: seq<HookEvent>,
    prepared: Option<ContextDelta>,
    afterContext: seq<HookOutcome>,
    countFails: bool,
    beforeModel: seq<HookOutcome>,
    stream: StreamOutcome,
    afterModel: seq<HookOutcome>,
    executorEvents: seq<HookEvent>,
    batch: ToolBatch.Script,
    afterTool: nat -> seq<HookOutcome>,
    nextTurn: seq<HookOutcome>)

  datatype Environment = Environment(
    providerId: string, defaultModel: string, read: Turns.JsonReader,
    sessionStart: seq<HookOutcome>, sessionEnd: seq<HookOutcome>, turn: nat -> TurnScript)

  // -------------------------------------------------------------- emitted events

  /** What the theorems need to know of an event trace. */
  datatype TraceView = TraceView(
    checkpoints: seq<Event>, models: seq<string>, proposals: seq<Event>, stops: seq<StopReason>, affordable: bool)

  const NOTHING: TraceView := TraceView([], [], [], [], true)

  /** The last checkpoint shows a budget that is good for another turn. */
  predicate CanAfford(v: TraceView) {
    v.checkpoints != [] && var c := v.checkpoints[|v.checkpoints| - 1]; c.Checkpoint? && !Exhausted(c.tokenBudget)
  }

  function Observe(v: TraceView, e: Event): TraceView {
    match e
    case Checkpoint(_, _, _) => v.(checkpoints := v.checkpoints + [e])
    case ModelRequest(model) => v.(models := v.models + [model], affordable := v.affordable && CanAfford(v))
    case ToolCallProposed(_, _, _) => v.(proposals := v.proposals + [e])
    case Stop(reason) => v.(stops := v.stops + [reason])
    case _ => v
  }

  function ViewOf(events: seq<Event>): TraceView {
    if events == [] then NOTHING else Observe(ViewOf(events[..|events| - 1]), events[|events| - 1])
  }

  /** Only stops were added. */
  ghost predicate Quietly(before: TraceView, after: TraceView) {
    before.stops <= after.stops && after == before.(stops := after.stops)
  }

  function CheckpointsIn(events: seq<Event>): seq<Event> {
    if events == [] then []
    else
      var e := events[|events| - 1];
      CheckpointsIn(events[..|events| - 1]) + if e.Checkpoint? then [e] else []
  }

  function ModelsIn(events: seq<Event>): seq<string> {
    if events == [] then []
    else
      var e := events[|events| - 1];
      ModelsIn(events[..|events| - 1]) + if e.ModelRequest? then [e.model] else []
  }

  function StopsIn(events: seq<Event>): seq<StopReason> {
    if events == [] then []
    else
      var e := events[|events| - 1];
      StopsIn(events[..|events| - 1]) + if e.Stop? then [e.reason] else []
  }

  ghost predicate ViewIs(v: TraceView, events: seq<Event>) {
    && v.checkpoints == CheckpointsIn(events) && v.models == ModelsIn(events)
    && v.proposals == Turns.Proposals(events) && v.stops == StopsIn(events)
  }

  lemma {:induction false} ObservedIs(v: TraceView, events: seq<Event>)
    requires events != [] && ViewIs(v, events[..|events| - 1])
    ensures ViewIs(Observe(v, events[|events| - 1]), events)
  {
  }

  /** The view of a trace holds its checkpoints, its requests' models, its
      proposals and its stops, all in order. */
  lemma {:induction false} ViewIsOfEvents(events: seq<Event>)
    ensures ViewIs(ViewOf(events), events)
  {
    if events != [] {
      ViewIsOfEvents(events[..|events| - 1]);
      ObservedIs(ViewOf(events[..|events| - 1]), events);
    }
  }

  lemma {:induction false} LastCheckpoint(events: seq<Event>) returns (j: nat)
    requires CheckpointsIn(events) != []
    ensures j < |events| && events[j].Checkpoint? && CheckpointsIn(events)[|CheckpointsIn(events)| - 1] == events[j]
    ensures forall k | j < k < |events| :: !events[k].Checkpoint?
  {
    var n := |events| - 1;
    if events[n].Checkpoint? {
      j := n;
    } else {
      j := LastCheckpoint(events[..n]);
    }
  }

  /** In an affordable trace the last checkpoint before any request shows a
      budget that is not exhausted. */
  lemma {:induction false} RequestsAreAffordable(events: seq<Event>, i: nat) returns (j: nat)
    requires ViewOf(events).affordable && i < |events| && events[i].ModelRequest?
    ensures j < i && events[j].Checkpoint? && !Exhausted(events[j].tokenBudget)
    ensures forall k | j < k < i :: !events[k].Checkpoint?
    decreases |events|
  {
    var n := |events| - 1;
    if i < n {
      j := RequestsAreAffordable(events[..n], i);
    } else {
      ViewIsOfEvents(events[..n]);
      j := LastCheckpoint(events[..n]);
    }
  }

  /** The sink: it may refuse an event, which ends the run. */
  class Sink {
    var events: seq<Event>
    var capacity: nat
    ghost var view: TraceView

    ghost predicate Valid()
      reads this
    {
      view == ViewOf(events)
    }

    constructor (capacity: nat)
      ensures Valid() && events == [] && view == NOTHING && this.capacity == capacity
    {
      events, this.capacity, view := [], capacity, NOTHING;
    }

    method Emit(e: Event) returns (s: Status)
      requires Valid()
      modifies this
      ensures Valid() && (s.Done? <==> old(capacity) > 0)
      ensures s.Failed? ==> s.error == EmitError && capacity == 0
      ensures view == if s.Done? then Observe(old(view), e) else old(view)
      ensures events == if s.Done? then old(events) + [e] else old(events)
    {
      if capacity == 0 {
        return Failed(EmitError);
      }
      capacity := capacity - 1;
      assert (events + [e])[..|events|] == events;
      events := events + [e];
      view := Observe(view, e);
      return Done;
    }

    method EmitHookEvents(evs: seq<HookEvent>) returns (s: Status)
      requires Valid()
      modifies this
      ensures Valid() && Quietly(old(view), view)
    {
      for i := 0 to |evs|
        invariant Valid() && Quietly(old(view), view)
      {
        s := Emit(evs[i]);
        if s.Failed? {
          return;
        }
      }
      return Done;
    }

    /** `HookDispatcher::dispatch`: the hook's events, or why there are none. */
    method Dispatch(hook: HookOutcome) returns (r: Result<seq<HookEvent>, LoopError>)
      requires Valid()
      modifies this
      ensures Valid() && view == old(view)
      ensures r.Success? ==> hook == HookEvents(r.value)
      ensures r.Failure? ==>
        (r.error == EmitError && capacity == 0) || (r.error == Cancelled && hook.HookCancelled?)
        || (r.error == HookError && hook.HookFails?)
    {
      var s := Emit(Other("hook_started"));
      if s.Failed? {
        return Failure(EmitError);
      }
      match hook
      case HookEvents(evs) =>
        s := Emit(Other("hook_completed"));
        r := if s.Failed? then Failure(EmitError) else Success(evs);
      case HookCancelled =>
        r := Failure(Cancelled);
      case HookFails =>
        s := Emit(HookFailed("dispatch"));
        r := if s.Failed? then Failure(EmitError) else Failure(HookError);
    }

    /** What the hook loops do with it: only a cancellation ends the run at once. */
    method RunHook(hook: HookOutcome) returns (s: Status)
      requires Valid()
      modifies this
      ensures Valid() && Quietly(old(view), view)
    {
      var r := Dispatch(hook);
      if r.Success? {
        s := EmitHookEvents(r.value);
      } else if r.error == Cancelled {
        s := Failed(Cancelled);
      } else {
        s := Emit(Error("hook failed", true));
      }
    }

    method RunHooks(hooks: seq<HookOutcome>) returns (s: Status)
      requires Valid()
      modifies this
      ensures Valid() && Quietly(old(view), view)
    {
      for i := 0 to |hooks|
        invariant Valid() && Quietly(old(view), view)
      {
        s := RunHook(hooks[i]);
        if s.Failed? {
          return;
        }
      }
      return Done;
    }

    /** The context hooks report a cancellation before they pass it on. */
    method RunContextHooks(hooks: seq<HookOutcome>) returns (s: Status)
      requires Valid()
      modifies this
      ensures Valid() && Quietly(old(view), view)
    {
      s := RunHooks(hooks);
      if s == Failed(Cancelled) {
        s := Emit(Other("context_build_failed"));
        if s.Done? {
          s := Failed(Cancelled);
        }
      }
    }
  }

  // -------------------------------------------------------------- one-shot overrides

  /** The override that the events of one hook leave behind. */
  function OverrideAfterEvents(events: seq<Event>, sessionModel: string, current: Option<Override>): Option<Override> {
    if events == [] then current
    else
      var n := |events| - 1;
      match events[n]
      case NextTurnOverrideRequested(model, provider) =>
        Some(Override(if model == "" then sessionModel else model, provider))
      case _ => OverrideAfterEvents(events[..n], sessionModel, current)
  }

  /** What one hook leaves of the override. */
  function HookOverride(hook: HookOutcome, sessionModel: string, current: Option<Override>): Option<Override> {
    if hook.HookEvents? then OverrideAfterEvents(hook.events, sessionModel, current) else current
  }

  /** The last override that the next-turn hooks ask for. */
  function OverrideAfter(hooks: seq<HookOutcome>, sessionModel: string, current: Option<Override>): Option<Override> {
    if hooks == [] then current
    else
      var n := |hooks| - 1;
      HookOverride(hooks[n], sessionModel, OverrideAfter(hooks[..n], sessionModel, current))
  }

  /** The first block among the events of one hook. */
  function BlockedByEvents(events: seq<Event>): Option<string> {
    if events == [] then None
    else
      var n := |events| - 1;
      var before := BlockedByEvents(events[..n]);
      if before.None? && events[n].NextTurnBlocked? then Some(events[n].blockReason) else before
  }

  function HookBlock(hook: HookOutcome): Option<string> {
    if hook.HookEvents? then BlockedByEvents(hook.events) else None
  }

  /** The first block that the next-turn hooks raise. */
  function BlockedBy(hooks: seq<HookOutcome>): Option<string> {
    if hooks == [] then None
    else
      var n := |hooks| - 1;
      var before := BlockedBy(hooks[..n]);
      if before.None? then HookBlock(hooks[n]) else before
  }

  /** The model of a request: the override's, else the session's, else the
      provider's default. */
  function EffectiveModel(pending: Option<Override>, sessionModel: string, defaultModel: string): string {
    var m := if pending.Some? && pending.value.model != "" then pending.value.model else sessionModel;
    if m == "" then defaultModel else m
  }

  /** The override in force for the request of turn k. */
  function PendingAt(env: Environment, k: nat, initial: Option<Override>, sessionModel: string): Option<Override> {
    if k == 0 then initial else OverrideAfter(env.turn(k - 1).nextTurn, sessionModel, None)
  }

  // -------------------------------------------------------------------- the turn

  datatype TurnOutcome = ToolExecuted | StopTurn(reason: StopReason)

  function NextStop(maxTurns: nat, budget: TokenBudget, turns: nat, outcome: TurnOutcome): Option<StopReason> {
    if turns >= maxTurns then Some(MaxTurns)
    else if Exhausted(budget) then Some(BudgetExhausted)
    else match outcome
      case ToolExecuted => None
      case StopTurn(ToolUse) => None
      case StopTurn(reason) => Some(reason)
  }

  // ------------------------------------------- what a run should amount to

  /** What reading a stream adds up. */
  datatype Reading = Reading(
    proposals: seq<Event>, emitted: set<string>, reason: StopReason,
    budget: TokenBudget, input: Usize, output: Usize)

  function Handle(s: Reading, e: Event): Reading {
    match e
    case ToolCallProposed(id, _, _) => s.(proposals := s.proposals + [e], emitted := s.emitted + {id})
    case Usage(input, output) =>
      s.(budget := RecordUsage(s.budget, input),
         input := SaturatingAdd(s.input, input), output := SaturatingAdd(s.output, output))
    case Stop(reason) => s.(reason := reason)
    case _ => s
  }

  function HandleAll(s: Reading, events: seq<Event>): Reading {
    if events == [] then s else Handle(HandleAll(s, events[..|events| - 1]), events[|events| - 1])
  }

  lemma {:induction false} HandleMore(s: Reading, events: seq<Event>, more: seq<Event>)
    ensures HandleAll(s, events + more) == HandleAll(HandleAll(s, events), more)
    decreases |more|
  {
    if more == [] {
      assert events + more == events;
    } else {
      var n := |more| - 1;
      assert (events + more)[..|events| + n] == events + more[..n];
      HandleMore(s, events, more[..n]);
    }
  }

  /** Where a session and its run stand between turns. */
  datatype Progress = Progress(
    messages: seq<Message>, contextState: ContextState, tokenBudget: TokenBudget,
    proposals: seq<Event>, input: Usize, output: Usize)

  function ItemEvents(items: seq<StreamItem>): seq<Event> {
    if items == [] then []
    else ItemEvents(items[..|items| - 1]) + (if items[|items| - 1].Item? then [items[|items| - 1].event] else [])
  }

  function StreamEvents(t: TurnScript): seq<Event> {
    if t.stream.Opened? then ItemEvents(t.stream.items) else []
  }

  /** The events of a turn's stream as the accumulator passes them on. */
  function Passed(t: TurnScript, read: Turns.JsonReader): seq<Event> {
    Turns.Run(StreamEvents(t), read).1
  }

  function ReplyResult(t: TurnScript, read: Turns.JsonReader): Turns.FinishResult {
    Turns.FinishedCalls(Turns.Run(StreamEvents(t), read).0, 0, read)
  }

  /** The assistant turn that the stream assembles to. */
  function Reply(t: TurnScript, read: Turns.JsonReader): Turns.AssistantTurn {
    var r := ReplyResult(t, read);
    if r.Finished? then r.turn else Turns.AssistantTurn([], [], [])
  }

  function UserMessage(m: QueuedMessage): Message { User([TextBlock(m.content)], Some(m.id)) }

  function Injected(drain: DrainOutcome): seq<Message> {
    if drain.Drained? then seq(|drain.messages|, i requires 0 <= i < |drain.messages| => UserMessage(drain.messages[i]))
    else []
  }

  /** Each queued message becomes a user message of its text, marked with its id. */
  lemma {:induction false} InjectedAre(messages: seq<QueuedMessage>, i: nat)
    requires i < |messages|
    ensures |Injected(Drained(messages))| == |messages|
    ensures Injected(Drained(messages))[i] == User([TextBlock(messages[i].content)], Some(messages[i].id))
  {
  }

  function ToolMessage(r: ToolBatch.BatchResult): Message { ToolResult(r.id, r.answer.output, r.answer.isError) }

  function ToolMessages(results: seq<ToolBatch.BatchResult>): seq<Message> {
    seq(|results|, i requires 0 <= i < |results| => ToolMessage(results[i]))
  }

  /** The assistant's message and, when it calls tools, their results. */
  function Exchange(turn: Turns.AssistantTurn, t: TurnScript): seq<Message> {
    [Turns.IntoMessage(turn)] + ToolMessages(ToolBatch.Answers(turn.toolCalls, t.batch))
  }

  function AfterStream(p: Progress, t: TurnScript, read: Turns.JsonReader): Reading {
    HandleAll(Reading(p.proposals, {}, EndTurn, p.tokenBudget, p.input, p.output), Passed(t, read))
  }

  function AfterModel(p: Progress, t: TurnScript, read: Turns.JsonReader): Progress {
    var s, turn := AfterStream(p, t, read), Reply(t, read);
    Progress(p.messages + Exchange(turn, t), p.contextState, s.budget,
             s.proposals + Turns.LateProposals(turn.toolCalls, s.emitted), s.input, s.output)
  }

  function AfterRequest(p: Progress, t: TurnScript): Progress {
    p.(messages := p.messages + Injected(t.drain),
       contextState := if t.prepared.Some? then ApplyDelta(p.contextState, t.prepared.value) else p.contextState)
  }

  function AfterTurn(p: Progress, t: TurnScript, read: Turns.JsonReader): Progress {
    AfterModel(AfterRequest(p, t), t, read)
  }

  type Turner = (nat, Progress) -> Progress

  function TurnerOf(env: Environment): Turner { (k: nat, p: Progress) => AfterTurn(p, env.turn(k), env.read) }

  function Folded(step: Turner, start: Progress, n: nat): Progress {
    if n == 0 then start else step(n - 1, Folded(step, start, n - 1))
  }

  /** Where n turns lead. */
  function AfterTurns(env: Environment, start: Progress, n: nat): Progress { Folded(TurnerOf(env), start, n) }

  function OutcomeOf(p: Progress, t: TurnScript, read: Turns.JsonReader): TurnOutcome {
    if Reply(t, read).toolCalls == [] then StopTurn(AfterStream(p, t, read).reason) else ToolExecuted
  }

  /** Why the loop stops after n turns, if it does. */
  function StopAfter(env: Environment, start: Progress, maxTurns: nat, n: nat): Option<StopReason> {
    if n == 0 then
      EarlyStop(maxTurns, 0, start.tokenBudget)
    else
      var p, t := AfterRequest(AfterTurns(env, start, n - 1), env.turn(n - 1)), env.turn(n - 1);
      StopOrBlock(NextStop(maxTurns, AfterModel(p, t, env.read).tokenBudget, n, OutcomeOf(p, t, env.read)), t.nextTurn)
  }

  function StopOrBlock(stop: Option<StopReason>, hooks: seq<HookOutcome>): Option<StopReason> {
    if stop.None? && BlockedBy(hooks).Some? then Some(HookBlocked) else stop
  }

  // ---------------------------------------------------------- checkpoints, requests

  method EmitCheckpoint(session: Session, sink: Sink) returns (s: Status)
    requires sink.Valid()
    modifies sink
    ensures sink.Valid()
    ensures sink.view == if s.Done? then Observe(old(sink.view), Snapshot(session)) else old(sink.view)
  {
    s := sink.Emit(Checkpoint(session.history, session.contextState, session.tokenBudget));
  }

  function Snapshot(session: Session): Event
    reads session
  {
    Checkpoint(session.history, session.contextState, session.tokenBudget)
  }

  method DrainMessages(session: Session, drain: DrainOutcome, sink: Sink) returns (r: Result<nat, LoopError>)
    requires sink.Valid()
    modifies session`history, sink
    ensures sink.Valid() && Quietly(old(sink.view), sink.view)
    ensures Grew(old(session.history), session.history, session.id, session.namespace)
    ensures r.Success? ==> Messages(session.history) == Messages(old(session.history)) + Injected(drain)
    ensures r.Success? && r.value == 0 ==> session.history == old(session.history)
  {
    match drain
    case NoQueue => return Success(0);
    case DrainFails => return Failure(QueueError);
    case DrainCancelled => return Failure(Cancelled);
    case Drained(messages) =>
      if messages == [] {
        return Success(0);
      }
      r := InjectMessages(session, messages, sink);
  }

  method InjectMessages(session: Session, messages: seq<QueuedMessage>, sink: Sink) returns (r: Result<nat, LoopError>)
    requires sink.Valid()
    modifies session`history, sink
    ensures sink.Valid() && Quietly(old(sink.view), sink.view)
    ensures Grew(old(session.history), session.history, session.id, session.namespace)
    ensures r.Success? ==>
      r.value == |messages| && Messages(session.history) == Messages(old(session.history)) + Injected(Drained(messages))
  {
    ghost var all := Injected(Drained(messages));
    for i := 0 to |messages|
      invariant sink.Valid() && Quietly(old(sink.view), sink.view)
      invariant Grew(old(session.history), session.history, session.id, session.namespace)
      invariant Messages(session.history) == Messages(old(session.history)) + all[..i]
    {
      ghost var before := session.history;
      var _ := session.AppendMessage(UserMessage(messages[i]));
      assert all[..i + 1] == all[..i] + [UserMessage(messages[i])];
      GrewTransitive(old(session.history), before, session.history, session.id, session.namespace);
      :- sink.Emit(SessionMessageInjected(messages[i].id));
    }
    assert all[..|messages|] == all;
    :- sink.Emit(SessionMessageQueueDrained(|messages|));
    return Success(|messages|);
  }

  /** Takes the override out of the session and settles the model. */
  method TakeOverride(session: Session, env: Environment, sink: Sink) returns (r: Result<string, LoopError>)
    requires sink.Valid()
    modifies session`nextTurnOverride, sink
    ensures sink.Valid() && Quietly(old(sink.view), sink.view)
    ensures session.nextTurnOverride == None
    ensures r.Success? ==> r.value == EffectiveModel(old(session.nextTurnOverride), session.model, env.defaultModel)
  {
    var taken := session.nextTurnOverride;
    session.nextTurnOverride := None;
    if taken.Some? && taken.value.provider.Some? && taken.value.provider.value != env.providerId {
      :- sink.Emit(HookFailed("next_turn"));
      :- sink.Emit(Error("cross-provider override", true));
    }
    var model := if taken.Some? && taken.value.model != "" then taken.value.model else session.model;
    if model == "" {
      model := env.defaultModel;
    }
    return Success(model);
  }

  method PrepareContext(session: Session, t: TurnScript, sink: Sink) returns (s: Status)
    requires sink.Valid()
    modifies session`contextState, sink
    ensures sink.Valid() && Quietly(old(sink.view), sink.view)
    ensures s.Done? ==> t.prepared.Some? && session.contextState == ApplyDelta(old(session.contextState), t.prepared.value)
  {
    s := sink.EmitHookEvents(t.pipelineEvents);
    if s.Failed? {
      return;
    }
    if t.prepared.None? {
      return Failed(ContextError);
    }
    session.ApplyContextStateDelta(t.prepared.value);
    s := sink.RunContextHooks(t.afterContext);
    if s.Failed? {
      return;
    }
    if t.countFails {
      return Failed(ProviderFailed);
    }
    s := sink.Emit(Other("context_built"));
    if s.Done? {
      s := sink.Emit(Other("tool_catalog_selected"));
    }
  }

  /** The override is taken before the context is prepared, so it is gone even
      if preparing the request fails. */
  method BuildRequest(session: Session, env: Environment, t: TurnScript, sink: Sink) returns (r: Result<string, LoopError>)
    requires sink.Valid()
    modifies session`contextState, session`nextTurnOverride, sink
    ensures sink.Valid()
    ensures r.Success? ==>
      && session.nextTurnOverride == None
      && r.value == EffectiveModel(old(session.nextTurnOverride), session.model, env.defaultModel)
      && t.prepared.Some? && session.contextState == ApplyDelta(old(session.contextState), t.prepared.value)
    ensures Requested(old(sink.view), sink.view, r)
  {
    var hooks := t.beforeContext;
    :- sink.Emit(Other("context_build_started"));
    :- sink.RunContextHooks(hooks);
    var model :- TakeOverride(session, env, sink);
    :- PrepareContext(session, t, sink);
    r := Announce(model, sink);
  }

  method Announce(model: string, sink: Sink) returns (r: Result<string, LoopError>)
    requires sink.Valid()
    modifies sink
    ensures sink.Valid() && Requested(old(sink.view), sink.view, r)
    ensures r.Success? ==> r.value == model
  {
    var request := ModelRequest(model);
    :- sink.Emit(request);
    return Success(model);
  }

  /** Building a request announces exactly one model request when it succeeds,
      and none when it fails. */
  ghost predicate Requested(before: TraceView, after: TraceView, r: Result<string, LoopError>) {
    && before.stops <= after.stops
    && after == if r.Success?
         then before.(stops := after.stops, models := before.models + [r.value],
                      affordable := before.affordable && CanAfford(before))
         else before.(stops := after.stops)
  }

  /** The tokens reported over a run. */
  class Totals {
    var input: Usize
    var output: Usize

    constructor ()
      ensures input == 0 && output == 0
    {
      input, output := 0, 0;
    }

    method Add(inputTokens: Usize, outputTokens: Usize)
      modifies this
      ensures input == SaturatingAdd(old(input), inputTokens) && output == SaturatingAdd(old(output), outputTokens)
    {
      input, output := SaturatingAdd(input, inputTokens), SaturatingAdd(output, outputTokens);
    }
  }

  /** A stream adds proposals and stops only. */
  ghost predicate Streamed(before: TraceView, after: TraceView) {
    && before.stops <= after.stops && before.proposals <= after.proposals
    && after == before.(stops := after.stops, proposals := after.proposals)
  }

  ghost function ReadingOf(session: Session, totals: Totals, sink: Sink, now: (set<string>, StopReason)): Reading
    reads session`tokenBudget, totals, sink`view
  {
    Reading(sink.view.proposals, now.0, now.1, session.tokenBudget, totals.input, totals.output)
  }

  /** The events one stream item is turned into, and what the loop does with
      each: note proposals, pass it on, count usage, remember the stop reason. */
  method HandleEvent(e: Event, session: Session, totals: Totals, now: (set<string>, StopReason), sink: Sink)
    returns (r: Result<(set<string>, StopReason), LoopError>)
    requires sink.Valid() && !e.Checkpoint? && !e.ModelRequest?
    modifies session`tokenBudget, totals, sink
    ensures sink.Valid() && Streamed(old(sink.view), sink.view)
    ensures r.Success? ==>
      ReadingOf(session, totals, sink, r.value) == Handle(old(ReadingOf(session, totals, sink, now)), e)
    ensures r.Success? ==> !(e.Error? && !e.recoverable)
  {
    var ids := if e.ToolCallProposed? then now.0 + {e.id} else now.0;
    :- sink.Emit(e);
    match e
    case Usage(inputTokens, outputTokens) =>
      totals.Add(inputTokens, outputTokens);
      session.RecordTokenUsage(inputTokens);
      return Success((ids, now.1));
    case Stop(newReason) =>
      return Success((ids, newReason));
    case Error(_, recoverable) =>
      if !recoverable {
        return Failure(ProviderFailed);
      }
      return Success((ids, now.1));
    case _ =>
      return Success((ids, now.1));
  }

  ghost predicate PassesThrough(events: seq<Event>) {
    forall e | e in events :: !e.Checkpoint? && !e.ModelRequest?
  }

  /** The inner loop over the events that one stream item was turned into. */
  method HandleEvents(events: seq<Event>, session: Session, totals: Totals, start: (set<string>, StopReason), sink: Sink)
    returns (r: Result<(set<string>, StopReason), LoopError>)
    requires sink.Valid() && PassesThrough(events)
    modifies session`tokenBudget, totals, sink
    ensures sink.Valid() && Streamed(old(sink.view), sink.view)
    ensures r.Success? ==>
      ReadingOf(session, totals, sink, r.value) == HandleAll(old(ReadingOf(session, totals, sink, start)), events)
  {
    var now := start;
    for i := 0 to |events|
      invariant sink.Valid() && Streamed(old(sink.view), sink.view)
      invariant ReadingOf(session, totals, sink, now) == HandleAll(old(ReadingOf(session, totals, sink, start)), events[..i])
    {
      assert events[..i + 1][..i] == events[..i];
      now :- HandleEvent(events[i], session, totals, now, sink);
    }
    assert events[..|events|] == events;
    return Success(now);
  }

  /** The loop over the provider's stream. */
  method ReadStream(items: seq<StreamItem>, session: Session, read: Turns.JsonReader, totals: Totals,
                    acc: Turns.TurnAccumulator, sink: Sink) returns (r: Result<(set<string>, StopReason), LoopError>)
    requires sink.Valid() && acc.View() == Turns.EMPTY
    modifies session`tokenBudget, totals, acc, sink
    ensures sink.Valid() && Streamed(old(sink.view), sink.view)
    ensures r.Success? ==>
      var (st, out) := Turns.Run(ItemEvents(items), read);
      && acc.View() == st
      && ReadingOf(session, totals, sink, r.value) == HandleAll(old(ReadingOf(session, totals, sink, ({}, EndTurn))), out)
  {
    var now: (set<string>, StopReason) := ({}, EndTurn);
    for i := 0 to |items|
      invariant sink.Valid() && Streamed(old(sink.view), sink.view)
      invariant acc.View() == Turns.Run(ItemEvents(items[..i]), read).0
      invariant ReadingOf(session, totals, sink, now)
             == HandleAll(old(ReadingOf(session, totals, sink, ({}, EndTurn))), Turns.Run(ItemEvents(items[..i]), read).1)
    {
      match items[i]
      case StreamCancelled =>
        var e := StreamBroke(items[i], sink);
        return Failure(e);
      case StreamFails =>
        var e := StreamBroke(items[i], sink);
        return Failure(e);
      case Item(event) =>
        ghost var out := Turns.Run(ItemEvents(items[..i]), read).1;
        NextItem(items, i, read);
        var accumulated := acc.Push(event, read);
        PushedPasses(Turns.Run(ItemEvents(items[..i]), read).0, event, read);
        HandleMore(old(ReadingOf(session, totals, sink, ({}, EndTurn))), out, accumulated);
        now :- HandleEvents(accumulated, session, totals, now, sink);
    }
    assert items[..|items|] == items;
    return Success(now);
  }

  /** A stream that is cancelled or fails in the middle. */
  method StreamBroke(item: StreamItem, sink: Sink) returns (e: LoopError)
    requires sink.Valid()
    modifies sink
    ensures sink.Valid() && Quietly(old(sink.view), sink.view)
  {
    if item.StreamCancelled? {
      var s := sink.Emit(Other("stream_interrupted"));
      return if s.Failed? then s.error else Cancelled;
    }
    var s := sink.Emit(Other("stream_failed"));
    if s.Failed? {
      return s.error;
    }
    s := sink.Emit(Error("stream failed", true));
    return if s.Failed? then s.error else ProviderFailed;
  }

  lemma {:induction false} NextItem(items: seq<StreamItem>, i: nat, read: Turns.JsonReader)
    requires i < |items| && items[i].Item?
    ensures var (st, out) := Turns.Run(ItemEvents(items[..i]), read);
      var (st', more) := Turns.Pushed(st, items[i].event, read);
      Turns.Run(ItemEvents(items[..i + 1]), read) == (st', out + more)
  {
    var before := ItemEvents(items[..i]);
    assert items[..i + 1][..i] == items[..i];
    assert ItemEvents(items[..i + 1]) == before + [items[i].event];
    assert (before + [items[i].event])[..|before|] == before;
  }

  lemma {:induction false} PushedPasses(st: Turns.AccState, e: ProviderEvent, read: Turns.JsonReader)
    ensures PassesThrough(Turns.Pushed(st, e, read).1)
  {
  }

  /** Proposes the calls that were not proposed while streaming. */
  method ProposeRemaining(calls: seq<Turns.ToolCall>, emitted: set<string>, sink: Sink) returns (s: Status)
    requires sink.Valid()
    modifies sink
    ensures sink.Valid() && Streamed(old(sink.view), sink.view)
    ensures s.Done? ==> sink.view.proposals == old(sink.view.proposals) + Turns.LateProposals(calls, emitted)
  {
    for i := 0 to |calls|
      invariant sink.Valid() && Streamed(old(sink.view), sink.view)
      invariant sink.view.proposals == old(sink.view.proposals) + Turns.LateProposals(calls[..i], emitted)
    {
      assert calls[..i + 1][..i] == calls[..i];
      if calls[i].id !in emitted {
        s := sink.Emit(Turns.AsProposal(calls[i]));
        if s.Failed? {
          return;
        }
      }
    }
    assert calls[..|calls|] == calls;
    return Done;
  }

  /** Runs the tools and appends their results in the order of the calls. */
  method ExecuteTools(session: Session, calls: seq<Turns.ToolCall>, t: TurnScript, sink: Sink) returns (s: Status)
    requires sink.Valid()
    modifies session`history, sink
    ensures sink.Valid() && Quietly(old(sink.view), sink.view)
    ensures Grew(old(session.history), session.history, session.id, session.namespace)
    ensures s.Done? ==>
      Messages(session.history) == Messages(old(session.history)) + ToolMessages(ToolBatch.Answers(calls, t.batch))
  {
    s := sink.EmitHookEvents(t.executorEvents);
    if s.Failed? {
      return;
    }
    var results, _ := ToolBatch.ExecuteBatch(calls, t.batch);
    if results.None? {
      return Failed(BatchError);
    }
    s := AppendResults(session, results.value, t, sink);
  }

  method AppendResults(session: Session, results: seq<ToolBatch.BatchResult>, t: TurnScript, sink: Sink) returns (s: Status)
    requires sink.Valid()
    modifies session`history, sink
    ensures sink.Valid() && Quietly(old(sink.view), sink.view)
    ensures Grew(old(session.history), session.history, session.id, session.namespace)
    ensures s.Done? ==> Messages(session.history) == Messages(old(session.history)) + ToolMessages(results)
  {
    for i := 0 to |results|
      invariant sink.Valid() && Quietly(old(sink.view), sink.view)
      invariant Grew(old(session.history), session.history, session.id, session.namespace)
      invariant Messages(session.history) == Messages(old(session.history)) + ToolMessages(results)[..i]
    {
      s := sink.Emit(Other("tool_result"));
      if s.Failed? {
        return;
      }
      s := sink.RunHooks(t.afterTool(i));
      if s.Failed? {
        return;
      }
      ghost var before := session.history;
      var _ := session.AppendMessage(ToolMessage(results[i]));
      assert ToolMessages(results)[..i + 1] == ToolMessages(results)[..i] + [ToolMessage(results[i])];
      GrewTransitive(old(session.history), before, session.history, session.id, session.namespace);
    }
    return Done;
  }

  /** Opens the stream; nothing is recorded before it has started. */
  method OpenStream(t: TurnScript, sink: Sink) returns (r: Result<seq<StreamItem>, LoopError>)
    requires sink.Valid()
    modifies sink
    ensures sink.Valid() && Quietly(old(sink.view), sink.view)
    ensures r.Success? ==> t.stream == Opened(r.value)
  {
    var hooks := t.beforeModel;
    :- sink.RunHooks(hooks);
    :- sink.Emit(Other("model_response_started"));
    match t.stream
    case OpenCancelled =>
      :- sink.Emit(Other("stream_interrupted"));
      return Failure(Cancelled);
    case OpenFails =>
      :- sink.Emit(Other("stream_failed"));
      return Failure(ProviderFailed);
    case Opened(items) => return Success(items);
  }

  /** From the end of the stream on: commit, propose the rest, run the tools. */
  method CommitTurn(session: Session, assistantTurn: Turns.AssistantTurn, t: TurnScript,
                    emitted: set<string>, reason: StopReason, sink: Sink) returns (r: Result<TurnOutcome, LoopError>)
    requires sink.Valid()
    modifies session`history, sink
    ensures sink.Valid() && Streamed(old(sink.view), sink.view)
    ensures Grew(old(session.history), session.history, session.id, session.namespace)
    ensures r.Success? ==>
      && Messages(session.history) == Messages(old(session.history)) + Exchange(assistantTurn, t)
      && r.value == (if assistantTurn.toolCalls == [] then StopTurn(reason) else ToolExecuted)
      && sink.view.proposals == old(sink.view.proposals) + Turns.LateProposals(assistantTurn.toolCalls, emitted)
  {
    var _ := session.AppendMessage(Turns.IntoMessage(assistantTurn));
    ghost var committed := session.history;
    :- sink.Emit(AssistantMessageCommitted(Turns.IntoMessage(assistantTurn)));
    :- sink.RunHooks(t.afterModel);
    if assistantTurn.toolCalls == [] {
      assert ToolMessages(ToolBatch.Answers([], t.batch)) == [];
      return Success(StopTurn(reason));
    }
    :- ProposeRemaining(assistantTurn.toolCalls, emitted, sink);
    :- ExecuteTools(session, assistantTurn.toolCalls, t, sink);
    GrewTransitive(old(session.history), committed, session.history, session.id, session.namespace);
    Joined(Messages(old(session.history)), Turns.IntoMessage(assistantTurn), ToolMessages(ToolBatch.Answers(assistantTurn.toolCalls, t.batch)));
    return Success(ToolExecuted);
  }

  lemma {:induction false} Joined(a: seq<Message>, m: Message, b: seq<Message>)
    ensures a + [m] + b == a + ([m] + b)
  {
  }

  /** The stream up to its end, assembled into a turn. */
  method ReceiveTurn(t: TurnScript, session: Session, read: Turns.JsonReader, totals: Totals, sink: Sink)
    returns (r: Result<Turns.AssistantTurn, LoopError>, end: (set<string>, StopReason))
    requires sink.Valid()
    modifies session`tokenBudget, totals, sink
    ensures sink.Valid() && Streamed(old(sink.view), sink.view)
    ensures r.Success? ==>
      && ReplyResult(t, read) == Turns.Finished(r.value)
      && ReadingOf(session, totals, sink, end)
         == HandleAll(old(ReadingOf(session, totals, sink, ({}, EndTurn))), Passed(t, read))
  {
    end := ({}, EndTurn);
    var items :- OpenStream(t, sink);
    assert StreamEvents(t) == ItemEvents(items);
    r, end := AssembleTurn(items, session, read, totals, sink);
  }

  /** Reads the items and finishes the accumulator. */
  method AssembleTurn(items: seq<StreamItem>, session: Session, read: Turns.JsonReader, totals: Totals, sink: Sink)
    returns (r: Result<Turns.AssistantTurn, LoopError>, end: (set<string>, StopReason))
    requires sink.Valid()
    modifies session`tokenBudget, totals, sink
    ensures sink.Valid() && Streamed(old(sink.view), sink.view)
    ensures r.Success? ==>
      var (st, out) := Turns.Run(ItemEvents(items), read);
      && Turns.FinishedCalls(st, 0, read) == Turns.Finished(r.value)
      && ReadingOf(session, totals, sink, end) == HandleAll(old(ReadingOf(session, totals, sink, ({}, EndTurn))), out)
  {
    end := ({}, EndTurn);
    var acc := new Turns.TurnAccumulator();
    end :- ReadStream(items, session, read, totals, acc, sink);
    r := Complete(acc, read, sink);
  }

  /** The end of the stream. */
  method Complete(acc: Turns.TurnAccumulator, read: Turns.JsonReader, sink: Sink) returns (r: Result<Turns.AssistantTurn, LoopError>)
    requires sink.Valid()
    modifies sink
    ensures sink.Valid() && sink.view == old(sink.view)
    ensures r.Success? ==> Turns.FinishedCalls(acc.View(), 0, read) == Turns.Finished(r.value)
  {
    var completed := Other("stream_completed");
    :- sink.Emit(completed);
    var finished := acc.Finish(read);
    if !finished.Finished? {
      return Failure(BadToolCall);
    }
    r := Success(finished.turn);
  }

  ghost function ProgressOf(session: Session, totals: Totals, sink: Sink): Progress
    reads session, totals, sink
  {
    Progress(Messages(session.history), session.contextState, session.tokenBudget,
             sink.view.proposals, totals.input, totals.output)
  }

  method RunTurn(session: Session, env: Environment, t: TurnScript, totals: Totals, sink: Sink)
    returns (r: Result<TurnOutcome, LoopError>)
    requires sink.Valid()
    modifies session`history, session`tokenBudget, totals, sink
    ensures sink.Valid() && Streamed(old(sink.view), sink.view)
    ensures Grew(old(session.history), session.history, session.id, session.namespace)
    ensures r.Success? ==>
      && ReplyResult(t, env.read).Finished?
      && ProgressOf(session, totals, sink) == AfterModel(old(ProgressOf(session, totals, sink)), t, env.read)
      && r.value == OutcomeOf(old(ProgressOf(session, totals, sink)), t, env.read)
  {
    var received, end := ReceiveTurn(t, session, env.read, totals, sink);
    if received.Failure? {
      return Failure(received.error);
    }
    r := CommitTurn(session, received.value, t, end.0, end.1, sink);
  }

  lemma {:induction false} NextHook(hooks: seq<HookOutcome>, i: nat, sessionModel: string, current: Option<Override>)
    requires i < |hooks|
    ensures OverrideAfter(hooks[..i + 1], sessionModel, current)
         == HookOverride(hooks[i], sessionModel, OverrideAfter(hooks[..i], sessionModel, current))
    ensures BlockedBy(hooks[..i]).None? ==> BlockedBy(hooks[..i + 1]) == HookBlock(hooks[i])
  {
    assert hooks[..i + 1][..i] == hooks[..i];
  }

  lemma {:induction false} BlockedStays(hooks: seq<HookOutcome>, n: nat)
    requires n <= |hooks| && BlockedBy(hooks[..n]).Some?
    ensures BlockedBy(hooks) == BlockedBy(hooks[..n])
    decreases |hooks|
  {
    if n < |hooks| {
      assert hooks[..|hooks| - 1][..n] == hooks[..n];
      BlockedStays(hooks[..|hooks| - 1], n);
    } else {
      assert hooks[..n] == hooks;
    }
  }

  lemma {:induction false} BlockedByEventsStays(events: seq<Event>, n: nat)
    requires n <= |events| && BlockedByEvents(events[..n]).Some?
    ensures BlockedByEvents(events) == BlockedByEvents(events[..n])
    decreases |events|
  {
    if n < |events| {
      assert events[..|events| - 1][..n] == events[..n];
      BlockedByEventsStays(events[..|events| - 1], n);
    } else {
      assert events[..n] == events;
    }
  }

  /** The next-turn hooks: their override requests take effect, and the first
      block ends the run. */
  method NextTurnHooks(hooks: seq<HookOutcome>, session: Session, sink: Sink) returns (r: Result<Option<string>, LoopError>)
    requires sink.Valid()
    modifies session`nextTurnOverride, sink
    ensures sink.Valid() && Quietly(old(sink.view), sink.view)
    ensures r.Success? ==> r.value == BlockedBy(hooks)
    ensures r.Success? && r.value.None? ==>
      session.nextTurnOverride == OverrideAfter(hooks, session.model, old(session.nextTurnOverride))
  {
    for i := 0 to |hooks|
      invariant sink.Valid() && Quietly(old(sink.view), sink.view)
      invariant BlockedBy(hooks[..i]) == None
      invariant session.nextTurnOverride == OverrideAfter(hooks[..i], session.model, old(session.nextTurnOverride))
    {
      NextHook(hooks, i, session.model, old(session.nextTurnOverride));
      var blocked :- NextTurnHook(hooks[i], session, sink);
      if blocked.Some? {
        BlockedStays(hooks, i + 1);
        return Success(blocked);
      }
    }
    assert hooks[..|hooks|] == hooks;
    return Success(None);
  }

  method NextTurnHook(hook: HookOutcome, session: Session, sink: Sink) returns (r: Result<Option<string>, LoopError>)
    requires sink.Valid()
    modifies session`nextTurnOverride, sink
    ensures sink.Valid() && Quietly(old(sink.view), sink.view)
    ensures r.Success? ==> r.value == HookBlock(hook)
    ensures r.Success? && r.value.None? ==>
      session.nextTurnOverride == HookOverride(hook, session.model, old(session.nextTurnOverride))
  {
    var dispatched := sink.Dispatch(hook);
    if dispatched.Success? {
      r := NextTurnEvents(dispatched.value, session, sink);
    } else if dispatched.error == Cancelled {
      r := Failure(Cancelled);
    } else {
      :- sink.Emit(Error("hook failed", true));
      r := Success(None);
    }
  }

  method NextTurnEvents(events: seq<HookEvent>, session: Session, sink: Sink) returns (r: Result<Option<string>, LoopError>)
    requires sink.Valid()
    modifies session`nextTurnOverride, sink
    ensures sink.Valid() && Quietly(old(sink.view), sink.view)
    ensures r.Success? ==> r.value == BlockedByEvents(events)
    ensures r.Success? && r.value.None? ==>
      session.nextTurnOverride == OverrideAfterEvents(events, session.model, old(session.nextTurnOverride))
  {
    for i := 0 to |events|
      invariant sink.Valid() && Quietly(old(sink.view), sink.view)
      invariant BlockedByEvents(events[..i]) == None
      invariant session.nextTurnOverride == OverrideAfterEvents(events[..i], session.model, old(session.nextTurnOverride))
    {
      assert events[..i + 1][..i] == events[..i];
      var ev := events[i];
      if ev.NextTurnOverrideRequested? {
        session.nextTurnOverride :=
          Some(Override(if ev.model == "" then session.model else ev.model, ev.provider));
      } else if ev.NextTurnBlocked? {
        :- sink.Emit(ev);
        BlockedByEventsStays(events, i + 1);
        return Success(Some(ev.blockReason));
      }
      :- sink.Emit(ev);
    }
    assert events[..|events|] == events;
    return Success(None);
  }

  // ---------------------------------------------------------------------- the run

  datatype RunResult = RunResult(turns: nat, stopReason: StopReason, totalInput: Usize, totalOutput: Usize)

  /** Each checkpoint's history continues the one before. */
  ghost predicate PrefixChain(checkpoints: seq<Event>) {
    checkpoints != [] ==>
      var front, last := checkpoints[..|checkpoints| - 1], checkpoints[|checkpoints| - 1];
      && PrefixChain(front) && last.Checkpoint?
      && (front != [] ==> front[|front| - 1].history <= last.history)
  }

  /** The model of the k-th request, from what was asked before it. */
  ghost function ModelAt(env: Environment, k: nat, initial: Option<Override>, sessionModel: string): string {
    EffectiveModel(PendingAt(env, k, initial, sessionModel), sessionModel, env.defaultModel)
  }

  ghost predicate RightModels(models: seq<string>, env: Environment, initial: Option<Override>, sessionModel: string) {
    models != [] ==>
      var n := |models| - 1;
      RightModels(models[..n], env, initial, sessionModel) && models[n] == ModelAt(env, n, initial, sessionModel)
  }

  /** What holds of a trace at every moment of a run. */
  ghost predicate SoundTrace(v: TraceView, env: Environment, maxTurns: nat, initial: Option<Override>, sessionModel: string) {
    && |v.models| <= maxTurns
    && v.affordable
    && PrefixChain(v.checkpoints)
    && RightModels(v.models, env, initial, sessionModel)
  }

  /** A new run could take up the session from the last checkpoint. */
  ghost predicate Resumable(v: TraceView, snapshot: Event) {
    v.checkpoints != [] && v.checkpoints[|v.checkpoints| - 1] == snapshot
  }

  lemma {:induction false} ChainGrows(checkpoints: seq<Event>, c: Event)
    requires PrefixChain(checkpoints) && c.Checkpoint?
    requires checkpoints != [] ==> checkpoints[|checkpoints| - 1].history <= c.history
    ensures PrefixChain(checkpoints + [c])
  {
    assert (checkpoints + [c])[..|checkpoints|] == checkpoints;
  }

  lemma {:induction false} ModelsGrow(models: seq<string>, env: Environment, initial: Option<Override>, sessionModel: string)
    requires RightModels(models, env, initial, sessionModel)
    ensures RightModels(models + [ModelAt(env, |models|, initial, sessionModel)], env, initial, sessionModel)
  {
    assert (models + [ModelAt(env, |models|, initial, sessionModel)])[..|models|] == models;
  }

  /** Read out: any earlier checkpoint is a prefix of any later one. */
  lemma {:induction false} EarlierIsPrefix(checkpoints: seq<Event>, i: nat, j: nat)
    requires PrefixChain(checkpoints) && i < j < |checkpoints|
    ensures checkpoints[i].Checkpoint? && checkpoints[j].Checkpoint? && checkpoints[i].history <= checkpoints[j].history
    decreases |checkpoints|
  {
    var n := |checkpoints| - 1;
    if j < n {
      EarlierIsPrefix(checkpoints[..n], i, j);
    } else if i < n - 1 {
      EarlierIsPrefix(checkpoints[..n], i, n - 1);
    }
  }

  /** All that the hooks reported, in order. */
  function Reported(hooks: seq<HookOutcome>): seq<Event> {
    if hooks == [] then []
    else
      var n := |hooks| - 1;
      if hooks[n].HookEvents? then Reported(hooks[..n]) + hooks[n].events else Reported(hooks[..n])
  }

  /** The model that the last override request among the events asks for. */
  function LastAsked(events: seq<Event>): Option<string> {
    if events == [] then None
    else if events[|events| - 1].NextTurnOverrideRequested? then Some(events[|events| - 1].model)
    else LastAsked(events[..|events| - 1])
  }

  function ModelOf(o: Option<Override>): Option<string> { if o.Some? then Some(o.value.model) else None }

  lemma {:induction false} LastAskedAppend(a: seq<Event>, b: seq<Event>)
    ensures LastAsked(a + b) == if LastAsked(b).Some? then LastAsked(b) else LastAsked(a)
  {
    if b == [] {
      assert a + b == a;
    } else {
      var n := |b| - 1;
      assert (a + b)[..|a| + n] == a + b[..n];
      LastAskedAppend(a, b[..n]);
    }
  }

  /** An empty model in a request stands for the session's. */
  function Meant(asked: Option<string>, sessionModel: string, otherwise: Option<string>): Option<string> {
    if asked.None? then otherwise else if asked.value == "" then Some(sessionModel) else asked
  }

  lemma {:induction false} EventsAsk(events: seq<Event>, sessionModel: string, current: Option<Override>)
    ensures ModelOf(OverrideAfterEvents(events, sessionModel, current))
         == Meant(LastAsked(events), sessionModel, ModelOf(current))
  {
    if events != [] {
      EventsAsk(events[..|events| - 1], sessionModel, current);
    }
  }

  lemma {:induction false} HooksAsk(hooks: seq<HookOutcome>, sessionModel: string, current: Option<Override>)
    ensures ModelOf(OverrideAfter(hooks, sessionModel, current))
         == Meant(LastAsked(Reported(hooks)), sessionModel, ModelOf(current))
  {
    if hooks != [] {
      var n := |hooks| - 1;
      HooksAsk(hooks[..n], sessionModel, current);
      if hooks[n].HookEvents? {
        EventsAsk(hooks[n].events, sessionModel, OverrideAfter(hooks[..n], sessionModel, current));
        LastAskedAppend(Reported(hooks[..n]), hooks[n].events);
      }
    }
  }

  function FirstNonEmpty(models: seq<string>): string {
    if models == [] then "" else if models[0] != "" then models[0] else FirstNonEmpty(models[1..])
  }

  /** What the k-th request may use, best first: what was asked for since the
      request before it, the session's model, the provider's default. */
  function Choices(env: Environment, k: nat, initial: Option<Override>, sessionModel: string): seq<string> {
    var asked := if k == 0 then ModelOf(initial) else LastAsked(Reported(env.turn(k - 1).nextTurn));
    (if asked.Some? then [asked.value] else []) + [sessionModel, env.defaultModel]
  }

  /** Each request uses the first of its choices that is not empty, and no
      override reaches a second request. */
  lemma {:induction false} EachModelIsRight(models: seq<string>, env: Environment, initial: Option<Override>,
                                            sessionModel: string, k: nat)
    requires RightModels(models, env, initial, sessionModel) && k < |models|
    ensures models[k] == FirstNonEmpty(Choices(env, k, initial, sessionModel))
    decreases |models|
  {
    if k < |models| - 1 {
      EachModelIsRight(models[..|models| - 1], env, initial, sessionModel, k);
    } else {
      if k > 0 {
        HooksAsk(env.turn(k - 1).nextTurn, sessionModel, None);
      }
      FirstOfChoices(env, k, initial, sessionModel);
    }
  }

  /** What a request asked for, meant with regard to the session. */
  ghost predicate Follows(env: Environment, k: nat, sessionModel: string) {
    k > 0 ==>
      var hooks := env.turn(k - 1).nextTurn;
      ModelOf(OverrideAfter(hooks, sessionModel, None)) == Meant(LastAsked(Reported(hooks)), sessionModel, None)
  }

  lemma {:induction false} FirstOfTwo(a: string, b: string)
    ensures FirstNonEmpty([a, b]) == if a != "" then a else b
  {
    assert [a, b][1..] == [b] && [b][1..] == [];
    assert FirstNonEmpty([b]) == b;
  }

  lemma {:induction false} FirstOfThree(a: string, b: string, c: string)
    ensures FirstNonEmpty([a] + [b, c]) == if a != "" then a else FirstNonEmpty([b, c])
  {
    assert ([a] + [b, c])[1..] == [b, c];
  }

  lemma {:induction false} FirstOfChoices(env: Environment, k: nat, initial: Option<Override>, sessionModel: string)
    requires Follows(env, k, sessionModel)
    ensures ModelAt(env, k, initial, sessionModel) == FirstNonEmpty(Choices(env, k, initial, sessionModel))
  {
    var asked := if k == 0 then ModelOf(initial) else LastAsked(Reported(env.turn(k - 1).nextTurn));
    FirstOfTwo(sessionModel, env.defaultModel);
    if asked.Some? {
      FirstOfThree(asked.value, sessionModel, env.defaultModel);
    } else {
      assert Choices(env, k, initial, sessionModel) == [sessionModel, env.defaultModel];
    }
  }

  /** Why the loop stops before a turn. */
  function EarlyStop(maxTurns: nat, turns: nat, b: TokenBudget): Option<StopReason> {
    if turns >= maxTurns then Some(MaxTurns) else if Exhausted(b) then Some(BudgetExhausted) else None
  }

  /** A checkpoint of a session that has not lost any message since the last. */
  method KeepCheckpoint(session: Session, env: Environment, maxTurns: nat, ghost initial: Option<Override>, sink: Sink)
    returns (s: Status)
    requires sink.Valid() && SoundTrace(sink.view, env, maxTurns, initial, session.model)
    requires Continues(sink.view, session.history)
    modifies sink
    ensures sink.Valid() && SoundTrace(sink.view, env, maxTurns, initial, session.model)
    ensures sink.view == old(sink.view).(checkpoints := sink.view.checkpoints)
    ensures s.Done? ==> Resumable(sink.view, Snapshot(session))
  {
    ChainGrows(sink.view.checkpoints, Snapshot(session));
    s := EmitCheckpoint(session, sink);
  }

  /** The history goes on from the last checkpoint's. */
  ghost predicate Continues(v: TraceView, history: seq<SessionMessage>) {
    v.checkpoints != [] ==>
      var last := v.checkpoints[|v.checkpoints| - 1]; last.Checkpoint? ==> last.history <= history
  }

  /** The top of the loop: the checks, then late messages and their checkpoint. */
  method BeginTurn(session: Session, env: Environment, t: TurnScript, maxTurns: nat, turns: nat,
                   ghost initial: Option<Override>, sink: Sink) returns (r: Result<Option<StopReason>, LoopError>)
    requires sink.Valid() && Resumable(sink.view, Snapshot(session))
    requires SoundTrace(sink.view, env, maxTurns, initial, session.model)
    modifies session`history, sink
    ensures sink.Valid() && SoundTrace(sink.view, env, maxTurns, initial, session.model)
    ensures Grew(old(session.history), session.history, session.id, session.namespace)
    ensures sink.view.models == old(sink.view.models) && sink.view.proposals == old(sink.view.proposals)
    ensures r.Success? ==> Resumable(sink.view, Snapshot(session))
    ensures r.Success? ==> r.value == EarlyStop(maxTurns, turns, session.tokenBudget)
    ensures r.Success? && r.value.Some? ==> r.value.value in sink.view.stops && session.history == old(session.history)
    ensures r.Success? && r.value.None? ==>
      Messages(session.history) == Messages(old(session.history)) + Injected(t.drain)
  {
    if t.cancelled {
      return Failure(Cancelled);
    }
    if turns >= maxTurns {
      :- sink.Emit(Stop(MaxTurns));
      return Success(Some(MaxTurns));
    }
    if Exhausted(session.tokenBudget) {
      :- sink.Emit(Stop(BudgetExhausted));
      return Success(Some(BudgetExhausted));
    }
    var injected :- DrainMessages(session, t.drain, sink);
    if injected > 0 {
      :- KeepCheckpoint(session, env, maxTurns, initial, sink);
    }
    return Success(None);
  }

  /** Asks the next-turn hooks and stops if one of them blocks. */
  method AskHooks(session: Session, hooks: seq<HookOutcome>, sink: Sink) returns (r: Result<Option<StopReason>, LoopError>)
    requires sink.Valid()
    modifies session`nextTurnOverride, sink
    ensures sink.Valid() && Quietly(old(sink.view), sink.view)
    ensures r.Success? ==> r.value == StopOrBlock(None, hooks)
    ensures r.Success? && r.value.Some? ==> r.value.value in sink.view.stops
    ensures r.Success? && r.value.None? ==>
      session.nextTurnOverride == OverrideAfter(hooks, session.model, old(session.nextTurnOverride))
  {
    var blocked :- NextTurnHooks(hooks, session, sink);
    if blocked.Some? {
      r := AnnounceBlock(blocked.value, sink);
    } else {
      r := Success(None);
    }
  }

  method AnnounceBlock(reason: string, sink: Sink) returns (r: Result<Option<StopReason>, LoopError>)
    requires sink.Valid()
    modifies sink
    ensures sink.Valid() && Quietly(old(sink.view), sink.view)
    ensures r.Success? ==> r.value == Some(HookBlocked) && HookBlocked in sink.view.stops
  {
    var report: seq<HookEvent> := [HookFailed("next_turn"), Error(reason, false)];
    :- sink.EmitHookEvents(report);
    :- sink.Emit(Stop(HookBlocked));
    return Success(Some(HookBlocked));
  }

  /** After the turn: its checkpoint, the stop decision, the next-turn hooks. */
  method EndOfTurn(session: Session, env: Environment, t: TurnScript, maxTurns: nat, turns: nat, outcome: TurnOutcome,
                   ghost initial: Option<Override>, sink: Sink) returns (r: Result<Option<StopReason>, LoopError>)
    requires sink.Valid() && SoundTrace(sink.view, env, maxTurns, initial, session.model)
    requires Continues(sink.view, session.history)
    modifies session`nextTurnOverride, sink
    ensures sink.Valid() && SoundTrace(sink.view, env, maxTurns, initial, session.model)
    ensures sink.view.models == old(sink.view.models) && sink.view.proposals == old(sink.view.proposals)
    ensures r.Success? ==> Resumable(sink.view, Snapshot(session))
    ensures r.Success? ==>
      r.value == StopOrBlock(NextStop(maxTurns, session.tokenBudget, turns, outcome), t.nextTurn)
    ensures r.Success? && r.value.Some? ==> r.value.value == EndTurn || r.value.value in sink.view.stops
    ensures r.Success? && r.value.None? ==>
      session.nextTurnOverride == OverrideAfter(t.nextTurn, session.model, old(session.nextTurnOverride))
  {
    var stop := NextStop(maxTurns, session.tokenBudget, turns, outcome);
    :- KeepCheckpoint(session, env, maxTurns, initial, sink);
    if stop.Some? {
      if stop.value != EndTurn && stop.value != ToolUse {
        :- sink.Emit(Stop(stop.value));
      }
      return Success(stop);
    }
    r := AskHooks(session, t.nextTurn, sink);
  }

  /** The request and the turn it starts. */
  method RequestAndRun(session: Session, env: Environment, t: TurnScript, maxTurns: nat, turns: nat,
                       ghost initial: Option<Override>, totals: Totals, sink: Sink) returns (r: Result<TurnOutcome, LoopError>)
    requires sink.Valid() && SoundTrace(sink.view, env, maxTurns, initial, session.model)
    requires Resumable(sink.view, Snapshot(session)) && !Exhausted(session.tokenBudget)
    requires |sink.view.models| == turns < maxTurns
    requires session.nextTurnOverride == PendingAt(env, turns, initial, session.model)
    modifies session, totals, sink
    ensures sink.Valid() && SoundTrace(sink.view, env, maxTurns, initial, session.model)
    ensures Grew(old(session.history), session.history, session.id, session.namespace)
    ensures sink.view.checkpoints == old(sink.view.checkpoints)
    ensures r.Success? ==> |sink.view.models| == turns + 1 && session.nextTurnOverride == None
    ensures r.Success? ==>
      && Prepared(old(ProgressOf(session, totals, sink)), t).Some?
      && ReplyResult(t, env.read).Finished?
      && var p := Prepared(old(ProgressOf(session, totals, sink)), t).value;
         && ProgressOf(session, totals, sink) == AfterModel(p, t, env.read)
         && r.value == OutcomeOf(p, t, env.read)
  {
    ModelsGrow(sink.view.models, env, initial, session.model);
    var _ :- BuildRequest(session, env, t, sink);
    r := RunTurn(session, env, t, totals, sink);
  }

  /** A turn after its first check, up to and with its last. */
  method FullTurn(session: Session, env: Environment, t: TurnScript, maxTurns: nat, turns: nat,
                  ghost initial: Option<Override>, totals: Totals, sink: Sink) returns (r: Result<Option<StopReason>, LoopError>)
    requires sink.Valid() && SoundTrace(sink.view, env, maxTurns, initial, session.model)
    requires Resumable(sink.view, Snapshot(session)) && !Exhausted(session.tokenBudget)
    requires |sink.view.models| == turns < maxTurns && t == env.turn(turns)
    requires session.nextTurnOverride == PendingAt(env, turns, initial, session.model)
    modifies session, totals, sink
    ensures sink.Valid() && SoundTrace(sink.view, env, maxTurns, initial, session.model)
    ensures Grew(old(session.history), session.history, session.id, session.namespace)
    ensures r.Success? ==>
      && Resumable(sink.view, Snapshot(session)) && |sink.view.models| == turns + 1
      && (r.value.Some? ==> r.value.value == EndTurn || r.value.value in sink.view.stops)
      && (r.value.None? ==> session.nextTurnOverride == PendingAt(env, turns + 1, initial, session.model))
      && Prepared(old(ProgressOf(session, totals, sink)), t).Some?
      && TurnDone(env, maxTurns, turns, Prepared(old(ProgressOf(session, totals, sink)), t).value,
                  ProgressOf(session, totals, sink), r.value)
  {
    var outcome :- RequestAndRun(session, env, t, maxTurns, turns, initial, totals, sink);
    r := EndOfTurn(session, env, t, maxTurns, turns + 1, outcome, initial, sink);
  }

  /** The context state that preparing the request leaves. */
  ghost function Prepared(p: Progress, t: TurnScript): Option<Progress> {
    if t.prepared.Some? then Some(p.(contextState := ApplyDelta(p.contextState, t.prepared.value))) else None
  }

  /** From a prepared request to the stop decision. */
  ghost predicate TurnDone(env: Environment, maxTurns: nat, turns: nat, prepared: Progress, after: Progress,
                           stop: Option<StopReason>) {
    var t := env.turn(turns);
    && ReplyResult(t, env.read).Finished?
    && after == AfterModel(prepared, t, env.read)
    && stop == StopOrBlock(NextStop(maxTurns, after.tokenBudget, turns + 1, OutcomeOf(prepared, t, env.read)), t.nextTurn)
  }

  /** A turn took `before` to `after` and left the stop decision `stop`. */
  ghost predicate TurnRan(env: Environment, maxTurns: nat, turns: nat, before: Progress, after: Progress,
                          stop: Option<StopReason>) {
    TurnDone(env, maxTurns, turns, AfterRequest(before, env.turn(turns)), after, stop)
  }

  /** One pass through the loop: the stop check before the turn, or the turn
      and the stop check after it. */
  method OneTurn(session: Session, env: Environment, maxTurns: nat, turns: nat, ghost initial: Option<Override>,
                 totals: Totals, sink: Sink) returns (r: Result<Option<StopReason>, LoopError>, ran: bool)
    requires sink.Valid() && SoundTrace(sink.view, env, maxTurns, initial, session.model)
    requires Resumable(sink.view, Snapshot(session))
    requires |sink.view.models| == turns
    requires session.nextTurnOverride == PendingAt(env, turns, initial, session.model)
    modifies session, totals, sink
    ensures sink.Valid() && SoundTrace(sink.view, env, maxTurns, initial, session.model)
    ensures Grew(old(session.history), session.history, session.id, session.namespace)
    ensures r.Success? ==>
      && Resumable(sink.view, Snapshot(session)) && |sink.view.models| == turns + (if ran then 1 else 0)
      && (r.value.Some? ==> r.value.value == EndTurn || r.value.value in sink.view.stops)
      && (r.value.None? ==> ran && session.nextTurnOverride == PendingAt(env, turns + 1, initial, session.model))
    ensures r.Success? && !ran ==>
      && ProgressOf(session, totals, sink) == old(ProgressOf(session, totals, sink))
      && r.value == EarlyStop(maxTurns, turns, session.tokenBudget) && r.value.Some?
    ensures r.Success? && ran ==>
      && EarlyStop(maxTurns, turns, old(session.tokenBudget)) == None
      && TurnRan(env, maxTurns, turns, old(ProgressOf(session, totals, sink)), ProgressOf(session, totals, sink), r.value)
  {
    ran := false;
    var t := env.turn(turns);
    ghost var h0, p0 := session.history, ProgressOf(session, totals, sink);
    var early :- BeginTurn(session, env, t, maxTurns, turns, initial, sink);
    if early.Some? {
      return Success(early), false;
    }
    ghost var h1, p1 := session.history, ProgressOf(session, totals, sink);
    r := FullTurn(session, env, t, maxTurns, turns, initial, totals, sink);
    GrewTransitive(h0, h1, session.history, session.id, session.namespace);
    ran := true;
    RequestPrepared(p0, p1, t);
  }

  lemma {:induction false} RequestPrepared(p0: Progress, p1: Progress, t: TurnScript)
    requires p1 == p0.(messages := p0.messages + Injected(t.drain))
    ensures Prepared(p1, t).Some? ==> Prepared(p1, t).value == AfterRequest(p0, t)
  {
  }

  ghost function StartOf(session: Session): Progress
    reads session
  {
    Progress(Messages(session.history), session.contextState, session.tokenBudget, [], 0, 0)
  }

  /** Whether a turn is assembled and nothing stopped the loop before it. */
  ghost function GoesOn(env: Environment, start: Progress, maxTurns: nat): nat -> bool {
    (k: nat) => StopAfter(env, start, maxTurns, k) == None && ReplyResult(env.turn(k), env.read).Finished?
  }

  ghost predicate AllBefore(p: nat -> bool, n: nat) { forall k | 0 <= k < n :: p(k) }

  /** n turns ran to the end. */
  ghost predicate RanTurns(env: Environment, start: Progress, maxTurns: nat, n: nat) {
    AllBefore(GoesOn(env, start, maxTurns), n)
  }

  lemma {:induction false} RanBefore(env: Environment, start: Progress, maxTurns: nat, k: nat, n: nat)
    requires k < n && RanTurns(env, start, maxTurns, n)
    ensures StopAfter(env, start, maxTurns, k) == None && ReplyResult(env.turn(k), env.read).Finished?
  {
    assert GoesOn(env, start, maxTurns)(k);
  }

  lemma {:induction false} RanOneMore(env: Environment, start: Progress, maxTurns: nat, n: nat)
    requires RanTurns(env, start, maxTurns, n)
    requires StopAfter(env, start, maxTurns, n) == None && ReplyResult(env.turn(n), env.read).Finished?
    ensures RanTurns(env, start, maxTurns, n + 1)
  {
    assert GoesOn(env, start, maxTurns)(n);
  }

  /** Where the loop stands: still going after n turns, or stopped by reason. */
  ghost predicate Standing(env: Environment, start: Progress, maxTurns: nat, n: nat, now: Progress,
                           reason: Option<StopReason>) {
    && RanTurns(env, start, maxTurns, n)
    && now == AfterTurns(env, start, n)
    && (n > 0 || reason.Some? ==> reason == StopAfter(env, start, maxTurns, n))
  }

  lemma {:induction false} NextStanding(env: Environment, start: Progress, maxTurns: nat, n: nat,
                                        before: Progress, after: Progress, stop: Option<StopReason>)
    requires Standing(env, start, maxTurns, n, before, None)
    requires EarlyStop(maxTurns, n, before.tokenBudget) == None
    requires TurnRan(env, maxTurns, n, before, after, stop)
    ensures Standing(env, start, maxTurns, n + 1, after, stop)
  {
    var t := env.turn(n);
    assert AfterTurns(env, start, n + 1) == AfterTurn(before, t, env.read) == after;
    RanOneMore(env, start, maxTurns, n);
  }

  /** Past its first check the loop stops only at the end of a turn. */
  lemma {:induction false} StopsAtTheStart(env: Environment, start: Progress, maxTurns: nat, n: nat, now: Progress)
    requires Standing(env, start, maxTurns, n, now, None)
    requires EarlyStop(maxTurns, n, now.tokenBudget).Some?
    ensures n == 0
  {
  }

  /** What holds each time the loop comes round. */
  ghost predicate Going(session: Session, env: Environment, maxTurns: nat, turns: nat, initial: Option<Override>,
                        start: Progress, totals: Totals, sink: Sink, reason: Option<StopReason>)
    reads session, totals, sink
  {
    && sink.Valid() && SoundTrace(sink.view, env, maxTurns, initial, session.model)
    && Resumable(sink.view, Snapshot(session))
    && |sink.view.models| == turns
    && (reason.None? ==> session.nextTurnOverride == PendingAt(env, turns, initial, session.model))
    && (reason.Some? ==> reason.value == EndTurn || reason.value in sink.view.stops)
    && Standing(env, start, maxTurns, turns, ProgressOf(session, totals, sink), reason)
  }

  /** The loop's body. */
  method GoRound(session: Session, env: Environment, maxTurns: nat, turns: nat, ghost initial: Option<Override>,
                 ghost start: Progress, totals: Totals, sink: Sink) returns (r: Result<Option<StopReason>, LoopError>, now: nat)
    requires Going(session, env, maxTurns, turns, initial, start, totals, sink, None)
    modifies session, totals, sink
    ensures sink.Valid() && SoundTrace(sink.view, env, maxTurns, initial, session.model)
    ensures Grew(old(session.history), session.history, session.id, session.namespace)
    ensures r.Success? ==> Going(session, env, maxTurns, now, initial, start, totals, sink, r.value)
    ensures r.Success? ==> now <= maxTurns && (r.value.None? ==> now == turns + 1)
  {
    ghost var p := ProgressOf(session, totals, sink);
    var ran;
    r, ran := OneTurn(session, env, maxTurns, turns, initial, totals, sink);
    now := if ran then turns + 1 else turns;
    if r.Success? {
      if ran {
        NextStanding(env, start, maxTurns, turns, p, ProgressOf(session, totals, sink), r.value);
      } else {
        StopsAtTheStart(env, start, maxTurns, turns, p);
      }
    }
  }

  /** The session-start hooks and the first checkpoint. */
  method BeginRun(session: Session, env: Environment, maxTurns: nat, totals: Totals, sink: Sink) returns (s: Status)
    requires sink.Valid() && sink.view == NOTHING && totals.input == 0 && totals.output == 0
    modifies sink
    ensures sink.Valid() && SoundTrace(sink.view, env, maxTurns, session.nextTurnOverride, session.model)
    ensures s.Done? ==>
      Going(session, env, maxTurns, 0, session.nextTurnOverride, StartOf(session), totals, sink, None)
  {
    s := sink.RunHooks(env.sessionStart);
    if s.Done? {
      s := KeepCheckpoint(session, env, maxTurns, session.nextTurnOverride, sink);
    }
  }

  /** A run that ended well: its last checkpoint is the session, its stop was
      announced, and the session and totals are the first turns folded over the
      start. */
  ghost predicate Ended(session: Session, env: Environment, maxTurns: nat, start: Progress, sink: Sink, result: RunResult)
    reads session, sink
  {
    && Resumable(sink.view, Snapshot(session))
    && result.turns == |sink.view.models|
    && (result.stopReason == EndTurn || result.stopReason in sink.view.stops)
    && Standing(env, start, maxTurns, result.turns,
                Progress(Messages(session.history), session.contextState, session.tokenBudget,
                         sink.view.proposals, result.totalInput, result.totalOutput),
                Some(result.stopReason))
  }

  /** The session-end hooks and the result. */
  method EndRun(session: Session, env: Environment, maxTurns: nat, turns: nat, ghost initial: Option<Override>,
                ghost start: Progress, totals: Totals, sink: Sink, reason: StopReason) returns (r: Result<RunResult, LoopError>)
    requires Going(session, env, maxTurns, turns, initial, start, totals, sink, Some(reason))
    modifies sink
    ensures sink.Valid() && SoundTrace(sink.view, env, maxTurns, initial, session.model)
    ensures r.Success? ==> Ended(session, env, maxTurns, start, sink, r.value)
  {
    var hooks := env.sessionEnd;
    :- sink.RunHooks(hooks);
    return Success(RunResult(turns, reason, totals.input, totals.output));
  }

  /** The loop itself; it ends because the turns left decrease. */
  method Loop(session: Session, env: Environment, maxTurns: nat, ghost initial: Option<Override>, ghost start: Progress,
              totals: Totals, sink: Sink) returns (r: Result<StopReason, LoopError>, turns: nat)
    requires Going(session, env, maxTurns, 0, initial, start, totals, sink, None)
    modifies session, totals, sink
    ensures sink.Valid() && SoundTrace(sink.view, env, maxTurns, initial, session.model)
    ensures Grew(old(session.history), session.history, session.id, session.namespace)
    ensures r.Success? ==> Going(session, env, maxTurns, turns, initial, start, totals, sink, Some(r.value))
  {
    turns := 0;
    var reason: Option<StopReason> := None;
    while reason.None?
      invariant Going(session, env, maxTurns, turns, initial, start, totals, sink, reason)
      invariant Grew(old(session.history), session.history, session.id, session.namespace)
      invariant turns <= maxTurns
      decreases if reason.None? then maxTurns - turns + 1 else 0
    {
      ghost var before := session.history;
      var next, now := GoRound(session, env, maxTurns, turns, initial, start, totals, sink);
      GrewTransitive(old(session.history), before, session.history, session.id, session.namespace);
      if next.Failure? {
        return Failure(next.error), turns;
      }
      reason, turns := next.value, now;
    }
    return Success(reason.value), turns;
  }

  /** A whole run: what it emitted at every moment is sound, and when it ends
      well it is exactly the first n turns folded over the session. */
  method Run(maxTurns: nat, session: Session, env: Environment, sink: Sink) returns (r: Result<RunResult, LoopError>)
    requires sink.Valid() && sink.view == NOTHING
    modifies session, sink
    ensures sink.Valid() && SoundTrace(sink.view, env, maxTurns, old(session.nextTurnOverride), session.model)
    ensures Grew(old(session.history), session.history, session.id, session.namespace)
    ensures r.Success? ==> Ended(session, env, maxTurns, old(StartOf(session)), sink, r.value)
  {
    ghost var initial, start := session.nextTurnOverride, StartOf(session);
    var totals := new Totals();
    :- BeginRun(session, env, maxTurns, totals, sink);
    var reason, turns := Loop(session, env, maxTurns, initial, start, totals, sink);
    if reason.Failure? {
      return Failure(reason.error);
    }
    r := EndRun(session, env, maxTurns, turns, initial, start, totals, sink, reason.value);
  }

  // ------------------------------------------------------------ what follows for runs

  /** The number of turns and the stop reason are settled by the answers alone:
      two runs over the same answers that end well end alike. */
  lemma {:induction false} RunsAgree(env: Environment, start: Progress, maxTurns: nat,
                                     m: nat, p: Progress, a: StopReason, n: nat, q: Progress, b: StopReason)
    requires Standing(env, start, maxTurns, m, p, Some(a)) && Standing(env, start, maxTurns, n, q, Some(b))
    ensures m == n && p == q && a == b
  {
    if m < n {
      RanBefore(env, start, maxTurns, m, n);
      assert false;
    } else if n < m {
      RanBefore(env, start, maxTurns, n, m);
      assert false;
    }
  }

  lemma {:induction false} ReachesLimit(env: Environment, start: Progress, maxTurns: nat, n: nat)
    requires n >= maxTurns
    ensures StopAfter(env, start, maxTurns, n) == Some(MaxTurns)
  {
  }

  lemma {:induction false} NoToolUse(env: Environment, start: Progress, maxTurns: nat, n: nat)
    ensures StopAfter(env, start, maxTurns, n) != Some(ToolUse)
  {
    if n > 0 {
      var p, t := AfterRequest(AfterTurns(env, start, n - 1), env.turn(n - 1)), env.turn(n - 1);
      NextIsNotToolUse(maxTurns, AfterModel(p, t, env.read).tokenBudget, n, OutcomeOf(p, t, env.read), t.nextTurn);
    }
  }

  lemma {:induction false} NextIsNotToolUse(maxTurns: nat, budget: TokenBudget, turns: nat, outcome: TurnOutcome,
                                            hooks: seq<HookOutcome>)
    ensures StopOrBlock(NextStop(maxTurns, budget, turns, outcome), hooks) != Some(ToolUse)
  {
  }

  /** No run stops because tools are to be used. */
  lemma {:induction false} NeverStopsForTools(env: Environment, start: Progress, maxTurns: nat, n: nat, now: Progress,
                                              reason: StopReason)
    requires Standing(env, start, maxTurns, n, now, Some(reason))
    ensures reason != ToolUse && n <= maxTurns && (n == maxTurns ==> reason == MaxTurns)
  {
    if n > maxTurns {
      ReachesLimit(env, start, maxTurns, maxTurns);
      RanBefore(env, start, maxTurns, maxTurns, n);
      assert false;
    } else if n == maxTurns {
      ReachesLimit(env, start, maxTurns, n);
    } else if n > 0 {
      NoToolUse(env, start, maxTurns, n);
    }
  }

  /** The last stop reason among the events. */
  function LastStop(events: seq<Event>): Option<StopReason> {
    if events == [] then None
    else if events[|events| - 1].Stop? then Some(events[|events| - 1].reason)
    else LastStop(events[..|events| - 1])
  }

  lemma {:induction false} LastStopCounts(s: Reading, events: seq<Event>)
    ensures HandleAll(s, events).reason == if LastStop(events).Some? then LastStop(events).value else s.reason
  {
    if events != [] {
      LastStopCounts(s, events[..|events| - 1]);
    }
  }

  /** The accumulator keeps back nothing but streamed deltas, so the last stop
      and the last usage report are those of the provider's stream. */
  lemma {:induction false} PassedKeepsReports(events: seq<Event>, read: Turns.JsonReader)
    ensures LastStop(Turns.Run(events, read).1) == LastStop(events)
    ensures LastInput(Turns.Run(events, read).1) == LastInput(events)
  {
    if events != [] {
      var n := |events| - 1;
      PassedKeepsReports(events[..n], read);
      Turns.OneMoreRun(events, read);
      PushedKeepsReports(Turns.Run(events[..n], read).0, events[n], Turns.Run(events[..n], read).1, read);
    }
  }

  lemma {:induction false} PushedKeepsReports(st: Turns.AccState, e: Event, out: seq<Event>, read: Turns.JsonReader)
    ensures LastStop(out + Turns.Pushed(st, e, read).1) == if e.Stop? then Some(e.reason) else LastStop(out)
    ensures LastInput(out + Turns.Pushed(st, e, read).1) == if e.Usage? then Some(e.inputTokens) else LastInput(out)
  {
    var more := Turns.Pushed(st, e, read).1;
    if more == [] {
      assert out + more == out;
    } else {
      assert more == [more[0]];
      assert (out + more)[..|out|] == out;
    }
  }

  /** Why the model ended its turn, as its stream says. */
  function ModelReason(t: TurnScript): StopReason {
    var r := LastStop(StreamEvents(t)); if r.Some? then r.value else EndTurn
  }

  ghost predicate SomeHookBlocks(hooks: seq<HookOutcome>) {
    exists h, e :: h in hooks && h.HookEvents? && e in h.events && e.NextTurnBlocked?
  }

  lemma {:induction false} BlockedByEventsIff(events: seq<Event>)
    ensures BlockedByEvents(events).Some? <==> exists e :: e in events && e.NextTurnBlocked?
  {
    if events != [] {
      var n := |events| - 1;
      BlockedByEventsIff(events[..n]);
      assert forall e :: e in events <==> e in events[..n] || e == events[n];
    }
  }

  lemma {:induction false} BlockedIffSomeHookBlocks(hooks: seq<HookOutcome>)
    ensures BlockedBy(hooks).Some? <==> SomeHookBlocks(hooks)
  {
    if hooks != [] {
      var n := |hooks| - 1;
      BlockedIffSomeHookBlocks(hooks[..n]);
      assert forall h :: h in hooks <==> h in hooks[..n] || h == hooks[n];
      if hooks[n].HookEvents? {
        BlockedByEventsIff(hooks[n].events);
      }
    }
  }

  /** Why the loop stops after a turn: the turn limit comes first, then the
      budget, then a reply without calls whose reason is not tool use, then a
      hook that blocks; otherwise it goes on. */
  lemma {:induction false} StopsWhen(env: Environment, start: Progress, maxTurns: nat, n: nat)
    ensures var t := env.turn(n);
      var stop := StopAfter(env, start, maxTurns, n + 1);
      if n + 1 >= maxTurns then stop == Some(MaxTurns)
      else if Exhausted(AfterTurns(env, start, n + 1).tokenBudget) then stop == Some(BudgetExhausted)
      else if Reply(t, env.read).toolCalls == [] && ModelReason(t) != ToolUse then stop == Some(ModelReason(t))
      else if SomeHookBlocks(t.nextTurn) then stop == Some(HookBlocked)
      else stop == None
  {
    var t := env.turn(n);
    var p := AfterRequest(AfterTurns(env, start, n), t);
    PassedKeepsReports(StreamEvents(t), env.read);
    LastStopCounts(Reading(p.proposals, {}, EndTurn, p.tokenBudget, p.input, p.output), Passed(t, env.read));
    BlockedIffSomeHookBlocks(t.nextTurn);
  }

  /** The reasons there are to stop after n turns. */
  ghost predicate IsReason(env: Environment, start: Progress, maxTurns: nat, n: nat, reason: StopReason) {
    || (reason == MaxTurns && n >= maxTurns)
    || (reason == BudgetExhausted && Exhausted(AfterTurns(env, start, n).tokenBudget))
    || (reason == HookBlocked && n > 0 && SomeHookBlocks(env.turn(n - 1).nextTurn))
    || (n > 0 && Reply(env.turn(n - 1), env.read).toolCalls == [] && reason == ModelReason(env.turn(n - 1)))
  }

  lemma {:induction false} StopsAtOnce(env: Environment, start: Progress, maxTurns: nat, reason: StopReason)
    requires StopAfter(env, start, maxTurns, 0) == Some(reason)
    ensures IsReason(env, start, maxTurns, 0, reason)
  {
  }

  /** After a turn the loop stops at the limit, out of budget, blocked by a hook,
      or for the reason the reply gave: so a run ends for one of these. */
  lemma {:induction false} EndsForAReason(env: Environment, start: Progress, maxTurns: nat, n: nat, reason: StopReason)
    requires StopAfter(env, start, maxTurns, n + 1) == Some(reason)
    ensures IsReason(env, start, maxTurns, n + 1, reason)
  {
    StopsWhen(env, start, maxTurns, n);
  }

  /** The last usage report among the events. */
  function LastInput(events: seq<Event>): Option<Usize> {
    if events == [] then None
    else if events[|events| - 1].Usage? then Some(events[|events| - 1].inputTokens)
    else LastInput(events[..|events| - 1])
  }

  lemma {:induction false} LastReportCounts(s: Reading, events: seq<Event>)
    ensures HandleAll(s, events).budget
         == if LastInput(events).Some? then RecordUsage(s.budget, LastInput(events).value) else s.budget
  {
    if events != [] {
      LastReportCounts(s, events[..|events| - 1]);
    }
  }

  /** After a turn that reported usage the loop goes on only if the last input,
      the reserve and the minimum fit the model's limit; when they do not, it
      stops for its budget unless the turn limit is reached. */
  lemma {:induction false} GoesOnOnlyIfItFits(env: Environment, start: Progress, maxTurns: nat, n: nat)
    requires LastInput(StreamEvents(env.turn(n))).Some?
    requires AfterTurns(env, start, n).tokenBudget.minimumTurnBudget > 0 && n + 1 < maxTurns
    ensures var b := AfterTurns(env, start, n).tokenBudget;
      var fits := Max(LastInput(StreamEvents(env.turn(n))).value, NonHistory(b))
                  + b.reservedOutput + b.minimumTurnBudget <= b.modelLimit;
      && (StopAfter(env, start, maxTurns, n + 1) == None ==> fits)
      && (!fits ==> StopAfter(env, start, maxTurns, n + 1) == Some(BudgetExhausted))
  {
    var t := env.turn(n);
    var p := AfterRequest(AfterTurns(env, start, n), t);
    PassedKeepsReports(StreamEvents(t), env.read);
    LastReportCounts(Reading(p.proposals, {}, EndTurn, p.tokenBudget, p.input, p.output), Passed(t, env.read));
    BudgetGoesOnIffItFits(p.tokenBudget, LastInput(Passed(t, env.read)).value);
  }

  /** The tokens reported by the events. */
  function InputIn(events: seq<Event>): nat {
    if events == [] then 0
    else InputIn(events[..|events| - 1]) + if events[|events| - 1].Usage? then events[|events| - 1].inputTokens else 0
  }

  function OutputIn(events: seq<Event>): nat {
    if events == [] then 0
    else OutputIn(events[..|events| - 1]) + if events[|events| - 1].Usage? then events[|events| - 1].outputTokens else 0
  }

  function Capped(n: nat): nat { if n > USIZE_MAX then USIZE_MAX else n }

  /** The totals grow by all the tokens reported, up to the machine's limit. */
  lemma {:induction false} ReportsAddUp(s: Reading, events: seq<Event>)
    ensures HandleAll(s, events).input == Capped(s.input + InputIn(events))
    ensures HandleAll(s, events).output == Capped(s.output + OutputIn(events))
  {
    if events != [] {
      ReportsAddUp(s, events[..|events| - 1]);
    }
  }

  /** The accumulator keeps back no token report. */
  lemma {:induction false} PassedKeepsTokens(events: seq<Event>, read: Turns.JsonReader)
    ensures InputIn(Turns.Run(events, read).1) == InputIn(events)
    ensures OutputIn(Turns.Run(events, read).1) == OutputIn(events)
  {
    if events != [] {
      var n := |events| - 1;
      PassedKeepsTokens(events[..n], read);
      Turns.OneMoreRun(events, read);
      PushedKeepsTokens(Turns.Run(events[..n], read).0, events[n], Turns.Run(events[..n], read).1, read);
    }
  }

  lemma {:induction false} PushedKeepsTokens(st: Turns.AccState, e: Event, out: seq<Event>, read: Turns.JsonReader)
    ensures InputIn(out + Turns.Pushed(st, e, read).1) == InputIn(out) + if e.Usage? then e.inputTokens else 0
    ensures OutputIn(out + Turns.Pushed(st, e, read).1) == OutputIn(out) + if e.Usage? then e.outputTokens else 0
  {
    var more := Turns.Pushed(st, e, read).1;
    if more == [] {
      assert out + more == out;
    } else {
      assert more == [more[0]];
      assert (out + more)[..|out|] == out;
    }
  }

  lemma {:induction false} ReadProposals(s: Reading, events: seq<Event>)
    ensures HandleAll(s, events).proposals == s.proposals + Turns.Proposals(events)
    ensures HandleAll(s, events).emitted == s.emitted + Turns.ProposedIds(events)
  {
    if events != [] {
      var n := |events| - 1;
      ReadProposals(s, events[..n]);
      LastProposed(events);
    }
  }

  lemma {:induction false} LastProposed(events: seq<Event>)
    requires events != []
    ensures var e := events[|events| - 1];
      Turns.ProposedIds(events) == Turns.ProposedIds(events[..|events| - 1]) + (if e.ToolCallProposed? then {e.id} else {})
  {
    var n := |events| - 1;
    assert forall p :: p in events <==> p in events[..n] || p == events[n];
  }

  /** `after` is `before` and then `more`, in some order. */
  ghost predicate Adds(before: seq<Event>, after: seq<Event>, more: seq<Event>) {
    before <= after && multiset(after[|before|..]) == multiset(more)
  }

  lemma {:induction false} AddsBoth(a: seq<Event>, b: seq<Event>, c: seq<Event>, more: seq<Event>)
    requires multiset(b + c) == multiset(more)
    ensures Adds(a, a + b + c, more)
  {
    assert (a + b + c)[|a|..] == b + c;
  }

  lemma {:induction false} TurnProposals(p: Progress, t: TurnScript, read: Turns.JsonReader)
    ensures AfterTurn(p, t, read).proposals
         == p.proposals + Turns.Proposals(Passed(t, read))
            + Turns.LateProposals(Reply(t, read).toolCalls, Turns.ProposedIds(Passed(t, read)))
  {
    var q := AfterRequest(p, t);
    ReadProposals(Reading(q.proposals, {}, EndTurn, q.tokenBudget, q.input, q.output), Passed(t, read));
    assert {} + Turns.ProposedIds(Passed(t, read)) == Turns.ProposedIds(Passed(t, read));
  }

  /** One proposal per committed call in each turn whose provider streams none
      of its own. */
  lemma {:induction false} TurnProposesOnce(p: Progress, t: TurnScript, num: NumberReader, read: Turns.JsonReader)
    requires read == Turns.SerdeReader(num) && ReplyResult(t, read).Finished?
    requires Turns.NoneProposed(StreamEvents(t))
    ensures Adds(p.proposals, AfterTurn(p, t, read).proposals, Turns.AsProposals(Reply(t, read).toolCalls))
  {
    var early, calls := Turns.Proposals(Passed(t, read)), Reply(t, read).toolCalls;
    Turns.EachCallProposedOnce(StreamEvents(t), num, read, Reply(t, read));
    Turns.ProposedIdsOfProposals(Passed(t, read));
    TurnProposals(p, t, read);
    AddsBoth(p.proposals, early, Turns.LateProposals(calls, Turns.ProposedIds(early)), Turns.AsProposals(calls));
  }

  lemma {:induction false} MessagesOfTurn(p: Progress, t: TurnScript, read: Turns.JsonReader)
    ensures AfterTurn(p, t, read).messages
         == p.messages + Injected(t.drain) + ([Turns.IntoMessage(Reply(t, read))]
            + ToolMessages(ToolBatch.Answers(Reply(t, read).toolCalls, t.batch)))
  {
  }

  /** One result for each call, in order. */
  ghost predicate Answered(calls: seq<Turns.ToolCall>, script: ToolBatch.Script, results: seq<Message>) {
    && |results| == |calls|
    && forall k | 0 <= k < |calls| ::
         var a := ToolBatch.AnswerTo(script(k)); results[k] == ToolResult(calls[k].id, a.output, a.isError)
  }

  /** The last blocks of a message are the calls, in order. */
  ghost predicate EndsInCalls(m: Message, calls: seq<Turns.ToolCall>) {
    && m.Assistant? && |m.content| >= |calls|
    && forall k | 0 <= k < |calls| ::
         m.content[|m.content| - |calls| + k] == ToolUseBlock(calls[k].id, calls[k].name, calls[k].input)
  }

  lemma {:induction false} EndsInItsCalls(turn: Turns.AssistantTurn)
    ensures EndsInCalls(Turns.IntoMessage(turn), turn.toolCalls)
  {
  }

  lemma {:induction false} ResultsAnswer(calls: seq<Turns.ToolCall>, script: ToolBatch.Script)
    ensures Answered(calls, script, ToolMessages(ToolBatch.Answers(calls, script)))
  {
  }

  /** From place n on: a message with the calls, then their results. */
  ghost predicate AnsweredAt(messages: seq<Message>, n: nat, calls: seq<Turns.ToolCall>, script: ToolBatch.Script) {
    n < |messages| && EndsInCalls(messages[n], calls) && Answered(calls, script, messages[n + 1..])
  }

  lemma {:induction false} AnsweredAfter(front: seq<Message>, m: Message, results: seq<Message>, calls: seq<Turns.ToolCall>,
                                         script: ToolBatch.Script)
    requires EndsInCalls(m, calls) && Answered(calls, script, results)
    ensures AnsweredAt(front + ([m] + results), |front|, calls, script)
  {
    var all := front + ([m] + results);
    assert all[|front|] == m && all[|front| + 1..] == results;
  }

  /** In every good turn the assistant's message, whose tool blocks are the calls
      in order, is followed by exactly one result for each call, in that order. */
  lemma {:induction false} EveryCallIsAnswered(p: Progress, t: TurnScript, read: Turns.JsonReader)
    ensures AnsweredAt(AfterTurn(p, t, read).messages, |p.messages + Injected(t.drain)|, Reply(t, read).toolCalls, t.batch)
  {
    var turn := Reply(t, read);
    MessagesOfTurn(p, t, read);
    EndsInItsCalls(turn);
    ResultsAnswer(turn.toolCalls, t.batch);
    AnsweredAfter(p.messages + Injected(t.drain), Turns.IntoMessage(turn),
                  ToolMessages(ToolBatch.Answers(turn.toolCalls, t.batch)), turn.toolCalls, t.batch);
  }

  function QueuedFor(t: TurnScript): seq<QueuedMessage> { if t.drain.Drained? then t.drain.messages else [] }

  /** The queued messages as user messages, in order. */
  ghost predicate AreUsers(users: seq<Message>, queued: seq<QueuedMessage>) {
    && |users| == |queued|
    && forall i | 0 <= i < |queued| :: users[i] == User([TextBlock(queued[i].content)], Some(queued[i].id))
  }

  lemma {:induction false} InjectedAreUsers(t: TurnScript)
    ensures AreUsers(Injected(t.drain), QueuedFor(t))
  {
    forall i | 0 <= i < |QueuedFor(t)|
      ensures Injected(t.drain)[i] == User([TextBlock(QueuedFor(t)[i].content)], Some(QueuedFor(t)[i].id))
    {
      InjectedAre(QueuedFor(t), i);
    }
  }

  /** What a turn adds to the history: the queued messages, the reply, one result
      per call, and nothing else. */
  ghost predicate MessagesAdded(before: seq<Message>, after: seq<Message>, t: TurnScript, reply: Turns.AssistantTurn) {
    exists users, m, results :: after == before + users + ([m] + results)
      && AreUsers(users, QueuedFor(t)) && Turns.HoldsTurn(m, reply) && Answered(reply.toolCalls, t.batch, results)
  }

  /** The totals grow by all the tokens the stream reported. */
  ghost predicate TokensAdded(before: Progress, after: Progress, t: TurnScript) {
    && after.input == Capped(before.input + InputIn(StreamEvents(t)))
    && after.output == Capped(before.output + OutputIn(StreamEvents(t)))
  }

  /** The budget knows the last input the stream reported. */
  ghost predicate BudgetAdded(before: Progress, after: Progress, t: TurnScript) {
    after.tokenBudget == match LastInput(StreamEvents(t))
                         case None => before.tokenBudget
                         case Some(n) => RecordUsage(before.tokenBudget, n)
  }

  lemma {:induction false} TurnMessages(p: Progress, t: TurnScript, read: Turns.JsonReader)
    ensures MessagesAdded(p.messages, AfterTurn(p, t, read).messages, t, Reply(t, read))
  {
    var reply := Reply(t, read);
    MessagesOfTurn(p, t, read);
    InjectedAreUsers(t);
    ResultsAnswer(reply.toolCalls, t.batch);
    Turns.MessageHoldsTurn(reply);
  }

  /** What every turn of a run leaves behind. */
  lemma {:induction false} TurnInFull(env: Environment, start: Progress, n: nat)
    ensures var (p, q, t) := (AfterTurns(env, start, n), AfterTurns(env, start, n + 1), env.turn(n));
      && MessagesAdded(p.messages, q.messages, t, Reply(t, env.read)) && TokensAdded(p, q, t)
      && BudgetAdded(p, q, t)
      && q.contextState == match t.prepared case None => p.contextState case Some(d) => ApplyDelta(p.contextState, d)
  {
    var p, t := AfterTurns(env, start, n), env.turn(n);
    OneTurnFurther(env, start, n);
    TurnMessages(p, t, env.read);
    TurnTokens(p, t, env.read);
    TurnBudget(p, t, env.read);
  }

  lemma {:induction false} OneTurnFurther(env: Environment, start: Progress, n: nat)
    ensures AfterTurns(env, start, n + 1) == AfterTurn(AfterTurns(env, start, n), env.turn(n), env.read)
  {
  }

  lemma {:induction false} TurnTokens(p: Progress, t: TurnScript, read: Turns.JsonReader)
    ensures TokensAdded(p, AfterTurn(p, t, read), t)
  {
    var s := TurnReads(p, t, read);
    StreamTokens(t, read);
    TotalsGrow(p, AfterTurn(p, t, read), s, Passed(t, read), StreamEvents(t));
  }

  lemma {:induction false} TurnReads(p: Progress, t: TurnScript, read: Turns.JsonReader) returns (s: Reading)
    ensures s.input == p.input && s.output == p.output && s.budget == p.tokenBudget
    ensures var (q, r) := (AfterTurn(p, t, read), HandleAll(s, Passed(t, read)));
      q.input == r.input && q.output == r.output && q.tokenBudget == r.budget
  {
    var q := AfterRequest(p, t);
    s := Reading(q.proposals, {}, EndTurn, q.tokenBudget, q.input, q.output);
  }

  lemma {:induction false} LastPassedInput(t: TurnScript, read: Turns.JsonReader)
    ensures LastInput(Passed(t, read)) == LastInput(StreamEvents(t))
  {
    PassedKeepsReports(StreamEvents(t), read);
  }

  lemma {:induction false} TurnBudget(p: Progress, t: TurnScript, read: Turns.JsonReader)
    ensures BudgetAdded(p, AfterTurn(p, t, read), t)
  {
    var s := TurnReads(p, t, read);
    LastPassedInput(t, read);
    LastReportCounts(s, Passed(t, read));
  }

  lemma {:induction false} StreamTokens(t: TurnScript, read: Turns.JsonReader)
    ensures InputIn(Passed(t, read)) == InputIn(StreamEvents(t)) && OutputIn(Passed(t, read)) == OutputIn(StreamEvents(t))
  {
    PassedKeepsTokens(StreamEvents(t), read);
  }

  lemma {:induction false} TotalsGrow(before: Progress, after: Progress, s: Reading, passed: seq<Event>, events: seq<Event>)
    requires s.input == before.input && s.output == before.output
    requires after.input == HandleAll(s, passed).input && after.output == HandleAll(s, passed).output
    requires InputIn(passed) == InputIn(events) && OutputIn(passed) == OutputIn(events)
    ensures after.input == Capped(before.input + InputIn(events)) && after.output == Capped(before.output + OutputIn(events))
  {
    ReportsAddUp(s, passed);
  }

  /** The calls committed in the first n turns. */
  function CommittedCalls(env: Environment, n: nat): seq<Turns.ToolCall> {
    if n == 0 then [] else CommittedCalls(env, n - 1) + Reply(env.turn(n - 1), env.read).toolCalls
  }

  lemma {:induction false} ProposesMore(b: seq<Event>, c: seq<Event>, calls: seq<Turns.ToolCall>, more: seq<Turns.ToolCall>)
    requires multiset(b) == multiset(Turns.AsProposals(calls)) && Adds(b, c, Turns.AsProposals(more))
    ensures multiset(c) == multiset(Turns.AsProposals(calls + more))
  {
    assert Turns.AsProposals(calls + more) == Turns.AsProposals(calls) + Turns.AsProposals(more);
    assert c == b + c[|b|..];
  }

  /** Each of the first n turns is assembled, from a stream without proposals. */
  ghost predicate PlainTurns(env: Environment, n: nat) {
    n > 0 ==>
      && PlainTurns(env, n - 1)
      && ReplyResult(env.turn(n - 1), env.read).Finished? && Turns.NoneProposed(StreamEvents(env.turn(n - 1)))
  }

  ghost predicate ProposedAll(env: Environment, start: Progress, n: nat) {
    multiset(AfterTurns(env, start, n).proposals) == multiset(Turns.AsProposals(CommittedCalls(env, n)))
  }

  lemma {:induction false} NextTurnProposes(env: Environment, start: Progress, n: nat, num: NumberReader)
    requires env.read == Turns.SerdeReader(num) && PlainTurns(env, n + 1) && ProposedAll(env, start, n)
    ensures ProposedAll(env, start, n + 1)
  {
    var p, t := AfterTurns(env, start, n), env.turn(n);
    TurnProposesOnce(p, t, num, env.read);
    ProposesMore(p.proposals, AfterTurns(env, start, n + 1).proposals, CommittedCalls(env, n), Reply(t, env.read).toolCalls);
  }

  lemma {:induction false} NothingProposed(env: Environment, start: Progress)
    requires start.proposals == []
    ensures ProposedAll(env, start, 0)
  {
    assert Turns.AsProposals(CommittedCalls(env, 0)) == [];
  }

  /** Over a whole run, exactly the committed calls are proposed, once each. */
  lemma {:induction false} RunProposesOnce(env: Environment, start: Progress, n: nat, num: NumberReader)
    requires env.read == Turns.SerdeReader(num) && start.proposals == [] && PlainTurns(env, n)
    ensures ProposedAll(env, start, n)
  {
    if n == 0 {
      NothingProposed(env, start);
    } else {
      RunProposesOnce(env, start, n - 1, num);
      NextTurnProposes(env, start, n - 1, num);
    }
  }
}
