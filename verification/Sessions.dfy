/** The session that a run works on: its messages, projected context and budget. */
module Sessions {
  import opened Json
  import opened AgentEvents
  import opened MachineInts
  import opened Ordering

  // ------------------------------------------------------------- token budget

  function AvailableTotal(b: TokenBudget): Usize {
    SaturatingSub(SaturatingSub(SaturatingSub(SaturatingSub(SaturatingSub(SaturatingSub(
      b.modelLimit, b.reservedOutput), b.usedSystem), b.usedHistory), b.usedSources), b.usedTools), b.usedMemory)
  }

  predicate Exhausted(b: TokenBudget) { AvailableTotal(b) < b.minimumTurnBudget }

  /** Usage reported by the provider; the output count is not used. */
  function RecordUsage(b: TokenBudget, inputTokens: Usize): TokenBudget {
    var nonHistory :=
      SaturatingAdd(SaturatingAdd(SaturatingAdd(b.usedSystem, b.usedSources), b.usedTools), b.usedMemory);
    b.(usedHistory := SaturatingSub(inputTokens, nonHistory))
  }

  function NonHistory(b: TokenBudget): nat { b.usedSystem + b.usedSources + b.usedTools + b.usedMemory }

  function Max(a: nat, b: nat): nat { if a < b then b else a }

  /** With a positive minimum, a budget is good for another turn exactly when
      the last input, the reserve and the minimum fit the model's limit. */
  lemma {:induction false} BudgetGoesOnIffItFits(b: TokenBudget, inputTokens: Usize)
    requires b.minimumTurnBudget > 0
    ensures !Exhausted(RecordUsage(b, inputTokens)) <==>
      Max(inputTokens, NonHistory(b)) + b.reservedOutput + b.minimumTurnBudget <= b.modelLimit
  {
    var after := RecordUsage(b, inputTokens);
    AvailableIsDifference(after);
    if NonHistory(b) <= USIZE_MAX {
      assert after.usedHistory + NonHistory(b) == Max(inputTokens, NonHistory(b));
    }
  }

  lemma {:induction false} AvailableIsDifference(b: TokenBudget)
    ensures var used := b.reservedOutput + b.usedHistory + NonHistory(b);
      AvailableTotal(b) == if used <= b.modelLimit then b.modelLimit - used else 0
  {
  }

  // ------------------------------------------------------------ context state

  datatype Update = Unchanged | Set(reference: string) | Clear

  datatype ContextDelta = ContextDelta(
    activeCheckpoint: Update, clearedResults: seq<(string, string)>, clearedRemove: seq<string>,
    promptSnapshot: Update, contextEpoch: Option<nat>, policyFingerprint: Option<string>)

  function Updated(previous: Option<string>, u: Update): Option<string> {
    match u case Unchanged => previous case Set(s) => Some(s) case Clear => None
  }

  function Inserted(m: map<string, string>, entries: seq<(string, string)>): map<string, string> {
    if entries == [] then m
    else
      var n := |entries| - 1;
      Inserted(m, entries[..n])[entries[n].0 := entries[n].1]
  }

  function ApplyDelta(s: ContextState, d: ContextDelta): ContextState {
    ContextState(
      Updated(s.activeCheckpoint, d.activeCheckpoint),
      Inserted(s.clearedToolResults - Elements(d.clearedRemove), d.clearedResults),
      Updated(s.promptSnapshot, d.promptSnapshot),
      if d.contextEpoch.Some? then d.contextEpoch.value else s.contextEpoch,
      if d.policyFingerprint.Some? then d.policyFingerprint else s.policyFingerprint)
  }

  lemma {:induction false} InsertedEntry(m: map<string, string>, entries: seq<(string, string)>, id: string)
    ensures id in Inserted(m, entries) <==> id in m || exists e :: e in entries && e.0 == id
    ensures (forall e | e in entries :: e.0 != id) && id in m ==> Inserted(m, entries)[id] == m[id]
  {
    if entries != [] {
      var n := |entries| - 1;
      InsertedEntry(m, entries[..n], id);
      assert entries == entries[..n] + [entries[n]];
    }
  }

  lemma {:induction false} LastEntryWins(m: map<string, string>, entries: seq<(string, string)>, i: nat)
    requires i < |entries| && forall j | i < j < |entries| :: entries[j].0 != entries[i].0
    ensures entries[i].0 in Inserted(m, entries) && Inserted(m, entries)[entries[i].0] == entries[i].1
  {
    var n := |entries| - 1;
    if i < n {
      LastEntryWins(m, entries[..n], i);
    }
  }

  /** A result is cleared after a delta exactly when the delta clears it, or it
      was cleared before and the delta does not remove it; removal comes first. */
  lemma {:induction false} ClearedAfterDelta(s: ContextState, d: ContextDelta, id: string)
    ensures var after := ApplyDelta(s, d).clearedToolResults;
      && (id in after <==>
           (exists e :: e in d.clearedResults && e.0 == id) || (id in s.clearedToolResults && id !in d.clearedRemove))
      && ((forall e | e in d.clearedResults :: e.0 != id) && id in after ==> after[id] == s.clearedToolResults[id])
  {
    InsertedEntry(s.clearedToolResults - Elements(d.clearedRemove), d.clearedResults, id);
  }

  /** Each part of the state follows its own part of the delta. */
  ghost predicate FollowsUpdate(before: Option<string>, u: Update, after: Option<string>) {
    && (u == Unchanged ==> after == before) && (u == Clear ==> after == None)
    && (u.Set? ==> after == Some(u.reference))
  }

  lemma {:induction false} DeltaParts(s: ContextState, d: ContextDelta)
    ensures var after := ApplyDelta(s, d);
      && FollowsUpdate(s.activeCheckpoint, d.activeCheckpoint, after.activeCheckpoint)
      && FollowsUpdate(s.promptSnapshot, d.promptSnapshot, after.promptSnapshot)
      && (d.contextEpoch.Some? ==> after.contextEpoch == d.contextEpoch.value)
      && (d.contextEpoch.None? ==> after.contextEpoch == s.contextEpoch)
      && (d.policyFingerprint.Some? ==> after.policyFingerprint == d.policyFingerprint)
      && (d.policyFingerprint.None? ==> after.policyFingerprint == s.policyFingerprint)
  {
  }

  // ------------------------------------------------------------------- session

  /** What was said, without the ids. */
  function Messages(history: seq<SessionMessage>): seq<Message> {
    seq(|history|, i requires 0 <= i < |history| => history[i].message)
  }

  lemma {:induction false} OneMoreMessage(history: seq<SessionMessage>, m: SessionMessage)
    ensures Messages(history + [m]) == Messages(history) + [m.message]
  {
  }

  datatype Override = Override(model: string, provider: Option<string>)

  /** `after` is `before` with messages appended, each numbered by its place. */
  ghost predicate Grew(before: seq<SessionMessage>, after: seq<SessionMessage>, id: string, namespace: string) {
    && before <= after
    && forall k | |before| <= k < |after| :: after[k].id == MessageId(id, namespace, k)
  }

  class Session {
    const id: string
    const namespace: string
    const model: string
    var history: seq<SessionMessage>
    var contextState: ContextState
    var tokenBudget: TokenBudget
    var nextTurnOverride: Option<Override>

    constructor (id: string, namespace: string, model: string, history: seq<SessionMessage>,
                 contextState: ContextState, tokenBudget: TokenBudget)
      ensures this.id == id && this.namespace == namespace && this.model == model
      ensures this.history == history && this.contextState == contextState && this.tokenBudget == tokenBudget
      ensures nextTurnOverride == None
    {
      this.id, this.namespace, this.model := id, namespace, model;
      this.history, this.contextState, this.tokenBudget := history, contextState, tokenBudget;
      nextTurnOverride := None;
    }

    function NextMessageId(): MessageId
      reads this`history
    {
      MessageId(id, namespace, |history|)
    }

    method AppendMessage(message: Message) returns (newId: MessageId)
      modifies this`history
      ensures newId == MessageId(id, namespace, |old(history)|)
      ensures history == old(history) + [SessionMessage(newId, message)]
      ensures Grew(old(history), history, id, namespace) && Messages(history) == Messages(old(history)) + [message]
    {
      newId := NextMessageId();
      OneMoreMessage(history, SessionMessage(newId, message));
      history := history + [SessionMessage(newId, message)];
    }

    method ApplyContextStateDelta(delta: ContextDelta)
      modifies this`contextState
      ensures contextState == ApplyDelta(old(contextState), delta)
    {
      contextState := contextState.(activeCheckpoint := Updated(contextState.activeCheckpoint, delta.activeCheckpoint));
      var cleared := contextState.clearedToolResults;
      for i := 0 to |delta.clearedRemove|
        invariant cleared == contextState.clearedToolResults - Elements(delta.clearedRemove[..i])
      {
        assert Elements(delta.clearedRemove[..i + 1])
            == Elements(delta.clearedRemove[..i]) + {delta.clearedRemove[i]};
        cleared := cleared - {delta.clearedRemove[i]};
      }
      assert delta.clearedRemove[..|delta.clearedRemove|] == delta.clearedRemove;
      ghost var kept := cleared;
      for i := 0 to |delta.clearedResults|
        invariant cleared == Inserted(kept, delta.clearedResults[..i])
      {
        assert delta.clearedResults[..i + 1][..i] == delta.clearedResults[..i];
        cleared := cleared[delta.clearedResults[i].0 := delta.clearedResults[i].1];
      }
      assert delta.clearedResults[..|delta.clearedResults|] == delta.clearedResults;
      contextState := contextState.(
        clearedToolResults := cleared,
        promptSnapshot := Updated(contextState.promptSnapshot, delta.promptSnapshot));
      if delta.contextEpoch.Some? {
        contextState := contextState.(contextEpoch := delta.contextEpoch.value);
      }
      if delta.policyFingerprint.Some? {
        contextState := contextState.(policyFingerprint := delta.policyFingerprint);
      }
    }

    method RecordTokenUsage(inputTokens: Usize)
      modifies this`tokenBudget
      ensures tokenBudget == RecordUsage(old(tokenBudget), inputTokens)
    {
      tokenBudget := RecordUsage(tokenBudget, inputTokens);
    }
  }

  ghost predicate UniqueIds(history: seq<SessionMessage>) {
    forall i, j | 0 <= i < j < |history| :: history[i].id != history[j].id
  }

  /** A resumed session gets a namespace that no earlier message carries. */
  ghost predicate FreshNamespace(history: seq<SessionMessage>, namespace: string) {
    forall m | m in history :: m.id.namespace != namespace
  }

  /** However far a session grows after a resume, message ids stay unique. */
  lemma {:induction false} IdsStayUnique(before: seq<SessionMessage>, after: seq<SessionMessage>, id: string, namespace: string)
    requires UniqueIds(before) && FreshNamespace(before, namespace)
    requires Grew(before, after, id, namespace)
    ensures UniqueIds(after)
  {
    forall i, j | 0 <= i < j < |after| ensures after[i].id != after[j].id {
      if j >= |before| > i {
        assert after[i] == before[i] && before[i] in before;
      }
    }
  }

  lemma {:induction false} GrewTransitive(a: seq<SessionMessage>, b: seq<SessionMessage>, c: seq<SessionMessage>, id: string, namespace: string)
    requires Grew(a, b, id, namespace) && Grew(b, c, id, namespace)
    ensures Grew(a, c, id, namespace)
  {
    forall k | |a| <= k < |c| ensures c[k].id == MessageId(id, namespace, k) {
      if k < |b| {
        assert c[k] == b[k];
      }
    }
  }
}
