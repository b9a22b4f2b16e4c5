/** Messages and events that the turn accumulator and the agent loop exchange. */
module AgentEvents {
  import opened Json
  import opened MachineInts

  datatype StopReason =
    | EndTurn | ToolUse | MaxOutput | ContentFiltered | MaxTurns
    | BudgetExhausted | PolicyViolation | ProviderError | HookBlocked

  datatype ContentBlock =
    | TextBlock(text: string)
    | ThinkingBlock(thinking: string)
    | ToolUseBlock(id: string, name: string, input: Value)

  datatype Message =
    | User(content: seq<ContentBlock>, queuedMessageId: Option<string>)
    | Assistant(content: seq<ContentBlock>)
    | ToolResult(toolUseId: string, output: string, isError: bool)

  datatype MessageId = MessageId(session: string, namespace: string, sequence: nat)

  datatype SessionMessage = SessionMessage(id: MessageId, message: Message)

  /** What a run carries from turn to turn about its projected context; the
      references are opaque names. */
  datatype ContextState = ContextState(
    activeCheckpoint: Option<string>, clearedToolResults: map<string, string>,
    promptSnapshot: Option<string>, contextEpoch: nat, policyFingerprint: Option<string>)

  datatype TokenBudget = TokenBudget(
    modelLimit: Usize, reservedOutput: Usize, usedSystem: Usize, usedHistory: Usize,
    usedSources: Usize, usedTools: Usize, usedMemory: Usize, minimumTurnBudget: Usize)

  datatype Event =
    | Text(delta: string)
    | Thinking(delta: string)
    | ToolCallStreamed(id: string, name: string, inputDelta: string)
    | ToolCallProposed(id: string, name: string, input: Value)
    | Usage(inputTokens: Usize, outputTokens: Usize)
    | Stop(reason: StopReason)
    | Error(message: string, recoverable: bool)
    | Checkpoint(history: seq<SessionMessage>, contextState: ContextState, tokenBudget: TokenBudget)
    | ModelRequest(model: string)
    | AssistantMessageCommitted(committed: Message)
    | SessionMessageInjected(messageId: string)
    | SessionMessageQueueDrained(count: nat)
    | NextTurnOverrideRequested(model: string, provider: Option<string>)
    | NextTurnBlocked(blockReason: string)
    | HookFailed(hook: string)
    | Other(kind: string)
}
