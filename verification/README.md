# Verified model of the agent harness kernel

This project models the deterministic core of an agent harness and proves what that core is relied on for.
Everything that talks to the outside is replaced by an oracle: the provider stream, hooks, the context
pipeline, the policy, the user, the tools and the steering queue answer from scripts, the file system is an in-memory map,
and the library's number conversion and UTF-8 check are parameters. Strings are sequences of Unicode scalar
values, numbers inside JSON values are their texts, and `usize` is a 64-bit integer with its saturating
operations written out (`MachineInts`).

| file | what it holds |
|---|---|
| `Json.dfy`, `JsonGrammar.dfy` | a reader for JSON text as the harness's JSON library reads it; the grammar of RFC 8259 as a relation, and the proof that the reader follows it (nesting limit 128, last duplicate key wins) |
| `Turns.dfy`, `EarlyCalls.dfy` | assembling an assistant turn from interleaved deltas; when a call is proposed early |
| `AgentEvents.dfy`, `Sessions.dfy`, `AgentLoop.dfy` | messages, sessions and budgets; the agent loop as a state machine over turns |
| `ToolBatch.dfy` | running the calls of one turn: validation, policy, approval, execution |
| `Projection.dfy` | mapping projected ranges to canonical ones |
| `ToolNames.dfy`, `ToolAdapt.dfy`, `ToolIds.dfy` | collision-free provider names, the catalog shown to a provider, call validation; tool-id text |
| `CanonicalJson.dfy`, `CanonicalForm.dfy` | the canonical printer; what its text looks like, and reading it back |
| `Utf8.dfy`, `SessionGrants.dfy` | UTF-8 bytes and their order; FNV-1a and session grants |
| `SchemaCheck.dfy` | the JSON Schema checker for tool arguments |
| `RunStore.dfy`, `RunTree.dfy` | run lineage: gathering, deleting, pruning; the printed tree |
| `Config.dfy` | layered configuration and variant inheritance |
| `LineTail.dfy` | following a growing trace file |
| `Ordering.dfy`, `MachineInts.dfy`, `Wrappers.dfy` | sorting, orders, machine integers, results |

State that the source updates in place is a class here (`TurnAccumulator`, `Session`, `RunStore`, `File`,
`Sink`, ...); its methods are proved against functions or predicates on the state, and the lemmas are about
those.

Results that differ from what the source's comments suggest, or that hold under a condition:

* The comment on the name resolver says that the first occurrence of a base name keeps it and the n-th gets
  `_n` (`tool_name_mapping.rs:95-100`). It does so exactly when the names this promises are pairwise different,
  which the ids alone decide (`DocumentedIffDistinct`); `FirstOccurrenceCanBeRenamed` gives an input on which
  it fails.
* The schema checker is exactly the standard applied to the schema without the parts it skips, for every value
  and schema (`ErasedIsExact`); so it is exact on every schema that holds nothing it skips (`ExactOnCovered`).
  It skips the object keywords where objects are admitted but `type` is not the single name "object" (a type
  list, no `type`), likewise `items`, everything beside `anyOf`, the difference of integers and numbers,
  unknown type names, and `additionalProperties` other than `false` beside declared properties. For each skip a
  lemma shows which values pass that should not.
* A cascading delete or prune collects everything below a run when the runs below it go by distinct ids;
  gathering does so exactly then (`GatheredIsDescendants`). Ids shared elsewhere do not matter. For one
  deletion the converse holds but for the removed run itself, which a cyclic log has below it
  (`DeleteRun`, `ApartIsWhole`). Whatever the ids, a removal never takes anything else. `SharedIdExample` is a
  log in which a deletion strands a run.
* Printing the lineage tree ends exactly when no way down from a root is longer than the session
  (`EndsOrGoesOnForever`), which distinct ids ensure.

## Model

| member | source | states |
|---|---|---|
| Json.ValueAppend | crates/gestalt-core/src/turn.rs:84-100 | JSON values are self-delimiting for the parser the accumulator calls: text arriving after a complete value is left unread, unless the value is a number that goes on |
| JsonGrammar.ReadsTheGrammar | crates/gestalt-core/src/turn.rs:84-100 | a text reads as a value exactly when the grammar of sections 2 to 7 of RFC 8259 relates them (surrogate pairs, every escape, numerals, white space), within the nesting limit and with the last of several values of one key |
| Turns.TurnAccumulator.Record | crates/gestalt-core/src/turn.rs:105-137 | recording updates exactly the fields the event concerns: first appearance fixes the order, the first non-empty name stays, the delta is appended |
| Turns.TurnAccumulator.Push | crates/gestalt-core/src/turn.rs:75-103 | a streamed delta is swallowed or replaced by one proposal for an id not proposed before; every other event passes through |
| EarlyCalls.StreamEmitsExactly | crates/gestalt-core/src/turn.rs:75-103 | over every stream a delta emits a proposal exactly when no earlier one of its call did, the call has a name and its trimmed text so far is a JSON object; it carries that name and that object; every other event is passed on as it is |
| Turns.TurnAccumulator.Finish | crates/gestalt-core/src/turn.rs:139-179 | the loop over the order vector yields the finished calls or the first error |
| Turns.RunAssembles | crates/gestalt-core/src/turn.rs:105-137 | after any interleaving of deltas the accumulator holds, per id, the concatenation of that id's deltas and its first non-empty name, and the ids in order of first appearance without repetition |
| Turns.FinishVerdict | crates/gestalt-core/src/turn.rs:139-179 | the missing-call error is unreachable; finishing fails exactly when the text of some call is neither blank nor a JSON value, and names the first such call |
| Turns.FinishedTurn | crates/gestalt-core/src/turn.rs:139-179 | a finished turn has all the text and thinking in order, and one call per streamed id, in order of first appearance, with its first name and the value of its whole text ({} when blank) |
| Turns.DistinctCalls | crates/gestalt-core/src/turn.rs:148-174 | no two calls of a finished turn share an id |
| Turns.MessageHoldsTurn | crates/gestalt-core/src/turn.rs:30-52 | the committed message holds all the text, all the thinking and the calls, once each and in that order, and nothing else |
| Turns.ObjectTextIsFinal | crates/gestalt-core/src/turn.rs:84-100 | a text around a complete JSON object is a JSON value exactly when only JSON white space was added, and then it is the same value; white space that only `trim` knows breaks it |
| Turns.EarlyProposalIsRight | crates/gestalt-core/src/turn.rs:75-179 | for every stream on which finishing succeeds, each early proposal is the finished call of that id, with the same name and input, and the id's later deltas are JSON white space |
| Turns.EachCallProposedOnce | crates/gestalt-core/src/agent.rs:591-715 | when the provider streams no proposals of its own, early and late proposals together are the committed calls, once each |
| AgentLoop.Sink.Emit | crates/gestalt-core/src/agent.rs:96-107 | an accepted event is the next one of the trace and is observed; a refused one leaves the trace as it was |
| AgentLoop.Sink.Dispatch | crates/gestalt-core/src/hook.rs:130-171 | the events of a hook are handed on only when the hook answered and was reported; otherwise the error says whether it was cancelled, failed or could not be reported |
| AgentLoop.DrainMessages | crates/gestalt-core/src/agent.rs:932-982 | the queued messages, and only they, are appended in order as user messages with fresh ids |
| AgentLoop.InjectedAre | crates/gestalt-core/src/agent.rs:932-982 | each queued message becomes the user message of its text, marked with its id |
| AgentLoop.TakeOverride | crates/gestalt-core/src/agent.rs:361-401 | the override is gone afterwards; the model is the override's, else the session's, else the provider's default |
| AgentLoop.BuildRequest | crates/gestalt-core/src/agent.rs:315-514 | exactly one model request is announced on success and none on failure, for the settled model, with the prepared context delta applied |
| AgentLoop.HandleEvent | crates/gestalt-core/src/agent.rs:596-636 | proposals are noted, usage goes to totals and budget, a stop replaces the reason, an unrecoverable error ends the turn |
| AgentLoop.ReadStream | crates/gestalt-core/src/agent.rs:567-651 | reading the whole stream folds every event the accumulator passes on over proposals, budget, totals and stop reason |
| AgentLoop.CommitTurn | crates/gestalt-core/src/agent.rs:658-846 | the assistant message comes first, then one result per tool outcome in order; exactly the calls not yet proposed are proposed |
| AgentLoop.RunTurn | crates/gestalt-core/src/agent.rs:516-846 | a successful turn takes the session, proposals and totals to the functional description of the turn and yields its outcome |
| AgentLoop.NextTurnHooks | crates/gestalt-core/src/agent.rs:848-910 | the first block ends the hooks; otherwise the last override asked for is in force |
| AgentLoop.BeginTurn | crates/gestalt-core/src/agent.rs:170-206 | stops with a matching Stop event at the turn limit or on an exhausted budget; otherwise drains messages and, if there were any, checkpoints them |
| AgentLoop.EndOfTurn | crates/gestalt-core/src/agent.rs:236-274 | checkpoints the session, then stops, is blocked, or goes on with the override the hooks left |
| AgentLoop.OneTurn | crates/gestalt-core/src/agent.rs:169-276 | one pass keeps the trace sound and the session resumable and takes the session to the functional description of one turn |
| AgentLoop.Loop | crates/gestalt-core/src/agent.rs:169-276 | the loop terminates for every script because the turns left decrease, and keeps all run invariants |
| AgentLoop.Run | crates/gestalt-core/src/agent.rs:85-313 | at every end of a run, failed or not: at most `max_turns` model requests, each after a last checkpoint with a budget that is not exhausted, checkpoint histories form a prefix chain, and the k-th request's model is the last override asked for since the previous request, else the session model, else the default. On Ok: the last checkpoint is the session, the final reason is EndTurn or was emitted as a Stop event, and messages, context state, budget, proposals and token totals are exactly the first n turns folded over the start, where n is the first turn after which the loop had to stop |
| AgentLoop.EarlierIsPrefix | crates/gestalt-core/src/agent.rs:140-159 | in the checkpoint chain of a run, the history of any earlier checkpoint is a prefix of that of any later one |
| AgentLoop.ViewIsOfEvents | crates/gestalt-core/src/agent.rs:85-313 | what is recorded of a trace is its checkpoints, request models, proposals and stops, all in order |
| AgentLoop.RequestsAreAffordable | crates/gestalt-core/src/agent.rs:186-206 | the last checkpoint before any model request of a run shows a budget that is not exhausted |
| AgentLoop.EachModelIsRight | crates/gestalt-core/src/agent.rs:361-401 | the model of the k-th request is the first that is not empty of: the last override asked for after the request before it, the session's model, the provider's default; no override reaches a second request |
| AgentLoop.RunsAgree | crates/gestalt-core/src/agent.rs:169-276 | the number of turns, the resulting state and the stop reason of a run that ends well are settled by the oracles' answers |
| AgentLoop.StopsWhen | crates/gestalt-core/src/agent.rs:912-930 | after each turn: at the turn limit the loop stops with MaxTurns; else on an exhausted budget with BudgetExhausted; else on a reply without calls whose last reported stop (EndTurn when there is none) is not ToolUse, with that reason; else when some hook blocks, with HookBlocked; else it goes on |
| AgentLoop.EndsForAReason | crates/gestalt-core/src/agent.rs:236-274 | so every stop after a turn has one of these reasons, and each is what actually happened |
| AgentLoop.NeverStopsForTools | crates/gestalt-core/src/agent.rs:912-930 | the final reason is never ToolUse; a run never exceeds the turn limit, and stops for it when it reaches it |
| AgentLoop.GoesOnOnlyIfItFits | crates/gestalt-core/src/agent.rs:920-926 | after a turn that reported usage, with a positive minimum, the loop goes on only if max(last input, non-history) + reserved + minimum fits the model limit, and otherwise stops for its budget below the turn limit |
| AgentLoop.ReportsAddUp | crates/gestalt-core/src/agent.rs:596-636 | the token totals grow by everything reported in the stream, up to the machine's limit |
| AgentLoop.PassedKeepsReports | crates/gestalt-core/src/turn.rs:75-103 | what the accumulator passes on ends with the stop reason and the usage report of the provider's own stream |
| AgentLoop.PassedKeepsTokens | crates/gestalt-core/src/turn.rs:75-103 | it keeps back no token report |
| AgentLoop.TurnProposesOnce | crates/gestalt-core/src/agent.rs:591-715 | each turn emits exactly one proposal per committed call when the provider streams none |
| AgentLoop.RunProposesOnce | crates/gestalt-core/src/agent.rs:591-715 | the same over a whole run |
| AgentLoop.EveryCallIsAnswered | crates/gestalt-core/src/agent.rs:717-843 | in every good turn the assistant message, whose last blocks are the calls in order, is followed by exactly one result for each call, in that order, with that call's output and error flag |
| AgentLoop.TurnInFull | crates/gestalt-core/src/agent.rs:169-276 | after any turn of a run the history is the history before it, the queued messages as user messages in order, one message that holds exactly the reply's text, thinking and calls, one result per call in order, and nothing else; the token totals grew by everything the stream reported, up to the machine's limit, the budget knows the last input reported, and the prepared context delta is applied |
| ToolBatch.ValidateCalls | crates/gestalt-core/src/agent/executor.rs:71-99 | every call is either kept or refused, none twice |
| ToolBatch.CheckStrictly | crates/gestalt-core/src/agent/executor.rs:100-158 | taking the strict denials out one by one keeps the balance of answers given and owed |
| ToolBatch.EvaluatePolicies | crates/gestalt-core/src/agent/executor.rs:160-216 | every valid call is planned, refused or queued for approval; only allowed calls are planned |
| ToolBatch.AskApprovals | crates/gestalt-core/src/agent/executor.rs:218-364 | every queued call is planned or refused; only approved calls, or edited ones that the policy then allows, are planned |
| ToolBatch.RunPlanned | crates/gestalt-core/src/agent/executor.rs:366-572 | running calls alone and in parallel groups answers each planned call once; the calls run in order, in rounds as long as they can be, and a call that may not run in parallel never shares a round |
| ToolBatch.SortedAnswers | crates/gestalt-core/src/agent/executor.rs:574-575 | sorting the collected results by order puts every answer at its call, whatever the order of collection |
| ToolBatch.ExecuteBatch | crates/gestalt-core/src/agent/executor.rs:40-576 | a batch completes exactly when nothing that is asked fails, and then gives exactly one answer per call, in call order; what runs is exactly the calls that policy and user let through, in such rounds |
| ToolBatch.AnswersByRight | crates/gestalt-core/src/agent/executor.rs:160-364 | the answer is the tool's outcome exactly for a valid call that the policy allows, or that the user approves, always allows or edits into an input the policy then allows, and the refusal otherwise |
| Projection.MappedIsUnion | crates/gestalt-core/src/context.rs:292-317 | over a tiling projection the mapped range holds exactly the canonical positions its items stand for |
| Projection.MappedSplits | crates/gestalt-core/src/context.rs:292-317 | mapping a range in two halves splits the mapped range at one point |
| Sessions.BudgetGoesOnIffItFits | crates/gestalt-core/src/context.rs:643-666 | with a positive minimum, recording usage leaves the budget good exactly when max(input, non-history) + reserve + minimum fits the limit, saturating arithmetic included |
| Sessions.AvailableIsDifference | crates/gestalt-core/src/context.rs:643-651 | the chain of saturating subtractions is the limit minus the sum of all uses, or zero |
| Sessions.Session.AppendMessage | crates/gestalt-core/src/session.rs:68-88 | appends one message under the id of its place and changes nothing else |
| Sessions.Session.ApplyContextStateDelta | crates/gestalt-core/src/session.rs:90-126 | the field-by-field loops have the effect of the delta function |
| Sessions.ClearedAfterDelta | crates/gestalt-core/src/session.rs:100-110 | a tool result is cleared after a delta exactly when the delta clears it, or it was cleared and is not removed; removal comes first |
| Sessions.DeltaParts | crates/gestalt-core/src/session.rs:90-126 | each optional part of a context delta replaces, clears or keeps its field |
| Sessions.LastEntryWins | crates/gestalt-core/src/session.rs:103-110 | of several entries for one tool call the last is kept |
| Sessions.IdsStayUnique | crates/gestalt-core/src/session.rs:68-88 | message ids stay unique however far a session grows after a resume with a fresh namespace |
| ToolNames.GenerateProviderName | crates/gestalt-core/src/tool_name_mapping.rs:43-88 | every base name is at most 64 characters over letters, digits, underscore and hyphen (its spelling: `BaseNameForm`) |
| ToolNames.BaseNameForm | crates/gestalt-core/src/tool_name_mapping.rs:43-88 | character by character, a base name is the longest prefix that fits of the id's format: the name of a built-in tool, or prefix, owner and name with underscores between, each foreign character an underscore |
| ToolNames.AliasForm | crates/gestalt-core/src/tool_name_mapping.rs:220-231 | an alias is as much of its base as fits into 64 characters, an underscore, and the decimal digits of its number without leading zeros |
| ToolNames.AliasInjective | crates/gestalt-core/src/tool_name_mapping.rs:224-231 | aliases with different suffix numbers differ, whatever their bases and truncation |
| ToolNames.FirstFreeIsLeast | crates/gestalt-core/src/tool_name_mapping.rs:151-160 | the retry search ends within as many steps as names are in use, at the least free suffix |
| ToolNames.Disambiguate | crates/gestalt-core/src/tool_name_mapping.rs:151-160 | the retry loop terminates for every used set and finds that alias |
| ToolNames.CountBases | crates/gestalt-core/src/tool_name_mapping.rs:115-119 | the counting loop counts each base name's occurrences |
| ToolNames.ResolveProviderNames | crates/gestalt-core/src/tool_name_mapping.rs:108-171 | the loop over counts, seen and used sets computes the resolved list |
| ToolNames.NamesAreUnique | crates/gestalt-core/src/tool_name_mapping.rs:108-171 | at every moment the names handed out are pairwise different legal provider names |
| ToolNames.ResolvedIsInjective | crates/gestalt-core/src/tool_name_mapping.rs:108-171 | the result keeps ids and order and gives pairwise-distinct names of at most 64 legal characters |
| ToolNames.DocumentedIffDistinct | crates/gestalt-core/src/tool_name_mapping.rs:95-171 | the documented rule, base for the first occurrence and `_n` for the n-th, holds exactly when the names it promises are pairwise different |
| ToolNames.KeepsBaseIffFree | crates/gestalt-core/src/tool_name_mapping.rs:130-160 | for one tool: it keeps its base name exactly when no earlier tool was given that name |
| ToolNames.FirstOccurrenceCanBeRenamed | crates/gestalt-core/src/tool_name_mapping.rs:95-100 | three ids on which the documented rule that a first occurrence keeps its base name fails |
| ToolNames.NamesAreStable | crates/gestalt-core/src/tool_name_mapping.rs:108-171 | the first n names depend on the first n ids only: tools added later rename nothing |
| ToolNames.BuildMappingWithResolution | crates/gestalt-core/src/tool_name_mapping.rs:198-218 | the take-out loop over the map by id |
| ToolNames.BuildMappingAgreesIffDistinct | crates/gestalt-core/src/tool_name_mapping.rs:198-218 | keying the mapping by id agrees with the resolver exactly when no id is repeated |
| ToolAdapt.IdOrder | crates/gestalt-core/src/provider.rs:73-80 | the derived order on tool ids is total, antisymmetric and transitive |
| ToolAdapt.IdLeqMeans | crates/gestalt-core/src/tool_descriptor.rs:4-25 | that order lists built-in tools, then extensions, then servers, each by owner and then by tool name, texts by their UTF-8 bytes |
| ToolAdapt.AdaptTools | crates/gestalt-core/src/provider.rs:59-119 | sorting, resolving and zipping give the schemas and mappings of the sorted catalog |
| ToolAdapt.EachToolIsShown | crates/gestalt-core/src/provider.rs:73-119 | every tool of the catalog is shown once, in that order, with its description and its nested input schema when it has one, its whole schema otherwise; its mapping has its id, name, display name and hash |
| ToolAdapt.AdaptIgnoresOrder | crates/gestalt-core/src/provider.rs:73-119 | for distinct ids every permutation of the catalog is exposed in the same way |
| ToolAdapt.AliasRoundTrip | crates/gestalt-core/src/provider.rs:73-119 | looking up an exposed name, as the validator does, gives exactly the tool it was issued for, and no other name gives any |
| ToolAdapt.Validate | crates/gestalt-core/src/tool_validation.rs:13-96 | duplicate exactly when the id was seen; not found exactly when the name or tool is unknown; valid exactly when known, new and accepted by the schema |
| ToolAdapt.ValidateBatch | crates/gestalt-core/src/agent/executor.rs:65-99 | in a batch only repeated ids are duplicates; every other call is judged on its own |
| ToolAdapt.FinishedCallsAreNotDuplicates | crates/gestalt-core/src/tool_validation.rs:22-36 | a call of a finished turn is never refused as a duplicate |
| ToolIds.ParsedPrintsBack | crates/gestalt-core/src/tool_descriptor.rs:28-77 | an accepted text is exactly what its id prints |
| ToolIds.PrintedParsesBackIffPlain | crates/gestalt-core/src/tool_descriptor.rs:28-77 | a printed id parses back exactly when its parts hold no colon; any other printed id is refused, never misread |
| CanonicalJson.EscapeJsonString | crates/gestalt-core/src/approval.rs:196-214 | the escaping loop computes the escaped text |
| CanonicalJson.WriteCanonical | crates/gestalt-core/src/approval.rs:158-194 | the recursive writer appends exactly the canonical text to the buffer |
| CanonicalJson.SortedEntries | crates/gestalt-core/src/approval.rs:176-179 | however the map is enumerated, the sorted keys are the same |
| CanonicalForm.EscapeIsShortest | crates/gestalt-core/src/approval.rs:196-214 | of all texts that section 7 of RFC 8259 admits for a character the printer takes the shortest, with lower-case digits |
| CanonicalForm.ArrayForm | crates/gestalt-core/src/approval.rs:167-175 | an array is the texts of its items between brackets, with commas and nothing else |
| CanonicalForm.ObjectForm | crates/gestalt-core/src/approval.rs:176-191 | an object is its members between braces, each name once, the names in the order of their UTF-8 bytes |
| CanonicalForm.CanonicalIsText | crates/gestalt-core/src/approval.rs:152-194 | whatever the printer writes is a JSON text of the value it was given |
| CanonicalForm.EscapeRoundTrip | crates/gestalt-core/src/approval.rs:196-214 | an escaped string is read back as the string (section 7 of RFC 8259) |
| CanonicalForm.CanonicalRoundTrip | crates/gestalt-core/src/approval.rs:152-194 | the canonical text of a value is read back as that value, whatever follows it (after a number: anything that does not continue it) |
| CanonicalForm.CanonicalPrefixCode | crates/gestalt-core/src/approval.rs:152-194 | canonical texts are a prefix code, numbers up to a delimiter |
| CanonicalForm.CanonicalUnambiguous | crates/gestalt-core/src/approval.rs:152-214 | two values print alike exactly when they are equal, objects read as maps |
| CanonicalForm.ReadsBackIffShallow | crates/gestalt-core/src/approval.rs:152-194 | the JSON library reads the canonical text back exactly when the value nests within its depth limit |
| Utf8.EncodesIff | crates/gestalt-core/src/approval.rs:130-133 | a character's bytes are the one sequence that stands for it by section 3 of RFC 3629 |
| Utf8.ByteOrderIsCodePointOrder | crates/gestalt-core/src/approval.rs:178 | comparing strings by their bytes, as the sort does, is comparing them by code points |
| SessionGrants.ComputeFnv1a64 | crates/gestalt-core/src/approval.rs:135-146 | the hashing loop computes the fold of the wrapping step and prints 16 digits |
| SessionGrants.KnownAnswers | crates/gestalt-core/src/approval.rs:135-146 | the published FNV-1a values of the empty input and of the letter a |
| SessionGrants.XorBits | crates/gestalt-core/src/approval.rs:140 | exclusive or sets exactly the binary digits in which the operands differ |
| SessionGrants.StepInjective | crates/gestalt-core/src/approval.rs:140-143 | one step modulo 2^64 is injective in the state for a byte, and in the byte for a state |
| SessionGrants.OneByteChangeSeparates | crates/gestalt-core/src/approval.rs:135-146 | byte strings that differ in exactly one position have different 16-digit hashes |
| SessionGrants.GrantCovers | crates/gestalt-core/src/approval.rs:83-127 | a grant covers a call exactly when it is for the same tool, its input has the same hash, its risk is at most the ceiling (Low, Medium, High, Critical) and its turn is before the (saturating) expiry |
| SessionGrants.OneCharacterChangeIsNotCovered | crates/gestalt-core/src/approval.rs:107-133 | an input whose canonical text differs in one ASCII character is never covered |
| SchemaCheck.ValidateJsonValue | crates/gestalt-core/src/tool_validation.rs:146-242 | the early-exit loops return no error exactly on the values of the declarative semantics, and an error is a true complaint at the place it names |
| SchemaCheck.TighteningShrinks | crates/gestalt-core/src/tool_validation.rs:185-222 | closing objects or adding required names at any nested positions only shrinks the accepted set |
| SchemaCheck.NeverRefusesValid | crates/gestalt-core/src/tool_validation.rs:146-242 | no arguments that the standard meaning of the keywords accepts are refused |
| SchemaCheck.ErasedIsExact | crates/gestalt-core/src/tool_validation.rs:121-242 | for every value and schema the checker accepts exactly what the standard accepts for the schema without what the checker skips |
| SchemaCheck.ExactOnCovered | crates/gestalt-core/src/tool_validation.rs:146-242 | on schemas that hold nothing skipped, checker and standard agree |
| SchemaCheck.PlainSchemasAreCovered | crates/gestalt-core/src/tool_validation.rs:121-144 | bare lists of plain type names and schemas without these keywords hold nothing skipped |
| SchemaCheck.RequiredIsSkipped | crates/gestalt-core/src/tool_validation.rs:185-210 | any schema that admits objects without saying just "object" and requires a name accepts the empty object, which the standard refuses |
| SchemaCheck.ClosedIsSkipped | crates/gestalt-core/src/tool_validation.rs:207-222 | any such schema that is closed accepts every undeclared field |
| SchemaCheck.PropertyIsSkipped | crates/gestalt-core/src/tool_validation.rs:185-198 | any such schema accepts declared fields with values their schemas refuse |
| SchemaCheck.ItemIsSkipped | crates/gestalt-core/src/tool_validation.rs:224-233 | any schema that admits arrays without saying just "array" accepts items its item schema refuses |
| SchemaCheck.SiblingsAreSkipped | crates/gestalt-core/src/tool_validation.rs:148-164 | whatever a branch of anyOf accepts passes, even if the keywords beside anyOf refuse it |
| SchemaCheck.IntegerIsAnyNumber | crates/gestalt-core/src/tool_validation.rs:121-132 | type "integer" accepts every number, integral or not |
| SchemaCheck.UnknownTypePasses | crates/gestalt-core/src/tool_validation.rs:121-132 | an unknown type name accepts every value, where the standard accepts none |
| SchemaCheck.AdditionalIsSkipped | crates/gestalt-core/src/tool_validation.rs:207-222 | an object schema whose `additionalProperties` does not close it accepts undeclared fields that keyword refuses |
| SchemaCheck.TypeListSkipsFields | crates/gestalt-core/src/tool_validation.rs:134-144 | an instance: a nullable object written as a type list has its fields unchecked |
| RunStore.RunStore.HasDescendants | crates/gestalt-app/src/runs.rs:540-562 | true exactly when some readable manifest names the run as its parent |
| RunStore.RunStore.GatherDescendants | crates/gestalt-app/src/runs.rs:564-605 | terminates on cyclic parent links, lists each id once and only runs below the start, each under the id of its manifest or, when that is empty, its folder, and is closed under children when the runs below the start have distinct ids |
| RunStore.GatheredIsDescendants | crates/gestalt-app/src/runs.rs:564-605 | gathering from scratch lists exactly the runs reachable by one or more parent links if and only if no two of them share an id |
| RunStore.RunStore.RemoveDirs | crates/gestalt-app/src/runs.rs:845-861 | every listed directory exists when it is removed, so each is removed once |
| RunStore.RunStore.DeleteRun | crates/gestalt-app/src/runs.rs:755-866 | succeeds exactly when the target exists, is not blocked and is confirmed, with the right error otherwise; removes the target and nothing but what is below it, and reports the total size; takes all that is below it, and keeps every parent id resolvable, when the ids there are distinct; if it takes all, they are distinct apart from the target |
| RunStore.ApartIsWhole | crates/gestalt-app/src/runs.rs:755-866 | so for a run that is not its own ancestor a cascade takes everything below exactly when the ids there are distinct |
| RunStore.RunStore.PruneRuns | crates/gestalt-app/src/runs.rs:608-752 | refuses exactly on a blocked or unconfirmed prune; removes every expired run and nothing but those and what is below them, reports each removed directory once by its id and their total size; a dry run only reports; takes everything below, and keeps every parent id resolvable, when the ids below each expired run are distinct |
| RunStore.SumIsTotal | crates/gestalt-app/src/runs.rs:738-745 | the reported bytes are the sum over the set of removed directories |
| RunStore.ClosedRemovalKeepsIntegrity | crates/gestalt-app/src/runs.rs:755-866 | removing any set that is closed under children leaves no dangling parent id |
| RunStore.DeleteKeepsIntegrity | crates/gestalt-app/src/runs.rs:787-822 | what a delete removes is such a set, cascading or not |
| RunStore.PruneKeepsIntegrity | crates/gestalt-app/src/runs.rs:629-694 | what a prune removes is such a set, cascading or not |
| RunStore.SharedIdLeavesOrphan | crates/gestalt-app/src/runs.rs:584-600 | two children of a uniquely named run that share an id: whatever is gathered, removing it with that run strands one of them |
| RunStore.SharedIdExample | crates/gestalt-app/src/runs.rs:584-600 | a log of three runs on which this happens although all its links are good |
| RunTree.BuildAdjacency | crates/gestalt-cli/src/output.rs:2379-2388 | the loop splits the runs into roots and children by parent, in order |
| RunTree.PrintTree | crates/gestalt-cli/src/output.rs:2392-2417 | the recursion terminates whenever it has an end at all, and appends the lines of the subtree |
| RunTree.RenderTree | crates/gestalt-cli/src/output.rs:2379-2421 | the report is the forest of the roots, oldest first |
| RunTree.EndsOrGoesOnForever | crates/gestalt-cli/src/output.rs:2392-2421 | unless every way down from a root is at most as long as the session, the recursion goes deeper than any bound |
| RunTree.DistinctRunsEnd | crates/gestalt-cli/src/output.rs:2392-2421 | distinct ids are enough, even when parent links are cyclic |
| RunTree.SessionShows | crates/gestalt-cli/src/output.rs:2379-2421 | exactly the runs that lead up to a run without parent are printed, indented by the number of runs on the way |
| RunTree.SessionInOrder | crates/gestalt-cli/src/output.rs:2390-2421 | with distinct ids each is printed once, and siblings stand from the oldest to the youngest |
| RunTree.IndentationShowsParents | crates/gestalt-cli/src/output.rs:2392-2421 | a line at the margin is a run without parent; for any other the nearest line above that is indented less is its parent, by one step |
| Config.MergeInto | crates/gestalt-app/src/config.rs:1181-1196 | the remove-merge-insert loop gives the pointwise merge whatever order the keys are visited in |
| Config.InsertAll | crates/gestalt-app/src/config.rs:3490-3496 | the insert loop gives the overlaid map in any order |
| Config.MergeProviderConfig | crates/gestalt-app/src/config.rs:1201-1276 | the field-by-field assignments compute the provider overlay |
| Config.ReplaceCredentials | crates/gestalt-app/src/config.rs:1227-1240 | an overlay that states any credential replaces all three fields |
| Config.OptionsMonoid | crates/gestalt-app/src/config.rs:3468-3498 | merging options is associative with the empty options as identity |
| Config.OptionsLaterWins | crates/gestalt-app/src/config.rs:3468-3498 | each option is the one of the later layer that states it, each adapter key likewise |
| Config.VariantMonoid | crates/gestalt-app/src/config.rs:1314-1326 | the same for variants |
| Config.VariantLaterWins | crates/gestalt-app/src/config.rs:1314-1326 | the same for variants and the options in them |
| Config.ModelMonoid | crates/gestalt-app/src/config.rs:1278-1312 | the same for model definitions with their nested variants, options and capabilities |
| Config.ModelLaterWins | crates/gestalt-app/src/config.rs:1278-1312 | the same for every setting of a model, its capabilities, options and variants |
| Config.ProviderMonoid | crates/gestalt-app/src/config.rs:1201-1276 | the same for whole provider configurations |
| Config.ProviderLaterWins | crates/gestalt-app/src/config.rs:1201-1276 | the same for every setting of a provider at any depth; credentials go together |
| Config.ProfileMonoid | crates/gestalt-app/src/config.rs:1328-1357 | the same for profiles |
| Config.ProfileLaterWins | crates/gestalt-app/src/config.rs:1328-1357 | the same for every setting of a profile |
| Config.LayerTablesAssociate | crates/gestalt-app/src/config.rs:1181-1198 | the provider and profile tables of three layers merge alike whichever two are merged first |
| Config.BuiltinThenLayers | crates/gestalt-app/src/config.rs:1854-1858 | a built-in provider overlaid with the merged files is the built-in overlaid with each file in turn |
| Config.ValidateSubset | crates/gestalt-app/src/config.rs:1470-1489 | no error exactly when one list is absent or the later is a subset of the earlier |
| Config.ComputeMergeUnions | crates/gestalt-app/src/config.rs:1454-1468 | the append-if-new loop computes the union |
| Config.Merge | crates/gestalt-app/src/config.rs:1039-1102 | merging succeeds exactly when no allow list is widened, and then gives the merged policies, providers and profiles |
| Config.PoliciesLaterWins | crates/gestalt-app/src/config.rs:1039-1102 | of the policies, allow lists and defaults are those of the later layer that states them, deny lists are united |
| Config.MergeLayers | crates/gestalt-app/src/config.rs:1515-1518 | folding layers succeeds exactly when each step narrows |
| Config.EveryLayerBinds | crates/gestalt-app/src/config.rs:1039-1102 | over any chain of layers that merges, the resulting allow lists are within every list stated by any layer and the deny lists hold every layer's entries |
| Config.ValidateConfigLayer | crates/gestalt-app/src/config.rs:1421-1452 | no error exactly when every provider states at most one credential and no legacy reference; an error names an offending provider and its reason |
| Config.ValidLayersMergeValid | crates/gestalt-app/src/config.rs:1227-1240 | layers that are valid on their own merge to at most one credential per provider |
| Config.ResolveVariant | crates/gestalt-app/src/config.rs:3434-3466 | terminates on every table; succeeds exactly on a chain to a parentless variant that avoids the visited names; then every option is the one stated nearest to the leaf, every adapter key likewise, and the visited names are as they were |
| Config.ResolveFromTop | crates/gestalt-app/src/config.rs:3434-3466 | from the top: success exactly when such a chain exists, with every option inherited from the nearest variant that states it; not-found exactly when the parents reach a missing variant, a cycle exactly when they never end |
| Config.ChainDistinct | crates/gestalt-app/src/config.rs:3441-3446 | a chain to a parentless variant passes no name twice |
| Config.ChainUnique | crates/gestalt-app/src/config.rs:3434-3466 | a variant has at most one such chain, so the fold is well defined |
| Config.ComingBackNeverEnds | crates/gestalt-app/src/config.rs:3441-3446 | parents that come back to a name have no end |
| LineTail.ReadNextLine | crates/gestalt-cli/src/runs.rs:10-48 | against a writer that appends between any two reads: a returned line is exactly the bytes consumed, with one newline, at its end; without one the position is put back and nothing is lost |
| LineTail.Poll | crates/gestalt-cli/src/runs.rs:70-99 | one round hands out at most one line and keeps everything delivered up to the position |
| LineTail.ReadExisting | crates/gestalt-cli/src/runs.rs:70-84 | the first loop ends only when no complete line is left |
| LineTail.Tail | crates/gestalt-cli/src/runs.rs:70-99 | the lines printed concatenate to the content up to the position, which is at a line start; with a round for each moment and each byte of the schedule nothing complete is left unprinted; on invalid text they end in front of the offending line |
| LineTail.LinesAreUnique | crates/gestalt-cli/src/runs.rs:10-48 | a text splits into lines in one way only, so no complete line was skipped, repeated or cut |

## Left out

- Network, keychain, model cache, doctor, connect, workspace scaffolding, CLI parsing, chat, TUI and text rendering other than the lineage tree: plumbing around libraries or user interface.
- The policy engine, approval prompts, context pipeline, middleware and the concrete steering queue: oracles; the queue's lifecycle update and the session grants list are not modelled.
- ToolBatch.ExecuteBatch: the events emitted along the way are one list in the turn's script; the validator's verdict is an oracle here (`ToolAdapt.ValidateBatch` proves it); grants, retries and real parallelism are not modelled.
- `FilesystemArtifactStore`: path semantics belong to the operating system.
- SHA-256, UUIDs, clocks, floating-point options and async scheduling: opaque values or oracle choices; packet hashes, projection ids, artifacts and the workspace snapshot id are not carried.
- Trace hooks: the extra recoverable Error event that a failing trace hook inserts is not part of the trace.
- Verification hooks after a tool: their events are among the after-tool hook events of the script.
- Cancellation: one of the script's outcomes at each point where the source checks or waits for it.
- AgentLoop.Run: the scripts' hook events carry no checkpoints, model requests or proposals, and provider streams carry no checkpoints or model requests, which is the contract the checkpoint and request claims need.
- AgentLoop.Sink.Emit: a sink accepts a number of events and then refuses all. A sink that refuses once and recovers is not represented; there the source turns a refused hook report into an Error event and goes on without that hook's events.
- AgentLoop.Run: tool-result and user messages keep their text, id and error flag; their other metadata is not modelled.
- Sessions.Session.AppendMessage: sequence numbers are unbounded, because a history never reaches 2^64 messages.
- ToolAdapt.AdaptTools: the descriptor hash is an arbitrary function of the tool.
- ToolNames.ResolvedIsInjective: lists are bounded by `isize::MAX`, the limit of a slice, so that a suffix has at most 20 digits.
- CanonicalForm.CanonicalUnambiguous: numbers are their printed texts, so two numbers that print alike are one value; the printer's own number formatting is not modelled.
- Json.ValueAppend: how a numeral becomes a number, and which numerals are out of range, is a parameter.
- SessionGrants.OneCharacterChangeIsNotCovered: a 64-bit hash collides, so equal hashes are never claimed to mean equal inputs.
- SchemaCheck.ValidateJsonValue: which of several true complaints is reported, and its wording, is not stated.
- SchemaCheck.ExactOnCovered: one way; whether a skipped keyword makes a difference for some value depends on what its subschemas accept, which the lemmas on the single skips state.
- RunStore.RunStore.DeleteRun: `resolve_run_path` and `is_descendant` are modelled as membership of the folder in the log directory; I/O failures, plain files in the directory and overflow of byte sums are not modelled.
- RunStore.RunStore.GatherDescendants: which of several runs that share an id is collected depends on the directory order and is not stated.
- RunStore.RunStore.PruneRuns: that everything below goes is stated one way, because a run missed below one expired run may be collected below another, which depends on the directory order; the parsed duration and the clock are one threshold number, and a run's start time is a number.
- RunTree.RenderTree: the text of a line is not modelled; sessions on which the recursion has no end (`EndsOrGoesOnForever`) overflow the stack in the source.
- Config.Merge: the sections tools, context, observe, tui, extensions, skills, mcp and prompt are not modelled; merging whole configurations is not associative, because an absent section is replaced by filled-in defaults.
- LineTail.Tail: the endless loop is any finite number of rounds; the writer's schedule between reads is finite, UTF-8 validity is a parameter, and the JSON projection of a printed line is not modelled.
- Config.LayerTablesAssociate: only provider and profile tables; policy lists that are replaced rather than united also depend on which layers could be merged at all.
