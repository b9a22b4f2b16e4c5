/** Running the tool calls of one turn: validation, policy, approval, execution. */
module ToolBatch {
  import opened Json
  import opened Ordering
  import Turns

  datatype Status = Allowed | Denied | Confirm

  /** An edited input is put to the policy again, which may fail. */
  datatype Approval = Approve | Deny | Edit(again: Option<Status>) | AlwaysAllow

  datatype Answer = Answer(output: string, isError: bool)

  /** What the validator, the policy, the user and the tool say to one call.
      None means that asking fails, which ends the batch. */
  datatype CallScript = CallScript(
    valid: bool, strictOk: bool, policy: Option<Status>, approval: Option<Approval>,
    parallel: bool, refusal: string, outcome: Option<Answer>)

  type Script = nat -> CallScript

  /** A call on its way through the queues, by its place in the turn. */
  datatype Entry = Entry(order: nat, id: string)

  datatype BatchResult = BatchResult(order: nat, id: string, answer: Answer)

  // ------------------------------------------------------- what each call is due

  predicate Approved(c: CallScript) {
    c.approval in {Some(Approve), Some(AlwaysAllow), Some(Edit(Some(Allowed)))}
  }

  predicate IsRun(c: CallScript) {
    && c.valid && c.strictOk
    && (c.policy == Some(Allowed) || (c.policy == Some(Confirm) && Approved(c)))
  }

  /** Nothing that is asked about the call fails. */
  predicate Completes(c: CallScript) {
    && (c.valid && c.strictOk ==> c.policy.Some?)
    && (c.valid && c.strictOk && c.policy == Some(Confirm) ==>
          c.approval.Some? && (c.approval.value.Edit? ==> c.approval.value.again.Some?))
    && (IsRun(c) ==> c.outcome.Some?)
  }

  function AnswerTo(c: CallScript): Answer {
    if IsRun(c) && c.outcome.Some? then c.outcome.value else Answer(c.refusal, true)
  }

  /** A tool runs exactly for a valid call that the policy allows, or that is put
      to the user and approved, or edited to an input the policy then allows. */
  ghost predicate MayRun(c: CallScript) {
    && c.valid && c.strictOk && c.policy.Some?
    && match c.policy.value
       case Allowed => true
       case Denied => false
       case Confirm =>
         c.approval.Some? &&
         match c.approval.value
         case Approve => true
         case AlwaysAllow => true
         case Deny => false
         case Edit(again) => again == Some(Allowed)
  }

  lemma {:induction false} AnswersByRight(c: CallScript)
    requires Completes(c)
    ensures MayRun(c) ==> c.outcome.Some? && AnswerTo(c) == c.outcome.value
    ensures !MayRun(c) ==> AnswerTo(c) == Answer(c.refusal, true)
  {
  }

  function Due(e: Entry, script: Script): BatchResult { BatchResult(e.order, e.id, AnswerTo(script(e.order))) }

  function AllDue(entries: seq<Entry>, script: Script): seq<BatchResult> {
    seq(|entries|, i requires 0 <= i < |entries| => Due(entries[i], script))
  }

  function Entries(calls: seq<Turns.ToolCall>): seq<Entry> {
    seq(|calls|, i requires 0 <= i < |calls| => Entry(i, calls[i].id))
  }

  /** One answer for each call, in the order of the calls. */
  function Answers(calls: seq<Turns.ToolCall>, script: Script): seq<BatchResult> { AllDue(Entries(calls), script) }

  /** Results at hand, results owed to waiting entries, and what they make up. */
  ghost predicate Balanced(results: seq<BatchResult>, owed: seq<Entry>, all: seq<Entry>, script: Script) {
    multiset(results) + multiset(AllDue(owed, script)) == multiset(AllDue(all, script))
  }

  lemma {:induction false} OneMoreDue(entries: seq<Entry>, e: Entry, script: Script)
    ensures AllDue(entries + [e], script) == AllDue(entries, script) + [Due(e, script)]
  {
  }

  lemma {:induction false} DueAppend(a: seq<Entry>, b: seq<Entry>, script: Script)
    ensures AllDue(a + b, script) == AllDue(a, script) + AllDue(b, script)
  {
  }

  // ---------------------------------------------------------------------- stages

  /** The valid ones among the entries, none twice. */
  ghost predicate AreValid(valid: seq<Entry>, entries: seq<Entry>, script: Script) {
    && (forall e :: e in valid <==> e in entries && script(e.order).valid)
    && (Distinct(entries) ==> Distinct(valid))
  }

  lemma {:induction false} OneMoreChecked(valid: seq<Entry>, entries: seq<Entry>, e: Entry, script: Script)
    requires AreValid(valid, entries, script)
    ensures AreValid(if script(e.order).valid then valid + [e] else valid, entries + [e], script)
  {
    if Distinct(entries + [e]) {
      assert forall i | 0 <= i < |entries| :: (entries + [e])[i] == entries[i];
      assert (entries + [e])[|entries|] == e;
    }
  }

  /** One more entry is owed its answer, or given it. */
  lemma {:induction false} OneMoreBalanced(denied: seq<BatchResult>, owed: seq<Entry>, all: seq<Entry>, e: Entry, script: Script)
    requires Balanced(denied, owed, all, script)
    ensures Balanced(denied, owed + [e], all + [e], script)
    ensures Balanced(denied + [Due(e, script)], owed, all + [e], script)
  {
    OneMoreDue(all, e, script);
    OneMoreDue(owed, e, script);
  }

  /** The first i calls are kept or refused. */
  ghost predicate Checked(denied: seq<BatchResult>, valid: seq<Entry>, all: seq<Entry>, i: nat, script: Script)
    requires i <= |all|
  {
    Balanced(denied, valid, all[..i], script) && AreValid(valid, all[..i], script)
  }

  lemma {:induction false} NextChecked(denied: seq<BatchResult>, valid: seq<Entry>, all: seq<Entry>, i: nat, script: Script)
    requires i < |all| && Checked(denied, valid, all, i, script)
    ensures var e := all[i];
      if script(e.order).valid then Checked(denied, valid + [e], all, i + 1, script)
      else Checked(denied + [Due(e, script)], valid, all, i + 1, script)
  {
    assert all[..i + 1] == all[..i] + [all[i]];
    OneMoreBalanced(denied, valid, all[..i], all[i], script);
    OneMoreChecked(valid, all[..i], all[i], script);
  }

  lemma {:induction false} AllChecked(denied: seq<BatchResult>, valid: seq<Entry>, all: seq<Entry>, script: Script)
    requires Checked(denied, valid, all, |all|, script)
    ensures Balanced(denied, valid, all, script) && AreValid(valid, all, script)
  {
    assert all[..|all|] == all;
  }

  lemma {:induction false} NothingChecked(all: seq<Entry>, script: Script)
    ensures Checked([], [], all, 0, script)
  {
    assert all[..0] == [];
  }

  /** The early validation loop. */
  method ValidateCalls(all: seq<Entry>, script: Script) returns (valid: seq<Entry>, denied: seq<BatchResult>)
    ensures Balanced(denied, valid, all, script)
    ensures AreValid(valid, all, script)
  {
    valid, denied := [], [];
    NothingChecked(all, script);
    for i := 0 to |all|
      invariant Checked(denied, valid, all, i, script)
    {
      var e := all[i];
      NextChecked(denied, valid, all, i, script);
      if script(e.order).valid {
        valid := valid + [e];
      } else {
        denied := denied + [BatchResult(e.order, e.id, Answer(script(e.order).refusal, true))];
      }
    }
    AllChecked(denied, valid, all, script);
  }

  function Retain(entries: seq<Entry>, e: Entry): seq<Entry> {
    if entries == [] then []
    else Retain(entries[..|entries| - 1], e) + (if entries[|entries| - 1] == e then [] else [entries[|entries| - 1]])
  }

  lemma {:induction false} Retained(entries: seq<Entry>, e: Entry)
    requires Distinct(entries)
    ensures forall x :: x in Retain(entries, e) <==> x in entries && x != e
    ensures Distinct(Retain(entries, e))
  {
    if entries != [] {
      var n := |entries| - 1;
      Retained(entries[..n], e);
      assert entries == entries[..n] + [entries[n]];
      assert entries[n] !in entries[..n];
    }
  }

  lemma {:induction false} RetainAt(entries: seq<Entry>, i: nat)
    requires Distinct(entries) && i < |entries|
    ensures Retain(entries, entries[i]) == entries[..i] + entries[i + 1..]
    decreases |entries|
  {
    var n := |entries| - 1;
    if i == n {
      RetainNone(entries[..n], entries[n]);
    } else {
      RetainAt(entries[..n], i);
      assert entries[..n][..i] == entries[..i] && entries[i + 1..] == entries[..n][i + 1..] + [entries[n]];
    }
  }

  /** Taking an entry out takes out what it is due. */
  lemma {:induction false} RetainedDue(entries: seq<Entry>, e: Entry, script: Script)
    requires Distinct(entries) && e in entries
    ensures multiset(AllDue(Retain(entries, e), script)) + multiset{Due(e, script)} == multiset(AllDue(entries, script))
  {
    var i :| 0 <= i < |entries| && entries[i] == e;
    RetainAt(entries, i);
    var a, b := entries[..i], entries[i + 1..];
    assert entries == a + [e] + b;
    DueAppend(a + [e], b, script);
    OneMoreDue(a, e, script);
    DueAppend(a, b, script);
  }

  lemma {:induction false} DeniedLater(denied: seq<BatchResult>, valid: seq<Entry>, e: Entry, all: seq<Entry>, script: Script)
    requires Balanced(denied, valid, all, script) && Distinct(valid) && e in valid
    ensures Balanced(denied + [Due(e, script)], Retain(valid, e), all, script)
  {
    RetainedDue(valid, e, script);
  }

  lemma {:induction false} RetainNone(entries: seq<Entry>, e: Entry)
    requires e !in entries
    ensures Retain(entries, e) == entries
  {
    if entries != [] {
      RetainNone(entries[..|entries| - 1], e);
    }
  }

  /** The calls that fail the strict check, in order. */
  method StrictDenials(valid: seq<Entry>, script: Script) returns (denials: seq<Entry>)
    requires Distinct(valid)
    ensures forall e :: e in denials <==> e in valid && !script(e.order).strictOk
    ensures Distinct(denials)
  {
    denials := [];
    for i := 0 to |valid|
      invariant forall e :: e in denials <==> e in valid[..i] && !script(e.order).strictOk
      invariant Distinct(denials)
    {
      assert valid[..i + 1] == valid[..i] + [valid[i]];
      assert valid[i] !in valid[..i];
      if !script(valid[i].order).strictOk {
        denials := denials + [valid[i]];
      }
    }
    assert valid[..|valid|] == valid;
  }

  ghost predicate Without(valid: seq<Entry>, before: seq<Entry>, gone: seq<Entry>) {
    Distinct(valid) && forall e :: e in valid <==> e in before && e !in gone
  }

  lemma {:induction false} WithoutMore(valid: seq<Entry>, before: seq<Entry>, gone: seq<Entry>, i: nat)
    requires i < |gone| && Distinct(gone) && gone[i] in before && Without(valid, before, gone[..i])
    ensures gone[i] in valid && Without(Retain(valid, gone[i]), before, gone[..i + 1])
  {
    Retained(valid, gone[i]);
    assert gone[..i + 1] == gone[..i] + [gone[i]] && gone[i] !in gone[..i];
  }

  /** The strict check: first the denials are listed, then taken out one by one. */
  method CheckStrictly(valid0: seq<Entry>, denied0: seq<BatchResult>, all: seq<Entry>, script: Script)
    returns (valid: seq<Entry>, denied: seq<BatchResult>)
    requires Distinct(valid0) && Balanced(denied0, valid0, all, script)
    ensures Balanced(denied, valid, all, script)
    ensures forall e :: e in valid <==> e in valid0 && script(e.order).strictOk
  {
    var strictDenials := StrictDenials(valid0, script);
    valid, denied := valid0, denied0;
    for i := 0 to |strictDenials|
      invariant Balanced(denied, valid, all, script) && Without(valid, valid0, strictDenials[..i])
    {
      var e := strictDenials[i];
      assert e in strictDenials;
      WithoutMore(valid, valid0, strictDenials, i);
      DeniedLater(denied, valid, e, all, script);
      valid := Retain(valid, e);
      denied := denied + [BatchResult(e.order, e.id, Answer(script(e.order).refusal, true))];
    }
    assert strictDenials[..|strictDenials|] == strictDenials;
  }

  /** The policy has spoken about the call, and it waits where it belongs. */
  ghost predicate Queued(e: Entry, script: Script, planned: seq<Entry>, confirm: seq<Entry>) {
    && script(e.order).policy.Some?
    && (script(e.order).policy.value.Allowed? ==> e in planned)
    && (script(e.order).policy.value.Confirm? ==> e in confirm)
  }

  /** The first i valid calls are queued or refused. */
  ghost predicate Evaluated(denied: seq<BatchResult>, planned: seq<Entry>, confirm: seq<Entry>, valid: seq<Entry>, i: nat,
                            all: seq<Entry>, script: Script)
    requires i <= |valid|
  {
    && Balanced(denied, planned + confirm + valid[i..], all, script)
    && (forall e | e in planned :: e in valid && IsRun(script(e.order)))
    && (forall e | e in confirm :: e in valid && script(e.order).policy == Some(Confirm))
    && forall e | e in valid[..i] :: Queued(e, script, planned, confirm)
  }

  lemma {:induction false} OneEvaluated(denied: seq<BatchResult>, planned: seq<Entry>, confirm: seq<Entry>,
                                        valid: seq<Entry>, i: nat, all: seq<Entry>, script: Script)
    requires i < |valid| && Evaluated(denied, planned, confirm, valid, i, all, script)
    requires var c := script(valid[i].order); c.valid && c.strictOk && c.policy.Some?
    ensures var e := valid[i];
      match script(e.order).policy.value
      case Allowed => Evaluated(denied, planned + [e], confirm, valid, i + 1, all, script)
      case Confirm => Evaluated(denied, planned, confirm + [e], valid, i + 1, all, script)
      case Denied => Evaluated(denied + [Due(e, script)], planned, confirm, valid, i + 1, all, script)
  {
    TakeNext(planned, confirm, valid, i, script);
    assert valid[..i + 1] == valid[..i] + [valid[i]];
  }

  /** Policy evaluation: run, refuse, or ask. */
  method EvaluatePolicies(valid: seq<Entry>, denied0: seq<BatchResult>, all: seq<Entry>, script: Script)
    returns (ok: bool, planned: seq<Entry>, confirm: seq<Entry>, denied: seq<BatchResult>)
    requires Balanced(denied0, valid, all, script)
    requires forall e | e in valid :: script(e.order).valid && script(e.order).strictOk
    ensures ok ==> Balanced(denied, planned + confirm, all, script)
    ensures forall e | e in planned :: e in valid && IsRun(script(e.order))
    ensures forall e | e in confirm :: e in valid && script(e.order).policy == Some(Confirm)
    ensures ok ==> forall e | e in valid :: Queued(e, script, planned, confirm)
    ensures !ok ==> exists e :: e in valid && !Completes(script(e.order))
  {
    planned, confirm, denied := [], [], denied0;
    assert planned + confirm + valid[0..] == valid;
    for i := 0 to |valid|
      invariant Evaluated(denied, planned, confirm, valid, i, all, script)
    {
      var e := valid[i];
      var c := script(e.order);
      if c.policy.None? {
        assert e in valid && !Completes(c);
        return false, planned, confirm, denied;
      }
      OneEvaluated(denied, planned, confirm, valid, i, all, script);
      match c.policy.value
      case Allowed => planned := planned + [e];
      case Confirm => confirm := confirm + [e];
      case Denied => denied := denied + [BatchResult(e.order, e.id, Answer(c.refusal, true))];
    }
    assert planned + confirm + valid[|valid|..] == planned + confirm;
    assert valid[..|valid|] == valid;
    ok := true;
  }

  lemma {:induction false} TakeNext(planned: seq<Entry>, confirm: seq<Entry>, rest: seq<Entry>, i: nat, script: Script)
    requires i < |rest|
    ensures var e := rest[i]; var owed := multiset(AllDue(planned + confirm + rest[i..], script));
      && owed == multiset(AllDue(planned + confirm + rest[i + 1..], script)) + multiset{Due(e, script)}
      && owed == multiset(AllDue(planned + [e] + confirm + rest[i + 1..], script))
      && owed == multiset(AllDue(planned + (confirm + [e]) + rest[i + 1..], script))
  {
    var e, after := rest[i], rest[i + 1..];
    assert rest[i..] == [e] + after;
    assert AllDue([e], script) == [Due(e, script)];
    DueAppend(planned + confirm, rest[i..], script);
    DueAppend([e], after, script);
    DueAppend(planned, confirm, script);
    DueAppend(planned + confirm, after, script);
    DueAppend(planned + [e] + confirm, after, script);
    DueAppend(planned + [e], confirm, script);
    DueAppend(planned, [e], script);
    DueAppend(planned + (confirm + [e]), after, script);
    DueAppend(planned, confirm + [e], script);
    DueAppend(confirm, [e], script);
  }

  /** The user, and the policy after an edit, have answered. */
  predicate Settled(c: CallScript) {
    c.approval.Some? && (c.approval.value.Edit? ==> c.approval.value.again.Some?)
  }

  /** What the approval of one call comes to: run it or not; None when asking
      the user or the policy again fails. */
  method Decide(c: CallScript) returns (run: Option<bool>)
    requires c.valid && c.strictOk && c.policy == Some(Confirm)
    ensures run.None? ==> !Completes(c)
    ensures run.Some? ==> run.value == IsRun(c) && Settled(c)
  {
    if c.approval.None? {
      return None;
    }
    match c.approval.value
    case Approve => return Some(true);
    case AlwaysAllow => return Some(true);
    case Deny => return Some(false);
    case Edit(again) =>
      if again.None? {
        return None;
      }
      return Some(again.value.Allowed?);
  }

  /** The approval queue. */
  method AskApprovals(confirm: seq<Entry>, planned0: seq<Entry>, denied0: seq<BatchResult>, all: seq<Entry>, script: Script)
    returns (ok: bool, planned: seq<Entry>, denied: seq<BatchResult>)
    requires Balanced(denied0, planned0 + confirm, all, script)
    requires forall e | e in planned0 :: IsRun(script(e.order))
    requires forall e | e in confirm ::
      script(e.order).valid && script(e.order).strictOk && script(e.order).policy == Some(Confirm)
    ensures ok ==> Balanced(denied, planned, all, script)
    ensures forall e | e in planned :: (e in planned0 || e in confirm) && IsRun(script(e.order))
    ensures planned0 <= planned
    ensures ok ==> forall e | e in confirm :: Settled(script(e.order)) && (IsRun(script(e.order)) ==> e in planned)
    ensures !ok ==> exists e :: e in confirm && !Completes(script(e.order))
  {
    planned, denied := planned0, denied0;
    assert planned + [] + confirm[0..] == planned + confirm;
    for i := 0 to |confirm|
      invariant Balanced(denied, planned + [] + confirm[i..], all, script)
      invariant planned0 <= planned
      invariant forall e | e in planned :: (e in planned0 || e in confirm) && IsRun(script(e.order))
      invariant forall e | e in confirm[..i] :: Settled(script(e.order)) && (IsRun(script(e.order)) ==> e in planned)
    {
      var e := confirm[i];
      assert e in confirm;
      TakeNext(planned, [], confirm, i, script);
      var run := Decide(script(e.order));
      assert confirm[..i + 1] == confirm[..i] + [e];
      if run.None? {
        return false, planned, denied;
      }
      if run.value {
        planned := planned + [e];
      } else {
        denied := denied + [BatchResult(e.order, e.id, Answer(script(e.order).refusal, true))];
      }
    }
    assert planned + [] + confirm[|confirm|..] == planned;
    assert confirm[..|confirm|] == confirm;
    ok := true;
  }

  /** A round is one call that may not run in parallel, or calls that all may. */
  predicate IsRound(round: seq<Entry>, script: Script) {
    && round != []
    && ((|round| == 1 && !script(round[0].order).parallel) || AllParallel(round, script))
  }

  predicate AllParallel(round: seq<Entry>, script: Script) {
    forall e | e in round :: script(e.order).parallel
  }

  function Joined(rounds: seq<seq<Entry>>): seq<Entry> {
    if rounds == [] then [] else Joined(rounds[..|rounds| - 1]) + rounds[|rounds| - 1]
  }

  /** The calls in order, cut into rounds that are as long as they can be: a
      call that may not run in parallel never shares a round, and of two rounds
      in a row one is such a call. */
  ghost predicate InRounds(rounds: seq<seq<Entry>>, planned: seq<Entry>, script: Script) {
    && Joined(rounds) == planned
    && (forall k | 0 <= k < |rounds| :: IsRound(rounds[k], script))
    && (forall k | 0 < k < |rounds| :: !AllParallel(rounds[k - 1], script) || !AllParallel(rounds[k], script))
  }

  /** Some rounds are over, and the group that is gathered after them follows a
      call that may not run in parallel. */
  ghost predicate Gathering(rounds: seq<seq<Entry>>, group: seq<Entry>, planned: seq<Entry>, script: Script) {
    && InRounds(rounds, Joined(rounds), script) && Joined(rounds) + group == planned
    && AllParallel(group, script)
    && (rounds != [] ==> !AllParallel(rounds[|rounds| - 1], script))
  }

  lemma {:induction false} OneMoreRound(rounds: seq<seq<Entry>>, round: seq<Entry>)
    ensures Joined(rounds + [round]) == Joined(rounds) + round
  {
    assert (rounds + [round])[..|rounds|] == rounds;
  }

  /** The rounds when the gathered group has been run. */
  function Flushed(rounds: seq<seq<Entry>>, group: seq<Entry>): seq<seq<Entry>> {
    if group == [] then rounds else rounds + [group]
  }

  lemma {:induction false} GroupIsRound(rounds: seq<seq<Entry>>, group: seq<Entry>, planned: seq<Entry>, script: Script)
    requires Gathering(rounds, group, planned, script)
    ensures InRounds(Flushed(rounds, group), planned, script)
    ensures Flushed(rounds, group) != [] && group != [] ==> Flushed(rounds, group)[|Flushed(rounds, group)| - 1] == group
  {
    if group != [] {
      OneMoreRound(rounds, group);
    } else {
      assert Joined(rounds) + group == Joined(rounds);
    }
  }

  lemma {:induction false} AloneAfter(rounds: seq<seq<Entry>>, planned: seq<Entry>, e: Entry, script: Script)
    requires InRounds(rounds, planned, script) && !script(e.order).parallel
    ensures Gathering(rounds + [[e]], [], planned + [e], script)
  {
    OneMoreRound(rounds, [e]);
    assert e in [e];
    assert Joined(rounds + [[e]]) + [] == planned + [e];
  }

  lemma {:induction false} OneMoreGathered(rounds: seq<seq<Entry>>, group: seq<Entry>, planned: seq<Entry>, e: Entry,
                                           script: Script)
    requires Gathering(rounds, group, planned, script) && script(e.order).parallel
    ensures Gathering(rounds, group + [e], planned + [e], script)
  {
    assert Joined(rounds) + (group + [e]) == planned + [e];
  }

  /** Every call up to here has run, or waits in the group. */
  ghost predicate RanOrWaits(done: seq<Entry>, group: seq<Entry>, script: Script) {
    forall e | e in done :: e in group || script(e.order).outcome.Some?
  }

  /** The results of a flushed group are no longer owed. */
  lemma {:induction false} FlushedBalance(results: seq<BatchResult>, group: seq<Entry>, e: Entry, rest: seq<Entry>,
                                          all: seq<Entry>, script: Script)
    requires Balanced(results, group + [e] + rest, all, script)
    ensures Balanced(results + AllDue(group, script) + [Due(e, script)], rest, all, script)
  {
    DueAppend(group + [e], rest, script);
    OneMoreDue(group, e, script);
  }

  lemma {:induction false} Regroup(group: seq<Entry>, planned: seq<Entry>, i: nat)
    requires i < |planned|
    ensures group + planned[i..] == group + [planned[i]] + planned[i + 1..]
  {
  }

  /** The first i planned calls are settled: their rounds, the group that still
      waits, and what the rest is owed. */
  ghost predicate Running(results: seq<BatchResult>, rounds: seq<seq<Entry>>, group: seq<Entry>, planned: seq<Entry>, i: nat,
                          all: seq<Entry>, script: Script)
    requires i <= |planned|
  {
    && Balanced(results, group + planned[i..], all, script)
    && (forall e | e in group :: e in planned)
    && Gathering(rounds, group, planned[..i], script)
    && RanOrWaits(planned[..i], group, script)
  }

  lemma {:induction false} StartsRunning(denied: seq<BatchResult>, planned: seq<Entry>, all: seq<Entry>, script: Script)
    requires Balanced(denied, planned, all, script)
    ensures Running(denied, [], [], planned, 0, all, script)
  {
    assert [] + planned[0..] == planned && planned[..0] == [];
  }

  lemma {:induction false} RunsBeside(results: seq<BatchResult>, rounds: seq<seq<Entry>>, group: seq<Entry>,
                                      planned: seq<Entry>, i: nat, all: seq<Entry>, script: Script)
    requires i < |planned| && Running(results, rounds, group, planned, i, all, script) && script(planned[i].order).parallel
    ensures Running(results, rounds, group + [planned[i]], planned, i + 1, all, script)
  {
    var e := planned[i];
    assert planned[..i + 1] == planned[..i] + [e];
    Regroup(group, planned, i);
    OneMoreGathered(rounds, group, planned[..i], e, script);
  }

  lemma {:induction false} RunsAlone(results: seq<BatchResult>, rounds: seq<seq<Entry>>, group: seq<Entry>,
                                     planned: seq<Entry>, i: nat, all: seq<Entry>, script: Script)
    requires i < |planned| && Running(results, rounds, group, planned, i, all, script) && !script(planned[i].order).parallel
    requires script(planned[i].order).outcome.Some? && forall e | e in group :: script(e.order).outcome.Some?
    ensures var e := planned[i];
      Running(results + AllDue(group, script) + [Due(e, script)], Flushed(rounds, group) + [[e]], [], planned, i + 1, all, script)
  {
    var e := planned[i];
    assert planned[..i + 1] == planned[..i] + [e];
    Regroup(group, planned, i);
    FlushedBalance(results, group, e, planned[i + 1..], all, script);
    assert [] + planned[i + 1..] == planned[i + 1..];
    GroupIsRound(rounds, group, planned[..i], script);
    AloneAfter(Flushed(rounds, group), planned[..i], e, script);
  }

  lemma {:induction false} LastGroup(results: seq<BatchResult>, rounds: seq<seq<Entry>>, group: seq<Entry>,
                                     planned: seq<Entry>, all: seq<Entry>, script: Script)
    requires Running(results, rounds, group, planned, |planned|, all, script)
    requires forall e | e in group :: script(e.order).outcome.Some?
    ensures multiset(results + AllDue(group, script)) == multiset(AllDue(all, script))
    ensures InRounds(Flushed(rounds, group), planned, script) && RanOrWaits(planned, [], script)
  {
    assert group + planned[|planned|..] == group && planned[..|planned|] == planned;
    GroupIsRound(rounds, group, planned, script);
  }

  /** Execution: calls that may run in parallel are gathered into groups, and a
      group is flushed before the next call that may not, and at the end. */
  method RunPlanned(planned: seq<Entry>, denied: seq<BatchResult>, all: seq<Entry>, script: Script)
    returns (ok: bool, results: seq<BatchResult>, rounds: seq<seq<Entry>>)
    requires Balanced(denied, planned, all, script)
    requires forall e | e in planned :: IsRun(script(e.order))
    ensures ok ==> multiset(results) == multiset(AllDue(all, script)) && InRounds(rounds, planned, script)
    ensures ok ==> RanOrWaits(planned, [], script)
    ensures !ok ==> exists e :: e in planned && !Completes(script(e.order))
  {
    results, rounds := denied, [];
    var group: seq<Entry> := [];
    StartsRunning(denied, planned, all, script);
    for i := 0 to |planned|
      invariant Running(results, rounds, group, planned, i, all, script)
    {
      var e := planned[i];
      if script(e.order).parallel {
        RunsBeside(results, rounds, group, planned, i, all, script);
        group := group + [e];
      } else {
        ghost var before := results;
        ok, results := RunAlone(group, e, results, script);
        if !ok {
          return;
        }
        RunsAlone(before, rounds, group, planned, i, all, script);
        rounds := Flushed(rounds, group) + [[e]];
        group := [];
      }
    }
    ghost var before := results;
    ok, results := RunGroup(group, results, script);
    if ok {
      LastGroup(before, rounds, group, planned, all, script);
    }
    rounds := Flushed(rounds, group);
  }

  /** The group first, then the call that may not run beside it. */
  method RunAlone(group: seq<Entry>, e: Entry, results0: seq<BatchResult>, script: Script)
    returns (ok: bool, results: seq<BatchResult>)
    requires IsRun(script(e.order)) && forall x | x in group :: IsRun(script(x.order))
    ensures ok ==> results == results0 + AllDue(group, script) + [Due(e, script)]
    ensures ok ==> script(e.order).outcome.Some? && forall x | x in group :: script(x.order).outcome.Some?
    ensures !ok ==> exists x :: (x == e || x in group) && !Completes(script(x.order))
  {
    ok, results := RunGroup(group, results0, script);
    if !ok {
      return;
    }
    var outcome := script(e.order).outcome;
    if outcome.None? {
      return false, results;
    }
    results := results + [BatchResult(e.order, e.id, outcome.value)];
  }

  method RunGroup(group: seq<Entry>, results0: seq<BatchResult>, script: Script)
    returns (ok: bool, results: seq<BatchResult>)
    requires forall e | e in group :: IsRun(script(e.order))
    ensures ok ==> results == results0 + AllDue(group, script)
    ensures ok ==> forall e | e in group :: script(e.order).outcome.Some?
    ensures !ok ==> exists e :: e in group && !Completes(script(e.order))
  {
    results := results0;
    for i := 0 to |group|
      invariant results == results0 + AllDue(group[..i], script)
      invariant forall e | e in group[..i] :: script(e.order).outcome.Some?
    {
      var e := group[i];
      assert group[..i + 1] == group[..i] + [e] && e in group;
      OneMoreDue(group[..i], e, script);
      var outcome := script(e.order).outcome;
      if outcome.None? {
        return false, results;
      }
      results := results + [BatchResult(e.order, e.id, outcome.value)];
    }
    assert group[..|group|] == group;
    ok := true;
  }

  // ----------------------------------------------------------------- the batch

  predicate ByOrder(a: BatchResult, b: BatchResult) { a.order <= b.order }

  /** Sorting what was collected in any order puts every answer at its call. */
  lemma {:induction false} SortedAnswers(calls: seq<Turns.ToolCall>, script: Script, results: seq<BatchResult>)
    requires multiset(results) == multiset(Answers(calls, script))
    ensures Sort(ByOrder, results) == Answers(calls, script)
  {
    var sorted, due := Sort(ByOrder, results), Answers(calls, script);
    SortSorted(ByOrder, results);
    forall x, y | x in due && y in due && ByOrder(x, y) && ByOrder(y, x) ensures x == y {
      assert x == due[x.order] && y == due[y.order];
    }
    SortedUnique(ByOrder, due, sorted);
  }

  /** The calls that run: those with an order of the turn that the policy and
      the user let through. */
  ghost predicate AreTheRuns(planned: seq<Entry>, all: seq<Entry>, script: Script) {
    forall e :: e in planned <==> e in all && IsRun(script(e.order))
  }

  /** `ToolExecutor::execute_tool_batch`; `rounds` tells what ran together. */
  method ExecuteBatch(calls: seq<Turns.ToolCall>, script: Script)
    returns (r: Option<seq<BatchResult>>, rounds: seq<seq<Entry>>)
    ensures r.Some? <==> forall k | 0 <= k < |calls| :: Completes(script(k))
    ensures r.Some? ==> r.value == Answers(calls, script)
    ensures r.Some? ==> AreTheRuns(Joined(rounds), Entries(calls), script) && InRounds(rounds, Joined(rounds), script)
  {
    var all := Entries(calls);
    rounds := [];
    assert forall k | 0 <= k < |calls| :: all[k] in all && all[k].order == k;
    assert forall e | e in all :: e.order < |calls|;
    var valid, denied := ValidateCalls(all, script);
    valid, denied := CheckStrictly(valid, denied, all, script);
    var ok, planned, confirm;
    ok, planned, confirm, denied := EvaluatePolicies(valid, denied, all, script);
    if !ok {
      return None, rounds;
    }
    ghost var allowed := planned;
    ok, planned, denied := AskApprovals(confirm, planned, denied, all, script);
    if !ok {
      return None, rounds;
    }
    var results;
    ok, results, rounds := RunPlanned(planned, denied, all, script);
    if !ok {
      return None, rounds;
    }
    SortedAnswers(calls, script, results);
    forall e | e in all ensures Completes(script(e.order)) && (IsRun(script(e.order)) ==> e in planned) {
      assert script(e.order).valid && script(e.order).strictOk ==> e in valid && Queued(e, script, allowed, confirm);
    }
    forall k | 0 <= k < |calls| ensures Completes(script(k)) {
      assert all[k] in all;
    }
    return Some(Sort(ByOrder, results)), rounds;
  }
}
