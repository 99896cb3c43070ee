/** The steps of the plan executor of agent/planner_runtime.go as functions on states: deciding,
    starting, logging, asking, responding, resuming, extracting and falling back, and what each
    keeps of a session's invariant. */
module Planner {
  import opened Seqs
  import opened Text
  import opened Records
  import opened Execution
  import opened Freshness
  import opened PlanTrace

  const MAX_ITERATIONS: nat := 12
  /** The default question of the user's language. */
  type Question = q: string | q != "" && Trimmed(q) witness "?"

  datatype NextStepDecision = NextStepDecision(goal: string, steps: seq<PlanStep>, step: PlanStep)

  datatype PlanError =
    | PlannerFailed | AllDuplicates | ReasonLoop | MissingStepType | SaveFailed
    | ReasonFailed(message: string) | RespondFailed | UnsupportedStepType | IterationLimit

  datatype Outcome = Continue | Answer(text: string) | Failure(error: PlanError)

  /** normalizeNextStepDecision: a lone step becomes a batch, blank ids are numbered. */
  function NormalizeNextStepDecision(d: NextStepDecision): NextStepDecision {
    var steps := if d.steps == [] && !d.step.kind.NoKind? then [d.step] else d.steps;
    var normal := NormalizeSteps(steps);
    NextStepDecision(Trim(d.goal), normal, if normal == [] then d.step else normal[0])
  }

  /** completedSteps. */
  method CompletedStepsLoop(steps: seq<PlanStep>) returns (out: seq<PlanStep>)
    ensures out == CompletedSteps(steps)
  {
    out := [];
    for i := 0 to |steps|
      invariant out == CompletedSteps(steps[..i])
    {
      assert steps[..i + 1][..i] == steps[..i];
      if steps[i].status.StepCompleted? {
        out := out + [steps[i]];
      }
    }
    assert steps[..|steps|] == steps;
  }

  predicate Unstarted(step: PlanStep) {
    step.status.NoStepStatus? || step.status.StepPending?
  }

  /** nextPendingStepIndex: the first unstarted step, or -1. */
  method NextPendingStepIndex(steps: seq<PlanStep>) returns (index: int)
    ensures -1 <= index < |steps|
    ensures index >= 0 ==> Unstarted(steps[index])
    ensures forall k :: 0 <= k < (if index >= 0 then index else |steps|) ==> !Unstarted(steps[k])
  {
    for i := 0 to |steps|
      invariant forall k :: 0 <= k < i ==> !Unstarted(steps[k])
    {
      if Unstarted(steps[i]) {
        return i;
      }
    }
    return -1;
  }

  function LastCompleted(steps: seq<PlanStep>): Option<PlanStep> {
    if steps == [] then None
    else if steps[|steps| - 1].status.StepCompleted? then Some(steps[|steps| - 1])
    else LastCompleted(steps[..|steps| - 1])
  }

  /** stepSemanticKey of a reason step. */
  function ReasonKey(step: PlanStep): string {
    Lower(Trim("reason|" + step.toolName + "|" + step.title + "|" + step.instruction))
  }

  /** hasRepeatedReasonLoop. */
  predicate RepeatedReasonLoop(steps: seq<PlanStep>, batch: seq<PlanStep>) {
    var last := LastCompleted(steps);
    && batch != [] && last.Some? && last.value.kind.Reason?
    && forall i :: 0 <= i < |batch| ==> batch[i].kind.Reason? && ReasonKey(batch[i]) == ReasonKey(last.value)
  }

  /** A batch repeats the reasoning exactly if it is not empty and the newest completed step, as every
      step of it, is a reason step with the same tool, title and instruction up to case. */
  lemma RepeatsReasoning(steps: seq<PlanStep>, batch: seq<PlanStep>)
    ensures RepeatedReasonLoop(steps, batch) <==>
            batch != [] && exists k ::
              && 0 <= k < |steps| && steps[k].status.StepCompleted? && steps[k].kind.Reason?
              && (forall j :: k < j < |steps| ==> !steps[j].status.StepCompleted?)
              && forall i :: 0 <= i < |batch| ==>
                   && batch[i].kind.Reason?
                   && Lower(Trim("reason|" + batch[i].toolName + "|" + batch[i].title + "|" + batch[i].instruction)) ==
                      Lower(Trim("reason|" + steps[k].toolName + "|" + steps[k].title + "|" + steps[k].instruction))
  {
    hide Trim, Lower;
    if exists k :: 0 <= k < |steps| && steps[k].status.StepCompleted? {
      var k := NewestCompleted(steps);
    } else {
      NoneCompleted(steps);
    }
  }

  lemma {:induction false} NewestCompleted(steps: seq<PlanStep>) returns (k: nat)
    requires exists i :: 0 <= i < |steps| && steps[i].status.StepCompleted?
    ensures k < |steps| && steps[k].status.StepCompleted? && LastCompleted(steps) == Some(steps[k])
    ensures forall j :: k < j < |steps| ==> !steps[j].status.StepCompleted?
  {
    var n := |steps| - 1;
    if steps[n].status.StepCompleted? {
      k := n;
    } else {
      var i :| 0 <= i < |steps| && steps[i].status.StepCompleted?;
      assert steps[..n][i].status.StepCompleted?;
      k := NewestCompleted(steps[..n]);
    }
  }

  lemma {:induction false} NoneCompleted(steps: seq<PlanStep>)
    requires forall i :: 0 <= i < |steps| ==> !steps[i].status.StepCompleted?
    ensures LastCompleted(steps).None?
  {
    if steps != [] {
      NoneCompleted(steps[..|steps| - 1]);
    }
  }

  /** A decision's steps are its batch, or its lone step if it has no batch, normalised. */
  lemma DecisionSteps(d: NextStepDecision)
    ensures var n := NormalizeNextStepDecision(d);
            && n.goal == Trim(d.goal)
            && n.steps == (if d.steps != [] then NormalizeSteps(d.steps)
                           else if d.step.kind.NoKind? then [] else NormalizeSteps([d.step]))
            && (n.steps != [] ==> n.step == n.steps[0])
  {
    hide Trim;
  }

  /** A missing title is the id with blanks for underscores; everything else stays. */
  lemma TitleFromId(steps: seq<PlanStep>, i: nat, k: nat)
    requires i < |steps|
    ensures steps[i].title != "" ==> Titled(steps)[i] == steps[i]
    ensures steps[i].title == "" ==>
              && Titled(steps)[i].(title := "") == steps[i]
              && |Titled(steps)[i].title| == |steps[i].id|
              && (k < |steps[i].id| ==>
                    Titled(steps)[i].title[k] == if steps[i].id[k] == '_' then ' ' else steps[i].id[k])
  {
  }

  /** strings.ReplaceAll of underscores by blanks. */
  function Spaced(id: string): string {
    seq(|id|, i requires 0 <= i < |id| => if id[i] == '_' then ' ' else id[i])
  }

  /** An accepted step without a title is named after its id. */
  function Titled(steps: seq<PlanStep>): (r: seq<PlanStep>)
    ensures |r| == |steps|
  {
    seq(|steps|, i requires 0 <= i < |steps| =>
      if steps[i].title == "" then steps[i].(title := Spaced(steps[i].id)) else steps[i])
  }

  /** The title loop over an accepted batch. */
  method FillTitles(before: seq<PlanStep>) returns (steps: seq<PlanStep>)
    ensures steps == Titled(before)
  {
    hide Spaced;
    steps := before;
    for i := 0 to |steps|
      invariant |steps| == |before|
      invariant forall k :: 0 <= k < i ==> steps[k] == Titled(before)[k]
      invariant forall k :: i <= k < |steps| ==> steps[k] == before[k]
    {
      if steps[i].title == "" {
        steps := steps[i := steps[i].(title := Spaced(steps[i].id))];
      }
    }
  }

  /** Titles play no part in calls and statuses. */
  lemma TitledShape(front: seq<PlanStep>, steps: seq<PlanStep>)
    ensures SameShape(front + steps, front + Titled(steps))
    ensures StepsOk(front + steps) ==> StepsOk(front + Titled(steps))
    ensures DistinctIds(front + steps) == DistinctIds(front + Titled(steps))
  {
    hide Trim, Spaced;
    var a, b := front + steps, front + Titled(steps);
    assert forall i :: 0 <= i < |a| ==> b[i].(title := "") == a[i].(title := "");
  }

  // ------------------------------------------------------------ saved states

  /** A state waits exactly when it carries a question, and that question is its answer. */
  predicate WaitingAgrees(s: ExecutionState) {
    && (s.status.WaitingUser? <==> s.waiting.Some?)
    && (s.waiting.Some? ==>
          && s.waiting.value.question == s.finalAnswer && s.finalAnswer != "" && Trim(s.finalAnswer) == s.finalAnswer
          && IsClean(s.waiting.value.pendingFields))
  }

  lemma NormalizeKeepsWaiting(s: ExecutionState, now: int)
    requires WaitingAgrees(s)
    ensures var n := NormalizeExecutionState(s, now);
            && WaitingAgrees(n) && n.status.WaitingUser? == s.status.WaitingUser?
            && (s.waiting.Some? ==> n.waiting.value.pendingFields == s.waiting.value.pendingFields)
  {
    hide Trim;
    if s.waiting.Some? {
      CleanFixed(s.waiting.value.pendingFields);
    }
  }

  /** The calls completed in each saved state extend those of every earlier one. */
  predicate OnlyExtends(saved: seq<ExecutionState>) {
    forall i, j :: 0 <= i <= j < |saved| ==> DoneCalls(saved[i].steps) <= DoneCalls(saved[j].steps)
  }

  predicate AllWithin(saved: seq<ExecutionState>, done: seq<Call>) {
    forall i :: 0 <= i < |saved| ==> DoneCalls(saved[i].steps) <= done
  }

  /** What every sequence of saves of one session satisfies. */
  predicate SavedOk(saved: seq<ExecutionState>, plain: bool) {
    && (forall i :: 0 <= i < |saved| ==> WaitingAgrees(saved[i]))
    && (plain ==> OnlyExtends(saved) && forall i :: 0 <= i < |saved| ==> AtMostOneRunning(saved[i].steps))
  }

  lemma SaveOneMore(saved: seq<ExecutionState>, s: ExecutionState, plain: bool)
    requires SavedOk(saved, plain) && WaitingAgrees(s)
    requires plain ==> AllWithin(saved, DoneCalls(s.steps)) && AtMostOneRunning(s.steps)
    ensures SavedOk(saved + [s], plain)
    ensures plain ==> AllWithin(saved + [s], DoneCalls(s.steps))
  {
    var all := saved + [s];
    assert forall i :: 0 <= i < |all| ==> all[i] == if i < |saved| then saved[i] else s;
  }

  lemma AroundRunsOne(steps: seq<PlanStep>, n: nat)
    requires Around(steps, n)
    ensures AtMostOneRunning(steps)
  {
  }

  /** A working copy that fits its trace and extends everything saved before it. */
  predicate SoundState(s: ExecutionState, saved: seq<ExecutionState>, t: Trace, n: nat) {
    && Inv(s, t, n) && WaitingAgrees(s) && SavedOk(saved, t.plain)
    && (t.plain ==> AllWithin(saved, DoneCalls(s.steps)))
  }

  /** The loop head of executePlan: nothing waits; the plan is completed steps, then pending ones. */
  predicate HeadState(s: ExecutionState, saved: seq<ExecutionState>, t: Trace, n: nat) {
    && SoundState(s, saved, t, n)
    && s.waiting.None? && !s.status.WaitingUser?
    && (t.plain ==> Split(s.steps, n) && DoneCalls(s.steps) == t.executed)
  }

  /** A save keeps the working copy sound and records it. */
  lemma SaveKeeps(s: ExecutionState, saved: seq<ExecutionState>, t: Trace, n: nat, now: int)
    requires SoundState(s, saved, t, n) && (t.plain ==> AtMostOneRunning(s.steps))
    ensures var s' := NormalizeExecutionState(s, now);
            && SoundState(s', saved + [s'], t, n)
            && SameShape(s.steps, s'.steps) && DoneCalls(s'.steps) == DoneCalls(s.steps)
            && s'.status.WaitingUser? == s.status.WaitingUser? && s'.waiting.Some? == s.waiting.Some?
            && (HeadState(s, saved, t, n) ==> HeadState(s', saved + [s'], t, n))
  {
    hide Trim;
    NormalizeKeepsInv(s, t, n, now);
    NormalizeKeepsWaiting(s, now);
    SaveOneMore(saved, NormalizeExecutionState(s, now), t.plain);
  }

  lemma SavedWeaken(saved: seq<ExecutionState>, plain: bool, plain': bool, done: seq<Call>, done': seq<Call>)
    requires SavedOk(saved, plain) && (plain' ==> plain) && (plain ==> AllWithin(saved, done))
             && (plain' ==> done <= done')
    ensures SavedOk(saved, plain') && (plain' ==> AllWithin(saved, done'))
  {
  }

  // ----------------------------------------------------------- step transitions

  function SetStep(s: ExecutionState, i: nat, step: PlanStep): ExecutionState
    requires i < |s.steps|
  {
    s.(steps := s.steps[i := step])
  }

  function Complete(s: ExecutionState, i: nat, output: string): ExecutionState
    requires i < |s.steps|
  {
    SetStep(s, i, s.steps[i].(status := StepCompleted, outputSummary := output))
  }

  function ToolResult(id: string, summary: string, raw: string, now: int): Observation {
    Observation(id, TOOL_RESULT, summary, raw, At(now))
  }

  /** Putting an unfinished step in hand, or failing it, keeps the invariant. */
  lemma TouchKeepsInv(s: ExecutionState, t: Trace, n: nat, i: nat, step: PlanStep)
    requires Inv(s, t, n) && i < |s.steps| && (t.plain ==> i == n)
    requires CallOf(step) == CallOf(s.steps[i]) && !step.status.StepCompleted? && !step.status.NoStepStatus?
    ensures Inv(SetStep(s, i, step), t, n)
    ensures t.plain ==> DoneCalls(SetStep(s, i, step).steps) == DoneCalls(s.steps)
  {
    hide Trim;
    var steps := s.steps[i := step];
    assert step.id == s.steps[i].id && step.kind == s.steps[i].kind && Signature(step) == Signature(s.steps[i]);
    if t.plain {
      DoneOfAround(s.steps, n);
      DoneOfAround(steps, n);
      assert CallsOf(steps) == CallsOf(s.steps);
      if t.unique {
        SameIds(s.steps, i, step);
        assert PendingApart(steps, t, n);
      }
    }
  }

  /** After its execution no remaining step repeats the call of step `n`. */
  lemma RestDiffers(before: seq<PlanStep>, after: seq<PlanStep>, t: Trace, n: nat)
    requires PendingApart(before, t, n) && n < |before| && before[n].kind.Tool?
    requires CallsOf(after) == CallsOf(before)
    ensures forall q :: n + 1 <= q < |after| && after[q].kind.Tool? ==> Signature(after[q]) != Signature(before[n])
  {
    hide Trim;
    forall q | n + 1 <= q < |after| && after[q].kind.Tool?
      ensures Signature(after[q]) != Signature(before[n])
    {
      assert CallsOf(after)[q] == CallsOf(before)[q];
      assert before[q].kind.Tool? && Signature(after[q]) == Signature(before[q]);
    }
  }

  /** The run just logged points at its own result. */
  lemma ResultLogged(t: Trace, call: Call, summary: string, raw: string, now: int)
    requires Trim(call.id) == call.id && t.decisions != []
    ensures var obs := ToolResult(call.id, summary, raw, now);
            RunOk(t.(executed := t.executed + [call], history := t.history + Contribution(obs, now)),
                  ToolRun(call, |t.history|, now, |t.decisions| - 1))
  {
    hide Trim;
    assert Trimmed(TOOL_RESULT);
    TrimLaws(TOOL_RESULT);
    assert (t.executed + [call])[|t.executed|] == call;
  }

  /** Completing and logging a tool step, before the run is recorded. */
  lemma LogKeepsInv(s: ExecutionState, t: Trace, n: nat, i: nat, output: string, obs: Observation, now: int)
    requires Inv(s, t, n) && i < |s.steps| && (t.plain ==> i == n)
    ensures var s' := AppendExecutionLog(Complete(s, i, output), obs, now);
            var t' := t.(executed := t.executed + [CallOf(s.steps[i])], history := t.history + Contribution(obs, now));
            && Inv(s', t', n + 1) && CallsOf(s'.steps) == CallsOf(s.steps)
            && (t.plain ==> Split(s'.steps, n + 1) && DoneCalls(s'.steps) == t'.executed)
  {
    hide Trim, Inv, Signature, NormalizeExecutionState;
    var s1, t1 := Complete(s, i, output), t.(executed := t.executed + [CallOf(s.steps[i])]);
    CompleteKeepsInv(s, t, n, i, output);
    AppendKeepsInv(s1, t1, n + 1, obs, now);
    assert CallsOf(s1.steps) == CallsOf(s.steps);
    SameShapeKeeps(s1.steps, AppendExecutionLog(s1, obs, now).steps, t1, n + 1);
  }

  /** A tool execution: the step completes, its result is logged and the run recorded. */
  lemma ToolKeepsInv(s: ExecutionState, t: Trace, n: nat, i: nat, summary: string, raw: string, now: int)
    requires Inv(s, t, n) && i < |s.steps| && (t.plain ==> i == n) && s.steps[i].kind.Tool?
    ensures var call := CallOf(s.steps[i]);
            var obs := ToolResult(call.id, summary, raw, now);
            var s' := AppendExecutionLog(Complete(s, i, summary), obs, now);
            var t' := t.(executed := t.executed + [call], history := t.history + Contribution(obs, now),
                         runs := t.runs + [ToolRun(call, |t.history|, now, |t.decisions| - 1)]);
            && Inv(s', t', n + 1) && (t.plain ==> Split(s'.steps, n + 1) && DoneCalls(s'.steps) == t'.executed)
  {
    hide Trim;
    var call := CallOf(s.steps[i]);
    var obs := ToolResult(call.id, summary, raw, now);
    var s2 := AppendExecutionLog(Complete(s, i, summary), obs, now);
    var t2 := t.(executed := t.executed + [call], history := t.history + Contribution(obs, now));
    LogKeepsInv(s, t, n, i, summary, obs, now);
    ResultLogged(t, call, summary, raw, now);
    if t.plain && t.unique {
      assert CallApart(t, Signature(s.steps[n]));
      ApartSame(t, t2, Signature(s.steps[n]));
      RestDiffers(s.steps, s2.steps, t, n);
    }
    RunKeepsInv(s2, t2, n + 1, ToolRun(call, |t.history|, now, |t.decisions| - 1));
  }

  lemma ApartSame(t: Trace, t': Trace, sig: string)
    requires t'.runs == t.runs && t'.decisions == t.decisions && CallApart(t, sig)
    ensures CallApart(t', sig)
  {
  }

  lemma {:induction false} NewestSameShape(a: seq<PlanStep>, b: seq<PlanStep>, id: string)
    requires SameShape(a, b)
    ensures NewestWithId(a, id).Some? == NewestWithId(b, id).Some?
    ensures NewestWithId(a, id).Some? ==> CallOf(NewestWithId(a, id).value) == CallOf(NewestWithId(b, id).value)
  {
    hide Trim;
    if a != [] {
      assert CallOf(a[|a| - 1]).id == b[|b| - 1].id;
      NewestSameShape(a[..|a| - 1], b[..|b| - 1], id);
    }
  }

  /** Freshness reads only the log and the calls of the plan. */
  lemma FreshSameShape(s: ExecutionState, s': ExecutionState, now: int, sig: string)
    requires SameShape(s.steps, s'.steps) && s.log == s'.log
    ensures FreshlyFetched(s, now, sig) ==> FreshlyFetched(s', now, sig)
  {
    if FreshlyFetched(s, now, sig) {
      var k :| 0 <= k < |s.log| && Fetches(s.steps, s.log[k], sig) && now - SecsOf(s.log[k].createdAt) <= FRESH_SECONDS;
      NewestSameShape(s.steps, s'.steps, s.log[k].stepId);
      assert Fetches(s'.steps, s'.log[k], sig);
    }
  }

  lemma NoneFreshSameShape(out: seq<PlanStep>, s: ExecutionState, s': ExecutionState, now: int)
    requires SameShape(s.steps, s'.steps) && s.log == s'.log && NoneFresh(out, s', now)
    ensures NoneFresh(out, s, now)
  {
    forall i | 0 <= i < |out| && out[i].kind.Tool?
      ensures !FreshlyFetched(s, now, Signature(out[i]))
    {
      FreshSameShape(s, s', now, Signature(out[i]));
    }
  }

  lemma NormalizedStepOk(raw: PlanStep, k: nat)
    ensures StepOk(NormalizeStep(raw, k))
  {
    hide Trim;
    TrimLaws(raw.id);
    TrimLaws(raw.toolName);
    StepNameTrimmed(k);
  }

  /** Steps taken from a normalised batch are in normal form. */
  lemma KeptStepsOk(raw: seq<PlanStep>, kept: seq<PlanStep>)
    requires forall x :: x in kept ==> x in NormalizeSteps(raw)
    ensures StepsOk(kept)
  {
    hide Trim;
    forall i | 0 <= i < |kept|
      ensures StepOk(kept[i])
    {
      assert kept[i] in NormalizeSteps(raw);
      var k :| 0 <= k < |raw| && NormalizeStep(raw[k], k) == kept[i];
      NormalizedStepOk(raw[k], k);
    }
  }

  /** The state a decision leaves: completed steps, then the kept batch. */
  function Emitted(s: ExecutionState, completed: seq<PlanStep>, kept: seq<PlanStep>, now: int): ExecutionState {
    s.(steps := completed + kept, status := Running, updatedAt := At(now))
  }

  /** A decision's plan: the completed steps, then what was kept of the batch. */
  lemma EmitWrites(s: ExecutionState, completed: seq<PlanStep>, kept: seq<PlanStep>, now: int)
    ensures var n := Emitted(s, completed, kept, now);
            && n.steps == completed + kept && n.status == Running && n.updatedAt == At(now)
            && n.(steps := s.steps, status := s.status, updatedAt := s.updatedAt) == s
  {
  }

  /** Placing what the filter keeps of a decision after the completed steps. */
  lemma PlaceKeepsInv(s: ExecutionState, normal: ExecutionState, t: Trace, n: nat, batch: seq<PlanStep>, now: int)
    requires Inv(s, t, n) && (t.plain ==> n == |s.steps|)
    requires SameShape(s.steps, normal.steps) && normal.log == s.log
    ensures var kept := Filtered(NormalizeSteps(batch), normal, now);
            var s' := Emitted(s, CompletedSteps(s.steps), kept, now);
            var t' := Decided(t, kept, s'.steps, now);
            && Inv(s', t', n) && t'.executed == t.executed
            && (t'.plain ==>
                  && t.plain && Split(s'.steps, n) && DoneCalls(s'.steps) == DoneCalls(s.steps)
                  && AtMostOneRunning(s'.steps))
  {
    hide Trim;
    var kept := Filtered(NormalizeSteps(batch), normal, now);
    FilteredSound(NormalizeSteps(batch), normal, now);
    NoneFreshSameShape(kept, s, normal, now);
    KeptStepsOk(batch, kept);
    DecideKeepsInv(s, t, n, kept, now);
  }

  /** Emitting what the filter keeps of a decision keeps the session invariant. */
  lemma EmitKeepsInv(s: ExecutionState, normal: ExecutionState, t: Trace, n: nat, batch: seq<PlanStep>, now: int)
    requires Inv(s, t, n) && (t.plain ==> n == |s.steps|)
    requires SameShape(s.steps, normal.steps) && normal.log == s.log
    ensures var kept := Filtered(NormalizeSteps(batch), normal, now);
            var s' := Emitted(s, CompletedSteps(s.steps), Titled(kept), now);
            var t' := Decided(t, kept, s'.steps, now);
            && Inv(s', t', n) && t'.executed == t.executed
            && (t'.plain ==>
                  && t.plain && Split(s'.steps, n) && DoneCalls(s'.steps) == DoneCalls(s.steps)
                  && AtMostOneRunning(s'.steps))
  {
    hide Inv, Filtered, NormalizeSteps, Titled, CompletedSteps, DoneCalls, Split, AtMostOneRunning, SameShape;
    hide DistinctIds, StepsOk;
    var kept := Filtered(NormalizeSteps(batch), normal, now);
    var completed := CompletedSteps(s.steps);
    PlaceKeepsInv(s, normal, t, n, batch, now);
    TitledShape(completed, kept);
    RetitledKeepsInv(Emitted(s, completed, kept, now), Emitted(s, completed, Titled(kept), now), t, n, kept, now);
  }

  /** An emitted plan may be retitled. */
  lemma RetitledKeepsInv(s: ExecutionState, s': ExecutionState, t: Trace, n: nat, kept: seq<PlanStep>, now: int)
    requires Inv(s, Decided(t, kept, s.steps, now), n) && s' == s.(steps := s'.steps)
    requires SameShape(s.steps, s'.steps) && DistinctIds(s.steps) == DistinctIds(s'.steps)
    requires StepsOk(s.steps) ==> StepsOk(s'.steps)
    ensures Decided(t, kept, s'.steps, now) == Decided(t, kept, s.steps, now)
    ensures Inv(s', Decided(t, kept, s'.steps, now), n) && DoneCalls(s'.steps) == DoneCalls(s.steps)
    ensures Split(s.steps, n) ==> Split(s'.steps, n)
    ensures AtMostOneRunning(s.steps) ==> AtMostOneRunning(s'.steps)
  {
    hide PlanOk, PendingApart, RepeatsApart, RunsOk, DoneCalls, Trim;
    SameShapeKeepsInv(s, s', Decided(t, kept, s.steps, now), n);
  }

  lemma GoalKeepsHead(s: ExecutionState, saved: seq<ExecutionState>, t: Trace, n: nat, goal: string)
    requires HeadState(s, saved, t, n)
    ensures HeadState(s.(goal := goal), saved, t, n)
  {
  }

  lemma AllStarted(steps: seq<PlanStep>, n: nat)
    requires Split(steps, n) && forall k :: 0 <= k < |steps| ==> !Unstarted(steps[k])
    ensures n == |steps|
  {
    assert n < |steps| ==> Unstarted(steps[n]);
  }

  /** A decision taken at a loop head leads to a loop head. */
  lemma EmitKeepsHead(s: ExecutionState, normal: ExecutionState, saved: seq<ExecutionState>, t: Trace, n: nat,
                      batch: seq<PlanStep>, now: int)
    requires HeadState(s, saved, t, n) && forall k :: 0 <= k < |s.steps| ==> !Unstarted(s.steps[k])
    requires SameShape(s.steps, normal.steps) && normal.log == s.log
    ensures var kept := Filtered(NormalizeSteps(batch), normal, now);
            var s' := Emitted(s, CompletedSteps(s.steps), Titled(kept), now);
            var t' := Decided(t, kept, s'.steps, now);
            HeadState(s', saved, t', n) && (t'.plain ==> AtMostOneRunning(s'.steps))
  {
    hide Trim;
    if t.plain {
      AllStarted(s.steps, n);
    }
    EmitKeepsInv(s, normal, t, n, batch, now);
    var kept := Filtered(NormalizeSteps(batch), normal, now);
    var s' := Emitted(s, CompletedSteps(s.steps), Titled(kept), now);
    SavedWeaken(saved, t.plain, Decided(t, kept, s'.steps, now).plain, DoneCalls(s.steps), DoneCalls(s'.steps));
  }

  function FirstState(sessionId: string, goal: string, references: Option<CurrentReferences>,
                      referenceHistory: seq<ReferenceRecord>, now: int): ExecutionState {
    NormalizeExecutionState(
      EMPTY_STATE.(sessionId := sessionId, goal := goal, status := Running, references := references,
                   referenceHistory := referenceHistory), now)
  }

  lemma FirstStateInv(sessionId: string, goal: string, references: Option<CurrentReferences>,
                      referenceHistory: seq<ReferenceRecord>, now: int)
    ensures var s := FirstState(sessionId, goal, references, referenceHistory, now);
            s.steps == [] && s.status.Running? && s.waiting.None? && Inv(s, EMPTY_TRACE, 0)
  {
    hide Trim, NormalizeCurrentReferences, NormalizeReferenceHistory;
    var os: seq<Observation> := [];
    assert os + os == os;
  }

  /** A new session has nothing logged, planned or executed. */
  lemma FirstStateHead(sessionId: string, goal: string, references: Option<CurrentReferences>,
                       referenceHistory: seq<ReferenceRecord>, now: int)
    ensures var s := FirstState(sessionId, goal, references, referenceHistory, now);
            s.steps == [] && s.status.Running? && HeadState(s, [s], EMPTY_TRACE, 0)
  {
    hide Trim, FirstState, Inv;
    FirstStateInv(sessionId, goal, references, referenceHistory, now);
    assert CompletedSteps([]) == [];
  }

  // -------------------------------------------------------- one step of a plan

  /** Step `i` is being executed; in a plain session it is the first unfinished one. */
  predicate InHand(s: ExecutionState, saved: seq<ExecutionState>, t: Trace, n: nat, i: nat) {
    && SoundState(s, saved, t, n) && s.waiting.None? && !s.status.WaitingUser?
    && i < |s.steps| && (t.plain ==> i == n)
  }

  function Started(s: ExecutionState, i: nat, now: int): ExecutionState
    requires i < |s.steps|
  {
    SetStep(s, i, s.steps[i].(status := StepRunning)).(status := Running, currentStepId := s.steps[i].id,
                                                       updatedAt := At(now))
  }

  function Logged(s: ExecutionState, i: nat, output: string, obs: Observation, now: int): ExecutionState
    requires i < |s.steps|
  {
    AppendExecutionLog(Complete(s, i, output), obs, now)
  }

  /** buildWaitingState and the pause of an ask_user step. */
  function Asked(s: ExecutionState, i: nat, question: string, intent: string, fields: seq<string>, target: string,
                 now: int): ExecutionState
    requires i < |s.steps|
  {
    Complete(s, i, question).(
      status := WaitingUser,
      waiting := NormalizeWaiting(Some(WaitingState(Trim(question), intent, fields, target, At(now))), now),
      finalAnswer := question, updatedAt := At(now))
  }

  function Responded(s: ExecutionState, i: nat, text: string, now: int): ExecutionState
    requires i < |s.steps|
  {
    Complete(s, i, text).(status := Completed, waiting := None, finalAnswer := text, currentStepId := "",
                          updatedAt := At(now))
  }

  function StepFailedState(s: ExecutionState, i: nat, error: string): ExecutionState
    requires i < |s.steps|
  {
    SetStep(s, i, s.steps[i].(status := StepFailed, error := error)).(status := Failed, lastError := error)
  }

  function RunTrace(t: Trace, call: Call, obs: Observation, now: int): Trace {
    t.(executed := t.executed + [call], history := t.history + Contribution(obs, now),
       runs := t.runs + [ToolRun(call, |t.history|, now, |t.decisions| - 1)])
  }

  /** Starting puts exactly step `i` in hand and names it as the current one of a running session. */
  lemma StartWrites(s: ExecutionState, i: nat, j: nat, now: int)
    requires i < |s.steps| && j < |s.steps|
    ensures var n := Started(s, i, now);
            && n.status == Running && n.currentStepId == s.steps[i].id && n.updatedAt == At(now)
            && n.steps[j] == (if j == i then s.steps[j].(status := StepRunning) else s.steps[j])
            && n.(status := s.status, currentStepId := s.currentStepId, updatedAt := s.updatedAt, steps := s.steps) == s
  {
  }

  /** Finishing completes exactly step `i`, with this output. */
  lemma CompleteWrites(s: ExecutionState, i: nat, j: nat, output: string)
    requires i < |s.steps| && j < |s.steps|
    ensures var n := Complete(s, i, output);
            && n.steps[j] == (if j == i then s.steps[j].(status := StepCompleted, outputSummary := output)
                              else s.steps[j])
            && n.(steps := s.steps) == s
  {
  }

  /** Logging completes the step and appends the entry, in normal form. */
  lemma LogWrites(s: ExecutionState, i: nat, output: string, obs: Observation, now: int)
    requires i < |s.steps|
    ensures Logged(s, i, output, obs, now) ==
            NormalizeExecutionState(Complete(s, i, output).(log := s.log + [obs]), now)
  {
  }

  /** Asking waits for the answer: question, intent, cleaned fields and target as given. */
  lemma AskWrites(s: ExecutionState, i: nat, question: string, intent: string, fields: seq<string>, target: string,
                  now: int)
    requires i < |s.steps| && Trim(question) != ""
    ensures var n := Asked(s, i, question, intent, fields, target, now);
            && n.status == WaitingUser && n.finalAnswer == question && n.updatedAt == At(now)
            && n.steps == Complete(s, i, question).steps
            && n.waiting ==
               Some(WaitingState(Trim(question), Trim(intent), Clean(fields), Trim(target), At(now)))
  {
    hide Trim, Clean;
    TrimLaws(question);
  }

  /** Responding completes the session with its answer and nothing in hand. */
  lemma RespondWrites(s: ExecutionState, i: nat, text: string, now: int)
    requires i < |s.steps|
    ensures var n := Responded(s, i, text, now);
            && n.status == Completed && n.waiting == None && n.finalAnswer == text && n.currentStepId == ""
            && n.updatedAt == At(now) && n.steps == Complete(s, i, text).steps && n.log == s.log && n.goal == s.goal
  {
  }

  /** A failed step fails the session with its error. */
  lemma FailWrites(s: ExecutionState, i: nat, j: nat, error: string)
    requires i < |s.steps| && j < |s.steps|
    ensures var n := StepFailedState(s, i, error);
            && n.status == Failed && n.lastError == error
            && n.steps[j] == (if j == i then s.steps[j].(status := StepFailed, error := error) else s.steps[j])
            && n.(status := s.status, lastError := s.lastError, steps := s.steps) == s
  {
  }

  lemma PlainExecuted(s: ExecutionState, t: Trace, n: nat)
    requires Inv(s, t, n) && t.plain
    ensures DoneCalls(s.steps) == t.executed
  {
    DoneOfAround(s.steps, n);
  }

  /** Taking the first unstarted step of a loop head in hand. */
  lemma StartKeeps(s: ExecutionState, saved: seq<ExecutionState>, t: Trace, n: nat, i: nat, now: int)
    requires HeadState(s, saved, t, n) && i < |s.steps| && Unstarted(s.steps[i])
    requires forall k :: 0 <= k < i ==> !Unstarted(s.steps[k])
    ensures var t' := t.(starts := t.starts + 1);
            InHand(Started(s, i, now), saved, t', n, i) && (t.plain ==> AtMostOneRunning(Started(s, i, now).steps))
  {
    hide Trim;
    var t' := t.(starts := t.starts + 1);
    var s', touched := Started(s, i, now), SetStep(s, i, s.steps[i].(status := StepRunning));
    if t.plain {
      FirstUnstarted(s.steps, n, i);
    }
    TouchKeepsInv(s, t, n, i, s.steps[i].(status := StepRunning));
    InvFrame(touched, s', t, t', n);
    if t.plain {
      AroundRunsOne(s'.steps, n);
    }
  }

  lemma FirstUnstarted(steps: seq<PlanStep>, n: nat, i: nat)
    requires Split(steps, n) && i < |steps| && Unstarted(steps[i]) && forall k :: 0 <= k < i ==> !Unstarted(steps[k])
    ensures i == n
  {
    assert n < |steps| ==> Unstarted(steps[n]);
  }

  /** The invariant ignores everything but the log tiers, the steps and the traced lists. */
  lemma InvFrame(s: ExecutionState, s': ExecutionState, t: Trace, t': Trace, n: nat)
    requires Inv(s, t, n) && t' == t.(starts := t'.starts)
    requires s'.log == s.log && s'.notes == s.notes && s'.observations == s.observations && s'.steps == s.steps
    ensures Inv(s', t', n)
  {
    RunsStayOk(t, t');
    ApartFrame(t, t', s.steps, n);
  }

  /** Saving between start and execution keeps the step in hand. */
  lemma InHandFrame(s: ExecutionState, s': ExecutionState, saved: seq<ExecutionState>, saved': seq<ExecutionState>,
                    t: Trace, n: nat, i: nat)
    requires InHand(s, saved, t, n, i) && SoundState(s', saved', t, n) && SameShape(s.steps, s'.steps)
    requires s'.waiting.None? && !s'.status.WaitingUser?
    ensures InHand(s', saved', t, n, i) && CallOf(s'.steps[i]) == CallOf(s.steps[i])
  {
  }

  lemma ToolKeepsHead(s: ExecutionState, saved: seq<ExecutionState>, t: Trace, n: nat, i: nat, summary: string,
                      raw: string, now: int)
    requires InHand(s, saved, t, n, i) && s.steps[i].kind.Tool?
    ensures var call := CallOf(s.steps[i]);
            var obs := ToolResult(call.id, summary, raw, now);
            HeadState(Logged(s, i, summary, obs, now), saved, RunTrace(t, call, obs, now), n + 1)
  {
    hide Trim;
    ToolKeepsInv(s, t, n, i, summary, raw, now);
    if t.plain {
      PlainExecuted(s, t, n);
    }
    var call := CallOf(s.steps[i]);
    var s' := Logged(s, i, summary, ToolResult(call.id, summary, raw, now), now);
    SavedWeaken(saved, t.plain, t.plain, DoneCalls(s.steps), DoneCalls(s'.steps));
  }

  lemma ReasonKeepsHead(s: ExecutionState, saved: seq<ExecutionState>, t: Trace, n: nat, i: nat, output: string,
                        obs: Observation, now: int)
    requires InHand(s, saved, t, n, i)
    ensures var t' := t.(executed := t.executed + [CallOf(s.steps[i])], history := t.history + Contribution(obs, now));
            HeadState(Logged(s, i, output, obs, now), saved, t', n + 1)
  {
    hide Trim;
    LogKeepsInv(s, t, n, i, output, obs, now);
    if t.plain {
      PlainExecuted(s, t, n);
    }
    SavedWeaken(saved, t.plain, t.plain, DoneCalls(s.steps), DoneCalls(Logged(s, i, output, obs, now).steps));
  }

  /** Completing without logging: the two terminal step kinds. */
  lemma FinishKeeps(s: ExecutionState, saved: seq<ExecutionState>, t: Trace, n: nat, i: nat, output: string)
    requires InHand(s, saved, t, n, i)
    ensures var s', t' := Complete(s, i, output), t.(executed := t.executed + [CallOf(s.steps[i])]);
            && Inv(s', t', n + 1) && SavedOk(saved, t'.plain)
            && (t'.plain ==> AllWithin(saved, DoneCalls(s'.steps)) && AtMostOneRunning(s'.steps))
  {
    CompleteKeepsInv(s, t, n, i, output);
    if t.plain {
      PlainExecuted(s, t, n);
      AroundRunsOne(Complete(s, i, output).steps, n + 1);
    }
    SavedWeaken(saved, t.plain, t.plain, DoneCalls(s.steps), DoneCalls(Complete(s, i, output).steps));
  }

  lemma AskKeeps(s: ExecutionState, saved: seq<ExecutionState>, t: Trace, n: nat, i: nat,
                 question: string, intent: string, fields: seq<string>, target: string, now: int)
    requires InHand(s, saved, t, n, i) && question != "" && Trim(question) == question
    ensures var s', t' :=
              Asked(s, i, question, intent, fields, target, now), t.(executed := t.executed + [CallOf(s.steps[i])]);
            && SoundState(s', saved, t', n + 1) && s'.status.WaitingUser? && s'.waiting.Some?
            && (t'.plain ==> AtMostOneRunning(s'.steps))
  {
    hide Trim;
    FinishKeeps(s, saved, t, n, i, question);
    CleanIsClean(fields);
  }

  lemma RespondKeeps(s: ExecutionState, saved: seq<ExecutionState>, t: Trace, n: nat, i: nat, text: string, now: int)
    requires InHand(s, saved, t, n, i)
    ensures var s', t' := Responded(s, i, text, now), t.(executed := t.executed + [CallOf(s.steps[i])]);
            && SoundState(s', saved, t', n + 1) && !s'.status.WaitingUser?
            && (t'.plain ==> AtMostOneRunning(s'.steps))
  {
    hide Trim;
    FinishKeeps(s, saved, t, n, i, text);
  }

  lemma FailKeeps(s: ExecutionState, saved: seq<ExecutionState>, t: Trace, n: nat, i: nat, error: string)
    requires InHand(s, saved, t, n, i)
    ensures var s' := StepFailedState(s, i, error);
            SoundState(s', saved, t, n) && !s'.status.WaitingUser? && (t.plain ==> AtMostOneRunning(s'.steps))
  {
    hide Trim;
    TouchKeepsInv(s, t, n, i, s.steps[i].(status := StepFailed, error := error));
    if t.plain {
      AroundRunsOne(StepFailedState(s, i, error).steps, n);
    }
  }

  /** What a tool result may change besides the log. */
  lemma ReferencesKeepHead(s: ExecutionState, saved: seq<ExecutionState>, t: Trace, n: nat,
                           references: Option<CurrentReferences>, history: seq<ReferenceRecord>, now: int)
    requires HeadState(s, saved, t, n)
    ensures HeadState(s.(references := references, referenceHistory := history, updatedAt := At(now)), saved, t, n)
    ensures t.plain ==> AtMostOneRunning(s.steps)
  {
    if t.plain {
      AroundRunsOne(s.steps, n);
    }
  }

  lemma RunsSoundly(s: ExecutionState, t: Trace, n: nat)
    requires Inv(s, t, n)
    ensures t.plain && t.unique ==> RepeatsApart(t)
  {
  }

  lemma HeadIsValid(s: ExecutionState, saved: seq<ExecutionState>, t: Trace, n: nat)
    requires HeadState(s, saved, t, n)
    ensures SoundState(s, saved, t, n) && Inv(s, t, n) && s.waiting.None? && !s.status.WaitingUser?
    ensures SavedOk(saved, t.plain) && (t.plain && t.unique ==> RepeatsApart(t))
    ensures t.plain ==> AtMostOneRunning(s.steps)
  {
    RunsSoundly(s, t, n);
    if t.plain {
      AroundRunsOne(s.steps, n);
    }
  }

  // ---------------------------------------------------------- between two runs

  /** The log entry of a reply: it quotes the question it answers. */
  function ReplyEntry(s: ExecutionState, reply: string, now: int): Observation {
    var question := if s.waiting.Some? then s.waiting.value.question else "";
    var summary := if question == "" then Trim(reply)
      else "Answer to previous question [" + question + "]: " + Trim(reply);
    Observation("", "user_reply", summary, "", At(now))
  }

  /** A reply is logged trimmed, after the question it answers if one is waiting. */
  lemma ReplyQuotes(s: ExecutionState, reply: string, now: int)
    ensures var entry := ReplyEntry(s, reply, now);
            && entry.kind == "user_reply" && entry.stepId == "" && entry.rawJson == "" && entry.createdAt == At(now)
            && (s.waiting.None? || s.waiting.value.question == "" ==> entry.summary == Trim(reply))
            && (s.waiting.Some? && s.waiting.value.question != "" ==>
                  entry.summary ==
                  "Answer to previous question [" + s.waiting.value.question + "]: " + Trim(reply))
  {
  }

  /** prepareExecutionState on a waiting session: log the reply, drop the unfinished steps. */
  function Resumed(s: ExecutionState, reply: string, references: Option<CurrentReferences>,
                   history: seq<ReferenceRecord>,
                   snapshots: seq<Observation>, now: int): ExecutionState {
    var a :=
      AppendExecutionLog(s.(references := references, referenceHistory := history), ReplyEntry(s, reply, now), now);
    a.(status := Running, waiting := None, finalAnswer := "", lastError := "", snapshots := snapshots,
       steps := CompletedSteps(a.steps), currentStepId := "", updatedAt := At(now))
  }

  /** A resume logs the reply, ends the wait and leaves the completed steps of a running session. */
  lemma ResumeWrites(s: ExecutionState, reply: string, references: Option<CurrentReferences>,
                     history: seq<ReferenceRecord>, snapshots: seq<Observation>, now: int)
    ensures var n := Resumed(s, reply, references, history, snapshots, now);
            var logged := NormalizeExecutionState(
                            s.(references := references, referenceHistory := history,
                               log := s.log + [ReplyEntry(s, reply, now)]), now);
            && n.status == Running && n.waiting == None && n.finalAnswer == "" && n.lastError == ""
            && n.currentStepId == "" && n.updatedAt == At(now) && n.snapshots == snapshots
            && n.steps == CompletedSteps(logged.steps) && n.log == logged.log && n.notes == logged.notes
            && n.references == logged.references && n.goal == logged.goal
  {
  }

  /** A resume leads to a loop head with the same completed calls. */
  lemma ResumeKeepsHead(s: ExecutionState, saved: seq<ExecutionState>, t: Trace, n: nat, reply: string,
                        references: Option<CurrentReferences>, history: seq<ReferenceRecord>,
                        snapshots: seq<Observation>, now: int)
    requires SoundState(s, saved, t, n)
    ensures var s' := Resumed(s, reply, references, history, snapshots, now);
            var t' := t.(history := t.history + Contribution(ReplyEntry(s, reply, now), now));
            HeadState(s', saved, t', n) && (t.plain ==> AtMostOneRunning(s'.steps))
  {
    hide Trim, AppendExecutionLog, Contribution, ReplyEntry;
    var obs := ReplyEntry(s, reply, now);
    var t' := t.(history := t.history + Contribution(obs, now));
    var r := s.(references := references, referenceHistory := history);
    InvFrame(s, r, t, t, n);
    AppendKeepsInv(r, t, n, obs, now);
    var a := AppendExecutionLog(r, obs, now);
    ResumeKeepsInv(a, t', n);
    var s' := Resumed(s, reply, references, history, snapshots, now);
    InvFrame(a.(steps := CompletedSteps(a.steps)), s', t', t', n);
    if t.plain {
      PlainExecuted(s', t', n);
      AroundRunsOne(s'.steps, n);
    }
    SavedWeaken(saved, t.plain, t.plain, DoneCalls(s.steps), DoneCalls(s'.steps));
  }

  /** `fields` without the supplied keys. */
  function Without(fields: seq<string>, keys: set<string>): (r: seq<string>)
    ensures forall x :: x in r <==> x in fields && x !in keys
  {
    if fields == [] then []
    else
      var front := Without(fields[..|fields| - 1], keys);
      assert fields == fields[..|fields| - 1] + [fields[|fields| - 1]];
      if fields[|fields| - 1] in keys then front else front + [fields[|fields| - 1]]
  }

  lemma {:induction false} WithoutClean(fields: seq<string>, keys: set<string>)
    requires IsClean(fields)
    ensures IsClean(Without(fields, keys))
  {
    hide Trimmed, Lower;
    if fields != [] {
      var front := fields[..|fields| - 1];
      WithoutClean(front, keys);
      var out := Without(front, keys);
      forall i | 0 <= i < |out|
        ensures Lower(out[i]) != Lower(fields[|fields| - 1])
      {
        assert out[i] in front;
        var k :| 0 <= k < |front| && front[k] == out[i];
      }
    }
  }

  /** The filter loop of applyExecutionStateExtraction. */
  method RemainingFields(pending: seq<string>, supplied: map<string, string>) returns (remaining: seq<string>)
    ensures remaining == Without(pending, supplied.Keys)
  {
    remaining := [];
    for i := 0 to |pending|
      invariant remaining == Without(pending[..i], supplied.Keys)
    {
      assert pending[..i + 1][..i] == pending[..i];
      if pending[i] in supplied {
        continue;
      }
      remaining := remaining + [pending[i]];
    }
    assert pending[..|pending|] == pending;
  }

  /** applyExecutionStateExtraction with the observation it logs. */
  function Extracted(s: ExecutionState, supplied: map<string, string>, obs: Observation, now: int): ExecutionState {
    var a := AppendExecutionLog(s, obs, now);
    if a.waiting.Some? && a.waiting.value.pendingFields != [] && supplied != map[] then
      a.(waiting :=
           Some(a.waiting.value.(pendingFields := Clean(Without(a.waiting.value.pendingFields, supplied.Keys)))))
    else a
  }

  /** Extraction keeps a waiting session waiting on the same question and removes exactly the supplied fields. */
  lemma ExtractionExact(s: ExecutionState, supplied: map<string, string>, obs: Observation, now: int)
    requires WaitingAgrees(s) && s.waiting.Some?
    ensures var s' := Extracted(s, supplied, obs, now);
            && WaitingAgrees(s') && s'.waiting.Some? && s'.finalAnswer == s.finalAnswer
            && s'.waiting.value.pendingFields == Without(s.waiting.value.pendingFields, supplied.Keys)
  {
    hide Trim, IsClean, Without;
    NormalizeKeepsWaiting(s.(log := s.log + [obs]), now);
    var fields := s.waiting.value.pendingFields;
    WithoutClean(fields, supplied.Keys);
    CleanFixed(Without(fields, supplied.Keys));
    if supplied == map[] || fields == [] {
      NothingRemoved(fields, supplied.Keys);
    }
  }

  lemma {:induction false} NothingRemoved(fields: seq<string>, keys: set<string>)
    requires keys == {} || fields == []
    ensures Without(fields, keys) == fields
  {
    if fields != [] {
      NothingRemoved(fields[..|fields| - 1], keys);
    }
  }

  lemma ExtractionKeeps(s: ExecutionState, saved: seq<ExecutionState>, t: Trace, n: nat, supplied: map<string, string>,
                        obs: Observation, now: int)
    requires SoundState(s, saved, t, n) && s.waiting.Some?
    ensures var s' := Extracted(s, supplied, obs, now);
            SoundState(s', saved, t.(history := t.history + Contribution(obs, now)), n)
            && (t.plain ==> AtMostOneRunning(s'.steps))
  {
    hide Trim, AppendExecutionLog, Contribution, WaitingAgrees;
    var t' := t.(history := t.history + Contribution(obs, now));
    AppendKeepsInv(s, t, n, obs, now);
    ExtractionExact(s, supplied, obs, now);
    var a, s' := AppendExecutionLog(s, obs, now), Extracted(s, supplied, obs, now);
    InvFrame(a, s', t', t', n);
    if t.plain {
      AroundRunsOne(s'.steps, n);
    }
    SavedWeaken(saved, t.plain, t.plain, DoneCalls(s.steps), DoneCalls(s'.steps));
  }

  // ------------------------------------------------------- the AI-error fallback

  /** A tool step has completed. */
  predicate SomeToolDone(steps: seq<PlanStep>) {
    exists i :: 0 <= i < |steps| && steps[i].status.StepCompleted? && steps[i].kind.Tool?
  }

  function FallbackStep(step: PlanStep, current: string, answer: string): PlanStep {
    if step.id == current || (step.status.StepRunning? && step.kind.Respond?) then
      step.(status := StepCompleted, outputSummary := answer, error := "")
    else step
  }

  function FallbackSteps(steps: seq<PlanStep>, current: string, answer: string): (r: seq<PlanStep>)
    ensures |r| == |steps| && forall i :: 0 <= i < |steps| ==> r[i] == FallbackStep(steps[i], current, answer)
  {
    seq(|steps|, i requires 0 <= i < |steps| => FallbackStep(steps[i], current, answer))
  }

  /** tryExecutionSummaryFallbackOnAIError, once it has an answer. */
  function FellBack(s: ExecutionState, answer: string, error: string, now: int): ExecutionState {
    AppendExecutionLog(
      s.(status := Completed, waiting := None, finalAnswer := answer, lastError := Trim(error), updatedAt := At(now),
         steps := FallbackSteps(s.steps, s.currentStepId, answer), currentStepId := ""),
      Observation("", "respond_fallback", answer, error, At(now)), now)
  }

  /** The fallback marks done the current step and any response in hand, and answers. */
  lemma FallbackWrites(s: ExecutionState, answer: string, error: string, now: int, i: nat)
    requires i < |s.steps|
    ensures var given := s.(status := Completed, waiting := None, finalAnswer := answer, lastError := Trim(error),
                            updatedAt := At(now), steps := FallbackSteps(s.steps, s.currentStepId, answer),
                            currentStepId := "",
                            log := s.log + [Observation("", "respond_fallback", answer, error, At(now))]);
            FellBack(s, answer, error, now) == NormalizeExecutionState(given, now)
    ensures var step := s.steps[i];
            FallbackSteps(s.steps, s.currentStepId, answer)[i] ==
            if step.id == s.currentStepId || (step.status == StepRunning && step.kind == Respond)
            then step.(status := StepCompleted, outputSummary := answer, error := "")
            else step
  {
  }

  lemma {:induction false} CompletedConcat(a: seq<PlanStep>, b: seq<PlanStep>)
    ensures CompletedSteps(a + b) == CompletedSteps(a) + CompletedSteps(b)
    decreases |b|
  {
    if b == [] {
      assert a + b == a;
    } else {
      assert (a + b)[..|a + b| - 1] == a + b[..|b| - 1];
      CompletedConcat(a, b[..|b| - 1]);
    }
  }

  lemma {:induction false} CompletedPrefix(a: seq<PlanStep>, b: seq<PlanStep>)
    requires CompletedSteps(a) == a
    ensures CallsOf(a) <= DoneCalls(a + b)
  {
    CompletedConcat(a, b);
    CallsPrefix(a, CompletedSteps(b));
  }

  /** On completed steps the fallback changes outputs only. */
  lemma FallbackDone(steps: seq<PlanStep>, current: string, answer: string)
    requires forall i :: 0 <= i < |steps| ==> steps[i].status.StepCompleted?
    ensures var after := FallbackSteps(steps, current, answer);
            CompletedSteps(after) == after && CallsOf(after) == CallsOf(steps)
  {
    var after := FallbackSteps(steps, current, answer);
    CompletedOfAround(after, |after|);
    assert after[..|after|] == after;
  }

  /** Whatever the fallback marks done lies after the completed prefix. */
  lemma FallbackExtends(steps: seq<PlanStep>, n: nat, current: string, answer: string)
    requires Around(steps, n)
    ensures DoneCalls(steps) <= DoneCalls(FallbackSteps(steps, current, answer))
  {
    var head := FallbackSteps(steps[..n], current, answer);
    var rest := FallbackSteps(steps[n..], current, answer);
    assert FallbackSteps(steps, current, answer) == head + rest;
    CompletedOfAround(steps, n);
    FallbackDone(steps[..n], current, answer);
    CompletedPrefix(head, rest);
  }

  lemma FallbackRunsOne(steps: seq<PlanStep>, n: nat, current: string, answer: string)
    requires Around(steps, n)
    ensures AtMostOneRunning(FallbackSteps(steps, current, answer))
  {
  }

  lemma FallbackKeeps(s: ExecutionState, saved: seq<ExecutionState>, t: Trace, n: nat, answer: string, error: string,
                      now: int)
    requires SoundState(s, saved, t, n)
    ensures var s' := NormalizeExecutionState(FellBack(s, answer, error, now), now);
            && s'.status.Completed? && SavedOk(saved + [s'], t.plain)
            && (t.plain ==> DoneCalls(s.steps) <= DoneCalls(s'.steps))
  {
    hide Trim;
    var flipped := FallbackSteps(s.steps, s.currentStepId, answer);
    assert StepsOk(flipped) by {
      assert forall i :: 0 <= i < |flipped| ==> StepOk(s.steps[i]);
    }
    NormalizeKeepsShape(flipped);
    NormalizeKeepsShape(NormalizeSteps(flipped));
    DoneOfSameShape(flipped, NormalizeSteps(flipped));
    DoneOfSameShape(NormalizeSteps(flipped), NormalizeSteps(NormalizeSteps(flipped)));
    var s' := NormalizeExecutionState(FellBack(s, answer, error, now), now);
    assert s'.steps == NormalizeSteps(NormalizeSteps(flipped));
    if t.plain {
      FallbackExtends(s.steps, n, s.currentStepId, answer);
      FallbackRunsOne(s.steps, n, s.currentStepId, answer);
    }
    SaveOneMore(saved, s', t.plain);
  }

  /** The question of an ask_user step: its instruction, or the default one. */
  method QuestionOf(step: PlanStep, default: Question) returns (question: string)
    ensures question != "" && Trim(question) == question
    ensures question == if Trim(step.instruction) == "" then default else Trim(step.instruction)
  {
    hide Trim;
    question := Trim(step.instruction);
    TrimLaws(step.instruction);
    if question == "" {
      question := default;
      TrimLaws(default);
    }
  }

  lemma InHandIs(s: ExecutionState, saved: seq<ExecutionState>, t: Trace, n: nat, i: nat)
    requires InHand(s, saved, t, n, i)
    ensures SoundState(s, saved, t, n) && Inv(s, t, n) && s.waiting.None? && !s.status.WaitingUser? && i < |s.steps|
    ensures SavedOk(saved, t.plain) && (t.plain && t.unique ==> RepeatsApart(t))
  {
    RunsSoundly(s, t, n);
  }

  /** The saved state after an extraction. */
  lemma ExtractionSaved(s: ExecutionState, saved: seq<ExecutionState>, t: Trace, n: nat, supplied: map<string, string>,
                        obs: Observation, now: int)
    requires SoundState(s, saved, t, n) && s.waiting.Some?
    ensures var s' := NormalizeExecutionState(Extracted(s, supplied, obs, now), now);
            && SoundState(s', saved + [s'], t.(history := t.history + Contribution(obs, now)), n)
            && s'.waiting.Some? && s'.status.WaitingUser? && s'.finalAnswer == s.finalAnswer
            && s'.waiting.value.pendingFields == Without(s.waiting.value.pendingFields, supplied.Keys)
  {
    hide Inv, Extracted, Contribution, SavedOk, AllWithin, OnlyExtends, AtMostOneRunning, SameShape, Trim;
    hide NormalizeExecutionState, Without;
    var next := Extracted(s, supplied, obs, now);
    ExtractionKeeps(s, saved, t, n, supplied, obs, now);
    ExtractionExact(s, supplied, obs, now);
    SaveKeeps(next, saved, t.(history := t.history + Contribution(obs, now)), n, now);
    NormalizeKeepsWaiting(next, now);
    NormalizeKeepsAnswer(next, now);
  }

  lemma LoggedStep(s: ExecutionState, i: nat, output: string, obs: Observation, now: int)
    requires i < |s.steps|
    ensures var n := Logged(s, i, output, obs, now);
            |n.steps| == |s.steps| && n.steps[i].status.StepCompleted? && Trim(n.steps[i].outputSummary) == Trim(output)
  {
    hide Trim, NormalizeObservations, NormalizeReferenceHistory, NormalizeCurrentReferences, NormalizeWaiting;
    TrimLaws(output);
  }

  lemma FailedStep(s: ExecutionState, i: nat, error: string)
    requires i < |s.steps|
    ensures var n := StepFailedState(s, i, error);
            |n.steps| == |s.steps| && n.steps[i].status.StepFailed? && n.status.Failed?
  {
  }

  lemma RespondedStep(s: ExecutionState, i: nat, text: string, now: int)
    requires i < |s.steps|
    ensures var n := Responded(s, i, text, now);
            && |n.steps| == |s.steps| && n.steps[i].status.StepCompleted? && n.steps[i].outputSummary == text
            && n.status.Completed? && n.finalAnswer == text && n.waiting.None?
  {
  }

  /** A step as a save leaves it. */
  lemma SavedStep(s: ExecutionState, now: int, i: nat)
    requires i < |s.steps|
    ensures var n := NormalizeExecutionState(s, now);
            && |n.steps| == |s.steps| && n.steps[i] == NormalizeStep(s.steps[i], i)
            && (s.status.NoStatus? || n.status == s.status) && n.finalAnswer == Trim(s.finalAnswer)
            && n.lastError == Trim(s.lastError) && (s.waiting.None? ==> n.waiting.None?)
  {
    hide Trim, NormalizeObservations, NormalizeReferenceHistory, NormalizeCurrentReferences;
  }

  /** The log shows the end of the history. */
  lemma LogShows(s: ExecutionState, saved: seq<ExecutionState>, t: Trace, n: nat)
    requires HeadState(s, saved, t, n)
    ensures s.log == Last(LOG_MAX, t.history)
  {
    hide PlanOk, PendingApart, RepeatsApart, RunsOk, SavedOk, AllWithin, WaitingAgrees, Split;
  }

  lemma SoundIsValid(s: ExecutionState, saved: seq<ExecutionState>, t: Trace, n: nat)
    requires SoundState(s, saved, t, n)
    ensures Inv(s, t, n) && WaitingAgrees(s)
    ensures SavedOk(saved, t.plain) && (t.plain && t.unique ==> RepeatsApart(t))
  {
    RunsSoundly(s, t, n);
  }

  lemma WaitingHas(s: ExecutionState)
    requires WaitingAgrees(s)
    ensures s.status.WaitingUser? <==> s.waiting.Some?
    ensures s.waiting.Some? ==> s.waiting.value.question == s.finalAnswer
  {
  }

  lemma NormalizeKeepsAnswer(s: ExecutionState, now: int)
    requires WaitingAgrees(s) && s.waiting.Some?
    ensures NormalizeExecutionState(s, now).finalAnswer == s.finalAnswer
  {
  }

  /** The flags and the lists of a trace only move one way. */
  predicate TraceGrows(t: Trace, t': Trace) {
    && t.history <= t'.history && t.runs <= t'.runs && t.decisions <= t'.decisions && t.executed <= t'.executed
    && t.starts <= t'.starts && (t'.plain ==> t.plain) && (t'.unique ==> t.unique)
  }
}
