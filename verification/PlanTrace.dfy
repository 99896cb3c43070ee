/** What a planning session has done, and the invariants every step of the executor keeps. */
module PlanTrace {
  import opened Seqs
  import opened Text
  import opened Records
  import opened Execution
  import opened Freshness

  /** The part of a step that execution never changes. */
  datatype Call = Call(id: string, kind: StepKind, toolName: string, toolArgs: string)

  function CallOf(step: PlanStep): Call {
    Call(step.id, step.kind, step.toolName, step.toolArgs)
  }

  function CallsOf(steps: seq<PlanStep>): (r: seq<Call>)
    ensures |r| == |steps| && forall i :: 0 <= i < |steps| ==> r[i] == CallOf(steps[i])
  {
    seq(|steps|, i requires 0 <= i < |steps| => CallOf(steps[i]))
  }

  function CallSignature(c: Call): string {
    Trim(c.toolName) + "|" + c.toolArgs
  }

  /** completedSteps as a function. */
  function CompletedSteps(steps: seq<PlanStep>): (r: seq<PlanStep>)
    ensures |r| <= |steps|
    ensures forall x :: x in r ==> x in steps && x.status.StepCompleted?
  {
    if steps == [] then []
    else
      var front := CompletedSteps(steps[..|steps| - 1]);
      if steps[|steps| - 1].status.StepCompleted? then front + [steps[|steps| - 1]] else front
  }

  /** The calls the session has completed, in order. */
  function DoneCalls(steps: seq<PlanStep>): seq<Call> {
    CallsOf(CompletedSteps(steps))
  }

  /** A tool execution: its call, where its result sits in the full history, when it was
      recorded, and the decision that emitted the step. */
  datatype ToolRun = ToolRun(call: Call, obs: nat, at: int, batch: int)

  /** A planner decision: its time and how many observations existed before it. */
  datatype Decision = Decision(at: int, seen: nat)

  /** `plain`: every accepted batch came with blank or pending statuses.
      `unique`: every accepted batch kept step ids distinct. */
  datatype Trace = Trace(
    history: seq<Observation>,
    runs: seq<ToolRun>,
    decisions: seq<Decision>,
    executed: seq<Call>,
    starts: nat,
    plain: bool,
    unique: bool)

  /** The trace after a decision emitted `kept`, which makes the plan `steps`. */
  function Decided(t: Trace, kept: seq<PlanStep>, steps: seq<PlanStep>, now: int): Trace {
    t.(decisions := t.decisions + [Decision(now, |t.history|)],
       plain := t.plain && forall i :: 0 <= i < |kept| ==> kept[i].status.StepPending?,
       unique := t.unique && DistinctIds(steps))
  }

  const EMPTY_TRACE := Trace([], [], [], [], 0, true, true)

  // ------------------------------------------------------------- step shapes

  /** A completed prefix of length `n` followed by pending steps only. */
  predicate Split(steps: seq<PlanStep>, n: nat) {
    && n <= |steps|
    && (forall i :: 0 <= i < n ==> steps[i].status.StepCompleted?)
    && (forall i :: n <= i < |steps| ==> steps[i].status.StepPending?)
  }

  /** As `Split`, but step `n` may be in any unfinished status. */
  predicate Around(steps: seq<PlanStep>, n: nat) {
    && n <= |steps|
    && (forall i :: 0 <= i < n ==> steps[i].status.StepCompleted?)
    && (n < |steps| ==> !steps[n].status.StepCompleted?)
    && (forall i :: n < i < |steps| ==> steps[i].status.StepPending?)
  }

  predicate AtMostOneRunning(steps: seq<PlanStep>) {
    forall i, j ::
      0 <= i < |steps| && 0 <= j < |steps| && steps[i].status.StepRunning? && steps[j].status.StepRunning? ==> i == j
  }

  predicate DistinctIds(steps: seq<PlanStep>) {
    forall i, j :: 0 <= i < j < |steps| ==> steps[i].id != steps[j].id
  }

  /** Id and tool name are in normal form and the step has a status. */
  predicate StepOk(step: PlanStep) {
    && step.id != "" && Trim(step.id) == step.id && Trim(step.toolName) == step.toolName
    && !step.status.NoStepStatus?
  }

  predicate StepsOk(steps: seq<PlanStep>) {
    forall i :: 0 <= i < |steps| ==> StepOk(steps[i])
  }

  lemma {:induction false} CompletedOfAround(steps: seq<PlanStep>, n: nat)
    requires n <= |steps| && (forall i :: 0 <= i < n ==> steps[i].status.StepCompleted?)
    requires forall i :: n <= i < |steps| ==> !steps[i].status.StepCompleted?
    ensures CompletedSteps(steps) == steps[..n]
  {
    if steps != [] {
      var front, last := steps[..|steps| - 1], steps[|steps| - 1];
      var m := if n == |steps| then n - 1 else n;
      CompletedOfAround(front, m);
      assert steps[..n] == front[..m] + if last.status.StepCompleted? then [last] else [];
    }
  }

  lemma DoneOfAround(steps: seq<PlanStep>, n: nat)
    requires Around(steps, n)
    ensures CompletedSteps(steps) == steps[..n] && DoneCalls(steps) == CallsOf(steps)[..n]
  {
    CompletedOfAround(steps, n);
    assert CallsOf(steps[..n]) == CallsOf(steps)[..n];
  }

  lemma {:induction false} DoneOfSameShape(a: seq<PlanStep>, b: seq<PlanStep>)
    requires SameShape(a, b)
    ensures DoneCalls(a) == DoneCalls(b)
  {
    hide Trim;
    if a != [] {
      var x, y := a[..|a| - 1], b[..|b| - 1];
      DoneOfSameShape(x, y);
      assert a[|a| - 1].status == b[|b| - 1].status;
      CallsSnoc1(CompletedSteps(x), a[|a| - 1]);
      CallsSnoc1(CompletedSteps(y), b[|b| - 1]);
    }
  }

  lemma CallsSnoc1(steps: seq<PlanStep>, step: PlanStep)
    ensures CallsOf(steps + [step]) == CallsOf(steps) + [CallOf(step)]
  {
  }

  // --------------------------------------------------------------- the trace

  /** The log tiers agree with the full history. */
  predicate LogOk(s: ExecutionState, t: Trace) {
    && AllTidy(t.history) && s.log == Last(LOG_MAX, t.history)
    && AllTidy(s.notes) && |s.notes| <= NOTES_MAX && s.observations == []
  }

  predicate RunOk(t: Trace, r: ToolRun) {
    && r.obs < |t.history| && 0 <= r.batch < |t.decisions|
    && t.history[r.obs].kind == TOOL_RESULT && t.history[r.obs].stepId == r.call.id
    && t.history[r.obs].createdAt == At(r.at)
    && r.call in t.executed
  }

  predicate RunsOk(t: Trace) {
    forall k :: 0 <= k < |t.runs| ==> RunOk(t, t.runs[k])
  }

  /** Run `r` lies in an earlier batch than decision `d`, at least 61 seconds before it or
      with at least eight later observations already recorded. */
  predicate Apart(t: Trace, r: ToolRun, d: int) {
    && 0 <= r.batch < d < |t.decisions|
    && (t.decisions[d].at - r.at >= 61 || t.decisions[d].seen - (r.obs + 1) >= 8)
  }

  /** Two executions of one named tool with the same arguments are apart. */
  predicate RepeatsApart(t: Trace) {
    forall i, j :: 0 <= i < j < |t.runs| && t.runs[i].call.toolName != "" &&
                   SameTool(t.runs[i].call, t.runs[j].call) ==>
      Apart(t, t.runs[i], t.runs[j].batch)
  }

  predicate SameTool(a: Call, b: Call) {
    Trim(a.toolName) == Trim(b.toolName) && a.toolArgs == b.toolArgs
  }

  /** Every earlier run of the named call `sig` is apart from the latest decision. */
  predicate CallApart(t: Trace, sig: string) {
    forall k :: 0 <= k < |t.runs| && t.runs[k].call.toolName != "" && CallSignature(t.runs[k].call) == sig ==>
      Apart(t, t.runs[k], |t.decisions| - 1)
  }

  /** The unexecuted steps from `n` on never repeat each other, and repeat earlier runs only apart. */
  predicate PendingApart(steps: seq<PlanStep>, t: Trace, n: nat) {
    && (forall q :: n <= q < |steps| && steps[q].kind.Tool? ==> CallApart(t, Signature(steps[q])))
    && (forall p, q :: n <= p < q < |steps| && steps[p].kind.Tool? && steps[q].kind.Tool? ==>
          Signature(steps[p]) != Signature(steps[q]))
  }

  /** A plain session's plan: its completed prefix is what was executed, in order. */
  predicate PlanOk(steps: seq<PlanStep>, executed: seq<Call>, n: nat) {
    Around(steps, n) && executed == CallsOf(steps)[..n]
  }

  /** The session invariant; `n` counts the completed steps. */
  predicate Inv(s: ExecutionState, t: Trace, n: nat) {
    && LogOk(s, t) && StepsOk(s.steps) && RunsOk(t)
    && (s.steps != [] ==> t.decisions != [])
    && (t.plain ==> PlanOk(s.steps, t.executed, n))
    && (t.plain && t.unique ==> DistinctIds(s.steps) && RepeatsApart(t) && PendingApart(s.steps, t, n))
  }

  /** Two plans that make the same calls in the same statuses. */
  predicate SameShape(a: seq<PlanStep>, b: seq<PlanStep>) {
    |a| == |b| && forall i :: 0 <= i < |a| ==> CallOf(a[i]) == CallOf(b[i]) && a[i].status == b[i].status
  }

  // ------------------------------------------------------------ preservation

  lemma SameShapeKeeps(a: seq<PlanStep>, b: seq<PlanStep>, t: Trace, n: nat)
    requires SameShape(a, b)
    ensures CallsOf(a) == CallsOf(b) && DoneCalls(a) == DoneCalls(b)
    ensures PlanOk(a, t.executed, n) ==> PlanOk(b, t.executed, n)
    ensures DistinctIds(a) ==> DistinctIds(b)
    ensures PendingApart(a, t, n) ==> PendingApart(b, t, n)
  {
    hide Trim;
    DoneOfSameShape(a, b);
    assert CallsOf(a) == CallsOf(b);
    assert forall i :: 0 <= i < |a| ==>
             CallOf(a[i]).id == b[i].id && CallOf(a[i]).kind == b[i].kind && Signature(a[i]) == Signature(b[i]);
  }

  /** The invariant reads only the log tiers, the calls and the step statuses. */
  lemma SameShapeKeepsInv(s: ExecutionState, s': ExecutionState, t: Trace, n: nat)
    requires Inv(s, t, n) && LogOk(s', t) && StepsOk(s'.steps) && SameShape(s.steps, s'.steps)
    ensures Inv(s', t, n) && DoneCalls(s'.steps) == DoneCalls(s.steps)
  {
    SameShapeKeeps(s.steps, s'.steps, t, n);
  }

  lemma NormalizeKeepsShape(steps: seq<PlanStep>)
    requires StepsOk(steps)
    ensures StepsOk(NormalizeSteps(steps)) && SameShape(steps, NormalizeSteps(steps))
  {
    hide Trim;
  }

  /** Normalising a session state changes neither its log tiers nor its calls. */
  lemma NormalizeKeepsInv(s: ExecutionState, t: Trace, n: nat, now: int)
    requires Inv(s, t, n)
    ensures var s' := NormalizeExecutionState(s, now);
            && Inv(s', t, n) && s'.log == s.log && s'.notes == s.notes
            && SameShape(s.steps, s'.steps) && DoneCalls(s'.steps) == DoneCalls(s.steps)
  {
    hide Trim;
    var s' := NormalizeExecutionState(s, now);
    assert s.log + [] == s.log;
    TidyObservationsKept(s.log, now);
    TidyObservationsKept(s.notes, now);
    NormalizeKeepsShape(s.steps);
    SameShapeKeepsInv(s, s', t, n);
  }

  /** Compacting keeps the notes tidy and within bounds. */
  lemma CompactNotesOk(log: seq<Observation>, notes: seq<Observation>, now: int)
    requires AllTidy(log) && AllTidy(notes) && |notes| <= NOTES_MAX
    ensures AllTidy(CompactNotes(log, notes, now)) && |CompactNotes(log, notes, now)| <= NOTES_MAX
  {
    NoteTidy(Overflow(log), now);
  }

  /** The window and the notes after at most one more tidy entry. */
  lemma LogGrows(history: seq<Observation>, notes: seq<Observation>, more: seq<Observation>, now: int)
    requires AllTidy(history) && AllTidy(more) && AllTidy(notes) && |notes| <= NOTES_MAX
    ensures var log := Last(LOG_MAX, history) + more;
            && AllTidy(history + more) && Last(LOG_MAX, log) == Last(LOG_MAX, history + more)
            && AllTidy(CompactNotes(log, notes, now)) && |CompactNotes(log, notes, now)| <= NOTES_MAX
  {
    hide Trim;
    LastAppend(LOG_MAX, history, more);
    CompactNotesOk(Last(LOG_MAX, history) + more, notes, now);
  }

  lemma AppendKeepsLog(s: ExecutionState, t: Trace, obs: Observation, now: int)
    requires LogOk(s, t)
    ensures LogOk(AppendExecutionLog(s, obs, now), t.(history := t.history + Contribution(obs, now)))
  {
    hide Trim;
    AppendUnfolds(s, obs, now);
    if !Blank(obs) {
      TrimObservationTidy(obs, now);
    }
    LogGrows(t.history, s.notes, Contribution(obs, now), now);
  }

  lemma RunStaysOk(t: Trace, t': Trace, r: ToolRun)
    requires RunOk(t, r) && t.history <= t'.history && t.decisions <= t'.decisions && t.executed <= t'.executed
    ensures RunOk(t', r)
  {
    assert t'.history[r.obs] == t.history[r.obs];
    var i :| 0 <= i < |t.executed| && t.executed[i] == r.call;
    assert t'.executed[i] == r.call;
  }

  lemma RunsStayOk(t: Trace, t': Trace)
    requires RunsOk(t) && t.history <= t'.history && t.decisions <= t'.decisions && t.executed <= t'.executed
             && t'.runs == t.runs
    ensures RunsOk(t')
  {
    forall k | 0 <= k < |t.runs|
      ensures RunOk(t', t.runs[k])
    {
      RunStaysOk(t, t', t.runs[k]);
    }
  }

  /** The distance facts read only the runs and the decisions. */
  lemma ApartFrame(t: Trace, t': Trace, steps: seq<PlanStep>, n: nat)
    requires t'.runs == t.runs && t'.decisions == t.decisions
    ensures RepeatsApart(t) ==> RepeatsApart(t')
    ensures PendingApart(steps, t, n) ==> PendingApart(steps, t', n)
  {
    assert forall sig :: CallApart(t, sig) ==> CallApart(t', sig);
  }

  /** Appending an observation extends the history and keeps the rest. */
  lemma AppendKeepsInv(s: ExecutionState, t: Trace, n: nat, obs: Observation, now: int)
    requires Inv(s, t, n)
    ensures var s' := AppendExecutionLog(s, obs, now);
            && Inv(s', t.(history := t.history + Contribution(obs, now)), n)
            && SameShape(s.steps, s'.steps) && DoneCalls(s'.steps) == DoneCalls(s.steps)
  {
    hide Trim;
    var s' := AppendExecutionLog(s, obs, now);
    var t' := t.(history := t.history + Contribution(obs, now));
    AppendKeepsLog(s, t, obs, now);
    RunsStayOk(t, t');
    NormalizeKeepsShape(s.steps);
    SameShapeKeeps(s.steps, s'.steps, t, n);
    ApartFrame(t, t', s'.steps, n);
  }

  lemma CompletePlan(steps: seq<PlanStep>, executed: seq<Call>, n: nat, output: string)
    requires PlanOk(steps, executed, n) && n < |steps|
    ensures var done := steps[n := steps[n].(status := StepCompleted, outputSummary := output)];
            && PlanOk(done, executed + [CallOf(steps[n])], n + 1)
            && Split(done, n + 1) && DoneCalls(done) == executed + [CallOf(steps[n])]
  {
    var done := steps[n := steps[n].(status := StepCompleted, outputSummary := output)];
    assert CallsOf(done) == CallsOf(steps);
    assert CallsOf(steps)[..n + 1] == CallsOf(steps)[..n] + [CallOf(steps[n])];
    DoneOfAround(done, n + 1);
  }

  lemma CompletePending(steps: seq<PlanStep>, t: Trace, n: nat, i: nat, step: PlanStep)
    requires PendingApart(steps, t, n) && i < |steps| && CallOf(step) == CallOf(steps[i])
    ensures PendingApart(steps[i := step], t, n + 1)
  {
    assert Signature(step) == Signature(steps[i]) && step.kind == steps[i].kind;
  }

  lemma SameIds(steps: seq<PlanStep>, i: nat, step: PlanStep)
    requires i < |steps| && CallOf(step) == CallOf(steps[i])
    ensures DistinctIds(steps) ==> DistinctIds(steps[i := step])
  {
    assert step.id == steps[i].id;
  }

  /** Completing step `i` (the first unfinished one of a plain session) moves the prefix on. */
  lemma CompleteKeepsInv(s: ExecutionState, t: Trace, n: nat, i: nat, output: string)
    requires Inv(s, t, n) && i < |s.steps| && (t.plain ==> i == n)
    ensures var done := s.steps[i := s.steps[i].(status := StepCompleted, outputSummary := output)];
            var t' := t.(executed := t.executed + [CallOf(s.steps[i])]);
            && Inv(s.(steps := done), t', n + 1)
            && (t.plain ==> Split(done, n + 1) && DoneCalls(done) == t'.executed)
  {
    hide Trim;
    var step := s.steps[i].(status := StepCompleted, outputSummary := output);
    var t' := t.(executed := t.executed + [CallOf(s.steps[i])]);
    RunsStayOk(t, t');
    if t.plain {
      CompletePlan(s.steps, t.executed, n, output);
      if t.unique {
        SameIds(s.steps, i, step);
        CompletePending(s.steps, t, n, i, step);
        ApartFrame(t, t', s.steps[i := step], n + 1);
      }
    }
  }

  /** Recording a run apart from all earlier runs of its call keeps the repeats apart. */
  lemma RunApart(t: Trace, r: ToolRun)
    requires RepeatsApart(t) && r.batch == |t.decisions| - 1 && CallApart(t, CallSignature(r.call))
    ensures RepeatsApart(t.(runs := t.runs + [r]))
  {
    var t' := t.(runs := t.runs + [r]);
    forall i, j | 0 <= i < j < |t'.runs| && t'.runs[i].call.toolName != "" &&
                  SameTool(t'.runs[i].call, t'.runs[j].call)
      ensures Apart(t', t'.runs[i], t'.runs[j].batch)
    {
      assert t'.runs[i] == t.runs[i];
      if j < |t.runs| {
        assert Apart(t, t.runs[i], t.runs[j].batch);
      } else {
        assert Apart(t, t.runs[i], |t.decisions| - 1);
      }
    }
  }

  /** Steps that do not make the recorded call stay apart. */
  lemma RunPending(steps: seq<PlanStep>, t: Trace, n: nat, r: ToolRun)
    requires PendingApart(steps, t, n)
    requires forall q :: n <= q < |steps| && steps[q].kind.Tool? ==> Signature(steps[q]) != CallSignature(r.call)
    ensures PendingApart(steps, t.(runs := t.runs + [r]), n)
  {
    var t' := t.(runs := t.runs + [r]);
    forall q | n <= q < |steps| && steps[q].kind.Tool?
      ensures CallApart(t', Signature(steps[q]))
    {
      assert CallApart(t, Signature(steps[q]));
      forall k | 0 <= k < |t'.runs| && t'.runs[k].call.toolName != ""
      && CallSignature(t'.runs[k].call) == Signature(steps[q])
        ensures Apart(t', t'.runs[k], |t'.decisions| - 1)
      {
        assert t'.runs[k] == t.runs[k] && Apart(t, t.runs[k], |t.decisions| - 1);
      }
    }
  }

  /** Recording the run whose result was just appended keeps the invariant. */
  lemma RunKeepsInv(s: ExecutionState, t: Trace, n: nat, r: ToolRun)
    requires Inv(s, t, n) && RunOk(t, r) && r.batch == |t.decisions| - 1
    requires t.plain && t.unique ==>
               && CallApart(t, CallSignature(r.call))
               && forall q :: n <= q < |s.steps| && s.steps[q].kind.Tool? ==>
                    Signature(s.steps[q]) != CallSignature(r.call)
    ensures Inv(s, t.(runs := t.runs + [r]), n)
  {
    hide Trim;
    var t' := t.(runs := t.runs + [r]);
    forall k | 0 <= k < |t'.runs|
      ensures RunOk(t', t'.runs[k])
    {
      if k < |t.runs| {
        assert RunOk(t, t.runs[k]);
      }
    }
    if t.plain && t.unique {
      RunApart(t, r);
      RunPending(s.steps, t, n, r);
    }
  }

  /** A fresh logged result of an earlier run blocks its call from being emitted again. */
  lemma OldRunBlocks(s: ExecutionState, t: Trace, r: ToolRun, now: int, i: nat)
    requires LogOk(s, t) && RunOk(t, r) && DistinctIds(s.steps) && StepsOk(s.steps)
    requires i < |s.steps| && CallOf(s.steps[i]) == r.call && r.call.toolName != ""
    requires now - r.at <= FRESH_SECONDS && |t.history| - r.obs <= LOG_MAX
    ensures FreshlyFetched(s, now, CallSignature(r.call))
  {
    hide Trim;
    var at := r.obs - (|t.history| - |s.log|);
    assert s.log[at] == t.history[r.obs];
    NewestIsUnique(s.steps, i);
    assert Fetches(s.steps, s.log[at], CallSignature(r.call));
  }

  /** A kept tool step is apart from every earlier run of its call. */
  lemma KeptCallApart(s: ExecutionState, t: Trace, sig: string, now: int)
    requires Inv(s, t, |s.steps|) && t.plain && t.unique && !FreshlyFetched(s, now, sig)
    ensures CallApart(t.(decisions := t.decisions + [Decision(now, |t.history|)]), sig)
  {
    hide Trim;
    var t' := t.(decisions := t.decisions + [Decision(now, |t.history|)]);
    forall k | 0 <= k < |t.runs| && t.runs[k].call.toolName != "" && CallSignature(t.runs[k].call) == sig
      ensures Apart(t', t.runs[k], |t.decisions|)
    {
      var r := t.runs[k];
      assert RunOk(t, r);
      assert r.call in CallsOf(s.steps);
      var i :| 0 <= i < |s.steps| && CallsOf(s.steps)[i] == r.call;
      if now - r.at <= FRESH_SECONDS && |t.history| - r.obs <= LOG_MAX {
        OldRunBlocks(s, t, r, now, i);
      }
    }
  }

  /** The kept steps of a new batch are apart from every run so far. */
  lemma EmittedApart(s: ExecutionState, t: Trace, kept: seq<PlanStep>, now: int)
    requires Inv(s, t, |s.steps|) && t.plain && t.unique
    requires NoneFresh(kept, s, now) && DistinctCalls(kept)
    ensures var t' := t.(decisions := t.decisions + [Decision(now, |t.history|)]);
            PendingApart(s.steps + kept, t', |s.steps|)
  {
    hide Trim;
    var steps, n := s.steps + kept, |s.steps|;
    assert forall q :: n <= q < |steps| ==> steps[q] == kept[q - n];
    forall q | n <= q < |steps| && steps[q].kind.Tool?
      ensures CallApart(t.(decisions := t.decisions + [Decision(now, |t.history|)]), Signature(steps[q]))
    {
      KeptCallApart(s, t, Signature(kept[q - n]), now);
    }
  }

  lemma DecisionsGrow(t: Trace, t': Trace)
    requires RepeatsApart(t) && t'.runs == t.runs && t.decisions <= t'.decisions
    ensures RepeatsApart(t')
  {
    assert forall d :: 0 <= d < |t.decisions| ==> t'.decisions[d] == t.decisions[d];
    assert forall i, j :: 0 <= i < j < |t.runs| && Apart(t, t.runs[i], t.runs[j].batch) ==>
             Apart(t', t.runs[i], t.runs[j].batch);
  }

  lemma CompletedStepsOk(steps: seq<PlanStep>, kept: seq<PlanStep>)
    requires StepsOk(steps) && StepsOk(kept)
    ensures StepsOk(CompletedSteps(steps) + kept)
  {
    var out := CompletedSteps(steps);
    forall i | 0 <= i < |out|
      ensures out[i] in steps
    {
    }
  }

  lemma EmitShape(steps: seq<PlanStep>, kept: seq<PlanStep>)
    requires Split(steps, |steps|) && forall i :: 0 <= i < |kept| ==> kept[i].status.StepPending?
    ensures Split(steps + kept, |steps|) && Around(steps + kept, |steps|)
    ensures CompletedSteps(steps) == steps && CompletedSteps(steps + kept) == steps
  {
    var n, all := |steps|, steps + kept;
    assert forall i :: 0 <= i < |all| ==> all[i] == if i < n then steps[i] else kept[i - n];
    CompletedOfAround(steps, n);
    CompletedOfAround(all, n);
    assert steps[..n] == steps && all[..n] == steps;
  }

  lemma EmitPlan(steps: seq<PlanStep>, executed: seq<Call>, kept: seq<PlanStep>)
    requires Around(steps, |steps|) && executed == CallsOf(steps)
    requires forall i :: 0 <= i < |kept| ==> kept[i].status.StepPending?
    ensures CompletedSteps(steps) == steps
    ensures PlanOk(steps + kept, executed, |steps|) && Split(steps + kept, |steps|)
    ensures DoneCalls(steps + kept) == DoneCalls(steps)
  {
    EmitShape(steps, kept);
    CallsPrefix(steps, kept);
  }

  lemma CallsPrefix(steps: seq<PlanStep>, more: seq<PlanStep>)
    ensures CallsOf(steps + more)[..|steps|] == CallsOf(steps) == CallsOf(steps)[..|steps|]
  {
  }

  /** Emitting a filtered batch after all steps are done keeps the invariant. */
  lemma DecideKeepsInv(s: ExecutionState, t: Trace, n: nat, kept: seq<PlanStep>, now: int)
    requires Inv(s, t, n) && (t.plain ==> n == |s.steps|)
    requires StepsOk(kept) && NoneFresh(kept, s, now) && DistinctCalls(kept)
    ensures var steps := CompletedSteps(s.steps) + kept;
            var t' := Decided(t, kept, steps, now);
            && Inv(s.(steps := steps), t', n)
            && (t'.plain ==> Split(steps, n) && DoneCalls(steps) == DoneCalls(s.steps))
  {
    hide Trim;
    var steps := CompletedSteps(s.steps) + kept;
    var t' := Decided(t, kept, steps, now);
    RunsStayOk(t, t');
    CompletedStepsOk(s.steps, kept);
    assert LogOk(s.(steps := steps), t');
    if t'.plain {
      CallsPrefix(s.steps, []);
      EmitPlan(s.steps, t.executed, kept);
      if t'.unique {
        DecisionsGrow(t, t');
        EmittedApart(s, t, kept, now);
        ApartFrame(t.(decisions := t'.decisions), t', steps, n);
      }
    }
  }

  lemma ResumePlan(steps: seq<PlanStep>, executed: seq<Call>, n: nat)
    requires PlanOk(steps, executed, n)
    ensures var done := CompletedSteps(steps);
            && done == steps[..n] && PlanOk(done, executed, n) && Split(done, n)
            && DoneCalls(done) == DoneCalls(steps)
  {
    var done := CompletedSteps(steps);
    DoneOfAround(steps, n);
    DoneOfAround(done, n);
    assert done[..n] == done;
    assert CallsOf(done) == CallsOf(steps)[..n];
  }

  /** Dropping the unfinished steps, as a resume does, keeps the invariant. */
  lemma ResumeKeepsInv(s: ExecutionState, t: Trace, n: nat)
    requires Inv(s, t, n)
    ensures var steps := CompletedSteps(s.steps);
            && Inv(s.(steps := steps), t, n)
            && (t.plain ==> n == |steps| && Split(steps, n) && DoneCalls(steps) == DoneCalls(s.steps))
  {
    var steps := CompletedSteps(s.steps);
    CompletedStepsOk(s.steps, []);
    assert steps + [] == steps;
    if t.plain {
      ResumePlan(s.steps, t.executed, n);
    }
  }
}
