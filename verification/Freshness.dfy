/** The duplicate-call filter of agent/planner_runtime.go (lines 3210-3328). */
module Freshness {
  import opened Seqs
  import opened Text
  import opened Records
  import opened Execution

  const FRESH_SECONDS: int := 60
  const TOOL_RESULT: string := "tool_result"

  /** toolCallSignature. */
  function Signature(step: PlanStep): string {
    Trim(step.toolName) + "|" + step.toolArgs
  }

  /** stepByID: a later step overwrites an earlier one with the same id. */
  function NewestWithId(steps: seq<PlanStep>, id: string): (r: Option<PlanStep>)
    ensures r.Some? <==> exists i :: 0 <= i < |steps| && steps[i].id == id
    ensures r.Some? ==> r.value.id == id && r.value in steps
  {
    if steps == [] then None
    else if steps[|steps| - 1].id == id then Some(steps[|steps| - 1])
    else NewestWithId(steps[..|steps| - 1], id)
  }

  /** `o` counts as a result of the call `sig`. */
  predicate Fetches(steps: seq<PlanStep>, o: Observation, sig: string) {
    && o.kind == TOOL_RESULT
    && var step := NewestWithId(steps, o.stepId);
       step.Some? && step.value.toolName != "" && Signature(step.value) == sig
  }

  function SecsOf(s: Stamp): int {
    if s.At? then s.secs else 0
  }

  /** Some logged result of `sig` is at most 60 seconds old. */
  predicate FreshlyFetched(s: ExecutionState, now: int, sig: string) {
    exists k :: 0 <= k < |s.log| && Fetches(s.steps, s.log[k], sig) && now - SecsOf(s.log[k].createdAt) <= FRESH_SECONDS
  }

  /** A tool step of `out` makes the call `sig`. */
  predicate Calls(out: seq<PlanStep>, sig: string) {
    exists j :: 0 <= j < |out| && out[j].kind.Tool? && Signature(out[j]) == sig
  }

  /** A step may follow the steps kept so far: not a tool, or neither fetched lately nor repeated. */
  predicate Admitted(kept: seq<PlanStep>, step: PlanStep, s: ExecutionState, now: int) {
    step.kind.Tool? ==> !FreshlyFetched(s, now, Signature(step)) && !Calls(kept, Signature(step))
  }

  /** filterFreshDuplicateToolSteps as a function of the normalised state. */
  function Filtered(batch: seq<PlanStep>, s: ExecutionState, now: int): (r: seq<PlanStep>)
    ensures |r| <= |batch|
  {
    if batch == [] then []
    else
      var kept := Filtered(batch[..|batch| - 1], s, now);
      if Admitted(kept, batch[|batch| - 1], s, now) then kept + [batch[|batch| - 1]] else kept
  }

  datatype FetchedTool = FetchedTool(toolName: string, argsJson: string, fetchedAt: int)

  /** `latest` holds, for every call with a result among `log`, its newest result time. */
  ghost predicate Newest(steps: seq<PlanStep>, log: seq<Observation>, latest: map<string, FetchedTool>) {
    && (forall k, sig :: 0 <= k < |log| && Fetches(steps, log[k], sig) ==>
          sig in latest && SecsOf(log[k].createdAt) <= latest[sig].fetchedAt)
    && (forall sig :: sig in latest ==> FetchedAt(steps, log, sig, latest[sig].fetchedAt))
  }

  /** Some result of `sig` in `log` carries the time `at`. */
  predicate FetchedAt(steps: seq<PlanStep>, log: seq<Observation>, sig: string, at: int) {
    exists k :: 0 <= k < |log| && Fetches(steps, log[k], sig) && SecsOf(log[k].createdAt) == at
  }

  lemma FetchedAtSnoc(steps: seq<PlanStep>, log: seq<Observation>, o: Observation)
    ensures forall sig, at :: FetchedAt(steps, log, sig, at) ==> FetchedAt(steps, log + [o], sig, at)
    ensures forall sig :: Fetches(steps, o, sig) ==> FetchedAt(steps, log + [o], sig, SecsOf(o.createdAt))
  {
    var longer := log + [o];
    assert longer[|log|] == o && forall k :: 0 <= k < |log| ==> longer[k] == log[k];
  }

  /** buildRecentlyFetchedData: the newest result of every call in the log. */
  method BuildRecentlyFetchedData(s: ExecutionState) returns (latest: map<string, FetchedTool>)
    ensures Newest(s.steps, s.log, latest)
  {
    hide Trim, NewestWithId, Signature, FetchedAt, SecsOf;
    latest := map[];
    for i := 0 to |s.log|
      invariant Newest(s.steps, s.log[..i], latest)
    {
      var obs := s.log[i];
      FetchedAtSnoc(s.steps, s.log[..i], obs);
      assert s.log[..i + 1] == s.log[..i] + [obs];
      if obs.kind != TOOL_RESULT {
        continue;
      }
      var step := NewestWithId(s.steps, obs.stepId);
      if step.None? || step.value.toolName == "" {
        continue;
      }
      var sig := Signature(step.value);
      var fetchedAt := SecsOf(obs.createdAt);
      if sig !in latest || latest[sig].fetchedAt < fetchedAt {
        latest := latest[sig := FetchedTool(step.value.toolName, step.value.toolArgs, fetchedAt)];
      }
    }
    assert s.log[..|s.log|] == s.log;
  }

  /** The age test on the newest result of a call is the test on any of its results. */
  lemma FreshByNewest(s: ExecutionState, latest: map<string, FetchedTool>, now: int, sig: string)
    requires Newest(s.steps, s.log, latest)
    ensures sig in latest && now - latest[sig].fetchedAt <= FRESH_SECONDS <==> FreshlyFetched(s, now, sig)
  {
    if sig in latest {
      assert FetchedAt(s.steps, s.log, sig, latest[sig].fetchedAt);
    }
  }

  /** filterFreshDuplicateToolSteps. */
  method FilterFreshDuplicateToolSteps(batch: seq<PlanStep>, s: ExecutionState, now: int) returns (out: seq<PlanStep>)
    ensures out == Filtered(batch, s, now)
  {
    var latest := BuildRecentlyFetchedData(s);
    var recent := set sig | sig in latest && now - latest[sig].fetchedAt <= FRESH_SECONDS;
    forall sig
      ensures sig in recent <==> FreshlyFetched(s, now, sig)
    {
      FreshByNewest(s, latest, now, sig);
    }
    out := [];
    for i := 0 to |batch|
      invariant out == Filtered(batch[..i], s, now)
      invariant forall sig :: sig in recent <==> FreshlyFetched(s, now, sig) || Calls(out, sig)
    {
      assert batch[..i + 1][..i] == batch[..i];
      var step := batch[i];
      var sig := Signature(step);
      if step.kind.Tool? {
        if sig in recent {
          continue;
        }
        recent := recent + {sig};
      }
      CallsSnoc(out, step);
      out := out + [step];
    }
    assert batch[..|batch|] == batch;
  }

  lemma CallsSnoc(out: seq<PlanStep>, step: PlanStep)
    ensures forall sig :: Calls(out + [step], sig) <==> Calls(out, sig) || (step.kind.Tool? && Signature(step) == sig)
  {
    var longer := out + [step];
    assert longer[|out|] == step && forall j :: 0 <= j < |out| ==> longer[j] == out[j];
  }

  predicate NoneFresh(out: seq<PlanStep>, s: ExecutionState, now: int) {
    forall i :: 0 <= i < |out| && out[i].kind.Tool? ==> !FreshlyFetched(s, now, Signature(out[i]))
  }

  predicate DistinctCalls(out: seq<PlanStep>) {
    forall i, j :: 0 <= i < j < |out| && out[i].kind.Tool? && out[j].kind.Tool? ==>
      Signature(out[i]) != Signature(out[j])
  }

  lemma AdmitSound(kept: seq<PlanStep>, step: PlanStep, s: ExecutionState, now: int)
    requires NoneFresh(kept, s, now) && DistinctCalls(kept) && Admitted(kept, step, s, now)
    ensures NoneFresh(kept + [step], s, now) && DistinctCalls(kept + [step])
  {
    var out := kept + [step];
    assert forall i :: 0 <= i < |out| ==> out[i] == if i < |kept| then kept[i] else step;
  }

  /** Every surviving tool step names a call not fetched lately, and no call twice. */
  lemma {:induction false} FilteredSound(batch: seq<PlanStep>, s: ExecutionState, now: int)
    ensures forall x :: x in Filtered(batch, s, now) ==> x in batch
    ensures NoneFresh(Filtered(batch, s, now), s, now) && DistinctCalls(Filtered(batch, s, now))
  {
    if batch != [] {
      var front, step := batch[..|batch| - 1], batch[|batch| - 1];
      FilteredSound(front, s, now);
      if Admitted(Filtered(front, s, now), step, s, now) {
        AdmitSound(Filtered(front, s, now), step, s, now);
      }
    }
  }

  /** Nothing else is dropped: a call is missing only if it was fetched lately. */
  lemma {:induction false} FilteredComplete(batch: seq<PlanStep>, i: nat, s: ExecutionState, now: int)
    requires i < |batch|
    ensures var out := Filtered(batch, s, now);
            if batch[i].kind.Tool? then Calls(out, Signature(batch[i])) || FreshlyFetched(s, now, Signature(batch[i]))
            else batch[i] in out
  {
    var n := |batch| - 1;
    var kept := Filtered(batch[..n], s, now);
    if i < n {
      FilteredComplete(batch[..n], i, s, now);
    }
    CallsSnoc(kept, batch[n]);
  }

  /** With distinct ids the newest step carrying an id is the only one. */
  lemma {:induction false} NewestIsUnique(steps: seq<PlanStep>, i: nat)
    requires i < |steps| && forall j, k :: 0 <= j < k < |steps| ==> steps[j].id != steps[k].id
    ensures NewestWithId(steps, steps[i].id) == Some(steps[i])
  {
    if i < |steps| - 1 {
      assert steps[i].id != steps[|steps| - 1].id;
      NewestIsUnique(steps[..|steps| - 1], i);
    }
  }

  /** A logged result at most 60 seconds old that the look-up by id credits to the call of `call`. */
  predicate Credits(s: ExecutionState, k: nat, call: PlanStep, now: int)
    requires k < |s.log|
  {
    && s.log[k].kind == TOOL_RESULT && now - SecsOf(s.log[k].createdAt) <= FRESH_SECONDS
    && var step := NewestWithId(s.steps, s.log[k].stepId);
       step.Some? && step.value.toolName != "" && Signature(step.value) == Signature(call)
  }

  /** Whatever else is logged, a repeat is blocked exactly when some recent result's id still belongs,
      as the newest step carrying it, to a step that makes the same call. */
  lemma BlocksRepeatIff(s: ExecutionState, call: PlanStep, now: int)
    requires call.kind.Tool?
    ensures Filtered([call], s, now) == [] <==> exists k :: 0 <= k < |s.log| && Credits(s, k, call, now)
  {
    assert [call][..0] == [];
    assert Filtered([call], s, now) == [] <==> FreshlyFetched(s, now, Signature(call));
    if FreshlyFetched(s, now, Signature(call)) {
      var k :| 0 <= k < |s.log| && Fetches(s.steps, s.log[k], Signature(call))
      && now - SecsOf(s.log[k].createdAt) <= FRESH_SECONDS;
      assert Credits(s, k, call, now);
    }
  }

  /** Two tool names without the separator make the same signature exactly with the same arguments
      and, spaces at the ends aside, the same name. */
  lemma SignatureIdentifies(a: PlanStep, b: PlanStep)
    requires '|' !in Trim(a.toolName) && '|' !in Trim(b.toolName)
    ensures Signature(a) == Signature(b) <==> Trim(a.toolName) == Trim(b.toolName) && a.toolArgs == b.toolArgs
  {
    hide Trim;
    var x, y := Trim(a.toolName), Trim(b.toolName);
    if Signature(a) == Signature(b) {
      BarReached(x, a.toolArgs, y, b.toolArgs);
      BarReached(y, b.toolArgs, x, a.toolArgs);
      assert x == Signature(a)[..|x|] && y == Signature(b)[..|y|];
      assert a.toolArgs == Signature(a)[|x| + 1..] && b.toolArgs == Signature(b)[|y| + 1..];
    }
  }

  lemma BarReached(x: string, u: string, y: string, v: string)
    requires '|' !in y && x + "|" + u == y + "|" + v
    ensures |x| >= |y|
  {
    var whole := x + "|" + u;
    assert whole[|x|] == '|';
    assert forall i :: 0 <= i < |y| ==> whole[i] == y[i];
  }

  /** A lone tool step is dropped exactly if some tool result at most sixty seconds old belongs, by the
      newest step carrying its id, to a named call of the same tool with the same arguments. */
  lemma LoneCallDropped(s: ExecutionState, call: PlanStep, now: int)
    requires call.kind.Tool? && '|' !in Trim(call.toolName)
    requires forall i :: 0 <= i < |s.steps| ==> '|' !in Trim(s.steps[i].toolName)
    ensures Filtered([call], s, now) == [] <==>
            exists k, i :: 0 <= k < |s.log| && 0 <= i < |s.steps|
              && s.log[k].kind == "tool_result"
              && now - (if s.log[k].createdAt.At? then s.log[k].createdAt.secs else 0) <= 60
              && s.steps[i].id == s.log[k].stepId
              && (forall j :: i < j < |s.steps| ==> s.steps[j].id != s.log[k].stepId)
              && s.steps[i].toolName != "" && Trim(s.steps[i].toolName) == Trim(call.toolName)
              && s.steps[i].toolArgs == call.toolArgs
  {
    hide Trim, Signature;
    BlocksRepeatIff(s, call, now);
    if Filtered([call], s, now) == [] {
      var k: nat :| 0 <= k < |s.log| && Credits(s, k, call, now);
      var i := NewestIs(s.steps, s.log[k].stepId);
      SignatureIdentifies(s.steps[i], call);
    }
    forall k: nat, i: nat | k < |s.log| && i < |s.steps| && s.steps[i].id == s.log[k].stepId
                            && (forall j :: i < j < |s.steps| ==> s.steps[j].id != s.log[k].stepId)
                            && s.log[k].kind == "tool_result" && s.steps[i].toolName != ""
                            && now - (if s.log[k].createdAt.At? then s.log[k].createdAt.secs else 0) <= 60
                            && Trim(s.steps[i].toolName) == Trim(call.toolName) && s.steps[i].toolArgs == call.toolArgs
      ensures Credits(s, k, call, now)
    {
      LastIsNewest(s.steps, i);
      SignatureIdentifies(s.steps[i], call);
    }
  }

  /** The look-up by id finds the last step that carries it. */
  lemma {:induction false} LastIsNewest(steps: seq<PlanStep>, i: nat)
    requires i < |steps| && forall j :: i < j < |steps| ==> steps[j].id != steps[i].id
    ensures NewestWithId(steps, steps[i].id) == Some(steps[i])
  {
    if i < |steps| - 1 {
      LastIsNewest(steps[..|steps| - 1], i);
    }
  }

  lemma {:induction false} NewestIs(steps: seq<PlanStep>, id: string) returns (i: nat)
    requires NewestWithId(steps, id).Some?
    ensures i < |steps| && steps[i].id == id && NewestWithId(steps, id) == Some(steps[i])
    ensures forall j :: i < j < |steps| ==> steps[j].id != id
  {
    if steps[|steps| - 1].id == id {
      i := |steps| - 1;
    } else {
      i := NewestIs(steps[..|steps| - 1], id);
    }
  }

  /** Each further step is judged by itself and by the calls already kept: it goes exactly if it is a
      tool step that alone would go, or that repeats the tool and arguments of an earlier one. */
  lemma NextStepKept(batch: seq<PlanStep>, step: PlanStep, s: ExecutionState, now: int)
    requires '|' !in Trim(step.toolName)
    requires forall i :: 0 <= i < |batch| ==> '|' !in Trim(batch[i].toolName)
    ensures var dropped := step.kind.Tool?
                           && (Filtered([step], s, now) == []
                               || exists i :: 0 <= i < |batch| && batch[i].kind.Tool?
                                    && Trim(batch[i].toolName) == Trim(step.toolName)
                                    && batch[i].toolArgs == step.toolArgs);
            Filtered(batch + [step], s, now) == Filtered(batch, s, now) + if dropped then [] else [step]
  {
    hide Trim, Signature, FreshlyFetched;
    assert (batch + [step])[..|batch|] == batch;
    assert [step][..0] == [];
    var kept := Filtered(batch, s, now);
    FilteredSound(batch, s, now);
    if step.kind.Tool? && !FreshlyFetched(s, now, Signature(step)) {
      forall i | 0 <= i < |batch| && batch[i].kind.Tool?
        ensures Signature(batch[i]) == Signature(step) ==> Calls(kept, Signature(step))
        ensures Signature(batch[i]) == Signature(step) <==>
                Trim(batch[i].toolName) == Trim(step.toolName) && batch[i].toolArgs == step.toolArgs
      {
        FilteredComplete(batch, i, s, now);
        SignatureIdentifies(batch[i], step);
      }
      if Calls(kept, Signature(step)) {
        var j :| 0 <= j < |kept| && kept[j].kind.Tool? && Signature(kept[j]) == Signature(step);
        assert kept[j] in batch;
      }
    }
  }

  /** Two tool steps that differ in tool or arguments both survive when neither is fresh. */
  lemma TwoCallsSurvive(a: PlanStep, b: PlanStep, s: ExecutionState, now: int)
    requires a.kind.Tool? && b.kind.Tool? && '|' !in Trim(a.toolName) && '|' !in Trim(b.toolName)
    requires Trim(a.toolName) != Trim(b.toolName) || a.toolArgs != b.toolArgs
    requires Filtered([a], s, now) == [a] && Filtered([b], s, now) == [b]
    ensures Filtered([a, b], s, now) == [a, b]
  {
    assert [a] + [b] == [a, b];
    NextStepKept([a], b, s, now);
  }

  /** With unique ids a recent result always blocks a repeat of the call that produced it. */
  lemma OwnResultBlocks(s: ExecutionState, k: nat, i: nat, now: int)
    requires k < |s.log| && s.log[k].kind == TOOL_RESULT && now - SecsOf(s.log[k].createdAt) <= FRESH_SECONDS
    requires i < |s.steps| && s.steps[i].id == s.log[k].stepId && s.steps[i].kind.Tool? && s.steps[i].toolName != ""
    requires forall a, b :: 0 <= a < b < |s.steps| ==> s.steps[a].id != s.steps[b].id
    ensures Filtered([s.steps[i]], s, now) == []
  {
    hide Signature;
    NewestIsUnique(s.steps, i);
    assert Credits(s, k, s.steps[i], now);
    BlocksRepeatIff(s, s.steps[i], now);
  }

  /** Reusing an id voids the filter: a one-second-old result does not stop the same call. */
  lemma ReusedIdRefetches()
    ensures var a := PlanStep("step_1", Tool, "", StepCompleted, "get_balance", "{}", "", false, "", "");
            var b := a.(toolName := "get_positions");
            var s := EMPTY_STATE.(steps := [a, b], log := [Observation("step_1", TOOL_RESULT, "", "1", At(100))]);
            Filtered([a], s, 101) == [a]
  {
    var a := PlanStep("step_1", Tool, "", StepCompleted, "get_balance", "{}", "", false, "", "");
    var b := a.(toolName := "get_positions");
    var s := EMPTY_STATE.(steps := [a, b], log := [Observation("step_1", TOOL_RESULT, "", "1", At(100))]);
    assert Trimmed("get_balance") && Trimmed("get_positions");
    TrimLaws("get_balance");
    TrimLaws("get_positions");
    assert Signature(a)[4] == 'b' && Signature(b)[4] == 'p';
    assert NewestWithId(s.steps, "step_1") == Some(b);
    BlocksRepeatIff(s, a, 101);
  }

  /** Blank ids are numbered from one in every batch, so two such batches always collide. */
  lemma BlankIdsCollide(first: seq<PlanStep>, second: seq<PlanStep>, i: nat)
    requires i < |first| && i < |second| && Trim(first[i].id) == "" && Trim(second[i].id) == ""
    ensures NormalizeSteps(first)[i].id == NormalizeSteps(second)[i].id
  {
  }
}
