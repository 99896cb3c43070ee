/** One planning session: the state executePlan mutates, the stored copy, and a ghost
    trace of everything the session has done. Every method keeps `Valid`, so its clauses
    hold over any sequence of resumes, runs, extractions and fallbacks. */
module PlanSessions {
  import opened Seqs
  import opened Text
  import opened Records
  import opened Execution
  import opened Freshness
  import opened PlanTrace
  import opened Planner

  class PlanSession {
    /** The working copy. */
    var state: ExecutionState
    /** What the config store holds for the user. */
    var store: ExecutionState
    /** Every state saved so far. */
    ghost var saved: seq<ExecutionState>
    ghost var trace: Trace
    /** Completed steps of a plain session. */
    ghost var done: nat
    /** A redirect or a fallback has ended the session. */
    ghost var closed: bool

    /** The part every step of a run keeps. */
    ghost predicate Sound()
      reads this
    {
      SoundState(state, saved, trace, done)
    }

    ghost predicate Valid()
      reads this
    {
      && (!closed ==> Sound())
      && SavedOk(saved, trace.plain)
      && (trace.plain && trace.unique ==> RepeatsApart(trace))
      && (store.status.WaitingUser? ==> !closed && store == state)
    }

    /** The loop head of executePlan: nothing waits, and the plan is completed then pending. */
    ghost predicate AtLoopHead()
      reads this
    {
      !closed && !store.status.WaitingUser? && HeadState(state, saved, trace, done)
    }

    /** newExecutionState, after its first save. */
    constructor (sessionId: string, goal: string, references: Option<CurrentReferences>,
                 referenceHistory: seq<ReferenceRecord>, now: int)
      ensures Valid() && AtLoopHead() && trace == EMPTY_TRACE && state.steps == []
    {
      hide Inv, HeadState, SoundState, InHand, SavedOk, AllWithin, AtMostOneRunning, SameShape, WaitingAgrees;
      hide RepeatsApart, Trim, Contribution, DoneCalls, FirstState;
      FirstStateHead(sessionId, goal, references, referenceHistory, now);
      var first := FirstState(sessionId, goal, references, referenceHistory, now);
      state, store := first, first;
      saved, trace, done, closed := [first], EMPTY_TRACE, 0, false;
      HeadIsValid(first, [first], EMPTY_TRACE, 0);
    }

    /** saveExecutionState: may fail; on success the stored copy is the normal form, which the
        working copy shares. */
    method Save(now: int) returns (ok: bool)
      requires SoundState(state, saved, trace, done) && (trace.plain ==> AtMostOneRunning(state.steps))
      modifies this`state, this`store, this`saved
      ensures SoundState(state, saved, trace, done)
      ensures HeadState(old(state), old(saved), trace, done) ==> HeadState(state, saved, trace, done)
      ensures ok ==>
                store == state && saved == old(saved) + [state] && state == NormalizeExecutionState(old(state), now)
      ensures !ok ==> store == old(store) && saved == old(saved) && state == old(state)
      ensures SameShape(old(state.steps), state.steps) && DoneCalls(state.steps) == DoneCalls(old(state.steps))
      ensures state.status.WaitingUser? == old(state).status.WaitingUser?
              && state.waiting.Some? == old(state).waiting.Some?
    {
      ok := *;
      if ok {
        SaveKeeps(state, saved, trace, done, now);
        state := NormalizeExecutionState(state, now);
        store := state;
        saved := saved + [state];
      }
    }

    /** Emit a filtered batch after the completed steps and save the plan. */
    method Emit(batch: seq<PlanStep>, kept: seq<PlanStep>, normal: ExecutionState, now: int) returns (ok: bool)
      requires AtLoopHead() && forall k :: 0 <= k < |state.steps| ==> !Unstarted(state.steps[k])
      requires SameShape(state.steps, normal.steps) && normal.log == state.log
      requires kept == Filtered(NormalizeSteps(batch), normal, now)
      modifies this`state, this`store, this`saved, this`trace
      ensures AtLoopHead()
      ensures trace == Decided(old(trace), kept, CompletedSteps(old(state.steps)) + Titled(kept), now)
      ensures ok ==> store == state
                     && state == NormalizeExecutionState(Emitted(old(state), CompletedSteps(old(state.steps)),
                                                                 Titled(kept), now), now)
    {
      hide Inv, HeadState, SoundState, InHand, SavedOk, AllWithin, AtMostOneRunning, SameShape, WaitingAgrees;
      hide RepeatsApart, Trim, Contribution, DoneCalls, Filtered, NormalizeSteps, NormalizeExecutionState;
      hide CompletedSteps, Titled;
      EmitKeepsHead(state, normal, saved, trace, done, batch, now);
      var completed := CompletedStepsLoop(state.steps);
      var named := FillTitles(kept);
      state := Emitted(state, completed, named, now);
      trace := Decided(trace, kept, state.steps, now);
      HeadIsValid(state, saved, trace, done);
      ok := Save(now);
    }

    /** The decision half of a loop pass: ask the oracle, filter, emit the batch.  The loop goes on
        exactly with the numbered and filtered steps of the decision `raw`, titled, after the
        completed ones; none is a repeat, and the batch is no repeated reasoning. */
    method Decide(now: int) returns (out: Outcome, ghost raw: NextStepDecision)
      requires AtLoopHead() && forall k :: 0 <= k < |state.steps| ==> !Unstarted(state.steps[k])
      modifies this`state, this`store, this`saved, this`trace
      ensures AtLoopHead() && TraceGrows(old(trace), trace)
      ensures |trace.decisions| + trace.starts <= |old(trace.decisions)| + old(trace.starts) + 1
      ensures out.Continue? ==>
                var kept :=
                  Filtered(NormalizeNextStepDecision(raw).steps, NormalizeExecutionState(old(state), now), now);
                var goal := if Trim(raw.goal) == "" then old(state).goal else Trim(raw.goal);
                && kept != [] && !RepeatedReasonLoop(old(state.steps), kept)
                && (forall i :: 0 <= i < |kept| ==> !kept[i].kind.NoKind?)
                && trace == Decided(old(trace), kept, CompletedSteps(old(state.steps)) + Titled(kept), now)
                && store == state
                && state == NormalizeExecutionState(
                     Emitted(old(state).(goal := goal), CompletedSteps(old(state.steps)), Titled(kept), now), now)
      ensures !out.Continue? ==> out.Failure?
      ensures out.Failure? && out.error != SaveFailed ==> trace == old(trace) && store == old(store)
    {
      hide Inv, HeadState, SoundState, InHand, SavedOk, AllWithin, AtMostOneRunning, SameShape, WaitingAgrees;
      hide RepeatsApart, Trim, Contribution, DoneCalls, Filtered, NormalizeSteps, NormalizeExecutionState;
      hide CompletedSteps, Titled, RepeatedReasonLoop;
      HeadIsValid(state, saved, trace, done);
      var answered: bool := *;
      var decided: NextStepDecision := *;
      raw := decided;
      if !answered {
        return Failure(PlannerFailed), raw;
      }
      var batch := if decided.steps == [] && !decided.step.kind.NoKind? then [decided.step] else decided.steps;
      var normal := NormalizeExecutionState(state, now);
      NormalizeKeepsInv(state, trace, done, now);
      var steps := FilterFreshDuplicateToolSteps(NormalizeNextStepDecision(decided).steps, normal, now);
      if |steps| == 0 {
        return Failure(AllDuplicates), raw;
      }
      if RepeatedReasonLoop(state.steps, steps) {
        return Failure(ReasonLoop), raw;
      }
      var goal := Trim(decided.goal);
      if goal != "" {
        GoalKeepsHead(state, saved, trace, done, goal);
        state := state.(goal := goal);
      }
      if exists i :: 0 <= i < |steps| && steps[i].kind.NoKind? {
        return Failure(MissingStepType), raw;
      }
      var ok := Emit(batch, steps, normal, now);
      if !ok {
        return Failure(SaveFailed), raw;
      }
      return Continue, raw;
    }

    /** Execute a tool step: call it, log its result, record the run.  Unless the step was redirected,
        the trace gains the run with its result, and a saved state shows the step completed with its
        summary and the result at the end of the log. */
    method RunTool(i: nat, now: int) returns (out: Outcome, ghost summary: string, ghost raw: string)
      requires !closed && !store.status.WaitingUser? && InHand(state, saved, trace, done, i)
               && state.steps[i].kind.Tool?
      modifies this
      ensures Valid() && TraceGrows(old(trace), trace)
      ensures |trace.decisions| == |old(trace.decisions)| && trace.starts == old(trace.starts)
      ensures out.Continue? ==> AtLoopHead()
      ensures out.Answer? ==> closed && !store.status.WaitingUser? && trace == old(trace)
      ensures !out.Answer? ==>
                var step := old(state).steps[i];
                && trace == RunTrace(old(trace), CallOf(step), ToolResult(step.id, summary, raw, now), now)
                && trace.history ==
                   old(trace).history + Contribution(Observation(step.id, "tool_result", summary, raw, At(now)), now)
                && trace.executed == old(trace).executed + [Call(step.id, step.kind, step.toolName, step.toolArgs)]
      ensures out.Continue? ==>
                && store == state && i < |state.steps| && state.log == Last(LOG_MAX, trace.history)
                && state.steps[i].status.StepCompleted? && state.steps[i].outputSummary == Trim(summary)
    {
      hide Inv, HeadState, SoundState, InHand, SavedOk, AllWithin, AtMostOneRunning, SameShape, WaitingAgrees;
      hide RepeatsApart, Trim, Contribution, DoneCalls, Logged;
      InHandIs(state, saved, trace, done, i);
      summary, raw := "", "";
      var redirected: bool := *;
      if redirected {
        store := EMPTY_STATE;
        closed := true;
        var answer: string := *;
        return Answer(answer), summary, raw;
      }
      var result: string := *;
      var shortened: string := *;
      summary, raw := shortened, result;
      ToolKeepsHead(state, saved, trace, done, i, shortened, result, now);
      var step := state.steps[i];
      var obs := ToolResult(step.id, shortened, result, now);
      LoggedStep(state, i, shortened, obs, now);
      state := Logged(state, i, shortened, obs, now);
      trace := RunTrace(trace, CallOf(step), obs, now);
      done := done + 1;
      var references: Option<CurrentReferences> := *;
      var history: seq<ReferenceRecord> := *;
      ReferencesKeepHead(state, saved, trace, done, references, history, now);
      state := state.(references := references, referenceHistory := history, updatedAt := At(now));
      HeadIsValid(state, saved, trace, done);
      SavedStep(state, now, i);
      var ok := Save(now);
      HeadIsValid(state, saved, trace, done);
      LogShows(state, saved, trace, done);
      if !ok {
        return Failure(SaveFailed), summary, raw;
      }
      return Continue, summary, raw;
    }

    /** Execute a reason step: its text becomes the output and a log entry; a model error fails the
        step and the session. */
    method RunReason(i: nat, now: int) returns (out: Outcome, ghost reasoned: string)
      requires !closed && !store.status.WaitingUser? && InHand(state, saved, trace, done, i)
      modifies this
      ensures Valid() && TraceGrows(old(trace), trace)
      ensures |trace.decisions| == |old(trace.decisions)| && trace.starts == old(trace.starts)
      ensures out.Continue? ==> AtLoopHead()
      ensures !out.Answer?
      ensures out.Failure? && out.error.ReasonFailed? ==>
                trace == old(trace) && state.status.Failed? && i < |state.steps| && state.steps[i].status.StepFailed?
      ensures !(out.Failure? && out.error.ReasonFailed?) ==>
                var step := old(state).steps[i];
                trace == old(trace).(
                  executed := old(trace).executed + [CallOf(step)],
                  history :=
                    old(trace).history + Contribution(Observation(step.id, "reasoning", reasoned, "", At(now)), now))
      ensures out.Continue? ==>
                && store == state && i < |state.steps| && state.log == Last(LOG_MAX, trace.history)
                && state.steps[i].status.StepCompleted? && state.steps[i].outputSummary == Trim(reasoned)
    {
      hide Inv, HeadState, SoundState, InHand, SavedOk, AllWithin, AtMostOneRunning, SameShape, WaitingAgrees;
      hide RepeatsApart, Trim, Contribution, DoneCalls, Logged, StepFailedState;
      InHandIs(state, saved, trace, done, i);
      var answered: bool := *;
      var reasoning: string := *;
      reasoned := reasoning;
      if !answered {
        FailKeeps(state, saved, trace, done, i, reasoning);
        FailedStep(state, i, reasoning);
        state := StepFailedState(state, i, reasoning);
        SavedStep(state, now, i);
        var ignored := Save(now);
        SoundIsValid(state, saved, trace, done);
        return Failure(ReasonFailed(reasoning)), reasoned;
      }
      var obs := Observation(state.steps[i].id, "reasoning", reasoning, "", At(now));
      ReasonKeepsHead(state, saved, trace, done, i, reasoning, obs, now);
      trace := trace.(executed := trace.executed + [CallOf(state.steps[i])],
                      history := trace.history + Contribution(obs, now));
      LoggedStep(state, i, reasoning, obs, now);
      state := Logged(state, i, reasoning, obs, now);
      done := done + 1;
      ReferencesKeepHead(state, saved, trace, done, state.references, state.referenceHistory, now);
      state := state.(updatedAt := At(now));
      HeadIsValid(state, saved, trace, done);
      SavedStep(state, now, i);
      var ok := Save(now);
      HeadIsValid(state, saved, trace, done);
      LogShows(state, saved, trace, done);
      if !ok {
        return Failure(SaveFailed), reasoned;
      }
      return Continue, reasoned;
    }

    /** Execute an ask_user step: pause on a non-blank question. */
    method RunAsk(i: nat, now: int) returns (out: Outcome)
      requires !closed && !store.status.WaitingUser? && InHand(state, saved, trace, done, i)
      modifies this
      ensures Valid() && TraceGrows(old(trace), trace)
      ensures |trace.decisions| == |old(trace.decisions)| && trace.starts == old(trace.starts)
      ensures out.Answer? ==>
                && store.status.WaitingUser? && store.waiting.Some?
                && store.waiting.value.question == store.finalAnswer == out.text
      ensures out.Answer? || out.Failure?
    {
      hide Inv, HeadState, SoundState, InHand, SavedOk, AllWithin, AtMostOneRunning, SameShape, WaitingAgrees;
      hide RepeatsApart, Trim, Contribution, DoneCalls, Asked;
      InHandIs(state, saved, trace, done, i);
      var default: Question := *;
      var question := QuestionOf(state.steps[i], default);
      var intent: string := *;
      var fields: seq<string> := *;
      var target: string := *;
      AskKeeps(state, saved, trace, done, i, question, intent, fields, target, now);
      trace := trace.(executed := trace.executed + [CallOf(state.steps[i])]);
      state := Asked(state, i, question, intent, fields, target, now);
      done := done + 1;
      var ok := Save(now);
      SoundIsValid(state, saved, trace, done);
      if !ok {
        return Failure(SaveFailed);
      }
      WaitingHas(store);
      return Answer(store.finalAnswer);
    }

    /** Execute a respond step: the session completes. */
    method RunRespond(i: nat, now: int) returns (out: Outcome)
      requires !closed && !store.status.WaitingUser? && InHand(state, saved, trace, done, i)
      modifies this
      ensures Valid() && TraceGrows(old(trace), trace)
      ensures |trace.decisions| == |old(trace.decisions)| && trace.starts == old(trace.starts)
      ensures out.Answer? ==>
                && store == state && store.status.Completed? && store.waiting.None?
                   && store.finalAnswer == Trim(out.text)
                && i < |store.steps| && store.steps[i].status.StepCompleted?
                   && store.steps[i].outputSummary == Trim(out.text)
                && trace == old(trace).(executed := old(trace).executed + [CallOf(old(state).steps[i])])
      ensures out.Answer? || out.Failure?
    {
      hide Inv, HeadState, SoundState, InHand, SavedOk, AllWithin, AtMostOneRunning, SameShape, WaitingAgrees;
      hide RepeatsApart, Trim, Contribution, DoneCalls, Responded;
      InHandIs(state, saved, trace, done, i);
      var responded: bool := *;
      if !responded {
        SoundIsValid(state, saved, trace, done);
        return Failure(RespondFailed);
      }
      var text: string := *;
      RespondKeeps(state, saved, trace, done, i, text, now);
      trace := trace.(executed := trace.executed + [CallOf(state.steps[i])]);
      RespondedStep(state, i, text, now);
      state := Responded(state, i, text, now);
      SavedStep(state, now, i);
      done := done + 1;
      var ok := Save(now);
      SoundIsValid(state, saved, trace, done);
      if !ok {
        return Failure(SaveFailed);
      }
      return Answer(text);
    }

    /** The execution half of a loop pass. */
    method RunStep(i: nat, now: int) returns (out: Outcome)
      requires AtLoopHead() && i < |state.steps| && Unstarted(state.steps[i])
      requires forall k :: 0 <= k < i ==> !Unstarted(state.steps[k])
      modifies this
      ensures Valid() && TraceGrows(old(trace), trace)
      ensures |trace.decisions| == |old(trace.decisions)| && trace.starts == old(trace.starts) + 1
      ensures out.Continue? ==> AtLoopHead()
      ensures out.Answer? && store.status.WaitingUser? ==>
                store.waiting.Some? && store.waiting.value.question == store.finalAnswer == out.text
    {
      hide Inv, HeadState, SoundState, InHand, SavedOk, AllWithin, AtMostOneRunning, SameShape, WaitingAgrees;
      hide RepeatsApart, Trim, Contribution, DoneCalls, Started;
      StartKeeps(state, saved, trace, done, i, now);
      state := Started(state, i, now);
      trace := trace.(starts := trace.starts + 1);
      InHandIs(state, saved, trace, done, i);
      ghost var before, earlier := state, saved;
      var ok := Save(now);
      SoundIsValid(state, saved, trace, done);
      if !ok {
        return Failure(SaveFailed);
      }
      InHandFrame(before, state, earlier, saved, trace, done, i);
      match state.steps[i].kind
      case Tool =>
        ghost var summary, raw;
        out, summary, raw := RunTool(i, now);
      case Reason =>
        ghost var reasoned;
        out, reasoned := RunReason(i, now);
      case AskUser => out := RunAsk(i, now);
      case Respond => out := RunRespond(i, now);
      case _ => out := Failure(UnsupportedStepType);
    }

    /** executePlan: at most twelve passes, each one decision or one step. */
    method ExecutePlan() returns (out: Outcome)
      requires AtLoopHead()
      modifies this
      ensures Valid() && TraceGrows(old(trace), trace) && !out.Continue?
      ensures |trace.decisions| + trace.starts <= |old(trace.decisions)| + old(trace.starts) + 12
      ensures trace.plain && trace.unique ==> RepeatsApart(trace)
      ensures trace.plain ==> OnlyExtends(saved) && forall i :: 0 <= i < |saved| ==> AtMostOneRunning(saved[i].steps)
      ensures forall i :: 0 <= i < |saved| ==> WaitingAgrees(saved[i])
      ensures !closed && trace.plain ==> DoneCalls(state.steps) == trace.executed
      ensures out.Answer? && store.status.WaitingUser? ==>
                store.waiting.Some? && store.waiting.value.question == store.finalAnswer == out.text
    {
      hide Inv, HeadState, SoundState, InHand, SavedOk, AllWithin, AtMostOneRunning, SameShape, WaitingAgrees;
      hide RepeatsApart, Trim, Contribution, DoneCalls;
      for i := 0 to MAX_ITERATIONS
        invariant AtLoopHead() && TraceGrows(old(trace), trace)
        invariant |trace.decisions| + trace.starts <= |old(trace.decisions)| + old(trace.starts) + i
      {
        var now: int := *;
        var index := NextPendingStepIndex(state.steps);
        if index < 0 {
          ghost var raw;
          out, raw := Decide(now);
        } else {
          out := RunStep(index, now);
        }
        if !out.Continue? {
          HeadOrDone();
          return;
        }
      }
      HeadOrDone();
      return Failure(IterationLimit);
    }

    /** A session that is valid or at a loop head has executed exactly its completed steps. */
    lemma HeadOrDone()
      requires Valid() || AtLoopHead()
      ensures Valid() && (!closed && trace.plain ==> DoneCalls(state.steps) == trace.executed)
      ensures trace.plain && trace.unique ==> RepeatsApart(trace)
      ensures trace.plain ==> OnlyExtends(saved) && forall i :: 0 <= i < |saved| ==> AtMostOneRunning(saved[i].steps)
      ensures forall i :: 0 <= i < |saved| ==> WaitingAgrees(saved[i])
    {
      hide AllWithin, OnlyExtends, WaitingAgrees, RepeatsApart, PendingApart, Split, AtMostOneRunning;
      if AtLoopHead() {
        HeadIsValid(state, saved, trace, done);
      }
      if !closed && trace.plain {
        PlainExecuted(state, trace, done);
      }
    }

    /** prepareExecutionState on a reply: the next loop head, or nothing if the save fails. */
    method Resume(reply: string, now: int) returns (ok: bool)
      requires Valid() && store.status.WaitingUser?
      modifies this
      ensures Valid() && TraceGrows(old(trace), trace)
      ensures ok ==> AtLoopHead() && trace.executed == old(trace.executed)
      ensures ok ==> trace.history == old(trace).history + Contribution(ReplyEntry(old(state), reply, now), now)
      ensures !ok ==> state == old(state) && store == old(store) && trace == old(trace)
    {
      hide Inv, HeadState, SoundState, InHand, SavedOk, AllWithin, AtMostOneRunning, SameShape, WaitingAgrees;
      hide RepeatsApart, Trim, Contribution, DoneCalls, Resumed, ReplyEntry, NormalizeExecutionState;
      var references: Option<CurrentReferences> := *;
      var history: seq<ReferenceRecord> := *;
      var snapshots: seq<Observation> := *;
      ok := *;
      if !ok {
        return;
      }
      ResumeKeepsHead(state, saved, trace, done, reply, references, history, snapshots, now);
      ghost var t := trace.(history := trace.history + Contribution(ReplyEntry(state, reply, now), now));
      var next := Resumed(state, reply, references, history, snapshots, now);
      HeadIsValid(next, saved, t, done);
      SaveKeeps(next, saved, t, done, now);
      state := NormalizeExecutionState(next, now);
      store := state;
      saved := saved + [state];
      trace := t;
      HeadIsValid(state, saved, trace, done);
    }

    /** applyExecutionStateExtraction on the waiting session, then its save. */
    method ApplyExtraction(supplied: map<string, string>, reason: string, summary: string, raw: string, now: int)
      returns (ok: bool)
      requires Valid() && store.status.WaitingUser?
      modifies this
      ensures Valid() && TraceGrows(old(trace), trace) && store.status.WaitingUser?
      ensures store.waiting.Some? && old(store.waiting).Some? && store.finalAnswer == old(store).finalAnswer
      ensures ok && !(supplied == map[] && Trim(reason) == "") ==>
                store.waiting.value.pendingFields == Without(old(store).waiting.value.pendingFields, supplied.Keys)
      ensures !ok || (supplied == map[] && Trim(reason) == "") ==> store == old(store) && trace == old(trace)
    {
      hide Inv, HeadState, SoundState, InHand, SavedOk, AllWithin, AtMostOneRunning, SameShape, WaitingAgrees;
      hide RepeatsApart, Trim, Contribution, DoneCalls, Extracted, NormalizeExecutionState, Without;
      SoundIsValid(state, saved, trace, done);
      WaitingHas(store);
      ok := true;
      if supplied == map[] && Trim(reason) == "" {
        return;
      }
      ok := *;
      if !ok {
        return;
      }
      var obs := Observation("", "waiting_user_input", summary, raw, At(now));
      ExtractionSaved(state, saved, trace, done, supplied, obs, now);
      state := NormalizeExecutionState(Extracted(state, supplied, obs, now), now);
      store := state;
      saved := saved + [state];
      trace := trace.(history := trace.history + Contribution(obs, now));
      SoundIsValid(state, saved, trace, done);
    }

    /** tryExecutionSummaryFallbackOnAIError: a session with a completed tool step ends with a
        summary answer; whatever it marks done extends the completed calls. */
    method SummaryFallback(error: string, now: int) returns (answered: bool)
      requires Valid() && !closed && !store.status.WaitingUser?
      modifies this
      ensures Valid() && trace == old(trace)
      ensures answered ==> closed && SomeToolDone(old(state).steps)
      ensures answered && trace.plain ==> DoneCalls(old(state.steps)) <= DoneCalls(state.steps)
      ensures !answered ==> state == old(state) && store == old(store)
    {
      hide Inv, HeadState, SoundState, InHand, SavedOk, AllWithin, AtMostOneRunning, SameShape, WaitingAgrees;
      hide RepeatsApart, Trim, Contribution, DoneCalls, FellBack, NormalizeExecutionState;
      var answer: string := *;
      if answer == "" || !SomeToolDone(state.steps) {
        return false;
      }
      FallbackKeeps(state, saved, trace, done, answer, error, now);
      SoundIsValid(state, saved, trace, done);
      state := NormalizeExecutionState(FellBack(state, answer, error, now), now);
      var ok: bool := *;
      if ok {
        store := state;
        saved := saved + [state];
      }
      closed := true;
      return true;
    }
  }
}
