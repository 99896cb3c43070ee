/** agent/execution_state.go: the durable execution state, its normaliser and the
    two-tier observation log (eight entries, spilling into four summary notes). */
module Execution {
  import opened Seqs
  import opened Text
  import opened Records

  datatype RunStatus = NoStatus | Planning | Running | WaitingUser | Completed | Failed | OtherStatus

  datatype StepStatus = NoStepStatus | StepPending | StepRunning | StepCompleted | StepFailed | StepOther

  datatype StepKind = NoKind | Tool | Reason | AskUser | Respond | OtherKind

  /** `toolArgs` is the marshalled JSON object of the arguments. */
  datatype PlanStep = PlanStep(
    id: string,
    kind: StepKind,
    title: string,
    status: StepStatus,
    toolName: string,
    toolArgs: string,
    instruction: string,
    requiresConfirmation: bool,
    outputSummary: string,
    error: string)

  datatype ExecutionState = ExecutionState(
    sessionId: string,
    goal: string,
    status: RunStatus,
    steps: seq<PlanStep>,
    currentStepId: string,
    references: Option<CurrentReferences>,
    referenceHistory: seq<ReferenceRecord>,
    snapshots: seq<Observation>,
    log: seq<Observation>,
    notes: seq<Observation>,
    waiting: Option<WaitingState>,
    observations: seq<Observation>,
    finalAnswer: string,
    lastError: string,
    updatedAt: Stamp)

  const EMPTY_STATE := ExecutionState("", "", NoStatus, [], "", None, [], [], [], [], None, [], "", "", Unstamped)

  const LOG_MAX: nat := 8
  const NOTES_MAX: nat := 4
  const NOTE_TEXT_MAX: nat := 500

  // --------------------------------------------------------------- compaction

  predicate Summarisable(o: Observation) {
    o.summary != "" || o.rawJson != ""
  }

  function SummaryPart(o: Observation): string {
    var tag := if o.kind == "" then "observation" else o.kind;
    tag + ": " + if o.summary != "" then o.summary else o.rawJson
  }

  function SummaryParts(os: seq<Observation>): seq<string> {
    if os == [] then []
    else
      var front := SummaryParts(os[..|os| - 1]);
      var last := os[|os| - 1];
      if Summarisable(last) then front + [SummaryPart(last)] else front
  }

  function Join(parts: seq<string>): string {
    if parts == [] then ""
    else if |parts| == 1 then parts[0]
    else Join(parts[..|parts| - 1]) + " | " + parts[|parts| - 1]
  }

  function Clip(text: string): string {
    if |text| > NOTE_TEXT_MAX then text[..NOTE_TEXT_MAX] + "..." else text
  }

  function SummaryNote(text: string, now: int): Observation {
    Observation("", "execution_summary", text, "", At(now))
  }

  /** summarizeExecutionOverflow as a function. */
  function SummarizeOverflow(os: seq<Observation>, now: int): Option<Observation> {
    var parts := SummaryParts(os);
    if parts == [] then None else Some(SummaryNote(Clip(Join(parts)), now))
  }

  /** summarizeExecutionOverflow. */
  method SummarizeExecutionOverflow(values: seq<Observation>, now: int) returns (note: Option<Observation>)
    ensures note == SummarizeOverflow(values, now)
  {
    var summaries: seq<string> := [];
    for i := 0 to |values|
      invariant summaries == SummaryParts(values[..i])
    {
      assert values[..i + 1][..i] == values[..i];
      var value := values[i];
      var tag := value.kind;
      if tag == "" {
        tag := "observation";
      }
      if value.summary != "" {
        summaries := summaries + [tag + ": " + value.summary];
      } else if value.rawJson != "" {
        summaries := summaries + [tag + ": " + value.rawJson];
      }
    }
    assert values[..|values|] == values;
    if |summaries| == 0 {
      return None;
    }
    var text := Join(summaries);
    if |text| > NOTE_TEXT_MAX {
      text := text[..NOTE_TEXT_MAX] + "...";
    }
    return Some(SummaryNote(text, now));
  }

  /** The entries an over-full log gives up. */
  function Overflow(log: seq<Observation>): seq<Observation> {
    if |log| <= LOG_MAX then [] else log[..|log| - LOG_MAX]
  }

  /** The notes after compaction: only the two outer branches cap them. */
  function CompactNotes(log: seq<Observation>, notes: seq<Observation>, now: int): seq<Observation> {
    if |log| <= LOG_MAX then Last(NOTES_MAX, notes)
    else match SummarizeOverflow(Overflow(log), now)
      case None => notes
      case Some(note) => Last(NOTES_MAX, notes + [note])
  }

  /** compactExecutionLog. */
  function CompactExecutionLog(s: ExecutionState, now: int): ExecutionState {
    s.(log := Last(LOG_MAX, s.log), notes := CompactNotes(s.log, s.notes, now))
  }

  // ------------------------------------------------------------ normalisation

  function NormalizeStep(step: PlanStep, index: nat): PlanStep {
    var id := Trim(step.id);
    PlanStep(
      if id == "" then "step_" + Decimal(index + 1) else id,
      step.kind, Trim(step.title),
      if step.status.NoStepStatus? then StepPending else step.status,
      Trim(step.toolName), step.toolArgs, Trim(step.instruction),
      step.requiresConfirmation, Trim(step.outputSummary), Trim(step.error))
  }

  function NormalizeSteps(steps: seq<PlanStep>): (r: seq<PlanStep>)
    ensures |r| == |steps|
    ensures forall i :: 0 <= i < |steps| ==> r[i] == NormalizeStep(steps[i], i)
  {
    seq(|steps|, i requires 0 <= i < |steps| => NormalizeStep(steps[i], i))
  }

  /** The log before compaction: legacy observations are folded in. */
  function MergedLog(s: ExecutionState, now: int): seq<Observation> {
    NormalizeObservations(s.log + s.observations, now)
  }

  /** normalizeExecutionState as a function. */
  function NormalizeExecutionState(s: ExecutionState, now: int): ExecutionState {
    CompactExecutionLog(
      ExecutionState(
        s.sessionId, Trim(s.goal),
        if s.status.NoStatus? && s.sessionId != "" then Planning else s.status,
        NormalizeSteps(s.steps), Trim(s.currentStepId),
        NormalizeCurrentReferences(s.references, now),
        NormalizeReferenceHistory(s.referenceHistory, now),
        NormalizeObservations(s.snapshots, now),
        MergedLog(s, now),
        NormalizeObservations(s.notes, now),
        NormalizeWaiting(s.waiting, now),
        [],
        Trim(s.finalAnswer), Trim(s.lastError),
        if s.updatedAt.Unstamped? && s.sessionId != "" then At(now) else s.updatedAt),
      now)
  }

  /** The step loop of normalizeExecutionState. */
  method NormalizeStepsInPlace(before: seq<PlanStep>) returns (steps: seq<PlanStep>)
    ensures steps == NormalizeSteps(before)
  {
    steps := before;
    for i := 0 to |steps|
      invariant |steps| == |before|
      invariant forall k :: 0 <= k < i ==> steps[k] == NormalizeStep(before[k], k)
      invariant forall k :: i <= k < |steps| ==> steps[k] == before[k]
    {
      var step := steps[i];
      step := step.(id := Trim(step.id));
      if step.id == "" {
        step := step.(id := "step_" + Decimal(i + 1));
      }
      step := step.(title := Trim(step.title), toolName := Trim(step.toolName), instruction := Trim(step.instruction),
                    outputSummary := Trim(step.outputSummary), error := Trim(step.error));
      if step.status.NoStepStatus? {
        step := step.(status := StepPending);
      }
      steps := steps[i := step];
    }
  }

  /** compactExecutionLog on the two lists it changes. */
  method CompactInPlace(log0: seq<Observation>, notes0: seq<Observation>, now: int)
    returns (log: seq<Observation>, notes: seq<Observation>)
    ensures log == Last(LOG_MAX, log0) && notes == CompactNotes(log0, notes0, now)
  {
    log, notes := log0, notes0;
    if |log| <= LOG_MAX {
      if |notes| > NOTES_MAX {
        notes := notes[|notes| - NOTES_MAX..];
      }
      return;
    }
    var overflow := log[..|log| - LOG_MAX];
    log := log[|log| - LOG_MAX..];
    var summary := SummarizeExecutionOverflow(overflow, now);
    if summary.Some? {
      notes := notes + [summary.value];
      if |notes| > NOTES_MAX {
        notes := notes[|notes| - NOTES_MAX..];
      }
    }
  }

  /** normalizeExecutionState: fields and steps are rewritten one by one. */
  method NormalizeExecutionStateInPlace(state: ExecutionState, now: int) returns (s: ExecutionState)
    ensures s == NormalizeExecutionState(state, now)
  {
    var history := NormalizeReferenceHistoryLoop(state.referenceHistory, now);
    var steps := NormalizeStepsInPlace(state.steps);
    var merged := state.log;
    if |state.observations| > 0 {
      merged := merged + state.observations;
    }
    assert merged == state.log + state.observations;
    var snapshots := NormalizeObservationList(state.snapshots, now);
    var full := NormalizeObservationList(merged, now);
    var kept := NormalizeObservationList(state.notes, now);
    var log, notes := CompactInPlace(full, kept, now);
    s := state.(
      goal := Trim(state.goal), currentStepId := Trim(state.currentStepId),
      finalAnswer := Trim(state.finalAnswer), lastError := Trim(state.lastError),
      references := NormalizeCurrentReferences(state.references, now),
      waiting := NormalizeWaiting(state.waiting, now),
      referenceHistory := history, steps := steps, observations := [],
      snapshots := snapshots, log := log, notes := notes);
    if s.status.NoStatus? && s.sessionId != "" {
      s := s.(status := Planning);
    }
    if s.updatedAt.Unstamped? && s.sessionId != "" {
      s := s.(updatedAt := At(now));
    }
  }

  /** Everything the normaliser promises of a saved state, the note cap aside. */
  predicate WellFormed(s: ExecutionState) {
    && |s.log| <= 8 && AllTidy(s.log)
    && AllTidy(s.notes) && AllTidy(s.snapshots)
    && |s.referenceHistory| <= 12
    && s.observations == []
    && (forall i :: 0 <= i < |s.steps| ==> s.steps[i].id != "" && !s.steps[i].status.NoStepStatus?)
    && (s.sessionId != "" ==> !s.status.NoStatus? && s.updatedAt.At?)
  }

  /** Compaction leaves at most four notes: the input already fits, or no cap is skipped. */
  predicate NotesWillFit(s: ExecutionState, now: int) {
    || |NormalizeObservations(s.notes, now)| <= NOTES_MAX
    || |MergedLog(s, now)| <= LOG_MAX
    || exists i :: 0 <= i < |Overflow(MergedLog(s, now))| && Summarisable(Overflow(MergedLog(s, now))[i])
  }

  lemma {:induction false} SummaryPartsEmpty(os: seq<Observation>)
    ensures SummaryParts(os) == [] <==> forall i :: 0 <= i < |os| ==> !Summarisable(os[i])
  {
    if os != [] {
      SummaryPartsEmpty(os[..|os| - 1]);
      assert os[|os| - 1] == os[|os| - 1];
      if SummaryParts(os[..|os| - 1]) != [] {
        var i :| 0 <= i < |os| - 1 && Summarisable(os[..|os| - 1][i]);
        assert Summarisable(os[i]);
      }
    }
  }

  lemma ConcatTrimmed(a: string, mid: string, b: string)
    requires a != "" && b != "" && Trimmed(a) && Trimmed(b)
    ensures Trimmed(a + mid + b)
  {
    var t := a + mid + b;
    assert t[0] == a[0] && t[|t| - 1] == b[|b| - 1];
  }

  lemma SummaryPartTrimmed(o: Observation)
    requires Tidy(o) && Summarisable(o)
    ensures SummaryPart(o) != "" && Trimmed(SummaryPart(o))
  {
    hide Trim;
    TrimLaws(o.kind);
    TrimLaws(o.summary);
    TrimLaws(o.rawJson);
    var tag := if o.kind == "" then "observation" else o.kind;
    var body := if o.summary != "" then o.summary else o.rawJson;
    assert Trimmed("observation");
    ConcatTrimmed(tag, ": ", body);
  }

  lemma {:induction false} SummaryTextTrimmed(os: seq<Observation>)
    requires AllTidy(os)
    ensures SummaryParts(os) != [] ==> Join(SummaryParts(os)) != "" && Trimmed(Join(SummaryParts(os)))
  {
    hide Trim;
    if os != [] {
      var front, last := os[..|os| - 1], os[|os| - 1];
      SummaryTextTrimmed(front);
      if Summarisable(last) {
        assert Tidy(last);
        SummaryPartTrimmed(last);
        var parts := SummaryParts(os);
        assert parts[..|parts| - 1] == SummaryParts(front);
        if SummaryParts(front) != [] {
          ConcatTrimmed(Join(SummaryParts(front)), " | ", SummaryPart(last));
        }
      }
    }
  }

  lemma ClipTrimmed(text: string)
    requires text != "" && Trimmed(text)
    ensures Clip(text) != "" && Trimmed(Clip(text))
  {
    if |text| > NOTE_TEXT_MAX {
      assert Clip(text)[0] == text[0] && Clip(text)[|Clip(text)| - 1] == '.';
    }
  }

  /** A fresh note is already in normal form. */
  lemma NoteTidy(os: seq<Observation>, now: int)
    requires AllTidy(os)
    ensures var n := SummarizeOverflow(os, now); n.Some? ==> Tidy(n.value)
  {
    hide Trim;
    var parts := SummaryParts(os);
    if parts != [] {
      SummaryTextTrimmed(os);
      ClipTrimmed(Join(parts));
      TrimLaws(Clip(Join(parts)));
      assert Trimmed("execution_summary");
      TrimLaws("execution_summary");
      TrimLaws("");
    }
  }

  lemma StepsStable(steps: seq<PlanStep>)
    ensures NormalizeSteps(NormalizeSteps(steps)) == NormalizeSteps(steps)
  {
    hide Trim;
    var once := NormalizeSteps(steps);
    forall i | 0 <= i < |steps|
      ensures NormalizeStep(once[i], i) == once[i]
    {
      NormalizeStepStable(steps[i], i);
    }
  }

  lemma NormalizeStepStable(step: PlanStep, i: nat)
    ensures NormalizeStep(NormalizeStep(step, i), i) == NormalizeStep(step, i)
    ensures NormalizeStep(step, i).id != ""
  {
    hide Trim;
    var once := NormalizeStep(step, i);
    TrimLaws(step.id);
    TrimLaws(step.title);
    TrimLaws(step.toolName);
    TrimLaws(step.instruction);
    TrimLaws(step.outputSummary);
    TrimLaws(step.error);
    StepNameTrimmed(i);
  }

  lemma StepNameTrimmed(i: nat)
    ensures var id := "step_" + Decimal(i + 1); id != "" && Trim(id) == id
  {
    var d := Decimal(i + 1);
    var id := "step_" + d;
    assert id[|id| - 1] == d[|d| - 1] && d[|d| - 1] in d;
    assert Trimmed(id);
    TrimLaws(id);
  }

  /** What one pass makes of the parts it rewrites: texts are trimmed, steps without an id are numbered
      and those without a status pending, and a named session has a status and a time. */
  lemma NormalizeRewrites(s: ExecutionState, now: int)
    ensures var n := NormalizeExecutionState(s, now);
            && n.sessionId == s.sessionId && n.goal == Trim(s.goal) && n.currentStepId == Trim(s.currentStepId)
            && n.finalAnswer == Trim(s.finalAnswer) && n.lastError == Trim(s.lastError)
            && n.status == (if s.status.NoStatus? && s.sessionId != "" then Planning else s.status)
            && n.updatedAt == (if s.updatedAt.Unstamped? && s.sessionId != "" then At(now) else s.updatedAt)
            && |n.steps| == |s.steps|
  {
  }

  lemma StepRewritten(s: ExecutionState, i: nat, now: int)
    requires i < |s.steps|
    ensures var a, b := s.steps[i], NormalizeExecutionState(s, now).steps[i];
            && b.id == (if Trim(a.id) == "" then "step_" + Decimal(i + 1) else Trim(a.id))
            && b.title == Trim(a.title) && b.toolName == Trim(a.toolName) && b.instruction == Trim(a.instruction)
            && b.outputSummary == Trim(a.outputSummary) && b.error == Trim(a.error)
            && b.kind == a.kind && b.toolArgs == a.toolArgs && b.requiresConfirmation == a.requiresConfirmation
            && b.status == (if a.status.NoStepStatus? then StepPending else a.status)
  {
  }

  /** The output of one pass satisfies every promised bound. */
  lemma NormalizeWellFormed(s: ExecutionState, now: int)
    ensures WellFormed(NormalizeExecutionState(s, now))
  {
    hide Trim;
    var n := NormalizeExecutionState(s, now);
    NormalizedObservationsTidy(s.log + s.observations, now);
    NormalizedObservationsTidy(s.notes, now);
    NormalizedObservationsTidy(s.snapshots, now);
    NoteTidy(Overflow(MergedLog(s, now)), now);
    forall i | 0 <= i < |s.steps|
      ensures n.steps[i].id != ""
    {
      NormalizeStepStable(s.steps[i], i);
    }
  }

  /** The note bound holds exactly when no cap is skipped; every other bound always holds. */
  lemma NoteBound(s: ExecutionState, now: int)
    ensures |NormalizeExecutionState(s, now).notes| <= 4 <==> NotesWillFit(s, now)
  {
    SummaryPartsEmpty(Overflow(MergedLog(s, now)));
  }

  /** A well-formed state changes under a second pass only by losing surplus notes. */
  lemma SecondPass(s: ExecutionState, now: int, later: int)
    ensures var n := NormalizeExecutionState(s, now);
            NormalizeExecutionState(n, later) == n.(notes := Last(NOTES_MAX, n.notes))
  {
    hide Trim;
    var n := NormalizeExecutionState(s, now);
    NormalizeWellFormed(s, now);
    TrimLaws(s.goal);
    TrimLaws(s.currentStepId);
    TrimLaws(s.finalAnswer);
    TrimLaws(s.lastError);
    StepsStable(s.steps);
    CurrentReferencesStable(s.references, now, later);
    ReferenceHistoryStable(s.referenceHistory, now, later);
    WaitingStable(s.waiting, now, later);
    TidyObservationsKept(n.snapshots, later);
    TidyObservationsKept(n.notes, later);
    assert n.log + n.observations == n.log;
    TidyObservationsKept(n.log, later);
  }

  /** The normaliser is idempotent exactly on inputs whose notes will fit. */
  lemma IdempotentIff(s: ExecutionState, now: int, later: int)
    ensures var n := NormalizeExecutionState(s, now);
            NormalizeExecutionState(n, later) == n <==> NotesWillFit(s, now)
  {
    SecondPass(s, now, later);
    NoteBound(s, now);
  }

  /** Whatever comes in, two passes reach a fixed point. */
  lemma TwoPassesSettle(s: ExecutionState, t0: int, t1: int, t2: int)
    ensures var n := NormalizeExecutionState(NormalizeExecutionState(s, t0), t1);
            NormalizeExecutionState(n, t2) == n
  {
    SecondPass(s, t0, t1);
    SecondPass(NormalizeExecutionState(s, t0), t1, t2);
  }

  /** A step the normaliser leaves alone. */
  predicate TidyStep(step: PlanStep) {
    && step.id != "" && Trimmed(step.id) && Trimmed(step.title) && Trimmed(step.toolName) && Trimmed(step.instruction)
    && Trimmed(step.outputSummary) && Trimmed(step.error) && !step.status.NoStepStatus?
  }

  lemma StepFixedIff(step: PlanStep, i: nat)
    ensures NormalizeStep(step, i) == step <==> TidyStep(step)
  {
    hide Trim, Trimmed;
    NormalizeStepStable(step, i);
    StepNameTrimmed(i);
    TrimmedIff(step.id);
    TrimmedIff(step.title);
    TrimmedIff(step.toolName);
    TrimmedIff(step.instruction);
    TrimmedIff(step.outputSummary);
    TrimmedIff(step.error);
  }

  lemma StepsFixedIff(steps: seq<PlanStep>)
    ensures NormalizeSteps(steps) == steps <==> forall i :: 0 <= i < |steps| ==> TidyStep(steps[i])
  {
    hide NormalizeStep, TidyStep;
    forall i | 0 <= i < |steps|
      ensures NormalizeStep(steps[i], i) == steps[i] <==> TidyStep(steps[i])
    {
      StepFixedIff(steps[i], i);
    }
  }

  /** The states saving changes nothing in. */
  predicate InNormalForm(s: ExecutionState) {
    && Trimmed(s.goal) && Trimmed(s.currentStepId) && Trimmed(s.finalAnswer) && Trimmed(s.lastError)
    && (s.sessionId != "" ==> !s.status.NoStatus? && s.updatedAt.At?)
    && (forall i :: 0 <= i < |s.steps| ==> TidyStep(s.steps[i]))
    && TidyReferences(s.references) && TidyWaiting(s.waiting)
    && |s.referenceHistory| <= 12
       && (forall i :: 0 <= i < |s.referenceHistory| ==> TidyRecord(s.referenceHistory[i]))
    && AllTidy(s.snapshots) && AllTidy(s.log) && AllTidy(s.notes)
    && |s.log| <= 8 && |s.notes| <= 4 && s.observations == []
  }

  /** The normaliser fixes exactly the states in normal form: it rewrites nothing it need not. */
  lemma FixedIffNormalForm(s: ExecutionState, now: int)
    ensures NormalizeExecutionState(s, now) == s <==> InNormalForm(s)
  {
    hide Trim, Trimmed, TidyStep, TidyReferences, TidyWaiting, TidyRecord, AllTidy, NormalizeObservations;
    hide NormalizeSteps;
    hide NormalizeCurrentReferences, NormalizeReferenceHistory, NormalizeWaiting, SummarizeOverflow, NotesWillFit;
    hide WellFormed;
    TrimmedIff(s.goal);
    TrimmedIff(s.currentStepId);
    TrimmedIff(s.finalAnswer);
    TrimmedIff(s.lastError);
    StepsFixedIff(s.steps);
    ReferencesFixedIff(s.references, now);
    WaitingFixedIff(s.waiting, now);
    HistoryFixedIff(s.referenceHistory, now);
    ObservationsFixedIff(s.snapshots, now);
    ObservationsFixedIff(s.log, now);
    ObservationsFixedIff(s.notes, now);
    SecondPass(s, now, now);
    WellFormedLog(s, now);
    var n := NormalizeExecutionState(s, now);
    if s.observations == [] {
      assert s.log + s.observations == s.log;
      assert AllTidy(s.log) ==> MergedLog(s, now) == s.log;
    }
    if n == s {
      assert s.observations == [];
      assert MergedLog(s, now) == s.log;
      assert InNormalForm(s);
    }
    if InNormalForm(s) {
      assert n == s;
    }
  }

  lemma WellFormedLog(s: ExecutionState, now: int)
    ensures var n := NormalizeExecutionState(s, now);
            |n.log| <= LOG_MAX && n.observations == [] && AllTidy(n.log) && AllTidy(n.notes)
  {
    hide NormalizeExecutionState, AllTidy;
    NormalizeWellFormed(s, now);
  }

  /** The cap really is skipped: nine entries without text or raw JSON keep five notes. */
  lemma FiveNotesSurvive(now: int)
    ensures var bare := Observation("", "tick", "", "", At(0));
            var note := SummaryNote("x", 0);
            var s := EMPTY_STATE.(log := seq(9, _ => bare), notes := seq(5, _ => note));
            |NormalizeExecutionState(s, now).notes| == 5
  {
    hide Trim;
    var bare := Observation("", "tick", "", "", At(0));
    var note := SummaryNote("x", 0);
    var s := EMPTY_STATE.(log := seq(9, _ => bare), notes := seq(5, _ => note));
    assert Trimmed("tick") && Trimmed("x") && Trimmed("execution_summary");
    TrimLaws("tick");
    TrimLaws("x");
    TrimLaws("execution_summary");
    TrimLaws("");
    assert Tidy(bare) && Tidy(note);
    assert s.log + s.observations == s.log;
    TidyObservationsKept(s.log, now);
    TidyObservationsKept(s.notes, now);
    SummaryPartsEmpty(Overflow(s.log));
  }

  // -------------------------------------------------- the two-tier log refinement

  /** appendExecutionLog. */
  function AppendExecutionLog(s: ExecutionState, obs: Observation, now: int): ExecutionState {
    NormalizeExecutionState(s.(log := s.log + [obs]), now)
  }

  datatype Entry = Entry(obs: Observation, at: int)

  /** Append every entry in turn. */
  function AppendAll(s: ExecutionState, entries: seq<Entry>): ExecutionState {
    if entries == [] then s
    else
      var last := entries[|entries| - 1];
      AppendExecutionLog(AppendAll(s, entries[..|entries| - 1]), last.obs, last.at)
  }

  /** The unbounded history: every non-blank observation in normal form. */
  function History(entries: seq<Entry>): seq<Observation> {
    if entries == [] then []
    else
      var last := entries[|entries| - 1];
      History(entries[..|entries| - 1]) + Contribution(last.obs, last.at)
  }

  /** The summary texts the evicted entries leave behind, oldest first. */
  function NoteTexts(os: seq<Observation>): seq<string> {
    if os == [] then []
    else
      var last := os[|os| - 1];
      NoteTexts(os[..|os| - 1]) + if Summarisable(last) then [Clip(SummaryPart(last))] else []
  }

  /** `notes` are exactly the summary notes with these texts, in this order. */
  predicate NotesShow(notes: seq<Observation>, texts: seq<string>) {
    && |notes| == |texts|
    && forall i :: 0 <= i < |notes| ==>
         notes[i].summary == texts[i] && notes[i].kind == "execution_summary" && notes[i].stepId == ""
         && notes[i].rawJson == ""
  }

  /** What one more entry makes a full window give up. */
  lemma OverflowStep(h: seq<Observation>, o: Observation)
    requires |h| >= LOG_MAX
    ensures Overflow(Last(LOG_MAX, h) + [o]) == [h[|h| - LOG_MAX]]
    ensures Overflow(h + [o]) == Overflow(h) + [h[|h| - LOG_MAX]]
  {
  }

  /** What an evicted entry leaves in the notes: its kind, "observation" if it has none, and its summary,
      or its raw JSON if it has no summary; past 500 characters the text is cut and ends in dots. */
  lemma NoteReads(o: Observation, now: int)
    ensures var body := if o.summary == "" then o.rawJson else o.summary;
            var tag := if o.kind == "" then "observation" else o.kind;
            var text := tag + ": " + body;
            var note := SummarizeOverflow([o], now);
            && (note.None? <==> o.summary == "" && o.rawJson == "")
            && (note.Some? ==>
                  && note.value.summary == (if |text| <= 500 then text else text[..500] + "...")
                  && note.value.kind == "execution_summary" && note.value.createdAt == At(now)
                  && note.value.stepId == "" && note.value.rawJson == "")
  {
    SingleSummary(o, now);
  }

  /** Several evicted entries share one note, in order, with bars between them. */
  lemma NotesAreJoined(os: seq<Observation>, o: Observation, now: int)
    requires SummaryParts(os) != []
    ensures SummaryParts(os + [o]) == SummaryParts(os) + SummaryParts([o])
    ensures SummaryParts([o]) != [] ==>
              Join(SummaryParts(os + [o])) == Join(SummaryParts(os)) + " | " + Join(SummaryParts([o]))
    ensures SummaryParts([o]) == [] ==> Join(SummaryParts(os + [o])) == Join(SummaryParts(os))
  {
    assert (os + [o])[..|os|] == os && [o][..0] == [];
    assert SummaryParts([]) == [];
    var parts := SummaryParts(os + [o]);
    if SummaryParts([o]) != [] {
      assert parts[..|parts| - 1] == SummaryParts(os);
    }
  }

  /** The entries an over-full log gives up: all but the newest eight. */
  lemma OverflowIs(log: seq<Observation>)
    ensures Overflow(log) + Last(8, log) == log
  {
  }

  /** The summary of a single evicted entry. */
  lemma SingleSummary(gone: Observation, now: int)
    ensures SummarizeOverflow([gone], now)
         == if Summarisable(gone) then Some(SummaryNote(Clip(SummaryPart(gone)), now)) else None
  {
    assert [gone][..0] == [];
    assert SummaryParts([gone]) == if Summarisable(gone) then [SummaryPart(gone)] else [];
  }

  /** Evicting `gone` after `over` extends the notes by its summary, if it has one. */
  lemma NotesStep(over: seq<Observation>, notes: seq<Observation>, gone: Observation, now: int)
    requires NotesShow(notes, Last(NOTES_MAX, NoteTexts(over)))
    ensures var texts := NoteTexts(over + [gone]);
            var note := SummarizeOverflow([gone], now);
            NotesShow(if note.None? then notes else Last(NOTES_MAX, notes + [note.value]), Last(NOTES_MAX, texts))
  {
    hide Trim;
    SingleSummary(gone, now);
    assert (over + [gone])[..|over|] == over;
    if Summarisable(gone) {
      var text := Clip(SummaryPart(gone));
      var note := SummaryNote(text, now);
      var shown := Last(NOTES_MAX, NoteTexts(over));
      LastAppend(NOTES_MAX, NoteTexts(over), [text]);
      assert NotesShow(notes + [note], shown + [text]);
    }
  }

  /** Pushing one tidy entry through the window evicts, and summarises, at most one. */
  lemma WindowStep(h: seq<Observation>, notes: seq<Observation>, o: Observation, now: int)
    requires AllTidy(h) && Tidy(o) && AllTidy(notes)
    requires NotesShow(notes, Last(NOTES_MAX, NoteTexts(Overflow(h))))
    ensures var log := Last(LOG_MAX, h) + [o];
            && Last(LOG_MAX, log) == Last(LOG_MAX, h + [o])
            && AllTidy(CompactNotes(log, notes, now))
            && NotesShow(CompactNotes(log, notes, now), Last(NOTES_MAX, NoteTexts(Overflow(h + [o]))))
  {
    hide Trim;
    LastAppend(LOG_MAX, h, [o]);
    if |h| >= LOG_MAX {
      var gone := h[|h| - LOG_MAX];
      OverflowStep(h, o);
      NotesStep(Overflow(h), notes, gone, now);
      NoteTidy([gone], now);
    }
  }

  /** The observation an append contributes to the history, if any. */
  function Contribution(obs: Observation, now: int): seq<Observation> {
    if Blank(obs) then [] else [TrimObservation(obs, now)]
  }

  /** An append contributes its entry, trimmed and stamped, unless kind, summary and raw JSON are blank. */
  lemma Contributes(o: Observation, now: int)
    ensures Contribution(o, now) ==
            if Trim(o.kind) == "" && Trim(o.summary) == "" && Trim(o.rawJson) == "" then []
            else [Observation(Trim(o.stepId), Trim(o.kind), Trim(o.summary), Trim(o.rawJson),
                              if o.createdAt.At? then o.createdAt else At(now))]
  {
  }

  /** What an append does to the two log tiers and the fields it leaves alone. */
  lemma AppendUnfolds(s: ExecutionState, obs: Observation, now: int)
    requires AllTidy(s.log) && |s.log| <= LOG_MAX && AllTidy(s.notes) && |s.notes| <= NOTES_MAX && s.observations == []
    ensures var s', log := AppendExecutionLog(s, obs, now), s.log + Contribution(obs, now);
            s'.log == Last(LOG_MAX, log) && s'.notes == CompactNotes(log, s.notes, now) && s'.observations == []
  {
    hide Trim;
    var grown := s.log + [obs];
    assert grown + [] == grown;
    assert grown[..|grown| - 1] == s.log;
    TidyObservationsKept(s.log, now);
    TidyObservationsKept(s.notes, now);
    if Blank(obs) {
      assert s.log + [] == s.log;
    }
  }

  /** One append to a compacted log. */
  lemma AppendStep(s: ExecutionState, h: seq<Observation>, obs: Observation, now: int)
    requires AllTidy(h) && AllTidy(s.notes) && s.observations == []
    requires s.log == Last(LOG_MAX, h) && NotesShow(s.notes, Last(NOTES_MAX, NoteTexts(Overflow(h))))
    ensures var s', h' := AppendExecutionLog(s, obs, now), h + Contribution(obs, now);
            && AllTidy(h') && AllTidy(s'.notes) && s'.observations == []
            && s'.log == Last(LOG_MAX, h') && NotesShow(s'.notes, Last(NOTES_MAX, NoteTexts(Overflow(h'))))
  {
    hide Trim;
    AppendUnfolds(s, obs, now);
    if Blank(obs) {
      assert h + [] == h && s.log + [] == s.log;
    } else {
      TrimObservationTidy(obs, now);
      WindowStep(h, s.notes, TrimObservation(obs, now), now);
    }
  }

  /** Two-tier refinement: after any appends to an empty log the log is the last eight of
      the full history and the notes are the last four summaries of what was evicted. */
  lemma {:induction false} LogRefinesHistory(s: ExecutionState, entries: seq<Entry>)
    requires s.log == [] && s.notes == [] && s.observations == []
    ensures var s' := AppendAll(s, entries);
            && AllTidy(History(entries)) && AllTidy(s'.notes) && s'.observations == []
            && s'.log == Last(8, History(entries))
            && NotesShow(s'.notes, Last(4, NoteTexts(Overflow(History(entries)))))
  {
    hide Trim;
    if entries != [] {
      var front, last := entries[..|entries| - 1], entries[|entries| - 1];
      LogRefinesHistory(s, front);
      AppendStep(AppendAll(s, front), History(front), last.obs, last.at);
    }
  }
}
