/** Suspending and restoring the active contexts of one user
    (agent/planner_runtime.go), as a round trip through the snapshot stack. */
module Suspensions {
  import opened Seqs
  import opened Text
  import opened Records
  import opened Execution
  import opened SkillSessions
  import opened ChatHistories
  import opened TaskStacks

  const HISTORY_TURNS: nat := 24
  const PARENT_TRIGGERS := ["exchange_management", "model_management", "strategy_management"]

  /** What is stored between turns beside the stack; None is an empty configuration value. */
  datatype Contexts = Contexts(
    skill: Option<SkillSession>,
    workflow: Option<WorkflowSession>,
    execution: Option<ExecutionState>,
    messages: seq<ChatMessage>)

  /** hasActiveWorkflowSession. */
  predicate WorkflowActive(w: Option<WorkflowSession>) {
    w.Some? && exists i ::
      0 <= i < |w.value.tasks| && (w.value.tasks[i].status.TaskPending? || w.value.tasks[i].status.TaskRunning?)
  }

  /** hasActiveExecutionState. */
  predicate ExecutionActive(x: Option<ExecutionState>) {
    x.Some? && Trim(x.value.sessionId) != ""
    && (x.value.status.Planning? || x.value.status.Running? || x.value.status.WaitingUser?)
  }

  /** Some saving pass produced this session: it is the output of its normaliser. */
  ghost predicate SkillSaved(s: SkillSession) {
    !s.name.NoSkill? && exists raw: SkillSession, now: int, aliasWins: bool ::
      s == NormalizeSkillSession(raw, now, aliasWins)
  }

  ghost predicate WorkflowSaved(w: WorkflowSession) {
    w.tasks != [] && exists raw: WorkflowSession, now: int :: w == NormalizeWorkflow(raw, now)
  }

  ghost predicate ExecutionSaved(x: ExecutionState) {
    Trim(x.sessionId) != "" && exists raw: ExecutionState, now: int :: x == NormalizeExecutionState(raw, now)
  }

  ghost predicate Saved(x: Contexts) {
    && (x.skill.Some? ==> SkillSaved(x.skill.value))
    && (x.workflow.Some? ==> WorkflowSaved(x.workflow.value))
    && (x.execution.Some? ==> ExecutionSaved(x.execution.value))
  }

  function ActiveWorkflow(x: Contexts, c: Chance): Option<WorkflowSession> {
    var w := NormalizeWorkflowPart(x.workflow, c);
    if WorkflowActive(w) then w else None
  }

  function ActiveExecution(x: Contexts, c: Chance): Option<ExecutionState> {
    var e := NormalizeExecutionPart(x.execution, c);
    if ExecutionActive(e) then e else None
  }

  predicate CreatesTrader(skill: Option<SkillSession>) {
    skill.Some? && skill.value.name.Trader? && skill.value.action.Create?
  }

  /** buildSuspendedTask, up to the resume hint's wording. */
  function Build(x: Contexts, hint: string, c: Chance): SuspendedTask {
    var skill := NormalizeSkillPart(NormalizeSkillPart(x.skill, c), c);
    var workflow := NormalizeWorkflowPart(ActiveWorkflow(x, c), c);
    var execution := NormalizeExecutionPart(ActiveExecution(x, c), c);
    var kind := if workflow.Some? then WorkflowKind else if skill.Some? then SkillKind
                else if execution.Some? then ExecutionKind else NoTaskKind;
    NormalizeSuspended(
      SuspendedTask("", "", "", kind, hint, CreatesTrader(skill), if CreatesTrader(skill) then PARENT_TRIGGERS else [],
                    skill, workflow, execution, Last(HISTORY_TURNS, x.messages), NotRecorded),
      c)
  }

  /** Some context would be lost by clearing without suspending. */
  predicate AnythingActive(x: Contexts) {
    x.skill.Some? || WorkflowActive(x.workflow) || ExecutionActive(x.execution)
  }

  /** Active is a stored skill session, a workflow with a task pending or running, or a named execution
      that is planning, running or waiting for the user. */
  lemma WhatIsActive(x: Contexts)
    ensures AnythingActive(x) <==>
            || x.skill.Some?
            || (x.workflow.Some?
                && exists t ::
                     t in x.workflow.value.tasks && (t.status == TaskPending || t.status == TaskRunning))
            || (x.execution.Some? && Trim(x.execution.value.sessionId) != ""
                && (x.execution.value.status == Planning || x.execution.value.status == Running
                    || x.execution.value.status == WaitingUser))
  {
    hide Trim;
    if x.workflow.Some?
       && exists t :: t in x.workflow.value.tasks && (t.status == TaskPending || t.status == TaskRunning) {
      var t :| t in x.workflow.value.tasks && (t.status == TaskPending || t.status == TaskRunning);
      var i :| 0 <= i < |x.workflow.value.tasks| && x.workflow.value.tasks[i] == t;
    }
  }

  // ------------------------------------------------------- what a snapshot holds

  /** The skill session a snapshot gives back: the slot pass settles its auto_start text. */
  function SettledSkill(skill: Option<SkillSession>): Option<SkillSession> {
    if skill.Some? then Some(NormalizeSlots(skill.value)) else None
  }

  /** The execution state a snapshot gives back: surplus notes are capped. */
  function SettledExecution(x: Option<ExecutionState>): Option<ExecutionState> {
    if ExecutionActive(x) then Some(x.value.(notes := Last(NOTES_MAX, x.value.notes))) else None
  }

  function KeptWorkflow(w: Option<WorkflowSession>): Option<WorkflowSession> {
    if WorkflowActive(w) then w else None
  }

  lemma SkillReadBack(skill: Option<SkillSession>, c: Chance)
    requires skill.Some? ==> SkillSaved(skill.value)
    ensures NormalizeSkillPart(skill, c) == SettledSkill(skill)
    ensures NormalizeSkillPart(SettledSkill(skill), c) == SettledSkill(skill)
    ensures SettledSkill(skill).Some? ==> SkillSaved(SettledSkill(skill).value)
    ensures skill.Some? ==> (SettledSkill(skill) == skill <==> AutoStartSettled(skill.value))
  {
    hide NormalizeSlots, NormalizeFields, AutoStartSettled, Mirrored;
    if skill.Some? {
      var s := skill.value;
      var raw, now, aliasWins :| s == NormalizeSkillSession(raw, now, aliasWins);
      LaterPass(raw, now, aliasWins, c.now, c.aliasWins);
      OnePass(raw, now, aliasWins);
      SecondSlotPass(s);
      SkillTwoPassesSettle(raw, now, aliasWins, c.now, c.aliasWins, c.now, c.aliasWins);
      NameKept(s, c.now, c.aliasWins);
      assert NormalizeSlots(s) == NormalizeSkillSession(s, c.now, c.aliasWins);
    }
  }

  lemma ExecutionReadBack(x: Option<ExecutionState>, c: Chance)
    requires x.Some? ==> ExecutionSaved(x.value)
    ensures var n := NormalizeExecutionPart(x, c);
            && (n.Some? <==> x.Some?)
            && (x.Some? ==> n.value == x.value.(notes := Last(NOTES_MAX, x.value.notes)))
    ensures NormalizeExecutionPart(SettledExecution(x), c) == SettledExecution(x)
    ensures SettledExecution(x).Some? ==> ExecutionSaved(SettledExecution(x).value)
  {
    hide NormalizeExecutionState, Trim;
    if x.Some? {
      var raw, now :| x.value == NormalizeExecutionState(raw, now);
      SecondPass(raw, now, c.now);
      TwoPassesSettle(raw, now, c.now, c.now);
    }
  }

  lemma WorkflowReadBack(w: Option<WorkflowSession>, c: Chance)
    requires w.Some? ==> WorkflowSaved(w.value)
    ensures NormalizeWorkflowPart(w, c) == w
  {
    hide NormalizeWorkflow;
    if w.Some? {
      var raw, now :| w.value == NormalizeWorkflow(raw, now);
      WorkflowStable(raw, now, c.now);
    }
  }

  /** Building and pushing a snapshot captures every active context, settled, and the last
      twenty-four messages; it is a task exactly when something was active. */
  lemma SnapshotHolds(x: Contexts, hint: string, c: Chance)
    requires Saved(x)
    ensures var built := Build(x, hint, c);
            var t := Settled(built, c);
            if AnythingActive(x) then
              && !built.kind.NoTaskKind?
              && !NormalizeSuspended(built, c).kind.NoTaskKind?
              && t.skill == SettledSkill(x.skill)
              && t.workflow == KeptWorkflow(x.workflow)
              && t.execution == SettledExecution(x.execution)
              && t.localHistory == Last(24, x.messages)
              && t.suspendedAt == Since(c.now)
              && t.resumeHint == Trim(hint)
              && t.resumeOnSuccess == CreatesTrader(SettledSkill(x.skill))
              && t.resumeTriggers ==
                 Clean(if t.resumeOnSuccess
                       then ["exchange_management", "model_management", "strategy_management"] else [])
              && t.kind ==
                   (if t.workflow.Some? then WorkflowKind else if t.skill.Some? then SkillKind else ExecutionKind)
              && t.snapshotId == c.snapshotId && t.intentId == c.intentId
            else built == NO_TASK && NormalizeSuspended(built, c) == NO_TASK
  {
    hide NormalizeSkillPart, NormalizeWorkflowPart, NormalizeExecutionPart, NormalizeSuspended, Settled, Trim;
    hide NormalizeSlots, Clean, Named;
    SkillReadBack(x.skill, c);
    SkillReadBack(SettledSkill(x.skill), c);
    WorkflowReadBack(x.workflow, c);
    ExecutionReadBack(x.execution, c);
    NothingSuspended(c);
    EmptyParts(c);
    var skill := SettledSkill(x.skill);
    var workflow := KeptWorkflow(x.workflow);
    var execution := SettledExecution(x.execution);
    var kind := if workflow.Some? then WorkflowKind else if skill.Some? then SkillKind
                else if execution.Some? then ExecutionKind else NoTaskKind;
    var t :=
      SuspendedTask("", "", "", kind, hint, CreatesTrader(skill), if CreatesTrader(skill) then PARENT_TRIGGERS else [],
                           skill, workflow, execution, Last(HISTORY_TURNS, x.messages), NotRecorded);
    assert Build(x, hint, c) == NormalizeSuspended(t, c);
    assert WithParts(t, c) == t;
    TrimLaws("");
    if AnythingActive(x) {
      BuiltTwice(t, c);
    } else {
      BlankVanishes(t, c);
    }
  }

  lemma EmptyParts(c: Chance)
    ensures NormalizeSkillPart(None, c) == None && NormalizeWorkflowPart(None, c) == None
            && NormalizeExecutionPart(None, c) == None
  {
    hide NormalizeSkillSession, NormalizeWorkflow, NormalizeExecutionState, Trim;
  }

  lemma BlankVanishes(t: SuspendedTask, c: Chance)
    requires t.kind.NoTaskKind? && t.skill.None? && t.workflow.None? && t.execution.None?
    ensures NormalizeSuspended(t, c) == NO_TASK
  {
    hide NormalizeSkillSession, NormalizeWorkflow, NormalizeExecutionState, Trim, Clean, Named;
  }

  /** The build pass followed by the passes of a push. */
  lemma BuiltTwice(t: SuspendedTask, c: Chance)
    requires !t.kind.NoTaskKind? && WithParts(t, c) == t && t.suspendedAt.NotRecorded?
    ensures var n := NormalizeSuspended(t, c);
            var s := Settled(n, c);
            && !n.kind.NoTaskKind?
            && !NormalizeSuspended(n, c).kind.NoTaskKind?
            && s.skill == t.skill && s.workflow == t.workflow && s.execution == t.execution
            && s.localHistory == t.localHistory && s.suspendedAt == Since(c.now)
            && s.resumeHint == Trim(t.resumeHint) && s.resumeOnSuccess == t.resumeOnSuccess
            && s.resumeTriggers == Clean(t.resumeTriggers) && s.kind == t.kind
            && (Trim(t.snapshotId) == "" ==> s.snapshotId == c.snapshotId)
            && (Trim(t.intentId) == "" ==> s.intentId == c.intentId)
  {
    hide Trim, NormalizeSkillPart, NormalizeWorkflowPart, NormalizeExecutionPart, Clean;
    var n := NormalizeSuspended(t, c);
    FrameTwice(t, c, c);
    FrameTwice(n, c, c);
    assert WithParts(n, c).skill == t.skill;
  }

  // ---------------------------------------------------------------- restoring

  /** saveWorkflowSession's stamp: the owner and the time of every save. */
  function Installed(w: Option<WorkflowSession>, user: int, now: int): Option<WorkflowSession> {
    if w.Some? then Some(w.value.(userId := user, updatedAt := At(now))) else None
  }

  /** The contexts after restoreSuspendedTask, when `y` is current. */
  function Reinstate(task: SuspendedTask, y: Contexts, c: Chance, user: int, cap: nat): Contexts {
    var t := NormalizeSuspended(task, c);
    if t.kind.NoTaskKind? then y
    else Contexts(
           NormalizeSkillPart(t.skill, c),
           Installed(NormalizeWorkflowPart(t.workflow, c), user, c.now),
           NormalizeExecutionPart(t.execution, c),
           if t.localHistory == [] then y.messages else Last(cap, t.localHistory))
  }

  /** The identity, up to what settling, the activity test and the history window take. */
  function Expected(x: Contexts, y: Contexts, user: int, cap: nat, now: int): Contexts {
    Contexts(
      SettledSkill(x.skill),
      Installed(KeptWorkflow(x.workflow), user, now),
      SettledExecution(x.execution),
      if x.messages == [] then y.messages else Last(cap, Last(HISTORY_TURNS, x.messages)))
  }

  /** A normal task is restored as it stands. */
  lemma ReinstateNormal(t: SuspendedTask, y: Contexts, d: Chance, user: int, cap: nat)
    requires TaskNormal(t)
    ensures Reinstate(t, y, d, user, cap) ==
            Contexts(t.skill, Installed(t.workflow, user, d.now), t.execution,
                     if t.localHistory == [] then y.messages else Last(cap, t.localHistory))
  {
    hide NormalizeSkillPart, NormalizeWorkflowPart, NormalizeExecutionPart, Trim, Clean, Named;
    assert NormalizeSuspended(t, d) == t;
    assert WithParts(t, d) == t;
  }

  /** Suspending `x` and restoring its snapshot over whatever `y` is current by then gives `x` back. */
  lemma RoundTrip(x: Contexts, y: Contexts, hint: string, c: Chance, d: Chance, user: int, cap: nat)
    requires Saved(x) && AnythingActive(x)
    ensures Reinstate(Settled(Build(x, hint, c), c), y, d, user, cap) == Expected(x, y, user, cap, d.now)
  {
    hide Build, Settled, NormalizeSuspended, SettledSkill, SettledExecution, KeptWorkflow, Reinstate, AnythingActive;
    hide Saved, TaskNormal;
    var built := Build(x, hint, c);
    SnapshotHolds(x, hint, c);
    SettledNormal([], built, c);
    assert Settled(built, c) in [] + [Settled(built, c)];
    ReinstateNormal(Settled(built, c), y, d, user, cap);
  }

  /** Everything stored is active, settled and within the history window. */
  ghost predicate Intact(x: Contexts) {
    && (x.skill.Some? ==> AutoStartSettled(x.skill.value))
    && (x.workflow.Some? ==> WorkflowActive(x.workflow))
    && (x.execution.Some? ==> ExecutionActive(x.execution) && |x.execution.value.notes| <= 4)
    && |x.messages| <= 24
  }

  lemma SameNotes(s: ExecutionState, notes: seq<Observation>)
    ensures s.(notes := notes) == s <==> notes == s.notes
  {
  }

  /** With nothing else said in between, the round trip is the identity (workflow save time
      aside) exactly on intact contexts. */
  lemma IdentityIff(x: Contexts, user: int, cap: nat, now: int)
    requires Saved(x) && cap >= 24
    ensures Expected(x, x, user, cap, now) == x.(workflow := Installed(x.workflow, user, now)) <==> Intact(x)
  {
    hide NormalizeSlots, AutoStartSettled, SkillSaved, WorkflowSaved, ExecutionSaved, WorkflowActive, Trim;
    SkillReadBack(x.skill, Chance(now, false, "0", "0"));
    var notes := if x.execution.Some? then x.execution.value.notes else [];
    assert |Last(NOTES_MAX, notes)| == |notes| <==> |notes| <= NOTES_MAX;
    var e := Expected(x, x, user, cap, now);
    if x.execution.Some? {
      SameNotes(x.execution.value, Last(NOTES_MAX, notes));
    }
    assert x.execution.Some? && SettledExecution(x.execution) == x.execution ==> Last(NOTES_MAX, notes) == notes;
    assert e.execution == x.execution <==> x.execution.Some? ==> ExecutionActive(x.execution) && |notes| <= NOTES_MAX;
    assert e.workflow == Installed(x.workflow, user, now) <==> x.workflow.Some? ==> WorkflowActive(x.workflow);
    assert e.skill == x.skill <==> x.skill.Some? ==> AutoStartSettled(x.skill.value);
    assert e.messages == x.messages <==> |x.messages| <= HISTORY_TURNS;
    assert |Last(HISTORY_TURNS, x.messages)| == |x.messages| <==> |x.messages| <= HISTORY_TURNS;
  }

  /** A completed execution beside an active skill session does not come back. */
  lemma CompletedRunIsLost(user: int, now: int)
    ensures var session := NormalizeSkillSession(EMPTY_SESSION.(name := Trader), 0, false);
            var run := NormalizeExecutionState(EMPTY_STATE.(sessionId := "s", status := Completed), 0);
            var x := Contexts(Some(session), None, Some(run), []);
            && Saved(x) && AnythingActive(x)
            && Expected(x, x, user, HISTORY_TURNS, now).execution.None? && x.execution.Some?
  {
    hide NormalizeSkillSession, Trim, WorkflowActive, SettledSkill, KeptWorkflow;
    assert Trimmed("s");
    TrimLaws("s");
    NameKept(EMPTY_SESSION.(name := Trader), 0, false);
    SessionKept(EMPTY_STATE.(sessionId := "s", status := Completed), 0);
    SavedRun();
  }

  lemma SavedRun()
    ensures NormalizeExecutionState(EMPTY_STATE.(sessionId := "s", status := Completed), 0).status.Completed?
  {
    hide Trim, NormalizeObservations, NormalizeReferenceHistory;
  }

  /** Within a day, popping after a push returns the pushed task and, unless five entries were
      showing, leaves exactly what would have shown without either. */
  lemma PushThenPop(stored: seq<SuspendedTask>, t: SuspendedTask, now: int, later: int)
    requires now <= later && t.suspendedAt == Since(now) && later <= now + 86400
    ensures var w := Visible(Visible(Visible(stored, now) + [t], now), later);
            && w != [] && w[|w| - 1] == t
            && (|stored| <= 5 && |Visible(stored, now)| < 5 ==> w[..|w| - 1] == Visible(stored, later))
  {
    hide Keep, LiveAt, IsSuffix;
    var v := Visible(stored, now);
    VisibleLive(stored, now);
    KeepConcat(LiveAt(now), v, [t]);
    KeepOne(t, now);
    var pushed := Last(STACK_MAX, v + [t]);
    assert Visible(v + [t], now) == pushed;
    var front := pushed[..|pushed| - 1];
    assert pushed == front + [t];
    KeepConcat(LiveAt(later), front, [t]);
    KeepOne(t, later);
    if |stored| <= STACK_MAX && |v| < STACK_MAX {
      assert front == v;
      KeepLater(stored, now, later);
    }
  }

  // -------------------------------------------------------------- the operations

  /** Topmost entry of `stack` satisfying `p`, or -1. */
  method TopmostMatch(stack: seq<SuspendedTask>, p: SuspendedTask -> bool) returns (match_: int)
    ensures -1 <= match_ < |stack|
    ensures match_ >= 0 ==> p(stack[match_])
    ensures forall j :: match_ < j < |stack| ==> !p(stack[j])
  {
    match_ := |stack| - 1;
    while match_ >= 0
      invariant -1 <= match_ < |stack|
      invariant forall j :: match_ < j < |stack| ==> !p(stack[j])
    {
      if p(stack[match_]) {
        return;
      }
      match_ := match_ - 1;
    }
  }

  /** `m` is the topmost index of `stack` satisfying `p`. */
  ghost predicate Topmost(stack: seq<SuspendedTask>, m: int, p: SuspendedTask -> bool) {
    0 <= m < |stack| && p(stack[m]) && forall j :: m < j < |stack| ==> !p(stack[j])
  }

  function HasId(id: string): SuspendedTask -> bool {
    (t: SuspendedTask) => Trim(t.snapshotId) == id
  }

  /** The topmost snapshot of a name: it carries the name, and nothing above it does. */
  lemma TopmostByName(stack: seq<SuspendedTask>, m: int, id: string)
    ensures Topmost(stack, m, HasId(id)) <==>
            && 0 <= m < |stack| && Trim(stack[m].snapshotId) == id
            && forall j :: m < j < |stack| ==> Trim(stack[j].snapshotId) != id
  {
    hide Trim;
  }

  predicate Awaiting(t: SuspendedTask) {
    t.kind.SkillKind? && t.skill.Some?
    && (t.skill.value.phase.AwaitConfirmation? || t.skill.value.phase.AwaitCreateConfirmation?
        || t.skill.value.phase.AwaitStartConfirmation?)
  }

  class UserContexts {
    const user: int
    const stack: SnapshotStack
    const history: ChatHistory
    var skill: Option<SkillSession>
    var workflow: Option<WorkflowSession>
    var execution: Option<ExecutionState>

    function View(): Contexts
      reads this, history
    {
      Contexts(skill, workflow, execution, history.Messages(user))
    }

    ghost predicate Valid()
      reads this, stack, history
    {
      stack.Valid() && history.Valid() && Saved(View())
    }

    constructor (user: int, cap: int, now: int)
      ensures Valid() && fresh(stack) && fresh(history) && this.user == user
      ensures View() == Contexts(None, None, None, []) && stack.stored == [] && stack.ideal == [] && stack.clock == now
    {
      hide Shows, Refines, AllNormal, Lossless, SkillSaved, WorkflowSaved, ExecutionSaved;
      this.user := user;
      stack := new SnapshotStack(now);
      history := new ChatHistory(cap);
      skill, workflow, execution := None, None, None;
    }

    /** saveSkillSession. */
    method SaveSkill(session: SkillSession, now: int, aliasWins: bool)
      requires Valid() && !session.name.NoSkill?
      modifies this`skill
      ensures Valid() && skill == Some(NormalizeSkillSession(session, now, aliasWins))
    {
      hide NormalizeSkillSession, Shows, WorkflowSaved, ExecutionSaved;
      SavedByPass(session, now, aliasWins);
      skill := Some(NormalizeSkillSession(session, now, aliasWins));
    }

    /** clearSkillSession. */
    method ClearSkill()
      requires Valid()
      modifies this`skill
      ensures Valid() && skill == None
    {
      skill := None;
    }

    /** Whatever the workflow and planning code saves or clears meanwhile. */
    method SaveOthers(workflow: Option<WorkflowSession>, execution: Option<ExecutionState>)
      requires Valid()
      requires workflow.Some? ==> WorkflowSaved(workflow.value)
      requires execution.Some? ==> ExecutionSaved(execution.value)
      modifies this`workflow, this`execution
      ensures Valid() && this.workflow == workflow && this.execution == execution
    {
      this.workflow := workflow;
      this.execution := execution;
    }

    /** A resumed parent's conversation comes back with a note on how its child ended. */
    method RecallParent(parent: seq<ChatMessage>, note: string, now: int)
      requires Valid()
      modifies history
      ensures Valid()
    {
      hide Shows, IsSuffix, Last, Trim, SkillSaved, WorkflowSaved, ExecutionSaved, AllNormal, Refines;
      if |parent| > 0 {
        history.Replace(user, parent);
      }
      if Trim(note) != "" {
        history.Add(user, System, note, now);
      }
    }

    /** suspendActiveContexts: everything active moves into one snapshot on top of the stack;
        with nothing active nothing changes. */
    method Suspend(hint: string, c: Chance) returns (ok: bool)
      requires Valid() && stack.clock <= c.now
      modifies this`skill, this`workflow, this`execution, stack
      ensures Valid()
      ensures ok == AnythingActive(old(View()))
      ensures !ok ==>
                && View() == old(View()) && stack.stored == old(stack.stored)
                && stack.ideal == old(stack.ideal) && stack.clock == old(stack.clock)
      ensures ok ==>
                var t := Settled(Build(old(View()), hint, c), c);
                && View() == Contexts(None, None, None, old(View()).messages)
                && t.suspendedAt == Since(c.now)
                && stack.stored == Visible(Visible(old(stack.stored), c.now) + [t], c.now)
                && stack.ideal == IdealPush(old(stack.ideal), t, c.now) && stack.clock == c.now
      ensures old(stack.NothingLost()) && |Visible(old(stack.stored), c.now)| < 5 ==> stack.NothingLost()
    {
      hide Build, NormalizeSuspended, Settled, AllNormal, Refines, Lossless, Visible, IdealPush, SkillSaved;
      hide WorkflowSaved, ExecutionSaved, Shows;
      hide WorkflowActive, ExecutionActive, SettledSkill, SettledExecution, KeptWorkflow;
      SnapshotHolds(View(), hint, c);
      var task := Build(View(), hint, c);
      if task.kind.NoTaskKind? {
        return false;
      }
      stack.Push(task, c);
      skill := None;
      workflow := None;
      execution := None;
      return true;
    }

    /** restoreSuspendedTask: the active contexts become exactly the snapshot's. */
    method Restore(task: SuspendedTask, c: Chance) returns (ok: bool)
      requires Valid()
      modifies this`skill, this`workflow, this`execution, history
      ensures Valid() && history.OthersKept(user)
      ensures ok == !NormalizeSuspended(task, c).kind.NoTaskKind?
      ensures View() == Reinstate(task, old(View()), c, user, history.maxTurns)
    {
      hide NormalizeSuspended, NormalizeSkillPart, NormalizeWorkflowPart, NormalizeExecutionPart, AllNormal, Refines;
      hide Shows, SkillSaved, WorkflowSaved, ExecutionSaved;
      var t := NormalizeSuspended(task, c);
      if t.kind.NoTaskKind? {
        return false;
      }
      skill, workflow, execution := None, None, None;
      if |t.localHistory| > 0 {
        history.Replace(user, t.localHistory);
      }
      SavedParts(t, c, user);
      execution := NormalizeExecutionPart(t.execution, c);
      workflow := Installed(NormalizeWorkflowPart(t.workflow, c), user, c.now);
      skill := NormalizeSkillPart(t.skill, c);
      return true;
    }

    /** The shared end of the restoring operations: take entry `at` out and restore it. */
    method RestoreAt(at: int, c: Chance) returns (ok: bool)
      requires Valid() && stack.clock <= c.now
      requires 0 <= at < |Visible(stack.stored, c.now)|
      modifies this`skill, this`workflow, this`execution, stack, history
      ensures Valid() && ok && stack.clock == c.now && history.OthersKept(user)
      ensures var v := Visible(old(stack.stored), c.now);
              && stack.stored == v[..at] + v[at + 1..]
              && View() == Reinstate(v[at], old(View()), c, user, history.maxTurns)
      ensures old(stack.NothingLost()) ==> stack.NothingLost()
    {
      hide NormalizeSuspended, Reinstate, Lossless, Refines, Visible, Saved, Shows, Keep, IdealRemove;
      NormalEntry(stack.stored, c.now, at, c);
      var task := stack.RemoveAt(at, c.now);
      ok := Restore(task.value, c);
    }

    /** restoreSuspendedTaskByID: the topmost snapshot of that name leaves the stack, the others
        keep their order, and the contexts become its own. */
    method RestoreById(snapshotId: string, c: Chance) returns (ok: bool)
      requires Valid() && stack.clock <= c.now
      modifies this`skill, this`workflow, this`execution, stack, history
      ensures Valid() && history.OthersKept(user)
      ensures var id := Trim(snapshotId);
              var v := Visible(old(stack.stored), c.now);
              ok <==> id != "" && exists m :: Topmost(v, m, HasId(id))
      ensures !ok ==>
                && View() == old(View()) && stack.stored == old(stack.stored)
                && stack.ideal == old(stack.ideal) && stack.clock == old(stack.clock)
      ensures var id := Trim(snapshotId);
              var v := Visible(old(stack.stored), c.now);
              forall m :: id != "" && Topmost(v, m, HasId(id)) ==>
                && stack.stored == v[..m] + v[m + 1..]
                && View() == Reinstate(v[m], old(View()), c, user, history.maxTurns)
    {
      hide NormalizeSuspended, Reinstate, Lossless, Refines, Visible, Saved, Shows, Keep, HasId, Trim, AllNormal;
      hide TaskNormal, IsSuffix, LiveAt, Last, IdealRemove;
      var id := Trim(snapshotId);
      if id == "" {
        return false;
      }
      var entries := stack.Stack(c.now);
      var m := TopmostMatch(entries, HasId(id));
      if m < 0 {
        return false;
      }
      assert Topmost(entries, m, HasId(id));
      ok := RestoreAt(m, c);
    }

    /** restoreMatchingSuspendedTask, for the domain classifier's predicate `wanted`. */
    method RestoreMatching(wanted: SuspendedTask -> bool, c: Chance) returns (ok: bool)
      requires Valid() && stack.clock <= c.now
      modifies this`skill, this`workflow, this`execution, stack, history
      ensures Valid() && history.OthersKept(user)
      ensures ok <==> exists m :: Topmost(Visible(old(stack.stored), c.now), m, wanted)
      ensures !ok ==>
                && View() == old(View()) && stack.stored == old(stack.stored)
                && stack.ideal == old(stack.ideal) && stack.clock == old(stack.clock)
      ensures var v := Visible(old(stack.stored), c.now);
              forall m :: Topmost(v, m, wanted) ==>
                && stack.stored == v[..m] + v[m + 1..]
                && View() == Reinstate(v[m], old(View()), c, user, history.maxTurns)
    {
      hide NormalizeSuspended, Reinstate, Lossless, Refines, Visible, Saved, Shows, Keep, AllNormal, TaskNormal;
      hide IsSuffix, LiveAt, Last, IdealRemove;
      var entries := stack.Stack(c.now);
      var m := TopmostMatch(entries, wanted);
      if m < 0 {
        return false;
      }
      assert Topmost(entries, m, wanted);
      ok := RestoreAt(m, c);
    }

    /** tryResumeSuspendedTask: only from idle; a cancelling reply empties the stack, a resuming
        one restores the top of the ideal stack. */
    method TryResume(cancels: bool, resumes: bool, c: Chance) returns (handled: bool)
      requires Valid() && stack.clock <= c.now
      modifies this`skill, this`workflow, this`execution, stack, history
      ensures Valid() && history.OthersKept(user)
      ensures var v := Visible(old(stack.stored), c.now);
              if AnythingActive(old(View())) || !(cancels || resumes) || (!cancels && v == []) then
                !handled && View() == old(View()) && stack.stored == old(stack.stored)
                && stack.ideal == old(stack.ideal)
              else if cancels then
                handled && View() == old(View()) && stack.stored == [] && stack.ideal == []
              else
                var live := Keep(LiveAt(c.now), old(stack.ideal));
                && handled && v != [] && stack.stored == v[..|v| - 1]
                && View() == Reinstate(v[|v| - 1], old(View()), c, user, history.maxTurns)
                && live != [] && View() == Reinstate(live[|live| - 1], old(View()), c, user, history.maxTurns)
    {
      hide NormalizeSuspended, Reinstate, Lossless, Refines, Visible, Saved, Shows, Keep, WorkflowActive;
      hide ExecutionActive, AllNormal, TaskNormal, IsSuffix, LiveAt, Last, IdealRemove;
      var active := AnythingActive(View());
      if cancels && !active {
        stack.Clear();
        return true;
      }
      if !resumes || active {
        return false;
      }
      var entries := stack.Stack(c.now);
      if |entries| > 0 {
        NormalEntry(stack.stored, c.now, |entries| - 1, c);
      }
      var task := stack.Pop(c.now);
      if task.None? {
        return false;
      }
      handled := Restore(task.value, c);
    }

    /** tryRestoreAwaitingConfirmationSnapshot restores without removing: the task it makes
        active is still the stack's only entry. */
    method RestoreAwaiting(isReply: bool, c: Chance) returns (ok: bool)
      requires Valid() && stack.clock <= c.now
      modifies this`skill, this`workflow, this`execution, history
      ensures Valid() && history.OthersKept(user)
      ensures var v := Visible(stack.stored, c.now);
              && ok == (isReply && |v| == 1 && Awaiting(v[0]))
              && (ok ==> View() == Reinstate(v[0], old(View()), c, user, history.maxTurns) && skill == v[0].skill)
      ensures !ok ==> View() == old(View())
    {
      hide NormalizeSuspended, Reinstate, Lossless, Refines, Visible, Saved, Shows, Keep, AllNormal, TaskNormal;
      hide IsSuffix, LiveAt, Last;
      if !isReply {
        return false;
      }
      var entries := stack.Stack(c.now);
      if |entries| != 1 {
        return false;
      }
      if !Awaiting(entries[0]) {
        return false;
      }
      NormalEntry(stack.stored, c.now, 0, c);
      NormalSkill(entries[0], View(), c, user, history.maxTurns);
      ok := Restore(entries[0], c);
    }
  }

  lemma NormalEntry(stored: seq<SuspendedTask>, now: int, at: nat, c: Chance)
    requires AllNormal(stored) && at < |Visible(stored, now)|
    ensures TaskNormal(Visible(stored, now)[at])
    ensures !NormalizeSuspended(Visible(stored, now)[at], c).kind.NoTaskKind?
  {
    hide NormalizeSuspended;
    VisibleNormal(stored, now);
    var t := Visible(stored, now)[at];
    assert t in Visible(stored, now);
    assert TaskNormal(t) && NormalizeSuspended(t, c) == t;
  }

  lemma NormalSkill(t: SuspendedTask, y: Contexts, c: Chance, user: int, cap: nat)
    requires TaskNormal(t)
    ensures Reinstate(t, y, c, user, cap).skill == t.skill
  {
    ReinstateNormal(t, y, c, user, cap);
  }

  lemma SavedByPass(s: SkillSession, now: int, aliasWins: bool)
    requires !s.name.NoSkill?
    ensures SkillSaved(NormalizeSkillSession(s, now, aliasWins))
  {
    hide NormalizeSlots, NormalizeFields;
    NameKept(s, now, aliasWins);
  }

  /** What a restore writes is saved in its normal form. */
  lemma SavedParts(t: SuspendedTask, c: Chance, user: int)
    ensures var s := NormalizeSkillPart(t.skill, c); s.Some? ==> SkillSaved(s.value)
    ensures var w := Installed(NormalizeWorkflowPart(t.workflow, c), user, c.now); w.Some? ==> WorkflowSaved(w.value)
    ensures var e := NormalizeExecutionPart(t.execution, c); e.Some? ==> ExecutionSaved(e.value)
  {
    hide NormalizeSkillSession, NormalizeExecutionState, NormalizeTasks, Trim;
    if t.workflow.Some? {
      WorkflowStable(t.workflow.value, c.now, c.now);
      var n := NormalizeWorkflow(t.workflow.value, c.now);
      if n.tasks != [] {
        var w := n.(userId := user, updatedAt := At(c.now));
        assert w == NormalizeWorkflow(w, c.now);
      }
    }
  }
}
