/** The suspended-task stack of agent/execution_state.go: what one entry normalises to, and
    the five-entry, twenty-four-hour store that refines an unbounded stack. */
module TaskStacks {
  import opened Seqs
  import opened Text
  import opened Records
  import opened Execution
  import opened SkillSessions
  import opened ChatHistories

  // ---------------------------------------------------------------- workflows

  datatype TaskStatus = NoTaskStatus | TaskPending | TaskRunning | OtherTaskStatus

  /** `action` is in the canonical spelling of its skill. */
  datatype WorkflowTask = WorkflowTask(
    id: string, skill: string, action: string, request: string,
    dependsOn: seq<string>, status: TaskStatus, error: string)

  datatype WorkflowSession = WorkflowSession(userId: int, originalRequest: string, tasks: seq<WorkflowTask>,
                                             updatedAt: Stamp)

  const EMPTY_WORKFLOW := WorkflowSession(0, "", [], Unstamped)

  function NormalizeTask(t: WorkflowTask, index: nat): WorkflowTask {
    var id := Trim(t.id);
    WorkflowTask(
      if id == "" then "task_" + Decimal(index + 1) else id,
      Trim(t.skill), t.action, Trim(t.request), Clean(t.dependsOn),
      if t.status.NoTaskStatus? then TaskPending else t.status,
      Trim(t.error))
  }

  predicate Runnable(t: WorkflowTask) {
    t.skill != "" && t.action != "" && t.request != ""
  }

  function NormalizeTasks(tasks: seq<WorkflowTask>): seq<WorkflowTask> {
    if tasks == [] then []
    else
      var t := NormalizeTask(tasks[|tasks| - 1], |tasks| - 1);
      NormalizeTasks(tasks[..|tasks| - 1]) + if Runnable(t) then [t] else []
  }

  /** normalizeWorkflowSession. */
  function NormalizeWorkflow(w: WorkflowSession, now: int): WorkflowSession {
    var tasks := NormalizeTasks(w.tasks);
    if tasks == [] then EMPTY_WORKFLOW
    else WorkflowSession(w.userId, Trim(w.originalRequest), tasks, Stamped(w.updatedAt, now))
  }

  /** A workflow task is kept, trimmed, numbered and pending by default, exactly if it has a skill, an
      action and a request; a workflow without tasks is empty. */
  lemma TaskKept(tasks: seq<WorkflowTask>, t: WorkflowTask)
    ensures var kept := Trim(t.skill) != "" && t.action != "" && Trim(t.request) != "";
            var trimmed := WorkflowTask(
                             if Trim(t.id) == "" then "task_" + Decimal(|tasks| + 1) else Trim(t.id),
                             Trim(t.skill), t.action, Trim(t.request), Clean(t.dependsOn),
                             if t.status.NoTaskStatus? then TaskPending else t.status, Trim(t.error));
            && NormalizeTasks([]) == []
            && NormalizeTasks(tasks + [t]) == NormalizeTasks(tasks) + (if kept then [trimmed] else [])
  {
    hide Trim, Clean, Decimal;
    assert (tasks + [t])[..|tasks|] == tasks;
  }

  lemma WorkflowKept(w: WorkflowSession, now: int)
    ensures var n := NormalizeWorkflow(w, now);
            && n.tasks == NormalizeTasks(w.tasks)
            && (n.tasks == [] ==> n.userId == 0 && n.originalRequest == "" && n.updatedAt == Unstamped)
            && (n.tasks != [] ==>
                  && n.userId == w.userId && n.originalRequest == Trim(w.originalRequest)
                  && n.updatedAt == if w.updatedAt.Unstamped? then At(now) else w.updatedAt)
  {
    hide Trim, NormalizeTasks;
  }

  /** A task that further passes leave alone, wherever it stands. */
  ghost predicate TaskTidy(t: WorkflowTask) {
    Runnable(t) && forall i: nat :: NormalizeTask(t, i) == t
  }

  lemma NormalizeTaskTidy(t: WorkflowTask, i: nat)
    ensures var n := NormalizeTask(t, i); Runnable(n) ==> TaskTidy(n)
  {
    hide Trim, Decimal;
    TrimLaws(t.id);
    TrimLaws(t.skill);
    TrimLaws(t.request);
    TrimLaws(t.error);
    CleanIsClean(t.dependsOn);
    CleanFixed(Clean(t.dependsOn));
    TaskNameTrimmed(i);
  }

  lemma TaskNameTrimmed(i: nat)
    ensures var name := "task_" + Decimal(i + 1); Trim(name) == name && name != ""
  {
    hide Trim;
    var digits := Decimal(i + 1);
    var name := "task_" + digits;
    assert digits[|digits| - 1] in digits;
    assert name[|name| - 1] == digits[|digits| - 1] && name[0] == 't';
    TrimLaws(name);
  }

  lemma {:induction false} NormalizedTasksTidy(tasks: seq<WorkflowTask>)
    ensures forall t :: t in NormalizeTasks(tasks) ==> TaskTidy(t)
  {
    hide NormalizeTask, TaskTidy;
    if tasks != [] {
      NormalizedTasksTidy(tasks[..|tasks| - 1]);
      NormalizeTaskTidy(tasks[|tasks| - 1], |tasks| - 1);
    }
  }

  lemma {:induction false} TidyTasksKept(tasks: seq<WorkflowTask>)
    requires forall t :: t in tasks ==> TaskTidy(t)
    ensures NormalizeTasks(tasks) == tasks
  {
    hide NormalizeTask;
    if tasks != [] {
      TidyTasksKept(tasks[..|tasks| - 1]);
      assert TaskTidy(tasks[|tasks| - 1]);
    }
  }

  /** normalizeWorkflowSession is idempotent, dropped tasks and all. */
  lemma WorkflowStable(w: WorkflowSession, now: int, later: int)
    ensures NormalizeWorkflow(NormalizeWorkflow(w, now), later) == NormalizeWorkflow(w, now)
  {
    hide Trim, TaskTidy, NormalizeTask;
    NormalizedTasksTidy(w.tasks);
    TidyTasksKept(NormalizeTasks(w.tasks));
    TrimLaws(w.originalRequest);
  }

  // ------------------------------------------------------------- one snapshot

  datatype Kind = NoTaskKind | SkillKind | WorkflowKind | ExecutionKind | OtherTaskKind(name: string)

  /** suspended_at: absent, an RFC 3339 instant, or text that does not parse. */
  datatype Since = NotRecorded | Since(secs: int) | Unreadable(text: string)

  datatype SuspendedTask = SuspendedTask(
    snapshotId: string,
    intentId: string,
    parentIntentId: string,
    kind: Kind,
    resumeHint: string,
    resumeOnSuccess: bool,
    resumeTriggers: seq<string>,
    skill: Option<SkillSession>,
    workflow: Option<WorkflowSession>,
    execution: Option<ExecutionState>,
    localHistory: seq<ChatMessage>,
    suspendedAt: Since)

  const NO_TASK := SuspendedTask("", "", "", NoTaskKind, "", false, [], None, None, None, [], NotRecorded)

  type Identifier = s: string | s != "" && Trimmed(s) witness "0"

  /** What one call reads besides its argument: the clock, map order and two random names. */
  datatype Chance = Chance(now: int, aliasWins: bool, snapshotId: Identifier, intentId: Identifier)

  function NormalizeSkillPart(skill: Option<SkillSession>, c: Chance): Option<SkillSession> {
    if skill.None? then None
    else var n := NormalizeSkillSession(skill.value, c.now, c.aliasWins);
      if n.name.NoSkill? then None else Some(n)
  }

  function NormalizeWorkflowPart(workflow: Option<WorkflowSession>, c: Chance): Option<WorkflowSession> {
    if workflow.None? then None
    else var n := NormalizeWorkflow(workflow.value, c.now);
      if n.tasks == [] then None else Some(n)
  }

  function NormalizeExecutionPart(execution: Option<ExecutionState>, c: Chance): Option<ExecutionState> {
    if execution.None? then None
    else var n := NormalizeExecutionState(execution.value, c.now);
      if Trim(n.sessionId) == "" then None else Some(n)
  }

  function KindOf(task: SuspendedTask): Kind {
    if !task.kind.NoTaskKind? then task.kind
    else if task.skill.Some? then SkillKind
    else if task.workflow.Some? then WorkflowKind
    else if task.execution.Some? then ExecutionKind
    else NoTaskKind
  }

  function Named(name: string, minted: string): string {
    if Trim(name) == "" then minted else Trim(name)
  }

  /** The task with its three contexts normalised. */
  function WithParts(t: SuspendedTask, c: Chance): SuspendedTask {
    t.(skill := NormalizeSkillPart(t.skill, c),
       workflow := NormalizeWorkflowPart(t.workflow, c),
       execution := NormalizeExecutionPart(t.execution, c))
  }

  /** normalizeSuspendedTask. */
  function NormalizeSuspended(t: SuspendedTask, c: Chance): SuspendedTask {
    var p := WithParts(t, c);
    var kind := KindOf(p);
    if kind.NoTaskKind? then NO_TASK
    else p.(
      snapshotId := Named(t.snapshotId, c.snapshotId),
      intentId := Named(t.intentId, c.intentId),
      parentIntentId := Trim(t.parentIntentId),
      kind := kind,
      resumeHint := Trim(t.resumeHint),
      resumeTriggers := Clean(t.resumeTriggers),
      suspendedAt := if t.suspendedAt.NotRecorded? then Since(c.now) else t.suspendedAt)
  }

  /** A snapshot keeps the parts that are not empty and is one as long as it has a kind, given or by its
      first part; names are minted and the time taken where they are missing. */
  lemma SnapshotKept(t: SuspendedTask, c: Chance)
    ensures var n := NormalizeSuspended(t, c);
            var skill, workflow := NormalizeSkillPart(t.skill, c), NormalizeWorkflowPart(t.workflow, c);
            var execution := NormalizeExecutionPart(t.execution, c);
            var kind := if t.kind != NoTaskKind then t.kind
                        else if skill.Some? then SkillKind
                        else if workflow.Some? then WorkflowKind
                        else if execution.Some? then ExecutionKind else NoTaskKind;
            && n.kind == kind
            && (kind == NoTaskKind ==> n.skill == None && n.workflow == None && n.execution == None
                                       && n.snapshotId == "" && n.intentId == "" && n.parentIntentId == ""
                                       && n.resumeHint == "" && !n.resumeOnSuccess && n.resumeTriggers == []
                                       && n.localHistory == [] && n.suspendedAt == NotRecorded)
            && (kind != NoTaskKind ==>
                  && n.skill == skill && n.workflow == workflow && n.execution == execution
                  && n.snapshotId == (if Trim(t.snapshotId) == "" then c.snapshotId else Trim(t.snapshotId))
                  && n.intentId == (if Trim(t.intentId) == "" then c.intentId else Trim(t.intentId))
                  && n.parentIntentId == Trim(t.parentIntentId) && n.resumeHint == Trim(t.resumeHint)
                  && n.resumeOnSuccess == t.resumeOnSuccess && n.resumeTriggers == Clean(t.resumeTriggers)
                  && n.localHistory == t.localHistory
                  && n.suspendedAt == if t.suspendedAt.NotRecorded? then Since(c.now) else t.suspendedAt)
  {
    hide NormalizeSkillPart, NormalizeWorkflowPart, NormalizeExecutionPart, Trim, Clean;
  }

  /** A part is empty if it names no skill, has no task or no session. */
  lemma PartsKept(t: SuspendedTask, c: Chance)
    ensures t.skill.Some? ==> (NormalizeSkillPart(t.skill, c).Some? <==> t.skill.value.name != NoSkill)
    ensures t.workflow.Some? ==>
              (NormalizeWorkflowPart(t.workflow, c).Some? <==> NormalizeTasks(t.workflow.value.tasks) != [])
    ensures t.execution.Some? ==>
              (NormalizeExecutionPart(t.execution, c).Some? <==> Trim(t.execution.value.sessionId) != "")
    ensures t.skill.None? ==> NormalizeSkillPart(t.skill, c).None?
    ensures t.workflow.None? ==> NormalizeWorkflowPart(t.workflow, c).None?
    ensures t.execution.None? ==> NormalizeExecutionPart(t.execution, c).None?
  {
    hide NormalizeSkillSession, Trim, NormalizeTasks;
    if t.skill.Some? {
      NameKept(t.skill.value, c.now, c.aliasWins);
    }
    if t.execution.Some? {
      SessionKept(t.execution.value, c.now);
    }
  }

  /** Reached by one pass already: the skill session's flag and the notes are in range. */
  ghost predicate PartsSettle(t: SuspendedTask, c: Chance) {
    && (t.skill.Some? ==> AutoStartPlain(t.skill.value))
    && (t.execution.Some? && Trim(t.execution.value.sessionId) != "" ==> NotesWillFit(t.execution.value, c.now))
  }

  /** A snapshot no further pass can change. */
  ghost predicate TaskNormal(t: SuspendedTask) {
    !t.kind.NoTaskKind? && t.snapshotId != "" && !t.suspendedAt.NotRecorded? && forall c ::
      NormalizeSuspended(t, c) == t
  }

  lemma SkillPartTwice(skill: Option<SkillSession>, c: Chance, d: Chance)
    ensures var n := NormalizeSkillPart(skill, c);
            && (NormalizeSkillPart(n, d) == n <==> skill.None? || AutoStartPlain(skill.value))
            && (NormalizeSkillPart(n, d).None? <==> n.None?)
  {
    hide NormalizeSlots, NormalizeFields, AutoStartPlain, Trim;
    if skill.Some? {
      SkillIdempotentIff(skill.value, c.now, c.aliasWins, d.now, d.aliasWins);
      NameKept(skill.value, c.now, c.aliasWins);
      NameKept(NormalizeSkillSession(skill.value, c.now, c.aliasWins), d.now, d.aliasWins);
      if skill.value.name.NoSkill? {
        PlainWithoutTrader(skill.value);
      }
    }
  }

  lemma NameKept(s: SkillSession, now: int, aliasWins: bool)
    ensures NormalizeSkillSession(s, now, aliasWins).name == s.name
  {
    hide NormalizeFields, Filled, MirroredSlots, NoSlotFields;
  }

  lemma PlainWithoutTrader(s: SkillSession)
    requires !s.name.Trader?
    ensures AutoStartPlain(s)
  {
  }

  lemma ExecutionPartTwice(execution: Option<ExecutionState>, c: Chance, d: Chance)
    ensures var n := NormalizeExecutionPart(execution, c);
            && (NormalizeExecutionPart(n, d) == n <==>
                execution.None? || Trim(execution.value.sessionId) == "" || NotesWillFit(execution.value, c.now))
            && (NormalizeExecutionPart(n, d).None? <==> n.None?)
  {
    hide Trim, NotesWillFit;
    if execution.Some? {
      IdempotentIff(execution.value, c.now, d.now);
      SessionKept(execution.value, c.now);
      SessionKept(NormalizeExecutionState(execution.value, c.now), d.now);
    }
  }

  lemma SessionKept(s: ExecutionState, now: int)
    ensures NormalizeExecutionState(s, now).sessionId == s.sessionId
  {
    hide Trim;
  }

  lemma WorkflowPartTwice(workflow: Option<WorkflowSession>, c: Chance, d: Chance)
    ensures NormalizeWorkflowPart(NormalizeWorkflowPart(workflow, c), d) == NormalizeWorkflowPart(workflow, c)
  {
    hide NormalizeTasks, Trim;
    if workflow.Some? {
      WorkflowStable(workflow.value, c.now, d.now);
    }
  }

  lemma NamedTwice(name: string, minted: Identifier, other: string)
    ensures Named(Named(name, minted), other) == Named(name, minted) && Named(name, minted) != ""
  {
    hide Trim;
    TrimLaws(name);
    TrimLaws(minted);
  }

  /** A second pass leaves the frame of the snapshot alone and renormalises its contexts. */
  lemma FrameTwice(t: SuspendedTask, c: Chance, d: Chance)
    ensures var n := NormalizeSuspended(t, c);
            NormalizeSuspended(n, d) == if n.kind.NoTaskKind? then NO_TASK else WithParts(n, d)
  {
    hide Trim, NormalizeSkillPart, NormalizeWorkflowPart, NormalizeExecutionPart, Clean, Named;
    var n := NormalizeSuspended(t, c);
    if n.kind.NoTaskKind? {
      NothingSuspended(d);
    } else {
      NamedTwice(t.snapshotId, c.snapshotId, d.snapshotId);
      NamedTwice(t.intentId, c.intentId, d.intentId);
      TrimLaws(t.parentIntentId);
      TrimLaws(t.resumeHint);
      CleanIsClean(t.resumeTriggers);
      CleanFixed(Clean(t.resumeTriggers));
    }
  }

  lemma NothingSuspended(c: Chance)
    ensures NormalizeSuspended(NO_TASK, c) == NO_TASK
  {
    hide NormalizeSkillSession, NormalizeWorkflow, NormalizeExecutionState, Trim, Clean;
  }

  /** normalizeSuspendedTask is idempotent exactly when both inner normalisers are. */
  lemma SuspendedIdempotentIff(t: SuspendedTask, c: Chance, d: Chance)
    ensures var n := NormalizeSuspended(t, c);
            NormalizeSuspended(n, d) == n <==> n.kind.NoTaskKind? || PartsSettle(t, c)
  {
    hide Trim, NormalizeSkillPart, NormalizeWorkflowPart, NormalizeExecutionPart, Clean, AutoStartPlain, NotesWillFit;
    hide Named;
    FrameTwice(t, c, d);
    SkillPartTwice(t.skill, c, d);
    WorkflowPartTwice(t.workflow, c, d);
    ExecutionPartTwice(t.execution, c, d);
  }

  /** Two passes always settle. */
  lemma SuspendedSettles(t: SuspendedTask, c: Chance, d: Chance)
    ensures var n := NormalizeSuspended(NormalizeSuspended(t, c), d);
            n.kind.NoTaskKind? || TaskNormal(n)
  {
    hide Trim, NormalizeSkillPart, NormalizeWorkflowPart, NormalizeExecutionPart, Clean, Named;
    var once := NormalizeSuspended(t, c);
    var n := NormalizeSuspended(once, d);
    FrameTwice(t, c, d);
    NamedTwice(t.snapshotId, c.snapshotId, d.snapshotId);
    forall e
      ensures !n.kind.NoTaskKind? ==> NormalizeSuspended(n, e) == n
    {
      FrameTwice(once, d, e);
      SkillPartSettles(t.skill, c, d, e);
      WorkflowPartTwice(once.workflow, d, e);
      ExecutionPartSettles(t.execution, c, d, e);
    }
  }

  lemma SkillPartSettles(skill: Option<SkillSession>, c: Chance, d: Chance, e: Chance)
    ensures var n := NormalizeSkillPart(NormalizeSkillPart(skill, c), d);
            NormalizeSkillPart(n, e) == n
  {
    hide NormalizeSkillSession;
    if skill.Some? {
      SkillTwoPassesSettle(skill.value, c.now, c.aliasWins, d.now, d.aliasWins, e.now, e.aliasWins);
    }
  }

  lemma ExecutionPartSettles(execution: Option<ExecutionState>, c: Chance, d: Chance, e: Chance)
    ensures var n := NormalizeExecutionPart(NormalizeExecutionPart(execution, c), d);
            NormalizeExecutionPart(n, e) == n
  {
    hide NormalizeExecutionState, Trim;
    if execution.Some? {
      TwoPassesSettle(execution.value, c.now, d.now, e.now);
    }
  }

  // ------------------------------------------------------------------ the stack

  const STACK_MAX: nat := 5
  const EXPIRY_SECONDS := 86400

  /** Not suspended more than a day ago; an unreadable time never expires. */
  predicate Live(t: SuspendedTask, now: int) {
    t.suspendedAt.Since? ==> now - t.suspendedAt.secs <= EXPIRY_SECONDS
  }

  function LiveAt(now: int): SuspendedTask -> bool {
    t => Live(t, now)
  }

  /** The entries one pass of normalizeTaskStack keeps before the cap, bottom first. */
  function Surviving(stack: seq<SuspendedTask>, chances: seq<Chance>, now: int): seq<SuspendedTask>
    requires |chances| == |stack|
  {
    if stack == [] then []
    else
      var k := |stack| - 1;
      var t := NormalizeSuspended(stack[k], chances[k]);
      Surviving(stack[..k], chances[..k], now) + if !t.kind.NoTaskKind? && Live(t, now) then [t] else []
  }

  /** What the store shows of normal entries at `now`: the live ones, newest five. */
  function Visible(stack: seq<SuspendedTask>, now: int): (r: seq<SuspendedTask>)
    ensures |r| <= STACK_MAX
  {
    Last(STACK_MAX, Keep(LiveAt(now), stack))
  }

  /** What shows: the newest five of the entries not suspended more than a day ago. */
  lemma ShownForADay(stack: seq<SuspendedTask>, now: int)
    ensures Visible(stack, now) ==
            Last(5, Keep((t: SuspendedTask) => t.suspendedAt.Since? ==> now - t.suspendedAt.secs <= 86400, stack))
  {
    SameKept(LiveAt(now), (t: SuspendedTask) => t.suspendedAt.Since? ==> now - t.suspendedAt.secs <= 86400, stack);
  }

  lemma {:induction false} SameKept(p: SuspendedTask -> bool, q: SuspendedTask -> bool, s: seq<SuspendedTask>)
    requires forall t :: p(t) <==> q(t)
    ensures Keep(p, s) == Keep(q, s)
  {
    if s != [] {
      SameKept(p, q, s[..|s| - 1]);
    }
  }

  ghost predicate AllNormal(stack: seq<SuspendedTask>) {
    forall t :: t in stack ==> TaskNormal(t)
  }

  lemma {:induction false} SurvivingNormal(stack: seq<SuspendedTask>, chances: seq<Chance>, now: int)
    requires |chances| == |stack| && AllNormal(stack)
    ensures Surviving(stack, chances, now) == Keep(LiveAt(now), stack)
  {
    hide NormalizeSuspended;
    if stack != [] {
      var k := |stack| - 1;
      SurvivingNormal(stack[..k], chances[..k], now);
      assert TaskNormal(stack[k]);
    }
  }

  /** normalizeTaskStack: each entry is normalised with its own random names. */
  method NormalizeTaskStack(stack: seq<SuspendedTask>, now: int)
    returns (out: seq<SuspendedTask>, ghost chances: seq<Chance>)
    ensures |chances| == |stack| && forall i :: 0 <= i < |chances| ==> chances[i].now == now
    ensures out == Last(5, Surviving(stack, chances, now))
    ensures AllNormal(stack) ==> out == Visible(stack, now)
  {
    hide NormalizeSuspended, Keep, Live;
    out := [];
    chances := [];
    for i := 0 to |stack|
      invariant |chances| == i && forall k :: 0 <= k < i ==> chances[k].now == now
      invariant out == Surviving(stack[..i], chances, now)
    {
      assert stack[..i + 1][..i] == stack[..i];
      var aliasWins: bool := *;
      var snapshotId: Identifier := *;
      var intentId: Identifier := *;
      var c := Chance(now, aliasWins, snapshotId, intentId);
      ghost var earlier := chances;
      chances := chances + [c];
      assert chances[..i] == earlier;
      var item := NormalizeSuspended(stack[i], c);
      if item.kind.NoTaskKind? || !Live(item, now) {
        continue;
      }
      out := out + [item];
    }
    assert stack[..|stack|] == stack;
    if AllNormal(stack) {
      SurvivingNormal(stack, chances, now);
    }
    if |out| > STACK_MAX {
      out := out[|out| - STACK_MAX..];
    }
  }

  lemma VisibleNormal(stack: seq<SuspendedTask>, now: int)
    requires AllNormal(stack)
    ensures AllNormal(Visible(stack, now))
  {
    hide TaskNormal, Live;
    var kept := Keep(LiveAt(now), stack);
    forall t | t in Visible(stack, now)
      ensures TaskNormal(t)
    {
      assert t in kept;
    }
  }

  /** Looking twice at one instant shows nothing new. */
  lemma VisibleTwice(stack: seq<SuspendedTask>, now: int)
    ensures Visible(Visible(stack, now), now) == Visible(stack, now)
  {
    hide Live;
    var v := Visible(stack, now);
    forall t | t in v
      ensures LiveAt(now)(t)
    {
      assert t in Keep(LiveAt(now), stack);
    }
    KeepAll(LiveAt(now), v);
  }

  // ---------------------------------------------------------- refinement steps

  /** The stored stack, seen at `now`, is the top of the ideal one with expired entries gone. */
  predicate Refines(stored: seq<SuspendedTask>, ideal: seq<SuspendedTask>, now: int) {
    IsSuffix(Visible(stored, now), Keep(LiveAt(now), ideal))
  }

  /** Nothing live has fallen off the bottom. */
  predicate Lossless(stored: seq<SuspendedTask>, ideal: seq<SuspendedTask>, now: int) {
    Visible(stored, now) == Keep(LiveAt(now), ideal)
  }

  lemma LiveLater(t: SuspendedTask, now: int, later: int)
    requires now <= later && Live(t, later)
    ensures Live(t, now)
  {
  }

  /** Filtering at an instant and then later is filtering later. */
  lemma KeepLater(s: seq<SuspendedTask>, now: int, later: int)
    requires now <= later
    ensures Keep(LiveAt(later), Keep(LiveAt(now), s)) == Keep(LiveAt(later), s)
  {
    forall t | t in s && LiveAt(later)(t)
      ensures LiveAt(now)(t)
    {
      LiveLater(t, now, later);
    }
    KeepKeep(LiveAt(now), LiveAt(later), s);
  }

  /** Waiting loses only what has expired: refinement and losslessness are kept. */
  lemma WaitRefines(stored: seq<SuspendedTask>, ideal: seq<SuspendedTask>, now: int, later: int)
    requires now <= later && |stored| <= STACK_MAX
    requires Refines(stored, ideal, now)
    ensures Refines(stored, ideal, later)
    ensures Lossless(stored, ideal, now) ==> Lossless(stored, ideal, later)
  {
    hide Live, IsSuffix;
    KeepLater(stored, now, later);
    KeepLater(ideal, now, later);
    assert Visible(stored, now) == Keep(LiveAt(now), stored);
    KeepSuffix(LiveAt(later), Visible(stored, now), Keep(LiveAt(now), ideal));
    assert Visible(stored, later) == Keep(LiveAt(later), stored);
  }

  /** The ideal stack after a push: nothing but expiry ever leaves it. */
  function IdealPush(ideal: seq<SuspendedTask>, t: SuspendedTask, now: int): seq<SuspendedTask> {
    Keep(LiveAt(now), ideal + [t])
  }

  /** The ideal stack without the live entry `depth` below its top. */
  function IdealRemove(ideal: seq<SuspendedTask>, depth: nat, now: int): seq<SuspendedTask>
    requires depth < |Keep(LiveAt(now), ideal)|
  {
    var live := Keep(LiveAt(now), ideal);
    live[..|live| - 1 - depth] + live[|live| - depth..]
  }

  lemma KeepTwice(s: seq<SuspendedTask>, now: int)
    ensures Keep(LiveAt(now), Keep(LiveAt(now), s)) == Keep(LiveAt(now), s)
  {
    KeepAll(LiveAt(now), Keep(LiveAt(now), s));
  }

  lemma VisibleLive(stored: seq<SuspendedTask>, now: int)
    ensures var v := Visible(stored, now);
            Keep(LiveAt(now), v) == v && forall t :: t in v ==> Live(t, now)
  {
    hide Live;
    var v := Visible(stored, now);
    forall t | t in v
      ensures LiveAt(now)(t)
    {
      assert t in Keep(LiveAt(now), stored);
    }
    KeepAll(LiveAt(now), v);
  }

  lemma SuffixConcat(a: seq<SuspendedTask>, b: seq<SuspendedTask>, c: seq<SuspendedTask>)
    requires IsSuffix(a, b)
    ensures IsSuffix(a + c, b + c)
  {
  }

  /** Pushing on the stored stack refines pushing on the ideal one; while fewer than five
      entries show, nothing is lost. */
  lemma PushRefines(stored: seq<SuspendedTask>, ideal: seq<SuspendedTask>, t: SuspendedTask, now: int)
    requires Refines(stored, ideal, now)
    ensures Refines(Visible(Visible(stored, now) + [t], now), IdealPush(ideal, t, now), now)
    ensures Lossless(stored, ideal, now) && |Visible(stored, now)| < 5 ==>
              Lossless(Visible(Visible(stored, now) + [t], now), IdealPush(ideal, t, now), now)
  {
    hide Live, Keep, IsSuffix, LiveAt;
    var v := Visible(stored, now);
    var live := Keep(LiveAt(now), ideal);
    var top := Keep(LiveAt(now), [t]);
    KeepConcat(LiveAt(now), ideal, [t]);
    KeepConcat(LiveAt(now), v, [t]);
    VisibleLive(stored, now);
    VisibleTwice(v + [t], now);
    KeepTwice(ideal + [t], now);
    LastIsSuffix(STACK_MAX, v + top);
    SuffixConcat(v, live, top);
    SuffixTrans(Last(STACK_MAX, v + top), v + top, live + top);
  }

  lemma SuffixFromTop(a: seq<SuspendedTask>, b: seq<SuspendedTask>, index: nat)
    requires IsSuffix(a, b) && index < |a|
    ensures var depth := |a| - 1 - index;
            && a[index] == b[|b| - 1 - depth]
            && IsSuffix(a[..index] + a[index + 1..], b[..|b| - 1 - depth] + b[|b| - depth..])
            && (a == b ==> a[..index] + a[index + 1..] == b[..|b| - 1 - depth] + b[|b| - depth..])
  {
    var cut := |b| - |a|;
    assert b == b[..cut] + a;
    var x := a[..index] + a[index + 1..];
    var depth := |a| - 1 - index;
    assert b[..|b| - 1 - depth] + b[|b| - depth..] == b[..cut] + x;
  }

  lemma RemovalStaysLive(s: seq<SuspendedTask>, index: nat, now: int)
    requires index < |s| && forall t :: t in s ==> Live(t, now)
    ensures Keep(LiveAt(now), s[..index] + s[index + 1..]) == s[..index] + s[index + 1..]
  {
    hide Live;
    KeepAll(LiveAt(now), s[..index] + s[index + 1..]);
  }

  /** Removing a visible entry removes the ideal entry at the same distance from the top. */
  lemma RemoveRefines(stored: seq<SuspendedTask>, ideal: seq<SuspendedTask>, index: nat, now: int)
    requires Refines(stored, ideal, now) && index < |Visible(stored, now)|
    ensures var v := Visible(stored, now);
            var live := Keep(LiveAt(now), ideal);
            var depth := |v| - 1 - index;
            && depth < |live| && v[index] == live[|live| - 1 - depth]
            && Refines(Visible(v[..index] + v[index + 1..], now), IdealRemove(ideal, depth, now), now)
            && (Lossless(stored, ideal, now) ==>
                  Lossless(Visible(v[..index] + v[index + 1..], now), IdealRemove(ideal, depth, now), now))
  {
    hide Live, Keep, LiveAt, IsSuffix, Visible;
    var v := Visible(stored, now);
    var live := Keep(LiveAt(now), ideal);
    SuffixFromTop(v, live, index);
    LiveOnly(stored, ideal, now);
    var at := |live| - 1 - (|v| - 1 - index);
    RemovalStaysLive(v, index, now);
    RemovalStaysLive(live, at, now);
    VisibleWhole(v[..index] + v[index + 1..], now);
    assert IdealRemove(ideal, |v| - 1 - index, now) == live[..at] + live[at + 1..];
  }

  /** What shows, and what is left of the ideal stack, is live. */
  lemma LiveOnly(stored: seq<SuspendedTask>, ideal: seq<SuspendedTask>, now: int)
    requires Refines(stored, ideal, now)
    ensures forall t :: t in Visible(stored, now) || t in Keep(LiveAt(now), ideal) ==> Live(t, now)
    ensures |Visible(stored, now)| <= |Keep(LiveAt(now), ideal)|
  {
    hide Live, Keep, LiveAt, Visible;
    var live := Keep(LiveAt(now), ideal);
    forall t | t in live
      ensures Live(t, now)
    {
      KeptIsLive(ideal, now, t);
    }
  }

  lemma VisibleWhole(s: seq<SuspendedTask>, now: int)
    requires Keep(LiveAt(now), s) == s && |s| <= STACK_MAX
    ensures Visible(s, now) == s
  {
    hide Keep;
  }

  lemma KeptIsLive(s: seq<SuspendedTask>, now: int, t: SuspendedTask)
    requires t in Keep(LiveAt(now), s)
    ensures Live(t, now)
  {
  }

  // ------------------------------------------------------------ the stored stack

  /** What a pushed task is stored as: pushing normalises it more than once. */
  function Settled(t: SuspendedTask, c: Chance): SuspendedTask {
    NormalizeSuspended(NormalizeSuspended(t, c), c)
  }

  lemma SkillPartLater(skill: Option<SkillSession>, c: Chance, d: Chance)
    ensures var n := NormalizeSkillPart(skill, c);
            NormalizeSkillPart(n, d) == NormalizeSkillPart(n, c)
  {
    hide NormalizeSlots, NormalizeFields;
    if skill.Some? {
      LaterPass(skill.value, c.now, c.aliasWins, d.now, d.aliasWins);
      LaterPass(skill.value, c.now, c.aliasWins, c.now, c.aliasWins);
    }
  }

  lemma ExecutionPartLater(execution: Option<ExecutionState>, c: Chance, d: Chance)
    ensures var n := NormalizeExecutionPart(execution, c);
            NormalizeExecutionPart(n, d) == NormalizeExecutionPart(n, c)
  {
    hide NormalizeExecutionState, Trim;
    if execution.Some? {
      SecondPass(execution.value, c.now, d.now);
      SecondPass(execution.value, c.now, c.now);
    }
  }

  /** Only the first pass reads the clock, the map order and the random names. */
  lemma LaterPassesAgree(t: SuspendedTask, c: Chance, d: Chance)
    ensures NormalizeSuspended(NormalizeSuspended(t, c), d) == Settled(t, c)
    ensures Settled(t, c).suspendedAt == NormalizeSuspended(t, c).suspendedAt
    ensures Settled(t, c).kind == NormalizeSuspended(t, c).kind
  {
    hide Trim, NormalizeSkillPart, NormalizeWorkflowPart, NormalizeExecutionPart, Clean, Named;
    FrameTwice(t, c, d);
    FrameTwice(t, c, c);
    SkillPartLater(t.skill, c, d);
    WorkflowPartTwice(t.workflow, c, d);
    WorkflowPartTwice(t.workflow, c, c);
    ExecutionPartLater(t.execution, c, d);
  }

  lemma SurvivingPush(v: seq<SuspendedTask>, t: SuspendedTask, c: Chance, chances: seq<Chance>, now: int)
    requires AllNormal(v) && |chances| == |v| + 1
    requires !NormalizeSuspended(t, c).kind.NoTaskKind?
    ensures Surviving(v + [NormalizeSuspended(t, c)], chances, now) == Keep(LiveAt(now), v + [Settled(t, c)])
  {
    hide NormalizeSuspended, Live, Settled, Keep;
    var s := v + [NormalizeSuspended(t, c)];
    var k := |v|;
    LaterPassesAgree(t, c, chances[k]);
    assert s[..k] == v;
    SurvivingNormal(v, chances[..k], now);
    KeepConcat(LiveAt(now), v, [Settled(t, c)]);
    KeepOne(Settled(t, c), now);
  }

  lemma KeepOne(t: SuspendedTask, now: int)
    ensures Keep(LiveAt(now), [t]) == if Live(t, now) then [t] else []
  {
    hide Live;
  }

  /** One user's stored task stack behind SnapshotManager.  The ghost `ideal` is the unbounded
      stack of the same calls, from which only removals and expiry take anything. */
  class SnapshotStack {
    var stored: seq<SuspendedTask>
    ghost var ideal: seq<SuspendedTask>
    ghost var clock: int

    ghost predicate Valid()
      reads this
    {
      AllNormal(stored) && |stored| <= STACK_MAX && Refines(stored, ideal, clock)
    }

    /** Nothing live was ever dropped to make room. */
    ghost predicate NothingLost()
      reads this
    {
      Lossless(stored, ideal, clock)
    }

    constructor (now: int)
      ensures Valid() && NothingLost() && stored == [] && ideal == [] && clock == now
    {
      stored := [];
      ideal := [];
      clock := now;
    }

    /** getTaskStack: the top of the ideal stack, expired entries gone. */
    method Stack(now: int) returns (stack: seq<SuspendedTask>)
      requires Valid() && clock <= now
      ensures stack == Visible(stored, now) && AllNormal(stack)
      ensures IsSuffix(stack, Keep(LiveAt(now), ideal))
      ensures NothingLost() ==> stack == Keep(LiveAt(now), ideal)
    {
      hide TaskNormal, Keep, Live, IsSuffix;
      ghost var chances;
      stack, chances := NormalizeTaskStack(stored, now);
      VisibleNormal(stored, now);
      WaitRefines(stored, ideal, clock, now);
    }

    /** saveTaskStack of normal entries. */
    method Save(stack: seq<SuspendedTask>, now: int)
      requires AllNormal(stack)
      modifies this`stored
      ensures stored == Visible(stack, now) && AllNormal(stored)
    {
      hide TaskNormal, Keep, Live;
      var out, chances := NormalizeTaskStack(stack, now);
      VisibleNormal(stack, now);
      stored := out;
    }

    /** peekTaskStack: the ideal top, when anything is shown. */
    method Peek(now: int) returns (top: Option<SuspendedTask>)
      requires Valid() && clock <= now
      ensures top.None? <==> Visible(stored, now) == []
      ensures top.Some? ==> var live := Keep(LiveAt(now), ideal); live != [] && top.value == live[|live| - 1]
    {
      hide TaskNormal, Keep, Live;
      var stack := Stack(now);
      if |stack| == 0 {
        return None;
      }
      return Some(stack[|stack| - 1]);
    }

    /** pushTaskStack.  The settled task becomes the top; with five entries already showing the
        oldest makes room. */
    method Push(task: SuspendedTask, c: Chance)
      requires Valid() && clock <= c.now
      modifies this
      ensures Valid()
      ensures NormalizeSuspended(task, c).kind.NoTaskKind? ==>
                stored == old(stored) && ideal == old(ideal) && clock == old(clock)
      ensures !NormalizeSuspended(task, c).kind.NoTaskKind? ==>
                && clock == c.now
                && stored == Visible(Visible(old(stored), c.now) + [Settled(task, c)], c.now)
                && ideal == IdealPush(old(ideal), Settled(task, c), c.now)
      ensures old(NothingLost()) && |Visible(old(stored), c.now)| < 5 ==> NothingLost()
    {
      hide TaskNormal, Keep, Live, IsSuffix, NormalizeSuspended, Settled, LiveAt;
      var t := NormalizeSuspended(task, c);
      if t.kind.NoTaskKind? {
        return;
      }
      var stack := Stack(c.now);
      WaitRefines(stored, ideal, clock, c.now);
      PushRefines(stored, ideal, Settled(task, c), c.now);
      var out, chances := NormalizeTaskStack(stack + [t], c.now);
      SurvivingPush(stack, task, c, chances, c.now);
      SettledNormal(stack, task, c);
      VisibleNormal(stack + [Settled(task, c)], c.now);
      VisibleTwice(stack + [Settled(task, c)], c.now);
      Save(out, c.now);
      ideal := IdealPush(ideal, Settled(task, c), c.now);
      clock := c.now;
    }

    /** SnapshotManager.RemoveAt: removes exactly the entry at `index`, here and in the ideal stack. */
    method RemoveAt(index: int, now: int) returns (removed: Option<SuspendedTask>)
      requires Valid() && clock <= now
      modifies this
      ensures Valid() && clock == now && (old(NothingLost()) ==> NothingLost())
      ensures var v := Visible(old(stored), now);
              if 0 <= index < |v| then
                var live := Keep(LiveAt(now), old(ideal));
                var depth := |v| - 1 - index;
                && depth < |live| && removed == Some(v[index]) && v[index] == live[|live| - 1 - depth]
                && stored == v[..index] + v[index + 1..]
                && ideal == IdealRemove(old(ideal), depth, now)
              else removed == None && stored == old(stored) && ideal == old(ideal)
    {
      hide TaskNormal, Keep, Live, IsSuffix, LiveAt;
      var stack := Stack(now);
      WaitRefines(stored, ideal, clock, now);
      clock := now;
      if index < 0 || index >= |stack| {
        return None;
      }
      RemoveRefines(stored, ideal, index, now);
      RemainderShows(stored, index, now);
      ideal := IdealRemove(ideal, |stack| - 1 - index, now);
      Save(stack[..index] + stack[index + 1..], now);
      return Some(stack[index]);
    }

    /** popTaskStack: a successful pop returns the ideal top. */
    method Pop(now: int) returns (top: Option<SuspendedTask>)
      requires Valid() && clock <= now
      modifies this
      ensures Valid() && clock == now && (old(NothingLost()) ==> NothingLost())
      ensures var v := Visible(old(stored), now);
              if v == [] then top == None && stored == old(stored) && ideal == old(ideal)
              else
                var live := Keep(LiveAt(now), old(ideal));
                && live != [] && top == Some(live[|live| - 1])
                && top == Some(v[|v| - 1]) && stored == v[..|v| - 1]
                && ideal == live[..|live| - 1]
    {
      hide TaskNormal, Keep, Live, IsSuffix, LiveAt;
      var stack := Stack(now);
      WaitRefines(stored, ideal, clock, now);
      clock := now;
      if |stack| == 0 {
        return None;
      }
      RemoveRefines(stored, ideal, |stack| - 1, now);
      RemainderShows(stored, |stack| - 1, now);
      ghost var live := Keep(LiveAt(now), ideal);
      assert stack[..|stack| - 1] + stack[|stack|..] == stack[..|stack| - 1];
      assert live[..|live| - 1] + live[|live|..] == live[..|live| - 1];
      ideal := live[..|live| - 1];
      Save(stack[..|stack| - 1], now);
      return Some(stack[|stack| - 1]);
    }

    method Clear()
      modifies this
      ensures Valid() && NothingLost() && stored == [] && ideal == [] && clock == old(clock)
    {
      stored := [];
      ideal := [];
    }
  }

  lemma SettledNormal(stack: seq<SuspendedTask>, t: SuspendedTask, c: Chance)
    requires AllNormal(stack) && !NormalizeSuspended(t, c).kind.NoTaskKind?
    ensures AllNormal(stack + [Settled(t, c)])
  {
    hide TaskNormal;
    LaterPassesAgree(t, c, c);
    SuspendedSettles(t, c, c);
  }

  /** What is left after a removal shows in full. */
  lemma RemainderShows(stored: seq<SuspendedTask>, index: nat, now: int)
    requires index < |Visible(stored, now)|
    ensures var v := Visible(stored, now);
            Visible(v[..index] + v[index + 1..], now) == v[..index] + v[index + 1..]
  {
    hide Live, Keep, LiveAt;
    var v := Visible(stored, now);
    VisibleLive(stored, now);
    RemovalStaysLive(v, index, now);
  }
}
