/** The maintenance of one user's conversation by agent/memory.go, which runs beside the turns: copying
    the messages, reading the task state, saving a new one and installing the shortened conversation
    are separate steps that anything may come between. */
module ChatRuns {
  import opened Seqs
  import opened ChatHistories

  const WINDOW: nat := 6

  datatype Task = Refresh | Compress

  datatype Stage = Copied | Read(state: TaskState) | Stored

  datatype Job = Job(task: Task, msgs: seq<ChatMessage>, stage: Stage)

  /** Where a job's copy stands among all that was ever said, and what the state it read covers. */
  datatype Grasp = Grasp(at: seq<nat>, base: set<nat>)

  /** What a job summarises: all but the last twelve messages, or the last six. */
  function Summarised(task: Task, at: seq<nat>): seq<nat> {
    match task
    case Compress => if |at| > RECENT then at[..|at| - RECENT] else []
    case Refresh => Last(WINDOW, at)
  }

  /** A compression summarises all but the last twelve messages, a refresh the last six. */
  lemma SummarisedIs(at: seq<nat>, i: nat)
    requires i < |at|
    ensures |Summarised(Compress, at)| == (if |at| > 12 then |at| - 12 else 0)
    ensures i < |at| - 12 ==> Summarised(Compress, at)[i] == at[i]
    ensures |Summarised(Refresh, at)| == (if |at| > 6 then 6 else |at|)
    ensures i < |Summarised(Refresh, at)| ==>
              Summarised(Refresh, at)[i] == at[|at| - |Summarised(Refresh, at)| + i]
  {
  }

  predicate Due(task: Task, msgs: seq<ChatMessage>) {
    match task
    case Compress => CompressionDue(msgs)
    case Refresh => |msgs| >= 2
  }

  predicate Rising(at: seq<nat>, n: nat) {
    && (forall i :: 0 <= i < |at| ==> at[i] < n)
    && (forall i, j :: 0 <= i < j < |at| ==> at[i] < at[j])
  }

  function Pick(told: seq<ChatMessage>, at: seq<nat>): seq<ChatMessage>
    requires Rising(at, |told|)
  {
    seq(|at|, i requires 0 <= i < |at| => told[at[i]])
  }

  function Positions(at: seq<nat>): (r: set<nat>)
    ensures forall k :: k in r <==> k in at
  {
    set k | k in at
  }

  predicate Below(s: set<nat>, n: nat) {
    forall k :: k in s ==> k < n
  }

  lemma RisingLast(at: seq<nat>, n: nat, keep: nat)
    requires Rising(at, n)
    ensures Rising(Last(keep, at), n) && forall k :: k in Last(keep, at) ==> k in at
  {
    var t := Last(keep, at);
    var cut := |at| - |t|;
    assert forall i :: 0 <= i < |t| ==> t[i] == at[cut + i];
  }

  lemma PickLast(told: seq<ChatMessage>, at: seq<nat>, keep: nat)
    requires Rising(at, |told|)
    ensures Rising(Last(keep, at), |told|) && Pick(told, Last(keep, at)) == Last(keep, Pick(told, at))
  {
    RisingLast(at, |told|, keep);
    var t := Last(keep, at);
    var cut := |at| - |t|;
    assert forall i :: 0 <= i < |t| ==> t[i] == at[cut + i];
  }

  lemma PickMore(told: seq<ChatMessage>, at: seq<nat>, m: ChatMessage)
    requires Rising(at, |told|)
    ensures Rising(at, |told + [m]|) && Pick(told + [m], at) == Pick(told, at)
    ensures Rising(at + [|told|], |told| + 1) && Pick(told + [m], at + [|told|]) == Pick(told, at) + [m]
  {
  }

  /** The positions shown once the next message is added. */
  function Pushed(at: seq<nat>, n: nat, cap: nat): seq<nat> {
    var longer: seq<nat> := at + [n];
    Last(cap, longer)
  }

  lemma {:induction false} RisingRoom(at: seq<nat>, n: nat)
    requires Rising(at, n) && at != []
    ensures at[0] + |at| <= n
  {
    if |at| > 1 {
      RisingRoom(at[..|at| - 1], at[|at| - 1]);
    }
  }

  lemma PickLength(told: seq<ChatMessage>, at: seq<nat>)
    requires Rising(at, |told|)
    ensures |Pick(told, at)| == |at|
  {
  }

  /** One more message on a capped conversation: the first shown goes when the cap is reached. */
  lemma OneMore(told: seq<ChatMessage>, shown: seq<nat>, cap: nat, m: ChatMessage)
    requires Rising(shown, |told|) && |shown| <= cap && cap > 0
    ensures |shown| == cap ==> shown[0] + cap <= |told|
    ensures var next := Pushed(shown, |told|, cap);
            && Rising(next, |told + [m]|) && Pick(told + [m], next) == Last(cap, Pick(told, shown) + [m])
            && forall k :: k in next <==> k == |told| || (k in shown && !(|shown| == cap && k == shown[0]))
  {
    PickMore(told, shown, m);
    if shown != [] {
      RisingRoom(shown, |told|);
    }
    PickLast(told + [m], shown + [|told|], cap);
    var longer: seq<nat> := shown + [|told|];
    var next := Pushed(shown, |told|, cap);
    if |shown| == cap {
      assert next == shown[1..] + [|told|];
      assert shown == [shown[0]] + shown[1..];
    } else {
      assert next == longer;
    }
  }

  /** The kept end and the summarised front make up the copy; the window lies in the kept end. */
  lemma FrontAndEnd(at: seq<nat>, n: nat)
    requires Rising(at, n) && |at| > RECENT
    ensures forall k :: k in at <==> k in Summarised(Compress, at) || k in Last(RECENT, at)
    ensures forall k :: k in Summarised(Compress, at) ==> k !in Last(RECENT, at)
    ensures forall k :: k in Summarised(Refresh, at) ==> k in Last(RECENT, at)
  {
    var front, end, window := Summarised(Compress, at), Last(RECENT, at), Summarised(Refresh, at);
    var cut := |at| - RECENT;
    assert at == front + end;
    assert forall i :: 0 <= i < |end| ==> end[i] == at[cut + i];
    assert forall i :: 0 <= i < |window| ==> window[i] == end[RECENT - WINDOW + i];
  }

  class MemoryRun {
    const user: int
    const history: ChatHistory
    var state: TaskState
    var jobs: map<nat, Job>
    /** Everything said, and where the messages shown stand in it. */
    ghost var told: seq<ChatMessage>
    ghost var shown: seq<nat>
    /** What the saved task state summarises, what was cleared and what the cap evicted. */
    ghost var covered: set<nat>
    ghost var cleared: set<nat>
    ghost var evicted: set<nat>
    ghost var grasps: map<nat, Grasp>

    ghost predicate Shown()
      reads this, history
    {
      && history.Valid() && Rising(shown, |told|) && history.Messages(user) == Pick(told, shown)
      && Below(covered, |told|) && Below(cleared, |told|)
      && (forall k :: k in evicted ==> k + history.maxTurns < |told|)
    }

    /** Every copy a job holds is still a part of what was said, in order. */
    ghost predicate Grasped()
      reads this
    {
      jobs.Keys == grasps.Keys && GraspedIn(told)
    }

    ghost predicate GraspedIn(said: seq<ChatMessage>)
      reads this`jobs, this`grasps
    {
      forall id :: id in jobs && id in grasps ==>
           && Rising(grasps[id].at, |said|) && Pick(said, grasps[id].at) == jobs[id].msgs
           && Below(grasps[id].base, |said|) && |jobs[id].msgs| <= history.maxTurns
           && (jobs[id].task.Compress? ==> |jobs[id].msgs| > RECENT)
    }

    ghost predicate Valid()
      reads this, history
    {
      Shown() && Grasped()
    }

    /** What was said and is neither shown nor summarised, though nobody cleared it and the cap did not
        evict it. */
    ghost function Gone(): set<nat>
      reads this
    {
      set k: nat | k < |told| && k !in shown && k !in covered && k !in cleared && k !in evicted
    }

    constructor (user: int, cap: int)
      ensures Valid() && fresh(history) && this.user == user && jobs == map[] && told == [] && Gone() == {}
    {
      this.user := user;
      history := new ChatHistory(cap);
      state, jobs, told, shown, grasps := "", map[], [], [], map[];
      covered, cleared, evicted := {}, {}, {};
    }

    method Say(role: Role, content: string, now: int)
      requires Valid()
      modifies this`told, this`shown, this`evicted, history
      ensures Valid() && told == old(told) + [ChatMessage(role, content, now)]
      ensures shown == Pushed(old(shown), |old(told)|, history.maxTurns) && Gone() == old(Gone())
      ensures evicted == old(evicted) + if |old(shown)| == history.maxTurns then {old(shown)[0]} else {}
    {
      hide Shows, Rising, Pick, Pushed, Last, GraspedIn;
      var m := ChatMessage(role, content, now);
      CapHolds();
      PickLength(told, shown);
      OneMore(told, shown, history.maxTurns, m);
      GraspsLater(m);
      history.Add(user, role, content, now);
      if |shown| == history.maxTurns {
        evicted := evicted + {shown[0]};
      }
      told, shown := told + [m], Pushed(shown, |told|, history.maxTurns);
    }

    lemma GraspsLater(m: ChatMessage)
      requires GraspedIn(told)
      ensures GraspedIn(told + [m])
    {
      hide Pick, Rising;
      forall id | id in jobs && id in grasps
        ensures Rising(grasps[id].at, |told + [m]|) && Pick(told + [m], grasps[id].at) == Pick(told, grasps[id].at)
      {
        PickMore(told, grasps[id].at, m);
      }
    }

    /** clearConversationState, as far as the conversation goes. */
    method Clear()
      requires Valid()
      modifies this`state, this`shown, this`covered, this`cleared, history
      ensures Valid() && shown == [] && history.Messages(user) == [] && state == ""
      ensures cleared == old(cleared) + Positions(old(shown)) + old(covered) && Gone() == old(Gone())
    {
      hide Shows;
      history.Clear(user);
      cleared := cleared + Positions(shown) + covered;
      state, shown, covered := "", [], {};
    }

    lemma CapHolds()
      requires Shown()
      ensures |history.Messages(user)| <= history.maxTurns
    {
      ShowsSuffix(history.Messages(user), history.StoryOf(user), history.maxTurns);
    }

    /** A maintenance job copies the messages, if there is anything for it to do. */
    method Take(id: nat, task: Task) returns (due: bool)
      requires Valid() && id !in jobs
      modifies this`jobs, this`grasps
      ensures Valid()
      ensures due == if task.Compress? then CompressionDue(history.Messages(user)) else |history.Messages(user)| > 1
      ensures jobs == if due then old(jobs)[id := Job(task, history.Messages(user), Copied)] else old(jobs)
      ensures grasps == if due then old(grasps)[id := Grasp(shown, {})] else old(grasps)
    {
      hide EstimateTokens, Shows, Pick, Rising;
      CapHolds();
      var copied := history.Get(user);
      var msgs := copied[..];
      if task.Compress? {
        if |msgs| <= RECENT {
          return false;
        }
        var tokens := EstimateChatMessagesTokens(msgs);
        if tokens <= COMPRESS_ABOVE {
          return false;
        }
      } else if |msgs| < 2 {
        return false;
      }
      jobs := jobs[id := Job(task, msgs, Copied)];
      grasps := grasps[id := Grasp(shown, {})];
      return true;
    }

    /** It reads the task state its summary will extend. */
    method ReadState(id: nat)
      requires Valid() && id in jobs && jobs[id].stage.Copied?
      modifies this`jobs, this`grasps
      ensures Valid() && jobs == old(jobs)[id := old(jobs)[id].(stage := Read(state))]
      ensures grasps == old(grasps)[id := old(grasps)[id].(base := covered)]
    {
      hide Shows;
      jobs := jobs[id := jobs[id].(stage := Read(state))];
      grasps := grasps[id := grasps[id].(base := covered)];
    }

    /** It saves the summary (None when the model failed).  The state saved covers what the state it had
        read covered and what it summarised; what other jobs saved meanwhile is overwritten. */
    method Save(id: nat, summary: Option<TaskState>, saved: bool) returns (ok: bool)
      requires Valid() && id in jobs && jobs[id].stage.Read?
      modifies this`state, this`jobs, this`grasps, this`covered
      ensures Valid() && ok == (summary.Some? && saved)
      ensures state == if ok then summary.value else old(state)
      ensures covered == if ok
                         then old(grasps)[id].base
                              + Positions(Summarised(old(jobs)[id].task, old(grasps)[id].at))
                         else old(covered)
      ensures if ok && old(jobs)[id].task.Compress?
              then jobs == old(jobs)[id := old(jobs)[id].(stage := Stored)] && grasps == old(grasps)
              else jobs == old(jobs) - {id} && grasps == old(grasps) - {id}
      ensures Gone() - old(Gone()) == old(covered) - covered - Positions(shown) - cleared - evicted
    {
      hide Shows, Pick, Rising, Summarised, CompressionDue;
      ok := summary.Some? && saved;
      ghost var g, before := grasps[id], covered;
      if ok {
        SummarisedBelow(jobs[id].task, g.at, |told|);
        state := summary.value;
        covered := g.base + Positions(Summarised(jobs[id].task, g.at));
        if jobs[id].task.Compress? {
          jobs := jobs[id := jobs[id].(stage := Stored)];
          return;
        }
      }
      jobs := jobs - {id};
      grasps := grasps - {id};
    }

    /** A compression installs the last twelve messages of its copy, whatever is shown by now. */
    method Install(id: nat)
      requires Valid() && id in jobs && jobs[id].stage.Stored? && jobs[id].task.Compress?
      modifies this`jobs, this`grasps, this`shown, history
      ensures Valid() && jobs == old(jobs) - {id} && grasps == old(grasps) - {id}
      ensures history.Messages(user) == Last(12, old(jobs)[id].msgs) && history.OthersKept(user)
      ensures shown == Last(RECENT, old(grasps)[id].at)
      ensures Gone() - old(Gone()) == Positions(old(shown)) - Positions(shown) - covered - cleared - evicted
    {
      hide Shows;
      var msgs := jobs[id].msgs;
      PickLast(told, grasps[id].at, RECENT);
      history.Replace(user, msgs[|msgs| - RECENT..]);
      shown := Last(RECENT, grasps[id].at);
      jobs := jobs - {id};
      grasps := grasps - {id};
    }

    // ------------------------------------------------- whole jobs, alone and overlapping

    /** A job that nothing comes between loses nothing. */
    method RunAlone(id: nat, task: Task, summary: Option<TaskState>, saved: bool) returns (ok: bool)
      requires Valid() && id !in jobs
      modifies this`state, this`jobs, this`grasps, this`covered, this`shown, history
      ensures Valid() && jobs == old(jobs) && grasps == old(grasps)
      ensures ok == (Due(task, old(history.Messages(user))) && summary.Some? && saved)
      ensures Gone() == old(Gone()) && history.OthersKept(user)
      ensures state == if ok then summary.value else old(state)
      ensures covered == if ok then old(covered) + Positions(Summarised(task, old(shown))) else old(covered)
      ensures history.Messages(user) ==
              if ok && task.Compress? then Last(12, old(history.Messages(user))) else old(history.Messages(user))
      ensures shown == if ok && task.Compress? then Last(RECENT, old(shown)) else old(shown)
    {
      hide Shows, Pick, Rising, GraspedIn, CompressionDue, Summarised, Last;
      ghost var at, n := shown, |told|;
      CopyFits(task);
      SummarisedBelow(task, at, n);
      ok := Take(id, task);
      if ok {
        ReadState(id);
        ok := Save(id, summary, saved);
        assert forall k :: k in Gone() <==> k in old(Gone());
        if ok && task.Compress? {
          FrontAndEnd(at, n);
          Install(id);
          assert forall k :: k in Gone() <==> k in old(Gone());
        }
      }
    }

    lemma CopyFits(task: Task)
      requires Shown()
      ensures Rising(shown, |told|) && |shown| == |history.Messages(user)|
      ensures Due(task, history.Messages(user)) && task.Compress? ==> |shown| > RECENT
    {
      PickLength(told, shown);
    }

    /** A message that arrives while a compression is under way is lost: it is neither shown nor
        summarised afterwards. */
    method SaidMeanwhile(id: nat, summary: TaskState, role: Role, content: string, now: int)
      requires Valid() && id !in jobs && CompressionDue(history.Messages(user))
      modifies this`state, this`jobs, this`grasps, this`covered, this`shown, this`told, this`evicted, history
      ensures Valid() && told == old(told) + [ChatMessage(role, content, now)] && |old(told)| in Gone()
      ensures history.Messages(user) == Last(12, old(history.Messages(user)))
    {
      hide Shows, Pick, GraspedIn, CompressionDue, Pushed;
      ghost var at, n := shown, |told|;
      CopyFits(Compress);
      var due := Take(id, Compress);
      ReadState(id);
      var ok := Save(id, Some(summary), true);
      Say(role, content, now);
      FrontAndEnd(at, n);
      NotYet(at, n);
      Install(id);
    }

    /** A conversation that is cleared while a compression is under way comes back. */
    method ClearedMeanwhile(id: nat, summary: TaskState)
      requires Valid() && id !in jobs && CompressionDue(history.Messages(user))
      modifies this`state, this`jobs, this`grasps, this`covered, this`shown, this`cleared, history
      ensures Valid() && history.Messages(user) == Last(12, old(history.Messages(user)))
      ensures |history.Messages(user)| == 12 && Positions(shown) <= cleared
    {
      hide Shows, Pick, GraspedIn, CompressionDue;
      ghost var at, n := shown, |told|;
      CopyFits(Compress);
      var due := Take(id, Compress);
      ReadState(id);
      var ok := Save(id, Some(summary), true);
      Clear();
      FrontAndEnd(at, n);
      Install(id);
    }

    /** A refresh that began before a compression and saves after it overwrites the summary: what the
        compression dropped is then neither shown nor summarised. */
    method RefreshMeanwhile(slow: nat, id: nat, summary: TaskState, stale: TaskState)
      requires Valid() && slow !in jobs && id !in jobs && slow != id && CompressionDue(history.Messages(user))
      modifies this`state, this`jobs, this`grasps, this`covered, this`shown, history
      ensures Valid() && state == stale
      ensures forall k :: k in Summarised(Compress, old(shown)) ==>
                k in Gone() || k in old(covered) || k in cleared || k in evicted
    {
      hide Shows, Pick, GraspedIn, CompressionDue;
      ghost var at, n := shown, |told|;
      CopyFits(Compress);
      var begun := Take(slow, Refresh);
      ReadState(slow);
      var done := RunAlone(id, Compress, Some(summary), true);
      FrontAndEnd(at, n);
      SummarisedBelow(Compress, at, n);
      var ok := Save(slow, Some(stale), true);
    }
  }

  /** While no more was said than the cap holds, whatever is not shown was summarised, was cleared, or
      went missing between the steps of a job. */
  lemma OnlyOverlapsLose(m: MemoryRun, k: nat)
    requires m.Valid() && k < |m.told| <= m.history.maxTurns
    ensures k in m.Gone() || k in m.covered || k in m.cleared || m.told[k] in m.history.Messages(m.user)
  {
    if k in m.shown {
      var i :| 0 <= i < |m.shown| && m.shown[i] == k;
      assert m.history.Messages(m.user)[i] == m.told[k];
    }
  }

  lemma NotYet(at: seq<nat>, n: nat)
    requires Rising(at, n)
    ensures n !in at
  {
  }

  lemma SummarisedBelow(task: Task, at: seq<nat>, n: nat)
    requires Rising(at, n)
    ensures forall k :: k in Summarised(task, at) ==> k < n && k in at
  {
    RisingLast(at, n, WINDOW);
  }
}
