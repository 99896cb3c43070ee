/** agent/history.go: the capped per-user conversation, and when agent/memory.go compresses it. */
module ChatHistories {
  import opened Seqs

  datatype Role = User | Assistant | System

  datatype ChatMessage = ChatMessage(role: Role, content: string, at: int)

  const DEFAULT_CAP := 100
  const RECENT: nat := 12
  const COMPRESS_ABOVE := 900

  /** Everything said since the last clear, and how much of its front was cut away on purpose. */
  datatype Story = Story(all: seq<ChatMessage>, cut: nat)

  /** What is stored is exactly the capped end of what was not cut. */
  predicate Shows(msgs: seq<ChatMessage>, story: Story, cap: nat) {
    story.cut <= |story.all| && msgs == Last(cap, story.all[story.cut..])
  }

  lemma ShowsSuffix(msgs: seq<ChatMessage>, story: Story, cap: nat)
    requires Shows(msgs, story, cap)
    ensures IsSuffix(msgs, story.all) && |msgs| <= cap
    ensures story.cut == 0 ==> msgs == Last(cap, story.all)
  {
  }

  lemma ShowsAppend(msgs: seq<ChatMessage>, story: Story, cap: nat, m: ChatMessage)
    requires Shows(msgs, story, cap)
    ensures Shows(Last(cap, msgs + [m]), Story(story.all + [m], story.cut), cap)
  {
    assert (story.all + [m])[story.cut..] == story.all[story.cut..] + [m];
    LastAppend(cap, story.all[story.cut..], [m]);
  }

  /** A stale conversation's last message is older than `maxAge`. */
  predicate Stale(msgs: seq<ChatMessage>, now: int, maxAge: int) {
    msgs != [] && now - msgs[|msgs| - 1].at > maxAge
  }

  lemma NonEmpty(s: set<int>)
    ensures s == {} || exists x :: x in s
  {
    if forall x :: x !in s {
      assert s == {};
    }
  }

  lemma NothingShown(cap: nat)
    ensures Shows([], Story([], 0), cap)
  {
  }

  lemma ReplacementShows(all: seq<ChatMessage>, msgs: seq<ChatMessage>, cap: nat)
    ensures Shows(Last(cap, msgs), if IsSuffix(msgs, all) then Story(all, |all| - |msgs|) else Story(msgs, 0), cap)
    ensures IsSuffix(msgs, all) ==> |msgs| <= |all|
  {
  }

  lemma SuffixCut(a: seq<ChatMessage>, b: seq<ChatMessage>, cut: nat)
    requires IsSuffix(a, b) && cut <= |a|
    ensures IsSuffix(a[cut..], b)
  {
  }

  lemma SuffixLength(a: seq<ChatMessage>, b: seq<ChatMessage>)
    requires IsSuffix(a, b)
    ensures |a| <= |b|
  {
  }

  class ChatHistory {
    const maxTurns: nat
    var sessions: map<int, seq<ChatMessage>>
    ghost var stories: map<int, Story>

    function Messages(user: int): seq<ChatMessage>
      reads this
    {
      if user in sessions then sessions[user] else []
    }

    ghost function StoryOf(user: int): Story
      reads this
    {
      if user in stories then stories[user] else Story([], 0)
    }

    ghost predicate Valid()
      reads this
    {
      maxTurns > 0 && forall user :: Shows(Messages(user), StoryOf(user), maxTurns)
    }

    /** Nothing about any other user changed. */
    twostate predicate OthersKept(user: int)
      reads this
    {
      forall v :: v != user ==> Messages(v) == old(Messages(v)) && StoryOf(v) == old(StoryOf(v))
    }

    constructor (cap: int)
      ensures Valid() && sessions == map[] && stories == map[]
      ensures maxTurns == if cap <= 0 then 100 else cap
    {
      maxTurns := if cap <= 0 then DEFAULT_CAP else cap;
      sessions := map[];
      stories := map[];
    }

    method Add(user: int, role: Role, content: string, now: int)
      requires Valid()
      modifies this
      ensures Valid() && OthersKept(user)
      ensures Messages(user) == Last(maxTurns, old(Messages(user)) + [ChatMessage(role, content, now)])
      ensures StoryOf(user) == Story(old(StoryOf(user)).all + [ChatMessage(role, content, now)], old(StoryOf(user)).cut)
    {
      hide Shows;
      var m := ChatMessage(role, content, now);
      ShowsAppend(Messages(user), StoryOf(user), maxTurns, m);
      stories := stories[user := Story(StoryOf(user).all + [m], StoryOf(user).cut)];
      sessions := sessions[user := Messages(user) + [m]];
      var msgs := sessions[user];
      if |msgs| > maxTurns {
        sessions := sessions[user := msgs[|msgs| - maxTurns..]];
      }
      assert OthersKept(user);
    }

    /** The caller's own copy of the stored messages: writing to it cannot reach the history. */
    method Get(user: int) returns (msgs: array<ChatMessage>)
      ensures fresh(msgs) && msgs[..] == Messages(user)
    {
      var stored := Messages(user);
      msgs := new ChatMessage[|stored|](i requires 0 <= i < |stored| => stored[i]);
    }

    /** Installing a suffix of the story cuts it; installing anything else starts a new story. */
    method Replace(user: int, msgs: seq<ChatMessage>)
      requires Valid()
      modifies this
      ensures Valid() && OthersKept(user)
      ensures Messages(user) == Last(maxTurns, msgs)
      ensures StoryOf(user) ==
              var all := old(StoryOf(user)).all;
              if IsSuffix(msgs, all) then Story(all, |all| - |msgs|) else Story(msgs, 0)
    {
      hide Shows, IsSuffix;
      ghost var all := StoryOf(user).all;
      ReplacementShows(all, msgs, maxTurns);
      stories := stories[user := if IsSuffix(msgs, all) then Story(all, |all| - |msgs|) else Story(msgs, 0)];
      if |msgs| == 0 {
        sessions := sessions - {user};
        assert OthersKept(user);
        return;
      }
      sessions := sessions[user := if |msgs| > maxTurns then msgs[|msgs| - maxTurns..] else msgs];
      assert OthersKept(user);
    }

    method Clear(user: int)
      requires Valid()
      modifies this
      ensures Valid() && OthersKept(user)
      ensures Messages(user) == [] && StoryOf(user) == Story([], 0)
    {
      hide Shows;
      NothingShown(maxTurns);
      sessions := sessions - {user};
      stories := stories - {user};
      assert OthersKept(user);
    }

    /** Exactly the stale conversations go; every other one is untouched. */
    method CleanOld(maxAge: int, now: int)
      requires Valid()
      modifies this
      ensures Valid()
      ensures forall v :: if var m := old(Messages(v)); m != [] && now - m[|m| - 1].at > maxAge
                          then Messages(v) == [] && StoryOf(v) == Story([], 0)
                          else Messages(v) == old(Messages(v)) && StoryOf(v) == old(StoryOf(v))
    {
      hide Shows;
      NothingShown(maxTurns);
      var left: set<int> := sessions.Keys;
      while left != {}
        invariant left <= old(sessions.Keys)
        invariant forall v :: v in left || !Stale(old(Messages(v)), now, maxAge) ==>
                    Messages(v) == old(Messages(v)) && StoryOf(v) == old(StoryOf(v))
        invariant forall v :: v !in left && Stale(old(Messages(v)), now, maxAge) ==>
                    Messages(v) == [] && StoryOf(v) == Story([], 0)
        decreases left
      {
        NonEmpty(left);
        var user :| user in left;
        if Stale(Messages(user), now, maxAge) {
          sessions := sessions - {user};
          stories := stories - {user};
        }
        left := left - {user};
      }
    }
  }

  // ------------------------------------------------------------- compression

  type TaskState = string

  function EstimateTokens(msgs: seq<ChatMessage>): nat {
    if msgs == [] then 0 else EstimateTokens(msgs[..|msgs| - 1]) + |msgs[|msgs| - 1].content| / 3 + 10
  }

  /** The loop of estimateChatMessagesTokens. */
  method EstimateChatMessagesTokens(msgs: seq<ChatMessage>) returns (total: nat)
    ensures total == EstimateTokens(msgs)
  {
    total := 0;
    for i := 0 to |msgs|
      invariant total == EstimateTokens(msgs[..i])
    {
      assert msgs[..i + 1][..i] == msgs[..i];
      total := total + |msgs[i].content| / 3 + 10;
    }
    assert msgs[..|msgs|] == msgs;
  }

  /** A message costs ten tokens and a third of its length. */
  lemma TokensGrow(msgs: seq<ChatMessage>, m: ChatMessage)
    ensures EstimateTokens([]) == 0
    ensures EstimateTokens(msgs + [m]) == EstimateTokens(msgs) + 10 + |m.content| / 3
  {
    assert (msgs + [m])[..|msgs|] == msgs;
  }

  /** A conversation is compressed when it has more than twelve messages of more than 900 tokens. */
  lemma DueBeyond(msgs: seq<ChatMessage>)
    ensures CompressionDue(msgs) <==> |msgs| >= 13 && EstimateTokens(msgs) >= 901
  {
  }

  predicate CompressionDue(msgs: seq<ChatMessage>) {
    |msgs| > RECENT && EstimateTokens(msgs) > COMPRESS_ABOVE
  }
}
