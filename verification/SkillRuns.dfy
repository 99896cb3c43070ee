/** Whole runs of one user's skill sessions: turns, extraction, suspending and restoring, and the
    ledger of what was offered for confirmation, who still holds it and what was carried out. */
module SkillRuns {
  import opened Seqs
  import opened Text
  import opened Records
  import opened Execution
  import opened SkillSessions
  import opened ChatHistories
  import opened TaskStacks
  import opened Suspensions
  import opened Confirmations
  import opened TraderCreation

  // -------------------------------------------------------------------- the ledger

  /** What a reply put to the user for confirmation. */
  datatype Offer = ActOn(skill: Skill, action: Action, target: Target) | CreateDraft(draft: Draft)

  /** The hold of one waiting session on an offer: its number, whether the session still stands for
      exactly what was offered, and whether its request covers everything by now. */
  datatype Ticket = Ticket(offer: nat, steady: bool, wide: bool)

  /** `active` is the ticket of the active session, `held` those of suspended sessions by snapshot
      name; `spent` numbers the offer of every dispatch; `copies` counts restores that left a waiting
      session on the stack beside the active one. */
  datatype Ledger = Ledger(
    offers: seq<Offer>,
    spent: seq<nat>,
    active: Option<Ticket>,
    held: map<string, Ticket>,
    copies: nat)

  const NO_OFFERS := Ledger([], [], None, map[], 0)

  predicate IsDraft(s: SkillSession) {
    s.name.Trader? && s.action.Create?
  }

  /** A session waiting for an answer that will delete, stop, start or create. */
  predicate Guarded(s: SkillSession, needs: (Skill, Action) -> bool) {
    if IsDraft(s) then Waiting(s) else Pending(s) && Confirmable(s.name, s.action) && needs(s.name, s.action)
  }

  predicate GuardedPart(s: Option<SkillSession>, needs: (Skill, Action) -> bool) {
    s.Some? && Guarded(s.value, needs)
  }

  /** The session stands for the offer of its ticket. */
  predicate Backs(s: SkillSession, t: Ticket, offers: seq<Offer>) {
    && t.offer < |offers|
    && match offers[t.offer]
       case ActOn(skill, action, target) =>
         !IsDraft(s) && s.name == skill && s.action == action && Agrees(s, Outstanding(target, t.steady, t.wide))
       case CreateDraft(draft) => IsDraft(s) && (t.steady ==> DraftOf(s) == draft)
  }

  predicate DraftSound(s: Option<SkillSession>) {
    s.Some? && IsDraft(s.value) ==> Sound(s.value)
  }

  /** A stored entry: sound if it is a draft; a parent never waits to start, stop or delete; and only
      a workflow's snapshot holds a workflow. */
  predicate EntryFits(e: SuspendedTask, needs: (Skill, Action) -> bool) {
    && DraftSound(e.skill)
    && (e.resumeOnSuccess && GuardedPart(e.skill, needs) ==> IsDraft(e.skill.value))
    && (e.kind.SkillKind? ==> e.workflow.None?)
  }

  predicate DistinctNames(stack: seq<SuspendedTask>) {
    forall i, j :: 0 <= i < j < |stack| ==> stack[i].snapshotId != stack[j].snapshotId
  }

  function CountGuarded(stack: seq<SuspendedTask>, needs: (Skill, Action) -> bool): nat {
    if stack == [] then 0
    else CountGuarded(stack[..|stack| - 1], needs) + if GuardedPart(stack[|stack| - 1].skill, needs) then 1 else 0
  }

  /** No offer is held twice, held and spent, or spent twice. */
  predicate OneHolder(l: Ledger) {
    && (forall a, b :: a in l.held && b in l.held && l.held[a].offer == l.held[b].offer ==> a == b)
    && (l.active.Some? ==> forall a :: a in l.held ==> l.held[a].offer != l.active.value.offer)
    && (forall i, j :: 0 <= i < j < |l.spent| ==> l.spent[i] != l.spent[j])
    && (l.active.Some? ==> l.active.value.offer !in l.spent)
    && (forall a :: a in l.held ==> l.held[a].offer !in l.spent)
  }

  /** Ledger numbers are offers made, and dispatches and waiting sessions are paid for by offers and
      by copies. */
  predicate Balanced(l: Ledger, waiting: nat) {
    && (forall i :: 0 <= i < |l.spent| ==> l.spent[i] < |l.offers|)
    && (forall a :: a in l.held ==> l.held[a].offer < |l.offers|)
    && (l.active.Some? ==> l.active.value.offer < |l.offers|)
    && |l.spent| + (if l.active.Some? then 1 else 0) + waiting <= |l.offers| + l.copies
    && (l.copies == 0 ==> OneHolder(l))
  }

  /** Every waiting entry of the stack holds a ticket it stands for. */
  predicate StackBacked(stack: seq<SuspendedTask>, l: Ledger, needs: (Skill, Action) -> bool) {
    && DistinctNames(stack)
    && (forall e :: e in stack ==> EntryFits(e, needs))
    && (forall e :: e in stack && GuardedPart(e.skill, needs) ==>
          e.snapshotId in l.held && Backs(e.skill.value, l.held[e.snapshotId], l.offers))
  }

  /** The active session holds a ticket exactly while it waits, and stands for its offer. */
  predicate ActiveBacked(skill: Option<SkillSession>, l: Ledger, needs: (Skill, Action) -> bool) {
    && DraftSound(skill)
    && (l.active.Some? <==> GuardedPart(skill, needs))
    && (l.active.Some? ==> Backs(skill.value, l.active.value, l.offers))
  }

  predicate Backed(skill: Option<SkillSession>, stack: seq<SuspendedTask>, l: Ledger, needs: (Skill, Action) -> bool) {
    ActiveBacked(skill, l, needs) && StackBacked(stack, l, needs) && Balanced(l, CountGuarded(stack, needs))
  }

  // --------------------------------------------------------- what happens to the stack

  /** `b` holds entries of `a` only, in order. */
  predicate Thins(a: seq<SuspendedTask>, b: seq<SuspendedTask>, needs: (Skill, Action) -> bool) {
    && (forall e :: e in b ==> e in a)
    && (DistinctNames(a) ==> DistinctNames(b))
    && CountGuarded(b, needs) <= CountGuarded(a, needs)
  }

  lemma {:induction false} CountConcat(a: seq<SuspendedTask>, b: seq<SuspendedTask>, needs: (Skill, Action) -> bool)
    ensures CountGuarded(a + b, needs) == CountGuarded(a, needs) + CountGuarded(b, needs)
    decreases |b|
  {
    hide GuardedPart;
    if b == [] {
      assert a + b == a;
    } else {
      assert (a + b)[..|a + b| - 1] == a + b[..|b| - 1];
      CountConcat(a, b[..|b| - 1], needs);
    }
  }

  lemma CountOne(e: SuspendedTask, needs: (Skill, Action) -> bool)
    ensures CountGuarded([e], needs) == if GuardedPart(e.skill, needs) then 1 else 0
  {
    hide GuardedPart;
    assert [e][..0] == [];
  }

  lemma DistinctSnoc(s: seq<SuspendedTask>, e: SuspendedTask)
    ensures DistinctNames(s + [e]) <==> DistinctNames(s) && forall x :: x in s ==> x.snapshotId != e.snapshotId
  {
    var t := s + [e];
    assert forall i :: 0 <= i < |t| ==> t[i] == if i < |s| then s[i] else e;
    if DistinctNames(t) {
      forall x | x in s
        ensures x.snapshotId != e.snapshotId
      {
        var i :| 0 <= i < |s| && s[i] == x;
        assert t[i] == x && t[|s|] == e;
      }
      assert forall i :: 0 <= i < |s| ==> s[i] == t[i];
    } else {
      var i, j :| 0 <= i < j < |t| && t[i].snapshotId == t[j].snapshotId;
      assert s[i] in s;
    }
  }

  lemma KeepSnoc(p: SuspendedTask -> bool, s: seq<SuspendedTask>)
    requires s != []
    ensures Keep(p, s) == if p(s[|s| - 1]) then Keep(p, s[..|s| - 1]) + [s[|s| - 1]] else Keep(p, s[..|s| - 1])
  {
  }

  lemma {:induction false} KeepThins(p: SuspendedTask -> bool, s: seq<SuspendedTask>, needs: (Skill, Action) -> bool)
    ensures Thins(s, Keep(p, s), needs)
  {
    hide GuardedPart, DistinctNames, CountGuarded, Keep;
    if s == [] {
      assert Keep(p, s) == s;
    } else {
      var front, last := s[..|s| - 1], s[|s| - 1];
      assert s == front + [last];
      KeepThins(p, front, needs);
      KeepSnoc(p, s);
      DistinctSnoc(front, last);
      DistinctSnoc(Keep(p, front), last);
      CountConcat(front, [last], needs);
      CountConcat(Keep(p, front), [last], needs);
    }
  }

  lemma SliceDistinct(s: seq<SuspendedTask>, i: nat, j: nat)
    requires i <= j <= |s| && DistinctNames(s)
    ensures DistinctNames(s[..i] + s[j..])
  {
    var t := s[..i] + s[j..];
    assert forall k :: 0 <= k < |t| ==> t[k] == if k < i then s[k] else s[k + (j - i)];
  }

  lemma SliceThins(s: seq<SuspendedTask>, i: nat, j: nat, needs: (Skill, Action) -> bool)
    requires i <= j <= |s|
    ensures Thins(s, s[..i] + s[j..], needs)
  {
    hide GuardedPart, DistinctNames, CountGuarded;
    if DistinctNames(s) {
      SliceDistinct(s, i, j);
    }
    CountConcat(s[..i], s[i..j], needs);
    CountConcat(s[..j], s[j..], needs);
    CountConcat(s[..i], s[j..], needs);
    assert s[..i] + s[i..j] == s[..j] && s[..j] + s[j..] == s;
  }

  lemma ThinsTrans(a: seq<SuspendedTask>, b: seq<SuspendedTask>, c: seq<SuspendedTask>, needs: (Skill, Action) -> bool)
    requires Thins(a, b, needs) && Thins(b, c, needs)
    ensures Thins(a, c, needs)
  {
    hide DistinctNames, CountGuarded;
  }

  /** Showing the stack only drops entries. */
  lemma VisibleThins(stored: seq<SuspendedTask>, now: int, needs: (Skill, Action) -> bool)
    ensures Thins(stored, Visible(stored, now), needs)
  {
    hide Thins, Keep, LiveAt;
    var kept := Keep(LiveAt(now), stored);
    KeepThins(LiveAt(now), stored, needs);
    if |kept| > STACK_MAX {
      SliceThins(kept, 0, |kept| - STACK_MAX, needs);
      assert kept[..0] + kept[|kept| - STACK_MAX..] == Visible(stored, now);
      ThinsTrans(stored, kept, Visible(stored, now), needs);
    }
  }

  lemma ThinnerStaysBacked(skill: Option<SkillSession>, a: seq<SuspendedTask>, b: seq<SuspendedTask>, l: Ledger,
                           needs: (Skill, Action) -> bool)
    requires Backed(skill, a, l, needs) && Thins(a, b, needs)
    ensures Backed(skill, b, l, needs)
  {
    hide DistinctNames, CountGuarded, Backs, GuardedPart, DraftSound, OneHolder;
  }

  // ------------------------------------------------------------- ledger transitions

  function Offered(l: Ledger, o: Offer, steady: bool): Ledger {
    l.(offers := l.offers + [o], active := Some(Ticket(|l.offers|, steady, o.ActOn? && o.target.Everything?)))
  }

  /** A prompt names its target. */
  function PromptedFor(l: Ledger, skill: Skill, action: Action, target: Target): Ledger {
    Offered(l, ActOn(skill, action, target), Prompted(target).steady)
  }

  /** The active ticket, or any when there is none. */
  function ActiveTicket(l: Ledger): Ticket {
    if l.active.Some? then l.active.value else Ticket(0, false, false)
  }

  function Dropped(l: Ledger): Ledger {
    l.(active := None)
  }

  function Spent(l: Ledger): Ledger {
    if l.active.None? then l else l.(active := None, spent := l.spent + [l.active.value.offer])
  }

  function Marked(l: Ledger, steady: bool, wide: bool): Ledger {
    if l.active.None? then l else l.(active := Some(Ticket(l.active.value.offer, steady, wide)))
  }

  /** The active ticket moves to the snapshot `name`. */
  function Parked(l: Ledger, name: string): Ledger {
    if l.active.None? then l else l.(active := None, held := l.held[name := l.active.value])
  }

  /** The ticket of the snapshot `e`, if it waits, becomes the active one. */
  function Claim(l: Ledger, e: SuspendedTask, needs: (Skill, Action) -> bool): Option<Ticket> {
    if GuardedPart(e.skill, needs) && e.snapshotId in l.held then Some(l.held[e.snapshotId]) else None
  }

  function Taken(l: Ledger, e: SuspendedTask, needs: (Skill, Action) -> bool): Ledger {
    l.(active := Claim(l, e, needs), held := l.held - {e.snapshotId})
  }

  function Copied(l: Ledger, e: SuspendedTask, needs: (Skill, Action) -> bool): Ledger {
    l.(active := Claim(l, e, needs), copies := l.copies + if GuardedPart(e.skill, needs) then 1 else 0)
  }

  lemma BalancedSteps(l: Ledger, waiting: nat, o: Offer, steady: bool, wide: bool)
    requires Balanced(l, waiting)
    ensures Balanced(Offered(l, o, steady), waiting) && Balanced(Dropped(l), waiting)
    ensures Balanced(Spent(l), waiting) && Balanced(Marked(l, steady, wide), waiting)
  {
    hide OneHolder;
    if l.copies == 0 {
      OfferHasOneHolder(l, waiting, o, steady);
      SpentHasOneHolder(l, steady, wide);
    }
  }

  lemma OfferHasOneHolder(l: Ledger, waiting: nat, o: Offer, steady: bool)
    requires Balanced(l, waiting) && OneHolder(l)
    ensures OneHolder(Offered(l, o, steady))
  {
  }

  lemma SpentHasOneHolder(l: Ledger, steady: bool, wide: bool)
    requires OneHolder(l)
    ensures OneHolder(Dropped(l)) && OneHolder(Spent(l)) && OneHolder(Marked(l, steady, wide))
  {
  }

  lemma BacksLater(s: SkillSession, t: Ticket, offers: seq<Offer>, o: Offer)
    requires Backs(s, t, offers)
    ensures Backs(s, t, offers + [o])
  {
    hide Agrees, DraftOf;
    assert (offers + [o])[t.offer] == offers[t.offer];
  }

  /** What happens to the active session alone leaves the stack backed. */
  lemma StackStaysBacked(stack: seq<SuspendedTask>, l: Ledger, n: Ledger, o: Offer, needs: (Skill, Action) -> bool)
    requires StackBacked(stack, l, needs) && n.held == l.held && (n.offers == l.offers || n.offers == l.offers + [o])
    ensures StackBacked(stack, n, needs)
  {
    hide Backs, DistinctNames, Guarded, DraftSound;
    forall e | e in stack && e.skill.Some? && GuardedPart(e.skill, needs)
      ensures Backs(e.skill.value, n.held[e.snapshotId], n.offers)
    {
      if n.offers == l.offers + [o] {
        BacksLater(e.skill.value, l.held[e.snapshotId], l.offers, o);
      }
    }
  }

  /** Saving a session keeps whether it waits and what it stands for. */
  lemma StoreBacks(s: SkillSession, now: int, aliasWins: bool, t: Ticket, offers: seq<Offer>,
                   needs: (Skill, Action) -> bool)
    requires !s.name.NoSkill? && DraftSound(Some(s))
    ensures var n := NormalizeSkillSession(s, now, aliasWins);
            && n.name == s.name && n.action == s.action && n.phase == s.phase
            && DraftSound(Some(n)) && Guarded(n, needs) == Guarded(s, needs)
            && (Backs(s, t, offers) ==> Backs(n, t, offers))
  {
    hide NormalizeSkillSession, Sound, Agrees, DraftOf;
    StoreKeeps(s, now, aliasWins, "");
    if IsDraft(s) {
      SoundThroughStore(s, now, aliasWins);
    } else if Backs(s, t, offers) {
      match offers[t.offer]
      case ActOn(skill, action, target) => StoreAgrees(s, now, aliasWins, Outstanding(target, t.steady, t.wide));
      case CreateDraft(draft) =>
    }
  }

  // -------------------------------------------------------- turns on the active session

  /** The loaded session, empty when none is stored. */
  function Loaded(skill: Option<SkillSession>, now: int, aliasWins: bool): SkillSession {
    if skill.Some? then NormalizeSkillSession(skill.value, now, aliasWins) else EMPTY_SESSION
  }

  function Written(skill: Option<SkillSession>, w: Write, now: int, aliasWins: bool): Option<SkillSession> {
    match w
    case Untouched => skill
    case Cleared => None
    case Save(s) => Some(NormalizeSkillSession(s, now, aliasWins))
  }

  /** The outstanding prompt behind the active ticket, after a saved turn. */
  function Later(l: Ledger, turn: Turn): Ledger {
    if l.active.None? || l.active.value.offer >= |l.offers| || !l.offers[l.active.value.offer].ActOn? then l
    else
      var t, o := l.active.value, l.offers[l.active.value.offer];
      var q := Continued(Outstanding(o.target, t.steady, t.wide), o.skill, o.action, turn);
      Marked(l, q.steady, q.wide)
  }

  function AfterConfirm(l: Ledger, e: Effect, skill: Skill, action: Action, need: bool, turn: Turn): Ledger {
    match e.write
    case Untouched => l
    case Cleared => if need && e.reply.Dispatched? then Spent(l) else Dropped(l)
    case Save(s) =>
      if e.reply.Prompt? then PromptedFor(l, skill, action, e.reply.target) else Later(l, turn)
  }

  /** Only a prompt makes an offer and only a dispatch under confirmation spends one. */
  lemma TurnEntries(l: Ledger, e: Effect, skill: Skill, action: Action, need: bool, turn: Turn)
    ensures var n := AfterConfirm(l, e, skill, action, need, turn);
            && n.held == l.held && n.copies == l.copies
            && (!(e.write.Save? && e.reply.Prompt?) ==> n.offers == l.offers)
            && (!e.reply.Dispatched? ==> n.spent == l.spent)
            && (need && e.reply.Dispatched? && e.write.Cleared? ==> n == Spent(l))
            && (!e.reply.Prompt? && n.active.Some? ==>
                  l.active.Some? && n.active.value.offer == l.active.value.offer)
            && (e.reply.Prompt? && e.write.Save? ==> n == PromptedFor(l, skill, action, e.reply.target))
  {
    hide Continued, Prompted;
  }

  /** The outstanding form of a ticket on an action. */
  function Standing(o: Offer, t: Ticket): Outstanding
    requires o.ActOn?
  {
    Outstanding(o.target, t.steady, t.wide)
  }

  /** The targets are what the open offer was about: the id it named while the session still stands
      for it, everything deletable once the request covers everything. */
  predicate CarriesOut(l: Ledger, skill: Skill, action: Action, turn: Turn, ids: seq<string>) {
    && l.active.Some? && l.active.value.offer < |l.offers|
    && var o := l.offers[l.active.value.offer];
       && o.ActOn? && o.skill == skill && o.action == action
       && var q := Continued(Standing(o, l.active.value), skill, action, turn);
          if q.wide then turn.listing.Some? && ids == Deletable(turn.listing.value)
          else q.steady ==> ids == [q.target.id]
  }

  /** One confirmation turn: a dispatch was a yes to the active offer, acting on what it named. */
  lemma ConfirmActs(skill0: Option<SkillSession>, l: Ledger, turn: Turn, skill: Skill, action: Action,
                    now: int, aliasWins: bool, needs: (Skill, Action) -> bool)
    requires Confirmable(skill, action) && ActiveBacked(skill0, l, needs)
    requires skill0.Some? ==> !skill0.value.name.NoSkill?
    ensures var need := needs(skill, action);
            var e := Handle(Loaded(skill0, now, aliasWins), turn, skill, action, need);
            && (e.write.Save? ==> !e.write.session.name.NoSkill?)
            && (e.reply.Prompt? ==> e.write.Save? && l.active.None?)
            && (e.ids != [] ==> e.reply.Dispatched?)
            && (e.reply.Dispatched? ==> e.write.Cleared?)
            && (need && e.reply.Dispatched? ==>
                  && turn.isYes && skill0.Some? && skill0.value.name == skill && skill0.value.action == action
                  && skill0.value.phase.AwaitConfirmation? && l.active.Some?
                  && CarriesOut(l, skill, action, turn, e.ids))
  {
    hide Handle, NormalizeSkillSession, Agrees, Deletable, Bulk, Widens, SupportsBulk, Continued, Prompted, AimsAt;
    hide Sound, DraftOf, Trimmed;
    var need := needs(skill, action);
    var loaded := Loaded(skill0, now, aliasWins);
    if skill0.Some? {
      StoreBacks(skill0.value, now, aliasWins, ActiveTicket(l), l.offers, needs);
    }
    TurnSafety(loaded, turn, skill, action, need);
    if l.active.Some? && loaded.name == skill && loaded.action == action {
      SavedTurnAgrees(loaded, turn, skill, action, Standing(l.offers[l.active.value.offer], l.active.value));
    }
  }

  /** The session it saves still stands for its offer. */
  lemma ConfirmKeepsActive(skill0: Option<SkillSession>, l: Ledger, turn: Turn, skill: Skill, action: Action,
                           now: int, aliasWins: bool, needs: (Skill, Action) -> bool)
    requires Confirmable(skill, action) && ActiveBacked(skill0, l, needs)
    requires skill0.Some? ==> !skill0.value.name.NoSkill?
    ensures var need := needs(skill, action);
            var e := Handle(Loaded(skill0, now, aliasWins), turn, skill, action, need);
            var n := AfterConfirm(l, e, skill, action, need, turn);
            ActiveBacked(Written(skill0, e.write, now, aliasWins), n, needs)
  {
    hide Handle, NormalizeSkillSession, Agrees, Deletable, Bulk, Widens, SupportsBulk, Continued, Prompted, AimsAt;
    hide Sound, DraftOf, Trimmed;
    var need := needs(skill, action);
    var loaded := Loaded(skill0, now, aliasWins);
    if skill0.Some? {
      StoreBacks(skill0.value, now, aliasWins, ActiveTicket(l), l.offers, needs);
    }
    var e := Handle(loaded, turn, skill, action, need);
    TurnSafety(loaded, turn, skill, action, need);
    if e.write.Save? {
      var s := e.write.session;
      var n := AfterConfirm(l, e, skill, action, need, turn);
      if e.reply.Prompt? {
        PromptNames(loaded, turn, skill, action, need);
        PromptAgrees(s, e.reply.target);
      } else if l.active.Some? {
        SavedTurnAgrees(loaded, turn, skill, action, Standing(l.offers[l.active.value.offer], l.active.value));
      }
      StoreBacks(s, now, aliasWins, ActiveTicket(n), n.offers, needs);
    }
  }

  lemma ConfirmKeepsBacked(skill0: Option<SkillSession>, stack: seq<SuspendedTask>, l: Ledger, turn: Turn, skill: Skill,
                           action: Action, now: int, aliasWins: bool, needs: (Skill, Action) -> bool)
    requires Confirmable(skill, action) && Backed(skill0, stack, l, needs)
    requires skill0.Some? ==> !skill0.value.name.NoSkill?
    ensures var e := Handle(Loaded(skill0, now, aliasWins), turn, skill, action, needs(skill, action));
            Backed(Written(skill0, e.write, now, aliasWins), stack,
                   AfterConfirm(l, e, skill, action, needs(skill, action), turn), needs)
  {
    hide Handle, ActiveBacked, StackBacked, Balanced, CountGuarded, NormalizeSkillSession, Prompted, Continued;
    ConfirmKeepsActive(skill0, l, turn, skill, action, now, aliasWins, needs);
    var e := Handle(Loaded(skill0, now, aliasWins), turn, skill, action, needs(skill, action));
    var n := AfterConfirm(l, e, skill, action, needs(skill, action), turn);
    var o := ActOn(skill, action, if e.reply.Prompt? then e.reply.target else Everything);
    StackStaysBacked(stack, l, n, o, needs);
    BalancedSteps(l, CountGuarded(stack, needs), o, ActiveTicket(n).steady, ActiveTicket(n).wide);
  }

  // ------------------------------------------------------------- trader-create turns

  function AfterCreate(l: Ledger, e: CreateEffect): Ledger {
    if e.tools != [] then Spent(l)
    else if e.shown && e.write.Save? then Offered(l, CreateDraft(DraftOf(e.write.session)), true)
    else Dropped(l)
  }

  /** One trader-create turn: a wait begins where its draft is offered, and the tools run on an
      answer to the active offer, creating the draft it named if that still stands. */
  lemma CreateKeepsActive(skill0: Option<SkillSession>, l: Ledger, turn: CreateTurn, now: int, aliasWins: bool,
                          needs: (Skill, Action) -> bool)
    requires ActiveBacked(skill0, l, needs) && (skill0.Some? ==> IsDraft(skill0.value))
    ensures var e := HandleCreate(Loaded(skill0, now, aliasWins), turn);
            && ActiveBacked(Written(skill0, e.write, now, aliasWins), AfterCreate(l, e), needs)
            && !e.write.Untouched? && (e.write.Save? ==> !e.write.session.name.NoSkill?)
            && (e.tools != [] <==>
                  skill0.Some? && if skill0.value.phase.AwaitStartConfirmation? then turn.isYes || turn.isNo
                                  else skill0.value.phase.AwaitCreateConfirmation? && turn.isYes)
            && (e.tools != [] ==>
                  && l.active.Some? && l.offers[l.active.value.offer].CreateDraft?
                  && e.tools[0].CreateTool? && Complete(e.tools[0].draft)
                  && var d := l.offers[l.active.value.offer].draft;
                     (l.active.value.steady && DraftListed(d, turn.catalog) ==> e.tools[0].draft == d))
            && (|e.tools| > 1 <==>
                  && skill0.Some? && skill0.value.phase.AwaitStartConfirmation?
                  && turn.isYes && turn.outcome.CreatedAs? && turn.outcome.id != "")
            && (|e.tools| > 1 ==> e.tools[1..] == [StartTool(turn.outcome.id)])
            && (e.tools != [] && turn.outcome != Refused(true) ==> e.write.Cleared?)
  {
    hide HandleCreate, NormalizeSkillSession, DraftOf, DraftListed, Synced, Agrees, FieldValue, Complete;
    var loaded := Loaded(skill0, now, aliasWins);
    if skill0.Some? {
      SoundThroughStore(skill0.value, now, aliasWins);
      StoreKeeps(skill0.value, now, aliasWins, "");
    }
    NewDraftSound();
    CreateSafety(loaded, turn);
    var e := HandleCreate(loaded, turn);
    if e.write.Save? {
      SoundThroughStore(e.write.session, now, aliasWins);
      TraderNamed(e.write.session);
      StoreKeeps(e.write.session, now, aliasWins, "");
    }
  }

  lemma CreateKeepsBacked(skill0: Option<SkillSession>, stack: seq<SuspendedTask>, l: Ledger, turn: CreateTurn,
                          now: int,
                          aliasWins: bool, needs: (Skill, Action) -> bool)
    requires Backed(skill0, stack, l, needs) && (skill0.Some? ==> IsDraft(skill0.value))
    ensures var e := HandleCreate(Loaded(skill0, now, aliasWins), turn);
            Backed(Written(skill0, e.write, now, aliasWins), stack, AfterCreate(l, e), needs)
  {
    hide HandleCreate, ActiveBacked, StackBacked, Balanced, CountGuarded, NormalizeSkillSession, DraftOf;
    CreateKeepsActive(skill0, l, turn, now, aliasWins, needs);
    var e := HandleCreate(Loaded(skill0, now, aliasWins), turn);
    var o := CreateDraft(if e.write.Save? then DraftOf(e.write.session) else Draft("", "", "", ""));
    StackStaysBacked(stack, l, AfterCreate(l, e), o, needs);
    BalancedSteps(l, CountGuarded(stack, needs), o, true, false);
  }

  // ---------------------------------------------------------- edits between the turns

  /** An edit that answers nothing: the skill, action and phase stay, and a draft stays sound. */
  predicate Edits(s: SkillSession, edited: SkillSession) {
    && edited.name == s.name && edited.action == s.action && edited.phase == s.phase
    && DraftSound(Some(edited))
  }

  /** The edited session still stands for exactly what was offered. */
  predicate StillOffered(o: Offer, edited: SkillSession) {
    match o
    case ActOn(_, _, target) => target.One? && AimsAt(edited, target.id)
    case CreateDraft(draft) => DraftOf(edited) == draft
  }

  function AfterEdit(l: Ledger, edited: SkillSession): Ledger {
    if l.active.None? || l.active.value.offer >= |l.offers| then l
    else
      var t, o := l.active.value, l.offers[l.active.value.offer];
      Marked(l, t.steady && StillOffered(o, edited), if o.ActOn? then Bulk(edited) else t.wide)
  }

  lemma EditKeepsActive(s: SkillSession, edited: SkillSession, l: Ledger, now: int, aliasWins: bool,
                        needs: (Skill, Action) -> bool)
    requires ActiveBacked(Some(s), l, needs) && !s.name.NoSkill? && Edits(s, edited)
    ensures ActiveBacked(Some(NormalizeSkillSession(edited, now, aliasWins)), AfterEdit(l, edited), needs)
  {
    hide NormalizeSkillSession, Bulk, AimsAt, Sound, DraftOf, Trimmed;
    var n := AfterEdit(l, edited);
    StoreBacks(edited, now, aliasWins, ActiveTicket(n), n.offers, needs);
  }

  lemma EditKeepsBacked(s: SkillSession, stack: seq<SuspendedTask>, edited: SkillSession, l: Ledger, now: int,
                        aliasWins: bool,
                        needs: (Skill, Action) -> bool)
    requires Backed(Some(s), stack, l, needs) && !s.name.NoSkill? && Edits(s, edited)
    ensures Backed(Some(NormalizeSkillSession(edited, now, aliasWins)), stack, AfterEdit(l, edited), needs)
  {
    hide ActiveBacked, StackBacked, Balanced, CountGuarded, NormalizeSkillSession, Edits, StillOffered, Bulk;
    EditKeepsActive(s, edited, l, now, aliasWins, needs);
    var n := AfterEdit(l, edited);
    var o := ActOn(Trader, Stop, Everything);
    StackStaysBacked(stack, l, n, o, needs);
    BalancedSteps(l, CountGuarded(stack, needs), o, ActiveTicket(n).steady, ActiveTicket(n).wide);
  }

  /** A session that waits for nothing replaces the active one. */
  lemma ReplaceKeepsBacked(skill0: Option<SkillSession>, stack: seq<SuspendedTask>, l: Ledger,
                           next: Option<SkillSession>,
                           needs: (Skill, Action) -> bool)
    requires Backed(skill0, stack, l, needs) && DraftSound(next) && !GuardedPart(next, needs)
    ensures Backed(next, stack, Dropped(l), needs)
  {
    hide StackBacked, Balanced, CountGuarded, Sound, Guarded;
    var o := ActOn(Trader, Stop, Everything);
    StackStaysBacked(stack, l, Dropped(l), o, needs);
    BalancedSteps(l, CountGuarded(stack, needs), o, false, false);
  }

  // --------------------------------------------------------- suspending and restoring

  /** No snapshot has had this name: random names are never repeated. */
  predicate Unused(name: string, stack: seq<SuspendedTask>, l: Ledger) {
    name !in l.held && forall e :: e in stack ==> e.snapshotId != name
  }

  /** A snapshot of the active session goes on top with its ticket. */
  lemma PushKeepsBacked(skill0: Option<SkillSession>, stack: seq<SuspendedTask>, l: Ledger, e: SuspendedTask,
                        needs: (Skill, Action) -> bool)
    requires Backed(skill0, stack, l, needs) && Unused(e.snapshotId, stack, l)
    requires EntryFits(e, needs) && (GuardedPart(e.skill, needs) <==> GuardedPart(skill0, needs))
    requires l.active.Some? && e.skill.Some? ==> Backs(e.skill.value, l.active.value, l.offers)
    ensures Backed(None, stack + [e], Parked(l, e.snapshotId), needs)
  {
    hide Backs, DistinctNames, Guarded, CountGuarded, Sound;
    DistinctSnoc(stack, e);
    CountConcat(stack, [e], needs);
    CountOne(e, needs);
  }

  /** An entry that waits for nothing goes on top; the active session stays. */
  lemma PushOtherKeepsBacked(skill0: Option<SkillSession>, stack: seq<SuspendedTask>, l: Ledger, e: SuspendedTask,
                             needs: (Skill, Action) -> bool)
    requires Backed(skill0, stack, l, needs) && Unused(e.snapshotId, stack, l)
    requires EntryFits(e, needs) && !GuardedPart(e.skill, needs)
    ensures Backed(skill0, stack + [e], l, needs)
  {
    hide Backs, DistinctNames, Guarded, CountGuarded, Sound, OneHolder;
    DistinctSnoc(stack, e);
    CountConcat(stack, [e], needs);
    CountOne(e, needs);
  }

  /** The other entries, by name. */
  lemma OtherEntries(stack: seq<SuspendedTask>, m: nat, needs: (Skill, Action) -> bool)
    requires DistinctNames(stack) && m < |stack|
    ensures var rest := stack[..m] + stack[m + 1..];
            && DistinctNames(rest)
            && (forall x :: x in rest ==> x in stack && x.snapshotId != stack[m].snapshotId)
            && CountGuarded(stack, needs) ==
               CountGuarded(rest, needs) + if GuardedPart(stack[m].skill, needs) then 1 else 0
  {
    hide GuardedPart, CountGuarded;
    var e, rest := stack[m], stack[..m] + stack[m + 1..];
    SliceDistinct(stack, m, m + 1);
    CountConcat(stack[..m], [e], needs);
    CountConcat(stack[..m + 1], stack[m + 1..], needs);
    CountConcat(stack[..m], stack[m + 1..], needs);
    CountOne(e, needs);
    assert stack[..m] + [e] == stack[..m + 1] && stack[..m + 1] + stack[m + 1..] == stack;
    forall x | x in rest
      ensures x in stack && x.snapshotId != e.snapshotId
    {
      var k :| 0 <= k < |rest| && rest[k] == x;
      assert x == if k < m then stack[k] else stack[k + 1];
    }
  }

  /** Taking an entry out moves its ticket with it. */
  lemma TakeKeepsBacked(skill0: Option<SkillSession>, stack: seq<SuspendedTask>, l: Ledger, m: nat,
                        needs: (Skill, Action) -> bool)
    requires Backed(skill0, stack, l, needs) && m < |stack|
    ensures Backed(stack[m].skill, stack[..m] + stack[m + 1..], Taken(l, stack[m], needs), needs)
  {
    hide Backs, Guarded, CountGuarded, Sound, DistinctNames;
    assert stack[m] in stack;
    OtherEntries(stack, m, needs);
  }

  /** Restoring without removal copies the ticket, and counts the copy. */
  lemma CopyKeepsBacked(skill0: Option<SkillSession>, stack: seq<SuspendedTask>, l: Ledger, m: nat,
                        needs: (Skill, Action) -> bool)
    requires Backed(skill0, stack, l, needs) && m < |stack|
    ensures Backed(stack[m].skill, stack, Copied(l, stack[m], needs), needs)
  {
    hide Backs, Guarded, CountGuarded, Sound, DistinctNames;
    assert stack[m] in stack;
  }

  /** Without copies every offer is spent at most once; with them each extra dispatch has its copy. */
  lemma SpentWithinOffers(skill: Option<SkillSession>, stack: seq<SuspendedTask>, l: Ledger,
                          needs: (Skill, Action) -> bool)
    requires Backed(skill, stack, l, needs)
    ensures |l.spent| <= |l.offers| + l.copies
    ensures l.copies == 0 ==> |l.spent| <= |l.offers| && forall i, j :: 0 <= i < j < |l.spent| ==>
              l.spent[i] != l.spent[j]
  {
  }

  /** Suspending: the settled snapshot of the active session stands for what the session stood for. */
  lemma SuspendKeepsBacked(x: Contexts, stack: seq<SuspendedTask>, l: Ledger, hint: string, c: Chance,
                           needs: (Skill, Action) -> bool)
    requires Saved(x) && AnythingActive(x) && Backed(x.skill, stack, l, needs) && Unused(c.snapshotId, stack, l)
    ensures var t := Settled(Build(x, hint, c), c);
            Backed(None, Visible(Visible(stack, c.now) + [t], c.now), Parked(l, c.snapshotId), needs)
  {
    hide Build, Settled, NormalizeSuspended, Saved, AnythingActive, Visible, Backs, Guarded, ActiveBacked, Thins;
    hide NormalizeSkillSession, DraftSound;
    hide StackBacked, Balanced;
    hide SettledExecution, KeptWorkflow, Unused, Clean, Trim;
    var t := Settled(Build(x, hint, c), c);
    SnapshotHolds(x, hint, c);
    SettledPart(x, l, c, needs);
    VisibleThins(stack, c.now, needs);
    ThinnerStaysBacked(x.skill, stack, Visible(stack, c.now), l, needs);
    UnusedInThinner(c.snapshotId, stack, Visible(stack, c.now), l, needs);
    PushKeepsBacked(x.skill, Visible(stack, c.now), l, t, needs);
    VisibleThins(Visible(stack, c.now) + [t], c.now, needs);
    ThinnerStaysBacked(None, Visible(stack, c.now) + [t], Visible(Visible(stack, c.now) + [t], c.now),
                       Parked(l, c.snapshotId), needs);
  }

  lemma UnusedInThinner(name: string, a: seq<SuspendedTask>, b: seq<SuspendedTask>, l: Ledger,
                        needs: (Skill, Action) -> bool)
    requires Unused(name, a, l) && Thins(a, b, needs)
    ensures Unused(name, b, l)
  {
    hide DistinctNames, CountGuarded;
  }

  /** The skill part of a snapshot waits and stands for its offer as the session did. */
  lemma SettledPart(x: Contexts, l: Ledger, c: Chance, needs: (Skill, Action) -> bool)
    requires Saved(x) && ActiveBacked(x.skill, l, needs)
    ensures var part := SettledSkill(x.skill);
            && DraftSound(part) && (GuardedPart(part, needs) <==> GuardedPart(x.skill, needs))
            && CreatesTrader(part) == (part.Some? && IsDraft(part.value))
            && (l.active.Some? && part.Some? ==> Backs(part.value, l.active.value, l.offers))
  {
    hide NormalizeSlots, NormalizeSkillSession, Backs, Guarded, DraftSound;
    if x.skill.Some? {
      SkillReadBack(x.skill, c);
      StoreBacks(x.skill.value, c.now, c.aliasWins, ActiveTicket(l), l.offers, needs);
    } else {
      NothingWaits(needs);
    }
  }

  // ---------------------------------------------------------------------- the runs

  /** One user's skill sessions with everything that can happen to them between two dispatches. */
  class Conversation {
    const contexts: UserContexts
    const needs: (Skill, Action) -> bool
    var calls: seq<ToolCall>
    var tools: seq<ToolUse>
    ghost var ledger: Ledger

    ghost predicate Valid()
      reads this, contexts, contexts.stack, contexts.history
    {
      contexts.Valid() && Backed(contexts.skill, contexts.stack.stored, ledger, needs)
    }

    /** The entries the stack shows at `now`. */
    function Shown(now: int): seq<SuspendedTask>
      reads contexts, contexts.stack
    {
      Visible(contexts.stack.stored, now)
    }

    constructor (user: int, cap: int, now: int, needs: (Skill, Action) -> bool)
      ensures Valid() && fresh(contexts) && fresh(contexts.stack) && fresh(contexts.history)
      ensures ledger == NO_OFFERS && calls == [] && tools == [] && this.needs == needs
      ensures contexts.View() == Contexts(None, None, None, []) && contexts.stack.stored == []
              && contexts.stack.clock == now
    {
      contexts := new UserContexts(user, cap, now);
      this.needs := needs;
      calls, tools, ledger := [], [], NO_OFFERS;
    }

    /** Every dispatch is paid for by an offer or by a copy; without copies no offer is spent twice. */
    lemma DispatchesWithinOffers()
      requires Valid()
      ensures |ledger.spent| <= |ledger.offers| + ledger.copies
      ensures ledger.copies == 0 ==> |ledger.spent| <= |ledger.offers|
      ensures ledger.copies == 0 ==> forall i, j :: 0 <= i < j < |ledger.spent| ==> ledger.spent[i] != ledger.spent[j]
    {
      hide ActiveBacked, StackBacked, CountGuarded;
      SpentWithinOffers(contexts.skill, contexts.stack.stored, ledger, needs);
    }

    /** clearSkillSession, as a cancelling reply does. */
    method Cancel()
      requires Valid()
      modifies this`ledger, contexts`skill
      ensures Valid() && contexts.skill == None && ledger == Dropped(old(ledger))
    {
      hide Backed, Saved, Shows, Refines;
      NothingWaits(needs);
      ReplaceKeepsBacked(contexts.skill, contexts.stack.stored, ledger, None, needs);
      contexts.ClearSkill();
      ledger := Dropped(ledger);
    }

    /** The handler's part of a confirmation turn, up to the tool; `ends` says whether a parent may
        resume. */
    method HandlerTurn(turn: Turn, skill: Skill, action: Action, now: int, aliasWins: bool)
      returns (reply: Reply, ends: bool)
      requires Valid() && Confirmable(skill, action)
      modifies this`calls, this`ledger, contexts`skill
      ensures Valid()
      ensures needs(skill, action) && calls != old(calls) ==>
                && reply.Dispatched? && turn.isYes && contexts.skill == None
                && old(contexts.skill).Some? && old(contexts.skill).value.phase.AwaitConfirmation?
                && old(contexts.skill).value.name == skill && old(contexts.skill).value.action == action
      ensures reply.Prompt? ==>
                && ledger == PromptedFor(old(ledger), skill, action, reply.target)
                && old(ledger).active.None?
      ensures reply.Dispatched? ==> contexts.skill == None
      ensures !reply.Prompt? ==> ledger.offers == old(ledger).offers
      ensures !reply.Dispatched? ==> calls == old(calls) && ledger.spent == old(ledger).spent
      ensures ledger.held == old(ledger).held && ledger.copies == old(ledger).copies
      ensures var e := Handle(Loaded(old(contexts.skill), now, aliasWins), turn, skill, action, needs(skill, action));
              && reply == e.reply && calls == old(calls) + Calls(skill, action, e.ids)
              && contexts.skill == Written(old(contexts.skill), e.write, now, aliasWins)
              && ends == EndsChild(e, turn, skill, action) && (reply.Dispatched? ==> e.write.Cleared?)
              && (needs(skill, action) && reply.Dispatched? ==>
                    && old(ledger).active.Some? && ledger == Spent(old(ledger))
                    && CarriesOut(old(ledger), skill, action, turn, e.ids))
    {
      hide Handle, Backed, Saved, Shows, Refines, AllNormal, NormalizeSkillSession, Prompted, CarriesOut;
      hide SkillSaved, AfterConfirm;
      ActiveIsBacked(contexts.skill, contexts.stack.stored, ledger, needs);
      SavedIsNamed(contexts);
      ConfirmActs(contexts.skill, ledger, turn, skill, action, now, aliasWins, needs);
      ConfirmKeepsBacked(contexts.skill, contexts.stack.stored, ledger, turn, skill, action, now, aliasWins, needs);
      var loaded := Loaded(contexts.skill, now, aliasWins);
      var need := needs(skill, action);
      var e;
      e, ends := HandleSimpleEntitySkill(loaded, turn, skill, action, need);
      reply := e.reply;
      calls := calls + Calls(skill, action, e.ids);
      TurnEntries(ledger, e, skill, action, need, turn);
      ledger := AfterConfirm(ledger, e, skill, action, need, turn);
      if e.write.Save? {
        contexts.SaveSkill(e.write.session, now, aliasWins);
      } else if e.write.Cleared? {
        contexts.ClearSkill();
      }
    }

    /** One turn of the confirmation machine.  The tool is called only on a yes to the active offer,
        which is then spent.  If no reply widened the request and the session still stands for the id
        offered, exactly that id is acted on; if some reply did, or everything was offered, exactly
        the deletable entries listed now.  The session is gone then, and after a successful exchange
        delete a triggered parent takes its place. */
    method ConfirmTurn(turn: Turn, skill: Skill, action: Action, c: Chance) returns (reply: Reply)
      requires Valid() && Confirmable(skill, action) && contexts.stack.clock <= c.now
      modifies this`calls, this`ledger, contexts`skill, contexts.stack, contexts.history
      ensures Valid() && contexts.stack.clock <= c.now
      ensures needs(skill, action) && calls != old(calls) ==>
                && reply.Dispatched? && turn.isYes
                && old(contexts.skill).Some? && old(contexts.skill).value.phase.AwaitConfirmation?
                && old(contexts.skill).value.name == skill && old(contexts.skill).value.action == action
      ensures reply.Prompt? ==>
                && ledger == PromptedFor(old(ledger), skill, action, reply.target)
                && old(ledger).active.None?
      ensures !reply.Prompt? ==> ledger.offers == old(ledger).offers
      ensures !reply.Dispatched? ==>
                calls == old(calls) && ledger.spent == old(ledger).spent && ledger.held == old(ledger).held
      ensures ledger.copies == old(ledger).copies
      ensures var need := needs(skill, action);
              var e := Handle(Loaded(old(contexts.skill), c.now, c.aliasWins), turn, skill, action, need);
              var parent := if reply.Dispatched? then ParentAfter(turn, skill, action, old(Shown(c.now))) else None;
              && reply == e.reply && calls == old(calls) + Calls(skill, action, e.ids)
              && contexts.skill ==
                 Slotted(Written(old(contexts.skill), e.write, c.now, c.aliasWins), parent, turn.finish, c)
              && StackAfter(parent, c.now, old(contexts.stack.stored), contexts.stack.stored)
              && (parent.None? ==>
                    contexts.stack.clock == old(contexts.stack.clock)
                    && contexts.View().messages == old(contexts.View()).messages)
              && (reply.Dispatched? ==> e.write.Cleared?)
              && (needs(skill, action) && reply.Dispatched? ==>
                    && old(ledger).active.Some? && ledger.spent == Spent(old(ledger)).spent
                    && ledger == Entrusted(Spent(old(ledger)), parent, turn.finish, needs)
                    && CarriesOut(old(ledger), skill, action, turn, e.ids))
    {
      hide Valid, Handle, NormalizeSkillSession, Prompted, CarriesOut, AfterConfirm, Hydrate, Visible, Taken, AfterEdit;
      var ends;
      reply, ends := HandlerTurn(turn, skill, action, c.now, c.aliasWins);
      if ends {
        var resumed := ResumeParent(EXCHANGE_CHILD, turn.finish.answer, turn.finish.after, c);
      }
    }

    /** One turn of trader creation.  Tools run only on an answer to the active offer, which is then
        spent; while the session still stands for the draft offered and its ids are listed, that
        draft is the one created.  The start tool needs a yes to the starting offer and a trader. */
    method CreateTurnOf(turn: CreateTurn, now: int, aliasWins: bool)
      requires Valid() && (contexts.skill.Some? ==> IsDraft(contexts.skill.value))
      modifies this`tools, this`ledger, contexts`skill
      ensures Valid()
      ensures tools == old(tools) + CreatesOn(Loaded(old(contexts.skill), now, aliasWins), turn)
      ensures tools != old(tools) ==> MakesOne(CreatesOn(Loaded(old(contexts.skill), now, aliasWins), turn))
      ensures var used := tools[|old(tools)|..];
              used != [] ==>
                && old(ledger).active.Some? && ledger == Spent(old(ledger))
                && var t := old(ledger).active.value;
                   && t.offer < |ledger.offers| && ledger.offers[t.offer].CreateDraft?
                   && used[0].CreateTool? && Complete(used[0].draft)
                   && (t.steady && DraftListed(ledger.offers[t.offer].draft, turn.catalog) ==>
                         used[0].draft == ledger.offers[t.offer].draft)
      ensures var used := tools[|old(tools)|..];
              used != [] <==>
                && old(contexts.skill).Some?
                && if old(contexts.skill).value.phase.AwaitStartConfirmation? then turn.isYes || turn.isNo
                   else old(contexts.skill).value.phase.AwaitCreateConfirmation? && turn.isYes
      ensures var used := tools[|old(tools)|..];
              && (|used| > 1 <==>
                    && old(contexts.skill).Some? && old(contexts.skill).value.phase.AwaitStartConfirmation?
                    && turn.isYes && turn.outcome.CreatedAs? && turn.outcome.id != "")
              && (|used| > 1 ==> used[1..] == [StartTool(turn.outcome.id)])
              && (used != [] && turn.outcome != Refused(true) ==> contexts.skill == None)
      ensures tools == old(tools) ==> ledger.spent == old(ledger).spent
      ensures ledger.held == old(ledger).held && ledger.copies == old(ledger).copies
    {
      hide HandleCreate, Backed, Saved, Shows, Refines, AllNormal, NormalizeSkillSession, DraftOf, DraftListed;
      hide Complete, SkillSaved;
      ActiveIsBacked(contexts.skill, contexts.stack.stored, ledger, needs);
      CreateKeepsActive(contexts.skill, ledger, turn, now, aliasWins, needs);
      CreateKeepsBacked(contexts.skill, contexts.stack.stored, ledger, turn, now, aliasWins, needs);
      var loaded := Loaded(contexts.skill, now, aliasWins);
      var e := HandleCreateTrader(loaded, turn);
      tools := tools + e.tools;
      ledger := AfterCreate(ledger, e);
      if e.write.Save? {
        contexts.SaveSkill(e.write.session, now, aliasWins);
      } else {
        contexts.ClearSkill();
      }
    }

    /** The handler's part of a turn inside a workflow. */
    method FreshTurnOf(turn: Turn, skill: Skill, action: Action, now: int, aliasWins: bool)
      returns (reply: Reply, ends: bool)
      requires Valid() && Confirmable(skill, action)
      modifies this`calls, this`ledger, contexts`skill
      ensures Valid()
      ensures ledger.spent == old(ledger).spent && ledger.held == old(ledger).held
              && ledger.copies == old(ledger).copies
      ensures needs(skill, action) ==> !reply.Dispatched? && !reply.StillWaiting? && calls == old(calls)
      ensures var e := Handle(Fresh(skill, action), turn, skill, action, needs(skill, action));
              && reply == e.reply && ends == EndsChild(e, turn, skill, action)
              && calls == old(calls) + Calls(skill, action, e.ids)
              && contexts.skill == Written(old(contexts.skill), e.write, now, aliasWins)
              && ledger == if e.write.Untouched? then old(ledger)
                           else if reply.Prompt? then PromptedFor(old(ledger), skill, action, reply.target)
                           else Dropped(old(ledger))
      ensures NamesNone(turn, skill, action) ==>
                && reply.AskTarget? && ledger == Dropped(old(ledger))
                && contexts.skill.Some? && !Pending(contexts.skill.value) && contexts.skill.value.targetRef.None?
    {
      hide Handle, Backed, Saved, Shows, Refines, AllNormal, NormalizeSkillSession, Prompted, SkillSaved, NamesNone;
      FreshIsEmpty(turn, skill, action, needs(skill, action));
      NothingWaits(needs);
      ReplaceKeepsBacked(contexts.skill, contexts.stack.stored, ledger, None, needs);
      ConfirmKeepsBacked(None, contexts.stack.stored, Dropped(ledger), turn, skill, action, now, aliasWins, needs);
      FreshTurn(ledger, turn, skill, action, now, aliasWins, needs(skill, action));
      var need := needs(skill, action);
      var e;
      e, ends := HandleSimpleEntitySkill(Fresh(skill, action), turn, skill, action, need);
      reply := e.reply;
      calls := calls + Calls(skill, action, e.ids);
      if e.write.Save? {
        ledger := AfterConfirm(Dropped(ledger), e, skill, action, need, turn);
        contexts.SaveSkill(e.write.session, now, aliasWins);
      } else if e.write.Cleared? {
        ledger := Dropped(ledger);
        contexts.ClearSkill();
      }
    }

    /** executeAtomicSkillTask for a confirmable action: inside a workflow the handler is given a fresh
        session, whatever is stored.  So no reply carries a confirmation out; a turn that saves
        replaces the waiting session and drops its offer. */
    method WorkflowTurn(turn: Turn, skill: Skill, action: Action, c: Chance) returns (reply: Reply)
      requires Valid() && Confirmable(skill, action) && contexts.stack.clock <= c.now
      modifies this`calls, this`ledger, contexts`skill, contexts.stack, contexts.history
      ensures Valid() && contexts.stack.clock <= c.now
      ensures ledger.spent == old(ledger).spent && ledger.copies == old(ledger).copies
      ensures needs(skill, action) ==>
                && !reply.Dispatched? && !reply.StillWaiting? && calls == old(calls)
                && ledger.held == old(ledger).held
      ensures !reply.Dispatched? ==> contexts.stack.clock == old(contexts.stack.clock)
      ensures var e := Handle(Fresh(skill, action), turn, skill, action, needs(skill, action));
              var parent := if reply.Dispatched? then ParentAfter(turn, skill, action, old(Shown(c.now))) else None;
              && reply == e.reply && calls == old(calls) + Calls(skill, action, e.ids)
              && contexts.skill ==
                 Slotted(Written(old(contexts.skill), e.write, c.now, c.aliasWins), parent, turn.finish, c)
              && StackAfter(parent, c.now, old(contexts.stack.stored), contexts.stack.stored)
              && ledger ==
                 Entrusted(if e.write.Untouched? then old(ledger)
                           else if reply.Prompt? then PromptedFor(old(ledger), skill, action, reply.target)
                           else Dropped(old(ledger)), parent, turn.finish, needs)
      ensures NamesNone(turn, skill, action) ==>
                && reply.AskTarget? && ledger == Dropped(old(ledger))
                && contexts.skill.Some? && !Pending(contexts.skill.value) && contexts.skill.value.targetRef.None?
    {
      hide Valid, Handle, NormalizeSkillSession, Prompted, Hydrate, Visible, Taken, AfterEdit, NamesNone;
      var ends;
      reply, ends := FreshTurnOf(turn, skill, action, c.now, c.aliasWins);
      if ends {
        var resumed := ResumeParent(EXCHANGE_CHILD, turn.finish.answer, turn.finish.after, c);
      }
    }

    /** The same for trader creation: no tool runs, and the waiting draft is replaced by a fresh one. */
    method WorkflowCreateTurn(turn: CreateTurn, now: int, aliasWins: bool)
      requires Valid()
      modifies this`ledger, contexts`skill
      ensures Valid()
      ensures ledger.spent == old(ledger).spent && ledger.held == old(ledger).held
              && ledger.copies == old(ledger).copies
      ensures var e := HandleCreate(NEW_DRAFT, turn);
              && e.tools == [] && contexts.skill == Written(old(contexts.skill), e.write, now, aliasWins)
              && ledger == AfterCreate(Dropped(old(ledger)), e)
    {
      hide HandleCreate, Backed, Saved, Shows, Refines, AllNormal, NormalizeSkillSession, DraftOf, SkillSaved;
      NothingWaits(needs);
      NewDraftIsEmpty(turn);
      ReplaceKeepsBacked(contexts.skill, contexts.stack.stored, ledger, None, needs);
      ghost var l := Dropped(ledger);
      ActiveIsBacked(None, contexts.stack.stored, l, needs);
      CreateKeepsActive(None, l, turn, now, aliasWins, needs);
      CreateKeepsBacked(None, contexts.stack.stored, l, turn, now, aliasWins, needs);
      var e := HandleCreateTrader(NEW_DRAFT, turn);
      ledger := AfterCreate(l, e);
      if e.write.Save? {
        contexts.SaveSkill(e.write.session, now, aliasWins);
      } else {
        contexts.ClearSkill();
      }
    }

    /** A prompt and its yes inside one workflow: the yes asks for the target again, and no session
        holds the offer any more, so it is never carried out. */
    method YesInWorkflow(ask: Turn, yes: Turn, skill: Skill, action: Action, id: string, c: Chance)
      requires Valid() && Confirmable(skill, action) && needs(skill, action) && contexts.stack.clock <= c.now
      requires Handle(Fresh(skill, action), ask, skill, action, true).reply == Prompt(One(id))
      requires yes.isYes && NamesNone(yes, skill, action)
      modifies this`calls, this`ledger, contexts`skill, contexts.stack, contexts.history
      ensures Valid() && calls == old(calls) && ledger.spent == old(ledger).spent
      ensures ledger.offers == old(ledger).offers + [ActOn(skill, action, One(id))]
      ensures ledger.active == None && ledger.held == old(ledger).held
      ensures contexts.skill.Some? && !Pending(contexts.skill.value) && contexts.skill.value.targetRef.None?
    {
      hide Handle, Backed, Saved, Shows, Refines, AllNormal, NormalizeSkillSession, SkillSaved, Prompted, NamesNone;
      PromptSaves(ask, skill, action);
      var prompted := WorkflowTurn(ask, skill, action, c);
      var asked := WorkflowTurn(yes, skill, action, c);
    }

    /** tryStatePriorityPath on an active confirmation.  A reply read as social suspends the flow, one
        that gives it up clears it; any other goes to WorkflowTurn in an active workflow and to the
        handler outside.  So the tool is called exactly on a yes that goes on with the flow, outside
        a workflow, and reaches a target. */
    method Answer(turn: Turn, reading: Reading, hint: string, c: Chance)
      requires Valid() && contexts.stack.clock <= c.now
      requires GuardedPart(contexts.skill, needs) && !IsDraft(contexts.skill.value)
      requires reading.Social? ==> Unused(c.snapshotId, contexts.stack.stored, ledger)
      modifies this`calls, this`ledger, contexts`skill, contexts`workflow, contexts`execution, contexts.stack
      modifies contexts.history
      ensures Valid() && contexts.stack.clock <= c.now
      ensures ledger.copies == old(ledger).copies
      ensures !WorkflowActive(old(contexts.workflow)) || reading.Social? ==> ledger.offers == old(ledger).offers
      ensures ledger.spent != old(ledger).spent <==>
              && turn.isYes && reading.Continues? && !WorkflowActive(old(contexts.workflow))
              && Reaches(Loaded(old(contexts.skill), c.now, c.aliasWins), turn)
      ensures ledger.spent == old(ledger).spent ==> calls == old(calls)
      ensures ledger.spent == old(ledger).spent && (!reading.Continues? || !WorkflowActive(old(contexts.workflow))) ==>
                ledger.held == if reading.Social? then Parked(old(ledger), c.snapshotId).held else old(ledger).held
      ensures var s := old(contexts.skill).value;
              var parent := ParentAfter(turn, s.name, s.action, old(Shown(c.now)));
              ledger.spent != old(ledger).spent ==>
                && old(ledger).active.Some? && ledger == Entrusted(Spent(old(ledger)), parent, turn.finish, needs)
                && contexts.skill == Slotted(None, parent, turn.finish, c)
                && StackAfter(parent, c.now, old(contexts.stack.stored), contexts.stack.stored)
                && (parent.None? ==> contexts.stack.clock == old(contexts.stack.clock))
                && contexts.workflow == old(contexts.workflow) && contexts.execution == old(contexts.execution)
                && calls == old(calls) + CallsOn(Loaded(old(contexts.skill), c.now, c.aliasWins), turn)
      ensures reading.Continues? && !WorkflowActive(old(contexts.workflow)) ==>
                contexts.workflow == old(contexts.workflow) && contexts.execution == old(contexts.execution)
      ensures reading.Aborts? ==>
                contexts.skill == None && contexts.workflow == None && ledger == Dropped(old(ledger))
      ensures reading.Aborts? || (reading.Continues? && !WorkflowActive(old(contexts.workflow))
                                  && ledger.spent == old(ledger).spent) ==>
                contexts.stack.stored == old(contexts.stack.stored) && contexts.stack.clock == old(contexts.stack.clock)
      ensures reading.Social? ==>
                && contexts.View() == Contexts(None, None, None, old(contexts.View()).messages)
                && ledger == Parked(old(ledger), c.snapshotId)
                && var t := Settled(Build(old(contexts.View()), hint, c), c);
                   contexts.stack.stored == Visible(Visible(old(contexts.stack.stored), c.now) + [t], c.now)
    {
      hide Handle, Backed, Saved, Shows, Refines, AllNormal, NormalizeSkillSession, SkillSaved, Reaches, Visible;
      hide Build, Settled, WorkflowActive, ExecutionActive, Continued, Prompted, Deletable, Agrees, Lossless;
      hide Unused, Hydrate, Taken, AfterEdit;
      var s := contexts.skill.value;
      LoadedGuarded(contexts, ledger, c, needs);
      if reading.Social? {
        var suspended := Suspend(hint, c);
      } else if reading.Aborts? {
        OthersAreSaved(contexts);
        Cancel();
        OthersMove(None, contexts.execution);
      } else if WorkflowActive(contexts.workflow) {
        var reply := WorkflowTurn(turn, s.name, s.action, c);
      } else {
        DispatchIff(Loaded(contexts.skill, c.now, c.aliasWins), turn);
        var reply := ConfirmTurn(turn, s.name, s.action, c);
      }
    }

    /** As Answer, for a waiting trader draft. */
    method AnswerDraft(turn: CreateTurn, reading: Reading, hint: string, c: Chance)
      requires Valid() && contexts.stack.clock <= c.now
      requires contexts.skill.Some? && IsDraft(contexts.skill.value) && Waiting(contexts.skill.value)
      requires reading.Social? ==> Unused(c.snapshotId, contexts.stack.stored, ledger)
      modifies this`tools, this`ledger, contexts`skill, contexts`workflow, contexts`execution, contexts.stack
      ensures Valid() && contexts.stack.clock <= c.now
      ensures ledger.held == if reading.Social? then Parked(old(ledger), c.snapshotId).held else old(ledger).held
      ensures ledger.copies == old(ledger).copies
      ensures tools != old(tools) <==>
              && reading.Continues? && !WorkflowActive(old(contexts.workflow))
              && AnswersDraft(old(contexts.skill).value, turn)
      ensures tools == old(tools) ==> ledger.spent == old(ledger).spent
      ensures tools != old(tools) ==>
                && old(ledger).active.Some? && ledger == Spent(old(ledger))
                && var used := CreatesOn(Loaded(old(contexts.skill), c.now, c.aliasWins), turn);
                   tools == old(tools) + used && MakesOne(used)
      ensures tools != old(tools) ==>
                && (turn.outcome != Refused(true) ==> contexts.skill == None)
      ensures reading.Continues? ==>
                contexts.workflow == old(contexts.workflow) && contexts.execution == old(contexts.execution)
      ensures reading.Aborts? ==>
                contexts.skill == None && contexts.workflow == None && ledger == Dropped(old(ledger))
      ensures !reading.Social? ==>
                contexts.stack.stored == old(contexts.stack.stored) && contexts.stack.clock == old(contexts.stack.clock)
      ensures reading.Social? ==>
                && contexts.View() == Contexts(None, None, None, old(contexts.View()).messages)
                && ledger == Parked(old(ledger), c.snapshotId)
                && var t := Settled(Build(old(contexts.View()), hint, c), c);
                   contexts.stack.stored == Visible(Visible(old(contexts.stack.stored), c.now) + [t], c.now)
    {
      hide HandleCreate, Backed, Saved, Shows, Refines, AllNormal, NormalizeSkillSession, SkillSaved, Visible, Sound;
      hide Build, Settled, WorkflowActive, ExecutionActive, DraftOf, Complete, DraftListed, Lossless, Unused;
      if reading.Social? {
        var suspended := Suspend(hint, c);
      } else if reading.Aborts? {
        OthersAreSaved(contexts);
        Cancel();
        OthersMove(None, contexts.execution);
      } else if WorkflowActive(contexts.workflow) {
        WorkflowCreateTurn(turn, c.now, c.aliasWins);
      } else {
        CreateTurnOf(turn, c.now, c.aliasWins);
      }
    }

    /** SnapshotManager.Clear beside whatever is active, as a fresh plan does: the tickets of the
        stack can no longer be spent. */
    method ClearStack()
      requires Valid()
      modifies contexts.stack
      ensures Valid() && contexts.stack.stored == [] && contexts.stack.clock == old(contexts.stack.clock)
    {
      hide Backed, Saved, Shows, Refines, AllNormal, SkillSaved, Lossless;
      ClearedStaysBacked(contexts.skill, contexts.stack.stored, ledger, needs);
      contexts.stack.Clear();
    }

    /** clearAnyActiveContext, whose callers have cleared the brain's active session: everything active
        goes, and then the stack goes too; from idle nothing changes. */
    method ClearAnyActive() returns (cleared: bool)
      requires Valid()
      modifies this`ledger, contexts`skill, contexts`workflow, contexts`execution, contexts.stack
      ensures Valid() && contexts.stack.clock == old(contexts.stack.clock)
      ensures cleared == AnythingActive(old(contexts.View())) && !AnythingActive(contexts.View())
      ensures ledger == if old(contexts.skill).Some? then Dropped(old(ledger)) else old(ledger)
      ensures contexts.stack.stored == if cleared then [] else old(contexts.stack.stored)
      ensures !cleared ==> contexts.View() == old(contexts.View())
    {
      hide Backed, Saved, Shows, Refines, AllNormal, SkillSaved, Lossless, WorkflowActive, ExecutionActive;
      hide WorkflowSaved, ExecutionSaved;
      NoOthersActive();
      cleared := false;
      if contexts.skill.Some? {
        Cancel();
        cleared := true;
      }
      OthersAreSaved(contexts);
      if WorkflowActive(contexts.workflow) {
        OthersMove(None, contexts.execution);
        cleared := true;
      }
      if ExecutionActive(contexts.execution) {
        OthersMove(contexts.workflow, None);
        cleared := true;
      }
      if cleared {
        ClearStack();
      }
    }

    /** Anything that rewrites the active session between two turns without answering it: the
        active ticket stays steady exactly while the session still stands for what was offered. */
    method Edit(edited: SkillSession, now: int, aliasWins: bool)
      requires Valid() && contexts.skill.Some? && Edits(contexts.skill.value, edited)
      modifies this`ledger, contexts`skill
      ensures Valid() && contexts.skill == Some(NormalizeSkillSession(edited, now, aliasWins))
      ensures ledger == AfterEdit(old(ledger), edited)
      ensures ledger.offers == old(ledger).offers && ledger.spent == old(ledger).spent
              && ledger.copies == old(ledger).copies
      ensures ledger.active.Some? <==> old(ledger).active.Some?
      ensures ledger.active.Some? ==>
                && ledger.active.value.offer == old(ledger).active.value.offer < |ledger.offers|
                && (ledger.active.value.steady <==>
                      old(ledger).active.value.steady && StillOffered(ledger.offers[ledger.active.value.offer], edited))
    {
      hide Backed, Saved, Shows, Refines, AllNormal, NormalizeSkillSession, Edits, StillOffered, SkillSaved, Bulk;
      ActiveIsBacked(contexts.skill, contexts.stack.stored, ledger, needs);
      SavedIsNamed(contexts);
      EditKeepsBacked(contexts.skill.value, contexts.stack.stored, edited, ledger, now, aliasWins, needs);
      ledger := AfterEdit(ledger, edited);
      EditedIsNamed(contexts.skill.value, edited);
      contexts.SaveSkill(edited, now, aliasWins);
    }

    /** Extraction of a target id or name into a waiting confirmation.  What was offered is still what
        a yes will act on exactly when the id written, if any, is the id offered. */
    method ExtractTarget(id: string, name: string, now: int, aliasWins: bool)
      requires Valid() && contexts.skill.Some? && !IsDraft(contexts.skill.value)
      modifies this`ledger, contexts`skill
      ensures Valid() && contexts.skill.Some? && contexts.skill.value.phase == old(contexts.skill).value.phase
      ensures ledger.spent == old(ledger).spent && ledger.offers == old(ledger).offers
      ensures old(ledger).active.Some? ==>
                && ledger.active.Some? && ledger.active.value.offer == old(ledger).active.value.offer < |ledger.offers|
                && var o := ledger.offers[ledger.active.value.offer];
                   o.ActOn? &&
                   (ledger.active.value.steady <==>
                      && old(ledger).active.value.steady && o.target.One?
                      && AimsAt(Retargeted(old(contexts.skill).value, id, name), o.target.id))
    {
      hide Backed, Saved, Shows, Refines, AllNormal, NormalizeSkillSession, SkillSaved, Bulk, Agrees, AimsAt;
      ActiveIsBacked(contexts.skill, contexts.stack.stored, ledger, needs);
      SavedIsNamed(contexts);
      if ledger.active.Some? {
        SteadyIsOne(contexts.skill, ledger, needs);
      }
      var edited := Retargeted(contexts.skill.value, id, name);
      StoreKeepsPhase(edited, now, aliasWins);
      Edit(edited, now, aliasWins);
    }

    /** applyLLMExtractionToSkillSession's write of one field into a trader draft: the draft offered is
        still the one a yes will create exactly while no draft field has changed. */
    method ExtractField(key: FieldKey, value: string, draftName: string -> string, now: int, aliasWins: bool)
      requires Valid() && contexts.skill.Some? && IsDraft(contexts.skill.value)
      requires DraftsTrimmed(draftName) && key != OtherField("")
      modifies this`ledger, contexts`skill
      ensures Valid() && contexts.skill.Some? && contexts.skill.value.phase == old(contexts.skill).value.phase
      ensures Complete(DraftOf(old(contexts.skill).value)) ==> Complete(DraftOf(contexts.skill.value))
      ensures ledger.spent == old(ledger).spent && ledger.offers == old(ledger).offers
      ensures old(ledger).active.Some? ==>
                && ledger.active.Some? && ledger.active.value.offer == old(ledger).active.value.offer < |ledger.offers|
                && var o := ledger.offers[ledger.active.value.offer];
                   o.CreateDraft? &&
                   (ledger.active.value.steady <==>
                      old(ledger).active.value.steady && DraftOf(contexts.skill.value) == o.draft)
    {
      hide Backed, Saved, Shows, Refines, AllNormal, NormalizeSkillSession, SkillSaved, Bulk, DraftOf, SetField;
      hide DraftsTrimmed, Complete, Synced;
      ActiveIsBacked(contexts.skill, contexts.stack.stored, ledger, needs);
      var s := contexts.skill.value;
      WritingKeepsDraft(s, key, value, draftName);
      var edited := SetField(s, key, value, draftName);
      TraderNamed(edited);
      SoundThroughStore(edited, now, aliasWins);
      Edit(edited, now, aliasWins);
    }

    /** Another flow, a workflow step or a bridge stores a session that waits for nothing here. */
    method Store(session: SkillSession, now: int, aliasWins: bool)
      requires Valid() && !session.name.NoSkill? && DraftSound(Some(session)) && !Guarded(session, needs)
      modifies this`ledger, contexts`skill
      ensures Valid() && contexts.skill == Some(NormalizeSkillSession(session, now, aliasWins))
              && ledger == Dropped(old(ledger))
    {
      hide Backed, Saved, Shows, Refines, AllNormal, NormalizeSkillSession, SkillSaved, Sound, Guarded;
      StoreBacks(session, now, aliasWins, Ticket(0, false, false), [], needs);
      ReplaceKeepsBacked(contexts.skill, contexts.stack.stored, ledger,
                         Some(NormalizeSkillSession(session, now, aliasWins)), needs);
      ledger := Dropped(ledger);
      contexts.SaveSkill(session, now, aliasWins);
    }

    /** Workflows and plans move on beside the skill session. */
    method OthersMove(workflow: Option<WorkflowSession>, execution: Option<ExecutionState>)
      requires Valid()
      requires workflow.Some? ==> WorkflowSaved(workflow.value)
      requires execution.Some? ==> ExecutionSaved(execution.value)
      modifies contexts`workflow, contexts`execution
      ensures Valid() && contexts.workflow == workflow && contexts.execution == execution
    {
      hide Backed, Shows, Refines, AllNormal, SkillSaved, WorkflowSaved, ExecutionSaved;
      contexts.SaveOthers(workflow, execution);
    }

    /** suspendActiveContexts: a waiting session takes its ticket along to the snapshot. */
    method Suspend(hint: string, c: Chance) returns (ok: bool)
      requires Valid() && contexts.stack.clock <= c.now && Unused(c.snapshotId, contexts.stack.stored, ledger)
      modifies this`ledger, contexts`skill, contexts`workflow, contexts`execution, contexts.stack
      ensures Valid()
      ensures ok == AnythingActive(old(contexts.View()))
      ensures ledger == if ok then Parked(old(ledger), c.snapshotId) else old(ledger)
      ensures ok ==> contexts.View() == Contexts(None, None, None, old(contexts.View()).messages)
      ensures ok ==> contexts.stack.clock == c.now
      ensures ok ==> var t := Settled(Build(old(contexts.View()), hint, c), c);
                     contexts.stack.stored == Visible(Visible(old(contexts.stack.stored), c.now) + [t], c.now)
    {
      hide Backed, Saved, Shows, Refines, AllNormal, NormalizeSkillSession, SkillSaved, Build, Settled, AnythingActive;
      hide Visible, Unused;
      hide IdealPush, Lossless;
      if AnythingActive(contexts.View()) {
        SuspendKeepsBacked(contexts.View(), contexts.stack.stored, ledger, hint, c, needs);
        ledger := Parked(ledger, c.snapshotId);
      }
      ok := contexts.Suspend(hint, c);
    }

    /** tryResumeSuspendedTask: the top snapshot brings its ticket back. */
    method TryResume(cancels: bool, resumes: bool, c: Chance) returns (handled: bool)
      requires Valid() && contexts.stack.clock <= c.now
      modifies this`ledger, contexts, contexts.stack, contexts.history
      ensures Valid()
      ensures var v := old(Shown(c.now));
              && (handled <==> !AnythingActive(old(contexts.View())) && (cancels || (resumes && v != [])))
              && (handled && !cancels ==>
                    ledger == Taken(old(ledger), v[|v| - 1], needs) && contexts.skill == v[|v| - 1].skill)
              && (!handled || cancels ==> ledger == old(ledger))
    {
      hide Backed, Saved, Shows, Refines, AllNormal, NormalizeSkillSession, SkillSaved, AnythingActive, Visible;
      hide Reinstate, Lossless;
      hide TaskNormal, Keep, LiveAt;
      ghost var v, skill0 := Shown(c.now), contexts.skill;
      ShownStaysBacked(skill0, contexts.stack.stored, c.now, ledger, needs);
      ClearedStaysBacked(skill0, contexts.stack.stored, ledger, needs);
      NormalShown(contexts, c);
      handled := contexts.TryResume(cancels, resumes, c);
      if handled && !cancels {
        TakeKeepsBacked(skill0, v, ledger, |v| - 1, needs);
        assert v[..|v| - 1] + v[|v|..] == v[..|v| - 1];
        ledger := Taken(ledger, v[|v| - 1], needs);
      }
    }

    /** restoreSuspendedTaskByID: the topmost snapshot of that name brings its ticket back. */
    method RestoreById(snapshotId: string, c: Chance) returns (ok: bool)
      requires Valid() && contexts.stack.clock <= c.now
      modifies this`ledger, contexts, contexts.stack, contexts.history
      ensures Valid()
      ensures !ok ==> ledger == old(ledger) && contexts.View() == old(contexts.View())
      ensures ok ==> exists m :: Topmost(old(Shown(c.now)), m, HasId(Trim(snapshotId)))
                                 && ledger == Taken(old(ledger), old(Shown(c.now))[m], needs)
                                 && contexts.skill == old(Shown(c.now))[m].skill
    {
      hide Backed, Saved, Shows, Refines, AllNormal, NormalizeSkillSession, SkillSaved, AnythingActive, Visible;
      hide Reinstate, Lossless;
      hide TaskNormal, Keep, LiveAt, HasId, Trim;
      ghost var v, skill0 := Shown(c.now), contexts.skill;
      ShownStaysBacked(skill0, contexts.stack.stored, c.now, ledger, needs);
      NormalShown(contexts, c);
      ok := contexts.RestoreById(snapshotId, c);
      if ok {
        ghost var m :| Topmost(v, m, HasId(Trim(snapshotId)));
        TakeKeepsBacked(skill0, v, ledger, m, needs);
        ledger := Taken(ledger, v[m], needs);
      }
    }

    /** restoreMatchingSuspendedTask likewise. */
    method RestoreMatching(wanted: SuspendedTask -> bool, c: Chance) returns (ok: bool)
      requires Valid() && contexts.stack.clock <= c.now
      modifies this`ledger, contexts, contexts.stack, contexts.history
      ensures Valid()
      ensures !ok ==> ledger == old(ledger) && contexts.View() == old(contexts.View())
      ensures ok ==> exists m ::
                Topmost(old(Shown(c.now)), m, wanted) && ledger == Taken(old(ledger), old(Shown(c.now))[m], needs)
                                 && contexts.skill == old(Shown(c.now))[m].skill
    {
      hide Backed, Saved, Shows, Refines, AllNormal, NormalizeSkillSession, SkillSaved, AnythingActive, Visible;
      hide Reinstate, Lossless;
      hide TaskNormal, Keep, LiveAt;
      ghost var v, skill0 := Shown(c.now), contexts.skill;
      ShownStaysBacked(skill0, contexts.stack.stored, c.now, ledger, needs);
      NormalShown(contexts, c);
      ok := contexts.RestoreMatching(wanted, c);
      if ok {
        ghost var m :| Topmost(v, m, wanted);
        TakeKeepsBacked(skill0, v, ledger, m, needs);
        ledger := Taken(ledger, v[m], needs);
      }
    }

    /** tryRestoreAwaitingConfirmationSnapshot: the only entry is copied, not taken; a waiting one
        makes its ticket count twice. */
    method RestoreAwaiting(isReply: bool, c: Chance) returns (ok: bool)
      requires Valid() && contexts.stack.clock <= c.now
      modifies this`ledger, contexts`skill, contexts`workflow, contexts`execution, contexts.history
      ensures Valid()
      ensures var v := Shown(c.now);
              && ok == (isReply && |v| == 1 && Awaiting(v[0]))
              && (ok ==> && ledger == Copied(old(ledger), v[0], needs)
                         && contexts.skill == v[0].skill
                         && contexts.workflow == Installed(v[0].workflow, contexts.user, c.now)
                         && contexts.execution == v[0].execution)
      ensures !ok ==> ledger == old(ledger) && contexts.View() == old(contexts.View())
    {
      hide Backed, Saved, Shows, Refines, AllNormal, NormalizeSkillSession, SkillSaved, AnythingActive, Visible;
      hide Reinstate, Lossless;
      hide TaskNormal, Keep, LiveAt;
      ghost var v := Shown(c.now);
      if |v| == 1 {
        ShownIsStored(contexts.stack.stored, c.now, v[0]);
        var m: nat :| m < |contexts.stack.stored| && contexts.stack.stored[m] == v[0];
        CopyKeepsBacked(contexts.skill, contexts.stack.stored, ledger, m, needs);
        NormalContexts(contexts, c);
      }
      ok := contexts.RestoreAwaiting(isReply, c);
      if ok {
        ledger := Copied(ledger, v[0], needs);
      }
    }

    /** Another flow pushes a snapshot that waits for nothing here. */
    method PushOther(task: SuspendedTask, c: Chance)
      requires Valid() && contexts.stack.clock <= c.now
      requires var t := Settled(task, c);
               Unused(t.snapshotId, contexts.stack.stored, ledger) && EntryFits(t, needs)
               && !GuardedPart(t.skill, needs)
      modifies contexts.stack
      ensures Valid() && contexts.stack.clock <= c.now
    {
      hide Backed, Saved, Shows, Refines, AllNormal, SkillSaved, Settled, Visible, Unused, NormalizeSuspended;
      hide IdealPush, Lossless;
      hide DraftSound, Guarded, Thins;
      PushSettled(contexts.skill, contexts.stack.stored, ledger, Settled(task, c), c.now, needs);
      contexts.stack.Push(task, c);
    }

    /** maybeResumeParentTaskAfterSuccessfulSkill: the triggered parent leaves the stack with its
        ticket; hydration may change its draft, which is then no longer the one offered. */
    method ResumeParent(child: string, note: string, catalog: Catalog, c: Chance) returns (resumed: bool)
      requires Valid() && contexts.stack.clock <= c.now
      modifies this`ledger, contexts`skill, contexts.stack, contexts.history
      ensures Valid()
      ensures resumed == Triggered(old(Shown(c.now)), child)
      ensures ledger.offers == old(ledger).offers && ledger.spent == old(ledger).spent
              && ledger.copies == old(ledger).copies
      ensures var parent := if resumed then Some(old(Shown(c.now))[|old(Shown(c.now))| - 1]) else None;
              && contexts.skill == Slotted(old(contexts.skill), parent, Done(note, catalog), c)
              && ledger == Entrusted(old(ledger), parent, Done(note, catalog), needs)
              && StackAfter(parent, c.now, old(contexts.stack.stored), contexts.stack.stored)
      ensures contexts.stack.clock == if resumed then c.now else old(contexts.stack.clock)
      ensures !resumed ==> contexts.View() == old(contexts.View())
    {
      hide Backed, Saved, Shows, Refines, Last, IsSuffix, AllNormal, NormalizeSkillSession, SkillSaved, AnythingActive;
      hide Visible, Lossless, DraftSound;
      hide TaskNormal, Keep, LiveAt, Hydrate, Edits;
      ghost var v := Shown(c.now);
      ShownStaysBacked(contexts.skill, contexts.stack.stored, c.now, ledger, needs);
      NormalNames(contexts, c);
      var entries := contexts.stack.Stack(c.now);
      if |entries| == 0 {
        return false;
      }
      var parent := entries[|entries| - 1];
      if !parent.resumeOnSuccess || child !in parent.resumeTriggers {
        return false;
      }
      assert entries == v && parent == v[|v| - 1];
      ParentKeepsBacked(contexts.skill, v, ledger, catalog, c, needs);
      var popped := contexts.stack.Pop(c.now);
      contexts.RecallParent(parent.localHistory, note, c.now);
      if parent.skill.Some? {
        var restored := Hydrate(parent.skill.value, catalog);
        ledger := AfterEdit(Taken(ledger, parent, needs), restored);
        contexts.SaveSkill(restored, c.now, c.aliasWins);
      }
      return true;
    }

    /** From idle, a reply may restore the only suspended confirmation and act on it at once, with no
        new prompt.  The tool is called exactly when the stack shows one entry, it awaits one of
        these confirmations, the reply is a yes that goes on with the flow, and a
        target is reached; the offer spent is the one its snapshot still holds.  A social yes suspends the
        session again, beside the entry it came from. */
    method ConfirmFromIdle(turn: Turn, isReply: bool, reading: Reading, hint: string, c: Chance) returns (ok: bool)
      requires Valid() && contexts.stack.clock <= c.now && !AnythingActive(contexts.View())
      requires turn.isYes ==> isReply
      requires reading.Social? ==> Unused(c.snapshotId, contexts.stack.stored, ledger)
      modifies this`calls, this`ledger, contexts`skill, contexts`workflow, contexts`execution, contexts.history
      modifies contexts.stack
      ensures Valid() && contexts.stack.clock <= c.now
      ensures var v := old(Shown(c.now));
              && ledger.offers == old(ledger).offers
              && (ledger.spent != old(ledger).spent <==>
                    && |v| == 1 && AwaitsAction(v[0], needs)
                    && turn.isYes && reading.Continues? && Reaches(v[0].skill.value, turn))
      ensures ledger.spent == old(ledger).spent ==> calls == old(calls)
      ensures !reading.Social? ==>
                && contexts.stack.stored == old(contexts.stack.stored)
                && contexts.stack.clock == old(contexts.stack.clock) && ledger.held == old(ledger).held
      ensures var v := old(Shown(c.now));
              ledger.spent != old(ledger).spent ==>
                && v[0].snapshotId in old(ledger).held
                && ledger.spent == old(ledger).spent + [old(ledger).held[v[0].snapshotId].offer]
                && ledger.copies == old(ledger).copies + 1
                && contexts.skill == None && calls == old(calls) + CallsOn(v[0].skill.value, turn)
                && contexts.workflow == None && contexts.execution == v[0].execution
      ensures var v := old(Shown(c.now));
              reading.Social? && isReply && |v| == 1 && AwaitsAction(v[0], needs) ==>
                && !AnythingActive(contexts.View()) && |Shown(c.now)| == 2 && Shown(c.now)[0] == v[0]
                && Resuspended(Shown(c.now)[1], v[0], c) && AwaitsAction(Shown(c.now)[1], needs)
                && ledger == Parked(Copied(old(ledger), v[0], needs), c.snapshotId)
    {
      hide Backed, Saved, Shows, Refines, AllNormal, NormalizeSkillSession, SkillSaved, AnythingActive, Visible;
      hide Reaches, Handle;
      hide TaskNormal, Continued, Prompted, Deletable, Agrees, Reinstate, Lossless, WorkflowActive, ExecutionActive;
      hide Build, Settled, Unused, Resuspended, Hydrate, AfterEdit, Bulk, DraftSound, Sound, Backs;
      ghost var v := Shown(c.now);
      NormalNames(contexts, c);
      if |v| == 1 {
        EntryBacked(contexts.skill, contexts.stack.stored, ledger, v[0], c.now, needs);
        AwaitsIsAwaiting(v[0], needs);
      }
      UnusedByCopy(c.snapshotId, contexts.stack.stored, ledger, needs);
      ok := RestoreAwaiting(isReply, c);
      if ok && contexts.skill.Some? {
        var s := contexts.skill.value;
        NoOthersActive();
        if Confirmable(s.name, s.action) && needs(s.name, s.action) && Pending(s) {
          ghost var x := contexts.View();
          ghost var stored := contexts.stack.stored;
          Answer(turn, reading, hint, c);
          if reading.Social? {
            NothingActive();
            SocialShows(x, stored, v[0], hint, c, needs);
          }
        }
      }
    }

    /** As ConfirmFromIdle, for a suspended trader draft: the tools run exactly when the stack shows
        that one entry and the reply goes on with the flow and answers its
        phase. */
    method CreateFromIdle(turn: CreateTurn, isReply: bool, reading: Reading, hint: string, c: Chance) returns (ok: bool)
      requires Valid() && contexts.stack.clock <= c.now && !AnythingActive(contexts.View())
      requires turn.isYes || turn.isNo ==> isReply
      requires reading.Social? ==> Unused(c.snapshotId, contexts.stack.stored, ledger)
      modifies this`tools, this`ledger, contexts`skill, contexts`workflow, contexts`execution, contexts.history
      modifies contexts.stack
      ensures Valid() && contexts.stack.clock <= c.now
      ensures var v := old(Shown(c.now));
              tools != old(tools) <==>
                && |v| == 1 && AwaitsCreation(v[0])
                && reading.Continues? && AnswersDraft(v[0].skill.value, turn)
      ensures tools == old(tools) ==> ledger.spent == old(ledger).spent
      ensures !reading.Social? ==>
                && contexts.stack.stored == old(contexts.stack.stored)
                && contexts.stack.clock == old(contexts.stack.clock) && ledger.held == old(ledger).held
      ensures var v := old(Shown(c.now));
              tools != old(tools) ==>
                && v[0].snapshotId in old(ledger).held
                && ledger.spent == old(ledger).spent + [old(ledger).held[v[0].snapshotId].offer]
                && ledger.offers == old(ledger).offers && ledger.copies == old(ledger).copies + 1
                && tools == old(tools) + CreatesOn(v[0].skill.value, turn)
                && MakesOne(CreatesOn(v[0].skill.value, turn))
                && (turn.outcome != Refused(true) ==> contexts.skill == None)
                && contexts.workflow == None && contexts.execution == v[0].execution
      ensures var v := old(Shown(c.now));
              reading.Social? && isReply && |v| == 1 && AwaitsCreation(v[0]) ==>
                && !AnythingActive(contexts.View()) && |Shown(c.now)| == 2 && Shown(c.now)[0] == v[0]
                && Resuspended(Shown(c.now)[1], v[0], c) && AwaitsCreation(Shown(c.now)[1])
                && ledger == Parked(Copied(old(ledger), v[0], needs), c.snapshotId)
    {
      hide Backed, Saved, Shows, Refines, AllNormal, NormalizeSkillSession, SkillSaved, AnythingActive, Visible;
      hide HandleCreate;
      hide TaskNormal, DraftOf, Complete, DraftListed, Reinstate, Lossless, WorkflowActive, ExecutionActive, Sound;
      hide Build, Settled, Unused, Resuspended;
      ghost var v := Shown(c.now);
      NormalNames(contexts, c);
      if |v| == 1 {
        EntryBacked(contexts.skill, contexts.stack.stored, ledger, v[0], c.now, needs);
        AwaitsIsAwaiting(v[0], needs);
      }
      UnusedByCopy(c.snapshotId, contexts.stack.stored, ledger, needs);
      ok := RestoreAwaiting(isReply, c);
      if ok && contexts.skill.Some? {
        NoOthersActive();
        if IsDraft(contexts.skill.value) && Waiting(contexts.skill.value) {
          ghost var x := contexts.View();
          ghost var stored := contexts.stack.stored;
          AnswerDraft(turn, reading, hint, c);
          if reading.Social? {
            NothingActive();
            SocialShows(x, stored, v[0], hint, c, needs);
          }
        }
      }
    }

    /** Two replies in a row from idle, against a stack that shows one waiting action.  No offer is
        made in between.  The first goes on with the flow and spends the offer its snapshot holds;
        the second spends the same offer again exactly when it is a yes that goes on with the flow
        and reaches a target, and the entry is still shown. */
    method AnswerTwice(first: Turn, second: Turn, reading: Reading, hint: string, c: Chance, d: Chance)
      requires Valid() && contexts.stack.clock <= c.now <= d.now && !AnythingActive(contexts.View())
      requires var v := Shown(c.now);
               && |v| == 1 && AwaitsAction(v[0], needs) && v[0].execution.None?
               && first.isYes && Reaches(v[0].skill.value, first)
      requires reading.Social? ==> Unused(d.snapshotId, contexts.stack.stored, ledger)
      modifies this`calls, this`ledger, contexts`skill, contexts`workflow, contexts`execution, contexts.history
      modifies contexts.stack
      ensures Valid() && ledger.offers == old(ledger).offers
      ensures var e := old(Shown(c.now))[0];
              && e.snapshotId in old(ledger).held
              && var k := old(ledger).held[e.snapshotId].offer;
                 var x := e.skill.value;
                 if second.isYes && reading.Continues? && Live(e, d.now) && Reaches(x, second)
                 then ledger.spent == old(ledger).spent + [k, k]
                      && calls == old(calls) + CallsOn(x, first) + CallsOn(x, second)
                 else ledger.spent == old(ledger).spent + [k] && calls == old(calls) + CallsOn(x, first)
    {
      hide Backed, Saved, Shows, Refines, AllNormal, NormalizeSkillSession, SkillSaved, Visible, Reaches, Live;
      hide AwaitsAction, WorkflowActive, ExecutionActive, Unused, Resuspended;
      ghost var e := Shown(c.now)[0];
      StillShown(contexts.stack.stored, c.now, d.now);
      EntryBacked(contexts.skill, contexts.stack.stored, ledger, e, c.now, needs);
      StackOfFive(contexts);
      NoOthersActive();
      UnusedByHeld(d.snapshotId, contexts.stack.stored, ledger);
      var once := ConfirmFromIdle(first, true, Continues, hint, c);
      var twice := ConfirmFromIdle(second, second.isYes, reading, hint, d);
    }

    /** As AnswerTwice, for a suspended trader draft: one showing, and the create tool is called twice. */
    method AnswerTwiceCreating(first: CreateTurn, second: CreateTurn, reading: Reading, hint: string,
                               c: Chance, d: Chance)
      requires Valid() && contexts.stack.clock <= c.now <= d.now && !AnythingActive(contexts.View())
      requires var v := Shown(c.now);
               && |v| == 1 && AwaitsCreation(v[0]) && v[0].execution.None?
               && AnswersDraft(v[0].skill.value, first) && first.outcome != Refused(true)
      requires reading.Social? ==> Unused(d.snapshotId, contexts.stack.stored, ledger)
      modifies this`tools, this`ledger, contexts`skill, contexts`workflow, contexts`execution, contexts.history
      modifies contexts.stack
      ensures Valid()
      ensures var e := old(Shown(c.now))[0];
              && e.snapshotId in old(ledger).held
              && var k := old(ledger).held[e.snapshotId].offer;
                 var x := e.skill.value;
                 && MakesOne(CreatesOn(x, first))
                 && if Live(e, d.now) && reading.Continues? && AnswersDraft(x, second)
                    then
                      && ledger.spent == old(ledger).spent + [k, k] && ledger.offers == old(ledger).offers
                      && tools == old(tools) + CreatesOn(x, first) + CreatesOn(x, second)
                      && MakesOne(CreatesOn(x, second))
                    else ledger.spent == old(ledger).spent + [k] && tools == old(tools) + CreatesOn(x, first)
    {
      hide Backed, Saved, Shows, Refines, AllNormal, NormalizeSkillSession, SkillSaved, Visible, Live, AwaitsCreation;
      hide AnswersDraft, CreatesOn, MakesOne, WorkflowActive, ExecutionActive, Unused, Resuspended;
      ghost var e := Shown(c.now)[0];
      StillShown(contexts.stack.stored, c.now, d.now);
      StackOfFive(contexts);
      NoOthersActive();
      UnusedByHeld(d.snapshotId, contexts.stack.stored, ledger);
      var once := CreateFromIdle(first, true, Continues, hint, c);
      var twice := CreateFromIdle(second, second.isYes || second.isNo, reading, hint, d);
    }

    /** A social yes and then another reply: the flow now shows twice, so a yes is taken up from idle
        exactly while one copy is live and the other has expired. */
    method AnswerAfterSocial(social: Turn, second: Turn, hint: string, c: Chance, d: Chance)
      requires Valid() && contexts.stack.clock <= c.now <= d.now && !AnythingActive(contexts.View())
      requires Unused(c.snapshotId, contexts.stack.stored, ledger)
      requires var v := Shown(c.now);
               |v| == 1 && AwaitsAction(v[0], needs) && social.isYes
      modifies this`calls, this`ledger, contexts`skill, contexts`workflow, contexts`execution, contexts.history
      modifies contexts.stack
      ensures Valid() && ledger.offers == old(ledger).offers
      ensures var e := old(Shown(c.now))[0];
              && e.snapshotId in old(ledger).held
              && var k := old(ledger).held[e.snapshotId].offer;
                 if second.isYes && Reaches(e.skill.value, second)
                    && (Live(e, d.now) <==> d.now > c.now + 86400)
                 then ledger.spent == old(ledger).spent + [k]
                      && calls == old(calls) + CallsOn(e.skill.value, second)
                 else ledger.spent == old(ledger).spent && calls == old(calls)
    {
      hide Backed, Saved, Shows, Refines, AllNormal, NormalizeSkillSession, SkillSaved, Visible, Reaches, Live;
      hide WorkflowActive, ExecutionActive, Unused, GuardedPart;
      ghost var e := Shown(c.now)[0];
      EntryBacked(contexts.skill, contexts.stack.stored, ledger, e, c.now, needs);
      NoOthersActive();
      var once := ConfirmFromIdle(social, true, Social, hint, c);
      StackOfFive(contexts);
      PairShown(contexts.stack.stored, c.now, d.now);
      LiveSince(Shown(c.now)[1], c.now, d.now);
      var twice := ConfirmFromIdle(second, second.isYes, Continues, hint, d);
    }

    /** The session recovery starts from: a fresh one, or the top snapshot's if its skill and action
        agree. */
    method RecoveryBase(skill: Skill, action: Action, c: Chance) returns (base: SkillSession, copied: bool)
      requires Valid() && contexts.stack.clock <= c.now && !skill.NoSkill?
      ensures var v := Shown(c.now);
              copied <==> v != [] && v[|v| - 1].skill.Some? && Matches(v[|v| - 1].skill.value, skill, action)
      ensures base == if copied then var v := Shown(c.now); v[|v| - 1].skill.value
                      else Fresh(skill, action)
      ensures DraftSound(Some(base)) && !base.name.NoSkill? && (!copied ==> !Guarded(base, needs))
    {
      hide Backed, Saved, Shows, Refines, AllNormal, NormalizeSkillSession, Visible, Lossless, Sound, TaskNormal, Keep;
      hide LiveAt, Guarded;
      NormalNames(contexts, c);
      var entries := contexts.stack.Stack(c.now);
      base := Fresh(skill, action);
      copied := false;
      CollectingIsQuiet(base, needs);
      if |entries| > 0 {
        var top := entries[|entries| - 1].skill;
        if top.Some? && Matches(top.value, skill, action) {
          EntrySound(contexts.skill, contexts.stack.stored, ledger, entries[|entries| - 1], c.now, needs);
          return top.value, true;
        }
      }
    }

    /** The recovery path of tryRecoverFromInternalAgentJSON: the base session takes the recovered
        fields.  A complete trader draft is shown and waits; any other copy keeps its phase, and
        counts as a copy if it waits. */
    method Recover(skill: Skill, action: Action, fields: seq<(FieldKey, string)>, draftName: string -> string,
                   catalog: Catalog, c: Chance)
      returns (shown: bool)
      requires Valid() && contexts.stack.clock <= c.now && !skill.NoSkill? && DraftsTrimmed(draftName)
      requires forall i :: 0 <= i < |fields| ==> fields[i].0 != OtherField("")
      modifies this`ledger, contexts`skill
      ensures Valid() && contexts.skill.Some? && ledger.spent == old(ledger).spent
      ensures var s := contexts.skill.value;
              && (shown <==> IsDraft(s) && Complete(DraftOf(s)))
              && (IsDraft(s) ==> (Waiting(s) <==> Complete(DraftOf(s))))
      ensures shown ==> ledger == Offered(old(ledger), CreateDraft(DraftOf(contexts.skill.value)), true)
      ensures !shown ==> ledger.offers == old(ledger).offers
      ensures ledger.copies > old(ledger).copies ==>
                !shown && var v := Shown(c.now); v != [] && AwaitsPart(v[|v| - 1].skill, skill, action, needs)
    {
      hide Backed, Saved, Shows, Refines, AllNormal, NormalizeSkillSession, SkillSaved, Visible, Lossless, Sound, Edits;
      hide DraftsTrimmed, Hydrate, DraftOf, Complete, Guarded, FieldValue, Waiting;
      var base, copied := RecoveryBase(skill, action, c);
      var session := RecoveredFields(base, fields, draftName, catalog, c);
      EditsIsSound(base, session);
      if IsDraft(session) && Complete(DraftOf(session)) {
        SyncedDraftSound(session);
        session := session.(phase := if FieldValue(session, AutoStart) == "true" then AwaitStartConfirmation
                              else AwaitCreateConfirmation);
        AwaitsEither(session);
        OfferKeepsBacked(contexts.skill, contexts.stack.stored, ledger, session, c, needs);
        ledger := Offered(ledger, CreateDraft(DraftOf(session)), true);
        contexts.SaveSkill(session, c.now, c.aliasWins);
        return true;
      }
      QuietDraft(session, c, needs);
      KeepRecovered(base, session, copied, c);
      return false;
    }

    /** Recovery's last save: a copy keeps its phase and its ticket, a fresh session waits for nothing. */
    method KeepRecovered(base: SkillSession, session: SkillSession, copied: bool, c: Chance)
      requires Valid() && contexts.stack.clock <= c.now && Edits(base, session) && !base.name.NoSkill?
      requires copied ==> var v := Shown(c.now); v != [] && v[|v| - 1].skill == Some(base)
      requires !copied ==> !Guarded(base, needs)
      modifies this`ledger, contexts`skill
      ensures Valid() && contexts.skill == Some(NormalizeSkillSession(session, c.now, c.aliasWins))
      ensures ledger.spent == old(ledger).spent && ledger.offers == old(ledger).offers
      ensures ledger.copies == old(ledger).copies + if copied && Guarded(base, needs) then 1 else 0
    {
      hide Backed, Saved, Shows, Refines, AllNormal, NormalizeSkillSession, SkillSaved, Visible, Lossless, Edits;
      hide Guarded, StillOffered;
      EditsIsSound(base, session);
      if copied {
        ghost var top := Shown(c.now)[|Shown(c.now)| - 1];
        CopyEdited(contexts.skill, contexts.stack.stored, ledger, top, session, c, needs);
        ledger := AfterEdit(Copied(ledger, top, needs), session);
      } else {
        EditsIsQuiet(base, session, needs);
        StoreBacks(session, c.now, c.aliasWins, Ticket(0, false, false), [], needs);
        ReplaceKeepsBacked(contexts.skill, contexts.stack.stored, ledger,
                           Some(NormalizeSkillSession(session, c.now, c.aliasWins)), needs);
        ledger := Dropped(ledger);
      }
      contexts.SaveSkill(session, c.now, c.aliasWins);
    }
  }

  /** What resolveSkillSessionTurn makes of a reply to an active flow: it goes on with the flow, is
      merely social, or gives the flow up. */
  datatype Reading = Continues | Social | Aborts

  /** The session executeAtomicSkillTask hands to a handler. */
  function Fresh(skill: Skill, action: Action): SkillSession {
    SkillSession(skill, action, Collecting, None, map[], None, Unstamped)
  }

  /** The reply names no listed target and does not widen, as a plain yes. */
  predicate NamesNone(turn: Turn, skill: Skill, action: Action) {
    Resolve(turn.text, turn.options, None).None? && !(SupportsBulk(skill, action) && turn.meansAll)
  }

  lemma FreshIsEmpty(turn: Turn, skill: Skill, action: Action, need: bool)
    requires Confirmable(skill, action)
    ensures Handle(Fresh(skill, action), turn, skill, action, need) == Handle(EMPTY_SESSION, turn, skill, action, need)
  {
    hide Checked, Targeted, Widened, Resolving, Bulk;
  }

  lemma NewDraftIsEmpty(turn: CreateTurn)
    ensures HandleCreate(NEW_DRAFT, turn) == HandleCreate(EMPTY_SESSION, turn)
  {
    hide Collect, ExecuteCreate, Hydrate, MirrorSlots;
  }

  /** A fresh session never waits, so nothing is dispatched and nothing goes on waiting. */
  lemma FreshTurn(l: Ledger, turn: Turn, skill: Skill, action: Action, now: int, aliasWins: bool, need: bool)
    requires Confirmable(skill, action)
    ensures var e := Handle(Fresh(skill, action), turn, skill, action, need);
            && (need ==> e.ids == [] && !e.reply.Dispatched? && !e.reply.StillWaiting?)
            && (e.write.Save? ==> !e.write.session.name.NoSkill?)
            && (e.reply.Prompt? ==> e.write.Save?)
            && (!e.write.Untouched? ==>
                  AfterConfirm(Dropped(l), e, skill, action, need, turn) ==
                  if e.reply.Prompt? then PromptedFor(l, skill, action, e.reply.target) else Dropped(l))
            && (NamesNone(turn, skill, action) ==>
                  && e.reply.AskTarget? && e.write.Save?
                  && var n := NormalizeSkillSession(e.write.session, now, aliasWins);
                     !Pending(n) && n.targetRef.None?)
  {
    hide Handle, Resolve, SetField, NormalizeSkillSession, Prompted, Bulk;
    TurnSafety(Fresh(skill, action), turn, skill, action, need);
    FreshStillWaiting(turn, skill, action, need);
    if NamesNone(turn, skill, action) {
      FreshAsks(turn, skill, action, need);
      var asked := AtStep(Fresh(skill, action), RESOLVE);
      StoreKeeps(asked, now, aliasWins, "");
      StoreKeepsNoTarget(asked, now, aliasWins);
    }
  }

  lemma PromptSaves(turn: Turn, skill: Skill, action: Action)
    requires Confirmable(skill, action)
    ensures var e := Handle(Fresh(skill, action), turn, skill, action, true); e.reply.Prompt? ==> e.write.Save?
  {
    hide Handle, Bulk;
    TurnSafety(Fresh(skill, action), turn, skill, action, true);
  }

  lemma FreshStillWaiting(turn: Turn, skill: Skill, action: Action, need: bool)
    requires Confirmable(skill, action)
    ensures !Handle(Fresh(skill, action), turn, skill, action, need).reply.StillWaiting?
  {
    hide Handle;
    StoredAfter(Fresh(skill, action), turn, skill, action, need);
  }

  lemma FreshAsks(turn: Turn, skill: Skill, action: Action, need: bool)
    requires Confirmable(skill, action) && NamesNone(turn, skill, action)
    ensures Handle(Fresh(skill, action), turn, skill, action, need) ==
            Effect(AskTarget,
                   Save(SkillSession(skill, action, Collecting, None, map[DagStep := "resolve_target"], None,
                                     Unstamped)),
                   [])
  {
    hide Resolve, LiveTarget, Checked;
  }

  /** The snapshot `t` of a session restored from `e` and suspended again at once. */
  predicate Resuspended(t: SuspendedTask, e: SuspendedTask, c: Chance) {
    && t.snapshotId == c.snapshotId && t.suspendedAt == Since(c.now) && t.skill == e.skill
    && t.workflow.Some? == WorkflowActive(e.workflow)
  }

  lemma NothingActive()
    ensures forall m :: !AnythingActive(Contexts(None, None, None, m))
  {
  }

  lemma UnusedByCopy(name: string, stack: seq<SuspendedTask>, l: Ledger, needs: (Skill, Action) -> bool)
    ensures forall e :: Unused(name, stack, Copied(l, e, needs)) == Unused(name, stack, l)
  {
  }

  lemma UnusedByHeld(name: string, stack: seq<SuspendedTask>, l: Ledger)
    ensures forall n: Ledger :: n.held == l.held ==> Unused(name, stack, n) == Unused(name, stack, l)
  {
  }

  /** Suspending again what the lone entry gave leaves both on the stack. */
  lemma SocialShows(x: Contexts, stored: seq<SuspendedTask>, e: SuspendedTask, hint: string, c: Chance,
                    needs: (Skill, Action) -> bool)
    requires Saved(x) && x.skill.Some? && !x.skill.value.name.NoSkill? && x.skill == e.skill
    requires Visible(stored, c.now) == [e]
    requires NormalizeSkillSession(e.skill.value, c.now, c.aliasWins) == e.skill.value
    requires WorkflowActive(x.workflow) == WorkflowActive(e.workflow)
    ensures var t := Settled(Build(x, hint, c), c);
            && Resuspended(t, e, c)
            && (!WorkflowActive(e.workflow) ==>
                  && (AwaitsAction(e, needs) ==> AwaitsAction(t, needs)) && (AwaitsCreation(e) ==> AwaitsCreation(t)))
            && var shown := Visible(Visible(stored, c.now) + [t], c.now);
               shown == [e, t] && Visible(shown, c.now) == [e, t]
  {
    hide Build, Settled, NormalizeSkillSession, NormalizeSlots, SkillSaved, Visible, Clean, Trim;
    hide ExecutionActive, Guarded;
    SnapshotHolds(x, hint, c);
    SkillReadBack(x.skill, c);
    var t := Settled(Build(x, hint, c), c);
    TwoShow(stored, e, t, c.now);
  }

  lemma TwoShow(stored: seq<SuspendedTask>, e: SuspendedTask, t: SuspendedTask, now: int)
    requires Visible(stored, now) == [e] && t.suspendedAt == Since(now)
    ensures Visible([e] + [t], now) == [e, t] && Visible([e, t], now) == [e, t]
  {
    hide Keep, LiveAt;
    VisibleLive(stored, now);
    KeepConcat(LiveAt(now), [e], [t]);
    KeepOne(t, now);
    assert [e] + [t] == [e, t];
  }

  lemma LiveSince(t: SuspendedTask, now: int, later: int)
    requires t.suspendedAt == Since(now)
    ensures Live(t, later) <==> later <= now + EXPIRY_SECONDS
  {
  }

  /** Of two shown entries those go on showing that are live. */
  lemma PairShown(stored: seq<SuspendedTask>, now: int, later: int)
    requires now <= later && |stored| <= STACK_MAX && |Visible(stored, now)| == 2
    ensures var v := Visible(stored, now);
            Visible(stored, later) ==
            (if Live(v[0], later) then [v[0]] else []) + (if Live(v[1], later) then [v[1]] else [])
  {
    hide Live;
    var v := Visible(stored, now);
    assert v == Keep(LiveAt(now), stored) && v == [v[0]] + [v[1]];
    KeepLater(stored, now, later);
    KeepConcat(LiveAt(later), [v[0]], [v[1]]);
    KeepOne(v[0], later);
    KeepOne(v[1], later);
  }

  /** A guarded session is guarded after loading. */
  lemma LoadedGuarded(u: UserContexts, l: Ledger, c: Chance, needs: (Skill, Action) -> bool)
    requires u.Valid() && Backed(u.skill, u.stack.stored, l, needs)
    requires GuardedPart(u.skill, needs) && !IsDraft(u.skill.value)
    ensures var s, n := u.skill.value, Loaded(u.skill, c.now, c.aliasWins);
            && n.name == s.name && n.action == s.action && Confirmable(n.name, n.action) && needs(n.name, n.action)
            && Pending(n) && l.active.Some?
  {
    hide NormalizeSkillSession, Backs, StackBacked, Balanced;
    StoreKeeps(u.skill.value, c.now, c.aliasWins, "");
  }

  const EXCHANGE_CHILD := "exchange_management"

  /** The top entry resumes once a task of this skill has succeeded. */
  predicate Triggered(v: seq<SuspendedTask>, child: string) {
    v != [] && v[|v| - 1].resumeOnSuccess && child in v[|v| - 1].resumeTriggers
  }

  /** The parent that resumes after a dispatch, if one does. */
  function ParentAfter(turn: Turn, skill: Skill, action: Action, v: seq<SuspendedTask>): Option<SuspendedTask> {
    if skill.Exchange? && action.Delete? && turn.finish.Done? && Triggered(v, EXCHANGE_CHILD) then Some(v[|v| - 1])
    else None
  }

  /** A parent resumes exactly after a successful exchange delete, if the top entry waits for one. */
  lemma ParentResumes(turn: Turn, skill: Skill, action: Action, v: seq<SuspendedTask>, e: SuspendedTask)
    ensures ParentAfter(turn, skill, action, v + [e]) ==
            if skill == Exchange && action == Delete && turn.finish.Done?
               && e.resumeOnSuccess && "exchange_management" in e.resumeTriggers
            then Some(e) else None
    ensures ParentAfter(turn, skill, action, []) == None
  {
  }

  predicate BringsSession(parent: Option<SuspendedTask>, finish: Finish) {
    parent.Some? && parent.value.skill.Some? && finish.Done?
  }

  /** The skill slot: the resumed parent's session, hydrated and saved, or what the turn itself left. */
  function Slotted(own: Option<SkillSession>, parent: Option<SuspendedTask>, finish: Finish,
                   c: Chance): Option<SkillSession> {
    if BringsSession(parent, finish)
      then Some(NormalizeSkillSession(Hydrate(parent.value.skill.value, finish.after), c.now, c.aliasWins))
    else own
  }

  /** The resumed session takes its ticket along. */
  function Entrusted(l: Ledger, parent: Option<SuspendedTask>, finish: Finish, needs: (Skill, Action) -> bool): Ledger {
    if BringsSession(parent, finish)
      then AfterEdit(Taken(l, parent.value, needs), Hydrate(parent.value.skill.value, finish.after))
    else l
  }

  /** A resumed parent leaves the top of the stack. */
  predicate StackAfter(parent: Option<SuspendedTask>, now: int, before: seq<SuspendedTask>, after: seq<SuspendedTask>) {
    if parent.Some? then |Visible(before, now)| > 0 && after == Visible(before, now)[..|Visible(before, now)| - 1]
    else after == before
  }

  predicate Matches(s: SkillSession, skill: Skill, action: Action) {
    s.name == skill && (action.NoAction? || s.action == action)
  }

  lemma AwaitsEither(s: SkillSession)
    requires s.phase.AwaitStartConfirmation? || s.phase.AwaitCreateConfirmation?
    ensures Waiting(s)
  {
  }

  /** The base session with its recovered fields, normalised and, for a trader draft, hydrated. */
  method RecoveredFields(base: SkillSession, fields: seq<(FieldKey, string)>, draftName: string -> string,
                         catalog: Catalog, c: Chance)
    returns (session: SkillSession)
    requires DraftSound(Some(base)) && !base.name.NoSkill? && DraftsTrimmed(draftName)
    requires forall i :: 0 <= i < |fields| ==> fields[i].0 != OtherField("")
    ensures Edits(base, session)
  {
    hide NormalizeSkillSession, Sound, DraftsTrimmed, Hydrate;
    session := SetFields(base, fields, draftName);
    StoreEdits(base, session, c);
    session := NormalizeSkillSession(session, c.now, c.aliasWins);
    if IsDraft(session) {
      HydrateEdits(session, catalog);
      session := HydrateInPlace(session, catalog);
    }
  }

  /** The fields recovered from the reply, one setField each. */
  method SetFields(before: SkillSession, fields: seq<(FieldKey, string)>, draftName: string -> string)
    returns (session: SkillSession)
    requires DraftSound(Some(before)) && DraftsTrimmed(draftName)
    requires forall i :: 0 <= i < |fields| ==> fields[i].0 != OtherField("")
    ensures Edits(before, session)
  {
    hide Sound, SetField, DraftsTrimmed;
    session := before;
    for i := 0 to |fields|
      invariant Edits(before, session)
    {
      FieldEdits(session, fields[i].0, fields[i].1, draftName);
      session := SetField(session, fields[i].0, fields[i].1, draftName);
    }
  }

  lemma FieldEdits(s: SkillSession, key: FieldKey, value: string, draftName: string -> string)
    requires DraftSound(Some(s)) && DraftsTrimmed(draftName) && key != OtherField("")
    ensures Edits(s, SetField(s, key, value, draftName))
  {
    hide Sound, Trim, MirroredSlots;
    if IsDraft(s) {
      WritingKeepsDraft(s, key, value, draftName);
    }
  }

  lemma StoreEdits(s: SkillSession, edited: SkillSession, c: Chance)
    requires Edits(s, edited) && !s.name.NoSkill?
    ensures Edits(s, NormalizeSkillSession(edited, c.now, c.aliasWins))
    ensures DraftSound(Some(NormalizeSkillSession(edited, c.now, c.aliasWins)))
  {
    hide NormalizeSkillSession, Sound, Guarded;
    StoreBacks(edited, c.now, c.aliasWins, Ticket(0, false, false), [], (x, y) => false);
  }

  lemma EditsIsSound(s: SkillSession, edited: SkillSession)
    requires Edits(s, edited)
    ensures DraftSound(Some(edited)) && edited.name == s.name && edited.action == s.action && edited.phase == s.phase
  {
    hide Sound;
  }

  lemma SyncedDraftSound(s: SkillSession)
    requires IsDraft(s) && DraftSound(Some(s)) && Complete(DraftOf(s))
    ensures forall phase :: Sound(s.(phase := phase)) && DraftOf(s.(phase := phase)) == DraftOf(s)
  {
    hide Synced, DraftOf, Complete;
    forall phase: Phase
      ensures Sound(s.(phase := phase)) && DraftOf(s.(phase := phase)) == DraftOf(s)
    {
      PhaseOnly(s, phase);
    }
  }

  lemma CollectingIsQuiet(s: SkillSession, needs: (Skill, Action) -> bool)
    requires s.phase.Collecting? && s.fields == map[] && s.slots == None
    ensures !Guarded(s, needs) && DraftSound(Some(s))
  {
  }

  lemma EditsIsQuiet(s: SkillSession, edited: SkillSession, needs: (Skill, Action) -> bool)
    requires Edits(s, edited) && !Guarded(s, needs)
    ensures !Guarded(edited, needs)
  {
    hide Sound;
  }

  /** A sound draft that is not complete does not wait, before or after a save. */
  lemma QuietDraft(s: SkillSession, c: Chance, needs: (Skill, Action) -> bool)
    requires DraftSound(Some(s)) && !s.name.NoSkill?
    ensures var n := NormalizeSkillSession(s, c.now, c.aliasWins);
            && IsDraft(n) == IsDraft(s)
            && (IsDraft(s) ==> DraftOf(n) == DraftOf(s))
            && (IsDraft(s) && !Complete(DraftOf(s)) ==> !Waiting(n))
  {
    hide NormalizeSkillSession, Synced, DraftOf, Complete;
    StoreKeeps(s, c.now, c.aliasWins, "");
    if IsDraft(s) {
      SoundThroughStore(s, c.now, c.aliasWins);
    }
  }

  /** A complete draft is shown: the new offer is its own. */
  lemma OfferKeepsBacked(skill0: Option<SkillSession>, stack: seq<SuspendedTask>, l: Ledger, s: SkillSession, c: Chance,
                         needs: (Skill, Action) -> bool)
    requires Backed(skill0, stack, l, needs) && IsDraft(s) && Sound(s) && Waiting(s)
    ensures var n := NormalizeSkillSession(s, c.now, c.aliasWins);
            && IsDraft(n) && Waiting(n) && DraftOf(n) == DraftOf(s) && !n.name.NoSkill?
            && Backed(Some(n), stack, Offered(l, CreateDraft(DraftOf(s)), true), needs)
  {
    hide StackBacked, Balanced, CountGuarded, NormalizeSkillSession, Synced, DraftOf, Complete;
    var o := CreateDraft(DraftOf(s));
    SoundThroughStore(s, c.now, c.aliasWins);
    StoreKeeps(s, c.now, c.aliasWins, "");
    StackStaysBacked(stack, l, Offered(l, o, true), o, needs);
    BalancedSteps(l, CountGuarded(stack, needs), o, true, false);
  }

  /** A copied and edited session stands beside its original. */
  lemma CopyEdited(skill0: Option<SkillSession>, stored: seq<SuspendedTask>, l: Ledger, e: SuspendedTask,
                   edited: SkillSession,
                   c: Chance, needs: (Skill, Action) -> bool)
    requires Backed(skill0, stored, l, needs) && e in Visible(stored, c.now)
    requires e.skill.Some? && !e.skill.value.name.NoSkill? && Edits(e.skill.value, edited)
    ensures Backed(Some(NormalizeSkillSession(edited, c.now, c.aliasWins)), stored,
                   AfterEdit(Copied(l, e, needs), edited), needs)
  {
    hide Backed, NormalizeSkillSession, Edits, Visible, GuardedPart;
    ShownIsStored(stored, c.now, e);
    var m: nat :| m < |stored| && stored[m] == e;
    CopyKeepsBacked(skill0, stored, l, m, needs);
    EditKeepsBacked(e.skill.value, stored, edited, Copied(l, e, needs), c.now, c.aliasWins, needs);
  }

  lemma EntrySound(skill: Option<SkillSession>, stored: seq<SuspendedTask>, l: Ledger, e: SuspendedTask, now: int,
                   needs: (Skill, Action) -> bool)
    requires Backed(skill, stored, l, needs) && e in Visible(stored, now)
    ensures DraftSound(e.skill)
  {
    hide Backs, Guarded, DraftSound;
    ShownIsStored(stored, now, e);
    assert EntryFits(e, needs);
  }

  /** A session of that skill, and action if one is named, that waits. */
  predicate AwaitsPart(s: Option<SkillSession>, skill: Skill, action: Action, needs: (Skill, Action) -> bool) {
    GuardedPart(s, needs) && Matches(s.value, skill, action)
  }

  /** The calls of a turn on the waiting session `s`. */
  function CallsOn(s: SkillSession, turn: Turn): seq<ToolCall>
    requires Confirmable(s.name, s.action)
  {
    Calls(s.name, s.action, Handle(s, turn, s.name, s.action, true).ids)
  }

  /** The tools of a turn on the draft session `s`. */
  function CreatesOn(s: SkillSession, turn: CreateTurn): seq<ToolUse> {
    HandleCreate(s, turn).tools
  }

  /** One trader is created, from a complete draft, and possibly started. */
  predicate MakesOne(used: seq<ToolUse>) {
    && used != [] && used[0].CreateTool? && Complete(used[0].draft)
    && forall i :: 0 < i < |used| ==> used[i].StartTool?
  }

  /** The reply answers the waiting phase of the draft. */
  predicate AnswersDraft(s: SkillSession, turn: CreateTurn) {
    if s.phase.AwaitStartConfirmation? then turn.isYes || turn.isNo else turn.isYes
  }

  /** A lone shown entry goes on showing exactly while it is live. */
  lemma StillShown(stored: seq<SuspendedTask>, now: int, later: int)
    requires now <= later && |stored| <= STACK_MAX && |Visible(stored, now)| == 1
    ensures var e := Visible(stored, now)[0];
            Visible(stored, later) == if Live(e, later) then [e] else []
  {
    hide Live;
    var v := Visible(stored, now);
    assert v == Keep(LiveAt(now), stored) && v == [v[0]];
    KeepLater(stored, now, later);
    KeepOne(v[0], later);
  }

  lemma StackOfFive(u: UserContexts)
    requires u.Valid()
    ensures |u.stack.stored| <= STACK_MAX
  {
  }

  /** A snapshot whose session awaits a start, stop or delete. */
  predicate AwaitsAction(e: SuspendedTask, needs: (Skill, Action) -> bool) {
    e.kind.SkillKind? && GuardedPart(e.skill, needs) && !IsDraft(e.skill.value)
  }

  predicate AwaitsCreation(e: SuspendedTask) {
    e.kind.SkillKind? && e.skill.Some? && IsDraft(e.skill.value) && Waiting(e.skill.value)
  }

  lemma AwaitsIsAwaiting(e: SuspendedTask, needs: (Skill, Action) -> bool)
    ensures AwaitsAction(e, needs) || AwaitsCreation(e) ==> Awaiting(e)
    ensures AwaitsAction(e, needs) <==>
            e.kind.SkillKind? && e.skill.Some? && var s := e.skill.value;
                                                  Confirmable(s.name, s.action) && needs(s.name, s.action) && Pending(s)
  {
  }

  /** A waiting entry that is shown holds a ticket. */
  lemma EntryBacked(skill: Option<SkillSession>, stored: seq<SuspendedTask>, l: Ledger, e: SuspendedTask, now: int,
                    needs: (Skill, Action) -> bool)
    requires Backed(skill, stored, l, needs) && e in Visible(stored, now)
    ensures GuardedPart(e.skill, needs) ==>
              e.snapshotId in l.held && Backs(e.skill.value, l.held[e.snapshotId], l.offers)
    ensures EntryFits(e, needs)
  {
    hide Backs, GuardedPart;
    ShownIsStored(stored, now, e);
    assert e in stored;
  }

  /** Shown sessions are named, and loading one gives it back. */
  lemma NormalNames(u: UserContexts, c: Chance)
    requires u.Valid()
    ensures var v := Visible(u.stack.stored, c.now);
            forall m: nat :: m < |v| && v[m].skill.Some? ==>
              && !v[m].skill.value.name.NoSkill?
              && NormalizeSkillSession(v[m].skill.value, c.now, c.aliasWins) == v[m].skill.value
  {
    hide Visible, TaskNormal, NormalizeSkillSession;
    var v := Visible(u.stack.stored, c.now);
    forall m: nat | m < |v| && v[m].skill.Some?
      ensures && !v[m].skill.value.name.NoSkill?
              && NormalizeSkillSession(v[m].skill.value, c.now, c.aliasWins) == v[m].skill.value
    {
      NormalEntry(u.stack.stored, c.now, m, c);
      NormalPart(v[m], c);
    }
  }

  lemma NormalPart(t: SuspendedTask, c: Chance)
    requires TaskNormal(t) && t.skill.Some?
    ensures !t.skill.value.name.NoSkill? && NormalizeSkillSession(t.skill.value, c.now, c.aliasWins) == t.skill.value
  {
    hide NormalizeSkillSession, NormalizeWorkflowPart, NormalizeExecutionPart, Trim, Clean, Named;
    assert NormalizeSuspended(t, c) == t;
    assert NormalizeSkillPart(t.skill, c) == t.skill;
    NameKept(t.skill.value, c.now, c.aliasWins);
  }

  /** Popping a parent and hydrating its session. */
  lemma ParentKeepsBacked(skill0: Option<SkillSession>, v: seq<SuspendedTask>, l: Ledger, catalog: Catalog, c: Chance,
                          needs: (Skill, Action) -> bool)
    requires Backed(skill0, v, l, needs) && v != []
    requires v[|v| - 1].skill.Some? ==> !v[|v| - 1].skill.value.name.NoSkill?
    ensures var e, rest := v[|v| - 1], v[..|v| - 1];
            && Backed(skill0, rest, l, needs)
            && (e.skill.Some? ==>
                  var restored := Hydrate(e.skill.value, catalog);
                  && !restored.name.NoSkill?
                  && Backed(Some(NormalizeSkillSession(restored, c.now, c.aliasWins)), rest,
                            AfterEdit(Taken(l, e, needs), restored), needs))
  {
    hide Backed, NormalizeSkillSession, DraftSound, Hydrate, Edits, Thins;
    var e, rest := v[|v| - 1], v[..|v| - 1];
    assert rest + v[|v|..] == rest;
    TakeKeepsBacked(skill0, v, l, |v| - 1, needs);
    SliceThins(v, |v| - 1, |v|, needs);
    ThinnerStaysBacked(skill0, v, rest, l, needs);
    if e.skill.Some? {
      var restored := Hydrate(e.skill.value, catalog);
      TakenIsBacked(e.skill.value, rest, Taken(l, e, needs), needs);
      HydrateEdits(e.skill.value, catalog);
      EditedIsNamed(e.skill.value, restored);
      EditKeepsBacked(e.skill.value, rest, restored, Taken(l, e, needs), c.now, c.aliasWins, needs);
    }
  }

  lemma TakenIsBacked(s: SkillSession, stack: seq<SuspendedTask>, l: Ledger, needs: (Skill, Action) -> bool)
    requires Backed(Some(s), stack, l, needs)
    ensures DraftSound(Some(s))
  {
  }

  /** Neither skill nor action, phase or target differs. */
  predicate SameFlow(s: SkillSession, n: SkillSession) {
    n.name == s.name && n.action == s.action && n.phase == s.phase && n.targetRef == s.targetRef
  }

  lemma PutLeaves(s: SkillSession, key: FieldKey, value: string)
    ensures SameFlow(s, Put(s, key, value))
  {
    hide Trim, MirroredSlots;
  }

  lemma IdFromNameLeaves(s: SkillSession, idKey: FieldKey, nameKey: FieldKey, options: seq<TargetOption>)
    ensures SameFlow(s, IdFromName(s, idKey, nameKey, options))
  {
    hide Put, FieldValue, Found;
    var found := Found(options, FieldValue(s, nameKey));
    if found.Some? {
      PutLeaves(s, idKey, found.value.id);
    }
  }

  lemma NameFromIdLeaves(s: SkillSession, idKey: FieldKey, nameKey: FieldKey, options: seq<TargetOption>)
    ensures SameFlow(s, NameFromId(s, idKey, nameKey, options))
  {
    hide Put, FieldValue, OptionByIdOrName;
    var exact := OptionByIdOrName(options, FieldValue(s, idKey));
    if exact.Some? {
      PutLeaves(s, idKey, exact.value.id);
      PutLeaves(Put(s, idKey, exact.value.id), nameKey, exact.value.name);
    }
  }

  lemma HydrateSlotLeaves(s: SkillSession, idKey: FieldKey, nameKey: FieldKey, options: seq<TargetOption>)
    ensures SameFlow(s, HydrateSlot(s, idKey, nameKey, options))
  {
    hide IdFromName, NameFromId;
    IdFromNameLeaves(s, idKey, nameKey, options);
    NameFromIdLeaves(IdFromName(s, idKey, nameKey, options), idKey, nameKey, options);
  }

  lemma HydrateLeaves(s: SkillSession, c: Catalog)
    ensures SameFlow(s, Hydrate(s, c))
  {
    hide HydrateSlot;
    var a := HydrateSlot(s, ExchangeId, ExchangeName, c.exchanges);
    var b := HydrateSlot(a, ModelId, ModelName, c.models);
    HydrateSlotLeaves(s, ExchangeId, ExchangeName, c.exchanges);
    HydrateSlotLeaves(a, ModelId, ModelName, c.models);
    HydrateSlotLeaves(b, StrategyId, StrategyName, c.strategies);
  }

  /** Hydration is an edit. */
  lemma HydrateEdits(s: SkillSession, c: Catalog)
    requires DraftSound(Some(s))
    ensures Edits(s, Hydrate(s, c))
  {
    hide Hydrate, Synced, DraftOf, Complete;
    HydrateLeaves(s, c);
    if IsDraft(s) {
      HydrateKeeps(s, c);
    }
  }

  lemma ShownStaysBacked(skill: Option<SkillSession>, stored: seq<SuspendedTask>, now: int, l: Ledger,
                         needs: (Skill, Action) -> bool)
    requires Backed(skill, stored, l, needs)
    ensures Backed(skill, Visible(stored, now), l, needs)
  {
    hide Backed, Visible, Thins;
    VisibleThins(stored, now, needs);
    ThinnerStaysBacked(skill, stored, Visible(stored, now), l, needs);
  }

  lemma ClearedStaysBacked(skill: Option<SkillSession>, stored: seq<SuspendedTask>, l: Ledger,
                           needs: (Skill, Action) -> bool)
    requires Backed(skill, stored, l, needs)
    ensures Backed(skill, [], l, needs)
  {
    hide Backed, GuardedPart;
    ThinnerStaysBacked(skill, stored, [], l, needs);
  }

  lemma PushSettled(skill: Option<SkillSession>, stored: seq<SuspendedTask>, l: Ledger, t: SuspendedTask, now: int,
                    needs: (Skill, Action) -> bool)
    requires Backed(skill, stored, l, needs) && Unused(t.snapshotId, stored, l)
    requires EntryFits(t, needs) && !GuardedPart(t.skill, needs)
    ensures Backed(skill, Visible(Visible(stored, now) + [t], now), l, needs)
  {
    hide Backed, Visible, Thins, Unused, EntryFits, GuardedPart;
    VisibleThins(stored, now, needs);
    ThinnerStaysBacked(skill, stored, Visible(stored, now), l, needs);
    UnusedInThinner(t.snapshotId, stored, Visible(stored, now), l, needs);
    PushOtherKeepsBacked(skill, Visible(stored, now), l, t, needs);
    ShownStaysBacked(skill, Visible(stored, now) + [t], now, l, needs);
  }

  /** A restored entry's session is the one restored. */
  lemma NormalShown(u: UserContexts, c: Chance)
    requires u.Valid()
    ensures var v := Visible(u.stack.stored, c.now);
            forall m: nat, y :: m < |v| ==> Reinstate(v[m], y, c, u.user, u.history.maxTurns).skill == v[m].skill
  {
    hide Reinstate, Visible, TaskNormal;
    var v := Visible(u.stack.stored, c.now);
    forall m: nat, y: Contexts | m < |v|
      ensures Reinstate(v[m], y, c, u.user, u.history.maxTurns).skill == v[m].skill
    {
      NormalEntry(u.stack.stored, c.now, m, c);
      NormalSkill(v[m], y, c, u.user, u.history.maxTurns);
    }
  }

  lemma NormalContexts(u: UserContexts, c: Chance)
    requires u.Valid()
    ensures var v := Visible(u.stack.stored, c.now);
            forall m: nat, y :: m < |v| ==>
              var x := Reinstate(v[m], y, c, u.user, u.history.maxTurns);
              x.workflow == Installed(v[m].workflow, u.user, c.now) && x.execution == v[m].execution
  {
    hide Reinstate, Visible, TaskNormal;
    var v := Visible(u.stack.stored, c.now);
    forall m: nat, y: Contexts | m < |v|
      ensures var x := Reinstate(v[m], y, c, u.user, u.history.maxTurns);
              x.workflow == Installed(v[m].workflow, u.user, c.now) && x.execution == v[m].execution
    {
      NormalEntry(u.stack.stored, c.now, m, c);
      ReinstateNormal(v[m], y, c, u.user, u.history.maxTurns);
    }
  }

  lemma ShownIsStored(stored: seq<SuspendedTask>, now: int, e: SuspendedTask)
    requires e in Visible(stored, now)
    ensures exists m: nat :: m < |stored| && stored[m] == e
  {
    assert e in Keep(LiveAt(now), stored);
  }

  lemma EditedIsNamed(s: SkillSession, edited: SkillSession)
    requires Edits(s, edited)
    ensures edited.name == s.name
  {
  }

  lemma StoreKeepsPhase(s: SkillSession, now: int, aliasWins: bool)
    ensures NormalizeSkillSession(s, now, aliasWins).phase == if s.name.NoSkill? then NoPhase else s.phase
  {
    hide NormalizeFields, Filled, MirroredSlots, NoSlotFields;
  }

  lemma SteadyIsOne(skill: Option<SkillSession>, l: Ledger, needs: (Skill, Action) -> bool)
    requires ActiveBacked(skill, l, needs) && l.active.Some? && !IsDraft(skill.value)
    ensures var o := l.offers[l.active.value.offer]; o.ActOn? && (l.active.value.steady ==> o.target.One?)
  {
  }

  /** The session after extraction wrote a target id, a target name or both. */
  function Retargeted(s: SkillSession, id: string, name: string): SkillSession {
    if id == "" && name == "" then s
    else
      var ref := if s.targetRef.Some? then s.targetRef.value else EntityReference("", "", "", Unstamped);
      s.(targetRef := Some(ref.(id := if id == "" then ref.id else id, name := if name == "" then ref.name else name,
                                source := if ref.source == "" then "llm_extraction" else ref.source)))
  }

  /** Extraction writes what is not blank, keeps the rest of the target and notes where it came from. */
  lemma RetargetedIs(s: SkillSession, id: string, name: string)
    ensures var n := Retargeted(s, id, name);
            && n.(targetRef := s.targetRef) == s
            && (id == "" && name == "" ==> n == s)
            && (id != "" || name != "" ==>
                  && n.targetRef.Some?
                  && (id != "" ==> n.targetRef.value.id == id)
                  && (name != "" ==> n.targetRef.value.name == name)
                  && (s.targetRef.None? ==>
                        && (id == "" ==> n.targetRef.value.id == "") && (name == "" ==> n.targetRef.value.name == "")
                        && n.targetRef.value.source == "llm_extraction")
                  && (s.targetRef.Some? ==>
                        && (id == "" ==> n.targetRef.value.id == s.targetRef.value.id)
                        && (name == "" ==> n.targetRef.value.name == s.targetRef.value.name)
                        && n.targetRef.value.source ==
                           if s.targetRef.value.source == "" then "llm_extraction" else s.targetRef.value.source))
  {
  }

  lemma ActiveIsBacked(skill: Option<SkillSession>, stack: seq<SuspendedTask>, l: Ledger,
                       needs: (Skill, Action) -> bool)
    requires Backed(skill, stack, l, needs)
    ensures ActiveBacked(skill, l, needs)
  {
  }

  lemma SavedIsNamed(u: UserContexts)
    requires u.Valid()
    ensures u.skill.Some? ==> !u.skill.value.name.NoSkill?
  {
  }

  lemma OthersAreSaved(u: UserContexts)
    requires u.Valid()
    ensures u.workflow.Some? ==> WorkflowSaved(u.workflow.value)
    ensures u.execution.Some? ==> ExecutionSaved(u.execution.value)
  {
  }

  lemma NothingWaits(needs: (Skill, Action) -> bool)
    ensures DraftSound(None) && !GuardedPart(None, needs)
  {
  }

  lemma ListedReaches(s: SkillSession, turn: Turn, id: string)
    requires Confirmable(s.name, s.action) && AimsAt(s, id) && !Bulk(s) && !Widens(s, turn)
             && StillListed(turn.options, id)
    ensures Reaches(s, turn)
  {
    hide Trim, Resolve, LiveTarget, TextAt, SetField, StillListed, Deletable;
    TargetKept(s.targetRef.value, turn.text, turn.options);
    var t := if Resolving(s) then Targeted(s, turn) else s;
    TargetKept(t.targetRef.value, turn.text, turn.options);
  }

  /** The snapshot of a session prompted for `id`, alone on the stack. */
  lemma SuspendedPrompt(s: SkillSession, hint: string, c: Chance, id: string, needs: (Skill, Action) -> bool)
    requires SkillSaved(s) && Confirmable(s.name, s.action) && needs(s.name, s.action) && Pending(s)
    requires AimsAt(s, id) && id != "" && Trimmed(id) && !Bulk(s)
    ensures var x := Contexts(Some(s), None, None, []);
            var t := Settled(Build(x, hint, c), c);
            && Saved(x) && AnythingActive(x) && t.suspendedAt == Since(c.now) && t.snapshotId == c.snapshotId
            && AwaitsAction(t, needs) && t.workflow.None? && t.execution.None?
            && t.skill.value.name == s.name && t.skill.value.action == s.action
            && AimsAt(t.skill.value, id) && !Bulk(t.skill.value)
  {
    hide Build, Settled, NormalizeSkillSession, NormalizeSlots, Bulk, Trimmed, WorkflowActive, ExecutionActive, Clean;
    hide Trim;
    var x := Contexts(Some(s), None, None, []);
    NoOthersActive();
    SnapshotHolds(x, hint, c);
    SkillReadBack(Some(s), c);
    StoreKeeps(s, c.now, c.aliasWins, id);
  }

  lemma NoOthersActive()
    ensures !WorkflowActive(None) && !ExecutionActive(None)
    ensures KeptWorkflow(None) == None && SettledExecution(None) == None
  {
  }

  /** A prompt from an empty store leaves a waiting session aimed at the id it named. */
  lemma EmptyAsksFor(skill: Skill, action: Action, ask: Turn, id: string, c: Chance)
    requires Confirmable(skill, action) && id != "" && Trimmed(id)
    requires Handle(EMPTY_SESSION, ask, skill, action, true).reply == Prompt(One(id))
    ensures var w := Handle(EMPTY_SESSION, ask, skill, action, true).write;
            && w.Save? && Handle(EMPTY_SESSION, ask, skill, action, true).ids == []
            && var n := NormalizeSkillSession(w.session, c.now, c.aliasWins);
               n.name == skill && n.action == action && Pending(n) && AimsAt(n, id) && !Bulk(n)
  {
    hide Handle, Bulk, Widens, NormalizeSkillSession, Trimmed;
    TurnSafety(EMPTY_SESSION, ask, skill, action, true);
    PromptNames(EMPTY_SESSION, ask, skill, action, true);
    StoreKeeps(Handle(EMPTY_SESSION, ask, skill, action, true).write.session, c.now, c.aliasWins, id);
  }

  lemma SavedIsSaved(u: UserContexts)
    requires u.Valid() && u.skill.Some?
    ensures SkillSaved(u.skill.value)
  {
  }

  lemma LoneEntry(t: SuspendedTask, now: int, later: int)
    requires t.suspendedAt == Since(now) && now <= later <= now + EXPIRY_SECONDS
    ensures Visible([], now) == [] && Visible([] + [t], now) == [t] && Visible([t], now) == [t] && Live(t, later)
  {
    KeepOne(t, now);
    assert [] + [t] == [t];
  }

  /** Two plain yes replies that see the id listed both reach it and call the tool on it. */
  lemma TwiceReached(s: SkillSession, first: Turn, second: Turn, id: string)
    requires Confirmable(s.name, s.action) && Pending(s) && AimsAt(s, id) && !Bulk(s)
    requires first.isYes && !first.meansAll && StillListed(first.options, id)
    requires second.isYes && !second.meansAll && StillListed(second.options, id)
    ensures Reaches(s, first) && CallsOn(s, first) == Calls(s.name, s.action, [id])
    ensures Reaches(s, second) && CallsOn(s, second) == Calls(s.name, s.action, [id])
  {
    hide Handle, Bulk, StillListed, Reaches, Confirmable, Calls;
    ListedReaches(s, first, id);
    ListedReaches(s, second, id);
    DispatchFollowsAim(s, first, id);
    DispatchFollowsAim(s, second, id);
  }

  /** One offer, two calls: a fresh user is prompted once for `id`, the flow is suspended, and two
      plain yes replies within a day each call the tool on `id`. */
  method OneOfferTwoCalls(skill: Skill, action: Action, id: string, ask: Turn, first: Turn, second: Turn, hint: string,
                          c: Chance, d: Chance, needs: (Skill, Action) -> bool)
    returns (run: Conversation)
    requires Confirmable(skill, action) && needs(skill, action) && c.now <= d.now <= c.now + 86400
    requires Handle(EMPTY_SESSION, ask, skill, action, true).reply == Prompt(One(id)) && id != "" && Trimmed(id)
    requires first.isYes && !first.meansAll && StillListed(first.options, id)
    requires second.isYes && !second.meansAll && StillListed(second.options, id)
    ensures run.Valid() && run.ledger.offers == [ActOn(skill, action, One(id))]
    ensures run.ledger.spent == [0, 0] && run.calls == Calls(skill, action, [id]) + Calls(skill, action, [id])
  {
    hide Handle, Backed, Saved, Shows, Refines, AllNormal, NormalizeSkillSession, Build, Settled, Visible, Reaches;
    hide Live, StillListed;
    hide Bulk, AwaitsAction, Confirmable, Trimmed, AimsAt, Prompted, Calls, SkillSaved;
    run := new Conversation(0, 0, c.now, needs);
    EmptyAsksFor(skill, action, ask, id, c);
    var reply := run.ConfirmTurn(ask, skill, action, c);
    var s := run.contexts.skill.value;
    SavedIsSaved(run.contexts);
    SuspendedPrompt(s, hint, c, id, needs);
    ghost var t := Settled(Build(run.contexts.View(), hint, c), c);
    LoneEntry(t, c.now, d.now);
    var ok := run.Suspend(hint, c);
    AwaitsIsAwaiting(t, needs);
    TwiceReached(t.skill.value, first, second, id);
    run.AnswerTwice(first, second, Continues, hint, c, d);
  }
}
