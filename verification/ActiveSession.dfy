/** The active-session path of agent/central_brain.go for starts, stops and deletes: the model routes
    each turn, extraction fills the session, and one skill turn runs on a session converted for the
    call.  Its own ledger counts the questions put to the user and what their answers carried out. */
module ActiveSessions {
  import opened Seqs
  import opened Text
  import opened Records
  import opened SkillSessions
  import opened ChatHistories
  import opened TaskStacks
  import opened Suspensions
  import opened Confirmations
  import opened TraderCreation
  import opened SkillRuns

  /** `asked` is the phase kept among the collected fields, which only a question of the model sets. */
  datatype ActiveSession = ActiveSession(
    skill: Skill,
    action: Action,
    phase: Phase,
    asked: bool,
    refId: string,
    refName: string,
    fields: map<FieldKey, string>)

  function New(skill: Skill, action: Action): ActiveSession {
    ActiveSession(skill, action, Collecting, false, "", "", map[])
  }

  /** What extraction writes: a target id, a target name, fields. */
  datatype Extraction = Extraction(refId: Option<string>, refName: Option<string>, fields: map<FieldKey, string>)

  /** The non-blank entries, trimmed. */
  function NonBlank(fields: map<FieldKey, string>): map<FieldKey, string> {
    map k | k in fields && Trim(fields[k]) != "" :: Trim(fields[k])
  }

  // --------------------------------------------------------------- the conversions

  /** activeToLegacySkillSession: the asked phase overrides the stored one. */
  function ToLegacy(a: ActiveSession): SkillSession {
    SkillSession(
      a.skill, a.action,
      if a.asked then AwaitConfirmation else if a.phase.NoPhase? then OtherPhase("executing") else a.phase,
      if Trim(a.refId) == "" && Trim(a.refName) == "" then None
      else Some(EntityReference(Trim(a.refId), Trim(a.refName), "", Unstamped)),
      NonBlank(a.fields), None, Unstamped)
  }

  function OrKept(value: string, kept: string): string {
    if Trim(value) == "" then kept else Trim(value)
  }

  /** activeSessionFromLegacy: non-blank values come back, and nothing is ever taken out. */
  function FromLegacy(base: ActiveSession, s: SkillSession): ActiveSession {
    base.(phase := s.phase,
          fields := base.fields + NonBlank(s.fields),
          refId := if s.targetRef.Some? then OrKept(s.targetRef.value.id, base.refId) else base.refId,
          refName := if s.targetRef.Some? then OrKept(s.targetRef.value.name, base.refName) else base.refName)
  }

  function Merged(a: ActiveSession, x: Extraction): ActiveSession {
    a.(refId := if x.refId.Some? then x.refId.value else a.refId,
       refName := if x.refName.Some? then x.refName.value else a.refName,
       fields := a.fields + x.fields)
  }

  /** A yes would be taken as the answer to a confirmation. */
  predicate Waits(a: ActiveSession) {
    ToLegacy(a).phase.AwaitConfirmation?
  }

  /** The skill table's one required slot of these actions; deleting a trader declares none. */
  predicate TargetRequired(skill: Skill, action: Action) {
    !(skill.Trader? && action.Delete?)
  }

  /** filterExtractedDataForActiveSession: a target is taken only where the table requires one. */
  function Allowed(a: ActiveSession, x: Extraction): Extraction {
    if TargetRequired(a.skill, a.action) then x else x.(refId := None, refName := None)
  }

  /** missingRequiredFields is empty. */
  predicate NothingMissing(a: ActiveSession) {
    TargetRequired(a.skill, a.action) ==> HasTarget(a)
  }

  predicate HasTarget(a: ActiveSession) {
    || (BulkScope in a.fields && Lower(Trim(a.fields[BulkScope])) == ALL)
    || Trim(a.refId) != "" || Trim(a.refName) != ""
  }

  /** What is still missing before a question may open the confirmation: a target, by id, by name or as
      all, except when a trader is deleted, which is also when extraction takes no target. */
  lemma TargetMissing(a: ActiveSession, x: Extraction)
    ensures NothingMissing(a) <==>
            || (a.skill == Trader && a.action == Delete)
            || Trim(a.refId) != "" || Trim(a.refName) != ""
            || (BulkScope in a.fields && Lower(Trim(a.fields[BulkScope])) == "all")
    ensures var n := Merged(a, Allowed(a, x));
            var takes := !(a.skill == Trader && a.action == Delete);
            && n.refId == (if takes && x.refId.Some? then x.refId.value else a.refId)
            && n.refName == (if takes && x.refName.Some? then x.refName.value else a.refName)
            && n.(refId := a.refId, refName := a.refName) == a.(fields := a.fields + x.fields)
  {
  }

  lemma NonBlankText(fields: map<FieldKey, string>, k: FieldKey)
    ensures TextAt(NonBlank(fields), k) == TextAt(fields, k)
  {
    if k in fields {
      TrimLaws(fields[k]);
    }
  }

  /** A session that took a turn comes back with its phase, its scope and its target. */
  lemma CarriedBack(base: ActiveSession, s: SkillSession, id: string)
    requires !base.skill.NoSkill? && s.name == base.skill && s.action == base.action
    requires Bulk(ToLegacy(base)) ==> Bulk(s)
    ensures var n := ToLegacy(FromLegacy(base, s));
            && n.name == s.name && n.action == s.action
            && (n.phase.AwaitConfirmation? <==> base.asked || s.phase.AwaitConfirmation?)
            && (Bulk(n) <==> Bulk(s))
            && (AimsAt(s, id) && id != "" && Trimmed(id) ==> AimsAt(n, id))
  {
    hide Trim, NonBlank;
    var next := FromLegacy(base, s);
    NonBlankText(base.fields, BulkScope);
    NonBlankText(s.fields, BulkScope);
    NonBlankText(next.fields, BulkScope);
    MergedText(base.fields, s.fields, BulkScope);
    TrimLaws(id);
  }

  lemma MergedText(kept: map<FieldKey, string>, fields: map<FieldKey, string>, k: FieldKey)
    ensures TextAt(kept + NonBlank(fields), k) == if TextAt(fields, k) != "" then TextAt(fields, k) else TextAt(kept, k)
  {
    if k in fields {
      TrimLaws(fields[k]);
    }
  }

  // -------------------------------------------------------------------- the ledger

  /** What the session is about to act on. */
  function AimOf(a: ActiveSession): Target {
    if Bulk(ToLegacy(a)) then Everything else One(Trim(a.refId))
  }

  /** The open question, if any, is the one the session waits on, and the session stands for it. */
  predicate Answerable(session: Option<ActiveSession>, l: Ledger, needs: (Skill, Action) -> bool) {
    && (session.Some? ==> Confirmable(session.value.skill, session.value.action))
    && Backed(if session.Some? then Some(ToLegacy(session.value)) else None, [], l, needs)
  }

  lemma NoneWaits(l: Ledger, needs: (Skill, Action) -> bool)
    requires Balanced(l, 0)
    ensures Answerable(None, Dropped(l), needs) && Answerable(None, Spent(l), needs)
  {
    hide OneHolder;
    BalancedSteps(l, 0, ActOn(Trader, Stop, Everything), false, false);
  }

  /** A session given up leaves no question open, and a new one opens none. */
  lemma DropKeeps(session: Option<ActiveSession>, l: Ledger, skill: Skill, action: Action,
                  needs: (Skill, Action) -> bool)
    requires Answerable(session, l, needs) && Confirmable(skill, action)
    ensures Answerable(None, Dropped(l), needs) && Answerable(Some(New(skill, action)), Dropped(l), needs)
  {
    hide Balanced, NonBlank, Trim;
    BalancedSteps(l, 0, ActOn(Trader, Stop, Everything), false, false);
  }

  lemma NothingAsked(needs: (Skill, Action) -> bool)
    ensures Answerable(None, NO_OFFERS, needs)
  {
  }

  /** The question the model asks is an offer of whatever the session aims at by then. */
  function AskedAbout(a: ActiveSession, l: Ledger): Ledger {
    PromptedFor(l, a.skill, a.action, AimOf(a))
  }

  lemma AskKeeps(a: ActiveSession, l: Ledger, needs: (Skill, Action) -> bool)
    requires Answerable(Some(a), l, needs) && needs(a.skill, a.action)
    ensures Answerable(Some(a.(phase := AwaitConfirmation, asked := true)), AskedAbout(a, l), needs)
  {
    hide Balanced, Bulk, ToLegacy, AimOf, Agrees, Prompted;
    var asked := a.(phase := AwaitConfirmation, asked := true);
    LegacyIs(asked);
    AskAgrees(a);
    BalancedSteps(l, 0, ActOn(a.skill, a.action, AimOf(a)), Prompted(AimOf(a)).steady, false);
  }

  lemma AskAgrees(a: ActiveSession)
    ensures var q := Prompted(AimOf(a));
            Agrees(ToLegacy(a.(phase := AwaitConfirmation, asked := true)),
                   Outstanding(AimOf(a), q.steady, AimOf(a).Everything?))
  {
    hide Trim, Bulk, NonBlank;
    BulkOfTarget(ToLegacy(a), ToLegacy(a.(phase := AwaitConfirmation, asked := true)));
    TrimLaws(a.refId);
  }

  /** Extraction answers nothing, but the target may change under the open question. */
  lemma ExtractKeeps(a: ActiveSession, x: Extraction, l: Ledger, needs: (Skill, Action) -> bool)
    requires Answerable(Some(a), l, needs)
    ensures Answerable(Some(Merged(a, x)), AfterEdit(l, ToLegacy(Merged(a, x))), needs)
  {
    hide Balanced, Trim, Bulk, NonBlank, AimsAt;
    var n := AfterEdit(l, ToLegacy(Merged(a, x)));
    BalancedSteps(l, 0, ActOn(Trader, Stop, Everything), ActiveTicket(n).steady, ActiveTicket(n).wide);
  }

  /** The session read back after the call: saved and loaded once each. */
  function ReadBack(s: SkillSession, now: int, aliasWins: bool): SkillSession {
    NormalizeSkillSession(NormalizeSkillSession(s, now, aliasWins), now, aliasWins)
  }

  function Back(base: ActiveSession, w: Write, now: int, aliasWins: bool): Option<ActiveSession> {
    match w
    case Cleared => None
    case Untouched => Some(FromLegacy(base, ReadBack(ToLegacy(base), now, aliasWins)))
    case Save(s) => Some(FromLegacy(base, ReadBack(s, now, aliasWins)))
  }

  lemma ReadBackKeeps(s: SkillSession, now: int, aliasWins: bool, id: string)
    requires !s.name.NoSkill?
    ensures var n := ReadBack(s, now, aliasWins);
            && n.name == s.name && n.action == s.action && n.phase == s.phase
            && (Bulk(n) <==> Bulk(s))
            && (AimsAt(s, id) && id != "" && Trimmed(id) ==> AimsAt(n, id))
  {
    hide NormalizeSkillSession, Bulk, Trimmed;
    StoreKeeps(s, now, aliasWins, id);
    StoreKeeps(NormalizeSkillSession(s, now, aliasWins), now, aliasWins, id);
  }

  /** A session that comes back waiting stands for the question it stood for. */
  lemma BackAgrees(base: ActiveSession, s: SkillSession, now: int, aliasWins: bool, p: Outstanding)
    requires !base.skill.NoSkill? && s.name == base.skill && s.action == base.action
    requires Bulk(ToLegacy(base)) ==> Bulk(s)
    ensures var n := ToLegacy(FromLegacy(base, ReadBack(s, now, aliasWins)));
            && n.name == s.name && n.action == s.action
            && (n.phase.AwaitConfirmation? <==> base.asked || s.phase.AwaitConfirmation?)
            && (Agrees(s, p) ==> Agrees(n, p))
  {
    hide Bulk, Trimmed, ToLegacy, FromLegacy, ReadBack;
    var id := if p.target.One? then p.target.id else "";
    ReadBackKeeps(s, now, aliasWins, id);
    CarriedBack(base, ReadBack(s, now, aliasWins), id);
  }

  /** One executed turn on the converted session, as Confirmations promises it. */
  lemma TurnKeeps(a: ActiveSession, l: Ledger, turn: Turn, now: int, aliasWins: bool, needs: (Skill, Action) -> bool)
    requires Answerable(Some(a), l, needs)
    ensures var need := needs(a.skill, a.action);
            var e := Handle(ToLegacy(a), turn, a.skill, a.action, need);
            var n := AfterConfirm(l, e, a.skill, a.action, need, turn);
            && Answerable(Back(a, e.write, now, aliasWins), n, needs) && |l.offers| <= |n.offers|
            && (e.write.Save? ==> e.write.session.name == a.skill)
            && (!e.reply.Prompt? ==> n.offers == l.offers) && (!e.reply.Dispatched? ==> n.spent == l.spent)
  {
    hide Handle, Balanced, ToLegacy, FromLegacy, ReadBack, Bulk, Widens, Agrees, Prompted, Continued;
    var need := needs(a.skill, a.action);
    var s0 := ToLegacy(a);
    LegacyIs(a);
    var e := Handle(s0, turn, a.skill, a.action, need);
    TurnSafety(s0, turn, a.skill, a.action, need);
    var n := AfterConfirm(l, e, a.skill, a.action, need, turn);
    var target := if e.reply.Prompt? then e.reply.target else Everything;
    BalancedSteps(l, 0, ActOn(a.skill, a.action, target), ActiveTicket(n).steady, ActiveTicket(n).wide);
    BalancedSteps(l, 0, ActOn(a.skill, a.action, target), Prompted(target).steady, ActiveTicket(n).wide);
    if !e.write.Cleared? {
      TurnAgrees(a, l, turn, needs);
      ReturnKeeps(a, if e.write.Save? then e.write.session else s0, n, now, aliasWins, needs);
    } else {
      NoneWaits(l, needs);
    }
  }

  /** A session read back stands for the question that is open by then. */
  lemma ReturnKeeps(a: ActiveSession, s: SkillSession, n: Ledger, now: int, aliasWins: bool,
                    needs: (Skill, Action) -> bool)
    requires Confirmable(a.skill, a.action) && s.name == a.skill && s.action == a.action
    requires (Bulk(ToLegacy(a)) ==> Bulk(s)) && Balanced(n, 0)
    requires n.active.Some? <==> needs(a.skill, a.action) && (a.asked || s.phase.AwaitConfirmation?)
    requires n.active.Some? ==>
               && n.active.value.offer < |n.offers|
               && var o := n.offers[n.active.value.offer];
                  o.ActOn? && o.skill == a.skill && o.action == a.action && Agrees(s, Standing(o, n.active.value))
    ensures Answerable(Some(FromLegacy(a, ReadBack(s, now, aliasWins))), n, needs)
  {
    hide Balanced, ToLegacy, ReadBack, Bulk, Agrees;
    BackAgrees(a, s, now, aliasWins,
               if n.active.Some? then Standing(n.offers[n.active.value.offer], n.active.value)
               else Outstanding(Everything, false, false));
  }

  // ----------------------------------------------------- a parent in the borrowed slot

  /** The session of a resumed parent as it is read back from the slot. */
  function ParentBack(parent: Option<SuspendedTask>, finish: Finish, c: Chance): Option<SkillSession> {
    if BringsSession(parent, finish)
      then Some(ReadBack(Hydrate(parent.value.skill.value, finish.after), c.now, c.aliasWins))
    else None
  }

  /** What the call leaves of the active session: whatever the slot holds is taken for its own. */
  function After(base: ActiveSession, w: Write, came: Option<SkillSession>, c: Chance): Option<ActiveSession> {
    if came.Some? then Some(FromLegacy(base, came.value)) else Back(base, w, c.now, c.aliasWins)
  }

  /** An answered question is open once more: the session it was about came back waiting. */
  function Reopened(l: Ledger, next: ActiveSession): Ledger {
    AfterEdit(Spent(l).(active := l.active, copies := l.copies + 1), ToLegacy(next))
  }

  function AccountAfter(a: ActiveSession, l: Ledger, e: Effect, turn: Turn, need: bool, came: Option<SkillSession>)
    : Ledger
  {
    if need && came.Some? && Waits(FromLegacy(a, came.value)) then Reopened(l, FromLegacy(a, came.value))
    else AfterConfirm(l, e, a.skill, a.action, need, turn)
  }

  /** An exchange-delete session that takes over a parent keeps its own name, never covers everything,
      and waits if the model had asked or the parent waits for a confirmation itself. */
  lemma TakesOver(a: ActiveSession, s: SkillSession)
    requires a.skill.Exchange? && a.action.Delete?
    ensures var n := ToLegacy(FromLegacy(a, s));
            && n.name == a.skill && n.action == a.action && !Bulk(n)
            && (n.phase.AwaitConfirmation? <==> a.asked || s.phase.AwaitConfirmation?)
  {
    hide Trim, NonBlank;
  }

  lemma ParentKeeps(a: ActiveSession, l: Ledger, turn: Turn, came: SkillSession, needs: (Skill, Action) -> bool)
    requires Answerable(Some(a), l, needs) && a.skill.Exchange? && a.action.Delete?
    requires Handle(ToLegacy(a), turn, a.skill, a.action, needs(a.skill, a.action)).reply.Dispatched?
    ensures var e := Handle(ToLegacy(a), turn, a.skill, a.action, needs(a.skill, a.action));
            var n := AccountAfter(a, l, e, turn, needs(a.skill, a.action), Some(came));
            && Answerable(Some(FromLegacy(a, came)), n, needs) && n.offers == l.offers
  {
    hide Handle, Balanced, ToLegacy, FromLegacy, Bulk, Widens, Prompted, Continued, AimsAt, Reaches;
    var need := needs(a.skill, a.action);
    var next := FromLegacy(a, came);
    LegacyIs(a);
    TakesOver(a, came);
    KeepsItsOwn(a, came);
    TurnSafety(ToLegacy(a), turn, a.skill, a.action, need);
    BalancedSteps(l, 0, ActOn(Trader, Stop, Everything), false, false);
    TurnEntries(l, Handle(ToLegacy(a), turn, a.skill, a.action, need), a.skill, a.action, need, turn);
    if need {
      TurnActs(a, l, turn, needs);
      if Waits(next) {
        ReopenedKeeps(a, l, came, needs);
      }
    }
  }

  lemma ReopenedKeeps(a: ActiveSession, l: Ledger, came: SkillSession, needs: (Skill, Action) -> bool)
    requires Answerable(Some(a), l, needs) && a.skill.Exchange? && a.action.Delete? && l.active.Some?
    requires needs(a.skill, a.action) && Waits(FromLegacy(a, came))
    ensures Answerable(Some(FromLegacy(a, came)), Reopened(l, FromLegacy(a, came)), needs)
    ensures Reopened(l, FromLegacy(a, came)).offers == l.offers
  {
    hide Balanced, ToLegacy, FromLegacy, Bulk, AimsAt, OneHolder;
    var next := FromLegacy(a, came);
    LegacyIs(a);
    TakesOver(a, came);
    ReopenedBalanced(l, next);
    KeepsItsOwn(a, came);
  }

  /** What a turn promises of an action that needs confirming, from the session `a` and account `l` to
      `s` and `n`.  The tool is called exactly on a yes to an open question that reaches a target, on
      what the question was about, and the question is then answered.  The session survives a call
      exactly if a parent came into the slot, and the question is open again exactly if the model
      worded it or that parent waits for a confirmation. */
  ghost predicate Promised(a: ActiveSession, l: Ledger, worded: set<nat>, turn: Turn, e: Effect,
                           came: Option<SkillSession>, s: Option<ActiveSession>, n: Ledger)
  {
    && (e.ids != [] ==> e.reply.Dispatched?)
    && (e.reply.Dispatched? <==> Waits(a) && turn.isYes && Reaches(ToLegacy(a), turn))
    && (if e.reply.Dispatched? then
          && l.active.Some? && n.offers == l.offers && n.spent == l.spent + [l.active.value.offer]
          && CarriesOut(l, a.skill, a.action, turn, e.ids)
          && (s.Some? <==> came.Some?)
          && (s.Some? ==>
                (Waits(s.value) <==> l.active.value.offer in worded || came.value.phase.AwaitConfirmation?))
          && n.copies == l.copies + (if s.Some? && Waits(s.value) then 1 else 0)
          && (if s.Some? && Waits(s.value)
              then n.active.Some? && n.active.value.offer == l.active.value.offer
              else n.active.None?)
        else n.spent == l.spent && n.copies == l.copies)
    && (if e.reply.Prompt?
        then !Waits(a) && n == PromptedFor(l, a.skill, a.action, e.reply.target) && s.Some? && Waits(s.value)
        else n.offers == l.offers)
  }

  /** The open question is worded by the model exactly if the session says so. */
  ghost predicate WordedByModel(session: Option<ActiveSession>, l: Ledger, worded: set<nat>) {
    && (forall k :: k in worded ==> k < |l.offers|)
    && (session.Some? && l.active.Some? ==> (session.value.asked <==> l.active.value.offer in worded))
  }

  lemma TurnAccounted(a: ActiveSession, l: Ledger, worded: set<nat>, turn: Turn, came: Option<SkillSession>, c: Chance,
                      needs: (Skill, Action) -> bool)
    requires Answerable(Some(a), l, needs) && WordedByModel(Some(a), l, worded)
    requires came.Some? ==>
               && a.skill.Exchange? && a.action.Delete?
               && Handle(ToLegacy(a), turn, a.skill, a.action, needs(a.skill, a.action)).reply.Dispatched?
    ensures var need := needs(a.skill, a.action);
            var e := Handle(ToLegacy(a), turn, a.skill, a.action, need);
            var s, n := After(a, e.write, came, c), AccountAfter(a, l, e, turn, need, came);
            && Answerable(s, n, needs) && WordedByModel(s, n, worded)
            && (need ==> Promised(a, l, worded, turn, e, came, s, n))
  {
    hide Promised, Answerable, Handle, After, AccountAfter;
    if came.Some? {
      ParentAccounted(a, l, worded, turn, came.value, c, needs);
    } else {
      OwnAccounted(a, l, worded, turn, c, needs);
    }
  }

  lemma OwnAccounted(a: ActiveSession, l: Ledger, worded: set<nat>, turn: Turn, c: Chance,
                     needs: (Skill, Action) -> bool)
    requires Answerable(Some(a), l, needs) && WordedByModel(Some(a), l, worded)
    ensures var need := needs(a.skill, a.action);
            var e := Handle(ToLegacy(a), turn, a.skill, a.action, need);
            var s, n := After(a, e.write, None, c), AccountAfter(a, l, e, turn, need, None);
            && Answerable(s, n, needs) && WordedByModel(s, n, worded)
            && (need ==> Promised(a, l, worded, turn, e, None, s, n))
  {
    hide Handle, Answerable, ToLegacy, Reaches, Prompted, FromLegacy, ReadBack, CarriesOut, Waits, AfterConfirm;
    var need := needs(a.skill, a.action);
    var e := Handle(ToLegacy(a), turn, a.skill, a.action, need);
    TurnKeeps(a, l, turn, c.now, c.aliasWins, needs);
    TurnEntries(l, e, a.skill, a.action, need, turn);
    PromptIsNew(a, l, turn, needs);
    if need {
      TurnActs(a, l, turn, needs);
    }
    if !e.write.Cleared? {
      KeepsItsOwn(a, ReadBack(if e.write.Save? then e.write.session else ToLegacy(a), c.now, c.aliasWins));
    }
    OpenWaits(After(a, e.write, None, c), AccountAfter(a, l, e, turn, need, None), needs);
  }

  lemma PromptIsNew(a: ActiveSession, l: Ledger, turn: Turn, needs: (Skill, Action) -> bool)
    requires Answerable(Some(a), l, needs)
    ensures var e := Handle(ToLegacy(a), turn, a.skill, a.action, needs(a.skill, a.action));
            && (e.reply.Prompt? ==> needs(a.skill, a.action) && e.write.Save? && !Waits(a) && !a.asked)
            && (e.reply.Dispatched? ==> e.write.Cleared?)
  {
    hide Handle, Backed, ToLegacy;
    LegacyIs(a);
    TurnSafety(ToLegacy(a), turn, a.skill, a.action, needs(a.skill, a.action));
  }

  lemma ParentAccounted(a: ActiveSession, l: Ledger, worded: set<nat>, turn: Turn, came: SkillSession, c: Chance,
                        needs: (Skill, Action) -> bool)
    requires Answerable(Some(a), l, needs) && WordedByModel(Some(a), l, worded)
    requires a.skill.Exchange? && a.action.Delete?
    requires Handle(ToLegacy(a), turn, a.skill, a.action, needs(a.skill, a.action)).reply.Dispatched?
    ensures var need := needs(a.skill, a.action);
            var e := Handle(ToLegacy(a), turn, a.skill, a.action, need);
            var s, n := After(a, e.write, Some(came), c), AccountAfter(a, l, e, turn, need, Some(came));
            && Answerable(s, n, needs) && WordedByModel(s, n, worded)
            && (need ==> Promised(a, l, worded, turn, e, Some(came), s, n))
  {
    hide Handle, Answerable, ToLegacy, Reaches, Prompted, FromLegacy, ReadBack, CarriesOut, AfterConfirm, Reopened;
    var need := needs(a.skill, a.action);
    var e := Handle(ToLegacy(a), turn, a.skill, a.action, need);
    var next := FromLegacy(a, came);
    ParentKeeps(a, l, turn, came, needs);
    PromptIsNew(a, l, turn, needs);
    TurnEntries(l, e, a.skill, a.action, need, turn);
    TakesOver(a, came);
    KeepsItsOwn(a, came);
    if need {
      TurnActs(a, l, turn, needs);
      ReopenedIs(l, next);
    }
  }

  lemma KeepsItsOwn(a: ActiveSession, s: SkillSession)
    ensures var n := FromLegacy(a, s); n.skill == a.skill && n.action == a.action && n.asked == a.asked
  {
  }

  lemma ReopenedIs(l: Ledger, next: ActiveSession)
    requires l.active.Some?
    ensures var n := Reopened(l, next);
            && n.offers == l.offers && n.spent == l.spent + [l.active.value.offer] && n.copies == l.copies + 1
            && n.active.Some? && n.active.value.offer == l.active.value.offer
  {
    hide ToLegacy, StillOffered, Bulk;
  }

  lemma ReopenedBalanced(l: Ledger, next: ActiveSession)
    requires Balanced(l, 0) && l.active.Some?
    ensures Balanced(Reopened(l, next), 0)
  {
    hide OneHolder, StillOffered, Bulk, ToLegacy;
  }

  lemma LegacyIs(a: ActiveSession)
    ensures var s := ToLegacy(a);
            s.name == a.skill && s.action == a.action && (a.asked ==> s.phase.AwaitConfirmation?)
  {
  }

  /** What the handler saves stands for the question open after the turn. */
  lemma TurnAgrees(a: ActiveSession, l: Ledger, turn: Turn, needs: (Skill, Action) -> bool)
    requires Answerable(Some(a), l, needs)
    ensures var need := needs(a.skill, a.action);
            var s0 := ToLegacy(a);
            var e := Handle(s0, turn, a.skill, a.action, need);
            var s := if e.write.Save? then e.write.session else s0;
            var n := AfterConfirm(l, e, a.skill, a.action, need, turn);
            && (Bulk(s0) ==> Bulk(s))
            && (!e.write.Cleared? && n.active.Some? ==>
                  && n.active.value.offer < |n.offers|
                  && var o := n.offers[n.active.value.offer];
                     o.ActOn? && o.skill == a.skill && o.action == a.action && Agrees(s, Standing(o, n.active.value)))
  {
    hide Handle, Balanced, ToLegacy, Bulk, Widens, Agrees, Prompted, Continued;
    var need := needs(a.skill, a.action);
    var s0 := ToLegacy(a);
    LegacyIs(a);
    var e := Handle(s0, turn, a.skill, a.action, need);
    TurnSafety(s0, turn, a.skill, a.action, need);
    if e.reply.Prompt? {
      PromptNames(s0, turn, a.skill, a.action, need);
      PromptAgrees(e.write.session, e.reply.target);
    } else if l.active.Some? {
      SavedTurnAgrees(s0, turn, a.skill, a.action, Standing(l.offers[l.active.value.offer], l.active.value));
    }
  }

  /** A turn calls the tool exactly on a yes, while a question is open, that reaches a target; it acts
      on what that question was about while the session still stands for it. */
  lemma TurnActs(a: ActiveSession, l: Ledger, turn: Turn, needs: (Skill, Action) -> bool)
    requires Answerable(Some(a), l, needs) && needs(a.skill, a.action)
    ensures Waits(a) <==> l.active.Some?
    ensures var e := Handle(ToLegacy(a), turn, a.skill, a.action, true);
            && (e.reply.Dispatched? <==> Waits(a) && turn.isYes && Reaches(ToLegacy(a), turn))
            && (e.reply.Dispatched? ==> e.write.Cleared?)
            && (e.ids != [] ==> e.reply.Dispatched?)
            && (e.reply.Prompt? ==> e.write.Save? && l.active.None?)
            && (e.reply.Dispatched? ==> CarriesOut(l, a.skill, a.action, turn, e.ids))
  {
    hide Handle, Balanced, ToLegacy, Bulk, Widens, Agrees, Prompted, Continued, Reaches, Deletable;
    var s0 := ToLegacy(a);
    LegacyIs(a);
    TurnSafety(s0, turn, a.skill, a.action, true);
    if Waits(a) {
      DispatchIff(s0, turn);
      SavedTurnAgrees(s0, turn, a.skill, a.action, Standing(l.offers[l.active.value.offer], l.active.value));
    }
  }

  // ---------------------------------------------------------------------- the runs

  /** One user's active session beside the conversation whose skill slot its calls borrow. */
  class Brain {
    const run: Conversation
    var session: Option<ActiveSession>
    var calls: seq<ToolCall>
    ghost var ledger: Ledger
    /** The questions the model worded, by number; the handler worded the others. */
    ghost var worded: set<nat>

    ghost predicate Valid()
      reads this, run, run.contexts, run.contexts.stack, run.contexts.history
    {
      && run.Valid() && Answerable(session, ledger, run.needs)
      && WordedByModel(session, ledger, worded)
    }

    constructor (run: Conversation)
      requires run.Valid()
      ensures Valid() && this.run == run && session == None && calls == []
      ensures ledger == NO_OFFERS && worded == {}
    {
      this.run := run;
      session, calls, ledger, worded := None, [], NO_OFFERS, {};
      new;
      hide Backed, Saved, Shows, Refines, AllNormal, SkillSaved;
      NothingAsked(run.needs);
    }

    /** newActiveSkillSession: whatever was asked before is no longer open. */
    method Begin(skill: Skill, action: Action)
      requires Valid() && Confirmable(skill, action)
      modifies this`session, this`ledger
      ensures Valid() && ledger == Dropped(old(ledger))
      ensures session == Some(New(skill, action))
    {
      hide Backed, Answerable, Saved, Shows, Refines, AllNormal, SkillSaved;
      DropKeeps(session, ledger, skill, action, run.needs);
      session := Some(New(skill, action));
      ledger := Dropped(ledger);
    }

    /** mergeExtractedData: the open question stays open, and is still about what a yes will act on
        exactly while the session aims at the one target it was about. */
    method Extract(x: Extraction)
      requires Valid() && session.Some?
      modifies this`session, this`ledger
      ensures Valid() && session == Some(Merged(old(session).value, Allowed(old(session).value, x)))
      ensures Waits(session.value) == Waits(old(session).value)
      ensures ledger.offers == old(ledger).offers && ledger.spent == old(ledger).spent
      ensures ledger == AfterEdit(old(ledger), ToLegacy(session.value))
    {
      hide Backed, Answerable, Saved, Shows, Refines, AllNormal, SkillSaved, NonBlank;
      var kept := Allowed(session.value, x);
      ExtractKeeps(session.value, kept, ledger, run.needs);
      session := Some(Merged(session.value, kept));
      ledger := AfterEdit(ledger, ToLegacy(session.value));
    }

    /** The ask_user route: with nothing missing, whatever the model asks opens the confirmation. */
    method AskUser() returns (asks: bool)
      requires Valid() && session.Some?
      modifies this`session, this`ledger, this`worded
      ensures Valid() && session.Some? && ledger.spent == old(ledger).spent
      ensures var a := old(session).value; asks == (NothingMissing(a) && run.needs(a.skill, a.action))
      ensures asks ==>
                && session.value == old(session).value.(phase := AwaitConfirmation, asked := true)
                && Waits(session.value) && ledger == AskedAbout(old(session).value, old(ledger))
                && worded == old(worded) + {|old(ledger).offers|}
      ensures !asks ==> session == old(session) && ledger == old(ledger) && worded == old(worded)
    {
      hide Backed, Answerable, Saved, Shows, Refines, AllNormal, SkillSaved, NonBlank;
      var a := session.value;
      asks := NothingMissing(a) && run.needs(a.skill, a.action);
      if asks {
        AskKeeps(a, ledger, run.needs);
        worded := worded + {|ledger.offers|};
        ledger := AskedAbout(a, ledger);
        session := Some(a.(phase := AwaitConfirmation, asked := true));
      }
    }

    /** executeActiveSkillSession: one skill turn on the converted session.  The tool is called exactly
        on a yes to an open question that reaches a target, and that question is then answered.  The
        session is gone after a call unless a parent resumed into the borrowed slot: then the session
        goes on with the parent's fields, and the question is open again exactly if the model worded
        it or the parent waits for a confirmation.  The skill slot comes out empty. */
    method ExecuteSkill(turn: Turn, c: Chance) returns (reply: Reply)
      requires Valid() && session.Some? && run.contexts.stack.clock <= c.now
      modifies this`session, this`calls, this`ledger
      modifies run`ledger, run.contexts`skill, run.contexts.stack, run.contexts.history
      ensures Valid() && run.contexts.skill == None && run.contexts.stack.clock <= c.now
      ensures var a := old(session).value;
              var v := old(run.Shown(c.now));
              var parent := if reply.Dispatched? then ParentAfter(turn, a.skill, a.action, v) else None;
              var came := ParentBack(parent, turn.finish, c);
              var e := Handle(ToLegacy(a), turn, a.skill, a.action, run.needs(a.skill, a.action));
              && reply == e.reply && calls == old(calls) + Calls(a.skill, a.action, e.ids)
              && session == After(a, e.write, came, c)
              && StackAfter(parent, c.now, old(run.contexts.stack.stored), run.contexts.stack.stored)
              && run.ledger == Dropped(Entrusted(Dropped(old(run.ledger)), parent, turn.finish, run.needs))
              && (run.needs(a.skill, a.action) ==>
                    Promised(a, old(ledger), worded, turn, e, came, session, ledger))
    {
      hide Handle, Answerable, ToLegacy, FromLegacy, ReadBack, Promised, AccountAfter, WordedByModel;
      hide Conversation.Valid, Hydrate, Visible, Entrusted;
      var a := session.value;
      SessionIs(a, ledger, run.needs);
      ghost var v := run.Shown(c.now);
      var e, updated := CallHandler(ToLegacy(a), turn, c);
      ghost var parent := if e.reply.Dispatched? then ParentAfter(turn, a.skill, a.action, v) else None;
      ghost var came := ParentBack(parent, turn.finish, c);
      TurnAccounted(a, ledger, worded, turn, came, c, run.needs);
      reply := e.reply;
      calls := calls + Calls(a.skill, a.action, e.ids);
      session := if updated.Some? then Some(FromLegacy(a, updated.value)) else None;
      ledger := AccountAfter(a, ledger, e, turn, run.needs(a.skill, a.action), came);
    }

    /** Two replies to one open question, the first of which calls the tool.  The second answers the same
        question again exactly when a parent resumed into the slot, the model worded the question or
        the parent waits for a confirmation, and it is a yes that reaches a target with what is kept
        of the session. */
    method AnswerTwice(first: Turn, second: Turn, c: Chance, d: Chance)
      requires Valid() && session.Some? && run.contexts.stack.clock <= c.now <= d.now
      requires var a := session.value;
               run.needs(a.skill, a.action) && Waits(a) && first.isYes && Reaches(ToLegacy(a), first)
      modifies this`session, this`calls, this`ledger
      modifies run`ledger, run.contexts`skill, run.contexts.stack, run.contexts.history
      ensures Valid() && old(ledger).active.Some?
      ensures var a := old(session).value;
              var k := old(ledger).active.value.offer;
              var came := ParentBack(ParentAfter(first, a.skill, a.action, old(run.Shown(c.now))), first.finish, c);
              var once := Handle(ToLegacy(a), first, a.skill, a.action, true).ids;
              if && came.Some? && (k in worded || came.value.phase.AwaitConfirmation?)
                 && second.isYes && Reaches(ToLegacy(FromLegacy(a, came.value)), second)
              then
                && ledger.spent == old(ledger).spent + [k, k]
                && calls == old(calls) + Calls(a.skill, a.action, once)
                            + Calls(a.skill, a.action,
                                    Handle(ToLegacy(FromLegacy(a, came.value)), second, a.skill, a.action, true).ids)
              else ledger.spent == old(ledger).spent + [k] && calls == old(calls) + Calls(a.skill, a.action, once)
    {
      hide Handle, Answerable, ToLegacy, FromLegacy, ReadBack, CarriesOut, Reaches, Conversation.Valid, Visible;
      hide Entrusted, WordedByModel, Hydrate, Waits;
      var a := session.value;
      ghost var shown := run.Shown(c.now);
      var once := ExecuteSkill(first, c);
      if session.Some? {
        KeepsItsOwn(a, ParentBack(ParentAfter(first, a.skill, a.action, shown), first.finish, c).value);
        var twice := ExecuteSkill(second, d);
      }
    }

    /** The call in the middle: the converted session goes into the skill slot, the handler runs on it,
        a triggered parent may resume into the slot, and what the slot holds is read back and
        cleared: a parent that resumed is gone from the conversation. */
    method CallHandler(legacy: SkillSession, turn: Turn, c: Chance) returns (e: Effect, updated: Option<SkillSession>)
      requires run.Valid() && Confirmable(legacy.name, legacy.action) && run.contexts.stack.clock <= c.now
      modifies run`ledger, run.contexts`skill, run.contexts.stack, run.contexts.history
      ensures run.Valid() && run.contexts.skill == None && run.contexts.stack.clock <= c.now
      ensures e == Handle(legacy, turn, legacy.name, legacy.action, run.needs(legacy.name, legacy.action))
      ensures var v := old(run.Shown(c.now));
              var parent := if e.reply.Dispatched? then ParentAfter(turn, legacy.name, legacy.action, v) else None;
              var came := ParentBack(parent, turn.finish, c);
              && run.ledger == Dropped(Entrusted(Dropped(old(run.ledger)), parent, turn.finish, run.needs))
              && StackAfter(parent, c.now, old(run.contexts.stack.stored), run.contexts.stack.stored)
              && if came.Some? then updated == came
                 else match e.write
                      case Cleared => updated == None
                      case Untouched => updated == Some(ReadBack(legacy, c.now, c.aliasWins))
                      case Save(s) => updated == Some(ReadBack(s, c.now, c.aliasWins))
    {
      hide Handle, Backed, Saved, Shows, Refines, AllNormal, NormalizeSkillSession, SkillSaved, Bulk, Widens;
      hide Hydrate, Taken, AfterEdit, Visible, Lossless;
      NothingWaits(run.needs);
      ReplaceKeepsBacked(run.contexts.skill, run.contexts.stack.stored, run.ledger, None, run.needs);
      var need := run.needs(legacy.name, legacy.action);
      TurnSafety(legacy, turn, legacy.name, legacy.action, need);
      run.contexts.SaveSkill(legacy, c.now, c.aliasWins);
      var ends;
      e, ends := HandleSimpleEntitySkill(legacy, turn, legacy.name, legacy.action, need);
      if e.write.Save? {
        run.contexts.SaveSkill(e.write.session, c.now, c.aliasWins);
      } else if e.write.Cleared? {
        run.contexts.ClearSkill();
      }
      if ends {
        run.ledger := Dropped(run.ledger);
        var resumed := run.ResumeParent(EXCHANGE_CHILD, turn.finish.answer, turn.finish.after, c);
        updated := ReadSlot(c);
        run.Cancel();
      } else {
        updated := ReadSlot(c);
        run.contexts.ClearSkill();
        run.ledger := Dropped(run.ledger);
      }
    }

    /** getSkillSession. */
    method ReadSlot(c: Chance) returns (stored: Option<SkillSession>)
      ensures stored == if run.contexts.skill.None? then None
                        else Some(NormalizeSkillSession(run.contexts.skill.value, c.now, c.aliasWins))
    {
      stored := None;
      if run.contexts.skill.Some? {
        stored := Some(NormalizeSkillSession(run.contexts.skill.value, c.now, c.aliasWins));
      }
    }

    /** clearActiveSkillSession, as cancelling or finishing the task does. */
    method Drop()
      requires Valid()
      modifies this`session, this`ledger
      ensures Valid() && session == None && ledger == Dropped(old(ledger))
    {
      hide Backed, Answerable, Saved, Shows, Refines, AllNormal, SkillSaved;
      DropKeeps(session, ledger, Trader, Stop, run.needs);
      session, ledger := None, Dropped(ledger);
    }

    /** Over both paths together, what was carried out stays within what was put to the user, up to
        the copies: on the stack those a restore leaves behind, here the answered questions that a
        resumed parent opened again.  Without one of these each question here is answered at most
        once. */
    lemma BothWithinOffers()
      requires Valid()
      ensures |ledger.spent| <= |ledger.offers| + ledger.copies
      ensures ledger.copies == 0 ==> forall i, j :: 0 <= i < j < |ledger.spent| ==> ledger.spent[i] != ledger.spent[j]
      ensures |run.ledger.spent| + |ledger.spent|
              <= |run.ledger.offers| + |ledger.offers| + run.ledger.copies + ledger.copies
    {
      hide ActiveBacked, StackBacked, CountGuarded;
      run.DispatchesWithinOffers();
      SpentWithinOffers(if session.Some? then Some(ToLegacy(session.value)) else None, [], ledger, run.needs);
    }
  }

  lemma OpenWaits(session: Option<ActiveSession>, l: Ledger, needs: (Skill, Action) -> bool)
    requires Answerable(session, l, needs)
    ensures l.active.Some? ==> session.Some? && Waits(session.value)
  {
    hide ToLegacy, Backs, Balanced;
    if session.Some? {
      LegacyIs(session.value);
    }
  }

  lemma SessionIs(a: ActiveSession, l: Ledger, needs: (Skill, Action) -> bool)
    requires Answerable(Some(a), l, needs)
    ensures Confirmable(a.skill, a.action) && ToLegacy(a).name == a.skill && ToLegacy(a).action == a.action
  {
  }

  /** No handler ever named the target: an id is extracted, the model asks something, and a yes calls
      the tool on that id.  The only question on the account is the model's. */
  method WordedQuestionSuffices(run: Conversation, skill: Skill, action: Action, id: string, yes: Turn,
                                c: Chance)
    returns (brain: Brain)
    requires run.contexts.stack.clock <= c.now
    requires run.Valid() && Confirmable(skill, action) && run.needs(skill, action)
    requires TargetRequired(skill, action) && yes.isYes && !yes.meansAll && StillListed(yes.options, id)
    modifies run`ledger, run.contexts`skill, run.contexts.stack, run.contexts.history
    ensures brain.Valid() && brain.calls == Calls(skill, action, [id])
    ensures |brain.ledger.offers| == 1 && brain.worded == {0} && brain.ledger.spent == [0]
  {
    hide Handle, Backed, Saved, Shows, Refines, AllNormal, SkillSaved, Answerable, StillListed, Bulk, Reaches;
    hide Prompted, NonBlank, CarriesOut;
    ListedId(yes.options, id);
    brain := new Brain(run);
    brain.Begin(skill, action);
    brain.Extract(Extraction(Some(id), None, map[]));
    ghost var a := Merged(New(skill, action), Extraction(Some(id), None, map[]));
    NewAims(skill, action, id);
    var asks := brain.AskUser();
    ghost var s := ToLegacy(brain.session.value);
    LegacyIs(brain.session.value);
    ListedReaches(s, yes, id);
    DispatchFollowsAim(s, yes, id);
    var reply := brain.ExecuteSkill(yes, c);
  }

  lemma ListedId(options: seq<TargetOption>, id: string)
    requires StillListed(options, id)
    ensures id != "" && Trimmed(id) && Trim(id) == id
  {
    TrimLaws(id);
  }

  lemma NewAims(skill: Skill, action: Action, id: string)
    requires Trim(id) == id && id != ""
    ensures var a := Merged(New(skill, action), Extraction(Some(id), None, map[]));
            && HasTarget(a) && AimOf(a) == One(id)
            && var s := ToLegacy(a.(phase := AwaitConfirmation, asked := true)); AimsAt(s, id) && !Bulk(s)
  {
    hide Trim;
  }

  /** A waiting session without a target takes the one the reply names, and goes on waiting. */
  lemma NamingWaits(s0: SkillSession, turn: Turn, id: string)
    requires Confirmable(s0.name, s0.action) && Pending(s0) && s0.targetRef.None? && StepText(s0) == ""
    requires !Bulk(s0) && !Widens(s0, turn) && !turn.isYes && StillListed(turn.options, id)
    requires var ref := Resolve(turn.text, turn.options, None); ref.Some? && ref.value.id == id
    ensures var e := Handle(s0, turn, s0.name, s0.action, true);
            e.reply.StillWaiting? && e.write.Save? && AimsAt(e.write.session, id) && !Bulk(e.write.session)
  {
    hide Trim, Resolve, LiveTarget, TextAt, SetField, StillListed, Deletable;
    var t := Targeted(s0, turn);
    TargetKept(t.targetRef.value, turn.text, turn.options);
    BulkAfterStepAll();
    BulkOfTarget(s0, t);
    BulkOfTarget(t, t.(targetRef := LiveTarget(t.targetRef, turn.options)));
  }

  /** The skill table requires nothing for deleting a trader, so even the question which trader is
      meant opens the confirmation: a reply naming one and a yes delete it, and nothing ever named
      it to the user for confirmation. */
  method WhichTraderSuffices(run: Conversation, id: string, named: Turn, yes: Turn, c: Chance)
    returns (brain: Brain)
    requires run.contexts.stack.clock <= c.now
    requires run.Valid() && run.needs(Trader, Delete)
    requires !named.isYes && !named.meansAll && StillListed(named.options, id)
    requires var ref := Resolve(named.text, named.options, None); ref.Some? && ref.value.id == id
    requires yes.isYes && !yes.meansAll && StillListed(yes.options, id)
    modifies run`ledger, run.contexts`skill, run.contexts.stack, run.contexts.history
    ensures brain.Valid() && brain.calls == Calls(Trader, Delete, [id])
    ensures |brain.ledger.offers| == 1 && brain.worded == {0} && brain.ledger.spent == [0]
  {
    hide Handle, Backed, Saved, Shows, Refines, AllNormal, SkillSaved, Answerable, StillListed, Bulk, Reaches;
    hide Prompted, NonBlank, Resolve, FromLegacy, ReadBack, ToLegacy, Continued, Deletable, Conversation.Valid;
    brain := new Brain(run);
    brain.Begin(Trader, Delete);
    var asks := brain.AskUser();
    ghost var a := brain.session.value;
    NewTargets();
    NamingWaits(ToLegacy(a), named, id);
    ListedId(yes.options, id);
    var waiting := brain.ExecuteSkill(named, c);
    ghost var saved := Handle(ToLegacy(a), named, Trader, Delete, true).write.session;
    TurnSafety(ToLegacy(a), named, Trader, Delete, true);
    ReadBackKeeps(saved, c.now, c.aliasWins, id);
    CarriedBack(a, ReadBack(saved, c.now, c.aliasWins), id);
    ghost var s := ToLegacy(brain.session.value);
    LegacyIs(brain.session.value);
    ListedReaches(s, yes, id);
    DispatchFollowsAim(s, yes, id);
    var reply := brain.ExecuteSkill(yes, c);
  }

  lemma NewTargets()
    ensures var a := New(Trader, Delete).(phase := AwaitConfirmation, asked := true);
            var s := ToLegacy(a);
            && s.name.Trader? && s.action.Delete? && Pending(s) && s.targetRef.None? && StepText(s) == "" && !Bulk(s)
  {
    hide Trim;
    TrimLaws("");
  }

  /** The snapshot of a trader draft that was only begun: a parent that an exchange task triggers. */
  lemma BegunDraft(s: SkillSession, hint: string, c: Chance)
    requires SkillSaved(s) && s.name.Trader? && s.action.Create? && s.targetRef.None?
    ensures var x := Contexts(Some(s), None, None, []);
            var t := Settled(Build(x, hint, c), c);
            && AnythingActive(x) && t.suspendedAt == Since(c.now)
            && t.resumeOnSuccess && EXCHANGE_CHILD in t.resumeTriggers
            && t.skill.Some? && t.skill.value.targetRef.None?
  {
    hide Build, Settled, NormalizeSkillSession, NormalizeSlots, WorkflowActive, ExecutionActive, Trim;
    var x := Contexts(Some(s), None, None, []);
    NoOthersActive();
    assert Saved(x);
    SnapshotHolds(x, hint, c);
    SkillReadBack(Some(s), c);
    StoreKeepsNoTarget(s, c.now, c.aliasWins);
    StoreKeeps(s, c.now, c.aliasWins, "");
    ParentTriggers();
  }

  lemma ParentTriggers()
    ensures Clean(PARENT_TRIGGERS) == PARENT_TRIGGERS && EXCHANGE_CHILD in PARENT_TRIGGERS
  {
    hide Trim, Clean;
    var a, b, d := PARENT_TRIGGERS[0], PARENT_TRIGGERS[1], PARENT_TRIGGERS[2];
    assert a == EXCHANGE_CHILD;
    LowerKeepsLength(a);
    LowerKeepsLength(b);
    LowerKeepsLength(d);
    assert Lower(a)[0] == 'e' && Lower(d)[0] == 's';
    CleanFixed(PARENT_TRIGGERS);
  }

  /** A parent without a target leaves the session aiming where it aimed, whatever else it brings. */
  lemma AimSurvives(a: ActiveSession, parent: SkillSession, after: Catalog, c: Chance)
    requires parent.targetRef.None?
    ensures var next := FromLegacy(a, ReadBack(Hydrate(parent, after), c.now, c.aliasWins));
            next.refId == a.refId && next.refName == a.refName
  {
    hide NormalizeSkillSession, Hydrate, NonBlank, Trim;
    var h := Hydrate(parent, after);
    HydrateLeaves(parent, after);
    StoreKeepsNoTarget(h, c.now, c.aliasWins);
    StoreKeepsNoTarget(NormalizeSkillSession(h, c.now, c.aliasWins), c.now, c.aliasWins);
  }

  /** The session about the exchange `id` by the name `name` after the model's question. */
  function AskedExchange(id: string, name: string): ActiveSession {
    Merged(New(Exchange, Delete), Extraction(Some(id), Some(name), map[])).(phase := AwaitConfirmation, asked := true)
  }

  /** A trader draft is begun and suspended, and then the model asks about deleting an exchange. */
  method AskBesideDraft(id: string, name: string, hint: string, c: Chance, needs: (Skill, Action) -> bool)
    returns (brain: Brain, ghost parent: SuspendedTask)
    requires needs(Exchange, Delete) && id != "" && Trim(id) == id
    ensures fresh(brain) && fresh(brain.run) && fresh(brain.run.contexts) && fresh(brain.run.contexts.stack)
            && fresh(brain.run.contexts.history)
    ensures brain.Valid() && brain.run.needs == needs && brain.run.contexts.stack.clock <= c.now
    ensures brain.session == Some(AskedExchange(id, name)) && brain.calls == [] && brain.worded == {0}
    ensures |brain.ledger.offers| == 1 && brain.ledger.active.Some? && brain.ledger.active.value.offer == 0
    ensures brain.ledger.spent == [] && brain.ledger.copies == 0 && brain.run.ledger == NO_OFFERS
    ensures brain.run.Shown(c.now) == [parent] && Triggered([parent], EXCHANGE_CHILD)
    ensures parent.skill.Some? && parent.skill.value.targetRef.None?
  {
    hide Answerable, Conversation.Valid, Visible, Build, Settled, NonBlank, Trim, SkillSaved, Bulk, AnythingActive;
    hide NormalizeSkillSession, WordedByModel, Prompted;
    var run := new Conversation(0, 0, c.now, needs);
    DraftBegins(c, needs);
    run.Store(Fresh(Trader, Create), c.now, c.aliasWins);
    BegunDraft(run.contexts.skill.value, hint, c);
    parent := Settled(Build(run.contexts.View(), hint, c), c);
    LoneEntry(parent, c.now, c.now);
    UnusedAtFirst(c.snapshotId);
    var suspended := run.Suspend(hint, c);
    brain := new Brain(run);
    brain.Begin(Exchange, Delete);
    brain.Extract(Extraction(Some(id), Some(name), map[]));
    var asks := brain.AskUser();
  }

  lemma NothingShown(now: int)
    ensures Visible([], now) == []
  {
  }

  lemma EntrustedCopies(l: Ledger, parent: SuspendedTask, finish: Finish, needs: (Skill, Action) -> bool)
    ensures Entrusted(Dropped(l), Some(parent), finish, needs).copies == l.copies
  {
    hide StillOffered, Bulk, Hydrate;
  }

  lemma UnusedAtFirst(name: string)
    ensures Unused(name, [], NO_OFFERS)
  {
  }

  /** One question, two deletions: with the draft suspended, a yes deletes the exchange the model asked
      about.  The draft resumes into the slot, so the question stays open, and the next yes deletes
      the exchange that goes by the kept name now. */
  method OneQuestionTwoExchanges(id: string, name: string, other: string, hint: string, first: Turn, second: Turn,
                                 c: Chance, d: Chance, needs: (Skill, Action) -> bool)
    returns (brain: Brain)
    requires needs(Exchange, Delete) && c.now <= d.now
    requires first.isYes && first.finish.Done? && StillListed(first.options, id)
    requires second.isYes && StillListed(second.options, other)
    requires forall i :: 0 <= i < |second.options| ==>
               !Answers(second.options[i], id) && second.options[i].id != id
    requires var o := OptionByIdOrName(second.options, Trim(name)); o.Some? && o.value.id == other
    ensures brain.Valid() && brain.calls == Calls(Exchange, Delete, [id]) + Calls(Exchange, Delete, [other])
    ensures |brain.ledger.offers| == 1 && brain.worded == {0} && brain.ledger.spent == [0, 0]
    ensures brain.ledger.copies == 1 && brain.run.ledger.copies == 0
  {
    hide Handle, Answerable, FromLegacy, ReadBack, Reaches, Conversation.Valid, Visible, CarriesOut, ToLegacy;
    hide WordedByModel, Hydrate, NonBlank, StillListed, Answers, Trim, Bulk, Waits, Merged, Triggered, Calls;
    hide OptionByIdOrName, NormalizeSkillSession, Taken, AfterEdit;
    ghost var parent;
    ListedId(first.options, id);
    brain, parent := AskBesideDraft(id, name, hint, c, needs);
    NamedAims(first, id, name);
    EntrustedCopies(NO_OFFERS, parent, first.finish, needs);
    var once := brain.ExecuteSkill(first, c);
    NothingShown(d.now);
    KeptAims(second, id, name, other, parent.skill.value, first.finish.after, c);
    var twice := brain.ExecuteSkill(second, d);
  }

  lemma DraftBegins(c: Chance, needs: (Skill, Action) -> bool)
    ensures var s := Fresh(Trader, Create);
            && DraftSound(Some(s)) && !Guarded(s, needs)
            && var n := NormalizeSkillSession(s, c.now, c.aliasWins);
               SkillSaved(n) && n.name.Trader? && n.action.Create? && n.targetRef.None?
  {
    hide NormalizeSkillSession;
    var s := Fresh(Trader, Create);
    CollectingIsQuiet(s, needs);
    SavedByPass(s, c.now, c.aliasWins);
    StoreKeeps(s, c.now, c.aliasWins, "");
    StoreKeepsNoTarget(s, c.now, c.aliasWins);
  }

  /** The first yes deletes the exchange asked about. */
  lemma NamedAims(first: Turn, id: string, name: string)
    requires first.isYes && StillListed(first.options, id)
    ensures var a := AskedExchange(id, name);
            && a.skill == Exchange && a.action == Delete && Waits(a) && Reaches(ToLegacy(a), first)
            && Handle(ToLegacy(a), first, Exchange, Delete, true).ids == [id]
  {
    hide Trim, NonBlank, Handle, Reaches, StillListed;
    ListedId(first.options, id);
    var s := ToLegacy(AskedExchange(id, name));
    ListedReaches(s, first, id);
    DispatchFollowsAim(s, first, id);
  }

  /** After the draft has come back, the kept name is enough for the second. */
  lemma KeptAims(second: Turn, id: string, name: string, other: string, parent: SkillSession, after: Catalog, c: Chance)
    requires parent.targetRef.None? && id != "" && Trim(id) == id
    requires second.isYes && StillListed(second.options, other)
    requires forall i :: 0 <= i < |second.options| ==>
               !Answers(second.options[i], id) && second.options[i].id != id
    requires var o := OptionByIdOrName(second.options, Trim(name)); o.Some? && o.value.id == other
    ensures var next := FromLegacy(AskedExchange(id, name), ReadBack(Hydrate(parent, after), c.now, c.aliasWins));
            && next.skill == Exchange && next.action == Delete && Waits(next) && Reaches(ToLegacy(next), second)
            && Handle(ToLegacy(next), second, Exchange, Delete, true).ids == [other]
  {
    hide Trim, NonBlank, Handle, Reaches, StillListed, FromLegacy, ReadBack, Hydrate, Answers, OptionByIdOrName;
    var a := AskedExchange(id, name);
    var came := ReadBack(Hydrate(parent, after), c.now, c.aliasWins);
    AimSurvives(a, parent, after, c);
    KeepsItsOwn(a, came);
    TakesOver(a, came);
    NameOutlivesId(ToLegacy(FromLegacy(a, came)), second, other);
  }
}
