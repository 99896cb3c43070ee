/** The multi-turn confirmation machine behind every start, stop and delete:
    target resolution, the prompt, the wait and the one dispatch
    (agent/skill_management_handlers.go, skill_execution_handlers.go, skill_runner.go). */
module Confirmations {
  import opened Seqs
  import opened Text
  import opened Records
  import opened SkillSessions

  datatype TargetOption = TargetOption(id: string, name: string, hint: string)

  /** The stored options a turn can see. */
  datatype Catalog = Catalog(exchanges: seq<TargetOption>, models: seq<TargetOption>, strategies: seq<TargetOption>)

  // -------------------------------------------------------- option look-ups

  predicate Answers(o: TargetOption, query: string) {
    o.id == query || Lower(o.name) == Lower(query) || Lower(o.hint) == Lower(query)
  }

  /** An option answers to its id, and to its name and hint whatever their case. */
  lemma AnswersTo(o: TargetOption, query: string)
    ensures query == o.id ==> Answers(o, query)
    ensures Lower(query) == Lower(o.name) ==> Answers(o, query)
    ensures Lower(query) == Lower(o.hint) ==> Answers(o, query)
    ensures query != o.id && Lower(query) != Lower(o.name) && Lower(query) != Lower(o.hint) ==> !Answers(o, query)
  {
  }

  /** An option overlaps a query if its name, hint or id, trimmed and in small letters, is not blank and
      contains the query or is contained in it. */
  lemma TouchesIf(o: TargetOption, query: string)
    ensures var texts := [Lower(Trim(o.name)), Lower(Trim(o.hint)), Lower(Trim(o.id))];
            Touches(o, query) <==>
            exists i :: 0 <= i < 3 && texts[i] != "" && (ContainsText(texts[i], query) || ContainsText(query, texts[i]))
  {
    hide Lower, Trim, ContainsText;
    var texts := [Lower(Trim(o.name)), Lower(Trim(o.hint)), Lower(Trim(o.id))];
    assert Touches(o, query) <==>
           Overlaps(texts[0], query) || Overlaps(texts[1], query) || Overlaps(texts[2], query);
  }

  /** The first option whose id, name or hint is the query. */
  function FirstAnswering(options: seq<TargetOption>, query: string): Option<TargetOption> {
    if options == [] then None
    else if Answers(options[0], query) then Some(options[0])
    else FirstAnswering(options[1..], query)
  }

  function OptionByIdOrName(options: seq<TargetOption>, query: string): Option<TargetOption> {
    var q := Trim(query);
    if q == "" then None else FirstAnswering(options, q)
  }

  predicate Overlaps(a: string, b: string) {
    a != "" && (ContainsText(a, b) || ContainsText(b, a))
  }

  predicate Touches(o: TargetOption, query: string) {
    Overlaps(Lower(Trim(o.name)), query) || Overlaps(Lower(Trim(o.hint)), query) || Overlaps(Lower(Trim(o.id)), query)
  }

  /** The one option overlapping the query, if exactly one does. */
  function UniqueContaining(options: seq<TargetOption>, query: string): Option<TargetOption> {
    var q := Lower(Trim(query));
    var matches := Keep((o: TargetOption) => Touches(o, q), options);
    if q == "" || |matches| != 1 then None else Some(matches[0])
  }

  lemma {:induction false} FirstAnsweringSkips(options: seq<TargetOption>, k: nat, query: string)
    requires k < |options| && Answers(options[k], query)
    requires forall j :: 0 <= j < k ==> !Answers(options[j], query)
    ensures FirstAnswering(options, query) == Some(options[k])
  {
    if k > 0 {
      FirstAnsweringSkips(options[1..], k - 1, query);
    }
  }

  lemma {:induction false} NoneAnswers(options: seq<TargetOption>, query: string)
    requires forall j :: 0 <= j < |options| ==> !Answers(options[j], query)
    ensures FirstAnswering(options, query) == None
  {
    if options != [] {
      NoneAnswers(options[1..], query);
    }
  }

  /** The scan of findOptionByIDOrName. */
  method FindOptionByIdOrName(options: seq<TargetOption>, query: string) returns (r: Option<TargetOption>)
    ensures r == OptionByIdOrName(options, query)
  {
    hide Answers, Trim;
    var q := Trim(query);
    if q == "" {
      return None;
    }
    for i := 0 to |options|
      invariant forall j :: 0 <= j < i ==> !Answers(options[j], q)
    {
      if Answers(options[i], q) {
        FirstAnsweringSkips(options, i, q);
        return Some(options[i]);
      }
    }
    NoneAnswers(options, q);
    return None;
  }

  /** The scan of findUniqueContainingOption. */
  method FindUniqueContainingOption(options: seq<TargetOption>, query: string) returns (r: Option<TargetOption>)
    ensures r == UniqueContaining(options, query)
  {
    hide Touches, Trim, Lower;
    var q := Lower(Trim(query));
    if q == "" {
      return None;
    }
    ghost var p := (o: TargetOption) => Touches(o, q);
    var matches := [];
    for i := 0 to |options|
      invariant matches == Keep(p, options[..i])
    {
      assert options[..i + 1][..i] == options[..i];
      if Touches(options[i], q) {
        matches := matches + [options[i]];
      }
    }
    assert options[..|options|] == options;
    if |matches| != 1 {
      return None;
    }
    return Some(matches[0]);
  }

  // ------------------------------------------------------------ target references

  function Reference(o: TargetOption, source: string): EntityReference {
    EntityReference(o.id, o.name, source, Unstamped)
  }

  function OrElse(value: string, fallback: string): string {
    if Trim(value) == "" then Trim(fallback) else Trim(value)
  }

  /** The value, trimmed, unless it is blank: then the fallback. */
  lemma ElseFallback(value: string, fallback: string)
    ensures Trim(value) != "" ==> OrElse(value, fallback) == Trim(value)
    ensures Trim(value) == "" ==> OrElse(value, fallback) == Trim(fallback)
  {
    hide Trim;
  }

  /** The option carrying exactly this id, if any. */
  function OptionWithId(options: seq<TargetOption>, id: string): Option<TargetOption> {
    if options == [] then None
    else if options[0].id == id then Some(options[0])
    else OptionWithId(options[1..], id)
  }

  function Found(options: seq<TargetOption>, query: string): Option<TargetOption> {
    var exact := OptionByIdOrName(options, query);
    if exact.Some? then exact else UniqueContaining(options, query)
  }

  /** resolveTargetSelection's reference. */
  function Resolve(text: string, options: seq<TargetOption>,
                   existing: Option<EntityReference>): Option<EntityReference> {
    var byId := if existing.Some? && Trim(existing.value.id) != "" then OptionWithId(options, existing.value.id)
      else None;
    if byId.Some? then
      Some(EntityReference(byId.value.id, OrElse(byId.value.name, existing.value.name), existing.value.source,
                           Unstamped))
    else
      var byName := if existing.Some? && Trim(existing.value.name) != "" then Found(options, existing.value.name)
        else None;
      if byName.Some? then Some(Reference(byName.value, existing.value.source))
      else
        var said := Found(options, text);
        if said.Some? then Some(Reference(said.value, "user_mention")) else None
  }

  /** ensureLiveTargetReference: the option the stored reference still stands for. */
  function LiveOption(ref: EntityReference, options: seq<TargetOption>): Option<TargetOption> {
    var byId := OptionByIdOrName(options, ref.id);
    if byId.Some? then byId
    else Found(options, ref.name)
  }

  function LiveTarget(ref: Option<EntityReference>, options: seq<TargetOption>): Option<EntityReference> {
    if ref.None? then None
    else
      var live := LiveOption(ref.value, options);
      if live.None? then None
      else Some(ref.value.(id := live.value.id, name := OrElse(live.value.name, ref.value.name)))
  }

  /** With nothing remembered, the option named by the text is chosen: the first it names exactly,
      else the only one it overlaps, else none. */
  lemma MentionChooses(text: string, options: seq<TargetOption>, k: nat)
    requires k < |options| && Trim(text) != ""
    ensures Answers(options[k], Trim(text)) && (forall j :: 0 <= j < k ==> !Answers(options[j], Trim(text))) ==>
              Resolve(text, options, None) == Some(Reference(options[k], "user_mention"))
    ensures (forall j :: 0 <= j < |options| ==>
               !Answers(options[j], Trim(text)) && (Touches(options[j], Lower(Trim(text))) <==> j == k)) ==>
              Resolve(text, options, None) == Some(Reference(options[k], "user_mention"))
    ensures (forall j :: 0 <= j < |options| ==>
               !Answers(options[j], Trim(text)) && !Touches(options[j], Lower(Trim(text)))) ==>
              Resolve(text, options, None) == None
  {
    hide Trim, Lower, Answers, Touches;
    var q := Trim(text);
    if Answers(options[k], q) && forall j :: 0 <= j < k ==> !Answers(options[j], q) {
      FirstAnsweringSkips(options, k, q);
    }
    if forall j :: 0 <= j < |options| ==> !Answers(options[j], q) {
      NoneAnswers(options, q);
      var p := (o: TargetOption) => Touches(o, Lower(q));
      LowerKeepsLength(q);
      if forall j :: 0 <= j < |options| ==> (p(options[j]) <==> j == k) {
        KeepOnly(p, options, k);
      }
      if forall j :: 0 <= j < |options| ==> !p(options[j]) {
        KeepNone(p, options);
      }
    }
  }

  lemma LowerKeepsLength(q: string)
    ensures |Lower(q)| == |q|
  {
  }

  lemma {:induction false} KeepNone(p: TargetOption -> bool, s: seq<TargetOption>)
    requires forall j :: 0 <= j < |s| ==> !p(s[j])
    ensures Keep(p, s) == []
  {
    if s != [] {
      KeepNone(p, s[..|s| - 1]);
    }
  }

  lemma {:induction false} KeepOnly(p: TargetOption -> bool, s: seq<TargetOption>, k: nat)
    requires k < |s| && forall j :: 0 <= j < |s| ==> (p(s[j]) <==> j == k)
    ensures Keep(p, s) == [s[k]]
  {
    var n := |s| - 1;
    if k < n {
      KeepOnly(p, s[..n], k);
    } else {
      KeepNone(p, s[..n]);
    }
  }

  // ------------------------------------------------------------------- one turn

  /** An entry of the store's list; running traders and default strategies are skipped. */
  datatype Listed = Listed(id: string, skipped: bool)

  /** What a called tool reports: a failure, or its answer and the options listed by then. */
  datatype Finish = Failed | Done(answer: string, after: Catalog)

  /** What a turn brings: the text, its two readings, the live options, the stored list (None when it
      cannot be read), and the report of the tool should it be called. */
  datatype Turn = Turn(text: string, isYes: bool, meansAll: bool, options: seq<TargetOption>,
                       listing: Option<seq<Listed>>, finish: Finish)

  datatype Target = One(id: string) | Everything

  datatype Reply =
    | NotHandled | AskTarget | TargetGone | NoTarget | Prompt(target: Target) | StillWaiting
    | ListFailed | NothingToDelete | Dispatched

  datatype Write = Untouched | Save(session: SkillSession) | Cleared

  /** What one turn does; `ids` are the targets the action's tool is called on, in order. */
  datatype Effect = Effect(reply: Reply, write: Write, ids: seq<string>)

  const RESOLVE := "resolve_target"
  const AWAIT := "await_confirmation"
  const ALL := "all"

  /** The actions whose step table is resolve, await confirmation, execute. */
  predicate Confirmable(skill: Skill, action: Action) {
    if skill.Trader? then action.Start? || action.Stop? || action.Delete?
    else (skill.Exchange? || skill.Model? || skill.Strategy?) && action.Delete?
  }

  predicate SupportsBulk(skill: Skill, action: Action) {
    (skill.Trader? || skill.Strategy?) && action.Delete?
  }

  predicate Bulk(s: SkillSession) {
    SupportsBulk(s.name, s.action) && TextAt(s.fields, BulkScope) == ALL
  }

  function StepText(s: SkillSession): string {
    TextAt(s.fields, DagStep)
  }

  function AtStep(s: SkillSession, step: string): SkillSession {
    s.(fields := s.fields[DagStep := step])
  }

  function ExecuteStep(action: Action): string {
    match action
    case Start => "execute_start"
    case Stop => "execute_stop"
    case _ => "execute_delete"
  }

  /** The current step is target resolution: any text that names no later step means it. */
  predicate Resolving(s: SkillSession) {
    var step := StepText(s);
    step != AWAIT && step != ExecuteStep(s.action)
  }

  function Opened(s: SkillSession, skill: Skill, action: Action): SkillSession {
    if s.name.NoSkill? then SkillSession(skill, action, Collecting, None, map[], None, Unstamped) else s
  }

  predicate Widens(s: SkillSession, turn: Turn) {
    SupportsBulk(s.name, s.action) && turn.meansAll
  }

  function Widened(s: SkillSession, turn: Turn): SkillSession {
    if Widens(s, turn) then SetField(s, BulkScope, ALL, t => t).(targetRef := None) else s
  }

  function Targeted(s: SkillSession, turn: Turn): SkillSession {
    var ref := Resolve(turn.text, turn.options, s.targetRef);
    if ref.Some? then s.(targetRef := ref) else s
  }

  /** The ids of the entries that are not skipped. */
  function Deletable(listing: seq<Listed>): seq<string> {
    if listing == [] then []
    else
      var last := listing[|listing| - 1];
      Deletable(listing[..|listing| - 1]) + if last.skipped then [] else [last.id]
  }

  function Ids(listing: seq<Listed>): seq<string> {
    seq(|listing|, i requires 0 <= i < |listing| => listing[i].id)
  }

  /** Exactly the entries that are not skipped, in the listed order. */
  lemma {:induction false} DeletableExact(listing: seq<Listed>)
    ensures Deletable(listing) == Ids(Keep((e: Listed) => !e.skipped, listing))
  {
    hide Keep;
    var wanted := (e: Listed) => !e.skipped;
    KeepAll(wanted, []);
    if listing != [] {
      var front, last := listing[..|listing| - 1], listing[|listing| - 1];
      assert listing == front + [last];
      DeletableExact(front);
      KeepConcat(wanted, front, [last]);
      KeepSingle(wanted, last);
    }
  }

  lemma KeepSingle(p: Listed -> bool, e: Listed)
    ensures Keep(p, [e]) == if p(e) then [e] else []
  {
    assert [e][..0] == [];
  }

  /** beginConfirmationIfNeeded, awaitingConfirmationButNotApproved, then the tool. */
  function Confirm(s: SkillSession, target: Target, ids: seq<string>, isYes: bool, needs: bool): Effect {
    if needs && !s.phase.AwaitConfirmation? then Effect(Prompt(target), Save(s.(phase := AwaitConfirmation)), [])
    else if needs && !isYes then Effect(StillWaiting, Save(s), [])
    else Effect(Dispatched, Cleared, ids)
  }

  /** The start, stop and delete branches of the execute*Action functions. */
  function Execute(s: SkillSession, turn: Turn, needs: bool): Effect {
    if s.targetRef.None? && !Bulk(s) then Effect(NoTarget, Untouched, [])
    else
      var stepped := if StepText(s) == "" then AtStep(s, AWAIT) else s;
      if Bulk(s) then
        if turn.listing.None? then Effect(ListFailed, Untouched, [])
        else if Deletable(turn.listing.value) == [] then Effect(NothingToDelete, Cleared, [])
        else Confirm(stepped, Everything, Deletable(turn.listing.value), turn.isYes, needs)
      else Confirm(stepped, One(s.targetRef.value.id), [s.targetRef.value.id], turn.isYes, needs)
  }

  /** The turn after the target step: the reference must still be live. */
  function Checked(s: SkillSession, turn: Turn, needs: bool): Effect {
    var live := LiveTarget(s.targetRef, turn.options);
    if s.targetRef.Some? && live.None? then Effect(TargetGone, Save(s.(targetRef := None)), [])
    else Execute(s.(targetRef := live), turn, needs)
  }

  /** handleSimpleEntitySkill for a confirmable action. */
  function Handle(s0: SkillSession, turn: Turn, skill: Skill, action: Action, needs: bool): Effect {
    var s := Opened(s0, skill, action);
    if s.name != skill || s.action != action then Effect(NotHandled, Untouched, [])
    else
      var w := Widened(s, turn);
      if !Resolving(w) then Checked(w, turn, needs)
      else
        var t := Targeted(w, turn);
        if t.targetRef.None? && !Bulk(t) then Effect(AskTarget, Save(AtStep(t, RESOLVE)), [])
        else Checked(if StepText(t) == RESOLVE then AtStep(t, AWAIT) else t, turn, needs)
  }

  /** The turn ends by asking for a parent to resume: of these actions, deleting an exchange does, once
      its tool has succeeded. */
  predicate EndsChild(e: Effect, turn: Turn, skill: Skill, action: Action) {
    e.reply.Dispatched? && skill.Exchange? && action.Delete? && turn.finish.Done?
  }

  // --------------------------------------------------- the tables a turn goes by

  /** Traders are started, stopped and deleted this way, exchanges, models and strategies deleted; after
      a successful exchange delete a parent may resume. */
  lemma ConfirmedActions(skill: Skill, action: Action, e: Effect, turn: Turn)
    ensures Confirmable(skill, action) <==>
            || (action == Delete && (skill == Trader || skill == Exchange || skill == Model || skill == Strategy))
            || (skill == Trader && (action == Start || action == Stop))
    ensures EndsChild(e, turn, skill, action) <==>
            e.reply == Dispatched && turn.finish != Failed && skill == Exchange && action == Delete
  {
  }

  /** A request covers everything exactly if it is to delete traders or strategies and its scope reads
      "all". */
  lemma CoversEverything(s: SkillSession)
    ensures Bulk(s) <==>
            && s.action == Delete && (s.name == Trader || s.name == Strategy)
            && BulkScope in s.fields && Trim(s.fields[BulkScope]) == "all"
  {
    hide Trim;
    assert "all"[0] == 'a';
  }

  /** The target is settled at the start; no longer once the stored step waits or executes. */
  lemma SettlesTarget(s: SkillSession)
    requires Confirmable(s.name, s.action)
    ensures var step := if DagStep in s.fields then Trim(s.fields[DagStep]) else "";
            && StepText(s) == step
            && (step == "" || step == "resolve_target" ==> Resolving(s))
            && (step == "await_confirmation" ==> !Resolving(s))
            && (step == "execute_start" ==> (Resolving(s) <==> s.action != Start))
            && (step == "execute_stop" ==> (Resolving(s) <==> s.action != Stop))
            && (step == "execute_delete" ==> (Resolving(s) <==> s.action != Delete))
  {
    hide Trim;
    assert "await_confirmation"[0] == 'a' && "resolve_target"[0] == 'r' && "execute_start"[0] == 'e';
    assert "execute_start"[8] == 's' && "execute_stop"[8] == 's' && "execute_delete"[8] == 'd';
    assert |"execute_start"| == 13 && |"execute_stop"| == 12;
  }

  // ------------------------------------------------------- what one turn promises

  lemma BulkAfterStep(s: SkillSession, step: string)
    ensures Bulk(AtStep(s, step)) == Bulk(s)
  {
    hide Trim;
  }

  lemma WideningIsBulk(s: SkillSession, turn: Turn)
    ensures var w := Widened(s, turn);
            && w.name == s.name && w.action == s.action && w.phase == s.phase
            && (Widens(s, turn) ==> Bulk(w) && w.targetRef == None)
            && (!Widens(s, turn) ==> w == s)
  {
    hide Trim, MirroredSlots;
    assert Trimmed(ALL);
    TrimLaws(ALL);
    assert ALL[0] == 'a';
  }

  predicate Pending(s: SkillSession) {
    !s.name.NoSkill? && s.phase.AwaitConfirmation?
  }

  /** The prompt, the wait and the dispatch of one turn, relative to the session it works on. */
  predicate Safe(e: Effect, s: SkillSession, turn: Turn, needs: bool) {
    && !e.reply.NotHandled?
    && (e.ids != [] ==> e.reply.Dispatched?)
    && (e.reply.Dispatched? ==> e.write.Cleared?)
    && (e.reply.Dispatched? && needs ==> s.phase.AwaitConfirmation? && turn.isYes)
    && (e.reply.Prompt? ==> needs && e.write.Save? && !s.phase.AwaitConfirmation?)
    && (e.reply.StillWaiting? ==> !turn.isYes)
    && (e.write.Save? ==>
          && e.write.session.name == s.name && e.write.session.action == s.action
          && (e.write.session.phase.AwaitConfirmation? <==> s.phase.AwaitConfirmation? || e.reply.Prompt?)
          && (Bulk(e.write.session) <==> Bulk(s)))
  }

  lemma ExecuteSafe(s: SkillSession, turn: Turn, needs: bool)
    ensures Safe(Execute(s, turn, needs), s, turn, needs)
  {
    hide Trim, TextAt, Deletable;
    BulkAfterStep(s, AWAIT);
  }

  lemma CheckedSafe(s: SkillSession, turn: Turn, needs: bool)
    ensures Safe(Checked(s, turn, needs), s, turn, needs)
  {
    hide LiveTarget, TextAt, Execute;
    ExecuteSafe(s.(targetRef := LiveTarget(s.targetRef, turn.options)), turn, needs);
  }

  /** Whatever was stored: a tool is called only on a yes to a pending confirmation and then the
      session is cleared, a prompt only starts a wait, and the request covers everything from the
      reply that widened it on. */
  lemma TurnSafety(s0: SkillSession, turn: Turn, skill: Skill, action: Action, needs: bool)
    requires Confirmable(skill, action)
    ensures var e := Handle(s0, turn, skill, action, needs);
            var s := Opened(s0, skill, action);
            && (e.reply.NotHandled? <==> s.name != skill || s.action != action)
            && (e.reply.NotHandled? ==> e.write.Untouched?)
            && (e.ids != [] ==> e.reply.Dispatched?)
            && (e.reply.Dispatched? ==> e.write.Cleared?)
            && (e.reply.Dispatched? && needs ==> s0.name == skill && s0.action == action && Pending(s0) && turn.isYes)
            && (e.reply.Prompt? ==> needs && e.write.Save? && !Pending(s0))
            && (e.reply.StillWaiting? ==> !turn.isYes)
            && (e.write.Save? ==>
                  && e.write.session.name == skill && e.write.session.action == action
                  && (Pending(e.write.session) <==> Pending(s0) || e.reply.Prompt?)
                  && (Bulk(e.write.session) <==> Bulk(s) || Widens(s, turn)))
  {
    hide Resolve, LiveTarget, TextAt, Deletable, SetField, Checked, Widened, Widens, Bulk, Trim;
    var s := Opened(s0, skill, action);
    WideningIsBulk(s, turn);
    var w := Widened(s, turn);
    var t := Targeted(w, turn);
    BulkOfTarget(w, t);
    BulkAfterStep(t, AWAIT);
    BulkAfterStep(t, RESOLVE);
    CheckedSafe(w, turn, needs);
    CheckedSafe(t, turn, needs);
    CheckedSafe(AtStep(t, AWAIT), turn, needs);
  }

  lemma BulkOfTarget(s: SkillSession, t: SkillSession)
    requires t.name == s.name && t.action == s.action && t.fields == s.fields
    ensures Bulk(t) == Bulk(s)
  {
  }

  /** The id is listed, and no other option answers to it by id, name or hint. */
  predicate StillListed(options: seq<TargetOption>, id: string) {
    && id != "" && Trimmed(id)
    && (exists i :: 0 <= i < |options| && options[i].id == id)
    && (forall i :: 0 <= i < |options| && Answers(options[i], id) ==> options[i].id == id)
  }

  predicate AimsAt(s: SkillSession, id: string) {
    s.targetRef.Some? && s.targetRef.value.id == id
  }

  lemma {:induction false} ListedAnswers(options: seq<TargetOption>, id: string)
    requires exists i :: 0 <= i < |options| && options[i].id == id
    requires forall i :: 0 <= i < |options| && Answers(options[i], id) ==> options[i].id == id
    ensures var o := FirstAnswering(options, id); o.Some? && o.value.id == id
    ensures var o := OptionWithId(options, id); o.Some? && o.value.id == id
  {
    if options[0].id != id {
      assert forall i :: 0 <= i < |options[1..]| ==> options[1..][i] == options[i + 1];
      ListedAnswers(options[1..], id);
    }
  }

  /** A target still listed is kept by resolution and by the liveness check. */
  lemma TargetKept(ref: EntityReference, text: string, options: seq<TargetOption>)
    requires StillListed(options, ref.id)
    ensures var r := Resolve(text, options, Some(ref)); r.Some? && r.value.id == ref.id
    ensures var r := LiveTarget(Some(ref), options); r.Some? && r.value.id == ref.id
  {
    hide Trim, UniqueContaining, Lower;
    TrimLaws(ref.id);
    ListedAnswers(options, ref.id);
  }

  /** A waiting turn whose prompted target is still listed keeps aiming at it, and a yes acts on
      it alone, unless this or an earlier reply widened the request. */
  lemma AimKept(s0: SkillSession, turn: Turn, skill: Skill, action: Action, needs: bool, id: string)
    requires Confirmable(skill, action) && s0.name == skill && s0.action == action
    requires AimsAt(s0, id) && !Bulk(s0) && !Widens(s0, turn) && StillListed(turn.options, id)
    ensures var e := Handle(s0, turn, skill, action, needs);
            && (e.write.Save? ==> AimsAt(e.write.session, id))
            && (e.reply.Prompt? ==> e.reply.target == One(id))
            && (e.reply.Dispatched? ==> e.ids == [id])
            && (e.reply.Prompt? || e.reply.StillWaiting? || e.reply.Dispatched?)
  {
    hide Trim, Resolve, LiveTarget, TextAt, SetField, StillListed;
    TargetKept(s0.targetRef.value, turn.text, turn.options);
    var t := Targeted(s0, turn);
    if Resolving(s0) {
      TargetKept(t.targetRef.value, turn.text, turn.options);
      BulkAfterStep(t, AWAIT);
    }
  }

  /** Once the request is for everything, a dispatch deletes every deletable entry listed. */
  lemma BulkDispatch(s0: SkillSession, turn: Turn, skill: Skill, action: Action, needs: bool)
    requires Confirmable(skill, action) && s0.name == skill && s0.action == action
    requires Bulk(s0) || Widens(s0, turn)
    ensures var e := Handle(s0, turn, skill, action, needs);
            && (e.reply.Prompt? ==> e.reply.target.Everything?)
            && (e.reply.Dispatched? ==> turn.listing.Some? && e.ids == Deletable(turn.listing.value))
  {
    hide Trim, Resolve, LiveTarget, TextAt, SetField, Deletable;
    WideningIsBulk(s0, turn);
    BulkAfterStepAll();
  }

  /** A prompt names the target it saves; it names everything exactly on a bulk request. */
  lemma PromptNames(s0: SkillSession, turn: Turn, skill: Skill, action: Action, needs: bool)
    requires Confirmable(skill, action)
    ensures var e := Handle(s0, turn, skill, action, needs);
            e.reply.Prompt? ==>
              && e.write.Save?
              && (e.reply.target.Everything? <==> Bulk(e.write.session))
              && (e.reply.target.One? ==> AimsAt(e.write.session, e.reply.target.id))
  {
    hide Trim, Resolve, LiveTarget, TextAt, SetField, Deletable, Widened;
    BulkAfterStepAll();
  }

  /** What each reply leaves stored: asking for the target stores the first step, a prompt the waiting
      one unless a later step was stored, a target that is gone goes from the session, an empty list
      ends it and an unreadable one changes nothing. */
  lemma StoredAfter(s0: SkillSession, turn: Turn, skill: Skill, action: Action, needs: bool)
    requires Confirmable(skill, action)
    ensures var s, e := Opened(s0, skill, action), Handle(s0, turn, skill, action, needs);
            && (e.reply == AskTarget ==>
                  && e.write.Save? && StepText(e.write.session) == Trim("resolve_target")
                  && e.write.session.targetRef == None && e.write.session.phase == s.phase)
            && (e.reply.Prompt? ==>
                  && e.write.Save? && e.write.session.phase == AwaitConfirmation
                  && (StepText(s) == "" || StepText(s) == "resolve_target" ==>
                        StepText(e.write.session) == Trim("await_confirmation"))
                  && (StepText(s) != "" && StepText(s) != "resolve_target" ==>
                        StepText(e.write.session) == StepText(s)))
            && (e.reply == StillWaiting ==>
                  s.phase == AwaitConfirmation && e.write.Save? && e.write.session.phase == AwaitConfirmation)
            && (e.reply == TargetGone ==> e.write.Save? && e.write.session.targetRef == None)
            && (e.reply == NothingToDelete ==> e.write == Cleared)
            && (e.reply == ListFailed || e.reply == NoTarget || e.reply == NotHandled ==> e.write == Untouched)
            && (s0.name == NoSkill ==>
                  s.phase == Collecting && s.targetRef == None && s.fields == map[] && s.slots == None)
  {
    hide Trim, Resolve, Widened, Bulk, Checked, TextAt;
    var s := Opened(s0, skill, action);
    WideningIsBulk(s, turn);
    StepKeptByWidening(s, turn);
    var w := Widened(s, turn);
    var t := Targeted(w, turn);
    StoredByCheck(w, turn, needs);
    StoredByCheck(t, turn, needs);
    StoredByCheck(AtStep(t, AWAIT), turn, needs);
    StepRead(t);
  }

  lemma StepRead(s: SkillSession)
    ensures StepText(AtStep(s, RESOLVE)) == Trim("resolve_target")
    ensures StepText(AtStep(s, AWAIT)) == Trim("await_confirmation")
    ensures StepText(AtStep(s, RESOLVE)) == "resolve_target" && StepText(AtStep(s, AWAIT)) != ""
    ensures AtStep(s, AWAIT).phase == s.phase && AtStep(s, RESOLVE).phase == s.phase
    ensures AtStep(s, RESOLVE).targetRef == s.targetRef
    ensures StepText(s.(targetRef := None)) == StepText(s)
  {
    hide Trim;
    TrimLaws("resolve_target");
    TrimLaws("await_confirmation");
    assert Trimmed("resolve_target") && Trimmed("await_confirmation") by {
      assert "resolve_target"[0] == 'r' && "resolve_target"[13] == 't';
      assert "await_confirmation"[0] == 'a' && "await_confirmation"[17] == 'n';
    }
  }

  lemma StoredByCheck(s: SkillSession, turn: Turn, needs: bool)
    ensures var e := Checked(s, turn, needs);
            && !e.reply.AskTarget? && !e.reply.NotHandled?
            && (e.reply.Prompt? ==>
                  && e.write.Save? && e.write.session.phase == AwaitConfirmation
                  && StepText(e.write.session) ==
                     if StepText(s) == "" then Trim("await_confirmation") else StepText(s))
            && (e.reply == StillWaiting ==>
                  s.phase == AwaitConfirmation && e.write.Save? && e.write.session.phase == AwaitConfirmation)
            && (e.reply == TargetGone ==> e.write.Save? && e.write.session.targetRef == None)
            && (e.reply == NothingToDelete ==> e.write == Cleared)
            && (e.reply == ListFailed || e.reply == NoTarget ==> e.write == Untouched)
  {
    hide Trim, LiveTarget, Deletable, Bulk;
  }

  /** Only a delete of traders or strategies ever asks for everything, and every other action calls its
      tool on one id at most. */
  lemma EverythingIsDelete(s0: SkillSession, turn: Turn, skill: Skill, action: Action, needs: bool)
    requires Confirmable(skill, action)
    ensures var e := Handle(s0, turn, skill, action, needs);
            && (e.reply == Prompt(Everything) ==> action == Delete && (skill == Trader || skill == Strategy))
            && (action == Start || action == Stop || skill == Exchange || skill == Model ==> |e.ids| <= 1)
  {
    hide Trim, Resolve, LiveTarget, TextAt, SetField, Deletable;
    BulkAfterStepAll();
    BulkSkills(s0);
    WideningIsBulk(Opened(s0, skill, action), turn);
  }

  /** A reply meaning all, on a delete of traders or strategies that does not wait yet, asks about
      everything as soon as one entry can be deleted. */
  lemma AllAsksForEverything(s0: SkillSession, turn: Turn, skill: Skill, i: nat)
    requires skill == Trader || skill == Strategy
    requires s0.name.NoSkill? || (s0.name == skill && s0.action == Delete && s0.phase != AwaitConfirmation)
    requires turn.meansAll && turn.listing.Some? && i < |turn.listing.value| && !turn.listing.value[i].skipped
    requires forall j :: 0 <= j < |turn.options| ==> turn.options[j].id != "" && Trimmed(turn.options[j].id)
    ensures var e := Handle(s0, turn, skill, Delete, true);
            e.reply == Prompt(Everything) && e.ids == [] && e.write.Save? && e.write.session.phase == AwaitConfirmation
  {
    hide Trim, Resolve, TextAt, SetField, Deletable, LiveTarget, Trimmed, StepText;
    var s := Opened(s0, skill, Delete);
    WideningIsBulk(s, turn);
    BulkAfterStepAll();
    SomeDeletable(turn.listing.value, i);
    var w := Widened(s, turn);
    NoReference(w, turn.options);
    MentionedIsLive(turn);
    assert StepText(w) == StepText(s) by {
      StepKeptByWidening(s, turn);
    }
  }

  /** A listed option that the text names is live. */
  lemma MentionedIsLive(turn: Turn)
    requires forall j :: 0 <= j < |turn.options| ==> turn.options[j].id != "" && Trimmed(turn.options[j].id)
    ensures var ref := Resolve(turn.text, turn.options, None);
            ref.Some? ==> LiveTarget(ref, turn.options).Some?
  {
    hide Trim, Trimmed, Touches, Lower;
    var said := Found(turn.options, turn.text);
    if said.Some? {
      FoundIsListed(turn.options, turn.text);
      var j :| 0 <= j < |turn.options| && turn.options[j] == said.value;
      TrimLaws(said.value.id);
      AnswerFound(turn.options, j, said.value.id);
    }
  }

  lemma FoundIsListed(options: seq<TargetOption>, query: string)
    ensures var o := Found(options, query); o.Some? ==> o.value in options
  {
    hide Trim, Touches, Lower, Answers;
    FirstIsListed(options, Trim(query));
  }

  lemma {:induction false} FirstIsListed(options: seq<TargetOption>, query: string)
    ensures var o := FirstAnswering(options, query); o.Some? ==> o.value in options
  {
    if options != [] {
      FirstIsListed(options[1..], query);
    }
  }

  lemma {:induction false} AnswerFound(options: seq<TargetOption>, j: nat, query: string)
    requires j < |options| && Answers(options[j], query)
    ensures FirstAnswering(options, query).Some?
  {
    if j > 0 {
      AnswerFound(options[1..], j - 1, query);
    }
  }

  lemma {:induction false} SomeDeletable(listing: seq<Listed>, i: nat)
    requires i < |listing| && !listing[i].skipped
    ensures listing[i].id in Deletable(listing)
  {
    if i < |listing| - 1 {
      SomeDeletable(listing[..|listing| - 1], i);
    }
  }

  lemma BulkAfterStepAll()
    ensures forall s, step :: Bulk(AtStep(s, step)) == Bulk(s)
  {
    forall s: SkillSession, step: string
      ensures Bulk(AtStep(s, step)) == Bulk(s)
    {
      BulkAfterStep(s, step);
    }
  }

  // ------------------------------------------------------ through the store

  lemma BulkFieldKept(skill: Skill, f: map<FieldKey, string>, aliasWins: bool)
    ensures TextAt(NormalizeFields(skill, f, aliasWins), BulkScope) == TextAt(f, BulkScope)
  {
    hide Trim;
    assert forall r :: FieldKeyFor(skill, r) == BulkScope <==> r == BulkScope;
    var n := NormalizeFields(skill, f, aliasWins);
    assert BulkScope in n <==> Kept(skill, f, BulkScope);
    if BulkScope in f {
      TrimLaws(f[BulkScope]);
    }
  }

  lemma SlotsLeaveBulk(s: SkillSession)
    ensures TextAt(NormalizeSlots(s).fields, BulkScope) == TextAt(s.fields, BulkScope)
  {
    hide Trim, MirroredSlots, NoSlotFields;
    if s.slots.Some? {
      var slots := s.slots.value;
      assert BulkScope !in SlotPart(slots.text) && BulkScope !in AutoEntry(slots.autoStart);
    }
  }

  /** Saving and loading a session changes nothing this machine looks at. */
  lemma StoreKeeps(s: SkillSession, now: int, aliasWins: bool, id: string)
    requires !s.name.NoSkill?
    ensures var n := NormalizeSkillSession(s, now, aliasWins);
            && n.name == s.name && n.action == s.action && n.phase == s.phase
            && (Bulk(n) <==> Bulk(s))
            && (AimsAt(s, id) && id != "" && Trimmed(id) ==> AimsAt(n, id))
  {
    hide Trim, Trimmed, NormalizeFields, Filled, MirroredSlots, NoSlotFields, TextAt;
    BulkFieldKept(s.name, s.fields, aliasWins);
    SlotsLeaveBulk(s.(targetRef := NormalizeEntityReference(s.targetRef, now),
                      fields := NormalizeFields(s.name, s.fields, aliasWins)));
    TrimLaws(id);
  }

  // ------------------------------------------------------------- runs of turns

  datatype ToolCall = ToolCall(skill: Skill, action: Action, id: string)

  function Calls(skill: Skill, action: Action, ids: seq<string>): seq<ToolCall> {
    seq(|ids|, i requires 0 <= i < |ids| => ToolCall(skill, action, ids[i]))
  }

  /** A prompt still waiting for its answer: what it named, whether the session surely still aims at
      the id it named, and whether the request covers everything by now. */
  datatype Outstanding = Outstanding(target: Target, steady: bool, wide: bool)

  /** The stored session still stands for what the outstanding prompt says of it. */
  predicate Agrees(s: SkillSession, p: Outstanding) {
    && (Bulk(s) <==> p.wide)
    && (p.steady ==>
          && p.target.One? && p.target.id != "" && Trimmed(p.target.id)
          && (!p.wide ==> AimsAt(s, p.target.id)))
  }

  /** The outstanding prompt after a turn that saved its session. */
  function Continued(p: Outstanding, skill: Skill, action: Action, turn: Turn): (q: Outstanding)
    ensures q.target == p.target
    ensures q.steady ==> q.target.One?
  {
    p.(steady := p.steady && p.target.One? && StillListed(turn.options, p.target.id),
       wide := p.wide || (SupportsBulk(skill, action) && turn.meansAll))
  }

  /** One saved turn keeps the stored session in agreement with its prompt. */
  lemma SavedTurnAgrees(s0: SkillSession, turn: Turn, skill: Skill, action: Action, p: Outstanding)
    requires Confirmable(skill, action) && s0.name == skill && s0.action == action && Pending(s0)
    requires Agrees(s0, p)
    ensures var e := Handle(s0, turn, skill, action, true);
            && (e.write.Save? ==> Agrees(e.write.session, Continued(p, skill, action, turn)))
            && (e.reply.Dispatched? ==>
                  var q := Continued(p, skill, action, turn);
                  if q.wide then turn.listing.Some? && e.ids == Deletable(turn.listing.value)
                  else q.steady ==> e.ids == [p.target.id])
  {
    hide Handle, Bulk, StillListed;
    TurnSafety(s0, turn, skill, action, true);
    if Bulk(s0) || Widens(s0, turn) {
      BulkDispatch(s0, turn, skill, action, true);
    } else if p.steady && p.target.One? && StillListed(turn.options, p.target.id) {
      AimKept(s0, turn, skill, action, true, p.target.id);
    }
  }

  lemma StoreAgrees(s: SkillSession, now: int, aliasWins: bool, p: Outstanding)
    requires !s.name.NoSkill? && Agrees(s, p)
    ensures Agrees(NormalizeSkillSession(s, now, aliasWins), p)
  {
    hide Bulk, NormalizeSkillSession, Trimmed;
    StoreKeeps(s, now, aliasWins, if p.target.One? then p.target.id else "");
  }

  // ------------------------------------------------------- the imperative handlers

  /** resolveTargetSelection, scan by scan. */
  method ResolveTargetSelection(text: string, options: seq<TargetOption>, existing: Option<EntityReference>)
    returns (ref: Option<EntityReference>)
    ensures ref == Resolve(text, options, existing)
  {
    hide OptionByIdOrName, UniqueContaining, Trim, OrElse;
    if existing.Some? && Trim(existing.value.id) != "" {
      ghost var found := OptionWithId(options, existing.value.id);
      for i := 0 to |options|
        invariant found == OptionWithId(options[i..], existing.value.id)
      {
        assert options[i..][1..] == options[i + 1..];
        if options[i].id == existing.value.id {
          return Some(EntityReference(options[i].id, OrElse(options[i].name, existing.value.name),
                                      existing.value.source, Unstamped));
        }
      }
    }
    if existing.Some? && Trim(existing.value.name) != "" {
      var exact := FindOptionByIdOrName(options, existing.value.name);
      if exact.Some? {
        return Some(Reference(exact.value, existing.value.source));
      }
      var unique := FindUniqueContainingOption(options, existing.value.name);
      if unique.Some? {
        return Some(Reference(unique.value, existing.value.source));
      }
    }
    var said := FindOptionByIdOrName(options, text);
    if said.None? {
      said := FindUniqueContainingOption(options, text);
    }
    return if said.Some? then Some(Reference(said.value, "user_mention")) else None;
  }

  /** ensureLiveTargetReference: `session` with its reference refreshed, or dropped. */
  method EnsureLiveTargetReference(before: SkillSession, options: seq<TargetOption>)
    returns (session: SkillSession, ok: bool)
    ensures session == before.(targetRef := LiveTarget(before.targetRef, options))
    ensures ok <==> (before.targetRef.Some? ==> session.targetRef.Some?)
  {
    hide OptionByIdOrName, UniqueContaining, Trim, OrElse;
    session := before;
    if session.targetRef.None? {
      return session, true;
    }
    var ref := session.targetRef.value;
    var live := FindOptionByIdOrName(options, ref.id);
    if live.None? {
      live := FindOptionByIdOrName(options, ref.name);
      if live.None? {
        live := FindUniqueContainingOption(options, ref.name);
      }
    }
    if live.None? {
      session := session.(targetRef := None);
      return session, false;
    }
    session := session.(targetRef := Some(ref.(id := live.value.id, name := OrElse(live.value.name, ref.name))));
    return session, true;
  }

  /** The filter loop over the stored list. */
  method CollectDeletable(listing: seq<Listed>) returns (ids: seq<string>)
    ensures ids == Deletable(listing)
  {
    ids := [];
    for i := 0 to |listing|
      invariant ids == Deletable(listing[..i])
    {
      assert listing[..i + 1][..i] == listing[..i];
      if listing[i].skipped {
        continue;
      }
      ids := ids + [listing[i].id];
    }
    assert listing[..|listing|] == listing;
  }

  /** beginConfirmationIfNeeded, awaitingConfirmationButNotApproved and the tool calls, on the
      turn's local session. */
  method ConfirmAndCall(before: SkillSession, target: Target, ids: seq<string>, isYes: bool, need: bool)
    returns (e: Effect)
    ensures e == Confirm(before, target, ids, isYes, need)
    ensures need && e.ids != [] ==> before.phase.AwaitConfirmation? && isYes && e.ids == ids && e.write.Cleared?
    ensures e.reply == Prompt(target) <==> need && !before.phase.AwaitConfirmation?
    ensures e.reply.StillWaiting? <==> need && before.phase.AwaitConfirmation? && !isYes
    ensures e.write.Save? ==> e.write.session == before.(phase := AwaitConfirmation) && e.ids == []
  {
    var session := before;
    if need && !session.phase.AwaitConfirmation? {
      session := session.(phase := AwaitConfirmation);
      return Effect(Prompt(target), Save(session), []);
    }
    if need && session.phase.AwaitConfirmation? && !isYes {
      return Effect(StillWaiting, Save(session), []);
    }
    return Effect(Dispatched, Cleared, ids);
  }

  /** The execute*Action branches, and whether they end by resuming a parent. */
  method ExecuteAction(before: SkillSession, turn: Turn, need: bool) returns (e: Effect, ends: bool)
    ensures e == Execute(before, turn, need) && ends == EndsChild(e, turn, before.name, before.action)
  {
    hide TextAt, Deletable, Confirm, Bulk;
    BulkAfterStep(before, AWAIT);
    var session := before;
    if session.targetRef.None? && !Bulk(session) {
      return Effect(NoTarget, Untouched, []), false;
    }
    if StepText(session) == "" {
      session := AtStep(session, AWAIT);
    }
    if Bulk(session) {
      if turn.listing.None? {
        return Effect(ListFailed, Untouched, []), false;
      }
      var ids := CollectDeletable(turn.listing.value);
      if |ids| == 0 {
        return Effect(NothingToDelete, Cleared, []), false;
      }
      e := ConfirmAndCall(session, Everything, ids, turn.isYes, need);
      BulkSkills(before);
      ends := false;
      return;
    }
    var id := session.targetRef.value.id;
    e := ConfirmAndCall(session, One(id), [id], turn.isYes, need);
    ends := e.reply.Dispatched? && session.name.Exchange? && session.action.Delete? && turn.finish.Done?;
  }

  /** handleSimpleEntitySkill on the loaded session. */
  method HandleSimpleEntitySkill(loaded: SkillSession, turn: Turn, skill: Skill, action: Action, need: bool)
    returns (e: Effect, ends: bool)
    requires Confirmable(skill, action)
    ensures e == Handle(loaded, turn, skill, action, need) && ends == EndsChild(e, turn, skill, action)
  {
    hide TextAt, Resolve, LiveTarget, Execute, Bulk, SetField;
    var session := loaded;
    if session.name.NoSkill? {
      session := SkillSession(skill, action, Collecting, None, map[], None, Unstamped);
    }
    if session.name != skill || session.action != action {
      return Effect(NotHandled, Untouched, []), false;
    }
    if SupportsBulk(skill, action) && turn.meansAll {
      session := SetField(session, BulkScope, ALL, t => t);
      session := session.(targetRef := None);
    }
    assert session == Widened(Opened(loaded, skill, action), turn);
    WideningIsBulk(Opened(loaded, skill, action), turn);
    if Resolving(session) {
      var ref := ResolveTargetSelection(turn.text, turn.options, session.targetRef);
      if ref.Some? {
        session := session.(targetRef := ref);
      }
      if session.targetRef.None? && !Bulk(session) {
        return Effect(AskTarget, Save(AtStep(session, RESOLVE)), []), false;
      }
      if StepText(session) == RESOLVE {
        session := AtStep(session, AWAIT);
      }
    }
    if session.targetRef.Some? {
      var refreshed, ok := EnsureLiveTargetReference(session, turn.options);
      if !ok {
        return Effect(TargetGone, Save(refreshed), []), false;
      }
      session := refreshed;
    } else {
      NoReference(session, turn.options);
    }
    e, ends := ExecuteAction(session, turn, need);
  }

  lemma BulkSkills(s: SkillSession)
    ensures Bulk(s) ==> s.name.Trader? || s.name.Strategy?
  {
  }

  lemma NoReference(s: SkillSession, options: seq<TargetOption>)
    requires s.targetRef.None?
    ensures s.(targetRef := LiveTarget(s.targetRef, options)) == s
  {
  }

  /** A prompt as it is emitted. */
  function Prompted(target: Target): (p: Outstanding)
    ensures p.target == target && (p.wide <==> target.Everything?)
  {
    Outstanding(target, target.One? && target.id != "" && Trimmed(target.id), target.Everything?)
  }

  lemma PromptAgrees(s: SkillSession, target: Target)
    requires target.Everything? <==> Bulk(s)
    requires target.One? ==> AimsAt(s, target.id)
    ensures Agrees(s, Prompted(target))
  {
  }

  // ------------------------------------------------ when a waiting turn acts, and on what

  /** A target is settled on and live, or the request is for everything and something is deletable. */
  predicate Reaches(s: SkillSession, turn: Turn) {
    var w := Widened(s, turn);
    var t := if Resolving(w) then Targeted(w, turn) else w;
    && (t.targetRef.Some? ==> LiveTarget(t.targetRef, turn.options).Some?)
    && if Bulk(w) then turn.listing.Some? && Deletable(turn.listing.value) != [] else t.targetRef.Some?
  }

  lemma CheckedIff(s: SkillSession, turn: Turn)
    requires s.phase.AwaitConfirmation?
    ensures Checked(s, turn, true).reply.Dispatched? <==>
            && turn.isYes && (s.targetRef.Some? ==> LiveTarget(s.targetRef, turn.options).Some?)
            && if Bulk(s) then turn.listing.Some? && Deletable(turn.listing.value) != [] else s.targetRef.Some?
  {
    hide LiveTarget, TextAt, Deletable;
    var live := LiveTarget(s.targetRef, turn.options);
    if s.targetRef.None? {
      NoReference(s, turn.options);
    }
    BulkOfTarget(s, s.(targetRef := live));
  }

  /** A waiting session is dispatched exactly on a yes that reaches a target. */
  lemma DispatchIff(s0: SkillSession, turn: Turn)
    requires Confirmable(s0.name, s0.action) && Pending(s0)
    ensures Handle(s0, turn, s0.name, s0.action, true).reply.Dispatched? <==> turn.isYes && Reaches(s0, turn)
  {
    hide Resolve, LiveTarget, TextAt, Deletable, SetField, Checked, Widened, Bulk, Trim, Resolving;
    WideningIsBulk(s0, turn);
    var w := Widened(s0, turn);
    var t := Targeted(w, turn);
    BulkOfTarget(w, t);
    BulkAfterStep(t, AWAIT);
    CheckedIff(w, turn);
    CheckedIff(t, turn);
    CheckedIff(AtStep(t, AWAIT), turn);
  }

  /** A dispatch follows the stored target, wherever that target came from: with the stored id
      listed and nothing widened, it acts on `id` exactly when the session aims at `id`. */
  lemma DispatchFollowsAim(s0: SkillSession, turn: Turn, id: string)
    requires Confirmable(s0.name, s0.action) && Pending(s0) && turn.isYes
    requires !Bulk(s0) && !Widens(s0, turn)
    requires s0.targetRef.Some? && StillListed(turn.options, s0.targetRef.value.id)
    ensures var e := Handle(s0, turn, s0.name, s0.action, true);
            e.reply.Dispatched? && (e.ids == [id] <==> AimsAt(s0, id))
  {
    hide Handle, Bulk, StillListed, Widens;
    AimKept(s0, turn, s0.name, s0.action, true, s0.targetRef.value.id);
    TurnSafety(s0, turn, s0.name, s0.action, true);
  }

  /** A target whose id is no longer listed is found again by its name, and a yes acts on that one. */
  lemma NameOutlivesId(s0: SkillSession, turn: Turn, other: string)
    requires Confirmable(s0.name, s0.action) && Pending(s0) && turn.isYes && !Bulk(s0) && !Widens(s0, turn)
    requires s0.targetRef.Some? && Trim(s0.targetRef.value.id) != ""
    requires forall i :: 0 <= i < |turn.options| ==>
               !Answers(turn.options[i], Trim(s0.targetRef.value.id)) && turn.options[i].id != s0.targetRef.value.id
    requires var o := OptionByIdOrName(turn.options, s0.targetRef.value.name); o.Some? && o.value.id == other
    requires StillListed(turn.options, other)
    ensures Reaches(s0, turn) && Handle(s0, turn, s0.name, s0.action, true) == Effect(Dispatched, Cleared, [other])
  {
    hide Trim, TextAt, SetField, StillListed, Deletable, Answers, UniqueContaining, OrElse;
    var ref := s0.targetRef.value;
    NoneAnswers(turn.options, Trim(ref.id));
    NoSuchId(turn.options, ref.id);
    var t := Targeted(s0, turn);
    BulkAfterStepAll();
    BulkOfTarget(s0, t);
    if Resolving(s0) {
      TargetKept(t.targetRef.value, turn.text, turn.options);
      BulkOfTarget(t, t.(targetRef := LiveTarget(t.targetRef, turn.options)));
    } else {
      BulkOfTarget(s0, s0.(targetRef := LiveTarget(s0.targetRef, turn.options)));
    }
    DispatchIff(s0, turn);
  }

  lemma {:induction false} NoSuchId(options: seq<TargetOption>, id: string)
    requires forall i :: 0 <= i < |options| ==> options[i].id != id
    ensures OptionWithId(options, id).None?
  {
    if options != [] {
      NoSuchId(options[1..], id);
    }
  }

  /** So an extraction that writes another listed id after the prompt is acted on unprompted. */
  lemma ExtractedTargetUnprompted(prompted: string, other: EntityReference, s0: SkillSession, yes: Turn)
    requires Confirmable(s0.name, s0.action) && Pending(s0) && AimsAt(s0, prompted) && other.id != prompted
    requires yes.isYes && !Bulk(s0) && !Widens(s0, yes) && StillListed(yes.options, other.id)
    ensures var edited := s0.(targetRef := Some(other));
            Handle(edited, yes, s0.name, s0.action, true) == Effect(Dispatched, Cleared, [other.id])
  {
    hide Handle, StillListed, Widens, Bulk, Resolve, LiveTarget;
    var edited := s0.(targetRef := Some(other));
    BulkOfTarget(s0, edited);
    WidensOfTarget(s0, edited, yes);
    AimKept(edited, yes, s0.name, s0.action, true, other.id);
    DispatchFollowsAim(edited, yes, other.id);
    TurnSafety(edited, yes, s0.name, s0.action, true);
  }

  lemma WidensOfTarget(s: SkillSession, t: SkillSession, turn: Turn)
    requires t.name == s.name && t.action == s.action
    ensures Widens(t, turn) == Widens(s, turn)
  {
  }

  // ------------------------------------------------------------ two consequences

  /** Widening without a new prompt: while one target awaits its answer, "all" and then "yes"
      delete every deletable entry, and no prompt for everything comes in between. */
  lemma WideningNeedsNoPrompt(s0: SkillSession, all: Turn, yes: Turn, now: int, aliasWins: bool)
    requires Confirmable(s0.name, s0.action) && SupportsBulk(s0.name, s0.action) && Pending(s0) && !Bulk(s0)
    requires all.meansAll && !all.isYes && yes.isYes && !yes.meansAll
    requires all.listing.Some? && Deletable(all.listing.value) != []
    requires yes.listing.Some? && Deletable(yes.listing.value) != []
    requires StepText(s0) == AWAIT
    ensures var first := Handle(s0, all, s0.name, s0.action, true);
            && first.reply.StillWaiting? && first.write.Save?
            && var s1 := NormalizeSkillSession(first.write.session, now, aliasWins);
               Handle(s1, yes, s0.name, s0.action, true) == Effect(Dispatched, Cleared, Deletable(yes.listing.value))
  {
    hide Trim, Resolve, TextAt, SetField, Deletable, NormalizeSkillSession, Bulk;
    WideningIsBulk(s0, all);
    StepKeptByWidening(s0, all);
    var w := Widened(s0, all);
    BulkOfTarget(w, w.(targetRef := LiveTarget(w.targetRef, all.options)));
    NoReference(w, all.options);
    var first := Handle(s0, all, s0.name, s0.action, true);
    assert first == Effect(StillWaiting, Save(w), []);
    StoreKeeps(w, now, aliasWins, "");
    StoreKeepsStep(w, now, aliasWins);
    StoreKeepsNoTarget(w, now, aliasWins);
    var s1 := NormalizeSkillSession(w, now, aliasWins);
    NoReference(s1, yes.options);
    assert Widened(s1, yes) == s1;
  }

  lemma StepKeptByWidening(s: SkillSession, turn: Turn)
    ensures StepText(Widened(s, turn)) == StepText(s)
  {
    hide Trim, MirroredSlots;
  }

  lemma StoreKeepsNoTarget(s: SkillSession, now: int, aliasWins: bool)
    requires s.targetRef.None?
    ensures NormalizeSkillSession(s, now, aliasWins).targetRef.None?
  {
    hide Trim, MirroredSlots, NoSlotFields, NormalizeFields, Filled;
  }

  lemma StoreKeepsStep(s: SkillSession, now: int, aliasWins: bool)
    requires !s.name.NoSkill?
    ensures StepText(NormalizeSkillSession(s, now, aliasWins)) == StepText(s)
  {
    hide Trim, MirroredSlots, NoSlotFields;
    assert forall r :: FieldKeyFor(s.name, r) == DagStep <==> r == DagStep;
    var n := NormalizeFields(s.name, s.fields, aliasWins);
    assert DagStep in n <==> Kept(s.name, s.fields, DagStep);
    if DagStep in s.fields {
      TrimLaws(s.fields[DagStep]);
    }
    if s.slots.Some? {
      assert DagStep !in SlotPart(s.slots.value.text) && DagStep !in AutoEntry(s.slots.value.autoStart);
    }
  }

  /** A target that vanished while its prompt was out cannot be replaced: past target resolution,
      with no target left, no text does anything unless it widens the request. */
  lemma NoNewTargetWhileWaiting(s0: SkillSession, turn: Turn, skill: Skill, action: Action, needs: bool)
    requires Confirmable(skill, action) && s0.name == skill && s0.action == action
    requires StepText(s0) == AWAIT && s0.targetRef.None? && !Bulk(s0)
    ensures Handle(s0, turn, skill, action, needs) == Effect(NoTarget, Untouched, []) <==> !Widens(s0, turn)
  {
    hide Trim, Resolve, TextAt, SetField, Deletable, Bulk;
    WideningIsBulk(s0, turn);
    StepKeptByWidening(s0, turn);
    var w := Widened(s0, turn);
    NoReference(w, turn.options);
    BulkOfTarget(w, w.(targetRef := LiveTarget(w.targetRef, turn.options)));
  }

  /** A turn that finds the prompted target gone leaves exactly such a session. */
  lemma GoneTargetStrands(s0: SkillSession, turn: Turn, now: int, aliasWins: bool)
    requires Confirmable(s0.name, s0.action) && Pending(s0) && StepText(s0) == AWAIT
    requires !Bulk(s0) && !Widens(s0, turn)
    requires s0.targetRef.Some? && LiveTarget(s0.targetRef, turn.options).None?
    ensures var e := Handle(s0, turn, s0.name, s0.action, true);
            && e.reply.TargetGone? && e.write.Save?
            && var s1 := NormalizeSkillSession(e.write.session, now, aliasWins);
               && s1.name == s0.name && s1.action == s0.action && Pending(s1)
               && StepText(s1) == AWAIT && s1.targetRef.None? && !Bulk(s1)
  {
    hide Trim, LiveTarget, Resolve, TextAt, SetField, Deletable, NormalizeSkillSession, Bulk;
    var gone := s0.(targetRef := None);
    BulkOfTarget(s0, gone);
    WideningIsBulk(s0, turn);
    StoreKeeps(gone, now, aliasWins, "");
    StoreKeepsStep(gone, now, aliasWins);
    StoreKeepsNoTarget(gone, now, aliasWins);
  }

  /** Stopping a trader that is deleted meanwhile: after that turn, naming another listed trader
      gets no further than being asked for one. */
  lemma StrandedByName(now: int)
    ensures var ref := EntityReference("t1", "", "user_mention", At(0));
            var s0 := SkillSession(Trader, Stop, AwaitConfirmation, Some(ref), map[DagStep := AWAIT], None, At(0));
            var first := Turn("yes", true, false, [], None, Failed);
            var later := Turn("t2", false, false, [TargetOption("t2", "", "")], None, Failed);
            var e := Handle(s0, first, Trader, Stop, true);
            && e.reply.TargetGone? && e.write.Save?
            && Handle(NormalizeSkillSession(e.write.session, now, false), later, Trader, Stop, true)
               == Effect(NoTarget, Untouched, [])
  {
    hide Trim, NormalizeSkillSession, Resolve, Handle;
    var ref := EntityReference("t1", "", "user_mention", At(0));
    var s0 := SkillSession(Trader, Stop, AwaitConfirmation, Some(ref), map[DagStep := AWAIT], None, At(0));
    var first := Turn("yes", true, false, [], None, Failed);
    var later := Turn("t2", false, false, [TargetOption("t2", "", "")], None, Failed);
    assert Trimmed(AWAIT) by {
      assert AWAIT[0] == 'a' && AWAIT[|AWAIT| - 1] == 'n';
    }
    TrimLaws(AWAIT);
    NothingListed(ref);
    GoneTargetStrands(s0, first, now, false);
    var e := Handle(s0, first, Trader, Stop, true);
    NoNewTargetWhileWaiting(NormalizeSkillSession(e.write.session, now, false), later, Trader, Stop, true);
  }

  lemma NothingListed(ref: EntityReference)
    ensures LiveTarget(Some(ref), []).None?
  {
    hide Trim, Touches;
  }
}
