/** Creating a trader over several turns (agent/skill_dispatcher.go): the draft is collected,
    shown, confirmed, and only then created and possibly started. */
module TraderCreation {
  import opened Seqs
  import opened Text
  import opened Records
  import opened SkillSessions
  import opened Confirmations

  // ---------------------------------------------- sessions whose slots mirror their fields

  /** Canonical trimmed fields, and slots that are their copy: what loading gives and what
      setField keeps. */
  predicate Synced(s: SkillSession) {
    s.name.Trader? && TidyFields(s.name, s.fields) && (s.slots.Some? ==> s.slots.value.text == SlotPart(s.fields))
  }

  /** The draft-name normaliser leaves no whitespace at the ends. */
  ghost predicate DraftsTrimmed(draftName: string -> string) {
    forall v :: Trimmed(draftName(v))
  }

  lemma SyncedValue(s: SkillSession, k: FieldKey)
    requires Synced(s) && IsSlot(k)
    ensures FieldValue(s, k) == if k in s.fields then s.fields[k] else ""
  {
    hide Trim;
  }

  lemma WriteSynced(s: SkillSession, k: FieldKey, w: string)
    requires Synced(s) && FieldKeyFor(s.name, k) == k && k != OtherField("") && w != "" && Trim(w) == w
    ensures var n := MirrorSlots(s.(fields := s.fields[k := w]));
            Synced(n) && n.fields == s.fields[k := w] && n.action == s.action && n.phase == s.phase
  {
    hide Trim, Lower, SlotPart;
    var f := s.fields[k := w];
    SlotPartGrows(s.fields, k, w);
    assert map[] + SlotPart(f) == SlotPart(f);
  }

  lemma SlotPartGrows(f: map<FieldKey, string>, k: FieldKey, w: string)
    requires Trim(w) != ""
    ensures SlotPart(f) + SlotPart(f[k := w]) == SlotPart(f[k := w])
  {
    hide Trim;
    assert forall j :: j in SlotPart(f) ==> j in SlotPart(f[k := w]);
  }

  /** Writing a field changes that field alone and never blanks anything. */
  lemma SetFieldSynced(s: SkillSession, key: FieldKey, value: string, draftName: string -> string)
    requires Synced(s) && DraftsTrimmed(draftName) && key != OtherField("")
    ensures var n := SetField(s, key, value, draftName);
            && Extends(s, n, FieldKeyFor(s.name, key), FieldKeyFor(s.name, key))
            && (IsSlot(key) && !key.Name? ==>
                  FieldValue(n, key) == if Trim(value) != "" then Trim(value) else FieldValue(s, key))
  {
    hide Trim, FieldValue, MirrorSlots, Synced, TidyFields;
    var k := FieldKeyFor(s.name, key);
    var v := Trim(value);
    var w := if s.name.Trader? && k.Name? then draftName(v) else v;
    TrimLaws(value);
    TrimLaws(w);
    var n := SetField(s, key, value, draftName);
    if v != "" && w != "" {
      assert Trim(w) == w by {
        assert Trimmed(draftName(v));
      }
      IsTrader(s);
      WriteSynced(s, k, w);
      assert n.fields == s.fields[k := w];
    }
    forall j | IsSlot(j)
      ensures FieldValue(n, j) == if j in n.fields then n.fields[j] else ""
      ensures FieldValue(s, j) == if j in s.fields then s.fields[j] else ""
    {
      SyncedValue(n, j);
      SyncedValue(s, j);
    }
  }

  lemma IsTrader(s: SkillSession)
    requires Synced(s)
    ensures s.name.Trader?
  {
  }

  /** Nothing set is ever blanked, and no draft field outside the two keys is touched. */
  ghost predicate Extends(s: SkillSession, n: SkillSession, idKey: FieldKey, nameKey: FieldKey) {
    && Synced(n) && n.action == s.action && n.phase == s.phase
    && (forall k :: IsSlot(k) && k != idKey && k != nameKey ==> FieldValue(n, k) == FieldValue(s, k))
    && (forall k :: IsSlot(k) && FieldValue(s, k) != "" ==> FieldValue(n, k) != "")
  }

  /** Saving and loading keeps every draft field. */
  lemma StoreKeepsDraft(s: SkillSession, now: int, aliasWins: bool)
    requires Synced(s)
    ensures var n := NormalizeSkillSession(s, now, aliasWins);
            && Synced(n) && n.action == s.action && n.phase == s.phase
            && forall k :: IsSlot(k) ==> FieldValue(n, k) == FieldValue(s, k)
  {
    hide Trim, FieldValue, SlotPart;
    TidyFieldsKept(s.name, s.fields, aliasWins);
    var m := s.(targetRef := NormalizeEntityReference(s.targetRef, now));
    var n := NormalizeSkillSession(s, now, aliasWins);
    SlotsKeepDraft(m);
    forall k | IsSlot(k)
      ensures FieldValue(n, k) == FieldValue(s, k)
    {
      SyncedValue(n, k);
      SyncedValue(s, k);
    }
  }

  lemma SlotsKeepDraft(s: SkillSession)
    requires Synced(s)
    ensures var n := NormalizeSlots(s);
            && Synced(n) && n.action == s.action && n.phase == s.phase
            && forall k :: IsSlot(k) ==>
                 (k in n.fields <==> k in s.fields) && (k in n.fields ==> n.fields[k] == s.fields[k])
  {
    hide Trim, Lower, NoSlotFields;
    NormalizeSlotsMirrored(s);
    if s.slots.Some? {
      var slots := s.slots.value;
      SlotPartTidy(s.name, s.fields);
      SlotPartKeys(s.fields);
      assert s.fields + SlotPart(s.fields) == s.fields;
      assert Filled(s.fields, slots) == s.fields + AutoEntry(slots.autoStart);
      var f := Filled(s.fields, slots);
      SlotPartSame(s.fields, f);
      assert SlotPart(s.fields) + SlotPart(s.fields) == SlotPart(s.fields);
    }
  }

  lemma SlotPartSame(f: map<FieldKey, string>, g: map<FieldKey, string>)
    requires forall k :: IsSlot(k) ==> (k in f <==> k in g) && (k in f ==> f[k] == g[k])
    ensures SlotPart(f) == SlotPart(g)
  {
    hide Trim;
  }

  // ------------------------------------------------------------------- hydration

  /** setField on a key whose value no draft normaliser touches. */
  function Put(s: SkillSession, key: FieldKey, value: string): SkillSession {
    SetField(s, key, value, t => "")
  }

  /** An id missing beside a name is looked up by that name. */
  function IdFromName(s: SkillSession, idKey: FieldKey, nameKey: FieldKey, options: seq<TargetOption>): SkillSession {
    if FieldValue(s, idKey) != "" || FieldValue(s, nameKey) == "" then s
    else
      var found := Found(options, FieldValue(s, nameKey));
      if found.Some? then Put(s, idKey, found.value.id) else s
  }

  /** A present id is made canonical and brings its name. */
  function NameFromId(s: SkillSession, idKey: FieldKey, nameKey: FieldKey, options: seq<TargetOption>): SkillSession {
    if FieldValue(s, idKey) == "" then s
    else
      var found := OptionByIdOrName(options, FieldValue(s, idKey));
      if found.None? then s
      else
        var t := Put(s, idKey, found.value.id);
        if FieldValue(t, nameKey) == "" then Put(t, nameKey, found.value.name) else t
  }

  function HydrateSlot(s: SkillSession, idKey: FieldKey, nameKey: FieldKey, options: seq<TargetOption>): SkillSession {
    NameFromId(IdFromName(s, idKey, nameKey, options), idKey, nameKey, options)
  }

  /** hydrateCreateTraderSlotReferences. */
  function Hydrate(s: SkillSession, c: Catalog): SkillSession {
    HydrateSlot(HydrateSlot(HydrateSlot(s, ExchangeId, ExchangeName, c.exchanges), ModelId, ModelName, c.models),
                StrategyId, StrategyName, c.strategies)
  }

  lemma PutExtends(s: SkillSession, key: FieldKey, value: string)
    requires Synced(s) && IsSlot(key) && !key.Name?
    ensures var n := Put(s, key, value);
            && Extends(s, n, key, key)
            && FieldValue(n, key) == if Trim(value) != "" then Trim(value) else FieldValue(s, key)
  {
    hide Trim, FieldValue;
    var unused := (t: string) => "";
    assert DraftsTrimmed(unused);
    SetFieldSynced(s, key, value, unused);
    assert Put(s, key, value) == SetField(s, key, value, unused);
  }

  lemma ExtendsTrans(s: SkillSession, m: SkillSession, n: SkillSession, idKey: FieldKey, nameKey: FieldKey)
    requires (Extends(s, m, idKey, nameKey) || Extends(s, m, idKey, idKey) || Extends(s, m, nameKey, nameKey))
    requires (Extends(m, n, idKey, nameKey) || Extends(m, n, idKey, idKey) || Extends(m, n, nameKey, nameKey))
    ensures Extends(s, n, idKey, nameKey)
  {
    hide FieldValue, Synced, IsSlot;
  }

  lemma IdFromNameExtends(s: SkillSession, idKey: FieldKey, nameKey: FieldKey, options: seq<TargetOption>)
    requires Synced(s) && IsSlot(idKey) && !idKey.Name?
    ensures var m := IdFromName(s, idKey, nameKey, options);
            Extends(s, m, idKey, nameKey) && (FieldValue(s, idKey) != "" ==> m == s)
  {
    hide Trim, FieldValue, Put, Found, Synced;
    var found := Found(options, FieldValue(s, nameKey));
    if found.Some? {
      PutExtends(s, idKey, found.value.id);
    }
  }

  lemma NameFromIdExtends(s: SkillSession, idKey: FieldKey, nameKey: FieldKey, options: seq<TargetOption>)
    requires Synced(s) && IsSlot(idKey) && IsSlot(nameKey) && !idKey.Name? && !nameKey.Name? && idKey != nameKey
    ensures var n := NameFromId(s, idKey, nameKey, options);
            && Extends(s, n, idKey, nameKey)
            && (StillListed(options, FieldValue(s, idKey)) ==> FieldValue(n, idKey) == FieldValue(s, idKey))
  {
    hide Trim, FieldValue, Put, OptionByIdOrName, StillListed;
    var id := FieldValue(s, idKey);
    var found := OptionByIdOrName(options, id);
    if StillListed(options, id) {
      ListedIsFound(options, id);
    }
    if id != "" && found.Some? {
      var t := Put(s, idKey, found.value.id);
      PutExtends(s, idKey, found.value.id);
      if FieldValue(t, nameKey) == "" {
        PutExtends(t, nameKey, found.value.name);
        ExtendsTrans(s, t, Put(t, nameKey, found.value.name), idKey, nameKey);
      } else {
        ExtendsTrans(s, s, t, idKey, nameKey);
      }
    }
  }

  lemma HydrateSlotExtends(s: SkillSession, idKey: FieldKey, nameKey: FieldKey, options: seq<TargetOption>)
    requires Synced(s) && IsSlot(idKey) && IsSlot(nameKey) && !idKey.Name? && !nameKey.Name? && idKey != nameKey
    ensures var n := HydrateSlot(s, idKey, nameKey, options);
            && Extends(s, n, idKey, nameKey)
            && (StillListed(options, FieldValue(s, idKey)) ==> FieldValue(n, idKey) == FieldValue(s, idKey))
  {
    hide FieldValue, IdFromName, NameFromId, Synced, StillListed;
    var m := IdFromName(s, idKey, nameKey, options);
    IdFromNameExtends(s, idKey, nameKey, options);
    assert Synced(m);
    NameFromIdExtends(m, idKey, nameKey, options);
    ExtendsTrans(s, m, HydrateSlot(s, idKey, nameKey, options), idKey, nameKey);
    if StillListed(options, FieldValue(s, idKey)) {
      ListedIsFound(options, FieldValue(s, idKey));
    }
  }

  lemma ListedIsFound(options: seq<TargetOption>, id: string)
    requires StillListed(options, id)
    ensures id != "" && Trim(id) == id
    ensures var o := OptionByIdOrName(options, id); o.Some? && o.value.id == id
  {
    hide Trim, Answers;
    TrimLaws(id);
    ListedAnswers(options, id);
  }

  /** A name alone finds its option's id; an id alone brings its option's name. */
  lemma HydrateSlotCompletes(s: SkillSession, idKey: FieldKey, nameKey: FieldKey, options: seq<TargetOption>,
                             o: TargetOption)
    requires Synced(s) && IsSlot(idKey) && IsSlot(nameKey) && !idKey.Name? && !nameKey.Name? && idKey != nameKey
    requires StillListed(options, o.id)
    ensures FieldValue(s, idKey) == "" && FieldValue(s, nameKey) != ""
            && Found(options, FieldValue(s, nameKey)) == Some(o) ==>
              FieldValue(HydrateSlot(s, idKey, nameKey, options), idKey) == o.id
    ensures FieldValue(s, idKey) == o.id && FieldValue(s, nameKey) == ""
            && OptionByIdOrName(options, o.id) == Some(o) ==>
              FieldValue(HydrateSlot(s, idKey, nameKey, options), nameKey) == Trim(o.name)
  {
    hide Trim, FieldValue, Put, Found, OptionByIdOrName, Synced, StillListed;
    ListedIsFound(options, o.id);
    PutExtends(s, idKey, o.id);
    var t := Put(s, idKey, o.id);
    NameFromIdExtends(t, idKey, nameKey, options);
    PutExtends(t, nameKey, o.name);
  }

  // ---------------------------------------------------------------------- drafts

  datatype Draft = Draft(name: string, exchangeId: string, modelId: string, strategyId: string)

  function DraftOf(s: SkillSession): Draft {
    Draft(FieldValue(s, Name), FieldValue(s, ExchangeId), FieldValue(s, ModelId), FieldValue(s, StrategyId))
  }

  predicate Complete(d: Draft) {
    d.name != "" && d.exchangeId != "" && d.modelId != "" && d.strategyId != ""
  }

  predicate Waiting(s: SkillSession) {
    s.phase.AwaitStartConfirmation? || s.phase.AwaitCreateConfirmation?
  }

  /** Every id of the draft still names exactly its own option. */
  predicate DraftListed(d: Draft, c: Catalog) {
    StillListed(c.exchanges, d.exchangeId) && StillListed(c.models, d.modelId)
    && StillListed(c.strategies, d.strategyId)
  }

  /** Hydration completes drafts, never empties them, and keeps ids that are still listed. */
  lemma HydrateKeeps(s: SkillSession, c: Catalog)
    requires Synced(s)
    ensures var n := Hydrate(s, c);
            && Synced(n) && n.action == s.action && n.phase == s.phase
            && DraftOf(n).name == DraftOf(s).name
            && (Complete(DraftOf(s)) ==> Complete(DraftOf(n)))
            && (DraftListed(DraftOf(s), c) ==> DraftOf(n) == DraftOf(s))
  {
    hide FieldValue, HydrateSlot, StillListed, Synced;
    var a := HydrateSlot(s, ExchangeId, ExchangeName, c.exchanges);
    var b := HydrateSlot(a, ModelId, ModelName, c.models);
    HydrateSlotExtends(s, ExchangeId, ExchangeName, c.exchanges);
    HydrateSlotExtends(a, ModelId, ModelName, c.models);
    HydrateSlotExtends(b, StrategyId, StrategyName, c.strategies);
  }

  /** Exchange, model and strategy given by name alone are found, each among its own options. */
  lemma NamedPartsFound(s: SkillSession, c: Catalog, o: TargetOption)
    requires Synced(s)
    ensures FieldValue(s, ExchangeId) == "" && FieldValue(s, ExchangeName) != "" && StillListed(c.exchanges, o.id)
            && Found(c.exchanges, FieldValue(s, ExchangeName)) == Some(o) ==>
              DraftOf(Hydrate(s, c)).exchangeId == o.id
    ensures FieldValue(s, ModelId) == "" && FieldValue(s, ModelName) != "" && StillListed(c.models, o.id)
            && Found(c.models, FieldValue(s, ModelName)) == Some(o) ==>
              DraftOf(Hydrate(s, c)).modelId == o.id
    ensures FieldValue(s, StrategyId) == "" && FieldValue(s, StrategyName) != "" && StillListed(c.strategies, o.id)
            && Found(c.strategies, FieldValue(s, StrategyName)) == Some(o) ==>
              DraftOf(Hydrate(s, c)).strategyId == o.id
  {
    hide FieldValue, HydrateSlot, StillListed, Synced, Found;
    var a := HydrateSlot(s, ExchangeId, ExchangeName, c.exchanges);
    var b := HydrateSlot(a, ModelId, ModelName, c.models);
    HydrateSlotExtends(s, ExchangeId, ExchangeName, c.exchanges);
    HydrateSlotExtends(a, ModelId, ModelName, c.models);
    HydrateSlotExtends(b, StrategyId, StrategyName, c.strategies);
    if StillListed(c.exchanges, o.id) {
      HydrateSlotCompletes(s, ExchangeId, ExchangeName, c.exchanges, o);
    }
    if StillListed(c.models, o.id) {
      HydrateSlotCompletes(a, ModelId, ModelName, c.models, o);
    }
    if StillListed(c.strategies, o.id) {
      HydrateSlotCompletes(b, StrategyId, StrategyName, c.strategies, o);
    }
  }

  // -------------------------------------------------------------------- one turn

  /** The create tool's answer; `Refused(true)` is an error that keeps the session. */
  datatype Created = Refused(preserve: bool) | Unverified | CreatedAs(id: string)

  /** A turn: the readings of its text, the live options, the draft validator, and what the
      create tool would answer. */
  datatype CreateTurn = CreateTurn(
    isYes: bool, isNo: bool, isCancel: bool,
    catalog: Catalog,
    valid: (string, string, string) -> bool,
    outcome: Created)

  datatype ToolUse = CreateTool(draft: Draft) | StartTool(id: string)

  /** `shown` says the reply showed the draft and asked for confirmation. */
  datatype CreateEffect = CreateEffect(write: Write, tools: seq<ToolUse>, shown: bool)

  const NEW_DRAFT := SkillSession(Trader, Create, Collecting, None, map[], None, Unstamped)

  /** executeCreateTraderSkill. */
  function ExecuteCreate(s: SkillSession, turn: CreateTurn, start: bool): CreateEffect {
    var h := Hydrate(s, turn.catalog);
    var create := CreateTool(DraftOf(h));
    match turn.outcome
    case Refused(preserve) => CreateEffect(if preserve then Save(h.(phase := Collecting)) else Cleared, [create], false)
    case Unverified => CreateEffect(Cleared, [create], false)
    case CreatedAs(id) => CreateEffect(Cleared, if start && id != "" then [create, StartTool(id)] else [create], false)
  }

  predicate Rejected(d: Draft, turn: CreateTurn) {
    d.exchangeId != "" && d.modelId != "" && d.strategyId != "" && !turn.valid(d.modelId, d.exchangeId, d.strategyId)
  }

  /** The collecting half of handleCreateTraderSkill, on the hydrated session. */
  function Collect(h: SkillSession, turn: CreateTurn): CreateEffect {
    var d := DraftOf(h);
    if Rejected(d, turn) || !Complete(d) then CreateEffect(Save(h.(phase := Collecting)), [], false)
    else if FieldValue(h, AutoStart) == "true" then CreateEffect(Save(h.(phase := AwaitStartConfirmation)), [], true)
    else CreateEffect(Save(h.(phase := AwaitCreateConfirmation)), [], true)
  }

  /** handleCreateTraderSkill. */
  function HandleCreate(s0: SkillSession, turn: CreateTurn): CreateEffect {
    var s := MirrorSlots(if s0.name.NoSkill? then NEW_DRAFT else s0);
    if s.phase.AwaitStartConfirmation? && turn.isYes then ExecuteCreate(s, turn, true)
    else if s.phase.AwaitStartConfirmation? && turn.isNo then ExecuteCreate(s, turn, false)
    else if s.phase.AwaitCreateConfirmation? && turn.isYes then ExecuteCreate(s, turn, false)
    else if s.phase.AwaitCreateConfirmation? && (turn.isNo || turn.isCancel)
      then CreateEffect(Save(s.(phase := Collecting)), [], false)
    else Collect(Hydrate(s, turn.catalog), turn)
  }

  /** A stored draft session: mirrored, and complete while it waits. */
  predicate Sound(s: SkillSession) {
    Synced(s) && s.action.Create? && (Waiting(s) ==> Complete(DraftOf(s)))
  }

  lemma MirrorKeepsDraft(s: SkillSession)
    requires Synced(s)
    ensures var m := MirrorSlots(s);
            Synced(m) && m.phase == s.phase && m.action == s.action && DraftOf(m) == DraftOf(s)
  {
    hide Trim, Lower, FieldValue;
    var m := MirrorSlots(s);
    assert SlotPart(s.fields) + SlotPart(s.fields) == SlotPart(s.fields);
    assert map[] + SlotPart(s.fields) == SlotPart(s.fields);
    SyncedDraft(s);
    SyncedDraft(m);
  }

  lemma SyncedDraft(s: SkillSession)
    requires Synced(s)
    ensures DraftOf(s) == Draft(
              if Name in s.fields then s.fields[Name] else "", if ExchangeId in s.fields then s.fields[ExchangeId]
                else "",
              if ModelId in s.fields then s.fields[ModelId] else "", if StrategyId in s.fields
                then s.fields[StrategyId] else "")
  {
    hide FieldValue, Synced;
    SyncedValue(s, Name);
    SyncedValue(s, ExchangeId);
    SyncedValue(s, ModelId);
    SyncedValue(s, StrategyId);
  }

  lemma PhaseOnly(s: SkillSession, phase: Phase)
    ensures DraftOf(s.(phase := phase)) == DraftOf(s)
    ensures Synced(s) ==> Synced(s.(phase := phase))
  {
    hide Trim;
  }

  lemma NewDraftSound()
    ensures Sound(NEW_DRAFT)
  {
  }

  /** The create tool runs exactly on a yes to either waiting phase or a no to the starting one,
      with a complete draft, at most once and leaving no wait behind; the start tool only after a
      successful create on a yes to the starting prompt; a wait begins only where the complete
      draft was shown. */
  lemma CreateSafety(s0: SkillSession, turn: CreateTurn)
    requires s0.name.NoSkill? || Sound(s0)
    ensures var e := HandleCreate(s0, turn);
            var s := if s0.name.NoSkill? then NEW_DRAFT else s0;
            && (e.tools != [] <==>
                  || (s.phase.AwaitStartConfirmation? && (turn.isYes || turn.isNo))
                  || (s.phase.AwaitCreateConfirmation? && turn.isYes))
            && (e.tools != [] ==>
                  && e.tools[0].CreateTool? && Complete(e.tools[0].draft)
                  && (DraftListed(DraftOf(s), turn.catalog) ==> e.tools[0].draft == DraftOf(s))
                  && (e.write.Cleared?
                      || (e.write.Save? && turn.outcome == Refused(true) && e.write.session.phase.Collecting?)))
            && (|e.tools| > 1 <==>
                  s.phase.AwaitStartConfirmation? && turn.isYes && turn.outcome.CreatedAs? && turn.outcome.id != "")
            && (|e.tools| > 1 ==> e.tools[1..] == [StartTool(turn.outcome.id)])
            && !e.write.Untouched?
            && (e.write.Save? ==> Sound(e.write.session) && (Waiting(e.write.session) <==> e.shown))
            && (e.shown ==> e.write.Save?)
  {
    hide Hydrate, DraftListed, Synced, DraftOf, MirrorSlots, FieldValue;
    var s := if s0.name.NoSkill? then NEW_DRAFT else s0;
    NewDraftSound();
    MirrorKeepsDraft(s);
    var m := MirrorSlots(s);
    HydrateKeeps(m, turn.catalog);
    var h := Hydrate(m, turn.catalog);
    PhaseOnly(h, Collecting);
    PhaseOnly(h, AwaitStartConfirmation);
    PhaseOnly(h, AwaitCreateConfirmation);
    PhaseOnly(m, Collecting);
  }

  /** A turn that answers no waiting phase shows the hydrated draft exactly if nothing is missing from it
      and its parts validate, and else goes on collecting it; turning a creation down keeps the draft. */
  lemma ShownIff(s0: SkillSession, turn: CreateTurn)
    ensures var e := HandleCreate(s0, turn);
            var s := MirrorSlots(if s0.name == NoSkill then NEW_DRAFT else s0);
            var starting := s.phase == AwaitStartConfirmation && (turn.isYes || turn.isNo);
            var creating := s.phase == AwaitCreateConfirmation && (turn.isYes || turn.isNo || turn.isCancel);
            var h := Hydrate(s, turn.catalog);
            var d := DraftOf(h);
            && (e.shown <==>
                  && !starting && !creating
                  && d.name != "" && d.exchangeId != "" && d.modelId != "" && d.strategyId != ""
                  && turn.valid(d.modelId, d.exchangeId, d.strategyId))
            && (!starting && !creating && !e.shown ==>
                  e.tools == [] && e.write == Save(h.(phase := Collecting)))
            && (creating && !turn.isYes ==>
                  e.tools == [] && e.write == Save(s.(phase := Collecting)))
  {
    hide Hydrate, DraftOf, MirrorSlots, FieldValue;
  }

  /** A shown draft waits for the starting answer exactly if its auto_start reads "true", and for the
      creating one otherwise. */
  lemma ShownPhase(s0: SkillSession, turn: CreateTurn)
    ensures var e := HandleCreate(s0, turn);
            e.shown ==>
              && e.write.Save?
              && e.write.session.phase == (if FieldValue(e.write.session, AutoStart) == "true"
                                           then AwaitStartConfirmation else AwaitCreateConfirmation)
  {
    hide Hydrate, MirrorSlots, DraftOf, Complete, FieldValue;
    var h := Hydrate(MirrorSlots(if s0.name.NoSkill? then NEW_DRAFT else s0), turn.catalog);
    PhaseUnread(h, AwaitStartConfirmation);
    PhaseUnread(h, AwaitCreateConfirmation);
  }

  lemma PhaseUnread(s: SkillSession, phase: Phase)
    ensures FieldValue(s.(phase := phase), AutoStart) == FieldValue(s, AutoStart)
  {
  }

  /** A draft shown, stored and then agreed to is created, and started exactly if it was shown with
      auto_start "true" and the creation returned an id. */
  lemma ShownThenYes(s0: SkillSession, ask: CreateTurn, yes: CreateTurn, now: int, aliasWins: bool)
    requires s0.name.NoSkill? || Sound(s0)
    requires HandleCreate(s0, ask).shown && yes.isYes
    ensures HandleCreate(s0, ask).write.Save?
    ensures var shown := HandleCreate(s0, ask).write.session;
            var tools := HandleCreate(NormalizeSkillSession(shown, now, aliasWins), yes).tools;
            && tools != [] && tools[0].CreateTool?
            && ((exists i :: 0 <= i < |tools| && tools[i].StartTool?) <==>
                  FieldValue(shown, AutoStart) == "true" && yes.outcome.CreatedAs? && yes.outcome.id != "")
  {
    hide HandleCreate, NormalizeSkillSession, FieldValue, Sound;
    CreateSafety(s0, ask);
    ShownPhase(s0, ask);
    var shown := HandleCreate(s0, ask).write.session;
    SoundThroughStore(shown, now, aliasWins);
    TraderNamed(shown);
    StoreKeeps(shown, now, aliasWins, "");
    YesStarts(NormalizeSkillSession(shown, now, aliasWins), yes);
  }

  lemma YesStarts(s: SkillSession, yes: CreateTurn)
    requires Sound(s) && !s.name.NoSkill? && Waiting(s) && yes.isYes
    ensures var tools := HandleCreate(s, yes).tools;
            && tools != [] && tools[0].CreateTool?
            && ((exists i :: 0 <= i < |tools| && tools[i].StartTool?) <==>
                  s.phase == AwaitStartConfirmation && yes.outcome.CreatedAs? && yes.outcome.id != "")
  {
    hide HandleCreate, Sound, DraftListed, DraftOf, Complete;
    CreateSafety(s, yes);
    var tools := HandleCreate(s, yes).tools;
    if |tools| > 1 {
      assert tools[1..][0] == tools[1];
    }
  }

  /** Executing a complete draft creates it once, still complete, and starts it only where asked and
      only the trader created; the session survives only a correctable error, collecting again. */
  lemma ExecuteCreateSafe(s: SkillSession, turn: CreateTurn, start: bool)
    requires Synced(s) && s.action.Create? && Complete(DraftOf(s))
    ensures var e := ExecuteCreate(s, turn, start);
            && e.tools != [] && e.tools[0].CreateTool? && Complete(e.tools[0].draft) && !e.shown
            && (DraftListed(DraftOf(s), turn.catalog) ==> e.tools[0].draft == DraftOf(s))
            && (forall i :: 0 < i < |e.tools| ==>
                  start && turn.outcome.CreatedAs? && e.tools[i] == StartTool(turn.outcome.id) && turn.outcome.id != ""
                  && i == 1)
            && (e.write.Save? ==>
                  turn.outcome == Refused(true) && Sound(e.write.session) && e.write.session.phase.Collecting?)
            && (turn.outcome != Refused(true) ==> e.write.Cleared?)
  {
    hide Hydrate, DraftListed, Synced, DraftOf, FieldValue, Complete;
    HydrateKeeps(s, turn.catalog);
    PhaseOnly(Hydrate(s, turn.catalog), Collecting);
  }

  // -------------------------------------------------------- the imperative handlers

  method IdFromNameInPlace(before: SkillSession, idKey: FieldKey, nameKey: FieldKey, options: seq<TargetOption>)
    returns (session: SkillSession)
    ensures session == IdFromName(before, idKey, nameKey, options)
  {
    hide FieldValue, Put, OptionByIdOrName, UniqueContaining;
    session := before;
    if FieldValue(session, idKey) == "" && FieldValue(session, nameKey) != "" {
      var found := FindOptionByIdOrName(options, FieldValue(session, nameKey));
      if found.None? {
        found := FindUniqueContainingOption(options, FieldValue(session, nameKey));
      }
      if found.Some? {
        session := Put(session, idKey, found.value.id);
      }
    }
  }

  method NameFromIdInPlace(before: SkillSession, idKey: FieldKey, nameKey: FieldKey, options: seq<TargetOption>)
    returns (session: SkillSession)
    ensures session == NameFromId(before, idKey, nameKey, options)
  {
    hide FieldValue, Put, OptionByIdOrName;
    session := before;
    if FieldValue(session, idKey) != "" {
      var found := FindOptionByIdOrName(options, FieldValue(session, idKey));
      if found.Some? {
        session := Put(session, idKey, found.value.id);
        if FieldValue(session, nameKey) == "" {
          session := Put(session, nameKey, found.value.name);
        }
      }
    }
  }

  /** One third of hydrateCreateTraderSlotReferences. */
  method HydrateSlotInPlace(before: SkillSession, idKey: FieldKey, nameKey: FieldKey, options: seq<TargetOption>)
    returns (session: SkillSession)
    ensures session == HydrateSlot(before, idKey, nameKey, options)
  {
    hide IdFromName, NameFromId;
    session := IdFromNameInPlace(before, idKey, nameKey, options);
    session := NameFromIdInPlace(session, idKey, nameKey, options);
  }

  method HydrateInPlace(before: SkillSession, c: Catalog) returns (session: SkillSession)
    ensures session == Hydrate(before, c)
  {
    hide HydrateSlot;
    session := HydrateSlotInPlace(before, ExchangeId, ExchangeName, c.exchanges);
    session := HydrateSlotInPlace(session, ModelId, ModelName, c.models);
    session := HydrateSlotInPlace(session, StrategyId, StrategyName, c.strategies);
  }

  /** The trader-create branch of missingFieldKeysForSkillSession. */
  method MissingFieldKeys(s: SkillSession) returns (missing: seq<FieldKey>)
    ensures forall k :: k in missing <==>
              || (k.Name? && DraftOf(s).name == "") || (k.ExchangeName? && DraftOf(s).exchangeId == "")
              || (k.ModelName? && DraftOf(s).modelId == "") || (k.StrategyName? && DraftOf(s).strategyId == "")
    ensures missing == [] <==> Complete(DraftOf(s))
  {
    hide FieldValue;
    missing := [];
    if FieldValue(s, Name) == "" {
      missing := missing + [Name];
    }
    if FieldValue(s, ExchangeId) == "" {
      missing := missing + [ExchangeName];
    }
    if FieldValue(s, ModelId) == "" {
      missing := missing + [ModelName];
    }
    if FieldValue(s, StrategyId) == "" {
      missing := missing + [StrategyName];
    }
  }

  /** executeCreateTraderSkill, tool by tool. */
  method ExecuteCreateTrader(before: SkillSession, turn: CreateTurn, startAfterCreate: bool) returns (e: CreateEffect)
    ensures e == ExecuteCreate(before, turn, startAfterCreate)
    ensures e.tools != [] && e.tools[0] == CreateTool(DraftOf(Hydrate(before, turn.catalog))) && !e.shown
    ensures if startAfterCreate && turn.outcome.CreatedAs? && turn.outcome.id != ""
              then e.tools[1..] == [StartTool(turn.outcome.id)]
            else |e.tools| == 1
    ensures e.write.Save? <==> turn.outcome == Refused(true)
    ensures e.write.Save? ==> e.write.session == Hydrate(before, turn.catalog).(phase := Collecting)
    ensures !e.write.Save? ==> e.write.Cleared?
  {
    hide DraftOf, Hydrate;
    var session := HydrateInPlace(before, turn.catalog);
    var tools := [CreateTool(DraftOf(session))];
    if turn.outcome.Refused? {
      if turn.outcome.preserve {
        session := session.(phase := Collecting);
        return CreateEffect(Save(session), tools, false);
      }
      return CreateEffect(Cleared, tools, false);
    }
    if turn.outcome.Unverified? || turn.outcome.id == "" {
      return CreateEffect(Cleared, tools, false);
    }
    if !startAfterCreate {
      return CreateEffect(Cleared, tools, false);
    }
    tools := tools + [StartTool(turn.outcome.id)];
    return CreateEffect(Cleared, tools, false);
  }

  /** handleCreateTraderSkill. */
  method HandleCreateTrader(loaded: SkillSession, turn: CreateTurn) returns (e: CreateEffect)
    ensures e == HandleCreate(loaded, turn)
  {
    hide FieldValue, MirrorSlots, Hydrate, DraftOf;
    var session := loaded;
    if session.name.NoSkill? {
      session := NEW_DRAFT;
    }
    session := MirrorSlots(session);
    if session.phase.AwaitStartConfirmation? {
      if turn.isYes {
        e := ExecuteCreateTrader(session, turn, true);
        return;
      } else if turn.isNo {
        e := ExecuteCreateTrader(session, turn, false);
        return;
      }
    }
    if session.phase.AwaitCreateConfirmation? {
      if turn.isYes {
        e := ExecuteCreateTrader(session, turn, false);
        return;
      } else if turn.isNo || turn.isCancel {
        session := session.(phase := Collecting);
        return CreateEffect(Save(session), [], false);
      }
    }
    session := HydrateInPlace(session, turn.catalog);
    var d := DraftOf(session);
    if d.exchangeId != "" && d.modelId != "" && d.strategyId != "" {
      if !turn.valid(d.modelId, d.exchangeId, d.strategyId) {
        session := session.(phase := Collecting);
        return CreateEffect(Save(session), [], false);
      }
    }
    var missing := MissingFieldKeys(session);
    if |missing| > 0 {
      session := session.(phase := Collecting);
      return CreateEffect(Save(session), [], false);
    }
    if FieldValue(session, AutoStart) == "true" {
      session := session.(phase := AwaitStartConfirmation);
      return CreateEffect(Save(session), [], true);
    }
    session := session.(phase := AwaitCreateConfirmation);
    return CreateEffect(Save(session), [], true);
  }

  // ---------------------------------------------------- what extraction does to a draft

  lemma SoundSynced(s: SkillSession)
    requires Sound(s)
    ensures Synced(s)
  {
  }

  lemma SoundThroughStore(s: SkillSession, now: int, aliasWins: bool)
    requires Sound(s)
    ensures var n := NormalizeSkillSession(s, now, aliasWins);
            Sound(n) && n.phase == s.phase && DraftOf(n) == DraftOf(s) && !n.name.NoSkill?
  {
    hide FieldValue, NormalizeSkillSession;
    StoreKeepsDraft(s, now, aliasWins);
  }

  lemma WritingKeepsDraft(s: SkillSession, key: FieldKey, value: string, draftName: string -> string)
    requires Sound(s) && DraftsTrimmed(draftName) && key != OtherField("")
    ensures var n := SetField(s, key, value, draftName);
            Sound(n) && n.phase == s.phase && (Complete(DraftOf(s)) ==> Complete(DraftOf(n)))
  {
    hide FieldValue, SetField, Synced, DraftsTrimmed;
    SetFieldSynced(s, key, value, draftName);
  }

  /** The draft created is the stored one: it is the draft `d` that was shown exactly when the
      stored draft still is. */
  lemma CreationFollowsDraft(s: SkillSession, turn: CreateTurn, d: Draft)
    requires Sound(s) && Waiting(s) && turn.isYes && DraftListed(DraftOf(s), turn.catalog)
    ensures var e := HandleCreate(s, turn);
            e.tools != [] && (e.tools[0] == CreateTool(d) <==> DraftOf(s) == d)
  {
    hide HandleCreate, DraftListed, Synced, DraftOf, FieldValue;
    CreateSafety(s, turn);
    SoundSynced(s);
    TraderNamed(s);
  }

  lemma TraderNamed(s: SkillSession)
    requires Sound(s)
    ensures s.name.Trader?
  {
  }

  /** So a field extracted after the draft was shown is created unshown. */
  lemma ExtractedDraftUnshown(s: SkillSession, key: FieldKey, value: string, draftName: string -> string,
                              turn: CreateTurn)
    requires Sound(s) && Waiting(s) && turn.isYes && DraftsTrimmed(draftName)
    requires key.ExchangeId? || key.ModelId? || key.StrategyId?
    requires Trim(value) != "" && Trim(value) != FieldValue(s, key)
    requires DraftListed(DraftOf(SetField(s, key, value, draftName)), turn.catalog)
    ensures var edited := SetField(s, key, value, draftName);
            var e := HandleCreate(edited, turn);
            e.tools != [] && e.tools[0] == CreateTool(DraftOf(edited)) && DraftOf(edited) != DraftOf(s)
  {
    hide HandleCreate, DraftListed, Synced, FieldValue, SetField, DraftsTrimmed, Trim;
    SoundSynced(s);
    SetFieldSynced(s, key, value, draftName);
    WritingKeepsDraft(s, key, value, draftName);
    CreationFollowsDraft(SetField(s, key, value, draftName), turn, DraftOf(SetField(s, key, value, draftName)));
  }
}
