/** The legacy skill session of agent/skill_dispatcher.go and its field accessors. */
module SkillSessions {
  import opened Seqs
  import opened Text
  import opened Records

  datatype Skill = NoSkill | Trader | Exchange | Model | Strategy | OtherSkill(name: string)

  datatype Action = NoAction | Create | Delete | Start | Stop | OtherAction(name: string)

  datatype Phase = NoPhase | Collecting | AwaitConfirmation | AwaitCreateConfirmation | AwaitStartConfirmation
  | OtherPhase(name: string)

  /** A field key after trimming; `OtherField("")` is the blank key. */
  datatype FieldKey =
    | Name | ExchangeId | ExchangeName | ModelId | ModelName | StrategyId | StrategyName
    | AutoStart | AiModelId | BulkScope | DagStep | OtherField(key: string)

  /** The string slots, absent when blank, and the optional auto_start flag. */
  datatype Slots = Slots(text: map<FieldKey, string>, autoStart: Option<bool>)

  datatype SkillSession = SkillSession(
    name: Skill,
    action: Action,
    phase: Phase,
    targetRef: Option<EntityReference>,
    fields: map<FieldKey, string>,
    slots: Option<Slots>,
    updatedAt: Stamp)

  const EMPTY_SESSION := SkillSession(NoSkill, NoAction, NoPhase, None, map[], None, Unstamped)

  predicate IsSlot(k: FieldKey) {
    k.Name? || k.ExchangeId? || k.ExchangeName? || k.ModelId? || k.ModelName? || k.StrategyId? || k.StrategyName?
  }

  function BoolText(b: bool): string {
    if b then "true" else "false"
  }

  /** normalizeFieldKey. */
  function FieldKeyFor(skill: Skill, k: FieldKey): FieldKey {
    if skill.Trader? && k.AiModelId? then ModelId else k
  }

  function TextAt(f: map<FieldKey, string>, k: FieldKey): string {
    if k in f then Trim(f[k]) else ""
  }

  /** fieldValue: the field, else (for traders) its slot. */
  function FieldValue(s: SkillSession, key: FieldKey): string {
    var k := FieldKeyFor(s.name, key);
    if TextAt(s.fields, k) != "" then TextAt(s.fields, k)
    else if s.name.Trader? && s.slots.Some? then
      if IsSlot(k) then TextAt(s.slots.value.text, k)
      else if k.AutoStart? && s.slots.value.autoStart.Some? then BoolText(s.slots.value.autoStart.value)
      else ""
    else ""
  }

  /** The non-blank slot entries of a map, trimmed. */
  function SlotPart(f: map<FieldKey, string>): map<FieldKey, string> {
    map k | k in f && IsSlot(k) && Trim(f[k]) != "" :: Trim(f[k])
  }

  /** syncTraderCreateSlotMirror: non-blank fields overwrite their slots. */
  function MirrorSlots(s: SkillSession): SkillSession {
    if !s.name.Trader? then s
    else s.(slots := Some(MirroredSlots(s.name, s.fields, if s.slots.Some? then s.slots.value else Slots(map[], None))))
  }

  /** setField, given the draft-name normaliser of the trader flow. */
  function SetField(s: SkillSession, key: FieldKey, value: string, draftName: string -> string): SkillSession {
    var k := FieldKeyFor(s.name, key);
    var v := Trim(value);
    var w := if s.name.Trader? && k.Name? then draftName(v) else v;
    if v == "" || w == "" then s else MirrorSlots(s.(fields := s.fields[k := w]))
  }

  /** What was set is what is read, and no other field reads differently. */
  lemma SetThenGet(s: SkillSession, key: FieldKey, value: string, draftName: string -> string, other: FieldKey)
    requires FieldKeyFor(s.name, other) != FieldKeyFor(s.name, key)
    ensures var n := SetField(s, key, value, draftName);
            var v := Trim(value);
            var w := if s.name.Trader? && FieldKeyFor(s.name, key).Name? then draftName(v) else v;
            && (v == "" || w == "" ==> n == s)
            && (v != "" && Trim(w) != "" ==> FieldValue(n, key) == Trim(w))
            && FieldValue(n, other) == FieldValue(s, other)
  {
    hide Trim, Lower;
    var k, o := FieldKeyFor(s.name, key), FieldKeyFor(s.name, other);
    var v := Trim(value);
    var w := if s.name.Trader? && k.Name? then draftName(v) else v;
    TrimLaws("");
    if v != "" && w != "" {
      var f := s.fields[k := w];
      assert TextAt(f, o) == TextAt(s.fields, o);
      assert TextAt(s.fields, o) == "" ==> o !in SlotPart(f);
      assert TextAt(f, k) == Trim(w);
      assert TextAt(map[], o) == "";
    }
  }

  /** A key reads as its own field; a trader session without one reads the slot of that name, or the
      flag's text, if it has them. */
  lemma FieldReads(s: SkillSession, k: FieldKey)
    requires FieldKeyFor(s.name, k) == k
    ensures k in s.fields && Trim(s.fields[k]) != "" ==> FieldValue(s, k) == Trim(s.fields[k])
    ensures (k !in s.fields || Trim(s.fields[k]) == "") && (s.name != Trader || s.slots.None?) ==>
              FieldValue(s, k) == ""
    ensures (k !in s.fields || Trim(s.fields[k]) == "") && s.name == Trader && s.slots.Some? ==>
              FieldValue(s, k) ==
              if k == Name || k == ExchangeId || k == ExchangeName || k == ModelId || k == ModelName || k == StrategyId
                 || k == StrategyName
              then (if k in s.slots.value.text then Trim(s.slots.value.text[k]) else "")
              else if k != AutoStart || s.slots.value.autoStart.None? then ""
              else if s.slots.value.autoStart.value then "true" else "false"
    ensures FieldKeyFor(Trader, AiModelId) == ModelId && FieldKeyFor(Exchange, AiModelId) == AiModelId
  {
    hide Trim;
  }

  // ------------------------------------------------------------ normalisation

  predicate Kept(skill: Skill, f: map<FieldKey, string>, raw: FieldKey) {
    raw in f && FieldKeyFor(skill, raw) != OtherField("") && Trim(f[raw]) != ""
  }

  /** The raw key whose text lands under `k`: when a trader session holds both spellings of
      the model id, map iteration order decides, reported by `aliasWins`. */
  function Source(skill: Skill, f: map<FieldKey, string>, k: FieldKey, aliasWins: bool): FieldKey {
    if skill.Trader? && k.ModelId? && Kept(skill, f, AiModelId) && (aliasWins || !Kept(skill, f, k)) then AiModelId
      else k
  }

  lemma SourceKept(skill: Skill, f: map<FieldKey, string>, r: FieldKey, aliasWins: bool)
    requires Kept(skill, f, r)
    ensures var raw := Source(skill, f, FieldKeyFor(skill, r), aliasWins);
            Kept(skill, f, raw) && FieldKeyFor(skill, raw) == FieldKeyFor(skill, r)
  {
    hide Trim;
  }

  function FieldKeys(skill: Skill, f: map<FieldKey, string>): set<FieldKey> {
    set r | r in f && Kept(skill, f, r) :: FieldKeyFor(skill, r)
  }

  function NormalizeFields(skill: Skill, f: map<FieldKey, string>, aliasWins: bool): map<FieldKey, string> {
    map k | k in FieldKeys(skill, f) :: TextAt(f, Source(skill, f, k, aliasWins))
  }

  function AutoEntry(auto: Option<bool>): map<FieldKey, string> {
    if auto.Some? then map[AutoStart := BoolText(auto.value)] else map[]
  }

  /** None of the trader-create fields carries a value. */
  predicate NoSlotFields(f: map<FieldKey, string>) {
    forall k :: k in f && (IsSlot(k) || k.AutoStart?) ==> Trim(f[k]) == ""
  }

  /** The fields once the slots are written over them. */
  function Filled(f: map<FieldKey, string>, slots: Slots): map<FieldKey, string> {
    f + SlotPart(slots.text) + AutoEntry(slots.autoStart)
  }

  /** The slots once the fields are mirrored back (traders only). */
  function MirroredSlots(skill: Skill, f: map<FieldKey, string>, slots: Slots): Slots {
    if !skill.Trader? then slots
    else
      var auto := TextAt(f, AutoStart);
      Slots(slots.text + SlotPart(f), if auto != "" then Some(Lower(auto) == "true") else slots.autoStart)
  }

  /** The slot half of normalizeSkillSession: slots fill fields, fields are mirrored back. */
  function NormalizeSlots(s: SkillSession): SkillSession {
    match s.slots
    case None => s
    case Some(slots) =>
      var f := Filled(s.fields, slots);
      var mirrored := MirroredSlots(s.name, f, Slots(SlotPart(slots.text), slots.autoStart));
      s.(fields := f, slots := if NoSlotFields(f) then None else Some(mirrored))
  }

  /** normalizeSkillSession. */
  function NormalizeSkillSession(s: SkillSession, now: int, aliasWins: bool): SkillSession {
    if s.name.NoSkill? then EMPTY_SESSION
    else
      var n := NormalizeSlots(s.(targetRef := NormalizeEntityReference(s.targetRef, now),
                                 fields := NormalizeFields(s.name, s.fields, aliasWins)));
      n.(updatedAt := Stamped(s.updatedAt, now))
  }

  /** After a pass a key holds its slot if that is not blank, else its own field, trimmed; blank ones are
      gone.  (The model id of a trader may also come from its other spelling, and auto_start from
      the flag.) */
  lemma PassHolds(s: SkillSession, k: FieldKey, now: int, aliasWins: bool)
    requires !s.name.NoSkill? && k != AutoStart && k != OtherField("") && k != AiModelId
    requires s.name == Trader ==> k != ModelId
    ensures var n := NormalizeSkillSession(s, now, aliasWins);
            var slot := if s.slots.Some? && IsSlot(k) && k in s.slots.value.text then Trim(s.slots.value.text[k])
                        else "";
            var field := if k in s.fields then Trim(s.fields[k]) else "";
            if slot != "" then k in n.fields && n.fields[k] == slot
            else if field != "" then k in n.fields && n.fields[k] == field
            else k !in n.fields
  {
    hide Trim, MirroredSlots, NoSlotFields;
    var f := NormalizeFields(s.name, s.fields, aliasWins);
    assert forall r :: FieldKeyFor(s.name, r) == k <==> r == k;
    assert k in f <==> Kept(s.name, s.fields, k);
  }

  /** A pass keeps skill, action and phase, normalises the target and stamps the session. */
  lemma PassFrame(s: SkillSession, now: int, aliasWins: bool)
    requires !s.name.NoSkill?
    ensures var n := NormalizeSkillSession(s, now, aliasWins);
            && n.name == s.name && n.action == s.action && n.phase == s.phase
            && n.targetRef == NormalizeEntityReference(s.targetRef, now)
            && n.updatedAt == (if s.updatedAt.Unstamped? then At(now) else s.updatedAt)
            && (s.slots.None? ==> n.slots.None?)
    ensures forall e :: e == NormalizeSkillSession(s.(name := NoSkill), now, aliasWins) ==>
              && e.name == NoSkill && e.action == NoAction && e.phase == NoPhase && e.targetRef == None
              && e.fields == map[] && e.slots == None && e.updatedAt == Unstamped
  {
    hide Trim, MirroredSlots, NoSlotFields, NormalizeFields, Filled;
  }

  /** Keys are canonical and values trimmed and non-blank. */
  predicate TidyFields(skill: Skill, f: map<FieldKey, string>) {
    forall k :: k in f ==> FieldKeyFor(skill, k) == k && k != OtherField("") && Trim(f[k]) == f[k] && f[k] != ""
  }

  lemma NormalizedFieldsTidy(skill: Skill, f: map<FieldKey, string>, aliasWins: bool)
    ensures TidyFields(skill, NormalizeFields(skill, f, aliasWins))
  {
    hide Trim;
    var n := NormalizeFields(skill, f, aliasWins);
    forall k | k in n
      ensures Trim(n[k]) == n[k] && n[k] != ""
    {
      var r :| Kept(skill, f, r) && FieldKeyFor(skill, r) == k;
      SourceKept(skill, f, r, aliasWins);
      TrimLaws(f[Source(skill, f, k, aliasWins)]);
    }
  }

  lemma TidyFieldsKept(skill: Skill, f: map<FieldKey, string>, aliasWins: bool)
    requires TidyFields(skill, f)
    ensures NormalizeFields(skill, f, aliasWins) == f
  {
    hide Trim;
    assert forall k :: k in f ==> Kept(skill, f, k) && FieldKeyFor(skill, k) == k;
    assert FieldKeys(skill, f) == f.Keys;
  }

  lemma SlotPartTidy(skill: Skill, f: map<FieldKey, string>)
    ensures TidyFields(skill, SlotPart(f)) && SlotPart(SlotPart(f)) == SlotPart(f)
  {
    hide Trim;
    forall k | k in SlotPart(f)
      ensures Trim(SlotPart(f)[k]) == SlotPart(f)[k]
    {
      TrimLaws(f[k]);
    }
  }

  lemma BoolTextTidy(b: bool)
    ensures Trim(BoolText(b)) == BoolText(b) && BoolText(b) != "" && Lower(BoolText(b)) == BoolText(b)
    ensures BoolText(b) == "true" <==> b
  {
    assert Trimmed("true") && Trimmed("false");
    TrimLaws("true");
    TrimLaws("false");
    assert "true"[0] == 't' && "false"[0] == 'f';
  }

  /** What one pass leaves: tidy fields that agree with the slots, up to the auto_start flag. */
  predicate Mirrored(s: SkillSession) {
    && TidyFields(s.name, s.fields)
    && (s.slots.Some? ==>
          && SlotPart(s.slots.value.text) == s.slots.value.text
          && (forall k :: k in s.slots.value.text ==> k in s.fields && s.fields[k] == s.slots.value.text[k])
          && (s.name.Trader? ==> s.slots.value.text == SlotPart(s.fields))
          && !NoSlotFields(s.fields)
          && (s.slots.value.autoStart.Some? ==> AutoStart in s.fields)
          && (s.name.Trader? && AutoStart in s.fields ==>
                s.slots.value.autoStart == Some(Lower(s.fields[AutoStart]) == "true")))
  }

  /** The stored auto_start text is the one its flag would write. */
  predicate AutoStartSettled(s: SkillSession) {
    s.slots.Some? && s.slots.value.autoStart.Some? ==>
      AutoStart in s.fields && s.fields[AutoStart] == BoolText(s.slots.value.autoStart.value)
  }

  lemma FilledTidy(skill: Skill, f: map<FieldKey, string>, slots: Slots)
    requires TidyFields(skill, f)
    ensures TidyFields(skill, Filled(f, slots))
    ensures forall k :: k in SlotPart(slots.text) ==>
              k in Filled(f, slots) && Filled(f, slots)[k] == SlotPart(slots.text)[k]
  {
    hide Trim, SlotPart, AutoEntry, TidyFields;
    SlotPartTidy(skill, slots.text);
    SlotPartKeys(slots.text);
    AutoEntryTidy(skill, slots.autoStart);
    var text, auto := SlotPart(slots.text), AutoEntry(slots.autoStart);
    TidyUnion(skill, f, text);
    TidyUnion(skill, f + text, auto);
  }

  lemma AutoEntryTidy(skill: Skill, auto: Option<bool>)
    ensures TidyFields(skill, AutoEntry(auto)) && AutoEntry(auto).Keys <= {AutoStart}
  {
    hide Trim, BoolText;
    if auto.Some? {
      BoolTextTidy(auto.value);
    }
  }

  lemma TidyUnion(skill: Skill, f: map<FieldKey, string>, g: map<FieldKey, string>)
    requires TidyFields(skill, f) && TidyFields(skill, g)
    ensures TidyFields(skill, f + g)
  {
    hide Trim;
  }

  lemma SlotPartKeys(f: map<FieldKey, string>)
    ensures forall k :: k in SlotPart(f) ==> IsSlot(k)
  {
  }

  /** Tidy fields that contain the slot texts mirror to exactly those texts. */
  lemma MirrorAbsorbs(skill: Skill, f: map<FieldKey, string>, text: map<FieldKey, string>)
    requires TidyFields(skill, f) && SlotPart(text) == text
    requires forall k :: k in text ==> k in f && f[k] == text[k]
    ensures text + SlotPart(f) == SlotPart(f)
    ensures forall k :: k in SlotPart(f) ==> k in f && SlotPart(f)[k] == f[k]
  {
    hide Trim;
    assert forall k :: k in text ==> k in SlotPart(f) && SlotPart(f)[k] == text[k];
  }

  lemma NormalizeSlotsMirrored(s: SkillSession)
    requires TidyFields(s.name, s.fields)
    ensures Mirrored(NormalizeSlots(s))
  {
    hide Trim, Lower, SlotPart, Filled;
    if s.slots.Some? {
      var slots := s.slots.value;
      var text, f := SlotPart(slots.text), Filled(s.fields, slots);
      SlotPartTidy(s.name, slots.text);
      FilledTidy(s.name, s.fields, slots);
      MirrorAbsorbs(s.name, f, text);
      SlotPartTidy(s.name, f);
      AutoFilled(s.fields, slots);
    }
  }

  lemma AutoFilled(f: map<FieldKey, string>, slots: Slots)
    ensures slots.autoStart.Some? ==>
              && AutoStart in Filled(f, slots) && Filled(f, slots)[AutoStart] == BoolText(slots.autoStart.value)
              && (Lower(BoolText(slots.autoStart.value)) == "true" <==> slots.autoStart.value)
  {
    hide Trim, Lower, SlotPart;
    if slots.autoStart.Some? {
      BoolTextTidy(slots.autoStart.value);
    }
  }

  /** On mirrored slots, filling only rewrites the auto_start text from its flag. */
  lemma FilledMirrored(s: SkillSession)
    requires Mirrored(s) && s.slots.Some?
    ensures Filled(s.fields, s.slots.value) == s.fields + AutoEntry(s.slots.value.autoStart)
    ensures SlotPart(Filled(s.fields, s.slots.value)) == SlotPart(s.fields)
    ensures AutoStartSettled(s) <==> Filled(s.fields, s.slots.value) == s.fields
    ensures !NoSlotFields(Filled(s.fields, s.slots.value))
  {
    hide Trim, Lower;
    var slots := s.slots.value;
    assert s.fields + slots.text == s.fields;
    if slots.autoStart.Some? {
      BoolTextTidy(slots.autoStart.value);
      assert Filled(s.fields, slots)[AutoStart] == BoolText(slots.autoStart.value);
    }
  }

  /** A second slot pass only rewrites the auto_start text from its flag. */
  lemma SecondSlotPass(s: SkillSession)
    requires Mirrored(s)
    ensures var n := NormalizeSlots(s);
            && Mirrored(n) && AutoStartSettled(n)
            && (AutoStartSettled(s) <==> n == s)
  {
    hide Trim, Lower, SlotPart, Filled, NoSlotFields;
    NormalizeSlotsMirrored(s);
    if s.slots.Some? {
      var slots := s.slots.value;
      FilledMirrored(s);
      AutoFilled(s.fields, slots);
      assert SlotPart(s.fields) + SlotPart(s.fields) == SlotPart(s.fields);
    }
  }

  lemma OnePass(s: SkillSession, now: int, aliasWins: bool)
    ensures var n := NormalizeSkillSession(s, now, aliasWins);
            && Mirrored(n) && (!n.name.NoSkill? ==> n.updatedAt.At?) && (n.name.NoSkill? ==> n == EMPTY_SESSION)
  {
    NormalizedFieldsTidy(s.name, s.fields, aliasWins);
    NormalizeSlotsMirrored(s.(targetRef := NormalizeEntityReference(s.targetRef, now),
                              fields := NormalizeFields(s.name, s.fields, aliasWins)));
  }

  /** On the output of one pass a further pass is the slot pass alone. */
  lemma LaterPass(s: SkillSession, now: int, aliasWins: bool, later: int, laterAlias: bool)
    ensures var n := NormalizeSkillSession(s, now, aliasWins);
            NormalizeSkillSession(n, later, laterAlias) == NormalizeSlots(n)
  {
    var n := NormalizeSkillSession(s, now, aliasWins);
    OnePass(s, now, aliasWins);
    if !s.name.NoSkill? {
      TidyFieldsKept(n.name, n.fields, laterAlias);
      EntityReferenceStable(s.targetRef, now, later);
    }
  }

  /** A trader session whose slots carry no auto_start flag spells the field "true" or "false", if at all. */
  predicate AutoStartPlain(s: SkillSession) {
    s.name.Trader? && s.slots.Some? && s.slots.value.autoStart.None? && TextAt(s.fields, AutoStart) != "" ==>
      TextAt(s.fields, AutoStart) == "true" || TextAt(s.fields, AutoStart) == "false"
  }

  lemma AutoStartSource(skill: Skill, f: map<FieldKey, string>, aliasWins: bool)
    ensures AutoStart in NormalizeFields(skill, f, aliasWins) <==> TextAt(f, AutoStart) != ""
    ensures TextAt(f, AutoStart) != "" ==> NormalizeFields(skill, f, aliasWins)[AutoStart] == TextAt(f, AutoStart)
  {
    hide Trim;
    assert forall r :: FieldKeyFor(skill, r) == AutoStart <==> r == AutoStart;
    if TextAt(f, AutoStart) != "" {
      assert Kept(skill, f, AutoStart);
    }
  }

  lemma SettledIffPlain(s: SkillSession, now: int, aliasWins: bool)
    ensures AutoStartSettled(NormalizeSkillSession(s, now, aliasWins)) <==> AutoStartPlain(s)
  {
    hide Trim, Lower, SlotPart, NormalizeFields, NormalizeEntityReference;
    if !s.name.NoSkill? && s.slots.Some? {
      var slots := s.slots.value;
      var fields := NormalizeFields(s.name, s.fields, aliasWins);
      NormalizedFieldsTidy(s.name, s.fields, aliasWins);
      AutoStartSource(s.name, s.fields, aliasWins);
      FilledTidy(s.name, fields, slots);
      AutoFilled(fields, slots);
      SlotPartKeys(slots.text);
      BoolTextTidy(true);
      BoolTextTidy(false);
      if slots.autoStart.None? {
        assert AutoStart in Filled(fields, slots) <==> AutoStart in fields;
      }
    }
  }

  /** The normaliser is idempotent exactly on sessions with a plain auto_start field. */
  lemma SkillIdempotentIff(s: SkillSession, now: int, aliasWins: bool, later: int, laterAlias: bool)
    ensures var n := NormalizeSkillSession(s, now, aliasWins);
            NormalizeSkillSession(n, later, laterAlias) == n <==> AutoStartPlain(s)
  {
    LaterPass(s, now, aliasWins, later, laterAlias);
    OnePass(s, now, aliasWins);
    SecondSlotPass(NormalizeSkillSession(s, now, aliasWins));
    SettledIffPlain(s, now, aliasWins);
  }

  /** The normaliser fixes exactly the empty session and those whose reference, stamp, fields and
      slots are already in order. */
  lemma SkillFixedIff(s: SkillSession, now: int, aliasWins: bool)
    ensures NormalizeSkillSession(s, now, aliasWins) == s <==>
            s == EMPTY_SESSION ||
            (!s.name.NoSkill? && Mirrored(s) && AutoStartSettled(s) && TidyReference(s.targetRef) && s.updatedAt.At?)
  {
    hide Mirrored, AutoStartSettled, NormalizeSlots, NormalizeFields, NormalizeEntityReference, TidyReference;
    ReferenceFixedIff(s.targetRef, now);
    OnePass(s, now, aliasWins);
    LaterPass(s, now, aliasWins, now, aliasWins);
    SecondSlotPass(NormalizeSkillSession(s, now, aliasWins));
    SlotsLeaveReference(s.(targetRef := NormalizeEntityReference(s.targetRef, now),
                           fields := NormalizeFields(s.name, s.fields, aliasWins)));
    if Mirrored(s) {
      MirroredIsTidy(s);
      TidyFieldsKept(s.name, s.fields, aliasWins);
      SecondSlotPass(s);
    }
  }

  lemma MirroredIsTidy(s: SkillSession)
    requires Mirrored(s)
    ensures TidyFields(s.name, s.fields)
  {
    hide TidyFields, SlotPart, NoSlotFields;
  }

  lemma SlotsLeaveReference(s: SkillSession)
    ensures var n := NormalizeSlots(s); n.targetRef == s.targetRef && n.updatedAt == s.updatedAt && n.name == s.name
  {
    hide Filled, MirroredSlots, SlotPart, NoSlotFields;
  }

  /** Two passes always reach a fixed point, whatever the map order of each. */
  lemma SkillTwoPassesSettle(s: SkillSession, t0: int, a0: bool, t1: int, a1: bool, t2: int, a2: bool)
    ensures var n := NormalizeSkillSession(NormalizeSkillSession(s, t0, a0), t1, a1);
            NormalizeSkillSession(n, t2, a2) == n
  {
    var once := NormalizeSkillSession(s, t0, a0);
    var n := NormalizeSkillSession(once, t1, a1);
    LaterPass(s, t0, a0, t1, a1);
    OnePass(s, t0, a0);
    SecondSlotPass(once);
    LaterPass(once, t1, a1, t2, a2);
    OnePass(once, t1, a1);
    SecondSlotPass(n);
  }

  /** A trader session whose slots carry no flag and whose field says yes: the first pass records the
      flag as unset, the second rewrites the field. */
  lemma YesIsRewritten(now: int, later: int)
    ensures var s :=
              SkillSession(Trader, Create, Collecting, None, map[AutoStart := "yes"], Some(Slots(map[], None)), At(0));
            var n := NormalizeSkillSession(s, now, false);
            NormalizeSkillSession(n, later, false) != n
  {
    hide Trim, NormalizeSkillSession;
    var s := SkillSession(Trader, Create, Collecting, None, map[AutoStart := "yes"], Some(Slots(map[], None)), At(0));
    assert Trimmed("yes");
    TrimLaws("yes");
    assert "yes"[0] == 'y' && "true"[0] == 't' && "false"[0] == 'f';
    SkillIdempotentIff(s, now, false, later, false);
  }
}
