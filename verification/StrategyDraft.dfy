/** Keeping AI and grid configuration apart while a strategy draft is collected
    (agent/central_brain.go): filter by template, reset on a type change, merge. */
module StrategyDrafts {
  import opened Seqs
  import opened Text

  datatype Kind = Untyped | Grid | Ai

  /** Field and configuration keys, trimmed; `Other` covers the rest, the blank key included. */
  datatype Key =
    | StrategyType | ConfigPatch | AwaitingFinal
    | DraftName | Description | IsPublic | ConfigVisible | Language
    | PublishConfig | GridConfig | AiConfig
    | CoinSource | Indicators | RiskControl | PromptSections | CustomPrompt
    | Other(key: string)

  /** A decoded JSON value. */
  datatype Any = Null | Truth(b: bool) | Number(text: string) | Words(text: string) | Items(items: seq<Any>)
  | Object(fields: map<Key, Any>)

  type Fields = map<Key, Any>

  /** How values print and how JSON text decodes (absent when it is not an object). */
  datatype Codec = Codec(show: Any -> string, decode: string -> Option<Fields>)

  ghost predicate Faithful(c: Codec) {
    forall text :: c.show(Words(text)) == text
  }

  function KindText(k: Kind): string {
    match k
    case Grid => "grid_trading"
    case Ai => "ai_trading"
    case Untyped => ""
  }

  predicate ContainsAny(text: string, words: seq<string>) {
    exists i :: 0 <= i < |words| && ContainsText(text, words[i])
  }

  /** parseStrategyTypeValue. */
  function ParseKind(text: string): Kind {
    var lower := Lower(Trim(text));
    if lower == "grid_trading" then Grid
    else if lower == "ai_trading" then Ai
    else if ContainsAny(lower, ["grid", "网格"]) then Grid
    else if ContainsAny(lower, ["静态币", "固定币", "选币来源"]) then Ai
    else if ContainsAny(lower, ["ai trading", "ai策略", "ai 策略", "ai交易", "ai 交易", "ai智能", "智能策略", "普通策略"]) then Ai
    else Untyped
  }

  lemma ParseKindText(k: Kind)
    requires !k.Untyped?
    ensures ParseKind(KindText(k)) == k
  {
    var t := KindText(k);
    hide Trim, ContainsAny;
    assert t[0] == 'g' || t[0] == 'a';
    assert t[|t| - 1] == 'g';
    TrimLaws(t);
    assert Lower(t) == t;
  }

  /** A text means a grid if it says grid in either language, else an AI strategy if it speaks of static
      coins, of choosing coins or of AI trading; the canonical names go first. */
  lemma TypeWords(text: string)
    ensures var t := Lower(Trim(text));
            var says := word => ContainsText(t, word);
            var grid := t == "grid_trading" || (t != "ai_trading" && (says("grid") || says("网格")));
            var ai := says("静态币") || says("固定币") || says("选币来源") || says("ai trading") || says("ai策略")
                      || says("ai 策略") || says("ai交易") || says("ai 交易") || says("ai智能") || says("智能策略")
                      || says("普通策略");
            && (ParseKind(text) == Grid <==> grid)
            && (ParseKind(text) == Ai <==> !grid && (t == "ai_trading" || ai))
  {
    hide Lower, Trim, ContainsText;
    var t := Lower(Trim(text));
    AnyOf(t, ["grid", "网格"]);
    AnyOf(t, ["静态币", "固定币", "选币来源"]);
    AnyOf(t, ["ai trading", "ai策略", "ai 策略", "ai交易", "ai 交易", "ai智能", "智能策略", "普通策略"]);
  }

  lemma AnyOf(text: string, words: seq<string>)
    ensures ContainsAny(text, words) <==> exists w :: w in words && ContainsText(text, w)
  {
    hide ContainsText;
    if w :| w in words && ContainsText(text, w) {
      var i :| 0 <= i < |words| && words[i] == w;
    }
  }

  // -------------------------------------------------------------------- types

  /** mapFromAny; nil and the empty map are alike to every caller. */
  function MapFrom(c: Codec, v: Any): Fields {
    match v
    case Object(m) => m
    case Words(text) => (match c.decode(text) case Some(m) => m case None => map[])
    case _ => map[]
  }

  function At(m: Fields, k: Key): Any {
    if k in m then m[k] else Null
  }

  function NamedKind(c: Codec, m: Fields): Kind {
    if StrategyType in m then ParseKind(c.show(m[StrategyType])) else Untyped
  }

  /** strategyTypeFromConfigPatchAny. */
  function PatchKind(c: Codec, v: Any): Kind {
    var m := MapFrom(c, v);
    if !NamedKind(c, m).Untyped? then NamedKind(c, m)
    else if GridConfig in m then Grid
    else if AiConfig in m then Ai
    else Untyped
  }

  /** strategyTypeFromExtractedData and strategyTypeFromCollectedFields. */
  function KindOf(c: Codec, f: Fields): Kind {
    if !NamedKind(c, f).Untyped? then NamedKind(c, f)
    else if ConfigPatch in f then PatchKind(c, f[ConfigPatch])
    else Untyped
  }

  // --------------------------------------------------------------- sanitising

  function Only(m: Fields, keys: set<Key>): Fields {
    map k | k in m && k in keys :: m[k]
  }

  const LOOSE: set<Key> := {CoinSource, Indicators, RiskControl, PromptSections, CustomPrompt}

  /** The AI branch: what was nested, overwritten by what was left loose at the top. */
  function AiBranch(c: Codec, patch: Fields): Fields {
    MapFrom(c, At(patch, AiConfig)) + Only(patch, LOOSE)
  }

  function Branch(c: Codec, patch: Fields, kind: Kind): Fields {
    match kind
    case Grid => (var grid := MapFrom(c, At(patch, GridConfig)); if grid == map[] then map[]
                    else map[GridConfig := Object(grid)])
    case Ai => (var ai := AiBranch(c, patch); if ai == map[] then map[] else map[AiConfig := Object(ai)])
    case Untyped => map[]
  }

  function Published(c: Codec, patch: Fields): Fields {
    var publish := MapFrom(c, At(patch, PublishConfig));
    if publish == map[] then map[] else map[PublishConfig := Object(publish)]
  }

  /** sanitizeStrategyCreateConfigPatchForType; None when nothing but the type would be left. */
  function Sanitize(c: Codec, v: Any, kind: Kind): Option<Fields> {
    var patch := MapFrom(c, v);
    var body := Published(c, patch) + Branch(c, patch, kind);
    if patch == map[] || body == map[] then None
    else Some(map[StrategyType := Words(KindText(kind))] + body)
  }

  /** Sanitising keeps one branch only, names the type, and is a projection. */
  lemma SanitizeProjects(c: Codec, v: Any, kind: Kind)
    requires !kind.Untyped? && Faithful(c)
    ensures var s := Sanitize(c, v, kind);
            s.Some? ==>
              && s.value.Keys <= {StrategyType, PublishConfig, if kind.Grid? then GridConfig else AiConfig}
              && PatchKind(c, Object(s.value)) == kind
              && Sanitize(c, Object(s.value), kind) == s
  {
    hide ParseKind, KindText, Only, Published, Branch;
    ParseKindText(kind);
    var patch := MapFrom(c, v);
    var s := Sanitize(c, v, kind);
    BodyKeys(c, patch, kind);
    if s.Some? {
      assert MapFrom(c, Object(s.value)) == s.value;
      BodyAgain(c, patch, kind);
    }
  }

  lemma BodyKeys(c: Codec, patch: Fields, kind: Kind)
    requires !kind.Untyped?
    ensures Published(c, patch).Keys <= {PublishConfig}
    ensures Branch(c, patch, kind).Keys <= {if kind.Grid? then GridConfig else AiConfig}
  {
    hide Only, MapFrom;
  }

  lemma BodyAgain(c: Codec, patch: Fields, kind: Kind)
    requires !kind.Untyped?
    ensures var out := map[StrategyType := Words(KindText(kind))] + (Published(c, patch) + Branch(c, patch, kind));
            Published(c, out) == Published(c, patch) && Branch(c, out, kind) == Branch(c, patch, kind)
  {
    hide KindText, Only;
    var out := map[StrategyType := Words(KindText(kind))] + (Published(c, patch) + Branch(c, patch, kind));
    assert Only(out, LOOSE) == map[] by {
      BodyKeys(c, patch, kind);
      OnlyAbsent(out, LOOSE);
    }
    assert kind.Ai? ==> AiBranch(c, out) == AiBranch(c, patch);
  }

  lemma OnlyAbsent(m: Fields, keys: set<Key>)
    requires m.Keys !! keys
    ensures Only(m, keys) == map[]
  {
  }

  /** What sanitising keeps: the published part and the type's own branch entire, and for AI every
      loose setting, which wins over a nested one. */
  lemma SanitizeKeeps(c: Codec, v: Any, kind: Kind)
    requires !kind.Untyped?
    ensures var patch := MapFrom(c, v);
            var out := var s := Sanitize(c, v, kind); if s.Some? then s.value else map[];
            && MapFrom(c, At(out, PublishConfig)) == MapFrom(c, At(patch, PublishConfig))
            && (kind.Grid? ==> MapFrom(c, At(out, GridConfig)) == MapFrom(c, At(patch, GridConfig)))
            && (kind.Ai? ==> MapFrom(c, At(out, AiConfig)) == MapFrom(c, At(patch, AiConfig)) + Only(patch, LOOSE))
  {
    hide KindText;
    var patch := MapFrom(c, v);
    assert patch == map[] ==> Only(patch, LOOSE) == map[];
  }

  // ---------------------------------------------------------------- filter and merge

  const SHARED: set<Key> := {DraftName, Description, IsPublic, ConfigVisible, Language}
  const COMMON: set<Key> := {DraftName, Description, IsPublic, ConfigVisible, StrategyType}

  const GRID_FIELDS: set<Key> := {
    Other("symbol"), Other("grid_count"), Other("total_investment"), Other("leverage"), Other("upper_price"),
    Other("lower_price"), Other("use_atr_bounds"), Other("atr_multiplier"), Other("distribution"),
    Other("enable_direction_adjust"), Other("direction_bias_ratio"), Other("max_drawdown_pct"),
    Other("stop_loss_pct"), Other("daily_loss_limit_pct"), Other("use_maker_only")}

  const AI_FIELDS: set<Key> := {
    Other("source_type"), Other("static_coins"), Other("excluded_coins"), Other("primary_timeframe"),
    Other("primary_count"), Other("selected_timeframes"), Other("enable_ema"), Other("enable_macd"),
    Other("enable_rsi"), Other("enable_atr"), Other("enable_boll"), Other("enable_volume"), Other("enable_oi"),
    Other("enable_funding_rate"), Other("ema_periods"), Other("rsi_periods"), Other("atr_periods"),
    Other("boll_periods"), Other("btceth_max_leverage"), Other("altcoin_max_leverage"),
    Other("min_risk_reward_ratio"), Other("min_confidence"), Other("role_definition"),
    Other("trading_frequency"), Other("entry_standards"), Other("decision_process"), CustomPrompt}

  /** manualStrategyEditableFieldKeysForType. */
  function Editable(kind: Kind): set<Key> {
    COMMON + if kind.Grid? then GRID_FIELDS else AI_FIELDS
  }

  /** The type a turn's data is filtered for: its own, else the draft's. */
  function FilterKind(c: Codec, collected: Fields, data: Fields): Kind {
    if !KindOf(c, data).Untyped? then KindOf(c, data) else KindOf(c, collected)
  }

  /** filterStrategyCreateExtractedDataByTemplate. */
  function Template(c: Codec, collected: Fields, data: Fields): Fields {
    var kind := FilterKind(c, collected, data);
    if kind.Untyped? then data
    else
      map k | k in data && Passes(c, kind, k, data[k]) :: Filtered(c, kind, k, data[k])
  }

  predicate Passes(c: Codec, kind: Kind, k: Key, v: Any) {
    if k.ConfigPatch? then Sanitize(c, v, kind).Some? else k.AwaitingFinal? || k in Editable(kind)
  }

  function Filtered(c: Codec, kind: Kind, k: Key, v: Any): Any
    requires Passes(c, kind, k, v)
  {
    if k.ConfigPatch? then Object(Sanitize(c, v, kind).value) else v
  }

  /** filterExtractedDataForActiveSession of a strategy draft whose offered keys are `offered`. */
  function Filter(c: Codec, collected: Fields, data: Fields, offered: set<Key>): Fields {
    Template(c, collected, Only(data, offered - {Other("")}))
  }

  /** resetActiveStrategyCreateFieldsForType. */
  function Reset(collected: Fields, kind: Kind): Fields {
    Only(collected, SHARED)[StrategyType := Words(KindText(kind))]
  }

  /** The data changes the draft's type. */
  predicate Switches(c: Codec, collected: Fields, data: Fields) {
    !KindOf(c, data).Untyped? && !KindOf(c, collected).Untyped? && KindOf(c, data) != KindOf(c, collected)
  }

  /** mergeExtractedData. */
  function Merge(c: Codec, collected: Fields, data: Fields): Fields {
    (if Switches(c, collected, data) then Reset(collected, KindOf(c, data)) else collected) + data - {Other("")}
  }

  // ------------------------------------------------------------------- isolation

  /** A patch carries at most one branch, and carrying one fixes its own type. */
  predicate OneBranch(c: Codec, patch: Any) {
    var m := MapFrom(c, patch);
    && (GridConfig in m ==> PatchKind(c, patch) == Grid && AiConfig !in m)
    && (AiConfig in m ==> PatchKind(c, patch) == Ai && GridConfig !in m)
  }

  /** The collected patch never holds a branch of a type other than the draft's. */
  predicate Isolated(c: Codec, collected: Fields) {
    ConfigPatch in collected ==>
      var patch := collected[ConfigPatch];
      && OneBranch(c, patch)
      && (PatchKind(c, patch) != Untyped ==> KindOf(c, collected) == PatchKind(c, patch))
  }

  /** A turn's data whose patch, if any, has one branch and gives the data its type. */
  predicate Coherent(c: Codec, data: Fields) {
    ConfigPatch in data ==> OneBranch(c, data[ConfigPatch]) && KindOf(c, data) == PatchKind(c, data[ConfigPatch])
  }

  /** Filtering leaves coherent data, of the type it was filtered for or of none. */
  lemma TemplateCoherent(c: Codec, collected: Fields, data: Fields)
    requires Faithful(c)
    ensures var d := Template(c, collected, data);
            && Coherent(c, d)
            && (KindOf(c, d) == FilterKind(c, collected, data) || KindOf(c, d) == Untyped)
  {
    hide ParseKind, KindText, Sanitize, MapFrom;
    var kind := FilterKind(c, collected, data);
    var d := Template(c, collected, data);
    if kind.Untyped? {
      if ConfigPatch in data {
        UntypedHasNoBranch(c, data[ConfigPatch]);
      }
    } else {
      assert StrategyType in d <==> StrategyType in data;
      assert NamedKind(c, d) == NamedKind(c, data);
      if ConfigPatch in d {
        SanitizeProjects(c, data[ConfigPatch], kind);
        SanitizedOneBranch(c, Sanitize(c, data[ConfigPatch], kind).value, kind);
      }
    }
  }

  lemma UntypedHasNoBranch(c: Codec, patch: Any)
    requires PatchKind(c, patch) == Untyped
    ensures OneBranch(c, patch)
  {
  }

  lemma SanitizedOneBranch(c: Codec, out: Fields, kind: Kind)
    requires !kind.Untyped? && PatchKind(c, Object(out)) == kind
    requires out.Keys <= {StrategyType, PublishConfig, if kind.Grid? then GridConfig else AiConfig}
    ensures OneBranch(c, Object(out))
  {
  }

  lemma ResetKind(c: Codec, collected: Fields, kind: Kind)
    requires Faithful(c) && !kind.Untyped?
    ensures var r := Reset(collected, kind);
            NamedKind(c, r) == kind && KindOf(c, r) == kind && ConfigPatch !in r
  {
    hide ParseKind, KindText;
    ParseKindText(kind);
  }

  /** Merging coherent data keeps the draft isolated. */
  lemma MergeIsolated(c: Codec, collected: Fields, data: Fields)
    requires Faithful(c) && Isolated(c, collected) && Coherent(c, data)
    ensures Isolated(c, Merge(c, collected, data))
  {
    hide ParseKind, MapFrom, Reset, PatchKind, OneBranch;
    var base := if Switches(c, collected, data) then Reset(collected, KindOf(c, data)) else collected;
    if Switches(c, collected, data) {
      ResetKind(c, collected, KindOf(c, data));
    }
    var n := Merge(c, collected, data);
    assert forall k :: k != Other("") ==> (k in n <==> k in data || k in base);
    assert forall k :: k in data && k != Other("") ==> n[k] == data[k];
    assert forall k :: k in base && k !in data && k != Other("") ==> n[k] == base[k];
    assert StrategyType in n ==>
             n[StrategyType] == if StrategyType in data then data[StrategyType] else base[StrategyType];
  }

  /** One filtered turn keeps the draft isolated, whatever the turn brought. */
  lemma TurnIsolated(c: Codec, collected: Fields, data: Fields, offered: set<Key>)
    requires Faithful(c) && Isolated(c, collected)
    ensures Isolated(c, Merge(c, collected, Filter(c, collected, data, offered)))
  {
    hide Template, Merge, Isolated, Coherent, Only;
    var d := Only(data, offered - {Other("")});
    TemplateCoherent(c, collected, d);
    MergeIsolated(c, collected, Template(c, collected, d));
  }

  /** The settings of a grid. */
  predicate IsGridKey(k: Key) {
    || k == Other("symbol") || k == Other("grid_count") || k == Other("total_investment")
    || k == Other("leverage") || k == Other("upper_price") || k == Other("lower_price")
    || k == Other("use_atr_bounds") || k == Other("atr_multiplier") || k == Other("distribution")
    || k == Other("enable_direction_adjust") || k == Other("direction_bias_ratio")
    || k == Other("max_drawdown_pct") || k == Other("stop_loss_pct") || k == Other("daily_loss_limit_pct")
    || k == Other("use_maker_only")
  }

  /** The settings of an AI strategy. */
  predicate IsAiKey(k: Key) {
    || k == CustomPrompt
    || k == Other("source_type") || k == Other("static_coins") || k == Other("excluded_coins")
    || k == Other("primary_timeframe") || k == Other("primary_count") || k == Other("selected_timeframes")
    || k == Other("enable_ema") || k == Other("enable_macd") || k == Other("enable_rsi")
    || k == Other("enable_atr") || k == Other("enable_boll") || k == Other("enable_volume")
    || k == Other("enable_oi") || k == Other("enable_funding_rate") || k == Other("ema_periods")
    || k == Other("rsi_periods") || k == Other("atr_periods") || k == Other("boll_periods")
    || k == Other("btceth_max_leverage") || k == Other("altcoin_max_leverage")
    || k == Other("min_risk_reward_ratio") || k == Other("min_confidence") || k == Other("role_definition")
    || k == Other("trading_frequency") || k == Other("entry_standards") || k == Other("decision_process")
  }

  /** The settings of every strategy. */
  predicate IsCommonKey(k: Key) {
    k == DraftName || k == Description || k == IsPublic || k == ConfigVisible || k == StrategyType
  }

  lemma FieldLists(k: Key)
    ensures k in COMMON <==> IsCommonKey(k)
    ensures IsGridKey(k) ==> k in GRID_FIELDS && k !in AI_FIELDS
    ensures IsAiKey(k) ==> k in AI_FIELDS && k !in GRID_FIELDS
    ensures IsGridKey(k) || IsAiKey(k) ==>
              && k !in COMMON && k !in SHARED && k != Other("")
              && !k.StrategyType? && !k.AwaitingFinal? && !k.ConfigPatch?
  {
    hide IsGridKey, IsAiKey, GRID_FIELDS, AI_FIELDS;
    GridList(k);
    AiList(k);
    if IsGridKey(k) {
      GridShape(k);
    }
    if IsAiKey(k) && k.Other? {
      AiShape(k);
    }
  }

  lemma GridList(k: Key)
    ensures k in GRID_FIELDS <==> IsGridKey(k)
  {
  }

  lemma AiList(k: Key)
    ensures k in AI_FIELDS <==> IsAiKey(k)
    ensures IsAiKey(k) ==> k == CustomPrompt || k.Other?
  {
  }

  /** Length and first letter tell the settings of a grid from those of an AI strategy. */
  lemma GridShape(k: Key)
    requires IsGridKey(k)
    ensures k.Other? && k.key != ""
    ensures var n, c := |k.key|, k.key[0];
      || (n == 6 && c == 's') || (n == 8 && c == 'l') || (n == 10 && c == 'g') || (n == 11 && c == 'l')
      || (n == 11 && c == 'u') || (n == 12 && c == 'd') || (n == 13 && c == 's') || (n == 14 && c == 'a')
      || (n == 14 && c == 'u') || (n == 16 && c == 'm') || (n == 16 && c == 't') || (n == 20 && c == 'd')
      || (n == 23 && c == 'e')
  {
  }

  lemma AiShape(k: Key)
    requires IsAiKey(k) && k.Other?
    ensures k.key != ""
    ensures var n, c := |k.key|, k.key[0];
      || (n == 9 && c == 'e') || (n == 10 && c == 'e') || (n == 11 && c == 'a') || (n == 11 && c == 'e')
      || (n == 11 && c == 'r') || (n == 11 && c == 's') || (n == 12 && c == 'b') || (n == 12 && c == 's')
      || (n == 13 && c == 'e') || (n == 13 && c == 'p') || (n == 14 && c == 'e') || (n == 14 && c == 'm')
      || (n == 15 && c == 'e') || (n == 15 && c == 'r') || (n == 16 && c == 'd') || (n == 17 && c == 'p')
      || (n == 17 && c == 't') || (n == 19 && c == 'b') || (n == 19 && c == 'e') || (n == 19 && c == 's')
      || (n == 20 && c == 'a') || (n == 21 && c == 'm')
  {
  }

  /** A turn of a grid strategy takes every offered field that is common or of a grid, and no field of an
      AI strategy. */
  lemma GridTurn(c: Codec, collected: Fields, data: Fields, offered: set<Key>, k: Key)
    requires var said := KindOf(c, Only(data, offered - {Other("")}));
             said == Grid || (said == Untyped && KindOf(c, collected) == Grid)
    ensures var n := Merge(c, collected, Filter(c, collected, data, offered));
            && (k in data && k in offered && (IsCommonKey(k) || IsGridKey(k)) ==> k in n && n[k] == data[k])
            && (k in n && IsAiKey(k) ==> k in collected && n[k] == collected[k])
  {
    hide KindOf, ParseKind, Sanitize, KindText, COMMON, GRID_FIELDS, AI_FIELDS, IsGridKey, IsAiKey;
    FieldLists(k);
    var d := Filter(c, collected, data, offered);
    assert k in d <==> k in data && k in offered - {Other("")} && Passes(c, Grid, k, data[k]);
  }

  /** A turn of an AI strategy takes every offered field that is common or of an AI strategy, and no
      field of a grid. */
  lemma AiTurn(c: Codec, collected: Fields, data: Fields, offered: set<Key>, k: Key)
    requires var said := KindOf(c, Only(data, offered - {Other("")}));
             said == Ai || (said == Untyped && KindOf(c, collected) == Ai)
    ensures var n := Merge(c, collected, Filter(c, collected, data, offered));
            && (k in data && k in offered && (IsCommonKey(k) || IsAiKey(k)) ==> k in n && n[k] == data[k])
            && (k in n && IsGridKey(k) ==> k in collected && n[k] == collected[k])
  {
    hide KindOf, ParseKind, Sanitize, KindText, COMMON, GRID_FIELDS, AI_FIELDS, IsGridKey, IsAiKey;
    FieldLists(k);
    var d := Filter(c, collected, data, offered);
    assert k in d <==> k in data && k in offered - {Other("")} && Passes(c, Ai, k, data[k]);
  }

  /** Whatever its type, a turn takes nothing that was not offered; without a type it takes all that was,
      and with one it takes the sanitised patch, unless nothing is left of it. */
  lemma OfferedTaken(c: Codec, collected: Fields, data: Fields, offered: set<Key>, k: Key)
    ensures var n := Merge(c, collected, Filter(c, collected, data, offered));
            k in n && (k !in data || k !in offered) ==> k == StrategyType || (k in collected && n[k] == collected[k])
    ensures var own := Only(data, offered - {Other("")});
            var n := Merge(c, collected, Filter(c, collected, data, offered));
            var kind := if KindOf(c, own) != Untyped then KindOf(c, own) else KindOf(c, collected);
            && (k in own && (kind == Untyped || k == AwaitingFinal) ==> k in n && n[k] == data[k])
            && (ConfigPatch in own && kind != Untyped && Sanitize(c, own[ConfigPatch], kind) != None ==>
                  ConfigPatch in n && n[ConfigPatch] == Object(Sanitize(c, own[ConfigPatch], kind).value))
  {
    hide KindOf, ParseKind, Sanitize, KindText, COMMON, GRID_FIELDS, AI_FIELDS;
    var own := Only(data, offered - {Other("")});
    var kind := FilterKind(c, collected, own);
    var d := Template(c, collected, own);
    if kind != Untyped {
      assert k in d <==> k in own && Passes(c, kind, k, own[k]);
      assert ConfigPatch in d <==> ConfigPatch in own && Passes(c, kind, ConfigPatch, own[ConfigPatch]);
    }
  }

  /** What names the type: the field itself, else the patch by its own type, else the branch it holds. */
  lemma NamedTypes(c: Codec, data: Fields)
    requires Faithful(c)
    ensures StrategyType in data && data[StrategyType] == Words("grid_trading") ==> KindOf(c, data) == Grid
    ensures StrategyType in data && data[StrategyType] == Words("ai_trading") ==> KindOf(c, data) == Ai
    ensures forall p :: StrategyType !in data && ConfigPatch in data && data[ConfigPatch] == Object(p) ==>
              && (StrategyType in p && p[StrategyType] == Words("grid_trading") ==> KindOf(c, data) == Grid)
              && (StrategyType in p && p[StrategyType] == Words("ai_trading") ==> KindOf(c, data) == Ai)
              && (StrategyType !in p && GridConfig in p ==> KindOf(c, data) == Grid)
              && (StrategyType !in p && GridConfig !in p && AiConfig in p ==> KindOf(c, data) == Ai)
              && (StrategyType !in p && GridConfig !in p && AiConfig !in p ==> KindOf(c, data) == Untyped)
    ensures StrategyType !in data && ConfigPatch !in data ==> KindOf(c, data) == Untyped
  {
    hide ParseKind;
    ParseKindText(Grid);
    ParseKindText(Ai);
  }

  /** The type named by a patch that holds nothing else decides what is filtered and is then dropped: so
      a grid field enters a draft that stays an AI draft. */
  lemma LooseFieldMixes(c: Codec, value: Any)
    requires Faithful(c)
    ensures var collected := map[StrategyType := Words("ai_trading")];
            var patch := map[StrategyType := Words("grid_trading")];
            var data := map[ConfigPatch := Object(patch), Other("symbol") := value];
            var n := Merge(c, collected, Filter(c, collected, data, {ConfigPatch, Other("symbol")}));
            KindOf(c, n) == Ai && Other("symbol") in n && n[Other("symbol")] == value
  {
    hide ParseKind;
    ParseKindText(Grid);
    ParseKindText(Ai);
    var collected := map[StrategyType := Words("ai_trading")];
    var patch := map[StrategyType := Words("grid_trading")];
    var data := map[ConfigPatch := Object(patch), Other("symbol") := value];
    var d := Only(data, {ConfigPatch, Other("symbol")} - {Other("")});
    assert d == data;
    assert FilterKind(c, collected, d) == Grid;
    assert Sanitize(c, Object(patch), Grid) == None;
    assert Template(c, collected, d) == map[Other("symbol") := value];
  }

  function Drafted(c: Codec, turns: seq<(Fields, set<Key>)>): Fields {
    if turns == [] then map[]
    else
      var before := Drafted(c, turns[..|turns| - 1]);
      Merge(c, before, Filter(c, before, turns[|turns| - 1].0, turns[|turns| - 1].1))
  }

  /** Over any sequence of turns the collected patch holds no branch of another type. */
  lemma {:induction false} NeverMixed(c: Codec, turns: seq<(Fields, set<Key>)>)
    requires Faithful(c)
    ensures var f := Drafted(c, turns);
            && Isolated(c, f)
            && (ConfigPatch in f && KindOf(c, f).Grid? ==> AiConfig !in MapFrom(c, f[ConfigPatch]))
            && (ConfigPatch in f && KindOf(c, f).Ai? ==> GridConfig !in MapFrom(c, f[ConfigPatch]))
            && (ConfigPatch in f && KindOf(c, f).Untyped? ==>
                  AiConfig !in MapFrom(c, f[ConfigPatch]) && GridConfig !in MapFrom(c, f[ConfigPatch]))
  {
    hide Merge, Filter, MapFrom, ParseKind;
    if turns != [] {
      NeverMixed(c, turns[..|turns| - 1]);
      var before := Drafted(c, turns[..|turns| - 1]);
      TurnIsolated(c, before, turns[|turns| - 1].0, turns[|turns| - 1].1);
    }
  }

  /** A type change keeps the shared fields only: everything else left was said this turn, and the
      draft now has the new type. */
  lemma ChangeKeepsShared(c: Codec, collected: Fields, data: Fields)
    requires Faithful(c) && Switches(c, collected, data)
    ensures var n := Merge(c, collected, data);
            && KindOf(c, n) == KindOf(c, data)
            && (forall k :: k in n <==>
                  k != Other("")
                  && (k in data || k == StrategyType
                      || (k in collected
                          && (k == DraftName || k == Description || k == IsPublic || k == ConfigVisible
                              || k == Language))))
            && (forall k :: k in n && k in data ==> n[k] == data[k])
            && (forall k :: k in n && k !in data && !k.StrategyType? ==> n[k] == collected[k])
  {
    hide ParseKind, PatchKind, MapFrom;
    ResetKind(c, collected, KindOf(c, data));
    assert Other("") !in SHARED;
  }

  /** The turn's type text, if there is one, can be read; without one, a patch that names a type has
      more to say than that. */
  predicate Settled(c: Codec, data: Fields) {
    if StrategyType in data then !NamedKind(c, data).Untyped?
    else ConfigPatch in data && !PatchKind(c, data[ConfigPatch]).Untyped? ==>
           Sanitize(c, data[ConfigPatch], PatchKind(c, data[ConfigPatch])).Some?
  }

  /** A typed draft without a field of the other type. */
  predicate FieldsApart(c: Codec, f: Fields) {
    && !KindOf(c, f).Untyped?
    && (KindOf(c, f).Grid? ==> forall k :: k in f ==> !IsAiKey(k))
    && (KindOf(c, f).Ai? ==> forall k :: k in f ==> !IsGridKey(k))
  }

  lemma FieldsDisjoint()
    ensures forall k :: IsGridKey(k) ==> !IsAiKey(k)
  {
    hide IsGridKey, IsAiKey, GRID_FIELDS, AI_FIELDS;
    forall k | IsGridKey(k)
      ensures !IsAiKey(k)
    {
      FieldLists(k);
    }
  }

  lemma SettledKeepsType(c: Codec, collected: Fields, own: Fields)
    requires Faithful(c) && Settled(c, own) && !FilterKind(c, collected, own).Untyped?
    ensures KindOf(c, Merge(c, collected, Template(c, collected, own))) == FilterKind(c, collected, own)
    ensures !KindOf(c, own).Untyped? ==> KindOf(c, Template(c, collected, own)) == KindOf(c, own)
  {
    hide ParseKind, KindText, Sanitize, MapFrom, Reset, GRID_FIELDS, AI_FIELDS;
    var kind := FilterKind(c, collected, own);
    var d := Template(c, collected, own);
    TemplateCoherent(c, collected, own);
    assert StrategyType in d <==> StrategyType in own;
    assert NamedKind(c, d) == NamedKind(c, own);
    if ConfigPatch in d {
      SanitizeProjects(c, own[ConfigPatch], kind);
    }
    if Switches(c, collected, d) {
      ResetKind(c, collected, kind);
    }
  }

  /** Which fields of either type a turn leaves in the draft. */
  lemma FieldsOf(c: Codec, collected: Fields, own: Fields)
    requires !FilterKind(c, collected, own).Untyped?
    ensures var kind, d := FilterKind(c, collected, own), Template(c, collected, own);
            var n := Merge(c, collected, d);
            forall k :: IsGridKey(k) || IsAiKey(k) ==>
              && (k in d <==> k in own && if kind.Grid? then IsGridKey(k) else IsAiKey(k))
              && (k in n <==> k in d || (k in collected && !Switches(c, collected, d)))
    ensures forall k :: IsGridKey(k) ==> !IsAiKey(k)
  {
    hide KindOf, ParseKind, Sanitize, IsGridKey, IsAiKey, COMMON, SHARED, GRID_FIELDS, AI_FIELDS;
    var kind, d := FilterKind(c, collected, own), Template(c, collected, own);
    FieldsDisjoint();
    forall k | IsGridKey(k) || IsAiKey(k)
      ensures k in d <==> k in own && if kind.Grid? then IsGridKey(k) else IsAiKey(k)
      ensures k in Merge(c, collected, d) <==> k in d || (k in collected && !Switches(c, collected, d))
    {
      FieldLists(k);
      assert k in own ==> (k in d <==> Passes(c, kind, k, own[k]));
    }
  }

  lemma TurnKeepsApart(c: Codec, collected: Fields, data: Fields, offered: set<Key>)
    requires Faithful(c) && Settled(c, Only(data, offered - {Other("")}))
    requires FieldsApart(c, collected)
             || (collected == map[] && !KindOf(c, Only(data, offered - {Other("")})).Untyped?)
    ensures FieldsApart(c, Merge(c, collected, Filter(c, collected, data, offered)))
  {
    hide ParseKind, KindOf, Sanitize, Settled, IsGridKey, IsAiKey, COMMON, SHARED, GRID_FIELDS, AI_FIELDS;
    var own := Only(data, offered - {Other("")});
    SettledKeepsType(c, collected, own);
    FieldsOf(c, collected, own);
  }

  /** Exactly when a turn keeps a typed draft typed and its fields apart.  The type stays unless an
      unreadable text replaces the only thing that named it.  The fields stay apart if the turn names its
      type, by a readable text or by more of a patch than that, or names the draft's own, or brings no
      field of the other type. */
  lemma TurnApartIff(c: Codec, collected: Fields, data: Fields, offered: set<Key>)
    requires Faithful(c) && FieldsApart(c, collected) && Isolated(c, collected)
    ensures var own := Only(data, offered - {Other("")});
            var kind := if KindOf(c, own).Untyped? then KindOf(c, collected) else KindOf(c, own);
            var named := StrategyType in own && !NamedKind(c, own).Untyped?;
            var patched := ConfigPatch in own && Sanitize(c, own[ConfigPatch], kind).Some?;
            var patchTypes := ConfigPatch in collected && !PatchKind(c, collected[ConfigPatch]).Untyped?;
            FieldsApart(c, Merge(c, collected, Filter(c, collected, data, offered))) <==>
            && (named || patched || StrategyType !in own || patchTypes)
            && (named || patched || kind == KindOf(c, collected)
                || forall k :: k in own ==> if KindOf(c, collected).Grid? then !IsAiKey(k) else !IsGridKey(k))
  {
    hide ParseKind, Sanitize, MapFrom, PatchKind, KindText, IsGridKey, IsAiKey, COMMON, SHARED, GRID_FIELDS, AI_FIELDS;
    var own := Only(data, offered - {Other("")});
    var kind := FilterKind(c, collected, own);
    var d := Template(c, collected, own);
    var n := Merge(c, collected, d);
    var patched := ConfigPatch in own && Sanitize(c, own[ConfigPatch], kind).Some?;
    if (StrategyType in own && !NamedKind(c, own).Untyped?) || (patched && StrategyType !in own) {
      TurnKeepsApart(c, collected, data, offered);
    } else {
      FieldLists(StrategyType);
      TemplateCoherent(c, collected, own);
      if patched {
        SanitizeProjects(c, own[ConfigPatch], kind);
      }
      FieldsOf(c, collected, own);
    }
  }

  /** Over any sequence of turns that starts with a type and whose turns all name theirs readably, the
      draft holds no field of the other type, whatever types the turns go through. */
  lemma {:induction false} FieldsNeverMixed(c: Codec, turns: seq<(Fields, set<Key>)>)
    requires Faithful(c) && turns != []
    requires forall i :: 0 <= i < |turns| ==> Settled(c, Only(turns[i].0, turns[i].1 - {Other("")}))
    requires !KindOf(c, Only(turns[0].0, turns[0].1 - {Other("")})).Untyped?
    ensures FieldsApart(c, Drafted(c, turns))
  {
    hide Merge, Filter, KindOf, Settled, FieldsApart, Only;
    var n := |turns| - 1;
    var before := Drafted(c, turns[..n]);
    if n > 0 {
      FieldsNeverMixed(c, turns[..n]);
    }
    TurnKeepsApart(c, before, turns[n].0, turns[n].1);
  }

  // ------------------------------------------------------- the imperative handlers

  /** The branch of the wanted type, nested and loose settings together. */
  method CollectBranch(c: Codec, given: Fields, kind: Kind) returns (part: Fields)
    requires !kind.Untyped?
    ensures part == Branch(c, given, kind)
  {
    hide MapFrom, Only;
    part := map[];
    match kind {
      case Grid =>
        var grid := MapFrom(c, At(given, GridConfig));
        if grid != map[] {
          part := part[GridConfig := Object(grid)];
        }
      case Ai =>
        var ai := NestLoose(MapFrom(c, At(given, AiConfig)), given);
        if ai != map[] {
          part := part[AiConfig := Object(ai)];
        }
    }
  }

  method CollectPublished(c: Codec, given: Fields) returns (part: Fields)
    ensures part == Published(c, given)
  {
    hide MapFrom;
    part := map[];
    var publish := MapFrom(c, At(given, PublishConfig));
    if publish != map[] {
      part := part[PublishConfig := Object(publish)];
    }
  }

  /** sanitizeStrategyCreateConfigPatchForType, part by part. */
  method SanitizePatch(c: Codec, v: Any, kind: Kind) returns (patch: Option<Fields>)
    requires !kind.Untyped?
    ensures patch == Sanitize(c, v, kind)
  {
    hide KindText, ParseKind, MapFrom, Branch, Published;
    var given := MapFrom(c, v);
    if given == map[] {
      return None;
    }
    var name := Words(KindText(kind));
    var publish := CollectPublished(c, given);
    var branch := CollectBranch(c, given, kind);
    var out := map[StrategyType := name] + publish + branch;
    Assembled(map[StrategyType := name], publish, branch);
    PartKeys(c, given, kind);
    TypeAlone(name, publish + branch);
    if |out| == 1 {
      return None;
    }
    return Some(out);
  }

  lemma Assembled(a: Fields, b: Fields, d: Fields)
    ensures a + b + d == a + (b + d)
  {
  }

  lemma PartKeys(c: Codec, given: Fields, kind: Kind)
    ensures StrategyType !in Published(c, given) && StrategyType !in Branch(c, given, kind)
  {
    hide MapFrom, Only;
  }

  lemma TypeAlone(name: Any, body: Fields)
    requires StrategyType !in body
    ensures |map[StrategyType := name] + body| == 1 <==> body == map[]
  {
    var out := map[StrategyType := name] + body;
    if body == map[] {
      assert out == map[StrategyType := name];
    } else {
      KeyLeft(body.Keys);
      var k :| k in body;
      SizeOfTwo(out.Keys, StrategyType, k);
      assert |out| == |out.Keys|;
    }
  }

  lemma SizeOfTwo(s: set<Key>, a: Key, b: Key)
    requires a in s && b in s && a != b
    ensures |s| >= 2
  {
    assert b in s - {a};
    assert |s - {a}| == |s| - 1;
  }

  /** The loop that moves loose AI settings into the nested branch. */
  method NestLoose(nested: Fields, patch: Fields) returns (ai: Fields)
    ensures ai == nested + Only(patch, LOOSE)
  {
    ai := nested;
    var keys := [CoinSource, Indicators, RiskControl, PromptSections, CustomPrompt];
    ghost var done: set<Key> := {};
    for i := 0 to |keys|
      invariant done == set k | k in keys[..i]
      invariant ai == nested + Only(patch, done)
    {
      ghost var before := done;
      done := done + {keys[i]};
      if keys[i] in patch {
        ai := ai[keys[i] := patch[keys[i]]];
      }
      assert Only(patch, done) == if keys[i] in patch then Only(patch, before)[keys[i] := patch[keys[i]]]
               else Only(patch, before);
      assert keys[..i + 1] == keys[..i] + [keys[i]];
    }
    assert done == LOOSE by {
      assert keys[..|keys|] == keys;
    }
  }

  lemma KeyLeft(s: set<Key>)
    ensures s == {} || exists k :: k in s
  {
    if forall k :: k !in s {
      assert s == {};
    }
  }

  /** The draft of one strategy-create session, its fields updated in place. */
  class ActiveDraft {
    const codec: Codec
    var collected: Fields

    ghost predicate Valid()
      reads this
    {
      Isolated(codec, collected)
    }

    constructor (codec: Codec)
      ensures Valid() && collected == map[] && this.codec == codec
    {
      this.codec := codec;
      collected := map[];
    }

    /** filterStrategyCreateExtractedDataByTemplate: one pass over the extracted keys. */
    method FilterByTemplate(data: Fields) returns (out: Fields)
      ensures out == Template(codec, collected, data)
    {
      hide Sanitize, Editable, ParseKind;
      var kind := FilterKind(codec, collected, data);
      if kind.Untyped? {
        return data;
      }
      out := map[];
      var left: set<Key> := data.Keys;
      while left != {}
        invariant left <= data.Keys
        invariant out == map k | k in data && k !in left && Passes(codec, kind, k, data[k]) ::
                    Filtered(codec, kind, k, data[k])
        decreases left
      {
        KeyLeft(left);
        var key :| key in left;
        left := left - {key};
        var value := data[key];
        if key.ConfigPatch? {
          var patch := SanitizePatch(codec, value, kind);
          if patch.Some? {
            out := out[key := Object(patch.value)];
          }
        } else if key.AwaitingFinal? || key in Editable(kind) {
          out := out[key := value];
        }
      }
      assert forall k :: k in data ==> k !in left;
    }

    /** mergeExtractedData. */
    method MergeExtracted(data: Fields)
      modifies this
      ensures collected == Merge(codec, old(collected), data)
    {
      hide ParseKind, PatchKind, NamedKind, Reset;
      ghost var was := collected;
      var incoming := KindOf(codec, data);
      if !incoming.Untyped? {
        var current := KindOf(codec, collected);
        if !current.Untyped? && current != incoming {
          collected := Reset(collected, incoming);
        }
      }
      collected := collected - {Other("")};
      ghost var base := collected;
      var left: set<Key> := data.Keys;
      while left != {}
        invariant left <= data.Keys
        invariant forall k :: k in collected <==> k in base || (k in data && k !in left && k != Other(""))
        invariant forall k :: k in collected ==>
                    collected[k] == if k in data && k !in left && k != Other("") then data[k] else base[k]
        decreases left
      {
        KeyLeft(left);
        var key :| key in left;
        left := left - {key};
        if key == Other("") {
          continue;
        }
        collected := collected[key := data[key]];
      }
      assert collected == Merge(codec, was, data);
    }

    /** A turn's extracted data, filtered and merged: the draft stays isolated. */
    method TakeData(data: Fields, offered: set<Key>)
      requires Valid() && Faithful(codec)
      modifies this
      ensures Valid() && collected == Merge(codec, old(collected), Filter(codec, old(collected), data, offered))
    {
      hide Template, Merge, Isolated;
      TurnIsolated(codec, collected, data, offered);
      var filtered := FilterByTemplate(Only(data, offered - {Other("")}));
      MergeExtracted(filtered);
    }
  }
}
