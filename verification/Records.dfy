/** The records of agent/execution_state.go that every durable store of the agent shares. */
module Records {
  import opened Seqs
  import opened Text

  /** An RFC 3339 time, which resolves whole seconds; "" is `Unstamped`. */
  datatype Stamp = Unstamped | At(secs: int)

  function Stamped(s: Stamp, now: int): Stamp {
    if s.Unstamped? then At(now) else s
  }

  datatype EntityReference = EntityReference(id: string, name: string, source: string, updatedAt: Stamp)

  datatype CurrentReferences = CurrentReferences(
    strategy: Option<EntityReference>,
    trader: Option<EntityReference>,
    model: Option<EntityReference>,
    exchange: Option<EntityReference>)

  datatype ReferenceRecord = ReferenceRecord(kind: string, id: string, name: string, source: string, createdAt: Stamp)

  datatype Observation = Observation(stepId: string, kind: string, summary: string, rawJson: string, createdAt: Stamp)

  datatype WaitingState = WaitingState(
    question: string,
    intent: string,
    pendingFields: seq<string>,
    confirmationTarget: string,
    createdAt: Stamp)

  // ---------------------------------------------------------------- references

  function NormalizeEntityReference(ref: Option<EntityReference>, now: int): Option<EntityReference> {
    match ref
    case None => None
    case Some(r) =>
      if Trim(r.id) == "" && Trim(r.name) == "" then None
      else Some(EntityReference(Trim(r.id), Trim(r.name), Trim(r.source), Stamped(r.updatedAt, now)))
  }

  function NormalizeCurrentReferences(refs: Option<CurrentReferences>, now: int): Option<CurrentReferences> {
    match refs
    case None => None
    case Some(r) =>
      var n := CurrentReferences(
        NormalizeEntityReference(r.strategy, now), NormalizeEntityReference(r.trader, now),
        NormalizeEntityReference(r.model, now), NormalizeEntityReference(r.exchange, now));
      if n == CurrentReferences(None, None, None, None) then None else Some(n)
  }

  /** A reference is kept, trimmed and stamped, exactly if it has an id or a name; references are kept
      as long as one of the four is. */
  lemma ReferenceKept(r: EntityReference, refs: CurrentReferences, now: int)
    ensures NormalizeEntityReference(Some(r), now) ==
            if Trim(r.id) != "" || Trim(r.name) != ""
            then Some(EntityReference(Trim(r.id), Trim(r.name), Trim(r.source),
                                      if r.updatedAt.At? then r.updatedAt else At(now)))
            else None
    ensures var n := NormalizeCurrentReferences(Some(refs), now);
            && (n.None? <==> NormalizeEntityReference(refs.strategy, now).None?
                             && NormalizeEntityReference(refs.trader, now).None?
                             && NormalizeEntityReference(refs.model, now).None?
                             && NormalizeEntityReference(refs.exchange, now).None?)
            && (n.Some? ==>
                  && n.value.strategy == NormalizeEntityReference(refs.strategy, now)
                  && n.value.trader == NormalizeEntityReference(refs.trader, now)
                  && n.value.model == NormalizeEntityReference(refs.model, now)
                  && n.value.exchange == NormalizeEntityReference(refs.exchange, now))
  {
    hide Trim;
  }

  lemma EntityReferenceStable(ref: Option<EntityReference>, now: int, later: int)
    ensures var r := NormalizeEntityReference(ref, now); NormalizeEntityReference(r, later) == r
  {
    hide Trim;
    if ref.Some? {
      TrimLaws(ref.value.id);
      TrimLaws(ref.value.name);
      TrimLaws(ref.value.source);
    }
  }

  lemma CurrentReferencesStable(refs: Option<CurrentReferences>, now: int, later: int)
    ensures var r := NormalizeCurrentReferences(refs, now); NormalizeCurrentReferences(r, later) == r
  {
    hide Trim;
    if refs.Some? {
      EntityReferenceStable(refs.value.strategy, now, later);
      EntityReferenceStable(refs.value.trader, now, later);
      EntityReferenceStable(refs.value.model, now, later);
      EntityReferenceStable(refs.value.exchange, now, later);
    }
  }

  const REFERENCE_HISTORY_MAX: nat := 12

  function TrimRecord(r: ReferenceRecord, now: int): ReferenceRecord {
    ReferenceRecord(Trim(r.kind), Trim(r.id), Trim(r.name), Trim(r.source), Stamped(r.createdAt, now))
  }

  predicate NamesSomething(r: ReferenceRecord) {
    Trim(r.kind) != "" && !(Trim(r.id) == "" && Trim(r.name) == "")
  }

  function TrimRecords(history: seq<ReferenceRecord>, now: int): (out: seq<ReferenceRecord>)
    ensures |out| <= |history|
  {
    if history == [] then []
    else
      var front := TrimRecords(history[..|history| - 1], now);
      var last := history[|history| - 1];
      if NamesSomething(last) then front + [TrimRecord(last, now)] else front
  }

  function NormalizeReferenceHistory(history: seq<ReferenceRecord>, now: int): (out: seq<ReferenceRecord>)
    ensures |out| <= 12
  {
    Last(REFERENCE_HISTORY_MAX, TrimRecords(history, now))
  }

  /** A record one pass of the normaliser leaves alone. */
  predicate TidyRecord(r: ReferenceRecord) {
    && NamesSomething(r) && r.createdAt.At?
    && Trim(r.kind) == r.kind && Trim(r.id) == r.id && Trim(r.name) == r.name && Trim(r.source) == r.source
  }

  /** A record is kept, trimmed and stamped, exactly if it has a kind and an id or a name. */
  lemma RecordKept(history: seq<ReferenceRecord>, r: ReferenceRecord, now: int)
    ensures var kept := Trim(r.kind) != "" && (Trim(r.id) != "" || Trim(r.name) != "");
            var trimmed := ReferenceRecord(Trim(r.kind), Trim(r.id), Trim(r.name), Trim(r.source),
                                           if r.createdAt.At? then r.createdAt else At(now));
            && TrimRecords([], now) == []
            && TrimRecords(history + [r], now) == TrimRecords(history, now) + (if kept then [trimmed] else [])
            && NormalizeReferenceHistory(history, now) == Last(12, TrimRecords(history, now))
  {
    assert (history + [r])[..|history|] == history;
  }

  lemma {:induction false} TrimRecordsTidy(history: seq<ReferenceRecord>, now: int)
    ensures forall i :: 0 <= i < |TrimRecords(history, now)| ==> TidyRecord(TrimRecords(history, now)[i])
  {
    hide Trim;
    if history != [] {
      var last := history[|history| - 1];
      TrimRecordsTidy(history[..|history| - 1], now);
      TrimLaws(last.kind);
      TrimLaws(last.id);
      TrimLaws(last.name);
      TrimLaws(last.source);
    }
  }

  lemma {:induction false} TidyRecordsKept(history: seq<ReferenceRecord>, later: int)
    requires forall i :: 0 <= i < |history| ==> TidyRecord(history[i])
    ensures TrimRecords(history, later) == history
  {
    hide Trim;
    if history != [] {
      TidyRecordsKept(history[..|history| - 1], later);
      assert TidyRecord(history[|history| - 1]);
    }
  }

  lemma ReferenceHistoryStable(history: seq<ReferenceRecord>, now: int, later: int)
    ensures var h := NormalizeReferenceHistory(history, now); NormalizeReferenceHistory(h, later) == h
  {
    hide Trim;
    TrimRecordsTidy(history, now);
    TidyRecordsKept(NormalizeReferenceHistory(history, now), later);
  }

  /** normalizeReferenceHistory. */
  method NormalizeReferenceHistoryLoop(history: seq<ReferenceRecord>, now: int) returns (out: seq<ReferenceRecord>)
    ensures out == NormalizeReferenceHistory(history, now)
  {
    out := [];
    for i := 0 to |history|
      invariant out == TrimRecords(history[..i], now)
    {
      assert history[..i + 1][..i] == history[..i];
      var item := history[i];
      if Trim(item.kind) == "" || (Trim(item.id) == "" && Trim(item.name) == "") {
        continue;
      }
      out := out + [TrimRecord(item, now)];
    }
    assert history[..|history|] == history;
    if |out| > REFERENCE_HISTORY_MAX {
      out := out[|out| - REFERENCE_HISTORY_MAX..];
    }
  }

  // -------------------------------------------------------------- observations

  predicate Blank(o: Observation) {
    Trim(o.kind) == "" && Trim(o.summary) == "" && Trim(o.rawJson) == ""
  }

  function TrimObservation(o: Observation, now: int): Observation {
    Observation(Trim(o.stepId), Trim(o.kind), Trim(o.summary), Trim(o.rawJson), Stamped(o.createdAt, now))
  }

  /** normalizeObservationList as a function. */
  function NormalizeObservations(values: seq<Observation>, now: int): (out: seq<Observation>)
    ensures |out| <= |values|
  {
    if values == [] then []
    else
      var front := NormalizeObservations(values[..|values| - 1], now);
      var last := values[|values| - 1];
      if Blank(last) then front else front + [TrimObservation(last, now)]
  }

  /** An observation is kept, trimmed and stamped, unless kind, summary and raw JSON are all blank. */
  lemma ObservationKept(values: seq<Observation>, o: Observation, now: int)
    ensures var kept := Trim(o.kind) != "" || Trim(o.summary) != "" || Trim(o.rawJson) != "";
            var trimmed := Observation(Trim(o.stepId), Trim(o.kind), Trim(o.summary), Trim(o.rawJson),
                                       if o.createdAt.At? then o.createdAt else At(now));
            && NormalizeObservations([], now) == []
            && NormalizeObservations(values + [o], now) ==
               NormalizeObservations(values, now) + (if kept then [trimmed] else [])
  {
    assert (values + [o])[..|values|] == values;
  }

  /** An observation one pass of the normaliser leaves alone. */
  predicate Tidy(o: Observation) {
    && !Blank(o) && o.createdAt.At?
    && Trim(o.stepId) == o.stepId && Trim(o.kind) == o.kind
    && Trim(o.summary) == o.summary && Trim(o.rawJson) == o.rawJson
  }

  predicate AllTidy(os: seq<Observation>) {
    forall i :: 0 <= i < |os| ==> Tidy(os[i])
  }

  lemma TrimObservationTidy(o: Observation, now: int)
    requires !Blank(o)
    ensures Tidy(TrimObservation(o, now))
  {
    hide Trim;
    TrimLaws(o.stepId);
    TrimLaws(o.kind);
    TrimLaws(o.summary);
    TrimLaws(o.rawJson);
  }

  lemma {:induction false} NormalizedObservationsTidy(values: seq<Observation>, now: int)
    ensures AllTidy(NormalizeObservations(values, now))
  {
    hide Trim;
    if values != [] {
      var last := values[|values| - 1];
      NormalizedObservationsTidy(values[..|values| - 1], now);
      if !Blank(last) {
        TrimObservationTidy(last, now);
      }
    }
  }

  lemma {:induction false} TidyObservationsKept(values: seq<Observation>, now: int)
    requires AllTidy(values)
    ensures NormalizeObservations(values, now) == values
  {
    hide Trim;
    if values != [] {
      TidyObservationsKept(values[..|values| - 1], now);
      assert Tidy(values[|values| - 1]);
    }
  }

  /** normalizeObservationList. */
  method NormalizeObservationList(values: seq<Observation>, now: int) returns (out: seq<Observation>)
    ensures out == NormalizeObservations(values, now)
  {
    out := [];
    for i := 0 to |values|
      invariant out == NormalizeObservations(values[..i], now)
    {
      assert values[..i + 1][..i] == values[..i];
      var value := values[i];
      if Trim(value.kind) == "" && Trim(value.summary) == "" && Trim(value.rawJson) == "" {
        continue;
      }
      out := out + [TrimObservation(value, now)];
    }
    assert values[..|values|] == values;
  }

  // ------------------------------------------------------------------- waiting

  /** normalizeWaitingState. */
  function NormalizeWaiting(waiting: Option<WaitingState>, now: int): Option<WaitingState> {
    match waiting
    case None => None
    case Some(w) =>
      var n :=
        WaitingState(Trim(w.question), Trim(w.intent), Clean(w.pendingFields), Trim(w.confirmationTarget), w.createdAt);
      if n.question == "" && n.intent == "" && n.pendingFields == [] && n.confirmationTarget == "" then None
      else Some(n.(createdAt := Stamped(w.createdAt, now)))
  }

  /** A wait is kept, cleaned and stamped, as long as it asks, intends, expects or confirms anything. */
  lemma WaitKept(w: WaitingState, now: int)
    ensures var n := NormalizeWaiting(Some(w), now);
            && (n.Some? <==> Trim(w.question) != "" || Trim(w.intent) != "" || Clean(w.pendingFields) != []
                             || Trim(w.confirmationTarget) != "")
            && (n.Some? ==> n.value == WaitingState(Trim(w.question), Trim(w.intent), Clean(w.pendingFields),
                                                    Trim(w.confirmationTarget),
                                                    if w.createdAt.At? then w.createdAt else At(now)))
  {
    hide Trim, Clean;
  }

  lemma WaitingStable(waiting: Option<WaitingState>, now: int, later: int)
    ensures var w := NormalizeWaiting(waiting, now); NormalizeWaiting(w, later) == w
  {
    hide Trim;
    if waiting.Some? {
      var w := waiting.value;
      TrimLaws(w.question);
      TrimLaws(w.intent);
      TrimLaws(w.confirmationTarget);
      CleanIsClean(w.pendingFields);
      CleanFixed(Clean(w.pendingFields));
    }
  }

  // -------------------------------------------------------------- normal forms

  /** A reference the normaliser leaves alone. */
  predicate TidyReference(ref: Option<EntityReference>) {
    ref.Some? ==>
      && Trimmed(ref.value.id) && Trimmed(ref.value.name) && Trimmed(ref.value.source)
      && ref.value.updatedAt.At? && !(ref.value.id == "" && ref.value.name == "")
  }

  predicate TidyReferences(refs: Option<CurrentReferences>) {
    refs.Some? ==>
      && TidyReference(refs.value.strategy) && TidyReference(refs.value.trader)
      && TidyReference(refs.value.model) && TidyReference(refs.value.exchange)
      && refs.value != CurrentReferences(None, None, None, None)
  }

  predicate TidyWaiting(waiting: Option<WaitingState>) {
    waiting.Some? ==>
      var w := waiting.value;
      && Trimmed(w.question) && Trimmed(w.intent) && Trimmed(w.confirmationTarget) && IsClean(w.pendingFields)
      && w.createdAt.At? && !(w.question == "" && w.intent == "" && w.pendingFields == [] && w.confirmationTarget == "")
  }

  lemma TrimmedIff(text: string)
    ensures Trim(text) == text <==> Trimmed(text)
  {
    hide Trim;
    TrimLaws(text);
  }

  lemma ReferenceFixedIff(ref: Option<EntityReference>, now: int)
    ensures NormalizeEntityReference(ref, now) == ref <==> TidyReference(ref)
  {
    hide Trim, Trimmed;
    if ref.Some? {
      TrimmedIff(ref.value.id);
      TrimmedIff(ref.value.name);
      TrimmedIff(ref.value.source);
    }
  }

  lemma ReferencesFixedIff(refs: Option<CurrentReferences>, now: int)
    ensures NormalizeCurrentReferences(refs, now) == refs <==> TidyReferences(refs)
  {
    hide Trim, TidyReference, NormalizeEntityReference;
    if refs.Some? {
      ReferenceFixedIff(refs.value.strategy, now);
      ReferenceFixedIff(refs.value.trader, now);
      ReferenceFixedIff(refs.value.model, now);
      ReferenceFixedIff(refs.value.exchange, now);
    }
  }

  lemma WaitingFixedIff(waiting: Option<WaitingState>, now: int)
    ensures NormalizeWaiting(waiting, now) == waiting <==> TidyWaiting(waiting)
  {
    hide Trim, Trimmed, IsClean, Clean;
    if waiting.Some? {
      var w := waiting.value;
      TrimmedIff(w.question);
      TrimmedIff(w.intent);
      TrimmedIff(w.confirmationTarget);
      CleanIsClean(w.pendingFields);
      if IsClean(w.pendingFields) {
        CleanFixed(w.pendingFields);
      }
    }
  }

  lemma HistoryFixedIff(history: seq<ReferenceRecord>, now: int)
    ensures NormalizeReferenceHistory(history, now) == history <==>
            |history| <= 12 && forall i :: 0 <= i < |history| ==> TidyRecord(history[i])
  {
    hide TidyRecord, TrimRecords;
    TrimRecordsTidy(history, now);
    var t := TrimRecords(history, now);
    if |history| <= REFERENCE_HISTORY_MAX && forall i :: 0 <= i < |history| ==> TidyRecord(history[i]) {
      TidyRecordsKept(history, now);
    }
  }

  lemma ObservationsFixedIff(os: seq<Observation>, now: int)
    ensures NormalizeObservations(os, now) == os <==> AllTidy(os)
  {
    hide Tidy, NormalizeObservations;
    NormalizedObservationsTidy(os, now);
    if AllTidy(os) {
      TidyObservationsKept(os, now);
    }
  }
}
