/** The in-memory admin store: entity, source and corpus-item tables, a segment table,
    and the three triggers that move a corpus item through its pipeline. */
module Admin {
  import opened Wrappers
  import opened Strings
  import opened Seqs
  import opened Types

  // ---------------------------------------------------------------------------
  // The tables the store starts with

  const InitialEntities: seq<Entity> := [
    Entity("1", "Elon Musk", "elon-musk",
      Some("CEO of Tesla and SpaceX, entrepreneur and innovator"),
      Some("/elon-musk-inspired-visionary.png"), "2024-01-15T10:00:00Z"),
    Entity("2", "Steve Jobs", "steve-jobs", Some("Co-founder of Apple Inc."), None,
      "2024-01-20T14:30:00Z")
  ]

  const InitialSources: seq<Source> := [
    Source("1", Id("1"), "Elon Musk YouTube Playlist", Video, "youtube",
      "Playlist ID: PLx1234567", true, Some("2024-01-25T08:00:00Z"), "2024-01-15T10:30:00Z"),
    Source("2", Id("1"), "Tesla Annual Reports", Document, "pdf_upload",
      "Auto-fetch from investor.tesla.com", true, Some("2024-01-24T12:00:00Z"),
      "2024-01-16T09:00:00Z"),
    Source("3", Id("1"), "@elonmusk Twitter", Social, "twitter", "Username: @elonmusk",
      false, None, "2024-01-17T11:00:00Z")
  ]

  const InitialItems: seq<CorpusItem> := [
    CorpusItem("1", Id("1"), Id("1"), Video, "youtube", "Elon Musk Interview at Tesla Gigafactory",
      Some("Discussion about Tesla's manufacturing innovations"),
      Some("https://youtube.com/watch?v=abc123"), "en", Some("2024-01-20T15:00:00Z"),
      Embedded, Some(5), "2024-01-21T10:00:00Z", "2024-01-22T14:30:00Z"),
    CorpusItem("2", Id("1"), Id("2"), Document, "pdf_upload", "Tesla Q4 2023 Annual Report",
      Some("Official Tesla annual financial report"),
      Some("https://ir.tesla.com/2023-q4-report.pdf"), "en", Some("2024-01-15T00:00:00Z"),
      SegmentsReady, Some(5), "2024-01-16T09:30:00Z", "2024-01-17T11:00:00Z"),
    CorpusItem("3", Id("1"), Id("1"), Video, "youtube", "SpaceX Starship Launch Commentary",
      None, Some("https://youtube.com/watch?v=xyz789"), "en", Some("2024-01-18T12:00:00Z"),
      TextImported, Some(4), "2024-01-19T08:00:00Z", "2024-01-19T10:00:00Z"),
    CorpusItem("4", Id("1"), Absent, WebPage, "web_url", "Official Tesla Blog: Future of Autopilot",
      None, Some("https://tesla.com/blog/autopilot-future"), "en", Some("2024-01-10T09:00:00Z"),
      Embedded, Some(5), "2024-01-11T10:00:00Z", "2024-01-12T14:00:00Z"),
    CorpusItem("5", Id("1"), Id("3"), Social, "twitter", "Twitter Thread: Mars Mission Vision",
      None, Some("https://twitter.com/elonmusk/status/123456"), "en",
      Some("2024-01-22T16:30:00Z"), Pending, Some(3), "2024-01-23T08:00:00Z",
      "2024-01-23T08:00:00Z")
  ]

  const InitialSegments: seq<SegmentPreview> := [
    SegmentPreview("seg1", "1",
      "Tesla's manufacturing process has been revolutionized through advanced automation and AI-driven quality control systems...",
      Some("00:12:35-00:13:10")),
    SegmentPreview("seg2", "1",
      "We're seeing unprecedented efficiency gains in our Gigafactory operations, with production rates increasing by 40%...",
      Some("00:15:20-00:16:05")),
    SegmentPreview("seg3", "1",
      "The future of sustainable energy relies on scaling battery production while reducing costs through innovation...",
      Some("00:22:10-00:22:55"))
  ]

  // ---------------------------------------------------------------------------
  // Ids: every table numbers its records "1", "2", ... in order

  /** The i-th record (from 0) has id `String(i + 1)`. */
  predicate PositionalIds(ids: seq<string>) {
    forall i :: 0 <= i < |ids| ==> ids[i] == NatToString(i + 1)
  }

  /** The mock tables are numbered "1", "2", ... in order. */
  lemma InitialTablesPositional()
    ensures PositionalIds(EntityIds(InitialEntities))
    ensures PositionalIds(SourceIds(InitialSources))
    ensures PositionalIds(ItemIds(InitialItems))
  {
    assert NatToString(1) == "1" && NatToString(2) == "2" && NatToString(3) == "3";
    assert NatToString(4) == "4" && NatToString(5) == "5";
    assert EntityIds(InitialEntities) == ["1", "2"];
    assert SourceIds(InitialSources) == ["1", "2", "3"];
    assert ItemIds(InitialItems) == ["1", "2", "3", "4", "5"];
  }

  /** Positional ids never repeat. */
  lemma PositionalIdsDistinct(ids: seq<string>, i: nat, j: nat)
    requires PositionalIds(ids) && i < |ids| && j < |ids| && i != j
    ensures ids[i] != ids[j]
  {
    NatToStringInjective(i + 1, j + 1);
  }

  /** The id a create assigns, `String(length + 1)`, is new, and appending a record with it
      keeps the numbering. */
  lemma {:induction false} PositionalIdsAppend(ids: seq<string>)
    requires PositionalIds(ids)
    ensures NatToString(|ids| + 1) !in ids
    ensures PositionalIds(ids + [NatToString(|ids| + 1)])
  {
    forall i | 0 <= i < |ids| ensures ids[i] != NatToString(|ids| + 1) {
      NatToStringInjective(i + 1, |ids| + 1);
    }
  }

  /** With positional ids, the record `find` returns for an id is the only one with that id. */
  lemma PositionalFirstIsOnly(ids: seq<string>, id: string, j: nat)
    requires PositionalIds(ids) && j < |ids| && ids[j] == id
    ensures FirstIndex(ids, id) == Some(j)
  {
    var k := FirstIndex(ids, id).value;
    if k != j {
      PositionalIdsDistinct(ids, k, j);
    }
  }

  // ---------------------------------------------------------------------------
  // The pipeline flags derived from a status

  /** How far along the pipeline a status is; `Failed` is off the line. */
  function Stage(s: Status): int {
    match s
    case Pending => 0
    case TextImported => 1
    case SegmentsReady => 2
    case Embedded => 3
    case Failed => -1
  }

  /** The three flags the detail lookup attaches, each tested by list membership. */
  function DerivePipeline(s: Status): (p: PipelineStepStatus)
    ensures p.textImported <==> Stage(s) >= 1
    ensures p.segmentsBuilt <==> Stage(s) >= 2
    ensures p.embeddingsReady <==> Stage(s) == 3
    ensures p.embeddingsReady ==> p.segmentsBuilt
    ensures p.segmentsBuilt ==> p.textImported
  {
    PipelineStepStatus(
      s in [TextImported, SegmentsReady, Embedded],
      s in [SegmentsReady, Embedded],
      s == Embedded)
  }

  /** The flags tell every status on the line apart; `Failed` shows exactly as `Pending`. */
  lemma PipelineDeterminesStatus(s: Status, t: Status)
    ensures DerivePipeline(s) == DerivePipeline(t) <==> s == t || {s, t} == {Pending, Failed}
  {
  }

  // ---------------------------------------------------------------------------
  // The triggers, as functions of the item table

  datatype Trigger = ImportText | BuildSegments | BuildEmbeddings

  /** The only status a trigger acts on. */
  function From(t: Trigger): Status {
    match t
    case ImportText => Pending
    case BuildSegments => TextImported
    case BuildEmbeddings => SegmentsReady
  }

  /** The status a trigger sets. */
  function To(t: Trigger): Status {
    match t
    case ImportText => TextImported
    case BuildSegments => SegmentsReady
    case BuildEmbeddings => Embedded
  }

  /** A trigger changes the item `find` returns for `id`, and only when its status is the
      trigger's exact predecessor; that item gets the next status and keeps every other field. */
  function ApplyTrigger(items: seq<CorpusItem>, id: string, t: Trigger): (r: seq<CorpusItem>)
    ensures |r| == |items|
    ensures forall j :: 0 <= j < |items| ==> r[j] == items[j].(status := r[j].status)
    ensures forall j :: 0 <= j < |items| ==>
              (r[j] != items[j] <==>
                 FirstIndex(ItemIds(items), id) == Some(j) && items[j].status == From(t))
    ensures forall j :: 0 <= j < |items| && r[j] != items[j] ==> r[j].status == To(t)
    ensures ItemIds(r) == ItemIds(items)
  {
    var r :=
      match FirstIndex(ItemIds(items), id)
      case None => items
      case Some(k) => if items[k].status == From(t) then items[k := items[k].(status := To(t))] else items;
    assert ItemIds(r) == ItemIds(items);
    r
  }

  /** A trigger is a no-op exactly when there is no item with the id or that item is not at
      the trigger's predecessor status. */
  lemma TriggerNoOpIff(items: seq<CorpusItem>, id: string, t: Trigger)
    ensures ApplyTrigger(items, id, t) == items <==>
              match FirstIndex(ItemIds(items), id)
              case None => true
              case Some(k) => items[k].status != From(t)
  {
    var r := ApplyTrigger(items, id, t);
    match FirstIndex(ItemIds(items), id)
    case None =>
      assert forall j :: 0 <= j < |items| ==> r[j] == items[j];
    case Some(k) =>
      if items[k].status != From(t) {
        assert forall j :: 0 <= j < |items| ==> r[j] == items[j];
      } else {
        assert r[k] != items[k];
      }
  }

  /** No status moves backwards or skips a stage, and no trigger enters or leaves `Failed`. */
  lemma TriggerMonotone(items: seq<CorpusItem>, id: string, t: Trigger, j: nat)
    requires j < |items|
    ensures var r := ApplyTrigger(items, id, t);
      && Stage(items[j].status) <= Stage(r[j].status) <= Stage(items[j].status) + 1
      && (r[j].status == Failed <==> items[j].status == Failed)
  {
    var r := ApplyTrigger(items, id, t);
    if r[j] != items[j] {
      assert items[j].status == From(t) && r[j].status == To(t);
    } else {
      assert r[j].status == items[j].status;
    }
  }

  /** Running a trigger a second time changes nothing. */
  lemma TriggerIdempotent(items: seq<CorpusItem>, id: string, t: Trigger)
    ensures ApplyTrigger(ApplyTrigger(items, id, t), id, t) == ApplyTrigger(items, id, t)
  {
    var r := ApplyTrigger(items, id, t);
    TriggerNoOpIff(r, id, t);
    match FirstIndex(ItemIds(r), id)
    case None =>
    case Some(k) =>
      if r[k] != items[k] {
        assert r[k].status == To(t);
      } else {
        assert items[k].status != From(t);
      }
  }

  /** From `Pending`, import, segments and embeddings in that order reach `Embedded`,
      and the item's other fields and every other item are as they were. */
  lemma {:induction false} FullPipeline(items: seq<CorpusItem>, id: string, k: nat)
    requires FirstIndex(ItemIds(items), id) == Some(k) && items[k].status == Pending
    ensures ApplyTrigger(ApplyTrigger(ApplyTrigger(items, id, ImportText), id, BuildSegments), id, BuildEmbeddings)
            == items[k := items[k].(status := Embedded)]
  {
    var a := ApplyTrigger(items, id, ImportText);
    assert a == items[k := items[k].(status := TextImported)];
    var b := ApplyTrigger(a, id, BuildSegments);
    assert b == items[k := items[k].(status := SegmentsReady)];
    var c := ApplyTrigger(b, id, BuildEmbeddings);
    assert c == items[k := items[k].(status := Embedded)];
  }

  /** Out of order, a trigger whose predecessor has not been reached leaves the table as it is:
      from `Pending`, building segments or embeddings does nothing. */
  lemma OutOfOrderNoOp(items: seq<CorpusItem>, id: string, k: nat)
    requires FirstIndex(ItemIds(items), id) == Some(k) && items[k].status == Pending
    ensures ApplyTrigger(items, id, BuildSegments) == items
    ensures ApplyTrigger(items, id, BuildEmbeddings) == items
    ensures ApplyTrigger(ApplyTrigger(items, id, BuildEmbeddings), id, BuildSegments) == items
  {
    TriggerNoOpIff(items, id, BuildSegments);
    TriggerNoOpIff(items, id, BuildEmbeddings);
  }

  // ---------------------------------------------------------------------------
  // Toggling a source, as a function of the source table

  /** The source `find` returns for `id` gets `enabled`; nothing else changes. */
  function ToggleFirst(sources: seq<Source>, id: string, enabled: bool): (r: seq<Source>)
    ensures |r| == |sources|
    ensures forall j :: 0 <= j < |sources| ==> r[j] == sources[j].(enabled := r[j].enabled)
    ensures forall j :: 0 <= j < |sources| ==>
              r[j].enabled == if FirstIndex(SourceIds(sources), id) == Some(j) then enabled
                              else sources[j].enabled
    ensures id !in SourceIds(sources) ==> r == sources
    ensures SourceIds(r) == SourceIds(sources)
  {
    var r :=
      match FirstIndex(SourceIds(sources), id)
      case None => sources
      case Some(k) => sources[k := sources[k].(enabled := enabled)];
    assert SourceIds(r) == SourceIds(sources);
    r
  }

  lemma ToggleIdempotent(sources: seq<Source>, id: string, enabled: bool)
    ensures ToggleFirst(ToggleFirst(sources, id, enabled), id, enabled) == ToggleFirst(sources, id, enabled)
  {
    var r := ToggleFirst(sources, id, enabled);
    var rr := ToggleFirst(r, id, enabled);
    assert forall j :: 0 <= j < |r| ==> rr[j] == r[j];
  }

  // ---------------------------------------------------------------------------
  // Filters

  /** `filters?.entityId` and `filters?.contentKind`, each a constraint only when truthy. */
  predicate EntityMatches(item: CorpusItem, filters: Option<CorpusFilters>) {
    filters.None? || filters.value.entityId.None? || filters.value.entityId.value == ""
    || item.entityId == Id(filters.value.entityId.value)
  }

  predicate KindMatches(item: CorpusItem, filters: Option<CorpusFilters>) {
    filters.None? || filters.value.contentKind.None?
    || item.contentKind == filters.value.contentKind.value
  }

  predicate MatchesFilters(item: CorpusItem, filters: Option<CorpusFilters>) {
    EntityMatches(item, filters) && KindMatches(item, filters)
  }


  /** A created source carries the input's fields, no last-ingest time and the given stamp. */
  predicate SourceFromInput(s: Source, input: CreateSourceInput, createdAt: string) {
    && s.entityId == input.entityId && s.name == input.name && s.kind == input.kind
    && s.originType == input.originType && s.configSummary == input.configSummary
    && s.enabled == input.enabled && s.lastIngestAt == None && s.createdAt == createdAt
  }

  // ---------------------------------------------------------------------------
  // The store

  class Store {
    var entities: seq<Entity>
    var sources: seq<Source>
    var items: seq<CorpusItem>
    const segments: seq<SegmentPreview>

    /** Every table is numbered by position; creates and updates keep it so. */
    ghost predicate Valid()
      reads this
    {
      PositionalIds(EntityIds(entities)) && PositionalIds(SourceIds(sources))
      && PositionalIds(ItemIds(items))
    }

    /** The store as the module is loaded, holding the mock tables. */
    constructor ()
      ensures Valid()
      ensures entities == InitialEntities && sources == InitialSources
      ensures items == InitialItems && segments == InitialSegments
    {
      entities := InitialEntities;
      sources := InitialSources;
      items := InitialItems;
      segments := InitialSegments;
      new;
      InitialTablesPositional();
    }

    /** Appends an entity numbered one past the table's length, stamped with `createdAt`. */
    method CreateEntity(input: CreateEntityInput, createdAt: string) returns (e: Entity)
      modifies this
      ensures entities == old(entities) + [e]
      ensures e.id == NatToString(|old(entities)| + 1)
      ensures e.name == input.name && e.slug == input.slug
      ensures e.description == input.description && e.avatarUrl == input.avatarUrl
      ensures e.createdAt == createdAt
      ensures sources == old(sources) && items == old(items)
      ensures old(Valid()) ==> Valid() && e.id !in EntityIds(old(entities))
    {
      e := Entity(NatToString(|entities| + 1), input.name, input.slug, input.description,
                  input.avatarUrl, createdAt);
      if Valid() {
        PositionalIdsAppend(EntityIds(entities));
        assert EntityIds(entities + [e]) == EntityIds(entities) + [e.id];
      }
      entities := entities + [e];
    }

    /** Appends a source numbered one past the table's length, stamped with `createdAt`. */
    method CreateSource(input: CreateSourceInput, createdAt: string) returns (s: Source)
      modifies this
      ensures sources == old(sources) + [s]
      ensures s.id == NatToString(|old(sources)| + 1)
      ensures SourceFromInput(s, input, createdAt)
      ensures entities == old(entities) && items == old(items)
      ensures old(Valid()) ==> Valid() && s.id !in SourceIds(old(sources))
    {
      s := Source(NatToString(|sources| + 1), input.entityId, input.name, input.kind,
                  input.originType, input.configSummary, input.enabled, None, createdAt);
      if Valid() {
        PositionalIdsAppend(SourceIds(sources));
        assert SourceIds(sources + [s]) == SourceIds(sources) + [s.id];
      }
      sources := sources + [s];
    }

    /** Sets `enabled` on the first source with the id, if there is one. */
    method ToggleSourceEnabled(id: string, enabled: bool)
      modifies this
      ensures sources == ToggleFirst(old(sources), id, enabled)
      ensures entities == old(entities) && items == old(items)
      ensures old(Valid()) ==> Valid()
    {
      var k := FirstIndex(SourceIds(sources), id);
      if k.Some? {
        sources := sources[k.value := sources[k.value].(enabled := enabled)];
      }
    }

    /** The items passing both filters, in table order. */
    function FetchCorpusItems(filters: Option<CorpusFilters>): (r: seq<CorpusItem>)
      reads this
      ensures IsSubsequence(r, items)
      ensures forall i :: 0 <= i < |r| ==> MatchesFilters(r[i], filters)
      ensures forall it :: it in items ==>
                multiset(r)[it] == if MatchesFilters(it, filters) then multiset(items)[it] else 0
    {
      var byEntity := Filter(items, (it: CorpusItem) => EntityMatches(it, filters));
      var r := Filter(byEntity, (it: CorpusItem) => KindMatches(it, filters));
      SubsequenceTrans(r, byEntity, items);
      FilterTwice(items, (it: CorpusItem) => EntityMatches(it, filters),
                  (it: CorpusItem) => KindMatches(it, filters),
                  (it: CorpusItem) => MatchesFilters(it, filters));
      r
    }

    /** The first item with the id, with its pipeline flags; rejects when there is none. */
    function FetchCorpusItemById(id: string): (r: Result<ItemWithPipeline>)
      reads this
      ensures r.Failure? <==> id !in ItemIds(items)
      ensures r.Failure? ==> r.message == "Corpus item not found"
      ensures r.Success? ==> exists k :: FirstIndex(ItemIds(items), id) == Some(k) && r.value.item == items[k]
      ensures r.Success? ==> r.value.item.id == id
                             && r.value.pipeline == DerivePipeline(r.value.item.status)
    {
      match FirstIndex(ItemIds(items), id)
      case None => Failure("Corpus item not found")
      case Some(k) => Success(ItemWithPipeline(items[k], DerivePipeline(items[k].status)))
    }

    /** The segments of one corpus item, in table order. */
    function FetchSegmentsPreview(corpusItemId: string): (r: seq<SegmentPreview>)
      reads this
      ensures IsSubsequence(r, segments)
      ensures forall i :: 0 <= i < |r| ==> r[i].corpusItemId == corpusItemId
      ensures forall sg :: sg in segments && sg.corpusItemId == corpusItemId ==> sg in r
    {
      var r := Filter(segments, (sg: SegmentPreview) => sg.corpusItemId == corpusItemId);
      forall sg | sg in segments && sg.corpusItemId == corpusItemId ensures sg in r {
        FilterKeepsMembers(segments, (sg: SegmentPreview) => sg.corpusItemId == corpusItemId, sg);
      }
      r
    }

    /** `pending` to `text_imported` for the first item with the id. */
    method TriggerImportText(corpusItemId: string)
      modifies this
      ensures items == ApplyTrigger(old(items), corpusItemId, ImportText)
      ensures entities == old(entities) && sources == old(sources)
      ensures old(Valid()) ==> Valid()
    {
      var k := FirstIndex(ItemIds(items), corpusItemId);
      if k.Some? && items[k.value].status == Pending {
        items := items[k.value := items[k.value].(status := TextImported)];
      }
    }

    /** `text_imported` to `segments_ready` for the first item with the id. */
    method TriggerBuildSegments(corpusItemId: string)
      modifies this
      ensures items == ApplyTrigger(old(items), corpusItemId, BuildSegments)
      ensures entities == old(entities) && sources == old(sources)
      ensures old(Valid()) ==> Valid()
    {
      var k := FirstIndex(ItemIds(items), corpusItemId);
      if k.Some? && items[k.value].status == TextImported {
        items := items[k.value := items[k.value].(status := SegmentsReady)];
      }
    }

    /** `segments_ready` to `embedded` for the first item with the id. */
    method TriggerBuildEmbeddings(corpusItemId: string)
      modifies this
      ensures items == ApplyTrigger(old(items), corpusItemId, BuildEmbeddings)
      ensures entities == old(entities) && sources == old(sources)
      ensures old(Valid()) ==> Valid()
    {
      var k := FirstIndex(ItemIds(items), corpusItemId);
      if k.Some? && items[k.value].status == SegmentsReady {
        items := items[k.value := items[k.value].(status := Embedded)];
      }
    }
  }

  /** With no filter object, or one whose fields are absent or empty, every item is returned. */
  lemma NoFilterReturnsAll(store: Store, filters: Option<CorpusFilters>)
    requires filters.None? || ((filters.value.entityId.None? || filters.value.entityId.value == "")
                               && filters.value.contentKind.None?)
    ensures store.FetchCorpusItems(filters) == store.items
  {
    FilterAllPass(store.items, (it: CorpusItem) => EntityMatches(it, filters));
    FilterAllPass(store.items, (it: CorpusItem) => KindMatches(it, filters));
  }
}
