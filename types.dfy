/** The records of the admin console and the QA agent. */
module Types {
  import opened Wrappers
  import Seqs

  /** `SourceKind` and `ContentKind` are declared separately with the same five values. */
  datatype ContentKind = Video | Audio | Document | WebPage | Social
  type SourceKind = ContentKind

  /** The string the kind is written as. */
  function KindName(k: ContentKind): string {
    match k
    case Video => "video"
    case Audio => "audio"
    case Document => "document"
    case WebPage => "web_page"
    case Social => "social"
  }

  /** The processing status of a corpus item; `Failed` is declared but never produced. */
  datatype Status = Pending | TextImported | SegmentsReady | Embedded | Failed

  function StatusName(s: Status): string {
    match s
    case Pending => "pending"
    case TextImported => "text_imported"
    case SegmentsReady => "segments_ready"
    case Embedded => "embedded"
    case Failed => "failed"
  }

  /** A field typed `string | null` that may also be left out of the record. */
  datatype IdRef = Absent | Null | Id(value: string)

  /** JavaScript's falsiness for such a field: undefined, null or the empty string. */
  predicate Falsy(r: IdRef) {
    match r
    case Absent => true
    case Null => true
    case Id(v) => v == ""
  }

  datatype Entity = Entity(
    id: string,
    name: string,
    slug: string,
    description: Option<string>,
    avatarUrl: Option<string>,
    createdAt: string)

  datatype Source = Source(
    id: string,
    entityId: IdRef,
    name: string,
    kind: SourceKind,
    originType: string,
    configSummary: string,
    enabled: bool,
    lastIngestAt: Option<string>,
    createdAt: string)

  datatype CorpusItem = CorpusItem(
    id: string,
    entityId: IdRef,
    sourceId: IdRef,
    contentKind: ContentKind,
    originType: string,
    title: string,
    description: Option<string>,
    primaryUrl: Option<string>,
    language: string,
    publishedAt: Option<string>,
    status: Status,
    reliabilityLevel: Option<int>,
    createdAt: string,
    updatedAt: string)

  datatype PipelineStepStatus = PipelineStepStatus(
    textImported: bool,
    segmentsBuilt: bool,
    embeddingsReady: bool)

  /** What the detail lookup resolves with: the item's fields plus its pipeline flags. */
  datatype ItemWithPipeline = ItemWithPipeline(item: CorpusItem, pipeline: PipelineStepStatus)

  datatype SegmentPreview = SegmentPreview(
    id: string,
    corpusItemId: string,
    text: string,
    positionInfo: Option<string>)

  datatype CitedItem = CitedItem(
    id: string,
    title: string,
    primaryUrl: Option<string>,
    contentKind: ContentKind,
    publishedAt: Option<string>,
    positionInfo: Option<string>)

  datatype QACitation = QACitation(segmentId: string, textSnippet: string, corpusItem: CitedItem)

  datatype Confidence = High | Medium | Low

  datatype QAResponseMeta = QAResponseMeta(
    retrievedCount: nat,
    usedSegmentIds: seq<string>,
    confidence: Confidence)

  datatype QAResponse = QAResponse(answer: string, citations: seq<QACitation>, meta: QAResponseMeta)

  datatype CreateEntityInput = CreateEntityInput(
    name: string,
    slug: string,
    description: Option<string>,
    avatarUrl: Option<string>)

  datatype CreateSourceInput = CreateSourceInput(
    entityId: IdRef,
    name: string,
    kind: SourceKind,
    originType: string,
    configSummary: string,
    enabled: bool)

  datatype CorpusFilters = CorpusFilters(entityId: Option<string>, contentKind: Option<ContentKind>)

  /** Declared for the agent but consulted by nothing. */
  datatype TimeRange = TimeRange(from: string, to: string)
  datatype QAFilters = QAFilters(
    timeRange: Option<TimeRange>,
    contentKinds: Option<seq<ContentKind>>,
    minReliability: Option<int>)

  // The key columns that `find` compares against.

  function EntityIds(es: seq<Entity>): (ids: seq<string>)
    ensures |ids| == |es| && forall i :: 0 <= i < |es| ==> ids[i] == es[i].id
  {
    seq(|es|, i requires 0 <= i < |es| => es[i].id)
  }

  function EntitySlugs(es: seq<Entity>): (slugs: seq<string>)
    ensures |slugs| == |es| && forall i :: 0 <= i < |es| ==> slugs[i] == es[i].slug
  {
    seq(|es|, i requires 0 <= i < |es| => es[i].slug)
  }

  function SourceIds(ss: seq<Source>): (ids: seq<string>)
    ensures |ids| == |ss| && forall i :: 0 <= i < |ss| ==> ids[i] == ss[i].id
  {
    seq(|ss|, i requires 0 <= i < |ss| => ss[i].id)
  }

  function ItemIds(items: seq<CorpusItem>): (ids: seq<string>)
    ensures |ids| == |items| && forall i :: 0 <= i < |items| ==> ids[i] == items[i].id
  {
    seq(|items|, i requires 0 <= i < |items| => items[i].id)
  }

  /** The name shown for an entity reference: `absentLabel` for a falsy reference, otherwise the
      name of the first entity with that id when it is non-empty, otherwise "Unknown". */
  function EntityNameOr(entities: seq<Entity>, ref: IdRef, absentLabel: string): (name: string)
    ensures Falsy(ref) ==> name == absentLabel
    ensures !Falsy(ref) && ref.value !in EntityIds(entities) ==> name == "Unknown"
    ensures !Falsy(ref) && ref.value in EntityIds(entities) ==>
              exists k :: Seqs.FirstIndex(EntityIds(entities), ref.value) == Some(k)
                          && name == if entities[k].name != "" then entities[k].name else "Unknown"
  {
    if Falsy(ref) then absentLabel
    else
      match Seqs.FirstIndex(EntityIds(entities), ref.value)
      case None => "Unknown"
      case Some(k) => if entities[k].name != "" then entities[k].name else "Unknown"
  }
}
