/** The canned question-answering agent: a slug lookup and a templated answer with fixed
    citations. */
module Agent {
  import opened Wrappers
  import opened Seqs
  import opened Strings
  import opened Types
  import Admin

  /** The agent's own entity table. */
  const AgentEntities: seq<Entity> := [
    Entity("1", "Elon Musk", "elon-musk",
      Some("CEO of Tesla and SpaceX, entrepreneur and innovator"),
      Some("/elon-musk-inspired-visionary.png"), "2024-01-15T10:00:00Z")
  ]

  /** The first entity of `table` with the slug, or "Entity not found". */
  function EntityBySlug(table: seq<Entity>, slug: string): (r: Result<Entity>)
    ensures r.Failure? <==> slug !in EntitySlugs(table)
    ensures r.Failure? ==> r.message == "Entity not found"
    ensures r.Success? ==> exists k :: FirstIndex(EntitySlugs(table), slug) == Some(k)
                                       && r.value == table[k]
  {
    match FirstIndex(EntitySlugs(table), slug)
    case None => Failure("Entity not found")
    case Some(k) => Success(table[k])
  }

  /** The lookup over the agent's table; only "elon-musk" is found. */
  function FetchEntityBySlug(slug: string): (r: Result<Entity>)
    ensures r.Success? <==> slug == "elon-musk"
    ensures r.Success? ==> r.value == AgentEntities[0] && r.value.slug == slug
    ensures r.Failure? ==> r.message == "Entity not found"
  {
    assert EntitySlugs(AgentEntities) == ["elon-musk"];
    EntityBySlug(AgentEntities, slug)
  }

  /** The agent's one entity is the store's first entity, field for field. */
  lemma AgentEntityIsStoreEntity()
    ensures AgentEntities[0] == Admin.InitialEntities[0]
  {
  }

  /** The answer's opening, which names the entity's slug. */
  function AnswerPrefix(slug: string): string {
    LeadIn + slug + LeadOut
  }

  const LeadIn: string := "Based on the available corpus data for "
  const LeadOut: string := ", here's what I found: "

  const TeslaText: string :=
    "Tesla is focused on accelerating sustainable energy through electric vehicles and solar power. The company continues to innovate in manufacturing automation and battery technology."
  const SpaceXText: string :=
    "SpaceX aims to make humanity a multi-planetary species. The company is developing Starship for Mars missions and continues to advance reusable rocket technology."
  const GeneralText: string :=
    "This is a comprehensive answer based on multiple sources from videos, documents, and official communications. The information is drawn from reliable sources with high confidence levels."

  /** The topic paragraph: "Tesla" is tested first, then "SpaceX". */
  function TopicText(question: string): (text: string)
    ensures (exists i :: OccursAt(question, "Tesla", i)) ==> text == TeslaText
    ensures (!exists i :: OccursAt(question, "Tesla", i)) && (exists i :: OccursAt(question, "SpaceX", i))
            ==> text == SpaceXText
    ensures (!exists i :: OccursAt(question, "Tesla", i)) && (!exists i :: OccursAt(question, "SpaceX", i))
            ==> text == GeneralText
  {
    if Includes(question, "Tesla") then TeslaText
    else if Includes(question, "SpaceX") then SpaceXText
    else GeneralText
  }

  const Citations: seq<QACitation> := [
    QACitation("seg1",
      "Tesla's manufacturing process has been revolutionized through advanced automation...",
      CitedItem("1", "Elon Musk Interview at Tesla Gigafactory",
        Some("https://youtube.com/watch?v=abc123"), Video, Some("2024-01-20T15:00:00Z"),
        Some("00:12:35-00:13:10"))),
    QACitation("seg4",
      "The company's Q4 results show significant growth in production capacity and efficiency...",
      CitedItem("2", "Tesla Q4 2023 Annual Report",
        Some("https://ir.tesla.com/2023-q4-report.pdf"), Document, Some("2024-01-15T00:00:00Z"),
        Some("Page 12, Section 3.2"))),
    QACitation("seg7",
      "Future developments in Autopilot technology will leverage neural network improvements...",
      CitedItem("4", "Official Tesla Blog: Future of Autopilot",
        Some("https://tesla.com/blog/autopilot-future"), WebPage, Some("2024-01-10T09:00:00Z"),
        Some("Introduction, Paragraph 3")))
  ]

  function SegmentIds(cs: seq<QACitation>): (ids: seq<string>)
    ensures |ids| == |cs| && forall i :: 0 <= i < |cs| ==> ids[i] == cs[i].segmentId
  {
    seq(|cs|, i requires 0 <= i < |cs| => cs[i].segmentId)
  }

  /** The answer for any entity and question; the filters are accepted and not consulted. */
  function AskQuestion(entitySlug: string, question: string, filters: Option<QAFilters>): (r: QAResponse)
    ensures r.answer == AnswerPrefix(entitySlug) + TopicText(question)
    ensures |r.citations| == 3
    ensures SegmentIds(r.citations) == ["seg1", "seg4", "seg7"]
    ensures r.meta.usedSegmentIds == SegmentIds(r.citations)
    ensures r.meta.retrievedCount == 12 >= |r.citations|
    ensures r.meta.confidence == High
  {
    assert SegmentIds(Citations) == ["seg1", "seg4", "seg7"];
    QAResponse(AnswerPrefix(entitySlug) + TopicText(question), Citations,
               QAResponseMeta(12, ["seg1", "seg4", "seg7"], High))
  }

  /** The answer opens with the prefix naming the slug. */
  lemma AnswerStartsWithPrefix(entitySlug: string, question: string, filters: Option<QAFilters>)
    ensures StartsWith(AskQuestion(entitySlug, question, filters).answer, AnswerPrefix(entitySlug))
    ensures Includes(AskQuestion(entitySlug, question, filters).answer, entitySlug)
  {
    ConcatStartsAndIncludes(LeadIn, entitySlug, LeadOut, TopicText(question));
  }

  /** A question naming both companies gets the Tesla paragraph. */
  lemma TeslaBeforeSpaceX(a: string, b: string, c: string)
    ensures TopicText(a + "Tesla" + b + "SpaceX" + c) == TeslaText
    ensures TopicText(a + "SpaceX" + b + "Tesla" + c) == TeslaText
  {
    IncludesConcat(a, "Tesla", b + "SpaceX" + c);
    assert a + "Tesla" + b + "SpaceX" + c == a + "Tesla" + (b + "SpaceX" + c);
    IncludesConcat(a + "SpaceX" + b, "Tesla", c);
  }

  /** A question naming only SpaceX gets the SpaceX paragraph. */
  lemma SpaceXOnly(a: string, b: string)
    requires !Includes(a + "SpaceX" + b, "Tesla")
    ensures TopicText(a + "SpaceX" + b) == SpaceXText
  {
    IncludesConcat(a, "SpaceX", b);
  }

  /** The three paragraphs are distinct, so the branch taken is visible in the answer. */
  lemma TopicTextsDistinct()
    ensures TeslaText != SpaceXText && TeslaText != GeneralText && SpaceXText != GeneralText
  {
    assert |TeslaText| == 180 && |SpaceXText| == 161 && |GeneralText| == 185;
  }

  /** The filters have no effect on the response. */
  lemma FiltersIgnored(entitySlug: string, question: string, f: Option<QAFilters>, g: Option<QAFilters>)
    ensures AskQuestion(entitySlug, question, f) == AskQuestion(entitySlug, question, g)
  {
  }

  /** Every cited item is a corpus item of the store's initial table with the same title, URL,
      kind and publication time. */
  lemma CitationsNameStoreItems(entitySlug: string, question: string, filters: Option<QAFilters>)
    ensures forall c :: c in AskQuestion(entitySlug, question, filters).citations ==>
              exists k :: 0 <= k < |Admin.InitialItems| && CitesItem(c.corpusItem, Admin.InitialItems[k])
  {
    assert CitesItem(Citations[0].corpusItem, Admin.InitialItems[0]);
    assert CitesItem(Citations[1].corpusItem, Admin.InitialItems[1]);
    assert CitesItem(Citations[2].corpusItem, Admin.InitialItems[3]);
  }

  predicate CitesItem(c: CitedItem, item: CorpusItem) {
    && c.id == item.id && c.title == item.title && c.primaryUrl == item.primaryUrl
    && c.contentKind == item.contentKind && c.publishedAt == item.publishedAt
  }

  /** Of the cited segments only the first has a preview in the store's segment table. */
  lemma OnlyFirstCitationHasPreview(entitySlug: string, question: string, filters: Option<QAFilters>)
    ensures var cs := AskQuestion(entitySlug, question, filters).citations;
            && (exists k :: 0 <= k < |Admin.InitialSegments| && Admin.InitialSegments[k].id == cs[0].segmentId)
            && (forall k :: 0 <= k < |Admin.InitialSegments| ==> Admin.InitialSegments[k].id != cs[1].segmentId)
            && (forall k :: 0 <= k < |Admin.InitialSegments| ==> Admin.InitialSegments[k].id != cs[2].segmentId)
  {
    assert Admin.InitialSegments[0].id == "seg1";
  }
}
