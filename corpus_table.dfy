/** The corpus list: an entity filter and a kind filter over the items, entity names and
    status badges. */
module CorpusTable {
  import opened Wrappers
  import opened Strings
  import opened Seqs
  import opened Types
  import opened Admin

  /** The select value that means "no constraint". */
  const All: string := "all"

  /** An item stays in the list unless a filter other than "all" disagrees with it. */
  predicate Keep(item: CorpusItem, entityFilter: string, kindFilter: string) {
    (entityFilter == All || item.entityId == Id(entityFilter))
    && (kindFilter == All || KindName(item.contentKind) == kindFilter)
  }

  /** The rows shown: an order-preserving selection of the items. A specific entity filter keeps
      only items whose `entityId` is that id, so items with null or no `entityId` drop out. */
  function FilteredItems(items: seq<CorpusItem>, entityFilter: string, kindFilter: string): (r: seq<CorpusItem>)
    ensures IsSubsequence(r, items)
    ensures forall i :: 0 <= i < |r| ==> entityFilter == All || r[i].entityId == Id(entityFilter)
    ensures forall i :: 0 <= i < |r| ==> kindFilter == All || KindName(r[i].contentKind) == kindFilter
    ensures entityFilter != All ==> forall i :: 0 <= i < |r| ==> r[i].entityId.Id?
    ensures forall it :: it in items && Keep(it, entityFilter, kindFilter) ==>
              multiset(r)[it] == multiset(items)[it]
  {
    Filter(items, (it: CorpusItem) => Keep(it, entityFilter, kindFilter))
  }

  /** With both filters at "all" the list is shown whole. */
  lemma AllFiltersShowEverything(items: seq<CorpusItem>)
    ensures FilteredItems(items, All, All) == items
  {
    FilterAllPass(items, (it: CorpusItem) => Keep(it, All, All));
  }

  lemma KindNameInjective(a: ContentKind, b: ContentKind)
    ensures KindName(a) == KindName(b) <==> a == b
  {
  }

  /** The table's filter over the store's items picks what the store's own filtered fetch
      returns, for every entity id other than "" and "all". */
  lemma AgreesWithStoreFetch(store: Store, entityId: string, kind: ContentKind)
    requires entityId != "" && entityId != All
    ensures FilteredItems(store.items, entityId, KindName(kind))
            == store.FetchCorpusItems(Some(CorpusFilters(Some(entityId), Some(kind))))
  {
    var f := Some(CorpusFilters(Some(entityId), Some(kind)));
    forall it: CorpusItem
      ensures Keep(it, entityId, KindName(kind)) == (EntityMatches(it, f) && KindMatches(it, f))
    {
      KindNameInjective(it.contentKind, kind);
    }
    FilterTwice(store.items, (it: CorpusItem) => EntityMatches(it, f),
                (it: CorpusItem) => KindMatches(it, f),
                (it: CorpusItem) => MatchesFilters(it, f));
    FilterSamePredicate(store.items, (it: CorpusItem) => Keep(it, entityId, KindName(kind)),
                        (it: CorpusItem) => MatchesFilters(it, f));
  }

  /** The entity column: "—" when the item has no entity, else the first entity with the id,
      by its name, or "Unknown" when there is none or its name is empty. */
  function GetEntityName(entities: seq<Entity>, entityId: IdRef): (name: string)
    ensures Falsy(entityId) ==> name == "—"
    ensures !Falsy(entityId) && entityId.value !in EntityIds(entities) ==> name == "Unknown"
    ensures !Falsy(entityId) && entityId.value in EntityIds(entities) ==>
              exists k :: FirstIndex(EntityIds(entities), entityId.value) == Some(k)
                          && name == if entities[k].name != "" then entities[k].name else "Unknown"
  {
    EntityNameOr(entities, entityId, "—")
  }

  /** The colour of each status's badge. */
  function Hue(s: Status): (hue: string)
    ensures hue != []
  {
    match s
    case Pending => "yellow"
    case TextImported => "blue"
    case SegmentsReady => "purple"
    case Embedded => "green"
    case Failed => "red"
  }

  /** The badge class of each status: background, text and dark-mode text in its colour,
      e.g. "bg-yellow-500/10 text-yellow-700 dark:text-yellow-400" for `Pending`. */
  function StatusColor(s: Status): (cls: string)
    ensures |cls| > 3 && cls[3] == Hue(s)[0]
  {
    var hue := Hue(s);
    "bg-" + hue + "-500/10 text-" + hue + "-700 dark:text-" + hue + "-400"
  }

  /** Each status gets a badge class of its own: the classes differ in their colour. */
  lemma StatusColorInjective(s: Status, t: Status)
    requires s != t
    ensures StatusColor(s) != StatusColor(t)
  {
    assert Hue(s)[0] != Hue(t)[0];
  }

  /** `text` is `name` with every "_" written as a space. */
  predicate UnderscoresAsSpaces(name: string, text: string) {
    |text| == |name| && '_' !in text
    && forall i :: 0 <= i < |text| ==> text[i] == if name[i] == '_' then ' ' else name[i]
  }

  /** In a name whose only "_" is at `k`, replacing the first "_" replaces every "_". */
  lemma SingleUnderscore(name: string, k: nat)
    requires k < |name| && name[k] == '_'
    requires forall i :: 0 <= i < |name| && i != k ==> name[i] != '_'
    ensures UnderscoresAsSpaces(name, ReplaceFirst(name, '_', ' '))
  {
    var r := ReplaceFirst(name, '_', ' ');
    forall i | 0 <= i < |name|
      ensures r[i] == if name[i] == '_' then ' ' else name[i]
    {
      if i == k {
        assert '_' !in name[..k];
      }
    }
  }

  /** The badge text, `status.replace("_", " ")`. Every status name holds at most one "_", so
      replacing the first one is replacing them all. */
  function StatusLabel(s: Status): (text: string)
    ensures UnderscoresAsSpaces(StatusName(s), text)
  {
    LabelReplacesAll(s);
    ReplaceFirst(StatusName(s), '_', ' ')
  }

  lemma LabelReplacesAll(s: Status)
    ensures UnderscoresAsSpaces(StatusName(s), ReplaceFirst(StatusName(s), '_', ' '))
  {
    var name := StatusName(s);
    match s {
      case Pending => assert '_' !in name;
      case Embedded => assert '_' !in name;
      case Failed => assert '_' !in name;
      case TextImported =>
        assert name == "text" + "_" + "imported";
        SingleUnderscore(name, 4);
      case SegmentsReady =>
        assert name == "segments" + "_" + "ready";
        SingleUnderscore(name, 8);
    }
  }
}
