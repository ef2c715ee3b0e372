/** The sources list: the create-source form, the enable switch on each row and the
    entity column. */
module SourcesTable {
  import opened Wrappers
  import opened Seqs
  import opened Types
  import opened Admin
  import Strings
  import CorpusTable

  /** The dialog's form; `entityId` is "" for "Global (No Entity)". */
  datatype SourceForm = SourceForm(
    name: string,
    kind: SourceKind,
    originType: string,
    entityId: string,
    configSummary: string,
    enabled: bool)

  /** The form as it opens and as it is reset after a create. */
  const EmptyForm: SourceForm := SourceForm("", Video, "youtube", "", "", true)

  /** What the form submits: an empty entity choice is sent as null, any other one as is. */
  function FormInput(form: SourceForm): (input: CreateSourceInput)
    ensures input.entityId == Null <==> form.entityId == ""
    ensures form.entityId != "" ==> input.entityId == Id(form.entityId)
    ensures input.name == form.name && input.kind == form.kind && input.originType == form.originType
    ensures input.configSummary == form.configSummary && input.enabled == form.enabled
  {
    CreateSourceInput(if form.entityId == "" then Null else Id(form.entityId),
                      form.name, form.kind, form.originType, form.configSummary, form.enabled)
  }

  /** The list after a toggle: every row with the id gets the new `enabled`, nothing else moves. */
  function ToggledList(sources: seq<Source>, id: string, enabled: bool): (r: seq<Source>)
    ensures |r| == |sources|
    ensures forall j :: 0 <= j < |sources| ==> r[j] == sources[j].(enabled := r[j].enabled)
    ensures forall j :: 0 <= j < |sources| ==>
              r[j].enabled == if sources[j].id == id then enabled else sources[j].enabled
  {
    seq(|sources|, j requires 0 <= j < |sources| =>
      if sources[j].id == id then sources[j].(enabled := enabled) else sources[j])
  }

  /** While ids are positional (as the store keeps them), the list's update agrees with what the
      store did to its own table. */
  lemma ToggledListAgreesWithStore(sources: seq<Source>, id: string, enabled: bool)
    requires PositionalIds(SourceIds(sources))
    ensures ToggledList(sources, id, enabled) == ToggleFirst(sources, id, enabled)
  {
    var a, b := ToggledList(sources, id, enabled), ToggleFirst(sources, id, enabled);
    forall j | 0 <= j < |sources| ensures a[j] == b[j] {
      if sources[j].id == id {
        PositionalFirstIsOnly(SourceIds(sources), id, j);
      }
    }
  }

  /** Where two rows share an id the list updates both, while the store updates only the first. */
  lemma ToggledListDiffersOnDuplicates(s: Source)
    requires !s.enabled
    ensures ToggledList([s, s], s.id, true) != ToggleFirst([s, s], s.id, true)
  {
    assert ToggledList([s, s], s.id, true)[1].enabled;
    assert FirstIndex(SourceIds([s, s]), s.id) == Some(0);
    assert !ToggleFirst([s, s], s.id, true)[1].enabled;
  }

  /** The entity column: "Global" when the source has no entity. */
  function GetEntityName(entities: seq<Entity>, entityId: IdRef): (name: string)
    ensures Falsy(entityId) ==> name == "Global"
    ensures !Falsy(entityId) && entityId.value !in EntityIds(entities) ==> name == "Unknown"
    ensures !Falsy(entityId) && entityId.value in EntityIds(entities) ==>
              exists k :: FirstIndex(EntityIds(entities), entityId.value) == Some(k)
                          && name == if entities[k].name != "" then entities[k].name else "Unknown"
  {
    EntityNameOr(entities, entityId, "Global")
  }

  class SourcesTableView {
    const entities: seq<Entity>
    var sources: seq<Source>
    var open: bool
    var loading: bool
    /** Every value `loading` has been set to, in order. */
    var loadingHistory: seq<bool>
    var form: SourceForm

    constructor (initialSources: seq<Source>, entities: seq<Entity>)
      ensures this.entities == entities && sources == initialSources
      ensures !open && !loading && loadingHistory == [] && form == EmptyForm
    {
      this.entities := entities;
      sources := initialSources;
      open := false;
      loading := false;
      loadingHistory := [];
      form := EmptyForm;
    }

    /** Creates a source from the form as one atomic step; `rejected` stands for the create's
        promise rejecting, in which case the store is left as it was. */
    method HandleSubmit(store: Store, createdAt: string, rejected: bool)
      modifies this, store
      ensures loadingHistory == old(loadingHistory) + [true, false] && !loading
      ensures !rejected ==>
                && |store.sources| == |old(store.sources)| + 1
                && store.sources == old(store.sources) + [store.sources[|old(store.sources)|]]
                && sources == old(sources) + [store.sources[|old(store.sources)|]]
                && SourceFromInput(store.sources[|old(store.sources)|], FormInput(old(form)), createdAt)
                && store.sources[|old(store.sources)|].id == Strings.NatToString(|old(store.sources)| + 1)
                && !open && form == EmptyForm
      ensures !rejected && old(store.Valid()) ==>
                store.sources[|old(store.sources)|].id !in SourceIds(old(store.sources))
      ensures rejected ==> sources == old(sources) && form == old(form) && open == old(open)
                           && store.sources == old(store.sources)
      ensures store.entities == old(store.entities) && store.items == old(store.items)
      ensures old(store.Valid()) ==> store.Valid()
    {
      loading := true;
      loadingHistory := loadingHistory + [true];
      if !rejected {
        var newSource := store.CreateSource(FormInput(form), createdAt);
        sources := sources + [newSource];
        open := false;
        form := EmptyForm;
      }
      loading := false;
      loadingHistory := loadingHistory + [false];
    }

    /** Flips one source's switch through the store, then updates the list; `rejected` stands
        for the update's promise rejecting. */
    method HandleToggle(id: string, enabled: bool, store: Store, rejected: bool)
      modifies this, store
      ensures !rejected ==> sources == ToggledList(old(sources), id, enabled)
                            && store.sources == ToggleFirst(old(store.sources), id, enabled)
      ensures rejected ==> sources == old(sources) && store.sources == old(store.sources)
      ensures open == old(open) && loading == old(loading) && form == old(form)
      ensures loadingHistory == old(loadingHistory)
      ensures store.entities == old(store.entities) && store.items == old(store.items)
      ensures old(store.Valid()) ==> store.Valid()
    {
      if !rejected {
        store.ToggleSourceEnabled(id, enabled);
        sources := ToggledList(sources, id, enabled);
      }
    }
  }

  /** The two tables name an entity the same way; they differ only in the label for none. */
  lemma EntityNamesAgree(entities: seq<Entity>, entityId: IdRef)
    requires !Falsy(entityId)
    ensures GetEntityName(entities, entityId) == CorpusTable.GetEntityName(entities, entityId)
  {
  }
}
