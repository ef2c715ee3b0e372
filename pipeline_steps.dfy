/** The pipeline panel of a corpus item: three steps derived from the item's flags, their
    buttons, and the handler that runs a step's trigger. */
module PipelineSteps {
  import opened Wrappers
  import opened Seqs
  import opened Types
  import opened Admin

  datatype StepId = Import | Segments | Embeddings

  function StepName(s: StepId): string {
    match s
    case Import => "import"
    case Segments => "segments"
    case Embeddings => "embeddings"
  }

  /** The store trigger a step's action calls. */
  function StepTrigger(s: StepId): Trigger {
    match s
    case Import => ImportText
    case Segments => BuildSegments
    case Embeddings => BuildEmbeddings
  }

  /** One row of the panel; the import row has no `disabled` field, which reads as false. */
  datatype Step = Step(id: StepId, title: string, description: string, completed: bool, disabled: bool)

  /** The three rows in order; each row after the first is disabled until the row before it is
      completed. */
  function Steps(p: PipelineStepStatus): (r: seq<Step>)
    ensures |r| == 3 && r[0].id == Import && r[1].id == Segments && r[2].id == Embeddings
    ensures r[0].completed == p.textImported && r[1].completed == p.segmentsBuilt
    ensures r[2].completed == p.embeddingsReady
    ensures !r[0].disabled
    ensures forall i :: 0 < i < 3 ==> r[i].disabled == !r[i - 1].completed
  {
    [ Step(Import, "Text Imported", "Extract or transcribe text from source", p.textImported, false),
      Step(Segments, "Segments Built", "Split text into semantic chunks", p.segmentsBuilt, !p.textImported),
      Step(Embeddings, "Embeddings Ready", "Generate vector embeddings for RAG", p.embeddingsReady, !p.segmentsBuilt) ]
  }

  /** A row's button is disabled while the row is disabled or its own step is loading. */
  function ButtonDisabled(step: Step, loading: Option<StepId>): (b: bool)
    ensures b <==> step.disabled || loading == Some(step.id)
    ensures loading.None? ==> b == step.disabled
  {
    step.disabled || loading == Some(step.id)
  }

  function ButtonLabel(step: Step): (text: string)
    ensures text == "Rebuild" <==> step.completed
    ensures text == "Build" <==> !step.completed
  {
    if step.completed then "Rebuild" else "Build"
  }

  /** For an item with status `s`, step i is completed once the item has passed stage i, and
      enabled once it has reached stage i. */
  lemma StepsOfStatus(s: Status, i: nat)
    requires i < 3
    ensures Steps(DerivePipeline(s))[i].completed <==> Stage(s) > i
    ensures Steps(DerivePipeline(s))[i].disabled <==> 0 < i && Stage(s) < i
  {
  }

  /** A step's trigger does something exactly when its row is enabled and not completed
      (and the item is not `failed`). */
  lemma TriggerActsIffOpen(s: Status, i: nat)
    requires i < 3
    ensures var step := Steps(DerivePipeline(s))[i];
      s == From(StepTrigger(step.id)) <==> !step.disabled && !step.completed && s != Failed
  {
  }

  /** Pressing "Rebuild" on a completed row leaves the store's items as they were. */
  lemma RebuildIsNoOp(items: seq<CorpusItem>, id: string, k: nat, i: nat)
    requires FirstIndex(ItemIds(items), id) == Some(k) && i < 3
    requires ButtonLabel(Steps(DerivePipeline(items[k].status))[i]) == "Rebuild"
    ensures ApplyTrigger(items, id, StepTrigger(Steps(DerivePipeline(items[k].status))[i].id)) == items
  {
    var step := Steps(DerivePipeline(items[k].status))[i];
    TriggerActsIffOpen(items[k].status, i);
    TriggerNoOpIff(items, id, StepTrigger(step.id));
  }

  // ---------------------------------------------------------------------------
  // The handler

  /** What `handleTrigger` does that a caller can observe, in order. */
  datatype Effect =
    | LoadingSet(loading: Option<StepId>)
    | ActionStarted(step: StepId)
    | UpdateNotified
    | ToastShown(kind: ToastKind, step: StepId)

  datatype ToastKind = Succeeded | Errored

  /** A toast as the user sees it. */
  datatype Toast = Toast(title: string, description: string, destructive: bool)

  /** The toast each outcome shows for a step: the success toast names what was triggered, the
      destructive error toast names the step. */
  function ToastOf(kind: ToastKind, s: StepId): (t: Toast)
    ensures t.destructive <==> kind == Errored
    ensures kind == Succeeded ==> t.title == "Success" && t.description == SuccessText(s)
    ensures kind == Errored ==> t.title == "Error" && t.description == "Failed to trigger " + StepName(s)
  {
    match kind
    case Succeeded => Toast("Success", SuccessText(s), false)
    case Errored => Toast("Error", "Failed to trigger " + StepName(s), true)
  }

  function SuccessText(s: StepId): string {
    match s
    case Import => "Text import triggered successfully"
    case Segments => "Segment building triggered successfully"
    case Embeddings => "Embeddings generation triggered successfully"
  }

  /** The effects of one press: loading is set to the step before the action starts and set back
      to null last; `onUpdate` and the success toast come only when the action resolves, the
      error toast only when it rejects. */
  function TriggerEffects(s: StepId, rejected: bool): (r: seq<Effect>)
    ensures 4 <= |r| && r[0] == LoadingSet(Some(s)) && r[1] == ActionStarted(s)
    ensures r[|r| - 1] == LoadingSet(None)
    ensures forall i :: 0 < i < |r| - 1 ==> !r[i].LoadingSet?
    ensures UpdateNotified in r <==> !rejected
    ensures ToastShown(Succeeded, s) in r <==> !rejected
    ensures ToastShown(Errored, s) in r <==> rejected
  {
    [LoadingSet(Some(s)), ActionStarted(s)] + Outcome(s, rejected) + [LoadingSet(None)]
  }

  /** What happens between the action and the final reset: the `try` tail or the `catch`. */
  function Outcome(s: StepId, rejected: bool): seq<Effect> {
    if rejected then [ToastShown(Errored, s)]
    else [UpdateNotified, ToastShown(Succeeded, s)]
  }

  /** A row's `action`: the store trigger of its step for the panel's item. */
  method RunStep(store: Store, corpusItemId: string, s: StepId)
    modifies store
    ensures store.items == ApplyTrigger(old(store.items), corpusItemId, StepTrigger(s))
    ensures store.entities == old(store.entities) && store.sources == old(store.sources)
    ensures old(store.Valid()) ==> store.Valid()
  {
    match s {
      case Import => store.TriggerImportText(corpusItemId);
      case Segments => store.TriggerBuildSegments(corpusItemId);
      case Embeddings => store.TriggerBuildEmbeddings(corpusItemId);
    }
  }

  class PipelineStepsView {
    const corpusItemId: string
    /** Initialised from the prop and never set again. */
    var pipeline: PipelineStepStatus
    var loading: Option<StepId>
    var effects: seq<Effect>

    constructor (corpusItemId: string, initialPipeline: PipelineStepStatus)
      ensures this.corpusItemId == corpusItemId && pipeline == initialPipeline
      ensures loading == None && effects == []
    {
      this.corpusItemId := corpusItemId;
      pipeline := initialPipeline;
      loading := None;
      effects := [];
    }

    /** Runs the step's trigger on the store as one atomic step; `rejected` stands for the
        action's promise rejecting, in which case the store is left as it was. */
    method HandleTrigger(s: StepId, store: Store, rejected: bool)
      modifies this, store
      ensures pipeline == old(pipeline) && loading == None
      ensures effects == old(effects) + TriggerEffects(s, rejected)
      ensures rejected ==> store.items == old(store.items)
      ensures !rejected ==> store.items == ApplyTrigger(old(store.items), corpusItemId, StepTrigger(s))
      ensures store.entities == old(store.entities) && store.sources == old(store.sources)
      ensures old(store.Valid()) ==> store.Valid()
    {
      ghost var before := effects;
      loading := Some(s);
      effects := effects + [LoadingSet(Some(s)), ActionStarted(s)];
      if !rejected {
        RunStep(store, corpusItemId, s);
      }
      effects := effects + Outcome(s, rejected);
      loading := None;
      effects := effects + [LoadingSet(None)];
      AppendThree(before, [LoadingSet(Some(s)), ActionStarted(s)], Outcome(s, rejected), [LoadingSet(None)]);
    }
  }
}
