# Corpus Agent Pipeline — a Dafny model of its admin store, pipeline controls and QA agent

The application is an admin console and a question-answering page over a corpus of media
items about public figures ("entities"). Everything it does runs against an in-memory mock
store. This project models:

- **The store** (`lib/api/admin.ts`), as the class `Admin.Store`. It holds three tables:
  entities, sources and corpus items. A fourth table, the segment previews, never changes.
  - It creates entities and sources. The new id is the decimal string of the old length + 1.
  - It flips a source's `enabled`.
  - It filters the corpus by entity and content kind.
  - It looks up one item together with its derived pipeline flags.
  - It runs the three pipeline triggers: `pending → text_imported → segments_ready → embedded`.
    Each trigger acts on the item `find` returns, and only when that item is at the trigger's
    own predecessor status.
  - The class keeps one invariant, `Valid()`: every table numbers its ids "1", "2", … by
    position. This holds for the mock data and each operation preserves it, so ids never
    repeat. Each table is modelled as a function of the old table (`ApplyTrigger`,
    `ToggleFirst`), and the methods are proved equal to those functions.
- **The pipeline panel** (`components/admin/corpus-pipeline-steps.tsx`).
  - The three step rows, each with its enabled/completed state and button.
  - `handleTrigger`, modelled as the ordered trace of its observable effects: the loading flag,
    the action, `onUpdate` and the toasts.
- **The corpus table** (`components/admin/corpus-table.tsx`): the two select filters, the
  entity-name column and the status badge (`status.replace("_", " ")`).
- **The sources table** (`components/admin/sources-table.tsx`): the create-source form (an
  empty entity choice is sent as `null`), the enable switch, and the entity-name column.
- **The agent** (`lib/api/agent.ts`): the slug lookup that can fail, and the templated answer.
  The topic paragraph is chosen by testing for "Tesla" first and then "SpaceX". The three
  citations are fixed.
- **The chat history** (`components/agent/qa-chat-history.tsx`): the expanded-citations set
  toggle, the confidence badge, and what is drawn for each message.
- **The question box** (`components/agent/qa-input-box.tsx`): a submit goes through only when
  the trimmed question is non-empty and no answer is pending. Enter without Shift submits.

JavaScript built-ins get their own definitions:

- `String(n)` for naturals is `NatToString`, with a parser that inverts it.
- `Array.prototype.find` is `FirstIndex`.
- `filter` is `Filter`.
- `includes` on strings is `Includes`.
- `trim` is `Trim`, over ECMAScript's WhiteSpace and LineTerminator characters.
- `replace` with a one-character pattern and a one-character replacement is `ReplaceFirst`:
  only the first occurrence is replaced.

A field declared `entityId?: string | null` is the three-way `IdRef = Absent | Null | Id(s)`.
JavaScript falsiness is `Falsy`: absent, null or the empty string.

Each `setTimeout` callback of the store runs as one atomic step. An awaiting UI handler is
modelled as one step too. `createdAt` (`new Date().toISOString()`) is a parameter. A handler
whose promise could reject takes a `rejected` flag for its `catch` branch. The mutating calls
the handlers await never reject, so under `rejected` the model leaves the store untouched. The
two lookups that do reject, `fetchCorpusItemById` and `fetchEntityBySlug`, return `Failure`.

Modules: `Wrappers`, `Strings`, `Seqs`, `Types` (`lib/types.ts`), `Admin`, `PipelineSteps`,
`CorpusTable`, `SourcesTable`, `Agent`, `ChatHistory`, `InputBox`.

## Model

| member | source | states |
|---|---|---|
| Strings.NatToString | lib/api/admin.ts:184 | `String(n)`: a non-empty run of decimal digits with no leading zero except for 0 itself |
| Strings.ParseNatToString | lib/api/admin.ts:184 | reading the digits of `String(n)` back gives n |
| Strings.NatToStringInjective | lib/api/admin.ts:184 | `String(m) == String(n)` exactly when m == n, so the length-based ids of different lengths differ |
| Strings.Includes | lib/api/agent.ts:44 | `includes` is true exactly when `sub` occurs at some position of the string |
| Strings.IncludesConcat | lib/api/agent.ts:44 | a string built as a + sub + b includes sub |
| Strings.Trim | components/agent/qa-input-box.tsx:20-21 | the result is the input with its whitespace prefix, of length `LeadingWhitespace`, and a whitespace suffix removed, and it neither starts nor ends with whitespace |
| Strings.TrimEmptyIff | components/agent/qa-input-box.tsx:20 | the trimmed string is empty exactly when every character is whitespace |
| Strings.TrimIdempotent | components/agent/qa-input-box.tsx:21 | trimming a trimmed string changes nothing |
| Strings.ReplaceFirst | components/admin/corpus-table.tsx:133 | same length; a character is replaced exactly when it is the pattern and no earlier character is; the string is unchanged when the pattern is absent |
| Seqs.FirstIndex | lib/api/admin.ts:223 | `find`: None exactly when the value is absent; otherwise an index holding the value with no earlier occurrence |
| Seqs.Filter | lib/api/admin.ts:241-245 | `filter` keeps an order-preserving subsequence. Every kept element passes the predicate. Each passing element keeps its multiplicity, and failing elements are dropped |
| Seqs.SubsequenceTrans | lib/api/admin.ts:240-246 | a subsequence of a subsequence is a subsequence, so filtering twice keeps the original order |
| Seqs.FilterAllPass | lib/api/admin.ts:238-248 | filtering with a predicate every element passes returns the sequence itself |
| Seqs.FilterTwice | lib/api/admin.ts:240-246 | two filters in a row equal one filter by the conjunction |
| Seqs.FilterSamePredicate | lib/api/admin.ts:240-246 | filters by pointwise-equal predicates give the same result |
| Types.EntityNameOr | components/admin/corpus-table.tsx:45-48 | a falsy id gives the "none" label; an unknown id gives "Unknown"; otherwise the first entity with the id names it, "Unknown" when its name is empty |
| Admin.PositionalIdsDistinct | lib/api/admin.ts:184 | under positional numbering no two records share an id |
| Admin.PositionalIdsAppend | lib/api/admin.ts:183-188 | the id a create assigns is new, and appending it keeps the numbering positional |
| Admin.PositionalFirstIsOnly | lib/api/admin.ts:223 | under positional numbering the record `find` returns for an id is the one at that id's position |
| Admin.DerivePipeline | lib/api/admin.ts:265-269 | textImported from text_imported on, segmentsBuilt from segments_ready on, embeddingsReady only at embedded; each flag implies the one before |
| Admin.PipelineDeterminesStatus | lib/api/admin.ts:265-269 | two statuses give the same flags exactly when they are equal or are pending and failed |
| Admin.ApplyTrigger | lib/api/admin.ts:295-298 | same length and ids; only the status may change. Entry j changes exactly when it is `find`'s item for the id and has the trigger's source status, and a changed entry gets the target status |
| Admin.TriggerNoOpIff | lib/api/admin.ts:295-298 | a trigger leaves the table as it is exactly when no item has the id or the found item is not at the trigger's source status |
| Admin.TriggerMonotone | lib/api/admin.ts:309-312 | a trigger never moves a status backwards or more than one stage, and never enters or leaves failed |
| Admin.TriggerIdempotent | lib/api/admin.ts:325-328 | running a trigger twice is the same as running it once |
| Admin.FullPipeline | lib/api/admin.ts:290-332 | from pending, import then segments then embeddings sets exactly that item to embedded |
| Admin.OutOfOrderNoOp | lib/api/admin.ts:309-312 | on a pending item, building segments or embeddings, in either order, changes nothing |
| Admin.ToggleFirst | lib/api/admin.ts:223-226 | only `enabled` may change, and only on `find`'s source for the id; no id gives the table as is; ids are kept |
| Admin.ToggleIdempotent | lib/api/admin.ts:223-226 | toggling to the same value twice is the same as once |
| Admin.InitialTablesPositional | lib/api/admin.ts:17-147 | the mock entities, sources and corpus items are numbered "1", "2", ... in order |
| Admin.Store.constructor | lib/api/admin.ts:17-168 | the store starts with the mock tables, whose ids are positional |
| Admin.Store.CreateEntity | lib/api/admin.ts:183-188 | appends exactly one entity with id `String(old length + 1)`, the input's fields and the given time; other tables unchanged; the id is new and the invariant is kept |
| Admin.Store.CreateSource | lib/api/admin.ts:205-210 | appends exactly one source with id `String(old length + 1)`, the input's fields and the given time, and no last-ingest time; other tables unchanged; the id is new and the invariant is kept |
| Admin.Store.ToggleSourceEnabled | lib/api/admin.ts:223-226 | the source table becomes `ToggleFirst` of the old one; other tables unchanged; invariant kept |
| Admin.Store.FetchCorpusItems | lib/api/admin.ts:238-248 | an order-preserving subsequence of the items in which every element matches each truthy filter, and every matching item appears as often as in the table |
| Admin.NoFilterReturnsAll | lib/api/admin.ts:240-246 | with no filters, or with both filters falsy, every item is returned in order |
| Admin.Store.FetchCorpusItemById | lib/api/admin.ts:259-271 | fails with "Corpus item not found" exactly when no item has the id; otherwise returns `find`'s item with its derived flags |
| Admin.Store.FetchSegmentsPreview | lib/api/admin.ts:282-285 | an order-preserving subsequence of the segments holding exactly those for the item |
| Admin.Store.TriggerImportText | lib/api/admin.ts:295-298 | the item table becomes `ApplyTrigger(old, id, ImportText)`; other tables unchanged; invariant kept |
| Admin.Store.TriggerBuildSegments | lib/api/admin.ts:309-312 | the item table becomes `ApplyTrigger(old, id, BuildSegments)`; other tables unchanged; invariant kept |
| Admin.Store.TriggerBuildEmbeddings | lib/api/admin.ts:325-328 | the item table becomes `ApplyTrigger(old, id, BuildEmbeddings)`; other tables unchanged; invariant kept |
| PipelineSteps.Steps | components/admin/corpus-pipeline-steps.tsx:55-79 | three rows in the order import, segments, embeddings; each is completed per its flag, and each row after the first is disabled until the one before is completed |
| PipelineSteps.ButtonDisabled | components/admin/corpus-pipeline-steps.tsx:123 | a button is disabled exactly when its row is disabled or its own step is loading |
| PipelineSteps.ButtonLabel | components/admin/corpus-pipeline-steps.tsx:133 | "Rebuild" exactly when completed, "Build" exactly when not |
| PipelineSteps.StepsOfStatus | components/admin/corpus-pipeline-steps.tsx:55-79 | for an item's status, step i is completed exactly when the item is past stage i, and disabled exactly when it has not reached stage i |
| PipelineSteps.TriggerActsIffOpen | components/admin/corpus-pipeline-steps.tsx:55-79 | a step's trigger changes the item exactly when the row is enabled, not completed and the item is not failed |
| PipelineSteps.RebuildIsNoOp | components/admin/corpus-pipeline-steps.tsx:133 | pressing "Rebuild" leaves the store's items unchanged |
| PipelineSteps.TriggerEffects | components/admin/corpus-pipeline-steps.tsx:32-53 | loading is set to the step first and back to null last, and nowhere else. `onUpdate` and the success toast happen exactly when the action resolves; the error toast exactly when it rejects |
| PipelineSteps.ToastOf | components/admin/corpus-pipeline-steps.tsx:40-48 | the success toast is titled "Success" and names what was triggered; the error toast is titled "Error", says "Failed to trigger <step>" and is the only destructive one |
| PipelineSteps.RunStep | components/admin/corpus-pipeline-steps.tsx:61-77 | a row's action applies its step's trigger to the store's items for the panel's item; other tables unchanged; invariant kept |
| PipelineSteps.PipelineStepsView.constructor | components/admin/corpus-pipeline-steps.tsx:28-29 | the panel starts from the given flags with nothing loading |
| PipelineSteps.PipelineStepsView.HandleTrigger | components/admin/corpus-pipeline-steps.tsx:32-53 | appends the effect trace. On resolve the store's items become the step's trigger applied to the old items; on reject they are unchanged. Loading ends null; the local flags never change |
| CorpusTable.FilteredItems | components/admin/corpus-table.tsx:50-54 | an order-preserving subsequence. Every row meets each filter that is not "all", and a specific entity filter drops items with a null or missing entity. Every row meeting both filters is kept with its multiplicity |
| CorpusTable.AllFiltersShowEverything | components/admin/corpus-table.tsx:50-54 | with both filters at "all" every item is shown in order |
| CorpusTable.KindNameInjective | components/admin/corpus-table.tsx:52 | comparing kind names is comparing kinds |
| CorpusTable.AgreesWithStoreFetch | components/admin/corpus-table.tsx:50-54 | for an entity id other than "" and "all", the table's filter equals the store's filtered fetch |
| CorpusTable.GetEntityName | components/admin/corpus-table.tsx:45-48 | "—" for a falsy id, "Unknown" for an id with no entity or an empty name, else the first matching entity's name |
| CorpusTable.StatusColor | components/admin/corpus-table.tsx:32-38 | every status's badge class carries its colour, the fourth character being the colour's initial |
| CorpusTable.StatusColorInjective | components/admin/corpus-table.tsx:32-38 | two different statuses never share a badge class |
| CorpusTable.SingleUnderscore | components/admin/corpus-table.tsx:133 | in a name holding exactly one "_", replacing the first "_" writes every "_" as a space |
| CorpusTable.StatusLabel | components/admin/corpus-table.tsx:133 | the badge text is the status name with every "_" shown as a space, though `replace` only replaces the first |
| CorpusTable.LabelReplacesAll | components/admin/corpus-table.tsx:133 | no status name has a second "_", so replacing the first one replaces all |
| SourcesTable.FormInput | components/admin/sources-table.tsx:72-75 | the submitted entity is null exactly when the form's choice is empty; every other field is passed through |
| SourcesTable.ToggledList | components/admin/sources-table.tsx:105-107 | every row with the id gets the new `enabled`; nothing else changes |
| SourcesTable.ToggledListAgreesWithStore | components/admin/sources-table.tsx:102-107 | while ids are positional, the list's update equals the store's own toggle |
| SourcesTable.ToggledListDiffersOnDuplicates | components/admin/sources-table.tsx:105-107 | with a repeated id the list updates every copy, while the store updates only the first |
| SourcesTable.GetEntityName | components/admin/sources-table.tsx:122-125 | "Global" for a falsy id, "Unknown" for an id with no entity or an empty name, else the first matching entity's name |
| SourcesTable.EntityNamesAgree | components/admin/sources-table.tsx:122-125 | for a truthy id the two tables show the same entity name |
| SourcesTable.SourcesTableView.constructor | components/admin/sources-table.tsx:45-65 | the list starts from the given sources with the dialog closed, nothing loading and the empty form |
| SourcesTable.SourcesTableView.HandleSubmit | components/admin/sources-table.tsx:67-100 | loading goes true then false. On success the store gains exactly one source built from the form, with id `String(length + 1)`, which is not an id already in use when the store is well formed. That same source is appended to the list, the dialog closes and the form resets. On rejection list, form, dialog and store are unchanged |
| SourcesTable.SourcesTableView.HandleToggle | components/admin/sources-table.tsx:102-120 | on success the store's table becomes `ToggleFirst` of the old one and the list becomes `ToggledList` of the old one; on rejection neither changes |
| Agent.EntityBySlug | lib/api/agent.ts:23-28 | fails with "Entity not found" exactly when no entity has the slug; otherwise returns the first one that does |
| Agent.FetchEntityBySlug | lib/api/agent.ts:18-30 | found exactly for "elon-musk", and then it is the agent's one entity |
| Agent.AgentEntityIsStoreEntity | lib/api/agent.ts:8-16 | the agent's entity is the admin store's first entity, field for field |
| Agent.TopicText | lib/api/agent.ts:44 | the Tesla paragraph when the question contains "Tesla"; otherwise the SpaceX paragraph when it contains "SpaceX"; otherwise the generic one |
| Agent.SegmentIds | lib/api/agent.ts:85 | the citations' segment ids, in order |
| Agent.AskQuestion | lib/api/agent.ts:32-93 | the answer is the slug prefix followed by the topic paragraph. There are exactly three citations, seg1, seg4 and seg7, and `usedSegmentIds` lists them in order. `retrievedCount` is 12, at least the number of citations; confidence is high |
| Agent.AnswerStartsWithPrefix | lib/api/agent.ts:44 | the answer starts with the prefix and therefore contains the slug |
| Agent.TeslaBeforeSpaceX | lib/api/agent.ts:44 | a question naming both companies, in either order, gets the Tesla paragraph |
| Agent.SpaceXOnly | lib/api/agent.ts:44 | a question naming SpaceX and not Tesla gets the SpaceX paragraph |
| Agent.TopicTextsDistinct | lib/api/agent.ts:44 | the three paragraphs differ, so the branch taken shows in the answer |
| Agent.FiltersIgnored | lib/api/agent.ts:32-93 | the response does not depend on the filters |
| Agent.CitationsNameStoreItems | lib/api/agent.ts:45-82 | every cited item matches a corpus item of the store in id, title, URL, kind and publication time |
| Agent.OnlyFirstCitationHasPreview | lib/api/agent.ts:45-82 | of the three cited segments only seg1 is in the store's segment table |
| ChatHistory.Toggle | components/agent/qa-chat-history.tsx:27-35 | the index goes in when absent and out when present; no other index changes |
| ChatHistory.ToggleTwice | components/agent/qa-chat-history.tsx:27-35 | toggling an index twice restores the set |
| ChatHistory.ChatHistoryView.constructor | components/agent/qa-chat-history.tsx:23-25 | the expanded set starts empty |
| ChatHistory.ChatHistoryView.ToggleCitations | components/agent/qa-chat-history.tsx:27-35 | the stored set becomes `Toggle` of the old one; the messages are unchanged |
| ChatHistory.BadgeVariant | components/agent/qa-chat-history.tsx:87-93 | high ↔ "default", medium ↔ "secondary", low ↔ "outline" |
| ChatHistory.Card | components/agent/qa-chat-history.tsx:109-150 | a citation card shows title, kind and snippet, the position only when truthy, and the link only when the URL is truthy |
| ChatHistory.RenderMessage | components/agent/qa-chat-history.tsx:55-159 | a question is drawn as its text. An answer gets a citations panel exactly when it has citations; the panel shows the count and the confidence badge, and lists one card per citation exactly when its index is expanded |
| ChatHistory.Render | components/agent/qa-chat-history.tsx:37-55 | no messages gives the empty state and never the history; otherwise one bubble per message, in order |
| ChatHistory.ToggleAffectsOneBubble | components/agent/qa-chat-history.tsx:79-106 | toggling index i opens or closes only bubble i's list; every other bubble is drawn as before |
| ChatHistory.AgentAnswersShowPanel | components/agent/qa-chat-history.tsx:76-93 | every agent answer is drawn with a panel of three citations and the "default" badge |
| ChatHistory.ErrorReplyHasNoPanel | components/agent/qa-chat-history.tsx:76 | the reply the agent page stores when asking fails (no citations, low confidence) is drawn without a citations panel |
| InputBox.CanSubmitIff | components/agent/qa-input-box.tsx:20 | a submit goes through exactly when the question has a non-whitespace character and nothing is loading |
| InputBox.SendDisabled | components/agent/qa-input-box.tsx:46 | the send button is disabled exactly when the question is all whitespace or an answer is loading, that is, exactly when a submit would not go through |
| InputBox.InputBoxView.constructor | components/agent/qa-input-box.tsx:16 | the question starts empty and nothing has been submitted |
| InputBox.InputBoxView.Change | components/agent/qa-input-box.tsx:37 | the question becomes the typed value |
| InputBox.InputBoxView.HandleSubmit | components/agent/qa-input-box.tsx:18-24 | when the guard holds, the trimmed question is submitted once and the question is cleared; otherwise nothing is submitted and the question is kept |
| InputBox.InputBoxView.HandleKeyDown | components/agent/qa-input-box.tsx:26-31 | Enter without Shift acts as a submit; any other key, or Shift+Enter, submits nothing and keeps the question |
| InputBox.SubmittedIsClean | components/agent/qa-input-box.tsx:21 | a submitted question is non-empty, neither starts nor ends with whitespace, and is its own trim |

## Left out

- Latency and promises. The `setTimeout` delays, the promise plumbing and any interleaving of
  two pending calls are not modelled; every callback is one atomic step.
- Clocks. `new Date().toISOString()` is the `createdAt` parameter. Date formatting in the tables
  is not modelled.
- Logging and UI chrome. `console.log`, JSX layout, icons and spinners are not modelled. Toasts
  are not modelled except in the pipeline panel's effect trace.
- `fetchEntities` and `fetchSources` return plain copies of a table: the tables are the
  `entities` and `sources` fields of `Admin.Store`.
- Aliasing. The store hands out item objects that alias its own records. The model returns values,
  so a caller mutating a returned object is not captured.
- Rejection. The mutating calls the UI handlers await (`createSource`, `toggleSourceEnabled`
  and the three `trigger*` calls) never reject, so each handler's `catch` branch is reached only
  through a `rejected` parameter, under which the store is left unchanged. The lookups that do
  reject are modelled: `fetchCorpusItemById` ("Corpus item not found") and `fetchEntityBySlug`
  ("Entity not found") return `Failure`.
- PipelineSteps.PipelineStepsView.HandleTrigger: the `onUpdate` callback is recorded as an
  effect. The parent page's reload that it triggers is not modelled.
- No code path produces the `failed` status; `CorpusTable.StatusColor` still maps it to a badge
  class. `reliabilityLevel` is carried through; its only reader is the corpus item detail page
  (`app/admin/corpus/[id]/page.tsx`), which is not part of this model. `QAFilters` is accepted
  by `askQuestion` and never consulted.
- Browser form guards. The `required` attributes on the source name and config inputs and the
  submit button's `disabled={loading}` decide whether the browser calls `handleSubmit` at all.
  They are not modelled: `SourcesTable.SourcesTableView.HandleSubmit` accepts a submit with an
  empty name or config, or one made while loading, which the page never delivers.
- ChatHistory.Message: an answer always carries a response, as the agent page always sets
  one. The crash of `message.response!` on an answer without one is not modelled.
- The agent page's own state (`loading`, `asking`, the message list) is not modelled, apart from
  the error reply it stores.
- The entities table, the admin sidebar, the segments preview panel and the app pages are not
  part of this model.
