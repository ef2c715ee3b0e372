/** The agent's conversation view: question and answer bubbles, each answer's citation panel
    and the set of answers whose citations are shown. */
module ChatHistory {
  import opened Wrappers
  import opened Types
  import Agent

  /** A chat message; an answer carries the response it was built from. */
  datatype Message = Question(content: string) | Answer(content: string, response: QAResponse)

  /** The set after toggling `index`: it goes in when absent and out when present. */
  function Toggle(expanded: set<nat>, index: nat): (r: set<nat>)
    ensures index in r <==> index !in expanded
    ensures forall j :: j != index ==> (j in r <==> j in expanded)
  {
    if index in expanded then expanded - {index} else expanded + {index}
  }

  /** Toggling the same index twice gives the set back. */
  lemma ToggleTwice(expanded: set<nat>, index: nat)
    ensures Toggle(Toggle(expanded, index), index) == expanded
  {
  }

  /** The confidence badge's variant. */
  function BadgeVariant(c: Confidence): (variant: string)
    ensures c == High <==> variant == "default"
    ensures c == Medium <==> variant == "secondary"
    ensures c == Low <==> variant == "outline"
  {
    match c
    case High => "default"
    case Medium => "secondary"
    case Low => "outline"
  }

  /** JavaScript truthiness of an optional string. */
  predicate Present(s: Option<string>) {
    s.Some? && s.value != ""
  }

  /** One expanded citation: title, kind badge, position (when present), link (when present)
      and snippet. */
  datatype CitationCard = CitationCard(
    title: string,
    kind: ContentKind,
    position: Option<string>,
    link: Option<string>,
    snippet: string)

  /** The citations panel: count, confidence badge, and the card list when expanded. */
  datatype Panel = Panel(count: nat, badge: string, confidence: Confidence, list: Option<seq<CitationCard>>)

  datatype Bubble = QuestionBubble(text: string) | AnswerBubble(text: string, panel: Option<Panel>)

  datatype View = EmptyState | History(bubbles: seq<Bubble>)

  function Card(c: QACitation): (card: CitationCard)
    ensures card.title == c.corpusItem.title && card.kind == c.corpusItem.contentKind
    ensures card.snippet == c.textSnippet
    ensures card.position.Some? <==> Present(c.corpusItem.positionInfo)
    ensures card.position.Some? ==> card.position == c.corpusItem.positionInfo
    ensures card.link.Some? <==> Present(c.corpusItem.primaryUrl)
    ensures card.link.Some? ==> card.link == c.corpusItem.primaryUrl
  {
    CitationCard(c.corpusItem.title, c.corpusItem.contentKind,
      if Present(c.corpusItem.positionInfo) then c.corpusItem.positionInfo else None,
      if Present(c.corpusItem.primaryUrl) then c.corpusItem.primaryUrl else None,
      c.textSnippet)
  }

  /** The bubble for the message at `index`. */
  function RenderMessage(m: Message, index: nat, expanded: set<nat>): (b: Bubble)
    ensures m.Question? ==> b == QuestionBubble(m.content)
    ensures m.Answer? ==> b.AnswerBubble? && b.text == m.content
    ensures m.Answer? ==> (b.panel.Some? <==> |m.response.citations| > 0)
    ensures m.Answer? && b.panel.Some? ==>
              && b.panel.value.count == |m.response.citations|
              && b.panel.value.confidence == m.response.meta.confidence
              && b.panel.value.badge == BadgeVariant(m.response.meta.confidence)
              && (b.panel.value.list.Some? <==> index in expanded)
    ensures m.Answer? && b.panel.Some? && b.panel.value.list.Some? ==>
              && |b.panel.value.list.value| == |m.response.citations|
              && forall k :: 0 <= k < |m.response.citations| ==>
                   b.panel.value.list.value[k] == Card(m.response.citations[k])
  {
    match m
    case Question(content) => QuestionBubble(content)
    case Answer(content, response) =>
      var cs := response.citations;
      AnswerBubble(content,
        if |cs| > 0 then
          Some(Panel(|cs|, BadgeVariant(response.meta.confidence), response.meta.confidence,
                     if index in expanded then Some(seq(|cs|, k requires 0 <= k < |cs| => Card(cs[k])))
                     else None))
        else None)
  }

  /** The whole view: the empty state for no messages, otherwise one bubble per message. */
  function Render(messages: seq<Message>, expanded: set<nat>): (v: View)
    ensures v.EmptyState? <==> |messages| == 0
    ensures v.History? ==> |v.bubbles| == |messages|
    ensures v.History? ==> forall i :: 0 <= i < |messages| ==>
              v.bubbles[i] == RenderMessage(messages[i], i, expanded)
  {
    if |messages| == 0 then EmptyState
    else History(seq(|messages|, i requires 0 <= i < |messages| => RenderMessage(messages[i], i, expanded)))
  }

  /** Toggling index i opens or closes the list of bubble i alone; every other bubble is drawn
      as before. */
  lemma ToggleAffectsOneBubble(messages: seq<Message>, expanded: set<nat>, i: nat)
    requires |messages| > 0
    ensures var before, after := Render(messages, expanded), Render(messages, Toggle(expanded, i));
            && (forall j :: 0 <= j < |messages| && j != i ==> after.bubbles[j] == before.bubbles[j])
            && (i < |messages| && messages[i].Answer? && |messages[i].response.citations| > 0 ==>
                  (after.bubbles[i].panel.value.list.Some? <==> before.bubbles[i].panel.value.list.None?))
  {
    var before, after := Render(messages, expanded), Render(messages, Toggle(expanded, i));
    forall j | 0 <= j < |messages| && j != i ensures after.bubbles[j] == before.bubbles[j] {
      assert (j in Toggle(expanded, i)) == (j in expanded);
    }
  }

  /** Every answer from the agent gets a panel with its three citations and the "default" badge. */
  lemma AgentAnswersShowPanel(slug: string, question: string, filters: Option<QAFilters>,
                              index: nat, expanded: set<nat>)
    ensures var r := Agent.AskQuestion(slug, question, filters);
            var b := RenderMessage(Answer(r.answer, r), index, expanded);
            b.panel.Some? && b.panel.value.count == 3 && b.panel.value.badge == "default"
  {
  }

  /** The reply the agent page stores when asking fails. */
  const ErrorReply: Message :=
    Answer("Sorry, I encountered an error while processing your question.",
           QAResponse("Error occurred", [], QAResponseMeta(0, [], Low)))

  /** That reply is drawn without a citations panel, whatever is expanded. */
  lemma ErrorReplyHasNoPanel(index: nat, expanded: set<nat>)
    ensures RenderMessage(ErrorReply, index, expanded).panel.None?
  {
  }

  class ChatHistoryView {
    var messages: seq<Message>
    var expanded: set<nat>

    constructor (messages: seq<Message>)
      ensures this.messages == messages && expanded == {}
    {
      this.messages := messages;
      expanded := {};
    }

    /** Copies the set, adds or removes `index` in the copy, and stores the copy. */
    method ToggleCitations(index: nat)
      modifies this
      ensures expanded == Toggle(old(expanded), index)
      ensures messages == old(messages)
    {
      var newExpanded := expanded;
      if index in newExpanded {
        newExpanded := newExpanded - {index};
      } else {
        newExpanded := newExpanded + {index};
      }
      expanded := newExpanded;
    }
  }
}
