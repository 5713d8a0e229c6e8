/** The memory panel (src/components/MemoryPanel.tsx): the extract button's
    enablement, label and styling, and which of the empty prompt, the
    loading indicator and the three memory cards the panel shows. */
module MemoryPanel {
  import opened Types

  /** `isLoading || !!memories`: the button is enabled exactly when its
      label invites the user to analyse. */
  function ExtractDisabled(memories: Option<MemoryData>, isLoading: bool): (disabled: bool)
    ensures !disabled <==> ExtractLabel(memories, isLoading) == "Analyze Memories"
  {
    isLoading || memories.Some?
  }

  /** The extract button's label: loading takes precedence over present
      memories. */
  function ExtractLabel(memories: Option<MemoryData>, isLoading: bool): (caption: string)
    ensures caption == "Analyzing..." <==> isLoading
    ensures caption == "Extraction Complete" <==> !isLoading && memories.Some?
    ensures caption == "Analyze Memories" <==> !isLoading && memories.None?
  {
    if isLoading then "Analyzing..." else if memories.Some? then "Extraction Complete" else "Analyze Memories"
  }

  /** The three looks of the extract button. */
  datatype ExtractStyle = CompleteStyle | WaitingStyle | ReadyStyle

  /** The extract button's styling: present memories take precedence over
      loading. */
  function ExtractStyleOf(memories: Option<MemoryData>, isLoading: bool): (s: ExtractStyle)
    ensures s == CompleteStyle <==> memories.Some?
    ensures s == WaitingStyle <==> memories.None? && isLoading
  {
    if memories.Some? then CompleteStyle else if isLoading then WaitingStyle else ReadyStyle
  }

  /** The button is enabled exactly when it has the ready look. */
  lemma ExtractEnabledIffReady(memories: Option<MemoryData>, isLoading: bool)
    ensures !ExtractDisabled(memories, isLoading) <==> ExtractStyleOf(memories, isLoading) == ReadyStyle
  {
  }

  /** Label and styling tell different stories exactly when memories are
      present and an extraction is still loading: the label says
      "Analyzing..." while the button looks complete. */
  lemma ExtractLabelStyleDisagree(memories: Option<MemoryData>, isLoading: bool)
    ensures (ExtractLabel(memories, isLoading) == "Analyzing..." && ExtractStyleOf(memories, isLoading) == CompleteStyle)
        <==> isLoading && memories.Some?
    ensures (ExtractLabel(memories, isLoading) == "Extraction Complete") ==> ExtractStyleOf(memories, isLoading) == CompleteStyle
  {
  }

  /** What a memory card lists: its entries, or the placeholder line when
      there are none. */
  datatype CardBody = Entries(items: seq<string>) | Placeholder

  /** The placeholder line of an empty card. */
  function PlaceholderText(): string
  {
    "No data extracted yet..."
  }

  /** `items.length > 0 ? items.map(...) : placeholder`. */
  function CardBodyOf(items: seq<string>): (b: CardBody)
    ensures b.Placeholder? <==> |items| == 0
  {
    if |items| > 0 then Entries(items) else Placeholder
  }

  /** The lines a card body shows. */
  function ShownLines(b: CardBody): seq<string>
  {
    match b
    case Entries(items) => items
    case Placeholder => [PlaceholderText()]
  }

  /** A card shows one line per item, in list order, and only the
      placeholder line when the list is empty. */
  lemma CardShowsItems(items: seq<string>)
    ensures |items| > 0 ==> ShownLines(CardBodyOf(items)) == items
    ensures |items| == 0 ==> ShownLines(CardBodyOf(items)) == ["No data extracted yet..."]
  {
  }

  /** One memory card: its title and body. */
  datatype Card = Card(title: string, body: CardBody)

  /** The cards of a memory profile, in the order the panel stacks them. */
  function MemoryCards(m: MemoryData): (cards: seq<Card>)
    ensures |cards| == 3
    ensures cards[0] == Card("User Preferences", CardBodyOf(m.preferences))
    ensures cards[1] == Card("Emotional Patterns", CardBodyOf(m.emotionalPatterns))
    ensures cards[2] == Card("Key Facts", CardBodyOf(m.facts))
  {
    [ Card("User Preferences", CardBodyOf(m.preferences)),
      Card("Emotional Patterns", CardBodyOf(m.emotionalPatterns)),
      Card("Key Facts", CardBodyOf(m.facts)) ]
  }

  /** What the panel's content area holds. */
  datatype PanelView = PanelView(emptyPrompt: bool, loading: bool, cards: seq<Card>)

  function PanelViewOf(memories: Option<MemoryData>, isLoading: bool): (v: PanelView)
    ensures v.emptyPrompt <==> memories.None? && !isLoading
    ensures v.loading <==> isLoading
    ensures memories.None? ==> v.cards == []
    ensures memories.Some? ==> v.cards == MemoryCards(memories.value)
  {
    PanelView(memories.None? && !isLoading, isLoading,
      if memories.Some? then MemoryCards(memories.value) else [])
  }

  /** The panel is never blank, and the empty prompt is never shown next
      to anything else. */
  lemma PanelShowsSomething(memories: Option<MemoryData>, isLoading: bool)
    ensures var v := PanelViewOf(memories, isLoading);
      (v.emptyPrompt || v.loading || |v.cards| == 3)
      && (v.emptyPrompt ==> !v.loading && v.cards == [])
  {
  }

  /** With memories present, the cards show the three buckets' entries in
      the order preferences, emotional patterns, facts. */
  lemma PanelCardsShowBuckets(m: MemoryData, isLoading: bool)
    requires |m.preferences| > 0 && |m.emotionalPatterns| > 0 && |m.facts| > 0
    ensures var cards := PanelViewOf(Some(m), isLoading).cards;
      |cards| == 3
      && ShownLines(cards[0].body) == m.preferences
      && ShownLines(cards[1].body) == m.emotionalPatterns
      && ShownLines(cards[2].body) == m.facts
  {
    CardShowsItems(m.preferences);
    CardShowsItems(m.emotionalPatterns);
    CardShowsItems(m.facts);
  }
}
