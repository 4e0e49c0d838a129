/**
 * The message list of the chat panel (src/components/chat/chat-conversation.tsx):
 * the message record, the "typing..." indicator whose dots cycle on a timer,
 * the empty state with its suggested prompts, and how each message is shown.
 */
module ChatConversation {
  import opened Wrappers

  datatype Role = User | Assistant

  /** One message of the conversation. */
  datatype ChatMessage = ChatMessage(id: string, role: Role, content: string)

  // ---------------------------------------------------------------------------
  // ThinkingIndicator
  // ---------------------------------------------------------------------------

  /** The interval callback's update of the dot count: `(prev + 1) % 4`. */
  function NextDotCount(n: nat): (r: nat)
    ensures r < 4
    ensures n < 3 ==> r == n + 1
    ensures n == 3 ==> r == 0
  {
    (n + 1) % 4
  }

  /** The dot count after `ticks` interval callbacks, starting from `n`. */
  function DotCountAfter(n: nat, ticks: nat): nat
  {
    if ticks == 0 then n else NextDotCount(DotCountAfter(n, ticks - 1))
  }

  /** Starting from zero, the dot count after `k` ticks is `k mod 4`: it stays within 0..3 and repeats every four ticks. */
  lemma {:induction false} DotCountCycles(ticks: nat)
    ensures DotCountAfter(0, ticks) == ticks % 4
    ensures DotCountAfter(0, ticks + 4) == DotCountAfter(0, ticks)
  {
    if ticks > 0 {
      DotCountCycles(ticks - 1);
    }
    assert DotCountAfter(0, ticks + 4) == NextDotCount(NextDotCount(NextDotCount(NextDotCount(DotCountAfter(0, ticks)))));
  }

  /** The component's state: the number of dots shown. */
  class ThinkingIndicator {
    var dotCount: nat

    constructor ()
      ensures dotCount == 0
    {
      dotCount := 0;
    }

    /** One firing of the 500 ms interval. */
    method Tick()
      modifies this
      ensures dotCount == NextDotCount(old(dotCount))
    {
      dotCount := (dotCount + 1) % 4;
    }
  }

  /** `'.'.repeat(n)` */
  function Dots(n: nat): (r: string)
    ensures |r| == n && forall i | 0 <= i < n :: r[i] == '.'
  {
    if n == 0 then "" else Dots(n - 1) + "."
  }

  /** The indicator's text: "typing" followed by exactly `dotCount` dots. */
  function IndicatorText(dotCount: nat): (r: string)
    ensures |r| == 6 + dotCount
    ensures r[..6] == "typing"
    ensures forall i | 6 <= i < |r| :: r[i] == '.'
  {
    "typing" + Dots(dotCount)
  }

  // ---------------------------------------------------------------------------
  // ChatConversation
  // ---------------------------------------------------------------------------

  /** The suggestions offered while the conversation is empty. */
  const SuggestedPrompts: seq<string> := ["What is in the Spicy Stack?", "Show me today's meal deals.", "How late are you open?"]

  /** A zero-width space, shown in place of empty content. */
  const ZeroWidthSpace: string := "\U{200B}"

  /** What a message bubble holds: the typing indicator or text. */
  datatype Body = TypingIndicator | Text(text: string)

  /** One rendered message: its author side, whether the bubble is highlighted, its body, and whether an avatar is attached. */
  datatype MessageView = MessageView(id: string, from: Role, highlighted: bool, body: Body, avatar: bool)

  datatype ConversationView =
    | EmptyState(prompts: seq<string>)
    | MessageList(rows: seq<MessageView>)

  /** The message is the one receiving the stream, it is the assistant's, and no text has arrived yet for the turn. */
  predicate ShowThinking(m: ChatMessage, streamingMessageId: Option<string>, isThinking: bool)
  {
    streamingMessageId == Some(m.id) && m.role == Assistant && isThinking
  }

  function RenderMessage(m: ChatMessage, streamingMessageId: Option<string>, isThinking: bool): (v: MessageView)
    ensures v.id == m.id && v.from == m.role
    ensures v.highlighted == ShowThinking(m, streamingMessageId, isThinking)
    ensures v.body == TypingIndicator <==> ShowThinking(m, streamingMessageId, isThinking) && m.content == ""
    ensures v.body.Text? ==> v.body.text != "" && (m.content != "" ==> v.body.text == m.content)
    ensures v.avatar <==> m.role == Assistant
  {
    var showThinking := ShowThinking(m, streamingMessageId, isThinking);
    MessageView(
      m.id, m.role, showThinking,
      if showThinking && m.content == "" then TypingIndicator
      else Text(if m.content == "" then ZeroWidthSpace else m.content),
      m.role == Assistant)
  }

  /** The whole panel: the empty state with the suggested prompts, or one row per message in order. */
  function Render(messages: seq<ChatMessage>, streamingMessageId: Option<string>, isThinking: bool): (v: ConversationView)
    ensures v.EmptyState? <==> messages == []
    ensures v.EmptyState? ==> v.prompts == SuggestedPrompts
    ensures v.MessageList? ==>
      (&& |v.rows| == |messages|
       && forall i | 0 <= i < |messages| :: v.rows[i] == RenderMessage(messages[i], streamingMessageId, isThinking))
  {
    if messages == [] then EmptyState(SuggestedPrompts)
    else MessageList(seq(|messages|, i requires 0 <= i < |messages| => RenderMessage(messages[i], streamingMessageId, isThinking)))
  }

  /** Clicking suggestion `i` of the empty state hands exactly that prompt to `onPromptSelect`. */
  function PromptClicked(v: ConversationView, i: nat): (prompt: Option<string>)
    ensures prompt.Some? <==> v.EmptyState? && i < |v.prompts|
    ensures prompt.Some? ==> prompt.value == v.prompts[i]
  {
    if v.EmptyState? && i < |v.prompts| then Some(v.prompts[i]) else None
  }

  /** At most one bubble shows the typing indicator: the one whose id is the streaming id, when ids are distinct. */
  lemma AtMostOneIndicator(messages: seq<ChatMessage>, streamingMessageId: Option<string>, isThinking: bool, i: nat, j: nat)
    requires i < |messages| && j < |messages|
    requires forall p, q | 0 <= p < q < |messages| :: messages[p].id != messages[q].id
    requires Render(messages, streamingMessageId, isThinking).MessageList?
    requires Render(messages, streamingMessageId, isThinking).rows[i].body == TypingIndicator
    requires Render(messages, streamingMessageId, isThinking).rows[j].body == TypingIndicator
    ensures i == j
  {
  }
}
