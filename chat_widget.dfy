/**
 * The floating chat widget's turn (src/components/chat/chat-widget.tsx).
 *
 * A submission is ignored when its trimmed text is empty or a turn is already
 * streaming. Otherwise it appends the user's message and an empty assistant
 * message, posts the text with the held thread id, takes over a thread id from
 * the response header, appends every non-empty chunk of the body to the
 * assistant message (the "typing" state ends at the first one), replaces that
 * message by an apology when anything fails, and finally returns to idle.
 *
 * The response is given as a `Reply`; the two message ids (a random UUID in the
 * source) are parameters.
 */
module ChatWidget {
  import opened Wrappers
  import opened Text
  import opened ChatConversation
  import ChatActions
  import ChatInput

  const Apology := "Sorry, something went wrong. Please try again."

  /** What the request produced, as the read loop sees it. */
  datatype Reply =
    | Unavailable  // the call threw, or the response was not ok or had no body
    | Streamed(threadHeader: Option<string>, chunks: seq<string>, broken: bool)  // the decoded chunks read; `broken`: a read threw after them

  /** The widget's state that a turn touches. */
  datatype WidgetState = WidgetState(
    messages: seq<ChatMessage>,
    input: string,
    isStreaming: bool,
    streamingMessageId: Option<string>,
    isThinking: bool,
    threadId: Option<string>)

  const Initial := WidgetState([], "", false, None, false, None)

  // ---------------------------------------------------------------------------
  // The steps of a turn
  // ---------------------------------------------------------------------------

  /** The guard: the trimmed text to send, or nothing when it is empty or a turn is streaming. */
  function Guard(s: WidgetState, messageOverride: Option<string>): (text: Option<string>)
    ensures text.Some? <==> Trim(messageOverride.GetOr(s.input)) != "" && !s.isStreaming
    ensures text.Some? ==> text.value == Trim(messageOverride.GetOr(s.input))
  {
    var trimmed := Trim(messageOverride.GetOr(s.input));
    if trimmed == "" || s.isStreaming then None else Some(trimmed)
  }

  /** The request body: the text and the thread id held now (null when none). */
  function RequestFor(s: WidgetState, text: string): ChatActions.ChatStreamInput
  {
    ChatActions.ChatStreamInput(text, if s.threadId.Some? then ChatActions.Value(s.threadId.value) else ChatActions.Null)
  }

  function Begin(s: WidgetState, text: string, userId: string, assistantId: string): WidgetState
  {
    s.(messages := s.messages + [ChatMessage(userId, User, text), ChatMessage(assistantId, Assistant, "")],
       input := "", isStreaming := true, streamingMessageId := Some(assistantId), isThinking := true)
  }

  /** A non-empty `x-thread-id` header replaces the held thread id. */
  function CaptureThread(s: WidgetState, header: Option<string>): WidgetState
  {
    if header.Some? && header.value != "" then s.(threadId := header) else s
  }

  /** The `prev.map(...)` of a chunk: `chunk` appended to every message with id `id`. */
  function AppendTo(messages: seq<ChatMessage>, id: string, chunk: string): (r: seq<ChatMessage>)
    ensures |r| == |messages|
    ensures forall i | 0 <= i < |r| ::
      r[i] == if messages[i].id == id then messages[i].(content := messages[i].content + chunk) else messages[i]
  {
    if messages == [] then []
    else
      var first := if messages[0].id == id then messages[0].(content := messages[0].content + chunk) else messages[0];
      [first] + AppendTo(messages[1..], id, chunk)
  }

  /** The `prev.map(...)` of the catch block: the content of every message with id `id` becomes `text`. */
  function ReplaceContent(messages: seq<ChatMessage>, id: string, text: string): (r: seq<ChatMessage>)
    ensures |r| == |messages|
    ensures forall i | 0 <= i < |r| ::
      r[i] == if messages[i].id == id then messages[i].(content := text) else messages[i]
  {
    if messages == [] then []
    else
      var first := if messages[0].id == id then messages[0].(content := text) else messages[0];
      [first] + ReplaceContent(messages[1..], id, text)
  }

  /** One decoded chunk: an empty one is skipped; otherwise thinking ends and the chunk is appended. */
  function OnChunk(s: WidgetState, assistantId: string, chunk: string): WidgetState
  {
    if chunk == "" then s
    else s.(isThinking := false, messages := AppendTo(s.messages, assistantId, chunk))
  }

  /** The read loop over `chunks`, in order. */
  function Consume(s: WidgetState, assistantId: string, chunks: seq<string>): WidgetState
  {
    if chunks == [] then s
    else OnChunk(Consume(s, assistantId, chunks[..|chunks| - 1]), assistantId, chunks[|chunks| - 1])
  }

  function Fail(s: WidgetState, assistantId: string): WidgetState
  {
    s.(messages := ReplaceContent(s.messages, assistantId, Apology))
  }

  /** The `finally` block. */
  function Settle(s: WidgetState): WidgetState
  {
    s.(isStreaming := false, isThinking := false, streamingMessageId := None)
  }

  /** A whole call of `submitMessage`: the new state and the request sent, if any. */
  function Turn(s: WidgetState, messageOverride: Option<string>, userId: string, assistantId: string, reply: Reply)
    : (WidgetState, Option<ChatActions.ChatStreamInput>)
  {
    match Guard(s, messageOverride)
    case None => (s, None)
    case Some(text) =>
      var started := Begin(s, text, userId, assistantId);
      var ended :=
        match reply
        case Unavailable => Fail(started, assistantId)
        case Streamed(header, chunks, broken) =>
          var streamed := Consume(CaptureThread(started, header), assistantId, chunks);
          if broken then Fail(streamed, assistantId) else streamed;
      (Settle(ended), Some(RequestFor(s, text)))
  }

  // ---------------------------------------------------------------------------
  // The component
  // ---------------------------------------------------------------------------

  class ChatWidget {
    var messages: seq<ChatMessage>
    var input: string
    var isStreaming: bool
    var streamingMessageId: Option<string>
    var isThinking: bool
    /** `threadIdRef.current` */
    var threadId: Option<string>

    function State(): WidgetState
      reads this
    {
      WidgetState(messages, input, isStreaming, streamingMessageId, isThinking, threadId)
    }

    constructor ()
      ensures State() == Initial
    {
      messages, input, isStreaming, streamingMessageId, isThinking, threadId := [], "", false, None, false, None;
    }

    /** `setInput`, the input box's `onValueChange`. */
    method SetInput(value: string)
      modifies this
      ensures State() == old(State()).(input := value)
    {
      input := value;
    }

    /** `submitMessage(messageOverride)`; returns the request body posted, if one was. */
    method SubmitMessage(messageOverride: Option<string>, userId: string, assistantId: string, reply: Reply)
      returns (request: Option<ChatActions.ChatStreamInput>)
      modifies this
      ensures (State(), request) == Turn(old(State()), messageOverride, userId, assistantId, reply)
    {
      var trimmed := Trim(messageOverride.GetOr(input));
      if trimmed == "" || isStreaming {
        return None;
      }
      request := Some(ChatActions.ChatStreamInput(trimmed, if threadId.Some? then ChatActions.Value(threadId.value) else ChatActions.Null));
      StartTurn(trimmed, userId, assistantId);
      match reply {
        case Unavailable =>
          ShowApology(assistantId);
        case Streamed(header, chunks, broken) =>
          TakeThread(header);
          ReadLoop(assistantId, chunks);
          if broken {
            ShowApology(assistantId);
          }
      }
      EndTurn();
    }

    /** The user's message and an empty assistant message are appended, the input cleared, streaming begins. */
    method StartTurn(text: string, userId: string, assistantId: string)
      modifies this
      ensures State() == Begin(old(State()), text, userId, assistantId)
    {
      messages := messages + [ChatMessage(userId, User, text), ChatMessage(assistantId, Assistant, "")];
      input := "";
      isStreaming := true;
      streamingMessageId := Some(assistantId);
      isThinking := true;
    }

    /** The `catch` block. */
    method ShowApology(assistantId: string)
      modifies this
      ensures State() == Fail(old(State()), assistantId)
    {
      messages := ReplaceContent(messages, assistantId, Apology);
    }

    /** Reading the `x-thread-id` header. */
    method TakeThread(header: Option<string>)
      modifies this
      ensures State() == CaptureThread(old(State()), header)
    {
      if header.Some? && header.value != "" {
        threadId := header;
      }
    }

    /** The `finally` block. */
    method EndTurn()
      modifies this
      ensures State() == Settle(old(State()))
    {
      isStreaming := false;
      isThinking := false;
      streamingMessageId := None;
    }

    /** The `while (true)` read loop: skip empty chunks, end "thinking" at the first other one, append each to the assistant message. */
    method ReadLoop(assistantId: string, chunks: seq<string>)
      modifies this
      ensures State() == Consume(old(State()), assistantId, chunks)
    {
      ghost var start := State();
      var hasStarted := false;
      var i := 0;
      while i < |chunks|
        invariant 0 <= i <= |chunks|
        invariant State() == Consume(start, assistantId, chunks[..i])
        invariant hasStarted ==> !isThinking
      {
        var chunk := chunks[i];
        assert chunks[..i + 1][..i] == chunks[..i];
        if chunk != "" {
          if !hasStarted {
            hasStarted := true;
            isThinking := false;
          }
          messages := AppendTo(messages, assistantId, chunk);
        }
        i := i + 1;
      }
      assert chunks[..i] == chunks;
    }

    /** `handlePromptSelect(prompt)`: submit the suggestion as the text. */
    method HandlePromptSelect(prompt: string, userId: string, assistantId: string, reply: Reply)
      returns (request: Option<ChatActions.ChatStreamInput>)
      modifies this
      ensures (State(), request) == Turn(old(State()), Some(prompt), userId, assistantId, reply)
    {
      request := SubmitMessage(Some(prompt), userId, assistantId, reply);
    }
  }

  // ---------------------------------------------------------------------------
  // Properties of a turn
  // ---------------------------------------------------------------------------

  /** What the assistant message finally says. */
  function FinalContent(reply: Reply): string
  {
    match reply
    case Unavailable => Apology
    case Streamed(_, chunks, broken) => if broken then Apology else Concat(chunks)
  }

  /** The thread id held after a turn that got `reply`. */
  function NextThread(held: Option<string>, reply: Reply): Option<string>
  {
    if reply.Streamed? && reply.threadHeader.Some? && reply.threadHeader.value != "" then reply.threadHeader else held
  }

  /** Ids the source draws at random: the assistant id differs from the user id and from every earlier message id. */
  predicate FreshIds(s: WidgetState, userId: string, assistantId: string)
  {
    userId != assistantId && forall m | m in s.messages :: m.id != assistantId
  }

  /** A submission with empty text, or made while streaming, changes nothing and sends nothing. */
  lemma RejectedSubmissionIsIgnored(s: WidgetState, messageOverride: Option<string>, userId: string, assistantId: string, reply: Reply)
    requires Trim(messageOverride.GetOr(s.input)) == "" || s.isStreaming
    ensures Turn(s, messageOverride, userId, assistantId, reply) == (s, None)
  {
  }

  lemma {:induction false} AppendToOthers(pre: seq<ChatMessage>, a: ChatMessage, chunk: string)
    requires forall m | m in pre :: m.id != a.id
    ensures AppendTo(pre + [a], a.id, chunk) == pre + [a.(content := a.content + chunk)]
  {
  }

  lemma {:induction false} ReplaceOthers(pre: seq<ChatMessage>, a: ChatMessage, text: string)
    requires forall m | m in pre :: m.id != a.id
    ensures ReplaceContent(pre + [a], a.id, text) == pre + [a.(content := text)]
  {
  }

  /** No chunk carried text. */
  predicate AllEmpty(chunks: seq<string>)
  {
    forall k | 0 <= k < |chunks| :: chunks[k] == ""
  }

  /**
   * The read loop on a state whose last message is the assistant's: that message
   * receives the concatenation of the chunks, nothing else changes, and the
   * state is still "thinking" exactly when every chunk so far was empty.
   */
  lemma {:induction false} ConsumeAppends(s: WidgetState, pre: seq<ChatMessage>, a: ChatMessage, chunks: seq<string>)
    requires s.messages == pre + [a]
    requires forall m | m in pre :: m.id != a.id
    ensures Consume(s, a.id, chunks) == s.(
      messages := pre + [a.(content := a.content + Concat(chunks))],
      isThinking := s.isThinking && AllEmpty(chunks))
  {
    if chunks == [] {
      assert a.(content := a.content + "") == a;
    } else {
      var init := chunks[..|chunks| - 1];
      var last := chunks[|chunks| - 1];
      ConsumeAppends(s, pre, a, init);
      assert chunks == init + [last];
      ConcatAppend(init, [last]);
      assert Concat([last]) == last;
      var mid := a.(content := a.content + Concat(init));
      assert AllEmpty(chunks) <==> AllEmpty(init) && last == "" by {
        assert forall k | 0 <= k < |init| :: init[k] == chunks[k];
      }
      if last != "" {
        AppendToOthers(pre, mid, last);
      } else {
        assert Concat(chunks) == Concat(init);
      }
      assert a.content + Concat(init) + last == a.content + Concat(chunks);
    }
  }

  /**
   * An accepted turn appends exactly the user's trimmed text and one assistant
   * message, whose final content is the concatenation of the chunks or, after
   * any failure, the apology; earlier messages are untouched; the request
   * carries the thread id held at submission; the turn ends idle with the input
   * cleared and the thread id taken from a non-empty header.
   */
  lemma AcceptedTurn(s: WidgetState, messageOverride: Option<string>, userId: string, assistantId: string, reply: Reply)
    requires Guard(s, messageOverride).Some?
    requires FreshIds(s, userId, assistantId)
    ensures var text := Trim(messageOverride.GetOr(s.input));
      Turn(s, messageOverride, userId, assistantId, reply) == (
        WidgetState(
          s.messages + [ChatMessage(userId, User, text), ChatMessage(assistantId, Assistant, FinalContent(reply))],
          "", false, None, false, NextThread(s.threadId, reply)),
        Some(RequestFor(s, text)))
  {
    var text := Trim(messageOverride.GetOr(s.input));
    var started := Begin(s, text, userId, assistantId);
    var ended := EndedTurn(s, text, userId, assistantId, reply);
    assert Turn(s, messageOverride, userId, assistantId, reply) == (Settle(ended), Some(RequestFor(s, text)));
    if reply.Unavailable? {
      FailedStart(s, text, userId, assistantId);
    } else {
      StreamedTurn(s, text, userId, assistantId, reply.threadHeader, reply.chunks, reply.broken);
    }
  }

  /** The state a turn reaches before the `finally` block. */
  function EndedTurn(s: WidgetState, text: string, userId: string, assistantId: string, reply: Reply): WidgetState
  {
    var started := Begin(s, text, userId, assistantId);
    match reply
    case Unavailable => Fail(started, assistantId)
    case Streamed(header, chunks, broken) =>
      var streamed := Consume(CaptureThread(started, header), assistantId, chunks);
      if broken then Fail(streamed, assistantId) else streamed
  }

  lemma FailedStart(s: WidgetState, text: string, userId: string, assistantId: string)
    requires FreshIds(s, userId, assistantId)
    ensures Fail(Begin(s, text, userId, assistantId), assistantId) ==
      Begin(s, text, userId, assistantId).(messages := s.messages + [ChatMessage(userId, User, text), ChatMessage(assistantId, Assistant, Apology)])
  {
    var pre := s.messages + [ChatMessage(userId, User, text)];
    var a := ChatMessage(assistantId, Assistant, "");
    assert Begin(s, text, userId, assistantId).messages == pre + [a];
    ReplaceOthers(pre, a, Apology);
  }

  lemma StreamedTurn(s: WidgetState, text: string, userId: string, assistantId: string, header: Option<string>, chunks: seq<string>, broken: bool)
    requires FreshIds(s, userId, assistantId)
    ensures var ended := EndedTurn(s, text, userId, assistantId, Streamed(header, chunks, broken));
      && ended.messages == s.messages + [ChatMessage(userId, User, text), ChatMessage(assistantId, Assistant, FinalContent(Streamed(header, chunks, broken)))]
      && ended.input == ""
      && ended.threadId == NextThread(s.threadId, Streamed(header, chunks, broken))
  {
    var pre := s.messages + [ChatMessage(userId, User, text)];
    var a := ChatMessage(assistantId, Assistant, "");
    var captured := CaptureThread(Begin(s, text, userId, assistantId), header);
    assert captured.messages == pre + [a];
    ConsumeAppends(captured, pre, a, chunks);
    assert a.content + Concat(chunks) == Concat(chunks);
    var streamed := Consume(captured, assistantId, chunks);
    assert streamed.messages == pre + [a.(content := Concat(chunks))];
    if broken {
      ReplaceOthers(pre, a.(content := Concat(chunks)), Apology);
    }
  }

  /** Until the first non-empty chunk the turn is "thinking"; from it on it is not (empty chunks do not end it). */
  lemma ThinkingUntilFirstChunk(s: WidgetState, text: string, userId: string, assistantId: string, header: Option<string>, chunks: seq<string>)
    requires userId != assistantId && forall m | m in s.messages :: m.id != assistantId
    ensures Consume(CaptureThread(Begin(s, text, userId, assistantId), header), assistantId, chunks).isThinking
      <==> AllEmpty(chunks)
  {
    var pre := s.messages + [ChatMessage(userId, User, text)];
    ConsumeAppends(CaptureThread(Begin(s, text, userId, assistantId), header), pre, ChatMessage(assistantId, Assistant, ""), chunks);
  }

  /** While a turn streams, a second submission (typed or a suggested prompt) appends nothing and sends nothing. */
  lemma SubmitWhileStreamingIsIgnored(s: WidgetState, text: string, userId: string, assistantId: string,
                                      header: Option<string>, chunks: seq<string>,
                                      messageOverride: Option<string>, userId': string, assistantId': string, reply': Reply)
    ensures var inFlight := Consume(CaptureThread(Begin(s, text, userId, assistantId), header), assistantId, chunks);
      Turn(inFlight, messageOverride, userId', assistantId', reply') == (inFlight, None)
  {
    ConsumeKeepsStreaming(CaptureThread(Begin(s, text, userId, assistantId), header), assistantId, chunks);
  }

  lemma {:induction false} ConsumeKeepsStreaming(s: WidgetState, assistantId: string, chunks: seq<string>)
    ensures Consume(s, assistantId, chunks).isStreaming == s.isStreaming
    ensures Consume(s, assistantId, chunks).streamingMessageId == s.streamingMessageId
  {
    if chunks != [] {
      ConsumeKeepsStreaming(s, assistantId, chunks[..|chunks| - 1]);
    }
  }

  /** The widget wires the input box as a controlled component: `value={input}`, `isLoading` and `disabled` both `isStreaming`. */
  function InputPropsFor(s: WidgetState): ChatInput.InputProps
  {
    ChatInput.InputProps(Some(s.input), Some(s.isStreaming), true, true, s.isStreaming)
  }

  /** The box shows the widget's input; its submit reaches `submitMessage` exactly when no turn is streaming. */
  lemma InputBoxSubmitsOnlyWhenIdle(s: WidgetState, internalValue: string, internalLoading: bool)
    ensures ChatInput.InputValue(InputPropsFor(s), internalValue) == s.input
    ensures ChatInput.SubmitOutcome(InputPropsFor(s), internalLoading) ==
      if s.isStreaming then ChatInput.Ignored else ChatInput.CalledOnSubmit
  {
  }

  /** While waiting for the first chunk, the only bubble with the typing indicator is the new assistant message. */
  lemma IndicatorOnNewAssistantMessage(s: WidgetState, text: string, userId: string, assistantId: string, i: nat)
    requires FreshIds(s, userId, assistantId)
    requires i < |s.messages| + 2
    ensures var b := Begin(s, text, userId, assistantId);
      var v := Render(b.messages, b.streamingMessageId, b.isThinking);
      v.MessageList? && (v.rows[i].body == TypingIndicator <==> i == |s.messages| + 1)
  {
    var b := Begin(s, text, userId, assistantId);
    assert b.messages[|s.messages| + 1].id == assistantId;
    if i < |s.messages| {
      assert b.messages[i] in s.messages;
    }
  }
}
