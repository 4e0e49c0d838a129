/**
 * A chat turn end to end: the widget's request reaches the POST handler, the
 * handler's stream is what the widget's read loop consumes, and its
 * `x-thread-id` header is what the widget keeps for the next turn.
 *
 * The byte stream is taken to deliver the enqueued strings as the decoded
 * chunks, and a stream that was errored makes the widget's next read throw.
 */
module ChatRoundTrip {
  import opened Wrappers
  import opened Text
  import opened ChatConversation
  import opened ChatServer
  import ChatActions
  import opened ChatWidget

  /** What the widget reads from the handler's response once the stream has ended. */
  function ReplyFromServer(thread: string, events: seq<ProviderEvent>): Reply
  {
    Streamed(Some(thread), Deltas(BeforeTerminal(events)), StatusAfter(events) == Errored)
  }

  /** The widget's held thread id travels to the server unchanged, and a held id is the one the server uses. */
  lemma HeldThreadReachesServer(s: WidgetState, text: string, provider: ProviderScript)
    ensures ResolveThread(ChatActions.ThreadArgument(RequestFor(s, text).threadId), provider) == ResolveThread(s.threadId, provider)
    ensures ResolveThread(s.threadId, provider) == if s.threadId.Some? then s.threadId.value else provider.newConversationId
  {
  }

  /**
   * A turn against the server: when the provider's stream ends with a
   * completion, the assistant message shows exactly the deltas received before
   * it; when it ends with an error or a rejection, it shows the apology. The
   * widget then holds the server's thread id (unless that id is empty).
   */
  lemma TurnAgainstServer(s: WidgetState, messageOverride: Option<string>, userId: string, assistantId: string, provider: ProviderScript)
    requires Guard(s, messageOverride).Some?
    requires FreshIds(s, userId, assistantId)
    requires FirstTerminal(provider.events).Some?
    ensures var thread := ResolveThread(s.threadId, provider);
      var after := Turn(s, messageOverride, userId, assistantId, ReplyFromServer(thread, provider.events)).0;
      && |after.messages| == |s.messages| + 2
      && after.messages[..|s.messages|] == s.messages
      && after.messages[|s.messages| + 1].content ==
           (if FirstTerminal(provider.events) == Some(Completed) then Concat(Deltas(BeforeTerminal(provider.events))) else Apology)
      && after.threadId == (if thread != "" then Some(thread) else s.threadId)
      && !after.isStreaming
  {
    var thread := ResolveThread(s.threadId, provider);
    var reply := ReplyFromServer(thread, provider.events);
    AcceptedTurn(s, messageOverride, userId, assistantId, reply);
    var text := Trim(messageOverride.GetOr(s.input));
    var appended := s.messages + [ChatMessage(userId, User, text), ChatMessage(assistantId, Assistant, FinalContent(reply))];
    assert appended[..|s.messages|] == s.messages;
  }

  /**
   * Once the widget holds a non-empty thread id, every later turn continues
   * that conversation: the server uses it and the widget keeps it.
   */
  lemma ConversationContinues(s: WidgetState, messageOverride: Option<string>, userId: string, assistantId: string, provider: ProviderScript)
    requires Guard(s, messageOverride).Some?
    requires FreshIds(s, userId, assistantId)
    requires s.threadId.Some? && s.threadId.value != ""
    ensures ResolveThread(s.threadId, provider) == s.threadId.value
    ensures Turn(s, messageOverride, userId, assistantId, ReplyFromServer(ResolveThread(s.threadId, provider), provider.events)).0.threadId == s.threadId
  {
    AcceptedTurn(s, messageOverride, userId, assistantId, ReplyFromServer(ResolveThread(s.threadId, provider), provider.events));
  }

  /** The first turn of a fresh widget starts a conversation and the widget keeps the new id. */
  lemma FirstTurnAdoptsNewConversation(messageOverride: string, userId: string, assistantId: string, provider: ProviderScript)
    requires Trim(messageOverride) != ""
    requires userId != assistantId
    requires provider.newConversationId != ""
    ensures var r := Turn(Initial, Some(messageOverride), userId, assistantId, ReplyFromServer(ResolveThread(None, provider), provider.events));
      && r.1 == Some(ChatActions.ChatStreamInput(Trim(messageOverride), ChatActions.Null))
      && r.0.threadId == Some(provider.newConversationId)
  {
    AcceptedTurn(Initial, Some(messageOverride), userId, assistantId, ReplyFromServer(ResolveThread(None, provider), provider.events));
  }
}
