/**
 * The server half of a chat turn (src/lib/chat.server.ts): resolve the
 * conversation ("thread") handle, open a byte stream for the caller, relay the
 * hosted model's text deltas into it in arrival order, and close or error the
 * stream at most once.
 *
 * The hosted model is a script: the id it would give a new conversation and the
 * finite sequence of notifications its response stream delivers. Notifications
 * are handled one after another, in the order they arrive.
 */
module ChatServer {
  import opened Wrappers
  import opened Text

  /** One notification from the hosted model's response stream. */
  datatype ProviderEvent =
    | Delta(delta: Option<string>)  // a 'response.output_text.delta' event; its delta may be missing
    | ErrorEvent                    // the stream's 'error' event
    | Completed                     // `finalResponse()` resolved
    | Rejected                      // `finalResponse()` rejected

  /** What the hosted model does for one request. */
  datatype ProviderScript = ProviderScript(newConversationId: string, events: seq<ProviderEvent>)

  /** The request handed to `responses.stream`. */
  datatype ProviderRequest = ProviderRequest(model: string, userMessage: string, conversation: string)

  const Model := "gpt-5-mini"

  datatype StreamStatus = Open | Closed | Errored

  /** The byte stream's controller: what has been enqueued and whether it was closed or errored. */
  class StreamController {
    var chunks: seq<string>
    var status: StreamStatus
    /** How many `close()` and `error()` calls reached the controller. */
    var terminations: nat

    constructor ()
      ensures chunks == [] && status == Open && terminations == 0
    {
      chunks, status, terminations := [], Open, 0;
    }

    /** `controller.enqueue`: a stream that is no longer open refuses the chunk. */
    method Enqueue(chunk: string)
      modifies this
      ensures status == old(status) && terminations == old(terminations)
      ensures chunks == if old(status) == Open then old(chunks) + [chunk] else old(chunks)
    {
      if status == Open {
        chunks := chunks + [chunk];
      }
    }

    /** `controller.close()` */
    method Close()
      modifies this
      ensures chunks == old(chunks) && terminations == old(terminations) + 1
      ensures status == if old(status) == Open then Closed else old(status)
    {
      if status == Open {
        status := Closed;
      }
      terminations := terminations + 1;
    }

    /** `controller.error(e)` */
    method Error()
      modifies this
      ensures chunks == old(chunks) && terminations == old(terminations) + 1
      ensures status == if old(status) == Open then Errored else old(status)
    {
      if status == Open {
        status := Errored;
      }
      terminations := terminations + 1;
    }
  }

  /** The result of `createAssistantStream`: the stream and the thread id it used. */
  datatype AssistantStreamResult = AssistantStreamResult(stream: StreamController, threadId: string)

  // ---------------------------------------------------------------------------
  // Specification of the relay
  // ---------------------------------------------------------------------------

  predicate IsTerminal(e: ProviderEvent) {
    !e.Delta?
  }

  /** The text a notification contributes: the delta of a delta event, if present and non-empty. */
  function DeltaText(e: ProviderEvent): (r: seq<string>)
    ensures |r| <= 1 && forall d | d in r :: d != ""
  {
    if e.Delta? && e.delta.Some? && e.delta.value != "" then [e.delta.value] else []
  }

  /** The non-empty deltas of `events`, in arrival order. */
  function Deltas(events: seq<ProviderEvent>): (r: seq<string>)
    ensures forall d | d in r :: d != ""
    ensures |r| <= |events|
  {
    if events == [] then [] else DeltaText(events[0]) + Deltas(events[1..])
  }

  /** The first completion, error or rejection, if any. */
  function FirstTerminal(events: seq<ProviderEvent>): (r: Option<ProviderEvent>)
    ensures r.Some? ==> IsTerminal(r.value)
  {
    if events == [] then None
    else if IsTerminal(events[0]) then Some(events[0])
    else FirstTerminal(events[1..])
  }

  /** The notifications that arrive before the first terminal one (all of them if there is none). */
  function BeforeTerminal(events: seq<ProviderEvent>): (r: seq<ProviderEvent>)
  {
    if events == [] || IsTerminal(events[0]) then [] else [events[0]] + BeforeTerminal(events[1..])
  }

  /** How the stream ends: closed by a completion, errored by an error or rejection, or still open. */
  function StatusAfter(events: seq<ProviderEvent>): StreamStatus
  {
    match FirstTerminal(events)
    case None => Open
    case Some(Completed) => Closed
    case Some(_) => Errored
  }

  lemma {:induction false} DeltasAppend(a: seq<ProviderEvent>, b: seq<ProviderEvent>)
    ensures Deltas(a + b) == Deltas(a) + Deltas(b)
  {
    if a == [] {
      assert a + b == b;
    } else {
      assert (a + b)[1..] == a[1..] + b;
      DeltasAppend(a[1..], b);
    }
  }

  /** Appending one notification: the first terminal event and the prefix before it only change while none has arrived. */
  lemma {:induction false} TerminalSnoc(s: seq<ProviderEvent>, e: ProviderEvent)
    ensures FirstTerminal(s + [e]) == if FirstTerminal(s).Some? then FirstTerminal(s) else if IsTerminal(e) then Some(e) else None
    ensures BeforeTerminal(s + [e]) == if FirstTerminal(s).Some? || IsTerminal(e) then BeforeTerminal(s) else BeforeTerminal(s) + [e]
  {
    if s == [] {
      assert s + [e] == [e];
    } else {
      assert (s + [e])[1..] == s[1..] + [e];
      TerminalSnoc(s[1..], e);
    }
  }

  /** Everything the relay's loop needs to know about one more notification. */
  lemma RelaySnoc(s: seq<ProviderEvent>, e: ProviderEvent)
    ensures Concat(Deltas(s + [e])) == Concat(Deltas(s)) + Concat(DeltaText(e))
    ensures FirstTerminal(s + [e]).Some? == (FirstTerminal(s).Some? || IsTerminal(e))
    ensures Deltas(BeforeTerminal(s + [e])) ==
      if FirstTerminal(s).Some? || IsTerminal(e) then Deltas(BeforeTerminal(s)) else Deltas(BeforeTerminal(s)) + DeltaText(e)
    ensures StatusAfter(s + [e]) ==
      if FirstTerminal(s).Some? then StatusAfter(s)
      else if e == Completed then Closed
      else if IsTerminal(e) then Errored
      else Open
    ensures StatusAfter(s) == Open <==> FirstTerminal(s).None?
  {
    DeltasAppend(s, [e]);
    TerminalSnoc(s, e);
    ConcatAppend(Deltas(s), DeltaText(e));
    DeltasAppend(BeforeTerminal(s), [e]);
    assert Deltas([e]) == DeltaText(e);
  }

  // ---------------------------------------------------------------------------
  // The relay
  // ---------------------------------------------------------------------------

  /**
   * The body of the stream's `start` callback: the delta listener, the error
   * listener and the `finalResponse()` continuations, fed the notifications in
   * order. Returns the accumulated `fullResponse` (which the source logs).
   */
  method Relay(controller: StreamController, events: seq<ProviderEvent>) returns (fullResponse: string)
    requires controller.chunks == [] && controller.status == Open && controller.terminations == 0
    modifies controller
    ensures fullResponse == Concat(Deltas(events))
    ensures controller.chunks == Deltas(BeforeTerminal(events))
    ensures controller.status == StatusAfter(events)
    ensures controller.terminations == if FirstTerminal(events).Some? then 1 else 0
  {
    var isClosed := false;
    fullResponse := "";
    var i := 0;
    while i < |events|
      invariant 0 <= i <= |events|
      invariant fullResponse == Concat(Deltas(events[..i]))
      invariant isClosed == FirstTerminal(events[..i]).Some?
      invariant controller.chunks == Deltas(BeforeTerminal(events[..i]))
      invariant controller.status == StatusAfter(events[..i])
      invariant controller.terminations == if isClosed then 1 else 0
    {
      var e := events[i];
      assert events[..i + 1] == events[..i] + [e];
      RelaySnoc(events[..i], e);
      isClosed, fullResponse := OnNotification(controller, e, isClosed, fullResponse);
      i := i + 1;
    }
    assert events[..i] == events;
  }

  /**
   * One notification: a non-empty delta is accumulated and enqueued; the first
   * completion closes the stream and the first error or rejection errors it;
   * once the stream is closed or errored, later terminal notifications are
   * ignored (`isClosed`).
   */
  method OnNotification(controller: StreamController, e: ProviderEvent, isClosed: bool, fullResponse: string)
    returns (closed: bool, response: string)
    requires controller.status == Open <==> !isClosed
    requires controller.terminations == if isClosed then 1 else 0
    modifies controller
    ensures response == fullResponse + Concat(DeltaText(e))
    ensures closed == (isClosed || IsTerminal(e))
    ensures controller.chunks == if closed then old(controller.chunks) else old(controller.chunks) + DeltaText(e)
    ensures controller.status ==
      if isClosed then old(controller.status)
      else if e == Completed then Closed
      else if IsTerminal(e) then Errored
      else Open
    ensures controller.terminations == if closed then 1 else 0
  {
    closed, response := isClosed, fullResponse;
    match e {
      case Delta(delta) =>
        if delta.Some? && delta.value != "" {
          response := response + delta.value;
          controller.Enqueue(delta.value);
        }
      case Completed =>
        // closeStream
        if !isClosed {
          closed := true;
          controller.Close();
        }
      case _ =>
        // errorStream
        if !isClosed {
          closed := true;
          controller.Error();
        }
    }
    assert Concat([]) == "";
  }

  /** `threadId ?? (await openai.conversations.create()).id` */
  function ResolveThread(threadId: Option<string>, provider: ProviderScript): (r: string)
  {
    threadId.GetOr(provider.newConversationId)
  }

  /**
   * `createAssistantStream(message, threadId)`. A conversation is created only
   * when no thread id is supplied; the stream relays the provider's notifications;
   * the returned thread id is the one the request to the provider used.
   */
  method CreateAssistantStream(message: string, threadId: Option<string>, provider: ProviderScript)
    returns (result: AssistantStreamResult, createdConversation: bool, request: ProviderRequest)
    ensures createdConversation <==> threadId.None?
    ensures result.threadId == (if threadId.Some? then threadId.value else provider.newConversationId)
    ensures request == ProviderRequest(Model, message, result.threadId)
    ensures result.stream.chunks == Deltas(BeforeTerminal(provider.events))
    ensures result.stream.status == StatusAfter(provider.events)
    ensures result.stream.terminations <= 1
  {
    createdConversation := threadId.None?;
    var resolved := ResolveThread(threadId, provider);
    var controller := new StreamController();
    request := ProviderRequest(Model, message, resolved);
    var _ := Relay(controller, provider.events);
    result := AssistantStreamResult(controller, resolved);
  }

  // ---------------------------------------------------------------------------
  // Properties
  // ---------------------------------------------------------------------------

  /**
   * Once the stream has been closed or errored, nothing that arrives later
   * changes it: an error after completion does not error it, a completion after
   * an error does not close it, and late deltas are not enqueued.
   */
  lemma {:induction false} LaterEventsIgnored(a: seq<ProviderEvent>, b: seq<ProviderEvent>)
    requires FirstTerminal(a).Some?
    ensures FirstTerminal(a + b) == FirstTerminal(a)
    ensures StatusAfter(a + b) == StatusAfter(a)
    ensures BeforeTerminal(a + b) == BeforeTerminal(a)
  {
    assert a != [];
    assert (a + b)[1..] == a[1..] + b;
    if !IsTerminal(a[0]) {
      LaterEventsIgnored(a[1..], b);
    }
  }

  /** A provider that sends deltas and then completes: everything received is enqueued, and the stream is closed. */
  lemma {:induction false} CompletedStreamRelaysAll(deltas: seq<ProviderEvent>, rest: seq<ProviderEvent>)
    requires forall e | e in deltas :: e.Delta?
    ensures StatusAfter(deltas + [Completed] + rest) == Closed
    ensures Deltas(BeforeTerminal(deltas + [Completed] + rest)) == Deltas(deltas)
  {
    if deltas == [] {
      assert deltas + [Completed] + rest == [Completed] + rest;
    } else {
      assert (deltas + [Completed] + rest)[1..] == deltas[1..] + [Completed] + rest;
      CompletedStreamRelaysAll(deltas[1..], rest);
    }
  }

  /** With no delta after the first terminal event, `fullResponse` is exactly the enqueued text. */
  lemma {:induction false} FullResponseIsEnqueued(events: seq<ProviderEvent>)
    requires forall k | |BeforeTerminal(events)| <= k < |events| :: !events[k].Delta?
    ensures Deltas(events) == Deltas(BeforeTerminal(events))
  {
    if events != [] && !IsTerminal(events[0]) {
      FullResponseIsEnqueued(events[1..]);
    } else if events != [] {
      NoDeltas(events);
    }
  }

  lemma {:induction false} NoDeltas(events: seq<ProviderEvent>)
    requires forall k | 0 <= k < |events| :: !events[k].Delta?
    ensures Deltas(events) == []
  {
    if events != [] {
      NoDeltas(events[1..]);
    }
  }
}
