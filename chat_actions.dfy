/**
 * The POST handler the browser calls for a chat turn (src/lib/chat.actions.ts):
 * it passes the message and the optional thread id to the stream creator and
 * answers with the stream and three headers.
 */
module ChatActions {
  import opened Wrappers
  import ChatServer

  /** `threadId?: string | null` */
  datatype NullableString = Absent | Null | Value(s: string)

  /** The request body. */
  datatype ChatStreamInput = ChatStreamInput(message: string, threadId: NullableString)

  /** The response: the body stream and the headers in the order they are set. */
  datatype Response = Response(body: ChatServer.StreamController, headers: seq<(string, string)>)

  const ContentType := "text/plain; charset=utf-8"
  const CacheControl := "no-cache, no-transform"

  /** `data.threadId ?? undefined`: null and absent both become "no thread id". */
  function ThreadArgument(t: NullableString): (r: Option<string>)
    ensures r.Some? <==> t.Value?
    ensures t.Value? ==> r.value == t.s
  {
    if t.Value? then Some(t.s) else None
  }

  /** `headers.get(name)`: the value of the first header with that name. */
  function Header(headers: seq<(string, string)>, name: string): (r: Option<string>)
    ensures r.Some? ==> (name, r.value) in headers
    ensures r.None? ==> forall h | h in headers :: h.0 != name
  {
    if headers == [] then None
    else if headers[0].0 == name then Some(headers[0].1)
    else Header(headers[1..], name)
  }

  /**
   * The handler. The input validator returns its argument unchanged; the message
   * goes to the stream creator as it is; the `x-thread-id` header carries the
   * thread the stream creator used, which is the input's when it has one.
   */
  method StreamAssistantResponse(data: ChatStreamInput, provider: ChatServer.ProviderScript)
    returns (response: Response, providerRequest: ChatServer.ProviderRequest)
    ensures providerRequest.userMessage == data.message
    ensures providerRequest.conversation == (if data.threadId.Value? then data.threadId.s else provider.newConversationId)
    ensures Header(response.headers, "x-thread-id") == Some(providerRequest.conversation)
    ensures Header(response.headers, "Content-Type") == Some(ContentType)
    ensures Header(response.headers, "Cache-Control") == Some(CacheControl)
    ensures response.body.chunks == ChatServer.Deltas(ChatServer.BeforeTerminal(provider.events))
    ensures response.body.status == ChatServer.StatusAfter(provider.events)
  {
    var validated := data;
    var result, _, request := ChatServer.CreateAssistantStream(validated.message, ThreadArgument(validated.threadId), provider);
    providerRequest := request;
    response := Response(result.stream, [("Content-Type", ContentType), ("Cache-Control", CacheControl), ("x-thread-id", result.threadId)]);
  }
}
