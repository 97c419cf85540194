/**
 * The interception middleware: filters chat-completion requests, forwards the injected
 * body, captures the response, and decides whether a memory update is dispatched.
 */
module Middleware {
  import opened Wrappers
  import opened Text
  import opened Chat
  import opened MemoryClient
  import opened Injector
  import opened Capture

  const ChatCompletionsPath := "/chat/completions"

  /** An inbound request: its URL path and its body, None when reading the body fails. */
  datatype Request = Request(path: string, body: Option<RequestBody>)

  /** The arguments a detached update task is started with. */
  datatype Dispatch = Dispatch(userMessage: string, response: seq<byte>)

  /**
   * What the middleware did with one request. `PassThrough`: the request went on untouched,
   * with no capture and no update. `Intercepted`: the body forwarded and its declared
   * length, the user message stored in the context, the captured response bytes, and the
   * update task dispatched, if any.
   */
  datatype Outcome =
    | PassThrough
    | Intercepted(forwarded: RequestBody, contentLength: nat, userMessage: string,
                  captured: seq<byte>, dispatch: Option<Dispatch>)

  /** When the middleware leaves a request alone. */
  predicate PassesThrough(client: Option<Client>, req: Request) {
    || !Contains(req.path, ChatCompletionsPath)
    || client.None?
    || !client.value.config.enabled
    || req.body.None?
  }

  /**
   * `memoryInjectionMiddleware` for one request. `fetch` is the memory service's answer,
   * `handler` the writes the downstream handler makes, and `encodedLength` the byte length
   * of a body's JSON text.
   */
  method MemoryInjectionMiddleware(client: Option<Client>, req: Request, fetch: FetchOutcome,
                                   handler: seq<Chunk>, encodedLength: RequestBody -> nat)
    returns (r: Outcome)
    ensures r.PassThrough? <==> PassesThrough(client, req)
    ensures r.Intercepted? ==>
              && r.forwarded == Injected(client.value, fetch, req.body.value)
              && r.contentLength == encodedLength(r.forwarded)
              && r.userMessage == UserMessageOf(req.body.value)
              && r.captured == Flatten(handler)
    ensures r.Intercepted? ==>
              (r.dispatch.Some? <==> r.userMessage != "" && r.captured != [])
    ensures r.Intercepted? && r.dispatch.Some? ==>
              r.dispatch.value == Dispatch(r.userMessage, r.captured)
  {
    if !Contains(req.path, ChatCompletionsPath) {
      return PassThrough;
    }
    if client.None? || !client.value.config.enabled {
      return PassThrough;
    }
    if req.body.None? {
      return PassThrough;
    }
    var bodyBytes := req.body.value;
    var modifiedBody := InjectMemoryIntoRequest(client.value, fetch, bodyBytes);
    var contentLength := encodedLength(modifiedBody);
    var userMessage := ExtractUserMessage(bodyBytes);
    var rw := new ResponseCapture();
    WriteChunks(rw, handler);
    var dispatch: Option<Dispatch> := None;
    if userMessage != "" && |rw.body| > 0 {
      dispatch := Some(Dispatch(userMessage, rw.body));
    }
    r := Intercepted(modifiedBody, contentLength, userMessage, rw.body, dispatch);
  }

  /**
   * The detached update task, given the JSON reading of the captured bytes: the update
   * request it sends, or None when the response has no assistant text (a streamed
   * response, whose first chunk's first choice has no `message`) or the client is disabled or has no agent.
   */
  function UpdateTask(client: Client, d: Dispatch, response: ResponseBody): (r: Option<UpdateRequest>)
    ensures r.Some? <==>
              ExtractAssistantResponse(response) != "" && client.config.enabled && client.config.agentID != ""
    ensures r.Some? ==> r == UpdateMemory(client.config, d.userMessage, ExtractAssistantResponse(response))
    ensures response.choices.None? ==> r.None?
    ensures FirstChoiceContent(response).None? ==> r.None?
  {
    var assistantResponse := ExtractAssistantResponse(response);
    if assistantResponse != "" then UpdateMemory(client.config, d.userMessage, assistantResponse) else None
  }
}
