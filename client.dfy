/**
 * The memory-service client: its configuration, its construction, the memory fetch and
 * the memory update. The network is not modelled: what the service answers to the fetch is
 * an input, and the update is the request the client would send.
 */
module MemoryClient {
  import opened Wrappers
  import opened Text
  import opened Chat
  import opened MemoryFormat

  /** Go's `int` and `time.Duration`, both 64-bit signed integers. */
  type Int64 = x: int | -0x8000_0000_0000_0000 <= x < 0x8000_0000_0000_0000

  /** Nanoseconds in a millisecond (`time.Millisecond`). */
  const Millisecond := 1_000_000

  /** The client timeout used when the configured one is zero: 300 ms. */
  const DefaultTimeout: Int64 := 300 * Millisecond

  /** The largest number of milliseconds whose nanosecond count fits in an `Int64`. */
  const MaxExactMs := 9_223_372_036_854

  const DefaultServerURL := "http://localhost:8283"

  /** The integration settings: on/off switch, service address, agent, timeout in ms. */
  datatype Config = Config(enabled: bool, serverURL: string, agentID: string, timeoutMs: Int64)

  /**
   * `LoadConfigFromEnv` (and `loadLettaConfig`), given the values of LETTA_ENABLED,
   * LETTA_SERVER_URL and LETTA_AGENT_ID ("" for an unset variable).
   */
  function LoadConfigFromEnv(lettaEnabled: string, lettaServerURL: string, lettaAgentID: string): (cfg: Config)
    ensures cfg.enabled <==> lettaEnabled == "true"
    ensures cfg.serverURL != "" && (lettaServerURL != "" ==> cfg.serverURL == lettaServerURL)
    ensures lettaServerURL == "" ==> cfg.serverURL == DefaultServerURL
    ensures cfg.agentID == lettaAgentID && cfg.timeoutMs == 300
  {
    var cfg := Config(lettaEnabled == "true", lettaServerURL, lettaAgentID, 300);
    if cfg.serverURL == "" then cfg.(serverURL := DefaultServerURL) else cfg
  }

  /** A client: its configuration and the HTTP timeout in nanoseconds. */
  datatype Client = Client(config: Config, timeoutNs: Int64)

  /** Two's-complement wrap-around of a product computed in 64 bits. */
  function WrapInt64(x: int): (r: Int64)
    ensures (r - x) % 0x1_0000_0000_0000_0000 == 0
    ensures -0x8000_0000_0000_0000 <= x < 0x8000_0000_0000_0000 ==> r == x
  {
    (x + 0x8000_0000_0000_0000) % 0x1_0000_0000_0000_0000 - 0x8000_0000_0000_0000
  }

  /**
   * `NewClient` (and `NewLettaClient`): the timeout is `time.Duration(cfg.Timeout) *
   * time.Millisecond`, a 64-bit product, replaced by 300 ms when it is zero.
   */
  function NewClient(cfg: Config): (c: Client)
    ensures c.config == cfg && c.timeoutNs != 0
    ensures cfg.timeoutMs == 0 ==> c.timeoutNs == DefaultTimeout
    ensures 0 < cfg.timeoutMs <= MaxExactMs || -MaxExactMs <= cfg.timeoutMs < 0 ==>
              c.timeoutNs == cfg.timeoutMs * Millisecond
  {
    var timeout := WrapInt64(cfg.timeoutMs * Millisecond);
    Client(cfg, if timeout == 0 then DefaultTimeout else timeout)
  }

  /**
   * A timeout of 2^58 ms is 2^64 * 15625 ns, which wraps to a zero Duration, so the client
   * falls back to the 300 ms default.
   */
  lemma NewClientWrapsToDefault(cfg: Config)
    requires cfg.timeoutMs == 0x400_0000_0000_0000
    ensures NewClient(cfg).timeoutNs == DefaultTimeout
  {
    assert cfg.timeoutMs * Millisecond == 0x1_0000_0000_0000_0000 * 15625;
    assert WrapInt64(cfg.timeoutMs * Millisecond) == 0;
  }

  /**
   * The client the middleware is given: `NewMiddleware` builds none (returns a nil handler)
   * and `main` leaves the global client nil when the integration is disabled.
   */
  function InstalledClient(cfg: Config): (r: Option<Client>)
    ensures r.Some? <==> cfg.enabled
    ensures r.Some? ==> r.value == NewClient(cfg)
  {
    if cfg.enabled then Some(NewClient(cfg)) else None
  }

  /** An element of `memory.blocks`; a field that is missing reads as None. */
  datatype BlockElement = BlockElement(name: Option<string>, value: Option<string>)

  /** The agent document returned by the fetch; None when `memory.blocks` is absent or not an array. */
  datatype AgentPayload = AgentPayload(memoryBlocks: Option<seq<BlockElement>>)

  /**
   * What the memory service does with the fetch: the request fails (transport error,
   * timeout), or it answers with a status and a body (None when reading the body fails).
   */
  datatype FetchOutcome = TransportFailed | Replied(status: int, payload: Option<AgentPayload>)

  datatype FetchError = TransportError | StatusError(status: int) | ReadError

  /** One parsed block: a missing label or value becomes "". */
  function ParseBlock(e: BlockElement): MemoryBlock {
    MemoryBlock(e.name.GetOr(""), e.value.GetOr(""))
  }

  /** The parsed blocks, one per element, in order. */
  function ParseBlocks(elems: seq<BlockElement>): (blocks: seq<MemoryBlock>)
    ensures |blocks| == |elems|
    ensures forall i :: 0 <= i < |elems| ==>
              blocks[i].name == elems[i].name.GetOr("") && blocks[i].value == elems[i].value.GetOr("")
  {
    seq(|elems|, i requires 0 <= i < |elems| => ParseBlock(elems[i]))
  }

  /** What `GetMemory` returns for a configuration and the service's answer. */
  function FetchedBlocks(cfg: Config, fetch: FetchOutcome): (r: Result<seq<MemoryBlock>, FetchError>)
    ensures !cfg.enabled || cfg.agentID == "" ==> r == Success([])
    ensures cfg.enabled && cfg.agentID != "" ==>
              (r.Failure? <==> fetch.TransportFailed? || fetch.status != 200 || fetch.payload.None?)
    ensures cfg.enabled && cfg.agentID != "" && fetch.Replied? && fetch.status != 200 ==>
              r == Failure(StatusError(fetch.status))
    ensures r.Success? && cfg.enabled && cfg.agentID != "" ==>
              r.value == match fetch.payload.value.memoryBlocks
                         case None => []
                         case Some(elems) => ParseBlocks(elems)
  {
    if !cfg.enabled || cfg.agentID == "" then Success([])
    else match fetch
      case TransportFailed => Failure(TransportError)
      case Replied(status, payload) =>
        if status != 200 then Failure(StatusError(status))
        else match payload
          case None => Failure(ReadError)
          case Some(p) =>
            match p.memoryBlocks
            case None => Success([])
            case Some(elems) => Success(ParseBlocks(elems))
  }

  /** The result of a disabled client depends on nothing the service could answer: no request is made. */
  lemma DisabledFetchIgnoresService(cfg: Config, f1: FetchOutcome, f2: FetchOutcome)
    requires !cfg.enabled || cfg.agentID == ""
    ensures FetchedBlocks(cfg, f1) == FetchedBlocks(cfg, f2) == Success([])
  {
  }

  /** `GetMemory`: the disabled check, the status check, then a loop appending parsed blocks. */
  method GetMemory(client: Client, fetch: FetchOutcome) returns (r: Result<seq<MemoryBlock>, FetchError>)
    ensures r == FetchedBlocks(client.config, fetch)
  {
    if !client.config.enabled || client.config.agentID == "" {
      return Success([]);
    }
    if fetch.TransportFailed? {
      return Failure(TransportError);
    }
    if fetch.status != 200 {
      return Failure(StatusError(fetch.status));
    }
    if fetch.payload.None? {
      return Failure(ReadError);
    }
    var blocks: seq<MemoryBlock> := [];
    var blocksJSON := fetch.payload.value.memoryBlocks;
    if blocksJSON.Some? {
      var elems := blocksJSON.value;
      for i := 0 to |elems|
        invariant |blocks| == i
        invariant forall j :: 0 <= j < i ==> blocks[j] == ParseBlock(elems[j])
      {
        blocks := blocks + [ParseBlock(elems[i])];
      }
      assert blocks == ParseBlocks(elems);
    }
    return Success(blocks);
  }

  const UpdateIntro := "[Memory Update] User asked: "
  const UpdateBridge := "\n\nAssistant responded (summary): "

  /** The summary text of a memory update: the user message cut to 500 bytes, the answer to 1000. */
  function SummaryMessage(userMessage: string, assistantResponse: string): (r: string)
    ensures r == UpdateIntro + Truncate(userMessage, 500) + UpdateBridge + Truncate(assistantResponse, 1000)
    ensures HasPrefix(r, UpdateIntro)
    ensures |r| <= |UpdateIntro| + 503 + |UpdateBridge| + 1003
    ensures |userMessage| <= 500 && |assistantResponse| <= 1000 ==>
              r == UpdateIntro + userMessage + UpdateBridge + assistantResponse
    ensures |userMessage| > 500 ==>
              |r| >= |UpdateIntro| + 503 && r[|UpdateIntro|..|UpdateIntro| + 503] == userMessage[..500] + Ellipsis
  {
    var cut := Truncate(userMessage, 500);
    var r := UpdateIntro + cut + UpdateBridge + Truncate(assistantResponse, 1000);
    assert r[|UpdateIntro|..|UpdateIntro| + |cut|] == cut;
    r
  }

  /** The body of the update request: `{"messages": [...]}`. */
  datatype UpdateRequest = UpdateRequest(messages: seq<Message>)

  /**
   * `UpdateMemory`: the request it sends, or None when the client is disabled or has no
   * agent (it then returns before building any request).
   */
  function UpdateMemory(cfg: Config, userMessage: string, assistantResponse: string): (r: Option<UpdateRequest>)
    ensures r.None? <==> !cfg.enabled || cfg.agentID == ""
    ensures r.Some? ==> |r.value.messages| == 1
    ensures r.Some? ==> r.value.messages[0].role == Some("user")
    ensures r.Some? ==> r.value.messages[0].content == Some(SummaryMessage(userMessage, assistantResponse))
  {
    if !cfg.enabled || cfg.agentID == "" then None
    else Some(UpdateRequest([Message(Some("user"), Some(SummaryMessage(userMessage, assistantResponse)), map[])]))
  }
}
