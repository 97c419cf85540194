# Letta memory injection for a chat-completion proxy, modelled in Dafny

The proxy wraps its chat-completion endpoint in a middleware that talks to a Letta memory
service. Before a request is forwarded, the middleware fetches the agent's labeled memory
blocks, renders them as a text block, and merges that text into the request's first system
message. If the request has no system message, it prepends a new one. After the downstream
handler has written the response, the middleware may start a detached task. That task
summarises the exchange and posts it back to the agent. Any failure on the memory side
leaves the request as it was.

The repository holds this pipeline twice, almost line for line: once as a library
(`internal/letta/letta.go`) and once inside the server binary (`cmd/letta-server/main.go`).
The model describes it once. The table below cites one of the two copies for each member.
The twin lines in the other file are:

| concept | library | binary |
|---|---|---|
| client construction | internal/letta/letta.go:41-52 | cmd/letta-server/main.go:58-69 |
| memory fetch | internal/letta/letta.go:61-101 | cmd/letta-server/main.go:78-117 |
| memory update | internal/letta/letta.go:104-141 | cmd/letta-server/main.go:120-157 |
| formatter | internal/letta/letta.go:144-161 | cmd/letta-server/main.go:160-177 |
| truncate | internal/letta/letta.go:164-169 | cmd/letta-server/main.go:180-185 |
| configuration from the environment | internal/letta/letta.go:173-187 | cmd/letta-server/main.go:191-205 |
| middleware | internal/letta/letta.go:211-269 | cmd/letta-server/main.go:208-266 |
| response capture | internal/letta/letta.go:272-280 | cmd/letta-server/main.go:269-277 |
| injector | internal/letta/letta.go:283-342 | cmd/letta-server/main.go:280-339 |
| extractors | internal/letta/letta.go:345-372 | cmd/letta-server/main.go:342-369 |

The two copies differ in three ways:
- The binary fetches `…/v1/agents/{id}/memory`, the library fetches `…/v1/agents/{id}`. URLs are not modelled, so the model does not see this.
- The binary's middleware reads a global client set in `main`, while the library's middleware captures the client in a closure. Both reach the model as an `Option<Client>`.
- The library's `NewMiddleware` returns no handler at all when the integration is disabled. `MemoryClient.InstalledClient` yields `None` for both copies, and the middleware passes everything through when it gets `None`.

Modules, one `.dfy` file each: `Wrappers` (Option, Result), `Text` (truncate, prefix and
substring tests), `Chat` (the request and response JSON as records, and the two extractors),
`MemoryFormat` (the formatter), `MemoryClient` (configuration, client, fetch, update),
`Injector`, `Capture` (the response capture), `Middleware`, `Server` (the binary's start-up
settings).

How the model represents things:
- A `string` holds the bytes of a Go string, one element per byte.
- A request body is a record: its `messages` (None when the field is absent or not an array), the other fields kept opaque, and a `rewritable` flag. When `rewritable` is false, the JSON path writer refuses the text and returns nothing.
- A message has an optional role and an optional content; a missing one reads as "".
- What the memory service answers to the fetch is an input, `FetchOutcome`.
- The memory update is modelled as the request the client would post.
- The downstream handler is the list of `Write` calls it makes.

The model follows the code where it differs from what its comments suggest:
- The code counts bytes when it truncates, although the comment on `truncate` (internal/letta/letta.go:163) speaks of characters.
- The middleware's gate checks only `Enabled`, not the agent id. With an empty agent id a request is still read, captured and may dispatch a task. The fetch and the update then return before building any request, so the forwarded body is the original one and nothing is sent.
- `UpdateMemory` ignores the HTTP status of the update.

## Model

| member | source | states |
|---|---|---|
| Text.Truncate | internal/letta/letta.go:164-169 | a string of at most `maxLen` bytes comes back unchanged; a longer one becomes its first `maxLen` bytes followed by "...", so it is `maxLen + 3` bytes long |
| Text.TruncateIdempotent | internal/letta/letta.go:164-169 | truncating an already truncated string changes nothing |
| Text.TruncateUnchangedIff | cmd/letta-server/main.go:180-185 | truncate returns its input exactly when the input fits, or when it already is `maxLen` bytes followed by "..." |
| Chat.ExtractUserMessage | cmd/letta-server/main.go:342-356 | the loop that overwrites its answer at each user message returns the last user message's content, and "" when `messages` is not an array |
| Chat.LastUserContentIsLast | internal/letta/letta.go:351-358 | the answer is the content of the last message with role "user", "" if that message has no content, even when an earlier user message had some |
| Chat.LastUserContentNone | internal/letta/letta.go:345-358 | with no user message the answer is "" |
| Chat.ExtractAssistantResponse | cmd/letta-server/main.go:359-369 | the result is `choices.0.message.content` when that is non-empty and "" otherwise, also when `choices` is missing or its first element has no `message`; a streamed response is read as its first chunk, whose first choice has no `message`, so the result is "" |
| MemoryFormat.Formatted | internal/letta/letta.go:144-161 | the rendering is "" exactly for an empty block list; otherwise it starts with the fixed header and ends with the footer "--- End Memory Context ---\n" |
| MemoryFormat.FormatMemoryForInjection | cmd/letta-server/main.go:160-177 | the string-builder loop produces exactly the rendering `Formatted` |
| MemoryFormat.SectionsAppend | internal/letta/letta.go:153-157 | the block sections of a concatenated list are the sections of each part, in order |
| MemoryFormat.FormattedInOrder | internal/letta/letta.go:150-159 | blocks appear between header and footer in input order |
| MemoryFormat.FormattedSkipsEmptyValue | internal/letta/letta.go:154-156 | a block with an empty value contributes nothing: removing it does not change the rendering as long as another block remains |
| MemoryFormat.FormattedAllValuesEmpty | internal/letta/letta.go:145-160 | a non-empty list whose values are all empty still renders as header plus footer |
| MemoryClient.LoadConfigFromEnv | internal/letta/letta.go:173-187 | enabled exactly when LETTA_ENABLED is "true"; server URL defaults to "http://localhost:8283" and is never empty; agent id taken as given; timeout 300 |
| MemoryClient.NewClient | internal/letta/letta.go:41-52 | the client keeps the configuration; its timeout is never zero; 0 ms gives the 300 ms default; any timeout whose nanosecond count fits in 64 bits is taken in milliseconds |
| MemoryClient.NewClientWrapsToDefault | internal/letta/letta.go:42-45 | a configured 2^58 ms overflows the 64-bit nanosecond product to zero and falls back to 300 ms |
| MemoryClient.InstalledClient | internal/letta/letta.go:195-207 | a client is installed exactly when the configuration is enabled, and it is `NewClient` of that configuration (the binary's `main` does the same at cmd/letta-server/main.go:373-381) |
| MemoryClient.ParseBlocks | internal/letta/letta.go:89-98 | one block per element of `memory.blocks`, in order, with a missing label or value read as "" |
| MemoryClient.FetchedBlocks | internal/letta/letta.go:61-100 | disabled or no agent: no blocks and no error; otherwise an error exactly for a transport failure, a non-200 status or an unreadable body; a 200 answer gives the parsed blocks, none when `memory.blocks` is not an array |
| MemoryClient.DisabledFetchIgnoresService | cmd/letta-server/main.go:78-81 | a disabled client's fetch result does not depend on anything the service could answer |
| MemoryClient.GetMemory | cmd/letta-server/main.go:78-117 | the checks and the block-appending loop return exactly `FetchedBlocks` |
| MemoryClient.SummaryMessage | internal/letta/letta.go:110-114 | the summary is exactly "[Memory Update] User asked: ", the user message truncated to 500 bytes, "\n\nAssistant responded (summary): " and the reply truncated to 1000 bytes; so it is bounded in length, embeds short texts verbatim, and embeds a long user message as its first 500 bytes plus "..." |
| MemoryClient.UpdateMemory | internal/letta/letta.go:104-121 | no request when disabled or without agent; otherwise a one-element message list with role "user" whose content is the summary |
| Injector.FirstSystem | internal/letta/letta.go:306-313 | the index of the first message whose role is "system", -1 exactly when there is none |
| Injector.FindSystemIndex | cmd/letta-server/main.go:303-310 | the search loop with `break` finds that index |
| Injector.WithMemory | internal/letta/letta.go:315-334 | with a system message only the first one changes: its content becomes the old content (missing counts as "") plus the memory, the length and every other message stay; without one the result is a new system message "You are an AI assistant." plus the memory, followed by the original messages in order |
| Injector.SetMessageContent | internal/letta/letta.go:318-320 | rewriting `messages.<i>.content` succeeds exactly on a rewritable body and changes only that field |
| Injector.SetMessages | internal/letta/letta.go:333 | rewriting `messages` succeeds exactly on a rewritable body and keeps the other fields |
| Injector.PrependMessage | cmd/letta-server/main.go:324-330 | the `newMessages` loop yields the new message followed by all existing messages in order |
| Injector.Injected | internal/letta/letta.go:283-342 | fields other than `messages` are never altered; a disabled client or one without agent leaves the body unchanged; when the fetch yields blocks, `messages` is an array and the rewrite succeeds, `messages` becomes the merge `WithMemory` of the old messages and the rendered blocks |
| Injector.InjectMemoryIntoRequest | cmd/letta-server/main.go:280-339 | the step-by-step injector returns exactly `Injected` |
| Injector.InjectedUnchangedIff | internal/letta/letta.go:288-338 | the body comes back unchanged exactly when the fetch fails, yields no blocks, `messages` is not an array, or the rewrite fails |
| Injector.InjectionKeepsUserMessage | cmd/letta-server/main.go:231-238 | injection never changes the request's last user message, so reading it from the original body gives the same text |
| Injector.MemoryLandsInFirstSystem | internal/letta/letta.go:306-334 | after injection the first system message is the old first one (or the new one at index 0) and its content ends with the memory |
| Capture.FlattenEmptyIff | cmd/letta-server/main.go:252 | the captured buffer is empty exactly when every write was empty |
| Capture.ResponseCapture.constructor | cmd/letta-server/main.go:242-246 | a fresh capture has an empty buffer and has forwarded nothing |
| Capture.ResponseCapture.Write | cmd/letta-server/main.go:274-277 | the data is appended to the buffer and forwarded once to the wrapped writer, whose reply is returned unchanged |
| Capture.WriteChunks | internal/letta/letta.go:245-252 | after the handler's `Write` calls the buffer is the concatenation of all their chunks in order, and the wrapped writer received each chunk in order |
| Middleware.MemoryInjectionMiddleware | cmd/letta-server/main.go:208-266 | pass-through exactly when the path lacks "/chat/completions", the client is nil or disabled, or the body cannot be read; otherwise the forwarded body is the injector's output with its own length as ContentLength, the user message comes from the original body, the buffer holds every chunk the handler passed to `Write`, and an update is dispatched, with that message and buffer, exactly when both are non-empty |
| Middleware.UpdateTask | cmd/letta-server/main.go:253-263 | the detached task sends an update exactly when the assistant text is non-empty and the client is enabled with an agent, and then sends `UpdateMemory` of the user message and that text; a response whose first choice has no `message` content sends nothing, which covers a streamed response read as its first chunk |
| Server.ResolveConfigPath | cmd/letta-server/main.go:385-397 | a non-empty CONFIG_PATH wins; otherwise the scan of the arguments decides |
| Server.FirstConfigFlagWins | cmd/letta-server/main.go:386-394 | the first `--config <v>` or `--config=<v>` decides the path, whatever follows |
| Server.NoConfigFlagGivesDefault | cmd/letta-server/main.go:385 | without a configuration flag the path is "config.yaml" |
| Server.TrailingBareFlagIgnored | cmd/letta-server/main.go:387 | a bare `--config` as the last argument is ignored |
| Server.PortOrDefault | cmd/letta-server/main.go:420-422 | an unset port (0) becomes 8317, a set port is kept, so it is never 0 afterwards |
| Server.AuthDirOrDefault | cmd/letta-server/main.go:423-425 | an unset auth directory ("") becomes "~/.cli-proxy-api", a set one is kept, so it is never empty afterwards |
| Server.ProxyConfig.ApplyDefaults | cmd/letta-server/main.go:419-425 | the two fields are replaced by their defaulted values and nothing else changes |

## Left out

- The HTTP transport is not modelled: building and sending requests, URLs, headers, closing bodies. The fetch's result is an input, and the update is the request that would be sent.
- UpdateMemory: returns the request it would send. It does not model the transport or marshalling errors that the caller only logs.
- The 300 ms query context and the 5 s background context are wall-clock behaviour. A fetch that times out is the input `TransportFailed`.
- The goroutine is left out; the model records only the decision to dispatch and its arguments. Concurrency between update tasks and the unused `sync.RWMutex` fields are left out too.
- gin plumbing is left out: `c.Next`, `c.Set`, swapping `c.Writer`, and the status and headers of the response. So is the request stream left behind after a failed read.
- Byte-level JSON is left out:
  - reading the captured bytes into a `ResponseBody` (Middleware.UpdateTask receives the parsed response);
  - serialising a body (its byte length is the parameter `encodedLength` of Middleware.MemoryInjectionMiddleware);
  - re-serialising the existing messages when a system message is prepended;
  - key order;
  - `.String()` turning non-string JSON (numbers, arrays of content parts) into text. Role and content are optional strings.
- The captured bytes of a streamed response are SSE `data:` lines. The JSON reader takes the first chunk, so the model gives such a response a `choices` list whose first element has no content. The SSE framing itself is not modelled.
- gjson also resolves `choices.0` on an object with a key "0". The model only follows an array.
- Capture.WriteChunks: the handler is the list of its `Write` calls only. `responseCapture` overrides only `Write`, so output sent through the `WriteString` promoted from the embedded `gin.ResponseWriter` reaches the client but not the capture buffer; the model does not represent that path.
- Text.Truncate: cuts by bytes, as the source does, and may cut a multi-byte UTF-8 character in half. Character encodings are not modelled.
- Reading environment variables and command-line arguments is left out; their values are parameters.
- Logging to stdout and stderr is left out.
- The rest of `main` is process set-up and is left out: loading and creating the config file, the token store, the auth manager, building and running the service, signal handling.
