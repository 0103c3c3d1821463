# coderunner-ui core, modelled in Dafny

This project models the server-side core of coderunner-ui. The UI talks to four pieces of code through a container named `coderunner`. Each is modelled and then proved correct against its own contract:

- **The PTY bridge** (`mcp/pty-server.mjs`), in module `PtyServer`.
  - It spawns one `container exec … bash -l` child and fans its output out to every open WebSocket client.
  - It falls back to a second argument list when the primary child is gone after 250 ms.
  - It closes every client when the child exits.
  - It routes incoming frames: JSON `resize` and `input` envelopes, or raw text and bytes.
  - It serves `POST /input` (to the child) and `POST /write` (to the clients).
  - `class Bridge` holds the module-level state (`currentPty`, the `clients` set in insertion order, each client's ready state) and a trace of every effect: spawns, PTY writes, resizes, sends and closes.
  - Each event handler is modelled as one method that runs to completion.
  - The frame classifier is the pure function `Classify`.
- **The MCP shell-session server** (`mcp/mcp-shell-session.mjs`).
  - `McpFraming`: the `Content-Length` framing. It contains:
    - the stdin reader loop, as `class StdinReader` over a byte buffer, proved against the function `Drain`;
    - `send`;
    - their round trip.
  - `McpShell`, which contains:
    - `shq` and its inverse as the shell reads it;
    - the container commands the tools emit, as a `Command` datatype and its text;
    - the `lines` clamp;
    - the four tools and JSON-RPC dispatch, in `class Session`. Its `issued` list records every container command and its `sent` list every reply.
- **The MCP event ring** (`lib/mcpEvents.ts`), in module `McpEvents`. `class EventRing` keeps the last 200 events and is proved equal to the last 200 of everything pushed.
- **The Next.js routes and model-list helpers**, each in its own module:
  - `ChatProxy` (`app/api/chat-proxy/route.ts`): message sanitising, model and key precedence, forwarded headers.
  - `ChatRoute` (`app/api/chat/route.ts`): model precedence, the missing-key guard, the provider switch as a datatype, the MCP server command line.
  - `ModelState` (`app/api/model-state/route.ts`).
  - `ModelsRoute` (`app/api/models/route.ts`).
  - `LmsModels` (`lib/lmsModels.ts`).
  - `ModelOptions` (`modelOptions.ts`).

Two modules hold shared helpers:
- `JsText`: `Option`/`Result`, JavaScript's `||` on strings, `process.env` lookups, `trim`, decimal rendering, `split(" ").filter(Boolean)`.
- `Utf8`: UTF-8 encoding and `Buffer.byteLength`.

Some things the core calls but does not define become parameters:
- JSON parsing and UTF-8 decoding are oracle functions.
- `fetch` is a function from URL to answer.
- The container shell is a function from a command's position and text to its outcome.
- `Date.now()` and `rid()` are plain parameters.

## Model

| member | source | states |
|---|---|---|
| JsText.Or | app/api/chat-proxy/route.ts:36-40 | `a \|\| b` on strings: `a` unless it is empty, else `b` |
| JsText.EnvGet | app/api/chat/route.ts:195-199 | `process.env.K \|\| ""`: an unset variable reads as the empty string |
| JsText.TrimStart | mcp/mcp-shell-session.mjs:88 | the result is a suffix, starts with a non-whitespace character or is empty, and only whitespace was removed |
| JsText.TrimEnd | mcp/mcp-shell-session.mjs:88 | the result is a prefix, ends with a non-whitespace character or is empty, and only whitespace was removed |
| JsText.Trim | app/api/chat-proxy/route.ts:21 | the result is no longer than the input and has no whitespace at either end |
| JsText.TrimIsInfix | app/api/chat-proxy/route.ts:21 | the result is one contiguous piece of the input, starting where the leading whitespace ends |
| JsText.TrimCutsBlank | app/api/chat-proxy/route.ts:21 | everything cut before and after that piece is whitespace |
| JsText.TrimEmptyIffBlank | app/api/chat-proxy/route.ts:21 | `s.trim() !== ""` exactly when `s` has a non-whitespace character |
| JsText.NatToDecimal | app/api/model-state/route.ts:28 | `${n}`: at least one digit, all digits, no leading zero |
| JsText.DecimalRoundTrip | mcp/mcp-shell-session.mjs:30 | `parseInt` of the decimal rendering of `n` is `n` |
| JsText.Words | mcp/pty-server.mjs:17-19 | `split(" ").filter(Boolean)` yields only non-empty words without spaces |
| JsText.WordsSqueeze | mcp/pty-server.mjs:17-19 | the words joined by single spaces are the input with every run of spaces made one and the spaces at both ends dropped, read character by character; with WordsOfJoin this fixes the words exactly |
| JsText.WordsOfJoin | mcp/pty-server.mjs:17-19 | splitting words joined by single spaces gives back exactly those words |
| JsText.JoinAppend | mcp/mcp-shell-session.mjs:106 | `join(" ")` of two non-empty lists is the two joins separated by one space |
| Utf8.EncodeChar | mcp/pty-server.mjs:107 | one character encodes to 1 to 4 bytes, ASCII exactly as itself, with continuation bytes in 0x80..0xBF |
| Utf8.ByteLength | mcp/pty-server.mjs:66 | `Buffer.byteLength(text, "utf8")` is the length of the encoding, between `\|s\|` and `4\|s\|` |
| Utf8.EncodeAppend | mcp/pty-server.mjs:107 | encoding distributes over concatenation |
| Utf8.EncodeAscii | mcp/mcp-shell-session.mjs:46 | ASCII text encodes byte for byte |
| Utf8.FirstByteBrace | mcp/pty-server.mjs:176 | the encoding starts with byte 123 exactly when the text starts with `{` |
| PtyServer.ConfigFrom | mcp/pty-server.mjs:16-22 | `CONTAINER_BIN` when set, else `container`; each argument list is the split of its variable when set, else of its default; all arguments are non-empty space-free words |
| PtyServer.DefaultConfig | mcp/pty-server.mjs:16-22 | with no environment, the binary is `container` and the two argument lists are the default six and five words |
| PtyServer.DefaultPrimaryWords | mcp/pty-server.mjs:17-19 | the primary default splits into `exec --interactive --tty coderunner bash -l` |
| PtyServer.DefaultFallbackWords | mcp/pty-server.mjs:20-22 | the fallback default splits into `exec --tty coderunner bash -l` |
| PtyServer.Without | mcp/pty-server.mjs:200-202 | `clients.delete(ws)`: exactly the other members remain, still distinct; absent clients change nothing |
| PtyServer.WithoutRemovesEntry | mcp/pty-server.mjs:200-202 | deleting a member removes its one entry and keeps the others in insertion order |
| PtyServer.Fanout | mcp/pty-server.mjs:106-111 | every send goes to a member in OPEN state with the chunk's bytes, and every OPEN member gets one |
| PtyServer.CloseAll | mcp/pty-server.mjs:116-118 | one `close(1000, "shell-exit")` per client, in set order |
| PtyServer.ReceivedAppend | mcp/pty-server.mjs:106-111 | what a client received over two trace segments is the first segment's chunks followed by the second's |
| PtyServer.FanoutReceived | mcp/pty-server.mjs:106-111 | one fan-out delivers the chunk exactly once to an OPEN member and nothing to anyone else |
| PtyServer.FanoutKeepsOrder | mcp/pty-server.mjs:106-111 | a later chunk is appended after everything a client received before: chunks arrive in production order |
| PtyServer.Dimension | mcp/pty-server.mjs:159-160 | `Number(msg.cols \|\| 80)`: a missing or falsy field gives the default, a truthy one its own number |
| PtyServer.ResizeAction | mcp/pty-server.mjs:158-163 | a resize envelope never writes, and resizes exactly when both dimensions are finite |
| PtyServer.Classify | mcp/pty-server.mjs:151-197 | a write carries the envelope's `data` or the raw frame; a resize comes only from a parsed resize envelope and is exactly the resize its fields give |
| PtyServer.InputEnvelopeWrites | mcp/pty-server.mjs:164-188 | an `input` envelope with string `data` writes that string, on the text path and on the binary path |
| PtyServer.OtherJsonWritesRaw | mcp/pty-server.mjs:164-194 | a parsed value that is neither a resize nor an input with string `data` is written as the raw text |
| PtyServer.BinaryWithoutBraceWritesRaw | mcp/pty-server.mjs:174-194 | a binary frame whose first byte is not `{` is decoded and written without parsing |
| PtyServer.TextParseFailureWritesNothing | mcp/pty-server.mjs:156-157 | a text frame that starts with `{` but is not JSON writes nothing (the outer `catch` swallows it) |
| PtyServer.BinaryParseFailureWritesRaw | mcp/pty-server.mjs:175-194 | a binary frame that is not JSON falls through to a raw write of its decoded text |
| PtyServer.ResizeEnvelopeNeverWrites | mcp/pty-server.mjs:158-163 | on either path a resize envelope results in the resize action and never a write |
| PtyServer.PlainTextWritesRaw | mcp/pty-server.mjs:169-171 | a text frame not starting with `{` is written as is |
| PtyServer.PathsAgreeOnJson | mcp/pty-server.mjs:154-189 | a JSON message classifies the same whether it arrives as text or as its UTF-8 bytes |
| PtyServer.Bridge.constructor | mcp/pty-server.mjs:93-94 | no PTY, no clients, no timers, an empty trace |
| PtyServer.Bridge.StartPty | mcp/pty-server.mjs:96-104 | spawns one child at 80x24 with the configured binary and arguments, records it, and changes nothing else |
| PtyServer.Bridge.SendToOpenClients | mcp/pty-server.mjs:205-210 | `broadcast`: appends the fan-out of the bytes to the trace and touches neither PTY nor client set |
| PtyServer.Bridge.Connect | mcp/pty-server.mjs:136-149 | the client is added; a primary child and a fallback timer are started only when there is no PTY |
| PtyServer.Bridge.FallbackTimerFires | mcp/pty-server.mjs:143-148 | spawns the fallback child (one more spawn) only when there is no PTY at that moment, else does nothing |
| PtyServer.Bridge.ClientClosed | mcp/pty-server.mjs:200-202 | removes exactly that client and nothing else |
| PtyServer.Bridge.TransportChanges | mcp/pty-server.mjs:109 | a client's ready state changes underneath the bridge; nothing else changes |
| PtyServer.Bridge.PtyData | mcp/pty-server.mjs:106-111 | a chunk of output from any child ever spawned is sent as UTF-8 to exactly the OPEN clients, in set order |
| PtyServer.Bridge.PtyExit | mcp/pty-server.mjs:113-119 | `currentPty` becomes null, every client gets `close(1000, "shell-exit")`, the set is emptied |
| PtyServer.Bridge.CloseEveryClient | mcp/pty-server.mjs:116-118 | appends one close per client to the trace |
| PtyServer.Bridge.OnMessage | mcp/pty-server.mjs:151-198 | with no PTY a frame is ignored; otherwise exactly the classifier's action reaches the current child |
| PtyServer.Bridge.HandleHttp | mcp/pty-server.mjs:37-89 | 400 without a URL; the info page; `/input` answers 503 `no PTY` without a child, else writes the text (or `""`) and reports its UTF-8 length; `/write` broadcasts and reports the length even with no PTY; 400 on a malformed body; 404 otherwise |
| PtyServer.FirstChunkShared | mcp/pty-server.mjs:106-111 | after a single spawn, the first output chunk is all that each OPEN client has received |
| PtyServer.TwoClientsShareOneChild | mcp/pty-server.mjs:136-142 | two clients connecting one after the other share one primary child and are both OPEN members |
| McpFraming.IndexFrom | mcp/mcp-shell-session.mjs:21 | `buf.indexOf`: the first match at or after the start, or none anywhere |
| McpFraming.FirstOccurrence | mcp/mcp-shell-session.mjs:21 | a match with no earlier match is what `indexOf` returns |
| McpFraming.HeaderEnd | mcp/mcp-shell-session.mjs:21-22 | a found `\r\n\r\n` lies wholly inside the buffer |
| McpFraming.NextTurn | mcp/mcp-shell-session.mjs:20-34 | every turn that does not break removes a non-empty prefix; a taken body is the slice just before what remains |
| McpFraming.Drain | mcp/mcp-shell-session.mjs:18-41 | the loop never grows the buffer |
| McpFraming.DrainBreaks | mcp/mcp-shell-session.mjs:21-32 | no blank line, or a body not fully arrived: the loop breaks with the buffer unchanged and nothing dispatched; a header without a match drops exactly `headerEnd + 4` bytes |
| McpFraming.DrainStops | mcp/mcp-shell-session.mjs:20-32 | the loop only stops at a buffer that holds no further complete frame or droppable header |
| McpFraming.DrainRestIsTail | mcp/mcp-shell-session.mjs:27-34 | what remains is the unread tail of the buffer |
| McpFraming.ParseAll | mcp/mcp-shell-session.mjs:35-40 | bodies `JSON.parse` rejects are skipped; no more messages than bodies |
| McpFraming.ParseAllOne | mcp/mcp-shell-session.mjs:35-40 | one body gives exactly its parsed message when `JSON.parse` accepts it, and nothing when it throws |
| McpFraming.ParseAllAppend | mcp/mcp-shell-session.mjs:35-40 | messages of consecutive bodies come out in order |
| McpFraming.StdinReader.constructor | mcp/mcp-shell-session.mjs:16 | the buffer starts empty |
| McpFraming.StdinReader.OnData | mcp/mcp-shell-session.mjs:18-42 | after a chunk, the buffer is what `Drain` leaves of old buffer plus chunk, and the dispatched messages are the parsed bodies in order |
| McpFraming.DigitBytes | mcp/mcp-shell-session.mjs:46 | the ASCII bytes of the decimal length |
| McpFraming.FrameHeader | mcp/mcp-shell-session.mjs:46 | the header is 20 bytes plus the digits |
| McpFraming.Send | mcp/mcp-shell-session.mjs:44-49 | header with the UTF-8 byte length of the JSON text, then its UTF-8 bytes |
| McpFraming.HeaderIsUtf8 | mcp/mcp-shell-session.mjs:46 | the byte header is the UTF-8 encoding of the template string |
| McpFraming.HeaderEndOfFrame | mcp/mcp-shell-session.mjs:21-46 | in a frame `send` wrote, the blank line is found right after the digits |
| McpFraming.LengthOfHeader | mcp/mcp-shell-session.mjs:24-30 | the regular expression reads back exactly the length `send` wrote |
| McpFraming.ReadDigitsValue | mcp/mcp-shell-session.mjs:30 | reading a run of digit bytes yields the decimal value of those digits |
| McpFraming.FrameTurn | mcp/mcp-shell-session.mjs:18-34 | one loop turn over a written frame takes exactly its body and leaves what follows |
| McpFraming.SendThenDrain | mcp/mcp-shell-session.mjs:44-49 | round trip: the reader dispatches exactly the sent JSON text first, then whatever the rest yields; with nothing after, the buffer is left empty |
| McpFraming.HeaderEndExtend | mcp/mcp-shell-session.mjs:21 | more bytes arriving do not move a blank line already found |
| McpFraming.SkipExtend | mcp/mcp-shell-session.mjs:24-29 | a dropped header is dropped the same way when more bytes have arrived |
| McpFraming.TakeExtend | mcp/mcp-shell-session.mjs:30-34 | a complete frame is taken the same way when more bytes have arrived |
| McpFraming.DrainChunks | mcp/mcp-shell-session.mjs:18-42 | feeding two chunks one after the other dispatches the same bodies and leaves the same buffer as feeding them at once |
| McpShell.ShqLength | mcp/mcp-shell-session.mjs:57-59 | `\|shq(s)\| == \|s\| + 2 + 3·(number of ')` |
| McpShell.EscapeLength | mcp/mcp-shell-session.mjs:58 | each `'` grows by three characters, everything else is kept |
| McpShell.QuoteFrom | mcp/mcp-shell-session.mjs:58 | the first `'` at or after a position, or none |
| McpShell.ShqRoundTrip | mcp/mcp-shell-session.mjs:57-59 | the shell's reading of `shq(s)` as one word is exactly `s` |
| McpShell.UnquoteEscaped | mcp/mcp-shell-session.mjs:58 | a quoted run followed by an escaped string reads back as the run followed by the string |
| McpShell.WrapFrom | mcp/mcp-shell-session.mjs:53-54 | `MCP_SHELL_EXEC_WRAPPER` when set, else the default wrapper; never empty |
| McpShell.ShqAll | mcp/mcp-shell-session.mjs:106 | `keys.map(shq)` element by element |
| McpShell.CommandLineCarriesText | mcp/mcp-shell-session.mjs:62-64 | the command line is the wrapper, a space, and one word the shell reads back as exactly the command's text |
| McpShell.JsMin | mcp/mcp-shell-session.mjs:116 | `Math.min`: NaN if either is; otherwise one of the two and at most both, so `-Infinity` wins and `+Infinity` yields the other operand; the smaller of two finite numbers |
| McpShell.JsMax | mcp/mcp-shell-session.mjs:116 | `Math.max`: NaN if either is; otherwise one of the two and at least both, so `+Infinity` wins and `-Infinity` yields the other operand; the larger of two finite numbers |
| McpShell.LinesToRead | mcp/mcp-shell-session.mjs:116 | always in 1..5000; 1000 when `lines` is missing, 0 or NaN; in-range values kept; clamped at both ends |
| McpShell.SessionName | mcp/mcp-shell-session.mjs:88 | a non-blank given name is kept, else `sess_` + rid; never blank |
| McpShell.ErrorText | mcp/mcp-shell-session.mjs:220 | `e.message \|\| String(e)`: never empty |
| McpShell.AnsweredCount | mcp/mcp-shell-session.mjs:180-230 | the number of messages that get a reply: those with a handled method or an id, counted index by index |
| McpShell.RequestsAnswered | mcp/mcp-shell-session.mjs:226-229 | every message that has an id gets a reply |
| McpShell.Session.constructor | mcp/mcp-shell-session.mjs:53-67 | the wrapper from the environment; tmux not yet ensured; nothing issued or sent |
| McpShell.Session.RunInContainer | mcp/mcp-shell-session.mjs:62-65 | issues one command and returns the container's outcome for it |
| McpShell.Session.EnsureTmux | mcp/mcp-shell-session.mjs:67-76 | probes once; installs only when the probe fails; the flag is set exactly when no error remains |
| McpShell.Session.Open | mcp/mcp-shell-session.mjs:86-92 | runs `OpenRun`: ensures tmux, then opens the named or generated session, answering its name twice; tmux counts as set up exactly when setup did not fail |
| McpShell.Session.SendKeys | mcp/mcp-shell-session.mjs:95-110 | runs `SendRun`: `sessionId required` without an id; the text command only for non-empty text, the keys command only for a non-empty list, stopping at the first failure |
| McpShell.Session.ReadPane | mcp/mcp-shell-session.mjs:113-119 | runs `ReadRun`: `sessionId required` without an id; else captures the clamped number of lines and answers the output |
| McpShell.Session.Close | mcp/mcp-shell-session.mjs:122-127 | runs `CloseRun`: `sessionId required` without an id; else kills the session |
| McpShell.ToolRun | mcp/mcp-shell-session.mjs:203-214 | each tool name runs that tool's commands; any other name is `Unknown tool: <name>` with nothing issued; send, read and close refuse a missing id; errors are never empty; only a known tool succeeds |
| McpShell.CallReply | mcp/mcp-shell-session.mjs:215-221 | a tool result becomes a text result, a thrown error a -32000 error with its message |
| McpShell.Session.CallTool | mcp/mcp-shell-session.mjs:203-214 | the commands issued and the answer are exactly those of `ToolRun` for the name; tmux setup changes only through `shell.open` |
| McpShell.Session.HandleMessage | mcp/mcp-shell-session.mjs:180-230 | `initialize` and `tools/list` answered with their fixed results; `tools/call` issues the named tool's commands and answers `CallReply` of its outcome with the same id, and tmux counts as set up after `shell.open` exactly when its setup did not fail, unchanged after any other tool; other methods with an id get `result: null`; no id, no reply |
| McpShell.Session.HandleAll | mcp/mcp-shell-session.mjs:35-40 | each parsed message is handled in turn; earlier replies are kept, one more per answered message |
| McpShell.Session.OnStdin | mcp/mcp-shell-session.mjs:18-42 | a stdin chunk leaves the reader's buffer as `Drain` does and answers every dispatched message that has an id |
| McpShell.TmuxSetup | mcp/mcp-shell-session.mjs:68-75 | nothing once ensured; else the probe alone when it succeeds, and the probe then the install when it fails |
| McpShell.SetupError | mcp/mcp-shell-session.mjs:70-74 | an error exactly when both probe and install fail |
| McpShell.SendCommands | mcp/mcp-shell-session.mjs:99-108 | the text command is planned iff the text is non-empty, the keys command iff the list is non-empty |
| McpShell.RunUntilFailure | mcp/mcp-shell-session.mjs:99-108 | the issued commands are a prefix of the plan, all succeeding except possibly the last, which fails when the run is cut short |
| McpShell.FirstFailure | mcp/mcp-shell-session.mjs:99-109 | no error exactly when every planned command succeeds |
| McpShell.CalledTool | mcp/mcp-shell-session.mjs:204 | the `name` of the params, none without params |
| McpEvents.Stamp | lib/mcpEvents.ts:16 | the caller's fields are kept and the caller's `ts` overrides `Date.now()` |
| McpEvents.LastN | lib/mcpEvents.ts:28 | `slice(-n)`: the last `min(n, length)` elements |
| McpEvents.PushCapped | lib/mcpEvents.ts:17-18 | never above 200; the item is last; below the cap the length grows by one, at the cap only the oldest goes |
| McpEvents.PushKeepsLatest | lib/mcpEvents.ts:15-18 | pushing onto the last 200 of a history gives the last 200 of the longer history |
| McpEvents.PushAllKeepsLatest | lib/mcpEvents.ts:15-18 | the same for any number of pushes |
| McpEvents.PushAll | lib/mcpEvents.ts:15-18 | a run of pushes stays within 200 |
| McpEvents.EventRing.constructor | lib/mcpEvents.ts:12-13 | the ring starts empty |
| McpEvents.EventRing.Push | lib/mcpEvents.ts:15-20 | stamps the event, appends it to the history and updates the ring as `PushCapped` |
| McpEvents.EventRing.Dump | lib/mcpEvents.ts:27-29 | returns the whole ring, which is the last 200 events ever pushed |
| ChatProxy.SomeShows | app/api/chat-proxy/route.ts:18-22 | `parts.some(...)`: true iff some part is a tool call or has non-blank text |
| ChatProxy.KeepAssistant | app/api/chat-proxy/route.ts:16-22 | an assistant message is kept iff its content is an array with a tool call or a part whose text is non-empty after trim |
| ChatProxy.Sanitize | app/api/chat-proxy/route.ts:14-24 | every kept message passes the filter; no message is added |
| ChatProxy.SanitizeIsSubsequence | app/api/chat-proxy/route.ts:15 | the result is an order-preserving subsequence of the input |
| ChatProxy.SanitizeCounts | app/api/chat-proxy/route.ts:15-23 | each message the filter accepts keeps all its occurrences (non-assistant messages always) and each it rejects loses all of them |
| ChatProxy.SanitizeIdempotent | app/api/chat-proxy/route.ts:15 | filtering twice equals filtering once |
| ChatProxy.SanitizeBody | app/api/chat-proxy/route.ts:14-24 | only an array `messages` is filtered; the rest of the body is untouched |
| ChatProxy.ProxyModel | app/api/chat-proxy/route.ts:36-40 | first non-empty of cookie, query, `DEFAULT_SELECTED_MODEL`, the Mistral default |
| ChatProxy.KeyVariables | app/api/chat-proxy/route.ts:46-57 | which variables the model's prefix consults: OpenAI, Anthropic, the three Google names in order, or none |
| ChatProxy.FirstSet | app/api/chat-proxy/route.ts:52-56 | empty exactly when every variable is unset |
| ChatProxy.FirstSetIsFirst | app/api/chat-proxy/route.ts:52-56 | a non-empty result is the value of the first set variable |
| ChatProxy.ProxyKey | app/api/chat-proxy/route.ts:43-59 | a non-empty header is used unchanged whatever the model; else the first set variable for the prefix |
| ChatProxy.UnkeyedProviders | app/api/chat-proxy/route.ts:45-58 | Ollama, LM Studio and other models get only the header's key |
| ChatProxy.GoogleKeyOrder | app/api/chat-proxy/route.ts:50-56 | for `google_genai/` the three variables are tried in the order written |
| ChatProxy.ForwardHeaders | app/api/chat-proxy/route.ts:68-72 | always JSON content type and `X-Selected-Model`; `X-API-Key` iff the key is non-empty |
| ChatProxy.BaseUrl | app/api/chat-proxy/route.ts:61 | `NEXT_PUBLIC_BASE_URL` when set, else `http://localhost:3000` |
| ChatProxy.Forward | app/api/chat-proxy/route.ts:66-74 | posts the sanitised body to `<base>/api/chat` with the resolved model and key headers |
| ChatProxy.ResponseHeaders | app/api/chat-proxy/route.ts:77-84 | upstream content type or `application/json`, upstream cache control or `no-cache` |
| ChatRoute.RouteModel | app/api/chat/route.ts:195-199 | first non-empty of header, cookie, `DEFAULT_SELECTED_MODEL`, `google_genai/gemini-2.5-flash` |
| ChatRoute.CaseAt | app/api/chat/route.ts:99-178 | the nineteen `switch` cases; the first eight are Ollama, the two Gemini cases Google |
| ChatRoute.FindCase | app/api/chat/route.ts:98-182 | the first case whose label equals the model, or none |
| ChatRoute.SelectModelProvider | app/api/chat/route.ts:83-183 | `lmstudio/` models always go to LM Studio before the switch; otherwise `Unsupported model: <model>` iff no case matches; a case gives its provider and id; hosted providers get the key |
| ChatRoute.ProviderOf | app/api/chat/route.ts:99-178 | Ollama cases stream simulated; each provider gets the case's model id; hosted ones the key |
| ChatRoute.LmStudioSettings | app/api/chat/route.ts:85-94 | `lmstudio/X` selects model `X`, base `LMS_API_BASE \|\| NEXT_PUBLIC_LMS_API_BASE \|\| default`, key `apiKey \|\| LMS_API_KEY \|\| "lmstudio"` |
| ChatRoute.OllamaSimulatesStreaming | app/api/chat/route.ts:99-130 | every Ollama selection simulates streaming and passes the model without `ollama/`, or whole |
| ChatRoute.OllamaCaseIds | app/api/chat/route.ts:99-130 | each Ollama case's id is its label minus `ollama/`, or the whole label |
| ChatRoute.GoogleModelIds | app/api/chat/route.ts:166-173 | a Google selection of `google_genai/X` asks for `models/X` |
| ChatRoute.Route | app/api/chat/route.ts:187-216 | `Missing API-Key` exactly when there is no key and the model is neither `ollama/` nor `lmstudio/`; otherwise the answer is `Unsupported` exactly when provider selection fails, and streams with the selected provider; unsupported models report the model; LM Studio always streams |
| ChatRoute.GemmaNeedsKey | app/api/chat/route.ts:123-208 | `orieg/gemma3-tools:4b` is refused without a key although Ollama serves it, and served with one |
| ChatRoute.ResolveFilesystemCmd | app/api/chat/route.ts:23-39 | `MCP_FILESYSTEM_CMD` when set; else the node binary iff `MCP_PREFER_NODE_BIN` is `"1"`, else the Go binary |
| ChatRoute.FilesystemArgs | app/api/chat/route.ts:45-50 | the assets directory (overridable) and the host's `.coderunner/assets` |
| ChatRoute.CoderunnerUrl | app/api/chat/route.ts:63-66 | `CODERUNNER_MCP_URL`, else `NEXT_PUBLIC_CODERUNNER_MCP_URL`, else `http://localhost:8222/mcp` |
| LmsModels.StripV1 | lib/lmsModels.ts:11 | `replace(/\/v1$/, "")`: one trailing `/v1` removed, anything else unchanged |
| LmsModels.StripOneV1 | lib/lmsModels.ts:11 | only one `/v1` goes: stripping undoes exactly one appended `/v1` |
| LmsModels.RouteLmsBase | app/api/models/route.ts:4-7 | `NEXT_PUBLIC_LMS_API_BASE`, else `LMS_API_BASE`, else `http://localhost:1234`, without its trailing `/v1` |
| LmsModels.ToRest | lib/lmsModels.ts:20-25 | each record copies `id`, `state`, `family`, `size_bytes`, `context_length` |
| LmsModels.RestModels | lib/lmsModels.ts:20-26 | no longer than the input; every kept record has an id |
| LmsModels.KeptFrom | lib/lmsModels.ts:26 | exactly the positions with a truthy id, in increasing order |
| LmsModels.RestModelsKeepsIds | lib/lmsModels.ts:20-26 | the `i`-th record is the copy of the `i`-th entry with an id: the filter keeps exactly those, in order |
| LmsModels.ListLmsModelsRest | lib/lmsModels.ts:10-27 | throws `NEXT_PUBLIC_LMS_API_BASE not set` for an empty base, the fetch error or the status message on a failed request, the parse error on a bad body; it returns the records (`[]` for a non-array `data`) only after an ok, parsed answer |
| LmsModels.BareV1IsUnset | lib/lmsModels.ts:11-12 | a base of just `/v1` counts as unset |
| LmsModels.FormatLmStudioLabel | lib/lmsModels.ts:29-32 | `id + " • loaded"` iff the state is `loaded`, else `id`; always starts with the id |
| ModelsRoute.Options | app/api/models/route.ts:17-24 | no more options than entries |
| ModelsRoute.OptionsMatchRestModels | app/api/models/route.ts:17-24 | the route's options are the `listLmsModelsRest` records, valued `lmstudio/<id>` and labelled by `formatLmStudioLabel` |
| ModelsRoute.OptionsFromKeptEntries | app/api/models/route.ts:19-21 | one option per entry with an id, in upstream order, valued `lmstudio/<id>` |
| ModelsRoute.Status | app/api/models/route.ts:13-28 | 200 for options, 502 for an upstream failure, 500 for a thrown error |
| ModelsRoute.ModelsGet | app/api/models/route.ts:9-30 | a non-ok answer gives 502, a failure 500, else the options of the `data` array |
| ModelsRoute.NoArrayNoOptions | app/api/models/route.ts:17-24 | a non-array `data` gives `options: []` |
| ModelState.NormalizeId | app/api/model-state/route.ts:22 | one leading `lmstudio/` removed; other ids unchanged |
| ModelState.NormalizeStripsOnce | app/api/model-state/route.ts:22 | only the first `lmstudio/` goes |
| ModelState.FindModel | app/api/model-state/route.ts:34 | `arr.find`: the first entry with that id, or none |
| ModelState.Status | app/api/model-state/route.ts:18-46 | 400 for a missing id, 502 for an upstream failure, 500 for a thrown error, 200 for an unknown or a known model |
| ModelState.Report | app/api/model-state/route.ts:38-44 | the state or `unknown`, missing numbers and family as `null` |
| ModelState.ModelStateGet | app/api/model-state/route.ts:14-48 | an empty id gives 400; 502 on a non-ok answer; `unknown` iff no entry has the id; else the first matching entry's report, and nothing else |
| ModelOptions.StaticOptions | modelOptions.ts:34 | one option per static model, labelled with its own value |
| ModelOptions.LmsOption | modelOptions.ts:39-50 | value `lmstudio/<id>`, the `formatLmStudioLabel` label and the LM Studio meta |
| ModelOptions.LmsOptions | modelOptions.ts:38-51 | one option per LM Studio model, in fetched order |
| ModelOptions.GetAllModelOptions | modelOptions.ts:33-57 | the 19 static options first, then the LM Studio options in order; exactly the static list when the fetch fails |
| ModelOptions.StaticLabelsAreValues | modelOptions.ts:34 | every static option shows its own value |
| ModelOptions.LmsOptionRoutesToLmStudio | modelOptions.ts:39 | an LM Studio option's value routes in `/api/chat` to LM Studio with that model's id |
| ModelOptions.StaticModelsSupported | modelOptions.ts:5-25 | every static model is one of the `/api/chat` switch's cases, so choosing it never ends in `Unsupported model` |

## Left out

- Concurrency: each handler is modelled as one atomic method, and `await` points are not interleaved. This is a modelling choice. The stdin reader calls the async `handleMessage` without awaiting it (mcp/mcp-shell-session.mjs:37), so the tool calls of one chunk can interleave at their `await`s. Their replies can then be sent in another order, and two of them can both probe or install tmux. The PTY bridge's HTTP handler also awaits its request body. The model runs the handlers one after another.
- Timing: the 250 ms fallback delay is modelled as a pending-timer count and an explicit "timer fires" event, with no clock.
- Real I/O is left out. This covers:
  - `node-pty` (spawn, write, resize) and the `container` CLI;
  - the `http` and `ws` servers and the upgrade handshake;
  - `fetch`;
  - `process.stdin`/`stdout`;
  - console logging.

  Each of these is replaced by recorded effects: the bridge's trace, or the session's issued commands and sent replies. The `HOST`/`PORT` settings and the info page's HTML belong here too.
- Oracles: JSON parsing/serialisation, UTF-8 decoding and the container shell are function parameters; `Date.now()` and `rid()` (`Math.random`) are passed in.
- Numbers:
  - JavaScript numbers are integers or NaN/±Infinity; fractional values are not modelled.
  - `parseInt` is modelled only on the digit runs the framing regular expression captures.
- The `\s` of the framing regular expression is matched on header bytes, and only ASCII whitespace (bytes 9 to 13 and 32) counts. A multi-byte Unicode space in a header is not recognised. `trim` uses the full ECMAScript whitespace set.
- Value shapes:
  - A `null` or non-object array element reads like an element without fields.
  - A non-string `data`/`text` is represented as absent.
  - `"arguments": null` in `tools/call` cannot be represented; it reads like absent arguments (`{}`). In the source, `t_open(null)` sets tmux up and then throws a `TypeError` on `args.name`, and the other tools throw on destructuring (mcp/mcp-shell-session.mjs:88-123), so the reply would be a -32000 error.
  - A `sessionId` is a string or absent. A truthy non-string id such as `7` is not representable; the source would quote it as its string form.
  - Strings are sequences of Unicode scalar values, not of UTF-16 code units. Lengths and indices agree with JavaScript's only on text without astral characters.
  - `Buffer.from` of a non-Buffer WebSocket payload is taken as its bytes.
- `path.join` is modelled as concatenation with one `/`, without normalising `..` or double slashes. In the filesystem tool's command, `process.env.HOME || os.homedir()` is `HOME` when set, else a home directory supplied by the host. The PTY child's `cwd` (mcp/pty-server.mjs:102) is not modelled.
- `exec`'s `maxBuffer` limit, and output beyond it, are not modelled.
- The AI SDK and MCP client calls are left out: `createOpenAI`, `createOllama`, `createAnthropic`, `createGoogleGenerativeAI`, `streamText`, `createMCPClient` and the tool lists. The model keeps only the provider chosen, its settings and the routing outcome.
- The chat-proxy response body and its status are passed through unchanged from the upstream answer and are not modelled; only the two headers are.
- The `EventEmitter` subscription (`onMcpEvent`) and the `emit` of each pushed event are left out.
- PtyServer.TwoClientsShareOneChild: it states only the spawn and the client set. That both clients then receive the first chunk is stated separately, by FirstChunkShared.
- McpShell.Session.HandleAll and McpShell.Session.OnStdin state how many replies are sent and that earlier replies are kept. They do not state the reply contents, which HandleMessage gives per message.
- McpShell.Session.Open and SessionName take `args.name` only as a string or absent. The source's `String(args.name)` for non-string names is not modelled.
