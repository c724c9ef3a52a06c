# A verified model of the Gemini WebSocket relay session

`chapter_10/gemini-ws-proxy/index.js` is a WebSocket proxy. For each accepted
client socket it opens one upstream socket to the Gemini Live API. It then
relays messages between the two, with three exceptions:

- it answers `get_weather` tool calls from upstream itself, with a fixed mock
  record;
- it queues client messages that arrive once upstream has opened and then
  stopped being open (those are never drained);
- it propagates socket closes.

This project models the per-connection closure (lines 16–158) as a Dafny
state machine and proves what each event handler sends.

- `js.dfy`, module `Js`. JSON documents (`Json`), JavaScript values that may be
  `undefined` (`Value`), and payloads (`Payload`). A payload is either a JSON
  document or text that `JSON.parse` rejects, so `Parse` is partial and returns
  an `Option`. Also: property reads that throw on `null`/`undefined`
  (`Member`), truthiness (`Truthy`), `for...of` iteration (`Iterate`) and the
  `'setup' in` operator (`SetupIn`). A thrown `TypeError` is the value `Threw`.
  These functions define the JavaScript operations; what the relay relies on
  about them is stated by the contracts and lemmas that use them.
- `envelope.dfy`, module `Envelope`. The client handler's parse-and-check
  (`ClientCheck`). The upstream handler's decision (`RouteUpstream`): relay the
  payload, run the tool loop, or throw.
- `tools.dfy`, module `Tools`. The specification of the tool loop:
  - what one entry of `functionCalls` does (`CallStep`);
  - the responses the loop accumulates (`Responses`);
  - whether it throws (`Fails`);
  - the messages it sends (`ToolSends`, built from `ToolResponse`);
  - lemmas relating these to the input entries.
- `session.dfy`, module `Relay`. Socket ready states and `close()`
  (`AfterClose`), and the class `Session`. Its fields are the two socket
  states, the queue (`messageQueue`), a flag saying whether the client
  `message` listener is installed, and two logs. The logs hold every payload
  passed to `send()` on each socket, in order. The class has one method per
  event: `UpstreamOpen`, `ClientMessage`, `UpstreamMessage`, `ClientClosed`,
  `UpstreamClosed`, `ClientError`, `UpstreamError`. The open handler's drain
  loop is `Drain`. The tool loop is `ToolLoop`, and its body is
  `CallIteration`.
- `scenarios.dfy`, module `Scenarios`. Whole sessions driven event by event,
  with what each socket ends up being sent.

## Where the code departs from its evident intent

The model follows the code as written. Where the code does something other
than what its own comments and guards suggest, the model proves what the
code does.

- **Client messages are never queued before upstream opens.** The comment on
  `messageQueue` (line 25) says it holds messages sent before upstream opens.
  But the client `message` listener is installed only inside the upstream
  `open` handler (line 37). A client message that arrives earlier has no listener, so it is
  lost. `messageQueue` is filled only after `open`, while upstream is closing
  or closed (lines 59–62). `open` fires once, so those messages are never
  drained. `Session.Valid` holds in every reachable state and says:
  - the queue is non-empty only once the listener is installed;
  - the listener is installed only once upstream has left `Connecting`.

  So the drain loop in `UpstreamOpen` always finds the queue empty. See
  `NothingQueuedBeforeOpen`, `EarlyMessageLost` and `QueuedAfterUpstreamClose`.
- **A tool response goes upstream once per `get_weather` call, not once per
  batch.** The upstream send (line 122) is inside the loop. Its guard
  `functionResponses.length > 0` (line 115) only makes sense after the loop:
  inside it, the guard always holds, because a response was just pushed. A
  batch with k weather calls therefore sends k messages to each side, and the j-th message carries the first j responses. Upstream receives
  each earlier response again in every later message. See `ToolSends`,
  `ToolSendsCarryPrefixes` and `TwoWeatherCalls`.
- **A client message that is not JSON is dropped, not forwarded.** This covers
  text that `JSON.parse` rejects, and also a JSON document that is not an
  object or array, because `'setup' in` throws on it. Both go to the `catch` at
  line 55, which sends nothing.
- **Several upstream payloads make the handler throw.** A payload that is not
  JSON, the document `null`, a `functionCalls` that is not iterable, a `null`
  entry, or a `get_weather` entry without `args` all throw. There is no
  fallback. Sends already made by earlier loop iterations stay made.

## Model

| member | source | states |
|---|---|---|
| `Js.ParseStringify` | chapter_10/gemini-ws-proxy/index.js:108-112 | parsing the stringified message gives back the document that was stringified (by definition of the payload abstraction) |
| `Js.TruthyMemberOk` | chapter_10/gemini-ws-proxy/index.js:75-79 | reading `functionCalls` from a truthy `toolCall` cannot throw (by definition of truthiness and of a property read) |
| `Envelope.ClientCheck` | chapter_10/gemini-ws-proxy/index.js:41-58 | the client handler's `try` succeeds exactly when the payload parses to an object or array; it reports whether a top-level `setup` key is present |
| `Envelope.RouteUpstream` | chapter_10/gemini-ws-proxy/index.js:70-129 | a payload goes to the client exactly when it parses to a non-null document whose `setupComplete` is truthy or whose `toolCall` is falsy; the handler throws exactly when the payload does not parse, is `null`, or has a truthy `toolCall` under a falsy `setupComplete` with a non-iterable `functionCalls`; otherwise the tool loop runs over the entries `for...of` visits |
| `Envelope.GarbledAborts` | chapter_10/gemini-ws-proxy/index.js:70 | upstream text that `JSON.parse` rejects makes the handler throw, so nothing is relayed |
| `Envelope.SetupCompleteWins` | chapter_10/gemini-ws-proxy/index.js:72-75 | a truthy `setupComplete` relays the payload whatever `toolCall` holds |
| `Envelope.FalsyToolCallRelays` | chapter_10/gemini-ws-proxy/index.js:126-129 | a non-null document with a falsy or absent `toolCall` is relayed to the client |
| `Envelope.ToolCallArrayRuns` | chapter_10/gemini-ws-proxy/index.js:79-82 | a `functionCalls` array is looped over entry by entry, in order |
| `Envelope.NonIterableFunctionCallsAborts` | chapter_10/gemini-ws-proxy/index.js:75-82 | a truthy `toolCall` under a falsy `setupComplete` whose `functionCalls` is absent or neither an array nor a string makes `for...of` throw, so nothing is relayed |
| `Tools.ResponseEntryFields` | chapter_10/gemini-ws-proxy/index.js:97-105 | a response copies the call's `name`, copies its `id` when and only when the call has one, carries the fixed mock result, and has no other member |
| `Tools.CallStepCases` | chapter_10/gemini-ws-proxy/index.js:83-84 | an entry adds a response exactly when it is a `get_weather` call whose `args` is neither absent nor `null`; it is skipped exactly when it is a non-null value with another name; otherwise the loop throws |
| `Tools.Responses` | chapter_10/gemini-ws-proxy/index.js:80-105 | the loop accumulates at most one response per entry |
| `Tools.ToolResponseCarries` | chapter_10/gemini-ws-proxy/index.js:108-122 | a `{tool_response: {function_responses}}` message carries exactly the list it was built from |
| `Tools.ToolSends` | chapter_10/gemini-ws-proxy/index.js:107-123 | the loop sends one message to each side per response |
| `Tools.ToolSendsSnoc` | chapter_10/gemini-ws-proxy/index.js:97-123 | pushing one more response adds exactly one more message, carrying the whole list so far |
| `Tools.ToolSendsCarryPrefixes` | chapter_10/gemini-ws-proxy/index.js:107-123 | the j-th message sent to each side carries the first j responses |
| `Tools.ResponsesAppend` | chapter_10/gemini-ws-proxy/index.js:82-124 | running the loop over two parts without a throw in the first part accumulates the responses of both parts, and throws exactly when the second part does |
| `Tools.ResponsesSnoc` | chapter_10/gemini-ws-proxy/index.js:82-124 | one more entry either throws, adds nothing, or appends its own response |
| `Tools.ResponsesFollowCalls` | chapter_10/gemini-ws-proxy/index.js:82-105 | without a throw there is one response per `get_weather` entry, in input order: entry i's response is the one at position "number of weather calls before i" |
| `Tools.StopsAtFirstThrow` | chapter_10/gemini-ws-proxy/index.js:82-84 | the loop's responses are those of the entries before the first throwing entry |
| `Tools.NoWeatherNoResponses` | chapter_10/gemini-ws-proxy/index.js:82-83 | entries not named `get_weather` add no response, so a batch without a weather call sends nothing to either side |
| `Relay.CloseIdempotent` | chapter_10/gemini-ws-proxy/index.js:155 | closing a socket twice has the same effect as closing it once |
| `Relay.Session.constructor` | chapter_10/gemini-ws-proxy/index.js:16-25 | a new session has an open client, a connecting upstream, an empty queue, no client listener and nothing sent |
| `Relay.Session.UpstreamOpen` | chapter_10/gemini-ws-proxy/index.js:27-37 | upstream becomes open; the queue is sent upstream in FIFO order and ends empty; the client listener is installed; in every reachable state the queue was already empty, so nothing is sent |
| `Relay.Session.Drain` | chapter_10/gemini-ws-proxy/index.js:31-35 | every queued payload is sent upstream exactly once, in FIFO order, and the queue ends empty |
| `Relay.Session.ClientMessage` | chapter_10/gemini-ws-proxy/index.js:37-63 | without a listener the message is lost. While upstream is open, a message passing `ClientCheck` is sent upstream unchanged exactly once, with or without a `setup` key, and any other message changes nothing. While upstream is not open, the message is appended to the queue. Nothing is ever sent to the client |
| `Relay.Session.UpstreamMessage` | chapter_10/gemini-ws-proxy/index.js:67-131 | on a throw before the loop nothing is sent; a relayed payload is sent verbatim to the client once and nothing goes upstream; a tool call sends `ToolSends(Responses(calls))` to both sides and aborts exactly when some entry throws |
| `Relay.Session.ToolLoop` | chapter_10/gemini-ws-proxy/index.js:82-125 | the loop appends `ToolSends(Responses(calls))` to each log and reports a throw exactly when some entry throws |
| `Relay.Session.CallIteration` | chapter_10/gemini-ws-proxy/index.js:83-124 | a `get_weather` entry appends its response and sends the list so far to the client and to upstream; other entries send nothing; the throw flag matches `CallStep` |
| `Relay.Session.ClientClosed` | chapter_10/gemini-ws-proxy/index.js:144-148 | a client close always calls `close()` on upstream, and changes nothing else |
| `Relay.Session.UpstreamClosed` | chapter_10/gemini-ws-proxy/index.js:151-157 | an upstream close closes the client only if the client is open |
| `Relay.Session.ClientError` | chapter_10/gemini-ws-proxy/index.js:134-136 | a client error changes no state and sends nothing |
| `Relay.Session.UpstreamError` | chapter_10/gemini-ws-proxy/index.js:139-141 | an upstream error changes no state and sends nothing |
| `Relay.NothingQueuedBeforeOpen` | chapter_10/gemini-ws-proxy/index.js:25-63 | while upstream is still connecting, the queue is empty and there is no client listener |
| `Scenarios.TwoCallSends` | chapter_10/gemini-ws-proxy/index.js:82-123 | a tool call with two answering entries sends two messages to each side, carrying first one response and then both |
| `Scenarios.OneWeatherCall` | chapter_10/gemini-ws-proxy/index.js:79-123 | one `get_weather` call with id "1" yields exactly one message to the client and one to upstream, each carrying one response with id "1" |
| `Scenarios.TwoWeatherCalls` | chapter_10/gemini-ws-proxy/index.js:115-123 | two `get_weather` calls send upstream two tool responses, and the first response is repeated in the second |
| `Scenarios.EarlyMessageLost` | chapter_10/gemini-ws-proxy/index.js:27-63 | a client message sent before upstream opens never reaches upstream; a valid one sent after the open is the only payload upstream receives |
| `Scenarios.QueuedAfterUpstreamClose` | chapter_10/gemini-ws-proxy/index.js:59-62 | after upstream has opened and closed, a client message stays in the queue and is never sent |

## Left out

- The `ws` library, the `WebSocket.Server` listener and its port, and the
  socket handshake (lines 2, 14, 23). Both sockets are abstract ready states
  plus logs of `send()` calls.
- What `ws` does with `send()` on a socket that is no longer open. The logs
  record the call, not whether a frame was delivered.
- The library's own transitions after `close()`, such as aborting the
  handshake of a connecting socket. `close()` moves a socket to `Closing`, or
  leaves it `Closed`. A socket reaches `Closed` through its `close` event.
- `dotenv`, `GEMINI_API_KEY` and the endpoint URL (lines 1, 5–11). These are
  configuration.
- Every `console.log` and `console.error`. Arguments whose evaluation can
  throw are still modelled: `call.args.city` at line 84 is.
- The text of JSON. A payload is identified with the document it parses to.
  Whitespace, member order, duplicate keys and number precision are not
  modelled. `JSON.stringify` yields the document itself.
- JavaScript's prototype chain. No key the relay reads or tests is defined on
  a built-in prototype, so only own members of objects are modelled.
- Characters are Dafny `char`s. Iterating a string visits them one by one.
- The process-level effect of an exception escaping an event handler. In
  Node.js it is uncaught and by default ends the process. Here the handler
  stops at the throw and reports `Aborted`.
- Event-loop scheduling. Events are sequential method calls on one session.
  `UpstreamOpen` requires upstream to be `Connecting`, because `open` fires
  only once and only from the connecting state. Sessions share nothing, so
  one session is modelled.
- `Tools.Responses`: its own contract only bounds the number of responses.
  What they are is stated by `ResponsesFollowCalls`, `ResponsesSnoc` and
  `StopsAtFirstThrow`.
