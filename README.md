# QQBotWs relay core, modelled in Dafny

QQBotWs is a WebSocket relay. A client (a bot framework) connects with
`?appid=<identity>&url=<upstream>`. The relay opens a second WebSocket to the
upstream url and forwards messages both ways. When the upstream connection
drops, the relay reconnects. A process-wide registry keeps the live relay
instances under their application identity. The repository has two
implementations: `main.go`, which also has an HTTP proxy endpoint, and
`src/index.ts`. This project models the relay core of both.

Files (module per file):

- `Wrappers.dfy`: `Option` and `Result`.
- `Decimal.dfy`: Go's `strconv.ParseInt(s, 10, 64)` and `strconv.FormatInt(v, 10)`.
  It also models JavaScript's `Number(s).toString()` for signed decimal
  strings. The main result says exactly when the rebuilt key equals the
  original text: when the text is canonical.
- `Registry.dfy`: the connection registry, a map from identity text to the
  bots registered under it, in order. Pure functions give the meaning of
  each kind of mutation:
  - registration appends;
  - Go's cleanup drops every occurrence of the bot;
  - TypeScript's `removeFromConnectionMap` splices out the first occurrence.

  In both, a key whose list becomes empty is deleted. The class `Registry`
  performs these in place and is proved against those functions. Bots are
  stored by reference, so removal compares identity.
- `GoRelay.dfy`: the Go `QQBot`. Its fields are the target, the reconnect
  counter, the retry settings and a log of the connection actions it takes.
  A ghost count tracks live `readTarget` goroutines. Concrete sessions
  appear near the end as scenario methods with exact outcomes.

  The model covers:
  - `connectTarget`, `handleReconnect` and `cleanup`;
  - the `readTarget` and `readSelf` loops, run over sequences of read
    outcomes;
  - the parameter checks and registration of `handleWebSocket`.
- `GoProxy.dfy`: two map rewrites in `handleProxy`. One merges the query
  into the target URL. The other copies response headers, using Go's
  `strings.EqualFold` exactly for ASCII patterns; this includes the Kelvin
  sign and the long s.
- `TsRelay.dfy`: the TypeScript `QQBot` as an event-driven state machine.
  Sockets are reduced to their `readyState`. The model counts reconnect
  attempts and how many target sockets were created. It also records the
  close code the client was closed with. Each event handler is a method;
  the route handler is `HandleConnection`.

Behaviour the code has, which the model states and proves:

- **No teardown flag.** Neither implementation has an "active" flag that
  would stop reconnecting after teardown. In Go, `cleanup` closes the target,
  which makes the live `readTarget` fail its read; its reconnect dial then
  installs a new upstream connection for a client that is gone. The
  scenario `GoRelay.ReconnectAfterClientLeft` shows this. TypeScript does the
  same: closing the target fires `close`, which schedules a new target
  (`TsRelay.ReconnectAfterClientLeft`).
- **One reconnect per upstream failure in Go.** `connectTarget` resets
  `reconnectCount` to 0 whenever it starts a reader, and `handleReconnect`
  is called only from `readTarget` (main.go:150). A failing reader makes
  exactly one `handleReconnect`: it sleeps the 5-second retry delay, then
  redials. If that dial fails, the client is closed and the bot cleaned up.
  So the ten-attempt limit is never reached. What the model proves is that
  every `ReadTarget` starts with the counter at 0 (`Valid` gives
  `readers == 1 ==> reconnectCount == 0`) and leaves it at 0 or 1; it is 1
  only in the `TornDown` case. `HandleReconnect` called on its own can count
  higher, but the source never calls it that way. TypeScript does
  accumulate attempts, up to ten, because only an `open` event resets them
  (`TsRelay.RetriesRunOut`).
- **Registration key vs removal key.** Both implementations register under
  the raw query text, but remove under the re-formatted number:
  `FormatInt(ParseInt(s))` in Go, `Number(s).toString()` in TypeScript. A
  registration is undone exactly when the text is canonical. "042", "+42"
  and "-0" stay in the registry for good.
- **TypeScript registers a bot whose target could not be created.** When
  `new WebSocket(url)` throws, the client is closed with 1011, but the bot
  is still appended to the registry.
- Go writes every relayed message as a text frame, whatever frame type it
  arrived in. The model therefore relays bytes without a frame type.

## Model

| member | source | states |
|---|---|---|
| Decimal.ParseInt | main.go:289-294 | Base-10 ParseInt accepts an optional sign and one or more ASCII digits. Every accepted value lies in the int64 range; syntax and range errors are both rejection. |
| Decimal.NatDigits | main.go:83 | The digits FormatInt writes are non-empty decimal digits, with a leading '0' exactly for zero. Its recursive calls' contracts carry the proof. |
| Decimal.FormatInt | main.go:83 | `strconv.FormatInt(v, 10)` is non-empty, starts with '-' exactly for negative values, and is canonical. It is proved against ParseInt by FormatThenParse and ParseThenFormat. |
| Decimal.JsDecimalKey | src/index.ts:139 | `Number(s).toString()` on a signed decimal string is defined exactly when Go's ParseInt accepts the string with magnitude at most 2^53, and is then FormatInt of that value. JsKeyIsRawExactlyWhenCanonical states when it equals the raw text. |
| Decimal.FormatThenParse | main.go:83 | Every int64 survives FormatInt followed by ParseInt, and FormatInt's text is canonical. |
| Decimal.ParseThenFormat | main.go:83 | For text ParseInt accepts, re-formatting gives back the same text exactly when the text is canonical (both directions). |
| Decimal.JsKeyIsRawExactlyWhenCanonical | src/index.ts:139 | For a signed decimal appid, `Number(appid).toString()` equals the raw appid exactly when it is canonical. |
| Decimal.DigitsValueOfNatDigits | main.go:83 | The digits FormatInt writes for a natural number read back as that number. |
| Decimal.NatDigitsOfDigitsValue | main.go:289 | A digit string without a leading zero is exactly the shortest digits of its value. |
| ConnectionRegistry.WithAppended | main.go:323-325 | Registration: the list under the key gains the bot at its end; other keys keep their lists; no empty list appears. |
| ConnectionRegistry.Filtered | main.go:86-91 | The rebuilt list no longer contains the bot and is no longer than the original. |
| ConnectionRegistry.FilteredCounts | main.go:86-91 | Every element other than the bot keeps its number of occurrences; the bot keeps none. |
| ConnectionRegistry.FilteredConcat | main.go:87-91 | Filtering distributes over concatenation, so survivors keep their relative order. |
| ConnectionRegistry.FilteredAbsent | main.go:87-91 | Filtering out a bot that is not listed changes nothing. |
| ConnectionRegistry.WithoutAll | main.go:84-96 | Go cleanup: every occurrence leaves the list under the key; the key stays exactly when something is left; a missing key and all other keys are untouched. |
| ConnectionRegistry.WithoutAllIdempotent | main.go:74-98 | Cleaning up twice leaves the registry as cleaning up once. |
| ConnectionRegistry.RegisterThenWithoutAll | main.go:84-96 | Registering a bot that is not yet listed, then removing it under the same key, restores the registry exactly. |
| ConnectionRegistry.IndexOf | src/index.ts:90 | `indexOf`: -1 exactly when the bot is absent, otherwise the position of its first occurrence. |
| ConnectionRegistry.RemovedAt | src/index.ts:93 | `splice(index, 1)`: one shorter; elements before the index stay in place and those after shift down by one. |
| ConnectionRegistry.RemovedAtCounts | src/index.ts:93 | The splice removes one copy of the element at the index and nothing else. |
| ConnectionRegistry.WithoutFirst | src/index.ts:88-100 | TypeScript removal: a no-op when the bot is not listed; otherwise the list loses the first occurrence and the key goes when the list empties; other keys are untouched. |
| ConnectionRegistry.WithoutFirstRemovesOne | src/index.ts:89-93 | Exactly one occurrence of the bot leaves the list, when there is one. |
| ConnectionRegistry.RegisterThenWithoutFirst | src/index.ts:88-100 | Registering a bot that is not yet listed, then removing it under the same key, restores the registry exactly. |
| ConnectionRegistry.Registry.constructor | main.go:37 | The registry starts empty. |
| ConnectionRegistry.Registry.Register | main.go:323-325 | The in-place append produces `WithAppended` of the old table and keeps lists non-empty. |
| ConnectionRegistry.Registry.RemoveAll | main.go:84-96 | The rebuild loop and store-or-delete produce `WithoutAll` of the old table. |
| ConnectionRegistry.Registry.RemoveFirst | src/index.ts:89-99 | indexOf, splice and set-or-delete produce `WithoutFirst` of the old table. |
| GoRelay.TargetStop | main.go:146-161 | The read that ends readTarget's loop is the first read error or failed client write; every earlier read is a message relayed successfully. |
| GoRelay.ClientStop | main.go:167-173 | The read that ends readSelf's loop is the first client read error; every earlier read is a message. |
| GoRelay.Upstreamed | main.go:176-181 | The upstream writes of a run of client messages are at most as many as the messages. |
| GoRelay.UpstreamedAllWhenWritesSucceed | main.go:176-181 | When every upstream write succeeds, every client message goes upstream once, in arrival order. |
| GoRelay.QQBot.constructor | main.go:310-316 | A new bot has maxRetries 10, a 5-second retry delay, no target, count 0 and no actions taken. |
| GoRelay.QQBot.ConnectTarget | main.go:124-143 | Closes and clears the old target, then dials. On success it installs the connection, resets the count and starts one reader. On failure it leaves no target and keeps the count. |
| GoRelay.QQBot.HandleReconnect | main.go:108-122 | At the limit: fails without counting, sleeping or dialing. Otherwise: counts one attempt, sleeps the retry delay, then connects, with the outcome of ConnectTarget. |
| GoRelay.QQBot.Cleanup | main.go:74-98 | Closes and clears the target, then removes every occurrence of the bot under `FormatInt(appid)`. |
| GoRelay.QQBot.ReadTarget | main.go:145-164 | Relays exactly the messages before the stopping read, in order. A failed client write ends the loop and nothing else. A read error makes one reconnect: on success a new reader runs; on failure the client is closed, the count is 1 and the bot is cleaned up. |
| GoRelay.QQBot.ReadSelf | main.go:166-186 | While a target is present, writes exactly the successful client messages upstream; with no target it drops them. A client read error cleans up and ends the loop. |
| GoRelay.ValidateParams | main.go:283-301 | Validation succeeds exactly when both values are given, the appid parses as int64 and the url parses. Each failure gets its own reason, checked in source order. |
| GoRelay.HandleWebSocket | main.go:279-330 | Bad parameters: 400 and nothing created. Failed upgrade: nothing created. Failed first dial: the client is closed and nothing is registered. Otherwise the bot is appended under the raw appid and both readers start. |
| GoRelay.CleanupUndoesRegistration | main.go:83-96 | Cleanup undoes a registration exactly when the appid text is canonical; otherwise the bot stays listed under its raw text. |
| GoRelay.FortyTwoAccepted | main.go:289-294 | "42" and "042" both pass validation as 42, and 42 formats as "42". |
| GoRelay.PingThenUpstreamLost | main.go:145-164 | Identity 42 registers one bot, the client gets "ping", a failed redial tears the session down, and the registry ends empty. |
| GoRelay.NonCanonicalAppidOutlivesCleanup | main.go:83-96 | Identity "042" is still registered after its client has gone. |
| GoRelay.ReconnectAfterClientLeft | main.go:150-152 | After the client leaves and cleanup runs, the reader's redial still succeeds. The result is a new upstream connection and an empty registry. |
| GoProxy.EqualFold | main.go:267-269 | `strings.EqualFold` against an ASCII name: a match has the name's length, and every string matches itself. EqualFoldOnAscii states the full meaning on ASCII text. |
| GoProxy.EqualFoldOnAscii | main.go:267-269 | On ASCII text, EqualFold holds exactly when both sides are equal after lowering capitals. |
| GoProxy.EqualFoldIgnoresCase | main.go:267-269 | Lowering the capitals of ASCII text first does not change whether it folds to a name. |
| GoProxy.IsStripped | main.go:267-269 | Content-Length, Transfer-Encoding and Content-Encoding are stripped, and nothing of another length is. |
| GoProxy.StrippedIgnoresCase | main.go:267-269 | An ASCII header name is stripped exactly when its lowered spelling is. |
| GoProxy.MergeQuery | main.go:203-208 | Every incoming key except "url" is set to its first value. The target's other keys, its "url" included, keep their values, and no other key appears. |
| GoProxy.CopyResponseHeaders | main.go:266-274 | Every upstream header except Content-Length, Transfer-Encoding and Content-Encoding (compared by EqualFold) is copied with its values. Existing headers are kept unless overwritten. Content-Length is the body length in decimal. |
| TsRelay.QQBot.constructor | src/index.ts:20-24 | A new bot starts with 0 attempts. If the target socket was created, it is connecting. If not, there is no target and the client is closing with 1011. |
| TsRelay.QQBot.CloseSelf | src/index.ts:68 | Closing the client takes effect only on an open socket, which then records the code. |
| TsRelay.QQBot.InitTarget | src/index.ts:46-70 | A created socket replaces the target, in the connecting state. A throwing constructor keeps the old target and closes the client with 1011. |
| TsRelay.QQBot.OnTargetOpen | src/index.ts:50-53 | The target's open event resets the attempt count to 0. |
| TsRelay.QQBot.OnTargetMessage | src/index.ts:55-59 | An upstream message is sent to the client exactly when the client is open. |
| TsRelay.QQBot.OnClientMessage | src/index.ts:25-29 | A client message is sent upstream exactly when the target is open. |
| TsRelay.QQBot.OnTargetClose | src/index.ts:72-86 | At 10 attempts: closes the client with 1011 and creates nothing. Below: counts one attempt and creates a new target, or closes the client with 1011 if creation throws. |
| TsRelay.QQBot.OnClientClose | src/index.ts:31-39 | Closes an open target and removes the first occurrence of the bot under `Number(appid).toString()`. |
| TsRelay.QQBot.RemoveFromConnectionMap | src/index.ts:88-104 | The registry becomes `WithoutFirst` of the old one under `appid.toString()`. |
| TsRelay.HandleConnection | src/index.ts:121-146 | A missing or empty appid or url, or an invalid URL: close with 1003 and create nothing. Otherwise the bot is appended under the raw appid, even when its target could not be created. |
| TsRelay.CloseUndoesRegistration | src/index.ts:88-100 | The client's close undoes a registration exactly when the appid text is canonical; otherwise the bot stays listed. |
| TsRelay.FortyTwoKeys | src/index.ts:139 | `Number("42").toString()` and `Number("042").toString()` are both "42". |
| TsRelay.RetriesRunOut | src/index.ts:72-86 | A target that never opens is recreated ten times; the eleventh close closes the client with 1011. |
| TsRelay.ReconnectAfterClientLeft | src/index.ts:31-39 | After the client leaves, the bot is gone from the registry, yet the target's close creates a new connecting target. |
| TsRelay.NonCanonicalAppidOutlivesClose | src/index.ts:89-99 | Identity "042" is still registered after its client has closed. |

## Left out

- Sockets, dialing, reading and writing are not modelled as I/O. Each outcome is an input to the member that consumes it: a dial result, a read result, whether a write succeeded, or whether the TypeScript target constructor threw.
- `url.Parse` (Go) and `new URL` (TypeScript) are represented only by their verdict, a boolean parameter. URL grammar is not modelled.
- `Number(s)` is modelled only for an optional sign followed by ASCII digits with magnitude at most 2^53 (`JsDecimalKey`). Blanks, hexadecimal, exponents, fractions, larger values and NaN are outside it, and `HandleConnection` then takes the key as a parameter.
- Concurrency is not modelled: goroutines, `reconnectMu`, the atomicity of `sync.Map`, and the transient empty list `LoadOrStore` can store. Each method runs as one uninterrupted step. In particular, a race between `cleanup` clearing the target and a reader using it is not modelled.
- `time.Sleep` and TypeScript's `setTimeout` delay are not timed. Go logs a `Sleep` action; TypeScript's delay is a step inside `OnTargetClose`, so no other event interleaves with it.
- The WebSocket close handshake is reduced to readyStates, with one rule: only an `OPEN` socket starts closing. The `close` events that follow are separate method calls.
- The TypeScript `error` handlers only log, and are not modelled. The route's outer `try/catch` (code 1011) catches only exceptions that the modelled code does not raise.
- In `handleProxy`, these are not modelled: the HTTP client and request, the request headers it sets, reading the body, `decompressBuffer`, its own two URL checks (main.go:189-201), `q.Encode()`, the status line and writing the body. Only the query merge and the response-header copy are modelled.
- `GoProxy.EqualFold` is exact only when the pattern is ASCII. That is the only case `handleProxy` uses.
- Query parsing and `Query().Get` are not modelled; the first value of each parameter is an input.
- The `/health` endpoint, TLS and certificate loading, the server set-up, logging and `demo.js` are not part of this model.
- GoRelay.Upstreamed: its own contract gives only a length bound. Its content is stated by `UpstreamedAllWhenWritesSucceed` and by `ReadSelf`'s postcondition, which uses the function itself.
