# Outpunch: a verified model of the tunnel's coordination

Outpunch lets an HTTP server reach a service behind a firewall. A tunnel client connects to the
server over a WebSocket, authenticates for a service name, and answers the requests the server
sends it. Many HTTP calls (dispatches) share one connection, connections come, go and replace
one another, and callers time out or disappear at any moment. This project models that
coordination and proves what it is for: every answer reaches the caller that asked, nobody waits
for ever on a connection that is gone, a stale disconnect never disturbs a newer connection, and
shutting down always ends.

## How the model is built

- `Protocol.dfy`: the wire messages, their JSON documents, the tagged parser and the serializer.
  Which texts are which messages is stated over the raw documents, key by key.
- `Secret.dfy`: UTF-8 bytes and the xor/or fold that compares a token with the secret.
- `Tunnel.dfy`: the server as a labelled step system. Every block the server runs under its lock,
  every channel operation and every other point where tasks interleave is one `Action`; `Enabled`
  says when it can happen and `Apply` what it does. A `Log` is a sequence of actions and `Run`
  replays it. The state holds the two shared maps, every connection (phase, both channels, pushes
  in flight, whether the outgoing receiver still exists) and every dispatch (progress, route,
  reply slot). Who still holds an outgoing sender is derived from that state (`HasSender`).
- `Invariants.dfy`, `Streams.dfy`, `History.dfy`, `Arrivals.dfy`, `JunkErasure.dfy`: theorems over
  all logs of the server. `Shutdown.dfy` (everything closed) and `Disconnect.dfy` (one connection
  closed, all others going on) show that returning is always possible and takes boundedly many
  steps.
- `Callers.dfy`: what a waiting caller, a waiting push and the first-message timer can always do.
- `Server.dfy`: the objects whose fields the critical sections update in place, the one-shot reply
  channels among them. Each locked block and channel operation is shown to be one action of the
  step system; the relay loop, with everybody else's steps in between, and the drain loop are
  shown to be runs of it.
- `Client.dfy`: the client's select loop and its reconnect loop. `EndToEnd.dfy` composes any
  number of such clients, and the adapters that push what they write, with the server: a push can
  be cut short and made again, or given up; client and adapter can end. `NetHistory.dfy` and
  `Pushing.dfy` say what holds along such runs, `Liveness.dfy` that a waiting dispatch can be
  answered, `GivenUp.dfy` exactly when, and `Scenario.dfy` shows both sides on a concrete run.
- `Base64.dfy` and `Http.dfy`: how a response's body travels, and the HTTP answer made of it.
- `Query.dfy`: the query parser of the HTTP adapter and the query printer of the client.
- `RubyBinding.dfy`: the retry loops that call into the core from Ruby threads. `RubyServer.dfy`
  relates them to runs of the server.

## Assumptions

- Request ids are fresh: `Admit` takes an id no earlier dispatch had (the source draws version 4
  UUIDs, section 5.4 of RFC 9562), and a request built from an adapter's call.
- Connection ids do not wrap around 64 bits.
- Callbacks return and do not panic, and a `run()` future is not dropped half-way.
- The channels' send and receive are cancel-safe; the lock makes its blocks atomic.
- A timeout may fire at any moment between the lookup and the end of the exchange, even when the
  answer has just arrived.

Reading the first message and answering it is one step, as is receiving a message and handling it
under the lock, removing a pending entry and returning, and finding the incoming channel ended and
cleaning up: one half of each only touches what that side alone owns.

`docs/architecture.md` describes an older interface (`handle_connection` with explicit channels);
the model follows the code.

## Model

| member | source | states |
|---|---|---|
| Protocol.RoundTrip | crates/outpunch/src/protocol.rs:83-130 | a serialized message parses back to itself if and only if its `type` field names its kind |
| Protocol.AuthOnWire | crates/outpunch/src/protocol.rs:49-56 | a text is the auth message with this token and service if and only if it is an object whose own `type` is `auth`, `token` that token and `service` that service |
| Protocol.AuthErrorOnWire | crates/outpunch/src/protocol.rs:65-71 | a text is the auth_error with this message if and only if its own `type` is `auth_error` and its `message` that message |
| Protocol.RequestOnWire | crates/outpunch/src/protocol.rs:17-32 | a text is this request if and only if each field, under its own key, is there with that value, the defaulted ones absent or null only for their defaults |
| Protocol.ResponseOnWire | crates/outpunch/src/protocol.rs:34-47 | the same for a response: id, 16-bit status, headers, body and body encoding, each under its own key |
| Protocol.RefusalsOnWire | crates/outpunch/src/protocol.rs:83-120 | no JSON, no `type` string and an unknown `type` are each reported exactly then |
| Protocol.WrittenOnWire | crates/outpunch/src/protocol.rs:122-130 | what is written for each kind of message, key by key, and that no other key is written |
| Protocol.CallOnWire | crates/outpunch/src/protocol.rs:133-144 | the request built for a call carries that call: service, method, path, query, headers and body, each under its own key, with the fresh id |
| Protocol.BuiltExactly | crates/outpunch/src/protocol.rs:133-144 | the requests tagged `request` are exactly those built from some call |
| Protocol.ParsedMessagesReserialize | crates/outpunch/src/protocol.rs:83-130 | whatever the parser accepts is understood again, unchanged, after being serialized |
| Protocol.SerializeInjective | crates/outpunch/src/protocol.rs:122-130 | two different well-tagged messages never have the same wire form |
| Protocol.UnknownFieldsIgnored | crates/outpunch/src/protocol.rs:83-120 | a field the protocol does not know never changes what a text parses to |
| Protocol.OmittedFieldsDefault | crates/outpunch/src/protocol.rs:35-46 | a response without headers, body or body_encoding parses with the defaults for exactly those fields |
| Secret.ConstantTimeEqDecidesEquality | crates/outpunch/src/server.rs:213-221 | the fold over the bytes is zero, with equal lengths, exactly when the two strings are equal |
| Secret.DifferenceZero | crates/outpunch/src/server.rs:217-220 | the accumulator ends at zero exactly when it started at zero and all byte pairs agree |
| Secret.Utf8Injective | crates/outpunch/src/server.rs:213-219 | comparing bytes loses nothing: equal encodings come from equal strings |
| Secret.Utf8Examples | crates/outpunch/src/server.rs:213-219 | the encoding agrees with the examples of section 7 of RFC 3629, and ASCII text is its own bytes |
| Invariants.Preserved | crates/outpunch/src/server.rs:109-355 | every step keeps the invariant: table entries belong to registered, not yet cleaned connections, no wake-up is lost, senders keep the receiver alive, channels stay within 64 |
| Invariants.Always | crates/outpunch/src/server.rs:109-355 | the invariant holds in every reachable state |
| Invariants.NothingLeaks | crates/outpunch/src/server.rs:161-209 | pending holds only requests in flight or cancelled, each of a connection not yet cleaned up; without such connections both maps are empty |
| Invariants.ConnectionLostUnreachable | crates/outpunch/src/server.rs:172-176 | a dispatch's own sender keeps the drain going, so its send never fails and ConnectionLost is never returned |
| Invariants.UpgradeSucceeds | crates/outpunch/src/server.rs:325-327 | the connection a replacement displaces is still running when the weak reference to it is upgraded |
| Invariants.HandledAnswersItsRequest | crates/outpunch/src/server.rs:129-136 | the response handed to the HTTP side carries the id asked for: the client's response as it is, or 502 with `no client connected for service` or `client disconnected`, or 504 with `tunnel timeout`, each as a JSON error; `client connection lost` never occurs |
| Invariants.HandledTells | crates/outpunch/src/server.rs:10-36 | every error, ConnectionLost included, has its own status and text, written out |
| Callers.TimeoutEnds | crates/outpunch/src/server.rs:180-186 | a dispatch's clock can run out exactly while it waits for room or for the answer; then the caller gets Timeout, its entry goes and nothing else changes |
| Callers.AnswerTaken | crates/outpunch/src/server.rs:172-187 | a waiting dispatch wakes up exactly when its reply channel is filled or dropped; filled, it returns that response and only its own progress changes |
| Callers.LossNoticed | crates/outpunch/src/server.rs:177-186 | dropped, it ends with Disconnected and without an entry, and nothing else changes |
| Callers.CallerLeaves | crates/outpunch/src/server.rs:155-182 | a caller can give up at any time before its result; its pending entry stays |
| Callers.SendWaitsForRoom | crates/outpunch/src/server.rs:172-176 | a routed request goes out exactly when its connection has fewer than 64 messages queued; its receiver never is the obstacle |
| Callers.RequestGoesOut | crates/outpunch/src/server.rs:147-176 | what goes out is the dispatch's request, field by field, at the end of that connection's queue |
| Callers.PushWaitsForRoom | crates/outpunch/src/server.rs:253-261 | a push with a sender goes in exactly when fewer than 64 messages wait and run() goes on, is refused exactly when it has returned, and can always be dropped |
| Callers.FirstMessageAwaited | crates/outpunch/src/server.rs:357-372 | while the first message is awaited the timer can always run out, a message is taken as soon as it is there, and an ended channel is noticed |
| Tunnel.ResponseInExactly | crates/outpunch/src/server.rs:330-336 | the relay loop takes a text for this response if and only if the document's own fields say so |
| Streams.EverythingDelivered | crates/outpunch/src/server.rs:294-301 | when run() has returned, the callback was given exactly what was ever enqueued, in order, and no dispatch is in flight on that connection |
| Streams.SilentAfterReturn | crates/outpunch/src/server.rs:348-354 | nothing is enqueued on a connection whose run() has returned |
| Streams.DeliveredInOrder | crates/outpunch/src/server.rs:109-111 | at any time the callback has seen a prefix of what was enqueued, the rest is in the channel, and both channels hold at most 64 |
| Streams.AcceptedExactly | crates/outpunch/src/server.rs:373-397 | a first message is accepted for a service if and only if its own `type` is `auth`, its `token` the secret and its `service` that service, and the secret is not empty |
| Streams.RefusedExactly | crates/outpunch/src/server.rs:373-397 | `expected auth message` exactly when the document is no auth message, `invalid token` exactly when it is one whose token is not the secret or the secret is empty |
| Streams.SendsFollowAuthentication | crates/outpunch/src/server.rs:357-405 | a request only goes to a connection whose first incoming document is an auth message naming that service with the non-empty secret as token, and the text sent is that request field by field |
| Streams.AlwaysGrammatical | crates/outpunch/src/server.rs:303-405 | what a client is sent is nothing, one auth_error, or auth_ok followed only by requests routed to it for its service |
| Streams.FirstTextAnswersAuth | crates/outpunch-client/src/lib.rs:135-152 | the first text delivered to a client is auth_ok or auth_error |
| History.ServicesTellHistory | crates/outpunch/src/server.rs:195-209 | a connection holds a service if and only if the last registration for it was its own and it has not cleaned up since |
| History.CleanupIsFinal | crates/outpunch/src/server.rs:197-209 | after a connection's cleanup neither map ever names it again |
| History.AlwaysLosersClosed | crates/outpunch/src/server.rs:313-327 | a registered connection that lost its service is closed, or its replacer, not yet relaying, is about to close it |
| History.ResultsAreFinal | crates/outpunch/src/server.rs:147-187 | a dispatch's request and route never change and its result, once there, stays |
| History.SendsAreUnique | crates/outpunch/src/server.rs:172-176 | no request is put on an outgoing channel twice |
| History.DispatchesTellHistory | crates/outpunch/src/server.rs:147-209 | route and reply slot of every dispatch are explained by the log: who held the service at its admission, and which first relayed answer or cleanup decided it |
| History.ResultsTellHistory | crates/outpunch/src/server.rs:155-187 | Ok(r): r is the first matching response the route relayed, before any cleanup of it; Disconnected: its cleanup came first; NotConnected: nobody held the service at the lookup |
| History.TimeoutTellsHistory | crates/outpunch/src/server.rs:180-182 | Timeout is only reported when the clock ran out on this very dispatch |
| History.NoLostWakeUp | crates/outpunch/src/server.rs:151-177 | a dispatch that sends or waits is in exactly one of: pending on its live route, which has not cleaned up; answered under its own id; dropped, and then its route's cleanup is in the log |
| History.NoAnswerLost | crates/outpunch/src/server.rs:330-352 | a dispatch told Disconnected was sent no answer: from its admission on, nothing answering it ever entered the incoming channel of its connection |
| History.EnqueuedIsConsumed | crates/outpunch/src/server.rs:330-346 | a message enqueued on a connection is still in its channel or was consumed later; none disappears |
| History.AdmittedOnce | crates/outpunch/src/server.rs:155-170 | no request id is admitted twice, so the admission of a dispatch is one step of the log |
| Arrivals.FirstInFirstOut | crates/outpunch/src/server.rs:330-346 | at any time, what ever arrived on a connection is what authentication and the relay loop took out, in the same order, followed by what is still in the channel |
| Arrivals.ResultsFollowArrivals | crates/outpunch/src/server.rs:155-187 | Ok(r): of the messages not handled yet at the admission or arriving later, the first that answers carries r; Disconnected: none of them answers |
| Arrivals.EndsOnce | crates/outpunch/src/server.rs:253-261 | a push ends once: what was delivered, refused or given up is never delivered again |
| Arrivals.EndWasBegun | crates/outpunch/src/server.rs:253-261 | every end of a push follows its beginning, with the same text |
| History.RelaysAfterClose | crates/outpunch/src/server.rs:330-352 | after close() the relay loop runs at most once per buffered message and per push that had already cloned the sender |
| Shutdown.InternalStepWorks | crates/outpunch/src/server.rs:253-355 | every step the server takes on its own strictly decreases a measure over phases, queues, pushes in flight and dispatches |
| Shutdown.Progress | crates/outpunch/src/server.rs:294-355 | with all running connections closed, some step of the server's own is enabled until every run() and every dispatch has returned |
| Shutdown.ShutdownBounded | crates/outpunch/src/server.rs:147-355 | every schedule of internal steps is bounded by the measure of its first state |
| Shutdown.ShutdownCompletes | crates/outpunch/src/server.rs:147-355 | every internal schedule extends to one after which everything has returned |
| Shutdown.ShutdownEnds | crates/outpunch/src/server.rs:147-355 | from every reachable closed-down state shutdown ends, cannot get stuck before everything has returned, and leaves both maps empty |
| Disconnect.LocalWorkStep | crates/outpunch/src/server.rs:147-355 | for one closed connection: every step that concerns it or a dispatch routed to it lowers the work left on it, and of all other steps only an admission routed to it adds any |
| Disconnect.LocalStepsBounded | crates/outpunch/src/server.rs:147-355 | whatever other connections and callers do in between, the steps of one connection's shutdown are bounded by the work left on it plus four per request still admitted to it |
| Disconnect.DisconnectProgress | crates/outpunch/src/server.rs:294-355 | until a closed connection's run() and every dispatch routed to it have returned, a step that concerns it is enabled, with any other connections open |
| Disconnect.DisconnectCompletes | crates/outpunch/src/server.rs:294-355 | the steps that concern a closed connection complete its shutdown without anybody else moving |
| Disconnect.DisconnectEnds | crates/outpunch/src/server.rs:147-355 | the three together, from every reachable state in which that one connection is closed |
| JunkErasure.JunkExactly | crates/outpunch/src/server.rs:330-346 | a message is junk if and only if its document is no response to a request sent to that connection, and if and only if relaying it changes nothing but the channel it came from |
| JunkErasure.ErasedRun | crates/outpunch/src/server.rs:253-346 | deleting from a run messages the relay loop found useless leaves a run that stays in step with the original |
| JunkErasure.JunkChangesNothing | crates/outpunch/src/server.rs:330-346 | deleting all junk of a run leaves a junk-free run with the same tables, the same streams and the same result for every dispatch |
| Server.OutpunchServer.CreateConnection | crates/outpunch/src/server.rs:109-126 | the new connection has the next id, an open incoming channel and empty queues, ids count up, and the step is `Create` |
| Server.OutpunchServer.LookupAndInsert | crates/outpunch/src/server.rs:155-170 | with a holder: the route is that connection, the entry and an empty reply channel are there; without: no route, no entry, the reply sender is dropped and the result is NotConnected; either way the step is the admission |
| Server.OutpunchServer.RemovePending | crates/outpunch/src/server.rs:183-185 | exactly that entry goes, and the step is the failure step |
| Server.OutpunchServer.IsConnected | crates/outpunch/src/server.rs:190-193 | true exactly when some connection made the last registration for the service and has not cleaned up since |
| Server.OutpunchServer.CleanupConnection | crates/outpunch/src/server.rs:197-209 | no pending entry of the connection survives and the reply channel of each is dropped, every entry of another connection and its channel stay, a newer registration stays, and the step is the cleanup |
| Server.OutpunchServer.Register | crates/outpunch/src/server.rs:314-324 | the newest registration holds the service, other services stay, and the connection it displaces, if any, is handed back |
| Server.OutpunchServer.CheckAuth | crates/outpunch/src/server.rs:373-397 | a service is accepted if and only if the document is an auth message for it carrying the non-empty secret; each refusal text is given exactly in its own case |
| Server.OutpunchServer.Answer | crates/outpunch/src/server.rs:337-344 | exactly when the request was sent to the relaying connection its entry goes and its reply channel is filled with this response; otherwise nothing changes |
| Server.OutpunchServer.RelayText | crates/outpunch/src/server.rs:330-346 | of the texts only one whose document is a response to a request sent to this connection changes the tables: its entry goes and its reply channel is filled with that response |
| Server.Connection.CloneSender | crates/outpunch/src/server.rs:253-257 | a push gets a sender exactly while incoming_tx has not been taken, and is counted then |
| Server.Connection.CompleteSend | crates/outpunch/src/server.rs:258-260 | the text goes to the end of the incoming channel and the sender is dropped |
| Server.Connection.Close | crates/outpunch/src/server.rs:270-272 | closing is always possible, takes incoming_tx and is the close step |
| Server.Connection.HandleAuth | crates/outpunch/src/server.rs:357-405 | the first message is consumed and answered by one document: auth_ok for the service it names when its token is the non-empty secret, auth_error with `invalid token` or `expected auth message` in just those cases, `auth timeout` on a timeout, nothing on an ended channel; each is the step the protocol takes |
| Server.Connection.RelayOne | crates/outpunch/src/server.rs:330-346 | one round of the loop is one relay step: a response document for a request of this connection is in that request's reply channel afterwards, anything else leaves both tables alone |
| Server.Connection.Round | crates/outpunch/src/server.rs:330-352 | once awake the loop takes exactly this step: relay the next message, or clean up when the channel is empty, closed and no push holds a sender, or none |
| Server.Connection.Relaying | crates/outpunch/src/server.rs:330-352 | the whole loop, with arbitrary steps of everybody else during its waits, is the run in which it takes its own step after each of them; once it has ended, cleanup has run and neither map names the connection |
| Server.Connection.DeliverQueued | crates/outpunch/src/server.rs:294-301 | the drain loop hands the callback everything queued, in order, as the run of exactly those delivery steps |
| Client.AllConserved | crates/outpunch-client/src/lib.rs:66-107 | for every schedule: received ids are, with multiplicity, in flight, queued or written, and responses leave in completion order |
| Client.WrittenAnswersReceived | crates/outpunch-client/src/lib.rs:165-208 | every written response was produced for a request received on this connection, carries its id and reports its outcome (status, headers and bytes, or 504, or 502), no id more often than received |
| Client.ForwardReports | crates/outpunch-client/src/lib.rs:165-208 | the local service's status, headers and bytes in base64, marked as such; 504 `local service timeout`; 502 `local service error:` with the error, each with the request's id |
| Client.EachRound | crates/outpunch-client/src/lib.rs:66-107 | what each ready branch does: the oldest response is written, a document that is a request is taken in, a finished task queues a response that reports its outcome, everything else does nothing |
| Client.ClientConnection.Authenticate | crates/outpunch-client/src/lib.rs:112-153 | one auth document with the configured secret and service is written unless the send fails, and only an auth_ok document is accepted; each failure is told apart |
| Client.ClientConnection.FinishTask | crates/outpunch-client/src/lib.rs:94-97 | a finished forward leaves the in-flight set and its response joins the channel |
| Client.ClientConnection.WriteNext | crates/outpunch-client/src/lib.rs:71-76 | the oldest response is written, or lost when the write fails |
| Client.ClientConnection.OnMessage | crates/outpunch-client/src/lib.rs:78-102 | requests are spawned, other texts ignored, close and end of stream leave the loop |
| Client.ClientConnection.RunConnection | crates/outpunch-client/src/lib.rs:49-110 | the loop runs to the first close frame, end of stream, failed ping or failed write and says which it was, with the response lost; pongs, other frames and other texts never end it; what it received is conserved, and the WebSocket carries the auth document, then the written responses, field by field |
| Client.PlayedExactly | crates/outpunch-client/src/lib.rs:66-107 | the events that end the loop are exactly a close frame, the end of the stream, a failed ping, and a failed write with a response queued |
| Client.PlayedOneWay | crates/outpunch-client/src/lib.rs:66-107 | a schedule of ready branches fixes the number of rounds and the exit |
| Client.Connect | crates/outpunch-client/src/lib.rs:49-110 | one attempt ends as its own events demand, and what it received, answered and wrote concerns that attempt alone |
| Client.Reconnect | crates/outpunch-client/src/lib.rs:37-46 | however an attempt ends the next one is made, and every one plays its own events from an empty session |
| EndToEnd.NetRunsAreServerRuns | crates/outpunch-client/src/lib.rs:49-110 | the server's part of a network run is a run of the server alone |
| EndToEnd.NetAlways | crates/outpunch-client/src/lib.rs:66-107 | in every network run, what is on its way into a connection was written by its client, and every filled slot holds what that client produced for that request |
| EndToEnd.EndToEndCorrelation | crates/outpunch/src/server.rs:147-187 | Ok(r) means r carries the dispatch's id and reports what the client got by forwarding exactly that dispatch's request, on the connection that held the service at the lookup |
| EndToEnd.CallerIsAnswered | crates/outpunch-axum/src/lib.rs:176-202 | what the HTTP caller sees in every network run: the status, headers and bytes the local service gave for exactly its request (500 when its status or a header cannot be sent), 504 or 502 with their texts where forwarding failed, 504 for a tunnel timeout and 502 for any other tunnel failure |
| EndToEnd.FailureAnswer | crates/outpunch-axum/src/lib.rs:176-202 | the status, content type and JSON text the caller sees for each tunnel failure |
| Http.ToHttpExactly | crates/outpunch-axum/src/lib.rs:176-202 | status and headers are kept, a status outside 100 to 999 becomes 500, and the body is decoded exactly when it is marked base64 and is base64, and sent as it stands otherwise |
| Http.UnsendableHeader | crates/outpunch-axum/src/lib.rs:192-201 | one header that cannot be sent turns the answer into 500 `internal error` |
| Base64.DecodesExactly | crates/outpunch-axum/src/lib.rs:182-185 | a text decodes to exactly the bytes of which it is the encoding, and to nothing otherwise |
| Base64.StandardExamples | crates/outpunch-client/src/lib.rs:197-198 | the encoding agrees with the examples of section 10 of RFC 4648 |
| Base64.Alphabet | crates/outpunch-client/src/lib.rs:197-198 | and with its alphabet |
| EndToEnd.NoCrossAnswer | crates/outpunch-client/src/lib.rs:37-110 | in every network run a response written on one connection never names a request received on another |
| NetHistory.NoEarlyAnswer | crates/outpunch/src/server.rs:151-170 | when a request is admitted, nothing that has reached any connection answers it |
| NetHistory.FirstAnswerWins | crates/outpunch/src/server.rs:330-346 | in every network run Ok(r) carries the first message that ever answered the request on its connection, and Disconnected means none ever did |
| Pushing.AlwaysConserved | bindings/ruby/ext/outpunch/src/server.rs:174-189 | however often pushes are cut short and made again: of the client's texts the adapter has taken up, those answering one request are, counted together, held, being pushed, arrived or given up; none is lost while the connection is open |
| Liveness.NextStep | crates/outpunch-client/src/lib.rs:66-107 | while a dispatch waits on a live route and its answer can come, some step of that connection, its client, its adapter or the dispatch is possible |
| Liveness.StepCloser | crates/outpunch-client/src/lib.rs:66-107 | each such step receives the answer or strictly lowers a measure over everything under way on the connection, in both directions |
| Liveness.AnswerReachable | crates/outpunch/src/server.rs:147-187 | from every such state, boundedly many of these steps, with no timeout, cancellation or close among them, end with the dispatch returning a response, whatever the local service makes of the requests |
| GivenUp.ReceivedDistinct | crates/outpunch-client/src/lib.rs:84-99 | no client receives a request twice on a connection |
| GivenUp.AnsweredOnce | crates/outpunch-client/src/lib.rs:66-107 | no client writes two answers to one request |
| GivenUp.OnePlace | bindings/ruby/ext/outpunch/src/server.rs:174-189 | an answer is in at most one place: held, being pushed, arrived or given up; so repeated pushes never make it arrive twice |
| GivenUp.CannotComeNeverDoes | bindings/ruby/ext/outpunch/src/server.rs:174-189 | an answer that cannot come (not on its way, and given up by a raise, or the adapter stopped, or the client gone without writing it) never comes in any continuation |
| GivenUp.AnswerPossible | crates/outpunch/src/server.rs:147-187 | a dispatch that sends or waits on a registered, open route can still return a response if and only if its answer is being pushed or has arrived, or the adapter still pushes and has not given it up, and the client still runs or has written it |
| Scenario.RetryBringsAnswer | bindings/ruby/ext/outpunch/src/server.rs:174-189 | the same run one step earlier: the push was cut short by an interrupt that raised nothing, and the dispatch can still return its response |
| Scenario.AnswerCanBeLost | bindings/ruby/ext/outpunch/src/server.rs:174-189 | one concrete run: the client has answered, Ruby raises out of the push, the route is not closed yet, and no continuation makes the waiting dispatch return a response |
| EndToEnd.HandshakeMeetsAnAnswer | crates/outpunch-client/src/lib.rs:135-152 | the client's handshake only ever meets auth_ok or auth_error |
| Query.SplitJoin | crates/outpunch-axum/src/lib.rs:149-149 | splitting at a separator undoes joining pieces free of it |
| Query.JoinSplit | crates/outpunch-axum/src/lib.rs:149-149 | joining undoes splitting, and no piece holds the separator |
| Query.SplitCuts | crates/outpunch-axum/src/lib.rs:149-149 | pieces come in the order of the text, cut at every separator |
| Query.ParseQueryKeepsLastPair | crates/outpunch-axum/src/lib.rs:144-155 | a key k is in the parsed query exactly when some piece of the text is k, `=` and a value, k being free of `=`; the last such piece gives its value |
| Query.NoPairsNoKeys | crates/outpunch-axum/src/lib.rs:149-153 | without a query, or without any `=` in it, the parsed query is empty |
| Query.UrlParts | crates/outpunch-client/src/lib.rs:155-163 | the URL is the base without its trailing slashes, `/`, the path and, unless the query is empty, `?` and the pairs k=v in order, joined by `&` |
| Query.PrintParse | crates/outpunch-client/src/lib.rs:155-163 | parsing the printed query gives the map back if and only if keys are free of `=` and `&` and values of `&` |
| Query.QueryRoundTrip | crates/outpunch-axum/src/lib.rs:144-155 | every raw query survives parse, print and parse, in any iteration order |
| Query.UrlRoundTrip | crates/outpunch-client/src/lib.rs:155-163 | every query a request line can carry, in any iteration order, comes through on the URL the client calls (if its HTTP client takes the base for a URL at all) if and only if neither the configured base nor the path holds a `?` or a `#` |
| Query.QueryLost | crates/outpunch-client/src/lib.rs:155-163 | a base or path with a `?` or a `#` does lose some query: one pair with a key at least as long as all that precedes the query |
| Query.QuestionMarkInPath | crates/outpunch-client/src/lib.rs:155-163 | a path that brings `?x=y` makes the local service see the key x, its value running on into the query, in place of the query's own key |
| Query.QuestionMarkExample | crates/outpunch-client/src/lib.rs:155-163 | the failure at one input: base `http://h`, path `x?a=1`, query b=2 is read back as a=`1?b=2` |
| Query.HashInPath | crates/outpunch-client/src/lib.rs:155-163 | a path that brings a `#` turns the whole query, whatever it is, into a fragment: the local service is called with no query |
| Query.HashExample | crates/outpunch-client/src/lib.rs:155-163 | the failure at one input: base `http://h`, path `x#y`, query b=2 is gone |
| RubyBinding.CallDecided | bindings/ruby/ext/outpunch/src/server.rs:31-45 | behind any number of attempts that were not run or cut short without raising, the next one decides: finished, the call completes, and an interrupt that came too late is met by the next call; otherwise it raises |
| RubyBinding.RetryStopsAtDecisive | bindings/ruby/ext/outpunch/src/server.rs:31-45 | the retry loop ends at the first attempt that completes or raises, leaving the attempts after it and, first of all, an interrupt that came as the function completed |
| RubyBinding.ExceptionsAccounted | bindings/ruby/ext/outpunch/src/gvl.rs:62-70 | over any number of calls every exception an interrupt carries is raised exactly once or still to come |
| RubyBinding.Call.Trampoline | bindings/ruby/ext/outpunch/src/gvl.rs:13-19 | the function is taken before it runs, so it runs at most once per call block |
| RubyBinding.Binding.WithoutGvl | bindings/ruby/ext/outpunch/src/gvl.rs:42-72 | the three outcomes: ran once (an interrupt during completion stays pending), cut short with no effect, or raised with no effect; calls that did not run are repeated |
| RubyBinding.Binding.Retry | bindings/ruby/ext/outpunch/src/server.rs:31-45 | the closure completes exactly once when the first decisive attempt completes, and never when that attempt raises |
| RubyBinding.Binding.PushMessage | bindings/ruby/ext/outpunch/src/server.rs:174-189 | Ok exactly when an attempt completes before one raises; Ok pushed the text once, Err pushed nothing |
| RubyBinding.Binding.NextOutgoing | bindings/ruby/ext/outpunch/src/server.rs:193-208 | returns the next message in order or the end, and takes nothing on Err |
| RubyBinding.Binding.IsConnected | bindings/ruby/ext/outpunch/src/server.rs:93-107 | the answer is the core's, whatever non-raising interrupts came first |
| RubyBinding.Binding.HandleRequest | bindings/ruby/ext/outpunch/src/server.rs:110-152 | the dispatch is spawned once, for a request that carries this call field by field; what its run in the server returned is joined and translated, an Ok answer carries its id and a generic error can only be Disconnected, or it is aborted once when Ruby raises |
| RubyBinding.Binding.RunConnection | bindings/ruby/ext/outpunch/src/server.rs:217-224 | run() is spawned once and has returned; a raise closes the connection first |
| RubyBinding.Binding.PumpOutgoing | bindings/ruby/ext/outpunch/src/server.rs:193-208 | of any number of calls each one not raised into takes the next message while there is one; together they return a stretch of the stream without gap or repetition |
| RubyBinding.Binding.PushAll | bindings/ruby/ext/outpunch/src/server.rs:174-189 | over any number of calls the core gets exactly the texts whose call was not raised into, once each, in order |
| RubyBinding.PushesLostAreRaises | bindings/ruby/ext/outpunch/src/server.rs:174-189 | of any number of pushes as many are lost as calls raised, and each exception is raised into one call or still to come |
| RubyServer.WithdrawnLeavesNothing | bindings/ruby/ext/outpunch/src/server.rs:174-189 | a push that is cut short is a run of the server's protocol that spends a call id and changes nothing else |
| RubyServer.DeliveredAppends | bindings/ruby/ext/outpunch/src/server.rs:174-189 | a push that completes on an open connection is a run that appends the text to the incoming channel and changes nothing else |
| RubyServer.PushesArriveOnce | bindings/ruby/ext/outpunch/src/server.rs:174-189 | in every run of the server in which one thread's calls push on the connection, finished or still trying, with any steps in between: what arrives is the text of each call that delivered, once and in order; while the connection is open these are exactly the finished calls not raised into |
| RubyServer.OutgoingExactlyOnce | bindings/ruby/ext/outpunch/src/server.rs:193-208 | what any number of calls not raised into return is an initial stretch of everything the server ever enqueued for the client, and all of it once run() has returned and enough calls completed |

## Left out

- WebSocket, TCP, TLS and HTTP input and output: the WebSocket is in-order text delivery, the local service an arbitrary outcome.
- JSON text syntax: a text is either not JSON or stands for one JSON value.
- The client's call to the local service beyond its URL (method fallback, headers and body passed on): the local service is an arbitrary outcome.
- Http.ToHttpExactly: header names are compared as they are written, although HTTP ignores their case; what the HTTP library accepts as a header is part of the model, its other limits are not.
- Parse error texts: errors are told apart by kind, not by wording.
- Real time: timeouts are steps that may happen at any point; ping intervals, reconnect delays and the adapter's flush delay are not modelled.
- JunkErasure.JunkChangesNothing: erases what a relay loop consumed as junk; a message nobody ever read stays in the log, where it has no effect either.
- Client.Reconnect: runs a given finite list of attempts where the source loops for ever.
- Server.Connection.Relaying: follows the loop for any given number of waits, as the loop itself need never end; Interference stands for everybody else, and its contract is all that is used of it.
- RubyServer.PushesArriveOnce: one thread pushes on the connection; how several threads share one Ruby connection object is not modelled.
- Liveness.AnswerReachable: says that the answer can come, not that a scheduler lets it; fairness is not modelled, and a timeout may always come first.
- RubyBinding.Binding.NextOutgoing: waiting for the receiver's own lock, held by another thread, is not modelled.
- Dispatch futures: their local variables are values of the step system rather than objects.
- The order in which several waiting pushes get room in a full channel: any order is allowed.
- Panics, aborted run() futures, connection ids beyond 64 bits, and memory or GVL mechanics of the bindings.
- Python and Node bindings, Rack and Rails adapters, header filtering, body limits, path handling, configuration and release scripts: they would only add easy members.
- Percent-encoding in URLs: query text is taken as it stands, and what the HTTP client encodes for transport counts as unchanged.
