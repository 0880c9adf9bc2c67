# Configuration-phase client session handler

This project models the proxy's client-side session handler for the
configuration phase of a Minecraft Java connection
(`clientConfigSessionHandler` in `pkg/edition/java/proxy/session_client_config.go`).
For each packet decoded from the client, the handler does one of four things:

- handles it locally: client settings, the client's FinishedUpdate, the brand message;
- relays it to the backend connection in flight or to the connected server;
- routes it through a policy event first: plugin messages on registered channels, cookie responses;
- drops it.

It also owns a little state:

- `brandChannel`;
- the `configSwitchDone` completion signal.

Through the player it also updates:

- the active session handler;
- the client writer's phase;
- the auto-reading flag.

It relays the backend's FinishedUpdate to the client through `handleBackendFinishUpdate`.

The model has four modules:

- `Protocol` (protocol.dfy) holds the values: packets, the collaborators' answers, the session state and the observable effects.
- `ConfigRouting` (routing.dfy) gives each operation as a pure step function. A step maps the session state and the collaborators' answers to the new state plus the effects, in order. The step's contract states what the source promises for every branch.
- `ClientConfigSession` (handler.dfy) is the handler as a class. It holds the handler's own fields, a `Player` object for the player fields it updates, the outstanding plugin-message callbacks, and the trace of effects. Each method that models a step is proved to leave exactly the state and append exactly the effects of its step function; `Disconnected`, `HandleKnownPacks` and `ForwardCookieReceive` state their effects directly. Each entry-point method (`HandlePacket`, `HandlePluginMessage`, `PluginMessageCallback`, `HandleCookieResponse`, `HandleBackendFinishUpdate`, `Disconnected`) also keeps the invariant that every pause of auto-reading is matched by a resume or by an outstanding callback.
- `ConfigRuns` (runs.dfy) covers whole sessions. A session is any interleaving of client packets, deferred plugin-message callbacks (completed in any order), the backend-finished hook and a disconnect. The lemmas here are proved by induction over the session, plus a few two-step scenarios.

Side effects are entries in a trace:

- writes to a backend, naming the connection;
- writes to the client;
- invocations of `forwardToServer`, `forwardKeepAlive`, `setClientSettings`, the resource-pack handler and `teardown`;
- fired events;
- auto-reading switches.

The asynchronous callback that `FireParallel` runs is an explicit later step: `Complete(k, cb)` in `ConfigRuns`, `PluginMessageCallback` in the class. Until that step runs, the event stays in the `pending` list.

Two behaviours of the code are reproduced as written:

- The brand packet that `handleBackendFinishUpdate` synthesises encodes the local `brand`. The guard has just checked that `brand` is empty, so the backend always receives the encoding of the empty string. `BackendFinishStep` and `BrandAnnouncedAsEmptyString` state this.
- The brand message handler records only `brandChannel` and fires `PlayerClientBrandEvent`. It never stores the brand on the player, as `ClientBrandNeverStored` states. One might expect the brand to be cached when it arrives, for reuse across backend switches; the code records only the channel, and the model follows the code.

## Model

| member | source | states |
|---|---|---|
| ClientConfigSession.ClientConfigSessionHandler.constructor | pkg/edition/java/proxy/session_client_config.go:32-39 | a fresh handler: empty `brandChannel`, `configSwitchDone` not completed, nothing outstanding, empty trace, pause balance holds |
| ClientConfigSession.ClientConfigSessionHandler.Disconnected | pkg/edition/java/proxy/session_client_config.go:41-44 | disconnecting only invokes the player's teardown |
| ClientConfigSession.ClientConfigSessionHandler.HandlePacket | pkg/edition/java/proxy/session_client_config.go:46-79 | handling a client packet leaves exactly the state and appends exactly the effects of `HandlePacketStep`, and keeps every pause of reading matched by a resume or an outstanding callback |
| ClientConfigSession.ClientConfigSessionHandler.RelayPacket | pkg/edition/java/proxy/session_client_config.go:47-77 | the arms of the type switch that only hand the packet on append exactly `RelayEffects`: an unknown or unmatched packet is forwarded, keep-alive and settings go to their helpers, a resource-pack response is offered and forwarded unless consumed, ping-identify and known packs go to a connected backend |
| ClientConfigSession.ClientConfigSessionHandler.HandlePluginMessage | pkg/edition/java/proxy/session_client_config.go:117-165 | a plugin message changes the state and appends the effects exactly as `PluginMessageStep`, keeping the pause balance |
| ClientConfigSession.ClientConfigSessionHandler.RoutePluginMessage | pkg/edition/java/proxy/session_client_config.go:118-164 | the branches of `handlePluginMessage` update `brandChannel`, the reading flag and the outstanding events, and append the effects, exactly as `PluginMessageStep` |
| ClientConfigSession.ClientConfigSessionHandler.PluginMessageCallback | pkg/edition/java/proxy/session_client_config.go:152-163 | the deferred callback of any outstanding event writes and resumes reading exactly as `PluginCallbackStep`, and removes that event from the outstanding ones |
| ClientConfigSession.ClientConfigSessionHandler.HandleKnownPacks | pkg/edition/java/proxy/session_client_config.go:167-172 | known packs are written to the reachable backend, if there is one, and nothing else happens |
| ClientConfigSession.ClientConfigSessionHandler.HandleCookieResponse | pkg/edition/java/proxy/session_client_config.go:178-189 | the cookie event is fired, and an allowed response goes to the reachable backend, exactly as `CookieStep` |
| ClientConfigSession.ClientConfigSessionHandler.ForwardCookieReceive | pkg/edition/java/proxy/session_client_config.go:191-204 | exactly one cookie-response write, carrying `ForwardedCookie` of the original and the event |
| ClientConfigSession.ClientConfigSessionHandler.HandleBackendFinishUpdate | pkg/edition/java/proxy/session_client_config.go:82-105 | returns `configSwitchDone` (true) or nil (false), sets the writer state and appends the writes exactly as `BackendFinishStep`, keeping the pause balance |
| ClientConfigSession.ClientConfigSessionHandler.FinishConfiguration | pkg/edition/java/proxy/session_client_config.go:83-104 | the early returns, the brand announcement, the relay of FinishedUpdate and the writer switch give exactly the result, state and effects of `BackendFinishStep` |
| ConfigRouting.HandleResourcePackResponse | pkg/edition/java/proxy/session_client_config.go:107-115 | a handler error counts as consumed; otherwise the handler's `handled` answer decides |
| ConfigRouting.ForwardedCookie | pkg/edition/java/proxy/session_client_config.go:191-199 | the key is the override when one is set and the original otherwise, and the payload likewise; with no override the cookie is the original |
| ConfigRouting.ReachableServer | pkg/edition/java/proxy/session_client_config.go:168 | the in-flight connection is used iff it exists and is connected. The connected server is used iff nothing is in flight and it is connected. The connection handed to the backend-finished hook is never chosen |
| ConfigRouting.PluginMessageStep | pkg/edition/java/proxy/session_client_config.go:117-165 | dropped when nothing is in flight, or for BungeeCord. A brand message records only `brandChannel` and fires one brand event. An unregistered channel is written verbatim to the in-flight server iff it is connected. A registered channel pauses reading, then fires its event with the in-flight connection as source, and becomes outstanding. Only the verbatim message is ever written, and `brandChannel` changes only for a brand message |
| ConfigRouting.PluginCallbackStep | pkg/edition/java/proxy/session_client_config.go:152-163 | reading is resumed as the last effect and the event leaves the outstanding ones. There is at most one write, then the resume, and nothing else. The message is written iff the event is allowed and the connection active and connected. The write keeps the original channel and carries the event's data |
| ConfigRouting.CookieStep | pkg/edition/java/proxy/session_client_config.go:178-189 | the state is unchanged and the event is fired first, followed by at most one write and nothing else. A denial writes nothing. Something is written iff the event is allowed and a backend is reachable, and it is the single `ForwardedCookie` response. With no override the input is forwarded unchanged |
| ConfigRouting.RelayEffects | pkg/edition/java/proxy/session_client_config.go:47-77 | an unknown or unmatched packet is only forwarded to the server; a keep-alive is only handed to `forwardKeepAlive`; client settings are only stored on the player and never forwarded; no relayed packet is written to the client, switches reading or fires a brand event |
| ConfigRouting.HandlePacketStep | pkg/edition/java/proxy/session_client_config.go:46-79 | only plugin messages and FinishedUpdate change the state, nothing is written to the client, and the client brand and writer phase are untouched |
| ConfigRouting.UnmatchedPacketForwarded | pkg/edition/java/proxy/session_client_config.go:47-49 | an unknown packet or an unmatched known packet is forwarded unchanged, and nothing else happens |
| ConfigRouting.DeliverCookie | pkg/edition/java/proxy/session_client_config.go:74-75 | a cookie response from the client is handled exactly as `CookieStep` |
| ConfigRouting.KeepAliveAndSettingsHandedOn | pkg/edition/java/proxy/session_client_config.go:52-55 | a keep-alive only invokes the keep-alive forwarder and client settings are only stored on the player: nothing is written and the session is unchanged |
| ConfigRouting.ClientFinishedUpdateSwitchesToPlay | pkg/edition/java/proxy/session_client_config.go:60-62 | the client's FinishedUpdate installs the Play handler, completes `configSwitchDone` and writes nothing |
| ConfigRouting.ResourcePackForwardedUnlessConsumed | pkg/edition/java/proxy/session_client_config.go:56-59 | a resource-pack response is offered to the handler, and forwarded once iff not consumed; nothing else happens |
| ConfigRouting.PingIdentifyOnlyToInFlight | pkg/edition/java/proxy/session_client_config.go:65-71 | ping-identify goes to the in-flight server iff it exists and is connected |
| ConfigRouting.KnownPacksRelayed | pkg/edition/java/proxy/session_client_config.go:72-73 | known packs go, unchanged, to the reachable backend iff there is one |
| ConfigRouting.PluginMessageBalanced | pkg/edition/java/proxy/session_client_config.go:144-147 | a plugin message never resumes reading, and pauses it exactly when it leaves one more event outstanding |
| ConfigRouting.PluginCallbackResumesOnce | pkg/edition/java/proxy/session_client_config.go:152-163 | a callback resumes reading exactly once, whatever the verdict and the connection, never pauses it, and leaves one event fewer outstanding |
| ConfigRouting.BackendFinishBalanced | pkg/edition/java/proxy/session_client_config.go:82-105 | the backend-finished hook never switches reading and leaves the outstanding events alone |
| ConfigRouting.HandlePacketBalanced | pkg/edition/java/proxy/session_client_config.go:144-146 | handling a client packet never resumes reading, and pauses it once per event it leaves outstanding |
| ConfigRouting.BackendFinishStep | pkg/edition/java/proxy/session_client_config.go:82-105 | not connected: nothing happens and nil is returned. `configSwitchDone` is returned iff connected and the client write succeeded, and only then is the writer set to Play. FinishedUpdate is relayed last whenever connected. A brand packet precedes it iff the client brand is empty and a brand channel was recorded, and it carries the encoding of the empty string |
| ConfigRuns.RunBalanced | pkg/edition/java/proxy/session_client_config.go:144-163 | over any session, pauses of reading equal resumes plus the events still outstanding |
| ConfigRuns.DrainedRunResumesEveryPause | pkg/edition/java/proxy/session_client_config.go:146-162 | once every callback has run, each pause has been resumed exactly once |
| ConfigRuns.ReadingOnWhenDrained | pkg/edition/java/proxy/session_client_config.go:146-162 | reading is never left switched off when no event is outstanding |
| ConfigRuns.SwitchDoneOnlyByClientFinish | pkg/edition/java/proxy/session_client_config.go:60-62 | `configSwitchDone` stays completed once completed, and only the client's FinishedUpdate completes it |
| ConfigRuns.ClientBrandNeverStored | pkg/edition/java/proxy/session_client_config.go:123-129 | no session of this handler changes the player's client brand |
| ConfigRuns.BrandChannelOnlyWithBrandEvent | pkg/edition/java/proxy/session_client_config.go:123-126 | `brandChannel` changes only in a session that fired a client-brand event |
| ConfigRuns.ClientOnlyGetsFinishedUpdate | pkg/edition/java/proxy/session_client_config.go:99-102 | FinishedUpdate is the only packet ever written to the client, and the writer phase only ever changes to Play, in a session that relayed it |
| ConfigRuns.PluginMessageRoundTrip | pkg/edition/java/proxy/session_client_config.go:144-163 | suppose a registered message is allowed unchanged and the connection is up at callback time. Then the backend gets exactly the received message, between one pause and one resume, and the state is as before except that reading is on |
| ConfigRuns.PluginMessageResumedOnce | pkg/edition/java/proxy/session_client_config.go:146-162 | a registered message and its callback pause and resume exactly once each, whatever the verdict or the connection. The only possible write is the original channel with the event's data, and it happens iff allowed, active and connected |
| ConfigRuns.BrandAnnouncedAsEmptyString | pkg/edition/java/proxy/session_client_config.go:87-96 | after a brand message, and with the client brand still empty, the finishing backend is sent the empty string's encoding on the recorded channel, then FinishedUpdate goes to the client; the client brand stays empty |
| ConfigRuns.CookieDeniedThenForwarded | pkg/edition/java/proxy/session_client_config.go:180-188 | a denied cookie response is not written, and a following one allowed without overrides is forwarded unchanged |

## Left out

- Socket I/O and what `WritePacket` does internally. A write is a trace entry. The source ignores every write error except the client write in `handleBackendFinishUpdate`, and only that write has a success flag (`clientWriteOk`).
- `ensureConnected`: its code is not part of this model. It is an input answer per connection (`Link`). On a missing connection it is taken to answer "not connected".
- The event bus: `Fire`, `FireParallel` and the pool that runs callbacks. Firing is a trace entry and the verdict is an input. A parallel callback is a later `Complete` step, and outstanding callbacks may complete in any order.
- `future.Future`: only whether `configSwitchDone` has been completed is kept (`switchDone`). Nothing is claimed about completing it more than once.
- The resource-pack handler, `ChannelRegistrar().FromID`, `plugin.McBrand`, `plugin.ReadBrandMessage` and `bungeecord.IsBungeeCordMessage`: their answers are inputs (`Env`).
- `forwardToServer`, `forwardKeepAlive`, `setClientSettings` and `teardown`: they are in other files. Only their invocation is recorded.
- `SetActiveSessionHandler(state.Play, …)`: the switch of the connection's protocol state and the new play handler are one value, `ClientPlayHandler`. Whatever that call may do to the connection's writer is not modelled, so the modelled `writer` changes only through `Writer().SetState` in `handleBackendFinishUpdate`, and `ClientOnlyGetsFinishedUpdate` speaks about that change only.
- The byte layout of `util.WriteString`: the brand payload is `EncodedString(brand)`.
- Logging and the handler's logger.
- The plugin-message callback writes to the in-flight connection captured when the message arrived. The model names it `InFlight` and takes its state at callback time as an input (`CallbackEnv`).
- One might expect a failed write on either side to abort the backend handoff. The code ignores a failed brand write and continues, and the model follows the code.
- `ClientConfigSession.Player` is a fixture, not a model of source lines: the handler is created for a player assumed to be in the configuration phase, with the config handler active, the writer in Config and reading on. How the player got there is outside this model.
- `ConfigRuns.Run` accepts any sequence of inputs, including client packets delivered after the client's FinishedUpdate installed the Play handler, and inputs after `Disconnect`. The connection's dispatcher never produces those sequences, so the session lemmas cover more sequences than can occur.
- The `PluginMessageEvent` effect names its source connection (`InFlight`, the in-flight backend, as at lines 148-149) and leaves its target implicit: it is always the player. The player's other fields that policy can read are not modelled.
