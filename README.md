# Antigravity monitor: instance-control protocol, in Dafny

This project models the instance-control protocol of the Antigravity monitor ("BOB"). The protocol runs between two parts:

- **The companion editor extension** runs in every Antigravity window. It reads the window's agent state from editor context keys. It runs actions through editor commands. It talks to the monitor over a websocket.
- **The monitor hub** keeps a registry of connected extensions. It forwards requests from the monitor's front end to them.

The front end matches extensions to the editor windows it tracks. It also keeps its own instance list, built from window scans.

The modules follow the program's files:

| module | file | models |
|---|---|---|
| `Protocol` | protocol.dfy | message types, `AntigravityState`, `HelloPayload`, `ActionResult` |
| `Editor` | editor.dfy | the editor host: command registry as an oracle, thrown values, workspace folder name |
| `StateReader` | state_reader.dfy | the seven-flag reduction, the log dedup, the `StateWatcher` class |
| `Actions` | actions.dfy | `executeAction`, the single-command actions, `retryAction`, two-tier `sendPrompt` |
| `Extension` | extension.dfy | `handleMessage` dispatch, the connection/reconnect session (`Session` class) |
| `WsServer` | ws_server.dfy | the hub registry, one link's receive loop, `send_to_extension`, `get_connected_extensions`, `broadcast` |
| `Lists` | lists.dfy | `Array.prototype.find` as used by the front end |
| `WebsocketClient` | websocket.dfy | extension/instance matching, `getStateSilent`, the silent-action wrappers |
| `Types` | types.dfy | `Instance`, `Settings`, scan results, status reports |
| `Store` | store.dfy | window-title parsing, the scan merge, the status refresh (`InstanceStore` class) |

Modelling choices:

- **Host calls.** Each host command call is a value `Invocation(command, args)`. The command registry is a total function from invocations to `Completed` or `Failed(thrown)`.
- **Traces.** Actions return their result together with a trace of attempts, sleeps and `simulateEnter` pushes, so every ordering claim is a statement about that trace.
- **Timers.** Timers, intervals and sleeps are flags, explicit fire/tick methods and trace markers.
- **Websockets.** The extension's websocket is a socket id with a ready state, plus the list of frames sent on each socket. Events from any socket created so far can be delivered.
- **Hub links.** Each accepted hub connection is a link with its own channel: a list of queued text messages and whether its receiver is still alive. Each registry entry records the link whose channel its sender feeds.
- **Iteration order.** `HashMap` iteration order is unspecified, so it is modelled as an arbitrary choice.

Three behaviours of the code worth noting:

- **`state` replies.** A `state` reply from an extension does not refresh the hub's cached state. Only `stateChanged` does (src-tauri/src/ws_server.rs:346-355 only logs it). `WsServer.OtherFramesLeaveRegistry` states this.
- **`reject`.** The extension's protocol has no `reject` request: `handleMessage` has no case for it. A `reject` request therefore gets the unknown-type error. The `RejectChanges` action still models `rejectChanges`.
- **Late close events.** After `disconnect`, the closed socket's own `close` event still runs the close handler. With auto-connect on, that handler schedules a reconnect (`Extension.DisconnectThenCloseReschedules`).

## Model

| member | source | states |
|---|---|---|
| StateReader.Reduce | bob-helper-extension/src/stateReader.ts:35-48 | Enter is shown iff no accept flag is exactly true, the terminal flag is not exactly true, and input-focused is not explicitly false. At least one of enter, working, accept or terminal holds. Enter excludes the other three. Working excludes accept and terminal, and needs input-focused to be explicitly false. The workspace name is passed through. |
| StateReader.AcceptAndTerminalFlags | bob-helper-extension/src/stateReader.ts:36-37 | `hasAcceptButton` iff one of the three accept/reject flags is exactly true; `terminalPending` iff the terminal flag is exactly true. |
| StateReader.RetryIndependent | bob-helper-extension/src/stateReader.ts:48 | `hasRetryButton` depends only on the retry and error flags, and holds iff one of them is exactly true. |
| StateReader.UnavailableNeverHidesEnter | bob-helper-extension/src/stateReader.ts:39-45 | Turning any one flag into "unavailable" never makes a shown Enter button disappear. |
| StateReader.ThrownReadIsUnavailable | bob-helper-extension/src/stateReader.ts:73-80 | For each of the seven context keys, a read that throws gives the same state as a read that returned `undefined`; the read still completes. |
| StateReader.SignatureInjective | bob-helper-extension/src/stateReader.ts:50 | Two snapshots have the same log signature iff their five flags agree; the workspace name plays no part. |
| StateReader.SignatureNonEmpty | bob-helper-extension/src/stateReader.ts:50-54 | No signature equals the initial empty signature, so the first read always logs. |
| StateReader.StateChangeLog.ReadAntigravityState | bob-helper-extension/src/stateReader.ts:16-67 | Returns the reduced state of the given reads and folder. Stores its signature. Appends one log line exactly when the signature differs from the stored one. |
| StateReader.StateWatcher.constructor | bob-helper-extension/src/stateReader.ts:87-94 | A new watcher is not polling and has delivered nothing. |
| StateReader.StateWatcher.Start | bob-helper-extension/src/stateReader.ts:96-108 | Polling afterwards; a watcher already polling keeps its interval. |
| StateReader.StateWatcher.Stop | bob-helper-extension/src/stateReader.ts:110-115 | Not polling afterwards, whatever it was before (idempotent); nothing else changes. |
| StateReader.StateWatcher.Tick | bob-helper-extension/src/stateReader.ts:99-106 | Fires iff the snapshot differs from the last one delivered (the first tick always fires), and records it as the last one. |
| StateReader.DeliveriesChangeEachTime | bob-helper-extension/src/stateReader.ts:99-106 | Over any run of polls, consecutive deliveries differ, the first differs from the starting snapshot, every delivery was polled, and there are no more deliveries than polls. |
| StateReader.DeliveriesOfRepeats | bob-helper-extension/src/stateReader.ts:99-106 | Repeated identical polls deliver at most once, and not at all when that snapshot was the last delivered. |
| StateReader.DeliveriesAppend | bob-helper-extension/src/stateReader.ts:99-106 | A run of polls splits into two runs, the second starting from the first's last delivery. |
| StateReader.RunTicks | bob-helper-extension/src/stateReader.ts:99-106 | Ticking a watcher once per snapshot hands the callback exactly `Deliveries` of those snapshots and leaves the last one as its last state. |
| Editor.WorkspaceName | bob-helper-extension/src/stateReader.ts:57 | The default is used iff there is no folder, its name is empty, or its name is the default; any other result is the folder's name. |
| Actions.FirstCompleted | bob-helper-extension/src/actions.ts:58-65 | The index of the first candidate that completes (or the count when none does); every earlier one fails. |
| Actions.ExecuteAction | bob-helper-extension/src/actions.ts:146-157 | One attempt of the command. Success iff it completes. The result carries the logical name, with the thrown message as error on failure. |
| Actions.RunSimpleAction | bob-helper-extension/src/actions.ts:11-44 | Each single-command action runs exactly its fixed command id once and reports its fixed logical name. |
| Actions.SimpleActionsDistinct | bob-helper-extension/src/actions.ts:11-44 | Distinct single-command actions have distinct command ids and distinct logical names. |
| Actions.RetryAction | bob-helper-extension/src/actions.ts:50-72 | Tries the three candidates in order and stops at the first that completes. If only candidate k completes, exactly k attempts are made and the result is success. If all fail, three attempts and `error: "No retry command found"`. |
| Actions.SendPrompt | bob-helper-extension/src/actions.ts:77-142 | If a direct command succeeds, the trace is the attempts up to it, with no write, focus, sleep or push. If all four fail, they are followed by the write `(true, text)`, sleep 400, focus, sleep 200 and one `simulateEnter`, in that order. A failing write or focus ends the trace there without a push, and the result is an error. |
| Actions.PromptFailureHasPrefix | bob-helper-extension/src/actions.ts:134-141 | A failed sendPrompt always has an error that starts with `sendPrompt failed: `. |
| Actions.ReportedNamesAreLogical | bob-helper-extension/src/actions.ts:11-72 | The `action` of every result is a logical name, and no logical name is a command id. |
| Extension.Respond | bob-helper-extension/src/extension.ts:137-208 | Exactly one reply, last, echoing the request id, with its full payload per request type: the state, the action's result, the retry result, the prompt result, a pong with the time, or an error (empty prompt: "No prompt text provided"; unknown type: the type named). Before the reply there is nothing, except the one `simulateEnter` that a prompt pushes when Tier 2 succeeded. The earlier messages are the trace's pushes. An empty prompt, getState, ping and unknown types run nothing. |
| Extension.PromptPushes | bob-helper-extension/src/extension.ts:181-193 | A prompt's trace pushes exactly one `simulateEnter` when every direct-send command failed and the write and focus completed, and nothing otherwise. |
| Extension.Session.constructor | bob-helper-extension/src/extension.ts:16-18 | No socket, no timer, no watcher, nothing sent. |
| Extension.Session.Send | bob-helper-extension/src/extension.ts:257-262 | The message goes out on the current socket iff it is open; otherwise it is dropped. |
| Extension.Session.SendAll | bob-helper-extension/src/extension.ts:257-262 | Several sends under the same guard, in order. |
| Extension.Session.ScheduleReconnect | bob-helper-extension/src/extension.ts:236-246 | A timer is pending afterwards iff one was already pending or auto-connect is on. |
| Extension.Session.ClearReconnectTimer | bob-helper-extension/src/extension.ts:248-253 | No timer is pending afterwards. |
| Extension.Session.StartStateWatcher | bob-helper-extension/src/extension.ts:212-224 | An existing watcher is kept. Otherwise a fresh polling watcher is created. |
| Extension.Session.StopStateWatcher | bob-helper-extension/src/extension.ts:226-232 | No watcher afterwards (idempotent); a stopped watcher no longer polls. |
| Extension.Session.Connect | bob-helper-extension/src/extension.ts:58-121 | A no-op while the socket is open. Otherwise a new connecting socket, or a scheduled reconnect when the constructor throws. |
| Extension.Session.ReconnectTimerFires | bob-helper-extension/src/extension.ts:242-245 | The timer field is cleared before connect runs. |
| Extension.Session.Disconnect | bob-helper-extension/src/extension.ts:123-133 | Clears the timer, drops the watcher and forgets the socket; nothing is sent. |
| Extension.Session.OnOpen | bob-helper-extension/src/extension.ts:74-89 | Clears the timer. Sends the hello (id `hello`, workspace defaulting to `unknown`) before the watcher starts. On a freshly opened socket, the hello is its first frame. |
| Extension.Session.OnClose | bob-helper-extension/src/extension.ts:100-105 | Stops the watcher and schedules a reconnect. |
| Extension.Session.OnError | bob-helper-extension/src/extension.ts:107-115 | Changes nothing; in particular it schedules no reconnect. |
| Extension.Session.HandleMessage | bob-helper-extension/src/extension.ts:137-208 | The frames that go out through the send guard are exactly the replies `Respond` states, with getState answering the freshly read state. On getState the reader stores the new signature and logs one line exactly when it changed. Any other request leaves the reader unchanged. |
| Extension.Session.OnMessage | bob-helper-extension/src/extension.ts:91-98 | An unparseable frame sends nothing and leaves the reader as it was. A parsed request is handled as `HandleMessage` states: the frames added are its replies, and only on an open socket; the reader changes only on getState. |
| Extension.Session.WatcherTick | bob-helper-extension/src/extension.ts:215-221 | A `stateChanged` push is sent exactly when the watcher saw a new snapshot and the socket is open. The watcher records the snapshot and keeps its interval. The reader stores the new signature and logs one line exactly when it changed. |
| Extension.DisconnectThenCloseReschedules | bob-helper-extension/src/extension.ts:123-133 | After disconnect, the old socket's close event leaves a reconnect pending with no socket. |
| Extension.HelloThenReply | bob-helper-extension/src/extension.ts:74-148 | On a new connection: first the hello, then the `state` reply echoing the request id. |
| WsServer.HelloRegisters | src-tauri/src/ws_server.rs:313-331 | A decodable hello inserts, or overwrites, its entry with no state, and sets the link's window id. |
| WsServer.StateChangedUpdatesOwnEntry | src-tauri/src/ws_server.rs:333-345 | After a hello, stateChanged replaces only that entry's state, and only while the entry exists. |
| WsServer.OtherFramesLeaveRegistry | src-tauri/src/ws_server.rs:346-392 | Responses, unknown types, unparseable and non-text frames change neither the registry nor the link's window id. |
| WsServer.LoopBeforeHello | src-tauri/src/ws_server.rs:333-345 | Before any decodable hello, nothing on the link changes the registry. |
| WsServer.LoopTouchesOwnEntries | src-tauri/src/ws_server.rs:308-394 | A link's loop leaves every entry it did not say hello as untouched. |
| WsServer.LoopKeepsWellKeyed | src-tauri/src/ws_server.rs:313-331 | Every entry stays keyed by its own window id. |
| WsServer.Cleanup | src-tauri/src/ws_server.rs:396-400 | Removes exactly the link's most recent window id. |
| WsServer.EarlierHelloSurvives | src-tauri/src/ws_server.rs:387-400 | After two hellos and a Close, the first entry remains and the second is gone. |
| WsServer.Hub.constructor | src-tauri/src/ws_server.rs:264-265 | An empty registry. |
| WsServer.Hub.Accept | src-tauri/src/ws_server.rs:294-296 | A new link with an empty open channel and no window id. |
| WsServer.Hub.Receive | src-tauri/src/ws_server.rs:308-394 | A Close frame or stream error ends the loop and changes nothing. Any other item is one step of the pure transition. |
| WsServer.Hub.Finish | src-tauri/src/ws_server.rs:396-401 | The cleanup, the end of the link's loop, and its channel closed. |
| WsServer.Hub.RunLink | src-tauri/src/ws_server.rs:296-401 | The whole receive loop equals the pure loop over the frames, followed by cleanup and a closed channel. |
| WsServer.Hub.SendToExtension | src-tauri/src/ws_server.rs:413-429 | `Extension not connected: <id>` for an absent key. `Send failed: channel closed` when the entry's channel is closed. Otherwise the message is appended to that channel only. |
| WsServer.Hub.GetConnectedExtensions | src-tauri/src/ws_server.rs:432-446 | Exactly one `(windowId, workspaceName, lastState)` per entry, with no duplicates. |
| WsServer.Hub.Broadcast | src-tauri/src/ws_server.rs:449-459 | Every open channel receives one copy per entry it feeds, after what it had. Closed channels are unchanged. |
| WsServer.SendEach | src-tauri/src/ws_server.rs:456-458 | The broadcast loop over the entries, on the channel map, with the same result. |
| WsServer.HelloThenStateScenario | src-tauri/src/ws_server.rs:313-343 | A hello lists one entry without a state; a stateChanged then lists that state. |
| WsServer.StaleEntryListed | src-tauri/src/ws_server.rs:387-400 | The entry of an earlier hello on a closed link stays listed. |
| WsServer.StaleEntryUnreachable | src-tauri/src/ws_server.rs:418-424 | A send to that stale entry fails with `Send failed: channel closed`. |
| Lists.FindIndex | src/lib/websocket.ts:53-55 | The first index satisfying the predicate; none iff no element does. |
| Lists.Find | src/lib/store.ts:61 | The first element satisfying the predicate; none iff no element does. |
| WebsocketClient.MatchExtensionToInstance | src/lib/websocket.ts:42-56 | The first extension in listing order whose workspace name equals the instance's project name ignoring case; none iff none matches. |
| WebsocketClient.MatchIsWholeName | src/lib/websocket.ts:53-55 | `Foo` matches `foo`, `Foobar` does not, and the first of two matches wins. |
| WebsocketClient.SendSilentAction | src/lib/websocket.ts:63-78 | The call carries the window id, the action and the payload, with none when omitted. A rejected invoke answers false. |
| WebsocketClient.GetSilentExtensions | src/lib/websocket.ts:29-37 | A rejected invoke gives the empty listing. |
| WebsocketClient.GetStateSilent | src/lib/websocket.ts:83-94 | First a `getState` request, then the state of the first listed extension with that window id; none when absent or stateless. |
| WebsocketClient.RunWrapper | src/lib/websocket.ts:96-129 | Each wrapper sends its fixed action name, and `{text}` for sendPrompt only. It answers true iff the invoke answers true. |
| WebsocketClient.WrappersAreExtensionRequests | src/lib/websocket.ts:99-129 | Every wrapper's action is a request type the extension handles. It is answered with a result, or with an error exactly for an empty prompt. |
| Store.TailMatchIsPattern | src/lib/store.ts:154 | The greedy test equals the pattern `\s*[-–]\s*(Visual Studio Code\|Antigravity\|Code)` read as an existence of split points. |
| Store.FirstSplitIsLeast | src/lib/store.ts:154 | The lazy `.+?` search finds the least split point whose prefix has no line terminator, and none exactly when none exists. |
| Store.Trim | src/lib/store.ts:156 | The result is the slice between the leading and trailing `\s` characters and starts and ends with a non-space. |
| Store.ExtractProjectPathSpec | src/lib/store.ts:152-159 | The title is kept when no split point exists. Otherwise the result is the trimmed prefix before the shortest one. |
| Store.NoSeparatorKeepsTitle | src/lib/store.ts:154-158 | A title without a hyphen or en dash is returned unchanged. |
| Store.ExtractProjectPathOfTitle | src/lib/store.ts:152-159 | `name - product…` and `name – product…`, with exactly one space on each side of the dash, give `name` trimmed of leading spaces, whatever follows the product name (no end anchor). `name` may contain spaces and dashes. It must be on one line, must not end in a space, and must have no split point of its own (no `-`/`–` followed by a product name inside it). |
| Store.LastSegment | src/lib/store.ts:164 | The separator-free suffix after the last `/` or `\`. |
| Store.ProjectNameOf | src/lib/store.ts:162-165 | When the path does not end in `/` or `\`, the non-empty maximal separator-free suffix after its last separator. A path ending in a separator, or with none, is kept whole. |
| Store.ExtractProjectNameOfTitle | src/lib/store.ts:152-165 | For a title `dir/leaf - product…` (or with `\`), where `leaf` has no path separator and the path meets the conditions of the row above and does not start with a space, the project name is `leaf`. |
| Store.InstanceIdInjective | src/lib/store.ts:72 | Distinct window handles give distinct `instance-<handle>` ids. |
| Store.MergeScan | src/lib/store.ts:58-86 | One instance per scan result, in scan order. A known handle keeps the first such instance, with only its title refreshed. A new handle gets id `instance-<handle>`, disabled, zero counters, idle, and `maxRetries` from settings. |
| Store.MergeIdsFromHandles | src/lib/store.ts:61-72 | Ids stay derived from handles across a merge, so a scan of distinct windows gives distinct ids. |
| Store.WithStatus | src/lib/store.ts:143 | The status, issue counts, retry count, last activity and step count come from the report. Every other field (id, title, handle, project path and name, enabled flag, custom prompt, retry limit) is kept. |
| Store.RefreshPointwise | src/lib/store.ts:133-144 | The refresh loop acts on each list element separately, through the steps that carry its id. |
| Store.RefreshUpdatesEnabledOnly | src/lib/store.ts:130-149 | With distinct ids, each enabled instance whose status query answers takes that status. Every other element is unchanged. |
| Store.RefreshKeepsIdentity | src/lib/store.ts:142-144 | Keeps the length, and every id, handle, title, project, enabled flag, retry limit and custom prompt. |
| Store.InstanceStore.constructor | src/lib/store.ts:48 | The instance store starts empty. |
| Store.InstanceStore.ScanForInstances | src/lib/store.ts:51-90 | The list becomes the merge of the scan with the old list. A failed scan keeps the list. |
| Store.InstanceStore.RefreshInstances | src/lib/store.ts:130-149 | The loop over the snapshot leaves the list equal to the refresh fold of the snapshot. |
| Store.ScanRefreshScenario | src/lib/store.ts:61-84 | A rescan after a refresh keeps the enabled instance's id, enabled flag and status, with the new title. A new window comes in disabled and idle. |

## Left out

- Real timers, intervals and sleeps: they are pending flags, explicit fire/tick methods and `Sleep` trace markers. Elapsed time is not modelled.
- JSON parsing and serialization on both sides: messages are decoded values. `JSON.stringify` of a snapshot is its value, and serde's payload decoding is an `Option` per target type.
- `Date.now()`-based ids and timestamps are parameters (`stamp`, `now`).
- Store.MergeScan: every instance one scan creates gets the same `now` as its `lastActivity`. The source calls `Date.now()` once per new instance, so those timestamps may differ there.
- Extension.Session.Send: the socket has no CLOSING state. A frame sent after the peer's close frame but before the close event is recorded as sent, where the source's `readyState === OPEN` guard would drop it.
- InstanceStore.RefreshInstances, InstanceStore.ScanForInstances: each runs atomically. In the source, `refreshInstances` awaits `get_instance_status` once per enabled instance and applies each answer to the live store, so a scan or a toggle that runs between two awaits changes what gets merged. The model does not capture that interleaving.
- The extension's asynchronous interleaving: each handler runs to completion. An action's pushes and its reply are sent in one step.
- Concurrency in the hub (Tokio tasks, `RwLock`, accept loop, handshake failures): one link's loop is a sequential method. Links interleave only through the methods a caller chooses to run.
- The hub's forwarding task stopping early when a socket write fails: a channel only closes when its link's loop ends.
- `focus_antigravity_window` and `simulate_enter_key` (Win32, AppleScript, keyboard injection): `simulateEnter` records the requested workspace name and leaves the registry unchanged.
- Logging (the extension's output channel and the hub's prints): the state reader's dedup keeps its log lines as a sequence; other log lines are dropped.
- The VS Code UI (`activate`, status bar, output channel) and configuration reads: the port is a constant, and `autoConnect` is a parameter of the methods that read it.
- src-tauri/src/lib.rs is not part of this model: window scan, `get_instance_status`, paste script, Discord webhook and the Tauri builder. The scan result and the status answers are parameters.
- WebsocketClient.AsRequest: the forwarding of a silent call to an extension (`action` as the request type, `payload.text`, an id) is assumed, not read from code. No Rust file defines `send_silent_action` or `get_silent_extensions`. src-tauri/src/lib.rs registers neither command and declares no `ws_server` module. As the code stands, every invoke of these two commands rejects. The model's invoke oracle includes that case (`SendSilentAction` answers false, `GetSilentExtensions` gives `[]`). The reply-type half of `WebsocketClient.WrappersAreExtensionRequests`, and what the hub does with the extension's answer, hold only under the assumed forwarding.
- `localStorage` settings, the settings store, and the development-mode mock instances of scanForInstances: settings are a parameter, and a failed scan keeps the list.
- WebsocketClient.Lower: ASCII case folding only, because `toLowerCase` folds all of Unicode.
- The window title pattern is written out as split points over characters, not a regular-expression engine.
- Window handles above 2^53 are not modelled: template-literal number formatting is written for integers, without exponent notation.
- A `payload.text` that is not a string: a prompt's text is decoded as an optional string.
- The compiled out/*.js copies of the extension's sources duplicate the TypeScript and are not modelled separately.
