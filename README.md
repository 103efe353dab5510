# Outgoing-call hook of a Twilio Voice React Native example, modelled in Dafny

The repository is a React Native app that places one outgoing call through the
Twilio Voice SDK and mirrors it in the native call UI (RNCallKeep). Its logic
sits in the hook `useOutgoingCall`. The hook holds a status string that starts
at `'Call'`, one mutable reference to the current SDK call object, and a
`loading` flag that native setup clears. A button press (`handleCall`) checks
the access token and asks the SDK for a call object. It then registers
listeners that react to Ringing, Connected and Disconnected. `cleanup`
disconnects the held call object. Two small pure pieces complete it:
`settlePromise` turns a settled promise into a tagged record, and the App
screen holds a record-merge reducer, an initial state and a loading gate in
front of the call button.

The model has six modules:

- `Js` (`js.dfy`): the JavaScript values the props and the state carry, and
  JavaScript truthiness.
- `Settle` (`settle.dfy`): `settlePromise`, as a function from how the promise
  settled to the tagged record, with its inverse.
- `CallEvents` (`call_events.dfy`): the listeners one successful `handleCall`
  registers, what each handler does, and `Emit`, which runs every listener
  registered for an event on a call object in registration order. `Reaction` is
  an independent per-event statement of what the handlers promise, and the
  lemmas prove that emitting over all listeners ever registered gives exactly
  the owning session's reaction.
- `UseCall` (`use_call.dfy`): the class `OutgoingCallHook`, with the hook's
  state as fields and every operation and event as a method.
- `App` (`app.dfy`): the reducer, the initial state, the loading gate, and the
  App as shipped, pressing its button.
- `Scenarios` (`scenarios.dfy`): event sequences that show cross-call
  behaviour. A reset that is never cancelled overwrites the next call's status.
  A later cleanup disconnects a call object a second time. A second call
  replaces the first without disconnecting it.

SDK and native calls are entries in the command trace `effects`: `Connect`,
`SetupCallKeep(options)`, `SetAvailable`, `SetCurrentCallActive`, `UpdateDisplay`,
`BackToForeground`, `EndAllCalls` and `Disconnect`. Each `await` splits an
operation in two. `HandleCallStart`/`HandleCallSettled` are the two halves of
`handleCall`, and `Setup`/`SetupSettled` the two halves of `setup`. Counters
stand for promises started and not yet settled, and for 4000 ms timers not yet
fired. The environment settles them by calling the second half, or
`FireReset`. Inputs the code gets from outside become parameters:

- the connect outcome;
- the generated uuid;
- `getFrom()`;
- whether setup resolved;
- whether a Disconnected event carries an error;
- the platform.

The code does the following, and the model follows it:

- The delayed reset to `'Call'` is never cancelled.
- A second `handleCall` is not rejected. It overwrites the reference.
- Listeners are never removed.
- A rejected connect leaves the status at `'Calling...'`, not `'Call Failed'`.
- Disconnected does not release the reference.

## Model

| member | source | states |
|---|---|---|
| `Settle.SettlePromise` | util/settlePromise.ts:1-9 | Total. The record carries exactly one of the two tags and only the field that tag announces. It is `fulfilled` exactly for a fulfilled promise, with the same value, and `rejected` exactly for a rejected one, with the same reason |
| `Settle.SettleThenUnsettle` | util/settlePromise.ts:6-8 | The outcome can be read back from the record: nothing is lost |
| `Settle.UnsettleThenSettle` | util/settlePromise.ts:3-5 | Every record of the result type is the settling of some outcome |
| `Settle.RejectedTestIsExhaustive` | useCall.ts:93-98 | When the caller's single `status === 'rejected'` test fails, the record is the fulfilled one and carries the call object |
| `CallEvents.MakeCallInfo` | useCall.ts:119-125 | The display number is `getFrom()` when it is truthy and `'fake'` otherwise. The name is `'FAKE CALL 🔥'`. The callUUID is the uuid, or `'default_callUUID'` when the uuid is empty |
| `CallEvents.FireHandlers` | useCall.ts:56-76 | Running one handler only appends commands. The Ringing handler sets `'Ringing...'`. The Connected handler sets `'Call Connected'` and issues `SetCurrentCallActive` only for a non-empty uuid, then `UpdateDisplay`. The Disconnected handler sets `'Call Disconnected'` and appends exactly these, in order: `BackToForeground` (off iOS only), one `EndAllCalls`, and `Disconnect` of its own call object (only on an error). It also adds one more pending reset. The logging handlers change nothing |
| `CallEvents.EmitInert` | useCall.ts:100-114 | Listeners that only log (ConnectFailure, the per-kind loggers, the `once` Connected no-op) never change the status, the commands or the pending resets |
| `CallEvents.BlockReaction` | useCall.ts:51-77 | The listeners one successful call registers produce exactly the per-event `Reaction`: Ringing sets `'Ringing...'`. Connected sets `'Call Connected'`, marks the call active only for a non-empty uuid and always updates the display. Disconnected sets `'Call Disconnected'`, then foregrounds off iOS, then ends all calls, then disconnects only on an error, and schedules one reset. Every other kind changes nothing |
| `CallEvents.EmitBlocks` | useCall.ts:100-135 | Over every listener ever registered, which are never removed, an event on a call object gives the reaction of the session that owns that object. Stale listeners of earlier calls react only to their own call objects |
| `CallEvents.EmitAppend` | useCall.ts:100-135 | Listeners registered later run after earlier ones: emitting over a concatenation is emitting over each part in turn |
| `UseCall.OutgoingCallHook.constructor` | useCall.ts:42-44 | Initial state: status `'Call'`, no call reference, `loading` true, no listeners, no commands, nothing pending |
| `UseCall.OutgoingCallHook.HandleCallFailure` | useCall.ts:46-49 | Sets `'Call Failed'` |
| `UseCall.OutgoingCallHook.HandleCallStart` | useCall.ts:79-91 | Sets `'Calling...'`. With a falsy token it ends in `'Call Failed'` and issues no SDK connect. Otherwise it issues exactly one connect with the token, `answerOnBridge: 'true'` and the sip target. Nothing else changes |
| `UseCall.OutgoingCallHook.HandleCallSettled` | useCall.ts:87-135 | A rejected connect changes nothing: status, reference, listeners and commands stay as they are. A fulfilled one stores the new call object in the reference, replacing the old one without disconnecting it. It appends that call's listener block and exactly one more `endCall` listener, removes none, and issues no command |
| `UseCall.OutgoingCallHook.AttachCall` | useCall.ts:98-135 | The fulfilled path: the new call object becomes the reference, its whole listener block is appended, its session is recorded, and exactly one more `endCall` listener is added, with no command issued |
| `UseCall.OutgoingCallHook.RegisterLoggers` | useCall.ts:100-114 | Appends the ConnectFailure logger, one logger per event kind and the `once` Connected no-op, in that order |
| `UseCall.OutgoingCallHook.LogEveryEvent` | useCall.ts:105-112 | Appends one logging listener per SDK event kind, in enumeration order |
| `UseCall.OutgoingCallHook.AddCallListeners` | useCall.ts:51-77 | Appends the Ringing, Connected and Disconnected listeners, in that order |
| `UseCall.OutgoingCallHook.Cleanup` | useCall.ts:141-149 | With a reference held: one `Disconnect` of it, the reference dropped, status `'Call'`. Without one: no change, so a second cleanup is a no-op |
| `UseCall.OutgoingCallHook.Setup` | useCall.ts:151-155 | Issues the native setup request and leaves it pending |
| `UseCall.OutgoingCallHook.SetupSettled` | useCall.ts:153-164 | `loading` becomes false only when setup resolves, which is also the only case that issues `setAvailable(true)`. A failure keeps `loading` as it was. Either way the audio-route listener is added |
| `UseCall.OutgoingCallHook.Mount` | useCall.ts:167-169 | The mount effect starts setup |
| `UseCall.OutgoingCallHook.Unmount` | useCall.ts:170-172 | The unmount effect is one cleanup |
| `UseCall.OutgoingCallHook.Dispatch` | useCall.ts:100-135 | An SDK event changes status, commands and pending resets exactly as `EventResult` says: the owning session's reaction, or nothing for an unknown call object |
| `UseCall.OutgoingCallHook.OnRinging` | useCall.ts:56 | Ringing on a registered call object sets `'Ringing...'`. It issues no command and schedules nothing |
| `UseCall.OutgoingCallHook.OnConnected` | useCall.ts:58-62 | `'Call Connected'`, then `SetCurrentCallActive(uuid)` only for a non-empty uuid, then always `UpdateDisplay(uuid, number, 'FAKE CALL 🔥')` |
| `UseCall.OutgoingCallHook.OnDisconnected` | useCall.ts:64-76 | `'Call Disconnected'`. `BackToForeground` is issued iff not iOS. `EndAllCalls` is issued exactly once. `Disconnect` of that call object is issued iff an error came with the event. Exactly one more pending reset. The reference stays as it was |
| `UseCall.OutgoingCallHook.OnLoggedEvent` | useCall.ts:100-112 | ConnectFailure and each kind only the loggers listen to leave status, commands and pending resets alone |
| `UseCall.OutgoingCallHook.OnEndCall` | useCall.ts:129-132 | Runs every `endCall` listener ever registered. With at least one, the result is exactly one cleanup. With none, nothing changes |
| `UseCall.OutgoingCallHook.FireReset` | useCall.ts:75 | A pending timer sets `'Call'`, whatever the status is by then |
| `App.Reducer` | App.tsx:26 | Every key of the action takes the action's value. Every other key keeps the state's value. The keys are those of both |
| `App.ReducerIdempotent` | App.tsx:26 | Applying the same action twice equals applying it once |
| `App.ReducerEmptyAction` | App.tsx:26 | An empty action returns a state equal to the input |
| `App.ReducerTwice` | App.tsx:26 | Two actions in a row equal one action that merges them |
| `App.InitialTokenIsFalsy` | App.tsx:21-22 | The initial `accessToken` is `''`, which is falsy |
| `App.Render` | App.tsx:40-64 | While loading, only the "Loading..." view is returned. Otherwise the call button is returned, labelled with the status. The button, whose press is `handleCall`, exists exactly when not loading |
| `App.PressOnInitialApp` | App.tsx:28-58 | In the App as shipped, the button appears only if setup resolved. Pressing it gives `'Call Failed'`. The whole command trace is the native setup request with the source's options, plus `SetAvailable(true)` when setup resolved, so no `Connect` is ever issued |
| `App.InitialState` | App.tsx:14-24 | The eight keys and values of `initialState`: `ready`, `ringing`, `inCall` and `held` false, `number` `''`, `error` null, `accessToken` `''`, `sip` `'testopop.sip.twilio.com'` |
| `Scenarios.StaleResetOverwritesNextCall` | useCall.ts:64-76 | The reset scheduled by one call's disconnect turns a later call's `'Ringing...'` into `'Call'` |
| `Scenarios.CleanupAfterErrorDisconnect` | useCall.ts:141-149 | After an error disconnect the reference is still held, so an end-call request disconnects the same call object again. A further cleanup adds nothing |
| `Scenarios.SecondCallReplacesFirst` | useCall.ts:116 | Two presses reach the SDK twice. The second call object replaces the first, which is not disconnected. Two `endCall` listeners exist. The first call's Disconnected listener still sets the status |

## Left out

- SDK and RNCallKeep internals (`voice.connect`, `Call.on`, `disconnect`, `setup`, `endAllCalls`, …) are calls into libraries outside this repository. They appear only as parameters and as command entries.
- `SetupCallKeep` carries the source's `options` record (useCall.ts:26-36) as a constant; what the native layer does with it is not modelled.
- `console.*` logging is left out. So is the `.then` logging of the setup result.
- `randomUuid().toLowerCase()` is left out: the uuid is an arbitrary input string, so the empty-uuid branch is reachable in the model.
- Real time is left out. The 4000 ms delay is a count of pending resets, fired by the environment. There is no clock.
- The exact list of `Call.Event` kinds is the SDK's and cannot be seen here. `AllEvents` lists the kinds of the SDK's enumeration. Statements about the loggers hold for every kind in it.
- `once(Connected, () => {})` is registered and never removed in the model. The SDK drops it after its first run, but since it does nothing, no observable state differs.
- A synchronous throw from an SDK or RNCallKeep call inside the `try` blocks would reach `handleCallFailure` or the setup `catch`. Such throws are foreign and not modelled.
- Async interleaving is left out. So are React hook mechanics: re-renders, dependency arrays, stale closures, and state updates after unmount. Each event handler runs to completion as one method.
- The data an `endCall` event carries is left out. It is only logged.
- `UseCall.OutgoingCallHook.HandleCallSettled`: it requires a fulfilled connect to return a call object not seen before, since the SDK creates a new call object per connect.
- `App.Reducer`: JavaScript key order is not modelled, because a `map` has no order.
- App rendering, styles, the status bar and the colour scheme (App.tsx:50-80) are presentation only and are left out.
- Tracker.tsx is an analytics wrapper built on floating-point formatting, locale dates and React element cloning. It is not part of this model.
- MainActivity.kt is Android permission plumbing with no logic. It is not part of this model.
