/** The event side of `useOutgoingCall`: the listeners one successful `handleCall`
    attaches to a call object, what each handler does, and what emitting an event on a
    call object does to the hook's observable state. */
module CallEvents {
  import opened Js

  /** The event kinds of the voice SDK's `Call.Event` enumeration. */
  datatype CallEvent =
    | Connected | ConnectFailure | Reconnecting | Reconnected | Disconnected | Ringing
    | QualityWarningsChanged | MessageReceived

  /** `Object.values(Call.Event)`, in the SDK's order. */
  const AllEvents: seq<CallEvent> :=
    [Connected, ConnectFailure, Reconnecting, Reconnected, Disconnected, Ringing,
     QualityWarningsChanged, MessageReceived]

  /** An SDK call object, compared by identity. */
  datatype CallHandle = CallHandle(id: nat)

  /** The `options` record handed to `RNCallKeep.setup`. */
  datatype CallKeepOptions = CallKeepOptions(
    iosAppName: string,
    alertTitle: string, alertDescription: string, cancelButton: string, okButton: string,
    additionalPermissions: seq<string>, selfManaged: bool)

  const SetupOptions := CallKeepOptions(
    "SPEED", "Incoming call", "You have an incoming call", "Decline", "Ok", [], false)

  /** A command the hook issues to the voice SDK or to the native call UI. */
  datatype Effect =
    | Connect(token: Value, answerOnBridge: string, to: Value)
    | SetupCallKeep(options: CallKeepOptions)
    | SetAvailable(available: bool)
    | SetCurrentCallActive(uuid: string)
    | UpdateDisplay(uuid: string, number: Value, name: string)
    | BackToForeground
    | EndAllCalls
    | Disconnect(call: CallHandle)

  /** The `callInfo` record built for the native display. */
  datatype CallInfo = CallInfo(callUUID: string, number: Value, name: string)

  /** The name shown on the native call screen. */
  const FakeCallName := "FAKE CALL 🔥"

  /** `callInfo` for a call whose uuid is `uuid` and whose `getFrom()` returned `from`:
      the caller number falls back to `'fake'` when `from` is falsy. */
  function MakeCallInfo(uuid: string, from: Value): (info: CallInfo)
    ensures info.number == (if Truthy(from) then from else Str("fake"))
    ensures info.name == FakeCallName
    ensures info.callUUID != ""
    ensures uuid != "" ==> info.callUUID == uuid
    ensures uuid == "" ==> info.callUUID == "default_callUUID"
  {
    CallInfo(if uuid != "" then uuid else "default_callUUID", Or(from, Str("fake")), FakeCallName)
  }

  /** What one successful `handleCall` attached to a call object: the object, the uuid
      generated for it and the display record. */
  datatype Session = Session(call: CallHandle, uuid: string, info: CallInfo)

  /** The handlers `handleCall` registers. The first three only log. */
  datatype Handler =
    | LogConnectFailure
    | LogEvent(kind: CallEvent)
    | ConnectedOnce
    | SetRinging
    | MarkConnected(uuid: string, info: CallInfo)
    | HandleDisconnected

  /** A handler registered with `call.on(event, handler)`; the Disconnected handler
      closes over the call object it was registered on. */
  datatype Listener = Listener(call: CallHandle, event: CallEvent, handler: Handler)

  predicate LogsOnly(h: Handler) {
    h.LogConnectFailure? || h.LogEvent? || h.ConnectedOnce?
  }

  /** The part of the hook's state that a call event can change: the status string,
      the trace of issued commands and the number of pending 4000 ms resets. */
  datatype Observed = Observed(status: string, effects: seq<Effect>, pendingResets: nat)

  /** Commands of the Connected handler: mark the call active only for a non-empty
      uuid, then always update the display. */
  function ConnectedEffects(uuid: string, info: CallInfo): seq<Effect> {
    (if uuid != "" then [SetCurrentCallActive(uuid)] else []) + [UpdateDisplay(uuid, info.number, info.name)]
  }

  /** Commands of the Disconnected handler on `call`: foreground off iOS, end all
      calls, and an explicit disconnect only when an error payload came with the event. */
  function DisconnectedEffects(call: CallHandle, hasError: bool, isIOS: bool): seq<Effect> {
    (if !isIOS then [BackToForeground] else []) + [EndAllCalls] + (if hasError then [Disconnect(call)] else [])
  }

  /** Running one handler. */
  function Fire(l: Listener, hasError: bool, isIOS: bool, o: Observed): Observed
  {
    match l.handler
    case SetRinging => o.(status := "Ringing...")
    case MarkConnected(uuid, info) =>
      Observed("Call Connected", o.effects + ConnectedEffects(uuid, info), o.pendingResets)
    case HandleDisconnected =>
      Observed("Call Disconnected", o.effects + DisconnectedEffects(l.call, hasError, isIOS), o.pendingResets + 1)
    case _ => o
  }

  /** What running one handler does: commands are only appended, the logging handlers
      change nothing, and each acting handler does what its source body says. */
  lemma FireHandlers(l: Listener, hasError: bool, isIOS: bool, o: Observed)
    ensures LogsOnly(l.handler) ==> Fire(l, hasError, isIOS, o) == o
    ensures o.effects <= Fire(l, hasError, isIOS, o).effects
    ensures Fire(l, hasError, isIOS, o).pendingResets
         == o.pendingResets + (if l.handler.HandleDisconnected? then 1 else 0)
    ensures l.handler.SetRinging? ==> Fire(l, hasError, isIOS, o) == o.(status := "Ringing...")
    ensures l.handler.MarkConnected? ==>
              var r := Fire(l, hasError, isIOS, o);
              var added := r.effects[|o.effects|..];
              && r.status == "Call Connected"
              && |added| > 0
              && (SetCurrentCallActive(l.handler.uuid) in added <==> l.handler.uuid != "")
              && added[|added| - 1] == UpdateDisplay(l.handler.uuid, l.handler.info.number, l.handler.info.name)
    ensures l.handler.HandleDisconnected? ==>
              var r := Fire(l, hasError, isIOS, o);
              var added := r.effects[|o.effects|..];
              && r.status == "Call Disconnected"
              && |added| == (if isIOS then 1 else 2) + (if hasError then 1 else 0)
              && (!isIOS ==> added[0] == BackToForeground)
              && added[if isIOS then 0 else 1] == EndAllCalls
              && (BackToForeground in added <==> !isIOS)
              && (hasError <==> added[|added| - 1] == Disconnect(l.call))
  {
  }

  /** Emitting `event` on `call`: every listener registered for that call object and
      that event runs, in registration order. `hasError` says whether the event carries
      an error payload. */
  function Emit(ls: seq<Listener>, call: CallHandle, event: CallEvent, hasError: bool, isIOS: bool, o: Observed): Observed
    decreases |ls|
  {
    if ls == [] then o
    else
      var o' := if ls[0].call == call && ls[0].event == event then Fire(ls[0], hasError, isIOS, o) else o;
      Emit(ls[1..], call, event, hasError, isIOS, o')
  }

  /** The logging listeners the `forEach` over `events` registers on `call`. */
  function LogListeners(call: CallHandle, events: seq<CallEvent>): (ls: seq<Listener>)
    ensures |ls| == |events|
    ensures forall i :: 0 <= i < |ls| ==> ls[i] == Listener(call, events[i], LogEvent(events[i]))
  {
    seq(|events|, i requires 0 <= i < |events| => Listener(call, events[i], LogEvent(events[i])))
  }

  /** The Ringing, Connected and Disconnected listeners `addCallListeners` registers. */
  function CallListeners(s: Session): seq<Listener> {
    [Listener(s.call, Ringing, SetRinging),
     Listener(s.call, Connected, MarkConnected(s.uuid, s.info)),
     Listener(s.call, Disconnected, HandleDisconnected)]
  }

  /** The listeners `handleCall` registers before `addCallListeners`: the ConnectFailure
      logger, one logger per event kind, and the `once` Connected no-op. */
  function LoggerListeners(call: CallHandle): seq<Listener> {
    [Listener(call, ConnectFailure, LogConnectFailure)]
      + LogListeners(call, AllEvents)
      + [Listener(call, Connected, ConnectedOnce)]
  }

  /** Everything one successful `handleCall` registers on its call object, in order. */
  function Block(s: Session): seq<Listener> {
    LoggerListeners(s.call) + CallListeners(s)
  }

  /** The listeners of all sessions, oldest first: none is ever removed. */
  function Blocks(ss: seq<Session>): seq<Listener>
    decreases |ss|
  {
    if ss == [] then [] else Blocks(ss[..|ss| - 1]) + Block(ss[|ss| - 1])
  }

  function Calls(ss: seq<Session>): set<CallHandle>
    decreases |ss|
  {
    if ss == [] then {} else Calls(ss[..|ss| - 1]) + {ss[|ss| - 1].call}
  }

  /** Every session has its own call object. */
  predicate DistinctCalls(ss: seq<Session>)
    decreases |ss|
  {
    ss == [] || (DistinctCalls(ss[..|ss| - 1]) && ss[|ss| - 1].call !in Calls(ss[..|ss| - 1]))
  }

  /** The latest session on `call`, if any. */
  function SessionOf(ss: seq<Session>, call: CallHandle): Option<Session>
    decreases |ss|
  {
    if ss == [] then None
    else if ss[|ss| - 1].call == call then Some(ss[|ss| - 1])
    else SessionOf(ss[..|ss| - 1], call)
  }

  /** What the handlers promise, event by event, independently of how they are
      registered: Ringing and Connected and Disconnected act, every other kind
      (ConnectFailure included) only logs. */
  function Reaction(s: Session, event: CallEvent, hasError: bool, isIOS: bool, o: Observed): Observed {
    match event
    case Ringing => o.(status := "Ringing...")
    case Connected => Observed("Call Connected", o.effects + ConnectedEffects(s.uuid, s.info), o.pendingResets)
    case Disconnected =>
      Observed("Call Disconnected", o.effects + DisconnectedEffects(s.call, hasError, isIOS), o.pendingResets + 1)
    case _ => o
  }

  /** The effect of an event on the hook: the reaction of the session owning the call
      object, or nothing for a call object no session owns. */
  function EventResult(ss: seq<Session>, call: CallHandle, event: CallEvent, hasError: bool, isIOS: bool, o: Observed): Observed {
    match SessionOf(ss, call)
    case None => o
    case Some(s) => Reaction(s, event, hasError, isIOS, o)
  }

  /** Emitting over two listener lists in a row is emitting over their concatenation. */
  lemma {:induction false} EmitAppend(a: seq<Listener>, b: seq<Listener>, call: CallHandle, event: CallEvent, hasError: bool, isIOS: bool, o: Observed)
    ensures Emit(a + b, call, event, hasError, isIOS, o)
         == Emit(b, call, event, hasError, isIOS, Emit(a, call, event, hasError, isIOS, o))
    decreases |a|
  {
    if a != [] {
      assert (a + b)[1..] == a[1..] + b;
      var o' := if a[0].call == call && a[0].event == event then Fire(a[0], hasError, isIOS, o) else o;
      EmitAppend(a[1..], b, call, event, hasError, isIOS, o');
    } else {
      assert a + b == b;
    }
  }

  /** Listeners that do not match the event, or only log, leave the state alone. */
  lemma {:induction false} EmitInert(ls: seq<Listener>, call: CallHandle, event: CallEvent, hasError: bool, isIOS: bool, o: Observed)
    requires forall i :: 0 <= i < |ls| && ls[i].call == call && ls[i].event == event ==> LogsOnly(ls[i].handler)
    ensures Emit(ls, call, event, hasError, isIOS, o) == o
    decreases |ls|
  {
    if ls != [] {
      EmitInert(ls[1..], call, event, hasError, isIOS, o);
    }
  }

  /** The listeners of one session produce exactly that session's reaction. */
  lemma BlockReaction(s: Session, event: CallEvent, hasError: bool, isIOS: bool, o: Observed)
    ensures Emit(Block(s), s.call, event, hasError, isIOS, o) == Reaction(s, event, hasError, isIOS, o)
  {
    var head := LoggerListeners(s.call);
    EmitAppend(head, CallListeners(s), s.call, event, hasError, isIOS, o);
    EmitInert(head, s.call, event, hasError, isIOS, o);
    var c := CallListeners(s);
    var o1 := if event == Ringing then Fire(c[0], hasError, isIOS, o) else o;
    var o2 := if event == Connected then Fire(c[1], hasError, isIOS, o1) else o1;
    var o3 := if event == Disconnected then Fire(c[2], hasError, isIOS, o2) else o2;
    assert c[1..][1..][1..] == [];
    assert Emit(c, s.call, event, hasError, isIOS, o) == Emit(c[1..], s.call, event, hasError, isIOS, o1);
    assert Emit(c[1..], s.call, event, hasError, isIOS, o1) == Emit(c[1..][1..], s.call, event, hasError, isIOS, o2);
    assert Emit(c[1..][1..], s.call, event, hasError, isIOS, o2) == o3;
  }

  /** The owning session is found exactly for the call objects of the sessions. */
  lemma {:induction false} SessionOfCalls(ss: seq<Session>, call: CallHandle)
    ensures SessionOf(ss, call).Some? <==> call in Calls(ss)
    ensures SessionOf(ss, call).Some? ==> SessionOf(ss, call).value.call == call && SessionOf(ss, call).value in ss
    decreases |ss|
  {
    if ss != [] {
      SessionOfCalls(ss[..|ss| - 1], call);
    }
  }

  /** Registering a session adds exactly its call object. */
  lemma CallsAppend(ss: seq<Session>, s: Session)
    ensures Calls(ss + [s]) == Calls(ss) + {s.call}
  {
    assert (ss + [s])[..|ss|] == ss;
  }

  /** Registering a session with a new call object keeps the call objects distinct
      and appends exactly that session's listeners. */
  lemma RegisterSession(ss: seq<Session>, s: Session)
    requires DistinctCalls(ss) && s.call !in Calls(ss)
    ensures DistinctCalls(ss + [s])
    ensures Blocks(ss + [s]) == Blocks(ss) + Block(s)
    ensures Calls(ss + [s]) == Calls(ss) + {s.call}
  {
    assert (ss + [s])[..|ss|] == ss;
  }

  /** A call object appears in the listeners only through its own session. */
  lemma {:induction false} BlocksCalls(ss: seq<Session>, i: int)
    requires 0 <= i < |Blocks(ss)|
    ensures Blocks(ss)[i].call in Calls(ss)
    decreases |ss|
  {
    var p := ss[..|ss| - 1];
    var s := ss[|ss| - 1];
    if i < |Blocks(p)| {
      BlocksCalls(p, i);
    } else {
      var b := Block(s);
      assert Blocks(ss)[i] == b[i - |Blocks(p)|];
      assert forall j :: 0 <= j < |b| ==> b[j].call == s.call;
    }
  }

  /** Emitting an event on a call object over all the listeners ever registered gives
      the reaction of the session that owns that call object, and nothing else:
      listeners left behind by earlier sessions react only to their own call objects. */
  lemma {:induction false} EmitBlocks(ss: seq<Session>, call: CallHandle, event: CallEvent, hasError: bool, isIOS: bool, o: Observed)
    requires DistinctCalls(ss)
    ensures Emit(Blocks(ss), call, event, hasError, isIOS, o) == EventResult(ss, call, event, hasError, isIOS, o)
    decreases |ss|
  {
    if ss == [] {
    } else {
      var p := ss[..|ss| - 1];
      var s := ss[|ss| - 1];
      EmitAppend(Blocks(p), Block(s), call, event, hasError, isIOS, o);
      if s.call == call {
        forall i | 0 <= i < |Blocks(p)| ensures Blocks(p)[i].call != call {
          BlocksCalls(p, i);
        }
        EmitInert(Blocks(p), call, event, hasError, isIOS, o);
        BlockReaction(s, event, hasError, isIOS, o);
      } else {
        EmitBlocks(p, call, event, hasError, isIOS, o);
        var o' := Emit(Blocks(p), call, event, hasError, isIOS, o);
        EmitInert(Block(s), call, event, hasError, isIOS, o');
      }
    }
  }
}
