/** `useOutgoingCall`: the hook's state (status string, the single call reference,
    the loading flag) and every operation that changes it. Calls into the voice SDK and
    the native call UI are recorded as commands in `effects`; the events those
    libraries deliver are methods the environment calls. */
module UseCall {
  import opened Js
  import opened Settle
  import opened CallEvents

  /** Listeners registered with the native call UI (`RNCallKeep.addEventListener`). */
  datatype NativeListener = EndCallListener | AudioRouteListener

  class OutgoingCallHook {
    /** The hook's props and the platform. */
    const sip: Value
    const accessToken: Value
    const isIOS: bool

    /** `callStatus`, `outgoingCallRef.current` and `loading`. */
    var callStatus: string
    var outgoingCallRef: Option<CallHandle>
    var loading: bool

    /** Every SDK listener ever registered, oldest first, and the sessions that
        registered them. */
    var listeners: seq<Listener>
    ghost var sessions: seq<Session>
    /** Every native-UI listener ever registered, oldest first. */
    var nativeListeners: seq<NativeListener>

    /** Commands issued to the SDK and the native call UI, in order. */
    var effects: seq<Effect>
    /** Promises and timers that have been started and not yet settled or fired:
        `RNCallKeep.setup`, `voice.connect`, and the 4000 ms resets to `'Call'`. */
    var pendingSetups: nat
    var pendingConnects: nat
    var pendingResets: nat

    ghost predicate Valid()
      reads this`listeners, this`sessions, this`outgoingCallRef
    {
      && listeners == Blocks(sessions)
      && DistinctCalls(sessions)
      && (outgoingCallRef.Some? ==> outgoingCallRef.value in Calls(sessions))
      && (forall s :: s in sessions ==> s.info.name == FakeCallName)
    }

    function Observation(): Observed
      reads this`callStatus, this`effects, this`pendingResets
    {
      Observed(callStatus, effects, pendingResets)
    }

    /** The hook on its first render. */
    constructor (sip: Value, accessToken: Value, isIOS: bool)
      ensures Valid()
      ensures this.sip == sip && this.accessToken == accessToken && this.isIOS == isIOS
      ensures callStatus == "Call" && outgoingCallRef == None && loading
      ensures listeners == [] && sessions == [] && nativeListeners == [] && effects == []
      ensures pendingSetups == 0 && pendingConnects == 0 && pendingResets == 0
    {
      this.sip, this.accessToken, this.isIOS := sip, accessToken, isIOS;
      callStatus, outgoingCallRef, loading := "Call", None, true;
      listeners, sessions, nativeListeners, effects := [], [], [], [];
      pendingSetups, pendingConnects, pendingResets := 0, 0, 0;
    }

    /** `handleCallFailure`. */
    method HandleCallFailure()
      modifies this`callStatus
      ensures callStatus == "Call Failed"
    {
      callStatus := "Call Failed";
    }

    /** `handleCall` up to its `await`: show `'Calling...'`, then either fail on a falsy
        token without contacting the SDK, or ask the SDK for a call object. */
    method HandleCallStart() returns (connecting: bool)
      modifies this`callStatus, this`effects, this`pendingConnects
      ensures connecting == Truthy(accessToken)
      ensures connecting ==> && callStatus == "Calling..."
                             && effects == old(effects) + [Connect(accessToken, "true", sip)]
                             && pendingConnects == old(pendingConnects) + 1
      ensures !connecting ==> && callStatus == "Call Failed"
                              && effects == old(effects)
                              && pendingConnects == old(pendingConnects)
    {
      callStatus := "Calling...";
      if !Truthy(accessToken) {
        HandleCallFailure();
        return false;
      }
      effects := effects + [Connect(accessToken, "true", sip)];
      pendingConnects := pendingConnects + 1;
      connecting := true;
    }

    /** `handleCall` after its `await`: `connect` is how `voice.connect` settled, `uuid`
        the generated session id and `from` what `getFrom()` returned. A rejection only
        logs. A call object gets its listeners, replaces the reference (the previous
        call is neither disconnected nor unsubscribed) and adds one more `endCall`
        listener. No command is issued and the status is left as it is. The SDK hands
        out a new call object on every connect. */
    method HandleCallSettled(connect: Outcome<CallHandle, Value>, uuid: string, from: Value)
      requires Valid()
      requires pendingConnects > 0
      requires connect.Fulfilled? ==> connect.value !in Calls(sessions)
      modifies this`outgoingCallRef, this`listeners, this`sessions, this`nativeListeners, this`pendingConnects
      ensures Valid()
      ensures pendingConnects == old(pendingConnects) - 1
      ensures connect.Rejected? ==> && outgoingCallRef == old(outgoingCallRef)
                                    && listeners == old(listeners) && sessions == old(sessions)
                                    && nativeListeners == old(nativeListeners)
      ensures connect.Fulfilled? ==>
                var s := Session(connect.value, uuid, MakeCallInfo(uuid, from));
                && outgoingCallRef == Some(connect.value)
                && sessions == old(sessions) + [s]
                && listeners == old(listeners) + Block(s)
                && nativeListeners == old(nativeListeners) + [EndCallListener]
    {
      pendingConnects := pendingConnects - 1;
      var result := SettlePromise(connect);
      if result.status == "rejected" {
        return;
      }
      AttachCall(result.value.value, uuid, from);
    }

    /** The fulfilled path of `handleCall`: register the loggers, store the call object
        in the reference, add an `endCall` listener and run `addCallListeners`. */
    method AttachCall(call: CallHandle, uuid: string, from: Value)
      requires Valid()
      requires call !in Calls(sessions)
      modifies this`outgoingCallRef, this`listeners, this`sessions, this`nativeListeners
      ensures Valid()
      ensures var s := Session(call, uuid, MakeCallInfo(uuid, from));
              && outgoingCallRef == Some(call)
              && sessions == old(sessions) + [s]
              && listeners == old(listeners) + Block(s)
              && nativeListeners == old(nativeListeners) + [EndCallListener]
    {
      ghost var before := listeners;
      RegisterLoggers(call);
      outgoingCallRef := Some(call);
      var info := MakeCallInfo(uuid, from);
      nativeListeners := nativeListeners + [EndCallListener];
      AddCallListeners(call, uuid, info);
      ghost var s := Session(call, uuid, info);
      assert listeners == before + Block(s);
      RegisterSession(sessions, s);
      sessions := sessions + [s];
    }

    /** The listeners registered before the reference is set: the ConnectFailure logger,
        the `forEach` of loggers and the `once` Connected no-op. */
    method RegisterLoggers(call: CallHandle)
      modifies this`listeners
      ensures listeners == old(listeners) + LoggerListeners(call)
    {
      listeners := listeners + [Listener(call, ConnectFailure, LogConnectFailure)];
      LogEveryEvent(call);
      listeners := listeners + [Listener(call, Connected, ConnectedOnce)];
    }

    /** The `forEach` over `Object.values(Call.Event)`: one logging listener per event
        kind, in the enumeration's order. */
    method LogEveryEvent(call: CallHandle)
      modifies this`listeners
      ensures listeners == old(listeners) + LogListeners(call, AllEvents)
    {
      var events := AllEvents;
      for i := 0 to |events|
        invariant listeners == old(listeners) + LogListeners(call, events[..i])
      {
        listeners := listeners + [Listener(call, events[i], LogEvent(events[i]))];
      }
      assert events[..|events|] == AllEvents;
    }

    /** `addCallListeners`. */
    method AddCallListeners(call: CallHandle, uuid: string, info: CallInfo)
      modifies this`listeners
      ensures listeners == old(listeners) + CallListeners(Session(call, uuid, info))
    {
      listeners := listeners + [Listener(call, Ringing, SetRinging)];
      listeners := listeners + [Listener(call, Connected, MarkConnected(uuid, info))];
      listeners := listeners + [Listener(call, Disconnected, HandleDisconnected)];
    }

    /** `cleanup`: only while a reference is held, disconnect it, drop it and show
        `'Call'`; otherwise nothing happens, so a second cleanup is a no-op. */
    method Cleanup()
      requires Valid()
      modifies this`effects, this`outgoingCallRef, this`callStatus
      ensures Valid()
      ensures outgoingCallRef == None
      ensures old(outgoingCallRef).Some? ==>
                effects == old(effects) + [Disconnect(old(outgoingCallRef).value)] && callStatus == "Call"
      ensures old(outgoingCallRef).None? ==> effects == old(effects) && callStatus == old(callStatus)
    {
      var current := outgoingCallRef;
      if current.Some? {
        effects := effects + [Disconnect(current.value)];
        outgoingCallRef := None;
        callStatus := "Call";
      }
    }

    /** `setup` up to its `await`: ask the native call UI to set itself up. The mount
        effect calls this once. */
    method Setup()
      modifies this`effects, this`pendingSetups
      ensures effects == old(effects) + [SetupCallKeep(SetupOptions)]
      ensures pendingSetups == old(pendingSetups) + 1
    {
      effects := effects + [SetupCallKeep(SetupOptions)];
      pendingSetups := pendingSetups + 1;
    }

    /** `setup` after its `await`: only a resolved setup makes the native UI available
        and clears `loading`; a failure only logs. Either way the audio-route listener
        is added. */
    method SetupSettled(resolved: bool)
      requires pendingSetups > 0
      modifies this`effects, this`loading, this`nativeListeners, this`pendingSetups
      ensures pendingSetups == old(pendingSetups) - 1
      ensures loading == (old(loading) && !resolved)
      ensures effects == old(effects) + (if resolved then [SetAvailable(true)] else [])
      ensures nativeListeners == old(nativeListeners) + [AudioRouteListener]
    {
      pendingSetups := pendingSetups - 1;
      if resolved {
        effects := effects + [SetAvailable(true)];
        loading := false;
      }
      nativeListeners := nativeListeners + [AudioRouteListener];
    }

    /** The mount effect: it starts `setup`. */
    method Mount()
      modifies this`effects, this`pendingSetups
      ensures effects == old(effects) + [SetupCallKeep(SetupOptions)]
      ensures pendingSetups == old(pendingSetups) + 1
    {
      Setup();
    }

    /** The unmount effect: it runs `cleanup`, so unmounting after a cleanup already ran
        issues nothing. */
    method Unmount()
      requires Valid()
      modifies this`effects, this`outgoingCallRef, this`callStatus
      ensures Valid()
      ensures outgoingCallRef == None
      ensures old(outgoingCallRef).Some? ==>
                effects == old(effects) + [Disconnect(old(outgoingCallRef).value)] && callStatus == "Call"
      ensures old(outgoingCallRef).None? ==> effects == old(effects) && callStatus == old(callStatus)
    {
      Cleanup();
    }

    /** The SDK emits `event` on `call`: every listener registered for it runs. */
    method Dispatch(call: CallHandle, event: CallEvent, hasError: bool)
      requires Valid()
      modifies this`callStatus, this`effects, this`pendingResets
      ensures Observation() == EventResult(sessions, call, event, hasError, isIOS, old(Observation()))
    {
      var o := Emit(listeners, call, event, hasError, isIOS, Observation());
      EmitBlocks(sessions, call, event, hasError, isIOS, Observation());
      callStatus, effects, pendingResets := o.status, o.effects, o.pendingResets;
    }

    /** A Ringing event: `'Ringing...'` for a call object a session registered, and no
        command. */
    method OnRinging(call: CallHandle)
      requires Valid()
      modifies this`callStatus, this`effects, this`pendingResets
      ensures callStatus == if call in Calls(sessions) then "Ringing..." else old(callStatus)
      ensures effects == old(effects) && pendingResets == old(pendingResets)
    {
      Dispatch(call, Ringing, false);
      SessionOfCalls(sessions, call);
    }

    /** A Connected event on a registered call object: `'Call Connected'`, the call
        marked active only for a non-empty uuid, and the display always updated with
        the number (or `'fake'`) and the fixed name. */
    method OnConnected(call: CallHandle)
      requires Valid()
      modifies this`callStatus, this`effects, this`pendingResets
      ensures pendingResets == old(pendingResets)
      ensures SessionOf(sessions, call).None? ==> callStatus == old(callStatus) && effects == old(effects)
      ensures SessionOf(sessions, call).Some? ==>
                var s := SessionOf(sessions, call).value;
                && callStatus == "Call Connected"
                && effects == old(effects)
                              + (if s.uuid != "" then [SetCurrentCallActive(s.uuid)] else [])
                              + [UpdateDisplay(s.uuid, s.info.number, FakeCallName)]
    {
      Dispatch(call, Connected, false);
      SessionOfCalls(sessions, call);
    }

    /** A Disconnected event on a registered call object: `'Call Disconnected'`, the
        native UI brought to the foreground off iOS, all native calls ended once, the
        call object disconnected only when the event carries an error, one more pending
        reset, and the reference left as it was. */
    method OnDisconnected(call: CallHandle, hasError: bool)
      requires Valid()
      modifies this`callStatus, this`effects, this`pendingResets
      ensures Valid()
      ensures call !in Calls(sessions) ==>
                callStatus == old(callStatus) && effects == old(effects) && pendingResets == old(pendingResets)
      ensures call in Calls(sessions) ==>
                && callStatus == "Call Disconnected"
                && effects == old(effects) + (if !isIOS then [BackToForeground] else []) + [EndAllCalls]
                              + (if hasError then [Disconnect(call)] else [])
                && pendingResets == old(pendingResets) + 1
    {
      Dispatch(call, Disconnected, hasError);
      SessionOfCalls(sessions, call);
    }

    /** An event of any other kind (ConnectFailure and the kinds that only the generic
        logging handlers listen to) changes nothing. */
    method OnLoggedEvent(call: CallHandle, event: CallEvent, hasError: bool)
      requires Valid()
      requires event != Ringing && event != Connected && event != Disconnected
      modifies this`callStatus, this`effects, this`pendingResets
      ensures callStatus == old(callStatus) && effects == old(effects) && pendingResets == old(pendingResets)
    {
      Dispatch(call, event, hasError);
    }

    /** The native UI asks to end the call: every `endCall` listener ever registered
        runs `cleanup`, oldest first. Since cleanup is a no-op once the reference is
        dropped, the whole is one cleanup when any such listener exists. */
    method OnEndCall()
      requires Valid()
      modifies this`effects, this`outgoingCallRef, this`callStatus
      ensures Valid()
      ensures EndCallListener in nativeListeners ==> outgoingCallRef == None
      ensures EndCallListener in nativeListeners && old(outgoingCallRef).Some? ==>
                effects == old(effects) + [Disconnect(old(outgoingCallRef).value)] && callStatus == "Call"
      ensures old(outgoingCallRef).None? ==> effects == old(effects) && callStatus == old(callStatus)
      ensures EndCallListener !in nativeListeners ==>
                outgoingCallRef == old(outgoingCallRef) && effects == old(effects) && callStatus == old(callStatus)
    {
      for i := 0 to |nativeListeners|
        invariant Valid()
        invariant EndCallListener in nativeListeners[..i] ==> outgoingCallRef == None
        invariant EndCallListener in nativeListeners[..i] && old(outgoingCallRef).Some? ==>
                    effects == old(effects) + [Disconnect(old(outgoingCallRef).value)] && callStatus == "Call"
        invariant old(outgoingCallRef).None? ==> effects == old(effects) && callStatus == old(callStatus)
        invariant EndCallListener !in nativeListeners[..i] ==>
                outgoingCallRef == old(outgoingCallRef) && effects == old(effects) && callStatus == old(callStatus)
      {
        assert nativeListeners[..i + 1] == nativeListeners[..i] + [nativeListeners[i]];
        if nativeListeners[i] == EndCallListener {
          Cleanup();
        }
      }
      assert nativeListeners[..|nativeListeners|] == nativeListeners;
    }

    /** A pending 4000 ms timer fires: `'Call'`, whatever the status is by then. */
    method FireReset()
      requires pendingResets > 0
      modifies this`callStatus, this`pendingResets
      ensures callStatus == "Call"
      ensures pendingResets == old(pendingResets) - 1
    {
      callStatus := "Call";
      pendingResets := pendingResets - 1;
    }
  }
}
