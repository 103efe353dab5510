/** Event sequences that show how the hook behaves across calls, since it never
    removes a listener, never cancels a reset and never guards against a second call. */
module Scenarios {
  import opened Js
  import opened Settle
  import opened CallEvents
  import opened UseCall

  /** One press whose connect settles with `call`. */
  method PlaceCall(call: CallHandle, isIOS: bool) returns (hook: OutgoingCallHook)
    ensures fresh(hook) && hook.Valid() && hook.isIOS == isIOS
    ensures hook.accessToken == Str("token") && hook.sip == Str("sip")
    ensures hook.sessions == [Session(call, "a", MakeCallInfo("a", Undefined))] && Calls(hook.sessions) == {call}
    ensures hook.outgoingCallRef == Some(call) && hook.pendingConnects == 0 && hook.pendingResets == 0
    ensures hook.nativeListeners == [EndCallListener]
    ensures hook.effects == [Connect(Str("token"), "true", Str("sip"))]
  {
    hook := new OutgoingCallHook(Str("sip"), Str("token"), isIOS);
    var _ := hook.HandleCallStart();
    hook.HandleCallSettled(Fulfilled(call), "a", Undefined);
    CallsAppend([], hook.sessions[0]);
  }

  /** A reset scheduled by the first call's disconnect fires while the second call is
      ringing and overwrites its status with `'Call'`. */
  method StaleResetOverwritesNextCall(first: CallHandle, second: CallHandle)
    returns (before: string, after: string)
    requires first != second
    ensures before == "Ringing..." && after == "Call"
  {
    var hook := PlaceCall(first, false);
    hook.OnDisconnected(first, false);
    var _ := hook.HandleCallStart();
    hook.HandleCallSettled(Fulfilled(second), "b", Undefined);
    hook.OnRinging(second);
    before := hook.callStatus;
    hook.FireReset();
    after := hook.callStatus;
  }

  /** Disconnected leaves the reference set, so a later cleanup (the native end-call
      request, or unmount) disconnects the same call object a second time. */
  method CleanupAfterErrorDisconnect(call: CallHandle, isIOS: bool)
    returns (commands: seq<Effect>)
    ensures commands == (if !isIOS then [BackToForeground] else []) + [EndAllCalls, Disconnect(call), Disconnect(call)]
  {
    var hook := PlaceCall(call, isIOS);
    hook.OnDisconnected(call, true);
    hook.OnEndCall();
    hook.Cleanup();
    commands := hook.effects[1..];
  }

  /** Two presses, neither connect settled yet. */
  method PressTwiceUnsettled() returns (hook: OutgoingCallHook)
    ensures fresh(hook) && hook.Valid() && !hook.isIOS
    ensures hook.sessions == [] && hook.outgoingCallRef == None && hook.nativeListeners == []
    ensures hook.pendingConnects == 2
    ensures hook.effects == [Connect(Str("token"), "true", Str("sip")), Connect(Str("token"), "true", Str("sip"))]
  {
    hook := new OutgoingCallHook(Str("sip"), Str("token"), false);
    var _ := hook.HandleCallStart();
    var _ := hook.HandleCallStart();
  }

  /** Two presses, then both connects settle with distinct call objects. */
  method PressTwice(first: CallHandle, second: CallHandle) returns (hook: OutgoingCallHook)
    requires first != second
    ensures fresh(hook) && hook.Valid() && !hook.isIOS
    ensures hook.sessions == [Session(first, "a", MakeCallInfo("a", Undefined)), Session(second, "b", MakeCallInfo("b", Undefined))]
    ensures first in Calls(hook.sessions) && hook.outgoingCallRef == Some(second)
    ensures hook.nativeListeners == [EndCallListener, EndCallListener]
    ensures hook.effects == [Connect(Str("token"), "true", Str("sip")), Connect(Str("token"), "true", Str("sip"))]
  {
    hook := PressTwiceUnsettled();
    hook.HandleCallSettled(Fulfilled(first), "a", Undefined);
    ghost var s1 := Session(first, "a", MakeCallInfo("a", Undefined));
    assert hook.sessions == [] + [s1];
    CallsAppend([], s1);
    hook.HandleCallSettled(Fulfilled(second), "b", Undefined);
    CallsAppend([s1], hook.sessions[1]);
  }

  /** Two presses before either connect settles: both reach the SDK, the second call
      object replaces the first in the reference without the first being disconnected,
      two `endCall` listeners are registered, and the first call's listeners stay live. */
  method SecondCallReplacesFirst(first: CallHandle, second: CallHandle)
    returns (current: Option<CallHandle>, endCallListeners: seq<NativeListener>, commands: seq<Effect>, statusOnOldDisconnect: string)
    requires first != second
    ensures current == Some(second)
    ensures endCallListeners == [EndCallListener, EndCallListener]
    ensures commands == [Connect(Str("token"), "true", Str("sip")), Connect(Str("token"), "true", Str("sip"))]
    ensures statusOnOldDisconnect == "Call Disconnected"
  {
    var hook := PressTwice(first, second);
    current, endCallListeners, commands := hook.outgoingCallRef, hook.nativeListeners, hook.effects;
    hook.OnDisconnected(first, false);
    statusOnOldDisconnect := hook.callStatus;
  }
}
