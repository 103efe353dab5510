/** The App screen: its reducer, its initial state, the loading gate in front of the
    call button, and what pressing the button does on the initial state. */
module App {
  import opened Js
  import opened CallEvents
  import opened UseCall

  /** A plain JavaScript object, by key. */
  type State = map<string, Value>

  /** `initialState`. */
  function InitialState(): (s: State)
    ensures s.Keys == {"ready", "number", "ringing", "inCall", "held", "error", "accessToken", "sip"}
    ensures forall k :: k in {"ready", "ringing", "inCall", "held"} ==> s[k] == Bool(false)
    ensures s["number"] == Str("") && s["error"] == Null
    ensures s["accessToken"] == Str("") && s["sip"] == Str("testopop.sip.twilio.com")
  {
    map["ready" := Bool(false), "number" := Str(""), "ringing" := Bool(false),
        "inCall" := Bool(false), "held" := Bool(false), "error" := Null,
        "accessToken" := Str(""), "sip" := Str("testopop.sip.twilio.com")]
  }

  /** Reading `state.key` (as the destructuring `const {sip, accessToken} = state` does):
      a missing key reads as `undefined`. */
  function Prop(state: State, key: string): Value {
    if key in state then state[key] else Undefined
  }

  /** `reducer`: `{...state, ...action}`. */
  function Reducer(state: State, action: State): (r: State)
    ensures r.Keys == state.Keys + action.Keys
    ensures forall k :: k in action ==> r[k] == action[k]
    ensures forall k :: k in state && k !in action ==> r[k] == state[k]
  {
    state + action
  }

  /** Applying an action a second time changes nothing more. */
  lemma ReducerIdempotent(state: State, action: State)
    ensures Reducer(Reducer(state, action), action) == Reducer(state, action)
  {
  }

  /** An empty action gives back a state equal to the input. */
  lemma ReducerEmptyAction(state: State)
    ensures Reducer(state, map[]) == state
  {
  }

  /** Merging is associative: two actions in a row are the merge of the two. */
  lemma ReducerTwice(state: State, a: State, b: State)
    ensures Reducer(Reducer(state, a), b) == Reducer(state, Reducer(a, b))
  {
  }

  /** The two views App can return. */
  datatype View = LoadingView(text: string) | CallButtonView(caption: string)

  /** The loading gate: while loading, only the loading text; afterwards, the call
      button labelled with the status, whose press is `handleCall`. */
  function Render(loading: bool, callStatus: string): (v: View)
    ensures v.LoadingView? <==> loading
    ensures v.LoadingView? ==> v.text == "Loading..."
    ensures v.CallButtonView? ==> v.caption == callStatus
  {
    if loading then LoadingView("Loading...") else CallButtonView(callStatus)
  }

  /** The initial token is the empty string, which is falsy. */
  lemma InitialTokenIsFalsy()
    ensures Prop(InitialState(), "accessToken") == Str("")
    ensures !Truthy(Prop(InitialState(), "accessToken"))
  {
  }

  /** The App as shipped: the hook gets the initial state's props, the mount effect runs
      setup and the native setup settles with `setupResolved`; then the user presses
      whatever is on screen. The button exists only once setup resolved, and pressing
      it ends in `'Call Failed'` without contacting the SDK, because the token is empty:
      the only commands ever issued are the native setup ones. */
  method PressOnInitialApp(isIOS: bool, setupResolved: bool)
    returns (view: View, status: string, commands: seq<Effect>)
    ensures setupResolved ==> view == CallButtonView("Call") && status == "Call Failed"
    ensures !setupResolved ==> view == LoadingView("Loading...") && status == "Call"
    ensures commands == [SetupCallKeep(SetupOptions)] + (if setupResolved then [SetAvailable(true)] else [])
  {
    var state := InitialState();
    var hook := new OutgoingCallHook(Prop(state, "sip"), Prop(state, "accessToken"), isIOS);
    hook.Mount();
    hook.SetupSettled(setupResolved);
    view := Render(hook.loading, hook.callStatus);
    if view.CallButtonView? {
      var _ := hook.HandleCallStart();
    }
    status, commands := hook.callStatus, hook.effects;
  }
}
