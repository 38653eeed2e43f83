/** The oldest client (the compiled `DeskThing` of dist/index.js): a plain
    registry of app functions keyed by event name. Subscribing to four host
    feeds notifies the host, and inbound messages are routed by their `app`
    field. */
module CompiledSpec {
  import opened Js
  import opened Wire
  import opened Registry

  /** The feeds whose subscription the host is told about. */
  const NotifiedEvents: set<string> := {"apps", "message", "music", "settings"}

  /** The closure `on` returns; `notifies` says whether it posts an "off" notice. */
  datatype OffClosure = OffClosure(event: string, fn: nat, notifies: bool)

  datatype State = State(listeners: map<string, seq<nat>>, sent: seq<Data>, invoked: seq<Invocation>)

  function Initial(): State {
    State(map[], [], [])
  }

  /** `sendMessageToParent(data)`: the envelope with `payload || null`. */
  function SendMessageToParent(s: State, data: Data): State {
    s.(sent := s.sent + [NormalizeLegacy(data)])
  }

  /** `{ app: 'client', request: event, type: 'on' | 'off' }` */
  function Notice(event: string, kind: string): Data {
    Data(Some("client"), Some(kind), Some(event), Undefined)
  }

  /** `on(event, callback)` */
  function On(s: State, event: string, fn: nat): (State, OffClosure) {
    var notifies := event in NotifiedEvents;
    var s1 := if notifies then SendMessageToParent(s, Notice(event, "on")) else s;
    (s1.(listeners := Append(s1.listeners, event, fn)), OffClosure(event, fn, notifies))
  }

  /** `off(event, callback)` */
  function Off(s: State, event: string, fn: nat): State {
    s.(listeners := Remove(s.listeners, event, fn))
  }

  /** Calling the closure returned by `on`. */
  function CallRemover(s: State, r: OffClosure): State {
    var s1 := if r.notifies then SendMessageToParent(s, Notice(r.event, "off")) else s;
    Off(s1, r.event, r.fn)
  }

  /** `callbacks.forEach(callback => callback(arg))`, which ends at the first
      callback that throws; the boolean says whether it ended that way. */
  function Dispatch(s: State, snapshot: seq<nat>, arg: Argument, throwing: set<nat>): (State, bool)
    decreases |snapshot|
  {
    if snapshot == [] then (s, false)
    else
      var (s1, stopped) := Dispatch(s, snapshot[..|snapshot| - 1], arg, throwing);
      if stopped then (s1, true)
      else
        var fn := snapshot[|snapshot| - 1];
        (s1.(invoked := s1.invoked + [Invocation(fn, arg)]), fn in throwing)
  }

  /** `emit(event, data)` */
  function Emit(s: State, event: string, msg: Inbound, throwing: set<nat>): State {
    Dispatch(s, Registered(s.listeners, event), Whole(msg), throwing).0
  }

  /** `handleMessage(event)`: messages for the client itself go to the
      listeners of their `type` with the payload only; all others go to the
      listeners of their `app` with the whole message. */
  function HandleMessage(s: State, msg: Inbound, throwing: set<nat>): State {
    if !FromHost(msg) then s
    else if msg.data.app == Some("client") then
      if !TruthyText(msg.data.kind) then s
      else Dispatch(s, Registered(s.listeners, msg.data.kind.value), PayloadOnly(msg.data.payload), throwing).0
    else Emit(s, PropKey(msg.data.app), msg, throwing)
  }

  /** The constructor's `keydown` handler: every key press is reported as a
      short press of that button. */
  function KeyDown(s: State, code: string): State {
    SendMessageToParent(s, Data(Some("client"), Some("button"), None, ButtonPayload(code)))
  }

  function ButtonPayload(code: string): Value {
    Obj(map["button" := Str(code), "flavor" := Str("Short")])
  }

  /** Once a prefix of the snapshot has thrown, the rest is never reached.
      This is the oldest client's counterpart of `LegacySpec.DispatchStopped`;
      the two dispatches differ in what they iterate over and what they pass. */
  lemma {:induction false} DispatchStopped(s: State, snapshot: seq<nat>, arg: Argument, throwing: set<nat>, k: nat)
    requires k <= |snapshot| && Dispatch(s, snapshot[..k], arg, throwing).1
    ensures Dispatch(s, snapshot, arg, throwing) == Dispatch(s, snapshot[..k], arg, throwing)
    decreases |snapshot| - k
  {
    if k < |snapshot| {
      var init := snapshot[..|snapshot| - 1];
      assert init[..k] == snapshot[..k];
      DispatchStopped(s, init, arg, throwing, k);
    } else {
      assert snapshot[..k] == snapshot;
    }
  }

  // ---------------------------------------------------------------------
  // Properties

  /** The position of the first function in the snapshot that throws. */
  function FirstThrow(snapshot: seq<nat>, throwing: set<nat>): (r: Option<nat>)
    ensures r.Some? ==> r.value < |snapshot| && snapshot[r.value] in throwing
    ensures r.Some? ==> forall j :: 0 <= j < r.value ==> snapshot[j] !in throwing
    ensures r.None? ==> forall j :: 0 <= j < |snapshot| ==> snapshot[j] !in throwing
    decreases |snapshot|
  {
    if snapshot == [] then None
    else
      var first := FirstThrow(snapshot[..|snapshot| - 1], throwing);
      if first.Some? then first
      else if snapshot[|snapshot| - 1] in throwing then Some(|snapshot| - 1)
      else None
  }

  /** The functions that actually run. */
  function Reached(snapshot: seq<nat>, throwing: set<nat>): (r: seq<nat>)
    ensures |r| <= |snapshot| && r == snapshot[..|r|]
  {
    match FirstThrow(snapshot, throwing)
    case None => snapshot
    case Some(i) => snapshot[..i + 1]
  }

  /** One call per function, all with the same argument. */
  function CallsWith(fns: seq<nat>, arg: Argument): (r: seq<Invocation>)
    ensures |r| == |fns|
    ensures forall j :: 0 <= j < |fns| ==> r[j] == Invocation(fns[j], arg)
  {
    seq(|fns|, j requires 0 <= j < |fns| => Invocation(fns[j], arg))
  }

  /** A dispatch calls the functions it reaches, in order, with the same
      argument, and changes nothing else. */
  lemma {:induction false} DispatchSummary(s: State, snapshot: seq<nat>, arg: Argument, throwing: set<nat>)
    ensures var (r, stopped) := Dispatch(s, snapshot, arg, throwing);
      && stopped == FirstThrow(snapshot, throwing).Some?
      && r.listeners == s.listeners && r.sent == s.sent
      && r.invoked == s.invoked + CallsWith(Reached(snapshot, throwing), arg)
    decreases |snapshot|
  {
    if snapshot != [] {
      var init := snapshot[..|snapshot| - 1];
      DispatchSummary(s, init, arg, throwing);
      match FirstThrow(init, throwing)
      case Some(i) =>
        assert snapshot[..i + 1] == init[..i + 1];
      case None =>
        assert snapshot[..|snapshot|] == snapshot;
        assert Reached(snapshot, throwing) == snapshot;
        assert CallsWith(snapshot, arg) == CallsWith(init, arg) + [Invocation(snapshot[|snapshot| - 1], arg)];
    }
  }

  /** Routing: client messages hand their payload to the listeners of their
      type, other messages hand themselves to the listeners of their app;
      unless someone throws, every listener of that name is called. */
  lemma Routing(s: State, msg: Inbound)
    requires FromHost(msg)
    ensures var r := HandleMessage(s, msg, {});
      && r.listeners == s.listeners && r.sent == s.sent
      && (msg.data.app == Some("client") && TruthyText(msg.data.kind) ==>
            r.invoked == s.invoked + CallsWith(Registered(s.listeners, msg.data.kind.value), PayloadOnly(msg.data.payload)))
      && (msg.data.app == Some("client") && !TruthyText(msg.data.kind) ==> r == s)
      && (msg.data.app != Some("client") ==>
            r.invoked == s.invoked + CallsWith(Registered(s.listeners, PropKey(msg.data.app)), Whole(msg)))
  {
    if msg.data.app == Some("client") {
      if TruthyText(msg.data.kind) {
        DispatchSummary(s, Registered(s.listeners, msg.data.kind.value), PayloadOnly(msg.data.payload), {});
      }
    } else {
      DispatchSummary(s, Registered(s.listeners, PropKey(msg.data.app)), Whole(msg), {});
    }
  }

  /** The same list answers to a client message of type "music" (with the
      payload) and to a message from app "music" (with the whole message). */
  lemma TypeAndAppShareListeners(s: State, payload: Value, other: Inbound)
    requires FromHost(other) && other.data.app == Some("music")
    ensures var clientMsg := Inbound(Some(TrustedSource), Data(Some("client"), Some("music"), None, payload));
      && HandleMessage(s, clientMsg, {}).invoked == s.invoked + CallsWith(Registered(s.listeners, "music"), PayloadOnly(payload))
      && HandleMessage(s, other, {}).invoked == s.invoked + CallsWith(Registered(s.listeners, "music"), Whole(other))
  {
    Routing(s, Inbound(Some(TrustedSource), Data(Some("client"), Some("music"), None, payload)));
    Routing(s, other);
  }

  /** Subscribing to one of the four feeds tells the host first; any other
      event is registered silently. Either way the function is appended. */
  lemma OnNotifies(s: State, event: string, fn: nat)
    ensures var (r, remover) := On(s, event, fn);
      && r.listeners == Append(s.listeners, event, fn)
      && r.sent == s.sent + (if event in NotifiedEvents then [Data(Some("client"), Some("on"), Some(event), Null)] else [])
      && remover == OffClosure(event, fn, event in NotifiedEvents)
  {
  }

  /** `on` and then its remover: every list is as before, and the host has
      heard "on" then "off" exactly for the four feeds. */
  lemma OnThenRemove(s: State, event: string, fn: nat)
    requires fn !in Registered(s.listeners, event)
    ensures var (s1, remover) := On(s, event, fn);
      var r := CallRemover(s1, remover);
      && (forall k :: Registered(r.listeners, k) == Registered(s.listeners, k))
      && r.sent == s.sent + (if event in NotifiedEvents
                             then [Data(Some("client"), Some("on"), Some(event), Null),
                                   Data(Some("client"), Some("off"), Some(event), Null)]
                             else [])
  {
    AppendThenRemove(Registered(s.listeners, event), fn);
  }

  /** A function that throws ends the dispatch: later ones are not called. */
  lemma LaterCallbacksSkipped(s: State, f: nat, g: nat, arg: Argument, throwing: set<nat>)
    requires f in throwing
    ensures Dispatch(s, [f, g], arg, throwing).0.invoked == s.invoked + [Invocation(f, arg)]
  {
    DispatchSummary(s, [f, g], arg, throwing);
    assert [f, g][..1] == [f];
    assert Reached([f, g], throwing) == [f];
  }

  /** A key press posts one envelope carrying its button unchanged (the
      payload is an object, so `payload || null` keeps it) and touches
      nothing else. */
  lemma KeyDownReportsButton(s: State, code: string)
    ensures var r := KeyDown(s, code);
      && r.listeners == s.listeners && r.invoked == s.invoked
      && |r.sent| == |s.sent| + 1 && r.sent[..|s.sent|] == s.sent
      && r.sent[|s.sent|].payload.Obj?
      && Get(r.sent[|s.sent|].payload.fields, "button") == Str(code)
      && r.sent[|s.sent|].kind == Some("button")
  {
    assert KeyDown(s, code).sent[..|s.sent|] == s.sent;
  }
}
