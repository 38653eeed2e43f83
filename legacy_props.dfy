/** What the older client's bookkeeping does, and where it differs from the
    current one: an emission ends at the first callback that throws, every
    `fetchData` posts its request, a reply resolves to its payload, and a
    timed-out caller's listener stays registered. */
module LegacyProps {
  import opened Js
  import opened Wire
  import opened Registry
  import opened LegacySpec

  /** Whether calling `cb` for `msg` throws. */
  predicate Throws(wrappers: map<nat, OnceSpec>, cb: Callback, msg: Inbound, throwing: set<nat>) {
    match cb
    case User(fn) => fn in throwing
    case Wrapper(w) =>
      w in wrappers && Matches(wrappers[w].filter, msg.data.request)
      && wrappers[w].target.UserTarget? && wrappers[w].target.fn in throwing
  }

  /** The position of the first callback of the snapshot that throws. */
  function FirstThrow(wrappers: map<nat, OnceSpec>, snapshot: seq<Callback>, msg: Inbound, throwing: set<nat>): (r: Option<nat>)
    ensures r.Some? ==> r.value < |snapshot| && Throws(wrappers, snapshot[r.value], msg, throwing)
    ensures r.Some? ==> forall j :: 0 <= j < r.value ==> !Throws(wrappers, snapshot[j], msg, throwing)
    ensures r.None? ==> forall j :: 0 <= j < |snapshot| ==> !Throws(wrappers, snapshot[j], msg, throwing)
    decreases |snapshot|
  {
    if snapshot == [] then None
    else
      var init := snapshot[..|snapshot| - 1];
      var first := FirstThrow(wrappers, init, msg, throwing);
      if first.Some? then first
      else if Throws(wrappers, snapshot[|snapshot| - 1], msg, throwing) then Some(|snapshot| - 1)
      else None
  }

  /** The callbacks that actually run: all of them, or those up to and
      including the first that throws. */
  function Reached(wrappers: map<nat, OnceSpec>, snapshot: seq<Callback>, msg: Inbound, throwing: set<nat>): (r: seq<Callback>)
    ensures |r| <= |snapshot| && r == snapshot[..|r|]
  {
    match FirstThrow(wrappers, snapshot, msg, throwing)
    case None => snapshot
    case Some(i) => snapshot[..i + 1]
  }

  function CallsOf(wrappers: map<nat, OnceSpec>, cb: Callback, msg: Inbound): seq<Invocation> {
    match cb
    case User(fn) => [Invocation(fn, Whole(msg))]
    case Wrapper(w) =>
      if w in wrappers && Matches(wrappers[w].filter, msg.data.request) && wrappers[w].target.UserTarget?
      then [Invocation(wrappers[w].target.fn, Whole(msg))]
      else []
  }

  function Calls(wrappers: map<nat, OnceSpec>, snapshot: seq<Callback>, msg: Inbound): seq<Invocation>
    decreases |snapshot|
  {
    if snapshot == [] then []
    else Calls(wrappers, snapshot[..|snapshot| - 1], msg) + CallsOf(wrappers, snapshot[|snapshot| - 1], msg)
  }

  predicate Drops(wrappers: map<nat, OnceSpec>, cb: Callback, msg: Inbound, throwing: set<nat>) {
    && cb.Wrapper? && cb.id in wrappers && Matches(wrappers[cb.id].filter, msg.data.request)
    && (wrappers[cb.id].target.UserTarget? ==> wrappers[cb.id].target.fn !in throwing)
  }

  lemma InvokeSummary(s: State, cb: Callback, msg: Inbound, throwing: set<nat>)
    ensures var (r, threw) := Invoke(s, cb, msg, throwing);
      && threw == Throws(s.wrappers, cb, msg, throwing)
      && r.wrappers == s.wrappers && r.nextId == s.nextId && r.sent == s.sent
      && r.invoked == s.invoked + CallsOf(s.wrappers, cb, msg)
      && (forall k, x :: Listed(r, k, x) <==>
            Listed(s, k, x) && !(x == cb && Drops(s.wrappers, x, msg, throwing) && k == s.wrappers[x.id].kind))
  {
  }

  /** An emission summarised: it ends early exactly when some callback
      throws, and then only the callbacks up to that one have run. */
  lemma {:induction false} DispatchSummary(s: State, snapshot: seq<Callback>, msg: Inbound, throwing: set<nat>)
    ensures var (r, stopped) := Dispatch(s, snapshot, msg, throwing);
      var reached := Reached(s.wrappers, snapshot, msg, throwing);
      && stopped == FirstThrow(s.wrappers, snapshot, msg, throwing).Some?
      && r.wrappers == s.wrappers && r.nextId == s.nextId && r.sent == s.sent
      && r.invoked == s.invoked + Calls(s.wrappers, reached, msg)
      && (forall k, x :: Listed(r, k, x) <==>
            Listed(s, k, x) && !(x in reached && Drops(s.wrappers, x, msg, throwing) && k == s.wrappers[x.id].kind))
    decreases |snapshot|
  {
    if snapshot != [] {
      var init, last := snapshot[..|snapshot| - 1], snapshot[|snapshot| - 1];
      assert snapshot == init + [last];
      DispatchSummary(s, init, msg, throwing);
      var mid := Dispatch(s, init, msg, throwing).0;
      match FirstThrow(s.wrappers, init, msg, throwing)
      case Some(i) =>
        assert snapshot[..i + 1] == init[..i + 1];
      case None =>
        InvokeSummary(mid, last, msg, throwing);
        assert Reached(s.wrappers, init, msg, throwing) == init;
        assert snapshot[..|snapshot|] == snapshot;
        assert Reached(s.wrappers, snapshot, msg, throwing) == snapshot;
    }
  }

  /** `handleMessage`: a message not marked as coming from the host changes
      nothing; one that is reaches only the listeners of its own `type`
      (`"undefined"` when it has none), up to the first that throws, and
      never posts anything. */
  lemma HandleMessageRouting(s: State, msg: Inbound, throwing: set<nat>)
    ensures !FromHost(msg) ==> HandleMessage(s, msg, throwing) == s
    ensures var r := HandleMessage(s, msg, throwing);
      var snapshot := Registered(s.listeners, PropKey(msg.data.kind));
      && r.sent == s.sent && r.wrappers == s.wrappers && r.nextId == s.nextId
      && (FromHost(msg) ==> r.invoked == s.invoked + Calls(s.wrappers, Reached(s.wrappers, snapshot, msg, throwing), msg))
  {
    if FromHost(msg) {
      DispatchSummary(s, Registered(s.listeners, PropKey(msg.data.kind)), msg, throwing);
    }
  }

  /** The callbacks after one that throws are never called. */
  lemma LaterCallbacksSkipped(s: State, f: nat, g: nat, msg: Inbound, throwing: set<nat>)
    requires f in throwing
    ensures Dispatch(s, [User(f), User(g)], msg, throwing).0.invoked == s.invoked + [Invocation(f, Whole(msg))]
  {
    DispatchSummary(s, [User(f), User(g)], msg, throwing);
    assert FirstThrow(s.wrappers, [User(f)], msg, throwing) == Some(0);
    assert [User(f), User(g)][..1] == [User(f)];
    assert Reached(s.wrappers, [User(f), User(g)], msg, throwing) == [User(f)];
  }

  /** A waiting caller is settled with the reply's payload when its listener
      runs and accepts the reply; otherwise it keeps waiting. */
  lemma {:induction false} DispatchSettles(s: State, snapshot: seq<Callback>, msg: Inbound, throwing: set<nat>, p: nat)
    requires Valid(s) && p in s.promises && s.promises[p].Waiting?
    ensures var r := Dispatch(s, snapshot, msg, throwing).0;
      var w := s.promises[p].wrapper;
      var hit := Wrapper(w) in Reached(s.wrappers, snapshot, msg, throwing) && Matches(s.wrappers[w].filter, msg.data.request);
      p in r.promises && r.promises[p] == (if hit then Settled(Some(msg.data.payload)) else s.promises[p])
    decreases |snapshot|
  {
    if snapshot != [] {
      var init, last := snapshot[..|snapshot| - 1], snapshot[|snapshot| - 1];
      assert snapshot == init + [last];
      DispatchSettles(s, init, msg, throwing, p);
      DispatchSummary(s, init, msg, throwing);
      DispatchValid(s, init, msg, throwing);
      match FirstThrow(s.wrappers, init, msg, throwing)
      case Some(i) =>
        assert snapshot[..i + 1] == init[..i + 1];
      case None =>
        assert Reached(s.wrappers, init, msg, throwing) == init;
        assert snapshot[..|snapshot| - 1] == init;
    }
  }

  /** `fetchData` posts its request every time: two overlapping calls for the
      same reply post two requests and register two listeners. */
  lemma OverlappingFetchDataSendTwice(s: State, kind: string, first: Data, second: Data, request: Option<string>)
    ensures var (s1, p1) := FetchData(s, kind, first, request);
      var (s2, p2) := FetchData(s1, kind, second, request);
      && s2.sent == s.sent + [NormalizeLegacy(first), NormalizeLegacy(second)]
      && p1 != p2
      && Registered(s2.listeners, kind) == Registered(s.listeners, kind) + [Wrapper(p1 + 1), Wrapper(p2 + 1)]
  {
  }

  /** A matching reply that reaches a waiting `fetchData` resolves it to the
      reply's payload, not to the whole message. */
  lemma ReplyResolvesToPayload(s: State, kind: string, requestData: Data, request: Option<string>, msg: Inbound)
    requires Valid(s)
    requires FromHost(msg) && PropKey(msg.data.kind) == kind && Matches(request, msg.data.request)
    ensures var (s1, p) := FetchData(s, kind, requestData, request);
      var r := HandleMessage(s1, msg, {});
      p in r.promises && r.promises[p] == Settled(Some(msg.data.payload))
  {
    var (s1, p) := FetchData(s, kind, requestData, request);
    FetchDataValid(s, kind, requestData, request);
    var snapshot := Registered(s1.listeners, kind);
    assert s1.promises[p] == Waiting(p + 1);
    assert Wrapper(p + 1) in snapshot;
    assert FirstThrow(s1.wrappers, snapshot, msg, {}) == None;
    DispatchSettles(s1, snapshot, msg, {}, p);
  }

  /** A timeout settles the caller with `undefined` but leaves its listener
      registered. */
  lemma TimeoutKeepsListener(s: State, p: nat)
    requires p in s.promises && s.promises[p].Waiting?
    ensures Timeout(s, p).promises[p] == Settled(None)
    ensures Timeout(s, p).listeners == s.listeners
  {
  }

  /** What one `fetchData` call sets up: promise `p` waiting on closure
      `p + 1`, appended to the listeners of the awaited type, and the
      request posted. */
  lemma FetchDataOutcome(s: State, kind: string, requestData: Data, request: Option<string>)
    ensures var (r, p) := FetchData(s, kind, requestData, request);
      && p == s.nextId && r.nextId == p + 2
      && r.promises == s.promises[p := Waiting(p + 1)]
      && r.wrappers == s.wrappers[p + 1 := OnceSpec(kind, request, FetchTarget(p))]
      && r.listeners == Append(s.listeners, kind, Wrapper(p + 1))
      && r.sent == s.sent + [NormalizeLegacy(requestData)]
  {
  }

  /** The listener left behind by a timeout still consumes the next matching
      message, which can no longer reach the caller. */
  lemma StaleListenerConsumesLateReply(t: State, kind: string, p: nat, filter: Option<string>, msg: Inbound)
    requires p in t.promises && t.promises[p].Settled? && Registered(t.listeners, kind) == [Wrapper(p + 1)]
    requires p + 1 in t.wrappers && t.wrappers[p + 1] == OnceSpec(kind, filter, FetchTarget(p))
    requires FromHost(msg) && PropKey(msg.data.kind) == kind && Matches(filter, msg.data.request)
    ensures var r := HandleMessage(t, msg, {});
      && p in r.promises && r.promises[p] == t.promises[p]
      && Wrapper(p + 1) !in Registered(r.listeners, kind)
  {
    var snapshot := Registered(t.listeners, kind);
    assert FirstThrow(t.wrappers, snapshot, msg, {}) == None;
    DispatchSummary(t, snapshot, msg, {});
    assert [Wrapper(p + 1)][..0] == [];
    assert Dispatch(t, snapshot, msg, {}).0 == Invoke(t, Wrapper(p + 1), msg, {}).0;
    assert Drops(t.wrappers, Wrapper(p + 1), msg, {});
    assert !Listed(HandleMessage(t, msg, {}), kind, Wrapper(p + 1));
  }

  /** From a client with no listener for the type: after the timeout the
      listener is still there, and it swallows the late reply. */
  lemma TimedOutFetchDataLeaksListener(s: State, kind: string, requestData: Data, request: Option<string>, msg: Inbound)
    requires Registered(s.listeners, kind) == []
    requires FromHost(msg) && PropKey(msg.data.kind) == kind && Matches(request, msg.data.request)
    ensures var (s1, p) := FetchData(s, kind, requestData, request);
      var t := Timeout(s1, p);
      var r := HandleMessage(t, msg, {});
      && Wrapper(p + 1) in Registered(t.listeners, kind)
      && p in r.promises && r.promises[p] == Settled(None)
      && Wrapper(p + 1) !in Registered(r.listeners, kind)
  {
    FetchDataOutcome(s, kind, requestData, request);
    var (s1, p) := FetchData(s, kind, requestData, request);
    var t := Timeout(s1, p);
    assert Registered(t.listeners, kind) == [Wrapper(p + 1)];
    StaleListenerConsumesLateReply(t, kind, p, request, msg);
  }

  /** A `once` with a request filter ignores messages carrying another
      request and stays registered. */
  lemma OnceIgnoresOtherRequests(s: State, kind: string, fn: nat, filter: Option<string>, msg: Inbound, throwing: set<nat>)
    requires FromHost(msg) && PropKey(msg.data.kind) == kind
    requires TruthyText(filter) && msg.data.request != filter
    ensures var s1 := Once(s, kind, UserTarget(fn), filter).0;
      Wrapper(s.nextId) in Registered(HandleMessage(s1, msg, throwing).listeners, kind)
  {
    var s1 := Once(s, kind, UserTarget(fn), filter).0;
    var snapshot := Registered(s1.listeners, kind);
    DispatchSummary(s1, snapshot, msg, throwing);
    assert Listed(s1, kind, Wrapper(s.nextId));
    assert !Drops(s1.wrappers, Wrapper(s.nextId), msg, throwing);
  }
}
