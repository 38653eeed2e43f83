/** What the current client's bookkeeping promises: an emission calls every
    callback it captured whatever the others do, a reply settles every caller
    waiting on it, overlapping callers share one request, a timeout leaves
    nothing behind, and a `once` fires a single time. */
module ClientProps {
  import opened Js
  import opened Wire
  import opened Registry
  import opened ClientSpec

  // ---------------------------------------------------------------------
  // An emission described without threading the state through it. A `once`
  // closure decides from what it captured and from the message alone, and
  // the closures themselves never change during an emission.

  /** The user function a callback calls for `msg`, if any. */
  function CallsOf(wrappers: map<nat, OnceSpec>, cb: Callback, msg: Inbound): seq<Invocation> {
    match cb
    case User(fn) => [Invocation(fn, Whole(msg))]
    case Wrapper(w) =>
      if w in wrappers && Matches(wrappers[w].filter, msg.data.request) && wrappers[w].target.UserTarget?
      then [Invocation(wrappers[w].target.fn, Whole(msg))]
      else []
  }

  /** The user calls of a whole snapshot, in order. */
  function Calls(wrappers: map<nat, OnceSpec>, snapshot: seq<Callback>, msg: Inbound): seq<Invocation>
    decreases |snapshot|
  {
    if snapshot == [] then []
    else Calls(wrappers, snapshot[..|snapshot| - 1], msg) + CallsOf(wrappers, snapshot[|snapshot| - 1], msg)
  }

  /** The correlation key a fetch resolver in the snapshot clears for `msg`. */
  function KeyOf(wrappers: map<nat, OnceSpec>, cb: Callback, msg: Inbound): set<string> {
    if cb.Wrapper? && cb.id in wrappers && Matches(wrappers[cb.id].filter, msg.data.request)
       && wrappers[cb.id].target.FetchTarget?
    then {wrappers[cb.id].target.listenKey}
    else {}
  }

  function Resolved(wrappers: map<nat, OnceSpec>, snapshot: seq<Callback>, msg: Inbound): set<string>
    decreases |snapshot|
  {
    if snapshot == [] then {}
    else Resolved(wrappers, snapshot[..|snapshot| - 1], msg) + KeyOf(wrappers, snapshot[|snapshot| - 1], msg)
  }

  /** A `once` closure that accepts `msg` and whose target returns normally
      removes itself. */
  predicate Drops(wrappers: map<nat, OnceSpec>, cb: Callback, msg: Inbound, throwing: set<nat>) {
    && cb.Wrapper? && cb.id in wrappers && Matches(wrappers[cb.id].filter, msg.data.request)
    && (wrappers[cb.id].target.UserTarget? ==> wrappers[cb.id].target.fn !in throwing)
  }

  lemma InvokeSummary(s: State, cb: Callback, msg: Inbound, throwing: set<nat>)
    ensures var r := Invoke(s, cb, msg, throwing).0;
      && r.wrappers == s.wrappers && r.nextId == s.nextId && r.sent == s.sent
      && r.invoked == s.invoked + CallsOf(s.wrappers, cb, msg)
      && r.onceListenerKeys == s.onceListenerKeys - KeyOf(s.wrappers, cb, msg)
      && (forall k, x :: Listed(r, k, x) <==>
            Listed(s, k, x) && !(x == cb && Drops(s.wrappers, x, msg, throwing) && k == s.wrappers[x.id].kind))
  {
    var r := Invoke(s, cb, msg, throwing).0;
    if Drops(s.wrappers, cb, msg, throwing) {
      var o := s.wrappers[cb.id];
      UnsubscribeListed(s, o.kind, cb);
      assert forall k, x :: Listed(r, k, x) <==> Listed(s, k, x) && (k, x) != (o.kind, cb);
    }
  }

  /** Dispatch summarised: it calls exactly the user functions of `Calls`
      (independently of which of them throw), clears exactly the keys of
      `Resolved`, unregisters exactly the closures that `Drops`, and posts
      nothing. */
  lemma {:induction false} DispatchSummary(s: State, snapshot: seq<Callback>, msg: Inbound, throwing: set<nat>)
    ensures var r := Dispatch(s, snapshot, msg, throwing);
      && r.wrappers == s.wrappers && r.nextId == s.nextId && r.sent == s.sent
      && r.invoked == s.invoked + Calls(s.wrappers, snapshot, msg)
      && r.onceListenerKeys == s.onceListenerKeys - Resolved(s.wrappers, snapshot, msg)
      && (forall k, x :: Listed(r, k, x) <==>
            Listed(s, k, x) && !(x in snapshot && Drops(s.wrappers, x, msg, throwing) && k == s.wrappers[x.id].kind))
    decreases |snapshot|
  {
    if snapshot != [] {
      var init, last := snapshot[..|snapshot| - 1], snapshot[|snapshot| - 1];
      assert snapshot == init + [last];
      DispatchSummary(s, init, msg, throwing);
      var mid := Dispatch(s, init, msg, throwing);
      InvokeSummary(mid, last, msg, throwing);
    }
  }

  /** The caller behind a waiting promise is answered by `msg` when its
      closure is in the snapshot and accepts the message. */
  ghost predicate Answers(s: State, p: nat, snapshot: seq<Callback>, msg: Inbound)
    requires p in s.promises && s.promises[p].Waiting?
  {
    var w := s.promises[p].wrapper;
    Wrapper(w) in snapshot && w in s.wrappers && Matches(s.wrappers[w].filter, msg.data.request)
  }

  /** A caller that is still waiting is settled with the message exactly when
      its own closure answers it; nobody else's reply reaches it. */
  lemma {:induction false} DispatchSettles(s: State, snapshot: seq<Callback>, msg: Inbound, throwing: set<nat>, p: nat)
    requires Valid(s) && p in s.promises && s.promises[p].Waiting?
    ensures var r := Dispatch(s, snapshot, msg, throwing);
      && p in r.promises
      && r.promises[p] == (if Answers(s, p, snapshot, msg) then Settled(Some(msg)) else s.promises[p])
    decreases |snapshot|
  {
    if snapshot != [] {
      var init, last := snapshot[..|snapshot| - 1], snapshot[|snapshot| - 1];
      assert snapshot == init + [last];
      var w := s.promises[p].wrapper;
      DispatchSettles(s, init, msg, throwing, p);
      DispatchSummary(s, init, msg, throwing);
      DispatchValid(s, init, msg, throwing);
      var mid := Dispatch(s, init, msg, throwing);
      InvokeFrame(mid, last, msg, throwing);
    }
  }

  /** Everything a caller that has settled holds stays as it is. */
  lemma {:induction false} DispatchKeepsSettled(s: State, snapshot: seq<Callback>, msg: Inbound, throwing: set<nat>, p: nat)
    requires p in s.promises && s.promises[p].Settled?
    ensures var r := Dispatch(s, snapshot, msg, throwing);
      p in r.promises && r.promises[p] == s.promises[p]
    decreases |snapshot|
  {
    if snapshot != [] {
      DispatchKeepsSettled(s, snapshot[..|snapshot| - 1], msg, throwing, p);
      InvokeFrame(Dispatch(s, snapshot[..|snapshot| - 1], msg, throwing), snapshot[|snapshot| - 1], msg, throwing);
    }
  }

  /** Every callback of the snapshot contributes its calls. */
  lemma {:induction false} CallsInclude(wrappers: map<nat, OnceSpec>, snapshot: seq<Callback>, msg: Inbound, cb: Callback)
    requires cb in snapshot
    ensures forall c | c in CallsOf(wrappers, cb, msg) :: c in Calls(wrappers, snapshot, msg)
    ensures KeyOf(wrappers, cb, msg) <= Resolved(wrappers, snapshot, msg)
    decreases |snapshot|
  {
    var init, last := snapshot[..|snapshot| - 1], snapshot[|snapshot| - 1];
    assert snapshot == init + [last];
    if cb != last {
      CallsInclude(wrappers, init, msg, cb);
    }
  }

  /** `emit` summarised: the calls of its snapshot, the keys its resolvers
      clear and the message's own key, and a debug line only when that key
      was still pending after the callbacks ran. */
  lemma EmitSummary(s: State, kind: string, msg: Inbound, throwing: set<nat>)
    ensures var snapshot := Registered(s.listeners, kind);
      var left := s.onceListenerKeys - Resolved(s.wrappers, snapshot, msg);
      var key := ListenKey(kind, msg.data.request);
      var r := Emit(s, kind, msg, throwing);
      && r.wrappers == s.wrappers && r.promises.Keys == s.promises.Keys && r.nextId == s.nextId
      && r.invoked == s.invoked + Calls(s.wrappers, snapshot, msg)
      && r.onceListenerKeys == left - {key}
      && r.sent == s.sent + (if key in left then [Log(Debug)] else [])
      && (forall k, x :: Listed(r, k, x) <==>
            Listed(s, k, x) && !(x in snapshot && Drops(s.wrappers, x, msg, throwing) && k == s.wrappers[x.id].kind))
  {
    var snapshot := Registered(s.listeners, kind);
    DispatchSummary(s, snapshot, msg, throwing);
    DispatchPromiseKeys(s, snapshot, msg, throwing);
    var r := Emit(s, kind, msg, throwing);
    assert forall k, x :: Listed(r, k, x) <==> Listed(Dispatch(s, snapshot, msg, throwing), k, x);
  }

  lemma {:induction false} DispatchPromiseKeys(s: State, snapshot: seq<Callback>, msg: Inbound, throwing: set<nat>)
    ensures Dispatch(s, snapshot, msg, throwing).promises.Keys == s.promises.Keys
    decreases |snapshot|
  {
    if snapshot != [] {
      DispatchPromiseKeys(s, snapshot[..|snapshot| - 1], msg, throwing);
      InvokeFrame(Dispatch(s, snapshot[..|snapshot| - 1], msg, throwing), snapshot[|snapshot| - 1], msg, throwing);
    }
  }

  /** A callback that throws stops nobody: every callback registered when the
      message arrived is called, and which of them throw changes nothing
      about who is called. */
  lemma ThrowsDoNotStopOthers(s: State, msg: Inbound, throwing: set<nat>, fn: nat)
    requires FromHost(msg) && User(fn) in Registered(s.listeners, PropKey(msg.data.kind))
    ensures var r := HandleMessage(s, msg, throwing);
      |s.invoked| <= |r.invoked| && Invocation(fn, Whole(msg)) in r.invoked[|s.invoked|..]
    ensures HandleMessage(s, msg, throwing).invoked == HandleMessage(s, msg, {}).invoked
  {
    var kind := PropKey(msg.data.kind);
    EmitSummary(s, kind, msg, throwing);
    EmitSummary(s, kind, msg, {});
    CallsInclude(s.wrappers, Registered(s.listeners, kind), msg, User(fn));
    assert HandleMessage(s, msg, throwing).invoked[|s.invoked|..] == Calls(s.wrappers, Registered(s.listeners, kind), msg);
  }

  /** Messages whose source is not the host are dropped before anything runs. */
  lemma ForeignMessagesIgnored(s: State, msg: Inbound, throwing: set<nat>)
    requires !FromHost(msg)
    ensures HandleMessage(s, msg, throwing) == s
  {
  }

  // ---------------------------------------------------------------------
  // fetch

  predicate WellFormed(requestData: Data, listenFor: Option<Pattern>) {
    TruthyText(requestData.kind) && listenFor.Some? && TruthyText(listenFor.value.kind)
  }

  /** A request without a type, or without a well-typed pattern, resolves to
      `undefined` at once and changes nothing. */
  lemma FetchRejectsMalformed(s: State, requestData: Data, listenFor: Option<Pattern>)
    requires !WellFormed(requestData, listenFor)
    ensures Fetch(s, requestData, listenFor) == (s, Returned(None))
  {
  }

  /** A well-formed `fetch` hands out a fresh waiting promise, registers its
      listener under the awaited type, marks the key pending and posts the
      request only when no earlier caller is already waiting for that key. */
  lemma FetchOutcome(s: State, requestData: Data, pattern: Pattern)
    requires Valid(s) && WellFormed(requestData, Some(pattern))
    ensures var (r, c) := Fetch(s, requestData, Some(pattern));
      var p := s.nextId;
      var key := ListenKey(pattern.kind.value, pattern.request);
      && c == Awaiting(p) && p !in s.promises
      && r.promises == s.promises[p := Waiting(key, p + 1)]
      && r.wrappers == s.wrappers[p + 1 := OnceSpec(pattern.kind.value, pattern.request, FetchTarget(p, key))]
      && r.nextId == p + 2 && r.invoked == s.invoked
      && r.onceListenerKeys == s.onceListenerKeys + {key}
      && r.sent == s.sent + (if key in s.onceListenerKeys then [] else [Request(Normalize(requestData))])
      && (forall k, x :: Listed(r, k, x) <==> Listed(s, k, x) || (k, x) == (pattern.kind.value, Wrapper(p + 1)))
      && Valid(r)
  {
    FetchValid(s, requestData, Some(pattern));
  }

  /** The timer of a waiting caller settles it with `undefined`, logs an
      error, removes its listener and drops its key, whether or not other
      callers still wait on that key. */
  lemma TimeoutOutcome(s: State, p: nat)
    requires Valid(s) && p in s.promises && s.promises[p].Waiting?
    ensures var r := Timeout(s, p);
      var w := s.promises[p].wrapper;
      && r.promises == s.promises[p := Settled(None)]
      && r.onceListenerKeys == s.onceListenerKeys - {s.promises[p].listenKey}
      && r.sent == s.sent + [Log(Error)]
      && r.wrappers == s.wrappers && r.nextId == s.nextId && r.invoked == s.invoked
      && (forall k, x :: Listed(r, k, x) <==> Listed(s, k, x) && x != Wrapper(w))
      && Valid(r)
  {
    TimeoutValid(s, p);
    var w := s.promises[p].wrapper;
    UnsubscribeListed(s, s.wrappers[w].kind, Wrapper(w));
    assert Timeout(s, p).listeners == Unsubscribe(s, s.wrappers[w].kind, Wrapper(w)).listeners;
  }

  /** A timer that fires after the reply won the race does nothing. */
  lemma LateTimeoutIsHarmless(s: State, p: nat)
    requires p in s.promises && s.promises[p].Settled?
    ensures Timeout(s, p) == s
  {
  }

  /** After a timeout the key is free again, so the next caller for the same
      pattern posts its request even if an older caller is still waiting. */
  lemma RetryAfterTimeoutSends(s: State, p: nat, requestData: Data, pattern: Pattern)
    requires Valid(s) && p in s.promises && s.promises[p].Waiting?
    requires WellFormed(requestData, Some(pattern))
    requires s.promises[p].listenKey == ListenKey(pattern.kind.value, pattern.request)
    ensures var t := Timeout(s, p);
      Fetch(t, requestData, Some(pattern)).0.sent == t.sent + [Request(Normalize(requestData))]
  {
    TimeoutOutcome(s, p);
    FetchOutcome(Timeout(s, p), requestData, pattern);
  }

  /** A reply that a waiting caller's closure accepts settles that caller
      with the reply, clears its key and unregisters its listener; when the
      reply carries the caller's own key no debug line is posted. */
  lemma ReplySettlesWaitingCaller(s: State, msg: Inbound, throwing: set<nat>, p: nat)
    requires Valid(s) && FromHost(msg) && p in s.promises && s.promises[p].Waiting?
    requires Answers(s, p, Registered(s.listeners, PropKey(msg.data.kind)), msg)
    ensures var r := HandleMessage(s, msg, throwing);
      var w := s.promises[p].wrapper;
      && p in r.promises && r.promises[p] == Settled(Some(msg))
      && s.promises[p].listenKey !in r.onceListenerKeys
      && !Listed(r, s.wrappers[w].kind, Wrapper(w))
      && (ListenKey(PropKey(msg.data.kind), msg.data.request) == s.promises[p].listenKey ==> r.sent == s.sent)
  {
    var kind := PropKey(msg.data.kind);
    var snapshot := Registered(s.listeners, kind);
    var w := s.promises[p].wrapper;
    DispatchSettles(s, snapshot, msg, throwing, p);
    EmitSummary(s, kind, msg, throwing);
    CallsInclude(s.wrappers, snapshot, msg, Wrapper(w));
    assert KeyOf(s.wrappers, Wrapper(w), msg) == {s.promises[p].listenKey};
    assert Drops(s.wrappers, Wrapper(w), msg, throwing);
  }

  /** One reply answers every waiting caller whose closure accepts it. */
  lemma ReplySettlesBoth(s: State, msg: Inbound, throwing: set<nat>, p1: nat, p2: nat)
    requires Valid(s) && FromHost(msg)
    requires p1 in s.promises && s.promises[p1].Waiting? && Answers(s, p1, Registered(s.listeners, PropKey(msg.data.kind)), msg)
    requires p2 in s.promises && s.promises[p2].Waiting? && Answers(s, p2, Registered(s.listeners, PropKey(msg.data.kind)), msg)
    requires ListenKey(PropKey(msg.data.kind), msg.data.request) == s.promises[p1].listenKey
    ensures var r := HandleMessage(s, msg, throwing);
      && p1 in r.promises && r.promises[p1] == Settled(Some(msg))
      && p2 in r.promises && r.promises[p2] == Settled(Some(msg))
      && s.promises[p1].listenKey !in r.onceListenerKeys && r.sent == s.sent
      && !Listed(r, s.wrappers[s.promises[p1].wrapper].kind, Wrapper(s.promises[p1].wrapper))
      && !Listed(r, s.wrappers[s.promises[p2].wrapper].kind, Wrapper(s.promises[p2].wrapper))
  {
    ReplySettlesWaitingCaller(s, msg, throwing, p1);
    ReplySettlesWaitingCaller(s, msg, throwing, p2);
  }

  /** Two overlapping callers with the same pattern: promises `p` and `p + 2`
      wait on closures `p + 1` and `p + 3`, both registered for the type, and
      only the first call posts. */
  lemma TwoFetchesOutcome(s: State, first: Data, second: Data, pattern: Pattern)
    requires Valid(s) && WellFormed(first, Some(pattern)) && WellFormed(second, Some(pattern))
    ensures var (s1, c1) := Fetch(s, first, Some(pattern));
      var (s2, c2) := Fetch(s1, second, Some(pattern));
      var t, p := pattern.kind.value, s.nextId;
      var key := ListenKey(t, pattern.request);
      && c1 == Awaiting(p) && c2 == Awaiting(p + 2)
      && s2.promises[p] == Waiting(key, p + 1) && s2.promises[p + 2] == Waiting(key, p + 3)
      && s2.wrappers[p + 1] == OnceSpec(t, pattern.request, FetchTarget(p, key))
      && s2.wrappers[p + 3] == OnceSpec(t, pattern.request, FetchTarget(p + 2, key))
      && Listed(s2, t, Wrapper(p + 1)) && Listed(s2, t, Wrapper(p + 3))
      && s2.sent == s.sent + (if key in s.onceListenerKeys then [] else [Request(Normalize(first))])
  {
    var t, p := pattern.kind.value, s.nextId;
    var key := ListenKey(t, pattern.request);
    FetchOutcome(s, first, pattern);
    var s1 := Fetch(s, first, Some(pattern)).0;
    assert Listed(s1, t, Wrapper(p + 1));
    assert key in s1.onceListenerKeys && s1.nextId == p + 2;
    FetchOutcome(s1, second, pattern);
    var s2 := Fetch(s1, second, Some(pattern)).0;
    assert s2.sent == s1.sent;
    assert Listed(s2, t, Wrapper(p + 1));
  }

  /** The reply to two overlapping callers: on any valid state in which two
      callers wait on closures for the same type, filter and key, one reply
      settles both, clears the key, posts nothing and leaves no listener of
      either behind. */
  lemma ReplyAfterTwoFetches(s: State, msg: Inbound, throwing: set<nat>, t: string, p: nat, key: string, filter: Option<string>)
    requires Valid(s) && FromHost(msg) && PropKey(msg.data.kind) == t
    requires Matches(filter, msg.data.request) && ListenKey(t, msg.data.request) == key
    requires p in s.promises && s.promises[p] == Waiting(key, p + 1)
    requires p + 2 in s.promises && s.promises[p + 2] == Waiting(key, p + 3)
    requires s.wrappers[p + 1] == OnceSpec(t, filter, FetchTarget(p, key))
    requires s.wrappers[p + 3] == OnceSpec(t, filter, FetchTarget(p + 2, key))
    requires Listed(s, t, Wrapper(p + 1)) && Listed(s, t, Wrapper(p + 3))
    ensures var r := HandleMessage(s, msg, throwing);
      && p in r.promises && r.promises[p] == Settled(Some(msg))
      && p + 2 in r.promises && r.promises[p + 2] == Settled(Some(msg))
      && key !in r.onceListenerKeys && r.sent == s.sent
      && !Listed(r, t, Wrapper(p + 1)) && !Listed(r, t, Wrapper(p + 3))
  {
    assert Answers(s, p, Registered(s.listeners, t), msg);
    assert Answers(s, p + 2, Registered(s.listeners, t), msg);
    ReplySettlesBoth(s, msg, throwing, p, p + 2);
  }

  // ---------------------------------------------------------------------
  // on, off and once

  /** `on` followed by its remover gives every type the list it had before
      (the remover filters out every registration of that callback). */
  lemma OnThenRemove(s: State, kind: string, fn: nat)
    requires !Listed(s, kind, User(fn))
    ensures var r := Unsubscribe(Subscribe(s, kind, User(fn)), kind, User(fn));
      forall k :: Registered(r.listeners, k) == Registered(s.listeners, k)
  {
    AppendThenRemove(Registered(s.listeners, kind), User(fn));
  }

  /** The result of one message for a `once(type, fn, request)` closure made in
      state `s`: the calls of the listeners that were there before, then the
      closure's own call when it accepts the message. */
  lemma OnceEmission(s: State, kind: string, fn: nat, filter: Option<string>, msg: Inbound, throwing: set<nat>)
    requires FromHost(msg) && PropKey(msg.data.kind) == kind
    ensures var s1 := Once(s, kind, UserTarget(fn), filter).0;
      var r := HandleMessage(s1, msg, throwing);
      var mine := if Matches(filter, msg.data.request) then [Invocation(fn, Whole(msg))] else [];
      && r.invoked == s.invoked + Calls(s1.wrappers, Registered(s.listeners, kind), msg) + mine
      && (Listed(r, kind, Wrapper(s.nextId)) <==> !Matches(filter, msg.data.request) || fn in throwing)
  {
    var s1 := Once(s, kind, UserTarget(fn), filter).0;
    var snapshot := Registered(s1.listeners, kind);
    assert snapshot == Registered(s.listeners, kind) + [Wrapper(s.nextId)];
    assert snapshot[..|snapshot| - 1] == Registered(s.listeners, kind);
    EmitSummary(s1, kind, msg, throwing);
  }

  /** A `once` whose callback returns fires on the first accepted message and
      is gone afterwards, so no later message reaches it. */
  lemma OnceFiresOnce(s: State, kind: string, fn: nat, filter: Option<string>, msg: Inbound, throwing: set<nat>)
    requires FromHost(msg) && PropKey(msg.data.kind) == kind
    requires Matches(filter, msg.data.request) && fn !in throwing
    ensures var r := HandleMessage(Once(s, kind, UserTarget(fn), filter).0, msg, throwing);
      && 0 < |r.invoked| && r.invoked[|r.invoked| - 1] == Invocation(fn, Whole(msg))
      && Wrapper(s.nextId) !in Registered(r.listeners, kind)
  {
    OnceEmission(s, kind, fn, filter, msg, throwing);
  }

  /** A `once` with a request filter ignores messages carrying another
      request: it calls nothing and stays registered. */
  lemma OnceIgnoresOtherRequests(s: State, kind: string, fn: nat, filter: Option<string>, msg: Inbound, throwing: set<nat>)
    requires FromHost(msg) && PropKey(msg.data.kind) == kind
    requires TruthyText(filter) && msg.data.request != filter
    ensures var s1 := Once(s, kind, UserTarget(fn), filter).0;
      var r := HandleMessage(s1, msg, throwing);
      && r.invoked == s.invoked + Calls(s1.wrappers, Registered(s.listeners, kind), msg)
      && Wrapper(s.nextId) in Registered(r.listeners, kind)
  {
    OnceEmission(s, kind, fn, filter, msg, throwing);
  }

  /** The closure removes itself only after its callback returned: when the
      callback throws, the `once` stays registered and fires again. */
  lemma OnceSurvivesThrowingCallback(s: State, kind: string, fn: nat, filter: Option<string>, msg: Inbound, throwing: set<nat>)
    requires FromHost(msg) && PropKey(msg.data.kind) == kind
    requires Matches(filter, msg.data.request) && fn in throwing
    ensures var r := HandleMessage(Once(s, kind, UserTarget(fn), filter).0, msg, throwing);
      && 0 < |r.invoked| && r.invoked[|r.invoked| - 1] == Invocation(fn, Whole(msg))
      && Wrapper(s.nextId) in Registered(r.listeners, kind)
  {
    OnceEmission(s, kind, fn, filter, msg, throwing);
  }

  /** Two `once` closures for the same type both fire on one message, in
      registration order, although the first removes itself while the
      emission is running. */
  lemma OnceSiblingsBothFire(s: State, kind: string, f1: nat, f2: nat, msg: Inbound)
    requires FromHost(msg) && PropKey(msg.data.kind) == kind && Registered(s.listeners, kind) == []
    ensures var s1 := Once(s, kind, UserTarget(f1), None).0;
      var s2 := Once(s1, kind, UserTarget(f2), None).0;
      var r := HandleMessage(s2, msg, {});
      && r.invoked == s.invoked + [Invocation(f1, Whole(msg)), Invocation(f2, Whole(msg))]
      && forall x :: x !in Registered(r.listeners, kind)
  {
    var s1 := Once(s, kind, UserTarget(f1), None).0;
    var s2 := Once(s1, kind, UserTarget(f2), None).0;
    var snapshot := Registered(s2.listeners, kind);
    var a, b := Wrapper(s.nextId), Wrapper(s.nextId + 1);
    assert snapshot == [a, b];
    assert snapshot[..1] == [a] && [a][..0] == [];
    assert s2.wrappers[a.id] == OnceSpec(kind, None, UserTarget(f1));
    assert s2.wrappers[b.id] == OnceSpec(kind, None, UserTarget(f2));
    assert Calls(s2.wrappers, [a], msg) == [Invocation(f1, Whole(msg))];
    assert Calls(s2.wrappers, snapshot, msg) == [Invocation(f1, Whole(msg)), Invocation(f2, Whole(msg))];
    EmitSummary(s2, kind, msg, {});
    var r := HandleMessage(s2, msg, {});
    assert r.invoked == s.invoked + [Invocation(f1, Whole(msg)), Invocation(f2, Whole(msg))];
    var left := Registered(r.listeners, kind);
    forall x
      ensures x !in left
    {
      if Listed(s2, kind, x) {
        assert x == a || x == b;
        assert Drops(s2.wrappers, x, msg, {});
      }
    }

  }
}
