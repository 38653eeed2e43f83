/** The message bookkeeping of the current client (`DeskThingClass` in
    src/deskthing.ts) as a sequential state machine. Every asynchronous
    continuation of the source is one atomic step here, as on the single
    JavaScript event loop: an inbound message (`HandleMessage`), a call of
    `fetch` (`Fetch`) and the expiry of one fetch's 5000 ms timer
    (`Timeout`). */
module ClientSpec {
  import opened Js
  import opened Wire
  import opened Registry

  /** What a closure created by `once` does once its filter accepts a message. */
  datatype Target =
    | UserTarget(fn: nat)                          // once(type, fn, request)
    | FetchTarget(promise: nat, listenKey: string) // the resolver that fetch passes to once

  /** The variables a `once` closure captured. */
  datatype OnceSpec = OnceSpec(kind: string, filter: Option<string>, target: Target)

  /** A promise returned by `fetch` that has not settled immediately. */
  datatype Promise = Waiting(listenKey: string, wrapper: nat) | Settled(result: Option<Inbound>)

  /** What a call of `fetch` returns: a value at once, or a promise to wait on. */
  datatype FetchCall = Returned(result: Option<Inbound>) | Awaiting(promise: nat)

  /** The `listenFor` argument of `fetch`. */
  datatype Pattern = Pattern(kind: Option<string>, request: Option<string>)

  /** The fields `listeners` and `onceListenerKeys`, the closures `once`
      created, the promises `fetch` handed out, the next closure/promise
      number, and two logs: what was posted to the parent and which user
      functions were called with what. */
  datatype State = State(
    listeners: map<string, seq<Callback>>,
    onceListenerKeys: set<string>,
    wrappers: map<nat, OnceSpec>,
    promises: map<nat, Promise>,
    nextId: nat,
    sent: seq<Posted>,
    invoked: seq<Invocation>)

  function Initial(): State {
    State(map[], {}, map[], map[], 0, [], [])
  }

  /** `on(type, callback)` */
  function Subscribe(s: State, kind: string, cb: Callback): State {
    s.(listeners := Append(s.listeners, kind, cb))
  }

  /** `off(type, callback)` */
  function Unsubscribe(s: State, kind: string, cb: Callback): State {
    s.(listeners := Remove(s.listeners, kind, cb))
  }

  /** `once(type, callback, request)`: a fresh closure is registered with `on`. */
  function Once(s: State, kind: string, target: Target, filter: Option<string>): (State, Remover) {
    var w := s.nextId;
    var s1 := s.(wrappers := s.wrappers[w := OnceSpec(kind, filter, target)], nextId := w + 1);
    (Subscribe(s1, kind, Wrapper(w)), Remover(kind, Wrapper(w)))
  }

  /** Resolving a promise that has already settled has no effect. */
  function Settle(promises: map<nat, Promise>, p: nat, result: Option<Inbound>): map<nat, Promise> {
    if p in promises && promises[p].Waiting? then promises[p := Settled(result)] else promises
  }

  /** Calls one callback of an emission; the boolean says whether it threw.
      A `once` closure calls its target and only then removes itself, so a
      target that throws leaves the closure registered. */
  function Invoke(s: State, cb: Callback, msg: Inbound, throwing: set<nat>): (State, bool) {
    match cb
    case User(fn) => (s.(invoked := s.invoked + [Invocation(fn, Whole(msg))]), fn in throwing)
    case Wrapper(w) =>
      if w !in s.wrappers || !Matches(s.wrappers[w].filter, msg.data.request) then (s, false)
      else
        var o := s.wrappers[w];
        match o.target
        case UserTarget(fn) =>
          var s1 := s.(invoked := s.invoked + [Invocation(fn, Whole(msg))]);
          if fn in throwing then (s1, true) else (Unsubscribe(s1, o.kind, cb), false)
        case FetchTarget(p, key) =>
          var s1 := s.(onceListenerKeys := s.onceListenerKeys - {key}, promises := Settle(s.promises, p, Some(msg)));
          (Unsubscribe(s1, o.kind, cb), false)
  }

  /** Calls the callbacks of a snapshot in order. Each call is wrapped in its
      own try/catch, so a callback that throws does not stop the others. */
  function Dispatch(s: State, snapshot: seq<Callback>, msg: Inbound, throwing: set<nat>): State
    decreases |snapshot|
  {
    if snapshot == [] then s
    else Invoke(Dispatch(s, snapshot[..|snapshot| - 1], msg, throwing), snapshot[|snapshot| - 1], msg, throwing).0
  }

  /** `emit(type, data)`: dispatch over the list captured at the start, then
      drop the message's own correlation key (posting a debug log line when
      it was pending). */
  function Emit(s: State, kind: string, msg: Inbound, throwing: set<nat>): State {
    var s1 := Dispatch(s, Registered(s.listeners, kind), msg, throwing);
    var key := ListenKey(kind, msg.data.request);
    if key in s1.onceListenerKeys then
      s1.(onceListenerKeys := s1.onceListenerKeys - {key}, sent := s1.sent + [Log(Debug)])
    else s1
  }

  /** `handleMessage(event)` */
  function HandleMessage(s: State, msg: Inbound, throwing: set<nat>): State {
    if !FromHost(msg) then s else Emit(s, PropKey(msg.data.kind), msg, throwing)
  }

  /** `send(data)` */
  function Send(s: State, data: Data): State {
    s.(sent := s.sent + [Request(Normalize(data))])
  }

  /** The synchronous part of `fetch(requestData, listenFor)`: validation,
      the one-shot listener, and the send that only the first of several
      overlapping callers performs. */
  function Fetch(s: State, requestData: Data, listenFor: Option<Pattern>): (State, FetchCall) {
    if !TruthyText(requestData.kind) || listenFor.None? || !TruthyText(listenFor.value.kind) then
      (s, Returned(None))
    else
      var t := listenFor.value.kind.value;
      var key := ListenKey(t, listenFor.value.request);
      var p := s.nextId;
      var s1 := s.(promises := s.promises[p := Waiting(key, p + 1)], nextId := p + 1);
      var s2 := Once(s1, t, FetchTarget(p, key), listenFor.value.request).0;
      var s3 := if key in s2.onceListenerKeys then s2
                else Send(s2, requestData).(onceListenerKeys := s2.onceListenerKeys + {key});
      (s3, Awaiting(p))
  }

  /** The timer of promise `p` fires. If the reply already won the race
      nothing happens; otherwise the error is logged, the listener removed,
      the key dropped and the promise resolves to `undefined`. */
  function Timeout(s: State, p: nat): State {
    if p in s.promises && s.promises[p].Waiting? then
      var w := s.promises[p].wrapper;
      var s1 := s.(sent := s.sent + [Log(Error)]);
      var s2 := if w in s1.wrappers then Unsubscribe(s1, s1.wrappers[w].kind, Wrapper(w)) else s1;
      s2.(onceListenerKeys := s2.onceListenerKeys - {s.promises[p].listenKey},
          promises := s2.promises[p := Settled(None)])
    else s
  }

  // ---------------------------------------------------------------------
  // The invariant of the bookkeeping

  /** `cb` is in the list registered for `kind`. */
  ghost predicate Listed(s: State, kind: string, cb: Callback) {
    cb in Registered(s.listeners, kind)
  }

  /** Closure and promise numbers below `nextId` are taken. */
  ghost predicate IdsTaken(s: State) {
    && (forall w | w in s.wrappers :: w < s.nextId)
    && (forall p | p in s.promises :: p < s.nextId)
  }

  /** A registered closure exists and is filed under the type it was made for. */
  ghost predicate WrappersFiled(s: State) {
    forall k, cb | Listed(s, k, cb) && cb.Wrapper? ::
      cb.id in s.wrappers && s.wrappers[cb.id].kind == k
  }

  /** Every caller still waiting holds its own registered one-shot listener. */
  ghost predicate WaitingListened(s: State) {
    forall p | p in s.promises && s.promises[p].Waiting? ::
      s.promises[p].wrapper in s.wrappers
      && s.wrappers[s.promises[p].wrapper].target == FetchTarget(p, s.promises[p].listenKey)
      && Listed(s, s.wrappers[s.promises[p].wrapper].kind, Wrapper(s.promises[p].wrapper))
  }

  /** A fetch listener belongs to exactly one promise and stays registered
      only while that promise waits: nothing leaks after a reply or timeout. */
  ghost predicate FetchListenersLive(s: State) {
    forall w | w in s.wrappers && s.wrappers[w].target.FetchTarget? ::
      s.wrappers[w].target.promise in s.promises
      && (s.promises[s.wrappers[w].target.promise].Waiting? ==> s.promises[s.wrappers[w].target.promise].wrapper == w)
      && (Listed(s, s.wrappers[w].kind, Wrapper(w)) ==> s.promises[s.wrappers[w].target.promise].Waiting?)
  }

  /** A correlation key is pending only while some caller waits on it. */
  ghost predicate PendingKeysAwaited(s: State) {
    forall k | k in s.onceListenerKeys :: exists p | p in s.promises :: s.promises[p].Waiting? && s.promises[p].listenKey == k
  }

  ghost predicate Valid(s: State) {
    IdsTaken(s) && WrappersFiled(s) && WaitingListened(s) && FetchListenersLive(s) && PendingKeysAwaited(s)
  }

  lemma InitialValid()
    ensures Valid(Initial())
  {
  }

  // ---------------------------------------------------------------------
  // What one callback call can and cannot change

  lemma InvokeFrame(s: State, cb: Callback, msg: Inbound, throwing: set<nat>)
    ensures var r := Invoke(s, cb, msg, throwing).0;
      && r.wrappers == s.wrappers && r.nextId == s.nextId && r.sent == s.sent
      && r.promises.Keys == s.promises.Keys
      && r.onceListenerKeys <= s.onceListenerKeys
      && |s.invoked| <= |r.invoked| && r.invoked[..|s.invoked|] == s.invoked
      && (forall p | p in s.promises && s.promises[p].Settled? :: r.promises[p] == s.promises[p])
      && (forall k, x | Listed(r, k, x) :: Listed(s, k, x))
      && (forall k, x | Listed(s, k, x) && x != cb :: Listed(r, k, x))
  {
  }

  /** `off` removes exactly one registration pair and touches nothing else. */
  lemma UnsubscribeListed(s: State, kind: string, cb: Callback)
    ensures var r := Unsubscribe(s, kind, cb);
      && r.(listeners := s.listeners) == s
      && (forall k, x :: Listed(r, k, x) <==> Listed(s, k, x) && (k, x) != (kind, cb))
  {
  }

  /** Removing registrations of a callback that no waiting caller depends on
      keeps the invariant. */
  lemma ShrinkValid(s: State, r: State, cb: Callback)
    requires Valid(s)
    requires r.wrappers == s.wrappers && r.promises == s.promises && r.nextId == s.nextId
    requires r.onceListenerKeys == s.onceListenerKeys
    requires forall k, x | Listed(r, k, x) :: Listed(s, k, x)
    requires forall k, x | Listed(s, k, x) && x != cb :: Listed(r, k, x)
    requires cb.Wrapper? ==> cb.id in s.wrappers && s.wrappers[cb.id].target.UserTarget?
    ensures Valid(r)
  {
    assert WrappersFiled(r);
    forall p | p in r.promises && r.promises[p].Waiting?
      ensures Listed(r, r.wrappers[r.promises[p].wrapper].kind, Wrapper(r.promises[p].wrapper))
    {
      assert Listed(s, s.wrappers[s.promises[p].wrapper].kind, Wrapper(s.promises[p].wrapper));
    }
    assert FetchListenersLive(r);
  }

  /** Retiring a waiting caller (reply or timeout): its listener goes, its key
      goes, its promise settles. */
  function Retire(s: State, p: nat, result: Option<Inbound>): State
    requires p in s.promises && s.promises[p].Waiting? && s.promises[p].wrapper in s.wrappers
  {
    var w := s.promises[p].wrapper;
    var s1 := Unsubscribe(s, s.wrappers[w].kind, Wrapper(w));
    s1.(onceListenerKeys := s1.onceListenerKeys - {s.promises[p].listenKey},
        promises := s1.promises[p := Settled(result)])
  }

  lemma RetireValid(s: State, p: nat, result: Option<Inbound>)
    requires Valid(s) && p in s.promises && s.promises[p].Waiting?
    ensures Valid(Retire(s, p, result))
    ensures var r := Retire(s, p, result);
      && r.wrappers == s.wrappers && r.nextId == s.nextId && r.sent == s.sent && r.invoked == s.invoked
      && !Listed(r, s.wrappers[s.promises[p].wrapper].kind, Wrapper(s.promises[p].wrapper))
      && (forall k, x | Listed(r, k, x) :: Listed(s, k, x))
      && (forall k, x | Listed(s, k, x) && x != Wrapper(s.promises[p].wrapper) :: Listed(r, k, x))
  {
    var r := Retire(s, p, result);
    var w, key := s.promises[p].wrapper, s.promises[p].listenKey;
    assert s.wrappers[w].target == FetchTarget(p, key);
    UnsubscribeListed(s, s.wrappers[w].kind, Wrapper(w));
    assert r.listeners == Unsubscribe(s, s.wrappers[w].kind, Wrapper(w)).listeners;
    assert forall k, x :: Listed(r, k, x) <==> Listed(s, k, x) && (k, x) != (s.wrappers[w].kind, Wrapper(w));
    assert WrappersFiled(r);
    forall q | q in r.promises && r.promises[q].Waiting?
      ensures r.promises[q].wrapper in r.wrappers
      ensures r.wrappers[r.promises[q].wrapper].target == FetchTarget(q, r.promises[q].listenKey)
      ensures Listed(r, r.wrappers[r.promises[q].wrapper].kind, Wrapper(r.promises[q].wrapper))
    {
      assert q != p && r.promises[q] == s.promises[q];
      assert s.promises[q].wrapper != w;
    }
    forall k | k in r.onceListenerKeys
      ensures exists q | q in r.promises :: r.promises[q].Waiting? && r.promises[q].listenKey == k
    {
      var q :| q in s.promises && s.promises[q].Waiting? && s.promises[q].listenKey == k;
      assert q != p;
      assert r.promises[q] == s.promises[q];
    }
    forall v | v in r.wrappers && r.wrappers[v].target.FetchTarget?
      ensures Listed(r, r.wrappers[v].kind, Wrapper(v)) ==> r.promises[r.wrappers[v].target.promise].Waiting?
    {
      if Listed(r, r.wrappers[v].kind, Wrapper(v)) {
        assert v != w;
        assert r.wrappers[v].target.promise != p;
      }
    }
    assert FetchListenersLive(r);
  }

  lemma InvokeValid(s: State, cb: Callback, msg: Inbound, throwing: set<nat>)
    requires Valid(s)
    ensures Valid(Invoke(s, cb, msg, throwing).0)
  {
    var r := Invoke(s, cb, msg, throwing).0;
    InvokeFrame(s, cb, msg, throwing);
    match cb
    case User(fn) =>
      ShrinkValid(s, r, cb);
    case Wrapper(w) =>
      if w in s.wrappers && Matches(s.wrappers[w].filter, msg.data.request) {
        var o := s.wrappers[w];
        match o.target
        case UserTarget(fn) =>
          ShrinkValid(s, r, cb);
        case FetchTarget(p, key) =>
          assert p in s.promises;
          if s.promises[p].Waiting? {
            assert s.promises[p] == Waiting(key, w);
            RetireValid(s, p, Some(msg));
            assert r == Retire(s, p, Some(msg));
          } else {
            assert !Listed(s, o.kind, cb);
            assert r.listeners == s.listeners by {
              if o.kind in s.listeners {
                WithoutAbsent(s.listeners[o.kind], cb);
              }
            }
            assert r == s.(onceListenerKeys := s.onceListenerKeys - {key});
          }
      }
  }

  lemma {:induction false} DispatchValid(s: State, snapshot: seq<Callback>, msg: Inbound, throwing: set<nat>)
    requires Valid(s)
    ensures Valid(Dispatch(s, snapshot, msg, throwing))
    decreases |snapshot|
  {
    if snapshot != [] {
      DispatchValid(s, snapshot[..|snapshot| - 1], msg, throwing);
      InvokeValid(Dispatch(s, snapshot[..|snapshot| - 1], msg, throwing), snapshot[|snapshot| - 1], msg, throwing);
    }
  }

  lemma HandleMessageValid(s: State, msg: Inbound, throwing: set<nat>)
    requires Valid(s)
    ensures Valid(HandleMessage(s, msg, throwing))
  {
    if FromHost(msg) {
      var kind := PropKey(msg.data.kind);
      DispatchValid(s, Registered(s.listeners, kind), msg, throwing);
      QuietValid(Dispatch(s, Registered(s.listeners, kind), msg, throwing), HandleMessage(s, msg, throwing));
    }
  }

  /** `on` and the removers returned by `on` and `once(type, fn)` keep the
      invariant (the listener that `fetch` registers is never handed out). */
  lemma SubscribeValid(s: State, kind: string, fn: nat)
    requires Valid(s)
    ensures Valid(Subscribe(s, kind, User(fn)))
  {
    var r := Subscribe(s, kind, User(fn));
    assert forall k, x :: Listed(r, k, x) <==> Listed(s, k, x) || (k, x) == (kind, User(fn));
  }

  lemma UnsubscribeValid(s: State, kind: string, cb: Callback)
    requires Valid(s)
    requires cb.Wrapper? ==> cb.id in s.wrappers && s.wrappers[cb.id].target.UserTarget?
    ensures Valid(Unsubscribe(s, kind, cb))
  {
    UnsubscribeListed(s, kind, cb);
    ShrinkValid(s, Unsubscribe(s, kind, cb), cb);
  }

  lemma OnceValid(s: State, kind: string, fn: nat, filter: Option<string>)
    requires Valid(s)
    ensures Valid(Once(s, kind, UserTarget(fn), filter).0)
  {
    var w := s.nextId;
    var r := Once(s, kind, UserTarget(fn), filter).0;
    assert forall k, x :: Listed(r, k, x) <==> Listed(s, k, x) || (k, x) == (kind, Wrapper(w));
    assert WrappersFiled(r);
  }

  /** Posting, logging calls and dropping pending keys keep the invariant. */
  lemma QuietValid(s: State, r: State)
    requires Valid(s)
    requires r.listeners == s.listeners && r.wrappers == s.wrappers && r.promises == s.promises
    requires r.nextId == s.nextId && r.onceListenerKeys <= s.onceListenerKeys
    ensures Valid(r)
  {
    assert forall k, x :: Listed(r, k, x) <==> Listed(s, k, x);
  }

  /** The state right after a successful `fetch` registered promise `p` and its
      listener `p + 1`. */
  lemma RegisteredFetchValid(s: State, r: State, t: string, key: string, filter: Option<string>)
    requires Valid(s)
    requires r.nextId == s.nextId + 2
    requires r.wrappers == s.wrappers[s.nextId + 1 := OnceSpec(t, filter, FetchTarget(s.nextId, key))]
    requires r.promises == s.promises[s.nextId := Waiting(key, s.nextId + 1)]
    requires r.onceListenerKeys <= s.onceListenerKeys + {key}
    requires forall k, x :: Listed(r, k, x) <==> Listed(s, k, x) || (k, x) == (t, Wrapper(s.nextId + 1))
    ensures Valid(r)
  {
    var p := s.nextId;
    assert WrappersFiled(r);
    forall q | q in r.promises && r.promises[q].Waiting?
      ensures r.promises[q].wrapper in r.wrappers
      ensures r.wrappers[r.promises[q].wrapper].target == FetchTarget(q, r.promises[q].listenKey)
      ensures Listed(r, r.wrappers[r.promises[q].wrapper].kind, Wrapper(r.promises[q].wrapper))
    {
      if q != p {
        assert s.promises[q].wrapper < p;
      }
    }
    forall k | k in r.onceListenerKeys
      ensures exists q | q in r.promises :: r.promises[q].Waiting? && r.promises[q].listenKey == k
    {
      if k == key {
        assert r.promises[p].Waiting? && r.promises[p].listenKey == k;
      } else {
        var q :| q in s.promises && s.promises[q].Waiting? && s.promises[q].listenKey == k;
        assert r.promises[q] == s.promises[q];
      }
    }
    assert FetchListenersLive(r);
  }

  lemma FetchValid(s: State, requestData: Data, listenFor: Option<Pattern>)
    requires Valid(s)
    ensures Valid(Fetch(s, requestData, listenFor).0)
  {
    if TruthyText(requestData.kind) && listenFor.Some? && TruthyText(listenFor.value.kind) {
      var t := listenFor.value.kind.value;
      var key := ListenKey(t, listenFor.value.request);
      var r := Fetch(s, requestData, listenFor).0;
      assert r.listeners == s.listeners[t := Registered(s.listeners, t) + [Wrapper(s.nextId + 1)]];
      RegisteredFetchValid(s, r, t, key, listenFor.value.request);
    }
  }

  lemma TimeoutValid(s: State, p: nat)
    requires Valid(s)
    ensures Valid(Timeout(s, p))
  {
    if p in s.promises && s.promises[p].Waiting? {
      RetireValid(s, p, None);
      var r := Retire(s, p, None);
      assert Timeout(s, p) == r.(sent := s.sent + [Log(Error)]);
      QuietValid(r, Timeout(s, p));
    }
  }
}
