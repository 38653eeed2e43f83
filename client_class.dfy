/** `DeskThingClass` (src/deskthing.ts) as a class whose fields the methods
    update in place. Every bookkeeping method is tied to its step in
    `ClientSpec`, where the properties are proved. */
module ClientClass {
  import opened Js
  import opened Wire
  import opened Registry
  import opened ClientSpec
  import opened Manifests
  import Input
  import Images
  import Triggers
  import ClientProps

  class DeskThingClass {
    var manifest: Option<Manifest>
    var listeners: map<string, seq<Callback>>
    var onceListenerKeys: set<string>
    var keyOverrides: set<string>
    /** What each closure made by `once` captured, by closure number. */
    var wrappers: map<nat, OnceSpec>
    /** The promises `fetch` handed out, by promise number. */
    var promises: map<nat, Promise>
    var nextId: nat
    /** Everything posted to the parent window, in order. */
    ghost var sent: seq<Posted>
    /** Every call of an app-supplied function, in order. */
    ghost var invoked: seq<Invocation>

    ghost function State(): ClientSpec.State
      reads this
    {
      ClientSpec.State(listeners, onceListenerKeys, wrappers, promises, nextId, sent, invoked)
    }

    /** The start-up requests of the constructor are not part of this model. */
    constructor ()
      ensures State() == Initial() && keyOverrides == {} && manifest == None
    {
      manifest := None;
      listeners := map[];
      onceListenerKeys := {};
      keyOverrides := {};
      wrappers := map[];
      promises := map[];
      nextId := 0;
      sent := [];
      invoked := [];
    }

    /** `on(type, callback)` */
    method On(kind: string, cb: Callback) returns (remover: Remover)
      modifies this
      ensures State() == Subscribe(old(State()), kind, cb) && remover == Remover(kind, cb)
      ensures keyOverrides == old(keyOverrides) && manifest == old(manifest)
    {
      if kind !in listeners {
        listeners := listeners[kind := []];
      }
      listeners := listeners[kind := listeners[kind] + [cb]];
      remover := Remover(kind, cb);
    }

    /** `off(type, callback)` */
    method Off(kind: string, cb: Callback)
      modifies this
      ensures State() == Unsubscribe(old(State()), kind, cb)
      ensures keyOverrides == old(keyOverrides) && manifest == old(manifest)
    {
      if kind in listeners {
        listeners := listeners[kind := Without(listeners[kind], cb)];
      }
    }

    /** Calling the closure returned by `on` or `once`. */
    method Remove(remover: Remover)
      modifies this
      ensures State() == Unsubscribe(old(State()), remover.kind, remover.callback)
      ensures keyOverrides == old(keyOverrides) && manifest == old(manifest)
    {
      Off(remover.kind, remover.callback);
    }

    /** `once(type, callback, request)`: `target` is the callback handed in. */
    method Once(kind: string, target: Target, filter: Option<string>) returns (remover: Remover)
      modifies this
      ensures (State(), remover) == ClientSpec.Once(old(State()), kind, target, filter)
      ensures keyOverrides == old(keyOverrides) && manifest == old(manifest)
    {
      var w := nextId;
      wrappers := wrappers[w := OnceSpec(kind, filter, target)];
      nextId := w + 1;
      remover := On(kind, Wrapper(w));
    }

    /** One callback of an emission, inside its own try/catch. */
    method Invoke(cb: Callback, msg: Inbound, throwing: set<nat>) returns (threw: bool)
      modifies this
      ensures (State(), threw) == ClientSpec.Invoke(old(State()), cb, msg, throwing)
      ensures keyOverrides == old(keyOverrides) && manifest == old(manifest)
    {
      threw := false;
      match cb {
        case User(fn) =>
          invoked := invoked + [Invocation(fn, Whole(msg))];
          threw := fn in throwing;
        case Wrapper(w) =>
          if w !in wrappers || !Matches(wrappers[w].filter, msg.data.request) {
            return;
          }
          var o := wrappers[w];
          match o.target {
            case UserTarget(fn) =>
              invoked := invoked + [Invocation(fn, Whole(msg))];
              if fn in throwing {
                threw := true;
                return;
              }
            case FetchTarget(p, key) =>
              onceListenerKeys := onceListenerKeys - {key};
              if p in promises && promises[p].Waiting? {
                promises := promises[p := Settled(Some(msg))];
              }
          }
          Off(o.kind, cb);
      }
    }

    /** `emit(type, data)`: every callback of the list captured at the start
        runs in order; then the message's own key is cleared. */
    method Emit(kind: string, msg: Inbound, throwing: set<nat>)
      modifies this
      ensures State() == ClientSpec.Emit(old(State()), kind, msg, throwing)
      ensures keyOverrides == old(keyOverrides) && manifest == old(manifest)
    {
      var callbacks := Registered(listeners, kind);
      var i := 0;
      while i < |callbacks|
        invariant 0 <= i <= |callbacks|
        invariant State() == Dispatch(old(State()), callbacks[..i], msg, throwing)
        invariant keyOverrides == old(keyOverrides) && manifest == old(manifest)
      {
        var _ := Invoke(callbacks[i], msg, throwing);
        assert callbacks[..i + 1][..i] == callbacks[..i];
        i := i + 1;
      }
      assert callbacks[..i] == callbacks;
      var listenKey := ListenKey(kind, msg.data.request);
      if listenKey in onceListenerKeys {
        onceListenerKeys := onceListenerKeys - {listenKey};
        sent := sent + [Log(Debug)];
      }
    }

    /** `handleMessage(event)` */
    method HandleMessage(msg: Inbound, throwing: set<nat>)
      modifies this
      ensures State() == ClientSpec.HandleMessage(old(State()), msg, throwing)
      ensures keyOverrides == old(keyOverrides) && manifest == old(manifest)
    {
      if !FromHost(msg) {
        return;
      }
      Emit(PropKey(msg.data.kind), msg, throwing);
    }

    /** `send(data)` */
    method Send(data: Data)
      modifies this
      ensures State() == ClientSpec.Send(old(State()), data)
      ensures keyOverrides == old(keyOverrides) && manifest == old(manifest)
    {
      sent := sent + [Request(Normalize(data))];
    }

    /** The synchronous part of `fetch(requestData, listenFor)`. */
    method Fetch(requestData: Data, listenFor: Option<Pattern>) returns (call: FetchCall)
      modifies this
      ensures (State(), call) == ClientSpec.Fetch(old(State()), requestData, listenFor)
      ensures keyOverrides == old(keyOverrides) && manifest == old(manifest)
    {
      if !TruthyText(requestData.kind) {
        return Returned(None);
      }
      if listenFor.None? {
        return Returned(None);
      }
      if !TruthyText(listenFor.value.kind) {
        return Returned(None);
      }
      var t := listenFor.value.kind.value;
      var listenKey := ListenKey(t, listenFor.value.request);
      var p := nextId;
      promises := promises[p := Waiting(listenKey, p + 1)];
      nextId := p + 1;
      var _ := Once(t, FetchTarget(p, listenKey), listenFor.value.request);
      if listenKey !in onceListenerKeys {
        Send(requestData);
        onceListenerKeys := onceListenerKeys + {listenKey};
      }
      call := Awaiting(p);
    }

    /** The deprecated `fetchData(type, requestData, request)`: a `fetch`
        listening for that type and request. */
    method FetchData(kind: string, requestData: Data, request: Option<string>) returns (call: FetchCall)
      modifies this
      ensures (State(), call) == ClientSpec.Fetch(old(State()), requestData, Some(Pattern(Some(kind), request)))
      ensures keyOverrides == old(keyOverrides) && manifest == old(manifest)
    {
      call := Fetch(requestData, Some(Pattern(Some(kind), request)));
    }

    /** The deprecated `sendMessageToParent(data)`: the same as `send`. */
    method SendMessageToParent(data: Data)
      modifies this
      ensures State() == ClientSpec.Send(old(State()), data)
      ensures keyOverrides == old(keyOverrides) && manifest == old(manifest)
    {
      Send(data);
    }

    /** The 5000 ms timer of promise `p` fires. */
    method Timeout(p: nat)
      modifies this
      ensures State() == ClientSpec.Timeout(old(State()), p)
      ensures keyOverrides == old(keyOverrides) && manifest == old(manifest)
    {
      if p !in promises || promises[p].Settled? {
        return;
      }
      var w, listenKey := promises[p].wrapper, promises[p].listenKey;
      sent := sent + [Log(Error)];
      if w in wrappers {
        Off(wrappers[w].kind, Wrapper(w));
      }
      onceListenerKeys := onceListenerKeys - {listenKey};
      promises := promises[p := Settled(None)];
    }

    /** `overrideKeys(keys)` */
    method OverrideKeys(keys: seq<string>)
      modifies this
      ensures keyOverrides == old(keyOverrides) + Input.Lowered(keys)
      ensures State() == old(State()) && manifest == old(manifest)
    {
      var i := 0;
      while i < |keys|
        invariant 0 <= i <= |keys|
        invariant keyOverrides == old(keyOverrides) + Input.Lowered(keys[..i])
        invariant State() == old(State()) && manifest == old(manifest)
      {
        keyOverrides := keyOverrides + {Lower(keys[i])};
        assert keys[..i + 1][..i] == keys[..i];
        i := i + 1;
      }
      assert keys[..i] == keys;
    }

    /** `restoreKeys(keys)` */
    method RestoreKeys(keys: seq<string>)
      modifies this
      ensures keyOverrides == old(keyOverrides) - Input.Lowered(keys)
      ensures State() == old(State()) && manifest == old(manifest)
    {
      var i := 0;
      while i < |keys|
        invariant 0 <= i <= |keys|
        invariant keyOverrides == old(keyOverrides) - Input.Lowered(keys[..i])
        invariant State() == old(State()) && manifest == old(manifest)
      {
        keyOverrides := keyOverrides - {Lower(keys[i])};
        assert keys[..i + 1][..i] == keys[..i];
        i := i + 1;
      }
      assert keys[..i] == keys;
    }

    /** Storing the manifest the host sent (`this.manifest = ...`). */
    method StoreManifest(m: Manifest)
      modifies this
      ensures manifest == Some(m)
      ensures State() == old(State()) && keyOverrides == old(keyOverrides)
    {
      manifest := Some(m);
    }

    /** `triggerKey(KeyReference)`: fills in a missing source on the caller's
        own object, then posts it. */
    method TriggerKey(keyReference: JsObject)
      modifies this, keyReference
      ensures keyReference.fields == Triggers.WithKeySource(old(keyReference.fields), manifest)
      ensures State() == ClientSpec.Send(old(State()), Triggers.KeyEnvelope(keyReference.fields))
      ensures keyOverrides == old(keyOverrides) && manifest == old(manifest)
    {
      if !Truthy(Get(keyReference.fields, "source")) {
        keyReference.fields := keyReference.fields["source" := Or(Triggers.ManifestName(manifest), Str(Triggers.ServerSource))];
      }
      Send(Triggers.KeyEnvelope(keyReference.fields));
    }

    /** `triggerAction(action)` */
    method TriggerAction(action: map<string, Value>)
      modifies this
      ensures State() == ClientSpec.Send(old(State()), Triggers.ActionEnvelope(action, manifest))
      ensures keyOverrides == old(keyOverrides) && manifest == old(manifest)
    {
      Send(Triggers.ActionEnvelope(action, manifest));
    }

    /** A keyboard event reaching the document: forwarded as a key trigger
        `{ id: code, mode }` unless it was already handled or its code is
        overridden. */
    method ForwardKeyboard(code: string, keydown: bool, defaultPrevented: bool)
      modifies this
      ensures var fields := map["id" := Str(code), "mode" := Num(Input.ModeNumber(Input.KeyMode(keydown)))];
        State() == if defaultPrevented || Input.KeySuppressed(keyOverrides, code) then old(State())
                   else ClientSpec.Send(old(State()), Triggers.KeyEnvelope(Triggers.WithKeySource(fields, manifest)))
      ensures keyOverrides == old(keyOverrides) && manifest == old(manifest)
    {
      if defaultPrevented {
        return;
      }
      if Lower(code) in keyOverrides {
        return;
      }
      var mode := Input.KeyMode(keydown);
      var keyReference := new JsObject(map["id" := Str(code), "mode" := Num(Input.ModeNumber(mode))]);
      TriggerKey(keyReference);
    }

    /** A wheel event reaching the document: forwarded as a "Scroll" key
        trigger whose mode follows the deltas, unless handled or overridden. */
    method ForwardWheel(deltaX: real, deltaY: real, defaultPrevented: bool)
      modifies this
      ensures var fields := map["id" := Str("Scroll"), "mode" := Num(Input.ModeNumber(Input.WheelMode(deltaX, deltaY)))];
        State() == if defaultPrevented || Input.WheelSuppressed(keyOverrides) then old(State())
                   else ClientSpec.Send(old(State()), Triggers.KeyEnvelope(Triggers.WithKeySource(fields, manifest)))
      ensures keyOverrides == old(keyOverrides) && manifest == old(manifest)
    {
      if defaultPrevented {
        return;
      }
      if "wheel" in keyOverrides {
        return;
      }
      var mode := Input.WheelMode(deltaX, deltaY);
      var keyReference := new JsObject(map["id" := Str("Scroll"), "mode" := Num(Input.ModeNumber(mode))]);
      TriggerKey(keyReference);
    }

    /** `formatImageUrl(image)` */
    function FormatImageUrl(image: string): string
      reads this
    {
      Images.FormatImageUrl(manifest, image)
    }

    /** `useProxy(url)`, given `encodeURIComponent(url)`. */
    function UseProxy(url: string, encoded: string): string
      reads this
    {
      Images.UseProxy(manifest, url, encoded)
    }
  }

  /** Two parts of an app ask for the same data while the first request is
      outstanding, and one reply arrives: both callers get that reply and
      nothing stays pending. */
  method SharedRequestScenario(first: Data, second: Data, pattern: Pattern, reply: Inbound)
    returns (a: FetchCall, b: FetchCall, settledA: Promise, settledB: Promise, pending: bool)
    requires ClientProps.WellFormed(first, Some(pattern)) && ClientProps.WellFormed(second, Some(pattern))
    requires FromHost(reply) && reply.data.kind == pattern.kind && Matches(pattern.request, reply.data.request)
    requires ListenKey(pattern.kind.value, reply.data.request) == ListenKey(pattern.kind.value, pattern.request)
    ensures a.Awaiting? && b.Awaiting? && a != b
    ensures settledA == Settled(Some(reply)) && settledB == Settled(Some(reply))
    ensures !pending
  {
    var client := new DeskThingClass();
    InitialValid();
    ClientProps.TwoFetchesOutcome(Initial(), first, second, pattern);
    var s1 := ClientSpec.Fetch(Initial(), first, Some(pattern)).0;
    FetchValid(Initial(), first, Some(pattern));
    FetchValid(s1, second, Some(pattern));
    var s2 := ClientSpec.Fetch(s1, second, Some(pattern)).0;
    var t, key := pattern.kind.value, ListenKey(pattern.kind.value, pattern.request);
    ClientProps.ReplyAfterTwoFetches(s2, reply, {}, t, 0, key, pattern.request);
    a := client.Fetch(first, Some(pattern));
    b := client.Fetch(second, Some(pattern));
    client.HandleMessage(reply, {});
    settledA := client.promises[a.promise];
    settledB := client.promises[b.promise];
    pending := ListenKey(pattern.kind.value, pattern.request) in client.onceListenerKeys;
  }
}
