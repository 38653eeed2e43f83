/** The older `DeskThing` class (index.ts) with the fields its methods
    update in place; each method is tied to its step in `LegacySpec`. */
module LegacyClass {
  import opened Js
  import opened Wire
  import opened Registry
  import opened LegacySpec
  import Input

  class DeskThing {
    var listeners: map<string, seq<Callback>>
    var wrappers: map<nat, OnceSpec>
    var promises: map<nat, Promise>
    var nextId: nat
    ghost var sent: seq<Data>
    ghost var invoked: seq<Invocation>

    ghost function State(): LegacySpec.State
      reads this
    {
      LegacySpec.State(listeners, wrappers, promises, nextId, sent, invoked)
    }

    constructor ()
      ensures State() == Initial()
    {
      listeners := map[];
      wrappers := map[];
      promises := map[];
      nextId := 0;
      sent := [];
      invoked := [];
    }

    /** `on(type, callback)` */
    method On(kind: string, cb: Callback) returns (remover: Remover)
      modifies this
      ensures State() == Subscribe(old(State()), kind, cb) && remover == Remover(kind, cb)
    {
      if kind !in listeners {
        listeners := listeners[kind := []];
      }
      listeners := listeners[kind := listeners[kind] + [cb]];
      remover := Remover(kind, cb);
    }

    /** `off(type, callback)` */
    method Off(kind: string, cb: Callback)
      modifies this
      ensures State() == Unsubscribe(old(State()), kind, cb)
    {
      if kind in listeners {
        listeners := listeners[kind := Without(listeners[kind], cb)];
      }
    }

    method Remove(remover: Remover)
      modifies this
      ensures State() == Unsubscribe(old(State()), remover.kind, remover.callback)
    {
      Off(remover.kind, remover.callback);
    }

    /** `once(type, callback, request)` */
    method Once(kind: string, target: Target, filter: Option<string>) returns (remover: Remover)
      modifies this
      ensures (State(), remover) == LegacySpec.Once(old(State()), kind, target, filter)
    {
      var w := nextId;
      wrappers := wrappers[w := OnceSpec(kind, filter, target)];
      nextId := w + 1;
      remover := On(kind, Wrapper(w));
    }

    /** One step of the `forEach`: a throw propagates out of it. */
    method Invoke(cb: Callback, msg: Inbound, throwing: set<nat>) returns (threw: bool)
      modifies this
      ensures (State(), threw) == LegacySpec.Invoke(old(State()), cb, msg, throwing)
    {
      threw := false;
      match cb {
        case User(fn) =>
          invoked := invoked + [Invocation(fn, Whole(msg))];
          threw := fn in throwing;
        case Wrapper(w) =>
          if w !in wrappers || !Matches(wrappers[w].filter, msg.data.request) {
            return;
          }
          var o := wrappers[w];
          match o.target {
            case UserTarget(fn) =>
              invoked := invoked + [Invocation(fn, Whole(msg))];
              if fn in throwing {
                threw := true;
                return;
              }
            case FetchTarget(p) =>
              if p in promises && promises[p].Waiting? {
                promises := promises[p := Settled(Some(msg.data.payload))];
              }
          }
          Off(o.kind, cb);
      }
    }

    /** `emit(type, data)`; `rejected` says whether a callback threw, which
        ends the loop and rejects the returned promise. */
    method Emit(kind: string, msg: Inbound, throwing: set<nat>) returns (rejected: bool)
      modifies this
      ensures (State(), rejected) == Dispatch(old(State()), Registered(old(listeners), kind), msg, throwing)
    {
      var callbacks := Registered(listeners, kind);
      var i := 0;
      rejected := false;
      while i < |callbacks| && !rejected
        invariant 0 <= i <= |callbacks|
        invariant (State(), rejected) == Dispatch(old(State()), callbacks[..i], msg, throwing)
      {
        rejected := Invoke(callbacks[i], msg, throwing);
        assert callbacks[..i + 1][..i] == callbacks[..i];
        i := i + 1;
      }
      if rejected {
        DispatchStopped(old(State()), callbacks, msg, throwing, i);
      } else {
        assert callbacks[..i] == callbacks;
      }
    }

    /** `handleMessage(event)` */
    method HandleMessage(msg: Inbound, throwing: set<nat>)
      modifies this
      ensures State() == LegacySpec.HandleMessage(old(State()), msg, throwing)
    {
      if !FromHost(msg) {
        return;
      }
      var _ := Emit(PropKey(msg.data.kind), msg, throwing);
    }

    /** `send(data)` */
    method Send(data: Data)
      modifies this
      ensures State() == LegacySpec.Send(old(State()), data)
    {
      sent := sent + [NormalizeLegacy(data)];
    }

    /** The deprecated `sendMessageToParent(data)`: the same as `send`. */
    method SendMessageToParent(data: Data)
      modifies this
      ensures State() == LegacySpec.Send(old(State()), data)
    {
      Send(data);
    }

    /** The synchronous part of `fetchData(type, requestData, request)`. */
    method FetchData(kind: string, requestData: Data, request: Option<string>) returns (p: nat)
      modifies this
      ensures (State(), p) == LegacySpec.FetchData(old(State()), kind, requestData, request)
    {
      p := nextId;
      promises := promises[p := Waiting(p + 1)];
      nextId := p + 1;
      var _ := Once(kind, FetchTarget(p), request);
      Send(requestData);
    }

    /** The 5000 ms timer of promise `p`. */
    method Timeout(p: nat)
      modifies this
      ensures State() == LegacySpec.Timeout(old(State()), p)
    {
      if p in promises && promises[p].Waiting? {
        promises := promises[p := Settled(None)];
      }
    }

    method TriggerAction(action: Value)
      modifies this
      ensures State() == LegacySpec.TriggerAction(old(State()), action)
    {
      Send(Data(Some("client"), Some("action"), None, action));
    }

    method TriggerKey(keyTrigger: Value)
      modifies this
      ensures State() == LegacySpec.TriggerKey(old(State()), keyTrigger)
    {
      Send(Data(Some("client"), Some("key"), None, keyTrigger));
    }

    /** A keyboard event: forwarded as `{ key: code, mode }` unless already handled. */
    method ForwardKeyboard(code: string, keydown: bool, defaultPrevented: bool)
      modifies this
      ensures State() == if defaultPrevented then old(State())
        else LegacySpec.TriggerKey(old(State()), Obj(map["key" := Str(code), "mode" := Num(Input.ModeNumber(Input.KeyMode(keydown)))]))
    {
      if defaultPrevented {
        return;
      }
      var mode := Input.KeyMode(keydown);
      TriggerKey(Obj(map["key" := Str(code), "mode" := Num(Input.ModeNumber(mode))]));
    }

    /** A wheel event: forwarded as `{ key: "Scroll", mode }` unless already handled. */
    method ForwardWheel(deltaX: real, deltaY: real, defaultPrevented: bool)
      modifies this
      ensures State() == if defaultPrevented then old(State())
        else LegacySpec.TriggerKey(old(State()), Obj(map["key" := Str("Scroll"), "mode" := Num(Input.ModeNumber(Input.WheelMode(deltaX, deltaY)))]))
    {
      if defaultPrevented {
        return;
      }
      var mode := Input.WheelMode(deltaX, deltaY);
      TriggerKey(Obj(map["key" := Str("Scroll"), "mode" := Num(Input.ModeNumber(mode))]));
    }
  }
}
