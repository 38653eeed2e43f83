/** The compiled `DeskThing` class (dist/index.js) with its one mutable
    field; each method is tied to its step in `CompiledSpec`. */
module CompiledClass {
  import opened Js
  import opened Wire
  import opened Registry
  import opened CompiledSpec

  class DeskThing {
    var listeners: map<string, seq<nat>>
    ghost var sent: seq<Data>
    ghost var invoked: seq<Invocation>

    ghost function State(): CompiledSpec.State
      reads this
    {
      CompiledSpec.State(listeners, sent, invoked)
    }

    constructor ()
      ensures State() == Initial()
    {
      listeners := map[];
      sent := [];
      invoked := [];
    }

    /** `sendMessageToParent(data)` */
    method SendMessageToParent(data: Data)
      modifies this
      ensures State() == CompiledSpec.SendMessageToParent(old(State()), data)
    {
      sent := sent + [NormalizeLegacy(data)];
    }

    /** `on(event, callback)` */
    method On(event: string, fn: nat) returns (remover: OffClosure)
      modifies this
      ensures (State(), remover) == CompiledSpec.On(old(State()), event, fn)
    {
      ghost var before := listeners;
      if event !in listeners {
        listeners := listeners[event := []];
      }
      assert listeners[event] == Registered(before, event);
      var notifies := event in NotifiedEvents;
      if notifies {
        SendMessageToParent(Notice(event, "on"));
      }
      listeners := listeners[event := listeners[event] + [fn]];
      assert listeners == Append(before, event, fn);
      remover := OffClosure(event, fn, notifies);
    }

    /** `off(event, callback)` */
    method Off(event: string, fn: nat)
      modifies this
      ensures State() == CompiledSpec.Off(old(State()), event, fn)
    {
      if event in listeners {
        listeners := listeners[event := Without(listeners[event], fn)];
      }
    }

    /** Calling the closure that `on` returned. */
    method Remove(remover: OffClosure)
      modifies this
      ensures State() == CallRemover(old(State()), remover)
    {
      if remover.notifies {
        SendMessageToParent(Notice(remover.event, "off"));
      }
      Off(remover.event, remover.fn);
    }

    /** The `forEach` over a snapshot of functions; `threw` says whether it
        ended at a function that throws. */
    method Run(callbacks: seq<nat>, arg: Argument, throwing: set<nat>) returns (threw: bool)
      modifies this
      ensures (State(), threw) == Dispatch(old(State()), callbacks, arg, throwing)
    {
      var i := 0;
      threw := false;
      while i < |callbacks| && !threw
        invariant 0 <= i <= |callbacks|
        invariant (State(), threw) == Dispatch(old(State()), callbacks[..i], arg, throwing)
      {
        invoked := invoked + [Invocation(callbacks[i], arg)];
        threw := callbacks[i] in throwing;
        assert callbacks[..i + 1][..i] == callbacks[..i];
        i := i + 1;
      }
      if threw {
        DispatchStopped(old(State()), callbacks, arg, throwing, i);
      } else {
        assert callbacks[..i] == callbacks;
      }
    }

    /** `emit(event, data)` */
    method Emit(event: string, msg: Inbound, throwing: set<nat>)
      modifies this
      ensures State() == CompiledSpec.Emit(old(State()), event, msg, throwing)
    {
      var _ := Run(Registered(listeners, event), Whole(msg), throwing);
    }

    /** `handleMessage(event)` */
    method HandleMessage(msg: Inbound, throwing: set<nat>)
      modifies this
      ensures State() == CompiledSpec.HandleMessage(old(State()), msg, throwing)
    {
      if !FromHost(msg) {
        return;
      }
      if msg.data.app == Some("client") {
        if !TruthyText(msg.data.kind) {
          return;
        }
        var _ := Run(Registered(listeners, msg.data.kind.value), PayloadOnly(msg.data.payload), throwing);
      } else {
        Emit(PropKey(msg.data.app), msg, throwing);
      }
    }

    /** The `keydown` handler the constructor installs. */
    method KeyDown(code: string)
      modifies this
      ensures State() == CompiledSpec.KeyDown(old(State()), code)
    {
      SendMessageToParent(Data(Some("client"), Some("button"), None, ButtonPayload(code)));
    }
  }
}
