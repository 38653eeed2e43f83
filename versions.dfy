/** How the three generations of the client differ on the same inputs. */
module Versions {
  import opened Js
  import opened Wire
  import opened Registry
  import ClientSpec
  import ClientProps
  import LegacySpec
  import CompiledSpec
  import Manifests
  import Triggers

  /** Two overlapping requests for the same reply: the current `fetch`
      posts one request, the older `fetchData` posts both. */
  lemma RequestDeduplicationAdded(s: ClientSpec.State, t: LegacySpec.State,
                                  first: Data, second: Data, pattern: ClientSpec.Pattern)
    requires ClientSpec.Valid(s) && ClientProps.WellFormed(first, Some(pattern)) && ClientProps.WellFormed(second, Some(pattern))
    requires ListenKey(pattern.kind.value, pattern.request) !in s.onceListenerKeys
    ensures var s1 := ClientSpec.Fetch(s, first, Some(pattern)).0;
      ClientSpec.Fetch(s1, second, Some(pattern)).0.sent == s.sent + [Request(Normalize(first))]
    ensures var (t1, _) := LegacySpec.FetchData(t, pattern.kind.value, first, pattern.request);
      LegacySpec.FetchData(t1, pattern.kind.value, second, pattern.request).0.sent
        == t.sent + [NormalizeLegacy(first), NormalizeLegacy(second)]
  {
    ClientProps.FetchOutcome(s, first, pattern);
    ClientProps.FetchOutcome(ClientSpec.Fetch(s, first, Some(pattern)).0, second, pattern);
  }

  /** The oldest client routes a message by its `app`, the later ones by its
      `type`: a "song" message from app "music" reaches a function registered
      for "music" only in the oldest client. */
  lemma RoutingKeyChanged(f: nat, payload: Value)
    ensures var msg := Inbound(Some(TrustedSource), Data(Some("music"), Some("song"), None, payload));
      var compiled := CompiledSpec.State(map["music" := [f]], [], []);
      var legacy := LegacySpec.State(map["music" := [User(f)]], map[], map[], 0, [], []);
      && CompiledSpec.HandleMessage(compiled, msg, {}).invoked == [Invocation(f, Whole(msg))]
      && LegacySpec.HandleMessage(legacy, msg, {}).invoked == []
  {
    var msg := Inbound(Some(TrustedSource), Data(Some("music"), Some("song"), None, payload));
    CompiledSpec.Routing(CompiledSpec.State(map["music" := [f]], [], []), msg);
  }

  /** The current `triggerKey` fills in a missing source; the older one
      posts the key record exactly as given. */
  lemma KeySourceDefaultAdded(s: ClientSpec.State, t: LegacySpec.State, fields: map<string, Value>, manifest: Option<Manifests.Manifest>)
    requires "source" !in fields
    ensures var posted := ClientSpec.Send(s, Triggers.KeyEnvelope(Triggers.WithKeySource(fields, manifest))).sent[|s.sent|];
      posted.Request? && posted.envelope.payload.Obj? && "source" in posted.envelope.payload.fields
    ensures var posted := LegacySpec.TriggerKey(t, Obj(fields)).sent[|t.sent|];
      posted.payload == Obj(fields) && "source" !in posted.payload.fields
  {
  }
}
