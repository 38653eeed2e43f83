/** The records the current client posts for `triggerAction` and
    `triggerKey`, with their defaulted fields. */
module Triggers {
  import opened Js
  import opened Wire
  import opened Manifests

  const ClientApp := "client"
  /** `CLIENT_REQUESTS.ACTION` and `CLIENT_REQUESTS.KEY`. */
  const ActionRequest := "action"
  const KeyRequest := "key"
  const ServerSource := "server"

  /** `this.manifest?.id` and `this.manifest?.name` as JavaScript values. */
  function ManifestId(manifest: Option<Manifest>): Value {
    if manifest.Some? then TextValue(manifest.value.id) else Undefined
  }

  function ManifestName(manifest: Option<Manifest>): Value {
    if manifest.Some? then TextValue(manifest.value.name) else Undefined
  }

  /** `{ ...action, enabled: action.enabled ?? true,
        source: action.source || this.manifest?.id || 'server' }` */
  function ActionPayload(action: map<string, Value>, manifest: Option<Manifest>): (r: map<string, Value>)
    ensures r.Keys == action.Keys + {"enabled", "source"}
    ensures forall k | k in action && k != "enabled" && k != "source" :: r[k] == action[k]
    ensures Nullish(Get(action, "enabled")) ==> r["enabled"] == Bool(true)
    ensures !Nullish(Get(action, "enabled")) ==> r["enabled"] == action["enabled"]
    ensures Truthy(Get(action, "source")) ==> r["source"] == action["source"]
    ensures !Truthy(Get(action, "source")) ==> r["source"] == Or(ManifestId(manifest), Str(ServerSource))
  {
    action["enabled" := Coalesce(Get(action, "enabled"), Bool(true))]
          ["source" := Or(Get(action, "source"), Or(ManifestId(manifest), Str(ServerSource)))]
  }

  /** The posted action always names a source and is never silently enabled
      when the caller said `enabled: false`. */
  lemma ActionPayloadDefaults(action: map<string, Value>, manifest: Option<Manifest>)
    ensures Truthy(ActionPayload(action, manifest)["source"])
    ensures !Nullish(ActionPayload(action, manifest)["enabled"])
    ensures Get(action, "enabled") == Bool(false) ==> ActionPayload(action, manifest)["enabled"] == Bool(false)
  {
  }

  /** Defaulting is stable: a record that already went through it is posted unchanged. */
  lemma ActionPayloadIdempotent(action: map<string, Value>, manifest: Option<Manifest>)
    ensures ActionPayload(ActionPayload(action, manifest), manifest) == ActionPayload(action, manifest)
  {
    ActionPayloadDefaults(action, manifest);
  }

  function ActionEnvelope(action: map<string, Value>, manifest: Option<Manifest>): Data {
    Data(Some(ClientApp), Some(ActionRequest), None, Obj(ActionPayload(action, manifest)))
  }

  /** `if (!KeyReference.source) KeyReference.source = this.manifest?.name || "server"` */
  function WithKeySource(fields: map<string, Value>, manifest: Option<Manifest>): (r: map<string, Value>)
    ensures r.Keys == fields.Keys + {"source"}
    ensures forall k | k in fields && k != "source" :: r[k] == fields[k]
    ensures Truthy(Get(fields, "source")) ==> r == fields
    ensures !Truthy(Get(fields, "source")) ==> r["source"] == Or(ManifestName(manifest), Str(ServerSource))
  {
    if Truthy(Get(fields, "source")) then fields
    else fields["source" := Or(ManifestName(manifest), Str(ServerSource))]
  }

  /** After defaulting a key reference names a source, and defaulting again changes nothing. */
  lemma WithKeySourceIdempotent(fields: map<string, Value>, manifest: Option<Manifest>)
    ensures Truthy(WithKeySource(fields, manifest)["source"])
    ensures WithKeySource(WithKeySource(fields, manifest), manifest) == WithKeySource(fields, manifest)
  {
  }

  function KeyEnvelope(fields: map<string, Value>): Data {
    Data(Some(ClientApp), Some(KeyRequest), None, Obj(fields))
  }

  /** The two defaults draw on different manifest fields: an action falls
      back to the manifest's `id`, a key to its `name`. */
  lemma SourceDefaultsDiffer()
    ensures var m := Some(Manifest(Some("app-id"), Some("App Name"), None));
      ActionPayload(map[], m)["source"] == Str("app-id")
      && WithKeySource(map[], m)["source"] == Str("App Name")
  {
  }
}
