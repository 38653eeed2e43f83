/** The parts of the client manifest that the current client reads: its
    `id` and `name`, and the platform context that says where the host
    serves images from. */
module Manifests {
  import opened Js

  /** `ClientPlatformIDs`: only the Car Thing member is compared against. */
  datatype PlatformId = CarThing | OtherPlatform(name: string)

  /** `manifest.context`: `id`, `ip` and `port`, each possibly absent. */
  datatype Context = Context(id: Option<PlatformId>, ip: Option<string>, port: Option<nat>)

  datatype Manifest = Manifest(id: Option<string>, name: Option<string>, context: Option<Context>)

  const DefaultHost := "localhost"
  const DefaultPort: nat := 8891

  /** `this.manifest?.context` */
  function ContextOf(manifest: Option<Manifest>): (r: Option<Context>)
    ensures r.Some? <==> manifest.Some? && manifest.value.context.Some?
  {
    if manifest.Some? then manifest.value.context else None
  }

  /** `this.manifest?.context?.ip || 'localhost'` */
  function Host(manifest: Option<Manifest>): (r: string)
    ensures r != ""
    ensures ContextOf(manifest).Some? && TruthyText(ContextOf(manifest).value.ip) ==> r == ContextOf(manifest).value.ip.value
  {
    var c := ContextOf(manifest);
    if c.Some? then TextOr(c.value.ip, DefaultHost) else DefaultHost
  }

  /** `this.manifest?.context?.port || 8891`: port 0 is falsy and falls back too. */
  function Port(manifest: Option<Manifest>): (r: nat)
    ensures r != 0
    ensures ContextOf(manifest).Some? && ContextOf(manifest).value.port.Some? && ContextOf(manifest).value.port.value != 0
            ==> r == ContextOf(manifest).value.port.value
  {
    var c := ContextOf(manifest);
    if c.Some? && c.value.port.Some? && c.value.port.value != 0 then c.value.port.value else DefaultPort
  }

  /** `${host}:${port}` */
  function HostPort(manifest: Option<Manifest>): string {
    Host(manifest) + ":" + NatToString(Port(manifest))
  }

  /** Without a manifest, or with a context that names neither host nor port,
      the address is the default "localhost:8891". */
  lemma DefaultHostPort(manifest: Option<Manifest>)
    requires ContextOf(manifest).None?
          || (!TruthyText(ContextOf(manifest).value.ip) && ContextOf(manifest).value.port in {None, Some(0)})
    ensures HostPort(manifest) == "localhost:8891"
  {
    assert NatToString(8891) == "8891" by {
      assert NatToString(8) == "8";
      assert NatToString(88) == "88";
      assert NatToString(889) == "889";
    }
  }
}
