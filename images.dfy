/** The two image-URL helpers of the current client: `formatImageUrl`, which
    points a host-relative URL at the device's address, and `useProxy`,
    which routes a URL through the host's image proxy. */
module Images {
  import opened Js
  import opened Manifests

  const DataImagePrefix := "data:image"
  const LocalAddress := "localhost:8891"
  const ProxyPath := "/proxy/v1?url="

  /** The rewrite applies only on a Car Thing or when the context's ip is
      "localhost". */
  predicate Rewrites(manifest: Option<Manifest>) {
    && ContextOf(manifest).Some?
    && (ContextOf(manifest).value.id == Some(CarThing) || ContextOf(manifest).value.ip == Some("localhost"))
  }

  /** `formatImageUrl(image)`: inline images and clients without a context
      are left alone; otherwise the first "localhost:8891" becomes the
      context's address. */
  function FormatImageUrl(manifest: Option<Manifest>, image: string): (r: string)
    ensures ContextOf(manifest).None? || StartsWith(image, DataImagePrefix) || !Rewrites(manifest) ==> r == image
    ensures IndexOf(image, LocalAddress).None? ==> r == image
    ensures Rewrites(manifest) && !StartsWith(image, DataImagePrefix) && IndexOf(image, LocalAddress).Some? ==>
      var k := IndexOf(image, LocalAddress).value;
      k + |LocalAddress| <= |image| && r == image[..k] + HostPort(manifest) + image[k + |LocalAddress|..]
  {
    if ContextOf(manifest).None? then image
    else if StartsWith(image, DataImagePrefix) then image
    else if Rewrites(manifest) then ReplaceFirst(image, LocalAddress, HostPort(manifest))
    else image
  }

  /** When the context's address is the default one, the rewrite changes nothing. */
  lemma FormatImageUrlDefaultAddress(manifest: Option<Manifest>, image: string)
    requires ContextOf(manifest).Some? && ContextOf(manifest).value.ip == Some("localhost")
    requires ContextOf(manifest).value.port in {None, Some(0), Some(DefaultPort)}
    ensures FormatImageUrl(manifest, image) == image
  {
    assert HostPort(manifest) == LocalAddress by {
      assert NatToString(8891) == "8891" by {
        assert NatToString(8) == "8";
        assert NatToString(88) == "88";
        assert NatToString(889) == "889";
      }
    }
    ReplaceFirstBySelf(image, LocalAddress);
  }

  /** A URL on the default host is pointed at the context's address. */
  lemma FormatImageUrlRewritesHost(manifest: Option<Manifest>, path: string)
    requires Rewrites(manifest)
    ensures FormatImageUrl(manifest, "http://" + LocalAddress + path) == "http://" + HostPort(manifest) + path
  {
    var image := "http://" + LocalAddress + path;
    assert OccursAt(image, LocalAddress, 7) by {
      assert image[7..7 + |LocalAddress|] == LocalAddress;
    }
    forall j | 0 <= j < 7
      ensures !OccursAt(image, LocalAddress, j)
    {
      assert image[j] != 'l';
    }
    assert IndexOf(image, LocalAddress) == Some(7);
    assert !StartsWith(image, DataImagePrefix) by {
      assert image[0] != DataImagePrefix[0];
    }
    assert image[..7] == "http://" && image[7 + |LocalAddress|..] == path;
  }

  /** `useProxy(url)`; `encoded` stands for `encodeURIComponent(url)`. */
  function UseProxy(manifest: Option<Manifest>, url: string, encoded: string): (r: string)
    ensures StartsWith(url, DataImagePrefix) ==> r == url
    ensures !StartsWith(url, DataImagePrefix) ==>
      var prefix := "http://" + HostPort(manifest) + ProxyPath;
      StartsWith(r, prefix) && r[|prefix|..] == encoded
  {
    if StartsWith(url, DataImagePrefix) then url
    else "http://" + HostPort(manifest) + ProxyPath + encoded
  }

  /** Both helpers send the device to the same address: on a Car Thing, a
      rewritten default-host URL and a proxied URL name the same host and port. */
  lemma ProxyAndRewriteAgree(manifest: Option<Manifest>, path: string, url: string, encoded: string)
    requires Rewrites(manifest) && !StartsWith(url, DataImagePrefix)
    ensures var origin := "http://" + HostPort(manifest);
      StartsWith(FormatImageUrl(manifest, "http://" + LocalAddress + path), origin)
      && StartsWith(UseProxy(manifest, url, encoded), origin)
  {
    FormatImageUrlRewritesHost(manifest, path);
    var origin := "http://" + HostPort(manifest);
    assert (origin + path)[..|origin|] == origin;
    assert (origin + ProxyPath + encoded)[..|origin|] == origin;
  }
}
