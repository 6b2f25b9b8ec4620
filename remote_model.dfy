/**
 * The upstream registry client port (`NpmRemote`) as a value: what the
 * registry serves, whether the client has been released, and the log of calls
 * made on it. What the registry serves does not change while the proxy runs.
 */
module RemoteModel {
  import opened Wrappers
  import opened Records

  datatype RemoteCall =
    | LoadPackageCall(name: string)
    | LoadAssetCall(path: string, existing: Option<NpmAsset>)
    | CloseCall

  datatype RemoteState = RemoteState(
    packages: map<string, NpmPackage>,
    assets: map<string, NpmAsset>,
    closed: bool,
    log: seq<RemoteCall>)

  /** The registry answers a name or path with a freshly fetched record of that name or path. */
  predicate Valid(u: RemoteState)
  {
    && (forall k :: k in u.packages ==> u.packages[k].name == k && u.packages[k].id.origin == Fetched)
    && (forall k :: k in u.assets ==> u.assets[k].path == k && u.assets[k].id.origin == Fetched)
  }

  /** The part of the client a request never changes. */
  predicate SameServer(u: RemoteState, v: RemoteState)
  {
    u.packages == v.packages && u.assets == v.assets && u.closed == v.closed
  }

  /** `loadPackage(name)`: empty when the registry has no such package. */
  function LoadPackage(u: RemoteState, name: string): (r: (RemoteState, Option<NpmPackage>))
    ensures r.1.Some? <==> name in u.packages
    ensures r.1.Some? ==> r.1.value == u.packages[name]
    ensures Valid(u) && r.1.Some? ==> r.1.value.name == name && r.1.value.id.origin == Fetched
    ensures SameServer(r.0, u) && r.0.log == u.log + [LoadPackageCall(name)]
  {
    (u.(log := u.log + [LoadPackageCall(name)]), Lookup(u.packages, name))
  }

  /**
   * `loadAsset(path, existing)`: empty when the registry has no such asset.
   * The registry modelled here does not fetch conditionally, so `existing`
   * only appears in the log.
   */
  function LoadAsset(u: RemoteState, path: string, existing: Option<NpmAsset>): (r: (RemoteState, Option<NpmAsset>))
    ensures r.1.Some? <==> path in u.assets
    ensures r.1.Some? ==> r.1.value == u.assets[path]
    ensures Valid(u) && r.1.Some? ==> r.1.value.path == path && r.1.value.id.origin == Fetched
    ensures SameServer(r.0, u) && r.0.log == u.log + [LoadAssetCall(path, existing)]
  {
    (u.(log := u.log + [LoadAssetCall(path, existing)]), Lookup(u.assets, path))
  }

  /** `close()`: releases the client; what it serves is not touched. */
  function Close(u: RemoteState): (r: RemoteState)
    ensures r.closed
    ensures r.packages == u.packages && r.assets == u.assets
    ensures r.log == u.log + [CloseCall]
    ensures Valid(u) ==> Valid(r)
  {
    u.(closed := true, log := u.log + [CloseCall])
  }
}
