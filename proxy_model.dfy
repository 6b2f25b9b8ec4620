/**
 * The npm proxy (`NpmProxy`) as a value-level model: how a request composes
 * calls on the cache store and on the upstream client, and what each request
 * answers. The proxy keeps no state of its own; everything a request changes
 * lives in the two ports.
 */
module ProxyModel {
  import opened Wrappers
  import opened Records
  import opened Calls
  import opened StoreModel
  import opened RemoteModel

  datatype System = System(store: StoreState, remote: RemoteState)

  predicate Valid(sys: System)
  {
    StoreModel.Valid(sys.store) && RemoteModel.Valid(sys.remote)
  }

  /**
   * `getPackage(name)`: ask the registry first; a fetched package is written
   * through to the store and returned as it came from the registry; otherwise
   * the store's copy, if any, is the answer.
   */
  function GetPackage(sys: System, name: string): (r: (Option<NpmPackage>, System))
    ensures name in sys.remote.packages ==> r.0 == Some(sys.remote.packages[name])
    ensures name !in sys.remote.packages ==> r.0 == Lookup(sys.store.packages, name)
    ensures name in sys.remote.packages ==>
      var fetched := sys.remote.packages[name];
      fetched.name in r.1.store.packages && SamePackage(r.1.store.packages[fetched.name], fetched)
      && (StoreModel.Valid(sys.store) ==> Unheld(sys.store, r.1.store.packages[fetched.name].id))
    ensures name !in sys.remote.packages ==> r.1.store.packages == sys.store.packages
    ensures r.1.store.assets == sys.store.assets && SameServer(r.1.remote, sys.remote)
    ensures Valid(sys) ==> Valid(r.1)
  {
    var (remote1, fetched) := LoadPackage(sys.remote, name);
    match fetched
    case Some(p) => (fetched, System(SavePackage(sys.store, p), remote1))
    case None =>
      var (store1, cached) := StoreModel.GetPackage(sys.store, name);
      (cached, System(store1, remote1))
  }

  /**
   * `getAsset(path)`: ask the store first; on a miss ask the registry, and
   * when it has the asset save it and answer with what the store reads back.
   */
  function GetAsset(sys: System, path: string): (r: (Option<NpmAsset>, System))
    ensures path in sys.store.assets ==> r.0 == Some(sys.store.assets[path]) && r.1.remote == sys.remote
    ensures path !in sys.store.assets && path !in sys.remote.assets ==> r.0 == None
    ensures path !in sys.store.assets && path in sys.remote.assets ==>
      var loaded := sys.remote.assets[path];
      loaded.path in r.1.store.assets && SameAsset(r.1.store.assets[loaded.path], loaded)
      && (StoreModel.Valid(sys.store) ==> Unheld(sys.store, r.1.store.assets[loaded.path].id))
    ensures r.0.Some? ==> r.0 == Lookup(r.1.store.assets, path)
    ensures RemoteModel.Valid(sys.remote) && r.0.None? ==> r.1.store.assets == sys.store.assets
    ensures Valid(sys) ==> Valid(r.1)
    ensures Valid(sys) && r.0.Some? ==> r.0.value.path == path && r.0.value.id.origin == Stored
    ensures r.1.store.packages == sys.store.packages && SameServer(r.1.remote, sys.remote)
  {
    var (store1, cached) := StoreModel.GetAsset(sys.store, path);
    if cached.Some? then (cached, System(store1, sys.remote))
    else
      var (remote1, loaded) := LoadAsset(sys.remote, path, None);
      match loaded
      case None => (None, System(store1, remote1))
      case Some(a) =>
        var (store3, reread) := StoreModel.GetAsset(SaveAsset(store1, a), path);
        (reread, System(store3, remote1))
  }

  /** `close()`: releases the upstream client and leaves the store alone. */
  function Close(sys: System): (r: System)
    ensures r.remote.closed && r.store == sys.store
    ensures r.remote.packages == sys.remote.packages && r.remote.assets == sys.remote.assets
    ensures Count(r.remote.log, CloseCall) == Count(sys.remote.log, CloseCall) + 1
    ensures Valid(sys) ==> Valid(r)
  {
    var remote1 := RemoteModel.Close(sys.remote);
    CountAppend(sys.remote.log, [CloseCall], CloseCall);
    System(sys.store, remote1)
  }
}
