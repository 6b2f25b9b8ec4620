/** The npm proxy as an object that owns a registry client and uses a cache store. */
module Proxy {
  import opened Wrappers
  import opened Records
  import opened Storage
  import opened Remote
  import ProxyModel

  class NpmProxy {
    const storage: NpmProxyStorage
    const remote: NpmRemote

    ghost function State(): ProxyModel.System
      reads storage, remote
    {
      ProxyModel.System(storage.State(), remote.State())
    }

    constructor (storage: NpmProxyStorage, remote: NpmRemote)
      ensures this.storage == storage && this.remote == remote
    {
      this.storage := storage;
      this.remote := remote;
    }

    /** Registry first; a fetched package is saved and returned as fetched, else the cached one. */
    method GetPackage(name: string) returns (r: Option<NpmPackage>)
      modifies storage, remote
      ensures (r, State()) == ProxyModel.GetPackage(old(State()), name)
    {
      r := remote.LoadPackage(name);
      if r.Some? {
        storage.SavePackage(r.value);
      } else {
        r := storage.GetPackage(name);
      }
    }

    /** Store first; a fetched asset is saved and the store's read-back is returned. */
    method GetAsset(path: string) returns (r: Option<NpmAsset>)
      modifies storage, remote
      ensures (r, State()) == ProxyModel.GetAsset(old(State()), path)
    {
      r := storage.GetAsset(path);
      if r.None? {
        var loaded := remote.LoadAsset(path, None);
        if loaded.Some? {
          storage.SaveAsset(loaded.value);
          r := storage.GetAsset(path);
        }
      }
    }

    /** Releases the registry client; the store is not touched. */
    method Close()
      modifies remote
      ensures State() == ProxyModel.Close(old(State()))
    {
      remote.Close();
    }
  }
}
