/** The upstream registry client port as an object that can be released. */
module Remote {
  import opened Wrappers
  import opened Records
  import RemoteModel

  class NpmRemote {
    /** What the registry serves; fixed for the client's lifetime. */
    const packages: map<string, NpmPackage>
    const assets: map<string, NpmAsset>
    var closed: bool
    /** Every call made on the client, in order. */
    ghost var log: seq<RemoteModel.RemoteCall>

    ghost function State(): RemoteModel.RemoteState
      reads this
    {
      RemoteModel.RemoteState(packages, assets, closed, log)
    }

    /** An open client for a registry serving the given records. */
    constructor (packages: map<string, NpmPackage>, assets: map<string, NpmAsset>)
      ensures State() == RemoteModel.RemoteState(packages, assets, false, [])
    {
      this.packages := packages;
      this.assets := assets;
      closed := false;
      log := [];
    }

    method LoadPackage(name: string) returns (r: Option<NpmPackage>)
      modifies this`log
      ensures (State(), r) == RemoteModel.LoadPackage(old(State()), name)
    {
      log := log + [RemoteModel.LoadPackageCall(name)];
      r := Lookup(packages, name);
    }

    method LoadAsset(path: string, existing: Option<NpmAsset>) returns (r: Option<NpmAsset>)
      modifies this`log
      ensures (State(), r) == RemoteModel.LoadAsset(old(State()), path, existing)
    {
      log := log + [RemoteModel.LoadAssetCall(path, existing)];
      r := Lookup(assets, path);
    }

    method Close()
      modifies this
      ensures State() == RemoteModel.Close(old(State()))
    {
      closed := true;
      log := log + [RemoteModel.CloseCall];
    }
  }
}
