/** The cache store port as an object whose contents change in place. */
module Storage {
  import opened Wrappers
  import opened Records
  import StoreModel

  class NpmProxyStorage {
    var packages: map<string, NpmPackage>
    var assets: map<string, NpmAsset>
    var serial: nat
    /** Every call made on the store, in order. */
    ghost var log: seq<StoreModel.StoreCall>

    ghost function State(): StoreModel.StoreState
      reads this
    {
      StoreModel.StoreState(packages, assets, serial, log)
    }

    /**
     * A store already holding the given records, on which no call has been
     * made yet; `serial` numbers the next instance it will make.
     */
    constructor (packages: map<string, NpmPackage>, assets: map<string, NpmAsset>, serial: nat)
      requires StoreModel.Valid(StoreModel.StoreState(packages, assets, serial, []))
      ensures State() == StoreModel.StoreState(packages, assets, serial, [])
      ensures StoreModel.Valid(State())
    {
      this.packages := packages;
      this.assets := assets;
      this.serial := serial;
      log := [];
    }

    method GetPackage(name: string) returns (r: Option<NpmPackage>)
      modifies this`log
      ensures (State(), r) == StoreModel.GetPackage(old(State()), name)
    {
      log := log + [StoreModel.GetPackageCall(name)];
      r := Lookup(packages, name);
    }

    method SavePackage(p: NpmPackage)
      modifies this
      ensures State() == StoreModel.SavePackage(old(State()), p)
    {
      packages := packages[p.name := CopyPackage(p, Instance(Stored, serial))];
      serial := serial + 1;
      log := log + [StoreModel.SavePackageCall(p)];
    }

    method GetAsset(path: string) returns (r: Option<NpmAsset>)
      modifies this`log
      ensures (State(), r) == StoreModel.GetAsset(old(State()), path)
    {
      log := log + [StoreModel.GetAssetCall(path)];
      r := Lookup(assets, path);
    }

    method SaveAsset(a: NpmAsset)
      modifies this
      ensures State() == StoreModel.SaveAsset(old(State()), a)
    {
      assets := assets[a.path := CopyAsset(a, Instance(Stored, serial))];
      serial := serial + 1;
      log := log + [StoreModel.SaveAssetCall(a)];
    }
  }
}
