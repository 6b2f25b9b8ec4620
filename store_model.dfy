/**
 * The cache store port (`NpmProxyStorage`) as a value: what it holds, keyed
 * by package name and by asset path, and the log of calls made on it.
 */
module StoreModel {
  import opened Wrappers
  import opened Records

  datatype StoreCall =
    | GetPackageCall(name: string)
    | SavePackageCall(pkg: NpmPackage)
    | GetAssetCall(path: string)
    | SaveAssetCall(asset: NpmAsset)

  /**
   * `serial` numbers the instances the store creates when it persists a
   * record; reading a record back yields the store's own instance, never the
   * one handed to `save`.
   */
  datatype StoreState = StoreState(
    packages: map<string, NpmPackage>,
    assets: map<string, NpmAsset>,
    serial: nat,
    log: seq<StoreCall>)

  /**
   * Every record sits under its own name or path and is an instance the store
   * made, numbered below `serial`, so the next instance the store makes is new.
   */
  predicate Valid(s: StoreState)
  {
    && (forall k :: k in s.packages ==>
          s.packages[k].name == k && s.packages[k].id.origin == Stored && s.packages[k].id.serial < s.serial)
    && (forall k :: k in s.assets ==>
          s.assets[k].path == k && s.assets[k].id.origin == Stored && s.assets[k].id.serial < s.serial)
  }

  /** No record the store holds has identity `id`. */
  predicate Unheld(s: StoreState, id: Instance)
  {
    && (forall k :: k in s.packages ==> s.packages[k].id != id)
    && (forall k :: k in s.assets ==> s.assets[k].id != id)
  }

  /** `getPackage(name)`: answers with the held record, if any, and changes nothing held. */
  function GetPackage(s: StoreState, name: string): (r: (StoreState, Option<NpmPackage>))
    ensures r.1.Some? <==> name in s.packages
    ensures r.1.Some? ==> r.1.value == s.packages[name]
    ensures Valid(s) && r.1.Some? ==> r.1.value.name == name && r.1.value.id.origin == Stored
    ensures r.0.packages == s.packages && r.0.assets == s.assets && r.0.serial == s.serial
    ensures r.0.log == s.log + [GetPackageCall(name)]
  {
    (s.(log := s.log + [GetPackageCall(name)]), Lookup(s.packages, name))
  }

  /** `save(NpmPackage)`: upsert under the package's name; every other key is left alone. */
  function SavePackage(s: StoreState, p: NpmPackage): (r: StoreState)
    ensures p.name in r.packages
    ensures SamePackage(r.packages[p.name], p) && r.packages[p.name].id == Instance(Stored, s.serial)
    ensures r.packages[p.name] != p <== p.id.origin == Fetched
    ensures Valid(s) ==> Unheld(s, r.packages[p.name].id)
    ensures forall k :: k != p.name ==> Lookup(r.packages, k) == Lookup(s.packages, k)
    ensures r.assets == s.assets
    ensures r.log == s.log + [SavePackageCall(p)]
    ensures Valid(s) ==> Valid(r)
  {
    StoreState(
      s.packages[p.name := CopyPackage(p, Instance(Stored, s.serial))],
      s.assets,
      s.serial + 1,
      s.log + [SavePackageCall(p)])
  }

  /** `getAsset(path)`: answers with the held record, if any, and changes nothing held. */
  function GetAsset(s: StoreState, path: string): (r: (StoreState, Option<NpmAsset>))
    ensures r.1.Some? <==> path in s.assets
    ensures r.1.Some? ==> r.1.value == s.assets[path]
    ensures Valid(s) && r.1.Some? ==> r.1.value.path == path && r.1.value.id.origin == Stored
    ensures r.0.packages == s.packages && r.0.assets == s.assets && r.0.serial == s.serial
    ensures r.0.log == s.log + [GetAssetCall(path)]
  {
    (s.(log := s.log + [GetAssetCall(path)]), Lookup(s.assets, path))
  }

  /** `save(NpmAsset)`: upsert under the asset's path; every other key is left alone. */
  function SaveAsset(s: StoreState, a: NpmAsset): (r: StoreState)
    ensures a.path in r.assets
    ensures SameAsset(r.assets[a.path], a) && r.assets[a.path].id == Instance(Stored, s.serial)
    ensures r.assets[a.path] != a <== a.id.origin == Fetched
    ensures Valid(s) ==> Unheld(s, r.assets[a.path].id)
    ensures forall k :: k != a.path ==> Lookup(r.assets, k) == Lookup(s.assets, k)
    ensures r.packages == s.packages
    ensures r.log == s.log + [SaveAssetCall(a)]
    ensures Valid(s) ==> Valid(r)
  {
    StoreState(
      s.packages,
      s.assets[a.path := CopyAsset(a, Instance(Stored, s.serial))],
      s.serial + 1,
      s.log + [SaveAssetCall(a)])
  }
}
