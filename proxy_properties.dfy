/**
 * What the proxy promises about single requests and short sequences of
 * requests: which port calls a request makes, how often, and which record
 * instance it answers with.
 */
module ProxyProperties {
  import opened Wrappers
  import opened Records
  import opened Calls
  import opened StoreModel
  import opened RemoteModel
  import opened ProxyModel

  /**
   * Registry hit: the answer is the registry's own instance, the registry is
   * asked once, and the store gets exactly one save of that instance and no lookup.
   */
  lemma GetsPackage(sys: System, name: string)
    requires name in sys.remote.packages
    ensures var (r, next) := ProxyModel.GetPackage(sys, name);
      var fetched := sys.remote.packages[name];
      && r == Some(fetched)
      && next.store.log == sys.store.log + [SavePackageCall(fetched)]
      && Count(next.remote.log, LoadPackageCall(name)) == Count(sys.remote.log, LoadPackageCall(name)) + 1
      && Count(next.store.log, SavePackageCall(fetched)) == Count(sys.store.log, SavePackageCall(fetched)) + 1
      && Count(next.store.log, GetPackageCall(name)) == Count(sys.store.log, GetPackageCall(name))
  {
    var fetched := sys.remote.packages[name];
    CountAppend(sys.remote.log, [LoadPackageCall(name)], LoadPackageCall(name));
    CountAppend(sys.store.log, [SavePackageCall(fetched)], SavePackageCall(fetched));
    CountAppend(sys.store.log, [SavePackageCall(fetched)], GetPackageCall(name));
  }

  /**
   * Registry miss: the store is consulted once and its record, if any, is the
   * answer as it is; nothing is saved.
   */
  lemma GetsPackageFromCache(sys: System, name: string)
    requires name !in sys.remote.packages
    ensures var (r, next) := ProxyModel.GetPackage(sys, name);
      && r == Lookup(sys.store.packages, name)
      && next.store.log == sys.store.log + [GetPackageCall(name)]
      && Count(next.remote.log, LoadPackageCall(name)) == Count(sys.remote.log, LoadPackageCall(name)) + 1
      && Count(next.store.log, GetPackageCall(name)) == Count(sys.store.log, GetPackageCall(name)) + 1
      && forall p :: Count(next.store.log, SavePackageCall(p)) == Count(sys.store.log, SavePackageCall(p))
  {
    CountAppend(sys.remote.log, [LoadPackageCall(name)], LoadPackageCall(name));
    CountAppend(sys.store.log, [GetPackageCall(name)], GetPackageCall(name));
    forall p
      ensures Count(sys.store.log + [GetPackageCall(name)], SavePackageCall(p)) == Count(sys.store.log, SavePackageCall(p))
    {
      CountAppend(sys.store.log, [GetPackageCall(name)], SavePackageCall(p));
    }
  }

  /** Neither side has the package: the answer is empty, each side asked once. */
  lemma DoesNotFindPackage(sys: System, name: string)
    requires name !in sys.remote.packages && name !in sys.store.packages
    ensures var (r, next) := ProxyModel.GetPackage(sys, name);
      && r == None
      && Count(next.remote.log, LoadPackageCall(name)) == Count(sys.remote.log, LoadPackageCall(name)) + 1
      && Count(next.store.log, GetPackageCall(name)) == Count(sys.store.log, GetPackageCall(name)) + 1
  {
    GetsPackageFromCache(sys, name);
  }

  /**
   * Store miss, registry hit: the fetched asset is saved once, the store is
   * read twice (the save between the two reads), and the answer is the second
   * read: a store instance equal in value to the fetched one but not it.
   */
  lemma GetsAsset(sys: System, path: string)
    requires RemoteModel.Valid(sys.remote)
    requires path !in sys.store.assets && path in sys.remote.assets
    ensures var (r, next) := ProxyModel.GetAsset(sys, path);
      var loaded := sys.remote.assets[path];
      && r.Some? && r.value != loaded && SameAsset(r.value, loaded)
      && r == Lookup(next.store.assets, path)
      && next.store.log == sys.store.log + [GetAssetCall(path), SaveAssetCall(loaded), GetAssetCall(path)]
      && next.remote.log == sys.remote.log + [LoadAssetCall(path, None)]
      && Count(next.store.log, GetAssetCall(path)) == Count(sys.store.log, GetAssetCall(path)) + 2
      && Count(next.store.log, SaveAssetCall(loaded)) == Count(sys.store.log, SaveAssetCall(loaded)) + 1
      && Count(next.remote.log, LoadAssetCall(path, None)) == Count(sys.remote.log, LoadAssetCall(path, None)) + 1
  {
    var loaded := sys.remote.assets[path];
    var added := [GetAssetCall(path), SaveAssetCall(loaded), GetAssetCall(path)];
    CountAppend(sys.store.log, added, GetAssetCall(path));
    CountAppend(sys.store.log, added, SaveAssetCall(loaded));
    CountAppend(sys.remote.log, [LoadAssetCall(path, None)], LoadAssetCall(path, None));
  }

  /** Store hit: the stored instance is the answer after one lookup, and the registry is not contacted. */
  lemma GetsAssetFromCache(sys: System, path: string)
    requires path in sys.store.assets
    ensures var (r, next) := ProxyModel.GetAsset(sys, path);
      && r == Some(sys.store.assets[path])
      && next.remote == sys.remote
      && next.store.log == sys.store.log + [GetAssetCall(path)]
      && Count(next.store.log, GetAssetCall(path)) == Count(sys.store.log, GetAssetCall(path)) + 1
  {
    CountAppend(sys.store.log, [GetAssetCall(path)], GetAssetCall(path));
  }

  /** Neither side has the asset: the answer is empty after one store lookup, and nothing is saved. */
  lemma DoesNotFindAsset(sys: System, path: string)
    requires path !in sys.store.assets && path !in sys.remote.assets
    ensures var (r, next) := ProxyModel.GetAsset(sys, path);
      && r == None
      && next.store.log == sys.store.log + [GetAssetCall(path)]
      && next.remote.log == sys.remote.log + [LoadAssetCall(path, None)]
      && Count(next.store.log, GetAssetCall(path)) == Count(sys.store.log, GetAssetCall(path)) + 1
      && Count(next.remote.log, LoadAssetCall(path, None)) == Count(sys.remote.log, LoadAssetCall(path, None)) + 1
      && forall a :: Count(next.store.log, SaveAssetCall(a)) == Count(sys.store.log, SaveAssetCall(a))
  {
    CountAppend(sys.store.log, [GetAssetCall(path)], GetAssetCall(path));
    CountAppend(sys.remote.log, [LoadAssetCall(path, None)], LoadAssetCall(path, None));
    forall a
      ensures Count(sys.store.log + [GetAssetCall(path)], SaveAssetCall(a)) == Count(sys.store.log, SaveAssetCall(a))
    {
      CountAppend(sys.store.log, [GetAssetCall(path)], SaveAssetCall(a));
    }
  }

  /**
   * Assets are fetched at most once: after a miss that the registry filled,
   * asking again answers with the same store instance without contacting the
   * registry.
   */
  lemma FetchedAssetIsThenCached(sys: System, path: string)
    requires RemoteModel.Valid(sys.remote)
    requires path !in sys.store.assets && path in sys.remote.assets
    ensures var (first, mid) := ProxyModel.GetAsset(sys, path);
      var (second, last) := ProxyModel.GetAsset(mid, path);
      && second == first
      && last.remote == mid.remote
      && last.remote.log == sys.remote.log + [LoadAssetCall(path, None)]
      && Count(last.remote.log, LoadAssetCall(path, None)) == Count(sys.remote.log, LoadAssetCall(path, None)) + 1
  {
    GetsAsset(sys, path);
  }

  /**
   * Write-through: once the registry has served a package, the store can
   * answer for it (with an equal copy) after the registry stops knowing it.
   */
  lemma PackageSurvivesRegistryOutage(sys: System, name: string)
    requires RemoteModel.Valid(sys.remote)
    requires name in sys.remote.packages
    ensures var mid := ProxyModel.GetPackage(sys, name).1;
      var outage := mid.(remote := mid.remote.(packages := mid.remote.packages - {name}));
      var r := ProxyModel.GetPackage(outage, name).0;
      r.Some? && SamePackage(r.value, sys.remote.packages[name]) && r.value != sys.remote.packages[name]
  {
  }
}
