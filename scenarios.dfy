/**
 * The proxy's six request scenarios on the literal records they use, each
 * followed by closing the proxy, as every scenario ends. Each builds a fresh
 * store and registry client, so every call count starts at zero.
 */
module Scenarios {
  import opened Wrappers
  import opened Records
  import opened Calls
  import opened StoreModel
  import opened RemoteModel
  import opened Storage
  import opened Remote
  import opened Proxy

  const PackageName := "asdas"
  const AssetPath := "asdas/-/asdas-1.0.0.tgz"
  const LastModified := "Tue, 24 Mar 2020 12:15:16 GMT"
  const ContentType := "application/octet-stream"
  /** The bytes of "foobar". */
  const Foobar: seq<bv8> := [0x66, 0x6f, 0x6f, 0x62, 0x61, 0x72]

  /** The package every scenario uses; its metadata document is not interpreted. */
  function DefaultPackage(metadata: string, id: Instance): NpmPackage
  {
    NpmPackage(PackageName, metadata, LastModified, id)
  }

  /** The asset every scenario uses. */
  function DefaultAsset(id: Instance): NpmAsset
  {
    NpmAsset(AssetPath, Foobar, LastModified, ContentType, id)
  }

  /** The registry has the package: it is answered as fetched and saved once. */
  method GetsPackage(metadata: string) returns (r: Option<NpmPackage>)
    ensures r == Some(DefaultPackage(metadata, Instance(Fetched, 0)))
  {
    var expected := DefaultPackage(metadata, Instance(Fetched, 0));
    var storage := new NpmProxyStorage(map[], map[], 0);
    var remote := new NpmRemote(map[PackageName := expected], map[]);
    var npm := new NpmProxy(storage, remote);
    r := npm.GetPackage(PackageName);
    assert Count(remote.log, LoadPackageCall(PackageName)) == 1;
    assert Count(storage.log, SavePackageCall(expected)) == 1;
    npm.Close();
    assert Count(remote.log, CloseCall) == 1;
  }

  /** Store miss, registry hit: the answer is the store's second read, not the fetched instance. */
  method GetsAsset() returns (r: Option<NpmAsset>)
    ensures r == Some(DefaultAsset(Instance(Stored, 0)))
    ensures r.value != DefaultAsset(Instance(Fetched, 0))
  {
    var loaded := DefaultAsset(Instance(Fetched, 0));
    var storage := new NpmProxyStorage(map[], map[], 0);
    var remote := new NpmRemote(map[], map[AssetPath := loaded]);
    var npm := new NpmProxy(storage, remote);
    r := npm.GetAsset(AssetPath);
    assert storage.log == [GetAssetCall(AssetPath), SaveAssetCall(loaded), GetAssetCall(AssetPath)];
    assert Count(storage.log, GetAssetCall(AssetPath)) == 2;
    assert Count(remote.log, LoadAssetCall(AssetPath, None)) == 1;
    assert Count(storage.log, SaveAssetCall(loaded)) == 1;
    npm.Close();
    assert Count(remote.log, CloseCall) == 1;
  }

  /** The registry lacks the package: the cached instance is the answer. */
  method GetsPackageFromCache(metadata: string) returns (r: Option<NpmPackage>)
    ensures r == Some(DefaultPackage(metadata, Instance(Stored, 0)))
  {
    var expected := DefaultPackage(metadata, Instance(Stored, 0));
    var storage := new NpmProxyStorage(map[PackageName := expected], map[], 1);
    var remote := new NpmRemote(map[], map[]);
    var npm := new NpmProxy(storage, remote);
    r := npm.GetPackage(PackageName);
    assert Count(remote.log, LoadPackageCall(PackageName)) == 1;
    assert Count(storage.log, GetPackageCall(PackageName)) == 1;
    npm.Close();
    assert Count(remote.log, CloseCall) == 1;
  }

  /** The store holds the asset: it is the answer, and the registry is not asked. */
  method GetsAssetFromCache() returns (r: Option<NpmAsset>)
    ensures r == Some(DefaultAsset(Instance(Stored, 0)))
  {
    var expected := DefaultAsset(Instance(Stored, 0));
    var storage := new NpmProxyStorage(map[], map[AssetPath := expected], 1);
    var remote := new NpmRemote(map[], map[]);
    var npm := new NpmProxy(storage, remote);
    r := npm.GetAsset(AssetPath);
    assert Count(storage.log, GetAssetCall(AssetPath)) == 1;
    assert remote.log == [];
    npm.Close();
    assert Count(remote.log, CloseCall) == 1;
  }

  /** Neither side has the package. */
  method DoesNotFindPackage() returns (r: Option<NpmPackage>)
    ensures r == None
  {
    var storage := new NpmProxyStorage(map[], map[], 0);
    var remote := new NpmRemote(map[], map[]);
    var npm := new NpmProxy(storage, remote);
    r := npm.GetPackage(PackageName);
    assert Count(remote.log, LoadPackageCall(PackageName)) == 1;
    assert Count(storage.log, GetPackageCall(PackageName)) == 1;
    npm.Close();
    assert Count(remote.log, CloseCall) == 1;
  }

  /** Neither side has the asset: one store lookup, nothing saved. */
  method DoesNotFindAsset() returns (r: Option<NpmAsset>)
    ensures r == None
  {
    var storage := new NpmProxyStorage(map[], map[], 0);
    var remote := new NpmRemote(map[], map[]);
    var npm := new NpmProxy(storage, remote);
    r := npm.GetAsset(AssetPath);
    assert Count(storage.log, GetAssetCall(AssetPath)) == 1;
    assert storage.assets == map[];
    npm.Close();
    assert Count(remote.log, CloseCall) == 1;
  }
}
