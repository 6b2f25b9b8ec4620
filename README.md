# npm proxy: cache store and upstream registry orchestration

This project models the caching core of the artipie npm adapter's proxy
repository. `NpmProxy` answers requests for package metadata and for tarball
assets. It combines a cache store (`NpmProxyStorage`) with an upstream registry
client (`NpmRemote`), and it owns the client's lifetime.

- **Packages: registry first, write-through.** `getPackage(name)` asks the
  registry. A fetched package is saved to the store and returned as fetched,
  so the caller gets the very object the registry produced. When the registry
  has nothing, the store's copy (or nothing) is the answer.
- **Assets: store first.** `getAsset(path)` asks the store. A hit is returned
  as stored. On a miss it asks the registry. A fetched asset is saved, the
  store is read a second time, and that second read is the answer, not the
  fetched object.
- **Lifecycle.** `close()` releases the registry client, once.

`NpmProxy.java` itself is not part of this model. Its behaviour is taken from
`NpmProxyTest.java`, which drives it against mocked ports. Each test checks
call counts and object identity.

## Structure

- `Wrappers`: `Option`, the zero-or-one answer of every port call.
- `Records`: `NpmPackage` and `NpmAsset`.
  - The `id` field stands in for Java object identity (the test's `IsSame`).
  - An `Instance` records whether the registry (`Fetched`) or the store
    (`Stored`) created the object.
  - `SamePackage`/`SameAsset` compare values and ignore identity.
- `Calls`: `Count` of a call in an invocation log. It stands in for Mockito's
  `verify(...)` and `times(n)`.
- `StoreModel`, `RemoteModel`: the two ports as values. Each holds its
  contents and the log of calls made on it.
  - The store keys packages by name and assets by path.
  - Saving keeps a new `Stored` instance of the record. It is numbered above every record the store holds, so no held record shares its identity.
- `ProxyModel`: `GetPackage`, `GetAsset` and `Close` as functions over
  both ports. They say what a request answers and how the ports change.
- `ProxyProperties`: one lemma per test case, stating answers and call counts.
  Two more lemmas relate successive requests.
- `Session`: any sequence of requests followed by `close()`.
- `Storage.NpmProxyStorage`, `Remote.NpmRemote`, `Proxy.NpmProxy`: the same
  ports and proxy as objects updated in place.
  - Each object has a ghost `State()`.
  - Every method is proved to change that state exactly as the matching
    model function does.
- `Scenarios`: the six test cases on their literal data, each ending in
  `close()`. The data is the package `asdas`, the asset
  `asdas/-/asdas-1.0.0.tgz`, the content `foobar` and the content type
  `application/octet-stream`.

## Model

| member | source | states |
|---|---|---|
| Calls.Count | src/test/java/com/artipie/npm/proxy/NpmProxyTest.java:139 | The number of times a call occurs in an invocation log. It is zero exactly when the call never happened, and never more than the log's length. |
| Calls.CountAppend | src/test/java/com/artipie/npm/proxy/NpmProxyTest.java:139 | Counts add up over consecutive parts of a log. So the calls one request makes can be counted on their own. |
| StoreModel.GetPackage | src/test/java/com/artipie/npm/proxy/NpmProxyTest.java:149 | A store lookup answers with the held record exactly when the name is held. In a well-formed store that record has the requested name and is a store instance. Nothing held changes; the call is logged. |
| StoreModel.SavePackage | src/test/java/com/artipie/npm/proxy/NpmProxyTest.java:100 | After a save, the store holds under the package's name a store instance equal in value to it. That instance is never the registry's object. In a well-formed store its identity is held by no record the store held before. Every other name and all assets are untouched, and well-formedness is kept. |
| StoreModel.GetAsset | src/test/java/com/artipie/npm/proxy/NpmProxyTest.java:114-130 | An asset lookup answers with the held asset exactly when the path is held. In a well-formed store that asset carries the path and is a store instance. Nothing held changes. |
| StoreModel.SaveAsset | src/test/java/com/artipie/npm/proxy/NpmProxyTest.java:134 | After a save, the store holds under the asset's path a store instance equal in value to it. That instance is never the fetched object. In a well-formed store its identity is held by no record the store held before. Every other path and all packages are untouched, and well-formedness is kept. |
| RemoteModel.LoadPackage | src/test/java/com/artipie/npm/proxy/NpmProxyTest.java:99 | The registry answers a name exactly when it serves that package. From a well-formed registry the answer is a fetched instance of that name. What the client serves is unchanged; the call is logged. |
| RemoteModel.LoadAsset | src/test/java/com/artipie/npm/proxy/NpmProxyTest.java:131-133 | The registry answers a path exactly when it serves that asset. From a well-formed registry the answer is a fetched instance with that path. What the client serves is unchanged. |
| RemoteModel.Close | src/test/java/com/artipie/npm/proxy/NpmProxyTest.java:200 | Releasing the client marks it closed and logs one close call. What it serves and its well-formedness are kept. |
| ProxyModel.GetPackage | src/test/java/com/artipie/npm/proxy/NpmProxyTest.java:96-107 | When the registry has the package, the answer is the registry's own instance, and the store then holds an equal copy under its name. In a well-formed store that copy is an object the store did not hold before. Otherwise the answer is the store's record for the name, or none, and stored packages are unchanged. Assets are never touched, and both ports stay well-formed. |
| ProxyModel.GetAsset | src/test/java/com/artipie/npm/proxy/NpmProxyTest.java:110-142 | A store hit is answered with the stored asset, and the registry is not touched. A double miss answers none. On a miss that the registry fills, the store afterwards holds an equal copy, and in a well-formed store that copy is an object it did not hold before. Any answer is what the store holds under the path after the request, which in a well-formed system is a store instance with that path. When the registry answers every path with an asset of that path, an empty answer leaves stored assets unchanged. |
| ProxyModel.Close | src/test/java/com/artipie/npm/proxy/NpmProxyTest.java:203-207 | Closing the proxy closes the registry client and adds exactly one close call to its log. The store is untouched. |
| ProxyProperties.GetsPackage | src/test/java/com/artipie/npm/proxy/NpmProxyTest.java:96-107 | On a registry hit, the answer is the fetched object itself. The registry is asked once. The store receives exactly one save of that object and no lookup. |
| ProxyProperties.GetsPackageFromCache | src/test/java/com/artipie/npm/proxy/NpmProxyTest.java:145-156 | On a registry miss, the answer is the store's record, unchanged. The registry and the store are each asked once, and no package save happens. |
| ProxyProperties.DoesNotFindPackage | src/test/java/com/artipie/npm/proxy/NpmProxyTest.java:171-181 | When neither side has the package, the answer is empty, with the registry and the store each asked once. |
| ProxyProperties.GetsAsset | src/test/java/com/artipie/npm/proxy/NpmProxyTest.java:110-142 | On a store miss and registry hit, the new store calls are, in order: a read, a save of the fetched asset, and a second read. So the store is read twice and the asset is saved once. The registry gets exactly one new call, a load of that path. The answer is the second read: equal in value to the fetched asset but not the same object. |
| ProxyProperties.GetsAssetFromCache | src/test/java/com/artipie/npm/proxy/NpmProxyTest.java:159-168 | On a store hit, the answer is the stored object after exactly one lookup. The registry sees no call at all. |
| ProxyProperties.DoesNotFindAsset | src/test/java/com/artipie/npm/proxy/NpmProxyTest.java:184-195 | When neither side has the asset, the answer is empty after a single store lookup. The registry gets exactly one new call, a load of that path. No asset is saved. |
| ProxyProperties.FetchedAssetIsThenCached | src/test/java/com/artipie/npm/proxy/NpmProxyTest.java:159-168 | After a miss that the registry filled, asking for the same path again returns the same store object. The registry is not contacted again, so its only new call over both requests is the one load of that path. |
| ProxyProperties.PackageSurvivesRegistryOutage | src/test/java/com/artipie/npm/proxy/NpmProxyTest.java:145-156 | Once the registry has served a package, a later request can still be answered from the store after the registry stops serving it. The answer is equal in value to the fetched package but is the store's own object. |
| Session.ServeLeavesClientOpen | src/test/java/com/artipie/npm/proxy/NpmProxyTest.java:197-207 | No sequence of requests closes the registry client, logs a close call, or changes what the client serves. |
| Session.ClosesClientOnce | src/test/java/com/artipie/npm/proxy/NpmProxyTest.java:203-207 | Whatever requests a fresh proxy served first, closing it releases the registry client exactly once. |
| Session.ServeKeepsValid | src/test/java/com/artipie/npm/proxy/NpmProxyTest.java:197-201 | Any sequence of requests keeps both ports well-formed: every record sits under its own key, and the store holds only its own instances. |
| Session.CachedAssetIsStable | src/test/java/com/artipie/npm/proxy/NpmProxyTest.java:159-168 | An asset the store holds is never replaced by any sequence of requests. Every later request for its path answers with that same object. |
| Storage.NpmProxyStorage.constructor | src/test/java/com/artipie/npm/proxy/NpmProxyTest.java:86-87 | A store with the given contents, the next instance number and an empty call log. It requires a well-formed store: every held record is under its own key, is a store instance, and is numbered below the next instance number. |
| Storage.NpmProxyStorage.GetPackage | src/test/java/com/artipie/npm/proxy/NpmProxyTest.java:149 | Changes only the call log, and answers exactly as StoreModel.GetPackage. |
| Storage.NpmProxyStorage.SavePackage | src/test/java/com/artipie/npm/proxy/NpmProxyTest.java:100 | Updates the package map in place, exactly as StoreModel.SavePackage. |
| Storage.NpmProxyStorage.GetAsset | src/test/java/com/artipie/npm/proxy/NpmProxyTest.java:114-130 | Changes only the call log, and answers exactly as StoreModel.GetAsset. |
| Storage.NpmProxyStorage.SaveAsset | src/test/java/com/artipie/npm/proxy/NpmProxyTest.java:134 | Updates the asset map in place, exactly as StoreModel.SaveAsset. |
| Remote.NpmRemote.constructor | src/test/java/com/artipie/npm/proxy/NpmProxyTest.java:92-93 | An open client serving the given records, with an empty call log. |
| Remote.NpmRemote.LoadPackage | src/test/java/com/artipie/npm/proxy/NpmProxyTest.java:99 | Changes only the call log, and answers exactly as RemoteModel.LoadPackage. |
| Remote.NpmRemote.LoadAsset | src/test/java/com/artipie/npm/proxy/NpmProxyTest.java:131-133 | Changes only the call log, and answers exactly as RemoteModel.LoadAsset. |
| Remote.NpmRemote.Close | src/test/java/com/artipie/npm/proxy/NpmProxyTest.java:200 | Sets the closed flag and logs the call, exactly as RemoteModel.Close. |
| Proxy.NpmProxy.constructor | src/test/java/com/artipie/npm/proxy/NpmProxyTest.java:199 | A proxy over the given store and registry client. |
| Proxy.NpmProxy.GetPackage | src/test/java/com/artipie/npm/proxy/NpmProxyTest.java:96-107 | The registry-first, write-through sequence of port calls. Its answer and the ports' new state are exactly those of ProxyModel.GetPackage. |
| Proxy.NpmProxy.GetAsset | src/test/java/com/artipie/npm/proxy/NpmProxyTest.java:110-142 | The store-first, save-then-re-read sequence of port calls. Its answer and the ports' new state are exactly those of ProxyModel.GetAsset. |
| Proxy.NpmProxy.Close | src/test/java/com/artipie/npm/proxy/NpmProxyTest.java:203-207 | Delegates to the client's close. The new state is exactly that of ProxyModel.Close. |
| Scenarios.GetsPackage | src/test/java/com/artipie/npm/proxy/NpmProxyTest.java:95-107 | On the test's literal package, the answer is the registry's object. The body asserts that the registry load, the store save and the close happen once each. |
| Scenarios.GetsAsset | src/test/java/com/artipie/npm/proxy/NpmProxyTest.java:109-142 | On the test's literal asset, the answer is the store's instance, not the fetched one. The body asserts that the store is read twice with one save between the reads, and that the registry load happens once. |
| Scenarios.GetsPackageFromCache | src/test/java/com/artipie/npm/proxy/NpmProxyTest.java:144-156 | When only the store has the literal package, the answer is the cached object. The body asserts one registry load, one store lookup and one close. |
| Scenarios.GetsAssetFromCache | src/test/java/com/artipie/npm/proxy/NpmProxyTest.java:158-168 | When the store holds the literal asset, the answer is that object. The body asserts one store lookup and that the registry sees no call before the final close. |
| Scenarios.DoesNotFindPackage | src/test/java/com/artipie/npm/proxy/NpmProxyTest.java:170-181 | An empty answer when neither side has the package. The body asserts one registry load, one store lookup and one close. |
| Scenarios.DoesNotFindAsset | src/test/java/com/artipie/npm/proxy/NpmProxyTest.java:183-195 | An empty answer when neither side has the asset. The body asserts that the store is asked once, stays empty, and that the registry is closed once. |

## Left out

- Vert.x: the event loop the proxy is built with is plumbing with no effect on answers, so the constructor takes only the two ports.
- Asynchrony: every port call is one synchronous step returning an `Option`. The RxJava `Maybe`/`Completable` types and `blockingGet` are not modelled, and neither are concurrent requests.
- Concurrent-fetch de-duplication: the proxy does none, so there is nothing to model.
- Port failures: an error raised by the store or the registry would propagate unchanged. The model has only found and not-found answers.
- Content streams: asset content is a byte sequence, not a one-shot stream. Package metadata is an opaque string, so the metadata document loaded from `/json/cached.json` is a parameter.
- Conditional fetching: the registry model ignores the `existing` argument of `loadAsset`. The proxy always passes none; the test accepts any value there.
- The store: it is modelled as a real map-backed store, not as the test's stub. The stub hands back an unrelated equal asset on its second read; here the second read returns the saved copy. `ProxyModel.GetAsset` states the general fact that the answer is whatever the store reads back after the save.
- Use after close: the `closed` flag is recorded but not checked. Requests made after `close()` are answered as before, because nothing in the proxy guards against them.
- `NpmProxy.java`, `NpmProxyStorage.java` and `NpmRemote.java` are not part of this model. The behaviour is taken from the test that drives them.
