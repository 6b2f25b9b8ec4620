/**
 * The lifetime of one proxy: any number of requests, then `close()`. Each
 * request is served on its own; no state of the proxy outlives a request
 * except what the two ports hold.
 */
module Session {
  import opened Wrappers
  import opened Calls
  import opened RemoteModel
  import opened ProxyModel

  datatype Request = PackageRequest(name: string) | AssetRequest(path: string)

  /** The ports after one request, whatever its answer. */
  function Handle(sys: System, req: Request): System
  {
    match req
    case PackageRequest(name) => GetPackage(sys, name).1
    case AssetRequest(path) => GetAsset(sys, path).1
  }

  /** The ports after a sequence of requests, served in order. */
  function Serve(sys: System, reqs: seq<Request>): System
    decreases |reqs|
  {
    if reqs == [] then sys else Serve(Handle(sys, reqs[0]), reqs[1..])
  }

  /** No request releases the client or changes what the registry serves. */
  lemma {:induction false} ServeLeavesClientOpen(sys: System, reqs: seq<Request>)
    ensures SameServer(Serve(sys, reqs).remote, sys.remote)
    ensures Count(Serve(sys, reqs).remote.log, CloseCall) == Count(sys.remote.log, CloseCall)
    decreases |reqs|
  {
    if reqs != [] {
      var next := Handle(sys, reqs[0]);
      var added := if reqs[0].PackageRequest? then [LoadPackageCall(reqs[0].name)]
                   else if reqs[0].path in sys.store.assets then []
                   else [LoadAssetCall(reqs[0].path, None)];
      assert next.remote.log == sys.remote.log + added;
      CountAppend(sys.remote.log, added, CloseCall);
      ServeLeavesClientOpen(next, reqs[1..]);
    }
  }

  /** Whatever requests a proxy served, closing it releases the registry client exactly once. */
  lemma ClosesClientOnce(sys: System, reqs: seq<Request>)
    requires !sys.remote.closed && Count(sys.remote.log, CloseCall) == 0
    ensures !Serve(sys, reqs).remote.closed
    ensures var last := ProxyModel.Close(Serve(sys, reqs));
      last.remote.closed && Count(last.remote.log, CloseCall) == 1
  {
    ServeLeavesClientOpen(sys, reqs);
  }

  /** Serving requests keeps both ports well-formed. */
  lemma {:induction false} ServeKeepsValid(sys: System, reqs: seq<Request>)
    requires ProxyModel.Valid(sys)
    ensures ProxyModel.Valid(Serve(sys, reqs))
    decreases |reqs|
  {
    if reqs != [] {
      ServeKeepsValid(Handle(sys, reqs[0]), reqs[1..]);
    }
  }

  /**
   * Cache-first for assets: an asset the store holds is never replaced, so
   * every later request for it is answered with that same instance.
   */
  lemma {:induction false} CachedAssetIsStable(sys: System, reqs: seq<Request>, path: string)
    requires RemoteModel.Valid(sys.remote)
    requires path in sys.store.assets
    ensures path in Serve(sys, reqs).store.assets
    ensures Serve(sys, reqs).store.assets[path] == sys.store.assets[path]
    ensures GetAsset(Serve(sys, reqs), path).0 == Some(sys.store.assets[path])
    decreases |reqs|
  {
    if reqs != [] {
      var next := Handle(sys, reqs[0]);
      CachedAssetIsStable(next, reqs[1..], path);
    }
  }
}
