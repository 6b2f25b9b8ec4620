/**
 * The two records that flow through the npm proxy: package metadata and a
 * tarball asset. Both are immutable values; the content of either is opaque.
 *
 * A Java object also has an identity that value equality does not see (two
 * assets built from the same arguments are equal but not the same object).
 * The `id` field carries that identity, so that "returns this very object"
 * and "returns an equal copy" can be told apart.
 */
module Records {

  /** Which side created a record instance. */
  datatype Origin = Fetched | Stored

  /** The identity of one record instance. */
  datatype Instance = Instance(origin: Origin, serial: nat)

  /** Package metadata: the package name, its metadata document and its freshness stamp. */
  datatype NpmPackage = NpmPackage(name: string, content: string, lastModified: string, id: Instance)

  /** A binary asset: its path, its bytes, its freshness stamp and its MIME type. */
  datatype NpmAsset = NpmAsset(path: string, data: seq<bv8>, lastModified: string, contentType: string, id: Instance)

  /** Equal as values, whatever their identities. */
  predicate SamePackage(a: NpmPackage, b: NpmPackage)
  {
    a.name == b.name && a.content == b.content && a.lastModified == b.lastModified
  }

  /** Equal as values, whatever their identities. */
  predicate SameAsset(a: NpmAsset, b: NpmAsset)
  {
    a.path == b.path && a.data == b.data && a.lastModified == b.lastModified && a.contentType == b.contentType
  }

  /** A new instance holding the same package. */
  function CopyPackage(p: NpmPackage, id: Instance): (r: NpmPackage)
    ensures SamePackage(r, p) && r.id == id
  {
    p.(id := id)
  }

  /** A new instance holding the same asset. */
  function CopyAsset(a: NpmAsset, id: Instance): (r: NpmAsset)
    ensures SameAsset(r, a) && r.id == id
  {
    a.(id := id)
  }
}
