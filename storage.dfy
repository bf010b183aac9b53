/** The MinIO object store the backend writes uploads to, as an in-memory
    map from (bucket, object name) to the stored bytes and content type.
    Whether a `put_object` call raises is a parameter, with the text of the
    exception. */
module ObjectStorage {
  import opened Common
  import opened AuthUtils

  /** The MinIO settings read from the environment at import time. */
  datatype StorageConfig = StorageConfig(
    endpoint: Option<string>,
    accessKey: Option<string>,
    secretKey: Option<string>,
    bucket: Option<string>,
    publicEndpoint: Option<string>)

  /** `all([MINIO_ENDPOINT, MINIO_ACCESS_KEY, MINIO_SECRET_KEY, MINIO_BUCKET])`. */
  predicate Configured(c: StorageConfig) {
    TruthyStr(c.endpoint) && TruthyStr(c.accessKey) && TruthyStr(c.secretKey) && TruthyStr(c.bucket)
  }

  /** Python `f"{value}"` for a setting that may be unset. */
  function Format(o: Option<string>): (r: string)
    ensures o.Some? ==> r == o.value
    ensures o.None? ==> r == "None"
  {
    if o.Some? then o.value else "None"
  }

  /** `f"http://{MINIO_PUBLIC_ENDPOINT or MINIO_ENDPOINT}/{MINIO_BUCKET}/{name}"`. */
  function ObjectUrl(c: StorageConfig, name: string): (url: string)
    ensures TruthyStr(c.publicEndpoint) ==> url == "http://" + c.publicEndpoint.value + "/" + Format(c.bucket) + "/" + name
    ensures !TruthyStr(c.publicEndpoint) ==> url == "http://" + Format(c.endpoint) + "/" + Format(c.bucket) + "/" + name
  {
    var host := if TruthyStr(c.publicEndpoint) then c.publicEndpoint.value else Format(c.endpoint);
    "http://" + host + "/" + Format(c.bucket) + "/" + name
  }

  /** The URL ends with "/" + bucket + "/" + the object name, so two names
      in the same store give two URLs. */
  lemma ObjectUrlInjective(c: StorageConfig, n1: string, n2: string)
    requires ObjectUrl(c, n1) == ObjectUrl(c, n2)
    ensures n1 == n2
  {
    var p := ObjectUrl(c, "");
    assert ObjectUrl(c, n1) == p + n1 && ObjectUrl(c, n2) == p + n2;
    assert n1 == (p + n1)[|p|..];
    assert n2 == (p + n2)[|p|..];
  }

  datatype StoredObject = StoredObject(data: seq<byte>, contentType: string)

  class Store {
    var objects: map<(string, string), StoredObject>

    constructor ()
      ensures objects == map[]
    {
      objects := map[];
    }

    /** `put_object(bucket, name, data, content_type=...)`: stores or
        replaces the object, unless the call raises with message `fails`. */
    method PutObject(bucket: string, name: string, data: seq<byte>, contentType: string, fails: Option<string>)
      returns (error: Option<string>)
      modifies this
      ensures error == fails
      ensures fails.None? ==> objects == old(objects)[(bucket, name) := StoredObject(data, contentType)]
      ensures fails.Some? ==> objects == old(objects)
    {
      error := fails;
      if fails.None? {
        objects := objects[(bucket, name) := StoredObject(data, contentType)];
      }
    }
  }
}
