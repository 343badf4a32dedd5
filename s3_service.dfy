/**
 * The Streamlit app's storage wrapper (services/s3_service.py): one bucket and
 * one key prefix; uploads and deletes answer a (success, message) pair, and
 * the listing drops the bare prefix key and attaches each object's public URL.
 */
module S3Service {
  import opened Common

  /** The fields `__init__` sets from the configuration. */
  datatype Config = Config(bucket: string, prefix: string, region: string)

  /**
   * S3_BUCKET and S3_PREFIX of the configuration file, and AWS_DEFAULT_REGION at
   * its default; the environment can set another region.
   */
  const DefaultConfig := Config("live-call-insight", "knowledge-base/", "ap-south-1")

  /** One entry of the listing's 'Contents'; `lastModified` is kept as the SDK's value. */
  datatype StoredObject = StoredObject(key: string, size: nat, lastModified: string)

  /** One dictionary of what `list_files` returns. */
  datatype FileInfo = FileInfo(key: string, size: nat, lastModified: string, url: string)

  /** `f"{self.prefix}{filename}"` */
  function UploadKey(cfg: Config, filename: string): (key: string)
    ensures |key| == |cfg.prefix| + |filename|
    ensures key[..|cfg.prefix|] == cfg.prefix && key[|cfg.prefix|..] == filename
  {
    cfg.prefix + filename
  }

  /** The object an SDK call names: its bucket, its key and, for uploads, the ACL it sets. */
  datatype ObjectRequest = ObjectRequest(bucket: string, key: string, acl: Option<string>)

  /**
   * `upload_file`: the private upload of the file under the prefixed key, then
   * (True, a message naming the file) once the SDK call returns, (False, the
   * exception's text) when it raises.
   */
  function UploadFile(cfg: Config, filename: string, outcome: SdkOutcome): (r: (bool, string, ObjectRequest))
    ensures r.2.bucket == cfg.bucket && r.2.acl == Some("private")
    ensures r.2.key == UploadKey(cfg, filename)
    ensures r.0 <==> outcome.SdkOk?
    ensures r.0 ==> r.1 == "Successfully uploaded " + filename
    ensures !r.0 ==> r.1 == outcome.ErrorText()
  {
    var put := ObjectRequest(cfg.bucket, cfg.prefix + filename, Some("private"));
    if outcome.SdkOk? then (true, "Successfully uploaded " + filename, put) else (false, outcome.ErrorText(), put)
  }

  /** `delete_file`: the deletion of exactly the given key, with the same (success, message) convention. */
  function DeleteFile(cfg: Config, key: string, outcome: SdkOutcome): (r: (bool, string, ObjectRequest))
    ensures r.2 == ObjectRequest(cfg.bucket, key, None)
    ensures r.0 <==> outcome.SdkOk?
    ensures r.0 ==> r.1 == "Successfully deleted " + key
    ensures !r.0 ==> r.1 == outcome.ErrorText()
  {
    var delete := ObjectRequest(cfg.bucket, key, None);
    if outcome.SdkOk? then (true, "Successfully deleted " + key, delete) else (false, outcome.ErrorText(), delete)
  }

  /** The virtual-hosted-style URL `list_files` builds for a key. */
  function ObjectUrl(cfg: Config, key: string): string
  {
    "https://" + cfg.bucket + ".s3." + cfg.region + ".amazonaws.com/" + key
  }

  function Info(cfg: Config, obj: StoredObject): FileInfo
  {
    FileInfo(obj.key, obj.size, obj.lastModified, ObjectUrl(cfg, obj.key))
  }

  /** The comprehension of `list_files` over the listed objects. */
  function Visible(cfg: Config, objects: seq<StoredObject>): (r: seq<FileInfo>)
    ensures |r| <= |objects|
    ensures forall k :: 0 <= k < |r| ==> r[k].key != cfg.prefix && r[k].url == ObjectUrl(cfg, r[k].key)
  {
    if objects == [] then []
    else
      var last := objects[|objects| - 1];
      Visible(cfg, objects[..|objects| - 1]) + (if last.key == cfg.prefix then [] else [Info(cfg, last)])
  }

  /** What `list_objects_v2` gave: its 'Contents' (None when absent), or an exception. */
  datatype ListResponse = Listed(contents: Option<seq<StoredObject>>) | Raised(message: string)

  /** `list_files`: no 'Contents' and any exception both give the empty list. */
  function ListFiles(cfg: Config, response: ListResponse): (r: seq<FileInfo>)
    ensures response.Raised? || response.contents.None? ==> r == []
    ensures response.Listed? && response.contents.Some? ==> r == Visible(cfg, response.contents.value)
  {
    match response
    case Raised(_) => []
    case Listed(None) => []
    case Listed(Some(objects)) => Visible(cfg, objects)
  }

  /** The listing is taken piece by piece, so it keeps the listed order. */
  lemma {:induction false} VisibleDistributes(cfg: Config, a: seq<StoredObject>, b: seq<StoredObject>)
    ensures Visible(cfg, a + b) == Visible(cfg, a) + Visible(cfg, b)
    decreases |b|
  {
    if b == [] {
      assert a + b == a;
    } else {
      var b' := b[..|b| - 1];
      assert (a + b)[..|a + b| - 1] == a + b';
      VisibleDistributes(cfg, a, b');
    }
  }

  /**
   * Exactly the objects whose key differs from the prefix are returned, each
   * with its own key, size, timestamp and URL.
   */
  lemma {:induction false} VisibleExactly(cfg: Config, objects: seq<StoredObject>)
    ensures forall o :: o in objects ==> (Info(cfg, o) in Visible(cfg, objects) <==> o.key != cfg.prefix)
    ensures forall f :: f in Visible(cfg, objects) ==>
      exists o :: o in objects && o.key != cfg.prefix && f == Info(cfg, o)
  {
    if objects != [] {
      var pre, last := objects[..|objects| - 1], objects[|objects| - 1];
      VisibleExactly(cfg, pre);
      assert objects == pre + [last];
      forall o | o in objects
        ensures Info(cfg, o) in Visible(cfg, objects) <==> o.key != cfg.prefix
      {
        if o != last {
          assert o in pre;
        }
      }
      forall f | f in Visible(cfg, objects)
        ensures exists o :: o in objects && o.key != cfg.prefix && f == Info(cfg, o)
      {
        if f in Visible(cfg, pre) {
          var o :| o in pre && o.key != cfg.prefix && f == Info(cfg, o);
          assert o in objects;
        } else {
          assert f == Info(cfg, last);
        }
      }
    }
  }

  /** Only entries for the bare prefix are dropped: the count is the rest of the listing. */
  lemma {:induction false} VisibleCount(cfg: Config, objects: seq<StoredObject>)
    ensures |Visible(cfg, objects)| == |objects| - CountKey(objects, cfg.prefix)
  {
    if objects != [] {
      VisibleCount(cfg, objects[..|objects| - 1]);
    }
  }

  function CountKey(objects: seq<StoredObject>, key: string): (n: nat)
    ensures n <= |objects|
  {
    if objects == [] then 0
    else CountKey(objects[..|objects| - 1], key) + (if objects[|objects| - 1].key == key then 1 else 0)
  }
}
