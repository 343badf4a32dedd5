/**
 * The HTTP handlers of the backend service (backend/main.py): object keys for
 * uploads and deletes, the error each handler answers with, the batch
 * transcription handler around the turn segmentation, and the knowledge-base
 * analysis that folds an object listing into totals.
 *
 * Calls into the object store and the transcription service are inputs
 * (an SdkOutcome, a sequence of polled statuses, the listing itself); the
 * random identifier of an upload is a parameter.
 */
module BackendApi {
  import opened Common
  import opened Text
  import opened Transcript

  const KnowledgeBasePrefix := "knowledge-base/"
  const RecordingsPrefix := "recordings/"

  /** What an HTTPException's detail says, by kind. */
  datatype ErrorReason =
    | MissingAudioKey
    | TranscriptionFailed
    | TranscriptUnavailable
    | FileNotFound
    | StorageUnreachable(message: string)
    | BucketMissing
    | BucketAccessDenied
    | BucketError(message: string)
    | AwsError(code: string, message: string)
    | Unexpected(message: string)
      /** `str(e)` of an HTTPException that a blanket `except Exception` caught and re-raised */
    | Wrapped(status: nat, inner: ErrorReason)

  /** What a handler answers: its JSON body, or the status of the HTTPException it raises. */
  datatype Response<T> = Ok(body: T) | HttpError(status: nat, reason: ErrorReason)

  /** Wraps an SDK failure as the blanket handler does. */
  function SdkError(outcome: SdkOutcome): ErrorReason
    requires !outcome.SdkOk?
  {
    Unexpected(outcome.ErrorText())
  }

  // ---------------------------------------------------------------------
  // Object keys
  // ---------------------------------------------------------------------

  /** A fresh identifier as `str(uuid.uuid4())` renders it: hex digits and dashes. */
  predicate IsIdentifier(id: string)
  {
    id != [] && '/' !in id && '.' !in id
  }

  predicate StartsWith(s: string, prefix: string)
  {
    |prefix| <= |s| && s[..|prefix|] == prefix
  }

  /** `f"{PREFIX}{uuid.uuid4()}{file_extension}"` */
  function UploadKey(prefix: string, id: string, filename: string): string
  {
    prefix + id + Extension(filename)
  }

  function DocumentKey(id: string, filename: string): string
  {
    UploadKey(KnowledgeBasePrefix, id, filename)
  }

  function RecordingKey(id: string, filename: string): string
  {
    UploadKey(RecordingsPrefix, id, filename)
  }

  /** `f"{KNOWLEDGE_BASE_PREFIX}{file_id}"`: removing the prefix gives the identifier back. */
  function DeleteKey(fileId: string): (key: string)
    ensures StartsWith(key, KnowledgeBasePrefix)
    ensures key[|KnowledgeBasePrefix|..] == fileId
  {
    KnowledgeBasePrefix + fileId
  }

  lemma LastIndexOfIdentifier(id: string, ext: string)
    requires IsIdentifier(id)
    requires ext == [] || (ext[0] == '.' && '.' !in ext[1..])
    ensures LastIndex(id + ext, '.') == if ext == [] then None else Some(|id|)
  {
    var s := id + ext;
    if ext == [] {
      assert s == id;
    } else {
      assert s[|id|] == '.';
      assert forall k :: 0 <= k < |id| ==> s[k] == id[k];
      assert forall k :: |id| < k < |s| ==> s[k] == ext[1..][k - |id| - 1];
      assert forall k :: 0 <= k < |s| && s[k] == '.' ==> k == |id|;
    }
  }

  /** The extension of "<identifier><ext>" is ext. */
  lemma SegmentExtensionOfIdentifier(id: string, ext: string)
    requires IsIdentifier(id)
    requires ext == [] || (ext[0] == '.' && '.' !in ext[1..])
    ensures SegmentExtension(id + ext) == ext
  {
    LastIndexOfIdentifier(id, ext);
    var s := id + ext;
    assert s[0] == id[0] != '.';
    if ext != [] {
      assert s[|id|..] == ext;
    }
  }

  /**
   * An upload key starts with its prefix, its last segment is the identifier
   * followed by the extension, and it has the original file's extension.
   */
  lemma UploadKeyShape(prefix: string, id: string, filename: string)
    requires IsIdentifier(id)
    requires prefix != [] && prefix[|prefix| - 1] == '/'
    ensures StartsWith(UploadKey(prefix, id, filename), prefix)
    ensures Basename(UploadKey(prefix, id, filename)) == id + Extension(filename)
    ensures Extension(UploadKey(prefix, id, filename)) == Extension(filename)
  {
    var ext := Extension(filename);
    var tail := id + ext;
    assert UploadKey(prefix, id, filename) == prefix + tail;
    assert '/' !in ext;
    assert '/' !in tail;
    ExtensionAfterSlash(prefix, tail);
    SegmentExtensionOfIdentifier(id, ext);
  }

  lemma ExtensionAfterSlash(prefix: string, tail: string)
    requires prefix != [] && prefix[|prefix| - 1] == '/'
    requires '/' !in tail
    ensures StartsWith(prefix + tail, prefix)
    ensures Basename(prefix + tail) == tail
    ensures Extension(prefix + tail) == SegmentExtension(tail)
  {
    BasenameAfterSlash(prefix, tail);
    var s := prefix + tail;
    assert s[..|prefix|] == prefix;
    assert s[DirLength(s)..] == tail;
  }

  lemma BasenameAfterSlash(prefix: string, tail: string)
    requires prefix != [] && prefix[|prefix| - 1] == '/'
    requires '/' !in tail
    ensures Basename(prefix + tail) == tail
    ensures DirLength(prefix + tail) == |prefix|
  {
    var s := prefix + tail;
    var b := Basename(s);
    assert s[|prefix| - 1] == '/';
    assert forall k :: 0 <= k < |tail| ==> s[|prefix| + k] == tail[k];
    assert s[|s| - |tail|..] == tail;
  }

  /**
   * Deleting by a listed file's id reaches the object an upload created: the
   * id the analysis reports is the key's last segment, and prefixing it again
   * gives the key back.
   */
  lemma DeleteReachesUploadedDocument(id: string, filename: string)
    requires IsIdentifier(id)
    ensures DeleteKey(Basename(DocumentKey(id, filename))) == DocumentKey(id, filename)
  {
    UploadKeyShape(KnowledgeBasePrefix, id, filename);
  }

  // ---------------------------------------------------------------------
  // POST /api/upload and POST /api/upload-audio
  // ---------------------------------------------------------------------

  datatype UploadBody = UploadBody(message: string, filename: string, url: Option<string>)

  /**
   * `upload_file`: store under a fresh knowledge-base key, then presign a
   * download link; either SDK failure becomes a 500.
   */
  function UploadDocument(id: string, filename: string, put: SdkOutcome,
                          presign: SdkOutcome, url: string): (r: Response<UploadBody>)
    ensures r.Ok? <==> put.SdkOk? && presign.SdkOk?
    ensures r.Ok? ==> r.body.filename == DocumentKey(id, filename) && r.body.url == Some(url)
    ensures r.HttpError? ==> r.status == 500
  {
    if !put.SdkOk? then HttpError(500, SdkError(put))
    else if !presign.SdkOk? then HttpError(500, SdkError(presign))
    else Ok(UploadBody("File uploaded successfully", DocumentKey(id, filename), Some(url)))
  }

  /** `upload_audio`: store under a fresh recordings key; no link is made. */
  function UploadAudio(id: string, filename: string, put: SdkOutcome): (r: Response<UploadBody>)
    ensures r.Ok? <==> put.SdkOk?
    ensures r.Ok? ==> r.body.filename == RecordingKey(id, filename) && r.body.url.None?
    ensures r.HttpError? ==> r.status == 500
  {
    if put.SdkOk? then Ok(UploadBody("Audio uploaded successfully", RecordingKey(id, filename), None))
    else HttpError(500, SdkError(put))
  }

  // ---------------------------------------------------------------------
  // DELETE /api/delete/{file_id}
  // ---------------------------------------------------------------------

  /**
   * `delete_file` as written: the 404 raised for NoSuchKey inside the outer
   * `try` is caught by its `except Exception` and re-raised as a 500.
   */
  function DeleteFileAsWritten(fileId: string, outcome: SdkOutcome): (r: Response<string>)
    ensures r.Ok? <==> outcome.SdkOk?
    ensures r.HttpError? ==> r.status == 500
  {
    match outcome
    case SdkOk => Ok("File deleted successfully")
    case ClientError(code, message) =>
      if code == "NoSuchKey" then HttpError(500, Wrapped(404, FileNotFound))
      else HttpError(500, Wrapped(500, Unexpected(message)))
    case OtherError(message) => HttpError(500, Unexpected(message))
  }

  /** The handler as evidently intended: a missing object answers 404. */
  function DeleteFile(fileId: string, outcome: SdkOutcome): (r: Response<string>)
    ensures r.Ok? <==> outcome.SdkOk?
    ensures r.HttpError? && r.status == 404 <==> outcome.ClientError? && outcome.code == "NoSuchKey"
    ensures r.HttpError? ==> r.status in {404, 500}
  {
    match outcome
    case SdkOk => Ok("File deleted successfully")
    case ClientError(code, message) =>
      if code == "NoSuchKey" then HttpError(404, FileNotFound)
      else HttpError(500, Unexpected(message))
    case OtherError(message) => HttpError(500, Unexpected(message))
  }

  /** The input that shows the difference: deleting an object the store does not have. */
  lemma MissingObjectAnswers500(fileId: string, message: string)
    ensures DeleteFileAsWritten(fileId, ClientError("NoSuchKey", message)).status == 500
    ensures DeleteFile(fileId, ClientError("NoSuchKey", message)).status == 404
  {
  }

  // ---------------------------------------------------------------------
  // POST /api/transcribe
  // ---------------------------------------------------------------------

  datatype TranscribeBody = TranscribeBody(message: string, results: seq<Turn>)

  /** `if not audio_key`: an absent key and an empty key are both refused. */
  predicate MissingKey(audioKey: Option<string>) { audioKey.None? || audioKey.value == [] }

  /**
   * `transcribe_audio` as written. None means the handler is still polling
   * after every status in `polls`; `transcript` is the fetched document's
   * items, or None when fetching or parsing it failed. Every HTTPException
   * raised inside the `try` is re-raised by `except Exception` as a 500.
   */
  function TranscribeAsWritten(audioKey: Option<string>, start: SdkOutcome,
                               polls: seq<JobStatus>, transcript: Option<seq<Item>>)
    : (r: Option<Response<TranscribeBody>>)
    ensures r.Some? && r.value.HttpError? ==> r.value.status == 500
    ensures MissingKey(audioKey) ==> r == Some(HttpError(500, Wrapped(400, MissingAudioKey)))
    ensures !MissingKey(audioKey) && !start.SdkOk? ==> r == Some(HttpError(500, SdkError(start)))
    ensures r.None? <==> !MissingKey(audioKey) && start.SdkOk? && FirstTerminal(polls).None?
    ensures r.Some? && r.value.Ok? <==>
      !MissingKey(audioKey) && start.SdkOk? && FirstTerminal(polls).Some?
      && polls[FirstTerminal(polls).value] == Completed && transcript.Some?
    ensures r.Some? && r.value.Ok? ==> r.value.body.results == Segment(transcript.value)
  {
    if MissingKey(audioKey) then Some(HttpError(500, Wrapped(400, MissingAudioKey)))
    else if !start.SdkOk? then Some(HttpError(500, SdkError(start)))
    else
      match FirstTerminal(polls)
      case None => None
      case Some(k) =>
        if polls[k] == Failed then Some(HttpError(500, Wrapped(500, TranscriptionFailed)))
        else if transcript.None? then Some(HttpError(500, TranscriptUnavailable))
        else Some(Ok(TranscribeBody("Transcription completed successfully", Segment(transcript.value))))
  }

  /** The handler as evidently intended: its own HTTPExceptions keep their status. */
  function Transcribe(audioKey: Option<string>, start: SdkOutcome,
                      polls: seq<JobStatus>, transcript: Option<seq<Item>>)
    : (r: Option<Response<TranscribeBody>>)
    ensures MissingKey(audioKey) <==> r.Some? && r.value.HttpError? && r.value.status == 400
    ensures r.Some? && r.value.HttpError? ==> r.value.status in {400, 500}
    ensures !MissingKey(audioKey) && !start.SdkOk? ==> r == Some(HttpError(500, SdkError(start)))
    ensures r.None? <==> !MissingKey(audioKey) && start.SdkOk? && FirstTerminal(polls).None?
    ensures r.Some? && r.value.Ok? <==>
      !MissingKey(audioKey) && start.SdkOk? && FirstTerminal(polls).Some?
      && polls[FirstTerminal(polls).value] == Completed && transcript.Some?
    ensures r.Some? && r.value.Ok? ==> r.value.body.results == Segment(transcript.value)
  {
    if MissingKey(audioKey) then Some(HttpError(400, MissingAudioKey))
    else if !start.SdkOk? then Some(HttpError(500, SdkError(start)))
    else
      match FirstTerminal(polls)
      case None => None
      case Some(k) =>
        if polls[k] == Failed then Some(HttpError(500, TranscriptionFailed))
        else if transcript.None? then Some(HttpError(500, TranscriptUnavailable))
        else Some(Ok(TranscribeBody("Transcription completed successfully", Segment(transcript.value))))
  }

  /** The input that shows the difference: a request whose audioKey is absent or empty. */
  lemma MissingAudioKeyAnswers500(audioKey: Option<string>, start: SdkOutcome,
                                  polls: seq<JobStatus>, transcript: Option<seq<Item>>)
    requires audioKey == None || audioKey == Some("")
    ensures TranscribeAsWritten(audioKey, start, polls, transcript) == Some(HttpError(500, Wrapped(400, MissingAudioKey)))
    ensures Transcribe(audioKey, start, polls, transcript) == Some(HttpError(400, MissingAudioKey))
  {
  }

  /**
   * Apart from the status of the handler's own exceptions, both versions give
   * the same answer: the same turns on success and the same cases of failure.
   */
  lemma TranscribeAgreesExceptStatus(audioKey: Option<string>, start: SdkOutcome,
                                     polls: seq<JobStatus>, transcript: Option<seq<Item>>)
    ensures var a, b := TranscribeAsWritten(audioKey, start, polls, transcript),
                        Transcribe(audioKey, start, polls, transcript);
      a.None? == b.None? && (a.Some? ==> a.value.Ok? == b.value.Ok?)
      && (a.Some? && a.value.Ok? ==> a == b)
  {
  }

  /** A job that reports FAILED never yields turns, whatever the transcript. */
  lemma FailedJobIsAnError(audioKey: Option<string>, start: SdkOutcome,
                           polls: seq<JobStatus>, transcript: Option<seq<Item>>)
    requires FirstTerminal(polls).Some? && polls[FirstTerminal(polls).value] == Failed
    ensures var r := Transcribe(audioKey, start, polls, transcript);
      r.Some? && r.value.HttpError? && r.value.status == if MissingKey(audioKey) then 400 else 500
  {
  }

  // ---------------------------------------------------------------------
  // GET /api/analysis
  // ---------------------------------------------------------------------

  /** One entry of a listing's 'Contents'. */
  datatype ListedObject = ListedObject(key: string, size: nat, lastModified: string)

  /** One entry of the response's "files"; `lastModified` stands for `isoformat()`. */
  datatype FileSummary = FileSummary(id: string, name: string, size: nat, url: string, lastModified: string)

  datatype Analysis = Analysis(totalFiles: nat, totalSize: nat, files: seq<FileSummary>)

  /** The objects the analysis counts: every listed object but the bare prefix, in order. */
  function Counted(objects: seq<ListedObject>): seq<ListedObject>
  {
    if objects == [] then [] else Counted(objects[..|objects| - 1]) + CountedPart(objects[|objects| - 1])
  }

  function CountedPart(obj: ListedObject): seq<ListedObject>
  {
    if obj.key == KnowledgeBasePrefix then [] else [obj]
  }

  function TotalSize(objects: seq<ListedObject>): nat
  {
    if objects == [] then 0 else TotalSize(objects[..|objects| - 1]) + objects[|objects| - 1].size
  }

  /** The entry for one object; `presign` stands for `generate_presigned_url`. */
  function Summary(obj: ListedObject, presign: string -> string): FileSummary
  {
    FileSummary(Basename(obj.key), Basename(obj.key), obj.size, presign(obj.key), obj.lastModified)
  }

  function Summaries(objects: seq<ListedObject>, presign: string -> string): (r: seq<FileSummary>)
    ensures |r| == |objects|
  {
    if objects == [] then []
    else Summaries(objects[..|objects| - 1], presign) + [Summary(objects[|objects| - 1], presign)]
  }

  /** The response body for the counted objects: their number, total size and entries. */
  function AnalysisOf(counted: seq<ListedObject>, presign: string -> string): (a: Analysis)
    ensures |a.files| == a.totalFiles
  {
    Analysis(|counted|, TotalSize(counted), Summaries(counted, presign))
  }

  /**
   * Lines 271-302: the totals over a listing (`contents` is None when the
   * response has no 'Contents'), skipping the bare prefix key.
   */
  method AggregateListing(contents: Option<seq<ListedObject>>, presign: string -> string)
    returns (analysis: Analysis)
    ensures contents.None? ==> analysis == Analysis(0, 0, [])
    ensures contents.Some? ==> analysis == AnalysisOf(Counted(contents.value), presign)
    ensures |analysis.files| == analysis.totalFiles
  {
    analysis := Analysis(0, 0, []);
    if contents.Some? {
      var objects := contents.value;
      ghost var counted: seq<ListedObject> := [];
      for i := 0 to |objects|
        invariant counted == Counted(objects[..i])
        invariant analysis == AnalysisOf(counted, presign)
      {
        var obj := objects[i];
        CountedStep(objects, i);
        if obj.key == KnowledgeBasePrefix {
          continue;
        }
        AnalysisStep(counted, obj, presign);
        counted := counted + [obj];
        var filename := Basename(obj.key);
        var url := presign(obj.key);
        var entry := FileSummary(filename, filename, obj.size, url, obj.lastModified);
        assert entry == Summary(obj, presign);
        analysis := Analysis(analysis.totalFiles + 1, analysis.totalSize + obj.size, analysis.files + [entry]);
      }
      assert objects[..|objects|] == objects;
    }
  }

  lemma CountedStep(objects: seq<ListedObject>, i: nat)
    requires i < |objects|
    ensures Counted(objects[..i + 1]) == Counted(objects[..i]) + CountedPart(objects[i])
  {
    assert objects[..i + 1][..i] == objects[..i];
  }

  /** Counting one more object adds one file, its size and its entry. */
  lemma AnalysisStep(counted: seq<ListedObject>, obj: ListedObject, presign: string -> string)
    ensures AnalysisOf(counted + [obj], presign).totalFiles == AnalysisOf(counted, presign).totalFiles + 1
    ensures AnalysisOf(counted + [obj], presign).totalSize == AnalysisOf(counted, presign).totalSize + obj.size
    ensures AnalysisOf(counted + [obj], presign).files == AnalysisOf(counted, presign).files + [Summary(obj, presign)]
  {
    var c := counted + [obj];
    assert c[..|c| - 1] == counted;
    assert c[|c| - 1] == obj;
  }

  /** Nothing is counted twice or left out: the counted objects and the skipped ones make up the listing. */
  lemma {:induction false} CountedExactly(objects: seq<ListedObject>)
    ensures forall o :: o in Counted(objects) <==> o in objects && o.key != KnowledgeBasePrefix
    ensures |Counted(objects)| == |objects| - |PrefixEntries(objects)|
  {
    if objects != [] {
      var pre := objects[..|objects| - 1];
      var last := objects[|objects| - 1];
      CountedExactly(pre);
      assert objects == pre + [last];
      assert Counted(objects) == Counted(pre) + CountedPart(last);
      if last.key == KnowledgeBasePrefix {
        assert PrefixEntries(objects) == PrefixEntries(pre) + [last];
      } else {
        assert PrefixEntries(objects) == PrefixEntries(pre);
      }
    }
  }

  /** The listing's entries for the bare prefix itself. */
  function PrefixEntries(objects: seq<ListedObject>): seq<ListedObject>
  {
    if objects == [] then []
    else if objects[|objects| - 1].key == KnowledgeBasePrefix
    then PrefixEntries(objects[..|objects| - 1]) + [objects[|objects| - 1]]
    else PrefixEntries(objects[..|objects| - 1])
  }

  /** The listing result: its 'Contents' (None when absent), or the exception list_objects_v2 raised. */
  datatype ListingResult =
    | Listed(contents: Option<seq<ListedObject>>)
    | ListingClientError(code: string, message: string)
    | ListingOtherError(message: string)

  /**
   * `get_analysis`: the connectivity check, the bucket check (404, 403 and
   * other codes give different details), then the listing. Every failure is a
   * 500; `except HTTPException: raise` keeps the bucket check's own details.
   */
  method GetAnalysis(listBuckets: SdkOutcome, headBucket: SdkOutcome, listing: ListingResult,
                     presign: string -> string)
    returns (r: Response<Analysis>)
    ensures r.HttpError? ==> r.status == 500
    ensures r.Ok? <==> listBuckets.SdkOk? && headBucket.SdkOk? && listing.Listed?
    ensures r.Ok? && listing.contents.None? ==> r.body == Analysis(0, 0, [])
    ensures r.Ok? && listing.contents.Some? ==> r.body == AnalysisOf(Counted(listing.contents.value), presign)
  {
    if !listBuckets.SdkOk? {
      return HttpError(500, StorageUnreachable(listBuckets.ErrorText()));
    }
    match headBucket {
      case SdkOk =>
      case ClientError(code, message) =>
        if code == "404" {
          return HttpError(500, BucketMissing);
        } else if code == "403" {
          return HttpError(500, BucketAccessDenied);
        } else {
          return HttpError(500, BucketError(message));
        }
      case OtherError(message) =>
        return HttpError(500, Unexpected(message));
    }
    match listing {
      case ListingClientError(code, message) =>
        return HttpError(500, AwsError(code, message));
      case ListingOtherError(message) =>
        return HttpError(500, Unexpected(message));
      case Listed(contents) =>
        var analysis := AggregateListing(contents, presign);
        return Ok(analysis);
    }
  }
}
