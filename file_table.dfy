/**
 * The "existing files" table that both Streamlit pages draw from the storage
 * listing: each listed object whose last path segment is non-empty becomes a
 * row carrying its listing position, that segment, its size and timestamp,
 * and its full key for the Delete button.
 */
module FileTable {
  import opened Common
  import opened Text
  import S3Service

  /** One dictionary appended to `data`; `actions` is the full object key. */
  datatype Row = Row(index: nat, key: string, size: nat, lastModified: string, actions: string)

  /** What a page shows to the user after an action, by Streamlit call. */
  datatype Notice = Success(text: string) | Error(text: string) | Info(text: string)

  /** The row a listed file would get at position `i`. */
  function RowFor(i: nat, f: S3Service.FileInfo): Row
  {
    Row(i, Basename(f.key), f.size, f.lastModified, f.key)
  }

  /**
   * Whether the loop keeps a row for this file: its last segment is non-empty,
   * that is, its key does not end in '/' (see ShownIffNamed).
   */
  predicate Shown(f: S3Service.FileInfo) { f.key != [] && f.key[|f.key| - 1] != '/' }

  lemma ShownIffNamed(f: S3Service.FileInfo)
    ensures Shown(f) <==> Basename(f.key) != []
  {
  }

  /**
   * The rows the enumerate loop produces: in listing order, one per file with a
   * non-empty last segment, each holding that file's listing position.
   */
  function Rows(files: seq<S3Service.FileInfo>): (rows: seq<Row>)
    ensures |rows| <= |files|
  {
    if files == [] then []
    else
      var n := |files| - 1;
      Rows(files[..n]) + (if Shown(files[n]) then [RowFor(n, files[n])] else [])
  }

  /** The row `r` is the one the listed file at `r.index` gets, and that file is shown. */
  predicate RowOf(files: seq<S3Service.FileInfo>, r: Row)
  {
    r.index < |files| && Shown(files[r.index]) && r == RowFor(r.index, files[r.index])
  }

  /**
   * Every row belongs to a shown file at its own listing position, with that
   * file's last segment, size, timestamp and full key.
   */
  lemma {:induction false} RowsSound(files: seq<S3Service.FileInfo>)
    ensures forall k :: 0 <= k < |Rows(files)| ==> RowOf(files, Rows(files)[k])
  {
    if files != [] {
      var n := |files| - 1;
      var pre := Rows(files[..n]);
      var rows := Rows(files);
      RowsSound(files[..n]);
      assert rows == pre + (if Shown(files[n]) then [RowFor(n, files[n])] else []);
      forall k | 0 <= k < |pre|
        ensures RowOf(files, rows[k])
      {
        assert rows[k] == pre[k] && RowOf(files[..n], pre[k]);
        assert files[..n][pre[k].index] == files[pre[k].index];
      }
    }
  }

  /** The rows follow the listing order strictly, within the listing's bounds. */
  lemma {:induction false} RowsOrdered(files: seq<S3Service.FileInfo>)
    ensures forall k :: 0 <= k < |Rows(files)| ==> Rows(files)[k].index < |files|
    ensures forall j, k :: 0 <= j < k < |Rows(files)| ==> Rows(files)[j].index < Rows(files)[k].index
  {
    if files != [] {
      var n := |files| - 1;
      var pre := Rows(files[..n]);
      var rows := Rows(files);
      RowsOrdered(files[..n]);
      assert rows == pre + (if Shown(files[n]) then [RowFor(n, files[n])] else []);
      assert forall k :: 0 <= k < |pre| ==> rows[k] == pre[k];
    }
  }

  /** The enumerate loop with `continue` that fills `data`. */
  method BuildRows(files: seq<S3Service.FileInfo>) returns (data: seq<Row>)
    ensures data == Rows(files)
  {
    data := [];
    for idx := 0 to |files|
      invariant data == Rows(files[..idx])
    {
      assert files[..idx + 1][..idx] == files[..idx];
      var f := files[idx];
      var fileName := Basename(f.key);
      ShownIffNamed(f);
      if fileName == [] {
        continue;
      }
      data := data + [Row(idx, fileName, f.size, f.lastModified, f.key)];
    }
    assert files[..|files|] == files;
  }

  /** Every listed file with a non-empty last segment gets a row at its own position. */
  lemma {:induction false} RowsComplete(files: seq<S3Service.FileInfo>, i: nat)
    requires i < |files| && Shown(files[i])
    ensures exists k :: 0 <= k < |Rows(files)| && Rows(files)[k].index == i
  {
    var n := |files| - 1;
    var rows := Rows(files);
    if i == n {
      assert rows[|rows| - 1].index == i;
    } else {
      assert files[..n][i] == files[i];
      RowsComplete(files[..n], i);
      var k :| 0 <= k < |Rows(files[..n])| && Rows(files[..n])[k].index == i;
      assert rows[k] == Rows(files[..n])[k];
    }
  }

  /** A row is drawn exactly when some listed file has a non-empty last segment. */
  lemma {:induction false} RowsEmptyIffNoneShown(files: seq<S3Service.FileInfo>)
    ensures Rows(files) == [] <==> forall i :: 0 <= i < |files| ==> !Shown(files[i])
  {
    if files != [] {
      var n := |files| - 1;
      RowsEmptyIffNoneShown(files[..n]);
      assert forall i :: 0 <= i < n ==> files[..n][i] == files[i];
    }
  }

  /**
   * The key the Delete button passes is the full key of the listed object,
   * and the row's displayed name is that key's last segment.
   */
  lemma DeleteTargetsListedKey(files: seq<S3Service.FileInfo>, k: nat)
    requires k < |Rows(files)|
    ensures Rows(files)[k].index < |files|
    ensures DeleteKey(Rows(files)[k]) == files[Rows(files)[k].index].key
    ensures Basename(DeleteKey(Rows(files)[k])) == Rows(files)[k].key
  {
    RowsSound(files);
    assert RowOf(files, Rows(files)[k]);
  }

  /** `row['Actions']`, the argument of `s3_service.delete_file`. */
  function DeleteKey(row: Row): string
  {
    row.actions
  }

  /** What a listing shows: the notice, the table, or nothing when every row was skipped. */
  datatype ListingView = NoFilesNotice | Table(rows: seq<Row>) | NoTable

  function View(files: seq<S3Service.FileInfo>): (v: ListingView)
    ensures v == NoFilesNotice <==> files == []
    ensures v.Table? <==> exists i :: 0 <= i < |files| && Shown(files[i])
    ensures v.Table? ==> v.rows == Rows(files) && v.rows != []
  {
    RowsEmptyIffNoneShown(files);
    if files == [] then NoFilesNotice
    else if Rows(files) == [] then NoTable
    else Table(Rows(files))
  }

  const NoFilesText := "No files uploaded yet."

  /**
   * The notice after a Delete click: the page names the row's file, not the
   * full key, and appends the service's error text on failure.
   */
  function DeleteNotice(row: Row, outcome: SdkOutcome): (n: Notice)
    ensures n.Success? <==> outcome.SdkOk?
    ensures n.Success? ==> n.text == "Successfully deleted " + row.key
    ensures n.Error? ==> n.text == "Failed to delete " + row.key + ": " + outcome.ErrorText()
  {
    var (ok, message, _) := S3Service.DeleteFile(S3Service.DefaultConfig, DeleteKey(row), outcome);
    if ok then Success("Successfully deleted " + row.key)
    else Error("Failed to delete " + row.key + ": " + message)
  }
}
