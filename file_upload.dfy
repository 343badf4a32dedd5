/**
 * The Streamlit "File Upload" component: it uploads the chosen file under the
 * storage prefix and reports the service's answer, then draws the shared
 * listing table.
 */
module FileUpload {
  import opened Common
  import S3Service
  import opened FileTable

  /**
   * The notice shown after an upload: the service's success message, which
   * names the file, or its error text.
   */
  function UploadNotice(filename: string, outcome: SdkOutcome): (n: Notice)
    ensures n.Success? <==> outcome.SdkOk?
    ensures n.Success? ==> n.text == "Successfully uploaded " + filename
    ensures !n.Success? ==> n == Error(outcome.ErrorText())
  {
    var (success, message, _) := S3Service.UploadFile(S3Service.DefaultConfig, filename, outcome);
    if success then Success(message) else Error(message)
  }

  /**
   * One render: an upload notice only when a file was chosen, and the listing
   * view of what the service lists afterwards.
   */
  function Render(chosen: Option<(string, SdkOutcome)>, listing: S3Service.ListResponse)
    : (r: (Option<Notice>, ListingView))
    ensures r.0.Some? <==> chosen.Some?
    ensures chosen.Some? ==> r.0 == Some(UploadNotice(chosen.value.0, chosen.value.1))
    ensures r.1 == NoFilesNotice <==> S3Service.ListFiles(S3Service.DefaultConfig, listing) == []
    ensures r.1 == View(S3Service.ListFiles(S3Service.DefaultConfig, listing))
  {
    var notice := match chosen
      case None => None
      case Some((filename, outcome)) => Some(UploadNotice(filename, outcome));
    (notice, View(S3Service.ListFiles(S3Service.DefaultConfig, listing)))
  }
}
