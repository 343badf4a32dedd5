/**
 * The Streamlit "Training Data Manager" page: the batch input check and the
 * existing-files table with its Delete buttons.
 */
module TrainingDataManager {
  import opened FileTable

  const BatchProcessedText := "Batch data processed successfully!"
  const BatchMissingText := "Please enter some data to process"

  /**
   * "Process Batch": any non-empty text area counts as data (Python truthiness,
   * so whitespace alone is accepted); an empty one is an error.
   */
  function ProcessBatch(batchInput: string): (n: Notice)
    ensures n.Success? <==> |batchInput| > 0
    ensures n.Success? ==> n.text == BatchProcessedText
    ensures !n.Success? ==> n == Error(BatchMissingText)
  {
    if batchInput != [] then Success(BatchProcessedText) else Error(BatchMissingText)
  }
}
