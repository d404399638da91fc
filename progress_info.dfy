/** A point-in-time progress event (ProgressInfo). Percentages are exact
    rationals instead of doubles. */
module ProgressInfos {
  import opened Util

  datatype ProgressInfo = ProgressInfo(
    operationId: string,
    currentIndex: Option<string>,
    totalIndices: int,
    completedIndices: int,
    totalDocuments: int,
    processedDocuments: int,
    status: string,
    message: string,
    percentage: real,
    bytesProcessed: int,
    totalBytes: int,
    elapsedTimeMs: int,
    estimatedRemainingMs: int)

  /** `ProgressInfo.builder().operationId(id).status(s).message(m).build()`:
      every field the builder is not given keeps its Java default. */
  function Event(operationId: string, status: string, message: string): (p: ProgressInfo)
    ensures p.operationId == operationId && p.status == status && p.message == message
    ensures p.currentIndex.None? && p.percentage == 0.0
    ensures p.totalIndices == 0 && p.completedIndices == 0
    ensures p.totalDocuments == 0 && p.processedDocuments == 0
    ensures p.bytesProcessed == 0 && p.totalBytes == 0
    ensures p.elapsedTimeMs == 0 && p.estimatedRemainingMs == 0
  {
    ProgressInfo(operationId, None, 0, 0, 0, 0, status, message, 0.0, 0, 0, 0, 0)
  }

  /** `ProgressInfo.of(id, status, message, percentage)`: the four arguments
      are stored as given (the percentage is not clamped) and every other
      field keeps its default. */
  function Of(operationId: string, status: string, message: string, percentage: real): (p: ProgressInfo)
    ensures p.operationId == operationId
    ensures p.status == status && p.message == message
    ensures p.percentage == percentage
    ensures p.currentIndex.None?
    ensures p.totalIndices == 0 && p.completedIndices == 0
    ensures p.totalDocuments == 0 && p.processedDocuments == 0
    ensures p.bytesProcessed == 0 && p.totalBytes == 0
    ensures p.elapsedTimeMs == 0 && p.estimatedRemainingMs == 0
  {
    Event(operationId, status, message).(percentage := percentage)
  }
}
