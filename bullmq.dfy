/** The narrow view of Redis and BullMQ the explorer relies on: queue handles,
    the ids a range query returns, job snapshots and the outcome of a call
    that may throw. What the library does internally is not modelled. */
module Bullmq {
  import opened Wrappers
  import opened Json
  import ViewState

  /** A `Queue` handle, identified by its name, key prefix and the name of
      the connection it was created on. */
  datatype Queue = Queue(name: string, prefix: string, connection: string)

  /** One element of a range query's result: the code keeps only strings. */
  datatype RawId = StrId(s: string) | OtherId

  /** The outcome of `queue.getRanges([status], 0, -1)`. */
  datatype Fetch = Fetched(ids: seq<RawId>) | FetchFailed(message: string)

  /** The backend as the tree sees it: what a range query returns for each
      queue and status. */
  type Backend = (Queue, ViewState.JobStatus) -> Fetch

  /** The outcome of a backend call: its value, or the message of the error
      it throws. */
  datatype Call<+T> = Returns(value: T) | Throws(message: string)

  /** The fields of a job the explorer shows and edits. */
  datatype Job = Job(
    id: Option<string>,
    name: string,
    data: Json,
    opts: Json,
    progress: Json,
    delay: int,
    priority: int,
    attemptsMade: int,
    timestamp: int,
    processedOn: Option<int>,
    finishedOn: Option<int>,
    failedReason: Option<string>,
    stacktrace: seq<string>,
    returnvalue: Option<Json>)

  /** One update call on a job: `updateData` (whose argument may be
      `undefined`, here `None`), `updateProgress`, `changeDelay`,
      `changePriority`. */
  datatype JobEdit =
    | UpdateData(data: Option<Json>)
    | UpdateProgress(progress: Json)
    | ChangeDelay(delay: Json)
    | ChangePriority(priority: Json)
}
