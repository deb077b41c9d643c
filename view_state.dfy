/** The explorer's global view state: the job statuses it knows, the filter
    and the sort the user chose. */
module ViewState {
  import opened Wrappers

  /** A BullMQ job state. */
  datatype JobStatus = Waiting | Active | Completed | Failed | Delayed | Prioritized | WaitingChildren
  {
    /** The state's name as BullMQ spells it. */
    function Name(): string {
      match this
      case Waiting => "waiting"
      case Active => "active"
      case Completed => "completed"
      case Failed => "failed"
      case Delayed => "delayed"
      case Prioritized => "prioritized"
      case WaitingChildren => "waiting-children"
    }
  }

  /** The statuses the tree asks the backend about, in display order. */
  const AllStatuses: seq<JobStatus> :=
    [Waiting, Active, Completed, Failed, Delayed, Prioritized, WaitingChildren]

  /** Every status is listed exactly once, and the names tell them apart. */
  lemma AllStatusesEnumerates()
    ensures forall s: JobStatus :: s in AllStatuses
    ensures forall i, j :: 0 <= i < j < |AllStatuses| ==> AllStatuses[i] != AllStatuses[j]
    ensures forall s: JobStatus, t: JobStatus :: s.Name() == t.Name() ==> s == t
  {
    forall s: JobStatus ensures s in AllStatuses {
      match s
      case Waiting => assert AllStatuses[0] == s;
      case Active => assert AllStatuses[1] == s;
      case Completed => assert AllStatuses[2] == s;
      case Failed => assert AllStatuses[3] == s;
      case Delayed => assert AllStatuses[4] == s;
      case Prioritized => assert AllStatuses[5] == s;
      case WaitingChildren => assert AllStatuses[6] == s;
    }
  }

  /** The user's filter; every field is optional. */
  datatype FilterState = FilterState(
    connectionName: Option<string>,
    queueName: Option<string>,
    queueNamePattern: Option<string>,
    jobIdPattern: Option<string>)

  /** The filter `{}`. */
  const EmptyFilter := FilterState(None, None, None, None)

  /** A JavaScript optional string in a boolean context. */
  predicate NonEmpty(o: Option<string>) {
    o.Some? && o.value != ""
  }

  datatype QueueSortOrder = JobCountAsc | JobCountDesc | NoQueueSort
  datatype JobSortOrder = IdAsc | IdDesc | NoJobSort

  datatype SortState = SortState(queueSort: QueueSortOrder, jobSort: JobSortOrder)

  /** The mutable global `state` (the connection map it also holds is unused
      by the explorer and not modelled). */
  class State {
    var filter: Option<FilterState>
    var sort: Option<SortState>

    constructor()
      ensures filter == None && sort == None
    {
      filter := None;
      sort := None;
    }
  }
}
