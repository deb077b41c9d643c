/** The explorer's tree (`BullMQTreeDataProvider`): four levels, connection →
    queue → status bucket → job, each filtered by the global filter, counted
    and sorted by the global sort. The backend is read through `Backend`. */
module Tree {
  import opened Wrappers
  import opened Strings
  import opened ViewState
  import opened Sequences
  import opened Bullmq
  import opened Connection
  import opened Registry
  import opened Nodes

  // ---------------------------------------------------------------------
  // The job-id filter and the counts
  // ---------------------------------------------------------------------

  /** An id passes the job-id pattern: it is a string containing it. */
  predicate MatchesPattern(id: RawId, pattern: string) {
    id.StrId? && Includes(id.s, pattern)
  }

  function Matching(pattern: string): RawId -> bool {
    (id: RawId) => MatchesPattern(id, pattern)
  }

  /** The job-id pattern of the filter, if any. */
  function JobIdPattern(filter: Option<FilterState>): Option<string> {
    if filter.Some? then filter.value.jobIdPattern else None
  }

  /** The ids kept for a status: those matching a non-empty pattern, else
      all of them. */
  function FilteredIds(ids: seq<RawId>, pattern: Option<string>): (r: seq<RawId>)
    ensures NonEmpty(pattern) ==> forall id :: id in r <==> id in ids && MatchesPattern(id, pattern.value)
    ensures !NonEmpty(pattern) ==> r == ids
  {
    if NonEmpty(pattern) then Keep(ids, Matching(pattern.value)) else ids
  }

  /** The number a status contributes to its queue's count: a failed fetch
      contributes nothing. */
  function StatusCount(fetch: Fetch, pattern: Option<string>): nat {
    match fetch
    case Fetched(ids) => |FilteredIds(ids, pattern)|
    case FetchFailed(_) => 0
  }

  /** The sum of the counts of the given statuses. */
  function SumCounts(q: Queue, statuses: seq<JobStatus>, pattern: Option<string>, backend: Backend): nat
    decreases |statuses|
  {
    if statuses == [] then 0
    else
      SumCounts(q, statuses[..|statuses| - 1], pattern, backend)
      + StatusCount(backend(q, statuses[|statuses| - 1]), pattern)
  }

  /** The job count a queue node shows. */
  function TotalJobCount(q: Queue, pattern: Option<string>, backend: Backend): nat {
    SumCounts(q, AllStatuses, pattern, backend)
  }

  /** `getTotalJobCount`: one count per status, then their sum. */
  method GetTotalJobCount(q: Queue, pattern: Option<string>, backend: Backend) returns (total: nat)
    ensures total == TotalJobCount(q, pattern, backend)
  {
    var statusCounts := seq(|AllStatuses|, i requires 0 <= i < |AllStatuses| =>
      StatusCount(backend(q, AllStatuses[i]), pattern));
    total := 0;
    for i := 0 to |statusCounts|
      invariant total == SumCounts(q, AllStatuses[..i], pattern, backend)
    {
      assert AllStatuses[..i + 1][..i] == AllStatuses[..i];
      assert statusCounts[i] == StatusCount(backend(q, AllStatuses[i]), pattern);
      total := total + statusCounts[i];
    }
    assert AllStatuses[..|AllStatuses|] == AllStatuses;
  }

  /** A status has a job whose id matches the pattern. */
  predicate StatusHasMatch(fetch: Fetch, pattern: string) {
    fetch.Fetched? && exists id :: id in fetch.ids && MatchesPattern(id, pattern)
  }

  /** Some status of the queue has a job whose id matches the pattern. */
  predicate HasMatchingJobs(q: Queue, pattern: string, backend: Backend) {
    exists i :: 0 <= i < |AllStatuses| && StatusHasMatch(backend(q, AllStatuses[i]), pattern)
  }

  /** `queueHasMatchingJobs`: probe the statuses in order, skip a failed one,
      stop at the first with a matching id. `probed` is the number of
      statuses asked. */
  method QueueHasMatchingJobs(q: Queue, pattern: string, backend: Backend) returns (r: bool, ghost probed: nat)
    ensures r == HasMatchingJobs(q, pattern, backend)
    ensures r ==>
      && 1 <= probed <= |AllStatuses|
      && StatusHasMatch(backend(q, AllStatuses[probed - 1]), pattern)
      && forall i :: 0 <= i < probed - 1 ==> !StatusHasMatch(backend(q, AllStatuses[i]), pattern)
    ensures !r ==> probed == |AllStatuses|
  {
    for i := 0 to |AllStatuses|
      invariant forall j :: 0 <= j < i ==> !StatusHasMatch(backend(q, AllStatuses[j]), pattern)
    {
      var fetch := backend(q, AllStatuses[i]);
      if fetch.FetchFailed? {
        continue;
      }
      var matchingIds := Keep(fetch.ids, Matching(pattern));
      if |matchingIds| > 0 {
        assert matchingIds[0] in matchingIds;
        return true, i + 1;
      }
      assert !StatusHasMatch(fetch, pattern);
    }
    return false, |AllStatuses|;
  }

  /** With a non-empty pattern a queue counts jobs exactly when it has a
      matching one. */
  lemma {:induction false} CountPositiveIffMatching(q: Queue, pattern: string, backend: Backend)
    requires pattern != ""
    ensures TotalJobCount(q, Some(pattern), backend) > 0 <==> HasMatchingJobs(q, pattern, backend)
  {
    SumCountsPositive(q, AllStatuses, pattern, backend);
    if HasMatchingJobs(q, pattern, backend) {
      var i :| 0 <= i < |AllStatuses| && StatusHasMatch(backend(q, AllStatuses[i]), pattern);
      assert AllStatuses[i] in AllStatuses;
    } else {
      forall s | s in AllStatuses ensures !StatusHasMatch(backend(q, s), pattern) {
        var i :| 0 <= i < |AllStatuses| && AllStatuses[i] == s;
      }
    }
  }

  lemma {:induction false} SumCountsPositive(q: Queue, statuses: seq<JobStatus>, pattern: string, backend: Backend)
    requires pattern != ""
    ensures SumCounts(q, statuses, Some(pattern), backend) > 0 <==>
      exists s :: s in statuses && StatusHasMatch(backend(q, s), pattern)
    decreases |statuses|
  {
    if statuses != [] {
      var init := statuses[..|statuses| - 1];
      var last := statuses[|statuses| - 1];
      SumCountsPositive(q, init, pattern, backend);
      assert statuses == init + [last];
      var fetch := backend(q, last);
      if fetch.Fetched? {
        var kept := FilteredIds(fetch.ids, Some(pattern));
        if StatusHasMatch(fetch, pattern) {
          var id :| id in fetch.ids && MatchesPattern(id, pattern);
          assert id in kept;
        } else if |kept| > 0 {
          assert kept[0] in kept;
        }
      }
    }
  }

  // ---------------------------------------------------------------------
  // The queue filter chain
  // ---------------------------------------------------------------------

  /** `queues.find(q => q.name === name)`. */
  function FirstNamed(queues: seq<Queue>, name: string): (r: Option<Queue>)
    ensures r.Some? ==> r.value in queues && r.value.name == name
    ensures r.None? ==> forall q :: q in queues ==> q.name != name
    decreases |queues|
  {
    if queues == [] then None
    else
      var init := queues[..|queues| - 1];
      var last := queues[|queues| - 1];
      assert queues == init + [last];
      match FirstNamed(init, name)
      case Some(q) => Some(q)
      case None => if last.name == name then Some(last) else None
  }

  function NameIs(name: string): Queue -> bool {
    (q: Queue) => q.name == name
  }

  function NameContains(pattern: string): Queue -> bool {
    (q: Queue) => Includes(q.name, pattern)
  }

  function HasJobsMatching(pattern: string, backend: Backend): Queue -> bool {
    (q: Queue) => HasMatchingJobs(q, pattern, backend)
  }

  /** The exact-name step: the first queue with that name, or nothing. */
  function ExactStep(queues: seq<Queue>, name: Option<string>): seq<Queue> {
    if name.None? then queues
    else
      match FirstNamed(queues, name.value)
      case Some(q) => [q]
      case None => []
  }

  /** The name-pattern step, only for a non-empty pattern. */
  function PatternStep(queues: seq<Queue>, pattern: Option<string>): seq<Queue> {
    if NonEmpty(pattern) then Keep(queues, NameContains(pattern.value)) else queues
  }

  /** The job-id step, only for a non-empty pattern. */
  function JobIdStep(queues: seq<Queue>, pattern: Option<string>, backend: Backend): seq<Queue> {
    if NonEmpty(pattern) then Keep(queues, HasJobsMatching(pattern.value, backend)) else queues
  }

  /** The queues of a connection that the filter lets through, in order. */
  function FilteredQueues(queues: seq<Queue>, filter: Option<FilterState>, backend: Backend): seq<Queue> {
    if filter.None? then queues
    else
      var f := filter.value;
      JobIdStep(PatternStep(ExactStep(queues, f.queueName), f.queueNamePattern), f.jobIdPattern, backend)
  }

  /** The job-id step as the source runs it: probe each queue in turn. */
  method FilterQueuesByJobId(queues: seq<Queue>, pattern: string, backend: Backend) returns (filtered: seq<Queue>)
    ensures filtered == Keep(queues, HasJobsMatching(pattern, backend))
  {
    filtered := [];
    for i := 0 to |queues|
      invariant filtered == Keep(queues[..i], HasJobsMatching(pattern, backend))
    {
      var hasMatchingJobs, _ := QueueHasMatchingJobs(queues[i], pattern, backend);
      KeepPrefix(queues, i, HasJobsMatching(pattern, backend));
      if hasMatchingJobs {
        filtered := filtered + [queues[i]];
      }
    }
    assert queues[..|queues|] == queues;
  }

  /** The filter chain shared by the connection and queue levels. */
  method FilterQueues(queues: seq<Queue>, filter: Option<FilterState>, backend: Backend) returns (r: seq<Queue>)
    ensures r == FilteredQueues(queues, filter, backend)
  {
    r := queues;
    if filter.None? {
      return;
    }
    var f := filter.value;
    if f.queueName.Some? {
      var found := FirstNamed(r, f.queueName.value);
      r := if found.Some? then [found.value] else [];
    }
    if NonEmpty(f.queueNamePattern) {
      r := Keep(r, NameContains(f.queueNamePattern.value));
    }
    if NonEmpty(f.jobIdPattern) {
      r := FilterQueuesByJobId(r, f.jobIdPattern.value, backend);
    }
  }

  predicate DistinctNames(queues: seq<Queue>) {
    forall i, j :: 0 <= i < j < |queues| ==> queues[i].name != queues[j].name
  }

  /** Among queues with distinct names, `find` keeps what `filter` keeps. */
  lemma {:induction false} ExactStepIsKeep(queues: seq<Queue>, name: string)
    requires DistinctNames(queues)
    ensures ExactStep(queues, Some(name)) == Keep(queues, NameIs(name))
    decreases |queues|
  {
    if queues != [] {
      var init := queues[..|queues| - 1];
      var last := queues[|queues| - 1];
      assert queues == init + [last];
      ExactStepIsKeep(init, name);
      KeepAppend(init, last, NameIs(name));
      match FirstNamed(init, name)
      case Some(q) =>
        var k :| 0 <= k < |init| && init[k] == q;
        assert queues[k] == q && queues[|queues| - 1] == last;
      case None =>
    }
  }

  /** A queue passes the filter. */
  predicate Admits(f: FilterState, backend: Backend, q: Queue) {
    (f.queueName.None? || q.name == f.queueName.value)
    && (!NonEmpty(f.queueNamePattern) || Includes(q.name, f.queueNamePattern.value))
    && (!NonEmpty(f.jobIdPattern) || HasMatchingJobs(q, f.jobIdPattern.value, backend))
  }

  function Admitted(f: FilterState, backend: Backend): Queue -> bool {
    (q: Queue) => Admits(f, backend, q)
  }

  function AdmittedByName(f: FilterState): Queue -> bool {
    (q: Queue) => (f.queueName.None? || q.name == f.queueName.value)
      && (!NonEmpty(f.queueNamePattern) || Includes(q.name, f.queueNamePattern.value))
  }

  function AdmittedByExactName(f: FilterState): Queue -> bool {
    (q: Queue) => f.queueName.None? || q.name == f.queueName.value
  }

  /** Over a connection's queues (distinct names) the three-step chain is
      one filter by the conjunction of the three conditions: the result is
      the subsequence of admitted queues. */
  lemma FilteredQueuesAdmit(queues: seq<Queue>, f: FilterState, backend: Backend)
    requires DistinctNames(queues)
    ensures FilteredQueues(queues, Some(f), backend) == Keep(queues, Admitted(f, backend))
  {
    var a := ExactStep(queues, f.queueName);
    if f.queueName.Some? {
      ExactStepIsKeep(queues, f.queueName.value);
    }
    assert a == Keep(queues, AdmittedByExactName(f)) by {
      if f.queueName.Some? {
        assert forall x :: NameIs(f.queueName.value)(x) == AdmittedByExactName(f)(x);
        KeepSame(queues, NameIs(f.queueName.value), AdmittedByExactName(f));
      } else {
        KeepAll(queues, AdmittedByExactName(f));
      }
    }
    var b := PatternStep(a, f.queueNamePattern);
    assert b == Keep(queues, AdmittedByName(f)) by {
      if NonEmpty(f.queueNamePattern) {
        KeepKeep(queues, AdmittedByExactName(f), NameContains(f.queueNamePattern.value), AdmittedByName(f));
      } else {
        KeepSame(queues, AdmittedByExactName(f), AdmittedByName(f));
      }
    }
    if NonEmpty(f.jobIdPattern) {
      KeepKeep(queues, AdmittedByName(f), HasJobsMatching(f.jobIdPattern.value, backend), Admitted(f, backend));
    } else {
      KeepSame(queues, AdmittedByName(f), Admitted(f, backend));
    }
  }

  // ---------------------------------------------------------------------
  // Queue nodes and their order
  // ---------------------------------------------------------------------

  /** The count a queue node carries (0 for any other node). */
  function CountOf(n: Node): int {
    if n.QueueNode? then n.totalJobCount else 0
  }

  /** The comparator `getQueues` sorts with. */
  function QueueComparator(order: QueueSortOrder): (Node, Node) -> int {
    (a: Node, b: Node) =>
      if order == JobCountAsc then CountOf(a) - CountOf(b)
      else if order == JobCountDesc then CountOf(b) - CountOf(a)
      else 0
  }

  /** The key whose difference the comparator takes. */
  function QueueSortKey(order: QueueSortOrder): Node -> int {
    (n: Node) => if order == JobCountAsc then CountOf(n) else -CountOf(n)
  }

  predicate SortsQueues(sort: Option<SortState>) {
    sort.Some? && sort.value.queueSort != NoQueueSort
  }

  /** One node per queue, with the queue's total job count. */
  function QueueNodesOf(queues: seq<Queue>, c: ConnectionView, pattern: Option<string>, backend: Backend): (r: seq<Node>)
    ensures |r| == |queues|
    ensures forall i :: 0 <= i < |queues| ==> r[i] == QueueNode(queues[i], c, TotalJobCount(queues[i], pattern, backend))
  {
    seq(|queues|, i requires 0 <= i < |queues| => QueueNode(queues[i], c, TotalJobCount(queues[i], pattern, backend)))
  }

  /** The children of a connection node. */
  function QueueChildren(c: ConnectionView, filter: Option<FilterState>, sort: Option<SortState>, backend: Backend): seq<Node> {
    var nodes := QueueNodesOf(FilteredQueues(c.queues, filter, backend), c, JobIdPattern(filter), backend);
    if SortsQueues(sort) then InsertionSort(nodes, QueueComparator(sort.value.queueSort)) else nodes
  }

  /** `getQueues`. */
  method GetQueues(c: ConnectionView, filter: Option<FilterState>, sort: Option<SortState>, backend: Backend)
    returns (queueNodes: seq<Node>)
    ensures queueNodes == QueueChildren(c, filter, sort, backend)
  {
    var queues := FilterQueues(c.queues, filter, backend);
    queueNodes := [];
    for i := 0 to |queues|
      invariant queueNodes == QueueNodesOf(queues[..i], c, JobIdPattern(filter), backend)
    {
      var totalJobCount := GetTotalJobCount(queues[i], JobIdPattern(filter), backend);
      queueNodes := queueNodes + [QueueNode(queues[i], c, totalJobCount)];
    }
    assert queues[..|queues|] == queues;
    if SortsQueues(sort) {
      queueNodes := InsertionSort(queueNodes, QueueComparator(sort.value.queueSort));
    }
  }

  /** The queue level: a permutation of the filtered queues' nodes; by
      ascending count non-decreasing, by descending count non-increasing,
      queues with equal counts in their earlier order; unsorted, the
      connection's order. */
  lemma QueueChildrenSpec(c: ConnectionView, filter: Option<FilterState>, sort: Option<SortState>, backend: Backend, k: int)
    ensures var nodes := QueueNodesOf(FilteredQueues(c.queues, filter, backend), c, JobIdPattern(filter), backend);
      var r := QueueChildren(c, filter, sort, backend);
      && multiset(r) == multiset(nodes)
      && (!SortsQueues(sort) ==> r == nodes)
      && (SortsQueues(sort) && sort.value.queueSort == JobCountAsc ==>
            forall i, j :: 0 <= i < j < |r| ==> CountOf(r[i]) <= CountOf(r[j]))
      && (SortsQueues(sort) && sort.value.queueSort == JobCountDesc ==>
            forall i, j :: 0 <= i < j < |r| ==> CountOf(r[i]) >= CountOf(r[j]))
      && (SortsQueues(sort) ==>
            WithKey(r, QueueSortKey(sort.value.queueSort), k) == WithKey(nodes, QueueSortKey(sort.value.queueSort), k))
  {
    var nodes := QueueNodesOf(FilteredQueues(c.queues, filter, backend), c, JobIdPattern(filter), backend);
    if SortsQueues(sort) {
      var order := sort.value.queueSort;
      var cmp := QueueComparator(order);
      var key := QueueSortKey(order);
      assert forall a, b :: cmp(a, b) == key(a) - key(b);
      KeyDifferenceIsPreorder(nodes, cmp, key);
      InsertionSortSorted(nodes, cmp);
      SortedByKey(InsertionSort(nodes, cmp), cmp, key);
      InsertionSortStable(nodes, cmp, key, k);
    }
  }

  // ---------------------------------------------------------------------
  // Status buckets
  // ---------------------------------------------------------------------

  /** The bucket node of one status, if its fetch succeeded with a positive
      count. */
  function Bucket(q: Queue, connectionName: string, s: JobStatus, pattern: Option<string>, backend: Backend): (r: seq<Node>)
    ensures |r| <= 1
    ensures r != [] <==> backend(q, s).Fetched? && StatusCount(backend(q, s), pattern) > 0
    ensures r != [] ==> r[0] == JobStatusNode(s, q, StatusCount(backend(q, s), pattern), Some(connectionName))
  {
    var count := StatusCount(backend(q, s), pattern);
    if backend(q, s).Fetched? && count > 0 then [JobStatusNode(s, q, count, Some(connectionName))] else []
  }

  /** The bucket nodes of the given statuses, in their order. */
  function Buckets(q: Queue, connectionName: string, statuses: seq<JobStatus>, pattern: Option<string>, backend: Backend): seq<Node>
    decreases |statuses|
  {
    if statuses == [] then []
    else
      Buckets(q, connectionName, statuses[..|statuses| - 1], pattern, backend)
      + Bucket(q, connectionName, statuses[|statuses| - 1], pattern, backend)
  }

  lemma BucketsStep(q: Queue, connectionName: string, n: nat, pattern: Option<string>, backend: Backend)
    requires 0 < n <= |AllStatuses|
    ensures Buckets(q, connectionName, AllStatuses[..n], pattern, backend)
      == Buckets(q, connectionName, AllStatuses[..n - 1], pattern, backend)
         + Bucket(q, connectionName, AllStatuses[n - 1], pattern, backend)
  {
    assert AllStatuses[..n][..n - 1] == AllStatuses[..n - 1];
  }

  /** The children of a queue node. */
  function JobStatusChildren(q: Queue, connectionName: string, pattern: Option<string>, backend: Backend): seq<Node> {
    Buckets(q, connectionName, AllStatuses, pattern, backend)
  }

  /** What one settled status check reports. */
  datatype StatusCheck = StatusCheck(status: JobStatus, jobCount: nat, hasJobs: bool)

  function CheckStatus(q: Queue, s: JobStatus, pattern: Option<string>, backend: Backend): StatusCheck {
    match backend(q, s)
    case Fetched(ids) =>
      var jobCount := |FilteredIds(ids, pattern)|;
      StatusCheck(s, jobCount, jobCount > 0)
    case FetchFailed(_) => StatusCheck(s, 0, false)
  }

  /** A status check that found jobs gives that status's node. */
  lemma CheckedBucket(q: Queue, connectionName: string, s: JobStatus, pattern: Option<string>, backend: Backend)
    ensures var c := CheckStatus(q, s, pattern, backend);
      Bucket(q, connectionName, s, pattern, backend) ==
        if c.hasJobs then [JobStatusNode(c.status, q, c.jobCount, Some(connectionName))] else []
  {
  }

  /** `getJobStatuses`: one check per status, then a node for each check
      that found jobs. */
  method GetJobStatuses(q: Queue, connectionName: string, pattern: Option<string>, backend: Backend)
    returns (nodes: seq<Node>)
    ensures nodes == JobStatusChildren(q, connectionName, pattern, backend)
  {
    var statusChecks := seq(|AllStatuses|, i requires 0 <= i < |AllStatuses| =>
      CheckStatus(q, AllStatuses[i], pattern, backend));
    nodes := [];
    for i := 0 to |statusChecks|
      invariant nodes == Buckets(q, connectionName, AllStatuses[..i], pattern, backend)
    {
      BucketsStep(q, connectionName, i + 1, pattern, backend);
      CheckedBucket(q, connectionName, AllStatuses[i], pattern, backend);
      var result := statusChecks[i];
      if result.hasJobs {
        nodes := nodes + [JobStatusNode(result.status, q, result.jobCount, Some(connectionName))];
      }
    }
    assert AllStatuses[..|AllStatuses|] == AllStatuses;
  }

  function SumJobCounts(nodes: seq<Node>): int
    decreases |nodes|
  {
    if nodes == [] then 0
    else SumJobCounts(nodes[..|nodes| - 1]) + (if nodes[|nodes| - 1].JobStatusNode? then nodes[|nodes| - 1].jobCount else 0)
  }

  lemma {:induction false} SumJobCountsAppend(nodes: seq<Node>, more: seq<Node>)
    ensures SumJobCounts(nodes + more) == SumJobCounts(nodes) + SumJobCounts(more)
    decreases |more|
  {
    if more != [] {
      var init := more[..|more| - 1];
      assert nodes + more == (nodes + init) + [more[|more| - 1]];
      assert (nodes + more)[..|nodes + more| - 1] == nodes + init;
      SumJobCountsAppend(nodes, init);
    } else {
      assert nodes + more == nodes;
    }
  }

  /** The buckets' counts add up to the queue's total. */
  lemma {:induction false} BucketsSumToTotal(q: Queue, connectionName: string, statuses: seq<JobStatus>, pattern: Option<string>, backend: Backend)
    ensures SumJobCounts(Buckets(q, connectionName, statuses, pattern, backend)) == SumCounts(q, statuses, pattern, backend)
    decreases |statuses|
  {
    if statuses != [] {
      var init := statuses[..|statuses| - 1];
      var s := statuses[|statuses| - 1];
      var more := Bucket(q, connectionName, s, pattern, backend);
      BucketsSumToTotal(q, connectionName, init, pattern, backend);
      SumJobCountsAppend(Buckets(q, connectionName, init, pattern, backend), more);
      if more != [] {
        assert more[..0] == [];
      }
    }
  }

  /** Where a status stands in the display order. */
  function StatusIndex(s: JobStatus): (i: nat)
    ensures i < |AllStatuses| && AllStatuses[i] == s
  {
    match s
    case Waiting => 0
    case Active => 1
    case Completed => 2
    case Failed => 3
    case Delayed => 4
    case Prioritized => 5
    case WaitingChildren => 6
  }

  lemma StatusIndexOf(k: nat)
    requires k < |AllStatuses|
    ensures StatusIndex(AllStatuses[k]) == k
  {
    AllStatusesEnumerates();
    var x := AllStatuses[k];
    assert AllStatuses[StatusIndex(x)] == x;
  }

  /** Each bucket is a bucket of this queue and connection, for a status
      among the first `n`, whose fetch succeeded, carrying that status's
      positive count. */
  lemma {:induction false} BucketsShape(q: Queue, connectionName: string, n: nat, pattern: Option<string>, backend: Backend)
    requires n <= |AllStatuses|
    ensures var r := Buckets(q, connectionName, AllStatuses[..n], pattern, backend);
      forall i :: 0 <= i < |r| ==>
        && r[i].JobStatusNode? && r[i].queue == q && r[i].connectionName == Some(connectionName)
        && StatusIndex(r[i].status) < n
        && backend(q, r[i].status).Fetched?
        && r[i].jobCount == StatusCount(backend(q, r[i].status), pattern) > 0
    decreases n
  {
    if n > 0 {
      BucketsShape(q, connectionName, n - 1, pattern, backend);
      BucketsStep(q, connectionName, n, pattern, backend);
      StatusIndexOf(n - 1);
      var prev := Buckets(q, connectionName, AllStatuses[..n - 1], pattern, backend);
      var b := Bucket(q, connectionName, AllStatuses[n - 1], pattern, backend);
      var r := prev + b;
      forall i | 0 <= i < |r|
        ensures && r[i].JobStatusNode? && r[i].queue == q && r[i].connectionName == Some(connectionName)
          && StatusIndex(r[i].status) < n
          && backend(q, r[i].status).Fetched?
          && r[i].jobCount == StatusCount(backend(q, r[i].status), pattern) > 0
      {
        if i < |prev| {
          assert r[i] == prev[i];
        } else {
          assert r[i] == b[0];
        }
      }
    }
  }

  /** The buckets come in display order. */
  lemma {:induction false} BucketsOrdered(q: Queue, connectionName: string, n: nat, pattern: Option<string>, backend: Backend)
    requires n <= |AllStatuses|
    ensures var r := Buckets(q, connectionName, AllStatuses[..n], pattern, backend);
      forall i, j :: 0 <= i < j < |r| ==>
        r[i].JobStatusNode? && r[j].JobStatusNode? && StatusIndex(r[i].status) < StatusIndex(r[j].status)
    decreases n
  {
    if n > 0 {
      BucketsOrdered(q, connectionName, n - 1, pattern, backend);
      BucketsShape(q, connectionName, n - 1, pattern, backend);
      BucketsStep(q, connectionName, n, pattern, backend);
      StatusIndexOf(n - 1);
      var prev := Buckets(q, connectionName, AllStatuses[..n - 1], pattern, backend);
      var b := Bucket(q, connectionName, AllStatuses[n - 1], pattern, backend);
      var r := prev + b;
      forall i, j | 0 <= i < j < |r|
        ensures r[i].JobStatusNode? && r[j].JobStatusNode? && StatusIndex(r[i].status) < StatusIndex(r[j].status)
      {
        assert r[i] == prev[i];
        if j < |prev| {
          assert r[j] == prev[j];
        } else {
          assert r[j] == b[0];
        }
      }
    }
  }

  /** A status among the first `n` has a bucket exactly when its fetch
      succeeded with a positive count. */
  lemma {:induction false} BucketsCover(q: Queue, connectionName: string, n: nat, pattern: Option<string>, backend: Backend)
    requires n <= |AllStatuses|
    ensures var r := Buckets(q, connectionName, AllStatuses[..n], pattern, backend);
      forall k :: 0 <= k < n ==>
        (backend(q, AllStatuses[k]).Fetched? && StatusCount(backend(q, AllStatuses[k]), pattern) > 0 <==>
         exists i :: 0 <= i < |r| && r[i].JobStatusNode? && r[i].status == AllStatuses[k])
    decreases n
  {
    if n > 0 {
      BucketsCover(q, connectionName, n - 1, pattern, backend);
      BucketsShape(q, connectionName, n - 1, pattern, backend);
      BucketsStep(q, connectionName, n, pattern, backend);
      StatusIndexOf(n - 1);
      var prev := Buckets(q, connectionName, AllStatuses[..n - 1], pattern, backend);
      var b := Bucket(q, connectionName, AllStatuses[n - 1], pattern, backend);
      var r := prev + b;
      forall k | 0 <= k < n
        ensures backend(q, AllStatuses[k]).Fetched? && StatusCount(backend(q, AllStatuses[k]), pattern) > 0 <==>
          exists i :: 0 <= i < |r| && r[i].JobStatusNode? && r[i].status == AllStatuses[k]
      {
        var x := AllStatuses[k];
        StatusIndexOf(k);
        if k < n - 1 {
          CoverEarlier(prev, b, x, n);
        } else {
          CoverLast(prev, b, x, n);
        }
      }
    }
  }

  lemma CoverEarlier(prev: seq<Node>, b: seq<Node>, x: JobStatus, n: nat)
    requires forall i :: 0 <= i < |prev| ==> prev[i].JobStatusNode? && StatusIndex(prev[i].status) < n - 1
    requires forall i :: 0 <= i < |b| ==> b[i].JobStatusNode? && StatusIndex(b[i].status) == n - 1
    requires StatusIndex(x) < n - 1
    ensures (exists i :: 0 <= i < |prev + b| && (prev + b)[i].JobStatusNode? && (prev + b)[i].status == x)
        <==> (exists i :: 0 <= i < |prev| && prev[i].JobStatusNode? && prev[i].status == x)
  {
    var r := prev + b;
    if exists i :: 0 <= i < |r| && r[i].JobStatusNode? && r[i].status == x {
      var i :| 0 <= i < |r| && r[i].JobStatusNode? && r[i].status == x;
      if i < |prev| {
        assert prev[i] == r[i];
      }
    }
    if exists i :: 0 <= i < |prev| && prev[i].JobStatusNode? && prev[i].status == x {
      var i :| 0 <= i < |prev| && prev[i].JobStatusNode? && prev[i].status == x;
      assert r[i] == prev[i];
    }
  }

  lemma CoverLast(prev: seq<Node>, b: seq<Node>, x: JobStatus, n: nat)
    requires forall i :: 0 <= i < |prev| ==> prev[i].JobStatusNode? && StatusIndex(prev[i].status) < n - 1
    requires |b| <= 1 && forall i :: 0 <= i < |b| ==> b[i].JobStatusNode? && b[i].status == x
    requires StatusIndex(x) == n - 1
    ensures (exists i :: 0 <= i < |prev + b| && (prev + b)[i].JobStatusNode? && (prev + b)[i].status == x)
        <==> b != []
  {
    var r := prev + b;
    if b != [] {
      assert r[|prev|] == b[0];
    }
    if exists i :: 0 <= i < |r| && r[i].JobStatusNode? && r[i].status == x {
      var i :| 0 <= i < |r| && r[i].JobStatusNode? && r[i].status == x;
      if i < |prev| {
        assert prev[i] == r[i];
      }
    }
  }

  // ---------------------------------------------------------------------
  // Job lists
  // ---------------------------------------------------------------------

  /** The most job nodes a bucket lists. */
  const JobListCap: nat := 10000

  /** The string ids, in order. */
  function StringIds(ids: seq<RawId>): (r: seq<string>)
    ensures |r| <= |ids|
    ensures forall s :: s in r <==> StrId(s) in ids
    decreases |ids|
  {
    if ids == [] then []
    else
      var init := ids[..|ids| - 1];
      assert ids == init + [ids[|ids| - 1]];
      StringIds(init) + (if ids[|ids| - 1].StrId? then [ids[|ids| - 1].s] else [])
  }

  lemma {:induction false} StringIdsAllStrings(ids: seq<RawId>)
    requires forall i :: 0 <= i < |ids| ==> ids[i].StrId?
    ensures |StringIds(ids)| == |ids|
    decreases |ids|
  {
    if ids != [] {
      StringIdsAllStrings(ids[..|ids| - 1]);
    }
  }

  /** The comparator `getJobs` sorts ids with: by value when both ids are
      numbers, otherwise as strings. */
  function IdComparator(order: JobSortOrder): (string, string) -> int {
    (a: string, b: string) =>
      if IsNumericId(a) && IsNumericId(b) then
        (if order == IdAsc then NumericValue(a) - NumericValue(b) else NumericValue(b) - NumericValue(a))
      else
        (if order == IdAsc then LexCompare(a, b) else LexCompare(b, a))
  }

  predicate SortsJobs(sort: Option<SortState>) {
    sort.Some? && sort.value.jobSort != NoJobSort
  }

  function Min(a: nat, b: nat): nat {
    if a <= b then a else b
  }

  /** The ids a bucket lists: filtered, capped, strings only, sorted. A failed
      fetch is an error. */
  function JobIds(fetch: Fetch, pattern: Option<string>, sort: Option<SortState>): (r: Result<seq<string>, string>)
    ensures fetch.FetchFailed? <==> r.Err?
    ensures r.Ok? ==> |r.value| <= JobListCap
    ensures r.Ok? ==>
      var filtered := FilteredIds(fetch.ids, pattern);
      multiset(r.value) == multiset(StringIds(filtered[..Min(JobListCap, |filtered|)]))
  {
    match fetch
    case FetchFailed(message) => Err(message)
    case Fetched(ids) =>
      var filtered := FilteredIds(ids, pattern);
      var limited := filtered[..Min(JobListCap, |filtered|)];
      var strs := StringIds(limited);
      Ok(if SortsJobs(sort) then InsertionSort(strs, IdComparator(sort.value.jobSort)) else strs)
  }

  /** The children of a bucket node. */
  function JobChildren(q: Queue, s: JobStatus, filter: Option<FilterState>, sort: Option<SortState>, backend: Backend): Result<seq<Node>, string> {
    match JobIds(backend(q, s), JobIdPattern(filter), sort)
    case Err(m) => Err(m)
    case Ok(ids) => Ok(seq(|ids|, i requires 0 <= i < |ids| => JobNode(ids[i], Some(q), Some(s))))
  }

  /** Numeric ids sort by value: ascending gives non-decreasing values,
      descending non-increasing ones. */
  lemma NumericIdsSortByValue(ids: seq<string>, order: JobSortOrder)
    requires order != NoJobSort
    requires forall i :: 0 <= i < |ids| ==> IsNumericId(ids[i])
    ensures forall i :: 0 <= i < |InsertionSort(ids, IdComparator(order))| ==>
      IsNumericId(InsertionSort(ids, IdComparator(order))[i])
    ensures var r := InsertionSort(ids, IdComparator(order));
      forall i, j :: 0 <= i < j < |r| ==>
        if order == IdAsc then NumericValue(r[i]) <= NumericValue(r[j]) else NumericValue(r[i]) >= NumericValue(r[j])
    ensures multiset(InsertionSort(ids, IdComparator(order))) == multiset(ids)
  {
    var cmp := IdComparator(order);
    assert TotalPreorderOn(ids, cmp);
    InsertionSortSorted(ids, cmp);
    var r := InsertionSort(ids, cmp);
    forall i | 0 <= i < |r| ensures IsNumericId(r[i]) {
      assert r[i] in multiset(ids);
    }
    forall i, j | 0 <= i < j < |r|
      ensures if order == IdAsc then NumericValue(r[i]) <= NumericValue(r[j]) else NumericValue(r[i]) >= NumericValue(r[j])
    {
      assert r[i] in multiset(ids) && r[j] in multiset(ids);
      assert cmp(r[i], r[j]) <= 0;
    }
  }

  /** Ids that are not numbers sort as strings, ascending or descending. */
  lemma TextIdsSortAsStrings(ids: seq<string>, order: JobSortOrder)
    requires order != NoJobSort
    requires forall i :: 0 <= i < |ids| ==> !IsNumericId(ids[i])
    ensures var r := InsertionSort(ids, IdComparator(order));
      forall i, j :: 0 <= i < j < |r| ==>
        if order == IdAsc then LexCompare(r[i], r[j]) <= 0 else LexCompare(r[j], r[i]) <= 0
    ensures multiset(InsertionSort(ids, IdComparator(order))) == multiset(ids)
  {
    var cmp := IdComparator(order);
    forall a, b | a in ids && b in ids ensures cmp(a, b) <= 0 || cmp(b, a) <= 0 {
      LexCompareAntisymmetric(a, b);
    }
    forall a, b, c | a in ids && b in ids && c in ids && cmp(a, b) <= 0 && cmp(b, c) <= 0
      ensures cmp(a, c) <= 0
    {
      if order == IdAsc {
        LexCompareTransitive(a, b, c);
      } else {
        LexCompareTransitive(c, b, a);
      }
    }
    InsertionSortSorted(ids, cmp);
    var r := InsertionSort(ids, cmp);
    forall i, j | 0 <= i < j < |r|
      ensures if order == IdAsc then LexCompare(r[i], r[j]) <= 0 else LexCompare(r[j], r[i]) <= 0
    {
      assert r[i] in multiset(ids) && r[j] in multiset(ids);
      assert cmp(r[i], r[j]) <= 0;
    }
  }

  /** With both kinds of ids the comparator is not an order: "2" before
      "10" by value, "10" before "1a" and "1a" before "2" as strings. */
  lemma MixedIdsNotTransitive()
    ensures IdComparator(IdAsc)("2", "10") < 0
    ensures IdComparator(IdAsc)("10", "1a") < 0
    ensures IdComparator(IdAsc)("1a", "2") < 0
  {
    assert IsNumericId("2") && NumericValue("2") == 2;
    assert IsNumericId("10") && NumericValue("10") == 10;
    assert !IsDigit("1a"[1]);
    assert LexCompare("10", "1a") < 0;
    assert LexCompare("1a", "2") < 0;
  }

  /** A bucket lists as many jobs as it counts, up to the cap, when all
      its ids are strings (always so under a job-id pattern). */
  lemma BucketListsItsCount(fetch: Fetch, pattern: Option<string>, sort: Option<SortState>)
    requires fetch.Fetched?
    requires NonEmpty(pattern) || forall i :: 0 <= i < |fetch.ids| ==> fetch.ids[i].StrId?
    ensures JobIds(fetch, pattern, sort).Ok?
    ensures |JobIds(fetch, pattern, sort).value| == Min(JobListCap, StatusCount(fetch, pattern))
  {
    var filtered := FilteredIds(fetch.ids, pattern);
    var limited := filtered[..Min(JobListCap, |filtered|)];
    forall i | 0 <= i < |limited| ensures limited[i].StrId? {
      assert limited[i] == filtered[i];
      if NonEmpty(pattern) {
        assert filtered[i] in filtered;
      }
    }
    StringIdsAllStrings(limited);
  }

  // ---------------------------------------------------------------------
  // Connections and the dispatcher
  // ---------------------------------------------------------------------

  /** The connections the root lists: with a connection name in the filter
      (even an empty one), only the first connection of that name, if any. */
  function ShownConnections(views: seq<ConnectionView>, filter: Option<FilterState>): seq<ConnectionView> {
    if filter.Some? && filter.value.connectionName.Some? then
      FirstConnection(views, filter.value.connectionName.value)
    else views
  }

  /** The first connection with this name, as a list of at most one. */
  function FirstConnection(views: seq<ConnectionView>, name: string): (r: seq<ConnectionView>)
    ensures |r| <= 1
    ensures r == [] <==> forall i :: 0 <= i < |views| ==> views[i].name != name
    ensures r != [] ==> r[0].name == name
    ensures r != [] ==> exists i :: 0 <= i < |views| && r[0] == views[i] && (forall j :: 0 <= j < i ==> views[j].name != name)
    decreases |views|
  {
    if views == [] then []
    else if views[0].name == name then [views[0]]
    else
      var r := FirstConnection(views[1..], name);
      if r != [] then
        var i :| 0 <= i < |views[1..]| && r[0] == views[1..][i] && (forall j :: 0 <= j < i ==> views[1..][j].name != name);
        assert forall j :: 0 <= j < i + 1 ==> views[j].name != name by {
          forall j | 0 <= j < i + 1 ensures views[j].name != name {
            if j > 0 {
              assert views[j] == views[1..][j - 1];
            }
          }
        }
        r
      else r
  }

  /** One connection node per shown connection, counting the queues the
      filter lets through. */
  function ConnectionNodes(views: seq<ConnectionView>, filter: Option<FilterState>, backend: Backend): (r: seq<Node>)
    ensures |r| == |views|
    ensures forall i :: 0 <= i < |views| ==> r[i] == ConnectionNode(views[i], |FilteredQueues(views[i].queues, filter, backend)|)
  {
    seq(|views|, i requires 0 <= i < |views| => ConnectionNode(views[i], |FilteredQueues(views[i].queues, filter, backend)|))
  }

  /** `getChildren`: `None` is the root. Filter, sort, manage and job nodes
      are leaves; a failed fetch of a bucket's job list is an error. */
  function Children(element: Option<Node>, views: seq<ConnectionView>, filter: Option<FilterState>, sort: Option<SortState>, backend: Backend)
    : Result<seq<Node>, string>
  {
    match element
    case None =>
      Ok([ManageConnectionsNode, MakeFilterNode(filter), SortNode(sort)]
         + ConnectionNodes(ShownConnections(views, filter), filter, backend))
    case Some(n) =>
      match n
      case ConnectionNode(c, _) => Ok(QueueChildren(c, filter, sort, backend))
      case QueueNode(q, c, _) => Ok(JobStatusChildren(q, c.name, JobIdPattern(filter), backend))
      case JobStatusNode(s, q, _, _) => JobChildren(q, s, filter, sort, backend)
      case _ => Ok([])
  }

  /** What the tree reads of the registered connections. */
  function ViewsOf(conns: seq<BullRedisConnection>): (r: seq<ConnectionView>)
    reads set c | c in conns
    ensures |r| == |conns|
    ensures forall i :: 0 <= i < |conns| ==> r[i] == conns[i].View()
    decreases |conns|
  {
    if conns == [] then []
    else ViewsOf(conns[..|conns| - 1]) + [conns[|conns| - 1].View()]
  }

  /** The views of the given connections, read one by one. */
  method ReadViews(conns: seq<BullRedisConnection>) returns (views: seq<ConnectionView>)
    ensures views == ViewsOf(conns)
  {
    views := [];
    for i := 0 to |conns|
      invariant views == ViewsOf(conns[..i])
    {
      assert conns[..i + 1][..i] == conns[..i];
      views := views + [conns[i].View()];
    }
    assert conns[..|conns|] == conns;
  }

  /** One connection node per connection, each after filtering its queues. */
  method BuildConnectionNodes(shown: seq<ConnectionView>, filter: Option<FilterState>, backend: Backend) returns (nodes: seq<Node>)
    ensures nodes == ConnectionNodes(shown, filter, backend)
  {
    nodes := [];
    for i := 0 to |shown|
      invariant nodes == ConnectionNodes(shown[..i], filter, backend)
    {
      var queues := FilterQueues(shown[i].queues, filter, backend);
      nodes := nodes + [ConnectionNode(shown[i], |queues|)];
    }
    assert shown[..|shown|] == shown;
  }

  /** A connection added at start-up once its discovery pass is over:
      failed when it could not connect, still loading when its key scan
      threw, otherwise ready with the scanned queues and one exploration
      event. */
  ghost predicate Started(c: BullRedisConnection, e: SettingsConnection, connected: Call<()>, keyspace: Call<seq<string>>)
    reads c
  {
    && c.name == e.name && c.config == e.config && c.prefix == EffectivePrefix(e.prefix)
    && if connected.Throws? then
         c.status == ConnectionStatus.Failed && c.queues == [] && c.explored == []
       else if keyspace.Throws? then
         c.status == LoadingQueues && c.queues == [] && c.explored == []
       else
         var names := ScannedNames(ScannedKeys(keyspace.value, c.prefix));
         c.status == Ready && c.queues == QueuesOf(names, c.prefix, c.name)
         && c.explored == [QueuesExplored(c.name, |names|)]
  }

  /** How many of the entries `order` lists both connect and scan. */
  function CountStarted(outcomes: seq<Call<()>>, keyspaces: seq<Call<seq<string>>>, order: seq<nat>): nat
    requires forall k :: 0 <= k < |order| ==> order[k] < |outcomes| && order[k] < |keyspaces|
  {
    if order == [] then 0
    else
      var last := order[|order| - 1];
      CountStarted(outcomes, keyspaces, order[..|order| - 1])
        + (if outcomes[last].Returns? && keyspaces[last].Returns? then 1 else 0)
  }

  lemma CountStartedStep(outcomes: seq<Call<()>>, keyspaces: seq<Call<seq<string>>>, order: seq<nat>, k: nat)
    requires forall k :: 0 <= k < |order| ==> order[k] < |outcomes| && order[k] < |keyspaces|
    requires k < |order|
    ensures CountStarted(outcomes, keyspaces, order[..k + 1]) == CountStarted(outcomes, keyspaces, order[..k])
      + (if outcomes[order[k]].Returns? && keyspaces[order[k]].Returns? then 1 else 0)
  {
    assert order[..k + 1][..k] == order[..k];
  }

  class BullMQTreeDataProvider {
    const registry: BullRedisConnectionsProvider
    const state: State
    /** How many times `onDidChangeTreeData` has fired. */
    var refreshes: nat

    /** Starts the registry's `initConnections` and listens to it: every
        connection it adds explores its queues, and every exploration
        refreshes the tree. `settings`, `order` and `outcomes` are as for
        `InitConnections`; `keyspaces[i]` is what the key scan of entry `i`
        yields. The discovery passes run in the order the connections were
        added. */
    constructor(registry: BullRedisConnectionsProvider, state: State, settings: Option<seq<SettingsConnection>>,
                order: seq<nat>, outcomes: seq<Call<()>>, keyspaces: seq<Call<seq<string>>>)
      requires settings.Some? ==>
        IsPermutation(order, |settings.value|) && |outcomes| == |settings.value| && |keyspaces| == |settings.value|
      modifies registry`connections, registry`added, registry.globalState`entries
      ensures this.registry == registry && this.state == state
      ensures settings.None? ==> registry.connections == old(registry.connections) && refreshes == 0
      ensures settings.Some? ==>
        && |registry.connections| == |old(registry.connections)| + |settings.value|
        && registry.connections[..|old(registry.connections)|] == old(registry.connections)
        && refreshes == CountStarted(outcomes, keyspaces, order)
      ensures settings.Some? ==> forall k :: 0 <= k < |settings.value| ==>
        var c := registry.connections[|old(registry.connections)| + k];
        fresh(c) && Started(c, settings.value[order[k]], outcomes[order[k]], keyspaces[order[k]])
    {
      this.registry := registry;
      this.state := state;
      refreshes := 0;
      new;
      var n0 := |registry.connections|;
      registry.InitConnections(settings, order, outcomes);
      if settings.None? {
        return;
      }
      PermutationCovers(order, |settings.value|);
      ghost var connections := registry.connections;
      StartAdded(n0, settings.value, order, outcomes, keyspaces);
      assert registry.connections == connections;
    }

    /** The listener's runs on the connections `initConnections` added from
        index `n0` on. */
    method StartAdded(n0: nat, entries: seq<SettingsConnection>, order: seq<nat>,
                      outcomes: seq<Call<()>>, keyspaces: seq<Call<seq<string>>>)
      requires |order| == |entries| == |outcomes| == |keyspaces|
      requires forall k :: 0 <= k < |order| ==> order[k] < |entries|
      requires |registry.connections| == n0 + |entries|
      requires forall i, j :: n0 <= i < j < |registry.connections| ==> registry.connections[i] != registry.connections[j]
      requires forall k :: 0 <= k < |entries| ==>
        BuiltFrom(registry.connections[n0 + k], entries[order[k]], outcomes[order[k]], registry.globalState)
      modifies (set i | n0 <= i < |registry.connections| :: registry.connections[i]), registry.globalState`entries, this`refreshes
      ensures registry.connections == old(registry.connections)
      ensures refreshes == old(refreshes) + CountStarted(outcomes, keyspaces, order)
      ensures forall k :: 0 <= k < |entries| ==>
        Started(registry.connections[n0 + k], entries[order[k]], outcomes[order[k]], keyspaces[order[k]])
    {
      var added := registry.connections[n0..];
      forall i | 0 <= i < |entries|
        ensures registry.connections[n0 + i] == added[i]
        ensures BuiltFrom(added[i], entries[order[i]], outcomes[order[i]], registry.globalState)
      {
        assert added[i] == registry.connections[n0 + i];
      }
      forall i, j | 0 <= i < j < |added| ensures added[i] != added[j] {
        assert added[i] == registry.connections[n0 + i] && added[j] == registry.connections[n0 + j];
      }
      forall c | c in added ensures c in registry.connections[n0..] {
      }
      ghost var connections := registry.connections;
      StartConnections(added, entries, order, outcomes, keyspaces);
      assert registry.connections == connections;
    }

    /** Every added connection's listener runs in turn: each connection
        explores its queues, and each exploration refreshes the tree. */
    method StartConnections(added: seq<BullRedisConnection>, entries: seq<SettingsConnection>, order: seq<nat>,
                            outcomes: seq<Call<()>>, keyspaces: seq<Call<seq<string>>>)
      requires |added| == |entries| == |order| == |outcomes| == |keyspaces|
      requires forall k :: 0 <= k < |order| ==> order[k] < |entries|
      requires forall i, j :: 0 <= i < j < |added| ==> added[i] != added[j]
      requires forall i :: 0 <= i < |added| ==> BuiltFrom(added[i], entries[order[i]], outcomes[order[i]], registry.globalState)
      modifies (set c | c in added), registry.globalState`entries, this`refreshes
      ensures refreshes == old(refreshes) + CountStarted(outcomes, keyspaces, order)
      ensures forall i :: 0 <= i < |added| ==> Started(added[i], entries[order[i]], outcomes[order[i]], keyspaces[order[i]])
    {
      for k := 0 to |added|
        invariant refreshes == old(refreshes) + CountStarted(outcomes, keyspaces, order[..k])
        invariant forall i :: 0 <= i < k ==> Started(added[i], entries[order[i]], outcomes[order[i]], keyspaces[order[i]])
        invariant forall i :: k <= i < |added| ==> BuiltFrom(added[i], entries[order[i]], outcomes[order[i]], registry.globalState)
      {
        StartNext(added, entries, order, outcomes, keyspaces, k);
        CountStartedStep(outcomes, keyspaces, order, k);
      }
      assert order[..|added|] == order;
    }

    /** One step of `StartConnections`: the `k`-th added connection runs
        its listener, and the others keep their state. */
    method StartNext(added: seq<BullRedisConnection>, entries: seq<SettingsConnection>, order: seq<nat>,
                     outcomes: seq<Call<()>>, keyspaces: seq<Call<seq<string>>>, k: nat)
      requires k < |added| == |entries| == |order| == |outcomes| == |keyspaces|
      requires forall k :: 0 <= k < |order| ==> order[k] < |entries|
      requires forall i, j :: 0 <= i < j < |added| ==> added[i] != added[j]
      requires forall i :: 0 <= i < k ==> Started(added[i], entries[order[i]], outcomes[order[i]], keyspaces[order[i]])
      requires forall i :: k <= i < |added| ==> BuiltFrom(added[i], entries[order[i]], outcomes[order[i]], registry.globalState)
      modifies added[k], registry.globalState`entries, this`refreshes
      ensures refreshes == old(refreshes) + (if outcomes[order[k]].Returns? && keyspaces[order[k]].Returns? then 1 else 0)
      ensures forall i :: 0 <= i <= k ==> Started(added[i], entries[order[i]], outcomes[order[i]], keyspaces[order[i]])
      ensures forall i :: k < i < |added| ==> BuiltFrom(added[i], entries[order[i]], outcomes[order[i]], registry.globalState)
    {
      var c := added[k];
      label Before:
      StartConnection(c, entries[order[k]], outcomes[order[k]], keyspaces[order[k]]);
      forall i | 0 <= i < k
        ensures Started(added[i], entries[order[i]], outcomes[order[i]], keyspaces[order[i]])
      {
        assert added[i] != c;
        assert old@Before(Started(added[i], entries[order[i]], outcomes[order[i]], keyspaces[order[i]]));
      }
      forall i | k < i < |added|
        ensures BuiltFrom(added[i], entries[order[i]], outcomes[order[i]], registry.globalState)
      {
        assert added[i] != c;
        assert old@Before(BuiltFrom(added[i], entries[order[i]], outcomes[order[i]], registry.globalState));
      }
    }

    /** The listener's run on one connection fresh from `connect`. */
    method StartConnection(c: BullRedisConnection, e: SettingsConnection, connected: Call<()>, keyspace: Call<seq<string>>)
      requires BuiltFrom(c, e, connected, registry.globalState)
      modifies c`status, c`queues, c`explored, registry.globalState`entries, this`refreshes
      ensures Started(c, e, connected, keyspace)
      ensures refreshes == old(refreshes) + (if connected.Returns? && keyspace.Returns? then 1 else 0)
    {
      OnConnectionAdded(c, keyspace);
    }

    /** The `onConnectionAdded` listener: explore the new connection's
        queues; the `onQueuesExplored` listener it subscribes refreshes the
        tree once per exploration event. */
    method OnConnectionAdded(c: BullRedisConnection, keyspace: Call<seq<string>>)
      modifies c`status, c`queues, c`explored, c.globalState`entries, this`refreshes
      ensures |c.explored| >= |old(c.explored)| && c.explored[..|old(c.explored)|] == old(c.explored)
      ensures refreshes == old(refreshes) + (|c.explored| - |old(c.explored)|)
      ensures old(c.status) == Idle || old(c.status) == ConnectionStatus.Failed || old(c.queues) != [] ==>
        c.status == old(c.status) && c.queues == old(c.queues) && refreshes == old(refreshes)
      ensures !(old(c.status) == Idle || old(c.status) == ConnectionStatus.Failed || old(c.queues) != []) ==>
        if keyspace.Throws? then
          c.status == LoadingQueues && c.queues == old(c.queues) && refreshes == old(refreshes)
        else
          var names := ScannedNames(ScannedKeys(keyspace.value, c.prefix));
          && c.status == Ready && c.queues == QueuesOf(names, c.prefix, c.name)
          && c.explored == old(c.explored) + [QueuesExplored(c.name, |names|)]
          && refreshes == old(refreshes) + 1
    {
      var before := |c.explored|;
      var _ := c.ExploreQueues(false, keyspace);
      if |c.explored| > before {
        Refresh();
      }
    }

    method Refresh()
      modifies this`refreshes
      ensures refreshes == old(refreshes) + 1
    {
      refreshes := refreshes + 1;
    }

    /** The views of the registered connections, now. */
    function Views(): seq<ConnectionView>
      reads registry, set c | c in registry.connections
    {
      ViewsOf(registry.connections)
    }

    /** `getConnections`. */
    method GetConnections(backend: Backend) returns (nodes: seq<Node>)
      ensures nodes == ConnectionNodes(ShownConnections(Views(), state.filter), state.filter, backend)
    {
      var connections := registry.GetConnections();
      var views := ReadViews(connections);
      nodes := BuildConnectionNodes(ShownConnections(views, state.filter), state.filter, backend);
    }

    /** `getJobs`. */
    method GetJobs(q: Queue, s: JobStatus, backend: Backend) returns (r: Result<seq<Node>, string>)
      ensures r == JobChildren(q, s, state.filter, state.sort, backend)
    {
      var ids := JobIds(backend(q, s), JobIdPattern(state.filter), state.sort);
      if ids.Err? {
        return Err(ids.error);
      }
      var jobs := ids.value;
      var nodes: seq<Node> := [];
      for i := 0 to |jobs|
        invariant |nodes| == i && forall k :: 0 <= k < i ==> nodes[k] == JobNode(jobs[k], Some(q), Some(s))
      {
        nodes := nodes + [JobNode(jobs[i], Some(q), Some(s))];
      }
      assert nodes == seq(|jobs|, k requires 0 <= k < |jobs| => JobNode(jobs[k], Some(q), Some(s)));
      return Ok(nodes);
    }

    /** `getChildren`. */
    method GetChildren(element: Option<Node>, backend: Backend) returns (r: Result<seq<Node>, string>)
      ensures r == Children(element, Views(), state.filter, state.sort, backend)
    {
      if element.None? {
        var connections := GetConnections(backend);
        return Ok([ManageConnectionsNode, MakeFilterNode(state.filter), SortNode(state.sort)] + connections);
      }
      match element.value
      case ConnectionNode(c, _) =>
        var queues := GetQueues(c, state.filter, state.sort, backend);
        return Ok(queues);
      case QueueNode(q, c, _) =>
        var statuses := GetJobStatuses(q, c.name, JobIdPattern(state.filter), backend);
        return Ok(statuses);
      case JobStatusNode(s, q, _, _) =>
        r := GetJobs(q, s, backend);
      case _ =>
        return Ok([]);
    }
  }

  // ---------------------------------------------------------------------
  // Properties across levels
  // ---------------------------------------------------------------------

  /** The root lists the manage, filter and sort nodes, then one node per
      shown connection; a connection name in the filter shows at most the
      first connection of that name, and no filter shows them all. */
  lemma RootChildren(views: seq<ConnectionView>, filter: Option<FilterState>, sort: Option<SortState>, backend: Backend)
    ensures var r := Children(None, views, filter, sort, backend);
      && r.Ok?
      && r.value[..3] == [ManageConnectionsNode, MakeFilterNode(filter), SortNode(sort)]
      && |r.value| == 3 + |ShownConnections(views, filter)|
      && (filter.None? ==> |r.value| == 3 + |views|)
      && (filter.Some? && filter.value.connectionName.Some? ==>
            |r.value| <= 4
            && forall i :: 3 <= i < |r.value| ==> r.value[i].connection.name == filter.value.connectionName.value)
  {
    var r := Children(None, views, filter, sort, backend);
    var shown := ShownConnections(views, filter);
    assert r.value[..3] == [ManageConnectionsNode, MakeFilterNode(filter), SortNode(sort)];
    if filter.Some? && filter.value.connectionName.Some? {
      forall i | 3 <= i < |r.value| ensures r.value[i].connection.name == filter.value.connectionName.value {
        assert r.value[i] == ConnectionNodes(shown, filter, backend)[i - 3];
      }
    }
  }

  /** A connection node counts exactly the queue nodes it expands to. */
  lemma ConnectionCountIsQueueChildren(views: seq<ConnectionView>, filter: Option<FilterState>, sort: Option<SortState>, backend: Backend, n: Node)
    requires n in ConnectionNodes(views, filter, backend)
    ensures n.ConnectionNode?
    ensures Children(Some(n), views, filter, sort, backend) == Ok(QueueChildren(n.connection, filter, sort, backend))
    ensures n.queueCount == |QueueChildren(n.connection, filter, sort, backend)|
  {
  }

  /** A queue node's count is the sum of its buckets' counts. */
  lemma QueueCountIsBucketSum(c: ConnectionView, filter: Option<FilterState>, sort: Option<SortState>, backend: Backend, n: Node)
    requires n in QueueChildren(c, filter, sort, backend)
    ensures n.QueueNode? && n.connection == c
    ensures var r := Children(Some(n), [], filter, sort, backend);
      r.Ok? && n.totalJobCount == SumJobCounts(r.value)
  {
    var nodes := QueueNodesOf(FilteredQueues(c.queues, filter, backend), c, JobIdPattern(filter), backend);
    if SortsQueues(sort) {
      assert n in multiset(nodes);
    }
    BucketsSumToTotal(n.queue, c.name, AllStatuses, JobIdPattern(filter), backend);
  }

  /** Every status of the queue lists only string ids. */
  predicate OnlyStringIds(q: Queue, backend: Backend) {
    forall s: JobStatus :: backend(q, s).Fetched? ==>
      forall i :: 0 <= i < |backend(q, s).ids| ==> backend(q, s).ids[i].StrId?
  }

  /** A status child of a queue is a bucket of that queue whose fetch
      succeeded and whose count is its filtered number of ids. */
  lemma StatusChildShape(q: Queue, connectionName: string, pattern: Option<string>, backend: Backend, n: Node)
    requires n in JobStatusChildren(q, connectionName, pattern, backend)
    ensures n.JobStatusNode? && n.queue == q
    ensures backend(q, n.status).Fetched? && n.jobCount == StatusCount(backend(q, n.status), pattern)
  {
    BucketsShape(q, connectionName, |AllStatuses|, pattern, backend);
    assert AllStatuses[..|AllStatuses|] == AllStatuses;
    var buckets := JobStatusChildren(q, connectionName, pattern, backend);
    assert buckets == Buckets(q, connectionName, AllStatuses[..|AllStatuses|], pattern, backend);
    var i :| 0 <= i < |buckets| && buckets[i] == n;
  }

  /** A bucket lists as many jobs as it counts, up to the cap, when the
      job-id filter is set or the status's ids are all strings. */
  lemma BucketCountIsJobChildren(q: Queue, connectionName: string, filter: Option<FilterState>, sort: Option<SortState>, backend: Backend, n: Node)
    requires n in JobStatusChildren(q, connectionName, JobIdPattern(filter), backend)
    requires NonEmpty(JobIdPattern(filter)) || OnlyStringIds(q, backend)
    ensures n.JobStatusNode? && n.queue == q
    ensures var r := Children(Some(n), [], filter, sort, backend);
      r.Ok? && |r.value| == Min(JobListCap, n.jobCount)
  {
    StatusChildShape(q, connectionName, JobIdPattern(filter), backend, n);
    var fetch := backend(q, n.status);
    assert !NonEmpty(JobIdPattern(filter)) ==> forall k :: 0 <= k < |fetch.ids| ==> fetch.ids[k].StrId?;
    BucketListsItsCount(fetch, JobIdPattern(filter), sort);
  }
}
