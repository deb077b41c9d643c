/** The filter command: three pickers (connection, queue or queue pattern,
    job-id pattern) whose answers are normalised into the global filter.
    A picker's answer is an input; `None` is a dismissed picker. */
module Filter {
  import opened Wrappers
  import opened ViewState
  import opened Bullmq
  import opened Connection
  import opened Registry
  import Tree

  /** The ids of the special picker items. */
  const AllConnectionsOption := "___ALL_CONNECTIONS___"
  const AllQueuesOption := "___ALL_QUEUES___"
  const FilterOption := "___FILTER___"

  // ---------------------------------------------------------------------
  // Normalisation
  // ---------------------------------------------------------------------

  /** `applyFilter`: the value stored as the global filter. */
  function ApplyFilter(connectionName: Option<string>, queueName: Option<string>, queueNamePattern: Option<string>, jobIdPattern: Option<string>)
    : Option<FilterState>
  {
    if connectionName.None? && queueName.None? && queueNamePattern.None? && (jobIdPattern == Some("") || jobIdPattern.None?) then
      None
    else
      Some(FilterState(connectionName, queueName, queueNamePattern, if jobIdPattern == Some("") then None else jobIdPattern))
  }

  /** The filter is cleared exactly when no field is given and the job-id
      pattern is absent or empty; otherwise every field is kept, except an
      empty job-id pattern, which is dropped. */
  lemma ApplyFilterSpec(connectionName: Option<string>, queueName: Option<string>, queueNamePattern: Option<string>, jobIdPattern: Option<string>)
    ensures var r := ApplyFilter(connectionName, queueName, queueNamePattern, jobIdPattern);
      && (r.None? <==> connectionName.None? && queueName.None? && queueNamePattern.None? && !NonEmpty(jobIdPattern))
      && (r.Some? ==>
            && r.value.connectionName == connectionName
            && r.value.queueName == queueName
            && r.value.queueNamePattern == queueNamePattern
            && (NonEmpty(jobIdPattern) <==> r.value.jobIdPattern.Some?)
            && (NonEmpty(jobIdPattern) ==> r.value.jobIdPattern == jobIdPattern))
  {
  }

  /** A stored filter never holds an empty job-id pattern, and storing it
      again gives it back. */
  lemma ApplyFilterStable(connectionName: Option<string>, queueName: Option<string>, queueNamePattern: Option<string>, jobIdPattern: Option<string>)
    ensures var r := ApplyFilter(connectionName, queueName, queueNamePattern, jobIdPattern);
      r.Some? ==>
        && r.value.jobIdPattern != Some("")
        && ApplyFilter(r.value.connectionName, r.value.queueName, r.value.queueNamePattern, r.value.jobIdPattern) == r
  {
  }

  /** An empty job-id pattern and an absent one filter the tree alike. */
  lemma EmptyJobIdPatternIsNoPattern(filter: FilterState, backend: Backend, queues: seq<Queue>)
    requires filter.jobIdPattern == Some("")
    ensures Tree.FilteredQueues(queues, Some(filter), backend)
         == Tree.FilteredQueues(queues, Some(filter.(jobIdPattern := None)), backend)
    ensures Tree.JobIdPattern(Some(filter)) == Some("") && !NonEmpty(Tree.JobIdPattern(Some(filter)))
  {
  }

  // ---------------------------------------------------------------------
  // Step 1: the connection
  // ---------------------------------------------------------------------

  datatype ConnectionSelection = ConnectionSelection(connectionName: Option<string>, connectionsToFilter: seq<ConnectionView>)

  /** The ids the connection picker offers. */
  function ConnectionItemIds(connections: seq<ConnectionView>): (r: seq<string>)
    ensures |r| == |connections| + 1 && r[0] == AllConnectionsOption
    ensures forall i :: 0 <= i < |connections| ==> r[i + 1] == connections[i].name
  {
    [AllConnectionsOption] + seq(|connections|, i requires 0 <= i < |connections| => connections[i].name)
  }

  /** `selectConnection`: with at most one connection there is no picker;
      otherwise `picked` is the id of the chosen item. */
  function SelectConnection(connections: seq<ConnectionView>, picked: Option<string>): Option<ConnectionSelection> {
    if |connections| <= 1 then Some(ConnectionSelection(None, connections))
    else if picked.None? then None
    else if picked.value == AllConnectionsOption then Some(ConnectionSelection(None, connections))
    else if picked.value != "" then
      Some(ConnectionSelection(Some(picked.value), Tree.FirstConnection(connections, picked.value)))
    else Some(ConnectionSelection(None, connections))
  }

  /** Without a picker every connection is kept under no name; dismissing
      the picker cancels; picking a named connection yields that name and
      at most the first connection of that name. */
  lemma SelectConnectionSpec(connections: seq<ConnectionView>, picked: Option<string>)
    ensures |connections| <= 1 ==> SelectConnection(connections, picked) == Some(ConnectionSelection(None, connections))
    ensures |connections| > 1 ==> (SelectConnection(connections, picked).None? <==> picked.None?)
    ensures var r := SelectConnection(connections, picked);
      r.Some? && r.value.connectionName.Some? ==>
        && |connections| > 1 && picked == r.value.connectionName
        && |r.value.connectionsToFilter| <= 1
        && (forall c :: c in r.value.connectionsToFilter ==> c in connections && c.name == picked.value)
    ensures var r := SelectConnection(connections, picked);
      r.Some? && r.value.connectionName.None? ==> r.value.connectionsToFilter == connections
  {
    var r := SelectConnection(connections, picked);
    if r.Some? && r.value.connectionName.Some? {
      var found := Tree.FirstConnection(connections, picked.value);
      if found != [] {
        var i :| 0 <= i < |connections| && found[0] == connections[i] && (forall j :: 0 <= j < i ==> connections[j].name != picked.value);
      }
    }
  }

  // ---------------------------------------------------------------------
  // Step 2: the queue
  // ---------------------------------------------------------------------

  datatype QueueSelection = QueueSelection(queueName: Option<string>, queueNamePattern: Option<string>)

  /** The names of the queues of the given connections, connection by
      connection. */
  function AllQueueNames(connections: seq<ConnectionView>): (r: seq<string>)
    ensures forall name :: name in r <==> exists i, q :: 0 <= i < |connections| && q in connections[i].queues && q.name == name
    decreases |connections|
  {
    if connections == [] then []
    else
      var init := connections[..|connections| - 1];
      var last := connections[|connections| - 1];
      var r := AllQueueNames(init) + QueueNames(last.queues);
      assert forall name :: name in r <==> exists i, q :: 0 <= i < |connections| && q in connections[i].queues && q.name == name by {
        forall name ensures name in r <==> exists i, q :: 0 <= i < |connections| && q in connections[i].queues && q.name == name {
          if name in AllQueueNames(init) {
            var i, q :| 0 <= i < |init| && q in init[i].queues && q.name == name;
            assert connections[i] == init[i];
          }
          if exists i, q :: 0 <= i < |connections| && q in connections[i].queues && q.name == name {
            var i, q :| 0 <= i < |connections| && q in connections[i].queues && q.name == name;
            if i < |init| {
              assert init[i] == connections[i];
            }
          }
        }
      }
      r
  }

  function QueueNames(queues: seq<Queue>): (r: seq<string>)
    ensures |r| == |queues| && forall i :: 0 <= i < |queues| ==> r[i] == queues[i].name
  {
    seq(|queues|, i requires 0 <= i < |queues| => queues[i].name)
  }

  /** The loop that gathers the queue picker's entries. */
  method CollectQueueNames(connections: seq<ConnectionView>) returns (allQueues: seq<string>)
    ensures allQueues == AllQueueNames(connections)
  {
    allQueues := [];
    for i := 0 to |connections|
      invariant allQueues == AllQueueNames(connections[..i])
    {
      assert connections[..i + 1][..i] == connections[..i];
      var queues := connections[i].queues;
      ghost var before := allQueues;
      for j := 0 to |queues|
        invariant allQueues == before + QueueNames(queues[..j])
      {
        assert QueueNames(queues[..j + 1]) == QueueNames(queues[..j]) + [queues[j].name];
        allQueues := allQueues + [queues[j].name];
      }
      assert queues[..|queues|] == queues;
    }
    assert connections[..|connections|] == connections;
  }

  /** The ids the queue picker offers. */
  function QueueItemIds(connections: seq<ConnectionView>): seq<string> {
    [AllQueuesOption, FilterOption] + AllQueueNames(connections)
  }

  /** `selectQueue`: `picked` is the chosen item's id, `typed` the answer
      of the pattern box shown after the pattern item. */
  function SelectQueue(picked: Option<string>, typed: Option<string>): Option<QueueSelection> {
    if picked.None? then None
    else if picked.value == AllQueuesOption then Some(QueueSelection(None, None))
    else if picked.value == FilterOption then
      if typed.None? then None
      else if typed.value == "" then Some(QueueSelection(None, None))
      else Some(QueueSelection(None, typed))
    else if picked.value != "" then Some(QueueSelection(picked, None))
    else Some(QueueSelection(None, None))
  }

  /** Never both an exact name and a pattern; the pattern item yields the
      typed text as pattern unless it is empty; a queue's item yields its
      exact name; dismissing either box cancels. */
  lemma SelectQueueSpec(picked: Option<string>, typed: Option<string>)
    ensures var r := SelectQueue(picked, typed);
      && (r.Some? ==> r.value.queueName.None? || r.value.queueNamePattern.None?)
      && (r.None? <==> picked.None? || (picked == Some(FilterOption) && typed.None?))
      && (picked == Some(FilterOption) && NonEmpty(typed) ==> r == Some(QueueSelection(None, typed)))
      && (picked == Some(FilterOption) && typed == Some("") ==> r == Some(QueueSelection(None, None)))
      && (picked == Some(AllQueuesOption) ==> r == Some(QueueSelection(None, None)))
      && (r.Some? && r.value.queueNamePattern.Some? ==> NonEmpty(r.value.queueNamePattern))
  {
  }

  /** Picking the item of a queue (whose name is none of the special ids)
      selects exactly that queue's name. */
  lemma PickedQueueIsExact(connections: seq<ConnectionView>, k: nat, typed: Option<string>)
    requires k < |QueueItemIds(connections)|
    requires var id := QueueItemIds(connections)[k];
      id != AllQueuesOption && id != FilterOption && id != ""
    ensures var id := QueueItemIds(connections)[k];
      && (exists i, q :: 0 <= i < |connections| && q in connections[i].queues && q.name == id)
      && SelectQueue(Some(id), typed) == Some(QueueSelection(Some(id), None))
  {
    var id := QueueItemIds(connections)[k];
    assert k >= 2;
    assert id == AllQueueNames(connections)[k - 2];
    assert id in AllQueueNames(connections);
  }

  // ---------------------------------------------------------------------
  // The command
  // ---------------------------------------------------------------------

  /** The filter the command stores, or `None` when it is cancelled at any
      step. `jobIdInput` is the answer of the job-id box. */
  function FilterOutcome(connections: seq<ConnectionView>, connectionPick: Option<string>, queuePick: Option<string>,
                         typedPattern: Option<string>, jobIdInput: Option<string>): Option<Option<FilterState>>
  {
    match SelectConnection(connections, connectionPick)
    case None => None
    case Some(c) =>
      match SelectQueue(queuePick, typedPattern)
      case None => None
      case Some(q) =>
        if jobIdInput.None? then None
        else Some(ApplyFilter(c.connectionName, q.queueName, q.queueNamePattern, jobIdInput))
  }

  /** The command completes exactly when no box it shows is dismissed, and
      then stores the normalised answers. */
  lemma FilterOutcomeSpec(connections: seq<ConnectionView>, connectionPick: Option<string>, queuePick: Option<string>,
                          typedPattern: Option<string>, jobIdInput: Option<string>)
    ensures var o := FilterOutcome(connections, connectionPick, queuePick, typedPattern, jobIdInput);
      o.Some? <==>
        && (|connections| <= 1 || connectionPick.Some?)
        && queuePick.Some? && (queuePick == Some(FilterOption) ==> typedPattern.Some?)
        && jobIdInput.Some?
    ensures var o := FilterOutcome(connections, connectionPick, queuePick, typedPattern, jobIdInput);
      o.Some? && o.value.Some? ==>
        && !(o.value.value.queueName.Some? && o.value.value.queueNamePattern.Some?)
        && o.value.value.jobIdPattern != Some("")
  {
    SelectConnectionSpec(connections, connectionPick);
    SelectQueueSpec(queuePick, typedPattern);
  }

  /** `filter`: the pickers' answers are inputs; a cancelled run changes
      nothing and does not refresh. */
  method RunFilter(tree: Tree.BullMQTreeDataProvider, registry: BullRedisConnectionsProvider,
                   connectionPick: Option<string>, queuePick: Option<string>, typedPattern: Option<string>, jobIdInput: Option<string>)
    modifies tree.state`filter, tree`refreshes
    ensures var o := FilterOutcome(Tree.ViewsOf(registry.connections), connectionPick, queuePick, typedPattern, jobIdInput);
      if o.None? then tree.state.filter == old(tree.state.filter) && tree.refreshes == old(tree.refreshes)
      else tree.state.filter == o.value && tree.refreshes == old(tree.refreshes) + 1
  {
    var conns := registry.GetConnections();
    var connections := Tree.ReadViews(conns);
    var connectionResult := SelectConnection(connections, connectionPick);
    if connectionResult.None? {
      return;
    }
    var queueResult := SelectQueue(queuePick, typedPattern);
    if queueResult.None? {
      return;
    }
    if jobIdInput.None? {
      return;
    }
    tree.state.filter := ApplyFilter(connectionResult.value.connectionName, queueResult.value.queueName,
                                     queueResult.value.queueNamePattern, jobIdInput);
    tree.Refresh();
  }

  /** `clearFilter`. */
  method ClearFilter(tree: Tree.BullMQTreeDataProvider)
    modifies tree.state`filter, tree`refreshes
    ensures tree.state.filter == None && tree.refreshes == old(tree.refreshes) + 1
  {
    tree.state.filter := None;
    tree.Refresh();
  }

  /** `showFilterMenu`: `selected` is the chosen action's id. */
  method ShowFilterMenu(tree: Tree.BullMQTreeDataProvider, registry: BullRedisConnectionsProvider, selected: Option<string>,
                        connectionPick: Option<string>, queuePick: Option<string>, typedPattern: Option<string>, jobIdInput: Option<string>)
    modifies tree.state`filter, tree`refreshes
    ensures selected == Some("clear-filter") ==> tree.state.filter == None && tree.refreshes == old(tree.refreshes) + 1
    ensures selected != Some("clear-filter") && selected != Some("set-filter") ==>
      tree.state.filter == old(tree.state.filter) && tree.refreshes == old(tree.refreshes)
    ensures selected == Some("set-filter") ==>
      var o := FilterOutcome(Tree.ViewsOf(registry.connections), connectionPick, queuePick, typedPattern, jobIdInput);
      if o.None? then tree.state.filter == old(tree.state.filter) && tree.refreshes == old(tree.refreshes)
      else tree.state.filter == o.value && tree.refreshes == old(tree.refreshes) + 1
  {
    if selected.None? {
      return;
    }
    if selected.value == "set-filter" {
      RunFilter(tree, registry, connectionPick, queuePick, typedPattern, jobIdInput);
    } else if selected.value == "clear-filter" {
      ClearFilter(tree);
    }
  }
}
