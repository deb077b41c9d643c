/** The sort command: two pickers (queue order, job order) whose answers
    are merged into the global sort. A dismissed picker is `None`. */
module Sort {
  import opened Wrappers
  import opened ViewState
  import Tree

  /** `applySort` as a function of the stored sort: the value it leaves
      stored. An absent axis keeps the current one; no current sort counts
      as both axes unsorted; both axes unsorted clears the sort. */
  function MergeSort(current: Option<SortState>, queueSort: Option<QueueSortOrder>, jobSort: Option<JobSortOrder>): Option<SortState> {
    if queueSort.None? && jobSort.None? && current.None? then None
    else
      var base := current.GetOr(SortState(NoQueueSort, NoJobSort));
      var merged := SortState(queueSort.GetOr(base.queueSort), jobSort.GetOr(base.jobSort));
      if merged.queueSort == NoQueueSort && merged.jobSort == NoJobSort then None else Some(merged)
  }

  /** Nothing given and nothing stored leaves nothing stored; a given axis
      wins, an absent one keeps the stored axis (unsorted when none is
      stored); the result is cleared exactly when both axes end up
      unsorted, so a stored sort always sorts something. */
  lemma MergeSortSpec(current: Option<SortState>, queueSort: Option<QueueSortOrder>, jobSort: Option<JobSortOrder>)
    ensures queueSort.None? && jobSort.None? && current.None? ==> MergeSort(current, queueSort, jobSort) == None
    ensures var r := MergeSort(current, queueSort, jobSort);
      var q := if queueSort.Some? then queueSort.value else if current.Some? then current.value.queueSort else NoQueueSort;
      var j := if jobSort.Some? then jobSort.value else if current.Some? then current.value.jobSort else NoJobSort;
      && (r.None? <==> q == NoQueueSort && j == NoJobSort)
      && (r.Some? ==> r.value == SortState(q, j))
    ensures var r := MergeSort(current, queueSort, jobSort);
      r.Some? ==> r.value.queueSort != NoQueueSort || r.value.jobSort != NoJobSort
  {
  }

  /** Applying the same answers twice stores what applying them once does. */
  lemma MergeSortIdempotent(current: Option<SortState>, queueSort: Option<QueueSortOrder>, jobSort: Option<JobSortOrder>)
    ensures MergeSort(MergeSort(current, queueSort, jobSort), queueSort, jobSort) == MergeSort(current, queueSort, jobSort)
  {
    MergeSortSpec(current, queueSort, jobSort);
    MergeSortSpec(MergeSort(current, queueSort, jobSort), queueSort, jobSort);
  }

  /** With both axes given, as the command gives them, the stored sort does
      not matter. */
  lemma MergeSortBothGiven(current: Option<SortState>, other: Option<SortState>, queueSort: QueueSortOrder, jobSort: JobSortOrder)
    ensures MergeSort(current, Some(queueSort), Some(jobSort)) == MergeSort(other, Some(queueSort), Some(jobSort))
    ensures MergeSort(current, Some(queueSort), Some(jobSort)).None? <==> queueSort == NoQueueSort && jobSort == NoJobSort
  {
    MergeSortSpec(current, Some(queueSort), Some(jobSort));
    MergeSortSpec(other, Some(queueSort), Some(jobSort));
  }

  /** A cleared sort and a stored sort whose axes are both unsorted show the
      tree alike: neither level is reordered. */
  lemma ClearedSortSortsNothing(s: SortState)
    requires s.queueSort == NoQueueSort && s.jobSort == NoJobSort
    ensures !Tree.SortsQueues(Some(s)) && !Tree.SortsQueues(None)
    ensures !Tree.SortsJobs(Some(s)) && !Tree.SortsJobs(None)
  {
  }

  /** `applySort`. */
  method ApplySort(state: State, queueSort: Option<QueueSortOrder>, jobSort: Option<JobSortOrder>)
    modifies state`sort
    ensures state.sort == MergeSort(old(state.sort), queueSort, jobSort)
  {
    if queueSort.None? && jobSort.None? && state.sort.None? {
      return;
    }
    var currentSort := if state.sort.Some? then state.sort.value else SortState(NoQueueSort, NoJobSort);
    var newSort := SortState(
      if queueSort.Some? then queueSort.value else currentSort.queueSort,
      if jobSort.Some? then jobSort.value else currentSort.jobSort);
    if newSort.queueSort == NoQueueSort && newSort.jobSort == NoJobSort {
      state.sort := None;
    } else {
      state.sort := Some(newSort);
    }
  }

  /** `sort`: a dismissed picker changes nothing and does not refresh. */
  method RunSort(tree: Tree.BullMQTreeDataProvider, queuePick: Option<QueueSortOrder>, jobPick: Option<JobSortOrder>)
    modifies tree.state`sort, tree`refreshes
    ensures queuePick.None? || jobPick.None? ==>
      tree.state.sort == old(tree.state.sort) && tree.refreshes == old(tree.refreshes)
    ensures queuePick.Some? && jobPick.Some? ==>
      tree.state.sort == MergeSort(old(tree.state.sort), queuePick, jobPick) && tree.refreshes == old(tree.refreshes) + 1
  {
    if queuePick.None? {
      return;
    }
    if jobPick.None? {
      return;
    }
    ApplySort(tree.state, queuePick, jobPick);
    tree.Refresh();
  }

  /** `clearSort`. */
  method ClearSort(tree: Tree.BullMQTreeDataProvider)
    modifies tree.state`sort, tree`refreshes
    ensures tree.state.sort == None && tree.refreshes == old(tree.refreshes) + 1
  {
    tree.state.sort := None;
    tree.Refresh();
  }

  /** `showSortMenu`: `selected` is the chosen action's id. */
  method ShowSortMenu(tree: Tree.BullMQTreeDataProvider, selected: Option<string>, queuePick: Option<QueueSortOrder>, jobPick: Option<JobSortOrder>)
    modifies tree.state`sort, tree`refreshes
    ensures selected == Some("clear-sort") ==> tree.state.sort == None && tree.refreshes == old(tree.refreshes) + 1
    ensures selected == Some("set-sort") && queuePick.Some? && jobPick.Some? ==>
      tree.state.sort == MergeSort(old(tree.state.sort), queuePick, jobPick) && tree.refreshes == old(tree.refreshes) + 1
    ensures selected != Some("clear-sort") && !(selected == Some("set-sort") && queuePick.Some? && jobPick.Some?) ==>
      tree.state.sort == old(tree.state.sort) && tree.refreshes == old(tree.refreshes)
  {
    if selected.None? {
      return;
    }
    if selected.value == "set-sort" {
      RunSort(tree, queuePick, jobPick);
    } else if selected.value == "clear-sort" {
      ClearSort(tree);
    }
  }
}
