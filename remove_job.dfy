/** The remove command: deletes one job from its queue. */
module RemoveJob {
  import opened Bullmq
  import opened Effects
  import opened Nodes
  import Tree

  function Failure(message: string): string {
    "Failed to remove job: " + message
  }

  /** What `removeJob` does, given the outcomes of fetching the job
      (`found`: whether it exists) and of removing it. */
  function RemoveOutcome(node: Node, found: Call<bool>, removed: Call<()>): Outcome
    requires node.JobNode?
  {
    if node.jobQueue.None? then Outcome([Error(Failure("Queue reference not available"))], false)
    else if node.jobId == "" then Outcome([Error(Failure("Job ID not available"))], false)
    else
      match found
      case Throws(m) => Outcome([Error(Failure(m))], false)
      case Returns(false) => Outcome([Warning("Job " + node.jobId + " not found")], false)
      case Returns(true) =>
        var call := RemoveCall(node.jobQueue.value, node.jobId);
        if removed.Throws? then Outcome([call, Error(Failure(removed.message))], false)
        else Outcome([call, Info("Job " + node.jobId + " removed successfully")], true)
  }

  /** Only a job that was found is removed, once, from its own queue; the
      tree is refreshed exactly when the removal succeeds; and every run
      ends with exactly one notification. */
  lemma RemoveOnlyFound(node: Node, found: Call<bool>, removed: Call<()>)
    requires node.JobNode?
    ensures var o := RemoveOutcome(node, found, removed);
      var removes := node.jobQueue.Some? && node.jobId != "" && found == Returns(true);
      && EndsWithOneMessage(o.effects)
      && (NoMutation(o.effects) <==> !removes)
      && (removes ==> o.effects[0] == RemoveCall(node.jobQueue.value, node.jobId))
      && (forall i :: 0 <= i < |o.effects| && IsBackendMutation(o.effects[i]) ==> i == 0)
      && (o.refreshed <==> removes && removed.Returns?)
      && (o.refreshed ==> o.effects[|o.effects| - 1].Info?)
  {
    var o := RemoveOutcome(node, found, removed);
    if |o.effects| == 2 {
      OneMessageAfterCall(o.effects[0], o.effects[1]);
    }
  }

  /** `removeJob`. */
  method Remove(node: Node, tree: Tree.BullMQTreeDataProvider, found: Call<bool>, removed: Call<()>, wb: Workbench)
    requires node.JobNode?
    modifies tree`refreshes, wb
    ensures var o := RemoveOutcome(node, found, removed);
      wb.log == old(wb.log) + o.effects && tree.refreshes == old(tree.refreshes) + (if o.refreshed then 1 else 0)
  {
    if node.jobQueue.None? {
      wb.Emit(Error(Failure("Queue reference not available")));
      return;
    }
    if node.jobId == "" {
      wb.Emit(Error(Failure("Job ID not available")));
      return;
    }
    if found.Throws? {
      wb.Emit(Error(Failure(found.message)));
      return;
    }
    if !found.value {
      wb.Emit(Warning("Job " + node.jobId + " not found"));
      return;
    }
    wb.Emit(RemoveCall(node.jobQueue.value, node.jobId));
    if removed.Throws? {
      wb.Emit(Error(Failure(removed.message)));
      return;
    }
    wb.Emit(Info("Job " + node.jobId + " removed successfully"));
    tree.Refresh();
  }
}
