/** The promote command: moves a delayed job to the wait list. */
module PromoteJob {
  import opened Bullmq
  import opened Effects
  import opened Nodes
  import Tree

  function Failure(message: string): string {
    "Failed to promote job: " + message
  }

  function NotDelayed(jobId: string, state: string): string {
    "Job " + jobId + " is not in delayed state (current state: " + state + "). Only delayed jobs can be promoted."
  }

  /** What `promoteJob` does, given the outcomes of fetching the job
      (`found`: whether it exists), of reading its state and of promoting
      it. */
  function PromoteOutcome(node: Node, found: Call<bool>, state: Call<string>, promoted: Call<()>): Outcome
    requires node.JobNode?
  {
    if node.jobQueue.None? then Outcome([Error(Failure("Queue reference not available"))], false)
    else if node.jobId == "" then Outcome([Error(Failure("Job ID not available"))], false)
    else
      match found
      case Throws(m) => Outcome([Error(Failure(m))], false)
      case Returns(false) => Outcome([Warning("Job " + node.jobId + " not found")], false)
      case Returns(true) =>
        match state
        case Throws(m) => Outcome([Error(Failure(m))], false)
        case Returns(s) =>
          if s != "delayed" then Outcome([Warning(NotDelayed(node.jobId, s))], false)
          else
            var call := PromoteCall(node.jobQueue.value, node.jobId);
            if promoted.Throws? then Outcome([call, Error(Failure(promoted.message))], false)
            else Outcome([call, Info("Job " + node.jobId + " promoted successfully")], true)
  }

  /** Only a job found in the delayed state is promoted, once, on its own
      queue; the tree is refreshed exactly when the promotion succeeds; and
      every run ends with exactly one notification. */
  lemma PromoteOnlyDelayed(node: Node, found: Call<bool>, state: Call<string>, promoted: Call<()>)
    requires node.JobNode?
    ensures var o := PromoteOutcome(node, found, state, promoted);
      var promotes := node.jobQueue.Some? && node.jobId != "" && found == Returns(true) && state == Returns("delayed");
      && EndsWithOneMessage(o.effects)
      && (NoMutation(o.effects) <==> !promotes)
      && (promotes ==> o.effects[0] == PromoteCall(node.jobQueue.value, node.jobId))
      && (forall i :: 0 <= i < |o.effects| && IsBackendMutation(o.effects[i]) ==> i == 0)
      && (o.refreshed <==> promotes && promoted.Returns?)
      && (o.refreshed ==> o.effects[|o.effects| - 1].Info?)
  {
    var o := PromoteOutcome(node, found, state, promoted);
    if |o.effects| == 2 {
      OneMessageAfterCall(o.effects[0], o.effects[1]);
    }
  }

  /** `promoteJob`. */
  method Promote(node: Node, tree: Tree.BullMQTreeDataProvider, found: Call<bool>, state: Call<string>, promoted: Call<()>, wb: Workbench)
    requires node.JobNode?
    modifies tree`refreshes, wb
    ensures var o := PromoteOutcome(node, found, state, promoted);
      wb.log == old(wb.log) + o.effects && tree.refreshes == old(tree.refreshes) + (if o.refreshed then 1 else 0)
  {
    if node.jobQueue.None? {
      wb.Emit(Error(Failure("Queue reference not available")));
      return;
    }
    if node.jobId == "" {
      wb.Emit(Error(Failure("Job ID not available")));
      return;
    }
    if found.Throws? {
      wb.Emit(Error(Failure(found.message)));
      return;
    }
    if !found.value {
      wb.Emit(Warning("Job " + node.jobId + " not found"));
      return;
    }
    if state.Throws? {
      wb.Emit(Error(Failure(state.message)));
      return;
    }
    if state.value != "delayed" {
      wb.Emit(Warning(NotDelayed(node.jobId, state.value)));
      return;
    }
    wb.Emit(PromoteCall(node.jobQueue.value, node.jobId));
    if promoted.Throws? {
      wb.Emit(Error(Failure(promoted.message)));
      return;
    }
    wb.Emit(Info("Job " + node.jobId + " promoted successfully"));
    tree.Refresh();
  }
}
