/** The drain command: removes the waiting and delayed jobs of a queue after
    a confirmation. */
module DrainQueue {
  import opened Wrappers
  import opened Bullmq
  import opened Effects
  import opened Nodes
  import Tree

  const ConfirmButton := "Yes, Drain Queue"

  function Question(queueName: string): string {
    "Are you sure you want to drain queue \"" + queueName + "\"? This will remove all jobs from the queue."
  }

  /** What `drainQueue` does, given the button chosen in the modal dialog
      (`None` when it is dismissed) and the outcome of the drain call. */
  function DrainOutcome(node: Node, answer: Option<string>, outcome: Call<()>): Outcome
    requires node.QueueNode?
  {
    var name := node.queue.name;
    var ask := Confirm(Question(name), ConfirmButton);
    if answer != Some(ConfirmButton) then Outcome([ask], false)
    else if outcome.Throws? then
      Outcome([ask, DrainCall(node.queue), Error("Failed to drain queue \"" + name + "\": " + outcome.message)], false)
    else Outcome([ask, DrainCall(node.queue), Info("Successfully drained queue \"" + name + "\"")], true)
  }

  /** The dialog always comes first; without the confirming button nothing
      else happens; with it the node's queue is drained once, one
      notification follows, and the tree is refreshed exactly when the
      call succeeds. */
  lemma DrainOnlyConfirmed(node: Node, answer: Option<string>, outcome: Call<()>)
    requires node.QueueNode?
    ensures var o := DrainOutcome(node, answer, outcome);
      && o.effects[0] == Confirm(Question(node.queue.name), ConfirmButton)
      && (answer != Some(ConfirmButton) ==> o.effects == [o.effects[0]] && !o.refreshed)
      && (NoMutation(o.effects) <==> answer != Some(ConfirmButton))
      && (answer == Some(ConfirmButton) ==>
            o.effects[1] == DrainCall(node.queue) && EndsWithOneMessage(o.effects[1..]))
      && (o.refreshed <==> answer == Some(ConfirmButton) && outcome.Returns?)
  {
    var o := DrainOutcome(node, answer, outcome);
    if answer == Some(ConfirmButton) {
      assert o.effects[1..] == [o.effects[1], o.effects[2]];
      OneMessageAfterCall(o.effects[1], o.effects[2]);
    }
  }

  /** `drainQueue`. */
  method Drain(node: Node, tree: Tree.BullMQTreeDataProvider, answer: Option<string>, outcome: Call<()>, wb: Workbench)
    requires node.QueueNode?
    modifies tree`refreshes, wb
    ensures var o := DrainOutcome(node, answer, outcome);
      wb.log == old(wb.log) + o.effects && tree.refreshes == old(tree.refreshes) + (if o.refreshed then 1 else 0)
  {
    var queueName := node.queue.name;
    wb.Emit(Confirm(Question(queueName), ConfirmButton));
    if answer != Some(ConfirmButton) {
      return;
    }
    wb.Emit(DrainCall(node.queue));
    if outcome.Throws? {
      wb.Emit(Error("Failed to drain queue \"" + queueName + "\": " + outcome.message));
      return;
    }
    wb.Emit(Info("Successfully drained queue \"" + queueName + "\""));
    tree.Refresh();
  }
}
