/** The obliterate command: removes a queue and everything in it after a
    confirmation. */
module ObliterateQueue {
  import opened Wrappers
  import opened Bullmq
  import opened Effects
  import opened Nodes
  import Tree

  const ConfirmButton := "Yes, Obliterate Queue"

  function Question(queueName: string): string {
    "Are you sure you want to obliterate queue \"" + queueName + "\"? This will completely remove the queue and all of its contents "
    + "(including active, completed, and failed jobs). This action cannot be undone."
  }

  /** What `obliterateQueue` does, given the button chosen in the modal dialog
      (`None` when it is dismissed) and the outcome of the obliterate call. */
  function ObliterateOutcome(node: Node, answer: Option<string>, outcome: Call<()>): Outcome
    requires node.QueueNode?
  {
    var name := node.queue.name;
    var ask := Confirm(Question(name), ConfirmButton);
    if answer != Some(ConfirmButton) then Outcome([ask], false)
    else if outcome.Throws? then
      Outcome([ask, ObliterateCall(node.queue), Error("Failed to obliterate queue \"" + name + "\": " + outcome.message)], false)
    else Outcome([ask, ObliterateCall(node.queue), Info("Successfully obliterated queue \"" + name + "\"")], true)
  }

  /** The dialog always comes first; without the confirming button nothing
      else happens; with it the node's queue is obliterated once, one
      notification follows, and the tree is refreshed exactly when the
      call succeeds. */
  lemma ObliterateOnlyConfirmed(node: Node, answer: Option<string>, outcome: Call<()>)
    requires node.QueueNode?
    ensures var o := ObliterateOutcome(node, answer, outcome);
      && o.effects[0] == Confirm(Question(node.queue.name), ConfirmButton)
      && (answer != Some(ConfirmButton) ==> o.effects == [o.effects[0]] && !o.refreshed)
      && (NoMutation(o.effects) <==> answer != Some(ConfirmButton))
      && (answer == Some(ConfirmButton) ==>
            o.effects[1] == ObliterateCall(node.queue) && EndsWithOneMessage(o.effects[1..]))
      && (o.refreshed <==> answer == Some(ConfirmButton) && outcome.Returns?)
  {
    var o := ObliterateOutcome(node, answer, outcome);
    var ask := Confirm(Question(node.queue.name), ConfirmButton);
    if answer != Some(ConfirmButton) {
      assert o == Outcome([ask], false);
    } else {
      var call, message := ObliterateCall(node.queue), o.effects[2];
      assert o.effects == [ask, call, message];
      assert o.effects[1..] == [call, message];
      OneMessageAfterCall(call, message);
      assert IsBackendMutation(o.effects[1]);
    }
  }

  /** `obliterateQueue`. */
  method Obliterate(node: Node, tree: Tree.BullMQTreeDataProvider, answer: Option<string>, outcome: Call<()>, wb: Workbench)
    requires node.QueueNode?
    modifies tree`refreshes, wb
    ensures var o := ObliterateOutcome(node, answer, outcome);
      wb.log == old(wb.log) + o.effects && tree.refreshes == old(tree.refreshes) + (if o.refreshed then 1 else 0)
  {
    var queueName := node.queue.name;
    wb.Emit(Confirm(Question(queueName), ConfirmButton));
    if answer != Some(ConfirmButton) {
      return;
    }
    wb.Emit(ObliterateCall(node.queue));
    if outcome.Throws? {
      wb.Emit(Error("Failed to obliterate queue \"" + queueName + "\": " + outcome.message));
      return;
    }
    wb.Emit(Info("Successfully obliterated queue \"" + queueName + "\""));
    tree.Refresh();
  }
}
