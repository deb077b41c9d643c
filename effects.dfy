/** What the commands do to the outside world, recorded in order: messages
    and dialogs shown to the user, and calls that change the backend or the
    settings. Tree refreshes are counted on the tree provider. */
module Effects {
  import opened Wrappers
  import opened Json
  import opened Bullmq

  datatype Effect =
    | Info(text: string)
    | Warning(text: string)
    | Error(text: string)
    /** A modal dialog with its message and confirmation button. */
    | Confirm(text: string, button: string)
    | PromoteCall(queue: Queue, jobId: string)
    | RemoveCall(queue: Queue, jobId: string)
    | DrainCall(queue: Queue)
    | ObliterateCall(queue: Queue)
    | AddCall(queue: Queue, name: string, data: Json, opts: Json)
    /** An update call on the job with this id. */
    | EditCall(editedJob: Option<string>, edit: JobEdit)
    /** A virtual document opened in an editor, as a preview or not. */
    | OpenDocument(uri: string, preview: bool)
    /** `update("connections", value, Workspace)` on the extension settings. */
    | UpdateSettings(connections: Json)
    /** `reinitializeConnections()` on the registry (not modelled). */
    | ReinitializeConnections

  /** The error a virtual file system throws for a document it does not
      hold. */
  const FileNotFound := "File not found"

  /** What `stat` reports of a virtual document: its creation and
      modification times and its size in bytes. */
  datatype FileStat = FileStat(ctime: int, mtime: int, size: nat)

  predicate IsBackendMutation(e: Effect) {
    e.PromoteCall? || e.RemoveCall? || e.DrainCall? || e.ObliterateCall? || e.AddCall? || e.EditCall?
  }

  /** A notification shown to the user. */
  predicate IsMessage(e: Effect) {
    e.Info? || e.Warning? || e.Error?
  }

  /** The effects end with the one notification they show. */
  predicate EndsWithOneMessage(effects: seq<Effect>) {
    && |effects| >= 1
    && IsMessage(effects[|effects| - 1])
    && forall i :: 0 <= i < |effects| - 1 ==> !IsMessage(effects[i])
  }

  lemma OneMessageAfterCall(call: Effect, message: Effect)
    requires !IsMessage(call) && IsMessage(message)
    ensures EndsWithOneMessage([call, message])
  {
    assert [call, message][..1] == [call];
  }

  /** What a command does: its effects, and whether it refreshed the tree. */
  datatype Outcome = Outcome(effects: seq<Effect>, refreshed: bool)

  predicate NoMutation(effects: seq<Effect>) {
    forall i :: 0 <= i < |effects| ==> !IsBackendMutation(effects[i])
  }

  /** The workbench a command talks to: everything it does is appended. */
  class Workbench {
    var log: seq<Effect>

    constructor()
      ensures log == []
    {
      log := [];
    }

    method Emit(e: Effect)
      modifies this
      ensures log == old(log) + [e]
    {
      log := log + [e];
    }
  }
}
