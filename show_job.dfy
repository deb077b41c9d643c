/** Job documents: the virtual file system that shows a job as JSON
    (`JobFileSystemProvider`), the edit diff that turns a saved document into
    update calls, and the click handling of `showJob` / `editJob`. URIs are
    kept as their string form, which is also the key of the open-document
    table. */
module ShowJob {
  import opened Wrappers
  import opened Strings
  import opened Json
  import opened Bullmq
  import opened Effects
  import opened Nodes

  const Scheme := "bullmq-job"

  /** The path of a job's document. */
  function JobPath(queueName: string, jobId: string): string {
    "/" + queueName + "/" + jobId + ".jsonc"
  }

  /** `getJobUri(queueName, jobId).toString()`. */
  function JobUri(queueName: string, jobId: string): string {
    Scheme + ":" + JobPath(queueName, jobId)
  }

  lemma SlashSplitUnique(a: string, x: string, b: string, y: string)
    requires '/' !in a && '/' !in b
    requires a + "/" + x == b + "/" + y
    ensures a == b && x == y
  {
    SplitAfterPiece(a, x, '/');
    SplitAfterPiece(b, y, '/');
    assert [a] + Split(x, '/') == [b] + Split(y, '/');
    assert a == ([a] + Split(x, '/'))[0];
    assert x == (a + "/" + x)[|a| + 1..];
    assert y == (b + "/" + y)[|b| + 1..];
  }

  /** Two jobs share a document exactly when they are the same job, as long
      as queue names hold no `/`. */
  lemma JobUriInjective(q1: string, id1: string, q2: string, id2: string)
    requires '/' !in q1 && '/' !in q2
    ensures JobUri(q1, id1) == JobUri(q2, id2) <==> q1 == q2 && id1 == id2
  {
    if JobUri(q1, id1) == JobUri(q2, id2) {
      var n := |Scheme + ":/"|;
      assert JobUri(q1, id1)[n..] == q1 + "/" + (id1 + ".jsonc");
      assert JobUri(q2, id2)[n..] == q2 + "/" + (id2 + ".jsonc");
      SlashSplitUnique(q1, id1 + ".jsonc", q2, id2 + ".jsonc");
      assert id1 == (id1 + ".jsonc")[..|id1|];
      assert id2 == (id2 + ".jsonc")[..|id2|];
    }
  }

  /** With a `/` in a queue name, two different jobs share one document. */
  lemma JobUriCollision()
    ensures JobUri("a/b", "c") == JobUri("a", "b/c")
  {
  }

  // ---------------------------------------------------------------------
  // Formatting
  // ---------------------------------------------------------------------

  /** `${x}` of an optional string. */
  function OrUndefined(s: Option<string>): string {
    if s.Some? then s.value else "undefined"
  }

  /** A member of the job object, dropped when its value is `undefined`, as
      `JSON.stringify` drops it. */
  function Member(key: string, value: Option<Json>): seq<(string, Json)> {
    if value.Some? then [(key, value.value)] else []
  }

  function OptNum(n: Option<int>): Option<Json> {
    if n.Some? then Some(JNum(n.value)) else None
  }

  function OptStr(s: Option<string>): Option<Json> {
    if s.Some? then Some(JStr(s.value)) else None
  }

  /** The members of a job's object up to its data. */
  function UpToData(job: Job): seq<(string, Json)> {
    Member("id", OptStr(job.id)) + [("name", JStr(job.name)), ("data", job.data)]
  }

  /** The members of a job's object between its progress and its delay. */
  function AfterProgress(job: Job): seq<(string, Json)> {
    Member("returnvalue", job.returnvalue)
    + Member("failedReason", OptStr(job.failedReason))
    + [("stacktrace", JArr(seq(|job.stacktrace|, i requires 0 <= i < |job.stacktrace| => JStr(job.stacktrace[i])))),
       ("timestamp", JNum(job.timestamp))]
    + Member("processedOn", OptNum(job.processedOn))
    + Member("finishedOn", OptNum(job.finishedOn))
    + [("attemptsMade", JNum(job.attemptsMade))]
  }

  /** The object the document shows: the job's fields in the order the
      viewer lists them, a field that is undefined being left out. */
  function JobJson(job: Job): Json {
    JObj(UpToData(job) + [("opts", job.opts), ("progress", job.progress)] + AfterProgress(job)
      + [("delay", JNum(job.delay)), ("priority", JNum(job.priority))])
  }

  function EditHeader(id: Option<string>): string {
    "/**\n * Edit Job: " + OrUndefined(id) + "\n * \n * Editable fields:\n"
    + " *   - data: Update job data (any JSON-serializable value)\n"
    + " *   - progress: Update job progress (number, 0-100)\n"
    + " *   - delay: Change delay if job is delayed (number, milliseconds)\n"
    + " *   - priority: Change priority (number, 1-2097152, lower = higher priority)\n"
    + " * \n * Note: Other fields are read-only and will be ignored if changed.\n */\n"
  }

  /** `formatJobDetails`. */
  function FormatJobDetails(job: Job, editable: bool): string {
    if editable then EditHeader(job.id) + Pretty(JobJson(job)) else Pretty(JobJson(job))
  }

  // ---------------------------------------------------------------------
  // The edit diff
  // ---------------------------------------------------------------------

  /** The data comparison: `JSON.stringify` of both sides differ (the text
      of `undefined` is `undefined`, unlike any value's). */
  predicate DataChanged(updated: Option<Json>, current: Json) {
    updated.None? || Compact(updated.value) != Compact(current)
  }

  /** Data whose key was written twice in the document, last with the
      stored value, is the stored object and is not sent again. */
  lemma RewrittenKeyIsNoChange(first: (string, Json), last: (string, Json))
    requires first == ("a", JNum(1)) && last == ("a", JNum(2))
    ensures !DataChanged(Some(JObj([first, last])), JObj([last]))
  {
    DuplicateKeyPrintedOnce(first, last);
  }

  function DataEdit(updated: Json, job: Job): seq<JobEdit> {
    var data := Field(updated, "data");
    if DataChanged(data, job.data) then [UpdateData(data)] else []
  }

  function ProgressEdit(updated: Json, job: Job): seq<JobEdit> {
    var progress := Field(updated, "progress");
    if progress.Some? && !StrictEquals(progress.value, job.progress) then [UpdateProgress(progress.value)] else []
  }

  /** A delay change is issued only for a job whose delay is non-zero. */
  function DelayEdit(updated: Json, job: Job): seq<JobEdit> {
    var delay := Field(updated, "delay");
    if delay.Some? && !StrictEquals(delay.value, JNum(job.delay)) && job.delay != 0 then [ChangeDelay(delay.value)] else []
  }

  function PriorityEdit(updated: Json, job: Job): seq<JobEdit> {
    var priority := Field(updated, "priority");
    if priority.Some? && !StrictEquals(priority.value, JNum(job.priority)) then [ChangePriority(priority.value)] else []
  }

  /** The update calls a saved document causes, in the order issued. */
  function EditDiff(updated: Json, job: Job): seq<JobEdit> {
    DataEdit(updated, job) + ProgressEdit(updated, job) + DelayEdit(updated, job) + PriorityEdit(updated, job)
  }

  /** Each kind of update is issued at most once, and exactly when its
      field changed: data by its text, progress and priority when present
      and not strictly equal, delay likewise but only for a job whose delay
      is non-zero. Nothing else is ever updated. */
  lemma EditDiffSpec(updated: Json, job: Job)
    ensures var d := EditDiff(updated, job);
      && |d| <= 4
      && ((exists e :: e in d && e.UpdateData?) <==> DataChanged(Field(updated, "data"), job.data))
      && ((exists e :: e in d && e.UpdateProgress?) <==>
            Field(updated, "progress").Some? && !StrictEquals(Field(updated, "progress").value, job.progress))
      && ((exists e :: e in d && e.ChangeDelay?) <==>
            Field(updated, "delay").Some? && !StrictEquals(Field(updated, "delay").value, JNum(job.delay)) && job.delay != 0)
      && ((exists e :: e in d && e.ChangePriority?) <==>
            Field(updated, "priority").Some? && !StrictEquals(Field(updated, "priority").value, JNum(job.priority)))
      && (forall e :: e in d && e.UpdateData? ==> e.data == Field(updated, "data"))
      && (forall e :: e in d && e.UpdateProgress? ==> Some(e.progress) == Field(updated, "progress"))
      && (forall e :: e in d && e.ChangeDelay? ==> Some(e.delay) == Field(updated, "delay"))
      && (forall e :: e in d && e.ChangePriority? ==> Some(e.priority) == Field(updated, "priority"))
  {
    DataEditIssued(updated, job);
    ProgressEditIssued(updated, job);
    DelayEditIssued(updated, job);
    PriorityEditIssued(updated, job);
  }

  /** The diff holds what its four pieces hold. */
  lemma EditDiffMembers(updated: Json, job: Job)
    ensures forall x :: x in EditDiff(updated, job) <==>
      x in DataEdit(updated, job) || x in ProgressEdit(updated, job) || x in DelayEdit(updated, job) || x in PriorityEdit(updated, job)
  {
    var a, b, c, e := DataEdit(updated, job), ProgressEdit(updated, job), DelayEdit(updated, job), PriorityEdit(updated, job);
    assert EditDiff(updated, job) == a + b + c + e;
  }

  lemma DataEditIssued(updated: Json, job: Job)
    ensures (exists x :: x in EditDiff(updated, job) && x.UpdateData?) <==> DataChanged(Field(updated, "data"), job.data)
    ensures forall x :: x in EditDiff(updated, job) && x.UpdateData? ==> x.data == Field(updated, "data")
  {
    EditDiffMembers(updated, job);
    var a := DataEdit(updated, job);
    if a != [] { assert a[0] in EditDiff(updated, job); }
  }

  lemma ProgressEditIssued(updated: Json, job: Job)
    ensures (exists x :: x in EditDiff(updated, job) && x.UpdateProgress?) <==>
      Field(updated, "progress").Some? && !StrictEquals(Field(updated, "progress").value, job.progress)
    ensures forall x :: x in EditDiff(updated, job) && x.UpdateProgress? ==> Some(x.progress) == Field(updated, "progress")
  {
    EditDiffMembers(updated, job);
    var b := ProgressEdit(updated, job);
    if b != [] { assert b[0] in EditDiff(updated, job); }
  }

  lemma DelayEditIssued(updated: Json, job: Job)
    ensures (exists x :: x in EditDiff(updated, job) && x.ChangeDelay?) <==>
      Field(updated, "delay").Some? && !StrictEquals(Field(updated, "delay").value, JNum(job.delay)) && job.delay != 0
    ensures forall x :: x in EditDiff(updated, job) && x.ChangeDelay? ==> Some(x.delay) == Field(updated, "delay")
  {
    EditDiffMembers(updated, job);
    var c := DelayEdit(updated, job);
    if c != [] { assert c[0] in EditDiff(updated, job); }
  }

  lemma PriorityEditIssued(updated: Json, job: Job)
    ensures (exists x :: x in EditDiff(updated, job) && x.ChangePriority?) <==>
      Field(updated, "priority").Some? && !StrictEquals(Field(updated, "priority").value, JNum(job.priority))
    ensures forall x :: x in EditDiff(updated, job) && x.ChangePriority? ==> Some(x.priority) == Field(updated, "priority")
  {
    EditDiffMembers(updated, job);
    var e := PriorityEdit(updated, job);
    if e != [] { assert e[0] in EditDiff(updated, job); }
  }

  lemma AfterProgressKeys(job: Job)
    ensures forall m :: m in AfterProgress(job) ==> m.0 != "data" && m.0 != "progress" && m.0 != "delay" && m.0 != "priority"
  {
  }

  lemma JobJsonDelayPriority(job: Job)
    ensures Field(JobJson(job), "priority") == Some(JNum(job.priority))
    ensures Field(JobJson(job), "delay") == Some(JNum(job.delay))
  {
    var pre := UpToData(job) + [("opts", job.opts), ("progress", job.progress)] + AfterProgress(job);
    assert JobJson(job).members == pre + [("delay", JNum(job.delay))] + [("priority", JNum(job.priority))];
    FieldLast(pre + [("delay", JNum(job.delay))], "priority", JNum(job.priority));
    FieldAppend(pre + [("delay", JNum(job.delay))], [("priority", JNum(job.priority))], "delay");
    FieldLast(pre, "delay", JNum(job.delay));
  }

  lemma JobJsonProgress(job: Job)
    ensures Field(JobJson(job), "progress") == Some(job.progress)
  {
    AfterProgressKeys(job);
    var mid := UpToData(job) + [("opts", job.opts), ("progress", job.progress)];
    var tail := [("delay", JNum(job.delay)), ("priority", JNum(job.priority))];
    FieldAppend(mid + AfterProgress(job), tail, "progress");
    FieldAppend(mid, AfterProgress(job), "progress");
    assert mid == UpToData(job) + [("opts", job.opts)] + [("progress", job.progress)];
    FieldLast(UpToData(job) + [("opts", job.opts)], "progress", job.progress);
  }

  lemma JobJsonData(job: Job)
    ensures Field(JobJson(job), "data") == Some(job.data)
  {
    var head := Member("id", OptStr(job.id)) + [("name", JStr(job.name))];
    var opts := [("opts", job.opts), ("progress", job.progress)];
    var after := AfterProgress(job);
    var tail := [("delay", JNum(job.delay)), ("priority", JNum(job.priority))];
    assert UpToData(job) == head + [("data", job.data)];
    assert JobJson(job).members == UpToData(job) + opts + after + tail;
    AfterProgressKeys(job);
    FieldAppend(UpToData(job) + opts + after, tail, "data");
    FieldAppend(UpToData(job) + opts, after, "data");
    FieldAppend(UpToData(job), opts, "data");
    FieldLast(head, "data", job.data);
  }

  /** Saving a job's own document unchanged issues no update, except that
      a progress held as an array or object is never strictly equal to its
      re-parsed copy and is re-sent. */
  lemma SavingUnchangedDocument(job: Job)
    ensures EditDiff(JobJson(job), job) ==
      if job.progress.JArr? || job.progress.JObj? then [UpdateProgress(job.progress)] else []
  {
    JobJsonData(job);
    JobJsonProgress(job);
    JobJsonDelayPriority(job);
  }

  // ---------------------------------------------------------------------
  // The document table
  // ---------------------------------------------------------------------

  /** An open job document. */
  datatype DocInfo = DocInfo(jobNode: Node, job: Option<Job>, error: Option<string>, editable: bool, mtime: int)

  const ReadOnlyMessage := "Job details are read-only. Use 'Edit' command to enable editing."
  const JobInfoMissing := "Job information not available"
  /** The engine's message for reading `data` of a document that is `null`. */
  const NullDocumentMessage := NullPropertyMessage("data")

  /** The queue a document's node refers to. */
  function NodeQueue(n: Node): Option<Queue> {
    if n.JobNode? then n.jobQueue else None
  }

  /** What `readFile` returns for a document. */
  function DocumentContent(doc: DocInfo): string {
    if doc.error.Some? && doc.error.value != "" then Pretty(JObj([("error", JStr(doc.error.value))]))
    else if doc.job.None? then "Loading job data..."
    else FormatJobDetails(doc.job.value, doc.editable)
  }

  class JobFileSystemProvider {
    var openDocuments: map<string, DocInfo>
    /** The URIs of the change events fired so far. */
    var changed: seq<string>

    constructor()
      ensures openDocuments == map[] && changed == []
    {
      openDocuments := map[];
      changed := [];
    }

    /** `stat`: sizes the job's text, or "Loading..." without a job; the
        error is not looked at. */
    function Stat(uri: string): (r: Result<FileStat, string>)
      reads this
      ensures uri !in openDocuments <==> r == Err(FileNotFound)
      ensures r.Ok? ==> r.value.ctime == r.value.mtime == openDocuments[uri].mtime
    {
      if uri !in openDocuments then Err(FileNotFound)
      else
        var doc := openDocuments[uri];
        var content := if doc.job.Some? then FormatJobDetails(doc.job.value, doc.editable) else "Loading...";
        Ok(FileStat(doc.mtime, doc.mtime, Utf8Length(content)))
    }

    /** `readFile`. */
    function ReadFile(uri: string): (r: Result<string, string>)
      reads this
      ensures uri !in openDocuments <==> r == Err(FileNotFound)
      ensures uri in openDocuments ==> r == Ok(DocumentContent(openDocuments[uri]))
    {
      if uri !in openDocuments then Err(FileNotFound) else Ok(DocumentContent(openDocuments[uri]))
    }

    /** `registerDocument`: any earlier entry for the URI is replaced. */
    method RegisterDocument(jobNode: Node, uri: string, job: Option<Job>, error: Option<string>, editable: bool, now: int)
      modifies this
      ensures openDocuments == old(openDocuments)[uri := DocInfo(jobNode, job, error, editable, now)]
      ensures changed == old(changed) + [uri]
    {
      openDocuments := openDocuments[uri := DocInfo(jobNode, job, error, editable, now)];
      changed := changed + [uri];
    }

    /** `updateJob`. */
    method UpdateJob(uri: string, job: Job, skipNotifyAfterSave: bool, now: int)
      modifies this
      ensures uri !in old(openDocuments) ==> openDocuments == old(openDocuments) && changed == old(changed)
      ensures uri in old(openDocuments) ==>
        var doc := old(openDocuments)[uri];
        && openDocuments == old(openDocuments)[uri := doc.(job := Some(job), error := None,
                                                          mtime := if skipNotifyAfterSave then doc.mtime else now)]
        && changed == old(changed) + (if skipNotifyAfterSave then [] else [uri])
    {
      if uri in openDocuments {
        var doc := openDocuments[uri].(job := Some(job), error := None);
        openDocuments := openDocuments[uri := doc];
        if skipNotifyAfterSave {
          return;
        }
        openDocuments := openDocuments[uri := doc.(mtime := now)];
        changed := changed + [uri];
      }
    }

    /** `updateError`. */
    method UpdateError(uri: string, error: string)
      modifies this
      ensures uri !in old(openDocuments) ==> openDocuments == old(openDocuments) && changed == old(changed)
      ensures uri in old(openDocuments) ==>
        && openDocuments == old(openDocuments)[uri := old(openDocuments)[uri].(error := Some(error), job := None)]
        && changed == old(changed) + [uri]
    {
      if uri in openDocuments {
        openDocuments := openDocuments[uri := openDocuments[uri].(error := Some(error), job := None)];
        changed := changed + [uri];
      }
    }

    /** `unregisterDocument`. */
    method UnregisterDocument(uri: string)
      modifies this`openDocuments
      ensures openDocuments == old(openDocuments) - {uri}
    {
      openDocuments := openDocuments - {uri};
    }

    /** The update calls of a save, issued one by one. */
    method IssueEdits(updated: Json, job: Job, wb: Workbench)
      modifies wb
      ensures wb.log == old(wb.log) + EditCalls(job.id, EditDiff(updated, job))
    {
      IssueDataEdit(updated, job, wb);
      IssueProgressEdit(updated, job, wb);
      IssueDelayEdit(updated, job, wb);
      IssuePriorityEdit(updated, job, wb);
      EditCallsAppend(job.id, DataEdit(updated, job), ProgressEdit(updated, job));
      EditCallsAppend(job.id, DataEdit(updated, job) + ProgressEdit(updated, job), DelayEdit(updated, job));
      EditCallsAppend(job.id, DataEdit(updated, job) + ProgressEdit(updated, job) + DelayEdit(updated, job), PriorityEdit(updated, job));
    }

    method IssueDataEdit(updated: Json, job: Job, wb: Workbench)
      modifies wb
      ensures wb.log == old(wb.log) + EditCalls(job.id, DataEdit(updated, job))
    {
      var data := Field(updated, "data");
      if DataChanged(data, job.data) {
        wb.Emit(EditCall(job.id, UpdateData(data)));
      }
    }

    method IssueProgressEdit(updated: Json, job: Job, wb: Workbench)
      modifies wb
      ensures wb.log == old(wb.log) + EditCalls(job.id, ProgressEdit(updated, job))
    {
      var progress := Field(updated, "progress");
      if progress.Some? && !StrictEquals(progress.value, job.progress) {
        wb.Emit(EditCall(job.id, UpdateProgress(progress.value)));
      }
    }

    /** The delay is changed only for a job whose delay is non-zero. */
    method IssueDelayEdit(updated: Json, job: Job, wb: Workbench)
      modifies wb
      ensures wb.log == old(wb.log) + EditCalls(job.id, DelayEdit(updated, job))
    {
      var delay := Field(updated, "delay");
      if delay.Some? && !StrictEquals(delay.value, JNum(job.delay)) {
        if job.delay != 0 {
          wb.Emit(EditCall(job.id, ChangeDelay(delay.value)));
        }
      }
    }

    method IssuePriorityEdit(updated: Json, job: Job, wb: Workbench)
      modifies wb
      ensures wb.log == old(wb.log) + EditCalls(job.id, PriorityEdit(updated, job))
    {
      var priority := Field(updated, "priority");
      if priority.Some? && !StrictEquals(priority.value, JNum(job.priority)) {
        wb.Emit(EditCall(job.id, ChangePriority(priority.value)));
      }
    }

    /** `writeFile`. `parsed` is the parsed document or the parser's
        message; `updates` the outcome of awaiting the update calls;
        `refetched` that of reading the job again. The result is `Ok` or
        the message of the error thrown. */
    method WriteFile(uri: string, parsed: Result<Json, string>, updates: Call<()>, refetched: Call<Option<Job>>, wb: Workbench)
      returns (r: Result<(), string>)
      modifies this`openDocuments, wb
      ensures uri !in old(openDocuments) ==> r == Err(FileNotFound)
      ensures uri in old(openDocuments) && !old(openDocuments)[uri].editable ==> r == Err(ReadOnlyMessage)
      ensures uri in old(openDocuments) && old(openDocuments)[uri].editable
              && (old(openDocuments)[uri].job.None? || NodeQueue(old(openDocuments)[uri].jobNode).None?) ==>
        r == Err(JobInfoMissing)
      ensures !Saves(old(openDocuments), uri) ==>
        openDocuments == old(openDocuments) && wb.log == old(wb.log)
      ensures Saves(old(openDocuments), uri) ==>
        var job := old(openDocuments)[uri].job.value;
        match parsed
        case Err(m) => r == Err("Invalid JSON: " + m) && openDocuments == old(openDocuments) && wb.log == old(wb.log)
        case Ok(j) =>
          if j.JNull? then
            r == Err("Failed to update job: " + NullDocumentMessage) && openDocuments == old(openDocuments) && wb.log == old(wb.log)
          else
            var issued := old(wb.log) + EditCalls(job.id, EditDiff(j, job));
            if updates.Throws? then
              r == Err("Failed to update job: " + updates.message) && openDocuments == old(openDocuments) && wb.log == issued
            else if refetched.Throws? then
              r == Err("Failed to update job: " + refetched.message) && openDocuments == old(openDocuments) && wb.log == issued
            else if refetched.value.None? then
              r == Ok(()) && openDocuments == old(openDocuments) && wb.log == issued
            else
              && r == Ok(())
              && openDocuments == old(openDocuments)[uri := old(openDocuments)[uri].(job := refetched.value, error := None)]
              && wb.log == issued + [Info("Job " + OrUndefined(job.id) + " updated successfully")]
    {
      if uri !in openDocuments {
        return Err(FileNotFound);
      }
      var docInfo := openDocuments[uri];
      if !docInfo.editable {
        return Err(ReadOnlyMessage);
      }
      if docInfo.job.None? || NodeQueue(docInfo.jobNode).None? {
        return Err(JobInfoMissing);
      }
      var job := docInfo.job.value;
      if parsed.Err? {
        return Err("Invalid JSON: " + parsed.error);
      }
      var updatedData := parsed.value;
      if updatedData.JNull? {
        return Err("Failed to update job: " + NullDocumentMessage);
      }
      IssueEdits(updatedData, job, wb);
      if updates.Throws? {
        return Err("Failed to update job: " + updates.message);
      }
      if refetched.Throws? {
        return Err("Failed to update job: " + refetched.message);
      }
      if refetched.value.Some? {
        openDocuments := openDocuments[uri := openDocuments[uri].(job := refetched.value, error := None)];
        wb.Emit(Info("Job " + OrUndefined(job.id) + " updated successfully"));
      }
      return Ok(());
    }
  }

  /** A save gets past the guards: the document is open, editable, holds a
      job and its node a queue. */
  predicate Saves(docs: map<string, DocInfo>, uri: string) {
    uri in docs && docs[uri].editable && docs[uri].job.Some? && NodeQueue(docs[uri].jobNode).Some?
  }

  function EditCalls(id: Option<string>, edits: seq<JobEdit>): (r: seq<Effect>)
    ensures |r| == |edits| && forall i :: 0 <= i < |edits| ==> r[i] == EditCall(id, edits[i])
  {
    seq(|edits|, i requires 0 <= i < |edits| => EditCall(id, edits[i]))
  }

  lemma EditCallsAppend(id: Option<string>, a: seq<JobEdit>, b: seq<JobEdit>)
    ensures EditCalls(id, a + b) == EditCalls(id, a) + EditCalls(id, b)
  {
  }

  // ---------------------------------------------------------------------
  // Clicks
  // ---------------------------------------------------------------------

  datatype ClickInfo = ClickInfo(jobId: string, queueName: string, timestamp: int)

  const DoubleClickThreshold := 300

  /** The second click on the same job of the same queue within the
      threshold. */
  predicate IsDoubleClick(lastClick: Option<ClickInfo>, jobId: string, queueName: string, now: int) {
    lastClick.Some? && lastClick.value.jobId == jobId && lastClick.value.queueName == queueName
    && now - lastClick.value.timestamp < DoubleClickThreshold
  }

  /** The module's state: the registered provider and the last click. */
  class JobViewer {
    var fileSystemProvider: JobFileSystemProvider?
    var lastClick: Option<ClickInfo>

    constructor()
      ensures fileSystemProvider == null && lastClick == None
    {
      fileSystemProvider := null;
      lastClick := None;
    }

    /** `registerShowJobDocumentProvider`. */
    method RegisterProvider()
      modifies this`fileSystemProvider
      ensures fileSystemProvider != null && fresh(fileSystemProvider)
      ensures fileSystemProvider.openDocuments == map[] && fileSystemProvider.changed == []
    {
      fileSystemProvider := new JobFileSystemProvider();
    }

    /** `showJob`: `now` is the click's time, `opening` the outcome of
        opening and showing the document, `loadedAt` the time the job
        arrived, `loaded` the outcome of fetching it. Returns whether the
        document was shown as a preview, if it was shown. When opening
        fails the document stays registered, the click is remembered and
        the job is never fetched. */
    method ShowJob(node: Node, preview: bool, editable: bool, now: int, opening: Call<()>, loadedAt: int, loaded: Call<Option<Job>>, wb: Workbench)
      returns (shown: Option<bool>)
      requires node.JobNode?
      modifies this`lastClick, fileSystemProvider, wb
      ensures fileSystemProvider == old(fileSystemProvider)
      ensures Reject(old(fileSystemProvider) != null, node).Some? ==>
        && shown == None && lastClick == old(lastClick)
        && wb.log == old(wb.log) + [Error("Failed to open job details: " + Reject(old(fileSystemProvider) != null, node).value)]
      ensures Reject(old(fileSystemProvider) != null, node).None? ==>
        lastClick == Some(ClickInfo(node.jobId, node.jobQueue.value.name, now))
      ensures Reject(old(fileSystemProvider) != null, node).None? && opening.Throws? ==>
        var uri := JobUri(node.jobQueue.value.name, node.jobId);
        && shown == None
        && wb.log == old(wb.log) + [Error("Failed to open job details: " + opening.message)]
        && fileSystemProvider.openDocuments == old(fileSystemProvider.openDocuments)[uri := DocInfo(node, None, None, editable, now)]
        && fileSystemProvider.changed == old(fileSystemProvider.changed) + [uri]
      ensures Reject(old(fileSystemProvider) != null, node).None? && opening.Returns? ==>
        var queueName := node.jobQueue.value.name;
        var uri := JobUri(queueName, node.jobId);
        var shouldPreview := preview && !IsDoubleClick(old(lastClick), node.jobId, queueName, now);
        var registered := old(fileSystemProvider.openDocuments)[uri := DocInfo(node, None, None, editable, now)];
        && shown == Some(shouldPreview)
        && match loaded
           case Returns(Some(job)) =>
             && wb.log == old(wb.log) + [OpenDocument(uri, shouldPreview)]
             && fileSystemProvider.openDocuments == registered[uri := DocInfo(node, Some(job), None, editable, loadedAt)]
             && fileSystemProvider.changed == old(fileSystemProvider.changed) + [uri, uri]
           case _ =>
             var message := if loaded.Throws? then loaded.message else "Job " + node.jobId + " not found";
             && wb.log == old(wb.log) + [OpenDocument(uri, shouldPreview), Error("Failed to load job data: " + message)]
             && fileSystemProvider.openDocuments == registered[uri := DocInfo(node, None, Some(message), editable, now)]
             && fileSystemProvider.changed == old(fileSystemProvider.changed) + [uri, uri]
    {
      var reason := Reject(fileSystemProvider != null, node);
      if reason.Some? {
        wb.Emit(Error("Failed to open job details: " + reason.value));
        return None;
      }
      var queueName := node.jobQueue.value.name;
      var jobId := node.jobId;
      var uri := JobUri(queueName, jobId);
      var isDoubleClick := IsDoubleClick(lastClick, jobId, queueName, now);
      lastClick := Some(ClickInfo(jobId, queueName, now));
      var shouldPreview := preview && !isDoubleClick;
      fileSystemProvider.RegisterDocument(node, uri, None, None, editable, now);
      if opening.Throws? {
        wb.Emit(Error("Failed to open job details: " + opening.message));
        return None;
      }
      wb.Emit(OpenDocument(uri, shouldPreview));
      if loaded.Returns? && loaded.value.Some? {
        fileSystemProvider.UpdateJob(uri, loaded.value.value, false, loadedAt);
      } else {
        var message := if loaded.Throws? then loaded.message else "Job " + jobId + " not found";
        wb.Emit(Error("Failed to load job data: " + message));
        fileSystemProvider.UpdateError(uri, message);
      }
      return Some(shouldPreview);
    }

    /** `editJob`: always a permanent, editable document. */
    method EditJob(node: Node, now: int, opening: Call<()>, loadedAt: int, loaded: Call<Option<Job>>, wb: Workbench) returns (shown: Option<bool>)
      requires node.JobNode?
      modifies this`lastClick, fileSystemProvider, wb
      ensures shown.Some? ==> shown == Some(false)
      ensures shown.Some? ==>
        && fileSystemProvider != null && node.jobQueue.Some?
        && JobUri(node.jobQueue.value.name, node.jobId) in fileSystemProvider.openDocuments
        && fileSystemProvider.openDocuments[JobUri(node.jobQueue.value.name, node.jobId)].editable
    {
      shown := ShowJob(node, false, true, now, opening, loadedAt, loaded, wb);
    }
  }

  /** Why `showJob` gives up before opening anything, if it does. */
  function Reject(registered: bool, node: Node): Option<string>
    requires node.JobNode?
  {
    if !registered then Some("FileSystemProvider not registered")
    else if node.jobQueue.None? then Some("Queue reference not available")
    else if node.jobId == "" then Some("Job ID not available")
    else None
  }

  /** A click is a preview only if asked for and not a double click; a
      second click within the threshold on the same job opens it for good. */
  lemma DoubleClickOpensPermanently(first: int, second: int, jobId: string, queueName: string)
    requires 0 <= second - first < DoubleClickThreshold
    ensures IsDoubleClick(Some(ClickInfo(jobId, queueName, first)), jobId, queueName, second)
    ensures !IsDoubleClick(Some(ClickInfo(jobId, queueName, first)), jobId, queueName, first + DoubleClickThreshold)
    ensures forall other :: other != jobId ==> !IsDoubleClick(Some(ClickInfo(jobId, queueName, first)), other, queueName, second)
  {
  }

  /** `stat` and `readFile` disagree while the job loads: `stat` sizes
      "Loading..." (10 bytes), `readFile` returns "Loading job data..."
      (19 bytes). */
  lemma StatWhileLoading(p: JobFileSystemProvider, uri: string)
    requires uri in p.openDocuments
    requires p.openDocuments[uri].job.None?
    requires !(p.openDocuments[uri].error.Some? && p.openDocuments[uri].error.value != "")
    ensures p.Stat(uri).value.size == 10 && Utf8Length(p.ReadFile(uri).value) == 19
  {
    var doc := p.openDocuments[uri];
    assert p.Stat(uri) == Ok(FileStat(doc.mtime, doc.mtime, Utf8Length("Loading...")));
    assert p.ReadFile(uri) == Ok("Loading job data...");
    LoadingTextLengths("Loading...", "Loading job data...");
  }

  lemma LoadingTextLengths(stat: string, read: string)
    requires stat == "Loading..." && read == "Loading job data..."
    ensures Utf8Length(stat) == 10 && Utf8Length(read) == 19
  {
    AsciiUtf8Length(stat);
    AsciiUtf8Length(read);
  }

  /** With the job loaded and no error, `stat` sizes what `readFile` returns. */
  lemma StatOfLoadedJob(p: JobFileSystemProvider, uri: string)
    requires uri in p.openDocuments
    requires p.openDocuments[uri].job.Some?
    requires !(p.openDocuments[uri].error.Some? && p.openDocuments[uri].error.value != "")
    ensures p.Stat(uri).value.size == Utf8Length(p.ReadFile(uri).value)
  {
  }
}
