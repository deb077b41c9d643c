/** The create-job command: a virtual JSONC document, one per queue, that
    holds a job template; saving it validates the template and adds the job
    to the queue the document was opened from. */
module CreateJob {
  import opened Wrappers
  import opened Strings
  import opened Json
  import opened Bullmq
  import opened Effects
  import opened Nodes
  import Tree

  const Scheme := "bullmq-create-job"
  const Suffix := "-job.jsonc"

  // ---------------------------------------------------------------------
  // Document paths
  // ---------------------------------------------------------------------

  /** The path of a queue's create-job document. */
  function CreateJobPath(queueName: string): string {
    "/" + queueName + Suffix
  }

  /** The document's URI as a string, the key of the open-document table. */
  function DocumentKey(path: string): string {
    Scheme + ":" + path
  }

  /** The queue name read back from a path: the first "/" and then the
      first "-job.jsonc" are removed. */
  function QueueNameOf(path: string): string {
    ReplaceFirst(ReplaceFirst(path, "/", ""), Suffix, "")
  }

  lemma SuffixDashOnlyFirst(k: int)
    requires 0 < k < |Suffix|
    ensures Suffix[k] != '-'
  {
  }

  /** The suffix occurs in `q + Suffix` before its own position only if it
      occurs in `q`: its one dash cannot overlap the appended copy. */
  lemma SuffixOnlyAtEnd(q: string, j: int)
    requires 0 <= j < |q|
    requires OccursAt(q + Suffix, Suffix, j)
    ensures OccursAt(q, Suffix, j)
  {
    var s := q + Suffix;
    if j + |Suffix| > |q| {
      var k := |q| - j;
      assert s[j..j + |Suffix|][k] == Suffix[k];
      assert s[j..j + |Suffix|][k] == s[|q|] == Suffix[0];
      SuffixDashOnlyFirst(k);
      assert false;
    }
    assert s[j..j + |Suffix|] == q[j..j + |Suffix|];
  }

  /** Removing the first "/" from a document path leaves the queue name
      followed by the suffix. */
  lemma SlashRemoved(q: string)
    ensures ReplaceFirst(CreateJobPath(q), "/", "") == q + Suffix
  {
    var path := CreateJobPath(q);
    assert OccursAt(path, "/", 0);
    assert IndexOf(path, "/") == Some(0);
    assert path[1..] == q + Suffix;
  }

  /** In `q + Suffix`, the first suffix is the appended one when `q` holds
      none. */
  lemma SuffixFoundAtEnd(q: string)
    requires IndexOf(q, Suffix).None?
    ensures IndexOf(q + Suffix, Suffix) == Some(|q|)
  {
    var s := q + Suffix;
    assert s[|q|..|q| + |Suffix|] == Suffix;
    assert OccursAt(s, Suffix, |q|);
    forall j | 0 <= j < |q|
      ensures !OccursAt(s, Suffix, j)
    {
      if OccursAt(s, Suffix, j) {
        SuffixOnlyAtEnd(q, j);
      }
    }
  }

  /** A queue name without "-job.jsonc" in it is read back from its
      document's path. */
  lemma QueueNameRoundTrip(q: string)
    requires IndexOf(q, Suffix).None?
    ensures QueueNameOf(CreateJobPath(q)) == q
  {
    SlashRemoved(q);
    SuffixFoundAtEnd(q);
    var s := q + Suffix;
    assert s[..|q|] == q;
    assert s[|q| + |Suffix|..] == [];
  }

  /** A queue name holding "-job.jsonc" is misread: the name in the
      success message is not the queue's. */
  lemma QueueNameMisread()
    ensures QueueNameOf(CreateJobPath("a-job.jsonc-b")) == "a-b-job.jsonc"
  {
    SlashRemoved("a-job.jsonc-b");
    var s := "a-job.jsonc-b" + Suffix;
    MisreadSuffixIndex(s);
    assert s[..1] + "" + s[1 + |Suffix|..] == "a-b-job.jsonc";
  }

  /** Holding "-job.jsonc" does not always break the round trip: a queue
      named exactly "-job.jsonc" is read back correctly, so the round trip
      is not an "if and only if" on names without the suffix. */
  lemma SuffixNameRoundTrips()
    ensures IndexOf(Suffix, Suffix).Some?
    ensures QueueNameOf(CreateJobPath(Suffix)) == Suffix
  {
    SlashRemoved(Suffix);
    var s := Suffix + Suffix;
    assert OccursAt(s, Suffix, 0) by {
      assert s[0..|Suffix|] == Suffix;
    }
    assert OccursAt(Suffix, Suffix, 0) by {
      assert Suffix[0..|Suffix|] == Suffix;
    }
    assert IndexOf(s, Suffix) == Some(0);
    assert s[|Suffix|..] == Suffix;
    assert s[..0] + "" + s[|Suffix|..] == Suffix;
  }

  /** In the stripped path of that queue, the first suffix starts at 1. */
  lemma MisreadSuffixIndex(s: string)
    requires s == "a-job.jsonc-b" + Suffix
    ensures IndexOf(s, Suffix) == Some(1)
  {
    assert s[1..1 + |Suffix|] == Suffix;
    assert OccursAt(s, Suffix, 1);
    assert s[0..|Suffix|][0] == 'a' != Suffix[0];
    assert !OccursAt(s, Suffix, 0);
    FirstOccurrence(s, Suffix, 1);
  }

  /** The template's text before and after the queue name. */
  const TemplateIntro := "/**\n * Create Job for Queue: "
  const TemplateRest :=
    "\n"
    + " * \n"
    + " * Fill in the fields below and save this file to create the job.\n"
    + " * \n"
    + " * Fields:\n"
    + " *   - name: Job name (string, required)\n"
    + " *   - data: Job data payload (any JSON-serializable value, required)\n"
    + " *   - opts: Job options (object, optional) - see descriptions below\n"
    + " * \n"
    + " * Job Options (opts):\n"
    + " *   - delay: number (milliseconds) - Time to wait before the job becomes available\n"
    + " *   - priority: number - Priority level (1-2097152, lower = higher priority)\n"
    + " *   - attempts: number - Number of retry attempts if job fails (default: 1)\n"
    + " *   - backoff: { type: \"fixed\" | \"exponential\", delay: number } - Retry behavior\n"
    + " *   - repeat: { cron?: string, every?: number, limit?: number } - For repeatable jobs\n"
    + " *   - jobId: string - Custom unique identifier\n"
    + " *   - lifo: boolean - Use Last-In-First-Out instead of FIFO\n"
    + " *   - removeOnComplete: boolean | number - Remove job after completion (number = keep N completed)\n"
    + " *   - removeOnFail: boolean | number - Remove job after failure (number = keep N failed)\n"
    + " *   - timeout: number - Milliseconds before job is considered timed out\n"
    + " */\n"
    + "{\n"
    + "  \"name\": \"\",\n"
    + "  \"data\": {},\n"
    + "  \"opts\": {\n"
    + "    // \"delay\": 0,\n"
    + "    // \"priority\": 0,\n"
    + "    // \"attempts\": 1,\n"
    + "    // \"backoff\": {\n"
    + "    //   \"type\": \"exponential\",\n"
    + "    //   \"delay\": 1000\n"
    + "    // },\n"
    + "    // \"repeat\": {\n"
    + "    //   \"every\": 60000,\n"
    + "    //   \"limit\": 5\n"
    + "    // },\n"
    + "    // \"jobId\": \"custom-job-id\",\n"
    + "    // \"lifo\": false,\n"
    + "    // \"removeOnComplete\": true,\n"
    + "    // \"removeOnFail\": false,\n"
    + "    // \"timeout\": 30000\n"
    + "  }\n"
    + "}\n"

  /** `formatJobTemplate`: the document a queue's create-job editor shows. */
  function FormatJobTemplate(queueName: string): string {
    TemplateIntro + queueName + TemplateRest
  }

  /** The template's heading names the queue, and the queue name can be
      read off the template text. */
  lemma TemplateNamesQueue(queueName: string)
    ensures var t := FormatJobTemplate(queueName);
      && |t| == |TemplateIntro| + |queueName| + |TemplateRest|
      && t[|TemplateIntro|..|TemplateIntro| + |queueName|] == queueName
  {
    MiddlePiece(TemplateIntro, queueName, TemplateRest);
  }

  lemma MiddlePiece(a: string, b: string, c: string)
    ensures |a + b + c| == |a| + |b| + |c| && (a + b + c)[|a|..|a| + |b|] == b
  {
    assert (a + b + c)[..|a| + |b|] == a + b;
  }

  // ---------------------------------------------------------------------
  // Template validation
  // ---------------------------------------------------------------------

  /** A job ready to be added: its name, data and options. */
  datatype NewJob = NewJob(name: string, data: Json, opts: Json)

  const NameRequired := "Job 'name' is required and must be a string"
  const DataRequired := "Job 'data' is required"
  const QueueInfoMissing := "Queue information not found"
  const NullTemplateMessage := NullPropertyMessage("name")

  /** The checks `writeFile` makes of the parsed template: a non-empty
      string name, then defined data; missing or falsy options become `{}`. */
  function ReadTemplate(t: Json): (r: Result<NewJob, string>)
    ensures t.JNull? ==> r == Err(NullTemplateMessage)
    ensures r.Ok? ==> r.value.name != "" && Truthy(r.value.opts)
    ensures r.Ok? ==> Field(t, "name") == Some(JStr(r.value.name)) && Field(t, "data") == Some(r.value.data)
    ensures !t.JNull? && Field(t, "data").None? ==> r.Err?
  {
    if t.JNull? then Err(NullTemplateMessage)
    else
      var name := Field(t, "name");
      if name.None? || !name.value.JStr? || name.value.s == "" then Err(NameRequired)
      else
        var data := Field(t, "data");
        if data.None? then Err(DataRequired)
        else
          var opts := Field(t, "opts");
          Ok(NewJob(name.value.s, data.value, if opts.Some? && Truthy(opts.value) then opts.value else JObj([])))
  }

  /** A template object with the given name, data and (optional) options. */
  function TemplateOf(name: string, data: Json, opts: Option<Json>): Json {
    JObj([("name", JStr(name)), ("data", data)] + (if opts.Some? then [("opts", opts.value)] else []))
  }

  /** Reading a template back gives the job it was written from, with
      falsy or missing options as `{}`; an empty name is refused. */
  lemma TemplateRoundTrip(name: string, data: Json, opts: Option<Json>)
    ensures name != "" ==>
      ReadTemplate(TemplateOf(name, data, opts))
        == Ok(NewJob(name, data, if opts.Some? && Truthy(opts.value) then opts.value else JObj([])))
    ensures name == "" ==> ReadTemplate(TemplateOf(name, data, opts)) == Err(NameRequired)
  {
    var base := [("name", JStr(name)), ("data", data)];
    var tail := if opts.Some? then [("opts", opts.value)] else [];
    assert TemplateOf(name, data, opts).members == base + tail;
    FieldAppend(base, tail, "name");
    FieldAppend(base, tail, "data");
    assert base == [("name", JStr(name))] + [("data", data)];
    FieldLast([("name", JStr(name))], "data", data);
    FieldAppend([("name", JStr(name))], [("data", data)], "name");
    FieldLast([], "name", JStr(name));
    assert [] + [("name", JStr(name))] == [("name", JStr(name))];
    if opts.Some? {
      FieldLast(base, "opts", opts.value);
    } else {
      FieldAppend([("name", JStr(name))], [("data", data)], "opts");
      assert base + tail == base;
    }
  }

  /** The template as first shown (`name` empty, `data` and `opts` empty
      objects) is refused when saved unchanged. */
  lemma UnchangedTemplateRefused()
    ensures ReadTemplate(TemplateOf("", JObj([]), Some(JObj([])))) == Err(NameRequired)
  {
    TemplateRoundTrip("", JObj([]), Some(JObj([])));
  }

  // ---------------------------------------------------------------------
  // Saving
  // ---------------------------------------------------------------------

  function SuccessMessage(name: string, queueName: string): string {
    "Successfully created job \"" + name + "\" in queue \"" + queueName + "\""
  }

  /** What saving a create-job document does: the result of `writeFile`
      and the effects, given the parse outcome, the queue registered for
      the document (if any) and the outcome of `queue.add`. The tree is
      refreshed exactly when the result is `Ok`. */
  function SaveOutcome(path: string, parsed: Result<Json, string>, registered: Option<Queue>, added: Call<()>): (Result<(), string>, seq<Effect>) {
    match parsed
    case Err(m) => (Err("Invalid JSON: " + m), [])
    case Ok(t) =>
      match ReadTemplate(t)
      case Err(m) => (Err(m), [])
      case Ok(job) =>
        if registered.None? then (Err(QueueInfoMissing), [])
        else
          var add := AddCall(registered.value, job.name, job.data, job.opts);
          if added.Throws? then (Err("Failed to create job: " + added.message), [add])
          else (Ok(()), [add, Info(SuccessMessage(job.name, QueueNameOf(path)))])
  }

  /** A save adds at most one job, and only from a valid template of a
      registered document, to that document's queue. */
  lemma SaveAddsOnlyValidJobs(path: string, parsed: Result<Json, string>, registered: Option<Queue>, added: Call<()>)
    ensures var effects := SaveOutcome(path, parsed, registered, added).1;
      && |effects| <= 2
      && (forall i :: 0 <= i < |effects| && IsBackendMutation(effects[i]) ==> i == 0)
      && (effects != [] <==> parsed.Ok? && ReadTemplate(parsed.value).Ok? && registered.Some?)
      && (effects != [] ==>
            var job := ReadTemplate(parsed.value).value;
            effects[0] == AddCall(registered.value, job.name, job.data, job.opts))
  {
  }

  /** Saving the template written from a job adds that job to the
      registered queue and reports the queue's name. */
  lemma SaveOfFilledTemplate(q: string, queue: Queue, name: string, data: Json, opts: Option<Json>)
    requires name != "" && IndexOf(q, Suffix).None?
    ensures var (r, effects) := SaveOutcome(CreateJobPath(q), Ok(TemplateOf(name, data, opts)), Some(queue), Returns(()));
      && r == Ok(())
      && effects == [AddCall(queue, name, data, if opts.Some? && Truthy(opts.value) then opts.value else JObj([])),
                     Info(SuccessMessage(name, q))]
  {
    TemplateRoundTrip(name, data, opts);
    QueueNameRoundTrip(q);
  }

  /** The template is checked before the document is looked up: an
      invalid one is refused with its own message either way. */
  lemma ValidationBeforeLookup(path: string, parsed: Result<Json, string>, queue: Queue, added: Call<()>)
    requires parsed.Err? || ReadTemplate(parsed.value).Err?
    ensures SaveOutcome(path, parsed, None, added) == SaveOutcome(path, parsed, Some(queue), added)
  {
  }

  class CreateJobFileSystemProvider {
    /** The queue each open create-job document was opened from, by key. */
    var openDocuments: map<string, Queue>
    const tree: Tree.BullMQTreeDataProvider

    constructor(tree: Tree.BullMQTreeDataProvider)
      ensures openDocuments == map[] && this.tree == tree
    {
      openDocuments := map[];
      this.tree := tree;
    }

    /** `readFile`: the template for the queue named in the path. */
    function ReadFile(path: string): (r: string)
      ensures IndexOf(path, "/") == Some(0) ==> r == FormatJobTemplate(QueueNameOf(path))
    {
      FormatJobTemplate(QueueNameOf(path))
    }

    /** `stat`: both times are the current time, and the size is the
        byte length of what `readFile` returns. */
    function Stat(path: string, now: int): (r: FileStat)
      ensures r.ctime == now && r.mtime == now
      ensures r.size == Utf8Length(ReadFile(path))
    {
      FileStat(now, now, Utf8Length(FormatJobTemplate(QueueNameOf(path))))
    }

    /** `registerDocument`: any earlier entry for the document is replaced. */
    method RegisterDocument(node: Node, path: string)
      requires node.QueueNode?
      modifies this`openDocuments
      ensures openDocuments == old(openDocuments)[DocumentKey(path) := node.queue]
    {
      openDocuments := openDocuments[DocumentKey(path) := node.queue];
    }

    /** `unregisterDocument`; also what the deferred close after a
        successful save does to the table. */
    method UnregisterDocument(path: string)
      modifies this`openDocuments
      ensures openDocuments == old(openDocuments) - {DocumentKey(path)}
    {
      openDocuments := openDocuments - {DocumentKey(path)};
    }

    /** `writeFile`. `parsed` is the parse outcome, `added` that of
        `queue.add`. */
    method WriteFile(path: string, parsed: Result<Json, string>, added: Call<()>, wb: Workbench)
      returns (r: Result<(), string>)
      modifies wb, tree`refreshes
      ensures var key := DocumentKey(path);
        var registered := if key in openDocuments then Some(openDocuments[key]) else None;
        && r == SaveOutcome(path, parsed, registered, added).0
        && wb.log == old(wb.log) + SaveOutcome(path, parsed, registered, added).1
      ensures tree.refreshes == old(tree.refreshes) + (if r.Ok? then 1 else 0)
    {
      var queueName := QueueNameOf(path);
      if parsed.Err? {
        return Err("Invalid JSON: " + parsed.error);
      }
      var template := ReadTemplate(parsed.value);
      if template.Err? {
        return Err(template.error);
      }
      var docKey := DocumentKey(path);
      if docKey !in openDocuments {
        return Err(QueueInfoMissing);
      }
      var queue := openDocuments[docKey];
      var job := template.value;
      wb.Emit(AddCall(queue, job.name, job.data, job.opts));
      if added.Throws? {
        return Err("Failed to create job: " + added.message);
      }
      wb.Emit(Info(SuccessMessage(job.name, queueName)));
      tree.Refresh();
      return Ok(());
    }
  }

  const NotRegistered := "FileSystemProvider not registered"

  /** The command's state: the provider once registered. */
  class JobCreator {
    var fileSystemProvider: CreateJobFileSystemProvider?

    constructor()
      ensures fileSystemProvider == null
    {
      fileSystemProvider := null;
    }

    /** `registerCreateJobDocumentProvider`. */
    method RegisterProvider(tree: Tree.BullMQTreeDataProvider)
      modifies this`fileSystemProvider
      ensures fileSystemProvider != null && fresh(fileSystemProvider)
      ensures fileSystemProvider.openDocuments == map[] && fileSystemProvider.tree == tree
    {
      fileSystemProvider := new CreateJobFileSystemProvider(tree);
    }

    /** `createJob`: registers the queue's document and opens it as a
        permanent editor; `shown` is the outcome of opening it. A failure
        to open leaves the document registered. */
    method CreateJob(node: Node, shown: Call<()>, wb: Workbench)
      requires node.QueueNode?
      modifies fileSystemProvider, wb
      ensures fileSystemProvider == null ==>
        wb.log == old(wb.log) + [Error("Failed to open job creation editor: " + NotRegistered)]
      ensures fileSystemProvider != null ==>
        var path := CreateJobPath(node.queue.name);
        && fileSystemProvider.openDocuments == old(fileSystemProvider.openDocuments)[DocumentKey(path) := node.queue]
        && wb.log == old(wb.log) + [if shown.Throws? then Error("Failed to open job creation editor: " + shown.message)
                                    else OpenDocument(DocumentKey(path), false)]
    {
      if fileSystemProvider == null {
        wb.Emit(Error("Failed to open job creation editor: " + NotRegistered));
        return;
      }
      var path := CreateJobPath(node.queue.name);
      fileSystemProvider.RegisterDocument(node, path);
      if shown.Throws? {
        wb.Emit(Error("Failed to open job creation editor: " + shown.message));
      } else {
        wb.Emit(OpenDocument(DocumentKey(path), false));
      }
    }
  }
}
