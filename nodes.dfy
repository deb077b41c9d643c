/** The items of the explorer's tree: what each kind of node is built from,
    and the label, id, context value, icon, tooltip and click command it
    computes from that once, when it is constructed. */
module Nodes {
  import opened Wrappers
  import opened Strings
  import opened ViewState
  import opened Bullmq
  import opened Connection

  /** A theme icon with an optional theme colour. */
  datatype Icon = Icon(id: string, color: Option<string>)

  datatype Node =
    | ManageConnectionsNode
    | FilterNode(filter: FilterState)
    | SortNode(sort: Option<SortState>)
    /** The connection as it was when the node was built, and its number of
        visible queues. */
    | ConnectionNode(connection: ConnectionView, queueCount: nat)
    | QueueNode(queue: Queue, connection: ConnectionView, totalJobCount: nat)
    | JobStatusNode(status: JobStatus, queue: Queue, jobCount: nat, connectionName: Option<string>)
    | JobNode(jobId: string, jobQueue: Option<Queue>, jobStatus: Option<JobStatus>)

  datatype Argument = NodeArgument(node: Node) | BoolArgument(b: bool)

  datatype Command = Command(command: string, title: string, arguments: seq<Argument>)

  /** `new FilterNode(filter)`: an absent filter stands for `{}`. */
  function MakeFilterNode(filter: Option<FilterState>): Node {
    FilterNode(filter.GetOr(EmptyFilter))
  }

  // ---------------------------------------------------------------------
  // Labels
  // ---------------------------------------------------------------------

  /** `<name> (<n> <unit>)`, with the unit in the plural unless `n` is 1. */
  function CountLabel(name: string, n: nat, unit: string): string {
    name + " (" + NatToString(n) + " " + (if n == 1 then unit else unit + "s") + ")"
  }

  function Label(node: Node): string {
    match node
    case ManageConnectionsNode => "Manage Connections"
    case FilterNode(_) => "Filter"
    case SortNode(_) => "Sort"
    case ConnectionNode(c, n) => CountLabel(c.name, n, "queue")
    case QueueNode(q, _, n) => CountLabel(q.name, n, "job")
    case JobStatusNode(s, _, n, _) => CountLabel(CapitalizeFirst(s.Name()), n, "job")
    case JobNode(id, _, _) => id
  }

  /** The first separator of `a + sep + x` is the one after `a` when `a`
      holds none. */
  lemma FirstSeparator(a: string, x: string, sep: char)
    requires sep !in a
    ensures IndexOf(a + [sep] + x, [sep]) == Some(|a|)
  {
    var s := a + [sep] + x;
    assert s[|a|..|a| + 1] == [sep];
    assert OccursAt(s, [sep], |a|);
    forall j | 0 <= j < |a| ensures !OccursAt(s, [sep], j) {
      assert s[j] == a[j];
      assert s[j..j + 1] == [s[j]];
    }
    var r := IndexOf(s, [sep]);
    assert r.Some?;
    assert r.value <= |a|;
  }

  /** Two pieces that lack the separator are equal when they are followed by
      it in equal strings. */
  lemma PieceBeforeSeparator(a: string, x: string, b: string, y: string, sep: char)
    requires sep !in a && sep !in b
    requires a + [sep] + x == b + [sep] + y
    ensures a == b
  {
    FirstSeparator(a, x, sep);
    FirstSeparator(b, y, sep);
    assert a == (a + [sep] + x)[..|a|];
    assert b == (b + [sep] + y)[..|b|];
  }

  /** A count label gives its count away: equal labels for the same name and
      unit carry equal counts. */
  lemma CountLabelDeterminesCount(name: string, n: nat, m: nat, unit: string)
    requires CountLabel(name, n, unit) == CountLabel(name, m, unit)
    ensures n == m
  {
    var p := name + " (";
    var tn := (if n == 1 then unit else unit + "s") + ")";
    var tm := (if m == 1 then unit else unit + "s") + ")";
    assert CountLabel(name, n, unit) == p + (NatToString(n) + [' '] + tn);
    assert CountLabel(name, m, unit) == p + (NatToString(m) + [' '] + tm);
    assert NatToString(n) + [' '] + tn == CountLabel(name, n, unit)[|p|..];
    assert NatToString(m) + [' '] + tm == CountLabel(name, m, unit)[|p|..];
    NatToStringCanonical(n);
    NatToStringCanonical(m);
    PieceBeforeSeparator(NatToString(n), tn, NatToString(m), tm, ' ');
  }

  /** The unit is singular for exactly one item. */
  lemma CountLabelExamples()
    ensures CountLabel("emails", 0, "job") == "emails (0 jobs)"
    ensures CountLabel("emails", 1, "job") == "emails (1 job)"
    ensures CountLabel("emails", 2, "job") == "emails (2 jobs)"
    ensures CountLabel("local", 1, "queue") == "local (1 queue)"
  {
    assert NatToString(0) == "0" && NatToString(1) == "1" && NatToString(2) == "2";
  }

  // ---------------------------------------------------------------------
  // Ids and context values
  // ---------------------------------------------------------------------

  /** The node's tree-item id; job nodes have none. */
  function Id(node: Node): Option<string> {
    match node
    case ManageConnectionsNode => Some("manageConnections")
    case FilterNode(_) => Some("filter")
    case SortNode(_) => Some("sort")
    case ConnectionNode(c, _) => Some("connection:" + c.name)
    case QueueNode(q, c, _) => Some("queue:" + c.name + ":" + q.name)
    case JobStatusNode(s, q, _, cn) =>
      if NonEmpty(cn) then Some("status:" + cn.value + ":" + q.name + ":" + s.Name())
      else Some("status:" + q.name + ":" + s.Name())
    case JobNode(_, _, _) => None
  }

  function ContextValue(node: Node): string {
    match node
    case ManageConnectionsNode => "manageConnections"
    case FilterNode(_) => "filter"
    case SortNode(_) => "sort"
    case ConnectionNode(_, _) => "connection"
    case QueueNode(_, _, _) => "queue"
    case JobStatusNode(_, _, _, _) => "status"
    case JobNode(_, _, s) => if s == Some(Delayed) then "job.delayed" else "job"
  }

  /** Only a delayed job offers the promote action. */
  lemma JobContextGate(id: string, q: Option<Queue>, s: Option<JobStatus>)
    ensures ContextValue(JobNode(id, q, s)) == "job.delayed" <==> s == Some(Delayed)
    ensures s != Some(Delayed) ==> ContextValue(JobNode(id, q, s)) == "job"
  {
  }

  lemma SuffixAfterCommonPrefix(p: string, x: string, y: string)
    requires p + x == p + y
    ensures x == y
  {
    assert x == (p + x)[|p|..];
    assert y == (p + y)[|p|..];
  }

  /** Two status buckets of the same queue never share an id. */
  lemma StatusIdsDistinct(s: JobStatus, t: JobStatus, q: Queue, a: nat, b: nat, cn: Option<string>)
    requires s != t
    ensures Id(JobStatusNode(s, q, a, cn)) != Id(JobStatusNode(t, q, b, cn))
  {
    AllStatusesEnumerates();
    var p := if NonEmpty(cn) then "status:" + cn.value + ":" + q.name + ":" else "status:" + q.name + ":";
    if Id(JobStatusNode(s, q, a, cn)) == Id(JobStatusNode(t, q, b, cn)) {
      assert p + s.Name() == p + t.Name();
      SuffixAfterCommonPrefix(p, s.Name(), t.Name());
    }
  }

  /** Two queues of the same connection with different names never share
      an id. */
  lemma QueueIdsDistinct(q: Queue, r: Queue, c: ConnectionView, a: nat, b: nat)
    requires q.name != r.name
    ensures Id(QueueNode(q, c, a)) != Id(QueueNode(r, c, b))
  {
    var p := "queue:" + c.name + ":";
    if Id(QueueNode(q, c, a)) == Id(QueueNode(r, c, b)) {
      assert p + q.name == p + r.name;
      SuffixAfterCommonPrefix(p, q.name, r.name);
    }
  }

  /** The first two characters of a node's id, which depend only on its kind. */
  function KindTag(node: Node): string {
    match node
    case ManageConnectionsNode => "ma"
    case FilterNode(_) => "fi"
    case SortNode(_) => "so"
    case ConnectionNode(_, _) => "co"
    case QueueNode(_, _, _) => "qu"
    case JobStatusNode(_, _, _, _) => "st"
    case JobNode(_, _, _) => ""
  }

  lemma IdStartsWithKindTag(node: Node)
    requires !node.JobNode?
    ensures Id(node).Some? && |Id(node).value| >= 2 && Id(node).value[..2] == KindTag(node)
  {
    if node.ConnectionNode? || node.QueueNode? {
      NamedIdTagged(node);
    } else if node.JobStatusNode? {
      StatusIdTagged(node);
    }
  }

  lemma NamedIdTagged(node: Node)
    requires node.ConnectionNode? || node.QueueNode?
    ensures Id(node).Some? && |Id(node).value| >= 2 && Id(node).value[..2] == KindTag(node)
  {
    match node
    case ConnectionNode(c, _) =>
      TaggedId("connection:", c.name, "co");
    case QueueNode(q, c, _) =>
      TaggedId("queue:", c.name + ":" + q.name, "qu");
      assert Id(node).value == "queue:" + (c.name + ":" + q.name);
  }

  lemma StatusIdTagged(node: Node)
    requires node.JobStatusNode?
    ensures Id(node).Some? && |Id(node).value| >= 2 && Id(node).value[..2] == KindTag(node)
  {
    var s, q, cn := node.status, node.queue, node.connectionName;
    var head := "status:";
    if NonEmpty(cn) {
      TaggedId(head, cn.value, "st");
      head := head + cn.value;
      TaggedId(head, ":", "st");
      head := head + ":";
    }
    TaggedId(head, q.name, "st");
    TaggedId(head + q.name, ":", "st");
    TaggedId(head + q.name + ":", s.Name(), "st");
  }

  lemma TaggedId(head: string, rest: string, tag: string)
    requires |head| >= 2 && head[..2] == tag
    ensures |head + rest| >= 2 && (head + rest)[..2] == tag
  {
    assert (head + rest)[..2] == head[..2];
  }

  /** Nodes of different kinds never share an id. */
  lemma KindsHaveDistinctIds(m: Node, n: Node)
    requires !m.JobNode? && !n.JobNode?
    requires KindTag(m) != KindTag(n)
    ensures Id(m) != Id(n)
  {
    IdStartsWithKindTag(m);
    IdStartsWithKindTag(n);
  }

  // ---------------------------------------------------------------------
  // Icons
  // ---------------------------------------------------------------------

  /** The icon of a status bucket, chosen by the status's name. */
  function StatusIcon(status: string): Icon {
    if status == "waiting" then Icon("clock", None)
    else if status == "waiting-children" then Icon("clock", None)
    else if status == "active" then Icon("sync~spin", None)
    else if status == "completed" then Icon("check", Some("charts.green"))
    else if status == "failed" then Icon("error", Some("charts.red"))
    else if status == "delayed" then Icon("calendar", None)
    else if status == "prioritized" then Icon("star-full", None)
    else Icon("checklist", None)
  }

  /** Only a name outside the seven statuses falls back to the checklist. */
  lemma StatusIconFallback(status: string)
    ensures StatusIcon(status).id == "checklist" <==> forall s: JobStatus :: s.Name() != status
  {
    if StatusIcon(status).id != "checklist" {
      var s: JobStatus :|
        s in AllStatuses && s.Name() == status;
    }
  }

  /** The connection icon, set by one `if` per status in turn. */
  function ConnectionIcon(status: ConnectionStatus): Option<Icon> {
    var i0: Option<Icon> := None;
    var i1 := if status == Idle || status == Connected then Some(Icon("server", None)) else i0;
    var i2 := if status == LoadingQueues then Some(Icon("loading~spin", None)) else i1;
    var i3 := if status == ConnectionStatus.Failed then Some(Icon("server", Some("charts.red"))) else i2;
    if status == Ready then Some(Icon("server", Some("charts.green"))) else i3
  }

  /** Every status gets an icon: a plain server until the connection has
      failed (red) or finished discovery (green), a spinner while loading. */
  lemma ConnectionIconPerStatus(status: ConnectionStatus)
    ensures ConnectionIcon(status).Some?
    ensures ConnectionIcon(status).value.id == (if status == LoadingQueues then "loading~spin" else "server")
    ensures ConnectionIcon(status).value.color ==
      (if status == ConnectionStatus.Failed then Some("charts.red")
       else if status == Ready then Some("charts.green")
       else None)
  {
  }

  function IconOf(node: Node): Option<Icon> {
    match node
    case ManageConnectionsNode => Some(Icon("settings-gear", None))
    case FilterNode(_) => Some(Icon("filter", None))
    case SortNode(_) => Some(Icon("sort-precedence", None))
    case ConnectionNode(c, _) => ConnectionIcon(c.status)
    case QueueNode(_, _, _) => Some(Icon("list-flat", None))
    case JobStatusNode(s, _, _, _) => Some(StatusIcon(s.Name()))
    case JobNode(_, _, _) => Some(Icon("file-code", None))
  }

  // ---------------------------------------------------------------------
  // Tooltips, descriptions, commands
  // ---------------------------------------------------------------------

  /** One tooltip line per truthy filter field, in field order. */
  function FilterLines(f: FilterState): seq<string> {
    (if NonEmpty(f.connectionName) then ["Connection: " + f.connectionName.value] else [])
    + (if NonEmpty(f.queueName) then ["Queue: " + f.queueName.value] else [])
    + (if NonEmpty(f.queueNamePattern) then ["Queue pattern: " + f.queueNamePattern.value + "*"] else [])
    + (if NonEmpty(f.jobIdPattern) then ["Job ID pattern: " + f.jobIdPattern.value + "*"] else [])
  }

  /** `lines.join("\n") || fallback`. */
  function LinesOr(lines: seq<string>, fallback: string): string {
    var joined := Join(lines, '\n');
    if joined == "" then fallback else joined
  }

  function FilterTooltip(f: FilterState): string {
    "Filter:\n" + LinesOr(FilterLines(f), "No specific filters") + "\n\nClick to manage filters"
  }

  function QueueSortLine(o: QueueSortOrder): string {
    "Queues: " + (if o == JobCountAsc then "Job count (ascending)" else "Job count (descending)")
  }

  function JobSortLine(o: JobSortOrder): string {
    "Jobs: " + (if o == IdAsc then "ID (ascending)" else "ID (descending)")
  }

  /** The queue line, then the job line, each only for an axis that sorts. */
  function SortLines(sort: Option<SortState>): seq<string> {
    if sort.None? then []
    else
      (if sort.value.queueSort != NoQueueSort then [QueueSortLine(sort.value.queueSort)] else [])
      + (if sort.value.jobSort != NoJobSort then [JobSortLine(sort.value.jobSort)] else [])
  }

  function SortTooltip(sort: Option<SortState>): string {
    "Sort:\n" + LinesOr(SortLines(sort), "No sorting applied") + "\n\nClick to manage sorting"
  }

  function Tooltip(node: Node): Option<string> {
    match node
    case ManageConnectionsNode => Some("Manage Connections\n\nClick to open connections editor")
    case FilterNode(f) => Some(FilterTooltip(f))
    case SortNode(s) => Some(SortTooltip(s))
    case JobNode(id, _, _) => Some("ID: " + id)
    case _ => None
  }

  function Description(node: Node): Option<string> {
    match node
    case ManageConnectionsNode => Some("Click to manage")
    case FilterNode(_) => Some("Click to manage")
    case SortNode(_) => Some("Click to manage")
    case JobNode(_, _, _) => Some("")
    case _ => None
  }

  function CommandOf(node: Node): Option<Command> {
    match node
    case ManageConnectionsNode => Some(Command("bullmq-explorer.manageConnections", "Manage Connections", []))
    case FilterNode(_) => Some(Command("bullmq-explorer.showFilterMenu", "Manage Filter", []))
    case SortNode(_) => Some(Command("bullmq-explorer.showSortMenu", "Manage Sort", []))
    case JobNode(_, _, _) =>
      Some(Command("bullmq-explorer.showJob", "Show Job Details", [NodeArgument(node), BoolArgument(true)]))
    case _ => None
  }

  /** Connections, queues and status buckets expand; the rest are leaves. */
  predicate Collapsible(node: Node) {
    node.ConnectionNode? || node.QueueNode? || node.JobStatusNode?
  }

  /** Joining non-empty pieces gives the empty string only for no pieces, and
      otherwise starts with the first piece's first character. */
  lemma JoinNonEmpty(lines: seq<string>, sep: char)
    requires forall i :: 0 <= i < |lines| ==> lines[i] != ""
    ensures Join(lines, sep) == "" <==> lines == []
    ensures lines != [] ==> Join(lines, sep)[0] == lines[0][0]
  {
  }

  /** `head + LinesOr(lines, fallback) + tail` equals `head + fallback +
      tail` exactly when there are no lines, provided no line is empty and
      none starts like the fallback. */
  lemma {:induction false} FallbackExactlyWhenNoLines(head: string, lines: seq<string>, fallback: string, tail: string)
    requires forall i :: 0 <= i < |lines| ==> lines[i] != ""
    requires fallback != "" && (lines != [] ==> lines[0][0] != fallback[0])
    ensures head + LinesOr(lines, fallback) + tail == head + fallback + tail <==> lines == []
  {
    JoinNonEmpty(lines, '\n');
    if lines != [] {
      var joined := Join(lines, '\n');
      assert LinesOr(lines, fallback) == joined;
      assert (head + joined + tail)[|head|] == joined[0];
      assert (head + fallback + tail)[|head|] == fallback[0];
    }
  }

  /** The filter tooltip falls back to "No specific filters" exactly when no
      field is set to a non-empty value. */
  lemma FilterTooltipSpec(f: FilterState)
    ensures FilterTooltip(f) == FilterTooltip(EmptyFilter) <==>
      !NonEmpty(f.connectionName) && !NonEmpty(f.queueName) && !NonEmpty(f.queueNamePattern) && !NonEmpty(f.jobIdPattern)
  {
    var lines := FilterLines(f);
    if lines != [] {
      if NonEmpty(f.connectionName) {
        assert lines[0] == "Connection: " + f.connectionName.value;
      } else if NonEmpty(f.queueName) {
        assert lines[0] == "Queue: " + f.queueName.value;
      } else if NonEmpty(f.queueNamePattern) {
        assert lines[0] == "Queue pattern: " + f.queueNamePattern.value + "*";
      } else {
        assert lines[0] == "Job ID pattern: " + f.jobIdPattern.value + "*";
      }
    }
    assert FilterLines(EmptyFilter) == [];
    FallbackExactlyWhenNoLines("Filter:\n", lines, "No specific filters", "\n\nClick to manage filters");
  }

  /** The sort tooltip says "No sorting applied" exactly when no sort is
      stored or both axes are unsorted. */
  lemma SortTooltipSpec(sort: Option<SortState>)
    ensures SortTooltip(sort) == SortTooltip(None) <==>
      sort.None? || (sort.value.queueSort == NoQueueSort && sort.value.jobSort == NoJobSort)
  {
    var lines := SortLines(sort);
    if lines != [] {
      if sort.value.queueSort != NoQueueSort {
        assert lines[0] == QueueSortLine(sort.value.queueSort);
      } else {
        assert lines[0] == JobSortLine(sort.value.jobSort);
      }
    }
    assert SortLines(None) == [];
    FallbackExactlyWhenNoLines("Sort:\n", lines, "No sorting applied", "\n\nClick to manage sorting");
  }
}
