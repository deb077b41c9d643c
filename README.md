# BullMQ explorer for VS Code, modelled in Dafny

This project models the core of a VS Code extension that browses BullMQ
queues stored in Redis. The extension shows a four-level tree: connection,
then queue, then job status, then job. It lets the user filter and sort that
tree, open a job as a JSON document and edit it, create a job from a
template, edit the list of connections, and promote, remove, drain or
obliterate jobs and queues.

Redis, BullMQ and VS Code are replaced by inputs:

- a backend function from a queue and a job status to the ids stored there,
  or to a failure;
- a key list for queue discovery;
- `Call<T>` values (`Returns(v)` or `Throws(message)`) for each library call
  a command makes;
- the user's choices in pickers, input boxes and dialogs.

Messages, backend mutations, settings writes and opened editors are appended
to an effect log (`Effects.Workbench`). Refreshes of the tree are counted on
the tree provider.

Modules follow the source files:

- `Tree` is the tree data provider;
- `Connection` is `BullRedisConnection` with its queue cache and key parser;
- `Registry` is the connections provider;
- `Nodes` covers the tree items;
- `Filter`, `Sort`, `ShowJob`, `CreateJob`, `ManageConnections`,
  `PromoteJob`, `RemoveJob`, `DrainQueue` and `ObliterateQueue` are the
  commands;
- `ViewState` covers `state.ts` and `consts.ts`.

`Wrappers`, `Strings`, `Json`, `Sequences`, `Bullmq` and `Effects` hold the
values these modules share. That includes a stable insertion sort that stands
in for `Array.prototype.sort`, which is stable.

Where the code and its design notes differ, the model follows the code:

- The cache-read branch of `exploreQueues` is unreachable. Its guard has
  already returned whenever the queue map is non-empty and the call is not
  forced. `Connection.BullRedisConnection.ExploreQueues` therefore always scans.
- The registry appends connections in connect-completion order and never
  restores configuration order.
- The create-job path round trip holds for every queue name that does not
  contain `-job.jsonc`. It also holds for some names that do, such as
  `-job.jsonc` itself, so it is not an "if and only if".
  `CreateJob.QueueNameMisread` shows a name that is misread, and
  `CreateJob.SuffixNameRoundTrips` shows `-job.jsonc` read back correctly.
- The connections editor validates `config` with `typeof === "object"`, so
  an array config is accepted.
- The connections editor writes the setting to the workspace target.
- While a job is loading, `stat` reports the size of `Loading...` (10 bytes)
  while `readFile` returns `Loading job data...` (19 bytes).
  `ShowJob.StatWhileLoading` states this.
- Two different (queue, job id) pairs can share a job document URI when the
  queue name contains `/` (`ShowJob.JobUriCollision`).
- A prefix that contains `:` is misparsed by the key parser
  (`Connection.ColonInPrefixMisparsed`, `Connection.MyAppOrdersMisparsed`).
- The comment next to the job-list cap says 1000, but the code caps at
  10 000. The model uses 10 000.

## Model

| member | source | states |
|---|---|---|
| Tree.BullMQTreeDataProvider.GetChildren | src/tree/tree-data-provider.ts:51-90 | The children of any element are those of the tree specification `Children` over the current connections, filter and sort. |
| Tree.RootChildren | src/tree/tree-data-provider.ts:51-75 | The root lists Manage Connections, Filter and Sort first, then one node per shown connection. With no filter every connection is shown. With a connection name at most one connection is shown, and it has that name. |
| Tree.BullMQTreeDataProvider.GetConnections | src/tree/tree-data-provider.ts:92-143 | The connection nodes are built from the shown connections with the current filter. |
| Tree.FirstConnection | src/tree/tree-data-provider.ts:96-101 | Filtering by connection name keeps at most one connection: the first with that name, or none when no connection has it. |
| Tree.ConnectionNodes | src/tree/tree-data-provider.ts:106-138 | There is one node per connection, in order, carrying the number of its queues that pass the filter. |
| Tree.ConnectionCountIsQueueChildren | src/tree/tree-data-provider.ts:106-138 | A connection node's queue count equals the number of children the connection shows when expanded. |
| Tree.ReadViews | src/tree/tree-data-provider.ts:92-93 | Reads each connection's name, status and queues, in registry order. |
| Tree.BuildConnectionNodes | src/tree/tree-data-provider.ts:103-142 | The loop builds exactly `ConnectionNodes` of the shown connections. |
| Tree.FilteredIds | src/tree/tree-data-provider.ts:153-163 | With a non-empty pattern, keeps exactly the string ids containing it. Otherwise keeps every id. |
| Tree.GetTotalJobCount | src/tree/tree-data-provider.ts:145-184 | The loop's total is the sum over the seven statuses of the matching ids. A failed fetch adds 0. |
| Tree.QueueHasMatchingJobs | src/tree/tree-data-provider.ts:243-272 | True exactly when some successfully fetched status has a string id containing the pattern. The loop stops at the first such status and otherwise probes all seven. |
| Tree.CountPositiveIffMatching | src/tree/tree-data-provider.ts:145-184 | For a non-empty pattern, a queue's filtered total is positive exactly when the queue has a matching job. |
| Tree.SumCountsPositive | src/tree/tree-data-provider.ts:173-178 | A sum over statuses is positive exactly when one of those statuses has a matching id. |
| Tree.FirstNamed | src/tree/tree-data-provider.ts:192-197 | The exact-name step finds the first queue with that name, or none when there is no such queue. |
| Tree.FilterQueuesByJobId | src/tree/tree-data-provider.ts:206-218 | The push loop keeps, in order, exactly the queues that have jobs matching the pattern. |
| Tree.FilterQueues | src/tree/tree-data-provider.ts:186-218 | The queue filter runs the exact name, then the name pattern, then the job-id pattern, each only when set. |
| Tree.ExactStepIsKeep | src/tree/tree-data-provider.ts:192-197 | For queues with distinct names, the exact step equals keeping the queues with that name. |
| Tree.FilteredQueuesAdmit | src/tree/tree-data-provider.ts:189-218 | For distinct names, the filtered queues are the subsequence of queues that every set filter field admits. |
| Tree.QueueNodesOf | src/tree/tree-data-provider.ts:221-226 | There is one queue node per filtered queue, carrying its total job count under the job-id pattern. |
| Tree.GetQueues | src/tree/tree-data-provider.ts:186-241 | Returns the queue children of the connection as specified by `QueueChildren`. |
| Tree.QueueChildrenSpec | src/tree/tree-data-provider.ts:229-238 | The queue children are a permutation of the filtered nodes. They are unchanged without a queue sort, in non-decreasing count order for ascending, and in non-increasing order for descending. Nodes with equal counts keep their order. |
| Tree.QueueCountIsBucketSum | src/tree/tree-data-provider.ts:145-184 | A queue node's total equals the sum of the counts in its status children. |
| Tree.Bucket | src/tree/tree-data-provider.ts:285-318 | A status yields a node exactly when its fetch succeeds with a positive filtered count, and the node carries that count. |
| Tree.BucketsStep | src/tree/tree-data-provider.ts:311-318 | Each status extends the buckets of the earlier statuses by its own bucket. |
| Tree.GetJobStatuses | src/tree/tree-data-provider.ts:274-324 | The loop produces exactly the status children of the queue. |
| Tree.BucketsSumToTotal | src/tree/tree-data-provider.ts:145-184 | The bucket counts sum to the queue's total for the same statuses. |
| Tree.BucketsShape | src/tree/tree-data-provider.ts:280-323 | Buckets are status nodes of the queue with positive counts. |
| Tree.BucketsOrdered | src/tree/tree-data-provider.ts:280-323 | Buckets appear in the status order of the status constants, without repeats. |
| Tree.BucketsCover | src/tree/tree-data-provider.ts:280-323 | Every status with a successful fetch and a positive filtered count has a bucket. |
| Tree.StringIds | src/tree/tree-data-provider.ts:343-345 | Keeps exactly the string ids and never lengthens the list. |
| Tree.StringIdsAllStrings | src/tree/tree-data-provider.ts:343-345 | A list of string ids loses nothing. |
| Tree.JobIds | src/tree/tree-data-provider.ts:326-372 | A failed fetch is an error. Otherwise the list has at most 10 000 entries and is a permutation of the string ids among the first 10 000 ids matching the pattern, since the cap comes before the sort. |
| Tree.BullMQTreeDataProvider.GetJobs | src/tree/tree-data-provider.ts:326-372 | Returns the job children specified by `JobChildren` for the current filter and sort. |
| Tree.NumericIdsSortByValue | src/tree/tree-data-provider.ts:347-369 | When every id is a canonical number, the sorted ids are ordered by numeric value in the chosen direction, and the result is a permutation of the input. |
| Tree.TextIdsSortAsStrings | src/tree/tree-data-provider.ts:347-369 | When no id is numeric, the sorted ids are in string order in the chosen direction, and the result is a permutation of the input. |
| Tree.MixedIdsNotTransitive | src/tree/tree-data-provider.ts:347-369 | On mixed ids the comparator is not transitive: "2" < "10", "10" < "1a" and "1a" < "2". |
| Tree.BucketListsItsCount | src/tree/tree-data-provider.ts:326-372 | A status bucket's job list has min(10 000, bucket count) entries. |
| Tree.BucketCountIsJobChildren | src/tree/tree-data-provider.ts:326-372 | Expanding a status node lists min(10 000, its count) jobs, when the count is filtered or every id is a string. |
| Tree.BullMQTreeDataProvider.Refresh | src/tree/tree-data-provider.ts:43-45 | Each refresh fires one tree change. The `onConnectionsReinitialized` listener (lines 38-40) is this call. |
| Tree.BullMQTreeDataProvider.OnConnectionAdded | src/tree/tree-data-provider.ts:31-36 | The listener explores the added connection's queues without forcing. It refreshes the tree once per exploration event, so exactly when the connection is neither idle nor failed, holds no queues, and its scan succeeds. Otherwise nothing changes, or the connection stays loading when the scan throws. |
| Tree.BullMQTreeDataProvider.StartConnections | src/tree/tree-data-provider.ts:29-36 | Every connection added at start-up ends failed, still loading or ready with its scanned queues. The tree refreshes once per connection that both connected and scanned. |
| Tree.BullMQTreeDataProvider.constructor | src/tree/tree-data-provider.ts:26-41 | The constructor runs `initConnections`, which keeps the old connections and appends one per setting. Each appended connection then explores its queues: it ends failed, still loading or ready with its scanned queues. The tree refreshes once per connection that both connected and scanned. An absent setting adds nothing and fires no refresh. |
| Tree.StatusIndex | src/consts.ts:5-13 | Every status has one position in the status order. |
| ViewState.AllStatusesEnumerates | src/consts.ts:5-13 | The status order lists all seven statuses once each, and their names are distinct. |
| ViewState.State.constructor | src/state.ts:19-23 | The filter and sort start undefined. |
| Connection.EffectivePrefix | src/bull-redis-connection.ts:34-38 | The prefix is the given one when non-empty, otherwise "bull". It is never empty. |
| Connection.BullRedisConnection.constructor | src/bull-redis-connection.ts:28-46 | A new connection is idle, with no queues, no events and the effective prefix. |
| Connection.BullRedisConnection.Connect | src/bull-redis-connection.ts:68-77 | Success sets connected. Failure sets failed and returns the error. |
| Connection.IdKeyParses | src/bull-redis-connection.ts:133-143 | A key `<prefix>:<name>:id` with colon-free parts matches the scan pattern and yields `name`. |
| Connection.ColonInPrefixMisparsed | src/bull-redis-connection.ts:133-143 | For any prefix `outer:inner` with colon-free parts, the id key of any colon-free queue name matches the scan and yields `inner`, not the queue's name. |
| Connection.MyAppOrdersMisparsed | src/bull-redis-connection.ts:133-143 | With prefix "my:app", the key of queue "orders" yields "app". |
| Connection.ScannedNamesSpec | src/bull-redis-connection.ts:133-143 | Parsed names have no repeats. A name appears exactly when some key's second colon-separated part is that name, the key has at least three parts, and the part is neither empty nor "*". |
| Connection.DiscoveredNames | src/bull-redis-connection.ts:124-156 | A name is discovered exactly when some key in the keyspace matches `<prefix>:*:id` and parses to it. |
| Connection.BullRedisConnection.ScanQueueNames | src/bull-redis-connection.ts:124-156 | The set-building loop returns the deduplicated names in first-seen order. |
| Connection.CacheKeyInjective | src/bull-redis-connection.ts:158-170 | Different connection names use different cache keys. |
| Connection.CacheRoundTrip | src/bull-redis-connection.ts:158-170 | Reading after a write returns the written names, or [] for an empty write. Other connections' entries are unchanged. |
| Connection.BullRedisConnection.QueueNamesFromCache | src/bull-redis-connection.ts:158-165 | Returns the cached names, or [] when the entry is missing or empty. |
| Connection.MapSetNew | src/bull-redis-connection.ts:105-114 | Setting a new name in the queue map appends it. |
| Connection.QueuesOf | src/bull-redis-connection.ts:105-114 | There is one queue per name, with the connection's prefix. |
| Connection.RebuiltMapOfDistinct | src/bull-redis-connection.ts:105-114 | Rebuilding the map from distinct names gives exactly one queue per name, in order. |
| Connection.BullRedisConnection.RebuildQueues | src/bull-redis-connection.ts:105-114 | The map is cleared and refilled from the names. |
| Connection.BullRedisConnection.ExploreQueues | src/bull-redis-connection.ts:85-122 | When idle, failed, or already loaded without force, nothing changes. Otherwise a failed scan leaves the status loading-queues. A completed scan sets ready, replaces the map with one queue per scanned name, caches the names and fires one event carrying the map size. |
| Registry.BullRedisConnectionsProvider.constructor | src/bull-redis-connections-provider.ts:13-15 | The registry starts empty. |
| Registry.BullRedisConnectionsProvider.GetConnections | src/bull-redis-connections-provider.ts:17-19 | Returns the registered connections. |
| Registry.BullRedisConnectionsProvider.AddConnection | src/bull-redis-connections-provider.ts:31-55 | Builds a fresh connection from the settings entry and connects it. It appends the connection whether or not the connect succeeded, then fires one event carrying the new size. |
| Registry.BullRedisConnectionsProvider.InitConnections | src/bull-redis-connections-provider.ts:21-56 | Without settings nothing changes. Otherwise the old registry is kept as a prefix, followed by one connection per entry in completion order, each with exactly one added event. |
| Registry.PermutationCovers | src/bull-redis-connections-provider.ts:31-55 | A completion order covers every configured entry. |
| Filter.ApplyFilterSpec | src/commands/filter.ts:182-203 | The filter becomes undefined exactly when the three names are undefined and the job-id pattern is "" or undefined. Otherwise all four fields are stored, with "" for the pattern stored as undefined. |
| Filter.ApplyFilterStable | src/commands/filter.ts:182-203 | Applying the stored filter's own fields again stores the same filter. |
| Filter.EmptyJobIdPatternIsNoPattern | src/tree/tree-data-provider.ts:205-218 | An empty job-id pattern filters nothing. |
| Filter.ConnectionItemIds | src/commands/filter.ts:31-43 | The connection picker offers "all" first, then each connection's name in order. |
| Filter.SelectConnectionSpec | src/commands/filter.ts:21-81 | With at most one connection there is no prompt and every connection is kept. Otherwise a cancel gives none, "all" keeps every connection, and a name keeps only the connections with that name. |
| Filter.AllQueueNames | src/commands/filter.ts:91-101 | The offered queue names are exactly the names of the queues of the connections. |
| Filter.QueueNames | src/commands/filter.ts:94-100 | Lists a connection's queue names in order. |
| Filter.CollectQueueNames | src/commands/filter.ts:91-101 | The loop collects exactly `AllQueueNames`. |
| Filter.SelectQueueSpec | src/commands/filter.ts:128-167 | "All" or an empty typed pattern gives neither field. A typed pattern gives only the pattern, a picked queue only its name, and a cancel none. Both fields are never set together. |
| Filter.PickedQueueIsExact | src/commands/filter.ts:106-161 | Picking a listed queue yields that queue's name as the exact name. |
| Filter.FilterOutcomeSpec | src/commands/filter.ts:205-237 | Cancelling any step leaves the filter unchanged. Completing all steps applies the chosen fields. |
| Filter.RunFilter | src/commands/filter.ts:205-237 | A cancel changes nothing and does not refresh. Otherwise the filter is applied and the tree refreshes once. |
| Filter.ClearFilter | src/commands/filter.ts:239-244 | The filter becomes undefined and the tree refreshes once. |
| Filter.ShowFilterMenu | src/commands/filter.ts:246-280 | Dispatches to set or clear, and a dismissal does nothing. |
| Sort.MergeSortSpec | src/commands/sort.ts:65-93 | No arguments and no stored sort leave it undefined. A given axis overrides, a missing one keeps the current axis (or "none"), and both axes "none" clear the sort. |
| Sort.MergeSortIdempotent | src/commands/sort.ts:65-93 | Applying the same pair twice is the same as applying it once. |
| Sort.MergeSortBothGiven | src/commands/sort.ts:77-92 | With both axes given, the result does not depend on the current sort, and it is undefined exactly when both are "none". |
| Sort.ClearedSortSortsNothing | src/commands/sort.ts:87-92 | A sort with both axes "none" orders nothing, exactly like no sort. |
| Sort.ApplySort | src/commands/sort.ts:65-93 | The stored sort becomes the merge of the current sort with the arguments. |
| Sort.RunSort | src/commands/sort.ts:95-114 | Cancelling either picker changes nothing and does not refresh. Otherwise the sort is applied and the tree refreshes once. |
| Sort.ClearSort | src/commands/sort.ts:116-121 | The sort becomes undefined and the tree refreshes once. |
| Sort.ShowSortMenu | src/commands/sort.ts:123-156 | Dispatches to set or clear, and a dismissal does nothing. |
| ShowJob.JobUriInjective | src/commands/show-job.ts:8-13 | For queue names without "/", two job URIs are equal exactly when queue and id are equal. |
| ShowJob.JobUriCollision | src/commands/show-job.ts:8-13 | Queue "a/b" with job "c" and queue "a" with job "b/c" share a URI. |
| ShowJob.EditDiffSpec | src/commands/show-job.ts:153-183 | Each kind of edit is issued exactly when its field changed, and it carries the document's value. Data is compared by serialised text. Progress and priority are compared when defined, by strict equality. Delay is compared when defined, and only for a job whose delay is non-zero. |
| ShowJob.RewrittenKeyIsNoChange | src/commands/show-job.ts:156-159 | Data whose key is written twice, the last time with the stored value, prints as the stored object, so no data update is issued. |
| Json.PropertiesSpec | src/commands/show-job.ts:156-159 | The object built from a member list has one property per written key, holding the value read for that key, which is the value written last. |
| Json.DuplicateKeyPrintedOnce | src/commands/show-job.ts:156-159 | `{"a":1,"a":2}` and `{"a":2}` serialise to the same text. |
| Json.IndexKeyPrintedFirst | src/commands/show-job.ts:156-159 | An array-index key serialises before the other keys, whatever order the members were written in. |
| ShowJob.SavingUnchangedDocument | src/commands/show-job.ts:153-183 | Saving the formatted job unchanged issues no data, delay or priority edit, and re-sends the progress only when it is an array or object. |
| ShowJob.JobJsonData | src/commands/show-job.ts:15-50 | The job document's `data` is the job's data. |
| ShowJob.JobJsonProgress | src/commands/show-job.ts:15-50 | The job document's `progress` is the job's progress. |
| ShowJob.JobJsonDelayPriority | src/commands/show-job.ts:15-50 | The job document's `delay` and `priority` are the job's. |
| ShowJob.JobFileSystemProvider.constructor | src/commands/show-job.ts:58-67 | There are no open documents and no change events. |
| ShowJob.JobFileSystemProvider.Stat | src/commands/show-job.ts:76-90 | An unregistered URI is "File not found". Otherwise the times are the document's mtime. |
| ShowJob.JobFileSystemProvider.ReadFile | src/commands/show-job.ts:100-116 | An unregistered URI is "File not found". Otherwise the content is the error, the loading text or the formatted job. |
| ShowJob.StatWhileLoading | src/commands/show-job.ts:76-116 | While loading, `stat` reports 10 bytes and `readFile` returns 19. |
| ShowJob.StatOfLoadedJob | src/commands/show-job.ts:76-116 | For a loaded job, `stat` reports the byte length of what `readFile` returns. |
| ShowJob.JobFileSystemProvider.RegisterDocument | src/commands/show-job.ts:213-234 | Overwrites the URI's entry and fires one change. |
| ShowJob.JobFileSystemProvider.UpdateJob | src/commands/show-job.ts:236-258 | On a registered document, sets the job and clears the error. After a save the mtime is kept and no event fires; otherwise the mtime is set and one event fires. An unregistered URI is a no-op. |
| ShowJob.JobFileSystemProvider.UpdateError | src/commands/show-job.ts:260-272 | On a registered document, sets the error, clears the job and fires one change. An unregistered URI is a no-op. |
| ShowJob.JobFileSystemProvider.UnregisterDocument | src/commands/show-job.ts:274-276 | Removes the URI's entry. |
| ShowJob.JobFileSystemProvider.IssueEdits | src/commands/show-job.ts:153-183 | Issues exactly the calls of the edit diff, in order. |
| ShowJob.EditCallsAppend | src/commands/show-job.ts:153-185 | Issuing two edit lists in turn issues their concatenation. |
| ShowJob.JobFileSystemProvider.WriteFile | src/commands/show-job.ts:118-199 | Rejects an unregistered, read-only or job-less document before any update. Otherwise it issues the edit diff, refetches the job, stores it without a change event, and reports success. Failures are wrapped as "Failed to update job". |
| ShowJob.JobViewer.RegisterProvider | src/commands/show-job.ts:291-301 | Installs a fresh, empty provider. |
| ShowJob.DoubleClickOpensPermanently | src/commands/show-job.ts:326-335 | A second click on the same job and queue within 300 ms is a double click. At 300 ms, or on another job, it is not. |
| ShowJob.JobViewer.ShowJob | src/commands/show-job.ts:303-378 | Rejects a missing provider, queue or id with one error. Otherwise it records the click, registers the document with no job and opens it, in preview only if requested and not a double click. It then stores the loaded job or records the load error. When opening fails it shows "Failed to open job details" with the error. The document then stays registered with no job, the click stays recorded, and the job is not fetched. |
| ShowJob.JobViewer.EditJob | src/commands/edit-job.ts:5-8 | Opens the job editable and never in preview. |
| CreateJob.QueueNameRoundTrip | src/commands/create-job.ts:8-13 | For a queue name without "-job.jsonc", recovering the name from its path gives the name back. |
| CreateJob.QueueNameMisread | src/commands/create-job.ts:132-140 | The path of queue "a-job.jsonc-b" is read back as "a-b-job.jsonc". |
| CreateJob.SuffixNameRoundTrips | src/commands/create-job.ts:8-13 | The queue named "-job.jsonc" contains the suffix, yet its path reads back as the same name. |
| CreateJob.TemplateNamesQueue | src/commands/create-job.ts:15-61 | The template names the queue right after its fixed opening. |
| CreateJob.ReadTemplate | src/commands/create-job.ts:141-160 | A null document fails on the name property. An accepted job has a non-empty string name, the document's data and truthy options. Missing data is refused. |
| CreateJob.TemplateRoundTrip | src/commands/create-job.ts:152-177 | A filled template with a name yields that name, data and options (or {}). An empty name is refused with the name error. |
| CreateJob.UnchangedTemplateRefused | src/commands/create-job.ts:15-61 | The template as offered is refused, because its name is empty. |
| CreateJob.SaveAddsOnlyValidJobs | src/commands/create-job.ts:132-203 | A job is added exactly for a valid document of a registered queue, with the document's name, data and options. The add is the first effect and the only mutation. |
| CreateJob.SaveOfFilledTemplate | src/commands/create-job.ts:132-203 | Saving a named template of a registered queue adds it and reports success naming the job and queue. |
| CreateJob.ValidationBeforeLookup | src/commands/create-job.ts:152-167 | An invalid document fails the same way whether or not its queue is registered. |
| CreateJob.CreateJobFileSystemProvider.constructor | src/commands/create-job.ts:93-98 | There are no open documents. |
| CreateJob.CreateJobFileSystemProvider.ReadFile | src/commands/create-job.ts:126-130 | The content is the template for the queue named by the path. |
| CreateJob.CreateJobFileSystemProvider.Stat | src/commands/create-job.ts:107-116 | Both times are now and the size is the byte length of the template. |
| CreateJob.CreateJobFileSystemProvider.RegisterDocument | src/commands/create-job.ts:217-219 | Maps the document key to the node's queue. |
| CreateJob.CreateJobFileSystemProvider.UnregisterDocument | src/commands/create-job.ts:221-223 | Removes the document key. |
| CreateJob.CreateJobFileSystemProvider.WriteFile | src/commands/create-job.ts:132-203 | The effects and result are those of `SaveOutcome`, and the tree refreshes exactly when the add succeeded. |
| CreateJob.JobCreator.RegisterProvider | src/commands/create-job.ts:228-239 | Installs a fresh, empty provider over the tree. |
| CreateJob.JobCreator.CreateJob | src/commands/create-job.ts:241-269 | Without a provider there is one error. Otherwise the document is registered and opened as a permanent tab, or the open failure is reported. |
| ManageConnections.ViolationOf | src/commands/manage-connections.ts:112-125 | An entry passes exactly when it is an object with a truthy string name and a truthy object config. Otherwise the error names the first missing property. |
| ManageConnections.FirstViolation | src/commands/manage-connections.ts:112-125 | There is none exactly when every entry passes. Otherwise it is the violation of some entry before which all pass. |
| ManageConnections.FirstViolationIsFirst | src/commands/manage-connections.ts:112-125 | The reported violation is that of the first failing entry. |
| ManageConnections.NamedEntryAccepted | src/commands/manage-connections.ts:112-125 | An entry with a non-empty name and an object config passes. |
| ManageConnections.SaveOutcomeSpec | src/commands/manage-connections.ts:103-153 | Saving fails exactly for a non-array or an invalid entry, and then nothing is written. On success the settings write comes first. The setting is stored when the update succeeds, and a change fires only if the reinitialisation also succeeds. |
| ManageConnections.ValidListStored | src/commands/manage-connections.ts:127-146 | A valid list is stored and reinitialised, then reported with its entry count. |
| ManageConnections.SavedListReadsBack | src/commands/manage-connections.ts:15-42 | The document is the header followed by the stored list, or by [] when nothing is stored. |
| ManageConnections.ConnectionsFileSystemProvider.constructor | src/commands/manage-connections.ts:44-52 | There are no change events. |
| ManageConnections.ConnectionsFileSystemProvider.ReadFile | src/commands/manage-connections.ts:81-91 | Only the connections URI can be read, and its content is the documented list. |
| ManageConnections.ConnectionsFileSystemProvider.Stat | src/commands/manage-connections.ts:61-71 | Both times are now and the size is the byte length of the document. |
| ManageConnections.ConnectionsFileSystemProvider.WriteFile | src/commands/manage-connections.ts:93-154 | Any other URI is refused. Otherwise the outcome is that of `SaveOutcome`, and a stored list reads back as written. |
| ManageConnections.ConnectionsEditor.RegisterProvider | src/commands/manage-connections.ts:171-184 | Installs a fresh provider over the settings. |
| ManageConnections.ConnectionsEditor.ManageConnections | src/commands/manage-connections.ts:186-206 | Without a provider there is one error. Otherwise the document is opened, or the failure is reported. |
| PromoteJob.PromoteOnlyDelayed | src/commands/promote-job.ts:5-46 | Promote is called only for a found job whose state is "delayed", and it is the only mutation. Every path ends with exactly one message. The tree refreshes exactly when the promote succeeded, after an info message. |
| PromoteJob.Promote | src/commands/promote-job.ts:5-46 | Appends the effects of `PromoteOutcome` and refreshes exactly when it says so. |
| RemoveJob.RemoveOnlyFound | src/commands/remove-job.ts:5-35 | Remove is called only for a found job, and it is the only mutation. Every path ends with exactly one message. The tree refreshes exactly when the removal succeeded. |
| RemoveJob.Remove | src/commands/remove-job.ts:5-35 | Appends the effects of `RemoveOutcome` and refreshes exactly when it says so. |
| DrainQueue.DrainOnlyConfirmed | src/commands/drain-queue.ts:5-37 | The confirmation comes first. Drain is called exactly when the answer is "Yes, Drain Queue", and then exactly one message follows. The tree refreshes exactly when the drain succeeds. |
| DrainQueue.Drain | src/commands/drain-queue.ts:5-37 | Appends the effects of `DrainOutcome` and refreshes exactly when it says so. |
| ObliterateQueue.ObliterateOnlyConfirmed | src/commands/obliterate-queue.ts:5-37 | The confirmation comes first. Obliterate is called exactly when the answer is "Yes, Obliterate Queue", and then exactly one message follows. The tree refreshes exactly when the obliterate succeeds. |
| ObliterateQueue.Obliterate | src/commands/obliterate-queue.ts:5-37 | Appends the effects of `ObliterateOutcome` and refreshes exactly when it says so. |
| Nodes.CountLabelDeterminesCount | src/tree/nodes/queue-node.ts:15-17 | A count label determines its count. |
| Nodes.CountLabelExamples | src/tree/nodes/job-status-node.ts:12-15 | Labels use the singular only for 1: "(0 jobs)", "(1 job)", "(2 jobs)", "(1 queue)". |
| Nodes.JobContextGate | src/tree/nodes/job-node.ts:19 | A job node's context value is "job.delayed" exactly when its status is delayed, and "job" otherwise. |
| Nodes.StatusIdsDistinct | src/tree/nodes/job-status-node.ts:18-22 | Different statuses of one queue have different ids. |
| Nodes.QueueIdsDistinct | src/tree/nodes/queue-node.ts:23 | Differently named queues of one connection have different ids. |
| Nodes.IdStartsWithKindTag | src/tree/nodes/connection-node.ts:15 | Every non-job node's id starts with a tag for its kind. |
| Nodes.KindsHaveDistinctIds | src/tree/nodes/queue-node.ts:23 | Nodes of different kinds never share an id. |
| Nodes.StatusIconFallback | src/tree/nodes/job-status-node.ts:26-57 | The checklist icon is used exactly for a status that is none of the seven. |
| Nodes.ConnectionIconPerStatus | src/tree/nodes/connection-node.ts:18-38 | Every connection status gets an icon: a spinner while loading queues, otherwise a server icon. It is red when failed, green when ready, and uncoloured otherwise. |
| Nodes.FallbackExactlyWhenNoLines | src/tree/nodes/filter-node.ts:30-32 | The tooltip shows its fallback text exactly when there are no lines. |
| Nodes.FilterTooltipSpec | src/tree/nodes/filter-node.ts:9-32 | The filter tooltip is the "No specific filters" one exactly when no field is set to a non-empty string. |
| Nodes.SortTooltipSpec | src/tree/nodes/sort-node.ts:9-33 | The sort tooltip is the "No sorting applied" one exactly when neither axis sorts. |
| Strings.NumericIdRoundTrip | src/tree/tree-data-provider.ts:350-353 | A numeric id prints back to itself, as the `a === String(Number(a))` test requires. |
| Strings.IntToStringIsNumericId | src/tree/tree-data-provider.ts:350-353 | Every integer with at most 15 digits prints as a numeric id with its own value. |
| Strings.CapitalizeFirst | src/tree/nodes/job-status-node.ts:12 | Only the first character is upper-cased, and the rest is kept. |

## Left out

- Redis, BullMQ and VS Code themselves are left out. Every call into them is a
  `Call<T>` parameter or a backend function. What those libraries do
  internally (what drain deletes, how `getRanges` orders ids) is not
  modelled.
- Redis key scanning is modelled as a list of keys. The scan's batching,
  cursor and glob matching beyond a literal prefix and the `:id` suffix are
  left out.
- Queue handles are values (name, prefix, connection), so object identity is
  not modelled.
- Connection nodes hold a snapshot of their connection's name, status and
  queues, not a live reference.
- `getConnections` returns the registered list as a value. Aliasing of the
  live array is not modelled.
- Concurrency is left out. `Promise.all` and `allSettled` run in input order,
  and the completion order of `initConnections` is an input permutation.
  Overlapping `exploreQueues` calls are not modelled.
- Timers are left out. The deferred close in the create-job save is modelled
  as a later `UnregisterDocument`. `Date.now()` is a parameter.
- Closing listeners are left out. The listeners registered on
  `onDidCloseTextDocument` are not modelled; their effect is
  `UnregisterDocument`.
- The filesystem stubs `watch`, `readDirectory`, `createDirectory`, `delete`
  and `rename` are left out.
- Floating point is left out. The numeric-id test is modelled for canonical
  decimal integers of up to 15 digits; decimals such as "1.5" are treated as
  text.
- `localeCompare` is plain lexicographic order on characters.
- `toUpperCase` maps only ASCII letters, and URIs are not percent-encoded.
- JSONC parsing is an input: the parsed document (or its parse error) is a
  parameter. An object keeps its members as written, and `JSON.stringify`
  prints the object JavaScript builds from them. That object has one
  property per key with the last value written, and lists array-index keys
  first (`Json.OwnKeysOrder`). Parsing an empty document to undefined is
  not modelled.
- `reinitializeConnections` is not defined in the registry source, so it is
  kept as an opaque call with an outcome.
- Logging and output channels are left out.
- The wiring of commands, the manage-connections node's fixed fields and the
  extension's activation are left out.
- Tree.JobIds: states sortedness only when all ids are numeric or all are
  non-numeric, because on mixed ids the comparator is not transitive
  (`Tree.MixedIdsNotTransitive`).
- ShowJob.JobViewer.ShowJob: `openTextDocument` and `showTextDocument`
  are modelled as one outcome, so a failure of the second after the first
  succeeded is not told apart.
- Tree.BullMQTreeDataProvider.constructor: the discovery passes of the
  added connections run one after another, in the order the connections
  were added, after all connect attempts. In the extension they overlap.
  The constructor's contract does not state the queue-name cache writes of
  those passes; `ExploreQueues` states each one. The `onQueuesExplored`
  listener stays subscribed, so later explorations such as the refresh
  command's forced one also refresh the tree; those later calls are not
  modelled.
- ManageConnections.ConnectionsEditor.ManageConnections: failures of
  `openTextDocument` and `showTextDocument` are combined into one outcome.
- CreateJob.JobCreator.CreateJob: failures of `openTextDocument` and
  `showTextDocument` are combined into one outcome.
- ShowJob.JobViewer.ShowJob: failures of `openTextDocument` and
  `showTextDocument` are combined into one outcome, `opening`.
