/** One Redis connection of the explorer (`BullRedisConnection`): its status
    machine, the discovery of the BullMQ queues behind it, and the per-name
    cache of discovered queue names in the extension's global storage. */
module Connection {
  import opened Wrappers
  import opened Strings
  import opened Json
  import ViewState
  import opened Sequences
  import opened Bullmq

  datatype ConnectionStatus = Idle | Connected | Failed | LoadingQueues | Ready

  /** A connection as the tree reads it: name, status and queue map in
      insertion order. */
  datatype ConnectionView = ConnectionView(name: string, status: ConnectionStatus, queues: seq<Queue>)

  /** The payload of `onQueuesExplored`. */
  datatype QueuesExplored = QueuesExplored(connectionName: string, queueCount: nat)

  /** The extension's global key-value storage (`vscode.Memento`). */
  class Memento {
    var entries: map<string, seq<string>>

    constructor()
      ensures entries == map[]
    {
      entries := map[];
    }
  }

  const DefaultPrefix := "bull"

  /** `prefix || "bull"`. */
  function EffectivePrefix(prefix: Option<string>): (p: string)
    ensures p != ""
    ensures ViewState.NonEmpty(prefix) ==> p == prefix.value
    ensures !ViewState.NonEmpty(prefix) ==> p == DefaultPrefix
  {
    if ViewState.NonEmpty(prefix) then prefix.value else DefaultPrefix
  }

  // ---------------------------------------------------------------------
  // The name cache
  // ---------------------------------------------------------------------

  const CachePrefix := "bullmq:queues:"

  /** The storage key under which a connection's queue names are kept. */
  function CacheKey(name: string): string {
    CachePrefix + name
  }

  /** Different connections never share a cache entry. */
  lemma CacheKeyInjective(a: string, b: string)
    ensures CacheKey(a) == CacheKey(b) ==> a == b
  {
    if CacheKey(a) == CacheKey(b) {
      assert a == CacheKey(a)[|CachePrefix|..];
    }
  }

  /** What reading the cache yields: the stored names, or none when the
      entry is missing or empty. */
  function CachedNames(entries: map<string, seq<string>>, name: string): seq<string> {
    if CacheKey(name) in entries && |entries[CacheKey(name)]| > 0 then entries[CacheKey(name)] else []
  }

  /** Writing a non-empty list is read back unchanged; writing touches no
      other connection's entry. */
  lemma CacheRoundTrip(entries: map<string, seq<string>>, name: string, names: seq<string>, other: string)
    ensures names != [] ==> CachedNames(entries[CacheKey(name) := names], name) == names
    ensures names == [] ==> CachedNames(entries[CacheKey(name) := names], name) == []
    ensures other != name ==>
      CachedNames(entries[CacheKey(name) := names], other) == CachedNames(entries, other)
  {
    CacheKeyInjective(name, other);
  }

  // ---------------------------------------------------------------------
  // Queue discovery from Redis keys
  // ---------------------------------------------------------------------

  /** The glob `<prefix>:*:id` the scan asks Redis for, with the prefix
      taken literally. */
  predicate MatchesScanPattern(key: string, prefix: string) {
    |key| >= |prefix| + 4 && key[..|prefix| + 1] == prefix + ":" && key[|key| - 3..] == ":id"
  }

  /** The keys a scan delivers from the keyspace, in keyspace order. */
  function ScannedKeys(keyspace: seq<string>, prefix: string): seq<string> {
    Keep(keyspace, k => MatchesScanPattern(k, prefix))
  }

  /** The queue name one key contributes: the second `:`-separated piece,
      when there are at least three pieces and it is neither empty nor `*`. */
  function QueueNameOfKey(key: string): Option<string> {
    var parts := Split(key, ':');
    if |parts| >= 3 && parts[1] != "" && parts[1] != "*" then Some(parts[1]) else None
  }

  /** The key BullMQ keeps a queue's id counter under. */
  function IdKey(prefix: string, name: string): string {
    prefix + ":" + name + ":id"
  }

  /** A queue's id key is found by the scan and yields the queue's name back,
      when neither prefix nor name holds a colon. */
  lemma {:induction false} IdKeyParses(prefix: string, name: string)
    requires ':' !in prefix && ':' !in name && name != "" && name != "*"
    ensures MatchesScanPattern(IdKey(prefix, name), prefix)
    ensures QueueNameOfKey(IdKey(prefix, name)) == Some(name)
  {
    var key := IdKey(prefix, name);
    assert key == prefix + [':'] + (name + [':'] + "id");
    SplitAfterPiece(prefix, name + [':'] + "id", ':');
    SplitAfterPiece(name, "id", ':');
    SplitNoSep("id", ':');
    assert Split(key, ':') == [prefix, name, "id"];
  }

  /** With a colon inside the prefix the parser picks a piece of the prefix:
      prefix `my:app` and queue `orders` are reported as a queue `app`. */
  lemma {:induction false} ColonInPrefixMisparsed(outer: string, inner: string, name: string)
    requires ':' !in outer && ':' !in inner && ':' !in name && inner != "" && inner != "*"
    ensures MatchesScanPattern(IdKey(outer + ":" + inner, name), outer + ":" + inner)
    ensures QueueNameOfKey(IdKey(outer + ":" + inner, name)) == Some(inner)
  {
    var prefix := outer + ":" + inner;
    var key := IdKey(prefix, name);
    assert key == prefix + (":" + name + ":id");
    assert key[..|prefix| + 1] == prefix + ":";
    assert key == outer + [':'] + (inner + [':'] + (name + [':'] + "id"));
    SplitAfterPiece(outer, inner + [':'] + (name + [':'] + "id"), ':');
    SplitAfterPiece(inner, name + [':'] + "id", ':');
    SplitAfterPiece(name, "id", ':');
    SplitNoSep("id", ':');
  }

  /** The example: prefix `my:app`, queue `orders`. */
  lemma MyAppOrdersMisparsed(prefix: string, name: string)
    requires prefix == "my:app" && name == "orders"
    ensures QueueNameOfKey(IdKey(prefix, name)) == Some("app")
  {
    assert prefix == "my" + ":" + "app";
    ColonInPrefixMisparsed("my", "app", name);
  }

  /** The names of the given keys, deduplicated in first-seen order. */
  function ScannedNames(keys: seq<string>): seq<string>
    decreases |keys|
  {
    if keys == [] then []
    else
      var names := ScannedNames(keys[..|keys| - 1]);
      var n := QueueNameOfKey(keys[|keys| - 1]);
      if n.Some? && n.value !in names then names + [n.value] else names
  }

  /** The scanned names are distinct, and they are exactly the names some key
      yields. */
  lemma {:induction false} ScannedNamesSpec(keys: seq<string>)
    ensures Distinct(ScannedNames(keys))
    ensures forall n :: n in ScannedNames(keys) <==>
      exists i :: 0 <= i < |keys| && QueueNameOfKey(keys[i]) == Some(n)
    decreases |keys|
  {
    if keys != [] {
      var init := keys[..|keys| - 1];
      ScannedNamesSpec(init);
      forall n ensures n in ScannedNames(keys) <==>
        exists i :: 0 <= i < |keys| && QueueNameOfKey(keys[i]) == Some(n)
      {
        if n in ScannedNames(keys) && n !in ScannedNames(init) {
          assert QueueNameOfKey(keys[|keys| - 1]) == Some(n);
        }
        if exists i :: 0 <= i < |keys| && QueueNameOfKey(keys[i]) == Some(n) {
          var i :| 0 <= i < |keys| && QueueNameOfKey(keys[i]) == Some(n);
          if i < |keys| - 1 {
            assert init[i] == keys[i];
          }
        }
        if exists i :: 0 <= i < |init| && QueueNameOfKey(init[i]) == Some(n) {
          var i :| 0 <= i < |init| && QueueNameOfKey(init[i]) == Some(n);
          assert keys[i] == init[i];
        }
      }
    }
  }

  /** `Map.set` keyed by queue name: an existing entry keeps its position and
      takes the new value, a new name is appended. */
  function MapSet(m: seq<Queue>, q: Queue): seq<Queue>
    decreases |m|
  {
    if m == [] then [q]
    else if m[0].name == q.name then [q] + m[1..]
    else [m[0]] + MapSet(m[1..], q)
  }

  lemma {:induction false} MapSetNew(m: seq<Queue>, q: Queue)
    requires forall i :: 0 <= i < |m| ==> m[i].name != q.name
    ensures MapSet(m, q) == m + [q]
    decreases |m|
  {
    if m != [] {
      MapSetNew(m[1..], q);
      assert m == [m[0]] + m[1..];
    }
  }

  /** The map after `clear()` and one `set` per name, in order. */
  function RebuiltMap(names: seq<string>, prefix: string, connection: string): seq<Queue>
    decreases |names|
  {
    if names == [] then []
    else MapSet(RebuiltMap(names[..|names| - 1], prefix, connection), Queue(names[|names| - 1], prefix, connection))
  }

  /** One handle per name, in the order of the names. */
  function QueuesOf(names: seq<string>, prefix: string, connection: string): (qs: seq<Queue>)
    ensures |qs| == |names|
    ensures forall i :: 0 <= i < |names| ==> qs[i] == Queue(names[i], prefix, connection)
  {
    seq(|names|, i requires 0 <= i < |names| => Queue(names[i], prefix, connection))
  }

  /** For distinct names the rebuilt map holds exactly one entry per name. */
  lemma {:induction false} RebuiltMapOfDistinct(names: seq<string>, prefix: string, connection: string)
    requires Distinct(names)
    ensures RebuiltMap(names, prefix, connection) == QueuesOf(names, prefix, connection)
    decreases |names|
  {
    if names != [] {
      var init := names[..|names| - 1];
      RebuiltMapOfDistinct(init, prefix, connection);
      var m := QueuesOf(init, prefix, connection);
      var q := Queue(names[|names| - 1], prefix, connection);
      forall i | 0 <= i < |m| ensures m[i].name != q.name {
        assert m[i].name == names[i];
      }
      MapSetNew(m, q);
    }
  }

  class BullRedisConnection {
    const name: string
    const config: Json
    const prefix: string
    const globalState: Memento
    var status: ConnectionStatus
    var queues: seq<Queue>
    /** The `onQueuesExplored` events fired so far. */
    var explored: seq<QueuesExplored>

    constructor(name: string, config: Json, prefix: Option<string>, globalState: Memento)
      ensures this.name == name && this.config == config && this.globalState == globalState
      ensures this.prefix == EffectivePrefix(prefix)
      ensures status == Idle && queues == [] && explored == []
    {
      this.name := name;
      this.config := config;
      this.prefix := EffectivePrefix(prefix);
      this.globalState := globalState;
      status := Idle;
      queues := [];
      explored := [];
    }

    function View(): ConnectionView
      reads this
    {
      ConnectionView(name, status, queues)
    }

    /** Connect the client; `outcome` is what the client's `connect` does. */
    method Connect(outcome: Call<()>) returns (r: Result<(), string>)
      modifies this`status
      ensures outcome.Returns? ==> status == Connected && r.Ok?
      ensures outcome.Throws? ==> status == Failed && r == Err(outcome.message)
    {
      if outcome.Throws? {
        status := Failed;
        return Err(outcome.message);
      }
      status := Connected;
      return Ok(());
    }

    /** The names the scan stream's keys yield, deduplicated in first-seen
        order through a set. */
    method ScanQueueNames(keys: seq<string>) returns (names: seq<string>)
      ensures names == ScannedNames(keys)
    {
      var seen: set<string> := {};
      names := [];
      for k := 0 to |keys|
        invariant names == ScannedNames(keys[..k])
        invariant seen == set n | n in names
      {
        assert keys[..k + 1][..k] == keys[..k];
        var parts := Split(keys[k], ':');
        if |parts| >= 3 {
          var queueName := parts[1];
          if queueName != "" && queueName != "*" && queueName !in seen {
            names := names + [queueName];
            seen := seen + {queueName};
          }
        }
      }
      assert keys[..|keys|] == keys;
    }

    /** `getQueueNamesFromCache`. */
    method QueueNamesFromCache() returns (names: seq<string>)
      ensures names == CachedNames(globalState.entries, name)
    {
      var key := CacheKey(name);
      if key in globalState.entries && |globalState.entries[key]| > 0 {
        return globalState.entries[key];
      }
      return [];
    }

    /** Clear the queue map and set one handle per name. */
    method RebuildQueues(queueNames: seq<string>)
      modifies this`queues
      ensures queues == RebuiltMap(queueNames, prefix, name)
    {
      queues := [];
      for k := 0 to |queueNames|
        invariant queues == RebuiltMap(queueNames[..k], prefix, name)
      {
        assert queueNames[..k + 1][..k] == queueNames[..k];
        queues := MapSet(queues, Queue(queueNames[k], prefix, name));
      }
      assert queueNames[..|queueNames|] == queueNames;
    }

    /** Discover the queues behind the connection. `keyspace` is the Redis
        keyspace the scan walks, or the error the scan throws. */
    method ExploreQueues(forceRefresh: bool, keyspace: Call<seq<string>>) returns (r: Result<(), string>)
      modifies this`status, this`queues, this`explored, globalState`entries
      ensures old(status) == Idle || old(status) == Failed || (old(queues) != [] && !forceRefresh) ==>
        r.Ok? && status == old(status) && queues == old(queues) && explored == old(explored)
        && globalState.entries == old(globalState.entries)
      ensures !(old(status) == Idle || old(status) == Failed || (old(queues) != [] && !forceRefresh)) ==>
        if keyspace.Throws? then
          r == Err(keyspace.message) && status == LoadingQueues && queues == old(queues)
          && explored == old(explored) && globalState.entries == old(globalState.entries)
        else
          var names := ScannedNames(ScannedKeys(keyspace.value, prefix));
          r.Ok? && status == Ready && queues == QueuesOf(names, prefix, name)
          && globalState.entries == old(globalState.entries)[CacheKey(name) := names]
          && explored == old(explored) + [QueuesExplored(name, |names|)]
    {
      if status == Failed || status == Idle {
        return Ok(());
      }
      if |queues| > 0 && !forceRefresh {
        return Ok(());
      }
      status := LoadingQueues;
      var cachedQueueNames := QueueNamesFromCache();
      var queueNames: seq<string>;
      if forceRefresh || |queues| == 0 {
        if keyspace.Throws? {
          return Err(keyspace.message);
        }
        queueNames := ScanQueueNames(ScannedKeys(keyspace.value, prefix));
      } else {
        queueNames := cachedQueueNames;
      }
      globalState.entries := globalState.entries[CacheKey(name) := queueNames];
      RebuildQueues(queueNames);
      ScannedNamesSpec(ScannedKeys(keyspace.value, prefix));
      RebuiltMapOfDistinct(queueNames, prefix, name);
      status := Ready;
      explored := explored + [QueuesExplored(name, |queues|)];
      return Ok(());
    }
  }

  /** The scan only ever reports names of keys matching `<prefix>:*:id`, and
      every such key with a usable name is reported. */
  lemma DiscoveredNames(keyspace: seq<string>, prefix: string, n: string)
    ensures n in ScannedNames(ScannedKeys(keyspace, prefix)) <==>
      exists i :: 0 <= i < |keyspace| && MatchesScanPattern(keyspace[i], prefix) && QueueNameOfKey(keyspace[i]) == Some(n)
  {
    var keys := ScannedKeys(keyspace, prefix);
    ScannedNamesSpec(keys);
    if n in ScannedNames(keys) {
      var i :| 0 <= i < |keys| && QueueNameOfKey(keys[i]) == Some(n);
      assert keys[i] in keys;
      var j :| 0 <= j < |keyspace| && keyspace[j] == keys[i];
    }
    if exists i :: 0 <= i < |keyspace| && MatchesScanPattern(keyspace[i], prefix) && QueueNameOfKey(keyspace[i]) == Some(n) {
      var i :| 0 <= i < |keyspace| && MatchesScanPattern(keyspace[i], prefix) && QueueNameOfKey(keyspace[i]) == Some(n);
      assert keyspace[i] in keys;
      var j :| 0 <= j < |keys| && keys[j] == keyspace[i];
    }
  }
}
