/** The registry of configured connections (`BullRedisConnectionsProvider`):
    an append-only list filled from the `bullmq-explorer.connections`
    setting, announcing every connection it adds. */
module Registry {
  import opened Wrappers
  import opened Json
  import opened Sequences
  import opened Bullmq
  import opened Connection

  /** One entry of the connections setting. */
  datatype SettingsConnection = SettingsConnection(name: string, prefix: Option<string>, config: Json)

  /** An `onConnectionAdded` event, with the registry's size when it fired. */
  datatype ConnectionAdded = ConnectionAdded(connection: BullRedisConnection, registrySize: nat)

  function Range(n: nat): (r: seq<nat>)
    ensures |r| == n && forall i :: 0 <= i < n ==> r[i] == i
  {
    seq(n, i requires 0 <= i => i as nat)
  }

  /** `order[k]` is the entry whose connect attempt completes `k`-th. */
  predicate IsPermutation(order: seq<nat>, n: nat) {
    |order| == n && (forall k :: 0 <= k < n ==> order[k] < n) && multiset(order) == multiset(Range(n))
  }

  /** A completion order names every configured entry, and only those. */
  lemma PermutationCovers(order: seq<nat>, n: nat)
    requires IsPermutation(order, n)
    ensures forall i :: 0 <= i < n ==> i in order
  {
    forall i | 0 <= i < n ensures i in order {
      assert Range(n)[i] == i;
      assert i in multiset(Range(n));
    }
  }

  /** The connection built for entry `e` whose connect attempt had
      `outcome`, before any queue discovery. */
  ghost predicate BuiltFrom(c: BullRedisConnection, e: SettingsConnection, outcome: Call<()>, globalState: Memento)
    reads c
  {
    c.name == e.name && c.config == e.config && c.prefix == EffectivePrefix(e.prefix)
    && c.globalState == globalState
    && c.status == (if outcome.Returns? then Connected else Failed)
    && c.queues == [] && c.explored == []
  }

  class BullRedisConnectionsProvider {
    var connections: seq<BullRedisConnection>
    /** The `onConnectionAdded` events fired so far. */
    var added: seq<ConnectionAdded>
    const globalState: Memento

    constructor(globalState: Memento)
      ensures connections == [] && added == [] && this.globalState == globalState
    {
      connections := [];
      added := [];
      this.globalState := globalState;
    }

    method GetConnections() returns (cs: seq<BullRedisConnection>)
      ensures cs == connections
    {
      return connections;
    }

    /** Create one connection, attempt to connect it (a failure is only
        logged), append it and announce it. */
    method AddConnection(e: SettingsConnection, outcome: Call<()>) returns (connection: BullRedisConnection)
      modifies this`connections, this`added
      ensures fresh(connection) && BuiltFrom(connection, e, outcome, globalState)
      ensures connections == old(connections) + [connection]
      ensures added == old(added) + [ConnectionAdded(connection, |connections|)]
    {
      connection := new BullRedisConnection(e.name, e.config, e.prefix, globalState);
      var _ := connection.Connect(outcome);
      connections := connections + [connection];
      added := added + [ConnectionAdded(connection, |connections|)];
    }

    /** Create and connect one connection per configured entry. `settings`
        is the setting (absent or a list), `order` the order in which the
        connect attempts complete, `outcomes[i]` the attempt of entry `i`. */
    method InitConnections(settings: Option<seq<SettingsConnection>>, order: seq<nat>, outcomes: seq<Call<()>>)
      requires settings.Some? ==> IsPermutation(order, |settings.value|) && |outcomes| == |settings.value|
      modifies this`connections, this`added
      ensures settings.None? ==> connections == old(connections) && added == old(added)
      ensures settings.Some? ==>
        |connections| == |old(connections)| + |settings.value|
        && connections[..|old(connections)|] == old(connections)
        && |added| == |old(added)| + |settings.value|
        && added[..|old(added)|] == old(added)
      ensures settings.Some? ==> forall k :: 0 <= k < |settings.value| ==>
        var c := connections[|old(connections)| + k];
        fresh(c)
        && BuiltFrom(c, settings.value[order[k]], outcomes[order[k]], globalState)
        && added[|old(added)| + k] == ConnectionAdded(c, |old(connections)| + k + 1)
      ensures forall i, j :: |old(connections)| <= i < j < |connections| ==> connections[i] != connections[j]
      ensures forall i :: |old(connections)| <= i < |connections| ==> fresh(connections[i])
    {
      if settings.None? {
        return;
      }
      var entries := settings.value;
      PermutationCovers(order, |entries|);
      ghost var n0 := |connections|;
      ghost var a0 := |added|;
      for k := 0 to |entries|
        invariant |connections| == n0 + k && connections[..n0] == old(connections)
        invariant |added| == a0 + k && added[..a0] == old(added)
        invariant forall i :: n0 <= i < n0 + k ==>
          fresh(connections[i])
          && BuiltFrom(connections[i], entries[order[i - n0]], outcomes[order[i - n0]], globalState)
          && added[a0 + (i - n0)] == ConnectionAdded(connections[i], i + 1)
        invariant forall i, j :: n0 <= i < j < |connections| ==> connections[i] != connections[j]
      {
        var _ := AddConnection(entries[order[k]], outcomes[order[k]]);
      }
      forall k | 0 <= k < |entries|
        ensures var c := connections[n0 + k];
          fresh(c)
          && BuiltFrom(c, entries[order[k]], outcomes[order[k]], globalState)
          && added[a0 + k] == ConnectionAdded(c, n0 + k + 1)
      {
        assert (n0 + k) - n0 == k;
      }
    }
  }
}
