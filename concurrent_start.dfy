/** The start loop of src/cluster.js:267-288 as written. `ARRAY(worker_ports).map(...)`
    calls `register` for every port at once and hands `reduce($Q.when, $Q())` the
    resulting promises rather than steps, so the registrations run side by side, each in
    its own transaction, and each `start_node` runs when its own registration resolves.
    This module models one schedule that allows: every registration reads the store before
    any of them commits, and the registrations resolve in an arbitrary `order`. */
module ConcurrentStart {
  import opened Wrappers
  import W = Workers
  import S = ProcessSupervisor
  import PortAllocation
  import ClusterConfig
  import opened ClusterStart

  /** What one `register` transaction (src/workers.js:36-104) decides on the store it
      read: the ids it deletes, the record it creates, if any, and the Worker it resolves
      with. */
  datatype Writes = Writes(deleted: set<W.Id>, created: seq<W.Doc>, worker: W.Doc)

  function RegisterWrites(snapshot: seq<W.Doc>, input: W.Address, freshId: W.Id): (w: Writes)
    ensures |w.created| <= 1
    ensures w.worker == W.KeptWorker(snapshot, input, input, freshId)
    ensures w.created == [] <==> |W.Search(snapshot, W.WorkerAt(input))| >= 1
  {
    var found := W.Search(snapshot, W.WorkerAt(input));
    var kept := W.KeptWorker(snapshot, input, input, freshId);
    var duplicates := if |found| >= 1 then W.IdsOf(found[1..]) else {};
    Writes(duplicates + W.IdsOf(W.Search(snapshot, W.OwnedBy(kept.id))),
           if |found| >= 1 then [] else [kept],
           kept)
  }

  /** `db.commit()`: the deletions and the creation applied to the store as it is at
      commit time; a new record goes last. */
  function Commit(docs: seq<W.Doc>, w: Writes): (r: seq<W.Doc>)
    ensures forall d :: d in r <==> (d in docs && d.id !in w.deleted) || d in w.created
  {
    W.Search(docs, W.NotIn(w.deleted)) + w.created
  }

  /** The transactions committed one after the other, in the order of `ws`. */
  function CommitAll(docs: seq<W.Doc>, ws: seq<Writes>): seq<W.Doc>
    decreases |ws|
  {
    if ws == [] then docs else CommitAll(Commit(docs, ws[0]), ws[1..])
  }

  /** Every registration of `ports` decided on the same `snapshot`. */
  function SnapshotWrites(snapshot: seq<W.Doc>, hostname: string, ports: seq<int>, freshIds: seq<W.Id>): (ws: seq<Writes>)
    requires |freshIds| == |ports|
    ensures |ws| == |ports|
    ensures forall i :: 0 <= i < |ports| ==> ws[i] == RegisterWrites(snapshot, WorkerAddress(hostname, ports[i]), freshIds[i])
  {
    seq(|ports|, i requires 0 <= i < |ports| => RegisterWrites(snapshot, WorkerAddress(hostname, ports[i]), freshIds[i]))
  }

  /** Deleting `a` and then `b` deletes `a + b`. */
  lemma {:induction false} DeleteBoth(docs: seq<W.Doc>, a: set<W.Id>, b: set<W.Id>)
    ensures W.Search(W.Search(docs, W.NotIn(a)), W.NotIn(b)) == W.Search(docs, W.NotIn(a + b))
  {
    if docs != [] {
      DeleteBoth(docs[1..], a, b);
    }
  }

  /** A transaction alone on the store writes exactly what `register` does. */
  lemma SingleRegistrationWrites(docs: seq<W.Doc>, input: W.Address, freshId: W.Id)
    requires W.UniqueIds(docs) && W.FreshId(docs, freshId)
    ensures var w := RegisterWrites(docs, input, freshId);
      var r := W.RegisterInStore(docs, input, input, freshId);
      Commit(docs, w) == r.docs && w.worker == r.worker
  {
    var w := RegisterWrites(docs, input, freshId);
    var found := W.Search(docs, W.WorkerAt(input));
    var kept := w.worker;
    var owned := W.Search(docs, W.OwnedBy(kept.id));
    var reconciled := W.Reconciled(docs, input, input, freshId);
    if |found| >= 1 {
      var duplicates := W.IdsOf(found[1..]);
      forall d | d in docs && W.Matches(W.OwnedBy(kept.id), d) ensures W.Matches(W.NotIn(duplicates), d) {
        W.DuplicateId(docs, input, d);
      }
      W.SearchNarrow(docs, W.NotIn(duplicates), W.OwnedBy(kept.id));
      DeleteBoth(docs, duplicates, W.IdsOf(owned));
      assert Commit(docs, w) == W.Search(docs, W.NotIn(duplicates + W.IdsOf(owned))) + [];
    } else {
      var created := W.NewWorker(freshId, input);
      assert kept == created && reconciled == docs + [created];
      W.SearchAppend(docs, [created], W.OwnedBy(kept.id));
      assert W.Search([created], W.OwnedBy(kept.id)) == [];
      assert W.Search(reconciled, W.OwnedBy(kept.id)) == owned + [] == owned;
      forall d | d in owned ensures d.id != freshId {
        var k :| 0 <= k < |docs| && docs[k] == d;
      }
      assert freshId !in W.IdsOf(owned);
      W.SearchAppend(docs, [created], W.NotIn(W.IdsOf(owned)));
      assert W.Search([created], W.NotIn(W.IdsOf(owned))) == [created];
      assert W.IdsOf(owned) == {} + W.IdsOf(owned);
      assert W.ClearOwned(reconciled, kept.id) == W.Search(docs, W.NotIn(W.IdsOf(owned))) + [created];
    }
  }

  /** The race on one port: two slots configured on the same port
      (`{cluster: {workers: [3000, 3000], size: 2}}`), planned as `[3000, 3000]`, and
      both registrations reading the empty store before either commits: the store ends
      with two Workers at `node1:3000`, where the sequential start keeps one. */
  lemma SamePortTwiceRegistersTwoWorkers()
    ensures PortAllocation.ControllerPorts(
              ClusterConfig.Settings(ClusterConfig.Missing, ClusterConfig.Many([3000, 3000]), Some(2)),
              ClusterConfig.One(3000), 4) == Ok([3000, 3000])
    ensures var after := CommitAll([], SnapshotWrites([], "node1", [3000, 3000], ["id-1", "id-2"]));
      |W.Search(after, W.WorkerAt(WorkerAddress("node1", 3000)))| == 2
  {
    var c := ClusterConfig.Settings(ClusterConfig.Missing, ClusterConfig.Many([3000, 3000]), Some(2));
    assert ClusterConfig.Normalize(c, ClusterConfig.One(3000)) ==
      ClusterConfig.Settings(ClusterConfig.Many([3000]), ClusterConfig.Many([3000, 3000]), Some(2));
    assert PortAllocation.ControllerPorts(c, ClusterConfig.One(3000), 4) == PortAllocation.PlannedPorts(2, [3000, 3000]);
    assert [3000, 3000][..2] == [3000, 3000];
    var address := WorkerAddress("node1", 3000);
    var ws := SnapshotWrites([], "node1", [3000, 3000], ["id-1", "id-2"]);
    var first := W.NewWorker("id-1", address);
    var second := W.NewWorker("id-2", address);
    assert ws[0] == Writes({}, [first], first);
    assert ws[1] == Writes({}, [second], second);
    assert Commit([], ws[0]) == [first];
    assert Commit([first], ws[1]) == [first, second] by {
      assert W.Search([first], W.NotIn({})) == [first];
    }
    assert ws[1..][1..] == [];
    assert CommitAll([], ws) == [first, second];
    assert W.Search([first, second], W.WorkerAt(address)) == [first, second] by {
      assert [first, second][1..] == [second];
    }
  }

  /** `order` lists every index of a sequence of `n` elements once. */
  predicate IsPermutation(order: seq<nat>, n: nat) {
    |order| == n &&
    (forall k :: 0 <= k < n ==> order[k] < n) &&
    (forall k, l :: 0 <= k < l < n ==> order[k] != order[l])
  }

  function Permute<T>(s: seq<T>, order: seq<nat>): (r: seq<T>)
    requires forall k :: 0 <= k < |order| ==> order[k] < |s|
    ensures |r| == |order| && forall k :: 0 <= k < |order| ==> r[k] == s[order[k]]
  {
    seq(|order|, k requires 0 <= k < |order| => s[order[k]])
  }

  /** Lines 273-277 as written: the nodes are forked as the registrations resolve, in
      `order`, so the `k`th fork, and the `k`th debug port, go to `ports[order[k]]`. */
  method StartNodesAsResolved(sup: S.Supervisor, hostname: string, ports: seq<int>, workers: seq<W.Doc>, order: seq<nat>)
    requires |workers| == |ports| && IsPermutation(order, |ports|)
    modifies sup
    ensures sup.execArgv == old(sup.execArgv)
    ensures sup.debugPorts == old(sup.debugPorts) + (if sup.debugPortsEnabled then |ports| else 0)
    ensures ForksFollow(sup.forks, |old(sup.forks)|, sup.debugPortsEnabled, sup.debugFlag, sup.execArgv, old(sup.debugPorts),
                        hostname, Permute(ports, order), Permute(workers, order))
    ensures sup.forks[..|old(sup.forks)|] == old(sup.forks)
  {
    var resolvedPorts := Permute(ports, order);
    var resolved := Permute(workers, order);
    ghost var forks0 := sup.forks;
    ghost var counter0 := sup.debugPorts;
    for k := 0 to |ports|
      invariant sup.execArgv == old(sup.execArgv)
      invariant sup.debugPorts == counter0 + (if sup.debugPortsEnabled then k else 0)
      invariant ForksFollow(sup.forks, |forks0|, sup.debugPortsEnabled, sup.debugFlag, sup.execArgv, counter0,
                            hostname, resolvedPorts, resolved[..k])
      invariant sup.forks[..|forks0|] == forks0
    {
      ForkNext(sup, hostname, resolvedPorts, k, resolved[k], resolved[..k], |forks0|, counter0);
      assert resolved[..k + 1] == resolved[..k] + [resolved[k]];
    }
    assert resolved[..|ports|] == resolved;
  }

  /** Debug ports in resolution order: with debugging on and two ports whose second
      registration resolves first, the node for `ports[1]` is forked first and gets the
      first debug port, where the sequential start gives it the second. */
  lemma SecondPortResolvedFirst(flag: string, execArgv: seq<string>, counter: nat, hostname: string,
                                ports: seq<int>, workers: seq<W.Doc>, forks: seq<S.Fork>, start: nat)
    requires |ports| == |workers| == 2
    requires ForksFollow(forks, start, true, flag, execArgv, counter, hostname, Permute(ports, [1, 0]), Permute(workers, [1, 0]))
    ensures IsPermutation([1, 0], 2)
    ensures forks[start].env.Some? && "WORKER_PORT" in forks[start].env.value && S.WorkerDebugPort in forks[start].env.value
    ensures forks[start].env.value["WORKER_PORT"] == S.Number(ports[1])
    ensures forks[start].env.value[S.WorkerDebugPort] == S.Number(S.DebugPortBase + counter)
    ensures var inPortOrder := WorkerFork(true, flag, execArgv, counter + 1, hostname, ports[1], workers[1].id);
      inPortOrder.env.Some? && inPortOrder.env.value[S.WorkerDebugPort] == S.Number(S.DebugPortBase + counter + 1)
  {
    assert Permute(ports, [1, 0])[0] == ports[1];
    assert Permute(workers, [1, 0])[0] == workers[1];
    var env := WorkerEnv(hostname, ports[1], workers[1].id);
    assert forks[start] == WorkerFork(true, flag, execArgv, counter + 0, hostname, ports[1], workers[1].id);
    assert "WORKER_PORT" in env && env["WORKER_PORT"] == S.Number(ports[1]);
    assert "WORKER_PORT" != S.WorkerDebugPort;
  }
}
