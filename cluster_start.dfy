/** The master's part of `CLUSTER.start` (src/cluster.js:212-290): normalise the setting,
    plan one port per slot, then register each port's Worker and fork a node for it. */
module ClusterStart {
  import opened Wrappers
  import opened Strings
  import W = Workers
  import S = ProcessSupervisor
  import ClusterConfig
  import PortAllocation

  /** `config.hostname || process.env.HOSTNAME || OS.hostname() || 'localhost'` (line 221). */
  function ResolveHostname(configured: Option<string>, env: Option<string>, os: Option<string>): (h: string)
    ensures h != ""
    ensures TruthyText(configured) ==> h == configured.value
    ensures !TruthyText(configured) && TruthyText(env) ==> h == env.value
    ensures !TruthyText(configured) && !TruthyText(env) && TruthyText(os) ==> h == os.value
    ensures !TruthyText(configured) && !TruthyText(env) && !TruthyText(os) ==> h == "localhost"
  {
    if TruthyText(configured) then configured.value
    else if TruthyText(env) then env.value
    else if TruthyText(os) then os.value
    else "localhost"
  }

  /** The address a worker is registered under. */
  function WorkerAddress(hostname: string, port: int): W.Address {
    W.Address(W.Text(hostname), W.Number(port))
  }

  /** The environment a worker is forked with (lines 273-277). */
  function WorkerEnv(hostname: string, port: int, id: W.Id): (env: S.Env)
    ensures S.WorkerDebugPort !in env
  {
    assert S.WorkerDebugPort[7] != "WORKER_PORT"[7] && |S.WorkerDebugPort| != |"WORKER_UUID"|;
    map["WORKER_HOSTNAME" := S.Text(hostname), "WORKER_PORT" := S.Number(port), "WORKER_UUID" := S.Text(id)]
  }

  /** The fork `start_node` makes for the worker at `port` registered as `id`, when
      `counter` debug ports were handed out before it. */
  function WorkerFork(debug: bool, flag: string, execArgv: seq<string>, counter: nat, hostname: string, port: int, id: W.Id): S.Fork {
    var env := WorkerEnv(hostname, port, id);
    if debug then
      var p := S.DebugPortBase + counter;
      S.Fork(S.WithDebugPort(S.Given(env), p), execArgv + [S.DebugArgument(flag, S.Port(p))])
    else
      S.Fork(Some(env), execArgv)
  }

  /** With debugging on, successive workers get the debug ports 5859, 5860, ... after the
      ones already handed out, so no two of them share one. */
  lemma WorkerDebugPortsIncrease(flag: string, execArgv: seq<string>, counter: nat, hostname: string,
                                 ports: seq<int>, ids: seq<W.Id>, j: nat, k: nat)
    requires |ids| == |ports| && j < k < |ports|
    ensures var fj := WorkerFork(true, flag, execArgv, counter + j, hostname, ports[j], ids[j]);
      var fk := WorkerFork(true, flag, execArgv, counter + k, hostname, ports[k], ids[k]);
      && fj.env.Some? && fk.env.Some?
      && fj.env.value[S.WorkerDebugPort] == S.Number(S.DebugPortBase + counter + j)
      && fk.env.value[S.WorkerDebugPort].n > fj.env.value[S.WorkerDebugPort].n
  {
  }

  /** The Workers `kept` are, in order, the only Workers at the first `|kept|` ports. */
  ghost predicate RegisteredAs(docs: seq<W.Doc>, hostname: string, ports: seq<int>, kept: seq<W.Doc>) {
    |kept| <= |ports| &&
    forall j :: 0 <= j < |kept| ==> W.Search(docs, W.WorkerAt(WorkerAddress(hostname, ports[j]))) == [kept[j]]
  }

  /** What one registration keeps of the facts the start loop carries: the Workers
      registered so far are still the only ones at their addresses, plus the new one, and
      the ids still to be used are still fresh. */
  lemma RegistryStep(before: seq<W.Doc>, hostname: string, ports: seq<int>, freshIds: seq<W.Id>, kept: seq<W.Doc>)
    requires W.UniqueIds(before) && |kept| < |ports| == |freshIds|
    requires forall a, b :: 0 <= a < b < |freshIds| ==> freshIds[a] != freshIds[b]
    requires forall k :: |kept| <= k < |freshIds| ==> W.FreshId(before, freshIds[k])
    requires RegisteredAs(before, hostname, ports, kept)
    ensures var i := |kept|;
      var address := WorkerAddress(hostname, ports[i]);
      var r := W.RegisterInStore(before, address, address, freshIds[i]);
      && W.UniqueIds(r.docs)
      && (forall k :: i + 1 <= k < |freshIds| ==> W.FreshId(r.docs, freshIds[k]))
      && RegisteredAs(r.docs, hostname, ports, kept + [r.worker])
  {
    var i := |kept|;
    var address := WorkerAddress(hostname, ports[i]);
    var r := W.RegisterInStore(before, address, address, freshIds[i]);
    W.RegisterKeepsOneWorker(before, address, freshIds[i]);
    W.RegisterAddsOnlyKept(before, address, freshIds[i]);
    forall j | 0 <= j < i
      ensures W.Search(r.docs, W.WorkerAt(WorkerAddress(hostname, ports[j]))) == [kept[j]]
    {
      if ports[j] == ports[i] {
        W.RegisterReusesFirst(before, address, address, freshIds[i]);
      } else {
        W.OtherAddressUnchanged(before, address, WorkerAddress(hostname, ports[j]), freshIds[i]);
      }
    }
    forall k | i + 1 <= k < |freshIds| ensures W.FreshId(r.docs, freshIds[k]) {
      forall n | 0 <= n < |r.docs| ensures r.docs[n].id != freshIds[k] {
        assert r.docs[n] in r.docs;
      }
    }
  }

  /** The forks from position `start` on are those of the Workers `kept`, registered at
      `ports`, in order. */
  ghost predicate ForksFollow(forks: seq<S.Fork>, start: nat, debug: bool, flag: string, execArgv: seq<string>,
                              counter: nat, hostname: string, ports: seq<int>, kept: seq<W.Doc>)
  {
    |kept| <= |ports| && |forks| == start + |kept| &&
    forall j :: 0 <= j < |kept| ==>
      forks[start + j] == WorkerFork(debug, flag, execArgv, counter + j, hostname, ports[j], kept[j].id)
  }

  lemma ForksFollowStep(forks: seq<S.Fork>, start: nat, debug: bool, flag: string, execArgv: seq<string>,
                        counter: nat, hostname: string, ports: seq<int>, kept: seq<W.Doc>, worker: W.Doc)
    requires ForksFollow(forks, start, debug, flag, execArgv, counter, hostname, ports, kept) && |kept| < |ports|
    ensures ForksFollow(forks + [WorkerFork(debug, flag, execArgv, counter + |kept|, hostname, ports[|kept|], worker.id)],
                        start, debug, flag, execArgv, counter, hostname, ports, kept + [worker])
  {
  }

  /** The addresses the Workers for `ports` are registered under. */
  function PortAddresses(hostname: string, ports: seq<int>): (addresses: set<W.Address>)
    ensures forall i :: 0 <= i < |ports| ==> WorkerAddress(hostname, ports[i]) in addresses
  {
    if ports == [] then {} else {WorkerAddress(hostname, ports[0])} + PortAddresses(hostname, ports[1..])
  }

  lemma {:induction false} PortAddressesAppend(hostname: string, ports: seq<int>, port: int)
    ensures PortAddresses(hostname, ports + [port]) == PortAddresses(hostname, ports) + {WorkerAddress(hostname, port)}
  {
    if ports != [] {
      assert (ports + [port])[1..] == ports[1..] + [port];
      PortAddressesAppend(hostname, ports[1..], port);
    }
  }

  /** Since the store was `initial`, the Workers `kept` for the first `|kept|` ports own
      no Socket and no Timer, and every record that is neither a Worker at one of those
      ports nor owned by one of `kept` is as it was. */
  ghost predicate Cleaned(initial: seq<W.Doc>, docs: seq<W.Doc>, hostname: string, ports: seq<int>, kept: seq<W.Doc>) {
    |kept| <= |ports| &&
    (forall j :: 0 <= j < |kept| ==> W.Search(docs, W.OwnedBy(kept[j].id)) == []) &&
    var frame := W.Outside(PortAddresses(hostname, ports[..|kept|]), W.IdsOf(kept));
    W.Search(docs, frame) == W.Search(initial, frame)
  }

  /** A record outside larger address and owner sets is outside smaller ones too. */
  lemma OutsideNarrow(docs: seq<W.Doc>, small: set<W.Address>, smallOwners: set<W.Id>,
                      large: set<W.Address>, largeOwners: set<W.Id>)
    requires small <= large && smallOwners <= largeOwners
    ensures W.Search(W.Search(docs, W.Outside(small, smallOwners)), W.Outside(large, largeOwners)) ==
            W.Search(docs, W.Outside(large, largeOwners))
  {
  }

  /** A record outside `addresses` and `owners` is unrelated to each of their members. */
  lemma OutsideUnrelated(docs: seq<W.Doc>, addresses: set<W.Address>, owners: set<W.Id>, a: W.Address, owner: W.Id)
    requires a in addresses && owner in owners
    ensures W.Search(W.Search(docs, W.Unrelated(a, owner)), W.Outside(addresses, owners)) ==
            W.Search(docs, W.Outside(addresses, owners))
  {
  }

  /** The part of `Cleaned` about the records the registrations leave alone. */
  lemma FrameStep(initial: seq<W.Doc>, before: seq<W.Doc>, hostname: string, ports: seq<int>, freshId: W.Id, kept: seq<W.Doc>)
    requires W.UniqueIds(before) && W.FreshId(before, freshId) && |kept| < |ports|
    requires var frame := W.Outside(PortAddresses(hostname, ports[..|kept|]), W.IdsOf(kept));
      W.Search(before, frame) == W.Search(initial, frame)
    ensures var address := WorkerAddress(hostname, ports[|kept|]);
      var r := W.RegisterInStore(before, address, address, freshId);
      var frame := W.Outside(PortAddresses(hostname, ports[..|kept| + 1]), W.IdsOf(kept + [r.worker]));
      W.Search(r.docs, frame) == W.Search(initial, frame)
  {
    var i := |kept|;
    var address := WorkerAddress(hostname, ports[i]);
    var r := W.RegisterInStore(before, address, address, freshId);
    var addresses := PortAddresses(hostname, ports[..i]);
    var addresses' := PortAddresses(hostname, ports[..i + 1]);
    var owners' := W.IdsOf(kept + [r.worker]);
    assert ports[..i + 1] == ports[..i] + [ports[i]];
    PortAddressesAppend(hostname, ports[..i], ports[i]);
    assert r.worker in kept + [r.worker];
    assert r.worker.id in owners' && W.IdsOf(kept) <= owners';
    W.RegisterTouchesNothingElse(before, address, freshId);
    OutsideUnrelated(r.docs, addresses', owners', address, r.worker.id);
    OutsideUnrelated(before, addresses', owners', address, r.worker.id);
    OutsideNarrow(before, addresses, W.IdsOf(kept), addresses', owners');
    OutsideNarrow(initial, addresses, W.IdsOf(kept), addresses', owners');
  }

  /** The part of `Cleaned` about ownership: the new Worker owns nothing afterwards, and the
      registration creates nothing an earlier Worker owns. */
  lemma OwnedStep(before: seq<W.Doc>, hostname: string, ports: seq<int>, freshId: W.Id, kept: seq<W.Doc>)
    requires |kept| < |ports|
    requires forall j :: 0 <= j < |kept| ==> W.Search(before, W.OwnedBy(kept[j].id)) == []
    ensures var address := WorkerAddress(hostname, ports[|kept|]);
      var r := W.RegisterInStore(before, address, address, freshId);
      forall j :: 0 <= j < |kept| + 1 ==> W.Search(r.docs, W.OwnedBy((kept + [r.worker])[j].id)) == []
  {
    var address := WorkerAddress(hostname, ports[|kept|]);
    var r := W.RegisterInStore(before, address, address, freshId);
    var found := W.Search(before, W.WorkerAt(address));
    W.RegisterReusesFirst(before, address, address, freshId);
    W.RegisterAddsOnlyKept(before, address, freshId);
    W.RegisterClearsOwned(before, address, address, freshId);
    assert r.worker.kind == W.Worker by {
      if |found| >= 1 {
        assert found[0] in found;
      }
    }
    forall j | 0 <= j < |kept| ensures W.Search(r.docs, W.OwnedBy(kept[j].id)) == [] {
      forall d | d in r.docs ensures !W.Matches(W.OwnedBy(kept[j].id), d) {
        if d in before {
          assert d !in W.Search(before, W.OwnedBy(kept[j].id));
        }
      }
      W.SearchNone(r.docs, W.OwnedBy(kept[j].id));
    }
  }

  /** One registration keeps `Cleaned`. */
  lemma CleanupStep(initial: seq<W.Doc>, before: seq<W.Doc>, hostname: string, ports: seq<int>, freshId: W.Id, kept: seq<W.Doc>)
    requires W.UniqueIds(before) && W.FreshId(before, freshId) && |kept| < |ports|
    requires Cleaned(initial, before, hostname, ports, kept)
    ensures var address := WorkerAddress(hostname, ports[|kept|]);
      var r := W.RegisterInStore(before, address, address, freshId);
      Cleaned(initial, r.docs, hostname, ports, kept + [r.worker])
  {
    FrameStep(initial, before, hostname, ports, freshId, kept);
    OwnedStep(before, hostname, ports, freshId, kept);
  }

  /** Line 270 for `ports[i]`: register its Worker, keeping what the start loop knows of
      the Workers registered before it. */
  method RegisterNext(reg: W.Registry, hostname: string, ports: seq<int>, freshIds: seq<W.Id>, i: nat,
                      ghost kept: seq<W.Doc>, ghost initial: seq<W.Doc>) returns (worker: W.Doc)
    requires reg.Valid() && i == |kept| < |ports| == |freshIds|
    requires forall a, b :: 0 <= a < b < |freshIds| ==> freshIds[a] != freshIds[b]
    requires forall k :: i <= k < |freshIds| ==> W.FreshId(reg.docs, freshIds[k])
    requires RegisteredAs(reg.docs, hostname, ports, kept)
    requires Cleaned(initial, reg.docs, hostname, ports, kept)
    modifies reg
    ensures reg.Valid()
    ensures var address := WorkerAddress(hostname, ports[i]);
      var registration := W.RegisterInStore(old(reg.docs), address, address, freshIds[i]);
      worker == registration.worker && reg.docs == registration.docs
    ensures forall k :: i + 1 <= k < |freshIds| ==> W.FreshId(reg.docs, freshIds[k])
    ensures RegisteredAs(reg.docs, hostname, ports, kept + [worker])
    ensures Cleaned(initial, reg.docs, hostname, ports, kept + [worker])
  {
    RegistryStep(reg.docs, hostname, ports, freshIds, kept);
    CleanupStep(initial, reg.docs, hostname, ports, freshIds[i], kept);
    var w := reg.Register([W.Text(hostname), W.Number(ports[i])], freshIds[i]);
    worker := w.value;
  }

  /** Lines 272-277 for `ports[i]`: fork a node whose environment carries the hostname, the
      port and the id of the Worker registered for it. */
  method ForkNext(sup: S.Supervisor, hostname: string, ports: seq<int>, i: nat, worker: W.Doc,
                  ghost kept: seq<W.Doc>, ghost start: nat, ghost counter: nat)
    requires i == |kept| < |ports|
    requires sup.debugPorts == counter + (if sup.debugPortsEnabled then i else 0)
    requires ForksFollow(sup.forks, start, sup.debugPortsEnabled, sup.debugFlag, sup.execArgv, counter, hostname, ports, kept)
    modifies sup
    ensures sup.execArgv == old(sup.execArgv)
    ensures sup.debugPorts == counter + (if sup.debugPortsEnabled then i + 1 else 0)
    ensures sup.forks == old(sup.forks) +
      [WorkerFork(sup.debugPortsEnabled, sup.debugFlag, sup.execArgv, old(sup.debugPorts), hostname, ports[i], worker.id)]
    ensures ForksFollow(sup.forks, start, sup.debugPortsEnabled, sup.debugFlag, sup.execArgv, counter, hostname, ports, kept + [worker])
  {
    ghost var before := sup.forks;
    var env := WorkerEnv(hostname, ports[i], worker.id);
    assert !S.Pinned(S.Given(env));
    ghost var fork := WorkerFork(sup.debugPortsEnabled, sup.debugFlag, sup.execArgv, sup.debugPorts, hostname, ports[i], worker.id);
    var _ := sup.StartNode(S.Given(env));
    assert sup.forks[|sup.forks| - 1] == fork;
    assert sup.forks == before + [fork];
    ForksFollowStep(before, start, sup.debugPortsEnabled, sup.debugFlag, sup.execArgv, counter, hostname, ports, kept, worker);
  }

  /** Lines 267-278 as intended: one registration and one fork after the other, in port
      order. `freshIds[i]` is the id the store would give a Worker created for `ports[i]`;
      `workers[i]` is the Worker registered for `ports[i]`. */
  method StartWorkers(reg: W.Registry, sup: S.Supervisor, hostname: string, ports: seq<int>, freshIds: seq<W.Id>)
    returns (workers: seq<W.Doc>)
    requires reg.Valid()
    requires |freshIds| == |ports|
    requires forall i, j :: 0 <= i < j < |freshIds| ==> freshIds[i] != freshIds[j]
    requires forall i :: 0 <= i < |freshIds| ==> W.FreshId(reg.docs, freshIds[i])
    modifies reg, sup
    ensures reg.Valid()
    ensures |workers| == |ports|
    ensures forall i :: 0 <= i < |ports| ==> W.Search(reg.docs, W.WorkerAt(WorkerAddress(hostname, ports[i]))) == [workers[i]]
    ensures forall i :: 0 <= i < |ports| ==> W.Search(reg.docs, W.OwnedBy(workers[i].id)) == []
    ensures var frame := W.Outside(PortAddresses(hostname, ports), W.IdsOf(workers));
      W.Search(reg.docs, frame) == W.Search(old(reg.docs), frame)
    ensures sup.execArgv == old(sup.execArgv)
    ensures sup.debugPorts == old(sup.debugPorts) + (if sup.debugPortsEnabled then |ports| else 0)
    ensures ForksFollow(sup.forks, |old(sup.forks)|, sup.debugPortsEnabled, sup.debugFlag, sup.execArgv, old(sup.debugPorts),
                        hostname, ports, workers)
    ensures sup.forks[..|old(sup.forks)|] == old(sup.forks)
  {
    ghost var docs0 := reg.docs;
    ghost var forks0 := sup.forks;
    ghost var counter0 := sup.debugPorts;
    workers := [];
    for i := 0 to |ports|
      invariant reg.Valid()
      invariant forall k :: i <= k < |freshIds| ==> W.FreshId(reg.docs, freshIds[k])
      invariant |workers| == i && RegisteredAs(reg.docs, hostname, ports, workers)
      invariant Cleaned(docs0, reg.docs, hostname, ports, workers)
      invariant sup.execArgv == old(sup.execArgv)
      invariant sup.debugPorts == counter0 + (if sup.debugPortsEnabled then i else 0)
      invariant ForksFollow(sup.forks, |forks0|, sup.debugPortsEnabled, sup.debugFlag, sup.execArgv, counter0, hostname, ports, workers)
      invariant sup.forks[..|forks0|] == forks0
    {
      var worker := RegisterNext(reg, hostname, ports, freshIds, i, workers, docs0);
      ForkNext(sup, hostname, ports, i, worker, workers, |forks0|, counter0);
      workers := workers + [worker];
    }
    assert ports[..|workers|] == ports;
  }

  /** The master's `start(get_app, config)` from `initConfig` to the last fork: the ports
      planned, or the assertion or `TypeError` that stops it before anything is registered;
      `workers[i]` is the Worker registered for the `i`th planned port. The hostname is
      resolved from `config.hostname`, `process.env.HOSTNAME` (`envHostname`) and
      `OS.hostname()` (`osHostname`). */
  method StartMaster(config: ClusterConfig.Config, cpuCount: nat, reg: W.Registry, sup: S.Supervisor,
                     envHostname: Option<string>, osHostname: Option<string>, freshIds: seq<W.Id>)
    returns (r: Result<seq<int>, PortAllocation.StartError>, workers: seq<W.Doc>)
    requires reg.Valid()
    requires forall i, j :: 0 <= i < j < |freshIds| ==> freshIds[i] != freshIds[j]
    requires forall i :: 0 <= i < |freshIds| ==> W.FreshId(reg.docs, freshIds[i])
    requires var planned := PortAllocation.ControllerPorts(config.cluster, config.port, cpuCount);
      planned.Ok? ==> |freshIds| >= |planned.value|
    modifies config, reg, sup
    ensures config.cluster == ClusterConfig.Normalize(old(config.cluster), config.port)
    ensures r == PortAllocation.ControllerPorts(old(config.cluster), config.port, cpuCount)
    ensures reg.Valid() && sup.execArgv == old(sup.execArgv)
    ensures sup.debugPorts == old(sup.debugPorts) + (if r.Ok? && sup.debugPortsEnabled then |r.value| else 0)
    ensures r.Err? ==> reg.docs == old(reg.docs) && sup.forks == old(sup.forks) && workers == []
    ensures r.Ok? ==> |sup.forks| == |old(sup.forks)| + |r.value| && |workers| == |r.value|
    ensures r.Ok? ==> var hostname := ResolveHostname(config.hostname, envHostname, osHostname);
      forall i :: 0 <= i < |r.value| ==>
        W.Search(reg.docs, W.WorkerAt(WorkerAddress(hostname, r.value[i]))) == [workers[i]] &&
        W.Search(reg.docs, W.OwnedBy(workers[i].id)) == []
    ensures r.Ok? ==> var hostname := ResolveHostname(config.hostname, envHostname, osHostname);
      var frame := W.Outside(PortAddresses(hostname, r.value), W.IdsOf(workers));
      W.Search(reg.docs, frame) == W.Search(old(reg.docs), frame)
    ensures r.Ok? ==> ForksFollow(sup.forks, |old(sup.forks)|, sup.debugPortsEnabled, sup.debugFlag, sup.execArgv,
                                  old(sup.debugPorts), ResolveHostname(config.hostname, envHostname, osHostname),
                                  r.value, workers)
    ensures r.Ok? ==> sup.forks[..|old(sup.forks)|] == old(sup.forks)
  {
    r := PortAllocation.PlanWorkerPorts(config, cpuCount);
    var hostname := ResolveHostname(config.hostname, envHostname, osHostname);
    workers := [];
    if r.Ok? {
      var ports := r.value;
      var ids := freshIds[..|ports|];
      assert forall i :: 0 <= i < |ids| ==> ids[i] == freshIds[i];
      workers := StartWorkers(reg, sup, hostname, ports, ids);
    }
  }
}
