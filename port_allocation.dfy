/** Worker-port planning in `CLUSTER.start` (src/cluster.js): one slot per worker process,
    and a port for each slot taken from the configured `workers` list, front to back, then
    counted up from the last port used. */
module PortAllocation {
  import opened Wrappers
  import opened Strings
  import opened ClusterConfig

  /** The fatal errors of the controller's start-up before any worker is registered. */
  datatype StartError =
    | ClusterNotConfigured   // `debug.assert(config.cluster).is('object')`
    | NoWorkerPorts          // `debug.assert(config.cluster.workers).is('array').minLength(1)`
    | NoWorkerSlots          // `debug.assert(worker_array).is('array').minLength(1)`
    | NoPortForFirstWorker   // `throw new TypeError("no port for first worker detected!")`

  /** `get_worker_array(num)`: the slots `0, 1, ..., num - 1`. */
  method WorkerArray(num: int) returns (cpus: seq<int>)
    ensures |cpus| == if num > 0 then num else 0
    ensures forall i :: 0 <= i < |cpus| ==> cpus[i] == i
  {
    cpus := [];
    var i := 0;
    while i < num
      invariant 0 <= i == |cpus|
      invariant num > 0 ==> i <= num
      invariant num <= 0 ==> i == 0
      invariant forall k :: 0 <= k < i ==> cpus[k] == k
    {
      cpus := cpus + [i];
      i := i + 1;
    }
  }

  /** The ports `c + 1, ..., c + k` that `k` increments of the cursor `c` produce. */
  function Successors(c: int, k: nat): (r: seq<int>)
    ensures |r| == k
    ensures forall i :: 0 <= i < k ==> r[i] == c + 1 + i
  {
    seq(k, i => c + 1 + i)
  }

  /** The ports of `n` slots, stated in closed form: the first `n` explicit entries, then
      the successors of the last one; it fails when there is no explicit entry at all, and
      when the cursor is incremented from 0 (which `!port` takes for "no cursor"). */
  function PlannedPorts(n: nat, workers: seq<int>): Result<seq<int>, StartError> {
    if n <= |workers| then Ok(workers[..n])
    else if |workers| == 0 then Err(NoPortForFirstWorker)
    else
      var last := workers[|workers| - 1];
      var extra := n - |workers|;
      if last <= 0 < last + extra then Err(NoPortForFirstWorker)
      else Ok(workers + Successors(last, extra))
  }

  /** The map over the slots at lines 243-257: `workers.shift()` gives the next explicit
      entry (`undefined` once they run out), and `port` is the cursor. */
  method AllocatePorts(slots: seq<int>, workers: seq<int>) returns (r: Result<seq<int>, StartError>)
    ensures r == PlannedPorts(|slots|, workers)
  {
    var queue := workers;
    var cursor: Option<int> := None;
    var ports: seq<int> := [];
    ghost var w := |workers|;
    for i := 0 to |slots|
      invariant i <= w ==> queue == workers[i..] && ports == workers[..i]
      invariant i <= w ==> cursor == if i == 0 then None else Some(workers[i - 1])
      invariant i > w ==> queue == [] && w >= 1
      invariant i > w ==> var last := workers[w - 1];
        && ports == workers + Successors(last, i - w)
        && cursor == Some(last + (i - w))
        && !(last <= 0 < last + (i - w))
    {
      var p: Option<int> := if |queue| > 0 then Some(queue[0]) else None;
      if |queue| > 0 {
        queue := queue[1..];
      }
      if p.Some? {
        cursor := p;
        ports := ports + [p.value];
        assert workers[..i + 1] == workers[..i] + [workers[i]];
      } else {
        if cursor.None? || cursor.value == 0 {
          return Err(NoPortForFirstWorker);
        }
        cursor := Some(cursor.value + 1);
        ports := ports + [cursor.value];
        if i == w {
          assert workers[..i] == workers;
        }
      }
    }
    if |slots| <= w {
      assert workers[..|slots|] == ports;
    }
    return Ok(ports);
  }

  /** The planned ports, one per slot: explicit entries first, in order; after them each
      port is the previous one plus one; the plan fails exactly when a port would have to
      be derived without a cursor, or from the cursor 0. */
  lemma {:induction false} PlannedPortsMeaning(n: nat, workers: seq<int>)
    ensures PlannedPorts(n, workers).Ok? ==> var ps := PlannedPorts(n, workers).value;
      && |ps| == n
      && (forall i :: 0 <= i < n && i < |workers| ==> ps[i] == workers[i])
      && (|workers| < n ==> |workers| >= 1 && CountsUpFrom(ps, |workers|))
    ensures PlannedPorts(n, workers).Err? <==>
      n > |workers| && (|workers| == 0 || exists i :: |workers| <= i < n && PortBefore(workers, i) == 0)
  {
    if n > |workers| && |workers| > 0 {
      var last := workers[|workers| - 1];
      if last <= 0 < last + (n - |workers|) {
        assert PortBefore(workers, |workers| - last) == 0;
      }
    }
  }

  /** From index `from` on, each port is the one before it plus one. */
  predicate CountsUpFrom(ps: seq<int>, from: nat)
    requires 1 <= from
  {
    forall i :: from <= i < |ps| ==> ps[i] == ps[i - 1] + 1
  }

  /** The cursor that slot `i` increments once the explicit entries have run out. */
  function PortBefore(workers: seq<int>, i: int): int
    requires 1 <= |workers| <= i
  {
    workers[|workers| - 1] + (i - |workers|)
  }

  /** Entries of `workers` beyond the number of slots are never looked at. */
  lemma ExtraWorkersIgnored(n: nat, workers: seq<int>, extra: seq<int>)
    requires n <= |workers|
    ensures PlannedPorts(n, workers + extra) == PlannedPorts(n, workers) == Ok(workers[..n])
  {
    assert (workers + extra)[..n] == workers[..n];
  }

  predicate StrictlyIncreasing(s: seq<int>) {
    forall i, j :: 0 <= i < j < |s| ==> s[i] < s[j]
  }

  /** The allocator does not de-duplicate, but strictly increasing explicit entries give
      strictly increasing, hence pairwise distinct, ports. */
  lemma {:induction false} PlannedPortsIncreasing(n: nat, workers: seq<int>)
    requires StrictlyIncreasing(workers)
    requires PlannedPorts(n, workers).Ok?
    ensures StrictlyIncreasing(PlannedPorts(n, workers).value)
  {
    var ps := PlannedPorts(n, workers).value;
    if n > |workers| {
      var last := workers[|workers| - 1];
      forall i, j | 0 <= i < j < |ps| ensures ps[i] < ps[j] {
        if j >= |workers| && i < |workers| {
          assert ps[i] == workers[i] <= last;
        }
      }
    }
  }

  /** `config.cluster.size || numCPUs`: a missing or zero size means one slot per CPU. */
  function SlotCount(size: Option<int>, cpuCount: nat): (n: int)
    ensures TruthyNumber(size) ==> n == size.value
    ensures !TruthyNumber(size) ==> n == cpuCount
  {
    if TruthyNumber(size) then size.value else cpuCount
  }

  /** The ports the controller gives its workers (lines 214-257), from `config.cluster`,
      `config.port` and the CPU count. */
  function ControllerPorts(c: ClusterSetting, port: BasePort, cpuCount: nat): (r: Result<seq<int>, StartError>)
    ensures r == Err(ClusterNotConfigured) <==> !Normalize(c, port).Settings?
    ensures Normalize(c, port).Settings? ==> (r == Err(NoWorkerPorts) <==> |Normalize(c, port).workers.ports| == 0)
    ensures r.Ok? ==> |r.value| == SlotCount(Normalize(c, port).size, cpuCount) >= 1
    ensures r.Ok? ==> var workers := Normalize(c, port).workers.ports;
      forall i :: 0 <= i < |r.value| && i < |workers| ==> r.value[i] == workers[i]
  {
    var n := Normalize(c, port);
    if !n.Settings? then Err(ClusterNotConfigured)
    else if |n.workers.ports| == 0 then Err(NoWorkerPorts)
    else if SlotCount(n.size, cpuCount) <= 0 then Err(NoWorkerSlots)
    else
      PlannedPortsMeaning(SlotCount(n.size, cpuCount), n.workers.ports);
      PlannedPorts(SlotCount(n.size, cpuCount), n.workers.ports)
  }

  /** The master branch of `CLUSTER.start` up to the allocated ports: `initConfig`, the
      assertions, `get_worker_array` and the allocation. */
  method PlanWorkerPorts(config: Config, cpuCount: nat) returns (r: Result<seq<int>, StartError>)
    modifies config
    ensures config.cluster == Normalize(old(config.cluster), config.port)
    ensures r == ControllerPorts(old(config.cluster), config.port, cpuCount)
  {
    ghost var raw := config.cluster;
    config.InitConfig();
    if !config.cluster.Settings? {
      return Err(ClusterNotConfigured);
    }
    if |config.cluster.workers.ports| == 0 {
      return Err(NoWorkerPorts);
    }
    var workerArray := WorkerArray(SlotCount(config.cluster.size, cpuCount));
    if |workerArray| == 0 {
      return Err(NoWorkerSlots);
    }
    r := AllocatePorts(workerArray, config.cluster.workers.ports);
  }

  /** `{workers: [3000], size: 4}` gives `3000, 3001, 3002, 3003`. */
  lemma OneExplicitPort()
    ensures ControllerPorts(Settings(Missing, Many([3000]), Some(4)), One(80), 16)
         == Ok([3000, 3001, 3002, 3003])
  {
    var c := Settings(Missing, Many([3000]), Some(4));
    assert Normalize(c, One(80)) == Settings(Many([80]), Many([3000]), Some(4));
    assert Successors(3000, 3) == [3001, 3002, 3003];
    assert PlannedPorts(4, [3000]) == Ok([3000] + [3001, 3002, 3003]);
    assert ControllerPorts(c, One(80), 16) == PlannedPorts(4, [3000]);
    assert [3000] + [3001, 3002, 3003] == [3000, 3001, 3002, 3003];
  }

  /** `{workers: [3000, 3010], size: 3}` gives `3000, 3010, 3011`. */
  lemma TwoExplicitPorts()
    ensures ControllerPorts(Settings(Missing, Many([3000, 3010]), Some(3)), One(80), 16)
         == Ok([3000, 3010, 3011])
  {
    var c := Settings(Missing, Many([3000, 3010]), Some(3));
    assert Normalize(c, One(80)) == Settings(Many([80]), Many([3000, 3010]), Some(3));
    assert Successors(3010, 1) == [3011];
    assert PlannedPorts(3, [3000, 3010]) == Ok([3000, 3010] + [3011]);
    assert ControllerPorts(c, One(80), 16) == PlannedPorts(3, [3000, 3010]);
    assert [3000, 3010] + [3011] == [3000, 3010, 3011];
  }

  /** Without worker ports and without a shared base port, start-up fails before any slot
      is allocated. */
  lemma NoPortsAtAll(size: Option<int>, cpuCount: nat)
    ensures ControllerPorts(Settings(Missing, Missing, size), Many([]), cpuCount) == Err(NoWorkerPorts)
  {
  }

  /** With only `config.port` given, the workers count up from the port after it. */
  lemma WorkersAfterBasePort(base: int, size: int)
    requires base >= 0 && size >= 1
    ensures ControllerPorts(Enabled, One(base), 1) != Err(NoPortForFirstWorker)
    ensures ControllerPorts(Settings(Missing, Missing, Some(size)), One(base), 1)
         == Ok(Successors(base, size))
  {
    var ps := [base + 1] + Successors(base + 1, size - 1);
    assert ps == Successors(base, size);
    if size == 1 {
      assert [base + 1][..1] == Successors(base, 1);
    }
  }
}
