/** The ports `CLUSTER.start_http` serves (src/cluster.js:40-61): the worker's own port
    first, then the shared ports. */
module HttpPorts {
  import opened Wrappers
  import opened Strings
  import ClusterConfig

  /** The third argument of `start_http`, when it is given: one port or a list of ports. */
  datatype SharedArg = OneShared(port: int) | SharedList(ports: seq<int>)

  /** `shared_ports` after lines 46-50: a list kept, a scalar wrapped, an omitted argument `[]`. */
  function SharedPorts(shared: Option<SharedArg>): (r: seq<int>)
    ensures shared.None? ==> r == []
    ensures shared.Some? && shared.value.OneShared? ==> r == [shared.value.port]
    ensures shared.Some? && shared.value.SharedList? ==> r == shared.value.ports
  {
    match shared
    case None => []
    case Some(OneShared(p)) => [p]
    case Some(SharedList(ps)) => ps
  }

  /** `[port].concat(shared_ports)` (line 54): every port the application listens on, in
      the order the servers are started. */
  function ServedPorts(port: int, shared: Option<SharedArg>): (ports: seq<int>)
    ensures |ports| == 1 + |SharedPorts(shared)| && ports[0] == port
    ensures forall i :: 0 <= i < |SharedPorts(shared)| ==> ports[i + 1] == SharedPorts(shared)[i]
    ensures forall p :: p in ports <==> p == port || p in SharedPorts(shared)
  {
    [port] + SharedPorts(shared)
  }

  /** The application settings of lines 58-61. */
  datatype AppSettings = AppSettings(workerPort: int, port: int, ports: seq<int>, sharedPorts: seq<int>)

  function HttpSettings(port: int, shared: Option<SharedArg>): (s: AppSettings)
    ensures s.workerPort == port && s.port == port
    ensures s.ports == ServedPorts(port, shared) && s.sharedPorts == SharedPorts(shared)
  {
    AppSettings(port, port, ServedPorts(port, shared), SharedPorts(shared))
  }

  /** `process.env.WORKER_PORT` after lines 42-44: kept when set to a non-empty text,
      otherwise the decimal text of `port`, which reads back as `port`. */
  function WorkerPortEnv(env: Option<string>, port: int): (r: string)
    ensures r != ""
    ensures TruthyText(env) ==> r == env.value
    ensures !TruthyText(env) ==> ParseInt10(r) == Some(port)
  {
    if TruthyText(env) then env.value
    else
      ParseIntToString(port);
      IntToString(port)
  }

  /** A worker serves its own port and then every shared port of the normalised cluster
      setting (src/cluster.js:234), which is the master's `port` when no shared ports were
      configured. */
  lemma WorkerServesSharedPorts(c: ClusterConfig.ClusterSetting, base: ClusterConfig.BasePort, workerPort: int)
    requires c != ClusterConfig.Disabled
    ensures var n := ClusterConfig.Normalize(c, base);
      var ports := ServedPorts(workerPort, Some(SharedList(n.shared.ports)));
      && ports[0] == workerPort
      && ports[1..] == n.shared.ports
      && (c.Enabled? || (c.Settings? && !ClusterConfig.Truthy(c.shared)) ==>
            ports == [workerPort] + ClusterConfig.AsArray(base))
  {
    ClusterConfig.NormalizeShape(c, base);
  }
}
