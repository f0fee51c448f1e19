/** The master side of `CLUSTER.start_node` (src/cluster.js:113-158): the debug flag chosen
    from the master's own arguments, the counter of debug ports handed out, and the
    `execArgv` of the cluster settings, which every fork inherits. */
module ProcessSupervisor {
  import opened Wrappers
  import opened Strings
  import opened ExecArgv

  /** A value of the environment object given to a fork. */
  datatype EnvValue = Text(s: string) | Number(n: int)

  type Env = map<string, EnvValue>

  predicate Truthy(v: EnvValue) {
    match v
    case Text(s) => TruthyText(Some(s))
    case Number(n) => TruthyNumber(Some(n))
  }

  /** The first debug port handed to an unpinned worker. */
  const DebugPortBase: int := 5859

  const WorkerDebugPort: string := "WORKER_DEBUG_PORT"

  /** What `start_node` is called with: nothing (`start_node()`), a falsy value such as
      `undefined`, or an environment object, which is always truthy. */
  datatype NodeArgument = NoArgument | Falsy | Given(env: Env)

  /** The environment `_cluster.fork` receives when no debug port is added to it: none for
      `start_node()` (line 153) and for a falsy argument, the object itself otherwise. */
  function Passed(arg: NodeArgument): (r: Option<Env>)
    ensures r.Some? <==> arg.Given?
    ensures arg.Given? ==> r.value == arg.env
  {
    if arg.Given? then Some(arg.env) else None
  }

  /** `env && env.WORKER_DEBUG_PORT`: the caller fixed the worker's debug port. */
  predicate Pinned(arg: NodeArgument) {
    arg.Given? && WorkerDebugPort in arg.env && Truthy(arg.env[WorkerDebugPort])
  }

  /** A debug port number, or the `NaN` that `parseInt` makes of a text with no digits. */
  datatype DebugPort = Port(n: int) | NotANumber

  /** `parseInt(env.WORKER_DEBUG_PORT, 10)`. */
  function PinnedPort(v: EnvValue): (p: DebugPort)
    ensures v.Number? ==> p == Port(v.n)
    ensures v.Text? ==> (p.NotANumber? <==> ParseInt10(v.s).None?)
    ensures v.Text? && p.Port? ==> ParseInt10(v.s) == Some(p.n)
  {
    match v
    case Number(n) => Port(n)
    case Text(s) =>
      match ParseInt10(s)
      case Some(n) => Port(n)
      case None => NotANumber
  }

  function PortText(p: DebugPort): string {
    match p
    case Port(n) => IntToString(n)
    case NotANumber => "NaN"
  }

  /** `debug_flag + '=' + debug_port`, the argument pushed for one fork. */
  function DebugArgument(flag: string, p: DebugPort): string {
    flag + "=" + PortText(p)
  }

  /** The pushed argument is an argument of the debug flag, and the port it carries reads
      back as the port assigned. */
  lemma DebugArgumentRoundTrip(flag: string, n: int)
    ensures IsArgument(flag)(DebugArgument(flag, Port(n)))
    ensures var a := DebugArgument(flag, Port(n));
      ParseInt10(a[|flag| + 1..]) == Some(n)
  {
    var a := DebugArgument(flag, Port(n));
    assert flag + "=" <= a by {
      assert a == (flag + "=") + IntToString(n);
    }
    assert a[|flag| + 1..] == IntToString(n);
    ParseIntToString(n);
  }

  /** The environment of an unpinned fork with debugging on (lines 140-143 and 150-154):
      the object given, or a new `{}` for a falsy argument, with `WORKER_DEBUG_PORT` set;
      `start_node()` builds that object too but calls `fork()` without it. */
  function WithDebugPort(arg: NodeArgument, port: int): (r: Option<Env>)
    ensures r.None? <==> arg.NoArgument?
    ensures r.Some? ==> r.value.Keys == (if arg.Given? then arg.env.Keys else {}) + {WorkerDebugPort}
    ensures r.Some? ==> r.value[WorkerDebugPort] == Number(port)
    ensures r.Some? && arg.Given? ==> forall k :: k in arg.env && k != WorkerDebugPort ==> r.value[k] == arg.env[k]
  {
    match arg
    case NoArgument => None
    case Falsy => Some(map[WorkerDebugPort := Number(port)])
    case Given(e) => Some(e[WorkerDebugPort := Number(port)])
  }

  /** One `_cluster.fork` call: the environment passed (none for `fork()` and for a falsy
      one) and the `execArgv` of the settings at that moment. */
  datatype Fork = Fork(env: Option<Env>, execArgv: seq<string>)

  class Supervisor {
    /** `debug_flag`: `--debug-brk` if the master runs with it, else `--debug`. */
    const debugFlag: string
    /** `debug_ports_enabled`: the master runs with the debug flag. */
    const debugPortsEnabled: bool
    /** `debug_ports`: how many debug ports have been handed out. */
    var debugPorts: nat
    /** `_cluster.settings.execArgv`. */
    var execArgv: seq<string>
    /** The forks made, oldest first. */
    var forks: seq<Fork>

    /** The master's set-up (lines 116-122), from the master's `process.execArgv`. */
    constructor (processExecArgv: seq<string>)
      ensures debugFlag == DebugFlag(processExecArgv)
      ensures debugPortsEnabled == DebugPortsEnabled(processExecArgv)
      ensures execArgv == ChildExecArgv(processExecArgv)
      ensures debugPorts == 0 && forks == []
    {
      debugFlag := DebugFlag(processExecArgv);
      debugPortsEnabled := DebugPortsEnabled(processExecArgv);
      execArgv := ChildExecArgv(processExecArgv);
      debugPorts := 0;
      forks := [];
    }

    /** `start_node(env)`, `start_node(undefined)` or `start_node()`, as `arg` says: forks
        one worker and returns the debug port it was given, if debugging is on. */
    method StartNode(arg: NodeArgument) returns (debugPort: Option<DebugPort>)
      modifies this
      ensures execArgv == old(execArgv)
      ensures |forks| == |old(forks)| + 1 && forks[..|forks| - 1] == old(forks)
      ensures !debugPortsEnabled ==>
        && debugPort == None
        && debugPorts == old(debugPorts)
        && forks[|forks| - 1] == Fork(Passed(arg), execArgv)
      ensures debugPortsEnabled && Pinned(arg) ==>
        && debugPort == Some(PinnedPort(arg.env[WorkerDebugPort]))
        && debugPorts == old(debugPorts)
        && forks[|forks| - 1] == Fork(Passed(arg), execArgv + [DebugArgument(debugFlag, debugPort.value)])
      ensures debugPortsEnabled && !Pinned(arg) ==>
        && debugPort == Some(Port(DebugPortBase + old(debugPorts)))
        && debugPorts == old(debugPorts) + 1
        && forks[|forks| - 1] ==
           Fork(WithDebugPort(arg, DebugPortBase + old(debugPorts)), execArgv + [DebugArgument(debugFlag, debugPort.value)])
    {
      debugPort := None;
      var forkEnv := Passed(arg);
      if debugPortsEnabled {
        if Pinned(arg) {
          debugPort := Some(PinnedPort(arg.env[WorkerDebugPort]));
        } else {
          var p := DebugPortBase + debugPorts;
          debugPort := Some(Port(p));
          debugPorts := debugPorts + 1;
          forkEnv := WithDebugPort(arg, p);
        }
        execArgv := execArgv + [DebugArgument(debugFlag, debugPort.value)];
      }
      forks := forks + [Fork(forkEnv, execArgv)];
      if debugPortsEnabled {
        execArgv := execArgv[..|execArgv| - 1];
      }
    }
  }
}
