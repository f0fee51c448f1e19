/** `CLUSTER.initConfig` (src/cluster.js): the loosely written `config.cluster` setting is
    normalised, in place, into a list of shared ports and a list of worker ports. */
module ClusterConfig {
  import opened Wrappers
  import opened Strings

  /** A port setting as a configuration gives it: absent (or another falsy value that is
      not a number), one port, or a list of ports. */
  datatype PortSetting = Missing | One(port: int) | Many(ports: seq<int>)

  /** `config.port`, which the code wraps or copies without checking that it is set. */
  type BasePort = p: PortSetting | !p.Missing? witness One(0)

  /** JavaScript truthiness of a port setting: every array is truthy, the number 0 is not. */
  predicate Truthy(p: PortSetting) {
    match p
    case Missing => false
    case One(n) => TruthyNumber(Some(n))
    case Many(_) => true
  }

  /** `is.array(v) ? [].concat(v) : [v]`: a copy of a list, or a scalar wrapped in one. */
  function AsArray(p: PortSetting): seq<int>
    requires !p.Missing?
  {
    if p.Many? then p.ports else [p.port]
  }

  /** `config.cluster`: falsy, `true`, or an object with `shared`, `workers` and `size`. */
  datatype ClusterSetting =
    | Disabled
    | Enabled
    | Settings(shared: PortSetting, workers: PortSetting, size: Option<int>)

  /** The form `initConfig` leaves an enabled cluster setting in. */
  predicate IsNormal(c: ClusterSetting) {
    c.Settings? && c.shared.Many? && c.workers.Many?
  }

  /** The shared-port and worker-port rules of lines 174-186. */
  function NormalSettings(shared: PortSetting, workers: PortSetting, size: Option<int>, port: BasePort): ClusterSetting {
    var s := if Truthy(shared) then AsArray(shared) else AsArray(port);
    var w := if Truthy(workers) then AsArray(workers)
             else if |s| >= 1 then [s[|s| - 1] + 1]
             else [];
    Settings(Many(s), Many(w), size)
  }

  /** What `initConfig` makes of `config.cluster`, given `config.port`. */
  function Normalize(c: ClusterSetting, port: BasePort): ClusterSetting {
    match c
    case Disabled => Disabled
    case Enabled => NormalSettings(Missing, Missing, None, port)
    case Settings(s, w, z) => NormalSettings(s, w, z, port)
  }

  /** A falsy setting becomes `null`; anything else becomes an object holding two port
      arrays and the unchanged `size`; `true` is treated as the empty object `{}`. */
  lemma NormalizeShape(c: ClusterSetting, port: BasePort)
    ensures Normalize(c, port) == Disabled <==> c == Disabled
    ensures c != Disabled ==> IsNormal(Normalize(c, port))
    ensures c.Settings? ==> Normalize(c, port).size == c.size
    ensures Normalize(Enabled, port) == Normalize(Settings(Missing, Missing, None), port)
  {
  }

  /** `shared` is a copy of a given list, a given (non-zero) scalar wrapped, and otherwise
      `config.port` copied or wrapped. */
  lemma SharedRule(shared: PortSetting, workers: PortSetting, size: Option<int>, port: BasePort)
    ensures var r := Normalize(Settings(shared, workers, size), port).shared.ports;
      && (shared.Many? ==> r == shared.ports)
      && (shared.One? && shared.port != 0 ==> r == [shared.port])
      && (!Truthy(shared) && port.Many? ==> r == port.ports)
      && (!Truthy(shared) && port.One? ==> r == [port.port])
  {
  }

  /** `workers` is a copy of a given list or a given scalar wrapped; when it is not given it
      is the port after the last shared port, or empty when there is no shared port. */
  lemma WorkersRule(c: ClusterSetting, port: BasePort)
    requires c != Disabled
    ensures var n := Normalize(c, port);
      var s := n.shared.ports;
      var w := n.workers.ports;
      && (c.Settings? && c.workers.Many? ==> w == c.workers.ports)
      && (c.Settings? && c.workers.One? && c.workers.port != 0 ==> w == [c.workers.port])
      && ((c.Enabled? || !Truthy(c.workers)) && |s| >= 1 ==> w == [s[|s| - 1] + 1])
      && ((c.Enabled? || !Truthy(c.workers)) && |s| == 0 ==> w == [])
  {
  }

  /** Normalising twice gives the same setting as normalising once. */
  lemma NormalizeIdempotent(c: ClusterSetting, port: BasePort)
    ensures Normalize(Normalize(c, port), port) == Normalize(c, port)
  {
  }

  /** The application configuration object whose `cluster` field `initConfig` rewrites. */
  class Config {
    var cluster: ClusterSetting
    const port: BasePort
    /** `config.hostname`, if set. */
    const hostname: Option<string>

    constructor (cluster: ClusterSetting, port: BasePort, hostname: Option<string>)
      ensures this.cluster == cluster && this.port == port && this.hostname == hostname
    {
      this.cluster := cluster;
      this.port := port;
      this.hostname := hostname;
    }

    /** `CLUSTER.initConfig(config)`. */
    method InitConfig()
      modifies this
      ensures cluster == Normalize(old(cluster), port)
      ensures cluster == Disabled <==> old(cluster) == Disabled
      ensures cluster != Disabled ==> IsNormal(cluster)
    {
      if cluster != Disabled {
        if cluster == Enabled {
          cluster := Settings(Missing, Missing, None);
        }
        if Truthy(cluster.shared) {
          cluster := cluster.(shared := Many(AsArray(cluster.shared)));
        } else {
          cluster := cluster.(shared := Many(AsArray(port)));
        }
        if Truthy(cluster.workers) {
          cluster := cluster.(workers := Many(AsArray(cluster.workers)));
        } else if |cluster.shared.ports| >= 1 {
          cluster := cluster.(workers := Many([cluster.shared.ports[|cluster.shared.ports| - 1] + 1]));
        } else {
          cluster := cluster.(workers := Many([]));
        }
      } else {
        cluster := Disabled;
      }
    }
  }
}
