/** The command-line filtering of src/cluster.js (lines 88-122): the controller detects
    `--debug` / `--debug-brk` among its own `execArgv`, and strips both from the arguments
    its workers are forked with. */
module ExecArgv {
  import opened Strings

  /** `is_argument(arg)`: the argument itself, or the argument with a value (`arg=...`). */
  function IsArgument(arg: string): (f: string -> bool)
    ensures forall s :: f(s) <==> s == arg || arg + "=" <= s
  {
    s => s == arg || Substr(s, 0, |arg| + 1) == arg + "="
  }

  /** `not_argument(arg)`: the negation of `is_argument(arg)`. */
  function NotArgument(arg: string): (f: string -> bool)
    ensures forall s :: f(s) <==> !(s == arg || arg + "=" <= s)
  {
    var isArgument := IsArgument(arg);
    s => !isArgument(s)
  }

  /** `and(a, b)`: both predicates hold. */
  function And(a: string -> bool, b: string -> bool): (f: string -> bool)
    ensures forall s :: f(s) <==> a(s) && b(s)
  {
    s => a(s) && b(s)
  }

  /** `ARRAY(xs).filter(keep)`: the elements that `keep` accepts, in their order. */
  function Filter(keep: string -> bool, xs: seq<string>): (r: seq<string>)
    ensures |r| <= |xs|
    ensures forall x :: x in r <==> x in xs && keep(x)
  {
    if xs == [] then []
    else (if keep(xs[0]) then [xs[0]] else []) + Filter(keep, xs[1..])
  }

  /** `ARRAY(xs).some(p)`. */
  function Any(p: string -> bool, xs: seq<string>): (r: bool)
    ensures r <==> exists i :: 0 <= i < |xs| && p(xs[i])
  {
    if xs == [] then false
    else p(xs[0]) || Any(p, xs[1..])
  }

  /** The filter keeps the order of what it keeps: it distributes over concatenation. */
  lemma {:induction false} FilterAppend(keep: string -> bool, a: seq<string>, b: seq<string>)
    ensures Filter(keep, a + b) == Filter(keep, a) + Filter(keep, b)
  {
    if a == [] {
      assert a + b == b;
    } else {
      assert (a + b)[1..] == a[1..] + b;
      FilterAppend(keep, a[1..], b);
    }
  }

  /** A list whose every element is kept comes through the filter unchanged. */
  lemma {:induction false} FilterKeepsAll(keep: string -> bool, xs: seq<string>)
    requires forall i :: 0 <= i < |xs| ==> keep(xs[i])
    ensures Filter(keep, xs) == xs
  {
    if xs != [] {
      FilterKeepsAll(keep, xs[1..]);
    }
  }

  /** An argument that switches the inspector on, with or without a value. */
  predicate IsDebugArgument(s: string) {
    s == "--debug" || "--debug=" <= s || s == "--debug-brk" || "--debug-brk=" <= s
  }

  /** `debug_flag` (line 117): `--debug-brk` when the controller was started with it,
      `--debug` otherwise. */
  function DebugFlag(execArgv: seq<string>): string {
    if Any(IsArgument("--debug-brk"), execArgv) then "--debug-brk" else "--debug"
  }

  /** `debug_ports_enabled` (line 118). */
  function DebugPortsEnabled(execArgv: seq<string>): bool {
    Any(IsArgument(DebugFlag(execArgv)), execArgv)
  }

  /** The `execArgv` given to `setupMaster` (line 120). */
  function ChildExecArgv(execArgv: seq<string>): seq<string> {
    Filter(And(NotArgument("--debug-brk"), NotArgument("--debug")), execArgv)
  }

  /** `--debug` is a different argument from `--debug-brk`, but matches `--debug=5859`. */
  lemma DebugIsNotDebugBrk()
    ensures !IsArgument("--debug")("--debug-brk")
    ensures !IsArgument("--debug")("--debug-brk=5859")
    ensures IsArgument("--debug")("--debug=5859")
    ensures !IsArgument("--debug-brk")("--debug")
  {
    assert "--debug-brk"[7] != "--debug="[7];
    assert "--debug-brk=5859"[7] != "--debug="[7];
    assert "--debug=" <= "--debug=5859";
  }

  /** `debug_flag` (line 117) is `--debug-brk` exactly when the master runs with a
      `--debug-brk` argument, and `--debug` otherwise. */
  lemma DebugFlagChoice(execArgv: seq<string>)
    ensures DebugFlag(execArgv) == "--debug-brk" || DebugFlag(execArgv) == "--debug"
    ensures DebugFlag(execArgv) == "--debug-brk" <==>
      exists i :: 0 <= i < |execArgv| && (execArgv[i] == "--debug-brk" || "--debug-brk=" <= execArgv[i])
  {
  }

  /** `debug_ports_enabled` (line 118) holds exactly when the master runs with a `--debug`
      or `--debug-brk` argument. */
  lemma DebugPortsEnabledMeaning(execArgv: seq<string>)
    ensures DebugPortsEnabled(execArgv) <==>
      exists i :: 0 <= i < |execArgv| && IsDebugArgument(execArgv[i])
  {
    if DebugPortsEnabled(execArgv) {
      var i :| 0 <= i < |execArgv| && IsArgument(DebugFlag(execArgv))(execArgv[i]);
      assert IsDebugArgument(execArgv[i]);
    }
    if i :| 0 <= i < |execArgv| && IsDebugArgument(execArgv[i]) {
      if !Any(IsArgument("--debug-brk"), execArgv) {
        assert IsArgument("--debug")(execArgv[i]);
      }
    }
  }

  /** Workers are forked with no debug argument, with every other argument of the
      controller, in the controller's order. */
  lemma ChildExecArgvMeaning(execArgv: seq<string>, more: seq<string>)
    ensures forall s :: And(NotArgument("--debug-brk"), NotArgument("--debug"))(s) <==> !IsDebugArgument(s)
    ensures forall s :: s in ChildExecArgv(execArgv) ==> s in execArgv && !IsDebugArgument(s)
    ensures forall s :: s in execArgv && !IsDebugArgument(s) ==> s in ChildExecArgv(execArgv)
    ensures ChildExecArgv(execArgv + more) == ChildExecArgv(execArgv) + ChildExecArgv(more)
    ensures (forall i :: 0 <= i < |execArgv| ==> !IsDebugArgument(execArgv[i])) ==>
      ChildExecArgv(execArgv) == execArgv
  {
    var keep := And(NotArgument("--debug-brk"), NotArgument("--debug"));
    assert forall s :: keep(s) <==> !IsDebugArgument(s);
    FilterAppend(keep, execArgv, more);
    if forall i :: 0 <= i < |execArgv| ==> !IsDebugArgument(execArgv[i]) {
      FilterKeepsAll(keep, execArgv);
    }
  }
}
