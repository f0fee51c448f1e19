/** The request-log line of src/log-format-clusterdev.js: its colour rule, its cluster
    descriptor `[worker(<id>)#<pid>@<hostname>:<port>]`, its Content-Length suffix, and the
    wrapper that turns a failure into no line at all. */
module LogFormat {
  import opened Wrappers
  import opened Strings

  /** `get_color(status)` (lines 8-13): the ANSI colour of a status code. */
  function GetColor(status: int): (c: int)
    ensures c == 31 || c == 33 || c == 36 || c == 32
    ensures c == 31 <==> status >= 500
    ensures c == 33 <==> 400 <= status < 500
    ensures c == 36 <==> 300 <= status < 400
    ensures c == 32 <==> status < 300
  {
    if status >= 500 then 31
    else if status >= 400 then 33
    else if status >= 300 then 36
    else 32
  }

  /** How `+` prints a string that may be `undefined`. */
  function JsText(o: Option<string>): string {
    if o.Some? then o.value else "undefined"
  }

  predicate EndsWith(s: string, t: string) {
    |t| <= |s| && s[|s| - |t|..] == t
  }

  lemma NoAtInNumber(n: int)
    ensures '@' !in IntToString(n)
  {
    var s := IntToString(n);
    forall i | 0 <= i < |s| ensures s[i] != '@' {
      assert IsDigit(s[i]) || s[i] == '-';
    }
  }

  function WorkerPart(worker: Option<int>): (w: string)
    ensures w == [] <==> worker.None?
    ensures worker.Some? ==> w == "worker(" + IntToString(worker.value) + ")"
    ensures w != [] ==> w[0] == 'w'
    ensures '@' !in w
  {
    if worker.Some? then
      NoAtInNumber(worker.value);
      "worker(" + IntToString(worker.value) + ")"
    else ""
  }

  function PidPart(pid: int): (p: string)
    ensures p == [] <==> pid == 0
    ensures p != [] ==> p == "#" + IntToString(pid)
    ensures '@' !in p
  {
    if pid != 0 then
      NoAtInNumber(pid);
      "#" + IntToString(pid)
    else ""
  }

  function AddressPart(workerPort: Option<string>, workerHostname: Option<string>): (a: string)
    ensures a == [] <==> !TruthyText(workerPort)
    ensures a != [] ==> a[0] == '@'
  {
    if TruthyText(workerPort) then "@" + JsText(workerHostname) + ":" + workerPort.value else ""
  }

  /** Where the three parts sit in `"[" + w + p + a + "]"`. */
  lemma DescriptorLayout(w: string, p: string, a: string)
    ensures var d := "[" + w + p + a + "]";
      && |d| >= 2 && d[0] == '[' && d[|d| - 1] == ']'
      && d[1] == (if w != [] then w[0] else if p != [] then p[0] else if a != [] then a[0] else ']')
      && ('@' in d <==> '@' in w || '@' in p || '@' in a)
      && (d == "[]" <==> w == [] && p == [] && a == [])
      && "[" + w <= d
      && "[" + w + p <= d
      && EndsWith(d, a + "]")
  {
    var d := "[" + w + p + a + "]";
    assert d == "[" + (w + p + a) + "]";
    assert d == "[" + w + (p + a + "]");
    assert d == "[" + w + p + (a + "]");
    assert forall c :: c in d <==> c == '[' || c in w || c in p || c in a || c == ']';
    if d == "[]" {
      assert |w + p + a| == 0;
    }
  }

  /** The cluster descriptor of lines 27-46, from `cluster.worker.id` (none outside a
      worker), `process.pid`, and `WORKER_PORT` and `WORKER_HOSTNAME` of the environment. */
  function ClusterDescriptor(worker: Option<int>, pid: int, workerPort: Option<string>, workerHostname: Option<string>): (d: string)
    ensures |d| >= 2 && d[0] == '[' && d[|d| - 1] == ']'
    ensures d[1] == 'w' <==> worker.Some?
    ensures '@' in d <==> TruthyText(workerPort)
    ensures d == "[]" <==> worker.None? && pid == 0 && !TruthyText(workerPort)
  {
    var w := WorkerPart(worker);
    var p := PidPart(pid);
    var a := AddressPart(workerPort, workerHostname);
    DescriptorLayout(w, p, a);
    "[" + w + p + a + "]"
  }

  /** The parts come in the order worker, pid, address: `[worker(<id>)` opens the
      descriptor when there is a worker, `#<pid>` follows it when the pid is truthy, and
      `@<hostname>:<port>]` closes it when `WORKER_PORT` is truthy. */
  lemma ClusterDescriptorOrder(worker: Option<int>, pid: int, workerPort: Option<string>, workerHostname: Option<string>)
    ensures var d := ClusterDescriptor(worker, pid, workerPort, workerHostname);
      && (worker.Some? ==> "[worker(" + IntToString(worker.value) + ")" <= d)
      && (pid != 0 ==> "[" + WorkerPart(worker) + "#" + IntToString(pid) <= d)
      && (TruthyText(workerPort) ==> EndsWith(d, "@" + JsText(workerHostname) + ":" + workerPort.value + "]"))
  {
    var w := WorkerPart(worker);
    var p := PidPart(pid);
    var a := AddressPart(workerPort, workerHostname);
    DescriptorLayout(w, p, a);
    assert worker.Some? ==> "[" + w == "[worker(" + IntToString(worker.value) + ")";
    assert pid != 0 ==> "[" + w + p == "[" + w + "#" + IntToString(pid);
    assert TruthyText(workerPort) ==> a + "]" == "@" + JsText(workerHostname) + ":" + workerPort.value + "]";
  }

  /** Lines 18 and 25: `" - " + bytes(len)` when the Content-Length header parses as a
      decimal integer, nothing otherwise. `bytes` is the byte-size formatter. */
  function LengthSuffix(contentLength: Option<string>, bytes: int -> string): (r: string)
    ensures r == "" <==> contentLength.None? || ParseInt10(contentLength.value).None?
    ensures r != "" ==> r == " - " + bytes(ParseInt10(contentLength.value).value)
  {
    if contentLength.None? then ""
    else
      match ParseInt10(contentLength.value)
      case None => ""
      case Some(n) => " - " + bytes(n)
  }

  /** A Content-Length written in decimal gives the suffix of its own value. */
  lemma LengthSuffixOfNumber(n: int, bytes: int -> string)
    ensures LengthSuffix(Some(IntToString(n)), bytes) == " - " + bytes(n)
  {
    ParseIntToString(n);
  }

  /** What the formatter reads from `req`: `headers` with its `x-forwarded-for`,
      `connection` with its `remoteAddress` (either may be missing), `id`, `method` (here
      `verb`) and `originalUrl`. */
  datatype Request = Request(
    headers: Option<map<string, string>>,
    connection: Option<Option<string>>,
    id: Option<string>,
    verb: string,
    originalUrl: string)

  /** What it reads from `res`. */
  datatype Response = Response(statusCode: int, contentLength: Option<string>)

  /** The `TypeError` of reading a property of a missing object. */
  datatype FormatError = NoHeaders | NoConnection

  /** `req.headers['x-forwarded-for'] || req.connection.remoteAddress` (line 21). */
  function RemoteAddress(req: Request): (r: Result<string, FormatError>)
    ensures req.headers.None? ==> r == Err(NoHeaders)
    ensures req.headers.Some? && "x-forwarded-for" in req.headers.value && req.headers.value["x-forwarded-for"] != "" ==>
      r == Ok(req.headers.value["x-forwarded-for"])
    ensures (req.headers.Some? && !("x-forwarded-for" in req.headers.value && req.headers.value["x-forwarded-for"] != "") &&
             req.connection.Some?) ==> r == Ok(JsText(req.connection.value))
    ensures r == Err(NoConnection) <==>
      (req.headers.Some? && req.connection.None? &&
       !("x-forwarded-for" in req.headers.value && req.headers.value["x-forwarded-for"] != ""))
  {
    if req.headers.None? then Err(NoHeaders)
    else if "x-forwarded-for" in req.headers.value && req.headers.value["x-forwarded-for"] != "" then
      Ok(req.headers.value["x-forwarded-for"])
    else if req.connection.None? then Err(NoConnection)
    else Ok(JsText(req.connection.value))
  }

  /** `[req.id] ` when the request has a truthy id (line 52). */
  function RequestIdCell(req: Request): (r: string)
    ensures r == "" <==> !TruthyText(req.id)
    ensures r != "" ==> r == "[" + req.id.value + "] "
  {
    if TruthyText(req.id) then "[" + req.id.value + "] " else ""
  }

  const Gray: string := "\U{1B}[90m"
  const Reset: string := "\U{1B}[0m"

  /** The values the formatter takes from outside the request: the cluster worker id, the
      process id, `WORKER_PORT` and `WORKER_HOSTNAME`, the time as ISO text, the elapsed
      milliseconds, and the byte-size formatter. */
  datatype Context = Context(
    worker: Option<int>,
    pid: int,
    workerPort: Option<string>,
    workerHostname: Option<string>,
    now: string,
    elapsed: int,
    bytes: int -> string)

  /** `clusterdev(cluster, tokens, req, res)` (lines 16-60): the log line, or the error of a
      missing `headers` or `connection`. */
  function Clusterdev(ctx: Context, req: Request, res: Response): (r: Result<string, FormatError>)
    ensures r.Err? <==> RemoteAddress(req).Err?
    ensures r.Ok? ==>
      var desc := ClusterDescriptor(ctx.worker, ctx.pid, ctx.workerPort, ctx.workerHostname);
      var head := Gray + "[" + ctx.now + "] " + desc + " [" + RemoteAddress(req).value + "] " + RequestIdCell(req);
      && head <= r.value
      && EndsWith(r.value, "ms" + LengthSuffix(res.contentLength, ctx.bytes) + Reset)
  {
    match RemoteAddress(req)
    case Err(e) => Err(e)
    case Ok(remote) =>
      var len := LengthSuffix(res.contentLength, ctx.bytes);
      var desc := ClusterDescriptor(ctx.worker, ctx.pid, ctx.workerPort, ctx.workerHostname);
      var head := Gray + "[" + ctx.now + "] " + desc + " [" + remote + "] " + RequestIdCell(req);
      var middle := req.verb + " " + req.originalUrl + " " +
        "\U{1B}[" + IntToString(GetColor(res.statusCode)) + "m" + IntToString(res.statusCode) +
        " " + Gray + IntToString(ctx.elapsed);
      var tail := "ms" + len + Reset;
      assert head + middle + tail == head + (middle + tail);
      assert head + middle + tail == (head + middle) + tail;
      Ok(head + middle + tail)
  }

  /** `try_wrapper` (lines 63-69): the line, or `undefined` when formatting fails; it never
      fails itself. */
  function TryWrapper(ctx: Context, req: Request, res: Response): (r: Option<string>)
    ensures r.None? <==> Clusterdev(ctx, req, res).Err?
    ensures r.Some? ==> Clusterdev(ctx, req, res) == Ok(r.value)
  {
    match Clusterdev(ctx, req, res)
    case Ok(line) => Some(line)
    case Err(_) => None
  }
}
