/**
 * `run_server`: obtain the listening socket in one of three ways, chosen by
 * the `fd` parameter, then start the HTTP server with one process. Every
 * call made on the outside world is recorded, in order, in a trace.
 */
module Server {
  import opened Base
  import opened Coerce
  import opened Params

  /** The socket object `socket.fromfd` builds around a descriptor. */
  datatype Socket = Socket(fd: int)

  /** A call on the HTTP server, the socket module, the file system, the IO loop or the engine. */
  datatype Call =
    | Bind(port: int, ip: string)       // `server.bind(port, ip)`
    | Open(path: string)                // `open(path, 'r')`
    | Fileno(path: string)              // `.fileno()` of the opened file
    | Close(path: string)               // leaving the `with` block that opened it
    | FromFd(fd: int)                   // `socket.fromfd(fd, ...)`
    | AddSocket(sock: Socket)           // `server.add_socket(sock)`
    | Start(processes: int)             // `server.start(processes)`
    | LoopStart                         // `IOLoop.instance().start()`
    | Write(text: string)               // `sys.stdout.write(text)`
    | EngineCleanup(engine: string)     // the engine's `cleanup` hook

  /** Calls `run_server` itself may make. */
  predicate SocketCall(c: Call) {
    c.Bind? || c.Open? || c.Fileno? || c.Close? || c.FromFd? || c.AddSocket? || c.Start?
  }

  /** The calls made and how they ended. */
  datatype Run = Run(calls: seq<Call>, outcome: Outcome)

  /**
   * The descriptor `fd` designates without opening anything: an integer, or
   * a string that reads as one (`get_as_integer` is tried first).
   */
  function DirectDescriptor(fd: Fd): Option<int> {
    match fd
    case NoFd => None
    case IntFd(n) => Some(n)
    case PathFd(path) => GetAsInteger(Some(path))
  }

  /** An `fd` that is absent or empty: `run_server` binds a new socket instead of attaching one. */
  predicate BindsAddress(fd: Fd) {
    fd.NoFd? || fd == PathFd("")
  }

  /** Binding `(ip, port)` and, when that succeeds, starting with one process. */
  function BindRun(port: int, ip: string, busy: set<int>): Run {
    if port in busy then Run([Bind(port, ip)], Fail(BindFailure(port, ip)))
    else Run([Bind(port, ip), Start(1)], Pass)
  }

  /**
   * The calls `run_server` makes: `files` maps each path that opens to the
   * descriptor of the opened file, `busy` holds the ports that cannot be bound.
   */
  function RunServerCalls(fd: Fd, port: int, ip: string, files: map<string, int>, busy: set<int>): (r: Run)
    ensures forall i :: 0 <= i < |r.calls| ==> SocketCall(r.calls[i])
    ensures |r.calls| > 0
    ensures BindsAddress(fd) ==> r.calls[0] == Bind(port, ip)
    ensures !BindsAddress(fd) ==> forall i :: 0 <= i < |r.calls| ==> !r.calls[i].Bind?
    ensures BindsAddress(fd) ==> (r.outcome.Pass? <==> port !in busy)
    ensures BindsAddress(fd) && port !in busy ==> r.calls == [Bind(port, ip), Start(1)]
    ensures r.outcome.Fail? ==> (!fd.IntFd?
      && r.outcome.error == (if BindsAddress(fd) then BindFailure(port, ip) else OpenFailure(fd.path)))
    ensures r.outcome.Fail? ==> r.calls == (if BindsAddress(fd) then [Bind(port, ip)] else [Open(fd.path)])
    ensures DirectDescriptor(fd).Some? ==>
      r == Run([FromFd(DirectDescriptor(fd).value), AddSocket(Socket(DirectDescriptor(fd).value)), Start(1)], Pass)
    ensures !BindsAddress(fd) && fd.PathFd? && DirectDescriptor(fd).None? ==>
      r.calls[0] == Open(fd.path) && (r.outcome.Pass? <==> fd.path in files)
    ensures !BindsAddress(fd) && fd.PathFd? && DirectDescriptor(fd).None? && fd.path in files ==>
      r.calls == [Open(fd.path), Fileno(fd.path), Close(fd.path),
                  FromFd(files[fd.path]), AddSocket(Socket(files[fd.path])), Start(1)]
    ensures r.outcome.Pass? ==> r.calls[|r.calls| - 1] == Start(1)
    ensures r.outcome.Fail? ==> forall i :: 0 <= i < |r.calls| ==> !r.calls[i].Start?
  {
    match fd
    case NoFd => BindRun(port, ip, busy)
    case IntFd(n) => Run([FromFd(n), AddSocket(Socket(n)), Start(1)], Pass)
    case PathFd(path) =>
      if path == "" then BindRun(port, ip, busy)
      else match GetAsInteger(Some(path))
      case Some(n) => Run([FromFd(n), AddSocket(Socket(n)), Start(1)], Pass)
      case None =>
        if path in files then
          var n := files[path];
          Run([Open(path), Fileno(path), Close(path), FromFd(n), AddSocket(Socket(n)), Start(1)], Pass)
        else Run([Open(path)], Fail(OpenFailure(path)))
  }

  /** A descriptor given as a numeric string is used exactly like the integer it reads as. */
  lemma NumericPathIsDescriptor(path: string, port: int, ip: string, files: map<string, int>, busy: set<int>)
    requires IsNumeral(path)
    ensures RunServerCalls(PathFd(path), port, ip, files, busy)
      == RunServerCalls(IntFd(NumeralValue(path)), port, ip, files, busy)
  {
  }

  /** A file opened to recover a descriptor is always closed again. */
  lemma OpenedFileIsClosed(fd: Fd, port: int, ip: string, files: map<string, int>, busy: set<int>, path: string)
    requires Open(path) in RunServerCalls(fd, port, ip, files, busy).calls
    requires RunServerCalls(fd, port, ip, files, busy).outcome.Pass?
    ensures Close(path) in RunServerCalls(fd, port, ip, files, busy).calls
  {
  }

  /** The world outside the process as `run_server` and `main` see it, with the trace of calls made on it. */
  class Host {
    var calls: seq<Call>
    const files: map<string, int>
    const busy: set<int>

    constructor (files: map<string, int>, busy: set<int>)
      ensures calls == [] && this.files == files && this.busy == busy
    {
      calls := [];
      this.files := files;
      this.busy := busy;
    }

    method Bind(port: int, ip: string) returns (r: Outcome)
      modifies this
      ensures calls == old(calls) + [Call.Bind(port, ip)]
      ensures r == if port in busy then Fail(BindFailure(port, ip)) else Pass
    {
      calls := calls + [Call.Bind(port, ip)];
      r := if port in busy then Fail(BindFailure(port, ip)) else Pass;
    }

    /** `with open(path) as f: n = f.fileno()`: the file is closed once its descriptor is read. */
    method OpenFileno(path: string) returns (n: Option<int>)
      modifies this
      ensures n == if path in files then Some(files[path]) else None
      ensures calls == old(calls) + if path in files then [Open(path), Fileno(path), Close(path)] else [Open(path)]
    {
      calls := calls + [Open(path)];
      if path in files {
        n := Some(files[path]);
        calls := calls + [Fileno(path), Close(path)];
      } else {
        n := None;
      }
    }

    method FromFd(fd: int) returns (s: Socket)
      modifies this
      ensures s == Socket(fd) && calls == old(calls) + [Call.FromFd(fd)]
    {
      calls := calls + [Call.FromFd(fd)];
      s := Socket(fd);
    }

    method AddSocket(s: Socket)
      modifies this
      ensures calls == old(calls) + [Call.AddSocket(s)]
    {
      calls := calls + [Call.AddSocket(s)];
    }

    method Start(processes: int)
      modifies this
      ensures calls == old(calls) + [Call.Start(processes)]
    {
      calls := calls + [Call.Start(processes)];
    }

    method LoopStart()
      modifies this
      ensures calls == old(calls) + [Call.LoopStart]
    {
      calls := calls + [Call.LoopStart];
    }

    method Write(text: string)
      modifies this
      ensures calls == old(calls) + [Call.Write(text)]
    {
      calls := calls + [Call.Write(text)];
    }

    method EngineCleanup(engine: string)
      modifies this
      ensures calls == old(calls) + [Call.EngineCleanup(engine)]
    {
      calls := calls + [Call.EngineCleanup(engine)];
    }
  }

  /** Model of `run_server(application, context)` with `context.server` = `p`. */
  method RunServer(host: Host, p: ServerParameters) returns (r: Outcome)
    modifies host
    ensures var run := RunServerCalls(p.fd, p.port, p.ip, host.files, host.busy);
      host.calls == old(host.calls) + run.calls && r == run.outcome
  {
    if BindsAddress(p.fd) {
      r := host.Bind(p.port, p.ip);
      if r.Fail? {
        return;
      }
    } else {
      var n := DirectDescriptor(p.fd);
      if n.None? {
        n := host.OpenFileno(p.fd.path);
        if n.None? {
          r := Fail(OpenFailure(p.fd.path));
          return;
        }
      }
      var sock := host.FromFd(n.value);
      host.AddSocket(sock);
    }
    host.Start(1);
    r := Pass;
  }

  /** The three binding scenarios of the server tests, checked against the method's contract. */
  method RunServerExamples()
  {
    var host := new Host(map["/path/bin" := 12], {});
    var p := new ServerParameters(1234, "0.0.0.0", NoFd, "", false, "DEBUG", false, "", None);
    var r := RunServer(host, p);
    assert host.calls == [Bind(1234, "0.0.0.0"), Start(1)];

    host := new Host(map["/path/bin" := 12], {});
    p := new ServerParameters(1234, "0.0.0.0", IntFd(11), "", false, "DEBUG", false, "", None);
    r := RunServer(host, p);
    assert host.calls == [FromFd(11), AddSocket(Socket(11)), Start(1)];

    host := new Host(map["/path/bin" := 12], {});
    p := new ServerParameters(1234, "0.0.0.0", PathFd("/path/bin"), "", false, "DEBUG", false, "", None);
    assert !IsNumeral("/path/bin") by { assert "/path/bin"[0] == '/'; }
    r := RunServer(host, p);
    assert host.calls == [Open("/path/bin"), Fileno("/path/bin"), Close("/path/bin"),
                          FromFd(12), AddSocket(Socket(12)), Start(1)];
  }
}
