/**
  Resolving the process to instrument and inspecting its Go offsets: `inspect`
  (lookup by executable name or by port), `inspectPort` (the search that skips Go
  proxies) and the service name taken from the command path.
 */
module Inspection {
  import opened Outcomes
  import opened Probes
  import opened Paths

  /** The options the provider reads: the executable matcher, the port (0 when
      unset), system-wide mode and the base directory of the BPF pin path. */
  datatype TracerConfig = TracerConfig(exec: string, port: int, systemWide: bool, bpfBaseDir: string)

  /** A resolved process: its pid, its command path, and the /proc/<pid>/exe link. */
  datatype FileInfo = FileInfo(pid: int, cmdExePath: string, proExeLinkPath: string)

  datatype FindResult = Found(info: FileInfo) | NotFound

  /** The one error resolution reports: no matching executable ("looking for executable ELF"). */
  datatype InspectError = ExecutableNotFound

  /** The process finders and the offset inspector, whose workings are not part of
      this model. `ownedPort(port, rejected)` plays `FindExecELF(OwnedPort(port, rejected))`;
      `inspectOffsets(info, names)` plays `InspectOffsets`, `None` standing for its error;
      `pids` is the finite set of process ids the port finder can return. */
  datatype Oracles = Oracles(
    processNamed: string -> FindResult,
    ownedPort: (int, set<int>) -> FindResult,
    inspectOffsets: (FileInfo, set<string>) -> Option<Offsets>,
    pids: set<int>)

  /** The port finder never offers a rejected pid, and offers only pids of `pids`. */
  ghost predicate FinderSound(o: Oracles)
  {
    forall port, rejected :: o.ownedPort(port, rejected).Found? ==>
      o.ownedPort(port, rejected).info.pid in o.pids - rejected
  }

  /** The executable and, for a Go program, its offsets. */
  datatype Target = Target(info: FileInfo, offsets: Option<Offsets>)

  /** What resolution returns, with the service name it last wrote into the
      global context (`None` when it wrote none). */
  datatype Inspected = Inspected(result: Result<Target, InspectError>, serviceName: Option<string>)

  /** setGlobalServiceName: the last segment of the command path. */
  function ServiceName(info: FileInfo): string
  {
    LastSegment(info.cmdExePath)
  }

  /** A function of the Go runtime itself: its name starts with "runtime.". */
  predicate IsRuntimeName(f: string)
  {
    |f| >= 8 && f[..8] == "runtime."
  }

  /** The offsets show something besides the Go runtime. */
  ghost predicate HasApplicationFunction(offsets: Offsets)
  {
    exists f :: f in offsets.funcs && !IsRuntimeName(f)
  }

  /** Rejecting the process the finder offered shrinks what is left to offer. */
  lemma RejectShrinks(o: Oracles, port: int, rejected: set<int>)
    requires FinderSound(o) && rejected <= o.pids && o.ownedPort(port, rejected).Found?
    ensures var pid := o.ownedPort(port, rejected).info.pid;
      pid !in rejected && rejected + {pid} <= o.pids && |o.pids - (rejected + {pid})| < |o.pids - rejected|
  {
    var pid := o.ownedPort(port, rejected).info.pid;
    assert o.pids - (rejected + {pid}) == (o.pids - rejected) - {pid};
  }

  /** The loop of inspectPort from the set of pids already rejected; `serviceName`
      is the value the global context holds so far. */
  ghost function PortSearch(o: Oracles, port: int, names: set<string>, rejected: set<int>, serviceName: Option<string>): Inspected
    requires FinderSound(o) && rejected <= o.pids
    decreases |o.pids - rejected|
  {
    match o.ownedPort(port, rejected)
    case NotFound => Inspected(Err(ExecutableNotFound), serviceName)
    case Found(info) =>
      var named := Some(ServiceName(info));
      match o.inspectOffsets(info, names)
      case None => Inspected(Ok(Target(info, None)), named)
      case Some(offsets) =>
        if HasApplicationFunction(offsets) then Inspected(Ok(Target(info, Some(offsets))), named)
        else
          RejectShrinks(o, port, rejected);
          PortSearch(o, port, names, rejected + {info.pid}, named)
  }

  /** What the port search ends with. An accepted process was offered by the
      finder for a rejected set that grew from the initial one, and was not
      rejected; its offsets are what the inspector reported, and when they exist
      they show a non-runtime function; the service name is that process's.
      An error only comes from a finder that found nothing. Conversely, a finder
      that finds nothing ends the search with an error and the service name set
      so far, and an offered process whose inspection fails or shows a
      non-runtime function is accepted at once. */
  lemma {:induction false} PortSearchOutcome(o: Oracles, port: int, names: set<string>, rejected: set<int>, serviceName: Option<string>)
    requires FinderSound(o) && rejected <= o.pids
    ensures var r := PortSearch(o, port, names, rejected, serviceName);
      r.result.Ok? ==>
        && r.result.value.info.pid !in rejected
        && (exists grown :: rejected <= grown <= o.pids && o.ownedPort(port, grown) == Found(r.result.value.info))
        && r.result.value.offsets == o.inspectOffsets(r.result.value.info, names)
        && (r.result.value.offsets.Some? ==> HasApplicationFunction(r.result.value.offsets.value))
        && r.serviceName == Some(ServiceName(r.result.value.info))
    ensures var r := PortSearch(o, port, names, rejected, serviceName);
      r.result.Err? ==> exists grown :: rejected <= grown <= o.pids && o.ownedPort(port, grown).NotFound?
    ensures o.ownedPort(port, rejected).NotFound? ==>
      PortSearch(o, port, names, rejected, serviceName) == Inspected(Err(ExecutableNotFound), serviceName)
    ensures var found := o.ownedPort(port, rejected);
      var offsets := if found.Found? then o.inspectOffsets(found.info, names) else None;
      found.Found? && (offsets.None? || HasApplicationFunction(offsets.value)) ==>
        PortSearch(o, port, names, rejected, serviceName) == Inspected(Ok(Target(found.info, offsets)), Some(ServiceName(found.info)))
    decreases |o.pids - rejected|
  {
    match o.ownedPort(port, rejected)
    case NotFound =>
    case Found(info) =>
      match o.inspectOffsets(info, names)
      case None =>
      case Some(offsets) =>
        if !HasApplicationFunction(offsets) {
          RejectShrinks(o, port, rejected);
          PortSearchOutcome(o, port, names, rejected + {info.pid}, Some(ServiceName(info)));
        }
  }

  /** A candidate whose discovered functions all belong to the Go runtime (an empty
      table included) is a proxy: its pid joins the rejected set and the search goes on. */
  lemma PortSearchSkipsRuntimeOnly(o: Oracles, port: int, names: set<string>, rejected: set<int>, serviceName: Option<string>)
    requires FinderSound(o) && rejected <= o.pids
    requires o.ownedPort(port, rejected).Found?
    requires o.inspectOffsets(o.ownedPort(port, rejected).info, names).Some?
    requires forall f :: f in o.inspectOffsets(o.ownedPort(port, rejected).info, names).value.funcs ==> IsRuntimeName(f)
    ensures var info := o.ownedPort(port, rejected).info;
      info.pid in o.pids - rejected &&
      PortSearch(o, port, names, rejected, serviceName) ==
      PortSearch(o, port, names, rejected + {info.pid}, Some(ServiceName(info)))
  {
  }

  /** inspectPort: ask for a process owning the port and not yet rejected; accept it
      when offset inspection fails or finds a non-runtime function, otherwise reject
      its pid and ask again. */
  method InspectPort(port: int, functions: seq<string>, o: Oracles) returns (r: Inspected)
    requires FinderSound(o)
    ensures r == PortSearch(o, port, Elements(functions), {}, None)
  {
    var names := Elements(functions);
    var invalidPids: set<int> := {};
    var serviceName: Option<string> := None;
    ghost var goal := PortSearch(o, port, names, {}, None);
    while true
      invariant invalidPids <= o.pids
      invariant PortSearch(o, port, names, invalidPids, serviceName) == goal
      decreases |o.pids - invalidPids|
    {
      ghost var search := PortSearch(o, port, names, invalidPids, serviceName);
      var found := o.ownedPort(port, invalidPids);
      if found.NotFound? {
        return Inspected(Err(ExecutableNotFound), serviceName);
      }
      var execElf := found.info;
      serviceName := Some(ServiceName(execElf));
      var offsets := o.inspectOffsets(execElf, names);
      if offsets.None? {
        return Inspected(Ok(Target(execElf, None)), serviceName);
      }
      var application := ShowsApplicationFunction(offsets.value);
      if application {
        assert search == Inspected(Ok(Target(execElf, offsets)), serviceName);
        return Inspected(Ok(Target(execElf, offsets)), serviceName);
      }
      RejectShrinks(o, port, invalidPids);
      assert search == PortSearch(o, port, names, invalidPids + {execElf.pid}, serviceName);
      invalidPids := invalidPids + {execElf.pid};
    }
  }

  /** The scan of inspectPort over the discovered functions: is any of them outside
      the Go runtime? */
  method ShowsApplicationFunction(offsets: Offsets) returns (found: bool)
    ensures found == HasApplicationFunction(offsets)
  {
    var pending := offsets.funcs.Keys;
    while pending != {}
      invariant pending <= offsets.funcs.Keys
      invariant forall f :: f in offsets.funcs && f !in pending ==> IsRuntimeName(f)
      decreases |pending|
    {
      var f :| f in pending;
      if !IsRuntimeName(f) {
        return true;
      }
      pending := pending - {f};
    }
    return false;
  }

  /** The whole of inspect: the port, when set, decides the lookup; otherwise the
      process is looked up by name and, unless system-wide, its offsets inspected. */
  ghost function InspectSpec(cfg: TracerConfig, names: set<string>, o: Oracles): Inspected
    requires FinderSound(o)
  {
    if cfg.port != 0 then PortSearch(o, cfg.port, names, {}, None)
    else match o.processNamed(cfg.exec)
      case NotFound => Inspected(Err(ExecutableNotFound), None)
      case Found(info) =>
        if cfg.systemWide then Inspected(Ok(Target(info, None)), None)
        else Inspected(Ok(Target(info, o.inspectOffsets(info, names))), Some(ServiceName(info)))
  }

  /** inspect. */
  method Inspect(cfg: TracerConfig, functions: seq<string>, o: Oracles) returns (r: Inspected)
    requires FinderSound(o)
    ensures r == InspectSpec(cfg, Elements(functions), o)
  {
    if cfg.port != 0 {
      r := InspectPort(cfg.port, functions, o);
      return;
    }
    var execElf := o.processNamed(cfg.exec);
    if execElf.NotFound? {
      return Inspected(Err(ExecutableNotFound), None);
    }
    var offsets: Option<Offsets> := None;
    var serviceName: Option<string> := None;
    if !cfg.systemWide {
      offsets := o.inspectOffsets(execElf.info, Elements(functions));
      serviceName := Some(ServiceName(execElf.info));
    }
    return Inspected(Ok(Target(execElf.info, offsets)), serviceName);
  }

  /** Lookup by name: it fails exactly when the finder finds nothing (an offset
      inspection error is swallowed and leaves the offsets absent); system-wide mode
      skips inspection, so no offsets and no service name. */
  lemma InspectByName(cfg: TracerConfig, names: set<string>, o: Oracles)
    requires FinderSound(o) && cfg.port == 0
    ensures var r := InspectSpec(cfg, names, o);
      && (r.result.Err? <==> o.processNamed(cfg.exec).NotFound?)
      && (r.result.Ok? ==> r.result.value.info == o.processNamed(cfg.exec).info)
      && (r.result.Ok? && cfg.systemWide ==> r.result.value.offsets.None? && r.serviceName.None?)
      && (r.result.Ok? && !cfg.systemWide ==>
            r.result.value.offsets == o.inspectOffsets(r.result.value.info, names) &&
            r.serviceName == Some(ServiceName(r.result.value.info)))
  {
  }

  /** Lookup by port: the outcome does not depend on system-wide mode, an accepted
      Go process always shows a non-runtime function, and an error only comes from
      the finder. */
  lemma InspectByPort(cfg: TracerConfig, names: set<string>, o: Oracles)
    requires FinderSound(o) && cfg.port != 0
    ensures InspectSpec(cfg, names, o) == InspectSpec(cfg.(systemWide := !cfg.systemWide), names, o)
    ensures var r := InspectSpec(cfg, names, o);
      && (r.result.Ok? && r.result.value.offsets.Some? ==> HasApplicationFunction(r.result.value.offsets.value))
      && (r.result.Err? ==> exists grown :: grown <= o.pids && o.ownedPort(cfg.port, grown).NotFound?)
  {
    PortSearchOutcome(o, cfg.port, names, {}, None);
  }

  /** The oracles of a two-process scenario on port 8080: a Go proxy (pid 10)
      exposing only runtime.main, in front of an application (pid 20) exposing
      net/http.ServeHTTP. */
  function ProxyScenario(): Oracles
  {
    Oracles(
      (exec: string) => NotFound,
      (port: int, rejected: set<int>) =>
        if port != 8080 then NotFound
        else if 10 !in rejected then Found(FileInfo(10, "/usr/local/bin/proxy", "/proc/10/exe"))
        else if 20 !in rejected then Found(FileInfo(20, "/srv/app/server", "/proc/20/exe"))
        else NotFound,
      (info: FileInfo, requested: set<string>) =>
        if info.pid == 10 then Some(Offsets(map["runtime.main" := FuncOffsets(4096, [])]))
        else Some(Offsets(map["net/http.ServeHTTP" := FuncOffsets(8192, [])])),
      {10, 20})
  }

  lemma ProxyScenarioSound()
    ensures FinderSound(ProxyScenario())
  {
  }

  lemma ProxyScenarioServiceName()
    ensures LastSegment("/srv/app/server") == "server"
  {
    LastSegmentAfterSlash("/srv/app", "server");
    assert "/srv/app/server" == "/srv/app" + "/" + "server";
  }

  /** The application, offered once the proxy's pid is rejected, is accepted. */
  lemma ProxyScenarioAcceptsApplication(names: set<string>, serviceName: Option<string>)
    requires FinderSound(ProxyScenario())
    ensures PortSearch(ProxyScenario(), 8080, names, {10}, serviceName) ==
      Inspected(Ok(Target(FileInfo(20, "/srv/app/server", "/proc/20/exe"),
                          Some(Offsets(map["net/http.ServeHTTP" := FuncOffsets(8192, [])])))),
                Some(LastSegment("/srv/app/server")))
  {
    var o := ProxyScenario();
    var app := FileInfo(20, "/srv/app/server", "/proc/20/exe");
    var appOffsets := Offsets(map["net/http.ServeHTTP" := FuncOffsets(8192, [])]);
    assert o.ownedPort(8080, {10}) == Found(app);
    assert o.inspectOffsets(app, names) == Some(appOffsets);
    assert HasApplicationFunction(appOffsets) by {
      assert "net/http.ServeHTTP"[..8][0] == 'n' != "runtime."[0];
      assert !IsRuntimeName("net/http.ServeHTTP") && "net/http.ServeHTTP" in appOffsets.funcs;
    }
  }

  /** In that scenario the proxy is rejected and the application accepted, with its
      offsets and its service name. */
  lemma ProxyInFrontOfApplication(names: set<string>)
    ensures FinderSound(ProxyScenario())
    ensures PortSearch(ProxyScenario(), 8080, names, {}, None) ==
      Inspected(Ok(Target(FileInfo(20, "/srv/app/server", "/proc/20/exe"),
                          Some(Offsets(map["net/http.ServeHTTP" := FuncOffsets(8192, [])])))),
                Some("server"))
  {
    ProxyScenarioSound();
    var o := ProxyScenario();
    assert "runtime.main"[..8] == "runtime.";
    PortSearchSkipsRuntimeOnly(o, 8080, names, {}, None);
    assert {} + {10} == {10};
    ProxyScenarioAcceptsApplication(names, Some(ServiceName(o.ownedPort(8080, {}).info)));
    ProxyScenarioServiceName();
  }
}
