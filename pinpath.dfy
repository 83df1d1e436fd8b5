/**
  The BPF pin path: one directory per agent process, under the configured base
  directory, on which a BPF file system is mounted before any tracer loads and
  unmounted when the provider fails or its context ends.
 */
module PinPath {
  import opened Outcomes
  import opened Paths
  import opened Kernel

  /** `path.Join(baseDir, strconv.Itoa(pid))`, `pid` being the agent's own process id. */
  function PinPathFor(baseDir: string, pid: nat): (p: string)
    ensures LastSegment(p) == DecimalString(pid)
    ensures baseDir == [] ==> p == DecimalString(pid)
    ensures baseDir != [] && baseDir[|baseDir| - 1] != '/' ==> p == baseDir + "/" + DecimalString(pid)
  {
    JoinName(baseDir, DecimalString(pid))
  }

  /** Two agent processes never share a pin path, whatever their base directories. */
  lemma PinPathKeyedByPid(baseDir1: string, pid1: nat, baseDir2: string, pid2: nat)
    ensures PinPathFor(baseDir1, pid1) == PinPathFor(baseDir2, pid2) ==> pid1 == pid2
  {
    DecimalRoundTrip(pid1);
    DecimalRoundTrip(pid2);
  }

  datatype MountError =
    | AccessingStat(path: string)
    | CreatingDirectory(path: string)
    | MountingFs(path: string)

  /** mountBpfPinPath, on the pin path derived from the base directory and pid. */
  function MountPinPath(baseDir: string, pid: nat, faults: set<Call>, w: World): (e: Effect<Result<string, MountError>>)
    ensures Extends(e.world, w)
    ensures var pin := PinPathFor(baseDir, pid);
      && (e.value.Ok? ==> e.value.value == pin && pin in e.world.dirs)
      && e.world.mounts == (if e.value.Ok? then w.mounts + {pin} else w.mounts)
      && (MkdirAll(pin) in Since(e.world, w) <==> Stat(pin) !in faults && pin !in w.dirs)
      && (Stat(pin) in faults ==> e.value == Err(AccessingStat(pin)) && e.world.dirs == w.dirs)
      && (e.value.Ok? <==> MountWorks(pin, faults, w))
      && (e.value.Err? ==> e.value.error == MountFailure(pin, faults, w))
      && Unmount(pin) !in Since(e.world, w)
  {
    MountAt(PinPathFor(baseDir, pid), faults, w)
  }

  /** Mounting on `pin` works: stat succeeds, the directory exists or is created,
      and the mount itself succeeds. */
  predicate MountWorks(pin: string, faults: set<Call>, w: World)
  {
    Stat(pin) !in faults && (pin in w.dirs || MkdirAll(pin) !in faults) && Mount(pin) !in faults
  }

  /** Whether and how the mount fails depends on the directories, not on the log. */
  lemma MountOnSameDirs(pin: string, faults: set<Call>, w1: World, w2: World)
    requires w1.dirs == w2.dirs
    ensures MountWorks(pin, faults, w1) == MountWorks(pin, faults, w2)
    ensures MountFailure(pin, faults, w1) == MountFailure(pin, faults, w2)
  {
  }

  /** The error of a mount that does not work: that of the first failing step. */
  function MountFailure(pin: string, faults: set<Call>, w: World): MountError
  {
    if Stat(pin) in faults then AccessingStat(pin)
    else if pin !in w.dirs && MkdirAll(pin) in faults then CreatingDirectory(pin)
    else MountingFs(pin)
  }

  /** Stat the pin path; create it only when stat says it does not exist, fail on
      any other stat error; then mount the BPF file system on it. */
  function MountAt(pin: string, faults: set<Call>, w: World): (e: Effect<Result<string, MountError>>)
    ensures Extends(e.world, w)
    ensures e.value.Ok? ==> e.value.value == pin && pin in e.world.dirs
    ensures e.world.mounts == (if e.value.Ok? then w.mounts + {pin} else w.mounts)
    ensures MkdirAll(pin) in Since(e.world, w) <==> Stat(pin) !in faults && pin !in w.dirs
    ensures Stat(pin) in faults ==> e.value == Err(AccessingStat(pin)) && e.world.dirs == w.dirs
    ensures e.value.Ok? <==> MountWorks(pin, faults, w)
    ensures e.value.Err? ==> e.value.error == MountFailure(pin, faults, w)
    ensures Unmount(pin) !in Since(e.world, w)
  {
    var stat := StatCall(pin, faults, w);
    if stat.value == StatError then Effect(Err(AccessingStat(pin)), stat.world)
    else if stat.value == NotExist then
      var created := MkdirAllCall(pin, faults, stat.world);
      SinceChain(created.world, stat.world, w);
      if !created.value then Effect(Err(CreatingDirectory(pin)), created.world)
      else
        var mounted := BpfMount(pin, faults, created.world);
        SinceChain(mounted.world, created.world, w);
        mounted
    else
      var mounted := BpfMount(pin, faults, stat.world);
      SinceChain(mounted.world, stat.world, w);
      mounted
  }

  /** bpfMount: mount a BPF file system on an existing directory. */
  function BpfMount(pin: string, faults: set<Call>, w: World): (e: Effect<Result<string, MountError>>)
    ensures Extends(e.world, w) && Since(e.world, w) == [Mount(pin)] && e.world.dirs == w.dirs
    ensures e.value.Ok? <==> Mount(pin) !in faults && pin in w.dirs
    ensures e.value == (if e.value.Ok? then Ok(pin) else Err(MountingFs(pin)))
    ensures e.world.mounts == (if e.value.Ok? then w.mounts + {pin} else w.mounts)
  {
    var mounted := MountCall(pin, faults, w);
    Effect(if mounted.value then Ok(pin) else Err(MountingFs(pin)), mounted.world)
  }

  /** The forced unmount of `pin` succeeds in `w`. */
  predicate Unmounts(pin: string, faults: set<Call>, w: World)
  {
    pin in w.mounts && Unmount(pin) !in faults
  }

  /** unmountBpfPinPath: unmount, and only when that succeeded remove the directory.
      Neither failure is reported to the caller. */
  function UnmountPinPath(pin: string, faults: set<Call>, w: World): (w': World)
    ensures Extends(w', w)
    ensures Count(Since(w', w), Unmount(pin)) == 1 && Since(w', w)[0] == Unmount(pin)
    ensures RemoveAll(pin) in Since(w', w) <==> Unmounts(pin, faults, w)
    ensures Unmounts(pin, faults, w) ==> pin !in w'.mounts && (RemoveAll(pin) !in faults ==> pin !in w'.dirs)
    ensures !Unmounts(pin, faults, w) ==> w'.mounts == w.mounts && w'.dirs == w.dirs
    ensures w'.mounts - {pin} == w.mounts - {pin} && w'.dirs - {pin} == w.dirs - {pin}
  {
    var unmounted := UnmountCall(pin, faults, w);
    if !unmounted.value then unmounted.world
    else
      var removed := RemoveAllCall(pin, faults, unmounted.world);
      SinceChain(removed.world, unmounted.world, w);
      assert Since(removed.world, w) == [Unmount(pin), RemoveAll(pin)];
      removed.world
  }

  /** Tearing down twice changes nothing more than tearing down once: the second
      unmount fails and removes nothing. */
  lemma UnmountPinPathIdempotent(pin: string, faults: set<Call>, w: World)
    ensures var once := UnmountPinPath(pin, faults, w);
      var twice := UnmountPinPath(pin, faults, once);
      twice.mounts == once.mounts && twice.dirs == once.dirs && !Unmounts(pin, faults, once)
  {
  }
}
