/**
  The OS and kernel calls the provider makes, as fallible steps on a model of the
  world: the directories that exist, the file systems mounted, and the log of every
  call made. Which calls fail is decided by a set of faulty calls given from outside.
 */
module Kernel {
  import opened Probes

  /** One call across the OS/kernel boundary. */
  datatype Call =
    | OpenExecutable(path: string)        // link.OpenExecutable
    | RemoveMemlock                       // rlimit.RemoveMemlock
    | Stat(path: string)                  // os.Stat
    | MkdirAll(path: string)              // os.MkdirAll
    | Mount(path: string)                 // bpfMount
    | Unmount(path: string)               // unix.Unmount with MNT_FORCE
    | RemoveAll(path: string)             // os.RemoveAll
    | LoadSpec(tracer: Tracer)            // Tracer.Load
    | RewriteConstants(tracer: Tracer)    // CollectionSpec.RewriteConstants
    | LoadAndAssign(tracer: Tracer, pinPath: string)  // CollectionSpec.LoadAndAssign
    | AttachGoProbes(tracer: Tracer)      // instrumenter.goprobes
    | AttachKProbes(tracer: Tracer)       // instrumenter.kprobes
    | AttachSocketFilters(tracer: Tracer) // instrumenter.sockfilters

  datatype World = World(dirs: set<string>, mounts: set<string>, log: seq<Call>)

  /** The outcome of a call and the world it leaves. */
  datatype Effect<T> = Effect(value: T, world: World)

  /** `w'` came from `w` by making more calls. */
  predicate Extends(w': World, w: World)
  {
    |w.log| <= |w'.log| && w'.log[..|w.log|] == w.log
  }

  /** The calls made since `w`. */
  function Since(w': World, w: World): seq<Call>
    requires Extends(w', w)
  {
    w'.log[|w.log|..]
  }

  /** How many times `c` occurs in `calls`. */
  function Count(calls: seq<Call>, c: Call): nat
  {
    multiset(calls)[c]
  }

  lemma CountAppend(a: seq<Call>, b: seq<Call>, c: Call)
    ensures Count(a + b, c) == Count(a, c) + Count(b, c)
  {
    assert multiset(a + b) == multiset(a) + multiset(b);
  }

  lemma SinceChain(w3: World, w2: World, w1: World)
    requires Extends(w2, w1) && Extends(w3, w2)
    ensures Extends(w3, w1)
    ensures Since(w3, w1) == Since(w2, w1) + Since(w3, w2)
  {
    assert w3.log[..|w1.log|] == w3.log[..|w2.log|][..|w1.log|];
  }

  function Record(c: Call, w: World): (w': World)
    ensures Extends(w', w) && Since(w', w) == [c]
  {
    w.(log := w.log + [c])
  }

  /** A call that changes no directory or mount: it fails exactly when faulty. */
  function Attempt(c: Call, faults: set<Call>, w: World): (e: Effect<bool>)
    ensures Extends(e.world, w) && Since(e.world, w) == [c]
    ensures e.value <==> c !in faults
    ensures e.world.dirs == w.dirs && e.world.mounts == w.mounts
  {
    Effect(c !in faults, Record(c, w))
  }

  datatype StatResult = Exists | NotExist | StatError

  /** os.Stat: a faulty stat reports an error other than "does not exist". */
  function StatCall(p: string, faults: set<Call>, w: World): (e: Effect<StatResult>)
    ensures Extends(e.world, w) && Since(e.world, w) == [Stat(p)]
    ensures e.world.dirs == w.dirs && e.world.mounts == w.mounts
    ensures e.value == StatError <==> Stat(p) in faults
    ensures e.value == NotExist <==> Stat(p) !in faults && p !in w.dirs
  {
    var result := if Stat(p) in faults then StatError else if p in w.dirs then Exists else NotExist;
    Effect(result, Record(Stat(p), w))
  }

  function MkdirAllCall(p: string, faults: set<Call>, w: World): (e: Effect<bool>)
    ensures Extends(e.world, w) && Since(e.world, w) == [MkdirAll(p)]
    ensures e.value <==> MkdirAll(p) !in faults
    ensures e.world.dirs == (if e.value then w.dirs + {p} else w.dirs) && e.world.mounts == w.mounts
  {
    if MkdirAll(p) in faults then Effect(false, Record(MkdirAll(p), w))
    else Effect(true, Record(MkdirAll(p), w).(dirs := w.dirs + {p}))
  }

  /** Mounting needs the directory. */
  function MountCall(p: string, faults: set<Call>, w: World): (e: Effect<bool>)
    ensures Extends(e.world, w) && Since(e.world, w) == [Mount(p)]
    ensures e.value <==> Mount(p) !in faults && p in w.dirs
    ensures e.world.mounts == (if e.value then w.mounts + {p} else w.mounts) && e.world.dirs == w.dirs
  {
    if Mount(p) in faults || p !in w.dirs then Effect(false, Record(Mount(p), w))
    else Effect(true, Record(Mount(p), w).(mounts := w.mounts + {p}))
  }

  /** Unmounting fails on what is not mounted. */
  function UnmountCall(p: string, faults: set<Call>, w: World): Effect<bool>
  {
    if Unmount(p) in faults || p !in w.mounts then Effect(false, Record(Unmount(p), w))
    else Effect(true, Record(Unmount(p), w).(mounts := w.mounts - {p}))
  }

  /** Removing fails on what is still mounted; removing what is absent succeeds. */
  function RemoveAllCall(p: string, faults: set<Call>, w: World): Effect<bool>
  {
    if RemoveAll(p) in faults || p in w.mounts then Effect(false, Record(RemoveAll(p), w))
    else Effect(true, Record(RemoveAll(p), w).(dirs := w.dirs - {p}))
  }
}
