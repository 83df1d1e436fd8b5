/**
  TracerProvider: from the configuration and the built-in tracers to the list of
  start functions handed to the pipeline. It resolves and inspects the target,
  picks the tracers that apply, opens the executable, lifts the memory lock,
  mounts the BPF pin path and loads and attaches every tracer, tearing the pin
  path down again when a tracer fails.
 */
module Provider {
  import opened Outcomes
  import opened Probes
  import opened Inspection
  import opened Kernel
  import opened PinPath

  /** A start function handed to the pipeline: the one that waits for the context
      to end and then tears down the pin path, or one tracer's `Run`. */
  datatype StartNode = WaitToClosePinPath(pinPath: string) | RunTracer(tracer: Tracer)

  /** The errors TracerProvider returns, one per failure point. */
  datatype ProviderError =
    | InspectingOffsets(inspectError: InspectError)
    | NoInstrumentableFunction
    | OpeningExecutable(path: string)
    | RemovingMemoryLock
    | MountingBpfFs(baseDir: string, mountError: MountError)
    | LoadingProgram(tracer: Tracer)
    | RewritingConstants(tracer: Tracer)
    | LoadingAndAssigning(tracer: Tracer)
    | AttachingGoProbes(tracer: Tracer)
    | AttachingKProbes(tracer: Tracer)
    | AttachingSocketFilters(tracer: Tracer)

  /** The errors raised while loading and attaching one tracer. */
  predicate IsAttachError(e: ProviderError)
  {
    e.LoadingProgram? || e.RewritingConstants? || e.LoadingAndAssigning? ||
    e.AttachingGoProbes? || e.AttachingKProbes? || e.AttachingSocketFilters?
  }

  /** The tracers to load: with Go offsets, those whose required functions were all
      found, and an error when none is left; without offsets, the generic tracer alone. */
  function Selection(programs: seq<Tracer>, offsets: Option<Offsets>): (r: Result<seq<Tracer>, ProviderError>)
    ensures offsets.None? ==> r == Ok([GenericTracer])
    ensures offsets.Some? ==>
      (r.Ok? <==> exists t :: t in programs && Applicable(t, offsets.value.funcs)) &&
      (r.Ok? ==> forall t :: t in r.value <==> t in programs && Applicable(t, offsets.value.funcs)) &&
      (r.Err? ==> r.error == NoInstrumentableFunction)
  {
    match offsets
    case None => Ok([GenericTracer])
    case Some(goffsets) =>
      var filtered := Filtered(programs, goffsets.funcs);
      if |filtered| == 0 then Err(NoInstrumentableFunction)
      else
        assert filtered[0] in filtered;
        Ok(filtered)
  }

  /** The outcome of loading tracers: the start nodes they contribute, or the error
      that stopped them; either way the world they leave. */
  datatype Attach = Attached(nodes: seq<StartNode>, world: World) | AttachFailed(error: ProviderError, world: World)

  /** A failure that tears the pin path down before returning. */
  function Abort(error: ProviderError, pin: string, faults: set<Call>, w: World): Attach
  {
    AttachFailed(error, UnmountPinPath(pin, faults, w))
  }

  /** The calls that load and attach one tracer, in the order they are made. */
  function AttachCalls(t: Tracer, pin: string): seq<Call>
  {
    [LoadSpec(t), RewriteConstants(t), LoadAndAssign(t, pin), AttachGoProbes(t), AttachKProbes(t), AttachSocketFilters(t)]
  }

  /** The error each of those calls raises when it fails, in the same order. */
  function AttachErrors(t: Tracer): seq<ProviderError>
  {
    [LoadingProgram(t), RewritingConstants(t), LoadingAndAssigning(t), AttachingGoProbes(t), AttachingKProbes(t), AttachingSocketFilters(t)]
  }

  /** One iteration of the provider's loop: load the tracer, rewrite its constants,
      load and assign its objects with maps pinned under `pin`, then attach its Go
      probes, kernel probes and socket filters. Every failure but the rewrite of
      constants unmounts the pin path first. */
  function AttachProgram(t: Tracer, pin: string, faults: set<Call>, w: World): Attach
  {
    var load := Attempt(LoadSpec(t), faults, w);
    if !load.value then Abort(LoadingProgram(t), pin, faults, load.world)
    else
      var rewrite := Attempt(RewriteConstants(t), faults, load.world);
      if !rewrite.value then AttachFailed(RewritingConstants(t), rewrite.world)
      else
        var assign := Attempt(LoadAndAssign(t, pin), faults, rewrite.world);
        if !assign.value then Abort(LoadingAndAssigning(t), pin, faults, assign.world)
        else
          var goProbes := Attempt(AttachGoProbes(t), faults, assign.world);
          if !goProbes.value then Abort(AttachingGoProbes(t), pin, faults, goProbes.world)
          else
            var kProbes := Attempt(AttachKProbes(t), faults, goProbes.world);
            if !kProbes.value then Abort(AttachingKProbes(t), pin, faults, kProbes.world)
            else
              var sockFilters := Attempt(AttachSocketFilters(t), faults, kProbes.world);
              if !sockFilters.value then Abort(AttachingSocketFilters(t), pin, faults, sockFilters.world)
              else Attached([RunTracer(t)], sockFilters.world)
  }

  /** Start nodes contributed in front of an outcome. */
  function Prepend(nodes: seq<StartNode>, a: Attach): Attach
  {
    match a
    case Attached(rest, w) => Attached(nodes + rest, w)
    case AttachFailed(_, _) => a
  }

  /** The provider's loop over the selected tracers: it stops at the first failure. */
  function AttachAll(ps: seq<Tracer>, pin: string, faults: set<Call>, w: World): Attach
    decreases |ps|
  {
    if ps == [] then Attached([], w)
    else
      match AttachProgram(ps[0], pin, faults, w)
      case AttachFailed(e, w') => AttachFailed(e, w')
      case Attached(nodes, w') => Prepend(nodes, AttachAll(ps[1..], pin, faults, w'))
  }

  /** The `Run` start node of each tracer, in order. */
  function RunNodes(ps: seq<Tracer>): (r: seq<StartNode>)
    ensures |r| == |ps| && forall i :: 0 <= i < |ps| ==> r[i] == RunTracer(ps[i])
  {
    if ps == [] then [] else [RunTracer(ps[0])] + RunNodes(ps[1..])
  }

  /** What loading tracers leaves behind, starting from `w`: on success no directory
      or mount changed and nothing was unmounted; on failure the pin path was
      unmounted exactly once, except after a failed rewrite of constants, which
      leaves everything mounted; the directory is removed only after the unmount
      succeeded. */
  ghost predicate Settled(a: Attach, pin: string, faults: set<Call>, w: World)
  {
    && Extends(a.world, w)
    && (a.Attached? ==> Quiet(pin, a.world, w))
    && (a.AttachFailed? ==>
          && IsAttachError(a.error)
          && Count(Since(a.world, w), Unmount(pin)) == (if a.error.RewritingConstants? then 0 else 1)
          && (RemoveAll(pin) in Since(a.world, w) <==> !a.error.RewritingConstants? && Unmounts(pin, faults, w))
          && a.world.dirs - {pin} == w.dirs - {pin} && a.world.mounts - {pin} == w.mounts - {pin}
          && (a.error.RewritingConstants? || !Unmounts(pin, faults, w) ==>
                a.world.dirs == w.dirs && a.world.mounts == w.mounts)
          && (!a.error.RewritingConstants? && Unmounts(pin, faults, w) ==>
                pin !in a.world.mounts && (RemoveAll(pin) !in faults ==> pin !in a.world.dirs)))
  }

  /** `w'` came from `w` through calls that touch no directory or mount and never
      unmount or remove `pin`. */
  predicate Quiet(pin: string, w': World, w: World)
  {
    Extends(w', w) && w'.dirs == w.dirs && w'.mounts == w.mounts &&
    Unmount(pin) !in Since(w', w) && RemoveAll(pin) !in Since(w', w)
  }

  lemma QuietStep(pin: string, c: Call, faults: set<Call>, w2: World, w1: World)
    requires Quiet(pin, w2, w1) && c != Unmount(pin) && c != RemoveAll(pin)
    ensures Quiet(pin, Attempt(c, faults, w2).world, w1)
  {
    SinceChain(Attempt(c, faults, w2).world, w2, w1);
  }

  lemma AbortSettled(error: ProviderError, pin: string, faults: set<Call>, w2: World, w1: World)
    requires Quiet(pin, w2, w1) && IsAttachError(error) && !error.RewritingConstants?
    ensures Settled(Abort(error, pin, faults, w2), pin, faults, w1)
  {
    var w3 := UnmountPinPath(pin, faults, w2);
    SinceChain(w3, w2, w1);
  }

  lemma QuietSettled(error: ProviderError, pin: string, faults: set<Call>, w2: World, w1: World)
    requires Quiet(pin, w2, w1) && error.RewritingConstants?
    ensures Settled(AttachFailed(error, w2), pin, faults, w1)
  {
  }

  /** One tracer leaves the pin path as `Settled` says. */
  lemma AttachProgramSettled(t: Tracer, pin: string, faults: set<Call>, w: World)
    ensures Settled(AttachProgram(t, pin, faults, w), pin, faults, w)
  {
    assert Quiet(pin, w, w) by { assert Since(w, w) == []; }
    var load := Attempt(LoadSpec(t), faults, w);
    QuietStep(pin, LoadSpec(t), faults, w, w);
    if !load.value {
      AbortSettled(LoadingProgram(t), pin, faults, load.world, w);
      return;
    }
    var rewrite := Attempt(RewriteConstants(t), faults, load.world);
    QuietStep(pin, RewriteConstants(t), faults, load.world, w);
    if !rewrite.value {
      return;
    }
    var assign := Attempt(LoadAndAssign(t, pin), faults, rewrite.world);
    QuietStep(pin, LoadAndAssign(t, pin), faults, rewrite.world, w);
    if !assign.value {
      AbortSettled(LoadingAndAssigning(t), pin, faults, assign.world, w);
      return;
    }
    var goProbes := Attempt(AttachGoProbes(t), faults, assign.world);
    QuietStep(pin, AttachGoProbes(t), faults, assign.world, w);
    if !goProbes.value {
      AbortSettled(AttachingGoProbes(t), pin, faults, goProbes.world, w);
      return;
    }
    var kProbes := Attempt(AttachKProbes(t), faults, goProbes.world);
    QuietStep(pin, AttachKProbes(t), faults, goProbes.world, w);
    if !kProbes.value {
      AbortSettled(AttachingKProbes(t), pin, faults, kProbes.world, w);
      return;
    }
    var sockFilters := Attempt(AttachSocketFilters(t), faults, kProbes.world);
    QuietStep(pin, AttachSocketFilters(t), faults, kProbes.world, w);
    if !sockFilters.value {
      AbortSettled(AttachingSocketFilters(t), pin, faults, sockFilters.world, w);
    }
  }

  /** One tracer is attached exactly when none of its six calls fails, and then
      contributes its `Run`; otherwise the error is that of the first call that
      failed. */
  lemma AttachProgramOutcome(t: Tracer, pin: string, faults: set<Call>, w: World)
    ensures var a := AttachProgram(t, pin, faults, w);
      && (a.Attached? <==> forall c :: c in AttachCalls(t, pin) ==> c !in faults)
      && (a.Attached? ==> a.nodes == [RunTracer(t)])
      && (a.AttachFailed? ==> exists k :: FirstFault(AttachCalls(t, pin), k, faults) && a.error == AttachErrors(t)[k])
  {
    AttachProgramFailure(t, pin, faults, w);
    if AttachProgram(t, pin, faults, w).AttachFailed? {
      FirstFailureIsFirstFault(t, pin, faults);
    }
  }

  /** The error of the first faulty call among the six, checked in order. */
  function FirstFailure(t: Tracer, pin: string, faults: set<Call>): ProviderError
  {
    if LoadSpec(t) in faults then LoadingProgram(t)
    else if RewriteConstants(t) in faults then RewritingConstants(t)
    else if LoadAndAssign(t, pin) in faults then LoadingAndAssigning(t)
    else if AttachGoProbes(t) in faults then AttachingGoProbes(t)
    else if AttachKProbes(t) in faults then AttachingKProbes(t)
    else AttachingSocketFilters(t)
  }

  lemma AttachProgramFailure(t: Tracer, pin: string, faults: set<Call>, w: World)
    ensures var a := AttachProgram(t, pin, faults, w);
      && (a.Attached? <==> forall c :: c in AttachCalls(t, pin) ==> c !in faults)
      && (a.Attached? ==> a.nodes == [RunTracer(t)])
      && (a.AttachFailed? ==> a.error == FirstFailure(t, pin, faults))
  {
  }

  lemma FirstFailureIsFirstFault(t: Tracer, pin: string, faults: set<Call>)
    requires exists c :: c in AttachCalls(t, pin) && c in faults
    ensures exists k :: FirstFault(AttachCalls(t, pin), k, faults) && FirstFailure(t, pin, faults) == AttachErrors(t)[k]
  {
    var calls := AttachCalls(t, pin);
    if LoadSpec(t) in faults {
      assert FirstFault(calls, 0, faults);
    } else if RewriteConstants(t) in faults {
      assert FirstFault(calls, 1, faults);
    } else if LoadAndAssign(t, pin) in faults {
      assert FirstFault(calls, 2, faults);
    } else if AttachGoProbes(t) in faults {
      assert FirstFault(calls, 3, faults);
    } else if AttachKProbes(t) in faults {
      assert FirstFault(calls, 4, faults);
    } else {
      assert FirstFault(calls, 5, faults);
    }
  }

  /** `calls[k]` is the first of `calls` that fails. */
  predicate FirstFault(calls: seq<Call>, k: int, faults: set<Call>)
  {
    0 <= k < |calls| && calls[k] in faults && forall j :: 0 <= j < k ==> calls[j] !in faults
  }
  /** An outcome settled from `w1` is settled from any `w` that `w1` quietly extends. */
  lemma SettledAfter(a: Attach, pin: string, faults: set<Call>, w1: World, w: World)
    requires Quiet(pin, w1, w) && Settled(a, pin, faults, w1)
    ensures Settled(a, pin, faults, w)
  {
    SinceChain(a.world, w1, w);
    assert Unmounts(pin, faults, w1) == Unmounts(pin, faults, w);
    assert multiset(Since(w1, w))[Unmount(pin)] == 0;
  }

  /** The loop over the selected tracers: it completes exactly when no call of any
      tracer fails, and then contributes one `Run` per tracer in order; otherwise
      it names a tracer of the list; in both cases the pin path is left as
      `Settled` says. */
  lemma {:induction false} AttachAllOutcome(ps: seq<Tracer>, pin: string, faults: set<Call>, w: World)
    ensures var a := AttachAll(ps, pin, faults, w);
      && Settled(a, pin, faults, w)
      && (a.Attached? <==> forall i, c :: 0 <= i < |ps| && c in AttachCalls(ps[i], pin) ==> c !in faults)
      && (a.Attached? ==> a.nodes == RunNodes(ps))
      && (a.AttachFailed? ==> exists i :: 0 <= i < |ps| && a.error.tracer == ps[i])
    decreases |ps|
  {
    if ps == [] {
      assert Since(w, w) == [];
    } else {
      AttachProgramSettled(ps[0], pin, faults, w);
      AttachProgramOutcome(ps[0], pin, faults, w);
      var first := AttachProgram(ps[0], pin, faults, w);
      if first.AttachFailed? {
        assert first.error.tracer == ps[0];
      } else {
        AttachAllOutcome(ps[1..], pin, faults, first.world);
        var rest := AttachAll(ps[1..], pin, faults, first.world);
        SettledAfter(rest, pin, faults, first.world, w);
        if rest.AttachFailed? {
          var i :| 0 <= i < |ps[1..]| && rest.error.tracer == ps[1..][i];
          assert rest.error.tracer == ps[i + 1];
        } else {
          forall i, c | 0 <= i < |ps| && c in AttachCalls(ps[i], pin) ensures c !in faults {
            if i > 0 {
              assert ps[i] == ps[1..][i - 1];
            }
          }
        }
      }
    }
  }

  /** The steps of TracerProvider between selection and the first tracer: open the
      executable through its /proc link, lift the memory lock, mount the pin path. */
  function Prepare(info: FileInfo, baseDir: string, pid: nat, faults: set<Call>, w: World)
    : Effect<Result<string, ProviderError>>
  {
    var exe := Attempt(OpenExecutable(info.proExeLinkPath), faults, w);
    if !exe.value then Effect(Err(OpeningExecutable(info.proExeLinkPath)), exe.world)
    else
      var memlock := Attempt(RemoveMemlock, faults, exe.world);
      if !memlock.value then Effect(Err(RemovingMemoryLock), memlock.world)
      else
        var mounted := MountPinPath(baseDir, pid, faults, memlock.world);
        match mounted.value
        case Err(e) => Effect(Err(MountingBpfFs(baseDir, e)), mounted.world)
        case Ok(pin) => Effect(Ok(pin), mounted.world)
  }

  /** Preparation yields the agent's pin path, mounted; on failure the mounts are as
      they were. Nothing is unmounted either way. */
  lemma PrepareOutcome(info: FileInfo, baseDir: string, pid: nat, faults: set<Call>, w: World)
    ensures var pin := PinPathFor(baseDir, pid);
      var r := Prepare(info, baseDir, pid, faults, w);
      && Extends(r.world, w)
      && Unmount(pin) !in Since(r.world, w)
      && (r.value.Ok? ==> r.value.value == pin && r.world.mounts == w.mounts + {pin} && pin in r.world.dirs)
      && (r.value.Err? ==>
            r.world.mounts == w.mounts &&
            (r.value.error.OpeningExecutable? || r.value.error.RemovingMemoryLock? || r.value.error.MountingBpfFs?))
      && (r.value.Ok? <==> OpenExecutable(info.proExeLinkPath) !in faults && RemoveMemlock !in faults && MountWorks(pin, faults, w))
      && (OpenExecutable(info.proExeLinkPath) in faults ==> r.value == Err(OpeningExecutable(info.proExeLinkPath)))
      && (OpenExecutable(info.proExeLinkPath) !in faults && RemoveMemlock in faults ==> r.value == Err(RemovingMemoryLock))
      && (OpenExecutable(info.proExeLinkPath) !in faults && RemoveMemlock !in faults && !MountWorks(pin, faults, w) ==>
            r.value == Err(MountingBpfFs(baseDir, MountFailure(pin, faults, w))))
  {
    PrepareEffects(info, baseDir, pid, faults, w);
    PrepareSteps(info, baseDir, pid, faults, w);
  }

  /** What preparation does to the world. */
  lemma PrepareEffects(info: FileInfo, baseDir: string, pid: nat, faults: set<Call>, w: World)
    ensures var pin := PinPathFor(baseDir, pid);
      var r := Prepare(info, baseDir, pid, faults, w);
      && Extends(r.world, w)
      && Unmount(pin) !in Since(r.world, w)
      && (r.value.Ok? ==> r.value.value == pin && r.world.mounts == w.mounts + {pin} && pin in r.world.dirs)
      && (r.value.Err? ==>
            r.world.mounts == w.mounts &&
            (r.value.error.OpeningExecutable? || r.value.error.RemovingMemoryLock? || r.value.error.MountingBpfFs?))
  {
    var exe := Attempt(OpenExecutable(info.proExeLinkPath), faults, w);
    if exe.value {
      var memlock := Attempt(RemoveMemlock, faults, exe.world);
      SinceChain(memlock.world, exe.world, w);
      if memlock.value {
        var mounted := MountPinPath(baseDir, pid, faults, memlock.world);
        SinceChain(mounted.world, memlock.world, w);
      }
    }
  }

  /** Which step of preparation fails, if any, and with which error. */
  lemma PrepareSteps(info: FileInfo, baseDir: string, pid: nat, faults: set<Call>, w: World)
    ensures var pin := PinPathFor(baseDir, pid);
      var r := Prepare(info, baseDir, pid, faults, w);
      && (r.value.Ok? <==> OpenExecutable(info.proExeLinkPath) !in faults && RemoveMemlock !in faults && MountWorks(pin, faults, w))
      && (OpenExecutable(info.proExeLinkPath) in faults ==> r.value == Err(OpeningExecutable(info.proExeLinkPath)))
      && (OpenExecutable(info.proExeLinkPath) !in faults && RemoveMemlock in faults ==> r.value == Err(RemovingMemoryLock))
      && (OpenExecutable(info.proExeLinkPath) !in faults && RemoveMemlock !in faults && !MountWorks(pin, faults, w) ==>
            r.value == Err(MountingBpfFs(baseDir, MountFailure(pin, faults, w))))
  {
    PrepareSucceeds(info, baseDir, pid, faults, w);
    PrepareMountFailure(info, baseDir, pid, faults, w);
  }

  lemma PrepareSucceeds(info: FileInfo, baseDir: string, pid: nat, faults: set<Call>, w: World)
    ensures var r := Prepare(info, baseDir, pid, faults, w);
      r.value.Ok? <==> OpenExecutable(info.proExeLinkPath) !in faults && RemoveMemlock !in faults &&
                       MountWorks(PinPathFor(baseDir, pid), faults, w)
  {
    var exe := Attempt(OpenExecutable(info.proExeLinkPath), faults, w);
    var memlock := Attempt(RemoveMemlock, faults, exe.world);
    assert memlock.world.dirs == w.dirs;
  }

  lemma PrepareMountFailure(info: FileInfo, baseDir: string, pid: nat, faults: set<Call>, w: World)
    ensures var pin := PinPathFor(baseDir, pid);
      var r := Prepare(info, baseDir, pid, faults, w);
      OpenExecutable(info.proExeLinkPath) !in faults && RemoveMemlock !in faults && !MountWorks(pin, faults, w) ==>
        r.value == Err(MountingBpfFs(baseDir, MountFailure(pin, faults, w)))
  {
    var pin := PinPathFor(baseDir, pid);
    var exe := Attempt(OpenExecutable(info.proExeLinkPath), faults, w);
    var memlock := Attempt(RemoveMemlock, faults, exe.world);
    if exe.value && memlock.value && !MountWorks(pin, faults, w) {
      var mounted := MountPinPath(baseDir, pid, faults, memlock.world);
      MountOnSameDirs(pin, faults, memlock.world, w);
      assert mounted.value == Err(MountFailure(pin, faults, w));
      assert Prepare(info, baseDir, pid, faults, w) == Effect(Err(MountingBpfFs(baseDir, mounted.value.error)), mounted.world);
    }
  }

  /** The part of TracerProvider after selection: prepare, then load every selected
      tracer. The wait-and-unmount node comes first in the result. */
  function Launch(info: FileInfo, selected: seq<Tracer>, baseDir: string, pid: nat, faults: set<Call>, w: World)
    : Effect<Result<seq<StartNode>, ProviderError>>
  {
    var prepared := Prepare(info, baseDir, pid, faults, w);
    match prepared.value
    case Err(e) => Effect(Err(e), prepared.world)
    case Ok(pin) => Conclude(pin, AttachAll(selected, pin, faults, prepared.world))
  }

  /** The provider's result once the tracers were loaded under `pin`. */
  function Conclude(pin: string, a: Attach): Effect<Result<seq<StartNode>, ProviderError>>
  {
    match a
    case AttachFailed(e, w') => Effect(Err(e), w')
    case Attached(nodes, w') => Effect(Ok([WaitToClosePinPath(pin)] + nodes), w')
  }

  /** What a launch that ended in `r`, from the world `w`, did to the pin path `pin`:
      on success the wait-and-unmount node comes first, then one `Run` per selected
      tracer in order, and the pin path is mounted. A failure before any tracer
      loads leaves the mounts as they were and unmounts nothing. A tracer failure
      unmounts the pin path once, except after a failed rewrite of constants, which
      leaves it mounted. */
  ghost predicate Launched(r: Effect<Result<seq<StartNode>, ProviderError>>, pin: string, selected: seq<Tracer>,
                           faults: set<Call>, w: World)
  {
    && Extends(r.world, w)
    && (r.value.Ok? ==>
          r.value.value == [WaitToClosePinPath(pin)] + RunNodes(selected) &&
          r.world.mounts == w.mounts + {pin} && Unmount(pin) !in Since(r.world, w))
    && (r.value.Err? ==> !r.value.error.InspectingOffsets? && !r.value.error.NoInstrumentableFunction?)
    && (r.value.Err? && !IsAttachError(r.value.error) ==>
          r.world.mounts == w.mounts && Unmount(pin) !in Since(r.world, w))
    && (r.value.Err? && IsAttachError(r.value.error) ==>
          && Count(Since(r.world, w), Unmount(pin)) == (if r.value.error.RewritingConstants? then 0 else 1)
          && (r.value.error.RewritingConstants? ==> r.world.mounts == w.mounts + {pin})
          && (!r.value.error.RewritingConstants? && Unmount(pin) !in faults ==>
                r.world.mounts == w.mounts - {pin} && (RemoveAll(pin) !in faults ==> pin !in r.world.dirs)))
  }

  /** Concluding after the tracers settled from the mounted world `wm`, itself
      reached from `w` without unmounting, is a launch as `Launched` says. */
  lemma ConcludeOutcome(pin: string, selected: seq<Tracer>, faults: set<Call>, a: Attach, wm: World, w: World)
    requires Extends(wm, w) && Unmount(pin) !in Since(wm, w) && wm.mounts == w.mounts + {pin}
    requires Settled(a, pin, faults, wm) && (a.Attached? ==> a.nodes == RunNodes(selected))
    ensures Launched(Conclude(pin, a), pin, selected, faults, w)
  {
    match a
    case Attached(nodes, wa) => ConcludeAttached(pin, selected, faults, nodes, wa, wm, w);
    case AttachFailed(e, wa) => ConcludeFailed(pin, selected, faults, e, wa, wm, w);
  }

  lemma ConcludeAttached(pin: string, selected: seq<Tracer>, faults: set<Call>, nodes: seq<StartNode>, wa: World, wm: World, w: World)
    requires Extends(wm, w) && Unmount(pin) !in Since(wm, w) && wm.mounts == w.mounts + {pin}
    requires Quiet(pin, wa, wm) && nodes == RunNodes(selected)
    ensures Launched(Effect(Ok([WaitToClosePinPath(pin)] + nodes), wa), pin, selected, faults, w)
  {
    SinceChain(wa, wm, w);
  }

  lemma ConcludeFailed(pin: string, selected: seq<Tracer>, faults: set<Call>, e: ProviderError, wa: World, wm: World, w: World)
    requires Extends(wm, w) && Unmount(pin) !in Since(wm, w) && wm.mounts == w.mounts + {pin}
    requires Settled(AttachFailed(e, wa), pin, faults, wm)
    ensures Launched(Effect(Err(e), wa), pin, selected, faults, w)
  {
    FailedUnmountCount(pin, faults, e, wa, wm, w);
    FailedMounts(pin, faults, e, wa, wm, w);
  }

  /** A tracer failure after mounting unmounts as often as `Settled` says. */
  lemma FailedUnmountCount(pin: string, faults: set<Call>, e: ProviderError, wa: World, wm: World, w: World)
    requires Extends(wm, w) && Unmount(pin) !in Since(wm, w)
    requires Settled(AttachFailed(e, wa), pin, faults, wm)
    ensures Extends(wa, w)
    ensures Count(Since(wa, w), Unmount(pin)) == (if e.RewritingConstants? then 0 else 1)
  {
    SinceChain(wa, wm, w);
    CountAppend(Since(wm, w), Since(wa, wm), Unmount(pin));
    assert Count(Since(wm, w), Unmount(pin)) == 0;
  }

  /** A tracer failure after mounting leaves the pin path mounted only after a
      failed rewrite of constants or a failed unmount. */
  lemma FailedMounts(pin: string, faults: set<Call>, e: ProviderError, wa: World, wm: World, w: World)
    requires wm.mounts == w.mounts + {pin}
    requires Settled(AttachFailed(e, wa), pin, faults, wm)
    ensures e.RewritingConstants? ==> wa.mounts == w.mounts + {pin}
    ensures !e.RewritingConstants? && Unmount(pin) !in faults ==>
      wa.mounts == w.mounts - {pin} && (RemoveAll(pin) !in faults ==> pin !in wa.dirs)
  {
    if !e.RewritingConstants? && Unmount(pin) !in faults {
      assert Unmounts(pin, faults, wm);
      assert wa.mounts == wa.mounts - {pin} == wm.mounts - {pin} == w.mounts - {pin};
    }
  }

  /** Launching, as `Launched` says, on the agent's pin path. */
  lemma LaunchOutcome(info: FileInfo, selected: seq<Tracer>, baseDir: string, pid: nat, faults: set<Call>, w: World)
    ensures Launched(Launch(info, selected, baseDir, pid, faults, w), PinPathFor(baseDir, pid), selected, faults, w)
  {
    var pin := PinPathFor(baseDir, pid);
    PrepareOutcome(info, baseDir, pid, faults, w);
    var prepared := Prepare(info, baseDir, pid, faults, w);
    if prepared.value.Ok? {
      var a := AttachAll(selected, pin, faults, prepared.world);
      assert Launch(info, selected, baseDir, pid, faults, w) == Conclude(pin, a);
      AttachAllOutcome(selected, pin, faults, prepared.world);
      ConcludeOutcome(pin, selected, faults, a, prepared.world, w);
    } else {
      assert Launch(info, selected, baseDir, pid, faults, w) == Effect(Err(prepared.value.error), prepared.world);
      PrepareFailedOutcome(prepared.value.error, prepared.world, pin, selected, faults, w);
    }
  }

  /** A failure during preparation is a launch as `Launched` says. */
  lemma PrepareFailedOutcome(e: ProviderError, wp: World, pin: string, selected: seq<Tracer>, faults: set<Call>, w: World)
    requires Extends(wp, w) && Unmount(pin) !in Since(wp, w) && wp.mounts == w.mounts
    requires e.OpeningExecutable? || e.RemovingMemoryLock? || e.MountingBpfFs?
    ensures Launched(Effect(Err(e), wp), pin, selected, faults, w)
  {
  }

  /** What TracerProvider returns, with the service name it left in the global
      context and the world after its calls. */
  datatype Provided = Provided(result: Result<seq<StartNode>, ProviderError>, serviceName: Option<string>, world: World)

  /** TracerProvider as a whole: inspect the target for the names every tracer asks
      for, select the tracers, then launch them under the agent's pin path. */
  ghost function Provide(cfg: TracerConfig, programs: seq<Tracer>, o: Oracles, pid: nat, faults: set<Call>, w: World): Provided
    requires FinderSound(o)
  {
    var inspected := InspectSpec(cfg, NamesOf(programs, |programs|), o);
    match inspected.result
    case Err(e) => Provided(Err(InspectingOffsets(e)), inspected.serviceName, w)
    case Ok(target) =>
      match Selection(programs, target.offsets)
      case Err(e) => Provided(Err(e), inspected.serviceName, w)
      case Ok(selected) =>
        var launched := Launch(target.info, selected, cfg.bpfBaseDir, pid, faults, w);
        Provided(launched.value, inspected.serviceName, launched.world)
  }

  /** Provide by cases: an inspection or selection failure returns before any call;
      otherwise the outcome is the launch of the selected tracers. */
  lemma ProvideCases(cfg: TracerConfig, programs: seq<Tracer>, o: Oracles, pid: nat, faults: set<Call>, w: World)
    requires FinderSound(o)
    ensures var p := Provide(cfg, programs, o, pid, faults, w);
      var r := InspectSpec(cfg, NamesOf(programs, |programs|), o).result;
      && (r.Err? ==> p.result == Err(InspectingOffsets(r.error)) && p.world == w)
      && (r.Ok? && Selection(programs, r.value.offsets).Err? ==> p.result == Err(NoInstrumentableFunction) && p.world == w)
      && (r.Ok? && Selection(programs, r.value.offsets).Ok? ==>
            var launched := Launch(r.value.info, Selection(programs, r.value.offsets).value, cfg.bpfBaseDir, pid, faults, w);
            p.result == launched.value && p.world == launched.world &&
            Launched(launched, PinPathFor(cfg.bpfBaseDir, pid), Selection(programs, r.value.offsets).value, faults, w))
  {
    var r := InspectSpec(cfg, NamesOf(programs, |programs|), o).result;
    if r.Ok? && Selection(programs, r.value.offsets).Ok? {
      LaunchOutcome(r.value.info, Selection(programs, r.value.offsets).value, cfg.bpfBaseDir, pid, faults, w);
    }
  }

  /** "no instrumentable function found" is returned exactly when the target has Go
      offsets and no tracer has all its required functions among them; it is
      returned before any call is made. */
  lemma ProvideNoInstrumentableFunction(cfg: TracerConfig, programs: seq<Tracer>, o: Oracles, pid: nat, faults: set<Call>, w: World)
    requires FinderSound(o)
    ensures var p := Provide(cfg, programs, o, pid, faults, w);
      var r := InspectSpec(cfg, NamesOf(programs, |programs|), o).result;
      && (p.result == Err(NoInstrumentableFunction) <==>
            r.Ok? && r.value.offsets.Some? && forall t :: t in programs ==> !Applicable(t, r.value.offsets.value.funcs))
      && (p.result == Err(NoInstrumentableFunction) ==> p.world == w)
  {
    ProvideCases(cfg, programs, o, pid, faults, w);
  }

  /** On success the result is the wait-and-unmount node for the agent's pin path
      followed by one `Run` per selected tracer, in order: the applicable Go tracers
      as an order-preserving subsequence of `programs` when Go offsets were found,
      the generic tracer alone otherwise; the pin path is then mounted. */
  lemma ProvideStartNodes(cfg: TracerConfig, programs: seq<Tracer>, o: Oracles, pid: nat, faults: set<Call>, w: World)
    requires FinderSound(o)
    ensures var p := Provide(cfg, programs, o, pid, faults, w);
      var r := InspectSpec(cfg, NamesOf(programs, |programs|), o).result;
      var pin := PinPathFor(cfg.bpfBaseDir, pid);
      p.result.Ok? ==>
        && r.Ok?
        && p.world.mounts == w.mounts + {pin}
        && |p.result.value| >= 2
        && p.result.value[0] == WaitToClosePinPath(pin)
        && (r.value.offsets.None? ==> p.result.value == [WaitToClosePinPath(pin), RunTracer(GenericTracer)])
        && (r.value.offsets.Some? ==>
              var funcs := r.value.offsets.value.funcs;
              p.result.value == [WaitToClosePinPath(pin)] + RunNodes(Filtered(programs, funcs)) &&
              IsSubsequence(Filtered(programs, funcs), programs))
  {
    var r := InspectSpec(cfg, NamesOf(programs, |programs|), o).result;
    ProvideCases(cfg, programs, o, pid, faults, w);
    if r.Ok? && Selection(programs, r.value.offsets).Ok? {
      var p := Provide(cfg, programs, o, pid, faults, w);
      SelectedStartNodes(p.result, PinPathFor(cfg.bpfBaseDir, pid), Selection(programs, r.value.offsets).value,
                         programs, r.value.offsets);
    }
  }

  /** The start nodes of a launch of the selected tracers, seen from the selection. */
  lemma SelectedStartNodes(result: Result<seq<StartNode>, ProviderError>, pin: string, selected: seq<Tracer>,
                           programs: seq<Tracer>, offsets: Option<Offsets>)
    requires Selection(programs, offsets) == Ok(selected)
    requires result.Ok? ==> result.value == [WaitToClosePinPath(pin)] + RunNodes(selected)
    ensures result.Ok? ==>
      && |result.value| >= 2
      && result.value[0] == WaitToClosePinPath(pin)
      && (offsets.None? ==> result.value == [WaitToClosePinPath(pin), RunTracer(GenericTracer)])
      && (offsets.Some? ==>
            result.value == [WaitToClosePinPath(pin)] + RunNodes(Filtered(programs, offsets.value.funcs)) &&
            IsSubsequence(Filtered(programs, offsets.value.funcs), programs))
  {
    if offsets.Some? {
      FilteredIsSubsequence(programs, offsets.value.funcs);
      var t :| t in programs && Applicable(t, offsets.value.funcs);
      assert t in selected;
    }
  }

  /** The failure paths: errors up to the mount touch no mount and unmount nothing;
      a tracer failure unmounts the pin path exactly once, except a failed rewrite
      of constants, which returns with the pin path still mounted. */
  lemma ProvideFailureCleanup(cfg: TracerConfig, programs: seq<Tracer>, o: Oracles, pid: nat, faults: set<Call>, w: World)
    requires FinderSound(o)
    ensures var p := Provide(cfg, programs, o, pid, faults, w);
      var pin := PinPathFor(cfg.bpfBaseDir, pid);
      && Extends(p.world, w)
      && (p.result.Err? && !IsAttachError(p.result.error) ==>
            p.world.mounts == w.mounts && Unmount(pin) !in Since(p.world, w))
      && (p.result.Err? && IsAttachError(p.result.error) ==>
            && Count(Since(p.world, w), Unmount(pin)) == (if p.result.error.RewritingConstants? then 0 else 1)
            && (p.result.error.RewritingConstants? ==> pin in p.world.mounts)
            && (!p.result.error.RewritingConstants? && Unmount(pin) !in faults ==> p.world.mounts == w.mounts - {pin}))
  {
    ProvideCases(cfg, programs, o, pid, faults, w);
    var r := InspectSpec(cfg, NamesOf(programs, |programs|), o).result;
    if r.Ok? && Selection(programs, r.value.offsets).Ok? {
      var selected := Selection(programs, r.value.offsets).value;
      LaunchCleanup(Launch(r.value.info, selected, cfg.bpfBaseDir, pid, faults, w),
                    PinPathFor(cfg.bpfBaseDir, pid), selected, faults, w);
    } else {
      var p := Provide(cfg, programs, o, pid, faults, w);
      EarlyFailureCleanup(p.result, p.world, PinPathFor(cfg.bpfBaseDir, pid), w);
    }
  }

  /** A failure before the launch makes no call. */
  lemma EarlyFailureCleanup(result: Result<seq<StartNode>, ProviderError>, world: World, pin: string, w: World)
    requires world == w && result.Err? && (result.error.InspectingOffsets? || result.error.NoInstrumentableFunction?)
    ensures Extends(world, w) && !IsAttachError(result.error)
    ensures world.mounts == w.mounts && Unmount(pin) !in Since(world, w)
  {
    assert Since(w, w) == [];
  }

  /** The failure paths of a launch, as `Launched` says. */
  lemma LaunchCleanup(r: Effect<Result<seq<StartNode>, ProviderError>>, pin: string, selected: seq<Tracer>,
                      faults: set<Call>, w: World)
    requires Launched(r, pin, selected, faults, w)
    ensures && (r.value.Err? && !IsAttachError(r.value.error) ==>
                  r.world.mounts == w.mounts && Unmount(pin) !in Since(r.world, w))
            && (r.value.Err? && IsAttachError(r.value.error) ==>
                  && Count(Since(r.world, w), Unmount(pin)) == (if r.value.error.RewritingConstants? then 0 else 1)
                  && (r.value.error.RewritingConstants? ==> pin in r.world.mounts)
                  && (!r.value.error.RewritingConstants? && Unmount(pin) !in faults ==> r.world.mounts == w.mounts - {pin}))
  {
  }

  /** Unmounting a pin path that only the provision mounted restores the mounts. */
  lemma UnmountRestores(pin: string, faults: set<Call>, wp: World, w: World)
    requires wp.mounts == w.mounts + {pin} && pin !in w.mounts && Unmount(pin) !in faults
    ensures UnmountPinPath(pin, faults, wp).mounts == w.mounts
  {
    var after := UnmountPinPath(pin, faults, wp);
    assert Unmounts(pin, faults, wp);
    assert after.mounts == after.mounts - {pin} == wp.mounts - {pin} == w.mounts;
  }

  /** After a successful provision, the first start node is the one whose
      cancellation runs unmountBpfPinPath on the agent's pin path; when that unmount
      works, it puts the mounts back as they were before the provision (unless the
      pin path was mounted already). */
  lemma ProvideThenCancel(cfg: TracerConfig, programs: seq<Tracer>, o: Oracles, pid: nat, faults: set<Call>, w: World)
    requires FinderSound(o)
    ensures var p := Provide(cfg, programs, o, pid, faults, w);
      var pin := PinPathFor(cfg.bpfBaseDir, pid);
      p.result.Ok? && Unmount(pin) !in faults && pin !in w.mounts ==>
        |p.result.value| > 0 && p.result.value[0] == WaitToClosePinPath(pin) &&
        UnmountPinPath(pin, faults, p.world).mounts == w.mounts
  {
    var p := Provide(cfg, programs, o, pid, faults, w);
    var pin := PinPathFor(cfg.bpfBaseDir, pid);
    ProvideStartNodes(cfg, programs, o, pid, faults, w);
    if p.result.Ok? && Unmount(pin) !in faults && pin !in w.mounts {
      UnmountRestores(pin, faults, p.world, w);
    }
  }

  /** TracerProvider. `programs` is the list of built-in Go tracers (net/http, Gin,
      gRPC, Go runtime), `pid` the agent's own process id; the world and the faulty
      calls stand for the kernel. The result is exactly `Provide`. */
  method TracerProvider(cfg: TracerConfig, programs: seq<Tracer>, o: Oracles, pid: nat, faults: set<Call>, w0: World)
    returns (p: Provided)
    requires FinderSound(o)
    ensures p == Provide(cfg, programs, o, pid, faults, w0)
  {
    var allFuncs := AllFunctionNames(programs);
    var inspected := Inspect(cfg, allFuncs, o);
    var serviceName := inspected.serviceName;
    if inspected.result.Err? {
      return Provided(Err(InspectingOffsets(inspected.result.error)), serviceName, w0);
    }
    var elfInfo := inspected.result.value.info;
    var goffsets := inspected.result.value.offsets;
    var selected: seq<Tracer>;
    if goffsets.Some? {
      selected := FilterNotFoundPrograms(programs, goffsets.value);
      if |selected| == 0 {
        return Provided(Err(NoInstrumentableFunction), serviceName, w0);
      }
    } else {
      selected := [GenericTracer];
    }
    assert Selection(programs, goffsets) == Ok(selected);
    var result, w := LaunchTracers(elfInfo, selected, cfg.bpfBaseDir, pid, faults, w0);
    return Provided(result, serviceName, w);
  }

  /** The second half of TracerProvider, from opening the executable to the list of
      start nodes; the result is exactly `Launch`. */
  method LaunchTracers(elfInfo: FileInfo, selected: seq<Tracer>, baseDir: string, pid: nat, faults: set<Call>, w0: World)
    returns (result: Result<seq<StartNode>, ProviderError>, w: World)
    ensures Effect(result, w) == Launch(elfInfo, selected, baseDir, pid, faults, w0)
  {
    w := w0;
    var exe := Attempt(OpenExecutable(elfInfo.proExeLinkPath), faults, w);
    w := exe.world;
    if !exe.value {
      return Err(OpeningExecutable(elfInfo.proExeLinkPath)), w;
    }
    var memlock := Attempt(RemoveMemlock, faults, w);
    w := memlock.world;
    if !memlock.value {
      return Err(RemovingMemoryLock), w;
    }
    var mounted := MountPinPath(baseDir, pid, faults, w);
    w := mounted.world;
    if mounted.value.Err? {
      return Err(MountingBpfFs(baseDir, mounted.value.error)), w;
    }
    var pinPath := mounted.value.value;
    assert Prepare(elfInfo, baseDir, pid, faults, w0) == Effect(Ok(pinPath), w);
    var attached := AttachTracers(selected, pinPath, faults, w);
    if attached.AttachFailed? {
      return Err(attached.error), attached.world;
    }
    return Ok([WaitToClosePinPath(pinPath)] + attached.nodes), attached.world;
  }

  /** TracerProvider's loop over the selected tracers, collecting their `Run` start
      nodes and stopping at the first failure; the result is exactly `AttachAll`. */
  method AttachTracers(selected: seq<Tracer>, pinPath: string, faults: set<Call>, w0: World) returns (a: Attach)
    ensures a == AttachAll(selected, pinPath, faults, w0)
  {
    var startNodes: seq<StartNode> := [];
    var w := w0;
    for i := 0 to |selected|
      invariant AttachAll(selected, pinPath, faults, w0) == Prepend(startNodes, AttachAll(selected[i..], pinPath, faults, w))
    {
      var attached := AttachTracer(selected[i], pinPath, faults, w);
      AttachAllStep(selected, i, pinPath, faults, w);
      if attached.AttachFailed? {
        return attached;
      }
      PrependTwice(startNodes, attached.nodes, AttachAll(selected[i + 1..], pinPath, faults, attached.world));
      w := attached.world;
      startNodes := startNodes + attached.nodes;
    }
    assert selected[|selected|..] == [];
    return Attached(startNodes, w);
  }

  /** Unfolding the loop over tracers at position `i`. */
  lemma AttachAllStep(ps: seq<Tracer>, i: nat, pin: string, faults: set<Call>, w: World)
    requires i < |ps|
    ensures AttachAll(ps[i..], pin, faults, w) ==
      match AttachProgram(ps[i], pin, faults, w)
      case AttachFailed(e, w') => AttachFailed(e, w')
      case Attached(nodes, w') => Prepend(nodes, AttachAll(ps[i + 1..], pin, faults, w'))
  {
    assert ps[i..][0] == ps[i] && ps[i..][1..] == ps[i + 1..];
  }

  lemma PrependTwice(first: seq<StartNode>, second: seq<StartNode>, a: Attach)
    ensures Prepend(first, Prepend(second, a)) == Prepend(first + second, a)
  {
    if a.Attached? {
      assert first + (second + a.nodes) == (first + second) + a.nodes;
    }
  }

  /** The body of TracerProvider's loop for one tracer; the result is exactly
      `AttachProgram`. */
  method AttachTracer(p: Tracer, pinPath: string, faults: set<Call>, w0: World) returns (a: Attach)
    ensures a == AttachProgram(p, pinPath, faults, w0)
  {
    var w := w0;
    var load := Attempt(LoadSpec(p), faults, w);
    w := load.world;
    if !load.value {
      return AttachFailed(LoadingProgram(p), UnmountPinPath(pinPath, faults, w));
    }
    var rewrite := Attempt(RewriteConstants(p), faults, w);
    w := rewrite.world;
    if !rewrite.value {
      return AttachFailed(RewritingConstants(p), w);
    }
    var assign := Attempt(LoadAndAssign(p, pinPath), faults, w);
    w := assign.world;
    if !assign.value {
      return AttachFailed(LoadingAndAssigning(p), UnmountPinPath(pinPath, faults, w));
    }
    var goProbes := Attempt(AttachGoProbes(p), faults, w);
    w := goProbes.world;
    if !goProbes.value {
      return AttachFailed(AttachingGoProbes(p), UnmountPinPath(pinPath, faults, w));
    }
    var kProbes := Attempt(AttachKProbes(p), faults, w);
    w := kProbes.world;
    if !kProbes.value {
      return AttachFailed(AttachingKProbes(p), UnmountPinPath(pinPath, faults, w));
    }
    var sockFilters := Attempt(AttachSocketFilters(p), faults, w);
    w := sockFilters.world;
    if !sockFilters.value {
      return AttachFailed(AttachingSocketFilters(p), UnmountPinPath(pinPath, faults, w));
    }
    return Attached([RunTracer(p)], w);
  }
}
