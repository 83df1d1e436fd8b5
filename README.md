# Beyla eBPF tracer provider, modelled in Dafny

This project models `TracerProvider` from Beyla (`pkg/ebpf/tracer.go`). Beyla is
an eBPF auto-instrumentation agent. Given the agent's configuration and its
built-in Go tracers (net/http, Gin, gRPC, Go runtime), `TracerProvider` does the
following:

1. It collects every Go function name that any tracer asks for
   (`allFunctionNames`).
2. It resolves the process to instrument and inspects its Go offsets
   (`inspect`, `inspectPort`). The port search skips Go proxies that expose
   only `runtime.*` functions. Resolution records the service name, taken from
   the last segment of the command path (`setGlobalServiceName`).
3. It selects the tracers:
   - with Go offsets, those whose required functions were all found
     (`filterNotFoundPrograms`), and an error when none is left;
   - without offsets, the generic kernel/socket-filter HTTP tracer alone.
4. It opens the executable and removes the memory lock.
5. It mounts a BPF file system on `<BpfBaseDir>/<pid>` (`mountBpfPinPath`).
6. It loads, rewrites, assigns and attaches every selected tracer. A failure
   tears the pin path down again (`unmountBpfPinPath`). On success it returns
   the start nodes: first the node that waits for cancellation and then
   unmounts (`waitToCloseBbfPinPath`), then one `Run` per tracer.

The modules follow that structure:

- `outcomes.dfy`: `Option` and `Result`.
- `paths.dfy`: `Paths`, the string handling. It covers the last path segment,
  `strconv.Itoa`, and `path.Join` of one element.
- `probes.dfy`: `Probes`. It holds the `Tracer` interface as the provider
  sees it: the tracer's kind and its `GoProbes()` table. It also holds
  `allFunctionNames` and `filterNotFoundPrograms`, both written as loops.
- `inspection.dfy`: `Inspection`. It models `inspect` and `inspectPort` as
  methods, each proved equal to a specification function (`InspectSpec`,
  `PortSearch`).
- `kernel.dfy`: `Kernel`. The OS is a value `World`: the existing
  directories, the mounted paths and a log of every call made. Every OS or
  kernel call is a step on it. A given set of faulty calls decides which
  calls fail.
- `pinpath.dfy`: `PinPath`. It models mounting and unmounting the pin path.
- `provider.dfy`: `Provider`. It holds the selection, the per-tracer attach
  sequence, the loop over tracers and `TracerProvider` itself. The method
  `TracerProvider` and its three helper methods are each proved equal to
  specification functions (`Provide`, `Launch`, `AttachAll`, `AttachProgram`).
  The lemmas state what those functions guarantee.

In three places the code behaves differently from what one might expect of a
provider that cleans up after itself. The model follows the code in each:

- **System-wide mode and the port search.** The port search (`inspectPort`)
  ignores `SystemWide`: it inspects offsets and sets the service name even in
  system-wide mode. `Inspection.InspectByPort` proves that the outcome does not
  depend on that flag.
- **A failed rewrite of constants does not unmount.** After
  `RewriteConstants` fails, the provider returns without unmounting, so the pin
  path stays mounted (`tracer.go:129-131`). Every other attach failure unmounts
  first. `Provider.AttachProgramSettled` and `Provider.ProvideFailureCleanup`
  state both behaviours.
- **A failed unmount skips the removal.** When the forced unmount fails, the
  pin-path directory is not removed (`tracer.go:203-206`); it is removed only
  after a successful unmount. `PinPath.UnmountPinPath` states this.

## Model

| member | source | states |
|---|---|---|
| Paths.LastSegment | pkg/ebpf/tracer.go:250-253 | The service name is the last element of splitting the command path on '/'. It holds no '/' and is a suffix of the path. When it is shorter than the path, a '/' precedes it. A path without '/' is its own name. |
| Paths.LastSegmentAfterSlash | pkg/ebpf/tracer.go:251-252 | Whatever precedes the last '/', the segment after it is the service name. |
| Paths.DecimalRoundTrip | pkg/ebpf/tracer.go:173 | Reading the decimal form of the pid back yields the pid, so the directory name identifies the process. |
| Paths.JoinName | pkg/ebpf/tracer.go:173 | Joining the pid onto the base directory makes the pid the last path element. An empty base gives the pid alone. A base without a trailing '/' gives `base/pid`. |
| PinPath.PinPathFor | pkg/ebpf/tracer.go:173 | The pin path is `BpfBaseDir/<pid>`, and its last segment is the decimal pid. |
| PinPath.PinPathKeyedByPid | pkg/ebpf/tracer.go:173 | Two agent processes with different pids never share a pin path, whatever their base directories. |
| PinPath.MountPinPath | pkg/ebpf/tracer.go:172-187 | It succeeds exactly when stat succeeds, the directory exists or is created, and the mount succeeds (`MountWorks`). On failure the error is that of the first failing step (`MountFailure`): the stat error, the directory creation, or the mount. On success it returns the pin path, which exists as a directory and is added to the mounts. On failure the mounts are unchanged. The directory is created exactly when stat reports it does not exist. A stat error other than "does not exist" fails before any change to the directories. Nothing is unmounted. |
| PinPath.MountAt | pkg/ebpf/tracer.go:176-186 | The same, for a given path: stat, create only on "does not exist", then mount. It succeeds exactly when all three steps work. Otherwise it fails with the error of the first failing step. |
| PinPath.BpfMount | pkg/ebpf/tracer.go:186 | The mount is one call. It succeeds exactly when it is not faulty and the directory exists, and only then is the path added to the mounts. |
| PinPath.UnmountPinPath | pkg/ebpf/tracer.go:200-213 | The forced unmount is attempted exactly once, as the first call. The directory is removed only if the unmount succeeded. After a successful unmount the path is no longer mounted; it is gone from the directories unless removal failed. After a failed unmount nothing changes. Other paths are never touched. |
| PinPath.UnmountPinPathIdempotent | pkg/ebpf/tracer.go:200-213 | After a successful unmount, a second teardown finds nothing mounted and changes nothing. After a failed unmount, the second teardown also fails, because a faulty call fails every time it is made (see Left out). |
| Probes.AllFunctionNames | pkg/ebpf/tracer.go:235-248 | The result has no duplicates. Its elements are exactly the union of all tracers' `GoProbes()` keys. A name introduced by an earlier tracer comes before one introduced by a later tracer. |
| Probes.NamesOfMembers | pkg/ebpf/tracer.go:238-239 | A name is in the union of the first n tables exactly when one of those tracers requests it. |
| Probes.IntroductionOrder | pkg/ebpf/tracer.go:238-244 | If a list is grouped by the tracer that first asks for each name, names introduced by earlier tracers come first. |
| Probes.Filtered | pkg/ebpf/tracer.go:217-233 | A tracer is kept exactly when it is in the input and all its required functions were found. The result is never longer than the input. |
| Probes.FilterNotFoundPrograms | pkg/ebpf/tracer.go:217-233 | The loop's result is exactly `Filtered` of the tracers and the found functions. |
| Probes.FilteredIsSubsequence | pkg/ebpf/tracer.go:217-233 | The kept tracers are an order-preserving subsequence of the input. |
| Probes.OptionalProbesNeverExclude | pkg/ebpf/tracer.go:222-225 | Adding an optional (non-required) function to a tracer never changes whether it is kept. |
| Inspection.RejectShrinks | pkg/ebpf/tracer.go:286-315 | A rejected pid was not rejected before, and each rejection shrinks the set of pids still on offer, so the port search ends. |
| Inspection.PortSearchOutcome | pkg/ebpf/tracer.go:284-316 | An accepted process was offered by the port finder and was never rejected. Its offsets are the inspector's answer, and when present they show a non-runtime function. The service name is that process's. An error only comes from a finder that found nothing. Conversely, a finder that finds nothing ends the search with an error and the service name set so far. An offered process whose inspection fails, or that shows a non-runtime function, is accepted at once with its offsets and its service name. |
| Inspection.PortSearchSkipsRuntimeOnly | pkg/ebpf/tracer.go:306-314 | A candidate whose functions are all `runtime.*` (or that has none) is rejected. The search continues with its pid excluded and its service name already set. |
| Inspection.InspectPort | pkg/ebpf/tracer.go:284-316 | The loop returns exactly what the port search specifies. |
| Inspection.ShowsApplicationFunction | pkg/ebpf/tracer.go:307-312 | The scan answers true exactly when some discovered function is not a `runtime.` function. |
| Inspection.Inspect | pkg/ebpf/tracer.go:255-280 | `inspect` returns exactly `InspectSpec`. A set port decides the lookup; otherwise the process is looked up by name. |
| Inspection.InspectByName | pkg/ebpf/tracer.go:261-279 | Lookup by name fails exactly when no process matches. An offset-inspection error is swallowed and leaves the offsets absent. In system-wide mode there are neither offsets nor a service name; otherwise both come from the found process. |
| Inspection.InspectByPort | pkg/ebpf/tracer.go:257-259 | With a port set, the outcome is the same in system-wide mode and outside it. Accepted Go offsets show a non-runtime function. An error only comes from the finder. |
| Inspection.ProxyInFrontOfApplication | pkg/ebpf/tracer.go:282-316 | A Go proxy that exposes only `runtime.main` is skipped. The application behind it on the same port is accepted with its offsets and its service name. |
| Provider.Selection | pkg/ebpf/tracer.go:84-93 | Without offsets, the generic tracer alone. With offsets, the selection succeeds exactly when some tracer applies; it then holds exactly the applicable tracers, and otherwise fails with "no instrumentable function". |
| Provider.AttachProgramSettled | pkg/ebpf/tracer.go:121-166 | A tracer that loads and attaches touches no mount and never unmounts. A tracer failure unmounts the pin path exactly once, except a failed rewrite of constants, which leaves everything mounted. The directory is removed only after a successful unmount. |
| Provider.AttachProgramOutcome | pkg/ebpf/tracer.go:124-166 | A tracer is attached exactly when none of its six calls fails, and then it contributes its `Run`. Otherwise the error is that of the first call that failed. |
| Provider.AttachTracer | pkg/ebpf/tracer.go:124-166 | The body of the loop returns exactly `AttachProgram`. |
| Provider.AttachAllOutcome | pkg/ebpf/tracer.go:121-167 | The loop completes exactly when no call of any tracer fails, and then yields one `Run` per selected tracer, in order. Otherwise the error names a selected tracer. In both cases the pin path is left as for one tracer. |
| Provider.AttachTracers | pkg/ebpf/tracer.go:117-167 | The loop over tracers, stopping at the first failure, returns exactly `AttachAll`. |
| Provider.PrepareOutcome | pkg/ebpf/tracer.go:97-108 | Preparation succeeds exactly when the executable opens, the memory lock is lifted and the mount works. It then yields the agent's pin path, mounted and existing. Otherwise the error is that of the first failing step: opening the executable, removing the memory lock, or mounting with the mount's own error. On failure the mounts are unchanged. Nothing is unmounted. |
| Provider.LaunchOutcome | pkg/ebpf/tracer.go:97-169 | A success returns the wait-and-unmount node, then one `Run` per selected tracer in order, with the pin path mounted. A failure before any tracer loads changes no mount and unmounts nothing. A tracer failure unmounts once, except after a failed rewrite of constants. |
| Provider.LaunchTracers | pkg/ebpf/tracer.go:95-169 | The second half of the provider returns exactly `Launch`. |
| Provider.TracerProvider | pkg/ebpf/tracer.go:64-170 | The provider returns exactly `Provide`: inspect the target for all tracers' names, select, then launch. |
| Provider.ProvideNoInstrumentableFunction | pkg/ebpf/tracer.go:84-88 | "no instrumentable function found" is returned exactly when Go offsets exist and no tracer has all its required functions among them. It is returned before any OS call. |
| Provider.ProvideStartNodes | pkg/ebpf/tracer.go:114-169 | On success the pin path is mounted and there are at least two start nodes, the wait node first. Without offsets the list is the wait node and the generic tracer's `Run`. With offsets it is one `Run` per applicable tracer, in the tracers' order. |
| Provider.ProvideFailureCleanup | pkg/ebpf/tracer.go:79-164 | Errors up to the mount change no mount and unmount nothing. A tracer failure unmounts the pin path exactly once; when that works, the mounts are those from before with the pin path removed. A failed rewrite of constants unmounts nothing and leaves the pin path mounted. |
| Provider.ProvideThenCancel | pkg/ebpf/tracer.go:191-198 | After a success the first start node is the one whose cancellation unmounts the agent's pin path. If the pin path was not mounted before and the unmount works, that puts the mounts back as they were. |

## Left out

- Logging (`slog`) and `printVerifierErrorInfo` have no effect on the results and are not modelled.
- The concurrent execution of the start nodes is left out: the tracers' `Run` bodies and the goroutine that waits on the context. A start node is a value naming the tracer or the pin path. `Provider.ProvideThenCancel` states what cancelling the wait node does.
- Closing the ELF handle (`defer execElf.ELF.Close()`) and the executable handle's lifetime are not modelled.
- Process discovery (`exec.ProcessNamed`, `exec.OwnedPort`, `FindExecELF`) and `goexec.InspectOffsets` are given as function parameters; their code is not part of this model. An `InspectOffsets` error is modelled as absent offsets, which is what the provider goes on with.
- The inspector receives the set of function names, not the list. Go's map iteration order makes the list's order within one tracer arbitrary, and the inspector only looks the names up.
- `Inspection.InspectPort`: the loop is modelled as ending because the port finder draws from a finite set of pids and never offers a rejected one. The source loops for as long as the finder keeps offering processes.
- `Probes.AllFunctionNames`: only the order between tracers is stated, not the order within one tracer. Within a tracer the source follows Go's unspecified map iteration order.
- `Provider.AttachAllOutcome`: on failure it states only that the error names one of the selected tracers. `Provider.AttachProgramOutcome` gives the exact error for one tracer.
- The global service-name context is returned as a value (`serviceName`) rather than written into a shared context.
- The process id (`os.Getpid`) and the tracer tables are parameters. The contents of `Constants`, `BpfObjects`, `KProbes` and `SocketFilters` are not modelled: loading and attaching are single fallible kernel calls.
- `path.Join` is modelled for a single element with no '/'. It trims trailing '/' from the base directory, but does not clean `.`, `..` or repeated separators inside it.
- Failures of the kernel and OS calls are decided by a given set of faulty calls. Which errors the kernel actually raises, and why, is not modelled.
- PinPath.UnmountPinPathIdempotent: a call in the set of faulty calls fails every time it is made. After a failed forced unmount, the second teardown therefore fails as well. The source makes no such promise: a transient unmount failure followed by a successful retry would remove the directory. Retries against changing faults are not modelled.
