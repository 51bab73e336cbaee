# kubernetes-mesos PodTask: offer matching and task binding

This project models the binding engine of the kubernetes-mesos scheduler in
`pkg/scheduler/pod_task.go`. A `PodTask` is one attempt to run a Kubernetes
pod on a Mesos offer. It works in four steps:

- It probes offers with `AcceptOffer`. An offer fits when the default host-port
  mapper finds every required host port inside the offer's "ports" ranges, and
  the offer's last "cpus" and "mem" scalars reach 0.25 CPU and 64 MB.
- It records a binding with `FillFromDetails`. This writes the task id, the
  slave id, the executor's resources, the ports resource and the port mapping.
- It drops the binding again with `ClearTaskInfo`.
- It is created by the validating factory `newPodTask`, and copied for a
  retry with `dup`.

The model has five modules, one per file:

- `Wrappers` (`wrappers.dfy`): the `Option` and `Result` types.
- `Api` (`api.dfy`): the part of the Kubernetes pod that the engine reads.
- `Mesos` (`mesos.dfy`): offers, resources and closed port ranges. It also
  holds Go's `uint64(int)` conversion and the last-write-wins reading of
  scalar resources.
- `HostPorts` (`host_ports.dfy`): `defaultHostPortMapping` as an imperative
  method, one method per loop nest. It is proved against the relational
  specification `MapsHostPorts`, and the mapper's properties are lemmas about
  that specification.
- `Scheduler` (`pod_task.dfy`): the `TaskInfo` and `PodTask` classes and the
  factory.

Go's map iteration order is unspecified. The mapper's loops over
`requiredPorts` therefore pick keys with a nondeterministic `:|` choice. As a
result, the specification fixes the mapping only as a duplicate-free list of
known entries, and the unsatisfied ports only as a multiset.

External helpers become parameters of the members that call them:

- `newTaskID` and `rangeResource` are function-valued parameters of
  `FillFromDetails`.
- `makePodKey`, the UUID and the clock reading are parameters of `NewPodTask`
  and `Dup`.

Some behaviours of the code are easy to miss. The model keeps each of them:

- A successful `FillFromDetails` does not store the offer in `t.Offer`
  (pod_task.go:47-75). After a bind, `hasAcceptedOffer` is true while
  `GetOfferId` still answers with the previously held offer's id, or "".
- A duplicate host port is reported with the first clash in container/port
  order (pod_task.go:198-200). When three or more declarations share a port, or
  another port clashes earlier, the error names that first clash.
  `DuplicateHostPortFails` states exactly which pair is reported.
- `AcceptOffer` and `FillFromDetails` do not check whether the task is already
  bound or launched, and the model does not require it either.
- `AcceptOffer` reads only the last resource named "cpus" and the last named
  "mem": later entries overwrite earlier ones rather than adding up.

## Model

| member | source | states |
|---|---|---|
| Mesos.ToUint64 | pkg/scheduler/pod_task.go:196 | `uint64(port.HostPort)` is congruent to the host port modulo 2^64. It is the identity on non-negative ports. It is zero exactly when the host port is zero. |
| Mesos.PortRanges | pkg/scheduler/pod_task.go:204-206 | A range is read by the matching loops exactly when some resource named "ports" lists it. |
| Mesos.LastScalarIsLastWrite | pkg/scheduler/pod_task.go:97-105 | Later "cpus"/"mem" entries overwrite earlier ones. The value read is the scalar of the last resource with that name. |
| Mesos.LastScalarAbsent | pkg/scheduler/pod_task.go:93-105 | A resource name absent from the offer reads as the initial 0. |
| HostPorts.ContainerEntriesSpec | pkg/scheduler/pod_task.go:189-197 | One container's required entries are exactly its nonzero host-port declarations (container index, port index, `uint64` host port), in port order. |
| HostPorts.PodEntriesSpec | pkg/scheduler/pod_task.go:185-197 | The pod's required entries are exactly its nonzero host-port declarations, in container/port order. |
| HostPorts.ScanRequiredSpec | pkg/scheduler/pod_task.go:198-201 | Collecting the required ports succeeds exactly when no host port repeats. The resulting map holds every entry under its own port. On failure the error names the first entry whose port repeats and the earlier entry holding that port. |
| HostPorts.CollectRequiredPorts | pkg/scheduler/pod_task.go:179-203 | The first pair of loops builds the required-port map, or stops at the first duplicate, exactly as the scan over the pod's entries does. |
| HostPorts.MatchOfferRanges | pkg/scheduler/pod_task.go:204-218 | After walking every "ports" resource, a required port is still required exactly when no offered range covers it. Every matched entry is in the mapping once. |
| HostPorts.MatchResourceRanges | pkg/scheduler/pod_task.go:206-216 | Over the ranges of one resource, a port stays required exactly when it was required and none of these ranges contains it. |
| HostPorts.MatchRange | pkg/scheduler/pod_task.go:207-215 | Visiting the required ports in any order, exactly those inside [begin, end] move from the required map to the mapping. The mapping keeps distinct ports. |
| HostPorts.KeysInSomeOrder | pkg/scheduler/pod_task.go:224-226 | The unsatisfied-ports list holds each remaining key exactly once, in map iteration order. |
| HostPorts.DefaultHostPortMapping | pkg/scheduler/pod_task.go:178-230 | The mapper's result meets `MapsHostPorts`. A duplicate yields `DuplicateHostPortError`. Full coverage yields the duplicate-free list of all required entries. Anything else yields `PortAllocationError` with the pod name and exactly the uncovered ports. |
| HostPorts.ZeroPortsNoEntries | pkg/scheduler/pod_task.go:190-192 | A container whose host ports are all 0 requires nothing. |
| HostPorts.NoHostPortsNoEntries | pkg/scheduler/pod_task.go:185-192 | A pod whose host ports are all 0 requires nothing. |
| HostPorts.ZeroHostPortsIgnored | pkg/scheduler/pod_task.go:185-192 | A pod whose host ports are all 0 maps successfully to the empty mapping on every offer, even one without port ranges. |
| HostPorts.DuplicateHostPortFails | pkg/scheduler/pod_task.go:198-200 | When two distinct declarations share a nonzero host port, the mapper fails with `DuplicateHostPortError` on every offer. `m1` is the earlier declaration and `m2` the first declaration that repeats a port, in container/port order. |
| HostPorts.FirstDuplicateIsFirstClash | pkg/scheduler/pod_task.go:185-201 | The clash the scan reports, stated on the declarations: both entries are real declarations with the same port, and `m1` comes before `m2`. `m1` is the only earlier declaration with that port, and no two declarations before `m2` share a port. |
| HostPorts.DuplicateIgnoresOffer | pkg/scheduler/pod_task.go:198-200 | A duplicate-port error is the same whichever offer is tried. |
| HostPorts.MappingBackedByRanges | pkg/scheduler/pod_task.go:204-218 | Every assigned entry is a real nonzero declaration. Its port lies in a range of a "ports" resource of the offer. No port is assigned twice. |
| HostPorts.SucceedsIffCovered | pkg/scheduler/pod_task.go:204-229 | For a duplicate-free pod, the mapper succeeds exactly when every declared host port is covered. On success the mapping holds each declaration once. On failure the error names the pod and lists exactly the uncovered ports, each once. |
| Scheduler.OfferPorts | pkg/scheduler/pod_task.go:65-68 | The list built by appending each entry's host port is as long as the mapping and holds, at each position, that entry's host port. |
| Scheduler.CollectOfferPorts | pkg/scheduler/pod_task.go:65-68 | The append loop produces exactly that list. |
| Scheduler.ExecutorResources | pkg/scheduler/pod_task.go:57-60 | The resources written before any ports read back as exactly the executor's baselines, 0.25 "cpus" and 64 "mem". They contribute no port range. |
| Scheduler.PortsResource | pkg/scheduler/pod_task.go:70-72 | At most one resource is appended. It is the one `rangeResource` builds for "ports" from the mapping's host ports, in mapping order, and nothing is appended when it builds none. |
| Scheduler.PodTask.HasAcceptedOffer | pkg/scheduler/pod_task.go:34-36 | True exactly when the descriptor holds a task id. It is never true for a cleared task. |
| Scheduler.PodTask.GetOfferId | pkg/scheduler/pod_task.go:38-43 | The held offer's id, or "" without one. A nonempty answer is always the id of a held offer, and a cleared task answers "". |
| Scheduler.TaskInfo.constructor | pkg/scheduler/pod_task.go:140 | `newTaskInfo("PodTask")` carries only its name. |
| Scheduler.PodTask.constructor | pkg/scheduler/pod_task.go:137-143 | The struct literal sets id, pod, task info and pod key, and leaves every other field at its zero value (factory state). |
| Scheduler.NewPodTask | pkg/scheduler/pod_task.go:125-147 | A nil pod, a nil executor or a pod-key error each fails with its own error, checked in that order. Otherwise the result is a fresh task in factory state with the given UUID, pod, pod key, creation time and executor, holding no accepted offer. |
| Scheduler.PodTask.Dup | pkg/scheduler/pod_task.go:117-123 | The copy refers to the same pod and the same executor. Its pod key is the one `makePodKey` derives in the pod's own namespace. It starts in factory state with a fresh "PodTask" descriptor. It fails exactly when the factory would: with `NilExecutor` when no executor is held, and with `PodKeyError` carrying `makePodKey`'s error when the key cannot be made. |
| Scheduler.PodTask.ClearTaskInfo | pkg/scheduler/pod_task.go:77-87 | Afterwards no offer, task id, slave id, resources, data or ports remain, so `hasAcceptedOffer` is false and `GetOfferId` is "". Identity, pod, executor and lifecycle markers are kept. Clearing a cleared task changes nothing (idempotence). |
| Scheduler.PodTask.AcceptOffer | pkg/scheduler/pod_task.go:89-115 | The probe answers true exactly when the offer is present, the mapper succeeds, and the last "cpus" ≥ 0.25 and last "mem" ≥ 64. It modifies nothing. |
| Scheduler.PodTask.FillFromDetails | pkg/scheduler/pod_task.go:45-75 | The call succeeds exactly when the mapper does. On success it records the task id from `newTaskID`, the offer's slave id, the cpus/mem resources plus the ports resource when one is built, and a port mapping that meets the mapper's specification. On failure it returns the mapper's error and leaves the task cleared. It never changes the lifecycle markers, the name or the executor. |
| Scheduler.BindThenClear | pkg/scheduler/pod_task.go:47-87 | Binding and then clearing returns a task in factory state to factory state, whether or not the bind succeeded. |
| Scheduler.WebRequires | pkg/scheduler/pod_task.go:185-203 | Pod "web", with one container asking for host port 8080, requires exactly 8080, from container 0, port 0. |
| Scheduler.ScenarioRanges | pkg/scheduler/pod_task.go:204-206 | The port ranges of the example offers A, B and C are [8000,8100], [9000,9100] and [8000,8100]. |
| Scheduler.ScenarioCoverage | pkg/scheduler/pod_task.go:211 | 8080 is covered by offers A and C and not by B. |
| Scheduler.ScenarioUnmatched | pkg/scheduler/pod_task.go:204-219 | Nothing of "web" is left unmatched on A. 8080 is left on B. |
| Scheduler.WebScenarioMapsA | pkg/scheduler/pod_task.go:204-230 | "web" on offer A maps to exactly [(container 0, port 0) → 8080]. |
| Scheduler.WebScenarioFailsB | pkg/scheduler/pod_task.go:219-227 | "web" on offer B fails with `PortAllocationError("web", [8080])`. |
| Scheduler.WebScenarioAccepts | pkg/scheduler/pod_task.go:89-115 | `AcceptOffer` takes A. It refuses B for its ports and C, with 0.1 CPU, for its CPU. |

## Left out

- Logging (`log.V(3)`) and the text of the errors' `Error()` methods (pod_task.go:163-175) are not modelled. The errors are modelled as values carrying the same fields.
- The pluggable `mapper` field is fixed to the default mapper, which is the only one the factory installs.
- The panic for a nil offer in `FillFromDetails`: the parameter type excludes a nil offer. The panic for a nil pod in the mapper: a task's pod is never nil after construction.
- HostPorts.DefaultHostPortMapping: a "ports" resource that carries no ranges at all makes the Go code panic at pod_task.go:206, because `GetRanges()` returns nil and its `.Range` is then read. The model reads such a resource as an empty list of ranges that covers nothing, so the mapper goes on to other resources and may end with `PortAllocationError`. The same applies where `AcceptOffer` and `FillFromDetails` call the mapper.
- Scheduler.PodTask.AcceptOffer: requires every "cpus" and "mem" resource to carry a scalar. The Go code dereferences that scalar and would panic otherwise.
- `newTaskID`, `rangeResource`, `makePodKey`, `uuid.NewUUID` and `time.Now` are not part of this model. They are caller-supplied parameters, and nothing is assumed about them beyond their types.
- `newTaskInfo` is not part of this model. It is taken to build a descriptor carrying only its name.
- Scheduler.PodTask.Dup: does not prove that the new identifier differs from the old one, or that the new creation time is not earlier. Both come from the caller's UUID and clock parameters.
- The `launched`, `deleted`, `launchTime` and `bindTime` fields are modelled, but no operation in this file changes them. Their setters are outside the core file.
- The offer wrapper `PerishableOffer` is reduced to the plain offer value it carries. Expiry and rescinding happen outside this core.
- Protobuf messages are plain datatypes. Nil slices and nil pointers in them are read as empty lists and `None`.
- Floating-point scalars are modelled as exact reals.
- Concurrency is not modelled: a task is used by one scheduling attempt at a time.
