/**
 * The PodTask: one attempt to bind a pod to a Mesos offer. It probes offers
 * (AcceptOffer), records a binding (FillFromDetails), drops it again
 * (ClearTaskInfo), and is built by a validating factory (NewPodTask, Dup).
 */
module Scheduler {
  import opened Wrappers
  import opened Api
  import opened Mesos
  import opened HostPorts

  /** CPU and memory (MB) reserved for the executor of every task. */
  const ContainerCpus: real := 0.25
  const ContainerMem: real := 64.0

  /** A clock reading; `ZeroTime` is Go's zero `time.Time`. */
  type Time = nat
  const ZeroTime: Time := 0

  /**
   * The resources every bound task asks for, before any ports: read back, they
   * give exactly the executor's CPU and memory baselines and no port range.
   */
  function ExecutorResources(): (rs: seq<Resource>)
    ensures ScalarsPresent(rs, "cpus") && LastScalar(rs, "cpus") == ContainerCpus
    ensures ScalarsPresent(rs, "mem") && LastScalar(rs, "mem") == ContainerMem
    ensures PortRanges(rs) == []
  {
    var rs := [ScalarResource("cpus", ContainerCpus), ScalarResource("mem", ContainerMem)];
    assert rs[..1][..0] == [] && rs[..2][..1] == rs[..1] && rs[..2] == rs;
    assert PortRanges(rs[..1]) == [];
    rs
  }

  /**
   * The list FillFromDetails builds by appending each mapping entry's host
   * port in turn; it holds the mapping's host ports position by position.
   */
  function OfferPorts(mapping: seq<HostPortMapping>): (ports: seq<Uint64>)
    ensures |ports| == |mapping|
    ensures forall i :: 0 <= i < |mapping| ==> ports[i] == mapping[i].offerPort
  {
    if mapping == [] then []
    else
      var n := |mapping| - 1;
      assert forall i :: 0 <= i < n ==> mapping[..n][i] == mapping[i];
      OfferPorts(mapping[..n]) + [mapping[n].offerPort]
  }

  /**
   * What FillFromDetails appends after the executor's resources: at most one
   * resource, the one `rangeResource` builds for "ports" from the mapping's
   * host ports in mapping order, and nothing when it builds none.
   */
  function PortsResource(rangeResource: (string, seq<Uint64>) -> Option<Resource>,
                         mapping: seq<HostPortMapping>): (added: seq<Resource>)
    ensures |added| <= 1
    ensures added == [] <==> rangeResource("ports", OfferPorts(mapping)).None?
    ensures forall res :: res in added <==> rangeResource("ports", OfferPorts(mapping)) == Some(res)
  {
    match rangeResource("ports", OfferPorts(mapping))
    case None => []
    case Some(res) => [res]
  }

  /**
   * AcceptOffer's answer: an offer is present, the mapper succeeds on it, and
   * the last "cpus" and "mem" scalars (0 when absent) reach the executor's needs.
   */
  ghost predicate Accepts(pod: Pod, offer: Option<Offer>)
    requires offer.Some? ==> ScalarsPresent(offer.value.resources, "cpus") && ScalarsPresent(offer.value.resources, "mem")
  {
    offer.Some?
    && MapperSucceeds(pod, offer.value)
    && LastScalar(offer.value.resources, "cpus") >= ContainerCpus
    && LastScalar(offer.value.resources, "mem") >= ContainerMem
  }

  /** The Mesos task descriptor a PodTask fills in; None and [] stand for Go's nil. */
  class TaskInfo {
    var name: string
    var taskId: Option<string>
    var slaveId: Option<string>
    var resources: seq<Resource>
    var data: seq<bv8>
    var executor: Option<ExecutorInfo>

    /** A descriptor that carries only its name. */
    constructor (name: string)
      ensures this.name == name && taskId == None && slaveId == None
      ensures resources == [] && data == [] && executor == None
    {
      this.name := name;
      taskId, slaveId := None, None;
      resources, data := [], [];
      executor := None;
    }
  }

  datatype FactoryError =
    | NilPod               // "illegal argument: pod was nil"
    | NilExecutor          // "illegal argument: executor was nil"
    | PodKeyError(cause: string)

  class PodTask {
    const id: string
    const pod: Pod
    const taskInfo: TaskInfo
    const podKey: string
    const createTime: Time
    var offer: Option<Offer>
    var launched: bool
    var deleted: bool
    var launchTime: Time
    var bindTime: Time
    var ports: seq<HostPortMapping>

    /**
     * The task holds a task id, i.e. it has accepted an offer. A cleared task
     * has not; a task that has holds a task id.
     */
    predicate HasAcceptedOffer()
      reads this, taskInfo
      ensures HasAcceptedOffer() ==> !Cleared() && taskInfo.taskId != None
    {
      taskInfo.taskId.Some?
    }

    /**
     * The id of the held offer, or "" without one. A nonempty answer is the id
     * of a held offer; a cleared task answers "".
     */
    function GetOfferId(): (offerId: string)
      reads this, taskInfo
      ensures offerId != "" ==> offer.Some? && offer.value.id == offerId
      ensures Cleared() ==> offerId == ""
    {
      match offer
      case None => ""
      case Some(o) => o.id
    }

    /** No offer-related detail is held: no offer, task id, slave id, resources, data or ports. */
    predicate Cleared()
      reads this, taskInfo
    {
      offer.None? && taskInfo.taskId.None? && taskInfo.slaveId.None?
      && taskInfo.resources == [] && taskInfo.data == [] && ports == []
    }

    /** The state newPodTask hands out: cleared, never launched, deleted or bound. */
    predicate FactoryState()
      reads this, taskInfo
    {
      Cleared() && !launched && !deleted && launchTime == ZeroTime && bindTime == ZeroTime
    }

    /** The struct literal of newPodTask: the given fields, every other field at its zero value. */
    constructor (id: string, pod: Pod, taskInfo: TaskInfo, podKey: string, createTime: Time)
      requires taskInfo.taskId.None? && taskInfo.slaveId.None?
      requires taskInfo.resources == [] && taskInfo.data == []
      ensures this.id == id && this.pod == pod && this.taskInfo == taskInfo
      ensures this.podKey == podKey && this.createTime == createTime
      ensures FactoryState()
    {
      this.id, this.pod, this.taskInfo := id, pod, taskInfo;
      this.podKey, this.createTime := podKey, createTime;
      offer := None;
      launched, deleted := false, false;
      launchTime, bindTime := ZeroTime, ZeroTime;
      ports := [];
    }

    /**
     * Drop every offer-related detail; identity, pod, executor and lifecycle
     * markers stay. A second call changes nothing.
     */
    method ClearTaskInfo()
      modifies this, taskInfo
      ensures Cleared() && !HasAcceptedOffer() && GetOfferId() == ""
      ensures launched == old(launched) && deleted == old(deleted)
      ensures launchTime == old(launchTime) && bindTime == old(bindTime)
      ensures taskInfo.name == old(taskInfo.name) && taskInfo.executor == old(taskInfo.executor)
      ensures old(Cleared()) ==> unchanged(this, taskInfo)
    {
      offer := None;
      taskInfo.taskId := None;
      taskInfo.slaveId := None;
      taskInfo.resources := [];
      taskInfo.data := [];
      ports := [];
    }

    /**
     * Probe an offer without committing to it: false for a missing offer,
     * otherwise whether the mapper succeeds and the last "cpus" and "mem"
     * values reach the executor's needs. The task is not modified.
     */
    method AcceptOffer(offer: Option<Offer>) returns (ok: bool)
      requires offer.Some? ==> ScalarsPresent(offer.value.resources, "cpus") && ScalarsPresent(offer.value.resources, "mem")
      ensures ok <==> Accepts(pod, offer)
    {
      if offer.None? {
        return false;
      }
      var rs := offer.value.resources;
      var cpus, mem := 0.0, 0.0;
      var i := 0;
      while i < |rs|
        invariant 0 <= i <= |rs|
        invariant cpus == LastScalar(rs[..i], "cpus")
        invariant mem == LastScalar(rs[..i], "mem")
      {
        assert rs[..i + 1][..i] == rs[..i];
        if rs[i].name == "cpus" {
          cpus := rs[i].scalar.value;
        }
        if rs[i].name == "mem" {
          mem := rs[i].scalar.value;
        }
        i := i + 1;
      }
      assert rs[..i] == rs;
      var mapped := DefaultHostPortMapping(pod, offer.value);
      if mapped.Failure? {
        return false;
      }
      if cpus < ContainerCpus || mem < ContainerMem {
        return false;
      }
      return true;
    }

    /**
     * Bind the task to an offer (a nil offer is a caller defect, excluded by
     * the parameter type). On success the task id, slave id, executor
     * resources, the ports resource (when `rangeResource` builds one) and the
     * port mapping are recorded; on a mapper failure the task is cleared and
     * the mapper's error returned.
     */
    method FillFromDetails(details: Offer, newTaskID: string -> string,
                           rangeResource: (string, seq<Uint64>) -> Option<Resource>)
      returns (err: Option<MapError>)
      modifies this, taskInfo
      ensures err.None? <==> MapperSucceeds(pod, details)
      ensures err.Some? ==> MapsHostPorts(pod, details, Failure(err.value)) && Cleared()
      ensures err.Some? ==> !HasAcceptedOffer() && GetOfferId() == ""
      ensures err.None? ==> HasAcceptedOffer() && taskInfo.taskId == Some(newTaskID(id))
      ensures err.None? ==> taskInfo.slaveId == Some(details.slaveId)
      ensures err.None? ==> MapsHostPorts(pod, details, Success(ports))
      ensures err.None? ==> taskInfo.resources == ExecutorResources() + PortsResource(rangeResource, ports)
      ensures err.None? ==> taskInfo.data == old(taskInfo.data) && offer == old(offer)
      ensures launched == old(launched) && deleted == old(deleted)
      ensures launchTime == old(launchTime) && bindTime == old(bindTime)
      ensures taskInfo.name == old(taskInfo.name) && taskInfo.executor == old(taskInfo.executor)
    {
      taskInfo.taskId := Some(newTaskID(id));
      taskInfo.slaveId := Some(details.slaveId);
      taskInfo.resources := ExecutorResources();
      var mapping := DefaultHostPortMapping(pod, details);
      if mapping.Failure? {
        ClearTaskInfo();
        return Some(mapping.error);
      }
      var offerPorts := CollectOfferPorts(mapping.value);
      ports := mapping.value;
      var portsResource := rangeResource("ports", offerPorts);
      if portsResource.Some? {
        taskInfo.resources := taskInfo.resources + [portsResource.value];
      }
      return None;
    }

    /**
     * A task for the same pod and executor in factory state (dup): the
     * factory is called with the pod's own namespace.
     */
    method Dup(makePodKey: (Context, string) -> Result<string, string>, uuid: string, now: Time)
      returns (r: Result<PodTask, FactoryError>)
      ensures taskInfo.executor.None? ==> r == Failure(NilExecutor)
      ensures taskInfo.executor.Some? && makePodKey(Context(pod.namespace), pod.name).Failure?
        ==> r == Failure(PodKeyError(makePodKey(Context(pod.namespace), pod.name).error))
      ensures r.Success? <==> taskInfo.executor.Some? && makePodKey(Context(pod.namespace), pod.name).Success?
      ensures r.Success? ==> fresh(r.value) && fresh(r.value.taskInfo)
      ensures r.Success? ==> r.value.pod == pod && r.value.taskInfo.executor == taskInfo.executor
      ensures r.Success? ==> r.value.podKey == makePodKey(Context(pod.namespace), pod.name).value
      ensures r.Success? ==> r.value.taskInfo.name == "PodTask"
      ensures r.Success? ==> r.value.id == uuid && r.value.createTime == now && r.value.FactoryState()
    {
      r := NewPodTask(Context(pod.namespace), Some(pod), taskInfo.executor, makePodKey, uuid, now);
    }
  }

  /** The loop of FillFromDetails that lists the mapped host ports, in mapping order. */
  method CollectOfferPorts(mapping: seq<HostPortMapping>) returns (offerPorts: seq<Uint64>)
    ensures offerPorts == OfferPorts(mapping)
  {
    offerPorts := [];
    var i := 0;
    while i < |mapping|
      invariant 0 <= i <= |mapping|
      invariant offerPorts == OfferPorts(mapping[..i])
    {
      assert mapping[..i + 1][..i] == mapping[..i];
      offerPorts := offerPorts + [mapping[i].offerPort];
      i := i + 1;
    }
    assert mapping[..i] == mapping;
  }

  /**
   * The validating factory (newPodTask). A nil pod or executor, or a pod key
   * that cannot be made, is an error; otherwise a task in factory state with
   * the given identifier, creation time and executor. The identifier, the
   * clock and the pod-key helper are supplied by the caller.
   */
  method NewPodTask(ctx: Context, pod: Option<Pod>, executor: Option<ExecutorInfo>,
                    makePodKey: (Context, string) -> Result<string, string>, uuid: string, now: Time)
    returns (r: Result<PodTask, FactoryError>)
    ensures pod.None? ==> r == Failure(NilPod)
    ensures pod.Some? && executor.None? ==> r == Failure(NilExecutor)
    ensures pod.Some? && executor.Some? && makePodKey(ctx, pod.value.name).Failure?
      ==> r == Failure(PodKeyError(makePodKey(ctx, pod.value.name).error))
    ensures r.Success? <==> pod.Some? && executor.Some? && makePodKey(ctx, pod.value.name).Success?
    ensures r.Success? ==> fresh(r.value) && fresh(r.value.taskInfo)
    ensures r.Success? ==> r.value.id == uuid && r.value.pod == pod.value
    ensures r.Success? ==> r.value.podKey == makePodKey(ctx, pod.value.name).value
    ensures r.Success? ==> r.value.taskInfo.name == "PodTask" && r.value.taskInfo.executor == executor
    ensures r.Success? ==> r.value.createTime == now && r.value.FactoryState() && !r.value.HasAcceptedOffer()
  {
    if pod.None? {
      return Failure(NilPod);
    }
    if executor.None? {
      return Failure(NilExecutor);
    }
    var key := makePodKey(ctx, pod.value.name);
    if key.Failure? {
      return Failure(PodKeyError(key.error));
    }
    var info := new TaskInfo("PodTask");
    var task := new PodTask(uuid, pod.value, info, key.value, now);
    info.executor := executor;
    return Success(task);
  }

  /**
   * Binding and then clearing returns a task in factory state to factory
   * state, whether or not the binding succeeded: nothing of the offer remains.
   */
  method BindThenClear(t: PodTask, details: Offer, newTaskID: string -> string,
                       rangeResource: (string, seq<Uint64>) -> Option<Resource>)
    requires t.FactoryState()
    modifies t, t.taskInfo
    ensures t.FactoryState() && !t.HasAcceptedOffer() && t.GetOfferId() == ""
  {
    var err := t.FillFromDetails(details, newTaskID, rangeResource);
    t.ClearTaskInfo();
  }

  /** A pod "web" whose one container asks for host port 8080. */
  const WebPod: Pod := Pod("default", "web", [Container("web", [ContainerPort(80, 8080)])])

  /** An offer with ports 8000-8100, 1 CPU and 128 MB. */
  const OfferA: Offer := Offer("a", "slave-1",
    [ScalarResource("cpus", 1.0), ScalarResource("mem", 128.0), Resource("ports", None, [ValueRange(8000, 8100)])])

  /** An offer with ports 9000-9100, 1 CPU and 128 MB. */
  const OfferB: Offer := Offer("b", "slave-1",
    [ScalarResource("cpus", 1.0), ScalarResource("mem", 128.0), Resource("ports", None, [ValueRange(9000, 9100)])])

  /** An offer with ports 8000-8100 but only 0.1 CPU. */
  const OfferC: Offer := Offer("c", "slave-1",
    [ScalarResource("cpus", 0.1), ScalarResource("mem", 128.0), Resource("ports", None, [ValueRange(8000, 8100)])])

  /** The only requirement of "web" is host port 8080, from container 0, port 0. */
  lemma WebRequires()
    ensures ScanRequired(PodEntries(WebPod.containers)) == Success(map[8080 := HostPortMapping(0, 0, 8080)])
  {
  }

  /** The port ranges of the three offers, read through the resource list. */
  lemma ScenarioRanges()
    ensures PortRanges(OfferA.resources) == [ValueRange(8000, 8100)]
    ensures PortRanges(OfferB.resources) == [ValueRange(9000, 9100)]
    ensures PortRanges(OfferC.resources) == [ValueRange(8000, 8100)]
  {
    forall o | o in [OfferA, OfferB, OfferC]
      ensures PortRanges(o.resources) == o.resources[2].ranges
    {
      var rs := o.resources;
      assert rs[..1][..0] == [];
      assert PortRanges(rs[..1]) == [];
      assert rs[..2][..1] == rs[..1];
      assert PortRanges(rs[..2]) == [];
      assert rs[..|rs| - 1] == rs[..2];
    }
  }

  /** Offers A and C cover port 8080; offer B does not. */
  lemma ScenarioCoverage()
    ensures Covered(OfferA, 8080) && Covered(OfferC, 8080) && !Covered(OfferB, 8080)
  {
    ScenarioRanges();
    assert ValueRange(8000, 8100) in PortRanges(OfferA.resources);
    assert ValueRange(8000, 8100) in PortRanges(OfferC.resources);
  }

  /** What is left unmatched of the requirement of "web" on offers A and B. */
  lemma ScenarioUnmatched(req: map<Uint64, HostPortMapping>)
    requires req == map[8080 := HostPortMapping(0, 0, 8080)]
    ensures Unmatched(req, OfferA) == {} && Unmatched(req, OfferB) == {8080}
  {
    ScenarioCoverage();
  }

  /** The pod "web" maps to offer A with container 0, port 0 on host port 8080. */
  lemma WebScenarioMapsA(rA: Result<seq<HostPortMapping>, MapError>)
    requires MapsHostPorts(WebPod, OfferA, rA)
    ensures rA == Success([HostPortMapping(0, 0, 8080)])
  {
    var m := HostPortMapping(0, 0, 8080);
    var req := map[8080 := m];
    WebRequires();
    ScenarioUnmatched(req);
    assert req.Values == {m};
    SingleMapping(rA.value, m);
  }

  /** On offer B the pod "web" fails with a PortAllocationError listing 8080. */
  lemma WebScenarioFailsB(rB: Result<seq<HostPortMapping>, MapError>)
    requires MapsHostPorts(WebPod, OfferB, rB)
    ensures rB == Failure(PortAllocationError("web", [8080]))
  {
    WebRequires();
    ScenarioUnmatched(map[8080 := HostPortMapping(0, 0, 8080)]);
    SingleError(rB.error.ports, 8080);
  }

  /** AcceptOffer takes offer A for "web", and refuses B for its ports and C for its CPU. */
  lemma WebScenarioAccepts()
    ensures Accepts(WebPod, Some(OfferA))
    ensures !Accepts(WebPod, Some(OfferB))
    ensures !Accepts(WebPod, Some(OfferC))
  {
    var req := map[8080 := HostPortMapping(0, 0, 8080)];
    WebRequires();
    ScenarioUnmatched(req);
    assert MapperSucceeds(WebPod, OfferA) && !MapperSucceeds(WebPod, OfferB);
    LastScalarIsLastWrite(OfferA.resources, "cpus", 0);
    LastScalarIsLastWrite(OfferA.resources, "mem", 1);
    LastScalarIsLastWrite(OfferC.resources, "cpus", 0);
  }

  /** A list of ports holding exactly one `p` is `[p]`. */
  lemma SingleError(ports: seq<Uint64>, p: Uint64)
    requires multiset(ports) == multiset{p}
    ensures ports == [p]
  {
  }

  /** A duplicate-free mapping whose only member is `m` is `[m]`. */
  lemma SingleMapping(s: seq<HostPortMapping>, m: HostPortMapping)
    requires DistinctPorts(s) && forall x :: x in s <==> x == m
    ensures s == [m]
  {
    DistinctElements(s);
    assert (set x | x in s) == {m};
    assert s[0] in s;
  }

  /** A mapping with distinct ports has as many distinct entries as it is long. */
  lemma {:induction false} DistinctElements(s: seq<HostPortMapping>)
    requires DistinctPorts(s)
    ensures |set x | x in s| == |s|
  {
    if s != [] {
      var t := s[..|s| - 1];
      var last := s[|s| - 1];
      DistinctElements(t);
      assert (set x | x in s) == (set x | x in t) + {last};
      assert forall k :: 0 <= k < |t| ==> t[k].offerPort != last.offerPort;
    }
  }
}
