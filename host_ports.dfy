/**
 * The default host-port mapper: it collects the pod's nonzero host ports,
 * rejects a host port requested twice, and matches each remaining port against
 * the closed ranges of the offer's "ports" resources.
 */
module HostPorts {
  import opened Wrappers
  import opened Api
  import opened Mesos

  /** One required host port, and the container and port declaration that asked for it. */
  datatype HostPortMapping = HostPortMapping(cindex: nat, pindex: nat, offerPort: Uint64)

  datatype MapError =
    | PortAllocationError(podId: string, ports: seq<Uint64>)
    | DuplicateHostPortError(m1: HostPortMapping, m2: HostPortMapping)

  /** Container/port declaration order. */
  predicate Before(a: HostPortMapping, b: HostPortMapping)
  {
    a.cindex < b.cindex || (a.cindex == b.cindex && a.pindex < b.pindex)
  }

  /** No host port occurs twice in `ms`. */
  predicate DistinctPorts(ms: seq<HostPortMapping>)
  {
    forall i, j :: 0 <= i < j < |ms| ==> ms[i].offerPort != ms[j].offerPort
  }

  /** The nonzero host ports that container `ci` declares, in declaration order. */
  function ContainerEntries(ci: nat, ports: seq<ContainerPort>): seq<HostPortMapping>
  {
    if ports == [] then []
    else
      var pi := |ports| - 1;
      var hp := ports[pi].hostPort;
      ContainerEntries(ci, ports[..pi]) + (if hp == 0 then [] else [HostPortMapping(ci, pi, ToUint64(hp))])
  }

  /** The nonzero host-port entries of all containers, in container/port order. */
  function PodEntries(cs: seq<Container>): seq<HostPortMapping>
  {
    if cs == [] then []
    else PodEntries(cs[..|cs| - 1]) + ContainerEntries(|cs| - 1, cs[|cs| - 1].ports)
  }

  /** `e` records the nonzero host port that declaration `e.pindex` of container `e.cindex` asks for. */
  ghost predicate Declares(cs: seq<Container>, e: HostPortMapping)
  {
    e.cindex < |cs| && e.pindex < |cs[e.cindex].ports| && cs[e.cindex].ports[e.pindex].hostPort != 0
    && e.offerPort == ToUint64(cs[e.cindex].ports[e.pindex].hostPort)
  }

  /** A container's entries are exactly its nonzero host-port declarations, in port order. */
  lemma {:induction false} ContainerEntriesSpec(ci: nat, ports: seq<ContainerPort>)
    ensures forall e :: e in ContainerEntries(ci, ports) <==>
      e.cindex == ci && e.pindex < |ports| && ports[e.pindex].hostPort != 0
      && e.offerPort == ToUint64(ports[e.pindex].hostPort)
    ensures forall i, j :: 0 <= i < j < |ContainerEntries(ci, ports)| ==>
      ContainerEntries(ci, ports)[i].cindex == ci && ContainerEntries(ci, ports)[i].pindex < ContainerEntries(ci, ports)[j].pindex
  {
    if ports != [] {
      var pi := |ports| - 1;
      var earlier := ContainerEntries(ci, ports[..pi]);
      ContainerEntriesSpec(ci, ports[..pi]);
      var es := ContainerEntries(ci, ports);
      forall i, j | 0 <= i < j < |es| ensures es[i].cindex == ci && es[i].pindex < es[j].pindex {
        if j < |earlier| {
          assert es[i] == earlier[i] && es[j] == earlier[j];
        } else {
          assert es[i] == earlier[i];
          assert es[i] in earlier;
        }
      }
    } else {
      assert ContainerEntries(ci, ports) == [];
    }
  }

  /**
   * The pod's entries are exactly its nonzero host-port declarations (`Declares`),
   * in container/port order, so host port 0 never yields an entry.
   */
  lemma {:induction false} PodEntriesSpec(cs: seq<Container>)
    ensures forall e :: e in PodEntries(cs) <==> Declares(cs, e)
    ensures forall i, j :: 0 <= i < j < |PodEntries(cs)| ==> Before(PodEntries(cs)[i], PodEntries(cs)[j])
  {
    if cs != [] {
      var ci := |cs| - 1;
      var earlier, last := PodEntries(cs[..ci]), ContainerEntries(ci, cs[ci].ports);
      PodEntriesSpec(cs[..ci]);
      ContainerEntriesSpec(ci, cs[ci].ports);
      assert forall e :: e in earlier ==> e.cindex < ci;
      assert PodEntries(cs) == earlier + last;
    }
  }

  /**
   * The first loop of the mapper: entries are added to a map keyed by host port,
   * and the first entry whose port is already a key fails with both entries.
   */
  function ScanRequired(es: seq<HostPortMapping>): Result<map<Uint64, HostPortMapping>, MapError>
  {
    if es == [] then Success(map[])
    else
      match ScanRequired(es[..|es| - 1])
      case Failure(err) => Failure(err)
      case Success(req) =>
        var m := es[|es| - 1];
        if m.offerPort in req then Failure(DuplicateHostPortError(req[m.offerPort], m))
        else Success(req[m.offerPort := m])
  }

  /** The required ports no offered "ports" range covers. */
  ghost function Unmatched(req: map<Uint64, HostPortMapping>, offer: Offer): set<Uint64>
  {
    set p | p in req && !Covered(offer, p)
  }

  /**
   * What the mapper may return for `pod` and `offer`. The output order depends
   * on Go's map iteration order, so the mapping is specified as a set without
   * repeated ports, and the unsatisfied ports as a multiset.
   */
  ghost predicate MapsHostPorts(pod: Pod, offer: Offer, r: Result<seq<HostPortMapping>, MapError>)
  {
    match ScanRequired(PodEntries(pod.containers))
    case Failure(dup) => r == Failure(dup)
    case Success(req) =>
      var unmatched := Unmatched(req, offer);
      if unmatched == {} then
        r.Success? && DistinctPorts(r.value) && (forall m :: m in r.value <==> m in req.Values)
      else
        r.Failure? && r.error.PortAllocationError? && r.error.podId == pod.name
        && multiset(r.error.ports) == multiset(unmatched)
  }

  /** The mapper succeeds on `offer`. */
  ghost predicate MapperSucceeds(pod: Pod, offer: Offer)
  {
    match ScanRequired(PodEntries(pod.containers))
    case Failure(_) => false
    case Success(req) => Unmatched(req, offer) == {}
  }

  /** `req` holds exactly the entries of `es`, each under its own host port. */
  ghost predicate RequiredMapOf(es: seq<HostPortMapping>, req: map<Uint64, HostPortMapping>)
  {
    (forall i :: 0 <= i < |es| ==> es[i].offerPort in req && req[es[i].offerPort] == es[i])
    && (forall p :: p in req ==> req[p] in es && req[p].offerPort == p)
  }

  /**
   * `err` names the first clash of `es`: the entry at `k` is the first whose
   * host port occurred before, and the entry at `j` is that earlier one.
   */
  ghost predicate FirstDuplicate(es: seq<HostPortMapping>, err: MapError)
  {
    err.DuplicateHostPortError?
    && (exists j, k :: 0 <= j < k < |es| && es[j] == err.m1 && es[k] == err.m2
          && err.m1.offerPort == err.m2.offerPort && DistinctPorts(es[..k]))
  }

  /** The scan succeeds exactly on duplicate-free entries, and reports the first clash otherwise. */
  lemma {:induction false} ScanRequiredSpec(es: seq<HostPortMapping>)
    ensures ScanRequired(es).Success? <==> DistinctPorts(es)
    ensures ScanRequired(es).Success? ==> RequiredMapOf(es, ScanRequired(es).value)
    ensures ScanRequired(es).Failure? ==> FirstDuplicate(es, ScanRequired(es).error)
  {
    if es != [] {
      var n := |es| - 1;
      var pre, m := es[..n], es[n];
      assert es == pre + [m];
      ScanRequiredSpec(pre);
      match ScanRequired(pre)
      case Failure(err) =>
        var j, k :| 0 <= j < k < |pre| && pre[j] == err.m1 && pre[k] == err.m2
          && err.m1.offerPort == err.m2.offerPort && DistinctPorts(pre[..k]);
        assert es[..k] == pre[..k];
        assert es[j] == err.m1 && es[k] == err.m2;
        assert !DistinctPorts(es);
      case Success(req) =>
        if m.offerPort in req {
          var first := req[m.offerPort];
          var j :| 0 <= j < |pre| && pre[j] == first;
          assert es[..n] == pre;
          assert es[j] == first && es[n] == m;
          assert !DistinctPorts(es);
        } else {
          forall i | 0 <= i < n ensures es[i].offerPort != m.offerPort {
            assert pre[i].offerPort in req;
          }
          var req' := req[m.offerPort := m];
          assert ScanRequired(es) == Success(req');
          forall i | 0 <= i < |es|
            ensures es[i].offerPort in req' && req'[es[i].offerPort] == es[i]
          {
            if i < n { assert pre[i] == es[i]; }
          }
        }
    }
  }

  /**
   * Bookkeeping of the matching loops. `req0` is the map the first loop built,
   * `req` what is still required, `mapping` what has been matched. A port has
   * left `req` exactly when a range in `seen` covers it, and every matched
   * entry sits once in `mapping`.
   */
  ghost predicate MatchState(req0: map<Uint64, HostPortMapping>, req: map<Uint64, HostPortMapping>,
                             mapping: seq<HostPortMapping>)
  {
    (forall p :: p in req0 ==> req0[p].offerPort == p)
    && (forall p :: p in req ==> p in req0 && req[p] == req0[p])
    && (forall i :: 0 <= i < |mapping| ==>
          mapping[i].offerPort in req0 && mapping[i] == req0[mapping[i].offerPort] && mapping[i].offerPort !in req)
    && (forall p :: p in req0 && p !in req ==> req0[p] in mapping)
    && DistinctPorts(mapping)
  }

  ghost predicate InSomeRange(ranges: seq<ValueRange>, p: Uint64)
  {
    exists rg :: rg in ranges && Contains(rg, p)
  }

  /**
   * The default host-port mapping (defaultHostPortMapping): collect the
   * required ports, match them against the offer's "ports" ranges, and report
   * either the matched entries or every port left unmatched.
   */
  method DefaultHostPortMapping(pod: Pod, offer: Offer) returns (r: Result<seq<HostPortMapping>, MapError>)
    ensures MapsHostPorts(pod, offer, r)
  {
    var collected := CollectRequiredPorts(pod);
    if collected.Failure? {
      return Failure(collected.error);
    }
    ScanRequiredSpec(PodEntries(pod.containers));
    var req0 := collected.value;
    var requiredPorts, mapping := MatchOfferRanges(offer, req0);
    assert requiredPorts.Keys == Unmatched(req0, offer);
    if |requiredPorts| > 0 {
      var unsatisfied := KeysInSomeOrder(requiredPorts);
      r := Failure(PortAllocationError(pod.name, unsatisfied));
    } else {
      forall m ensures m in mapping <==> m in req0.Values {
        if m in req0.Values {
          var p :| p in req0 && req0[p] == m;
        }
      }
      r := Success(mapping);
    }
  }

  /**
   * The first loop of defaultHostPortMapping: walk containers and ports in
   * order, skip host port 0, and stop at the first host port already required.
   */
  method CollectRequiredPorts(pod: Pod) returns (r: Result<map<Uint64, HostPortMapping>, MapError>)
    ensures r == ScanRequired(PodEntries(pod.containers))
  {
    var requiredPorts: map<Uint64, HostPortMapping> := map[];
    var cs := pod.containers;
    var i := 0;
    while i < |cs|
      invariant 0 <= i <= |cs|
      invariant ScanRequired(PodEntries(cs[..i])) == Success(requiredPorts)
    {
      var ports := cs[i].ports;
      ghost var done := PodEntries(cs[..i]);
      var pi := 0;
      assert done + ContainerEntries(i, ports[..pi]) == done;
      while pi < |ports|
        invariant 0 <= pi <= |ports|
        invariant ScanRequired(done + ContainerEntries(i, ports[..pi])) == Success(requiredPorts)
      {
        assert ports[..pi + 1][..pi] == ports[..pi];
        ghost var seen := done + ContainerEntries(i, ports[..pi]);
        if ports[pi].hostPort != 0 {
          var m := HostPortMapping(i, pi, ToUint64(ports[pi].hostPort));
          assert done + ContainerEntries(i, ports[..pi + 1]) == seen + [m];
          assert (seen + [m])[..|seen|] == seen;
          if m.offerPort in requiredPorts {
            r := Failure(DuplicateHostPortError(requiredPorts[m.offerPort], m));
            PodEntriesPrefix(cs, i, pi + 1);
            ScanFailureSticks(seen + [m], PodEntries(cs));
            return;
          }
          requiredPorts := requiredPorts[m.offerPort := m];
        } else {
          assert done + ContainerEntries(i, ports[..pi + 1]) == seen;
        }
        pi := pi + 1;
      }
      assert cs[..i + 1][..i] == cs[..i];
      assert ports[..pi] == ports;
      i := i + 1;
    }
    assert cs[..i] == cs;
    r := Success(requiredPorts);
  }

  /**
   * The matching loops of defaultHostPortMapping: for each range of each
   * "ports" resource, every still-required port inside the range moves to the
   * mapping. What remains required is exactly what no range covers.
   */
  method MatchOfferRanges(offer: Offer, req0: map<Uint64, HostPortMapping>)
    returns (requiredPorts: map<Uint64, HostPortMapping>, mapping: seq<HostPortMapping>)
    requires forall p :: p in req0 ==> req0[p].offerPort == p
    ensures MatchState(req0, requiredPorts, mapping)
    ensures forall p :: p in req0 ==> (p in requiredPorts <==> !Covered(offer, p))
  {
    requiredPorts, mapping := req0, [];
    var rs := offer.resources;
    var k := 0;
    while k < |rs|
      invariant 0 <= k <= |rs|
      invariant MatchState(req0, requiredPorts, mapping)
      invariant forall p :: p in req0 ==> (p in requiredPorts <==> !InSomeRange(PortRanges(rs[..k]), p))
    {
      PortRangesSnoc(rs, k);
      if rs[k].name == "ports" {
        requiredPorts, mapping := MatchResourceRanges(rs[k].ranges, req0, requiredPorts, mapping);
        InSomeRangeAppend(PortRanges(rs[..k]), rs[k].ranges);
      }
      k := k + 1;
    }
    assert rs[..k] == rs;
  }

  /** The loop over the ranges of one "ports" resource. */
  method MatchResourceRanges(ranges: seq<ValueRange>, ghost req0: map<Uint64, HostPortMapping>,
                             req: map<Uint64, HostPortMapping>, mapping: seq<HostPortMapping>)
    returns (req': map<Uint64, HostPortMapping>, mapping': seq<HostPortMapping>)
    requires MatchState(req0, req, mapping)
    ensures MatchState(req0, req', mapping')
    ensures forall p :: p in req' <==> p in req && !InSomeRange(ranges, p)
  {
    req', mapping' := req, mapping;
    var j := 0;
    while j < |ranges|
      invariant 0 <= j <= |ranges|
      invariant MatchState(req0, req', mapping')
      invariant forall p :: p in req' <==> p in req && !InSomeRange(ranges[..j], p)
    {
      req', mapping' := MatchRange(ranges[j], req0, req', mapping');
      InSomeRangeAppend(ranges[..j], [ranges[j]]);
      assert ranges[..j + 1] == ranges[..j] + [ranges[j]];
      j := j + 1;
    }
    assert ranges[..j] == ranges;
  }

  /** The "ports" ranges of one more resource extend those of the resources before it. */
  lemma PortRangesSnoc(rs: seq<Resource>, k: nat)
    requires k < |rs|
    ensures PortRanges(rs[..k + 1]) == PortRanges(rs[..k]) + (if rs[k].name == "ports" then rs[k].ranges else [])
  {
    assert rs[..k + 1][..k] == rs[..k];
  }

  /** A port lies in a range of `a + b` when it lies in a range of `a` or of `b`. */
  lemma InSomeRangeAppend(a: seq<ValueRange>, b: seq<ValueRange>)
    ensures forall p :: InSomeRange(a + b, p) <==> InSomeRange(a, p) || InSomeRange(b, p)
  {
  }

  /** The innermost loop: visit the required ports in any order and match those in `rg`. */
  method MatchRange(rg: ValueRange, ghost req0: map<Uint64, HostPortMapping>,
                    req: map<Uint64, HostPortMapping>, mapping: seq<HostPortMapping>)
    returns (req': map<Uint64, HostPortMapping>, mapping': seq<HostPortMapping>)
    requires MatchState(req0, req, mapping)
    ensures MatchState(req0, req', mapping')
    ensures forall p :: p in req' <==> p in req && !Contains(rg, p)
  {
    req', mapping' := req, mapping;
    var pending := req.Keys;
    while pending != {}
      invariant pending <= req'.Keys
      invariant MatchState(req0, req', mapping')
      invariant forall p :: p in req' <==> p in req && (p in pending || !Contains(rg, p))
      decreases pending
    {
      var port :| port in pending;
      pending := pending - {port};
      if rg.begin <= port && port <= rg.end {
        assert forall i :: 0 <= i < |mapping'| ==> mapping'[i].offerPort != port;
        mapping' := mapping' + [req'[port]];
        req' := req' - {port};
      }
    }
  }

  /** The last loop: list the keys of a Go map in its (unspecified) iteration order. */
  method KeysInSomeOrder(m: map<Uint64, HostPortMapping>) returns (keys: seq<Uint64>)
    ensures multiset(keys) == multiset(m.Keys)
  {
    keys := [];
    var left := m.Keys;
    while left != {}
      invariant left <= m.Keys
      invariant multiset(keys) + multiset(left) == multiset(m.Keys)
      decreases left
    {
      var p :| p in left;
      keys := keys + [p];
      left := left - {p};
    }
  }

  /** Once the scan has failed, scanning further entries reports the same clash. */
  lemma {:induction false} ScanFailureSticks(es: seq<HostPortMapping>, fs: seq<HostPortMapping>)
    requires es <= fs && ScanRequired(es).Failure?
    ensures ScanRequired(fs) == ScanRequired(es)
    decreases |fs|
  {
    if |fs| > |es| {
      assert es <= fs[..|fs| - 1];
      ScanFailureSticks(es, fs[..|fs| - 1]);
      assert ScanRequired(fs) == ScanRequired(fs[..|fs| - 1]);
    } else {
      assert fs == es;
    }
  }

  /** The entries of the ports before `pi` of a container are a prefix of that container's entries. */
  lemma {:induction false} ContainerEntriesPrefix(ci: nat, ports: seq<ContainerPort>, pi: nat)
    requires pi <= |ports|
    ensures ContainerEntries(ci, ports[..pi]) <= ContainerEntries(ci, ports)
    decreases |ports| - pi
  {
    if pi < |ports| {
      ContainerEntriesPrefix(ci, ports, pi + 1);
      assert ports[..pi + 1][..pi] == ports[..pi];
      var a, b, c := ContainerEntries(ci, ports[..pi]), ContainerEntries(ci, ports[..pi + 1]), ContainerEntries(ci, ports);
      assert a <= b;
      assert a == c[..|a|] by { assert b == c[..|b|]; }
    } else {
      assert ports[..pi] == ports;
    }
  }

  /** The entries of the containers before `ci` are a prefix of the pod's entries. */
  lemma {:induction false} PodEntriesContainersPrefix(cs: seq<Container>, ci: nat)
    requires ci <= |cs|
    ensures PodEntries(cs[..ci]) <= PodEntries(cs)
    decreases |cs| - ci
  {
    if ci < |cs| {
      PodEntriesContainersPrefix(cs, ci + 1);
      assert cs[..ci + 1][..ci] == cs[..ci];
      var a, b, c := PodEntries(cs[..ci]), PodEntries(cs[..ci + 1]), PodEntries(cs);
      assert a <= b;
      assert a == c[..|a|] by { assert b == c[..|b|]; }
    } else {
      assert cs[..ci] == cs;
    }
  }

  /** Entries seen up to port `pi` of container `ci` are a prefix of the pod's entries. */
  lemma PodEntriesPrefix(cs: seq<Container>, ci: nat, pi: nat)
    requires ci < |cs| && pi <= |cs[ci].ports|
    ensures PodEntries(cs[..ci]) + ContainerEntries(ci, cs[ci].ports[..pi]) <= PodEntries(cs)
  {
    ContainerEntriesPrefix(ci, cs[ci].ports, pi);
    PodEntriesContainersPrefix(cs, ci + 1);
    assert cs[..ci + 1][..ci] == cs[..ci];
    assert PodEntries(cs[..ci + 1]) == PodEntries(cs[..ci]) + ContainerEntries(ci, cs[ci].ports);
  }

  /** Every declaration of a nonzero host port has a position among the pod's entries. */
  lemma EntryIndex(cs: seq<Container>, e: HostPortMapping) returns (x: nat)
    requires Declares(cs, e)
    ensures x < |PodEntries(cs)| && PodEntries(cs)[x] == e
  {
    PodEntriesSpec(cs);
    var i :| 0 <= i < |PodEntries(cs)| && PodEntries(cs)[i] == e;
    x := i;
  }

  /** The pod's entries are listed in container/port order. */
  lemma BeforeMeansEarlier(cs: seq<Container>, x: nat, y: nat)
    requires x < |PodEntries(cs)| && y < |PodEntries(cs)|
    requires Before(PodEntries(cs)[x], PodEntries(cs)[y])
    ensures x < y
  {
    PodEntriesSpec(cs);
  }

  /** A container that declares only host port 0 contributes no entries. */
  lemma {:induction false} ZeroPortsNoEntries(ci: nat, ports: seq<ContainerPort>)
    requires forall p :: 0 <= p < |ports| ==> ports[p].hostPort == 0
    ensures ContainerEntries(ci, ports) == []
  {
    if ports != [] {
      ZeroPortsNoEntries(ci, ports[..|ports| - 1]);
    }
  }

  /** A pod that declares only host port 0 has no entries. */
  lemma {:induction false} NoHostPortsNoEntries(cs: seq<Container>)
    requires forall c, p :: 0 <= c < |cs| && 0 <= p < |cs[c].ports| ==> cs[c].ports[p].hostPort == 0
    ensures PodEntries(cs) == []
  {
    if cs != [] {
      NoHostPortsNoEntries(cs[..|cs| - 1]);
      ZeroPortsNoEntries(|cs| - 1, cs[|cs| - 1].ports);
    }
  }

  /**
   * Host port 0 is skipped: a pod that requests no nonzero host port maps to
   * the empty assignment on every offer, even one without a "ports" resource.
   */
  lemma ZeroHostPortsIgnored(pod: Pod, offer: Offer, r: Result<seq<HostPortMapping>, MapError>)
    requires forall c, p :: 0 <= c < |pod.containers| && 0 <= p < |pod.containers[c].ports| ==>
      pod.containers[c].ports[p].hostPort == 0
    requires MapsHostPorts(pod, offer, r)
    ensures r == Success([])
  {
    NoHostPortsNoEntries(pod.containers);
    var none: map<Uint64, HostPortMapping> := map[];
    assert ScanRequired(PodEntries(pod.containers)) == Success(none);
    assert Unmatched(none, offer) == {};
    assert r.Success? && forall m :: m in r.value ==> m in none.Values;
    assert forall m :: m !in none.Values;
    assert forall m :: m !in r.value;
    assert forall m :: m in multiset(r.value) <==> m in r.value;
    assert multiset(r.value) == multiset{};
  }

  /**
   * Two declarations asking for the same nonzero host port make the mapper
   * fail with DuplicateHostPortError, whatever the offer; `FirstClash` says
   * which two declarations the error names.
   */
  lemma DuplicateHostPortFails(pod: Pod, offer: Offer, r: Result<seq<HostPortMapping>, MapError>,
                               c1: nat, p1: nat, c2: nat, p2: nat)
    requires c1 < |pod.containers| && p1 < |pod.containers[c1].ports|
    requires c2 < |pod.containers| && p2 < |pod.containers[c2].ports|
    requires (c1, p1) != (c2, p2)
    requires pod.containers[c1].ports[p1].hostPort != 0
    requires pod.containers[c1].ports[p1].hostPort == pod.containers[c2].ports[p2].hostPort
    requires MapsHostPorts(pod, offer, r)
    ensures r.Failure? && r.error.DuplicateHostPortError?
    ensures FirstClash(pod.containers, r.error.m1, r.error.m2)
  {
    var cs := pod.containers;
    var es := PodEntries(cs);
    ScanRequiredSpec(es);
    var hp := cs[c1].ports[p1].hostPort;
    var a := EntryIndex(cs, HostPortMapping(c1, p1, ToUint64(hp)));
    var b := EntryIndex(cs, HostPortMapping(c2, p2, ToUint64(hp)));
    assert !DistinctPorts(es) by {
      if a < b { assert es[a].offerPort == es[b].offerPort; } else { assert es[b].offerPort == es[a].offerPort; }
    }
    FirstDuplicateIsFirstClash(cs, ScanRequired(es).error);
  }

  /**
   * `m2` is the first declaration, in container/port order, whose nonzero host
   * port an earlier declaration already asked for, and `m1` is that earlier one.
   */
  ghost predicate FirstClash(cs: seq<Container>, m1: HostPortMapping, m2: HostPortMapping)
  {
    Declares(cs, m1) && Declares(cs, m2) && m1.offerPort == m2.offerPort && Before(m1, m2)
    && (forall e :: Declares(cs, e) && Before(e, m2) && e.offerPort == m2.offerPort ==> e == m1)
    && (forall e1, e2 :: Declares(cs, e1) && Declares(cs, e2) && Before(e1, e2) && Before(e2, m2)
          ==> e1.offerPort != e2.offerPort)
  }

  /** The clash the scan reports over the pod's entries is the pod's first clash. */
  lemma FirstDuplicateIsFirstClash(cs: seq<Container>, err: MapError)
    requires FirstDuplicate(PodEntries(cs), err)
    ensures FirstClash(cs, err.m1, err.m2)
  {
    var es := PodEntries(cs);
    PodEntriesSpec(cs);
    var j, k :| 0 <= j < k < |es| && es[j] == err.m1 && es[k] == err.m2
      && err.m1.offerPort == err.m2.offerPort && DistinctPorts(es[..k]);
    assert es[j] in es && es[k] in es;
    forall e | Declares(cs, e) && Before(e, err.m2) && e.offerPort == err.m2.offerPort
      ensures e == err.m1
    {
      var x := EntryIndex(cs, e);
      BeforeMeansEarlier(cs, x, k);
      assert es[..k][x] == e && es[..k][j] == err.m1;
    }
    forall e1, e2 | Declares(cs, e1) && Declares(cs, e2) && Before(e1, e2) && Before(e2, err.m2)
      ensures e1.offerPort != e2.offerPort
    {
      var x := EntryIndex(cs, e1);
      var y := EntryIndex(cs, e2);
      BeforeMeansEarlier(cs, x, y);
      BeforeMeansEarlier(cs, y, k);
      assert es[..k][x] == e1 && es[..k][y] == e2;
    }
  }

  /** A pod-authoring clash is reported the same way whatever the offer. */
  lemma DuplicateIgnoresOffer(pod: Pod, o1: Offer, o2: Offer,
                              r1: Result<seq<HostPortMapping>, MapError>, r2: Result<seq<HostPortMapping>, MapError>)
    requires MapsHostPorts(pod, o1, r1) && MapsHostPorts(pod, o2, r2)
    requires r1.Failure? && r1.error.DuplicateHostPortError?
    ensures r2 == r1
  {
  }

  /** Some range of some resource named "ports" in the offer contains `p`. */
  ghost predicate InPortsResource(offer: Offer, p: Uint64)
  {
    exists k, rg :: 0 <= k < |offer.resources| && offer.resources[k].name == "ports"
      && rg in offer.resources[k].ranges && Contains(rg, p)
  }

  /**
   * Every assignment of a successful mapping is a declaration of the pod whose
   * host port lies inside a range of a resource named "ports", and no host port
   * is assigned twice.
   */
  lemma MappingBackedByRanges(pod: Pod, offer: Offer, r: Result<seq<HostPortMapping>, MapError>)
    requires MapsHostPorts(pod, offer, r) && r.Success?
    ensures DistinctPorts(r.value)
    ensures forall i :: 0 <= i < |r.value| ==> Declares(pod.containers, r.value[i])
    ensures forall i :: 0 <= i < |r.value| ==> InPortsResource(offer, r.value[i].offerPort)
  {
    var es := PodEntries(pod.containers);
    PodEntriesSpec(pod.containers);
    ScanRequiredSpec(es);
    var req := ScanRequired(es).value;
    forall i | 0 <= i < |r.value|
      ensures Declares(pod.containers, r.value[i])
      ensures InPortsResource(offer, r.value[i].offerPort)
    {
      var m := r.value[i];
      assert m in req.Values;
      var p :| p in req && req[p] == m;
      assert req[p] in es;
      assert p !in Unmatched(req, offer);
      var rg :| rg in PortRanges(offer.resources) && Contains(rg, p);
      var k :| 0 <= k < |offer.resources| && offer.resources[k].name == "ports" && rg in offer.resources[k].ranges;
    }
  }

  /**
   * For a pod without duplicate host ports, the mapper succeeds exactly when
   * every requested host port lies in an offered "ports" range. The mapping
   * then holds every nonzero host-port declaration once; otherwise the
   * PortAllocationError names the pod and lists, once each, exactly the
   * requested ports that no range covers.
   */
  lemma SucceedsIffCovered(pod: Pod, offer: Offer, r: Result<seq<HostPortMapping>, MapError>)
    requires forall e1, e2 ::
      (Declares(pod.containers, e1) && Declares(pod.containers, e2) && e1 != e2) ==> e1.offerPort != e2.offerPort
    requires MapsHostPorts(pod, offer, r)
    ensures r.Success? <==> forall e :: Declares(pod.containers, e) ==> Covered(offer, e.offerPort)
    ensures r.Success? ==> DistinctPorts(r.value) && forall e :: e in r.value <==> Declares(pod.containers, e)
    ensures r.Failure? ==> r.error.PortAllocationError? && r.error.podId == pod.name
    ensures r.Failure? ==> forall p :: p in r.error.ports <==>
      (exists e :: Declares(pod.containers, e) && e.offerPort == p) && !Covered(offer, p)
    ensures r.Failure? ==> forall i, j :: 0 <= i < j < |r.error.ports| ==> r.error.ports[i] != r.error.ports[j]
  {
    var es := PodEntries(pod.containers);
    PodEntriesSpec(pod.containers);
    ScanRequiredSpec(es);
    assert DistinctPorts(es) by {
      forall i, j | 0 <= i < j < |es| ensures es[i].offerPort != es[j].offerPort {
        assert Before(es[i], es[j]);
      }
    }
    var req := ScanRequired(es).value;
    forall p | p in req ensures Declares(pod.containers, req[p]) {
      assert req[p] in es;
    }
    forall e | Declares(pod.containers, e) ensures e.offerPort in req && req[e.offerPort] == e {
      var x := EntryIndex(pod.containers, e);
    }
    if r.Success? {
      forall e | Declares(pod.containers, e) ensures Covered(offer, e.offerPort) {
        assert e.offerPort !in Unmatched(req, offer);
      }
      forall e ensures e in r.value <==> Declares(pod.containers, e) {
        if e in r.value {
          var p :| p in req && req[p] == e;
        }
      }
    } else {
      var ports := r.error.ports;
      var missing := Unmatched(req, offer);
      var p :| p in missing;
      assert Declares(pod.containers, req[p]) && !Covered(offer, req[p].offerPort);
      forall i, j | 0 <= i < j < |ports| ensures ports[i] != ports[j] {
        if ports[i] == ports[j] {
          TwiceInSeq(ports, i, j);
        }
      }
      forall q ensures q in ports <==> (exists e :: Declares(pod.containers, e) && e.offerPort == q) && !Covered(offer, q) {
        assert q in ports <==> q in multiset(ports);
        if q in missing {
          assert Declares(pod.containers, req[q]);
        }
      }
    }
  }

  /** A value at two positions of a sequence occurs at least twice in its multiset. */
  lemma TwiceInSeq<T>(s: seq<T>, i: nat, j: nat)
    requires i < j < |s| && s[i] == s[j]
    ensures multiset(s)[s[i]] >= 2
  {
    assert s == s[..j] + [s[j]] + s[j + 1..];
    assert s[..j][i] == s[i];
  }
}
