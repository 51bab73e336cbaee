/**
 * The Mesos records the binding engine consumes and produces, reduced to plain
 * values: offers, their named resources (a scalar or a list of closed ranges),
 * and the executor descriptor carried by every task.
 */
module Mesos {
  import opened Wrappers
  import opened Api

  /** Go's `uint64`, the type of offered port-range bounds and of mapped host ports. */
  type Uint64 = x: int | 0 <= x < 0x1_0000_0000_0000_0000

  const TwoTo64: int := 0x1_0000_0000_0000_0000

  /** Go's conversion `uint64(v)` of a signed 64-bit value: two's-complement wrap-around. */
  function ToUint64(x: Int64): (u: Uint64)
    ensures (u - x) % TwoTo64 == 0
    ensures u == 0 <==> x == 0
    ensures 0 <= x ==> u == x
  {
    if x < 0 then x + TwoTo64 else x
  }

  /** A closed interval [begin, end] of a range-valued resource. */
  datatype ValueRange = ValueRange(begin: Uint64, end: Uint64)

  predicate Contains(r: ValueRange, p: Uint64)
  {
    r.begin <= p <= r.end
  }

  /**
   * A named resource of an offer. A scalar resource has `scalar` set; a range
   * resource lists its ranges, and a resource that carries no ranges has the
   * empty list here.
   */
  datatype Resource = Resource(name: string, scalar: Option<real>, ranges: seq<ValueRange>)

  function ScalarResource(name: string, value: real): Resource
  {
    Resource(name, Some(value), [])
  }

  datatype Offer = Offer(id: string, slaveId: string, resources: seq<Resource>)

  /** Opaque descriptor of the executor that runs a pod's containers. */
  datatype ExecutorInfo = ExecutorInfo(executorId: string)

  /** Every range of every resource named "ports", in offer order. */
  function PortRanges(rs: seq<Resource>): (ranges: seq<ValueRange>)
    ensures forall rg :: rg in ranges <==>
      exists k :: 0 <= k < |rs| && rs[k].name == "ports" && rg in rs[k].ranges
  {
    if rs == [] then []
    else
      var last := rs[|rs| - 1];
      var earlier := PortRanges(rs[..|rs| - 1]);
      assert forall k :: 0 <= k < |rs| - 1 ==> rs[..|rs| - 1][k] == rs[k];
      earlier + (if last.name == "ports" then last.ranges else [])
  }

  /** Port `p` lies in some range of some "ports" resource of the offer. */
  ghost predicate Covered(offer: Offer, p: Uint64)
  {
    exists rg :: rg in PortRanges(offer.resources) && Contains(rg, p)
  }

  /** Every resource named `name` carries a scalar value. */
  predicate ScalarsPresent(rs: seq<Resource>, name: string)
  {
    forall r :: r in rs && r.name == name ==> r.scalar.Some?
  }

  /**
   * The value a loop over `rs` that overwrites a variable initialised to 0 with
   * each scalar named `name` ends with: the last such scalar, or 0 if none.
   */
  function LastScalar(rs: seq<Resource>, name: string): real
    requires ScalarsPresent(rs, name)
  {
    if rs == [] then 0.0
    else if rs[|rs| - 1].name == name then rs[|rs| - 1].scalar.value
    else LastScalar(rs[..|rs| - 1], name)
  }

  /** A resource that is absent counts as 0. */
  lemma {:induction false} LastScalarAbsent(rs: seq<Resource>, name: string)
    requires forall k :: 0 <= k < |rs| ==> rs[k].name != name
    ensures ScalarsPresent(rs, name) && LastScalar(rs, name) == 0.0
  {
    if rs != [] {
      LastScalarAbsent(rs[..|rs| - 1], name);
    }
  }

  /** Later occurrences overwrite earlier ones: the last resource named `name` decides. */
  lemma {:induction false} LastScalarIsLastWrite(rs: seq<Resource>, name: string, k: nat)
    requires ScalarsPresent(rs, name)
    requires k < |rs| && rs[k].name == name
    requires forall j :: k < j < |rs| ==> rs[j].name != name
    ensures LastScalar(rs, name) == rs[k].scalar.value
  {
    if k < |rs| - 1 {
      LastScalarIsLastWrite(rs[..|rs| - 1], name, k);
    }
  }
}
