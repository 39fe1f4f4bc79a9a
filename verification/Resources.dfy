/**
 Resource vectors (pkg/scheduler/api/resource_info.go).

 Quantities are the integers NewResource produces (milli-units and bytes).  A scalar dimension that is
 absent reads as zero, and comparisons are per dimension: a scalar key holding zero may linger.
 A nil and an empty ScalarResources map are one and the same here: the modelled operations create the
 map only in order to store a key into it.
 */
module Resources {

  datatype Dim = Cpu | Memory | Scalar(name: string)

  datatype Resource = Resource(milliCPU: int, memory: int, scalars: map<string, int>)

  const EMPTY := Resource(0, 0, map[])

  function Get(r: Resource, d: Dim): int {
    match d
    case Cpu => r.milliCPU
    case Memory => r.memory
    case Scalar(n) => if n in r.scalars then r.scalars[n] else 0
  }

  ghost predicate NonNegative(r: Resource) {
    forall d :: Get(r, d) >= 0
  }

  /** Equal in every dimension, whatever zero-valued keys linger. */
  ghost predicate Same(r: Resource, rr: Resource) {
    forall d :: Get(r, d) == Get(rr, d)
  }

  function Add(r: Resource, rr: Resource): (s: Resource)
    ensures forall d :: Get(s, d) == Get(r, d) + Get(rr, d)
  {
    Resource(r.milliCPU + rr.milliCPU, r.memory + rr.memory,
             map n | n in r.scalars.Keys + rr.scalars.Keys :: Get(r, Scalar(n)) + Get(rr, Scalar(n)))
  }

  /** `LessEqual(.., Zero)`: only the dimensions that `r` defines are compared. */
  predicate LessEqual(r: Resource, rr: Resource) {
    r.milliCPU <= rr.milliCPU && r.memory <= rr.memory &&
    forall n | n in r.scalars :: r.scalars[n] <= Get(rr, Scalar(n))
  }

  /** `sub`, without assertion: a receiver without scalar map ignores the scalars of the argument. */
  function RawSub(r: Resource, rr: Resource): (s: Resource)
    ensures forall d :: Get(s, d) == Get(r, d) - Get(rr, d) || (r.scalars == map[] && d.Scalar? && Get(s, d) == 0)
    ensures r.scalars != map[] ==> s.scalars != map[]
    ensures r.scalars == map[] ==> s.scalars == map[]
  {
    Resource(r.milliCPU - rr.milliCPU, r.memory - rr.memory,
             if r.scalars == map[] then r.scalars
             else
               var s := map n | n in r.scalars.Keys + rr.scalars.Keys :: Get(r, Scalar(n)) - Get(rr, Scalar(n));
               assert s.Keys == r.scalars.Keys + rr.scalars.Keys;
               s)
  }

  /** `Sub`, whose assertion is the precondition: every call of it in this project shows that the assertion holds. */
  function Sub(r: Resource, rr: Resource): (s: Resource)
    requires LessEqual(rr, r)
    ensures NonNegative(rr) ==> forall d :: Get(s, d) == Get(r, d) - Get(rr, d)
  {
    assert forall n :: n in rr.scalars && r.scalars == map[] ==> Get(rr, Scalar(n)) <= 0;
    RawSub(r, rr)
  }

  /** For a non-negative right-hand side the comparison of the defined dimensions covers all of them. */
  lemma LessEqualIsPerDimension(r: Resource, rr: Resource)
    requires NonNegative(rr)
    ensures LessEqual(r, rr) <==> forall d :: Get(r, d) <= Get(rr, d)
  {
    if forall d :: Get(r, d) <= Get(rr, d) {
      assert Get(r, Cpu) <= Get(rr, Cpu) && Get(r, Memory) <= Get(rr, Memory);
      forall n | n in r.scalars
        ensures r.scalars[n] <= Get(rr, Scalar(n))
      {
        assert Get(r, Scalar(n)) <= Get(rr, Scalar(n));
      }
    }
  }

  lemma LessEqualFromDimensions(r: Resource, rr: Resource)
    requires forall d :: Get(r, d) <= Get(rr, d)
    ensures LessEqual(r, rr)
  {
    assert Get(r, Cpu) <= Get(rr, Cpu) && Get(r, Memory) <= Get(rr, Memory);
    forall n | n in r.scalars
      ensures r.scalars[n] <= Get(rr, Scalar(n))
    {
      assert Get(r, Scalar(n)) <= Get(rr, Scalar(n));
    }
  }

  /** `IsEmpty`: no dimension reaches minResource, that is, over integers, no dimension is positive. */
  predicate IsEmpty(r: Resource) {
    r.milliCPU <= 0 && r.memory <= 0 && forall n | n in r.scalars :: r.scalars[n] <= 0
  }
}
