/**
 Resource vectors over real quantities, with the tolerance of resource comparisons
 (pkg/scheduler/api/resource_info.go).
 */
module Quantities {

  /** A resource vector; an absent dimension reads as zero. */
  type Vec = map<string, real>

  function Get(v: Vec, d: string): real {
    if d in v then v[d] else 0.0
  }

  function Add(v: Vec, w: Vec): Vec {
    map d | d in v.Keys + w.Keys :: Get(v, d) + Get(w, d)
  }

  function Sub(v: Vec, w: Vec): Vec {
    map d | d in v.Keys + w.Keys :: Get(v, d) - Get(w, d)
  }

  function Multi(v: Vec, ratio: real): Vec {
    map d | d in v :: v[d] * ratio
  }

  const MIN_RESOURCE := 0.1

  /** ResourceNames: the dimensions of a noticeable amount. */
  function Names(v: Vec): set<string> {
    set d | d in v && v[d] >= MIN_RESOURCE
  }

  ghost predicate NonNegative(v: Vec) {
    forall d | d in v :: v[d] >= 0.0
  }

  // ----- sums over a map

  ghost function RSum(m: map<string, real>): real {
    if m == map[] then 0.0
    else
      var k :| k in m;
      m[k] + RSum(m - {k})
  }

  lemma {:induction false} RSumAt(m: map<string, real>, k: string)
    requires k in m
    ensures RSum(m) == m[k] + RSum(m - {k})
    decreases |m|
  {
    var first :| first in m && RSum(m) == m[first] + RSum(m - {first});
    if first != k {
      RSumAt(m - {first}, k);
      RSumAt(m - {k}, first);
      assert m - {first} - {k} == m - {k} - {first};
    }
  }

  /** Sums compare as their terms do. */
  lemma {:induction false} RSumMonotone(m: map<string, real>, m': map<string, real>)
    requires m.Keys == m'.Keys && forall k | k in m :: m[k] <= m'[k]
    ensures RSum(m) <= RSum(m')
    decreases |m|
  {
    if m != map[] {
      var k :| k in m;
      RSumAt(m, k);
      RSumAt(m', k);
      RSumMonotone(m - {k}, m' - {k});
    } else {
      assert m' == map[];
    }
  }

  lemma {:induction false} RSumNonNegative(m: map<string, real>)
    requires forall k | k in m :: m[k] >= 0.0
    ensures RSum(m) >= 0.0
    decreases |m|
  {
    if m != map[] {
      var k :| k in m;
      RSumAt(m, k);
      RSumNonNegative(m - {k});
    }
  }

  lemma {:induction false} AllZero(m: map<string, real>)
    requires forall k | k in m :: m[k] == 0.0
    ensures RSum(m) == 0.0
    decreases |m|
  {
    if m != map[] {
      var k :| k in m;
      RSumAt(m, k);
      AllZero(m - {k});
    }
  }

  // ----- comparison with a tolerance

  function Abs(x: real): real {
    if x < 0.0 then -x else x
  }

  predicate Within(l: real, r: real) {
    l < r || Abs(l - r) < MIN_RESOURCE
  }

  /** LessEqual with absent dimensions read as zero: only the left side's dimensions are looked at. */
  predicate LessEqual(l: Vec, r: Vec) {
    forall d | d in l :: Within(l[d], Get(r, d))
  }

  /** On whole numbers the tolerance makes no difference. */
  lemma ExactOnIntegers(l: int, r: int)
    ensures Within(l as real, r as real) <==> l <= r
  {
  }

  // ----- a node's idle resources over real quantities

  /** Idle after tasks were added one after the other; one that does not fit is refused. */
  function IdleAfter(idle: Vec, requests: seq<Vec>): Vec {
    if requests == [] then idle
    else
      var before := IdleAfter(idle, requests[..|requests| - 1]);
      var request := requests[|requests| - 1];
      if LessEqual(request, before) then Sub(before, request) else before
  }

  /** However many tasks are added, the tolerance is overdrawn at most once: idle stays above minus the tolerance. */
  lemma {:induction false} IdleStaysAbove(idle: Vec, requests: seq<Vec>, d: string)
    requires Get(idle, d) > -MIN_RESOURCE && forall i | 0 <= i < |requests| :: NonNegative(requests[i])
    ensures Get(IdleAfter(idle, requests), d) > -MIN_RESOURCE
    decreases |requests|
  {
    if requests != [] {
      IdleStaysAbove(idle, requests[..|requests| - 1], d);
      var request := requests[|requests| - 1];
      assert d in request ==> Within(request[d], Get(IdleAfter(idle, requests[..|requests| - 1]), d)) || !LessEqual(request, IdleAfter(idle, requests[..|requests| - 1]));
    }
  }
}
