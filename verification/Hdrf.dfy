/**
 The hierarchical drf tree (pkg/scheduler/plugins/drf/drf.go), over real quantities.

 The tree is a value: the pointers of the source are not modelled, and a leaf's attributes are a copy of
 what drf keeps for the job.
 */
module Hdrf {
  import opened Quantities

  // ----- dominant shares

  /** Share, for a resource of which the total has a noticeable amount. */
  function Portion(v: Vec, total: Vec, d: string): real
    requires d in Names(total)
  {
    Get(v, d) / total[d]
  }

  /** `r` is the largest share of `v` in the total, and at least zero. */
  ghost predicate IsShare(v: Vec, total: Vec, r: real) {
    r >= 0.0 && (forall d | d in Names(total) :: Portion(v, total, d) <= r) &&
    (r == 0.0 || exists d :: d in Names(total) && r == Portion(v, total, d))
  }

  lemma ShareUnique(v: Vec, total: Vec, r: real, r': real)
    requires IsShare(v, total, r) && IsShare(v, total, r')
    ensures r == r'
  {
  }

  /** calculateShare, for any order of the resource names. */
  method CalculateShare(v: Vec, total: Vec) returns (res: real)
    ensures IsShare(v, total, res)
  {
    res := 0.0;
    var todo := Names(total);
    while todo != {}
      invariant todo <= Names(total) && res >= 0.0
      invariant forall d | d in Names(total) && d !in todo :: Portion(v, total, d) <= res
      invariant res == 0.0 || exists d :: d in Names(total) && res == Portion(v, total, d)
      decreases todo
    {
      var d :| d in todo;
      var share := Portion(v, total, d);
      if share > res {
        res := share;
      }
      todo := todo - {d};
    }
  }

  lemma {:induction false} ShareExists(v: Vec, total: Vec, names: set<string>) returns (r: real)
    requires names <= Names(total)
    ensures r >= 0.0 && (forall d | d in names :: Portion(v, total, d) <= r)
    ensures r == 0.0 || exists d :: d in names && r == Portion(v, total, d)
    decreases names
  {
    if names == {} {
      r := 0.0;
    } else {
      var d :| d in names;
      r := ShareExists(v, total, names - {d});
      if Portion(v, total, d) > r {
        r := Portion(v, total, d);
      }
    }
  }

  ghost function ShareOf(v: Vec, total: Vec): (r: real)
    ensures IsShare(v, total, r)
  {
    assert exists r :: IsShare(v, total, r) by {
      var r := ShareExists(v, total, Names(total));
      assert IsShare(v, total, r);
    }
    var r :| IsShare(v, total, r);
    r
  }

  function Times(c: real, x: real): real {
    c * x
  }

  /** The dominant share scales with the vector. */
  lemma ShareScales(v: Vec, total: Vec, c: real)
    requires c >= 0.0
    ensures ShareOf(Multi(v, c), total) == Times(c, ShareOf(v, total))
  {
    hide ShareOf, Portion, Multi, Names, Times;
    var r := ShareOf(v, total);
    forall d | d in Names(total)
      ensures Portion(Multi(v, c), total, d) == Times(c, Portion(v, total, d)) <= Times(c, r)
    {
      PortionScales(v, total, c, d);
      TimesMonotone(Portion(v, total, d), r, c);
    }
    TimesMonotone(0.0, r, c);
    assert IsShare(Multi(v, c), total, Times(c, r));
    ShareUnique(Multi(v, c), total, Times(c, r), ShareOf(Multi(v, c), total));
  }

  lemma TimesMonotone(x: real, y: real, c: real)
    requires c >= 0.0 && x <= y
    ensures Times(c, x) <= Times(c, y) && Times(c, 0.0) == 0.0
  {
    Monotone(x, y, c);
  }

  lemma PortionScales(v: Vec, total: Vec, c: real, d: string)
    requires d in Names(total)
    ensures Portion(Multi(v, c), total, d) == Times(c, Portion(v, total, d))
  {
    Fraction(Get(v, d), total[d], c);
  }

  lemma Fraction(x: real, y: real, c: real)
    requires y != 0.0
    ensures (x * c) / y == c * (x / y)
  {
    assert x == (x / y) * y;
    assert x * c == (c * (x / y)) * y;
  }

  lemma Monotone(x: real, y: real, c: real)
    requires c >= 0.0 && x <= y
    ensures c * x <= c * y
  {
    assert c * (y - x) >= 0.0;
  }

  /** A vector within the total has a share of at most one. */
  lemma ShareWithin(v: Vec, total: Vec)
    requires forall d | d in Names(total) :: Get(v, d) <= total[d]
    ensures ShareOf(v, total) <= 1.0
  {
    var r := ShareOf(v, total);
    if r != 0.0 {
      var d :| d in Names(total) && r == Portion(v, total, d);
      assert total[d] > 0.0;
      assert Portion(v, total, d) <= 1.0 by {
        Fraction(1.0, total[d], Get(v, d));
      }
    }
  }

  // ----- the tree

  datatype HNode =
    | Leaf(weight: real, alloc: Vec, share: real, saturated: bool, request: Vec)
    | Inner(weight: real, alloc: Vec, share: real, saturated: bool, children: map<string, HNode>)

  /** resourceSaturated: some noticeable allocation meets the request, or lies in a dimension in short supply. */
  predicate ResourceSaturated(alloc: Vec, request: Vec, demanding: set<string>) {
    exists d | d in Names(alloc) ::
      (Get(request, d) != 0.0 && alloc[d] >= Get(request, d)) || (d !in demanding && Get(request, d) != 0.0)
  }

  /** An updated child counts unless it is empty. */
  predicate Counts(child: HNode) {
    child.share != 0.0
  }

  /** The smallest dominant share among unsaturated, non-empty children, and at most one. */
  ghost predicate IsMdr(children: map<string, HNode>, total: Vec, m: real) {
    m <= 1.0 &&
    (forall k | k in children && Counts(children[k]) && !children[k].saturated :: m <= ShareOf(children[k].alloc, total)) &&
    (m == 1.0 || exists k :: k in children && Counts(children[k]) && !children[k].saturated && m == ShareOf(children[k].alloc, total))
  }

  lemma MdrUnique(children: map<string, HNode>, total: Vec, m: real, m': real)
    requires IsMdr(children, total, m) && IsMdr(children, total, m')
    ensures m == m'
  {
  }

  /** What a child adds to its parent: saturated children as they are, others scaled down to the common share. */
  function Contribution(child: HNode, mdr: real): Vec {
    if !Counts(child) then map[]
    else if child.saturated then child.alloc
    else Multi(child.alloc, mdr / child.share)
  }

  ghost function Contributions(children: map<string, HNode>, mdr: real, d: string): map<string, real> {
    map k | k in children :: Get(Contribution(children[k], mdr), d)
  }

  /** The sum of all contributions. */
  ghost function SumOf(children: map<string, HNode>, mdr: real): Vec {
    map d | d in (set k, d | k in children && d in Contribution(children[k], mdr) :: d) :: RSum(Contributions(children, mdr, d))
  }

  lemma MdrExists(children: map<string, HNode>, total: Vec, names: set<string>) returns (m: real)
    requires names <= children.Keys
    ensures m <= 1.0
    ensures forall k | k in names && Counts(children[k]) && !children[k].saturated :: m <= ShareOf(children[k].alloc, total)
    ensures m == 1.0 || exists k :: k in names && Counts(children[k]) && !children[k].saturated && m == ShareOf(children[k].alloc, total)
    decreases names
  {
    if names == {} {
      m := 1.0;
    } else {
      var k :| k in names;
      m := MdrExists(children, total, names - {k});
      if Counts(children[k]) && !children[k].saturated && ShareOf(children[k].alloc, total) < m {
        m := ShareOf(children[k].alloc, total);
      }
    }
  }

  ghost function Mdr(children: map<string, HNode>, total: Vec): (m: real)
    ensures IsMdr(children, total, m)
  {
    assert exists m :: IsMdr(children, total, m) by {
      var m := MdrExists(children, total, children.Keys);
      assert IsMdr(children, total, m);
    }
    var m :| IsMdr(children, total, m);
    m
  }

  predicate AllSaturated(children: map<string, HNode>) {
    forall k | k in children :: children[k].saturated
  }

  /** The tree after updateHierarchicalShare. */
  ghost function Updated(n: HNode, demanding: set<string>, total: Vec): HNode {
    match n
    case Leaf(weight, alloc, share, _, request) => Leaf(weight, alloc, share, ResourceSaturated(alloc, request, demanding), request)
    case Inner(weight, _, _, _, children) =>
      var children' := map k | k in children :: Updated(children[k], demanding, total);
      Combined(weight, children', total)
  }

  /** An inner node recomputed from updated children. */
  ghost function Combined(weight: real, children: map<string, HNode>, total: Vec): HNode {
    var alloc := SumOf(children, Mdr(children, total));
    Inner(weight, alloc, ShareOf(alloc, total), AllSaturated(children), children)
  }

  /** updateHierarchicalShare: recursion over the children, then one loop for the minimum and one for the sum. */
  method UpdateShares(n: HNode, demanding: set<string>, total: Vec) returns (n': HNode)
    ensures n' == Updated(n, demanding, total) && FlagsRight(n', demanding)
    decreases n
  {
    hide FlagsRight, Combined, ResourceSaturated, ShareOf, IsShare, IsMdr, Mdr, SumOf;
    match n {
      case Leaf(weight, alloc, share, _, request) =>
        var saturated := ResourceSaturated(alloc, request, demanding);
        n' := Leaf(weight, alloc, share, saturated, request);
      case Inner(weight, _, _, _, children) =>
        var children' := UpdateChildren(n, demanding, total);
        n' := Combine(weight, children', total);
        UpdatedInner(n, children', demanding, total);
    }
    UpdatedFlags(n, demanding, total);
  }

  lemma UpdatedInner(n: HNode, children': map<string, HNode>, demanding: set<string>, total: Vec)
    requires n.Inner? && children'.Keys == n.children.Keys
    requires forall k | k in n.children :: children'[k] == Updated(n.children[k], demanding, total)
    ensures Updated(n, demanding, total) == Combined(n.weight, children', total)
  {
    hide Combined;
    assert children' == map k | k in n.children :: Updated(n.children[k], demanding, total);
  }

  method UpdateChildren(n: HNode, demanding: set<string>, total: Vec) returns (children': map<string, HNode>)
    requires n.Inner?
    ensures children' == map k | k in n.children :: Updated(n.children[k], demanding, total)
    decreases n, 0
  {
    children' := map[];
    var todo := n.children.Keys;
    while todo != {}
      invariant todo <= n.children.Keys
      invariant children' == map k | k in n.children && k !in todo :: Updated(n.children[k], demanding, total)
      decreases todo
    {
      var k :| k in todo;
      var child := UpdateShares(n.children[k], demanding, total);
      children' := children'[k := child];
      todo := todo - {k};
    }
  }

  method Combine(weight: real, children: map<string, HNode>, total: Vec) returns (n: HNode)
    ensures n == Combined(weight, children, total)
  {
    hide ShareOf, IsShare, Contribution;
    var mdr := 1.0;
    var todo := children.Keys;
    while todo != {}
      invariant todo <= children.Keys && mdr <= 1.0
      invariant forall k | k in children && k !in todo && Counts(children[k]) && !children[k].saturated :: mdr <= ShareOf(children[k].alloc, total)
      invariant mdr == 1.0 || exists k :: k in children && Counts(children[k]) && !children[k].saturated && mdr == ShareOf(children[k].alloc, total)
      decreases todo
    {
      var k :| k in todo;
      todo := todo - {k};
      var child := children[k];
      if child.share != 0.0 && !child.saturated {
        var resShare := CalculateShare(child.alloc, total);
        ShareUnique(child.alloc, total, resShare, ShareOf(child.alloc, total));
        if resShare < mdr {
          mdr := resShare;
        }
      }
    }
    assert IsMdr(children, total, mdr);
    MdrUnique(children, total, mdr, Mdr(children, total));
    var alloc, saturated := SumUp(children, mdr);
    var share := CalculateShare(alloc, total);
    ShareUnique(alloc, total, share, ShareOf(alloc, total));
    n := Inner(weight, alloc, share, saturated, children);
  }

  method SumUp(children: map<string, HNode>, mdr: real) returns (alloc: Vec, saturated: bool)
    ensures alloc == SumOf(children, mdr) && saturated == AllSaturated(children)
  {
    alloc, saturated := map[], true;
    var todo := children.Keys;
    assert Seen(children, todo) == map[];
    while todo != {}
      invariant todo <= children.Keys
      invariant alloc == SumOf(Seen(children, todo), mdr)
      invariant saturated == AllSaturated(Seen(children, todo))
      decreases todo
    {
      var k :| k in todo;
      var child := children[k];
      if !child.saturated {
        saturated := false;
      }
      SeenOneMore(children, todo, k, mdr);
      if child.share != 0.0 {
        if child.saturated {
          alloc := Add(alloc, child.alloc);
        } else {
          alloc := Add(alloc, Multi(child.alloc, mdr / child.share));
        }
      }
      todo := todo - {k};
    }
    assert Seen(children, todo) == children;
  }

  ghost function Seen(children: map<string, HNode>, todo: set<string>): map<string, HNode> {
    map k | k in children && k !in todo :: children[k]
  }

  lemma SeenOneMore(children: map<string, HNode>, todo: set<string>, k: string, mdr: real)
    requires k in todo && k in children
    ensures SumOf(Seen(children, todo - {k}), mdr) ==
            if Counts(children[k]) then Add(SumOf(Seen(children, todo), mdr), Contribution(children[k], mdr))
            else SumOf(Seen(children, todo), mdr)
    ensures AllSaturated(Seen(children, todo - {k})) == (AllSaturated(Seen(children, todo)) && children[k].saturated)
  {
    hide Contribution, Contributions, SumOf, Counts, RSum, AllSaturated;
    var before := Seen(children, todo);
    assert Seen(children, todo - {k}) == before[k := children[k]];
    SumOneMore(before, k, children[k], mdr);
    SaturatedOneMore(before, k, children[k]);
  }

  lemma SaturatedOneMore(before: map<string, HNode>, k: string, child: HNode)
    requires k !in before
    ensures AllSaturated(before[k := child]) == (AllSaturated(before) && child.saturated)
  {
    var after := before[k := child];
    assert after[k] == child && forall i | i in before :: after[i] == before[i];
  }

  lemma SumOneMore(before: map<string, HNode>, k: string, child: HNode, mdr: real)
    requires k !in before
    ensures SumOf(before[k := child], mdr) ==
            if Counts(child) then Add(SumOf(before, mdr), Contribution(child, mdr)) else SumOf(before, mdr)
  {
    hide Contribution, Contributions, RSum;
    var after := before[k := child];
    forall d
      ensures d in SumOf(after, mdr) <==> d in SumOf(before, mdr) || d in Contribution(child, mdr)
    {
      InSumOneMore(before, k, child, mdr, d);
    }
    forall d
      ensures RSum(Contributions(after, mdr, d)) == RSum(Contributions(before, mdr, d)) + Get(Contribution(child, mdr), d)
      ensures d !in SumOf(before, mdr) ==> RSum(Contributions(before, mdr, d)) == 0.0
    {
      TermsOneMore(before, k, child, mdr, d);
      NoContribution(before, mdr, d);
    }
    NoneWhenEmpty(child, mdr);
    assert SumOf(after, mdr).Keys == SumOf(before, mdr).Keys + Contribution(child, mdr).Keys;
  }

  lemma NoneWhenEmpty(child: HNode, mdr: real)
    ensures !Counts(child) ==> Contribution(child, mdr) == map[]
  {
  }

  lemma TermsOneMore(before: map<string, HNode>, k: string, child: HNode, mdr: real, d: string)
    requires k !in before
    ensures RSum(Contributions(before[k := child], mdr, d)) == RSum(Contributions(before, mdr, d)) + Get(Contribution(child, mdr), d)
  {
    hide Contribution, RSum, Get;
    var after := before[k := child];
    RSumAt(Contributions(after, mdr, d), k);
    assert Contributions(after, mdr, d) - {k} == Contributions(before, mdr, d);
  }

  lemma InSumOneMore(before: map<string, HNode>, k: string, child: HNode, mdr: real, d: string)
    requires k !in before
    ensures d in SumOf(before[k := child], mdr) <==> d in SumOf(before, mdr) || d in Contribution(child, mdr)
  {
    hide Contribution, RSum;
    var after := before[k := child];
    if d in SumOf(before, mdr) {
      var i :| i in before && d in Contribution(before[i], mdr);
      assert i in after && d in Contribution(after[i], mdr);
    }
    if d in Contribution(child, mdr) {
      assert d in Contribution(after[k], mdr);
    }
  }

  lemma NoContribution(children: map<string, HNode>, mdr: real, d: string)
    ensures d !in SumOf(children, mdr) ==> RSum(Contributions(children, mdr, d)) == 0.0
  {
    if d !in SumOf(children, mdr) {
      assert forall k | k in children :: d !in Contribution(children[k], mdr);
      var cs := Contributions(children, mdr, d);
      var zeros: map<string, real> := map k | k in children :: 0.0;
      assert cs == zeros;
      RSumMonotone(cs, zeros);
      RSumNonNegative(cs);
      AllZero(zeros);
    }
  }

  // ----- fairness of an updated tree

  /** What the jobs below `n` hold of `d`. */
  ghost function LeafSum(n: HNode, d: string): real {
    match n
    case Leaf(_, alloc, _, _, _) => Get(alloc, d)
    case Inner(_, _, _, _, children) => RSum(map k | k in children :: LeafSum(children[k], d))
  }

  ghost function LeafSums(children: map<string, HNode>, d: string): map<string, real> {
    map k | k in children :: LeafSum(children[k], d)
  }

  /** The jobs' shares are those of what they hold. */
  ghost predicate LeavesOk(n: HNode, total: Vec) {
    match n
    case Leaf(_, alloc, share, _, _) => NonNegative(alloc) && share == ShareOf(alloc, total)
    case Inner(_, _, _, _, children) => forall k | k in children :: LeavesOk(children[k], total)
  }

  /** At most what the jobs below hold. */
  ghost predicate Covered(n: HNode) {
    forall d :: Get(n.alloc, d) <= LeafSum(n, d)
  }

  /** Unsaturated children contribute one and the same dominant share; saturated ones contribute all they hold. */
  ghost predicate EvenHanded(children: map<string, HNode>, total: Vec) {
    forall k | k in children && Counts(children[k]) ::
      if children[k].saturated then Contribution(children[k], Mdr(children, total)) == children[k].alloc
      else ShareOf(Contribution(children[k], Mdr(children, total)), total) == Mdr(children, total)
  }

  /** Every node of the tree is covered by its jobs, carries the share of its vector, and is even-handed. */
  ghost predicate Fair(n: HNode, total: Vec) {
    NonNegative(n.alloc) && n.share == ShareOf(n.alloc, total) && Covered(n) &&
    (n.Inner? ==> EvenHanded(n.children, total) && forall k | k in n.children :: Fair(n.children[k], total))
  }

  lemma {:induction false} UpdatedIsFair(n: HNode, demanding: set<string>, total: Vec)
    requires LeavesOk(n, total)
    ensures Fair(Updated(n, demanding, total), total)
    decreases n
  {
    hide IsShare, ShareOf, Combined, EvenHanded, NonNegative, Get;
    match n {
      case Leaf(_, _, _, _, _) =>
        LeafIsFair(n, ResourceSaturated(n.alloc, n.request, demanding), total);
      case Inner(weight, _, _, _, children) =>
        var children' := map k | k in children :: Updated(children[k], demanding, total);
        forall k | k in children' ensures Fair(children'[k], total) {
          UpdatedIsFair(children[k], demanding, total);
        }
        UpdatedInner(n, children', demanding, total);
        CombinedIsFair(weight, children', total);
    }
  }

  lemma LeafIsFair(n: HNode, saturated: bool, total: Vec)
    requires n.Leaf? && LeavesOk(n, total)
    ensures Fair(Leaf(n.weight, n.alloc, n.share, saturated, n.request), total)
  {
  }

  lemma CombinedIsFair(weight: real, children: map<string, HNode>, total: Vec)
    requires forall k | k in children :: Fair(children[k], total)
    ensures Fair(Combined(weight, children, total), total)
  {
    hide IsShare, ShareOf, SumOf, Contribution, LeafSum, Get, RSum;
    var mdr := Mdr(children, total);
    forall k | k in children && Counts(children[k])
      ensures if children[k].saturated then Contribution(children[k], mdr) == children[k].alloc
              else ShareOf(Contribution(children[k], mdr), total) == mdr
    {
      ContributionIsEven(children, total, k);
    }
    forall d
      ensures 0.0 <= Get(SumOf(children, mdr), d) <= RSum(LeafSums(children, d))
    {
      SumIsCovered(children, total, d);
    }
    var n := Combined(weight, children, total);
    CoveredInner(n);
    GetNonNegative(n.alloc);
  }

  lemma CoveredInner(n: HNode)
    requires n.Inner? && forall d :: Get(n.alloc, d) <= RSum(LeafSums(n.children, d))
    ensures Covered(n)
  {
  }

  lemma GetNonNegative(v: Vec)
    requires forall d :: 0.0 <= Get(v, d)
    ensures NonNegative(v)
  {
    forall d | d in v ensures v[d] >= 0.0 {
      assert Get(v, d) == v[d];
    }
  }

  lemma ContributionIsEven(children: map<string, HNode>, total: Vec, k: string)
    requires k in children && Fair(children[k], total) && Counts(children[k])
    ensures if children[k].saturated then Contribution(children[k], Mdr(children, total)) == children[k].alloc
            else ShareOf(Contribution(children[k], Mdr(children, total)), total) == Mdr(children, total)
    ensures forall d :: 0.0 <= Get(Contribution(children[k], Mdr(children, total)), d) <= Get(children[k].alloc, d)
  {
    hide Covered, EvenHanded, IsShare, IsMdr, ShareOf, Mdr, NonNegative, Multi, Get;
    var child, mdr := children[k], Mdr(children, total);
    if child.saturated {
      forall d ensures 0.0 <= Get(child.alloc, d) {
        NotNegative(child.alloc, d);
      }
    } else {
      MdrBounds(children, total, k);
      Ratio(mdr, child.share);
      var ratio := mdr / child.share;
      ShareScales(child.alloc, total, ratio);
      forall d
        ensures 0.0 <= Get(Multi(child.alloc, ratio), d) <= Get(child.alloc, d)
      {
        ScaledDown(child.alloc, ratio, d);
      }
    }
  }

  lemma NotNegative(v: Vec, d: string)
    requires NonNegative(v)
    ensures Get(v, d) >= 0.0
  {
  }

  lemma Ratio(m: real, s: real)
    requires 0.0 <= m <= s && s != 0.0
    ensures 0.0 <= m / s <= 1.0 && m / s * s == m
  {
  }

  lemma MdrBounds(children: map<string, HNode>, total: Vec, k: string)
    requires k in children && Counts(children[k]) && !children[k].saturated
    ensures 0.0 <= Mdr(children, total) <= ShareOf(children[k].alloc, total)
  {
  }

  lemma ScaledDown(v: Vec, ratio: real, d: string)
    requires NonNegative(v) && 0.0 <= ratio <= 1.0
    ensures 0.0 <= Get(Multi(v, ratio), d) <= Get(v, d)
  {
    if d in v {
      Monotone(ratio, 1.0, v[d]);
      Monotone(0.0, ratio, v[d]);
    }
  }

  lemma SumIsCovered(children: map<string, HNode>, total: Vec, d: string)
    requires forall k | k in children :: Fair(children[k], total)
    ensures 0.0 <= Get(SumOf(children, Mdr(children, total)), d) <= RSum(LeafSums(children, d))
  {
    hide IsShare, ShareOf, EvenHanded, Contribution;
    var mdr := Mdr(children, total);
    var cs := Contributions(children, mdr, d);
    NoContribution(children, mdr, d);
    forall k | k in children
      ensures 0.0 <= cs[k] <= LeafSum(children[k], d)
    {
      assert Covered(children[k]);
      NoneWhenEmpty(children[k], mdr);
      GetWithin(children[k], total, d);
      if Counts(children[k]) {
        ContributionIsEven(children, total, k);
      }
    }
    RSumNonNegative(cs);
    RSumMonotone(cs, LeafSums(children, d));
  }

  lemma GetWithin(n: HNode, total: Vec, d: string)
    requires Fair(n, total)
    ensures 0.0 <= Get(n.alloc, d) <= LeafSum(n, d)
  {
  }

  /** A node whose jobs fit in the total has a share of at most one. */
  lemma ShareAtMostOne(n: HNode, total: Vec)
    requires Fair(n, total) && forall d | d in Names(total) :: LeafSum(n, d) <= total[d]
    ensures n.share <= 1.0
  {
    hide IsShare, LeafSum, EvenHanded, ShareOf;
    assert Covered(n);
    ShareWithin(n.alloc, total);
  }

  // ----- what saturation means

  /** The job holds a noticeable amount of `d`, and asks for some. */
  predicate HoldsSome(alloc: Vec, request: Vec, d: string) {
    d in alloc && alloc[d] >= MIN_RESOURCE && Get(request, d) != 0.0
  }

  ghost predicate LeafFlag(alloc: Vec, request: Vec, demanding: set<string>, saturated: bool) {
    (forall d | HoldsSome(alloc, request, d) && alloc[d] >= Get(request, d) :: saturated) &&
    (forall d | HoldsSome(alloc, request, d) && d !in demanding :: saturated) &&
    ((forall d | HoldsSome(alloc, request, d) :: alloc[d] < Get(request, d) && d in demanding) ==> !saturated)
  }

  ghost predicate LeavesSaturated(n: HNode) {
    match n
    case Leaf(_, _, _, saturated, _) => saturated
    case Inner(_, _, _, _, children) => forall k | k in children :: LeavesSaturated(children[k])
  }

  /**
   A job that holds all it asks for of some dimension is saturated, and so is one that holds some of a
   dimension in short supply that it asks for; a job below its request wherever it holds something, all of
   which is still demanding, is not. An inner node is saturated exactly if all jobs below it are.
   */
  ghost predicate FlagsRight(n: HNode, demanding: set<string>) {
    match n
    case Leaf(_, alloc, _, saturated, request) => LeafFlag(alloc, request, demanding, saturated)
    case Inner(_, _, _, saturated, children) =>
      (saturated <==> LeavesSaturated(n)) && forall k | k in children :: FlagsRight(children[k], demanding)
  }

  lemma {:induction false} UpdatedFlags(n: HNode, demanding: set<string>, total: Vec)
    ensures FlagsRight(Updated(n, demanding, total), demanding)
    ensures Updated(n, demanding, total).saturated <==> LeavesSaturated(Updated(n, demanding, total))
    decreases n
  {
    hide LeafFlag, ResourceSaturated, Mdr, SumOf, ShareOf;
    match n {
      case Leaf(_, alloc, _, _, request) =>
        LeafFlagRight(alloc, request, demanding);
      case Inner(weight, _, _, _, children) =>
        var children' := map k | k in children :: Updated(children[k], demanding, total);
        forall k | k in children'
          ensures FlagsRight(children'[k], demanding) && (children'[k].saturated <==> LeavesSaturated(children'[k]))
        {
          UpdatedFlags(children[k], demanding, total);
        }
        UpdatedInner(n, children', demanding, total);
    }
  }

  lemma LeafFlagRight(alloc: Vec, request: Vec, demanding: set<string>)
    ensures LeafFlag(alloc, request, demanding, ResourceSaturated(alloc, request, demanding))
  {
    forall d | HoldsSome(alloc, request, d) && (alloc[d] >= Get(request, d) || d !in demanding)
      ensures ResourceSaturated(alloc, request, demanding)
    {
      assert d in Names(alloc);
    }
    if ResourceSaturated(alloc, request, demanding) {
      var d :| d in Names(alloc) && ((Get(request, d) != 0.0 && alloc[d] >= Get(request, d)) || (d !in demanding && Get(request, d) != 0.0));
      assert HoldsSome(alloc, request, d);
    }
  }

  /** Saturation survives a larger allocation and fewer demanding dimensions. */
  lemma SaturationGrows(alloc: Vec, alloc': Vec, request: Vec, demanding: set<string>, demanding': set<string>, flag: bool, flag': bool)
    requires LeafFlag(alloc, request, demanding, flag) && LeafFlag(alloc', request, demanding', flag')
    requires (forall d | d in alloc :: d in alloc' && alloc[d] <= alloc'[d]) && demanding' <= demanding
    ensures flag ==> flag'
  {
    if flag {
      var d :| HoldsSome(alloc, request, d) && !(alloc[d] < Get(request, d) && d in demanding);
      assert HoldsSome(alloc', request, d);
    }
  }
}
