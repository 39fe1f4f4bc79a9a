/**
 The orders of jobs and queues (pkg/scheduler/framework/session_plugins.go, pkg/scheduler/plugins/gang/gang.go,
 pkg/scheduler/plugins/drf/drf.go).
 */
module Ordering {

  /** What the comparators of jobs look at. */
  datatype Job = Job(uid: string, creation: int, ready: bool, share: real)

  type Comparator = (Job, Job) -> int

  /** A total preorder by signs: antisymmetric, and "not after" is transitive. */
  ghost predicate WeakOrder(c: Comparator) {
    (forall a, b :: c(a, b) < 0 <==> c(b, a) > 0) &&
    (forall x, y, z :: c(x, y) <= 0 && c(y, z) <= 0 ==> c(x, z) <= 0)
  }

  // ----- strings

  /** Lexicographic order of strings. */
  predicate StringLess(s: string, t: string) {
    t != [] && (s == [] || s[0] < t[0] || (s[0] == t[0] && StringLess(s[1..], t[1..])))
  }

  lemma {:induction false} StringsCompare(s: string, t: string)
    ensures !(StringLess(s, t) && StringLess(t, s))
    ensures s == t || StringLess(s, t) || StringLess(t, s)
    ensures !StringLess(s, s)
  {
    if s != [] {
      StringsCompare(s[1..], if t == [] then [] else t[1..]);
    }
    if s != [] && t != [] && s[0] == t[0] {
      if s[1..] == t[1..] {
        assert s == [s[0]] + s[1..] && t == [t[0]] + t[1..];
      }
    }
  }

  lemma {:induction false} StringsTransitive(s: string, t: string, u: string)
    requires StringLess(s, t) && StringLess(t, u)
    ensures StringLess(s, u)
  {
    if s != [] && s[0] == t[0] == u[0] {
      StringsTransitive(s[1..], t[1..], u[1..]);
    }
  }

  // ----- jobs

  /** JobOrderFn over the enabled comparators of all tiers, in order. */
  predicate JobOrderFn(cs: seq<Comparator>, l: Job, r: Job) {
    if cs == [] then
      if l.creation == r.creation then StringLess(l.uid, r.uid) else l.creation < r.creation
    else
      var j := cs[0](l, r);
      if j != 0 then j < 0 else JobOrderFn(cs[1..], l, r)
  }

  ghost predicate WeakOrders(cs: seq<Comparator>) {
    forall i | 0 <= i < |cs| :: WeakOrder(cs[i])
  }

  /** Exactly one of two jobs with distinct identifiers comes first, and none comes before itself. */
  lemma {:induction false} JobOrderTotal(cs: seq<Comparator>, a: Job, b: Job)
    requires WeakOrders(cs)
    ensures !JobOrderFn(cs, a, a)
    ensures a.uid != b.uid ==> (JobOrderFn(cs, a, b) <==> !JobOrderFn(cs, b, a))
  {
    if cs == [] {
      StringsCompare(a.uid, b.uid);
    } else {
      assert WeakOrder(cs[0]);
      assert cs[0](a, a) == 0;
      JobOrderTotal(cs[1..], a, b);
    }
  }

  lemma {:induction false} JobOrderTransitive(cs: seq<Comparator>, a: Job, b: Job, c: Job)
    requires WeakOrders(cs) && JobOrderFn(cs, a, b) && JobOrderFn(cs, b, c)
    ensures JobOrderFn(cs, a, c)
  {
    if cs == [] {
      if a.creation == b.creation == c.creation {
        StringsTransitive(a.uid, b.uid, c.uid);
      }
    } else {
      var f := cs[0];
      assert WeakOrder(f);
      assert f(a, b) <= 0 && f(b, c) <= 0;
      assert f(a, c) <= 0;
      if f(a, c) == 0 {
        assert f(c, a) <= 0 && f(b, a) <= 0 && f(c, b) <= 0;
        JobOrderTransitive(cs[1..], a, b, c);
      }
    }
  }

  /** gang: jobs that are ready come last. */
  function GangJobOrder(l: Job, r: Job): int {
    if l.ready && r.ready then 0 else if l.ready then 1 else if r.ready then -1 else 0
  }

  /** drf: the smaller dominant share comes first. */
  function DrfJobOrder(l: Job, r: Job): int {
    if l.share == r.share then 0 else if l.share < r.share then -1 else 1
  }

  lemma PluginOrdersAreWeak()
    ensures WeakOrder(GangJobOrder) && WeakOrder(DrfJobOrder)
  {
  }

  /** With gang and drf in any tiers, in any order and number, jobs are strictly and totally ordered. */
  lemma GangAndDrfOrder(cs: seq<Comparator>, a: Job, b: Job, c: Job)
    requires forall i | 0 <= i < |cs| :: cs[i] == GangJobOrder || cs[i] == DrfJobOrder
    ensures a.uid != b.uid ==> (JobOrderFn(cs, a, b) <==> !JobOrderFn(cs, b, a))
    ensures JobOrderFn(cs, a, b) && JobOrderFn(cs, b, c) ==> JobOrderFn(cs, a, c)
  {
    PluginOrdersAreWeak();
    JobOrderTotal(cs, a, b);
    if JobOrderFn(cs, a, b) && JobOrderFn(cs, b, c) {
      JobOrderTransitive(cs, a, b, c);
    }
  }

  /**
   The first comparator that sees a difference decides: for gang a job that is not ready comes before a ready
   one, for drf the one with the smaller share; and without any difference the older job, then the smaller
   identifier.
   */
  lemma {:induction false} FirstDifferenceDecides(cs: seq<Comparator>, a: Job, b: Job, i: nat)
    requires i <= |cs| && forall k | 0 <= k < i :: cs[k](a, b) == 0
    ensures i < |cs| && cs[i] == GangJobOrder && a.ready != b.ready ==> (JobOrderFn(cs, a, b) <==> b.ready)
    ensures i < |cs| && cs[i] == DrfJobOrder && a.share != b.share ==> (JobOrderFn(cs, a, b) <==> a.share < b.share)
    ensures i == |cs| ==> (JobOrderFn(cs, a, b) <==> a.creation < b.creation || (a.creation == b.creation && StringLess(a.uid, b.uid)))
  {
    if i > 0 {
      FirstDifferenceDecides(cs[1..], a, b, i - 1);
    }
  }

  // ----- queues in the hierarchy

  /** A node of the hierarchical drf tree, as far as comparing queues looks at it. */
  datatype Node = Node(share: real, weight: real, saturated: bool, children: map<string, Node>)

  /** What one level contributes to the comparison: demanding before saturated, then share by weight. */
  datatype Key = Key(saturated: bool, ratio: real)

  function KeyOf(n: Node): Key
    requires n.weight > 0.0
  {
    Key(n.saturated, n.share / n.weight)
  }

  /** The queue's path leads through existing nodes; its first element names the root. */
  predicate OnPath(n: Node, path: seq<string>) {
    path != [] && n.weight > 0.0 && (|path| > 1 ==> path[1] in n.children && OnPath(n.children[path[1]], path[1..]))
  }

  function Keys(n: Node, path: seq<string>): seq<Key>
    requires OnPath(n, path)
  {
    [KeyOf(n)] + if |path| == 1 then [] else Keys(n.children[path[1]], path[1..])
  }

  function CompareKeys(k: Key, l: Key): real {
    if !k.saturated && l.saturated then -1.0
    else if k.saturated && !l.saturated then 1.0
    else k.ratio - l.ratio
  }

  /** The first difference of two key sequences on their common length. */
  function CompareLists(ks: seq<Key>, ls: seq<Key>): real {
    if ks == [] || ls == [] then 0.0
    else if CompareKeys(ks[0], ls[0]) != 0.0 then CompareKeys(ks[0], ls[0])
    else CompareLists(ks[1..], ls[1..])
  }

  lemma {:induction false} KeysLength(n: Node, path: seq<string>)
    requires OnPath(n, path)
    ensures |Keys(n, path)| == |path|
    decreases |path|
  {
    if |path| > 1 {
      KeysLength(n.children[path[1]], path[1..]);
    }
  }

  /** compareQueues walks both paths at once; it computes the first difference of their keys. */
  method CompareQueues(root: Node, lpaths: seq<string>, rpaths: seq<string>) returns (ret: real)
    requires OnPath(root, lpaths) && OnPath(root, rpaths)
    ensures ret == CompareLists(Keys(root, lpaths), Keys(root, rpaths))
  {
    var lnode, rnode := root, root;
    var depth := if |lpaths| < |rpaths| then |lpaths| else |rpaths|;
    var i := 0;
    while i < depth
      invariant 0 <= i <= depth
      invariant i < depth ==>
                  OnPath(lnode, lpaths[i..]) && OnPath(rnode, rpaths[i..]) &&
                  CompareLists(Keys(root, lpaths), Keys(root, rpaths)) ==
                  CompareLists(Keys(lnode, lpaths[i..]), Keys(rnode, rpaths[i..]))
      invariant i == depth ==> CompareLists(Keys(root, lpaths), Keys(root, rpaths)) == 0.0
    {
      if !lnode.saturated && rnode.saturated {
        return -1.0;
      }
      if lnode.saturated && !rnode.saturated {
        return 1.0;
      }
      if lnode.share / lnode.weight == rnode.share / rnode.weight {
        KeysLength(lnode, lpaths[i..]);
        KeysLength(rnode, rpaths[i..]);
        if i < depth - 1 {
          assert lpaths[i..][1..] == lpaths[i + 1..] && rpaths[i..][1..] == rpaths[i + 1..];
          lnode, rnode := lnode.children[lpaths[i + 1]], rnode.children[rpaths[i + 1]];
        }
      } else {
        return lnode.share / lnode.weight - rnode.share / rnode.weight;
      }
      i := i + 1;
    }
    return 0.0;
  }

  /** The node that the path reaches after `i` steps. */
  function NodeAt(n: Node, path: seq<string>, i: nat): Node
    requires OnPath(n, path) && i < |path|
  {
    if i == 0 then n else NodeAt(n.children[path[1]], path[1..], i - 1)
  }

  /** A node that still demands comes before a saturated one; otherwise the one with less share for its weight. */
  predicate Precedes(l: Node, r: Node) {
    (!l.saturated && r.saturated) || (l.saturated == r.saturated && l.share * r.weight < r.share * l.weight)
  }

  predicate Tied(l: Node, r: Node) {
    l.saturated == r.saturated && l.share * r.weight == r.share * l.weight
  }

  lemma QuotientsCompare(x: real, y: real, v: real, w: real)
    requires v > 0.0 && w > 0.0
    ensures x / v < y / w <==> x * w < y * v
    ensures x / v == y / w <==> x * w == y * v
  {
    var a, b := x / v, y / w;
    assert x == a * v && y == b * w;
    assert x * w == a * (v * w) && y * v == b * (v * w);
    var m := v * w;
    assert m > 0.0;
    assert a * m - b * m == (a - b) * m;
    if a < b {
      assert (a - b) * m < 0.0;
    } else if a > b {
      assert (a - b) * m > 0.0;
    }
  }

  lemma KeysCompare(l: Node, r: Node)
    requires l.weight > 0.0 && r.weight > 0.0
    ensures CompareKeys(KeyOf(l), KeyOf(r)) < 0.0 <==> Precedes(l, r)
    ensures CompareKeys(KeyOf(l), KeyOf(r)) == 0.0 <==> Tied(l, r)
  {
    QuotientsCompare(l.share, r.share, l.weight, r.weight);
  }

  /** The nodes of both paths tie above level `i`, and there the first path's node comes first. */
  predicate AheadAt(root: Node, rroot: Node, p: seq<string>, q: seq<string>, i: nat)
    requires OnPath(root, p) && OnPath(rroot, q)
  {
    i < |p| && i < |q| && Precedes(NodeAt(root, p, i), NodeAt(rroot, q, i)) &&
    forall k: nat | k < i :: Tied(NodeAt(root, p, k), NodeAt(rroot, q, k))
  }

  lemma AheadOnce(l: Node, r: Node, p: seq<string>, q: seq<string>, i: nat)
    requires OnPath(l, p) && OnPath(r, q) && AheadAt(l, r, p, q, i)
    ensures if i == 0 then Precedes(l, r) else Tied(l, r) && |p| > 1 && |q| > 1
  {
    assert i > 0 ==> Tied(NodeAt(l, p, 0), NodeAt(r, q, 0));
  }

  lemma AheadBelow(l: Node, r: Node, p: seq<string>, q: seq<string>, i: nat)
    requires OnPath(l, p) && OnPath(r, q) && |p| > 1 && |q| > 1
    ensures AheadAt(l, r, p, q, i + 1) <==> Tied(l, r) && AheadAt(l.children[p[1]], r.children[q[1]], p[1..], q[1..], i)
  {
    hide Tied, Precedes;
    var l', r' := l.children[p[1]], r.children[q[1]];
    forall k: nat ensures k + 1 < |p| ==> NodeAt(l, p, k + 1) == NodeAt(l', p[1..], k)
                  ensures k + 1 < |q| ==> NodeAt(r, q, k + 1) == NodeAt(r', q[1..], k)
    {
    }
    if AheadAt(l, r, p, q, i + 1) {
      assert Tied(NodeAt(l, p, 0), NodeAt(r, q, 0));
      forall k: nat | k < i ensures Tied(NodeAt(l', p[1..], k), NodeAt(r', q[1..], k)) {
        assert Tied(NodeAt(l, p, k + 1), NodeAt(r, q, k + 1));
      }
    }
    if Tied(l, r) && AheadAt(l', r', p[1..], q[1..], i) {
      forall k: nat | k < i + 1 ensures Tied(NodeAt(l, p, k), NodeAt(r, q, k)) {
        if k > 0 {
          assert Tied(NodeAt(l', p[1..], k - 1), NodeAt(r', q[1..], k - 1));
        }
      }
    }
  }

  /** A queue comes first exactly if, at the first level where the nodes of the two paths do not tie, its node precedes. */
  lemma {:induction false} WhoComesFirst(l: Node, r: Node, p: seq<string>, q: seq<string>)
    requires OnPath(l, p) && OnPath(r, q)
    ensures CompareLists(Keys(l, p), Keys(r, q)) < 0.0 <==> exists i: nat :: AheadAt(l, r, p, q, i)
    decreases |p|
  {
    hide Precedes, Tied, CompareKeys, KeyOf;
    KeysCompare(l, r);
    NotBoth(l, r);
    KeysLength(l, p);
    KeysLength(r, q);
    if Precedes(l, r) {
      assert AheadAt(l, r, p, q, 0);
    } else if |p| > 1 && |q| > 1 && Tied(l, r) {
      var l', r' := l.children[p[1]], r.children[q[1]];
      WhoComesFirst(l', r', p[1..], q[1..]);
      if i: nat :| AheadAt(l', r', p[1..], q[1..], i) {
        AheadBelow(l, r, p, q, i);
        assert AheadAt(l, r, p, q, i + 1);
      }
      if i: nat :| AheadAt(l, r, p, q, i) {
        AheadBelow(l, r, p, q, i - 1);
        assert AheadAt(l', r', p[1..], q[1..], i - 1);
      }
    } else {
      forall i: nat | AheadAt(l, r, p, q, i) ensures false {
        AheadOnce(l, r, p, q, i);
      }
    }
  }

  lemma NotBoth(l: Node, r: Node)
    ensures !(Precedes(l, r) && Tied(l, r))
  {
  }

  lemma {:induction false} ListsAntisymmetric(ks: seq<Key>, ls: seq<Key>)
    ensures CompareLists(ks, ls) < 0.0 <==> CompareLists(ls, ks) > 0.0
    ensures CompareLists(ks, ls) == 0.0 <==> CompareLists(ls, ks) == 0.0
  {
    if ks != [] && ls != [] {
      ListsAntisymmetric(ks[1..], ls[1..]);
    }
  }

  /** "Before" is transitive whatever the depths, because the deciding level lies on both common paths. */
  lemma {:induction false} ListsTransitive(ks: seq<Key>, ls: seq<Key>, ms: seq<Key>)
    requires CompareLists(ks, ls) < 0.0 && CompareLists(ls, ms) < 0.0
    ensures CompareLists(ks, ms) < 0.0
  {
    if CompareKeys(ks[0], ls[0]) == 0.0 && CompareKeys(ls[0], ms[0]) == 0.0 {
      ListsTransitive(ks[1..], ls[1..], ms[1..]);
    }
  }

  /** "Not after" passes on, unless the middle is tied with both and is strictly shorter than both. */
  lemma {:induction false} ListsWeak(ks: seq<Key>, ls: seq<Key>, ms: seq<Key>)
    requires CompareLists(ks, ls) <= 0.0 && CompareLists(ls, ms) <= 0.0
    ensures CompareLists(ks, ms) <= 0.0 || (CompareLists(ks, ls) == 0.0 && CompareLists(ls, ms) == 0.0 && |ls| < |ks| && |ls| < |ms|)
  {
    if ks != [] && ls != [] && ms != [] && CompareKeys(ks[0], ls[0]) == 0.0 && CompareKeys(ls[0], ms[0]) == 0.0 {
      ListsWeak(ks[1..], ls[1..], ms[1..]);
    }
  }

  function Compared(root: Node, p: seq<string>, q: seq<string>): real
    requires OnPath(root, p) && OnPath(root, q)
  {
    CompareLists(Keys(root, p), Keys(root, q))
  }

  /** "Not after" passes on from p over q to r. */
  predicate PassesOn(root: Node, p: seq<string>, q: seq<string>, r: seq<string>)
    requires OnPath(root, p) && OnPath(root, q) && OnPath(root, r)
  {
    Compared(root, p, q) <= 0.0 && Compared(root, q, r) <= 0.0 ==> Compared(root, p, r) <= 0.0
  }

  /**
   Queues on existing paths of one tree: antisymmetric and transitive. "Not after" passes on exactly unless
   the middle queue is strictly shallower than both others and tied with both while they are not in order;
   so it does if the middle queue is at least as deep as one of the others.
   */
  lemma QueueOrder(root: Node, p: seq<string>, q: seq<string>, r: seq<string>)
    requires OnPath(root, p) && OnPath(root, q) && OnPath(root, r)
    ensures Compared(root, p, q) < 0.0 <==> Compared(root, q, p) > 0.0
    ensures Compared(root, p, q) == 0.0 <==> Compared(root, q, p) == 0.0
    ensures Compared(root, p, q) < 0.0 && Compared(root, q, r) < 0.0 ==> Compared(root, p, r) < 0.0
    ensures PassesOn(root, p, q, r) <==>
            !(|q| < |p| && |q| < |r| && Compared(root, p, q) == 0.0 && Compared(root, q, r) == 0.0 && Compared(root, p, r) > 0.0)
    ensures |q| >= |p| || |q| >= |r| ==> PassesOn(root, p, q, r)
  {
    hide Keys, OnPath, CompareLists;
    var ks, ls, ms := Keys(root, p), Keys(root, q), Keys(root, r);
    ListsAntisymmetric(ks, ls);
    if CompareLists(ks, ls) < 0.0 && CompareLists(ls, ms) < 0.0 {
      ListsTransitive(ks, ls, ms);
    }
    KeysLength(root, p);
    KeysLength(root, q);
    KeysLength(root, r);
    if CompareLists(ks, ls) <= 0.0 && CompareLists(ls, ms) <= 0.0 {
      ListsWeak(ks, ls, ms);
    }
  }

  // ----- for which depths queues are weakly ordered

  /** In every tree, "not after" passes on between queues of these depths. */
  ghost predicate WeakAtDepths(a: nat, b: nat, c: nat) {
    forall root, p, q, r | |p| == a && |q| == b && |r| == c && OnPath(root, p) && OnPath(root, q) && OnPath(root, r) ::
      PassesOn(root, p, q, r)
  }

  /** Queue comparison is weakly transitive exactly if the middle queue is at least as deep as one of the others. */
  lemma WeakExactlyAtDepths(a: nat, b: nat, c: nat)
    requires a >= 1 && b >= 1 && c >= 1
    ensures WeakAtDepths(a, b, c) <==> b >= a || b >= c
  {
    hide OnPath, Compared;
    if b >= a || b >= c {
      forall root, p, q, r | |p| == a && |q| == b && |r| == c && OnPath(root, p) && OnPath(root, q) && OnPath(root, r)
        ensures PassesOn(root, p, q, r)
      {
        QueueOrder(root, p, q, r);
      }
    } else {
      var root, p, q, r := FailingQueues(a, b, c);
      assert !PassesOn(root, p, q, r);
    }
  }

  function Chain(n: nat, share: real): Node
    requires n >= 1
  {
    Node(share, 1.0, false, if n == 1 then map[] else map["x" := Chain(n - 1, share)])
  }

  function Steps(n: nat): seq<string> {
    seq(n, i => "x")
  }

  lemma {:induction false} ChainKeys(n: nat, share: real, name: string)
    requires n >= 1
    ensures OnPath(Chain(n, share), [name] + Steps(n - 1)) && Keys(Chain(n, share), [name] + Steps(n - 1)) != []
    ensures Keys(Chain(n, share), [name] + Steps(n - 1))[0] == Key(false, share / 1.0)
  {
    if n > 1 {
      ChainKeys(n - 1, share, "x");
      assert ([name] + Steps(n - 1))[1..] == ["x"] + Steps(n - 2);
    }
  }

  /** The first element of a path only names the root. */
  lemma Renamed(n: Node, p: seq<string>, q: seq<string>)
    requires OnPath(n, p) && |p| == |q| && p[1..] == q[1..]
    ensures OnPath(n, q) && Keys(n, q) == Keys(n, p)
  {
    assert |p| > 1 ==> p[1] == p[1..][0] && q[1] == q[1..][0];
  }

  /** Below a common parent queues compare as they do in their subtree. */
  lemma OneLevelDown(root: Node, name: string, p: seq<string>, q: seq<string>)
    requires root.weight > 0.0 && name in root.children && OnPath(root.children[name], [name] + p) && OnPath(root.children[name], [name] + q)
    ensures OnPath(root, ["root", name] + p) && OnPath(root, ["root", name] + q)
    ensures Compared(root, ["root", name] + p, ["root", name] + q) == Compared(root.children[name], [name] + p, [name] + q)
  {
    var pp, qq := ["root", name] + p, ["root", name] + q;
    assert pp[1..] == [name] + p && qq[1..] == [name] + q;
    var ks, ls := Keys(root, pp), Keys(root, qq);
    assert ks[1..] == Keys(root.children[name], [name] + p) && ls[1..] == Keys(root.children[name], [name] + q);
  }

  /** Two branches that differ below a shallower queue that is tied with both. */
  lemma {:induction false} FailingQueues(a: nat, b: nat, c: nat) returns (root: Node, p: seq<string>, q: seq<string>, r: seq<string>)
    requires 1 <= b < a && b < c
    ensures |p| == a && |q| == b && |r| == c && OnPath(root, p) && OnPath(root, q) && OnPath(root, r)
    ensures Compared(root, p, q) == 0.0 && Compared(root, q, r) == 0.0 && Compared(root, p, r) > 0.0
    decreases b
  {
    if b == 1 {
      root, p, q, r := Fork(a, c);
    } else {
      var below, p', q', r' := FailingQueues(a - 1, b - 1, c - 1);
      root := Node(0.0, 1.0, false, map["x" := below]);
      var pp, qq, rr := ["x"] + p'[1..], ["x"] + q'[1..], ["x"] + r'[1..];
      Renamed(below, p', pp);
      Renamed(below, q', qq);
      Renamed(below, r', rr);
      OneLevelDown(root, "x", p'[1..], q'[1..]);
      OneLevelDown(root, "x", q'[1..], r'[1..]);
      OneLevelDown(root, "x", p'[1..], r'[1..]);
      p, q, r := ["root", "x"] + p'[1..], ["root", "x"] + q'[1..], ["root", "x"] + r'[1..];
    }
  }

  lemma Fork(a: nat, c: nat) returns (root: Node, p: seq<string>, q: seq<string>, r: seq<string>)
    requires a > 1 && c > 1
    ensures |p| == a && |q| == 1 && |r| == c && OnPath(root, p) && OnPath(root, q) && OnPath(root, r)
    ensures Compared(root, p, q) == 0.0 && Compared(root, q, r) == 0.0 && Compared(root, p, r) > 0.0
  {
    root := Node(0.0, 1.0, false, map["l" := Chain(a - 1, 1.0), "r" := Chain(c - 1, 0.0)]);
    p, q, r := ["root", "l"] + Steps(a - 2), ["root"], ["root", "r"] + Steps(c - 2);
    ChainKeys(a - 1, 1.0, "l");
    ChainKeys(c - 1, 0.0, "r");
    assert p[1..] == ["l"] + Steps(a - 2) && r[1..] == ["r"] + Steps(c - 2);
    var ks, ls, ms := Keys(root, p), Keys(root, q), Keys(root, r);
    assert ks[1..] == Keys(root.children["l"], p[1..]) && ms[1..] == Keys(root.children["r"], r[1..]);
    assert ls == [KeyOf(root)] && ks[0] == KeyOf(root) && ms[0] == KeyOf(root);
    assert 1.0 / 1.0 == 1.0 && 0.0 / 1.0 == 0.0;
    ForkedLists(ks, ls, ms);
  }

  lemma ForkedLists(ks: seq<Key>, ls: seq<Key>, ms: seq<Key>)
    requires |ls| == 1 && |ks| > 1 && |ms| > 1 && ks[0] == ls[0] == ms[0] && CompareKeys(ks[1], ms[1]) > 0.0
    ensures CompareLists(ks, ls) == 0.0 && CompareLists(ls, ms) == 0.0 && CompareLists(ks, ms) > 0.0
  {
    assert ks[1..][0] == ks[1] && ms[1..][0] == ms[1];
    assert CompareLists(ks[1..], ms[1..]) == CompareKeys(ks[1], ms[1]);
  }

  /**
   Across depths ties are not transitive: below a root with two children of different share, the root's own
   path is tied with both, and they are not tied.
   */
  lemma TiesAcrossDepths(root: Node, a: string, b: string)
    requires root.weight > 0.0 && a in root.children && b in root.children
    requires root.children[a].weight > 0.0 && root.children[b].weight > 0.0
    requires CompareKeys(KeyOf(root.children[a]), KeyOf(root.children[b])) < 0.0
    ensures OnPath(root, ["root", a]) && OnPath(root, ["root"]) && OnPath(root, ["root", b])
    ensures CompareLists(Keys(root, ["root", a]), Keys(root, ["root"])) == 0.0
    ensures CompareLists(Keys(root, ["root"]), Keys(root, ["root", b])) == 0.0
    ensures CompareLists(Keys(root, ["root", a]), Keys(root, ["root", b])) < 0.0
  {
  }
}
