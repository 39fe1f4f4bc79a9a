/**
 How drf places jobs in its hierarchical tree, and how its reclaim vote probes the tree
 (pkg/scheduler/plugins/drf/drf.go:268-323, 396-432, 481-491).
 */
module HdrfReclaim {
  import opened Options
  import opened Quantities
  import opened Hdrf
  import Ordering

  /** What drf knows about a job: what it holds and asks for, and its queue's place in the hierarchy. */
  datatype Attr = Attr(alloc: Vec, request: Vec, path: seq<string>, weights: seq<real>)

  /** The node a job gets in the tree. */
  ghost function LeafOf(a: Attr, total: Vec): HNode {
    Leaf(1.0, a.alloc, ShareOf(a.alloc, total), false, a.request)
  }

  ghost predicate AttrOk(a: Attr, job: string, uids: set<string>) {
    |a.path| == |a.weights| && job in uids && forall i | 0 <= i < |a.path| :: a.path[i] !in uids
  }

  /** Job names never are queue names: a job's name has a slash in it, and queue paths are split at slashes. */
  predicate Formed(n: HNode, uids: set<string>) {
    n.Inner? && n.weight > 0.0 &&
    forall k | k in n.children :: if k in uids then n.children[k].Leaf? else Formed(n.children[k], uids)
  }

  /** buildHierarchy: missing inner nodes are made on the way down, and the job's node is put in or replaced. */
  function Insert(n: HNode, path: seq<string>, weights: seq<real>, job: string, leaf: HNode): HNode
    requires n.Inner? && |path| == |weights|
    decreases |path|
  {
    if path == [] then n.(children := n.children[job := leaf])
    else
      var child := ChildAt(n, path[0], weights[0]);
      n.(children := n.children[path[0] := if child.Inner? then Insert(child, path[1..], weights[1..], job, leaf) else child])
  }

  /** The next node on the way, made with a weight of at least one if it is missing. */
  function ChildAt(n: HNode, name: string, weight: real): HNode
    requires n.Inner?
  {
    if name in n.children then n.children[name]
    else Inner(if weight < 1.0 then 1.0 else weight, map[], 0.0, false, map[])
  }

  /** The job's node in the tree. */
  function Find(n: HNode, path: seq<string>, job: string): Option<HNode> {
    if !n.Inner? then None
    else if path == [] then (if job in n.children then Some(n.children[job]) else None)
    else if path[0] in n.children then Find(n.children[path[0]], path[1..], job)
    else None
  }

  /** The node that the path leads to. */
  function Reach(n: HNode, path: seq<string>): Option<HNode> {
    if path == [] then Some(n)
    else if n.Inner? && path[0] in n.children then Reach(n.children[path[0]], path[1..])
    else None
  }

  /** Putting in a job keeps the weights of the nodes on its path; those made for it weigh what is given, and at least one. */
  lemma {:induction false} InsertedWeights(n: HNode, path: seq<string>, weights: seq<real>, job: string, leaf: HNode, uids: set<string>, k: nat)
    requires Formed(n, uids) && |path| == |weights| && k <= |path| && job in uids && forall i | 0 <= i < |path| :: path[i] !in uids
    ensures Reach(Insert(n, path, weights, job, leaf), path[..k]).Some?
    ensures var m := Reach(Insert(n, path, weights, job, leaf), path[..k]).value;
            if Reach(n, path[..k]).Some? then m.weight == Reach(n, path[..k]).value.weight
            else k > 0 && m.weight >= 1.0 && m.weight >= weights[k - 1] && (m.weight == 1.0 || m.weight == weights[k - 1])
    decreases k
  {
    if k > 0 {
      var child := ChildAt(n, path[0], weights[0]);
      assert path[..k][1..] == path[1..][..k - 1];
      assert path[1..] == [] ==> k == 1;
      InsertedWeights(child, path[1..], weights[1..], job, leaf, uids, k - 1);
      if path[0] !in n.children && k > 1 {
        NothingThere(child, path[1..][..k - 1]);
      }
    }
  }

  lemma NothingThere(n: HNode, path: seq<string>)
    requires n.Inner? && n.children == map[] && path != []
    ensures Reach(n, path) == None
  {
  }

  // ----- what an update depends on

  /** The tree without anything an update computes. */
  function Erase(n: HNode): HNode {
    match n
    case Leaf(weight, alloc, share, _, request) => Leaf(weight, alloc, share, false, request)
    case Inner(weight, _, _, _, children) => Inner(weight, map[], 0.0, false, map k | k in children :: Erase(children[k]))
  }

  lemma {:induction false} EraseUpdated(n: HNode, demanding: set<string>, total: Vec)
    ensures Erase(Updated(n, demanding, total)) == Erase(n)
  {
    hide ResourceSaturated, Mdr, SumOf, ShareOf;
    if n.Inner? {
      var children' := map k | k in n.children :: Updated(n.children[k], demanding, total);
      UpdatedInner(n, children', demanding, total);
      forall k | k in n.children ensures Erase(children'[k]) == Erase(n.children[k]) {
        EraseUpdated(n.children[k], demanding, total);
      }
      EraseInner(n, Combined(n.weight, children', total));
    }
  }

  lemma EraseInner(n: HNode, m: HNode)
    requires n.Inner? && m.Inner? && n.weight == m.weight && n.children.Keys == m.children.Keys
    requires forall k | k in n.children :: Erase(n.children[k]) == Erase(m.children[k])
    ensures Erase(n) == Erase(m)
  {
    assert (map k | k in n.children :: Erase(n.children[k])) == (map k | k in m.children :: Erase(m.children[k]));
  }

  lemma {:induction false} UpdatedOfErased(n: HNode, demanding: set<string>, total: Vec)
    ensures Updated(Erase(n), demanding, total) == Updated(n, demanding, total)
  {
    hide ResourceSaturated, Combined;
    if n.Inner? {
      var children' := map k | k in n.children :: Updated(n.children[k], demanding, total);
      UpdatedInner(n, children', demanding, total);
      forall k | k in n.children ensures Updated(Erase(n).children[k], demanding, total) == children'[k] {
        UpdatedOfErased(n.children[k], demanding, total);
      }
      UpdatedInner(Erase(n), children', demanding, total);
    }
  }

  lemma {:induction false} EraseInsert(n: HNode, path: seq<string>, weights: seq<real>, job: string, leaf: HNode)
    requires n.Inner? && |path| == |weights|
    ensures Erase(Insert(n, path, weights, job, leaf)) == Insert(Erase(n), path, weights, job, Erase(leaf))
    decreases |path|
  {
    if path == [] {
      assert Erase(Insert(n, path, weights, job, leaf)).children == Erase(n).children[job := Erase(leaf)];
    } else {
      var child := ChildAt(n, path[0], weights[0]);
      assert ChildAt(Erase(n), path[0], weights[0]) == Erase(child);
      if child.Inner? {
        EraseInsert(child, path[1..], weights[1..], job, leaf);
      }
      assert Erase(Insert(n, path, weights, job, leaf)).children == Insert(Erase(n), path, weights, job, Erase(leaf)).children;
    }
  }

  // ----- inserting

  /** The later of two insertions of one job remains. */
  lemma {:induction false} InsertTwice(n: HNode, path: seq<string>, weights: seq<real>, job: string, leaf: HNode, leaf': HNode)
    requires n.Inner? && |path| == |weights|
    ensures Insert(Insert(n, path, weights, job, leaf), path, weights, job, leaf') == Insert(n, path, weights, job, leaf')
    decreases |path|
  {
    if path != [] {
      var child := ChildAt(n, path[0], weights[0]);
      if child.Inner? {
        InsertTwice(child, path[1..], weights[1..], job, leaf, leaf');
      }
    }
    assert Insert(Insert(n, path, weights, job, leaf), path, weights, job, leaf').children == Insert(n, path, weights, job, leaf').children;
  }

  /** Inserting changes nothing exactly when the node is already there. */
  lemma {:induction false} InsertSame(n: HNode, path: seq<string>, weights: seq<real>, job: string, leaf: HNode, uids: set<string>)
    requires Formed(n, uids) && |path| == |weights| && forall i | 0 <= i < |path| :: path[i] !in uids
    ensures Insert(n, path, weights, job, leaf) == n <==> Find(n, path, job) == Some(leaf)
    decreases |path|
  {
    if path == [] {
      assert job in n.children && n.children[job] == leaf ==> n.children[job := leaf] == n.children;
    } else if path[0] in n.children {
      var child := n.children[path[0]];
      InsertSame(child, path[1..], weights[1..], job, leaf, uids);
      var child' := Insert(child, path[1..], weights[1..], job, leaf);
      assert n.children[path[0] := child'][path[0]] == child';
      assert child' == child ==> n.children[path[0] := child'] == n.children;
    } else {
      assert path[0] in Insert(n, path, weights, job, leaf).children;
    }
  }

  /** Inserting a job keeps the tree's shape. */
  lemma {:induction false} InsertFormed(n: HNode, path: seq<string>, weights: seq<real>, job: string, leaf: HNode, uids: set<string>)
    requires Formed(n, uids) && |path| == |weights| && forall i | 0 <= i < |path| :: path[i] !in uids
    requires job in uids && leaf.Leaf?
    ensures Formed(Insert(n, path, weights, job, leaf), uids)
    decreases |path|
  {
    if path != [] {
      var child := ChildAt(n, path[0], weights[0]);
      assert Formed(child, uids);
      InsertFormed(child, path[1..], weights[1..], job, leaf, uids);
    }
  }

  /** After an insertion the job's node is found, and every other job's node is where it was. */
  lemma {:induction false} FindInserted(n: HNode, path: seq<string>, weights: seq<real>, job: string, leaf: HNode, path': seq<string>, job': string, uids: set<string>)
    requires Formed(n, uids) && |path| == |weights| && job in uids && job' in uids
    requires forall i | 0 <= i < |path| :: path[i] !in uids
    requires forall i | 0 <= i < |path'| :: path'[i] !in uids
    ensures Find(Insert(n, path, weights, job, leaf), path', job') ==
            if (path, job) == (path', job') then Some(leaf) else Find(n, path', job')
    decreases |path|
  {
    if path != [] && path' != [] && path[0] == path'[0] {
      var child := ChildAt(n, path[0], weights[0]);
      assert Formed(child, uids);
      FindInserted(child, path[1..], weights[1..], job, leaf, path'[1..], job', uids);
      assert path[1..] == path'[1..] ==> path == path' by {
        assert path == [path[0]] + path[1..] && path' == [path'[0]] + path'[1..];
      }
      if path[0] !in n.children {
        FindNone(child, path'[1..], job');
      }
    }
  }

  lemma FindNone(n: HNode, path: seq<string>, job: string)
    requires n.Inner? && n.children == map[]
    ensures Find(n, path, job) == None
  {
  }

  // ----- the tree follows the jobs

  /** The resources of which something is left. */
  function Demanding(totalAllocated: Vec, total: Vec): set<string> {
    set d | d in Names(total) && Get(totalAllocated, d) < total[d]
  }

  /** The tree after UpdateHierarchicalShare. */
  ghost function Refreshed(root: HNode, totalAllocated: Vec, total: Vec, job: string, a: Attr): (root': HNode)
    requires root.Inner? && |a.path| == |a.weights|
    ensures root'.Inner?
  {
    Updated(Insert(root, a.path, a.weights, job, LeafOf(a, total)), Demanding(totalAllocated, total), total)
  }

  method UpdateHierarchicalShare(root: HNode, totalAllocated: Vec, total: Vec, job: string, a: Attr) returns (root': HNode)
    requires root.Inner? && |a.path| == |a.weights|
    ensures root' == Refreshed(root, totalAllocated, total, job, a)
    ensures FlagsRight(root', set d | d in total && total[d] >= MIN_RESOURCE && Get(totalAllocated, d) < total[d])
  {
    hide FlagsRight;
    var demanding := Demanding(totalAllocated, total);
    var share := CalculateShare(a.alloc, total);
    ShareUnique(a.alloc, total, share, ShareOf(a.alloc, total));
    root' := Insert(root, a.path, a.weights, job, Leaf(1.0, a.alloc, share, false, a.request));
    root' := UpdateShares(root', demanding, total);
    assert demanding == set d | d in total && total[d] >= MIN_RESOURCE && Get(totalAllocated, d) < total[d];
  }

  /** Every job of the session has its node in the tree, with the job's current attributes. */
  ghost predicate Mirrors(root: HNode, jobs: map<string, Attr>, total: Vec, uids: set<string>) {
    Formed(root, uids) &&
    forall j | j in jobs :: AttrOk(jobs[j], j, uids) && Find(Erase(root), jobs[j].path, j) == Some(LeafOf(jobs[j], total))
  }

  lemma {:induction false} FormedErased(n: HNode, uids: set<string>)
    ensures Formed(Erase(n), uids) <==> Formed(n, uids)
  {
    if n.Inner? {
      forall k | k in n.children
        ensures Formed(Erase(n.children[k]), uids) <==> Formed(n.children[k], uids)
        ensures Erase(n).children[k] == Erase(n.children[k])
      {
        FormedErased(n.children[k], uids);
      }
    }
  }

  lemma ErasedRefreshed(root: HNode, totalAllocated: Vec, total: Vec, job: string, a: Attr)
    requires root.Inner? && |a.path| == |a.weights|
    ensures Erase(Refreshed(root, totalAllocated, total, job, a)) == Insert(Erase(root), a.path, a.weights, job, LeafOf(a, total))
  {
    hide Updated, ShareOf, Insert, Erase;
    var leaf := LeafOf(a, total);
    EraseUpdated(Insert(root, a.path, a.weights, job, leaf), Demanding(totalAllocated, total), total);
    EraseInsert(root, a.path, a.weights, job, leaf);
    ErasedLeaf(a, total);
    StaysInner(root, a.path, a.weights, job, leaf);
  }

  lemma ErasedLeaf(a: Attr, total: Vec)
    ensures Erase(LeafOf(a, total)) == LeafOf(a, total)
  {
  }

  lemma StaysInner(n: HNode, path: seq<string>, weights: seq<real>, job: string, leaf: HNode)
    requires n.Inner? && |path| == |weights|
    ensures Insert(n, path, weights, job, leaf).Inner? && Erase(n).Inner?
  {
  }

  /** Refreshing a job's node keeps every job's node right: the session's charges never leave one stale. */
  lemma MirrorsKept(root: HNode, jobs: map<string, Attr>, totalAllocated: Vec, total: Vec, job: string, a: Attr, uids: set<string>)
    requires Mirrors(root, jobs, total, uids) && AttrOk(a, job, uids)
    ensures Mirrors(Refreshed(root, totalAllocated, total, job, a), jobs[job := a], total, uids)
  {
    hide Updated, ShareOf, Insert, Erase, Find, Formed, Refreshed;
    IsInner(root, uids);
    ErasedRefreshed(root, totalAllocated, total, job, a);
    var leaf, root' := LeafOf(a, total), Refreshed(root, totalAllocated, total, job, a);
    FormedErased(root, uids);
    IsInner(Erase(root), uids);
    InsertFormed(Erase(root), a.path, a.weights, job, leaf, uids);
    FormedErased(root', uids);
    var jobs' := jobs[job := a];
    forall j | j in jobs'
      ensures Find(Erase(root'), jobs'[j].path, j) == Some(LeafOf(jobs'[j], total))
    {
      FindInserted(Erase(root), a.path, a.weights, job, leaf, jobs'[j].path, j, uids);
    }
  }

  lemma IsInner(n: HNode, uids: set<string>)
    requires Formed(n, uids)
    ensures n.Inner?
  {
  }

  // ----- probing

  datatype Candidate = Candidate(uid: string, job: string, resreq: Vec)

  /** The tree as queues are compared in it. */
  function Seen(n: HNode): Ordering.Node {
    match n
    case Leaf(weight, _, share, saturated, _) => Ordering.Node(share, weight, saturated, map[])
    case Inner(weight, _, share, saturated, children) =>
      Ordering.Node(share, weight, saturated, map k | k in children :: Seen(children[k]))
  }

  function Without(a: Attr, resreq: Vec): Attr {
    a.(alloc := Sub(a.alloc, resreq))
  }

  function With(a: Attr, resreq: Vec): Attr {
    a.(alloc := Add(a.alloc, resreq))
  }

  /** The tree with one candidate's request taken from its job and from what is allocated in all. */
  ghost function Probed(root: HNode, totalAllocated: Vec, total: Vec, jobs: map<string, Attr>, c: Candidate): HNode
    requires root.Inner? && c.job in jobs && |jobs[c.job].path| == |jobs[c.job].weights|
  {
    Refreshed(root, Sub(totalAllocated, c.resreq), total, c.job, Without(jobs[c.job], c.resreq))
  }

  /** The tree after the probe has been taken back. */
  ghost function Resumed(root: HNode, totalAllocated: Vec, total: Vec, jobs: map<string, Attr>, c: Candidate): HNode
    requires root.Inner? && c.job in jobs && |jobs[c.job].path| == |jobs[c.job].weights|
    requires Probed(root, totalAllocated, total, jobs, c).Inner?
  {
    Refreshed(Probed(root, totalAllocated, total, jobs, c), Add(Sub(totalAllocated, c.resreq), c.resreq), total,
      c.job, With(Without(jobs[c.job], c.resreq), c.resreq))
  }

  /** Of two refreshments of one job's node the later remains. */
  lemma RefreshedTwice(root: HNode, before: Vec, totalAllocated: Vec, total: Vec, job: string, a: Attr, a': Attr)
    requires root.Inner? && |a.path| == |a.weights| && a'.path == a.path && a'.weights == a.weights
    ensures Refreshed(Refreshed(root, before, total, job, a), totalAllocated, total, job, a') == Refreshed(root, totalAllocated, total, job, a')
  {
    hide Updated, ShareOf, Insert, Erase, Refreshed, Demanding, LeafOf;
    var once := Refreshed(root, before, total, job, a);
    StaysInner(root, a.path, a.weights, job, LeafOf(a, total));
    ErasedRefreshed(root, before, total, job, a);
    InsertTwice(Erase(root), a.path, a.weights, job, LeafOf(a, total), LeafOf(a', total));
    RefreshedFromErased(once, totalAllocated, totalAllocated, total, job, a');
    RefreshedFromErased(root, totalAllocated, totalAllocated, total, job, a');
  }

  /** Refreshing a job's node changes nothing in an updated tree exactly if it is there with these attributes. */
  lemma RefreshedSame(root: HNode, totalAllocated: Vec, total: Vec, job: string, a: Attr, uids: set<string>)
    requires Formed(root, uids) && root == Updated(root, Demanding(totalAllocated, total), total) && AttrOk(a, job, uids)
    ensures root.Inner?
    ensures Refreshed(root, totalAllocated, total, job, a) == root <==> Find(Erase(root), a.path, job) == Some(LeafOf(a, total))
  {
    hide Updated, ShareOf, Insert, Erase, Find, Formed, Refreshed, Demanding, LeafOf;
    IsInner(root, uids);
    FormedErased(root, uids);
    IsInner(Erase(root), uids);
    InsertSame(Erase(root), a.path, a.weights, job, LeafOf(a, total), uids);
    RefreshedFromErased(root, totalAllocated, totalAllocated, total, job, a);
    SameTrees(root, Insert(Erase(root), a.path, a.weights, job, LeafOf(a, total)), Demanding(totalAllocated, total), total, a, job);
  }

  /** A probe that has been taken back is a refreshment of the job's node with what drf keeps for the job. */
  lemma ResumedIs(root: HNode, totalAllocated: Vec, total: Vec, jobs: map<string, Attr>, c: Candidate)
    requires root.Inner? && c.job in jobs && |jobs[c.job].path| == |jobs[c.job].weights| && c.resreq.Keys <= jobs[c.job].alloc.Keys
    ensures Resumed(root, totalAllocated, total, jobs, c) == Refreshed(root, totalAllocated, total, c.job, jobs[c.job])
  {
    hide Updated, ShareOf, Insert, Demanding, Sub, Add, LeafOf;
    var a, again := jobs[c.job], Add(Sub(totalAllocated, c.resreq), c.resreq);
    SubAdd(a.alloc, c.resreq);
    assert With(Without(a, c.resreq), c.resreq) == a;
    DemandingResumed(totalAllocated, c.resreq, total);
    RefreshedTwice(root, Sub(totalAllocated, c.resreq), again, total, c.job, Without(a, c.resreq), a);
  }

  /**
   A probe leaves no residue in an updated tree exactly when the tree held the job's node with the
   attributes drf keeps for the job.
   */
  lemma ProbeLeavesNoResidue(root: HNode, totalAllocated: Vec, total: Vec, jobs: map<string, Attr>, c: Candidate, uids: set<string>)
    requires Formed(root, uids) && root == Updated(root, Demanding(totalAllocated, total), total)
    requires c.job in jobs && AttrOk(jobs[c.job], c.job, uids) && c.resreq.Keys <= jobs[c.job].alloc.Keys
    ensures root.Inner?
    ensures Resumed(root, totalAllocated, total, jobs, c) == root <==>
            Find(Erase(root), jobs[c.job].path, c.job) == Some(LeafOf(jobs[c.job], total))
  {
    hide Updated, ShareOf, Insert, Erase, Find, Formed, Refreshed, Demanding, Sub, Add, LeafOf;
    IsInner(root, uids);
    ResumedIs(root, totalAllocated, total, jobs, c);
    RefreshedSame(root, totalAllocated, total, c.job, jobs[c.job], uids);
  }

  /**
   In the tree with the reclaimer's request, probing a task of the reclaimer's own job leaves residue exactly
   unless the request adds nothing to what the job holds: the probe drops the request.
   */
  lemma OwnProbeLeavesResidue(tree: HNode, held: Vec, total: Vec, jobs: map<string, Attr>, resreq: Vec, c: Candidate, uids: set<string>)
    requires c.job in jobs && Mirrors(tree, jobs[c.job := With(jobs[c.job], resreq)], total, uids)
    requires tree == Updated(tree, Demanding(held, total), total) && c.resreq.Keys <= jobs[c.job].alloc.Keys
    ensures tree.Inner? && AttrOk(jobs[c.job], c.job, uids)
    ensures Resumed(tree, held, total, jobs, c) == tree <==> Add(jobs[c.job].alloc, resreq) == jobs[c.job].alloc
  {
    hide Updated, ShareOf, Insert, Erase, Find, Formed, Refreshed, Demanding, Sub, Add;
    var jobs' := jobs[c.job := With(jobs[c.job], resreq)];
    assert c.job in jobs' && AttrOk(jobs'[c.job], c.job, uids);
    ProbeLeavesNoResidue(tree, held, total, jobs, c, uids);
  }

  lemma SameTrees(root: HNode, after: HNode, demanding: set<string>, total: Vec, a: Attr, job: string)
    requires root.Inner? && |a.path| == |a.weights| && after == Insert(Erase(root), a.path, a.weights, job, LeafOf(a, total))
    requires root == Updated(root, demanding, total)
    ensures Updated(after, demanding, total) == root <==> after == Erase(root)
  {
    hide Updated, Erase, Insert, LeafOf;
    UpdatedOfErased(root, demanding, total);
    EraseUpdated(after, demanding, total);
    StaysInner(root, a.path, a.weights, job, LeafOf(a, total));
    ErasedTwice(root);
    EraseInsert(Erase(root), a.path, a.weights, job, LeafOf(a, total));
    ErasedLeaf(a, total);
  }

  lemma {:induction false} ErasedTwice(n: HNode)
    ensures Erase(Erase(n)) == Erase(n)
  {
    if n.Inner? {
      forall k | k in n.children ensures Erase(Erase(n).children[k]) == Erase(n.children[k]) {
        ErasedTwice(n.children[k]);
      }
      EraseInner(Erase(n), n);
    }
  }

  lemma RefreshedFromErased(root: HNode, totalAllocated: Vec, same: Vec, total: Vec, job: string, a: Attr)
    requires root.Inner? && |a.path| == |a.weights| && Demanding(totalAllocated, total) == Demanding(same, total)
    ensures Erase(root).Inner?
    ensures Refreshed(root, totalAllocated, total, job, a) ==
            Updated(Insert(Erase(root), a.path, a.weights, job, LeafOf(a, total)), Demanding(same, total), total)
  {
    hide Updated, Insert, Erase, Demanding, LeafOf;
    var leaf := LeafOf(a, total);
    StaysInner(root, a.path, a.weights, job, leaf);
    EraseInsert(root, a.path, a.weights, job, leaf);
    ErasedLeaf(a, total);
    UpdatedOfErased(Insert(root, a.path, a.weights, job, leaf), Demanding(same, total), total);
  }

  lemma SubAdd(v: Vec, w: Vec)
    requires w.Keys <= v.Keys
    ensures Add(Sub(v, w), w) == v
  {
  }

  lemma DemandingResumed(v: Vec, w: Vec, total: Vec)
    ensures Demanding(Add(Sub(v, w), w), total) == Demanding(v, total)
  {
  }

  // ----- the reclaim vote

  lemma {:induction false} UpdatedTwice(n: HNode, demanding: set<string>, total: Vec)
    ensures Updated(Updated(n, demanding, total), demanding, total) == Updated(n, demanding, total)
  {
    hide Updated, Erase;
    EraseUpdated(n, demanding, total);
    UpdatedOfErased(n, demanding, total);
    UpdatedOfErased(Updated(n, demanding, total), demanding, total);
  }

  /** The queue of a job in the tree lies on an existing path. */
  lemma {:induction false} QueueOnPath(n: HNode, name: string, path: seq<string>, job: string, uids: set<string>)
    requires Formed(n, uids) && Find(Erase(n), path, job) != None && forall i | 0 <= i < |path| :: path[i] !in uids
    ensures Ordering.OnPath(Seen(n), [name] + path)
    decreases |path|
  {
    if path != [] {
      QueueOnPath(n.children[path[0]], path[0], path[1..], job, uids);
      assert ([name] + path)[1..] == [path[0]] + path[1..];
    }
  }

  function QueuePath(a: Attr): seq<string> {
    ["root"] + a.path
  }

  /** The queue of job `l` comes strictly before the queue of job `r`. */
  ghost predicate Before(n: HNode, l: Attr, r: Attr) {
    Ordering.OnPath(Seen(n), QueuePath(l)) && Ordering.OnPath(Seen(n), QueuePath(r)) &&
    Ordering.CompareLists(Ordering.Keys(Seen(n), QueuePath(l)), Ordering.Keys(Seen(n), QueuePath(r))) < 0.0
  }

  /** drf lets `c` be reclaimed: with its request gone, the reclaimer's queue still comes first. */
  ghost predicate Verdict(root: HNode, totalAllocated: Vec, total: Vec, jobs: map<string, Attr>, ljob: string, c: Candidate)
    requires root.Inner? && ljob in jobs && c.job in jobs && |jobs[c.job].path| == |jobs[c.job].weights|
  {
    Before(Probed(root, totalAllocated, total, jobs, c), jobs[ljob], jobs[c.job])
  }

  ghost predicate Probeable(jobs: map<string, Attr>, c: Candidate) {
    c.job in jobs && |jobs[c.job].path| == |jobs[c.job].weights| && c.resreq.Keys <= jobs[c.job].alloc.Keys
  }

  /**
   Each candidate judged on its own, in the tree with the reclaimer's request and nothing else changed, up to
   the first candidate of the reclaimer's own job; after that in the tree without the request.
   */
  ghost function Judged(tree: HNode, bare: HNode, held: Vec, total: Vec, jobs: map<string, Attr>, ljob: string, cs: seq<Candidate>): seq<Candidate>
    requires tree.Inner? && bare.Inner? && ljob in jobs && forall c | c in cs :: Probeable(jobs, c)
    decreases |cs|
  {
    if cs == [] then []
    else
      assert cs[0] in cs && Probeable(jobs, cs[0]);
      (if Verdict(tree, held, total, jobs, ljob, cs[0]) then [cs[0]] else []) +
        Judged(if cs[0].job == ljob then bare else tree, bare, held, total, jobs, ljob, cs[1..])
  }

  lemma SameAmounts(v: Vec, w: Vec, r: Vec, total: Vec)
    requires forall d :: Get(v, d) == Get(w, d)
    ensures Demanding(v, total) == Demanding(w, total) && Demanding(Sub(v, r), total) == Demanding(Sub(w, r), total)
    ensures forall d :: Get(Add(Sub(v, r), r), d) == Get(w, d)
  {
  }

  lemma RefreshedIsUpdated(root: HNode, totalAllocated: Vec, total: Vec, job: string, a: Attr)
    requires root.Inner? && |a.path| == |a.weights|
    ensures var tree := Refreshed(root, totalAllocated, total, job, a);
            tree == Updated(tree, Demanding(totalAllocated, total), total)
  {
    hide Updated, Insert, Demanding;
    UpdatedTwice(Insert(root, a.path, a.weights, job, LeafOf(a, total)), Demanding(totalAllocated, total), total);
  }

  /** One probe: what it compares, and where it ends. */
  lemma ProbeOne(tree: HNode, alloc: Vec, held: Vec, total: Vec, jobs: map<string, Attr>, mirrored: map<string, Attr>, ljob: string, c: Candidate, uids: set<string>)
    requires Mirrors(tree, mirrored, total, uids) && ljob in jobs && ljob in mirrored && mirrored[ljob].path == jobs[ljob].path
    requires Probeable(jobs, c) && AttrOk(jobs[c.job], c.job, uids) && forall d :: Get(alloc, d) == Get(held, d)
    ensures tree.Inner?
    ensures var a, probed := jobs[c.job], Probed(tree, held, total, jobs, c);
            Refreshed(tree, Sub(alloc, c.resreq), total, c.job, Without(a, c.resreq)) == probed &&
            Refreshed(probed, Add(Sub(alloc, c.resreq), c.resreq), total, c.job, With(Without(a, c.resreq), c.resreq)) == Refreshed(tree, held, total, c.job, a) &&
            Ordering.OnPath(Seen(probed), QueuePath(jobs[ljob])) && Ordering.OnPath(Seen(probed), QueuePath(a))
  {
    hide Updated, ShareOf, Insert, Erase, Find, Formed, Demanding, Sub, Add, Seen, Get, LeafOf;
    IsInner(tree, uids);
    SameAmounts(alloc, held, c.resreq, total);
    DemandingResumed(alloc, c.resreq, total);
    DemandingResumed(held, c.resreq, total);
    ResumedIs(tree, held, total, jobs, c);
    var a, probed := jobs[c.job], Probed(tree, held, total, jobs, c);
    var without := Without(a, c.resreq);
    MirrorsKept(tree, mirrored, Sub(held, c.resreq), total, c.job, without, uids);
    var jobs' := mirrored[c.job := without];
    assert jobs'[ljob].path == jobs[ljob].path && jobs'[c.job].path == a.path;
    QueueOnPath(probed, "root", jobs[ljob].path, ljob, uids);
    QueueOnPath(probed, "root", a.path, c.job, uids);
  }

  /** One turn of reclaimFn's loop: the verdict on the tree as it is, and the job's node refreshed. */
  method ProbeAndResume(tree: HNode, alloc0: Vec, ghost held: Vec, total: Vec, jobs: map<string, Attr>, ghost mirrored: map<string, Attr>, ljob: string, c: Candidate, ghost uids: set<string>)
    returns (verdict: bool, probed: HNode, alloc: Vec)
    requires Mirrors(tree, mirrored, total, uids) && ljob in jobs && ljob in mirrored && mirrored[ljob].path == jobs[ljob].path
    requires Probeable(jobs, c) && AttrOk(jobs[c.job], c.job, uids) && forall d :: Get(alloc0, d) == Get(held, d)
    ensures tree.Inner? && verdict == Verdict(tree, held, total, jobs, ljob, c)
    ensures probed == Refreshed(tree, held, total, c.job, jobs[c.job]) && forall d :: Get(alloc, d) == Get(held, d)
  {
    hide Updated, ShareOf, Insert, Erase, Find, Formed, Refreshed, Demanding, Sub, Add, Seen, Get, LeafOf, Mirrors;
    ProbeOne(tree, alloc0, held, total, jobs, mirrored, ljob, c, uids);
    SameAmounts(alloc0, held, c.resreq, total);
    alloc := Sub(alloc0, c.resreq);
    var rattr := Without(jobs[c.job], c.resreq);
    probed := UpdateHierarchicalShare(tree, alloc, total, c.job, rattr);
    var ret := Ordering.CompareQueues(Seen(probed), QueuePath(jobs[ljob]), QueuePath(jobs[c.job]));
    alloc := Add(alloc, c.resreq);
    rattr := With(rattr, c.resreq);
    probed := UpdateHierarchicalShare(probed, alloc, total, c.job, rattr);
    verdict := ret < 0.0;
  }

  /** Where the loop's tree stands: with the reclaimer's request, or without it once its own job was probed. */
  ghost predicate Probing(root: HNode, tree: HNode, held: Vec, total: Vec, jobs: map<string, Attr>, mirrored: map<string, Attr>, ljob: string, resreq: Vec, uids: set<string>)
    requires root.Inner? && ljob in jobs && |jobs[ljob].path| == |jobs[ljob].weights|
  {
    (mirrored == jobs || mirrored == jobs[ljob := With(jobs[ljob], resreq)]) &&
    tree == Refreshed(root, held, total, ljob, mirrored[ljob]) && tree == Updated(tree, Demanding(held, total), total) &&
    Mirrors(tree, mirrored, total, uids)
  }

  lemma ProbingStarts(root: HNode, held: Vec, total: Vec, jobs: map<string, Attr>, mirrored: map<string, Attr>, ljob: string, resreq: Vec, uids: set<string>)
    requires Mirrors(root, jobs, total, uids) && ljob in jobs
    requires mirrored == jobs || mirrored == jobs[ljob := With(jobs[ljob], resreq)]
    ensures root.Inner? && AttrOk(jobs[ljob], ljob, uids)
    ensures Probing(root, Refreshed(root, held, total, ljob, mirrored[ljob]), held, total, jobs, mirrored, ljob, resreq, uids)
  {
    hide Updated, ShareOf, Insert, Erase, Find, Formed, Refreshed, Demanding, LeafOf;
    IsInner(root, uids);
    RefreshedIsUpdated(root, held, total, ljob, mirrored[ljob]);
    MirrorsKept(root, jobs, held, total, ljob, mirrored[ljob], uids);
    assert jobs[ljob := mirrored[ljob]] == mirrored;
  }

  /** A probe leaves the tree as it is, unless it is of the reclaimer's own job: then it leaves the bare tree. */
  lemma ProbingStep(root: HNode, tree: HNode, bare: HNode, held: Vec, total: Vec, jobs: map<string, Attr>, mirrored: map<string, Attr>, ljob: string, resreq: Vec, c: Candidate, uids: set<string>)
    requires root.Inner? && ljob in jobs && |jobs[ljob].path| == |jobs[ljob].weights| && c.job in jobs && AttrOk(jobs[c.job], c.job, uids)
    requires Probing(root, tree, held, total, jobs, mirrored, ljob, resreq, uids) && bare == Refreshed(root, held, total, ljob, jobs[ljob])
    ensures tree.Inner?
    ensures Refreshed(tree, held, total, c.job, jobs[c.job]) == if c.job == ljob then bare else tree
  {
    hide Updated, ShareOf, Insert, Erase, Find, Formed, Refreshed, Demanding, LeafOf, Add;
    IsInner(tree, uids);
    if c.job == ljob {
      RefreshedTwice(root, held, held, total, ljob, mirrored[ljob], jobs[ljob]);
    } else {
      assert mirrored[c.job] == jobs[c.job];
      RefreshedSame(tree, held, total, c.job, jobs[c.job], uids);
    }
  }

  /** reclaimFn: the clone of the tree is probed and resumed for one candidate after the other. */
  method ReclaimFn(root: HNode, totalAllocated: Vec, total: Vec, jobs: map<string, Attr>, ljob: string, resreq: Vec, reclaimees: seq<Candidate>, ghost uids: set<string>) returns (victims: seq<Candidate>)
    requires Mirrors(root, jobs, total, uids) && ljob in jobs
    requires forall c | c in reclaimees :: Probeable(jobs, c)
    ensures root.Inner? && AttrOk(jobs[ljob], ljob, uids)
    ensures var held := Add(totalAllocated, resreq);
            victims == Judged(Refreshed(root, held, total, ljob, With(jobs[ljob], resreq)), Refreshed(root, held, total, ljob, jobs[ljob]),
                              held, total, jobs, ljob, reclaimees)
  {
    hide *;
    var held := Add(totalAllocated, resreq);
    var lattr := With(jobs[ljob], resreq);
    ghost var mirrored := jobs[ljob := lattr];
    ProbingStarts(root, held, total, jobs, mirrored, ljob, resreq, uids);
    ProbingStarts(root, held, total, jobs, jobs, ljob, resreq, uids);
    PathsFit(jobs[ljob], lattr, resreq, ljob, uids);
    var tree := UpdateHierarchicalShare(root, held, total, ljob, lattr);
    ghost var bare := Refreshed(root, held, total, ljob, jobs[ljob]);
    victims := [];
    var probed, alloc := tree, held;
    assert reclaimees[0..] == reclaimees;
    var i := 0;
    while i < |reclaimees|
      invariant 0 <= i <= |reclaimees| && probed.Inner?
      invariant Probing(root, probed, held, total, jobs, mirrored, ljob, resreq, uids)
      invariant forall d :: Get(alloc, d) == Get(held, d)
      invariant victims + Judged(probed, bare, held, total, jobs, ljob, reclaimees[i..]) == Judged(tree, bare, held, total, jobs, ljob, reclaimees)
    {
      var c := reclaimees[i];
      CandidateOk(root, total, jobs, c, uids);
      JudgedNext(probed, bare, held, total, jobs, ljob, reclaimees, i);
      ProbingStep(root, probed, bare, held, total, jobs, mirrored, ljob, resreq, c, uids);
      ProbingIs(root, probed, held, total, jobs, mirrored, ljob, resreq, uids);
      var verdict;
      verdict, probed, alloc := ProbeAndResume(probed, alloc, held, total, jobs, mirrored, ljob, c, uids);
      if c.job == ljob {
        mirrored := jobs;
      }
      if verdict {
        victims := victims + [c];
      }
      i := i + 1;
    }
    JudgedNone(probed, bare, held, total, jobs, ljob, reclaimees);
  }

  lemma PathsFit(a: Attr, lattr: Attr, resreq: Vec, job: string, uids: set<string>)
    requires AttrOk(a, job, uids) && lattr == With(a, resreq)
    ensures |a.path| == |a.weights| && |lattr.path| == |lattr.weights|
  {
  }

  lemma CandidateOk(root: HNode, total: Vec, jobs: map<string, Attr>, c: Candidate, uids: set<string>)
    requires Mirrors(root, jobs, total, uids) && Probeable(jobs, c)
    ensures c.job in jobs && AttrOk(jobs[c.job], c.job, uids) && |jobs[c.job].path| == |jobs[c.job].weights|
  {
  }

  lemma JudgedNext(tree: HNode, bare: HNode, held: Vec, total: Vec, jobs: map<string, Attr>, ljob: string, cs: seq<Candidate>, i: nat)
    requires tree.Inner? && bare.Inner? && ljob in jobs && (forall c | c in cs :: Probeable(jobs, c)) && i < |cs|
    ensures Probeable(jobs, cs[i]) && cs[i].job in jobs && |jobs[cs[i].job].path| == |jobs[cs[i].job].weights|
    ensures Judged(tree, bare, held, total, jobs, ljob, cs[i..]) ==
            (if Verdict(tree, held, total, jobs, ljob, cs[i]) then [cs[i]] else []) +
            Judged(if cs[i].job == ljob then bare else tree, bare, held, total, jobs, ljob, cs[i + 1..])
  {
    hide Verdict;
    assert cs[i..][0] == cs[i] && cs[i..][1..] == cs[i + 1..];
  }

  lemma JudgedNone(tree: HNode, bare: HNode, held: Vec, total: Vec, jobs: map<string, Attr>, ljob: string, cs: seq<Candidate>)
    requires tree.Inner? && bare.Inner? && ljob in jobs && (forall c | c in cs :: Probeable(jobs, c))
    ensures Judged(tree, bare, held, total, jobs, ljob, cs[|cs|..]) == []
  {
  }

  lemma ProbingIs(root: HNode, tree: HNode, held: Vec, total: Vec, jobs: map<string, Attr>, mirrored: map<string, Attr>, ljob: string, resreq: Vec, uids: set<string>)
    requires root.Inner? && ljob in jobs && |jobs[ljob].path| == |jobs[ljob].weights|
    requires Probing(root, tree, held, total, jobs, mirrored, ljob, resreq, uids)
    ensures Mirrors(tree, mirrored, total, uids) && ljob in mirrored && mirrored[ljob].path == jobs[ljob].path
  {
  }

  /** Among candidates of other jobs the order in which they are tried does not matter. */
  lemma {:induction false} OrderDoesNotMatter(tree: HNode, bare: HNode, held: Vec, total: Vec, jobs: map<string, Attr>, ljob: string, cs: seq<Candidate>, c: Candidate)
    requires tree.Inner? && bare.Inner? && ljob in jobs && forall x | x in cs :: Probeable(jobs, x) && x.job != ljob
    requires Probeable(jobs, c)
    ensures multiset(Judged(tree, bare, held, total, jobs, ljob, cs))[c] ==
            if Verdict(tree, held, total, jobs, ljob, c) then multiset(cs)[c] else 0
    decreases |cs|
  {
    hide Verdict;
    if cs != [] {
      assert cs == [cs[0]] + cs[1..] && cs[0] in cs;
      OrderDoesNotMatter(tree, bare, held, total, jobs, ljob, cs[1..], c);
    }
  }
}
