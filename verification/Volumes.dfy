/**
 Finding, assuming and binding a pod's volumes
 (pkg/scheduler/capabilities/volumebinding/binder.go).
 */
module VolumeBinding {
  import opened Options
  import opened AssumeCaches

  // ----- assuming

  /** A volume matched to a claim. */
  datatype Binding = Binding(pv: Object, pvc: Object)

  /** None stands for the nil lists of a pod whose volumes were never assumed. */
  datatype PodVolumes = PodVolumes(staticBindings: Option<seq<Binding>>, dynamicProvisions: Option<seq<Object>>)

  /** What GetBindVolumeToClaim answers: the volume bound to the claim, and whether that differs from the volume. */
  datatype Prebound = Prebound(pv: Object, dirty: bool)

  function Listed<T>(list: Option<seq<T>>): seq<T> {
    match list
    case None => []
    case Some(s) => s
  }

  function Names(os: seq<Object>): set<string> {
    set i | 0 <= i < |os| :: os[i].name
  }

  function Volumes(bindings: seq<Binding>): seq<Object> {
    seq(|bindings|, i requires 0 <= i < |bindings| => bindings[i].pv)
  }

  /** What a failed or finished attempt did to a cache: everything touched is restored, or everything is assumed. */
  ghost predicate Undone(before: Store, after: Store, touched: seq<Object>) {
    after == RestoredIn(before, Names(touched))
  }

  function Bound(pres: seq<Prebound>): seq<Object> {
    seq(|pres|, i requires 0 <= i < |pres| => pres[i].pv)
  }

  /** The next binding cannot be made, or its volume cannot be assumed after those before it. */
  ghost predicate BindingFails(before: Store, bindings: seq<Binding>, bind: Binding -> Option<Prebound>, pres: seq<Prebound>) {
    |pres| < |bindings| &&
    match bind(bindings[|pres|])
    case None => true
    case Some(next) => next.dirty && !CanAssume(AssumedAll(before, Dirty(pres)), next.pv)
  }

  /** The next claim cannot be assumed after those before it. */
  ghost predicate ClaimFails(before: Store, provisions: seq<Object>, select: Object -> Object, claims: seq<Object>) {
    |claims| < |provisions| && !CanAssume(AssumedAll(before, claims), select(provisions[|claims|]))
  }

  /** The volumes to assume, of those that were processed. */
  function Dirty(pres: seq<Prebound>): seq<Object> {
    if pres == [] then []
    else Dirty(pres[..|pres| - 1]) + if pres[|pres| - 1].dirty then [pres[|pres| - 1].pv] else []
  }

  lemma {:induction false} DirtyNames(pres: seq<Prebound>, vs: seq<Object>)
    requires |vs| == |pres| && forall i | 0 <= i < |vs| :: vs[i] == pres[i].pv
    ensures forall i | 0 <= i < |Dirty(pres)| :: Dirty(pres)[i].name in Names(vs)
    decreases |pres|
  {
    if pres != [] {
      DirtyNames(pres[..|pres| - 1], vs[..|vs| - 1]);
      assert forall n | n in Names(vs[..|vs| - 1]) :: n in Names(vs);
      assert vs[|vs| - 1].name in Names(vs);
    }
  }

  class VolumeBinder {
    const pvCache: AssumeCache
    const pvcCache: AssumeCache

    ghost predicate Valid()
      reads this, pvCache, pvcCache
    {
      pvCache != pvcCache && pvCache.Valid() && pvcCache.Valid()
    }

    constructor ()
      ensures Valid() && fresh(pvCache) && fresh(pvcCache)
    {
      pvCache := new AssumeCache();
      pvcCache := new AssumeCache();
    }

    method RevertAssumedPVs(bindings: seq<Binding>)
      requires Valid()
      modifies pvCache
      ensures Valid() && Undone(old(pvCache.store), pvCache.store, Volumes(bindings))
    {
      ghost var vs := Volumes(bindings);
      assert RestoredIn(pvCache.store, Names(vs[..0])) == pvCache.store;
      for i := 0 to |bindings|
        invariant Valid() && Undone(old(pvCache.store), pvCache.store, vs[..i])
      {
        pvCache.Restore(bindings[i].pv.name);
        OneMore(old(pvCache.store), vs, i);
      }
      assert vs[..|bindings|] == vs;
    }

    method RevertAssumedPVCs(claims: seq<Object>)
      requires Valid()
      modifies pvcCache
      ensures Valid() && Undone(old(pvcCache.store), pvcCache.store, claims)
    {
      assert RestoredIn(pvcCache.store, Names(claims[..0])) == pvcCache.store;
      for i := 0 to |claims|
        invariant Valid() && Undone(old(pvcCache.store), pvcCache.store, claims[..i])
      {
        pvcCache.Restore(claims[i].name);
        OneMore(old(pvcCache.store), claims, i);
      }
      assert claims[..|claims|] == claims;
    }

    /**
     AssumePodVolumes. `bind` is GetBindVolumeToClaim, `select` puts the node's name on a copy of a claim. On
     failure every volume and claim that was processed is restored and no other entry has changed; on success
     the changed volumes and all claims are assumed.
     */
    method AssumePodVolumes(allBound: bool, volumes: PodVolumes, bind: Binding -> Option<Prebound>, select: Object -> Object)
      returns (allFullyBound: bool, ok: bool, volumes': PodVolumes, ghost pres: seq<Prebound>, ghost claims: seq<Object>)
      requires Valid()
      modifies pvCache, pvcCache
      ensures Valid() && allFullyBound == allBound
      ensures allBound ==> ok && volumes' == volumes && pvCache.store == old(pvCache.store) && pvcCache.store == old(pvcCache.store)
      ensures |pres| <= |Listed(volumes.staticBindings)| && |claims| <= |Listed(volumes.dynamicProvisions)|
      ensures forall i | 0 <= i < |pres| :: bind(Listed(volumes.staticBindings)[i]) == Some(pres[i])
      ensures forall i | 0 <= i < |claims| :: claims[i] == select(Listed(volumes.dynamicProvisions)[i])
      ensures !ok ==> (claims == [] && BindingFails(old(pvCache.store), Listed(volumes.staticBindings), bind, pres)) ||
                      (|pres| == |Listed(volumes.staticBindings)| && ClaimFails(old(pvcCache.store), Listed(volumes.dynamicProvisions), select, claims))
      ensures !ok ==> volumes' == volumes && Undone(old(pvcCache.store), pvcCache.store, claims)
      ensures !ok ==> Undone(old(pvCache.store), pvCache.store, Bound(pres))
      ensures ok && !allBound ==>
                pvCache.store == AssumedAll(old(pvCache.store), Dirty(pres)) && pvcCache.store == AssumedAll(old(pvcCache.store), claims) &&
                volumes'.staticBindings.Some? && volumes'.dynamicProvisions == Some(claims) &&
                |claims| == |Listed(volumes.dynamicProvisions)| && |pres| == |Listed(volumes.staticBindings)| == |volumes'.staticBindings.value| &&
                forall i | 0 <= i < |pres| :: volumes'.staticBindings.value[i] == Listed(volumes.staticBindings)[i].(pv := pres[i].pv)
    {
      pres, claims := [], [];
      if allBound {
        return true, true, volumes, pres, claims;
      }
      allFullyBound, volumes' := false, volumes;
      var newBindings;
      ok, newBindings, pres := AssumePVs(Listed(volumes.staticBindings), bind);
      if !ok {
        NothingRestored(pvcCache.store);
        return;
      }
      ghost var assumedPVs := pvCache.store;
      var newClaims;
      ok, newClaims := AssumePVCs(Listed(volumes.dynamicProvisions), select);
      claims := newClaims;
      if !ok {
        RevertAssumedPVs(newBindings);
        ghost var vs := Volumes(newBindings);
        DirtyNames(pres, vs);
        RestoringUndoesAssuming(old(pvCache.store), Dirty(pres), Names(vs));
        assert vs == Bound(pres);
        return;
      }
      volumes' := PodVolumes(Some(newBindings), Some(newClaims));
    }

    lemma NothingRestored(s: Store)
      ensures Undone(s, s, [])
    {
    }

    /** The first loop of AssumePodVolumes. */
    method AssumePVs(bindings: seq<Binding>, bind: Binding -> Option<Prebound>) returns (ok: bool, newBindings: seq<Binding>, ghost pres: seq<Prebound>)
      requires Valid()
      modifies pvCache
      ensures Valid()
      ensures |newBindings| == |pres| <= |bindings| && (ok ==> |pres| == |bindings|)
      ensures !ok ==> BindingFails(old(pvCache.store), bindings, bind, pres)
      ensures forall i | 0 <= i < |pres| :: bind(bindings[i]) == Some(pres[i]) && newBindings[i] == bindings[i].(pv := pres[i].pv)
      ensures if ok then pvCache.store == AssumedAll(old(pvCache.store), Dirty(pres))
              else Undone(old(pvCache.store), pvCache.store, Bound(pres))
    {
      newBindings, pres := [], [];
      for i := 0 to |bindings|
        invariant Valid() && |newBindings| == |pres| == i
        invariant forall k | 0 <= k < i :: bind(bindings[k]) == Some(pres[k]) && newBindings[k] == bindings[k].(pv := pres[k].pv)
        invariant pvCache.store == AssumedAll(old(pvCache.store), Dirty(pres))
      {
        var answer := bind(bindings[i]);
        var fine := answer.Some?;
        if fine && answer.value.dirty {
          fine := pvCache.Assume(answer.value.pv);
        }
        if !fine {
          RevertAssumedPVs(newBindings);
          ghost var vs := Volumes(newBindings);
          DirtyNames(pres, vs);
          RestoringUndoesAssuming(old(pvCache.store), Dirty(pres), Names(vs));
          assert vs == Bound(pres);
          return false, newBindings, pres;
        }
        newBindings := newBindings + [Binding(answer.value.pv, bindings[i].pvc)];
        DirtyOneMore(old(pvCache.store), pres, answer.value);
        pres := pres + [answer.value];
      }
      ok := true;
    }

    lemma DirtyOneMore(s: Store, pres: seq<Prebound>, pre: Prebound)
      ensures AssumedAll(s, Dirty(pres + [pre])) ==
              if pre.dirty then After(AssumedAll(s, Dirty(pres)), Assumed(pre.pv)) else AssumedAll(s, Dirty(pres))
    {
      var more := pres + [pre];
      assert more[..|pres|] == pres && more[|more| - 1] == pre;
      assert Dirty(more) == Dirty(pres) + if pre.dirty then [pre.pv] else [];
      if pre.dirty {
        var os := Dirty(pres) + [pre.pv];
        assert os[..|os| - 1] == Dirty(pres);
        assert AssumedAll(s, os) == After(AssumedAll(s, os[..|os| - 1]), Assumed(os[|os| - 1]));
      } else {
        assert Dirty(more) == Dirty(pres);
      }
    }

    /** The second loop of AssumePodVolumes. */
    method AssumePVCs(provisions: seq<Object>, select: Object -> Object) returns (ok: bool, claims: seq<Object>)
      requires Valid()
      modifies pvcCache
      ensures Valid()
      ensures |claims| <= |provisions| && (ok ==> |claims| == |provisions|)
      ensures !ok ==> ClaimFails(old(pvcCache.store), provisions, select, claims)
      ensures forall i | 0 <= i < |claims| :: claims[i] == select(provisions[i])
      ensures if ok then pvcCache.store == AssumedAll(old(pvcCache.store), claims)
              else Undone(old(pvcCache.store), pvcCache.store, claims)
    {
      claims := [];
      for i := 0 to |provisions|
        invariant Valid() && |claims| == i
        invariant forall k | 0 <= k < i :: claims[k] == select(provisions[k])
        invariant pvcCache.store == AssumedAll(old(pvcCache.store), claims)
      {
        var clone := select(provisions[i]);
        var fine := pvcCache.Assume(clone);
        if !fine {
          RevertAssumedPVCs(claims);
          RestoringUndoesAssuming(old(pvcCache.store), claims, Names(claims));
          return false, claims;
        }
        assert (claims + [clone])[..i] == claims;
        claims := claims + [clone];
      }
      ok := true;
    }

    /**
     bindAPIUpdate: `updatePV` and `updatePVC` are the server's answers by position. If an update fails, exactly
     the volumes and claims from there on are restored; those already sent stay assumed.
     */
    method BindAPIUpdate(volumes: PodVolumes, updatePV: nat -> Option<Object>, updatePVC: nat -> Option<Object>)
      returns (ok: bool, volumes': PodVolumes, boundPVs: nat, boundPVCs: nat)
      requires Valid()
      modifies pvCache, pvcCache
      ensures Valid()
      ensures volumes.staticBindings.None? || volumes.dynamicProvisions.None? ==>
                !ok && pvCache.store == old(pvCache.store) && pvcCache.store == old(pvcCache.store)
      ensures volumes.staticBindings.Some? && volumes.dynamicProvisions.Some? ==>
                var bindings, claims := volumes.staticBindings.value, volumes.dynamicProvisions.value;
                boundPVs <= |bindings| && boundPVCs <= |claims| &&
                ok == (boundPVs == |bindings| && boundPVCs == |claims|) &&
                (forall i | 0 <= i < boundPVs :: updatePV(i).Some?) && (forall i | 0 <= i < boundPVCs :: updatePVC(i).Some?) &&
                (boundPVs < |bindings| ==> updatePV(boundPVs).None? && boundPVCs == 0) &&
                (boundPVs == |bindings| && boundPVCs < |claims| ==> updatePVC(boundPVCs).None?) &&
                Undone(old(pvCache.store), pvCache.store, Volumes(bindings[boundPVs..])) &&
                Undone(old(pvcCache.store), pvcCache.store, claims[boundPVCs..])
    {
      ok, volumes', boundPVs, boundPVCs := false, volumes, 0, 0;
      if volumes.staticBindings.None? || volumes.dynamicProvisions.None? {
        return;
      }
      var bindings, claims := volumes.staticBindings.value, volumes.dynamicProvisions.value;
      while boundPVs < |bindings| && updatePV(boundPVs).Some?
        invariant boundPVs <= |bindings| && forall i | 0 <= i < boundPVs :: updatePV(i).Some?
        invariant |bindings| == |volumes.staticBindings.value| && bindings[boundPVs..] == volumes.staticBindings.value[boundPVs..]
      {
        bindings := bindings[boundPVs := bindings[boundPVs].(pv := updatePV(boundPVs).value)];
        boundPVs := boundPVs + 1;
      }
      while boundPVs == |bindings| && boundPVCs < |claims| && updatePVC(boundPVCs).Some?
        invariant boundPVCs <= |claims| && (boundPVCs > 0 ==> boundPVs == |bindings|)
        invariant forall i | 0 <= i < boundPVCs :: updatePVC(i).Some?
        invariant |claims| == |volumes.dynamicProvisions.value| && claims[boundPVCs..] == volumes.dynamicProvisions.value[boundPVCs..]
      {
        claims := claims[boundPVCs := updatePVC(boundPVCs).value];
        boundPVCs := boundPVCs + 1;
      }
      ok := boundPVs == |bindings| && boundPVCs == |claims|;
      RevertAssumedPVs(bindings[boundPVs..]);
      RevertAssumedPVCs(claims[boundPVCs..]);
      volumes' := PodVolumes(Some(bindings), Some(claims));
    }
  }

  lemma OneMore(s: Store, os: seq<Object>, i: nat)
    requires i < |os|
    ensures RestoredIn(RestoredIn(s, Names(os[..i])), {os[i].name}) == RestoredIn(s, Names(os[..i + 1]))
  {
  }

  /** A failed attempt leaves a cache as it was exactly when nothing it touched had been assumed by someone else. */
  lemma FailureIsInvisible(before: Store, after: Store, touched: seq<Object>)
    requires Undone(before, after, touched)
    ensures after == before <==> forall n | n in before && n in Names(touched) :: before[n].latest == before[n].api
    ensures forall n | n in after && n in Names(touched) :: after[n].latest == after[n].api
    ensures after.Keys == before.Keys && forall n | n in before && n !in Names(touched) :: after[n] == before[n]
  {
  }

  // ----- finding

  /** A claim to bind; `selectedNode` is its annotation, if it has one. */
  datatype Claim = Claim(name: string, size: int, selectedNode: Option<string>)

  /** What FindMatchingVolume answers: an error, no match, or the name of a volume. */
  datatype Match = MatchError | NoMatch | Matched(pv: string)

  /** What the checks of one claim to provision come to. */
  datatype Provision = Eligible | NotProvisionable | TooLittleStorage | ProvisionError

  /** What checkBoundClaims answers. */
  datatype BoundCheck = BoundCheck(satisfied: bool, found: bool, failed: bool)

  datatype Reason = NodeConflict | BindConflict | NotEnoughSpace | PVNotExist

  datatype StaticBinding = StaticBinding(pv: string, claim: Claim)

  datatype Found = Found(staticBindings: seq<StaticBinding>, dynamicProvisions: seq<Claim>, reasons: seq<Reason>, failed: bool)

  /** A volume that was chosen already is not chosen again. */
  ghost predicate Excludes(matching: (Claim, set<string>) -> Match) {
    forall c, chosen :: matching(c, chosen).Matched? ==> matching(c, chosen).pv !in chosen
  }

  function ClaimsOf(bindings: seq<StaticBinding>): (cs: seq<Claim>)
    ensures |cs| == |bindings|
  {
    seq(|bindings|, i requires 0 <= i < |bindings| => bindings[i].claim)
  }

  function PVsOf(bindings: seq<StaticBinding>): set<string> {
    set i | 0 <= i < |bindings| :: bindings[i].pv
  }

  predicate SortedBySize(cs: seq<Claim>) {
    forall i, j | 0 <= i < j < |cs| :: cs[i].size <= cs[j].size
  }

  function InsertBySize(c: Claim, cs: seq<Claim>): seq<Claim> {
    if cs == [] || c.size <= cs[0].size then [c] + cs else [cs[0]] + InsertBySize(c, cs[1..])
  }

  function BySize(cs: seq<Claim>): seq<Claim> {
    if cs == [] then [] else InsertBySize(cs[0], BySize(cs[1..]))
  }

  lemma {:induction false} InsertKeeps(c: Claim, cs: seq<Claim>)
    ensures multiset(InsertBySize(c, cs)) == multiset(cs) + multiset{c}
  {
    if cs != [] && c.size > cs[0].size {
      InsertKeeps(c, cs[1..]);
      assert cs == [cs[0]] + cs[1..];
    }
  }

  lemma {:induction false} InsertSorts(c: Claim, cs: seq<Claim>)
    requires SortedBySize(cs)
    ensures multiset(InsertBySize(c, cs)) == multiset(cs) + multiset{c} && SortedBySize(InsertBySize(c, cs))
  {
    InsertKeeps(c, cs);
    if cs != [] && c.size > cs[0].size {
      var rest := InsertBySize(c, cs[1..]);
      InsertSorts(c, cs[1..]);
      forall i | 0 <= i < |rest| ensures cs[0].size <= rest[i].size {
        FromEither(c, cs[1..], rest[i]);
      }
      FirstSorted(cs[0], rest);
    }
  }

  lemma FromEither(c: Claim, cs: seq<Claim>, x: Claim)
    requires x in InsertBySize(c, cs)
    ensures x == c || x in cs
  {
  }

  lemma FirstSorted(c: Claim, cs: seq<Claim>)
    requires SortedBySize(cs) && forall i | 0 <= i < |cs| :: c.size <= cs[i].size
    ensures SortedBySize([c] + cs)
  {
  }

  lemma {:induction false} BySizeSorts(cs: seq<Claim>)
    ensures multiset(BySize(cs)) == multiset(cs) && SortedBySize(BySize(cs))
  {
    if cs != [] {
      BySizeSorts(cs[1..]);
      InsertSorts(cs[0], BySize(cs[1..]));
      assert cs == [cs[0]] + cs[1..];
    }
  }

  /** Each volume is given to one claim, and smaller claims were served first. */
  ghost predicate Fair(bindings: seq<StaticBinding>) {
    forall i, j | 0 <= i < j < |bindings| :: bindings[i].pv != bindings[j].pv && bindings[i].claim.size <= bindings[j].claim.size
  }

  /** Every bound claim is among those looked at, the rest of which are larger. */
  ghost predicate Served(bindings: seq<StaticBinding>, sorted: seq<Claim>, n: nat) {
    n <= |sorted| && forall k, l | 0 <= k < |bindings| && n <= l < |sorted| :: bindings[k].claim.size <= sorted[l].size
  }

  lemma BindingAdded(bindings: seq<StaticBinding>, b: StaticBinding, sorted: seq<Claim>, n: nat)
    requires Fair(bindings) && b.pv !in PVsOf(bindings) && SortedBySize(sorted)
    requires n < |sorted| && Served(bindings, sorted, n) && b.claim == sorted[n]
    ensures ClaimsOf(bindings + [b]) == ClaimsOf(bindings) + [b.claim] && PVsOf(bindings + [b]) == PVsOf(bindings) + {b.pv}
    ensures Fair(bindings + [b]) && Served(bindings + [b], sorted, n + 1)
  {
    var more := bindings + [b];
    assert forall i | 0 <= i < |bindings| :: more[i] == bindings[i];
    assert more[|bindings|] == b;
    assert forall i | 0 <= i < |bindings| :: bindings[i].pv in PVsOf(bindings);
  }

  /** Smallest claims first; each volume is given to one claim, and what finds none is left for provisioning. */
  method FindMatchingVolumes(claims: seq<Claim>, matching: (Claim, set<string>) -> Match)
    returns (foundMatches: bool, bindings: seq<StaticBinding>, unbound: seq<Claim>, failed: bool)
    requires Excludes(matching)
    ensures failed ==> bindings == [] && unbound == [] && !foundMatches && CannotMatch(claims, matching)
    ensures !failed ==> multiset(ClaimsOf(bindings)) + multiset(unbound) == multiset(claims) && foundMatches == (unbound == [])
    ensures Fair(bindings) && Answered(bindings, matching) && forall c | c in unbound :: Unmatched(c, bindings, matching)
  {
    hide Fair, Served, PVsOf, ClaimsOf, BySize, SortedBySize, Excludes, Answered, Unmatched, CannotMatch;
    var sorted := BySize(claims);
    BySizeSorts(claims);
    var chosen: set<string> := {};
    foundMatches, bindings, unbound, failed := true, [], [], false;
    NothingServed(sorted, matching);
    for i := 0 to |sorted|
      invariant chosen == PVsOf(bindings) && Fair(bindings) && Served(bindings, sorted, i)
      invariant multiset(ClaimsOf(bindings)) + multiset(unbound) == multiset(sorted[..i]) && foundMatches == (unbound == [])
      invariant Answered(bindings, matching) && forall c | c in unbound :: Unmatched(c, bindings, matching)
    {
      assert sorted[..i + 1] == sorted[..i] + [sorted[i]];
      ServedNext(bindings, sorted, i);
      match matching(sorted[i], chosen) {
        case MatchError =>
          NothingServed(sorted, matching);
          NoAnswer(claims, sorted, i, chosen, matching);
          return false, [], [], true;
        case NoMatch =>
          StaysUnmatched(sorted[i], bindings, matching);
          unbound := unbound + [sorted[i]];
          foundMatches := false;
        case Matched(pv) =>
          NotChosen(matching, sorted[i], chosen);
          BindingAdded(bindings, StaticBinding(pv, sorted[i]), sorted, i);
          AnswerAdded(bindings, StaticBinding(pv, sorted[i]), matching);
          chosen := chosen + {pv};
          bindings := bindings + [StaticBinding(pv, sorted[i])];
      }
    }
    assert sorted[..|sorted|] == sorted;
  }

  /** Each volume is the answer for its claim, given the volumes of the earlier bindings. */
  ghost predicate Answered(bindings: seq<StaticBinding>, matching: (Claim, set<string>) -> Match) {
    forall i | 0 <= i < |bindings| :: matching(bindings[i].claim, PVsOf(bindings[..i])) == Matched(bindings[i].pv)
  }

  /** When the claim was looked at, with the volumes of the bindings so far taken, there was no match. */
  ghost predicate Unmatched(c: Claim, bindings: seq<StaticBinding>, matching: (Claim, set<string>) -> Match) {
    exists k | 0 <= k <= |bindings| :: matching(c, PVsOf(bindings[..k])) == NoMatch
  }

  ghost predicate CannotMatch(claims: seq<Claim>, matching: (Claim, set<string>) -> Match) {
    exists c, chosen :: c in claims && matching(c, chosen) == MatchError
  }

  lemma NoAnswer(claims: seq<Claim>, sorted: seq<Claim>, i: nat, chosen: set<string>, matching: (Claim, set<string>) -> Match)
    requires multiset(sorted) == multiset(claims) && i < |sorted| && matching(sorted[i], chosen) == MatchError
    ensures CannotMatch(claims, matching)
  {
    assert sorted[i] in multiset(sorted);
  }

  lemma StaysUnmatched(c: Claim, bindings: seq<StaticBinding>, matching: (Claim, set<string>) -> Match)
    requires matching(c, PVsOf(bindings)) == NoMatch
    ensures Unmatched(c, bindings, matching)
  {
    assert bindings[..|bindings|] == bindings;
  }

  lemma AnswerAdded(bindings: seq<StaticBinding>, b: StaticBinding, matching: (Claim, set<string>) -> Match)
    requires Answered(bindings, matching) && matching(b.claim, PVsOf(bindings)) == Matched(b.pv)
    ensures Answered(bindings + [b], matching)
    ensures forall c | Unmatched(c, bindings, matching) :: Unmatched(c, bindings + [b], matching)
  {
    hide PVsOf;
    var more := bindings + [b];
    forall i | 0 <= i < |more| ensures matching(more[i].claim, PVsOf(more[..i])) == Matched(more[i].pv) {
      assert more[..i] == bindings[..i];
      assert i == |bindings| ==> bindings[..i] == bindings;
    }
    forall c | Unmatched(c, bindings, matching) ensures Unmatched(c, more, matching) {
      var k :| 0 <= k <= |bindings| && matching(c, PVsOf(bindings[..k])) == NoMatch;
      assert more[..k] == bindings[..k];
    }
  }

  lemma NotChosen(matching: (Claim, set<string>) -> Match, c: Claim, chosen: set<string>)
    requires Excludes(matching) && matching(c, chosen).Matched?
    ensures matching(c, chosen).pv !in chosen
  {
  }

  lemma NothingServed(sorted: seq<Claim>, matching: (Claim, set<string>) -> Match)
    ensures Fair([]) && Served([], sorted, 0) && PVsOf([]) == {} && ClaimsOf([]) == [] && Answered([], matching)
  {
  }

  lemma ServedNext(bindings: seq<StaticBinding>, sorted: seq<Claim>, n: nat)
    requires n < |sorted| && Served(bindings, sorted, n)
    ensures Served(bindings, sorted, n + 1)
  {
  }

  /** The check of some claim comes to `p`. */
  ghost predicate Any(claims: seq<Claim>, check: Claim -> Provision, p: Provision) {
    exists c :: c in claims && check(c) == p
  }

  lemma AnyInWhole(part: seq<Claim>, whole: seq<Claim>, check: Claim -> Provision, p: Provision)
    requires multiset(part) <= multiset(whole) && Any(part, check, p)
    ensures Any(whole, check, p)
  {
    var c :| c in part && check(c) == p;
    assert c in multiset(part) && c in multiset(whole);
  }

  /** Stops at the first claim that cannot be provisioned, and then lists none. */
  method CheckVolumeProvisions(claims: seq<Claim>, check: Claim -> Provision)
    returns (provisionSatisfied: bool, sufficientStorage: bool, dynamic: seq<Claim>, failed: bool)
    ensures (provisionSatisfied && sufficientStorage && !failed) <==> forall i | 0 <= i < |claims| :: check(claims[i]).Eligible?
    ensures dynamic == if provisionSatisfied && sufficientStorage && !failed then claims else []
    ensures failed ==> Any(claims, check, ProvisionError)
    ensures !failed && !sufficientStorage ==> Any(claims, check, TooLittleStorage)
    ensures !failed && !provisionSatisfied ==> Any(claims, check, NotProvisionable)
  {
    dynamic := [];
    for i := 0 to |claims|
      invariant dynamic == claims[..i] && forall k | 0 <= k < i :: check(claims[k]).Eligible?
    {
      assert claims[i] in claims;
      match check(claims[i]) {
        case ProvisionError => return false, false, [], true;
        case NotProvisionable => return false, true, [], false;
        case TooLittleStorage => return true, false, [], false;
        case Eligible => dynamic := dynamic + [claims[i]];
      }
    }
    return true, true, dynamic, false;
  }

  /** Some claim was promised to another node. */
  predicate Elsewhere(claims: seq<Claim>, node: string) {
    exists i | 0 <= i < |claims| :: claims[i].selectedNode.Some? && claims[i].selectedNode.value != node
  }

  /** Filters out the claims to provision, unless one was promised to another node. */
  method SplitClaims(claims: seq<Claim>, node: string) returns (matching: seq<Claim>, provision: seq<Claim>, elsewhere: bool)
    ensures elsewhere == Elsewhere(claims, node)
    ensures !elsewhere ==> multiset(matching) + multiset(provision) == multiset(claims)
    ensures !elsewhere ==> forall c | c in provision :: c.selectedNode == Some(node)
    ensures !elsewhere ==> forall c | c in matching :: c.selectedNode.None?
  {
    matching, provision := [], [];
    for i := 0 to |claims|
      invariant !Elsewhere(claims[..i], node) && multiset(matching) + multiset(provision) == multiset(claims[..i])
      invariant forall c | c in provision :: c.selectedNode == Some(node)
      invariant forall c | c in matching :: c.selectedNode.None?
    {
      assert claims[..i + 1] == claims[..i] + [claims[i]];
      if claims[i].selectedNode.Some? {
        if claims[i].selectedNode.value != node {
          return matching, provision, true;
        }
        provision := provision + [claims[i]];
      } else {
        matching := matching + [claims[i]];
      }
    }
    assert claims[..|claims|] == claims;
    elsewhere := false;
  }

  /**
   Without error and reasons, every claim is in exactly one of the two lists: bound to a volume found for it,
   none of them given out twice, or to be provisioned, because it was promised to this node or found no match.
   */
  ghost predicate AllPlaced(claims: seq<Claim>, node: string, matching: (Claim, set<string>) -> Match, check: Claim -> Provision, f: Found) {
    multiset(ClaimsOf(f.staticBindings)) + multiset(f.dynamicProvisions) == multiset(claims) &&
    Fair(f.staticBindings) && Answered(f.staticBindings, matching) &&
    (forall c | c in f.dynamicProvisions :: c.selectedNode == Some(node) || Unmatched(c, f.staticBindings, matching)) &&
    (forall i | 0 <= i < |f.dynamicProvisions| :: check(f.dynamicProvisions[i]).Eligible?) &&
    !Elsewhere(claims, node)
  }

  /** FindPodVolumes. `bound` is what checking the bound claims, if there are any, came to. */
  method FindPodVolumes(bound: Option<BoundCheck>, claims: seq<Claim>, node: string,
                        matching: (Claim, set<string>) -> Match, check: Claim -> Provision) returns (f: Found)
    requires Excludes(matching)
    ensures !f.failed && f.reasons == [] ==> AllPlaced(claims, node, matching, check, f)
    ensures f.failed ==> (bound.Some? && bound.value.failed) || CannotMatch(claims, matching) || Any(claims, check, ProvisionError)
    ensures !f.failed ==> (NodeConflict in f.reasons <==> bound.Some? && !bound.value.satisfied)
    ensures !f.failed ==> (PVNotExist in f.reasons <==> bound.Some? && !bound.value.found)
    ensures !f.failed && BindConflict in f.reasons ==> Elsewhere(claims, node) || Any(claims, check, NotProvisionable)
    ensures !f.failed && NotEnoughSpace in f.reasons ==> Any(claims, check, TooLittleStorage)
  {
    hide Any, Elsewhere, Fair, Excludes, ClaimsOf, Reasons, Answered, Unmatched, CannotMatch;
    ReasonsAre();
    var boundOk := if bound.Some? then bound.value else BoundCheck(true, true, false);
    if boundOk.failed {
      return Found([], [], [], true);
    }
    var toMatch, toProvision, elsewhere := SplitClaims(claims, node);
    if elsewhere {
      return Found([], [], Reasons(boundOk, false, true), false);
    }
    var unboundOk, sufficient, bindings, provisions, failed := true, true, [], [], false;
    if toMatch != [] {
      var unbound;
      unboundOk, bindings, unbound, failed := FindMatchingVolumes(toMatch, matching);
      if failed {
        MatchFailure(toMatch, claims, matching);
        return Found(bindings, provisions, [], true);
      }
      toProvision := toProvision + unbound;
      assert multiset(ClaimsOf(bindings)) + multiset(toProvision) == multiset(claims);
    } else {
      NothingServed([], matching);
    }
    assert multiset(toProvision) <= multiset(claims);
    if toProvision != [] {
      unboundOk, sufficient, provisions, failed := CheckVolumeProvisions(toProvision, check);
      if !failed && !unboundOk {
        AnyInWhole(toProvision, claims, check, NotProvisionable);
      }
      if !failed && !sufficient {
        AnyInWhole(toProvision, claims, check, TooLittleStorage);
      }
      if failed {
        AnyInWhole(toProvision, claims, check, ProvisionError);
        return Found(bindings, provisions, [], true);
      }
    }
    f := Found(bindings, provisions, Reasons(boundOk, unboundOk, sufficient), false);
  }

  lemma MatchFailure(part: seq<Claim>, whole: seq<Claim>, matching: (Claim, set<string>) -> Match)
    requires multiset(part) <= multiset(whole) && CannotMatch(part, matching)
    ensures CannotMatch(whole, matching)
  {
    var c, chosen :| c in part && matching(c, chosen) == MatchError;
    assert c in multiset(part) && c in multiset(whole);
  }

  lemma ReasonsAre()
    ensures forall bound, unboundOk, sufficient :: var rs := Reasons(bound, unboundOk, sufficient);
            (BindConflict in rs <==> !unboundOk) && (NotEnoughSpace in rs <==> !sufficient) &&
            (NodeConflict in rs <==> !bound.satisfied) && (PVNotExist in rs <==> !bound.found) &&
            (rs == [] <==> bound.satisfied && bound.found && unboundOk && sufficient)
  {
  }

  function Reasons(bound: BoundCheck, unboundOk: bool, sufficient: bool): seq<Reason> {
    (if bound.satisfied then [] else [NodeConflict]) + (if unboundOk then [] else [BindConflict]) +
    (if sufficient then [] else [NotEnoughSpace]) + (if bound.found then [] else [PVNotExist])
  }
}
