/** How the votes of plugins in tiers are combined (pkg/scheduler/framework/session_plugins.go). */
module Votes {
  import opened Tasks

  /** A plugin of a tier: whether it is enabled and registered, and its answer to the preemptees at hand. */
  datatype Plugin = Plugin(enabled: bool, registered: bool, candidates: seq<Task>, abstains: bool)
  {
    predicate Votes() { enabled && registered && !abstains }
  }

  type Tier = seq<Plugin>

  predicate HasUid(ts: seq<Task>, u: TaskId) {
    exists i :: 0 <= i < |ts| && ts[i].uid == u
  }

  predicate Distinct(ts: seq<Task>) {
    forall i, k | 0 <= i < k < |ts| :: ts[i].uid != ts[k].uid
  }

  /** The candidate lists of a tier that count, in the order of its plugins. */
  function Ballots(tier: Tier): seq<seq<Task>> {
    if tier == [] then []
    else Ballots(tier[..|tier| - 1]) + (if tier[|tier| - 1].Votes() then [tier[|tier| - 1].candidates] else [])
  }

  /** A tier is heard unless nobody votes in it or its first voter offers no candidate. */
  predicate Heard(tier: Tier) {
    Ballots(tier) != [] && Ballots(tier)[0] != []
  }

  /** The task is among the candidates of every ballot. */
  predicate InAll(ballots: seq<seq<Task>>, u: TaskId) {
    forall i | 0 <= i < |ballots| :: HasUid(ballots[i], u)
  }

  /** A victim, as often as it occurs among the candidates. */
  function Matching(v: Task, candidates: seq<Task>): seq<Task> {
    if candidates == [] then []
    else Matching(v, candidates[..|candidates| - 1]) + if v.uid == candidates[|candidates| - 1].uid then [v] else []
  }

  /** The victims that also are candidates, in the order of the victims. */
  function Common(victims: seq<Task>, candidates: seq<Task>): seq<Task> {
    if victims == [] then [] else Common(victims[..|victims| - 1], candidates) + Matching(victims[|victims| - 1], candidates)
  }

  /** Victims that also are candidates, with the nested loops of the source. */
  method Intersect(victims: seq<Task>, candidates: seq<Task>) returns (intersection: seq<Task>)
    ensures intersection == Common(victims, candidates)
    ensures forall u :: HasUid(intersection, u) <==> HasUid(victims, u) && HasUid(candidates, u)
    ensures forall t | t in intersection :: t in victims
    ensures Distinct(victims) && Distinct(candidates) ==> Distinct(intersection)
    ensures victims == [] ==> intersection == []
  {
    intersection := [];
    for i := 0 to |victims|
      invariant intersection == Common(victims[..i], candidates)
    {
      var v := victims[i];
      ghost var before := intersection;
      for k := 0 to |candidates|
        invariant intersection == before + Matching(v, candidates[..k])
      {
        assert candidates[..k + 1][..k] == candidates[..k];
        if v.uid == candidates[k].uid {
          intersection := intersection + [v];
        }
      }
      assert candidates[..|candidates|] == candidates;
      assert victims[..i + 1][..i] == victims[..i];
    }
    assert victims[..|victims|] == victims;
    CommonTasks(victims, candidates, |victims|);
  }

  lemma {:induction false} MatchingIs(v: Task, candidates: seq<Task>)
    ensures forall m | 0 <= m < |Matching(v, candidates)| :: Matching(v, candidates)[m] == v
    ensures Matching(v, candidates) != [] <==> HasUid(candidates, v.uid)
    ensures Distinct(candidates) ==> |Matching(v, candidates)| <= 1
  {
    if candidates != [] {
      var k := |candidates| - 1;
      MatchingIs(v, candidates[..k]);
      assert candidates[..k + 1] == candidates;
      Grown(candidates, k, v.uid);
      if Distinct(candidates) {
        NotYet(candidates, k);
      }
    }
  }

  lemma {:induction false} CommonTasks(victims: seq<Task>, candidates: seq<Task>, n: nat)
    requires n <= |victims|
    ensures var common := Common(victims[..n], candidates);
            (forall u :: HasUid(common, u) <==> HasUid(victims[..n], u) && HasUid(candidates, u)) &&
            (forall t | t in common :: t in victims[..n]) && (Distinct(victims) && Distinct(candidates) ==> Distinct(common)) &&
            (n == 0 ==> common == [])
    ensures victims[..|victims|] == victims
  {
    hide HasUid, Distinct, Matching;
    if n > 0 {
      CommonTasks(victims, candidates, n - 1);
      assert victims[..n][..n - 1] == victims[..n - 1];
      MatchingIs(victims[n - 1], candidates);
      IntersectedOneMore(victims, candidates, n - 1, Common(victims[..n - 1], candidates), Common(victims[..n], candidates));
    } else {
      NothingHere();
    }
  }

  lemma NothingHere()
    ensures Distinct([]) && forall u :: !HasUid([], u)
  {
  }

  lemma NotYet(ts: seq<Task>, k: nat)
    requires Distinct(ts) && k < |ts|
    ensures !HasUid(ts[..k], ts[k].uid)
  {
  }

  lemma Grown(ts: seq<Task>, k: nat, u: TaskId)
    requires k < |ts|
    ensures HasUid(ts[..k + 1], u) <==> HasUid(ts[..k], u) || ts[k].uid == u
  {
  }

  lemma IntersectedOneMore(victims: seq<Task>, candidates: seq<Task>, i: nat, before: seq<Task>, after: seq<Task>)
    requires i < |victims| && before <= after
    requires forall u :: HasUid(before, u) <==> HasUid(victims[..i], u) && HasUid(candidates, u)
    requires forall t | t in before :: t in victims[..i]
    requires forall m | |before| <= m < |after| :: after[m] == victims[i]
    requires before < after <==> HasUid(candidates, victims[i].uid)
    ensures forall u :: HasUid(after, u) <==> HasUid(victims[..i + 1], u) && HasUid(candidates, u)
    ensures forall t | t in after :: t in victims[..i + 1]
    ensures Distinct(victims) && Distinct(before) && |after| <= |before| + 1 ==> Distinct(after)
  {
    forall u
      ensures HasUid(after, u) <==> HasUid(victims[..i + 1], u) && HasUid(candidates, u)
    {
      Grown(victims, i, u);
      AppendedUid(before, after, victims[i], u);
    }
    assert forall t | t in victims[..i] :: t in victims[..i + 1];
    assert victims[..i + 1][i] == victims[i];
    forall t | t in after
      ensures t in victims[..i + 1]
    {
      var m :| 0 <= m < |after| && after[m] == t;
      if m < |before| {
        assert before[m] in before;
      }
    }
    if Distinct(victims) && Distinct(before) && |after| <= |before| + 1 {
      NotYet(victims, i);
      assert !HasUid(before, victims[i].uid);
      forall m, k | 0 <= m < k < |after|
        ensures after[m].uid != after[k].uid
      {
        assert after[m] == before[m];
        assert HasUid(before, before[m].uid);
      }
    }
  }

  lemma AppendedUid(before: seq<Task>, after: seq<Task>, v: Task, u: TaskId)
    requires before <= after && forall m | |before| <= m < |after| :: after[m] == v
    ensures HasUid(after, u) <==> HasUid(before, u) || (before < after && v.uid == u)
  {
    if HasUid(before, u) {
      var i :| 0 <= i < |before| && before[i].uid == u;
      assert after[i].uid == u;
    }
    if HasUid(after, u) {
      var i :| 0 <= i < |after| && after[i].uid == u;
      if i < |before| {
        assert before[i].uid == u;
      }
    }
    if before < after {
      assert after[|before|] == v;
    }
  }

  /** The victims after some ballots of one tier that began unheard: all their common candidates. */
  ghost predicate Meets(victims: seq<Task>, ballots: seq<seq<Task>>) {
    ballots != [] && (forall u :: HasUid(victims, u) <==> InAll(ballots, u)) &&
    (forall t | t in victims :: t in ballots[0]) &&
    ((forall i | 0 <= i < |ballots| :: Distinct(ballots[i])) ==> Distinct(victims))
  }

  /** What Preemptable and Reclaimable return: nothing unless some tier is heard, and else what that tier's ballots share. */
  ghost predicate Verdict(tiers: seq<Tier>, victims: seq<Task>) {
    ((forall k | 0 <= k < |tiers| :: !Heard(tiers[k])) ==> victims == []) &&
    forall k | 0 <= k < |tiers| && Heard(tiers[k]) && (forall i | 0 <= i < k :: !Heard(tiers[i])) ::
      Meets(victims, Ballots(tiers[k]))
  }

  lemma {:induction false} BallotsPrefix(tier: Tier, p: nat)
    requires p <= |tier|
    ensures Ballots(tier[..p]) <= Ballots(tier)
    decreases |tier| - p
  {
    if p < |tier| {
      BallotsPrefix(tier, p + 1);
      assert tier[..p + 1][..p] == tier[..p];
    } else {
      assert tier[..p] == tier;
    }
  }

  lemma MeetsFirst(candidates: seq<Task>)
    ensures Meets(candidates, [candidates])
  {
    assert [candidates][0] == candidates;
    assert Distinct([candidates][0]) == Distinct(candidates);
  }

  lemma MeetsOneMore(victims: seq<Task>, ballots: seq<seq<Task>>, candidates: seq<Task>, victims': seq<Task>)
    requires Meets(victims, ballots)
    requires forall u :: HasUid(victims', u) <==> HasUid(victims, u) && HasUid(candidates, u)
    requires forall t | t in victims' :: t in victims
    requires Distinct(victims) && Distinct(candidates) ==> Distinct(victims')
    ensures Meets(victims', ballots + [candidates])
  {
    var all := ballots + [candidates];
    forall u
      ensures InAll(all, u) <==> InAll(ballots, u) && HasUid(candidates, u)
    {
      assert all[|ballots|] == candidates;
      assert forall i | 0 <= i < |ballots| :: all[i] == ballots[i];
    }
    if forall i | 0 <= i < |all| :: Distinct(all[i]) {
      assert Distinct(all[|ballots|]);
      assert forall i | 0 <= i < |ballots| :: Distinct(ballots[i]) by {
        assert forall i | 0 <= i < |ballots| :: all[i] == ballots[i];
      }
    }
  }

  /** An empty ballot leaves nothing in common. */
  lemma MeetsNothing(ballots: seq<seq<Task>>, i: nat)
    requires i < |ballots| && ballots[i] == []
    ensures Meets([], ballots)
  {
  }

  /** The loop over one tier, entered with no victims; `init0` says that an earlier tier was heard. */
  method TierVictims(tier: Tier, init0: bool) returns (victims: seq<Task>, init: bool)
    ensures init0 ==> victims == [] && init
    ensures !init0 && Heard(tier) ==> init && Meets(victims, Ballots(tier))
    ensures !init0 && !Heard(tier) ==> !init && victims == []
  {
    hide Meets, HasUid, InAll, Distinct;
    victims, init := [], init0;
    for p := 0 to |tier|
      invariant init0 ==> victims == [] && init
      invariant !init0 && Ballots(tier[..p]) == [] ==> !init && victims == []
      invariant !init0 && Ballots(tier[..p]) != [] ==> init && Ballots(tier[..p])[0] != [] && Meets(victims, Ballots(tier[..p]))
    {
      var plugin := tier[p];
      assert tier[..p + 1][..p] == tier[..p];
      BallotsPrefix(tier, p);
      BallotsPrefix(tier, p + 1);
      if !plugin.enabled || !plugin.registered || plugin.abstains {
        assert Ballots(tier[..p + 1]) == Ballots(tier[..p]);
        continue;
      }
      ghost var ballots := Ballots(tier[..p]);
      var candidates := plugin.candidates;
      assert Ballots(tier[..p + 1]) == ballots + [candidates];
      if |candidates| == 0 {
        victims := [];
        assert Ballots(tier)[|ballots|] == [];
        MeetsNothing(Ballots(tier), |ballots|);
        return;
      }
      if !init {
        victims, init := candidates, true;
        assert ballots + [candidates] == [candidates];
        MeetsFirst(candidates);
      } else {
        var intersection := Intersect(victims, candidates);
        if !init0 {
          MeetsOneMore(victims, ballots, candidates, intersection);
        }
        victims := intersection;
      }
    }
    assert tier[..|tier|] == tier;
  }

  /**
   Preemptable and Reclaimable.  Only the first tier that is heard decides, whatever the flag and the
   empty list carried from tier to tier.
   */
  method Evictable(tiers: seq<Tier>) returns (victims: seq<Task>)
    ensures Verdict(tiers, victims)
  {
    hide Heard, Meets, Ballots;
    victims := [];
    var init := false;
    for k := 0 to |tiers|
      invariant victims == []
      invariant !init ==> forall i | 0 <= i < k :: !Heard(tiers[i])
      invariant init ==> exists i | 0 <= i < k :: Heard(tiers[i])
      invariant init ==> Verdict(tiers, [])
    {
      ghost var before := init;
      victims, init := TierVictims(tiers[k], init);
      if !before && Heard(tiers[k]) {
        FirstHeardDecides(tiers, k, victims);
      }
      if victims != [] {
        return;
      }
    }
  }

  lemma FirstHeardDecides(tiers: seq<Tier>, k: nat, victims: seq<Task>)
    requires k < |tiers| && Heard(tiers[k]) && forall i | 0 <= i < k :: !Heard(tiers[i])
    requires Meets(victims, Ballots(tiers[k]))
    ensures Verdict(tiers, victims)
  {
  }

  /** A non-empty result is the intersection of the ballots of exactly one tier, and that tier is determined. */
  lemma NonEmptyVerdict(tiers: seq<Tier>, victims: seq<Task>)
    requires Verdict(tiers, victims) && victims != []
    ensures exists k | 0 <= k < |tiers| ::
              Heard(tiers[k]) && (forall i | 0 <= i < k :: !Heard(tiers[i])) && Meets(victims, Ballots(tiers[k]))
  {
    var k := FirstHeard(tiers, 0);
  }

  lemma FirstHeard(tiers: seq<Tier>, from: nat) returns (k: nat)
    requires from <= |tiers| && exists m | from <= m < |tiers| :: Heard(tiers[m])
    ensures from <= k < |tiers| && Heard(tiers[k]) && forall i | from <= i < k :: !Heard(tiers[i])
    decreases |tiers| - from
  {
    if Heard(tiers[from]) {
      k := from;
    } else {
      k := FirstHeard(tiers, from + 1);
    }
  }

  /** A later tier never repairs an earlier one that was heard and agreed on nothing. */
  lemma HeardTierIsFinal(tiers: seq<Tier>, k: nat, victims: seq<Task>)
    requires Verdict(tiers, victims) && k < |tiers| && Heard(tiers[k]) && forall i | 0 <= i < k :: !Heard(tiers[i])
    requires forall u :: !InAll(Ballots(tiers[k]), u)
    ensures victims == []
  {
    assert Meets(victims, Ballots(tiers[k]));
    if victims != [] {
      assert HasUid(victims, victims[0].uid);
    }
  }

  /** A first voter that offers nobody is not heard: its veto is lost, and the later tiers decide among themselves. */
  lemma UnheardVeto(tier: Tier, rest: seq<Tier>, victims: seq<Task>)
    requires !Heard(tier)
    ensures Verdict([tier] + rest, victims) <==> Verdict(rest, victims)
  {
    var tiers := [tier] + rest;
    if Verdict(rest, victims) {
      VetoThere(tier, rest, victims);
    }
    if Verdict(tiers, victims) {
      VetoBack(tier, rest, victims);
    }
  }

  lemma VetoThere(tier: Tier, rest: seq<Tier>, victims: seq<Task>)
    requires !Heard(tier) && Verdict(rest, victims)
    ensures Verdict([tier] + rest, victims)
  {
    hide Heard, Meets, Ballots;
    var tiers := [tier] + rest;
    assert forall k | 0 <= k < |rest| :: tiers[k + 1] == rest[k];
    forall k | 0 <= k < |tiers| && Heard(tiers[k]) && (forall i | 0 <= i < k :: !Heard(tiers[i]))
      ensures Meets(victims, Ballots(tiers[k]))
    {
      forall i | 0 <= i < k - 1
        ensures !Heard(rest[i])
      {
        assert rest[i] == tiers[i + 1];
      }
      assert Heard(rest[k - 1]);
    }
    if forall k | 0 <= k < |tiers| :: !Heard(tiers[k]) {
      forall k | 0 <= k < |rest|
        ensures !Heard(rest[k])
      {
        assert rest[k] == tiers[k + 1];
      }
    }
  }

  lemma VetoBack(tier: Tier, rest: seq<Tier>, victims: seq<Task>)
    requires !Heard(tier) && Verdict([tier] + rest, victims)
    ensures Verdict(rest, victims)
  {
    hide Heard, Meets, Ballots;
    var tiers := [tier] + rest;
    forall k | 0 <= k < |rest| && Heard(rest[k]) && (forall i | 0 <= i < k :: !Heard(rest[i]))
      ensures Meets(victims, Ballots(rest[k]))
    {
      forall i | 0 <= i < k + 1
        ensures !Heard(tiers[i])
      {
        assert i > 0 ==> tiers[i] == rest[i - 1];
      }
      assert tiers[k + 1] == rest[k];
    }
    if forall k | 0 <= k < |rest| :: !Heard(rest[k]) {
      forall k | 0 <= k < |tiers|
        ensures !Heard(tiers[k])
      {
        assert k > 0 ==> tiers[k] == rest[k - 1];
      }
    }
  }

  // ----- one poll of the configured plugins

  /** A plugin of a configured tier. What gang answers follows from the session; the others answer as they like. */
  datatype Voter = GangVoter | OtherVoter(enabled: bool, registered: bool)

  type Config = seq<seq<Voter>>

  datatype Reply = Reply(candidates: seq<Task>, abstains: bool)

  /**
   What the other plugins reply at one moment, by tier and place. It may depend on anything: on the preemptor,
   on what the session has become, and on what was asked before.
   */
  type Poll = seq<seq<Reply>>

  function ReplyOf(poll: Poll, k: nat, p: nat): Reply {
    if k < |poll| && p < |poll[k]| then poll[k][p] else Reply([], true)
  }

  /** Plugins choose among what they are asked about, and nothing twice; any other reply counts as choosing nothing. */
  function Chosen(r: Reply, ts: seq<Task>): (c: seq<Task>)
    ensures (forall t | t in c :: t in ts) && (Distinct(ts) ==> Distinct(c))
  {
    if (forall t | t in r.candidates :: t in ts) && (Distinct(ts) ==> Distinct(r.candidates)) then r.candidates else []
  }

  function Answer(v: Voter, r: Reply, ts: seq<Task>, gang: seq<Task>): Plugin {
    match v
    case GangVoter => Plugin(true, true, gang, false)
    case OtherVoter(enabled, registered) => Plugin(enabled, registered, Chosen(r, ts), r.abstains)
  }

  function Ask(config: Config, poll: Poll, k: nat, ts: seq<Task>, gang: seq<Task>): (r: Tier)
    requires k < |config|
    ensures |r| == |config[k]| && forall p | 0 <= p < |r| :: r[p] == Answer(config[k][p], ReplyOf(poll, k, p), ts, gang)
  {
    seq(|config[k]|, p requires 0 <= p < |config[k]| => Answer(config[k][p], ReplyOf(poll, k, p), ts, gang))
  }

  function AskAll(config: Config, poll: Poll, ts: seq<Task>, gang: seq<Task>): (r: seq<Tier>)
    ensures |r| == |config| && forall k | 0 <= k < |r| :: r[k] == Ask(config, poll, k, ts, gang)
  {
    seq(|config|, k requires 0 <= k < |config| => Ask(config, poll, k, ts, gang))
  }

  /** If some tier is heard, gang is among the voters of the first such tier. */
  ghost predicate GangDecides(config: Config, tiers: seq<Tier>)
    requires |tiers| == |config|
  {
    forall k | 0 <= k < |tiers| && Heard(tiers[k]) && (forall i | 0 <= i < k :: !Heard(tiers[i])) :: GangVoter in config[k]
  }

  /** Gang votes in every tier in which somebody can vote. */
  predicate GangEverywhere(config: Config) {
    forall k | 0 <= k < |config| :: GangVoter in config[k] || Mute(config[k])
  }

  predicate Mute(tier: seq<Voter>) {
    forall p | 0 <= p < |tier| :: tier[p].OtherVoter? && !(tier[p].enabled && tier[p].registered)
  }

  /** Such a configuration leaves every decision to a tier with gang, whatever anybody replies. */
  lemma EverywhereDecides(config: Config, poll: Poll, ts: seq<Task>, gang: seq<Task>)
    requires GangEverywhere(config)
    ensures GangDecides(config, AskAll(config, poll, ts, gang))
  {
    var tiers := AskAll(config, poll, ts, gang);
    forall k | 0 <= k < |tiers| && Heard(tiers[k]) ensures GangVoter in config[k] {
      if Mute(config[k]) {
        NobodyVotes(tiers[k]);
      }
    }
  }

  lemma {:induction false} NobodyVotes(tier: Tier)
    requires forall p | 0 <= p < |tier| :: !tier[p].Votes()
    ensures Ballots(tier) == []
    decreases |tier|
  {
    if tier != [] {
      NobodyVotes(tier[..|tier| - 1]);
    }
  }

  lemma BallotOf(tier: Tier, p: nat)
    requires p < |tier| && tier[p].Votes()
    ensures exists i :: 0 <= i < |Ballots(tier)| && Ballots(tier)[i] == tier[p].candidates
    decreases |tier|
  {
    if p < |tier| - 1 {
      BallotOf(tier[..|tier| - 1], p);
      BallotsPrefix(tier, |tier| - 1);
    } else {
      assert Ballots(tier)[|Ballots(tier)| - 1] == tier[p].candidates;
    }
  }

  lemma BallotFrom(tier: Tier, i: nat)
    requires i < |Ballots(tier)|
    ensures exists p :: 0 <= p < |tier| && tier[p].candidates == Ballots(tier)[i]
    decreases |tier|
  {
  }

  /** The victims are among the preemptees, each once, and where gang decides they are among gang's. */
  lemma VerdictOf(config: Config, poll: Poll, ts: seq<Task>, gang: seq<Task>, victims: seq<Task>)
    requires Distinct(ts) && Distinct(gang) && forall t | t in gang :: t in ts
    requires Verdict(AskAll(config, poll, ts, gang), victims)
    ensures Distinct(victims) && forall t | t in victims :: t in ts
    ensures GangDecides(config, AskAll(config, poll, ts, gang)) ==> forall t | t in victims :: t in gang
  {
    hide Distinct, Chosen, Heard, Ballots;
    var tiers := AskAll(config, poll, ts, gang);
    NothingHere();
    if victims != [] {
      NonEmptyVerdict(tiers, victims);
      var k :| 0 <= k < |tiers| && Heard(tiers[k]) && (forall i | 0 <= i < k :: !Heard(tiers[i])) && Meets(victims, Ballots(tiers[k]));
      var ballots := Ballots(tiers[k]);
      forall i | 0 <= i < |ballots|
        ensures Distinct(ballots[i]) && forall t | t in ballots[i] :: t in ts
      {
        BallotFrom(tiers[k], i);
        var p :| 0 <= p < |tiers[k]| && tiers[k][p].candidates == ballots[i];
        assert tiers[k][p] == Answer(config[k][p], ReplyOf(poll, k, p), ts, gang);
      }
      if GangDecides(config, tiers) {
        GangsBallot(config, poll, k, ts, gang, victims);
      }
    }
  }

  lemma GangsBallot(config: Config, poll: Poll, k: nat, ts: seq<Task>, gang: seq<Task>, victims: seq<Task>)
    requires k < |config| && GangVoter in config[k] && Distinct(ts) && forall t | t in gang :: t in ts
    requires Meets(victims, Ballots(Ask(config, poll, k, ts, gang))) && forall t | t in victims :: t in ts
    ensures forall t | t in victims :: t in gang
  {
    var tier := Ask(config, poll, k, ts, gang);
    var p :| 0 <= p < |config[k]| && config[k][p] == GangVoter;
    BallotOf(tier, p);
    var b :| 0 <= b < |Ballots(tier)| && Ballots(tier)[b] == gang;
    forall t | t in victims
      ensures t in gang
    {
      var m :| 0 <= m < |victims| && victims[m] == t;
      assert HasUid(victims, t.uid);
      assert HasUid(Ballots(tier)[b], t.uid);
      var i :| 0 <= i < |gang| && gang[i].uid == t.uid;
      assert gang[i] in gang;
      SameUid(ts, gang[i], t);
    }
  }

  lemma SameUid(ts: seq<Task>, t: Task, t': Task)
    requires Distinct(ts) && t in ts && t' in ts && t.uid == t'.uid
    ensures t == t'
  {
  }

  // ----- permit, abstain and reject

  /** A voter's answer: positive permits, negative rejects, zero abstains. */
  type Opinion = int

  predicate Rejects(tier: seq<Opinion>) {
    exists i :: 0 <= i < |tier| && tier[i] < 0
  }

  predicate Permits(tier: seq<Opinion>) {
    exists i :: 0 <= i < |tier| && tier[i] > 0
  }

  /** JobPipelined and JobEnqueueable: refused exactly if someone rejects in a tier that no earlier tier's permit shields. */
  method Permitted(tiers: seq<seq<Opinion>>) returns (permitted: bool)
    ensures permitted <==> forall k | 0 <= k < |tiers| && Rejects(tiers[k]) :: exists i | 0 <= i < k :: Permits(tiers[i])
  {
    var hasFound := false;
    for k := 0 to |tiers|
      invariant !hasFound && forall i | 0 <= i < k :: !Permits(tiers[i]) && !Rejects(tiers[i])
    {
      for p := 0 to |tiers[k]|
        invariant forall i | 0 <= i < p :: tiers[k][i] >= 0
        invariant hasFound <==> exists i | 0 <= i < p :: tiers[k][i] > 0
      {
        var res := tiers[k][p];
        if res < 0 {
          assert Rejects(tiers[k]);
          return false;
        }
        if res > 0 {
          hasFound := true;
        }
      }
      if hasFound {
        assert Permits(tiers[k]);
        return true;
      }
    }
    return true;
  }
}
