/**
 The parallel search for nodes that fit a task (pkg/scheduler/util/predicate_helper.go): workers take list
 positions one by one and run checkNode on each. One step of the model is one atomic action of one worker;
 every interleaving is a sequence of such steps.
 */
module NodeSearch {
  import opened Options

  /** How far the check of one list position has come. */
  datatype Stage =
    | Waiting             // not handed out yet
    | Taken               // a worker has it, and will look whether the search was cancelled
    | Begun               // checkNode was called
    | Looking             // counted as processed; the error cache is read next
    | Testing             // the predicate runs next
    | Passing             // the predicate passed; the found counter is raised next
    | Writing(slot: int)  // the counter named a slot, which is written next
    | Cancelling          // one too many: cancel next
    | Undoing             // cancelled: the counter is lowered next
    | Stored(slot: int)
    | Surplus             // passed, but enough were found
    | Rejected
    | Dropped             // the worker stopped because of the cancellation

  /** What does not change during a search. */
  datatype Config = Config(nodes: seq<string>, start: nat, wanted: nat, workers: nat, useCache: bool, fits: string -> bool)

  /** `claims` lists, in order, the positions that got a slot; it only serves the proofs. */
  datatype State = State(
    stages: seq<Stage>, next: nat, idle: nat, processed: nat, found: int, cancelled: bool,
    slots: seq<Option<string>>, cache: set<string>, claims: seq<nat>)

  ghost predicate ConfigOk(c: Config) {
    |c.nodes| > 0 && c.workers > 0
  }

  /** The search goes round the list, from where the last one stopped. */
  function NodeAt(c: Config, i: nat): string
    requires |c.nodes| > 0
  {
    c.nodes[(c.start + i) % |c.nodes|]
  }

  function Initial(c: Config, cache: set<string>): State {
    State(seq(|c.nodes|, i => Waiting), 0, c.workers, 0, 0, false, seq(c.wanted, i => None), cache, [])
  }

  predicate Ended(st: Stage) {
    st.Stored? || st.Surplus? || st.Rejected? || st.Dropped?
  }

  /** Some worker can act on position `i`: the next position if a worker is idle, or one under way. */
  predicate Enabled(s: State, i: nat) {
    i < |s.stages| && if s.stages[i].Waiting? then i == s.next && s.idle > 0 else !Ended(s.stages[i])
  }

  /** The worker is done with position `i` and takes the next one. */
  function Released(s: State, i: nat, st: Stage): State
    requires i < |s.stages|
  {
    s.(stages := s.stages[i := st], idle := s.idle + 1)
  }

  /** No write outside the slots. */
  predicate InRange(s: State, i: nat)
    requires i < |s.stages|
  {
    s.stages[i].Writing? ==> 0 <= s.stages[i].slot < |s.slots|
  }

  /** The state after one atomic action on position `i`. */
  function After(c: Config, s: State, i: nat): State
    requires ConfigOk(c) && Enabled(s, i) && InRange(s, i)
  {
    match s.stages[i]
    case Waiting => s.(stages := s.stages[i := Taken], next := s.next + 1, idle := s.idle - 1)
    case Taken => s.(stages := s.stages[i := if s.cancelled then Dropped else Begun])
    case Begun => s.(stages := s.stages[i := Looking], processed := s.processed + 1)
    case Looking =>
      if c.useCache && NodeAt(c, i) in s.cache then Released(s, i, Rejected) else s.(stages := s.stages[i := Testing])
    case Testing =>
      if c.fits(NodeAt(c, i)) then s.(stages := s.stages[i := Passing])
      else Released(s, i, Rejected).(cache := s.cache + {NodeAt(c, i)})
    case Passing =>
      if s.found + 1 > c.wanted then s.(stages := s.stages[i := Cancelling], found := s.found + 1)
      else s.(stages := s.stages[i := Writing(s.found)], found := s.found + 1, claims := s.claims + [i])
    case Writing(slot) => Released(s, i, Stored(slot)).(slots := s.slots[slot := Some(NodeAt(c, i))])
    case Cancelling => s.(stages := s.stages[i := Undoing], cancelled := true)
    case Undoing => Released(s, i, Surplus).(found := s.found - 1)
    case _ => s
  }

  // ----- counting positions

  function Holds(b: bool): nat {
    if b then 1 else 0
  }

  ghost function Count(stages: seq<Stage>, p: Stage -> bool): (n: nat)
    ensures n <= |stages|
  {
    if stages == [] then 0 else Count(stages[..|stages| - 1], p) + Holds(p(stages[|stages| - 1]))
  }

  lemma {:induction false} CountUpdate(stages: seq<Stage>, p: Stage -> bool, i: nat, st: Stage)
    requires i < |stages|
    ensures Count(stages[i := st], p) + Holds(p(stages[i])) == Count(stages, p) + Holds(p(st))
  {
    var last := |stages| - 1;
    if i == last {
      assert stages[i := st][..last] == stages[..last];
    } else {
      assert stages[i := st][..last] == stages[..last][i := st];
      CountUpdate(stages[..last], p, i, st);
    }
  }

  lemma {:induction false} CountNone(stages: seq<Stage>, p: Stage -> bool)
    requires forall i | 0 <= i < |stages| :: !p(stages[i])
    ensures Count(stages, p) == 0
  {
    if stages != [] {
      CountNone(stages[..|stages| - 1], p);
    }
  }

  lemma {:induction false} CountAll(stages: seq<Stage>, p: Stage -> bool)
    requires forall i | 0 <= i < |stages| :: p(stages[i])
    ensures Count(stages, p) == |stages|
  {
    if stages != [] {
      CountAll(stages[..|stages| - 1], p);
    }
  }

  lemma {:induction false} CountPositive(stages: seq<Stage>, p: Stage -> bool, i: nat)
    requires i < |stages| && p(stages[i])
    ensures Count(stages, p) > 0
  {
    if i < |stages| - 1 {
      CountPositive(stages[..|stages| - 1], p, i);
    }
  }

  lemma {:induction false} CountSplit(stages: seq<Stage>, p: Stage -> bool, q: Stage -> bool, r: Stage -> bool)
    requires forall i | 0 <= i < |stages| :: Holds(p(stages[i])) == Holds(q(stages[i])) + Holds(r(stages[i]))
    ensures Count(stages, p) == Count(stages, q) + Count(stages, r)
  {
    if stages != [] {
      CountSplit(stages[..|stages| - 1], p, q, r);
    }
  }

  predicate UnderWay(st: Stage) { !st.Waiting? && !Ended(st) }
  predicate IsDropped(st: Stage) { st.Dropped? }
  predicate Examined(st: Stage) { !st.Waiting? && !st.Taken? && !st.Begun? && !st.Dropped? }
  predicate HasSlot(st: Stage) { st.Writing? || st.Stored? }
  predicate Over(st: Stage) { st.Cancelling? || st.Undoing? }
  predicate TooMany(st: Stage) { Over(st) || st.Surplus? }
  predicate Passed(st: Stage) { st.Passing? || HasSlot(st) || TooMany(st) }

  function SlotOf(st: Stage): int
    requires HasSlot(st)
  {
    st.slot
  }

  // ----- the invariant

  /** Positions are handed out in order, and every worker is idle, busy with one position, or has stopped. */
  ghost predicate HandedOut(c: Config, s: State) {
    |s.stages| == |c.nodes| && s.next <= |c.nodes| &&
    (forall i | 0 <= i < |s.stages| :: s.stages[i].Waiting? <==> s.next <= i) &&
    s.idle + Count(s.stages, UnderWay) + Count(s.stages, IsDropped) == c.workers &&
    s.processed == Count(s.stages, Examined)
  }

  /** The counter counts the claims and those about to be taken back; there are such only once all slots are claimed. */
  ghost predicate Counted(c: Config, s: State) {
    |s.claims| <= c.wanted &&
    s.found == |s.claims| + Count(s.stages, Over) &&
    Count(s.stages, HasSlot) == |s.claims| &&
    (forall i | 0 <= i < |s.stages| :: TooMany(s.stages[i]) ==> |s.claims| == c.wanted) &&
    (forall i | 0 <= i < |s.stages| :: s.stages[i].Dropped? ==> s.cancelled) &&
    (s.cancelled ==> |s.claims| == c.wanted && exists i | 0 <= i < |s.stages| :: TooMany(s.stages[i]))
  }

  /** Claims and slots are in step: the j-th claim owns slot j, written once it is stored. */
  ghost predicate Claimed(c: Config, s: State) {
    |s.slots| == c.wanted && |s.stages| == |c.nodes| > 0 && |s.claims| <= c.wanted &&
    (forall i | 0 <= i < |s.stages| && HasSlot(s.stages[i]) :: 0 <= SlotOf(s.stages[i]) < |s.claims| && s.claims[SlotOf(s.stages[i])] == i) &&
    (forall j | 0 <= j < |s.claims| :: s.claims[j] < |s.stages| && HasSlot(s.stages[s.claims[j]]) && SlotOf(s.stages[s.claims[j]]) == j) &&
    (forall j | 0 <= j < |s.slots| :: s.slots[j] ==
      if j < |s.claims| && s.stages[s.claims[j]].Stored? then Some(NodeAt(c, s.claims[j])) else None)
  }

  /** Whatever passed fits, and whatever was rejected does not fit or has failed before. */
  ghost predicate Sound(c: Config, s: State) {
    |s.stages| == |c.nodes| > 0 &&
    (forall i | 0 <= i < |s.stages| && Passed(s.stages[i]) :: c.fits(NodeAt(c, i))) &&
    (forall i | 0 <= i < |s.stages| && s.stages[i].Rejected? :: Unfit(c, s.cache, NodeAt(c, i)))
  }

  predicate Unfit(c: Config, cache: set<string>, node: string) {
    !c.fits(node) || (c.useCache && node in cache)
  }

  ghost predicate Inv(c: Config, s: State) {
    ConfigOk(c) && HandedOut(c, s) && Counted(c, s) && Claimed(c, s) && Sound(c, s)
  }

  lemma InitialInv(c: Config, cache: set<string>)
    requires ConfigOk(c)
    ensures Inv(c, Initial(c, cache))
  {
    var s := Initial(c, cache);
    CountNone(s.stages, UnderWay);
    CountNone(s.stages, IsDropped);
    CountNone(s.stages, Examined);
    CountNone(s.stages, Over);
    CountNone(s.stages, HasSlot);
  }

  lemma WritesInRange(c: Config, s: State, i: nat)
    requires Inv(c, s) && Enabled(s, i)
    ensures InRange(s, i)
  {
  }

  lemma StepMoves(c: Config, s: State, i: nat)
    requires ConfigOk(c) && Enabled(s, i) && InRange(s, i)
    ensures var s', old' := After(c, s, i), s.stages[i];
            i < |s.stages| == |s'.stages| && s'.stages == s.stages[i := s'.stages[i]] && !s'.stages[i].Waiting? &&
            s'.next == s.next + Holds(old'.Waiting?) && (old'.Waiting? ==> i == s.next) &&
            s'.idle + Holds(UnderWay(s'.stages[i])) + Holds(IsDropped(s'.stages[i])) ==
            s.idle + Holds(UnderWay(old')) + Holds(IsDropped(old')) &&
            s'.processed == s.processed + Holds(Examined(s'.stages[i])) - Holds(Examined(old'))
  {
  }

  lemma StepKeepsHandedOut(c: Config, s: State, i: nat)
    requires Inv(c, s) && Enabled(s, i) && InRange(s, i)
    ensures HandedOut(c, After(c, s, i))
  {
    hide After, UnderWay, IsDropped, Examined, Enabled, InRange, Counted, Claimed, Sound;
    StepMoves(c, s, i);
    var st := After(c, s, i).stages[i];
    CountUpdate(s.stages, UnderWay, i, st);
    CountUpdate(s.stages, IsDropped, i, st);
    CountUpdate(s.stages, Examined, i, st);
  }

  lemma InvParts(c: Config, s: State)
    requires Inv(c, s)
    ensures |s.claims| <= c.wanted == |s.slots| && |c.nodes| > 0
    ensures forall i | 0 <= i < |s.stages| :: TooMany(s.stages[i]) ==> |s.claims| == c.wanted
  {
  }

  lemma StepCounts(c: Config, s: State, i: nat)
    requires Inv(c, s) && Enabled(s, i) && InRange(s, i)
    ensures var s', old' := After(c, s, i), s.stages[i];
            i < |s.stages| == |s'.stages| && s'.stages == s.stages[i := s'.stages[i]] &&
            s'.found - s.found == |s'.claims| - |s.claims| + Holds(Over(s'.stages[i])) - Holds(Over(old')) &&
            |s'.claims| - |s.claims| == Holds(HasSlot(s'.stages[i])) - Holds(HasSlot(old')) &&
            |s.claims| <= |s'.claims| <= c.wanted
    ensures var s', old' := After(c, s, i), s.stages[i];
            (TooMany(s'.stages[i]) ==> |s.claims| == c.wanted) && (TooMany(old') ==> TooMany(s'.stages[i])) &&
            (s'.stages[i].Dropped? ==> s'.cancelled) && (s.cancelled ==> s'.cancelled) &&
            (s'.cancelled ==> s.cancelled || TooMany(s'.stages[i]))
  {
    hide HandedOut, Counted, Claimed, Sound, Count, UnderWay, IsDropped, Examined;
    NoneOver(c, s);
    InvParts(c, s);
    assert TooMany(s.stages[i]) ==> |s.claims| == c.wanted;
  }

  lemma StepKeepsCounted(c: Config, s: State, i: nat)
    requires Inv(c, s) && Enabled(s, i) && InRange(s, i)
    ensures Counted(c, After(c, s, i))
  {
    hide After, TooMany, HasSlot, Over, Enabled, InRange, HandedOut, Claimed, Sound;
    StepCounts(c, s, i);
    var s' := After(c, s, i);
    var st := s'.stages[i];
    CountUpdate(s.stages, Over, i, st);
    CountUpdate(s.stages, HasSlot, i, st);
    if s'.cancelled && !TooMany(st) {
      var j :| 0 <= j < |s.stages| && TooMany(s.stages[j]);
      assert TooMany(s'.stages[j]);
    }
  }

  /** While slots are free, the counter is exactly the number of claims. */
  lemma NoneOver(c: Config, s: State)
    requires Counted(c, s)
    ensures |s.claims| < c.wanted ==> s.found == |s.claims|
    ensures |s.claims| == c.wanted ==> s.found >= c.wanted
  {
    if |s.claims| < c.wanted {
      CountNone(s.stages, Over);
    }
  }

  /** What a step does to claims and slots. */
  lemma StepClaims(c: Config, s: State, i: nat)
    requires Inv(c, s) && Enabled(s, i) && InRange(s, i)
    ensures var s', old' := After(c, s, i), s.stages[i];
            i < |s.stages| == |s'.stages| && s'.stages == s.stages[i := s'.stages[i]] && !old'.Stored? &&
            if HasSlot(old') then
              HasSlot(s'.stages[i]) && SlotOf(s'.stages[i]) == SlotOf(old') && s'.stages[i].Stored? &&
              0 <= SlotOf(old') < |s.slots| && s'.claims == s.claims && s'.slots == s.slots[SlotOf(old') := Some(NodeAt(c, i))]
            else
              s'.slots == s.slots && !s'.stages[i].Stored? &&
              if HasSlot(s'.stages[i]) then s'.claims == s.claims + [i] && SlotOf(s'.stages[i]) == |s.claims| < c.wanted
              else s'.claims == s.claims
  {
    hide HandedOut, Counted, Sound, Claimed, Count, UnderWay, IsDropped, Examined, TooMany;
    NoneOver(c, s);
    InvParts(c, s);
  }

  lemma StepKeepsClaimed(c: Config, s: State, i: nat)
    requires Inv(c, s) && Enabled(s, i) && InRange(s, i)
    ensures Claimed(c, After(c, s, i))
  {
    hide After, HasSlot, NodeAt, Enabled, InRange, HandedOut, Counted, Sound;
    StepClaims(c, s, i);
  }

  lemma StepKeepsSound(c: Config, s: State, i: nat)
    requires Inv(c, s) && Enabled(s, i) && InRange(s, i)
    ensures Sound(c, After(c, s, i))
  {
    hide HandedOut, Counted, Claimed, After, Passed, Enabled, InRange, NodeAt;
    StepJudges(c, s, i);
  }

  /** A step lets only fitting nodes pass, and rejects only unfit ones. */
  lemma StepJudges(c: Config, s: State, i: nat)
    requires ConfigOk(c) && Enabled(s, i) && InRange(s, i)
    ensures var s' := After(c, s, i);
            i < |s.stages| == |s'.stages| && s'.stages == s.stages[i := s'.stages[i]] && s.cache <= s'.cache &&
            (Passed(s'.stages[i]) ==> Passed(s.stages[i]) || c.fits(NodeAt(c, i))) &&
            (s'.stages[i].Rejected? ==> Unfit(c, s'.cache, NodeAt(c, i)))
  {
  }

  lemma StepKeepsInv(c: Config, s: State, i: nat)
    requires Inv(c, s) && Enabled(s, i)
    ensures InRange(s, i) && Inv(c, After(c, s, i))
  {
    hide After, HandedOut, Counted, Claimed, Sound, Enabled, InRange;
    WritesInRange(c, s, i);
    StepKeepsHandedOut(c, s, i);
    StepKeepsCounted(c, s, i);
    StepKeepsClaimed(c, s, i);
    StepKeepsSound(c, s, i);
  }

  /** A slot is written at most once. */
  lemma WrittenOnce(c: Config, s: State, i: nat, j: nat)
    requires Inv(c, s) && Enabled(s, i) && InRange(s, i) && j < c.wanted
    ensures j < |s.slots| && j < |After(c, s, i).slots| && (s.slots[j] != None ==> After(c, s, i).slots[j] == s.slots[j])
  {
    hide After, HandedOut, Counted, Sound, Enabled, InRange;
    StepClaims(c, s, i);
  }

  // ----- what a finished search has found

  /** Nobody can act any more. */
  ghost predicate Finished(s: State) {
    forall i | 0 <= i < |s.stages| :: !Enabled(s, i)
  }

  /**
   The list positions behind the found nodes: distinct, and each node fits. The counter ends at the wanted
   number or at the number of examined nodes that passed, whichever is smaller; if it falls short of the
   wanted number, every node was examined.
   */
  lemma SearchResult(c: Config, s: State)
    requires Inv(c, s) && Finished(s)
    ensures s.found == |s.claims| && s.found == (if c.wanted < Count(s.stages, Passed) then c.wanted else Count(s.stages, Passed))
    ensures forall j | 0 <= j < s.found :: s.claims[j] < |c.nodes| && s.slots[j] == Some(NodeAt(c, s.claims[j])) && c.fits(NodeAt(c, s.claims[j]))
    ensures forall i, j | 0 <= i < j < s.found :: Position(c, s.claims[i]) != Position(c, s.claims[j])
    ensures forall j | s.found <= j < c.wanted :: s.slots[j] == None
    ensures s.found < c.wanted ==> s.processed == |c.nodes| && forall i | 0 <= i < |s.stages| :: Examined(s.stages[i])
  {
    hide HandedOut, Counted, Claimed, Sound, Enabled, Count, HasSlot, Passed, Over, TooMany;
    CountResult(c, s);
    SlotResult(c, s);
  }

  lemma CountResult(c: Config, s: State)
    requires Inv(c, s) && Finished(s)
    ensures s.found == |s.claims| && s.found == (if c.wanted < Count(s.stages, Passed) then c.wanted else Count(s.stages, Passed))
    ensures s.found < c.wanted ==> s.processed == |c.nodes| && forall i | 0 <= i < |s.stages| :: Examined(s.stages[i])
  {
    hide Claimed, Sound, Enabled;
    AllEnded(c, s);
    CountNone(s.stages, Over);
    CountSplit(s.stages, Passed, HasSlot, TooMany);
    if forall i | 0 <= i < |s.stages| :: !TooMany(s.stages[i]) {
      CountNone(s.stages, TooMany);
    }
    if s.found < c.wanted {
      assert !s.cancelled;
      CountAll(s.stages, Examined);
    }
  }

  lemma SlotResult(c: Config, s: State)
    requires Inv(c, s) && Finished(s)
    ensures |s.claims| <= |s.slots| == c.wanted
    ensures forall j | 0 <= j < |s.claims| :: s.claims[j] < |c.nodes| && s.slots[j] == Some(NodeAt(c, s.claims[j])) && c.fits(NodeAt(c, s.claims[j]))
    ensures forall i, j | 0 <= i < j < |s.claims| :: Position(c, s.claims[i]) != Position(c, s.claims[j])
    ensures forall j | |s.claims| <= j < c.wanted :: s.slots[j] == None
  {
    hide HandedOut, Counted, Enabled, NodeAt, Position;
    AllEnded(c, s);
    forall j | 0 <= j < |s.claims|
      ensures s.claims[j] < |c.nodes| && s.slots[j] == Some(NodeAt(c, s.claims[j])) && c.fits(NodeAt(c, s.claims[j]))
    {
      assert HasSlot(s.stages[s.claims[j]]) && Ended(s.stages[s.claims[j]]);
    }
    forall i, j | 0 <= i < j < |s.claims|
      ensures Position(c, s.claims[i]) != Position(c, s.claims[j])
    {
      assert SlotOf(s.stages[s.claims[i]]) == i && SlotOf(s.stages[s.claims[j]]) == j;
      PositionsDistinct(c, s.claims[i], s.claims[j]);
    }
  }

  function Position(c: Config, i: nat): nat
    requires |c.nodes| > 0
  {
    (c.start + i) % |c.nodes|
  }

  lemma PositionsDistinct(c: Config, i: nat, j: nat)
    requires i < |c.nodes| && j < |c.nodes| && i != j
    ensures Position(c, i) != Position(c, j)
  {
    var n := |c.nodes|;
    var q, q' := (c.start + i) / n, (c.start + j) / n;
    if Position(c, i) == Position(c, j) {
      assert i - j == (q - q') * n;
      Apart(q - q', n);
    }
  }

  lemma Apart(q: int, n: nat)
    requires q != 0 && n > 0
    ensures q * n <= 0 - n || q * n >= n
  {
    if q > 0 {
      assert (q - 1) * n >= 0;
    } else {
      assert (-q - 1) * n >= 0;
    }
  }

  /** When nobody can act, every position is ended, or was never handed out because all workers stopped. */
  lemma AllEnded(c: Config, s: State)
    requires Inv(c, s) && Finished(s)
    ensures forall i | 0 <= i < |s.stages| :: Ended(s.stages[i]) || (s.stages[i].Waiting? && s.cancelled)
  {
    forall i | 0 <= i < |s.stages| ensures !UnderWay(s.stages[i]) {
      assert !Enabled(s, i);
    }
    CountNone(s.stages, UnderWay);
    if s.next < |s.stages| {
      assert !Enabled(s, s.next);
      assert s.idle == 0;
      if !s.cancelled {
        CountNone(s.stages, IsDropped);
        assert false;
      }
    }
  }

  // ----- the search itself

  /** The counters, the slots and the error cache that the workers share, with each worker's place in its check. */
  class Search {
    const c: Config
    var stages: seq<Stage>
    var next: nat
    var idle: nat
    var processed: nat
    var found: int
    var cancelled: bool
    var slots: array<Option<string>>
    var cache: set<string>
    var claims: seq<nat>

    function View(): State
      reads this, slots
    {
      State(stages, next, idle, processed, found, cancelled, slots[..], cache, claims)
    }

    constructor (c: Config, cache: set<string>)
      ensures this.c == c && View() == Initial(c, cache) && fresh(slots)
    {
      this.c := c;
      stages := seq(|c.nodes|, i => Waiting);
      next, idle, processed, found, cancelled, claims := 0, c.workers, 0, 0, false, [];
      slots := new Option<string>[c.wanted](i => None);
      this.cache := cache;
      new;
      assert slots[..] == seq(c.wanted, i => None);
    }

    /** The worker at position `i` performs its next atomic action. */
    method Step(i: nat)
      requires ConfigOk(c) && Enabled(View(), i) && InRange(View(), i)
      modifies this, slots
      ensures View() == After(c, old(View()), i) && slots == old(slots)
    {
      var node := NodeAt(c, i);
      match stages[i] {
        case Waiting =>
          next, idle := next + 1, idle - 1;
          stages := stages[i := Taken];
        case Taken =>
          stages := stages[i := if cancelled then Dropped else Begun];
        case Begun =>
          processed := processed + 1;
          stages := stages[i := Looking];
        case Looking =>
          if c.useCache && node in cache {
            Release(i, Rejected);
          } else {
            stages := stages[i := Testing];
          }
        case Testing =>
          if c.fits(node) {
            stages := stages[i := Passing];
          } else {
            cache := cache + {node};
            Release(i, Rejected);
          }
        case Passing =>
          found := found + 1;
          if found > c.wanted {
            stages := stages[i := Cancelling];
          } else {
            stages := stages[i := Writing(found - 1)];
            claims := claims + [i];
          }
        case Writing(slot) =>
          slots[slot] := Some(node);
          Release(i, Stored(slot));
        case Cancelling =>
          cancelled := true;
          stages := stages[i := Undoing];
        case Undoing =>
          found := found - 1;
          Release(i, Surplus);
      }
    }

    method Release(i: nat, st: Stage)
      requires i < |stages|
      modifies this`stages, this`idle
      ensures stages == old(stages)[i := st] && idle == old(idle) + 1
    {
      stages := stages[i := st];
      idle := idle + 1;
    }
  }

  function Rank(st: Stage): nat {
    match st
    case Waiting => 9
    case Taken => 8
    case Begun => 7
    case Looking => 6
    case Testing => 5
    case Passing => 4
    case Writing(_) => 1
    case Cancelling => 2
    case Undoing => 1
    case _ => 0
  }

  ghost function Remaining(stages: seq<Stage>): nat {
    if stages == [] then 0 else Remaining(stages[..|stages| - 1]) + Rank(stages[|stages| - 1])
  }

  lemma {:induction false} RemainingUpdate(stages: seq<Stage>, i: nat, st: Stage)
    requires i < |stages|
    ensures Remaining(stages[i := st]) + Rank(stages[i]) == Remaining(stages) + Rank(st)
  {
    var last := |stages| - 1;
    if i == last {
      assert stages[i := st][..last] == stages[..last];
    } else {
      assert stages[i := st][..last] == stages[..last][i := st];
      RemainingUpdate(stages[..last], i, st);
    }
  }

  lemma StepRank(c: Config, s: State, i: nat)
    requires ConfigOk(c) && Enabled(s, i) && InRange(s, i)
    ensures i < |s.stages| == |After(c, s, i).stages| && Rank(After(c, s, i).stages[i]) < Rank(s.stages[i])
    ensures After(c, s, i).stages == s.stages[i := After(c, s, i).stages[i]]
  {
  }

  lemma StepShrinks(c: Config, s: State, i: nat)
    requires ConfigOk(c) && Enabled(s, i) && InRange(s, i)
    ensures Remaining(After(c, s, i).stages) < Remaining(s.stages)
  {
    hide After, Enabled, InRange, Rank, Remaining;
    StepRank(c, s, i);
    RemainingUpdate(s.stages, i, After(c, s, i).stages[i]);
  }

  /** The cache only learns nodes that do not fit. */
  ghost predicate Learnt(c: Config, cache: set<string>, cache': set<string>) {
    cache <= cache' && forall node | node in cache' && node !in cache :: !c.fits(node)
  }

  lemma CacheGrows(c: Config, s: State, i: nat)
    requires ConfigOk(c) && Enabled(s, i) && InRange(s, i)
    ensures Learnt(c, s.cache, After(c, s, i).cache)
  {
  }

  /** What a finished search returns: the nodes in the slots, with their places in the list. */
  ghost predicate Found(c: Config, s: State, found: seq<string>, positions: seq<nat>) {
    |c.nodes| > 0 && |found| == |positions| == |s.claims| <= |s.slots| &&
    forall j | 0 <= j < |found| :: positions[j] == Position(c, s.claims[j]) && s.slots[j] == Some(found[j])
  }

  /** Distinct places in the list, whose nodes fit. */
  ghost predicate Distinct(c: Config, found: seq<string>, positions: seq<nat>) {
    |found| == |positions| &&
    (forall j | 0 <= j < |found| :: positions[j] < |c.nodes| && found[j] == c.nodes[positions[j]] && c.fits(found[j])) &&
    (forall i, j | 0 <= i < j < |found| :: positions[i] != positions[j])
  }

  lemma FoundDistinct(c: Config, s: State, found: seq<string>, positions: seq<nat>)
    requires Inv(c, s) && Finished(s) && Found(c, s, found, positions)
    ensures Distinct(c, found, positions)
  {
    hide Enabled, InRange, Inv, Finished;
    SearchResult(c, s);
  }

  /** Every node of the list was found or is unfit. */
  ghost predicate Complete(c: Config, cache: set<string>, positions: seq<nat>) {
    forall p | 0 <= p < |c.nodes| :: p in positions || Unfit(c, cache, c.nodes[p])
  }

  lemma FoundComplete(c: Config, s: State, found: seq<string>, positions: seq<nat>)
    requires Inv(c, s) && Finished(s) && Found(c, s, found, positions) && s.found < c.wanted
    ensures Complete(c, s.cache, positions)
  {
    hide Enabled, InRange, Unfit, Finished;
    SearchResult(c, s);
    AllEnded(c, s);
    forall p | 0 <= p < |c.nodes| ensures p in positions || Unfit(c, s.cache, c.nodes[p]) {
      var i := Behind(c, p);
      if HasSlot(s.stages[i]) {
        assert positions[SlotOf(s.stages[i])] == p;
      } else {
        assert !TooMany(s.stages[i]);
        assert s.stages[i].Rejected?;
      }
    }
  }

  /** Every place in the list is reached from the start. */
  lemma Behind(c: Config, p: nat) returns (i: nat)
    requires p < |c.nodes|
    ensures i < |c.nodes| && Position(c, i) == p && NodeAt(c, i) == c.nodes[p]
  {
    var n := |c.nodes|;
    var r, q := c.start % n, c.start / n;
    if r <= p {
      i := p - r;
      Remainder(q, p, n);
    } else {
      i := p + n - r;
      Remainder(q + 1, p, n);
    }
    assert c.start == q * n + r;
  }

  lemma Remainder(q: nat, p: nat, n: nat)
    requires p < n
    ensures (q * n + p) % n == p
  {
    var q' := (q * n + p) / n;
    if q' != q {
      assert (q' - q) * n == q' * n - q * n;
      Apart(q' - q, n);
    }
  }

  /**
   PredicateNodes, under any schedule of its workers' atomic actions. `positions` says where in the list the
   found nodes are; `passed` and `examined` count the nodes that passed and were examined.
   */
  method PredicateNodes(c: Config, cache: set<string>)
    returns (found: seq<string>, positions: seq<nat>, last: nat, cache': set<string>, ghost passed: nat, ghost examined: nat)
    requires c.workers > 0
    ensures |found| == if c.wanted < passed then c.wanted else passed
    ensures Distinct(c, found, positions) && Learnt(c, cache, cache')
    ensures |found| < c.wanted ==> examined == |c.nodes| && Complete(c, cache', positions)
    ensures passed <= examined <= |c.nodes|
    ensures if c.nodes == [] then last == c.start else last < |c.nodes| && last == (c.start + examined) % |c.nodes|
  {
    hide After, Enabled, InRange, HandedOut, Counted, Claimed, Sound, Count, Initial, Inv, Distinct, Complete;
    if |c.nodes| == 0 {
      NothingFound(c, cache);
      return [], [], c.start, cache, 0, 0;
    }
    var search := new Search(c, cache);
    InitialInv(c, cache);
    InitialCache(c, cache);
    while exists i | 0 <= i < |search.stages| :: Enabled(search.View(), i)
      invariant fresh(search) && fresh(search.slots) && search.c == c && Inv(c, search.View())
      invariant Learnt(c, cache, search.cache)
      decreases Remaining(search.stages)
    {
      var i :| 0 <= i < |search.stages| && Enabled(search.View(), i);
      StepKeepsInv(c, search.View(), i);
      StepShrinks(c, search.View(), i);
      CacheGrows(c, search.View(), i);
      search.Step(i);
    }
    var s := search.View();
    SearchEnds(c, s);
    found := seq(s.found, j requires 0 <= j < |s.slots| => if s.slots[j].Some? then s.slots[j].value else "");
    positions := seq(s.found, j requires 0 <= j < |s.claims| => Position(c, s.claims[j]));
    FoundDistinct(c, s, found, positions);
    if s.found < c.wanted {
      FoundComplete(c, s, found, positions);
    }
    last, cache' := (c.start + s.processed) % |c.nodes|, s.cache;
    passed, examined := Count(s.stages, Passed), s.processed;
  }

  lemma InitialCache(c: Config, cache: set<string>)
    ensures Initial(c, cache).cache == cache
  {
  }

  lemma NothingFound(c: Config, cache: set<string>)
    requires c.nodes == []
    ensures Distinct(c, [], []) && Complete(c, cache, [])
  {
  }

  lemma SearchEnds(c: Config, s: State)
    requires Inv(c, s) && Finished(s)
    ensures 0 <= s.found == |s.claims| <= |s.slots| == c.wanted
    ensures s.found == (if c.wanted < Count(s.stages, Passed) then c.wanted else Count(s.stages, Passed))
    ensures forall j | 0 <= j < s.found :: s.slots[j].Some?
    ensures Count(s.stages, Passed) <= s.processed <= |c.nodes| && (s.found < c.wanted ==> s.processed == |c.nodes|)
  {
    hide Enabled, InRange, Finished;
    SearchResult(c, s);
    CountWithin(s.stages, Passed, Examined);
  }

  lemma {:induction false} CountWithin(stages: seq<Stage>, p: Stage -> bool, q: Stage -> bool)
    requires forall i | 0 <= i < |stages| :: p(stages[i]) ==> q(stages[i])
    ensures Count(stages, p) <= Count(stages, q)
  {
    if stages != [] {
      CountWithin(stages[..|stages| - 1], p, q);
    }
  }

  // ----- how many nodes are wanted

  /** The scheduler's options about the search. */
  datatype SearchOptions = SearchOptions(minNodes: int, minPercentage: int, percentage: int)

  const BASELINE_PERCENTAGE := 50

  /** A 32-bit product wraps around. */
  function Wrapped(x: int): int {
    (x + 0x8000_0000) % 0x1_0000_0000 - 0x8000_0000
  }

  /** Division of 32-bit numbers truncates toward zero. */
  function Quotient(x: int, y: int): int
    requires y > 0
  {
    if x >= 0 then x / y else -(-x / y)
  }

  /** The configured percentage, or one that falls with the number of nodes, down to the minimum. */
  function PercentageOf(all: nat, opts: SearchOptions): int {
    var adaptive := BASELINE_PERCENTAGE - all / 125;
    if opts.percentage > 0 then opts.percentage
    else if adaptive < opts.minPercentage then opts.minPercentage
    else adaptive
  }

  function CalculateNumOfFeasibleNodesToFind(all: nat, opts: SearchOptions): int {
    if all <= opts.minNodes || opts.percentage >= 100 then all
    else
      var wanted := Quotient(Wrapped(all * PercentageOf(all, opts)), 100);
      if wanted < opts.minNodes then opts.minNodes else wanted
  }

  /**
   Never more nodes are wanted than there are, and never fewer than the minimum if there are that many, for
   any number of nodes: where the 32-bit product wraps around there are too many nodes to be exceeded.
   */
  lemma WantedWithin(all: nat, opts: SearchOptions)
    requires 0 <= opts.minNodes && 0 <= opts.minPercentage <= 100
    ensures 0 <= CalculateNumOfFeasibleNodesToFind(all, opts) <= all
    ensures opts.minNodes <= CalculateNumOfFeasibleNodesToFind(all, opts) || CalculateNumOfFeasibleNodesToFind(all, opts) == all
  {
    hide Quotient, Wrapped;
    if all > opts.minNodes && opts.percentage < 100 {
      Percentage(all, PercentageOf(all, opts));
    }
  }

  /** The percentage of the nodes, rounded down, and at least the minimum. */
  function Intended(all: nat, opts: SearchOptions): int {
    var exact := all * PercentageOf(all, opts) / 100;
    if exact < opts.minNodes then opts.minNodes else exact
  }

  /**
   The search wants the intended number exactly if the 32-bit product does not wrap around, or the minimum
   is at least the percentage anyway.
   */
  lemma WantedAsIntended(all: nat, opts: SearchOptions)
    requires opts.minNodes < all && opts.percentage < 100 && 0 <= opts.minPercentage
    ensures CalculateNumOfFeasibleNodesToFind(all, opts) == Intended(all, opts) <==>
            all * PercentageOf(all, opts) < 0x8000_0000 || all * PercentageOf(all, opts) / 100 <= opts.minNodes
  {
    hide Wrapped, Quotient;
    var product := all * PercentageOf(all, opts);
    Product(all, PercentageOf(all, opts));
    if product < 0x8000_0000 {
      Unwrapped(product);
      Whole(product);
    } else {
      WrappedLess(product);
    }
  }

  lemma Product(x: nat, y: nat)
    ensures x * y >= 0
  {
  }

  lemma Whole(x: nat)
    ensures Quotient(x, 100) == x / 100
  {
  }

  /** A product that wraps around loses more than its hundredth keeps. */
  lemma WrappedLess(x: int)
    requires x >= 0x8000_0000
    ensures Quotient(Wrapped(x), 100) < x / 100
  {
    WrappedBelow(x);
    assert x / 100 >= 21_474_836;
    if x / 100 == 21_474_836 {
      assert x < 0x1_0000_0000;
      assert Wrapped(x) == x - 0x1_0000_0000;
    }
  }

  /** With 45 million nodes half of them should do; the wrapped product asks for the minimum only. */
  lemma WrappedPercentage()
    ensures var opts := SearchOptions(100, 5, 50);
            CalculateNumOfFeasibleNodesToFind(45_000_000, opts) == 100 && Intended(45_000_000, opts) == 22_500_000
  {
    assert 45_000_000 * 50 == 2_250_000_000;
    assert Wrapped(2_250_000_000) == -2_044_967_296;
  }

  lemma Percentage(all: nat, percentage: nat)
    requires percentage <= 100
    ensures Quotient(Wrapped(all * percentage), 100) <= all
  {
    assert all * (100 - percentage) >= 0;
    if all * percentage < 0x8000_0000 {
      Unwrapped(all * percentage);
    } else {
      WrappedBelow(all * percentage);
    }
  }

  lemma WrappedBelow(x: int)
    ensures Quotient(Wrapped(x), 100) <= 21_474_836
  {
    assert Wrapped(x) < 0x8000_0000;
  }

  lemma Unwrapped(x: nat)
    requires x < 0x8000_0000
    ensures Wrapped(x) == x
  {
  }
}
