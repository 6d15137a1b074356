/**
 The reconciler's dispatcher slots and the engine's hash slots (action/reconcile.go), as a state machine of
 one dispatching loop and any number of continuations, stepping in any order.
 */
module Dispatcher {
  import opened Volumes

  const DISPATCH_SLOTS := 8
  const HASH_SLOTS := 3

  datatype Phase =
    | Running
    | Yielding               // no hash slot was free: it gives its dispatcher slot back next
    | Blocked                // waits for a hash slot
    | Hashing                // holds one
    | Ending                 // no longer in flight; its deferred yield has not run
    | Gone

  /** One continuation; held is its sync.Once slot, not yet released. */
  datatype Continuation = Continuation(id: nat, held: bool, phase: Phase)

  /** Where the dispatching loop is. */
  datatype Desk = Idle | Waiting(id: nat) | Acquired(id: nat) | Marked(id: nat)

  datatype State = State(
    tokens: nat,             // in the dispatcher's channel
    hashing: nat,            // in the hash channel
    others: nat,             // hash slots held outside any continuation
    taken: nat, released: nat,
    inflight: set<nat>,
    desk: Desk,
    conts: seq<Continuation>)

  const START := State(0, 0, 0, 0, 0, {}, Idle, [])

  predicate InFlight(c: Continuation) {
    !c.phase.Ending? && !c.phase.Gone?
  }

  function Count(conts: seq<Continuation>, f: Continuation -> bool): (n: nat)
    ensures n <= |conts|
  {
    if conts == [] then 0 else Count(conts[..|conts| - 1], f) + if f(conts[|conts| - 1]) then 1 else 0
  }

  const HOLDS := (c: Continuation) => c.held
  const HASHES := (c: Continuation) => c.phase.Hashing?

  lemma {:induction false} CountUpdated(conts: seq<Continuation>, k: nat, c: Continuation, f: Continuation -> bool)
    requires k < |conts|
    ensures Count(conts[k := c], f) == Count(conts, f) - (if f(conts[k]) then 1 else 0) + if f(c) then 1 else 0
  {
    var n := |conts| - 1;
    if k == n {
      assert conts[k := c][..n] == conts[..n];
    } else {
      assert conts[k := c][..n] == conts[..n][k := c];
      CountUpdated(conts[..n], k, c, f);
    }
  }

  lemma CountAppended(conts: seq<Continuation>, c: Continuation, f: Continuation -> bool)
    ensures Count(conts + [c], f) == Count(conts, f) + if f(c) then 1 else 0
  {
    assert (conts + [c])[..|conts|] == conts;
  }

  datatype Action =
    | Pick(id: nat)          // the loop looks at the next id
    | Acquire
    | Mark
    | Spawn
    | Interrupted            // the loop's context ended while it waited
    | TryHash(k: nat)
    | Yield(k: nat)
    | TakeHash(k: nat)
    | GiveUpHash(k: nat)     // the continuation's context ended while it waited
    | ReleaseHash(k: nat)
    | End(k: nat)
    | Leave(k: nat)
    | OtherTakes
    | OtherReleases

  predicate At(s: State, k: nat, p: Phase) {
    k < |s.conts| && s.conts[k].phase == p
  }

  predicate Enabled(s: State, a: Action) {
    match a
    case Pick(_) => s.desk.Idle?
    case Acquire => s.desk.Waiting? && s.tokens < DISPATCH_SLOTS
    case Mark => s.desk.Acquired?
    case Spawn => s.desk.Marked?
    case Interrupted => s.desk.Waiting?
    case TryHash(k) => At(s, k, Running)
    case Yield(k) => At(s, k, Yielding)
    case TakeHash(k) => At(s, k, Blocked) && s.hashing < HASH_SLOTS
    case GiveUpHash(k) => At(s, k, Blocked)
    case ReleaseHash(k) => At(s, k, Hashing)
    case End(k) => At(s, k, Running)
    case Leave(k) => At(s, k, Ending)
    case OtherTakes => s.hashing < HASH_SLOTS
    case OtherReleases => s.others > 0
  }

  function Move(s: State, k: nat, p: Phase): State
    requires k < |s.conts|
  {
    s.(conts := s.conts[k := s.conts[k].(phase := p)])
  }

  /** reconcileSlot.yield: the slot goes back the first time only. */
  function YieldSlot(s: State, k: nat, p: Phase): State
    requires k < |s.conts| && (s.conts[k].held ==> s.tokens > 0)
  {
    var c := s.conts[k];
    var back := s.(conts := s.conts[k := c.(held := false, phase := p)]);
    if c.held then back.(tokens := s.tokens - 1, released := s.released + 1) else back
  }

  function Step(s: State, a: Action): State
    requires Invariant(s) && Enabled(s, a)
  {
    match a
    case Pick(id) => if id in s.inflight then s else s.(desk := Waiting(id))
    case Acquire => s.(tokens := s.tokens + 1, taken := s.taken + 1, desk := Acquired(s.desk.id))
    case Mark => s.(inflight := s.inflight + {s.desk.id}, desk := Marked(s.desk.id))
    case Spawn => s.(conts := s.conts + [Continuation(s.desk.id, true, Running)], desk := Idle)
    case Interrupted => s.(desk := Idle)
    case TryHash(k) => if s.hashing < HASH_SLOTS then Move(s, k, Hashing).(hashing := s.hashing + 1) else Move(s, k, Yielding)
    case Yield(k) => HeldMeansToken(s, k); YieldSlot(s, k, Blocked)
    case TakeHash(k) => Move(s, k, Hashing).(hashing := s.hashing + 1)
    case GiveUpHash(k) => Move(s, k, Running)
    case ReleaseHash(k) => HashingMeansSlot(s, k); Move(s, k, Running).(hashing := s.hashing - 1)
    case End(k) => Move(s, k, Ending).(inflight := s.inflight - {s.conts[k].id})
    case Leave(k) => HeldMeansToken(s, k); YieldSlot(s, k, Gone)
    case OtherTakes => s.(hashing := s.hashing + 1, others := s.others + 1)
    case OtherReleases => s.(hashing := s.hashing - 1, others := s.others - 1)
  }

  function DeskTokens(s: State): nat {
    if s.desk.Acquired? || s.desk.Marked? then 1 else 0
  }

  predicate Slots(s: State) {
    && s.tokens == Count(s.conts, HOLDS) + DeskTokens(s) && s.tokens <= DISPATCH_SLOTS
    && s.hashing == Count(s.conts, HASHES) + s.others && s.hashing <= HASH_SLOTS
    && s.taken == s.released + s.tokens && s.taken == |s.conts| + DeskTokens(s)
    && (forall k :: 0 <= k < |s.conts| && (s.conts[k].phase.Blocked? || s.conts[k].phase.Gone?) ==> !s.conts[k].held)
  }

  /** The ids in flight are those of the running continuations, one each, and the one being dispatched. */
  predicate OneEach(s: State) {
    && (forall k :: 0 <= k < |s.conts| && InFlight(s.conts[k]) ==> s.conts[k].id in s.inflight)
    && (forall k, m :: 0 <= k < m < |s.conts| && InFlight(s.conts[k]) && InFlight(s.conts[m]) ==> s.conts[k].id != s.conts[m].id)
    && (!s.desk.Idle? ==> forall k :: 0 <= k < |s.conts| && InFlight(s.conts[k]) ==> s.conts[k].id != s.desk.id)
    && (forall id :: id in s.inflight ==>
          || (s.desk.Marked? && s.desk.id == id)
          || exists k :: 0 <= k < |s.conts| && InFlight(s.conts[k]) && s.conts[k].id == id)
    && (s.desk.Marked? ==> s.desk.id in s.inflight)
  }

  predicate Invariant(s: State) {
    Slots(s) && OneEach(s)
  }

  lemma {:induction false} Counted(conts: seq<Continuation>, k: nat, f: Continuation -> bool)
    requires k < |conts| && f(conts[k])
    ensures Count(conts, f) > 0
  {
    if k < |conts| - 1 { Counted(conts[..|conts| - 1], k, f); }
  }

  lemma HeldMeansToken(s: State, k: nat)
    requires Slots(s) && k < |s.conts|
    ensures s.conts[k].held ==> s.tokens > 0
  {
    if s.conts[k].held { Counted(s.conts, k, HOLDS); }
  }

  lemma HashingMeansSlot(s: State, k: nat)
    requires Slots(s) && At(s, k, Hashing)
    ensures s.hashing > 0
  {
    Counted(s.conts, k, HASHES);
  }

  /** A step of one continuation, and the counts it changes. */
  lemma Updated(s: State, k: nat, p: Phase, held: bool)
    requires k < |s.conts|
    ensures var c := s.conts[k].(phase := p, held := held);
      && Count(s.conts[k := c], HOLDS) == Count(s.conts, HOLDS) - (if s.conts[k].held then 1 else 0) + (if held then 1 else 0)
      && Count(s.conts[k := c], HASHES) == Count(s.conts, HASHES) - (if s.conts[k].phase.Hashing? then 1 else 0) + (if p.Hashing? then 1 else 0)
  {
    CountUpdated(s.conts, k, s.conts[k].(phase := p, held := held), HOLDS);
    CountUpdated(s.conts, k, s.conts[k].(phase := p, held := held), HASHES);
  }

  predicate OfDesk(a: Action) {
    a.Pick? || a.Acquire? || a.Mark? || a.Spawn? || a.Interrupted? || a.OtherTakes? || a.OtherReleases?
  }

  lemma DeskKeepsSlots(s: State, a: Action)
    requires Invariant(s) && Enabled(s, a) && OfDesk(a)
    ensures Slots(Step(s, a))
  {
    hide OneEach, Count;
    if a.Spawn? {
      CountAppended(s.conts, Continuation(s.desk.id, true, Running), HOLDS);
      CountAppended(s.conts, Continuation(s.desk.id, true, Running), HASHES);
    }
  }

  lemma MoveKeepsSlots(s: State, a: Action)
    requires Invariant(s) && Enabled(s, a) && !OfDesk(a) && !a.Yield? && !a.Leave?
    ensures Slots(Step(s, a))
  {
    hide OneEach, Count;
    if a.ReleaseHash? { HashingMeansSlot(s, a.k); }
    Updated(s, a.k, Step(s, a).conts[a.k].phase, s.conts[a.k].held);
  }

  lemma YieldKeepsSlots(s: State, a: Action)
    requires Invariant(s) && Enabled(s, a) && (a.Yield? || a.Leave?)
    ensures Slots(Step(s, a))
  {
    hide OneEach, Count;
    HeldMeansToken(s, a.k);
    Updated(s, a.k, Step(s, a).conts[a.k].phase, false);
  }

  lemma DeskKeepsOneEach(s: State, a: Action)
    requires Invariant(s) && Enabled(s, a) && OfDesk(a)
    ensures OneEach(Step(s, a))
  {
    hide Slots, Count;
    var after := Step(s, a);
    forall id | id in after.inflight && !(after.desk.Marked? && after.desk.id == id)
      ensures exists k :: 0 <= k < |after.conts| && InFlight(after.conts[k]) && after.conts[k].id == id
    {
      if a.Spawn? && id == s.desk.id {
        assert after.conts[|s.conts|].id == id;
      } else {
        var k :| 0 <= k < |s.conts| && InFlight(s.conts[k]) && s.conts[k].id == id;
        assert after.conts[k] == s.conts[k];
      }
    }
  }

  /** One continuation moved: it is still in flight, or its id left with it. */
  predicate Moved(s: State, s': State, k: nat) {
    && k < |s.conts| == |s'.conts| && s'.conts == s.conts[k := s'.conts[k]]
    && s'.conts[k].id == s.conts[k].id && s'.desk == s.desk
    && (InFlight(s'.conts[k]) ==> InFlight(s.conts[k]))
    && s'.inflight == if InFlight(s.conts[k]) && !InFlight(s'.conts[k]) then s.inflight - {s.conts[k].id} else s.inflight
  }

  lemma MoveKeepsOneEach(s: State, s': State, k: nat)
    requires OneEach(s) && Moved(s, s', k)
    ensures OneEach(s')
  {
    forall id | id in s'.inflight && !(s.desk.Marked? && s.desk.id == id)
      ensures exists m :: 0 <= m < |s'.conts| && InFlight(s'.conts[m]) && s'.conts[m].id == id
    {
      var m :| 0 <= m < |s.conts| && InFlight(s.conts[m]) && s.conts[m].id == id;
      assert s'.conts[m].id == id && InFlight(s'.conts[m]);
    }
  }

  lemma OneEachKept(s: State, a: Action)
    requires Invariant(s) && Enabled(s, a)
    ensures OneEach(Step(s, a))
  {
    hide Slots, Count;
    if OfDesk(a) {
      DeskKeepsOneEach(s, a);
    } else {
      hide OneEach;
      MoveKeepsOneEach(s, Step(s, a), a.k);
    }
  }

  /** Every step keeps both slot counts and one continuation an id. */
  lemma StepKeeps(s: State, a: Action)
    requires Invariant(s) && Enabled(s, a)
    ensures Invariant(Step(s, a))
  {
    OneEachKept(s, a);
    if OfDesk(a) { DeskKeepsSlots(s, a); }
    else if a.Yield? || a.Leave? { YieldKeepsSlots(s, a); }
    else { MoveKeepsSlots(s, a); }
  }

  function After(steps: seq<Action>): (s: Option<State>)
    ensures s.Some? ==> Invariant(s.value)
  {
    if steps == [] then Some(START)
    else
      var before := After(steps[..|steps| - 1]);
      var a := steps[|steps| - 1];
      if before.None? || !Enabled(before.value, a) then None
      else StepKeeps(before.value, a); Some(Step(before.value, a))
  }

  /** Can this continuation take its next step whatever the others do? */
  predicate CanGoOn(s: State, k: nat) {
    At(s, k, Running) || At(s, k, Yielding) || At(s, k, Hashing) || At(s, k, Ending)
  }

  /** Held tokens are the unyielded continuations and the one being dispatched, at most eight; hash slots in use
      are at most three; each token was released exactly once; an action has at most one continuation in flight;
      none blocked on a hash slot holds a token; and a full dispatcher has a token holder that waits for nobody. */
  predicate Orderly(s: State) {
    && s.tokens == Count(s.conts, HOLDS) + DeskTokens(s) <= DISPATCH_SLOTS
    && s.hashing == Count(s.conts, HASHES) + s.others <= HASH_SLOTS
    && s.released == |s.conts| - Count(s.conts, HOLDS)
    && (forall k, m :: 0 <= k < m < |s.conts| && InFlight(s.conts[k]) && InFlight(s.conts[m]) ==> s.conts[k].id != s.conts[m].id)
    && (forall k :: 0 <= k < |s.conts| && s.conts[k].phase.Blocked? ==> !s.conts[k].held)
    && (s.desk.Waiting? && !Enabled(s, Acquire) ==> exists k :: 0 <= k < |s.conts| && s.conts[k].held && CanGoOn(s, k))
  }

  /** Every state that any interleaving reaches is orderly. */
  lemma AnyInterleaving(steps: seq<Action>)
    ensures After(steps).Some? ==> Orderly(After(steps).value)
  {
    if After(steps).Some? {
      var s := After(steps).value;
      if s.desk.Waiting? && !Enabled(s, Acquire) {
        var k := SomeHolder(s.conts);
        assert CanGoOn(s, k);
      }
    }
  }

  lemma {:induction false} SomeHolder(conts: seq<Continuation>) returns (k: nat)
    requires Count(conts, HOLDS) > 0
    ensures k < |conts| && conts[k].held
  {
    k := |conts| - 1;
    if !conts[k].held { k := SomeHolder(conts[..|conts| - 1]); }
  }
}
