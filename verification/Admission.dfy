/**
 Admitting a child's worker submit against its parent batch (action/parent_admission.go, action/engine.go):
 children, the batch's own scheduler and Cancel contend for the parent's execution lease, step by step and in
 any order. The store's updates are fenced: they apply only while the writer's lease is the current one.
 */
module Admission {
  import opened Volumes

  datatype Role = Child | Scheduler | Canceller

  datatype Phase =
    | Idle
    | Claimed            // holds a lease token
    | Admitted           // read a policy that allows a submit
    | Checked            // parentLeaseHeld just said the lease is still its own
    | Submitted
    | Leaving

  /** One executor; token is its claim's unique owner, lost: its lease ended after its last check. */
  datatype Executor = Executor(role: Role, phase: Phase, token: nat, lost: bool)

  datatype State = State(
    lease: int,          // the current owner's token, or NOBODY
    tokens: nat,         // tokens given out
    cancelled: bool,     // the parent's durable cancellation
    paused: bool,        // or waiting for a decision: blocks new admissions reversibly
    all: seq<Executor>)

  const NOBODY := -1

  datatype Action =
    | Claim(k: nat)
    | Expire               // the lease ends while its holder runs on
    | ReadPolicy(k: nat)
    | Check(k: nat)
    | Submit(k: nat)
    | SaveParent(k: nat)   // a scheduler stores the parent record it read before
    | CancelParent(k: nat)
    | Pause(paused: bool)
    | Release(k: nat)

  predicate Is(s: State, k: nat, p: Phase) {
    k < |s.all| && s.all[k].phase == p
  }

  predicate Enabled(s: State, a: Action) {
    match a
    case Claim(k) => Is(s, k, Idle) && s.lease == NOBODY
    case Expire => s.lease != NOBODY
    case ReadPolicy(k) => Is(s, k, Claimed) && !s.all[k].role.Canceller?
    case Check(k) => Is(s, k, Admitted) || Is(s, k, Submitted)
    case Submit(k) => Is(s, k, Checked)
    case SaveParent(k) => (Is(s, k, Admitted) || Is(s, k, Submitted)) && s.all[k].role.Scheduler?
    case CancelParent(k) => Is(s, k, Claimed) && s.all[k].role.Canceller?
    case Pause(_) => true
    case Release(k) => k < |s.all| && !Is(s, k, Idle)
  }

  predicate Owns(s: State, k: nat)
    requires k < |s.all|
  {
    s.lease == s.all[k].token
  }

  function Move(s: State, k: nat, p: Phase): State
    requires k < |s.all|
  {
    s.(all := s.all[k := s.all[k].(phase := p)])
  }

  /** Everyone whose lease just ended is marked; none of them notices. */
  function Lapsed(all: seq<Executor>, token: int): (r: seq<Executor>)
    ensures |r| == |all|
    ensures forall k :: 0 <= k < |all| ==> r[k] == if all[k].token == token then all[k].(lost := true) else all[k]
  {
    seq(|all|, k requires 0 <= k < |all| => if all[k].token == token then all[k].(lost := true) else all[k])
  }

  function Step(s: State, a: Action): State
    requires Enabled(s, a)
  {
    match a
    case Claim(k) =>
      s.(lease := s.tokens, tokens := s.tokens + 1,
         all := s.all[k := s.all[k].(phase := Claimed, token := s.tokens, lost := false)])
    case Expire => s.(lease := NOBODY, all := Lapsed(s.all, s.lease))
    case ReadPolicy(k) => Move(s, k, if s.cancelled || s.paused then Leaving else Admitted)
    case Check(k) =>
      if Owns(s, k) then s.(all := s.all[k := s.all[k].(phase := Checked, lost := false)]) else Move(s, k, Leaving)
    case Submit(k) => Move(s, k, Submitted)
    case SaveParent(k) => if Owns(s, k) then s.(cancelled := false) else s
    case CancelParent(k) => if Owns(s, k) then Move(s, k, Leaving).(cancelled := true) else Move(s, k, Leaving)
    case Pause(paused) => s.(paused := paused)
    case Release(k) => if Owns(s, k) then Move(s, k, Idle).(lease := NOBODY) else Move(s, k, Idle)
  }

  /** It read a policy that allowed it to go on. */
  predicate Trusting(e: Executor) {
    e.phase.Admitted? || e.phase.Checked? || e.phase.Submitted?
  }

  predicate Invariant(s: State) {
    && s.lease < s.tokens
    && (forall k :: 0 <= k < |s.all| ==> s.all[k].token < s.tokens)
    && (forall k, m :: 0 <= k < m < |s.all| && !s.all[k].phase.Idle? && !s.all[m].phase.Idle? ==> s.all[k].token != s.all[m].token)
    && (forall k :: 0 <= k < |s.all| && s.all[k].phase.Idle? ==> s.all[k].token != s.lease)
    // Who read an allowing policy under a lease still its own can rely on it.
    && (forall k :: 0 <= k < |s.all| && Trusting(s.all[k]) && Owns(s, k) ==> !s.cancelled)
    && (forall k :: 0 <= k < |s.all| && s.all[k].phase.Checked? && !s.all[k].lost ==> Owns(s, k))
  }

  lemma ClaimKeeps(s: State, k: nat)
    requires Invariant(s) && Enabled(s, Claim(k))
    ensures Invariant(Step(s, Claim(k)))
  {
  }

  lemma ExpireKeeps(s: State)
    requires Invariant(s) && Enabled(s, Expire)
    ensures Invariant(Step(s, Expire))
  {
    var r := Lapsed(s.all, s.lease);
    forall k, m | 0 <= k < m < |r| && !r[k].phase.Idle? && !r[m].phase.Idle? ensures r[k].token != r[m].token {
      assert s.all[k].token != s.all[m].token;
    }
  }

  lemma CancelKeeps(s: State, k: nat)
    requires Invariant(s) && Enabled(s, CancelParent(k))
    ensures Invariant(Step(s, CancelParent(k)))
  {
    var after := Step(s, CancelParent(k));
    if Owns(s, k) {
      forall m | 0 <= m < |after.all| && Trusting(after.all[m]) ensures !Owns(after, m) {
        assert s.all[m].token != s.all[k].token;
      }
    }
  }

  lemma ReleaseKeeps(s: State, k: nat)
    requires Invariant(s) && Enabled(s, Release(k))
    ensures Invariant(Step(s, Release(k)))
  {
  }

  lemma CheckKeeps(s: State, k: nat)
    requires Invariant(s) && Enabled(s, Check(k))
    ensures Invariant(Step(s, Check(k)))
  {
  }

  lemma ReadKeeps(s: State, k: nat)
    requires Invariant(s) && Enabled(s, ReadPolicy(k))
    ensures Invariant(Step(s, ReadPolicy(k)))
  {
  }

  lemma StepKeeps(s: State, a: Action)
    requires Invariant(s) && Enabled(s, a)
    ensures Invariant(Step(s, a))
  {
    match a
    case Claim(k) => ClaimKeeps(s, k);
    case Expire => ExpireKeeps(s);
    case CancelParent(k) => CancelKeeps(s, k);
    case Release(k) => ReleaseKeeps(s, k);
    case Check(k) => CheckKeeps(s, k);
    case ReadPolicy(k) => ReadKeeps(s, k);
    case Submit(k) =>
    case SaveParent(k) =>
    case Pause(_) =>
  }

  /** A batch nobody has claimed, and its executors. */
  predicate Fresh(s: State) {
    && s.lease == NOBODY && s.tokens == 1 && !s.cancelled
    && forall k :: 0 <= k < |s.all| ==> s.all[k].phase.Idle? && s.all[k].token == 0
  }

  function After(start: State, steps: seq<Action>): (s: Option<State>)
    requires Fresh(start)
    ensures s.Some? ==> Invariant(s.value)
  {
    if steps == [] then Some(start)
    else
      var before := After(start, steps[..|steps| - 1]);
      var a := steps[|steps| - 1];
      if before.None? || !Enabled(before.value, a) then None
      else StepKeeps(before.value, a); Some(Step(before.value, a))
  }

  lemma AfterOne(start: State, steps: seq<Action>, a: Action)
    requires Fresh(start) && After(start, steps).Some?
    ensures var s := After(start, steps).value; Enabled(s, a) ==> After(start, steps + [a]) == Some(Step(s, a))
    ensures After(start, steps + [a]).Some? ==> Enabled(After(start, steps).value, a)
  {
    hide Invariant, Enabled, Step;
    assert (steps + [a])[..|steps|] == steps;
  }

  lemma StaysCancelled(s: State, a: Action)
    requires Invariant(s) && Enabled(s, a) && s.cancelled
    ensures Step(s, a).cancelled
  {
  }

  lemma {:induction false} BeforeToo(start: State, before: seq<Action>, later: seq<Action>)
    requires Fresh(start) && After(start, before + later).Some?
    ensures After(start, before).Some?
    decreases |later|
  {
    hide Invariant, Enabled, Step, Fresh;
    if later == [] {
      assert before + later == before;
    } else {
      assert (before + later)[..|before + later| - 1] == before + later[..|later| - 1];
      BeforeToo(start, before, later[..|later| - 1]);
    }
  }

  /** A durable cancellation is never undone: a scheduler that read the parent before it no longer owns the
      lease its stale save is fenced by. */
  lemma {:induction false} CancelledForGood(start: State, before: seq<Action>, later: seq<Action>)
    requires Fresh(start) && After(start, before).Some? && After(start, before + later).Some?
    requires After(start, before).value.cancelled
    ensures After(start, before + later).value.cancelled
    decreases |later|
  {
    hide Invariant, Enabled, Step, Fresh;
    if later == [] {
      assert before + later == before;
    } else {
      var most, a := later[..|later| - 1], later[|later| - 1];
      assert before + later == (before + most) + [a];
      BeforeToo(start, before + most, [a]);
      CancelledForGood(start, before, most);
      AfterOne(start, before + most, a);
      StaysCancelled(After(start, before + most).value, a);
    }
  }

  /** Once the cancellation is durable no executor submits, unless its lease ended after the check right
      before that submit: with the lease held through the submit, never. */
  lemma NoSubmitAfterCancel(start: State, steps: seq<Action>, k: nat)
    requires Fresh(start) && After(start, steps).Some? && Enabled(After(start, steps).value, Submit(k))
    ensures var s := After(start, steps).value; s.cancelled ==> s.all[k].lost && !Owns(s, k)
  {
  }

  /** The lease is what closes the race: one that expires between the check and the submit lets a submit
      follow the cancellation. */
  lemma ExpiryLetsOneThrough() returns (start: State, steps: seq<Action>)
    ensures Fresh(start) && After(start, steps).Some?
    ensures var s := After(start, steps).value; s.cancelled && Enabled(s, Submit(0))
  {
    hide After;
    start := State(NOBODY, 1, false, false, [Executor(Child, Idle, 0, false), Executor(Canceller, Idle, 0, false)]);
    steps := [];
    NoSteps(start);
    var script := [Claim(0), ReadPolicy(0), Check(0), Expire, Claim(1), CancelParent(1)];
    var i := 0;
    var s := start;
    while i < 6
      invariant 0 <= i <= 6 && After(start, steps) == Some(s)
      invariant s == Reached(start, i)
    {
      AfterOne(start, steps, script[i]);
      s := Step(s, script[i]);
      steps := steps + [script[i]];
      i := i + 1;
    }
  }

  lemma NoSteps(start: State)
    requires Fresh(start)
    ensures After(start, []) == Some(start)
  {
  }

  /** The states of that race, one by one. */
  function Reached(start: State, i: nat): State {
    var holder := Executor(Child, [Idle, Claimed, Admitted, Checked, Checked, Checked, Checked][if i < 7 then i else 6], if i == 0 then 0 else 1, i > 3);
    var canceller := Executor(Canceller, if i < 5 then Idle else if i == 5 then Claimed else Leaving, if i < 5 then 0 else 2, false);
    State(if i == 0 || i == 4 then NOBODY else if i < 4 then 1 else 2, if i == 0 then 1 else if i < 5 then 2 else 3, i == 6, false, [holder, canceller])
  }
}
