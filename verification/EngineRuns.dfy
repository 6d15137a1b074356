/**
 The engine's durable runs of a promotion (action/engine.go, action/promote_template.go,
 action/promote_retry.go): steps from a checkpoint, with rewinds, waits, failures, cancellation, and an end at
 any save.

 Every save is fenced by the run's lease, so a run that lost it is a run whose next save fails: it changes
 nothing any more, and what others do meanwhile is the same as what they do after it.
 */
module EngineRuns {

  const PLAN := 0
  const APPROVE := 1
  const IMPORT := 3
  const RENAME := 5
  const DONE := 8

  /** preserve_original to finalize_promotion all start with promotionMutation. */
  predicate Mutates(step: nat) {
    APPROVE < step < DONE
  }

  datatype Status = Pending | Running | WaitingExternal | WaitingDecision | Completed | Failed | Cancelled

  predicate Finished(s: Status) {
    s.Completed? || s.Failed? || s.Cancelled?
  }

  /** The stored action. A plan is known by its digest; 0 stands for none. */
  datatype Row = Row(status: Status, step: nat, plan: nat, approved: bool)

  /** What the user decided; an approval carries the digest of the plan that was reviewed. */
  datatype Decision = NoDecision | Approve(digest: nat) | Reject

  datatype Grounds = Person | BatchPlan | Ahead

  /** What really happened, in order. */
  datatype Entry =
    | Ran(step: nat)
    | Passed(step: nat, plan: nat)    // completed or skipped, with its checkpoint saved
    | Granted(plan: nat, grounds: Grounds)   // an approval of this plan

  /** Where a completed step sends the run: RewindTo resolves to -1 when no step has that name. */
  datatype Next = Onward | RewindTo(target: int)

  datatype Outcome = Passes(next: Next) | Fails | Cancels | WaitsOutside | WaitsForDecision

  /** Everything outside the engine's control during one pass of its loop. */
  datatype Round = Round(
    interrupted: bool,    // the caller is gone before the step
    stateful: bool,       // the stored state holds more than the plan
    saved: bool,          // the save before the step
    destructive: bool,    // allow_destructive
    claimed: bool,        // promotionMutation's claims and batch checks
    digest: nat,          // of the plan that plan_promotion makes, or 0
    batchApproves: bool, ahead: bool,
    kept: bool,           // the save inside the step
    outcome: Outcome,     // of the step's own work
    cutShort: bool,       // the caller is gone after it
    checkpoint: bool)     // the save after the step

  // ---- Steps completed in order ----

  /** The last time a step passed, or -1. */
  function LastPass(log: seq<Entry>, step: nat): (at: int)
    ensures -1 <= at < |log|
    ensures at >= 0 ==> log[at].Passed? && log[at].step == step
  {
    if log == [] then -1
    else
      var e := log[|log| - 1];
      if e.Passed? && e.step == step then |log| - 1 else LastPass(log[..|log| - 1], step)
  }

  /** Every step before this one passed, and was passed again after anything before it was. */
  predicate InOrder(log: seq<Entry>, step: nat) {
    forall i :: 0 <= i < step ==>
      LastPass(log, i) >= 0 && (i > 0 ==> LastPass(log, i - 1) < LastPass(log, i))
  }

  lemma {:induction false} InOrderBetween(log: seq<Entry>, step: nat, i: nat, j: nat)
    requires InOrder(log, step) && i < j < step
    ensures 0 <= LastPass(log, i) < LastPass(log, j)
    decreases j
  {
    if i < j - 1 { InOrderBetween(log, step, i, j - 1); }
  }

  lemma Appended(log: seq<Entry>, e: Entry, step: nat, plan: nat)
    requires InOrder(log, step) && OnePlan(log, step, plan) && (e.Passed? ==> e.step >= step)
    ensures InOrder(log + [e], step) && OnePlan(log + [e], step, plan)
    ensures e == Passed(step, plan) ==> InOrder(log + [e], step + 1) && OnePlan(log + [e], step + 1, plan)
  {
    assert (log + [e])[..|log|] == log;
    forall i | 0 <= i < step ensures LastPass(log + [e], i) == LastPass(log, i) {}
  }

  /** All these steps last passed for one plan. */
  predicate OnePlan(log: seq<Entry>, step: nat, plan: nat) {
    forall i :: 0 <= i < step ==> LastPass(log, i) >= 0 && log[LastPass(log, i)].plan == plan
  }

  /** The step that is running, or -1. */
  function Working(log: seq<Entry>): int {
    if log == [] then -1
    else
      match log[|log| - 1]
      case Ran(step) => step
      case Passed(_, _) => -1
      case Granted(_, _) => Working(log[..|log| - 1])
  }

  predicate Approved(log: seq<Entry>, plan: nat) {
    exists g :: 0 <= g < |log| && log[g].Granted? && log[g].plan == plan
  }

  /** A step ran only after all the steps before it passed in order, and a mutation passed only for a plan
      that had been approved. */
  predicate WellRun(log: seq<Entry>) {
    forall k :: 0 <= k < |log| ==> RightlyAt(log[..k], log[k])
  }

  predicate RightlyAt(before: seq<Entry>, e: Entry) {
    match e
    case Ran(step) => InOrder(before, step)
    case Passed(step, plan) => Working(before) == step && (Mutates(step) ==> Approved(before, plan))
    case Granted(_, _) => true
  }

  lemma WellRunMore(log: seq<Entry>, e: Entry)
    requires WellRun(log) && RightlyAt(log, e)
    ensures WellRun(log + [e])
  {
    var more := log + [e];
    forall k | 0 <= k < |more| ensures RightlyAt(more[..k], more[k]) {
      assert more[..k] == log[..k];
    }
    assert more[..|log|] == log;
  }

  datatype Call =
    | Resume(decision: Decision, automatic: bool, due: bool)
    | Retry(reimport: bool)
    | Replan
    | Cancel

  /** A call on the stored action: whether its guards and its first save let it through, what the rest of the
      world does, and whether the save that records completion succeeds. */
  datatype Asked = Asked(call: Call, allowed: bool, saved: bool, rounds: seq<Round>, recorded: bool)

  function Min(a: nat, b: nat): nat {
    if a < b then a else b
  }

  // ---- What one pass of the loop does to the stored action ----

  /** Somebody answers for this plan. */
  predicate Approvable(linked: bool, r: Round, decision: Decision, at: Row) {
    if linked then r.batchApproves
    else at.approved || decision == Approve(at.plan) || (decision.NoDecision? && r.ahead)
  }

  /** The running step's record: a new plan is not approved yet, and an approval is for the plan there is. */
  function Memory(linked: bool, r: Round, decision: Decision, at: Row): Row {
    if !r.destructive then at
    else if at.step == PLAN && r.digest > 0 then at.(plan := r.digest, approved := false)
    else if at.step == APPROVE && Approvable(linked, r, decision, at) then at.(approved := true)
    else at
  }

  /** The stored one. */
  function Inside(linked: bool, r: Round, decision: Decision, at: Row): Row {
    if r.kept then Memory(linked, r, decision, at) else at
  }

  /** How the step ends, unless its caller is gone by then. */
  function StepOutcome(linked: bool, r: Round, decision: Decision, at: Row): Outcome {
    if at.step == PLAN then
      if !r.destructive || r.digest == 0 then (if r.outcome.Passes? then Fails else r.outcome)
      else if r.kept then r.outcome else Fails
    else if !r.destructive then Fails
    else if at.step == APPROVE then
      if Approvable(linked, r, decision, at) then (if r.kept then Passes(Onward) else Fails)
      else if linked then (if r.claimed then Fails else WaitsOutside)
      else if decision.Reject? then Fails else WaitsForDecision
    else if !at.approved then Fails
    else if !r.claimed then (if r.outcome.WaitsOutside? then WaitsOutside else Fails)
    else r.outcome
  }

  function RunOutcome(linked: bool, r: Round, decision: Decision, at: Row): Outcome {
    if r.cutShort then WaitsOutside else StepOutcome(linked, r, decision, at)
  }

  /** Where a step that passed sends the run, or -1. */
  function Target(next: Next, step: nat): (to: int)
    ensures -1 <= to <= step + 1
  {
    match next
    case Onward => step + 1
    case RewindTo(target) => if 0 <= target <= step then target else -1
  }

  /** The row as the engine stores it after a step that did not pass. */
  function Stopped(mem: Row, outcome: Outcome): Row {
    mem.(status := match outcome
      case Fails => Failed
      case Cancels => Cancelled
      case WaitsOutside => WaitingExternal
      case _ => WaitingDecision)
  }

  datatype After = After(row: Row, on: bool)

  /** The save after a step moves the checkpoint only past one that passed, or back. */
  function AfterStep(checkpoint: bool, mem: Row, o: Outcome, inside: Row): After {
    if !o.Passes? then After(if checkpoint then Stopped(mem, o) else inside, false)
    else
      var to := Target(o.next, inside.step);
      if to < 0 || !checkpoint then After(inside, false) else After(inside.(step := to), true)
  }

  /** The stored row after one pass, and whether the loop goes on. */
  function AfterPass(linked: bool, r: Round, decision: Decision, at: Row): After {
    if r.interrupted then
      // A caller's timeout suspends a promotion that has begun.
      After(if !r.saved then at else at.(status := if at.plan > 0 || r.stateful then WaitingExternal else Failed), false)
    else if !r.saved then After(at, false)
    else
      var mem, inside := Memory(linked, r, decision, at), Inside(linked, r, decision, at);
      AfterStep(r.checkpoint, mem, RunOutcome(linked, r, decision, at), inside)
  }

  /** The stored row after the whole loop: a process that dies leaves what the passes before stored. */
  function Executed(linked: bool, rounds: seq<Round>, decision: Decision, recorded: bool, at: Row): Row {
    if at.step >= DONE then (if recorded then at.(status := Completed) else at)
    else if rounds == [] then at
    else
      var next := AfterPass(linked, rounds[0], decision, at);
      if next.on then Executed(linked, rounds[1..], decision, recorded, next.row) else next.row
  }

  class Engine {
    const linked: bool        // the promotion belongs to a batch
    const filesystem: bool
    var row: Row
    ghost var log: seq<Entry>

    /** The checkpoint: everything before it is done, in order and for the stored plan, and past the approval
        this plan was approved. */
    ghost predicate Valid()
      reads this
    {
      && WellRun(log) && Sound(row, log) && row.step <= DONE
      && (row.status.Completed? ==> row.step == DONE)
      && (row.status.Failed? ==> row.step < DONE)
    }

    constructor (linked: bool, filesystem: bool)
      ensures Valid() && row == Row(Pending, PLAN, 0, false) && log == []
    {
      this.linked, this.filesystem := linked, filesystem;
      row, log := Row(Pending, PLAN, 0, false), [];
    }

    /** What happened since stays attributable: a person approved exactly the plan under review, and a batch
        only its own members. */
    twostate predicate Told(decision: Decision)
      reads this
    {
      && old(log) <= log
      && (forall k :: |old(log)| <= k < |log| && log[k].Granted? ==>
        && (log[k].grounds.Person? ==> decision == Approve(log[k].plan) && !linked)
        && (log[k].grounds.BatchPlan? ==> linked))
    }

    /** What every operation keeps: nothing that happened is undone, and a completed or cancelled action stays
        as it is. */
    twostate predicate Kept()
      reads this
    {
      && Valid() && old(log) <= log
      && (old(row).status.Completed? || old(row).status.Cancelled? ==> row == old(row) && log == old(log))
    }

    ghost method Note(e: Entry)
      requires Valid() && RightlyAt(log, e) && (e.Passed? ==> e.step >= row.step)
      modifies `log
      ensures Valid() && log == old(log) + [e]
      ensures e == Passed(row.step, row.plan) ==> InOrder(log, row.step + 1) && OnePlan(log, row.step + 1, row.plan)
      ensures e.Granted? ==> Approved(log, e.plan)
    {
      WellRunMore(log, e);
      Appended(log, e, row.step, row.plan);
      ApprovedStays(log, e);
      log := log + [e];
    }

    /** plan_promotion: a new plan, not approved yet. */
    method PlanStep(r: Round) returns (mem: Row, outcome: Outcome)
      requires Valid() && row.step == PLAN && row.status.Running?
      modifies `row
      ensures Valid() && row.status.Running? && row.step == PLAN
      ensures Sound(mem, log) && mem.step == PLAN && mem.status.Running?
      ensures outcome.Passes? ==> mem == row && mem.plan > 0
      ensures mem == Memory(linked, r, NoDecision, old(row)) && row == Inside(linked, r, NoDecision, old(row))
      ensures outcome == StepOutcome(linked, r, NoDecision, old(row))
      ensures r.destructive && r.digest > 0 && r.kept ==> outcome == r.outcome && row.plan == r.digest && !row.approved
    {
      mem := row;
      if !r.destructive || r.digest == 0 {
        outcome := if r.outcome.Passes? then Fails else r.outcome;
        return;
      }
      mem := row.(plan := r.digest, approved := false);
      if !r.kept { return mem, Fails; }
      row, outcome := mem, r.outcome;
    }

    /** approve_promotion. Only an unlinked plan nobody answers for waits for a person; a batch that has not approved
        its member fails it, or is waited for while it is busy. */
    method ApproveStep(r: Round, decision: Decision) returns (mem: Row, outcome: Outcome)
      requires Valid() && row.step == APPROVE && row.status.Running?
      modifies `row, `log
      ensures Valid() && row.status.Running? && row.step == APPROVE && Told(decision)
      ensures log == old(log) || (log == old(log) + [log[|log| - 1]] && log[|log| - 1].Granted?)
      ensures Sound(mem, log) && mem.step == APPROVE && mem.status.Running?
      ensures outcome.Passes? ==> mem == row && mem.approved && outcome == Passes(Onward)
      ensures decision == Reject && !linked && !old(row.approved) ==> outcome.Fails? && log == old(log)
      ensures outcome.Passes? <==> r.destructive && r.kept && Approvable(linked, r, decision, old(row))
      ensures outcome.WaitsForDecision? <==>
        r.destructive && !linked && !Approvable(linked, r, decision, old(row)) && decision != Reject
      ensures outcome.WaitsOutside? <==> r.destructive && linked && !r.batchApproves && !r.claimed
      ensures !outcome.Cancels?
      ensures mem == Memory(linked, r, decision, old(row)) && row == Inside(linked, r, decision, old(row))
      ensures log != old(log) <==> r.destructive && Approvable(linked, r, decision, old(row)) && (linked || !old(row).approved)
      ensures log != old(log) ==> log[|log| - 1] == Granted(row.plan,
        if linked then BatchPlan else if decision.Approve? then Person else Ahead)
    {
      mem := row;
      if !r.destructive { return mem, Fails; }
      if linked {
        if !r.batchApproves { return mem, if r.claimed then Fails else WaitsOutside; }
        Note(Granted(row.plan, BatchPlan));
      } else if !row.approved {
        match decision {
          case Approve(digest) =>
            if digest != row.plan { return mem, WaitsForDecision; }
            Note(Granted(row.plan, Person));
          case Reject => return mem, Fails;
          case NoDecision =>
            if !r.ahead { return mem, WaitsForDecision; }
            Note(Granted(row.plan, Ahead));
        }
      }
      mem := row.(approved := true);
      if !r.kept { return mem, Fails; }
      row, outcome := mem, Passes(Onward);
    }

    /** Any later step: promotionMutation first. */
    method MutationStep(r: Round) returns (outcome: Outcome)
      requires Valid() && Mutates(row.step)
      ensures outcome.Passes? ==> row.approved
      ensures r.destructive && r.claimed ==> outcome == r.outcome    // an approval is never missing here
      ensures outcome == StepOutcome(linked, r, NoDecision, row)
    {
      if !r.destructive || !row.approved { return Fails; }
      if !r.claimed { return if r.outcome.WaitsOutside? then WaitsOutside else Fails; }
      outcome := r.outcome;
    }

    /** Nothing stands in the way of this step. */
    predicate Goes(r: Round, decision: Decision, at: Row) {
      && r.destructive && r.claimed && r.kept && r.digest > 0 && r.outcome == Passes(Onward)
      && (at.step == APPROVE ==> Approvable(linked, r, decision, at))
    }

    method RunStep(r: Round, decision: Decision) returns (mem: Row, outcome: Outcome)
      requires Valid() && row.step < DONE && row.status.Running? && Working(log) == row.step
      modifies `row, `log
      ensures Valid() && row.status.Running? && row.step == old(row.step) && Told(decision)
      ensures Working(log) == row.step
      ensures Sound(mem, log) && mem.step == row.step && mem.status.Running?
      ensures outcome.Passes? ==> mem == row && mem.plan > 0 && (row.step > PLAN ==> mem.approved)
      ensures Goes(r, decision, old(row)) ==> outcome == Passes(Onward)
      ensures mem == Memory(linked, r, decision, old(row)) && row == Inside(linked, r, decision, old(row))
      ensures outcome == StepOutcome(linked, r, decision, old(row))
      ensures Mutates(row.step) && r.destructive && r.claimed ==> outcome == r.outcome && mem == row && row == old(row)
    {
      if row.step == PLAN {
        mem, outcome := PlanStep(r);
      } else if row.step == APPROVE {
        mem, outcome := ApproveStep(r, decision);
        if log != old(log) { assert log[..|log| - 1] == old(log); }
      } else {
        mem := row;
        outcome := MutationStep(r);
      }
    }

    /** The run itself goes on. */
    static predicate Smooth(r: Round) {
      !r.interrupted && r.saved && !r.cutShort && r.checkpoint
    }

    /** Nothing stands in the way of any step from here: the plan is approved, or somebody answers for it. */
    predicate Clear(rounds: seq<Round>, decision: Decision, at: Row) {
      forall r :: r in rounds ==>
        && Smooth(r) && r.destructive && r.claimed && r.kept && r.digest > 0 && r.outcome == Passes(Onward)
        && if at.step > APPROVE then true
           else if at.step == APPROVE then Approvable(linked, r, decision, at)
           else if linked then r.batchApproves else decision.NoDecision? && r.ahead
    }

    /** One pass of the loop of execute. */
    method Pass(r: Round, decision: Decision) returns (on: bool)
      requires Valid() && row.step < DONE && row.status.Running?
      modifies `row, `log
      ensures Valid() && Told(decision) && !row.status.Completed?
      ensures on ==> row.status.Running?
      ensures After(row, on) == AfterPass(linked, r, decision, old(row))
      ensures Smooth(r) && Goes(r, decision, old(row)) ==> on && row.step == old(row).step + 1
      ensures Smooth(r) && Mutates(old(row).step) && r.destructive && r.claimed && !r.outcome.Passes? ==>
        !on && row == Stopped(old(row), r.outcome)
    {
      hide InOrder, OnePlan, WellRun, Approved;
      if r.interrupted {
        // A caller's timeout suspends a promotion that has begun.
        if r.saved { row := row.(status := if row.plan > 0 || r.stateful then WaitingExternal else Failed); }
        return false;
      }
      if !r.saved { return false; }
      Note(Ran(row.step));
      var mem, outcome := RunStep(r, decision);
      if r.cutShort { outcome := WaitsOutside; }
      on := EndStep(r.checkpoint, mem, outcome);
    }

    /** The save after the step. */
    method EndStep(checkpoint: bool, mem: Row, outcome: Outcome) returns (on: bool)
      requires Valid() && row.step < DONE && row.status.Running? && Working(log) == row.step
      requires Sound(mem, log) && mem.step == row.step && mem.status.Running?
      requires outcome.Passes? ==> mem == row && mem.plan > 0 && (row.step > PLAN ==> mem.approved)
      modifies `row, `log
      ensures Valid() && !row.status.Completed? && (on ==> row.status.Running?)
      ensures log == old(log) || log == old(log) + [Passed(old(row).step, old(row).plan)]
      ensures After(row, on) == AfterStep(checkpoint, mem, outcome, old(row))
    {
      hide InOrder, OnePlan, WellRun, Approved;
      if !outcome.Passes? {
        if checkpoint { row := Stopped(mem, outcome); }
        return false;
      }
      var next := row.step + 1;
      if outcome.next.RewindTo? {
        if outcome.next.target < 0 || outcome.next.target > row.step { return false; }
        next := outcome.next.target;
      }
      if !checkpoint { return false; }
      Note(Passed(row.step, row.plan));
      Rewound(log, row.step + 1, row.plan, next);
      row := row.(step := next);
      return true;
    }

    /** execute: until a step stops it, the process dies, or every step has passed. */
    method Execute(rounds: seq<Round>, decision: Decision, recorded: bool)
      requires Valid() && row.status.Running?
      modifies `row, `log
      ensures Valid() && Told(decision)
      ensures row == Executed(linked, rounds, decision, recorded, old(row))
      ensures rounds == [] && old(row).step < DONE ==> log == old(log)
      ensures recorded && Clear(rounds, decision, old(row)) && |rounds| >= DONE ==> row.status.Completed?
    {
      hide InOrder, OnePlan, WellRun, Approved, Sound, AfterPass, Working;
      var i, on := 0, true;
      while on && i < |rounds| && row.step < DONE
        invariant 0 <= i <= |rounds| && Valid() && Told(decision)
        invariant on ==> row.status.Running?
        invariant Clear(rounds, decision, old(row)) ==> on && row.step >= Min(DONE, i)
        invariant i == 0 ==> row == old(row) && log == old(log)
        invariant Executed(linked, rounds, decision, recorded, old(row)) ==
          if on then Executed(linked, rounds[i..], decision, recorded, row) else row
        invariant Clear(rounds, decision, old(row)) && old(row).step >= APPROVE && i > 0 ==> row.step > APPROVE
        decreases |rounds| - i
      {
        assert rounds[i..][1..] == rounds[i + 1..];
        on := Pass(rounds[i], decision);
        i := i + 1;
      }
      SoundAnyway(row, log, Completed);
      if on && row.step == DONE && recorded { row := row.(status := Completed); }
    }

    /** Enough passes of the loop, and completion is stored. */
    static predicate Lasts(a: Asked) {
      |a.rounds| >= DONE && a.recorded
    }

    /** When resume goes on: never a finished action, and a waiting decision only with a person's decision on
        the plan under review. */
    predicate Resumes(a: Asked, at: Row)
      requires a.call.Resume?
    {
      var decision := a.call.decision;
      && !Finished(at.status) && a.allowed && a.saved
      && if at.status.WaitingDecision? then
           && !a.call.automatic && !decision.NoDecision?
           && (decision.Approve? && !linked && at.plan > 0 && !at.approved ==> decision.digest == at.plan)
         else a.call.automatic ==> a.call.due && !at.status.Pending?
    }

    method Resume(a: Asked)
      requires Valid() && a.call.Resume?
      modifies `row, `log
      ensures Kept() && Told(a.call.decision)
      ensures !Resumes(a, old(row)) ==> row == old(row) && log == old(log)
      ensures Resumes(a, old(row)) ==>
        row == Executed(linked, a.rounds, a.call.decision, a.recorded, old(row).(status := Running))
      ensures Resumes(a, old(row)) && Clear(a.rounds, a.call.decision, old(row)) && Lasts(a) ==> row.status.Completed?
    {
      var decision := a.call.decision;
      if Finished(row.status) || !a.allowed { return; }
      if row.status.WaitingDecision? {
        // Neither the reconciler nor a stale review answers for a person.
        if a.call.automatic || decision.NoDecision? { return; }
        if decision.Approve? && !linked && row.plan > 0 && !row.approved && decision.digest != row.plan { return; }
      } else if a.call.automatic && (!a.call.due || row.status.Pending?) {
        return;
      }
      if !a.saved { return; }
      ghost var at := row;
      row := row.(status := Running);
      assert Clear(a.rounds, decision, at) ==> Clear(a.rounds, decision, row);
      Execute(a.rounds, decision, a.recorded);
    }

    /** preparePromotionRetry: a library promotion that failed between import and rename may import again. */
    function RetriedFrom(step: nat, reimport: bool): (from: nat)
      ensures from <= step && (from < step ==> from == IMPORT)    // never past a step
      ensures from < step <==> !filesystem && reimport && (step == IMPORT + 1 || step == RENAME)
    {
      if !filesystem && IMPORT <= step <= RENAME && reimport then IMPORT else step
    }

    method Retry(a: Asked)
      requires Valid() && a.call.Retry?
      modifies `row, `log
      ensures Kept() && Told(NoDecision)
      ensures !old(row).status.Failed? || !a.allowed || !a.saved ==> row == old(row) && log == old(log)
      ensures old(row).status.Failed? && a.allowed && a.saved ==>
        row == Executed(linked, a.rounds, NoDecision, a.recorded,
          old(row).(status := Running, step := RetriedFrom(old(row).step, a.call.reimport)))
      ensures old(row).status.Failed? && a.allowed && a.saved && Clear(a.rounds, NoDecision, old(row)) && Lasts(a) ==>
        row.status.Completed?
    {
      if !row.status.Failed? || !a.allowed || row.step >= DONE || !a.saved { return; }
      var step := RetriedFrom(row.step, a.call.reimport);
      ghost var at := row;
      row := row.(status := Running, step := step);
      assert Clear(a.rounds, NoDecision, at) ==> Clear(a.rounds, NoDecision, row);
      Execute(a.rounds, NoDecision, a.recorded);
    }

    /** replanPromotion: a replacement that failed before its approval is planned afresh by its next retry. */
    method Replan(a: Asked)
      requires Valid() && a.call.Replan?
      modifies `row
      ensures Kept() && row.status == old(row.status)
      ensures row ==
        if old(row).status.Failed? && old(row).step <= APPROVE && a.saved then old(row).(step := PLAN) else old(row)
    {
      if !row.status.Failed? || row.step > APPROVE || !a.saved { return; }
      row := row.(step := PLAN);
    }

    method Cancel(a: Asked)
      requires Valid() && a.call.Cancel?
      modifies `row
      ensures Kept()
      ensures row == if !old(row).status.Completed? && a.saved then old(row).(status := Cancelled) else old(row)
    {
      if row.status.Completed? || !a.saved { return; }
      row := row.(status := Cancelled);
    }

    /** Any calls, in any order, ending at any save. */
    method Live(asked: seq<Asked>)
      requires Valid()
      modifies `row, `log
      ensures Kept()
      ensures row.status.Completed? ==> CarriedOut(log, row.plan)
    {
      for i := 0 to |asked|
        invariant Kept()
      {
        var a := asked[i];
        match a.call {
          case Resume(_, _, _) => Resume(a);
          case Retry(_) => Retry(a);
          case Replan => Replan(a);
          case Cancel => Cancel(a);
        }
      }
      if row.status.Completed? { CompletedMeans(row, log); }
    }
  }

  /** A rewind gives up only what comes after its target. */
  lemma Rewound(log: seq<Entry>, step: nat, plan: nat, to: nat)
    requires InOrder(log, step) && OnePlan(log, step, plan) && to <= step
    ensures InOrder(log, to) && OnePlan(log, to, plan)
  {
  }

  predicate Sound(row: Row, log: seq<Entry>) {
    && InOrder(log, row.step) && OnePlan(log, row.step, row.plan)
    && (row.approved ==> row.plan > 0 && Approved(log, row.plan))
    && (row.step > PLAN ==> row.plan > 0)
    && (row.step > APPROVE ==> row.approved)
  }

  lemma SoundAnyway(row: Row, log: seq<Entry>, status: Status)
    ensures Sound(row.(status := status), log) <==> Sound(row, log)
  {
  }

  lemma ApprovedStays(log: seq<Entry>, e: Entry)
    ensures forall plan :: Approved(log, plan) ==> Approved(log + [e], plan)
    ensures e.Granted? ==> Approved(log + [e], e.plan)
  {
    forall plan | Approved(log, plan) ensures Approved(log + [e], plan) {
      var g :| 0 <= g < |log| && log[g].Granted? && log[g].plan == plan;
      assert (log + [e])[g] == log[g];
    }
    assert (log + [e])[|log|] == e;
  }

  /** Every ordinary promotion: its plan is made, nobody has answered for it, and it waits for a person with that
      plan under review. */
  lemma WaitsForReview(plan: Round, review: Round, rest: seq<Round>, recorded: bool, at: Row)
    requires at.step == PLAN && Engine.Smooth(plan) && Engine.Smooth(review)
    requires plan.destructive && plan.kept && plan.digest > 0 && plan.outcome == Passes(Onward)
    requires review.destructive && !review.ahead
    ensures Executed(false, [plan, review] + rest, NoDecision, recorded, at)
      == Row(WaitingDecision, APPROVE, plan.digest, false)
  {
    assert ([plan, review] + rest)[1..] == [review] + rest;
    NobodyAnswers(review, rest, NoDecision, recorded, at.(plan := plan.digest, approved := false, step := APPROVE));
  }

  /** It waits, with plan and step unchanged, exactly when nobody answers and nobody rejects. */
  lemma NobodyAnswers(review: Round, rest: seq<Round>, decision: Decision, recorded: bool, at: Row)
    requires at.step == APPROVE && Engine.Smooth(review) && review.destructive
    ensures !Approvable(false, review, decision, at) && decision != Reject ==>
      Executed(false, [review] + rest, decision, recorded, at) == at.(status := WaitingDecision)
    ensures !Approvable(false, review, decision, at) && decision == Reject ==>
      Executed(false, [review] + rest, decision, recorded, at) == at.(status := Failed)
  {
  }

  /** A completed promotion: every step passed, each after the one before, all for one plan, and none of the
      steps that change the library passed before that plan was approved. */
  predicate CarriedOut(log: seq<Entry>, plan: nat) {
    && (forall i, j :: 0 <= i < j < DONE ==> 0 <= LastPass(log, i) < LastPass(log, j))
    && (forall i :: 0 <= i < DONE ==> LastPass(log, i) >= 0 && log[LastPass(log, i)] == Passed(i, plan))
    && (forall i :: 0 <= i < DONE && Mutates(i) ==> LastPass(log, i) >= 0 && Approved(log[..LastPass(log, i)], plan))
  }

  lemma CompletedMeans(row: Row, log: seq<Entry>)
    requires WellRun(log) && Sound(row, log) && row.step == DONE
    ensures CarriedOut(log, row.plan)
  {
    forall i, j | 0 <= i < j < DONE ensures 0 <= LastPass(log, i) < LastPass(log, j) {
      InOrderBetween(log, DONE, i, j);
    }
    forall i | 0 <= i < DONE && Mutates(i) ensures LastPass(log, i) >= 0 && Approved(log[..LastPass(log, i)], row.plan) {
      var at := LastPass(log, i);
      assert RightlyAt(log[..at], log[at]);
    }
  }
}
