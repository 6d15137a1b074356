/**
 Whole lives of a promotion: the engine's step checkpoints (action/engine.go), restarts, and the user's
 choices, in any order and with any environment.
 */
module Lives {
  import opened Volumes
  import opened Protocol
  import opened Records
  import opened Machines
  import opened Recoveries
  import opened Publishing
  import opened Finishing
  import opened Backups

  /** The step's record as the engine would store it: the saved one, with what the step changed since. */
  ghost function Result(m: Machine): Record
    reads m
  {
    if m.shared then m.p else m.dur
  }

  /** What is sealed of the ending is what the stored record and the disk decide. */
  ghost predicate Foretold(m: Machine, faceless: bool)
    reads m
  {
    && (m.trail.own ==> m.trail.fate == Settled(m.job, m.v, m.dur, Steadfast(m.env), faceless))
    && (m.trail.fate == Clear && m.dur.step == PRESERVE ==> Steadfast(m.env))
  }

  /** One step of the filesystem template, from its checkpoint. */
  method RunStep(m: Machine, ghost faceless: bool, ghost quiet: bool) returns (s: Signal)
    requires m.Valid() && m.Mem() && m.p == m.dur && !m.shared && m.dur.step < DONE
    requires Foretold(m, faceless) && (quiet ==> m.Quiet() && faceless == !m.Stable())
    modifies m`v, m`clock, m`trail, m`guests, m`dur, m`shared, m`p, m`shielded, m`cleared
    ensures m.Kept() && m.Mem() && m.Stored() && m.shielded == old(m.shielded)
    ensures s.Go? ==> Completed(m.job, m.v, Result(m))
    ensures quiet && old(m.trail.own) && old(m.trail).fate != Stuck && old(m.trail).fate != Pinned ==> s.Go?
    ensures quiet && old(m.trail.own) && s.Go? ==>
      Leads(m.job, old(m.v), old(m.dur), m.v, Result(m), old(m.Stable()))
  {
    hide At, Judge, Faceless, GuestsHome, CalmFrom, Dated, Onward, Preserved, Steadfast;
    Onwards(m.env, m.shielded);
    GoodMeans(m.job, m.v, m.dur, m.trail);
    m.cleared := false;
    var step := m.dur.step;
    if step == PRESERVE {
      s := Preserve(m);
    } else if step == PUBLISH {
      s := Publish(m);
    } else if step == REMOVE {
      s := RemoveOriginal(m);
    } else if step == VERIFY || step == RESCAN {
      s := VerifyFinal(m);
    } else {
      s := Finalize(m);
    }
  }

  /** The next step, unless the run was cancelled. */
  method RunAllowed(m: Machine, ghost faceless: bool) returns (s: Signal)
    requires m.Valid() && m.Mem() && m.p == m.dur && !m.shared && m.dur.step < DONE
    requires Foretold(m, faceless) && (m.Quiet() ==> faceless == !m.Stable())
    modifies m`v, m`clock, m`trail, m`guests, m`dur, m`shared, m`p, m`shielded, m`cleared
    ensures m.Kept() && m.Mem() && m.Stored() && m.shielded == old(m.shielded)
    ensures s.Go? ==> Completed(m.job, m.v, Result(m))
    ensures old(m.Quiet()) && old(m.trail.own) && old(m.trail).fate != Stuck && old(m.trail).fate != Pinned ==> s.Go?
    ensures old(m.Quiet()) && old(m.trail.own) && s.Go? ==>
      Leads(m.job, old(m.v), old(m.dur), m.v, Result(m), old(m.Stable()))
  {
    hide At, Judge, Faceless, GuestsHome, CalmFrom, Dated, Onward, Completed, Settled, Sealed, Leads, Steadfast;
    Onwards(m.env, m.shielded);
    s := m.Proceed();
    if s.Go? { s := RunStep(m, faceless, old(m.Quiet())); }
  }

  /** A new run, or a crash, starts again from the stored record. */
  method Reload(m: Machine)
    requires m.Valid()
    modifies m`p, m`shared
    ensures m.Valid() && m.Mem() && m.p == m.dur && !m.shared
  {
    m.p, m.shared := m.dur, false;
  }

  /** The engine stores the record after a step, moving the checkpoint only past a completed one. */
  method Checkpoint(m: Machine, completed: bool) returns (s: Signal)
    requires m.Valid() && m.Mem()
    requires completed ==> Completed(m.job, m.v, Result(m))
    modifies m`v, m`clock, m`trail, m`guests, m`dur, m`shared, m`p
    ensures m.Kept() && m.Mem() && m.p == m.dur && !m.shared && s.Plain()
    ensures m.dur.step == old(m.dur.step) || (completed && m.dur.step == old(m.dur.step) + 1)
    ensures s.Go? && completed ==> m.dur.step == old(m.dur.step) + 1
    ensures Undisturbed(old(m.v), m.v)
    ensures m.dur == old(m.dur) || m.dur == if completed then Advanced(old(Result(m))) else old(Result(m))
    ensures s.Go? ==> m.dur == if completed then Advanced(old(Result(m))) else old(Result(m))
    ensures old(m.Quiet()) ==> s.Go? && m.v == old(m.v)
    ensures s.Go? || s.Died? || s == Err(Stopped)
    ensures s.Died? <==> old(m.Coming()).fault.Crash?
  {
    hide At, Judge, Faceless, GuestsHome, CalmFrom, Dated, Onward, Completed, Advanced;
    Onwards(m.env, m.shielded);
    PrepareCheckpoint(m, completed);
    var e := m.Tick();
    if e.fault.Calm? || e.fault.Busy? || (e.fault.IoError? && e.reached) { m.dur := m.p; }
    Reload(m);
    s := if e.fault.Crash? then Died else if e.fault.Calm? || e.fault.Busy? then Go else Err(Stopped);
  }

  /** What the checkpoint is to store. */
  method PrepareCheckpoint(m: Machine, completed: bool)
    requires m.Valid() && m.Mem()
    requires completed ==> Completed(m.job, m.v, Result(m))
    modifies m`p
    ensures m.Valid() && m.InMemory() && m.p == if completed then Advanced(old(Result(m))) else old(Result(m))
    ensures m.p.step == m.dur.step + if completed then 1 else 0
  {
    hide At, Judge, Faceless, GuestsHome, Dated, Completed, Advanced;
    if !m.shared { m.p := m.dur; }
    if completed {
      AdvancedKeeps(m.job, m.v, m.p, m.trail);
      m.p := Advanced(m.p);
    }
  }

  /** One step and its checkpoint, which moves only past a step that succeeded, and has moved when the run goes
      on. What is sealed meanwhile shows that the ending stays what it was. */
  method AdvanceForetold(m: Machine, ghost faceless: bool) returns (s: Signal, ghost step: Signal)
    requires m.Valid() && m.Mem() && m.p == m.dur && !m.shared && m.dur.step < DONE
    requires Foretold(m, faceless) && (m.Quiet() ==> faceless == !m.Stable())
    modifies m`v, m`clock, m`trail, m`guests, m`dur, m`shared, m`p, m`shielded, m`cleared
    ensures m.Kept() && m.Mem() && m.p == m.dur && !m.shared && m.shielded == old(m.shielded)
    ensures m.dur.step == old(m.dur.step) || (step.Go? && m.dur.step == old(m.dur.step) + 1)
    ensures s.Go? ==> step.Go? && m.dur.step == old(m.dur.step) + 1
    ensures old(m.Quiet()) && old(m.trail.own) ==> (s.Go? || old(m.trail).fate == Stuck || old(m.trail).fate == Pinned)
    ensures old(m.Quiet()) && old(m.trail.own) && s.Go? ==>
      Ending(m.job, m.v, m.dur, old(m.Stable())) == old(Ending(m.job, m.v, m.dur, m.Stable()))
  {
    hide At, Judge, Faceless, GuestsHome, CalmFrom, Dated, Onward, Completed, Settled, Sealed, Ending, Leads, Steadfast, Advanced;
    Onwards(m.env, m.shielded);
    s := RunAllowed(m, faceless);
    step := s;
    if s.Died? {
      Reload(m);
    } else {
      ghost var v, r, t := m.v, Result(m), m.trail;
      var stored := Checkpoint(m, s.Go?);
      if s.Go? && stored.Go? && old(m.Quiet()) && old(m.trail.own) {
        EndingKept(m.job, old(m.v), old(m.dur), old(m.trail), v, r, t, Steadfast(m.env), old(m.Stable()));
      }
      if s.Go? || stored.Died? { s := stored; }
    }
  }

  ghost method Foresee(m: Machine) returns (faceless: bool)
    requires m.Valid() && m.Mem() && m.p == m.dur
    modifies m`trail
    ensures m.Valid() && m.Mem() && Foretold(m, faceless) && m.trail == old(m.trail).(fate := m.trail.fate)
    ensures (m.Quiet() ==> faceless == !m.Stable()) && (faceless ==> !m.Stable() && !Steadfast(m.env))
  {
    hide At, Judge, Faceless, GuestsHome, Dated, Steadfast, Sealed, CalmFrom;
    var steadfast := Steadfast(m.env);
    faceless := Faceless(m.env, m.clock);
    FacelessNow(m.env, m.clock);
    SteadfastNow(m.env, m.clock);
    if m.Quiet() { CalmLater(m.env, m.clock, m.clock, m.shielded); }
    if m.trail.own { Seal(m.job, m.v, m.dur, m.trail, steadfast, faceless); } else { Unsealed(m.job, m.v, m.dur, m.trail); }
    m.trail := m.trail.(fate := if m.trail.own then Settled(m.job, m.v, m.dur, steadfast, faceless) else Open);
  }

  ghost method Forget(m: Machine, stable: bool)
    requires m.Valid() && m.Mem() && m.p == m.dur
    modifies m`trail
    ensures m.Valid() && m.Mem() && m.trail == old(m.trail).(fate := Open)
    ensures m.trail.own && old(m.trail.fate == Stuck || (m.trail.fate == Pinned && !stable)) ==>
      Ending(m.job, m.v, m.dur, stable) == Stuck
    ensures m.trail.own && (old(m.trail.fate == Clear) || old(m.trail.fate == Placed)) ==> !Blocked(m.v, m.dur)
  {
    hide At, Judge, Faceless, GuestsHome, Dated;
    if m.trail.own { SealedMeans(m.job, m.v, m.dur, m.trail, stable); }
    Unsealed(m.job, m.v, m.dur, m.trail);
    m.trail := m.trail.(fate := Open);
  }

  /** While the original keeps its identity, no leftover partial comes to stand in a promotion's way. */
  twostate predicate Unblocked(m: Machine)
    reads m
  {
    m.trail.own && Steadfast(m.env) && Distinguishable(m.job) && !old(Blocked(m.v, m.dur)) ==> !Blocked(m.v, m.dur)
  }

  method Advance(m: Machine) returns (s: Signal, ghost step: Signal)
    requires m.Valid() && m.Mem() && m.p == m.dur && !m.shared && m.dur.step < DONE && m.trail.fate == Open
    modifies m`v, m`clock, m`trail, m`guests, m`dur, m`shared, m`p, m`shielded, m`cleared
    ensures m.Kept() && m.Mem() && m.p == m.dur && !m.shared && m.shielded == old(m.shielded)
    ensures m.dur.step == old(m.dur.step) || (step.Go? && m.dur.step == old(m.dur.step) + 1)
    ensures s.Go? ==> step.Go? && m.dur.step == old(m.dur.step) + 1
    ensures old(m.Quiet()) && old(m.trail.own) ==>
      && Ending(m.job, m.v, m.dur, old(m.Stable())) == old(Ending(m.job, m.v, m.dur, m.Stable()))
      && (s.Go? || Ending(m.job, m.v, m.dur, old(m.Stable())) == Stuck)
    ensures Unblocked(m)
  {
    hide At, Judge, Faceless, GuestsHome, CalmFrom, Dated, Onward, Sealed, Steadfast, Leads;
    Onwards(m.env, m.shielded);
    ghost var faceless := Foresee(m);
    if m.trail.own { SealedMeans(m.job, m.v, m.dur, m.trail, m.Stable()); }
    label foreseen:
    s, step := AdvanceForetold(m, faceless);
    ghost var after := m.Now();
    Forget(m, old(m.Stable()));
    Foreseen(m.env, m.shielded, old(m.Now()), after, old@foreseen(m.trail.fate));
  }

  /** The engine's execute: steps in order from the durable checkpoint until one stops. From any state this
      promotion's own steps, crashes and failures can leave, a run nobody disturbs ends with the candidate
      under its name, no separate original, and no recovery or temporary file, unless that state is doomed;
      and it ends at all unless that state stops it. */
  method Execute(m: Machine) returns (s: Signal)
    requires m.Valid() && m.Mem() && m.p == m.dur && !m.shared && m.trail.fate == Open
    modifies m`v, m`clock, m`trail, m`guests, m`dur, m`shared, m`p, m`shielded, m`cleared
    ensures m.Kept() && m.Mem() && m.p == m.dur && !m.shared && m.shielded == old(m.shielded)
    ensures old(m.dur.step) <= m.dur.step && (s.Go? ==> m.dur.step == DONE)
    ensures old(m.Quiet()) && old(m.trail.own) ==>
      && (s.Go? <==> !old(Stops(m.job, m.v, m.dur, m.Stable()))) && (s.Go? <==> m.dur.step == DONE)
      && (Replaced(m.job, m.v) <==> !old(Doomed(m.job, m.v, m.dur, m.Stable())))
    ensures Unblocked(m)
  {
    hide At, Judge, Faceless, GuestsHome, CalmFrom, Dated, Onward, Replaced, Steadfast, Ending;
    Onwards(m.env, m.shielded);
    GoodMeans(m.job, m.v, m.dur, m.trail);
    s := Go;
    while s.Go? && m.dur.step < DONE
      invariant m.Kept() && m.Mem() && m.p == m.dur && !m.shared && m.shielded == old(m.shielded)
      invariant old(m.dur.step) <= m.dur.step <= DONE
      invariant old(m.Quiet()) && old(m.trail.own) ==>
        && Ending(m.job, m.v, m.dur, old(m.Stable())) == old(Ending(m.job, m.v, m.dur, m.Stable()))
        && (s.Go? || Ending(m.job, m.v, m.dur, old(m.Stable())) == Stuck) && m.Stable() == old(m.Stable())
      invariant Unblocked(m)
      decreases DONE - m.dur.step, s.Go?
    {
      ghost var step;
      s, step := Advance(m);
    }
    if m.trail.own { EndingMeans(m.job, m.v, m.dur, m.trail, old(m.v), old(m.dur), old(m.Stable())); }
  }

  /** A restart: a new process, perhaps on a mount with a new device number, and only the stored record. */
  method Restart(m: Machine, dev: nat)
    requires m.Valid()
    modifies m`p, m`shared, m`shielded, m`process, m`dev
    ensures m.Valid() && m.Mem() && m.p == m.dur && !m.shared && !m.shielded
    ensures m.process == old(m.process) + 1
  {
    hide At, Judge, Faceless, GuestsHome;
    m.p, m.shared, m.shielded := m.dur, false, false;
    m.process, m.dev := m.process + 1, dev;
  }

  datatype Call = Run | PutOriginalBack | DiscardCopy | Reboot

  /** One thing that happens to a promotion, and the device number the next process would see. */
  datatype Turn = Turn(call: Call, dev: nat)

  /** Nobody used a recovery file. */
  predicate Unattended(turns: seq<Turn>) {
    forall t :: t in turns ==> t.call.Run? || t.call.Reboot?
  }

  /** Nothing at all may happen to a promotion that loses the original or a stranger's file. */
  method Live(m: Machine, turns: seq<Turn>)
    requires m.Valid() && m.Mem() && m.p == m.dur && !m.shared && !m.shielded && m.trail.fate == Open
    modifies m
    ensures m.env == old(m.env)
    ensures m.Survived() && m.Mem() && m.p == m.dur && !m.shared && !m.shielded
    ensures NoLoss(m.job, m.v, m.dur) && (m.dur.mode == MovingAside ==> FlagsAgree(m.job, m.v, m.dur))
    ensures forall q :: q in m.guests ==> Holds(m.v, q, m.guests[q])
    ensures Unattended(turns) ==> Unblocked(m) && (Untroubled(m.env) ==> m.trail.own == old(m.trail.own))
  {
    hide At, Judge, Faceless, GuestsHome, Dated, NoLoss, FlagsAgree, Steadfast, Untroubled;
    var i := 0;
    while i < |turns|
      invariant 0 <= i <= |turns| && m.env == old(m.env)
      invariant m.Survived() && m.Mem() && m.p == m.dur && !m.shared && !m.shielded
      invariant m.trail.own ==> old(m.trail.own)
      invariant Unattended(turns[..i]) ==> Unblocked(m) && (Untroubled(m.env) ==> m.trail.own == old(m.trail.own))
    {
      Take(m, turns[i]);
      assert turns[..i + 1] == turns[..i] + [turns[i]];
      i := i + 1;
    }
    assert turns[..i] == turns;
    GoodMeans(m.job, m.v, m.dur, m.trail);
    GuestsAreHome(m.job, m.v, m.guests);
  }

  lemma GuestsAreHome(j: Job, v: Volume, guests: map<Path, Bytes>)
    requires GuestsHome(j, v, guests)
    ensures forall q :: q in guests ==> Holds(v, q, guests[q])
  {
  }

  method Take(m: Machine, t: Turn)
    requires m.Valid() && m.Mem() && m.p == m.dur && !m.shared && !m.shielded && m.trail.fate == Open
    modifies m
    ensures m.env == old(m.env) && (m.trail.own ==> old(m.trail.own))
    ensures m.Survived() && m.Mem() && m.p == m.dur && !m.shared && !m.shielded
    ensures t.call.Run? || t.call.Reboot? ==> Unblocked(m) && (Untroubled(m.env) ==> m.trail.own == old(m.trail.own))
  {
    hide At, Judge, Faceless, GuestsHome, Dated, CalmFrom, Steadfast, Untroubled;
    var s := Died;
    match t.call {
      case Run => s := Execute(m);
      case PutOriginalBack => s := Restore(m);
      case DiscardCopy => s := DiscardDuplicate(m);
      case Reboot =>
    }
    if s.Died? { Restart(m, t.dev); } else { Reload(m); }
  }

  /** From an approved plan: crash, fail and restart however often, at whatever call, with nobody else on the
      disk. When the two files differ or have different names, and the original always kept its identity, nothing
      then dooms the promotion. */
  method Wander(job: Job, v: Volume, env: nat -> Event, truncates: bool, forcesCopy: bool, turns: seq<Turn>)
    returns (m: Machine)
    requires Planned(job, v) && Untroubled(env) && Unattended(turns)
    ensures fresh(m) && m.job == job && m.env == env
    ensures m.Valid() && m.Mem() && m.p == m.dur && !m.shared && !m.shielded && m.trail == Trail(true, Open)
    ensures Steadfast(env) && Distinguishable(job) ==> !Doomed(job, m.v, m.dur, m.Stable())
  {
    hide At, Judge, Faceless, GuestsHome, CalmFrom, Dated, NoLoss, FlagsAgree, Planned, Untroubled;
    m := new Machine(job, v, env, truncates, forcesCopy);
    Live(m, turns);
  }

  /** Then one run that nobody disturbs finishes exactly when the disk and record it starts from do not stop it,
      and ends on the replaced disk exactly when they are not doomed. */
  method Converge(m: Machine) returns (s: Signal)
    requires m.Valid() && m.Mem() && m.p == m.dur && !m.shared && !m.shielded && m.trail == Trail(true, Open)
    modifies m`v, m`clock, m`trail, m`guests, m`dur, m`shared, m`p, m`shielded, m`cleared
    ensures m.Valid()
    ensures CalmFrom(m.env, old(m.clock), false) ==>
      && (m.dur.step == DONE <==> !old(Stops(m.job, m.v, m.dur, m.Stable()))) && (s.Go? <==> m.dur.step == DONE)
      && (Replaced(m.job, m.v) <==> !old(Doomed(m.job, m.v, m.dur, m.Stable())))
  {
    hide At, Judge, Faceless, GuestsHome, CalmFrom, Dated, Replaced;
    s := Execute(m);
  }
}
