/**
 Removing the original and then its recovery (action/promote_filesystem.go, promote_original_truncate.go,
 promote_recovery_truncate.go).
 */
module Finishing {
  import opened Volumes
  import opened Protocol
  import opened Records
  import opened Machines
  import opened Recoveries
  import opened MovesAside
  import opened Publishing

  /** The original's bytes are provably safe in a different file, and so is the replacement. */
  predicate SafeElsewhere(j: Job, v: Volume, r: Record) {
    && r.mode == Copying && r.backupVerified && r.provedBefore
    && |j.original| > 0 && |j.candidate| > 0
    && Sized(v, Library, |j.original|) && Sized(v, Recovery, |j.original|) && Sized(v, j.final, |j.candidate|)
    && !SameFile(v, Library, Recovery) && !SameFile(v, Library, j.final)
  }

  lemma IntendedAlike(j: Job, r: Record, empty: bool)
    ensures forall v :: SafeElsewhere(j, v, RemovalIntended(r, empty)) == SafeElsewhere(j, v, r)
  {
  }

  predicate Sized(v: Volume, q: Path, n: nat) {
    At(v, q).Some? && |At(v, q).value.data| == n
  }

  /** originalEmptyBlocker, asked positively. */
  method MayEmpty(m: Machine) returns (s: Signal, may: bool)
    requires m.Valid() && m.Mem()
    modifies m`v, m`clock, m`trail, m`guests
    ensures m.Looked() && m.Mem() && (s.Go? || s.Died?)
    ensures may ==> m.p.mode == Copying && m.p.backupVerified && m.p.provedBefore && |m.job.original| > 0
    ensures may ==> !Absent(m.v, Recovery) && !SameFile(m.v, Library, Recovery) && !SameFile(m.v, Library, m.job.final)
    ensures old(m.Quiet()) ==> s.Go? && (may <==> SafeElsewhere(m.job, m.v, m.p))
  {
    hide At, Judge, Faceless, GuestsHome, CalmFrom, Dated, Onward;
    Onwards(m.env, m.shielded);
    may := m.p.mode == Copying && m.p.backupVerified && m.p.provedBefore;
    if !may || Absent(m.v, Library) || |At(m.v, Library).value.data| != |m.job.original| { return Go, false; }
    var copy, kept := m.Look(Recovery);
    if !copy.Go? || !kept { return if copy.Died? then Died else Go, false; }
    var placed, there := m.Look(m.job.final);
    if !placed.Go? || !there { return if placed.Died? then Died else Go, false; }
    may := && |m.job.original| > 0 && |At(m.v, Recovery).value.data| == |m.job.original|
           && |m.job.candidate| > 0 && |At(m.v, m.job.final).value.data| == |m.job.candidate|
           && !SameFile(m.v, Library, Recovery) && !SameFile(m.v, Library, m.job.final);
    return Go, may;
  }

  /** removeOriginal: emptied first when that was announced and is still allowed, then unlinked. */
  method EmptyAndUnlink(m: Machine, empty: bool) returns (s: Signal)
    requires m.Valid() && m.Mem() && m.p == m.dur && Removable(m.job, m.v, m.p) && m.p.deleteSent && m.cleared
    requires Holds(m.v, Library, m.job.original) || (!empty && Holds(m.v, Library, []))
    requires empty ==> m.p.originalEmptying && |m.job.original| > 0
    modifies m`v, m`clock, m`trail, m`guests
    ensures m.Kept() && m.Mem() && s.Plain()
    ensures Removable(m.job, m.v, m.p)
    ensures s.Go? ==> Absent(m.v, Library)
    ensures old(m.Quiet()) ==> s.Go?
    ensures s.Go? ==> var e := At(old(m.v), Library).value;
      Remains(m.v, e, e.data) || (empty && Remains(m.v, e, []))
    ensures old(m.Quiet()) ==> var e := At(old(m.v), Library).value;
      Remains(m.v, e, if empty && SafeElsewhere(m.job, old(m.v), m.p) && LastLink(old(m.v), Library) then [] else e.data)
  {
    hide At, Judge, Faceless, GuestsHome, CalmFrom, Dated, Onward, Removable, Failing, Visit;
    Onwards(m.env, m.shielded);
    RemovableMeans(m.job, m.v, m.p);
    if empty {
      var may;
      s, may := MayEmpty(m);
      if s.Go? && may { s := m.EmptyOriginal(); }
    } else {
      s := Go;
    }
    if s.Go? { s := m.UnlinkOriginal(); }
    RemovableStays(m.job, old(m.v), m.v, m.p);
  }

  /** The removal intent is durable before anything is emptied or unlinked. */
  method AnnounceRemoval(m: Machine, empty: bool) returns (s: Signal)
    requires m.Valid() && m.Mem() && Removable(m.job, m.v, m.p)
    modifies m`v, m`clock, m`trail, m`guests, m`dur, m`shared, m`p, m`cleared
    ensures m.Kept() && m.Mem() && m.Stored() && s.Plain() && Undisturbed(old(m.v), m.v)
    ensures Removable(m.job, m.v, m.p) && m.p.deleteSent && m.p.originalEmptying == (old(m.p).originalEmptying || empty)
    ensures s.Go? ==> m.p == m.dur
    ensures old(m.Quiet()) ==> s.Go?
    ensures !m.cleared
    ensures (old(m.Quiet()) ==> m.v == old(m.v)) && SafeElsewhere(m.job, m.v, m.p) == SafeElsewhere(m.job, m.v, old(m.p))
  {
    hide At, Judge, Faceless, GuestsHome, CalmFrom, Dated, Onward, Removable, RemovalIntended, SafeElsewhere;
    Onwards(m.env, m.shielded);
    IntendedAlike(m.job, m.p, empty);
    RemovalIntendedKeeps(m.job, m.v, m.p, m.trail, empty);
    m.p, m.cleared := RemovalIntended(m.p, empty), false;
    s := SaveAndProceed(m);
    RemovableStays(m.job, old(m.v), m.v, m.p);
  }

  /** A last full read and admission, then the removal. */
  method RemoveAnnounced(m: Machine, emptied: bool, empty: bool) returns (s: Signal)
    requires m.Valid() && m.Mem() && m.p == m.dur && Removable(m.job, m.v, m.p) && m.p.deleteSent
    requires emptied ==> !empty && Holds(m.v, Library, [])
    requires empty ==> m.p.originalEmptying && |m.job.original| > 0
    modifies m`v, m`clock, m`trail, m`guests, m`cleared
    ensures m.Kept() && m.Mem() && Removable(m.job, m.v, m.p)
    ensures s.Go? ==> Absent(m.v, Library)
    ensures old(m.Quiet()) && (emptied || Holds(old(m.v), Library, m.job.original)) ==> s.Go?
    ensures old(m.Quiet()) && old(Holds(m.v, Library, m.job.original)) && !emptied ==> var e := At(old(m.v), Library).value;
      Remains(m.v, e, if empty && SafeElsewhere(m.job, old(m.v), m.p) && LastLink(old(m.v), Library) then [] else e.data)
  {
    hide At, Judge, Faceless, GuestsHome, CalmFrom, Dated, Onward, Removable, SafeElsewhere, Sized, Remains;
    Onwards(m.env, m.shielded);
    s := Go;
    if !emptied { s := m.Read(Library, m.job.original); }
    if s.Go? { s := m.Admit(); }
    RemovableStays(m.job, old(m.v), m.v, m.p);
    if s.Go? { s := EmptyAndUnlink(m, empty); }
  }

  /** A removal that failed is still noted. */
  method RemoveAndNote(m: Machine, emptied: bool, empty: bool) returns (s: Signal)
    requires m.Valid() && m.Mem() && m.p == m.dur && Removable(m.job, m.v, m.p) && m.p.deleteSent
    requires emptied ==> !empty && Holds(m.v, Library, [])
    requires empty ==> m.p.originalEmptying && |m.job.original| > 0
    modifies m`v, m`clock, m`trail, m`guests, m`dur, m`shared, m`cleared
    ensures m.Kept() && m.Mem() && m.Stored()
    ensures s.Go? ==> Removable(m.job, m.v, m.p) && Absent(m.v, Library)
    ensures old(m.Quiet()) && (emptied || Holds(old(m.v), Library, m.job.original)) ==> s.Go?
    ensures old(m.Quiet()) && old(Holds(m.v, Library, m.job.original)) && !emptied ==> var e := At(old(m.v), Library).value;
      Remains(m.v, e, if empty && SafeElsewhere(m.job, old(m.v), m.p) && LastLink(old(m.v), Library) then [] else e.data)
  {
    hide At, Judge, Faceless, GuestsHome, CalmFrom, Dated, Onward, Removable, SafeElsewhere, Sized, Remains;
    Onwards(m.env, m.shielded);
    s := RemoveAnnounced(m, emptied, empty);
    if s.Err? {
      var died := NoteFailure(m);
      if died { s := Died; }
    }
  }

  /** planOriginalEmptying: with the setting on, a file that is not empty yet is emptied when that is provably safe. */
  method PlanEmptying(m: Machine) returns (s: Signal, empty: bool)
    requires m.Valid() && m.Mem() && !Absent(m.v, Library)
    modifies m`v, m`clock, m`trail, m`guests
    ensures m.Looked() && m.Mem() && (s.Go? || s.Died?)
    ensures empty ==> At(old(m.v), Library).value.data != [] && |m.job.original| > 0
    ensures old(m.Quiet()) ==> s.Go? && (empty <==> m.truncates && SafeElsewhere(m.job, m.v, m.p))
  {
    hide At, Judge, Faceless, GuestsHome, CalmFrom, Dated, Onward;
    Onwards(m.env, m.shielded);
    s, empty := Go, false;
    if m.truncates && |At(m.v, Library).value.data| > 0 { s, empty := MayEmpty(m); }
  }

  /** The copy-mode original is read in full, unless an earlier run already emptied it, and removed. */
  method RemovePresent(m: Machine) returns (s: Signal)
    requires m.Valid() && m.Mem() && Removable(m.job, m.v, m.p) && !Absent(m.v, Library)
    modifies m`v, m`clock, m`trail, m`guests, m`dur, m`shared, m`p, m`cleared
    ensures m.Kept() && m.Mem() && m.Stored()
    ensures s.Go? ==> Removable(m.job, m.v, m.p) && Absent(m.v, Library)
    ensures old(m.Quiet()) && (Holds(old(m.v), Library, m.job.original) || OriginalEmptied(m.job, old(m.v), old(m.p))) ==> s.Go?
    ensures s.Go? ==> m.p.deleteSent
    ensures !old(Holds(m.v, Library, m.job.original)) && !OriginalEmptied(m.job, old(m.v), old(m.p)) ==>
      !s.Go? && m.p == old(m.p)
    ensures old(m.Quiet()) && old(Holds(m.v, Library, m.job.original)) && !OriginalEmptied(m.job, old(m.v), old(m.p)) ==>
      var e := At(old(m.v), Library).value;
      Remains(m.v, e,
        if m.truncates && SafeElsewhere(m.job, old(m.v), old(m.p)) && LastLink(old(m.v), Library) then [] else e.data)
  {
    hide At, Judge, Faceless, GuestsHome, CalmFrom, Dated, Onward, Removable, SafeElsewhere, Sized, Remains;
    Onwards(m.env, m.shielded);
    var size := |At(m.v, Library).value.data|;
    var emptied := m.p.originalEmptying && |m.job.original| > 0 && size == 0;
    if !emptied { :- m.Read(Library, m.job.original); }
    var empty;
    s, empty := PlanEmptying(m);
    if !s.Go? { return; }
    RemovableStays(m.job, old(m.v), m.v, m.p);
    :- AnnounceRemoval(m, empty);
    s := RemoveAndNote(m, emptied, empty);
  }

  method RemoveInPlace(m: Machine) returns (s: Signal)
    requires m.Valid() && m.Mem() && Removable(m.job, m.v, m.p)
    modifies m`v, m`clock, m`trail, m`guests, m`dur, m`shared, m`p, m`cleared
    ensures m.Kept() && m.Mem() && m.Stored()
    ensures s.Go? ==> Removable(m.job, m.v, m.p) && (m.trail.own ==> Absent(m.v, Library))
    ensures old(m.Quiet()) && old(m.trail.own) && !NeedsCopy(old(m.p)) ==> s.Go?
    ensures s.Go? ==> m.p.deleteSent
    ensures old(m.Quiet()) && Absent(old(m.v), Library) && !old(m.p).deleteSent ==> s == Err(Stopped)
  {
    hide At, Judge, Faceless, GuestsHome, CalmFrom, Dated, Onward, Removable, NeedsCopy;
    Onwards(m.env, m.shielded);
    RemovableMeans(m.job, m.v, m.p);
    if m.trail.own && !NeedsCopy(m.p) { RemoveResumes(m.job, m.v, m.p, m.trail); }
    var home :- m.Look(Library);
    RemovableStays(m.job, old(m.v), m.v, m.p);
    if home {
      s := RemovePresent(m);
    } else {
      s := if m.p.deleteSent then Go else Err(Stopped);
    }
  }

  /** With the candidate under a new name, the original leaves its own: moved aside now, or removed once a
      verified copy is kept. */
  method Depart(m: Machine) returns (s: Signal)
    requires m.Valid() && m.Mem() && m.p == m.dur && m.p.step == REMOVE
    requires m.p.mode == Copying ==> m.p.backupVerified && Holds(m.v, Recovery, m.job.original)
    modifies m`v, m`clock, m`trail, m`guests, m`dur, m`shared, m`p, m`cleared
    ensures m.Kept() && m.Mem() && m.Stored()
    ensures s.Go? ==> Departed(m.job, m.v, m.p, m.trail)
    ensures old(m.Quiet()) && old(m.trail.own && !Barred(m.v, m.p, m.Stable())) ==> s.Go?
  {
    hide At, Judge, Faceless, GuestsHome, CalmFrom, Dated, Onward;
    Onwards(m.env, m.shielded);
    AtRemove(m.job, m.v, m.p, m.trail);
    if SameName(m.job) { return Go; }
    if m.p.mode == MovingAside {
      :- m.Admit();
      :- PreserveForRemoval(m);
      AtRemove(m.job, m.v, m.p, m.trail);
    }
    if m.p.mode == Copying {
      s := RemoveInPlace(m);
    } else {
      s := Go;
    }
  }

  /** Recovery and replacement are proved before the original goes. */
  method ProveReplaced(m: Machine) returns (s: Signal)
    requires m.Valid() && m.Mem() && m.p.step == REMOVE && !NeedsCopy(m.p)
    modifies m`v, m`clock, m`trail, m`guests
    ensures m.Looked() && m.Mem() && s.Plain()
    ensures s.Go? && m.p.mode == Copying ==> m.p.backupVerified && Holds(m.v, Recovery, m.job.original)
    ensures old(m.Quiet()) && old(m.trail.own) ==> s.Go?
  {
    hide At, Judge, Faceless, GuestsHome, CalmFrom, Dated, Onward, NeedsCopy, Recoverable;
    Onwards(m.env, m.shielded);
    AtRemove(m.job, m.v, m.p, m.trail);
    if m.trail.own { RemoveResumes(m.job, m.v, m.p, m.trail); }
    if !m.p.published { return Err(Stopped); }
    :- VerifyRecovered(m);
    s := InspectAdopted(m);
  }

  method RecordOldGone(m: Machine) returns (s: Signal)
    requires m.Valid() && m.Mem() && Departed(m.job, m.v, m.p, m.trail)
    modifies m`v, m`clock, m`trail, m`guests, m`dur, m`shared, m`p
    ensures m.Kept() && m.Mem() && m.Stored() && s.Plain()
    ensures s.Go? ==> m.p == m.dur && Completed(m.job, m.v, m.p)
    ensures old(m.Quiet()) ==> s.Go?
  {
    hide At, Judge, Faceless, GuestsHome, CalmFrom, Dated, Onward, OldGone, Completed;
    Onwards(m.env, m.shielded);
    AtRemove(m.job, m.v, m.p, m.trail);
    OldGoneKeeps(m.job, m.v, m.p, m.trail);
    m.p := OldGone(m.p);
    s := m.Save();
    CompletedStays(m.job, old(m.v), m.v, m.p);
  }

  method EnterRemoval(m: Machine) returns (s: Signal)
    requires m.Valid() && m.Mem() && m.p == m.dur
    modifies m`v, m`clock, m`trail, m`guests, m`dur, m`shared, m`p
    ensures m.Kept() && m.Mem() && m.Stored()
    ensures s.Go? ==> m.p == m.dur && !NeedsCopy(m.p)
    ensures old(m.Quiet()) && old(m.trail.own) ==> s.Go? && Outlook(m.job, old(m.v), old(m.p), m.v, m.p)
    ensures (old(m.TurnedAway()) ==> s.Err?) && (old(m.HeldUp()) ==> s.Wait?)
  {
    hide At, Judge, Faceless, GuestsHome, CalmFrom, Dated, Onward, NeedsCopy, Outlook;
    Onwards(m.env, m.shielded);
    s := m.Enter();
    if s.Go? { s := FinishFallback(m); }
  }

  method ProveKept(m: Machine) returns (s: Signal)
    requires m.Valid() && m.Mem() && m.p == m.dur && m.p.step == REMOVE
    modifies m`v, m`clock, m`trail, m`guests, m`dur, m`shared, m`p
    ensures m.Kept() && m.Mem() && m.Stored()
    ensures s.Go? ==> m.p == m.dur && (m.p.mode == Copying ==> m.p.backupVerified && Holds(m.v, Recovery, m.job.original))
    ensures old(m.Quiet()) && old(m.trail.own) ==> s.Go? && Outlook(m.job, old(m.v), old(m.p), m.v, m.p)
    ensures (old(m.TurnedAway()) ==> s.Err?) && (old(m.HeldUp()) ==> s.Wait?)
  {
    hide At, Judge, Faceless, GuestsHome, CalmFrom, Dated, Onward, NeedsCopy, Outlook;
    Onwards(m.env, m.shielded);
    s := EnterRemoval(m);
    if s.Go? { s := ProveReplaced(m); }
  }

  /** localPromotionRemoveOriginal. */
  method RemoveOriginal(m: Machine) returns (s: Signal)
    requires m.Valid() && m.Mem() && m.p == m.dur && m.p.step == REMOVE
    requires !m.cleared
    modifies m`v, m`clock, m`trail, m`guests, m`dur, m`shared, m`p, m`cleared
    ensures m.Kept() && m.Mem() && m.Stored()
    ensures s.Go? ==> m.p == m.dur && Completed(m.job, m.v, m.p)
    ensures old(m.Quiet()) && old(m.trail.own && !Barred(m.v, m.p, m.Stable())) ==> s.Go?
    ensures (old(m.TurnedAway()) ==> s.Err?) && (old(m.HeldUp()) ==> s.Wait?)
  {
    hide At, Judge, Faceless, GuestsHome, CalmFrom, Dated, Onward, Departed, Completed, Mistaken, Blocked, Unmoved;
    Onwards(m.env, m.shielded);
    s := ProveKept(m);
    if s.Go? { s := Depart(m); }
    if s.Go? { s := RecordOldGone(m); }
  }

  /** The candidate is under its name, and the original's other name is gone. */
  method ConfirmFinal(m: Machine) returns (s: Signal)
    requires m.Valid() && m.Mem() && VERIFY <= m.p.step < DONE
    modifies m`v, m`clock, m`trail, m`guests
    ensures m.Looked() && m.Mem()
    ensures s.Go? ==> m.p.oldRemoved && Holds(m.v, m.job.final, m.job.candidate) && (SameName(m.job) || Absent(m.v, Library))
    ensures old(m.Quiet()) && old(m.trail.own) ==> s.Go?
    ensures s.Plain()
  {
    hide At, Judge, Faceless, GuestsHome, CalmFrom, Dated, Onward;
    Onwards(m.env, m.shielded);
    ValidJobOf(m.job, m.v, m.p, m.trail);
    if m.trail.own { VerifyResumes(m.job, m.v, m.p, m.trail); }
    if !m.p.oldRemoved || !m.p.published { return Err(Stopped); }
    :- InspectAdopted(m);
    if !SameName(m.job) {
      var home :- m.Look(Library);
      if home { return Err(Stopped); }
    }
    return Go;
  }

  /** localPromotionVerifyFinal. */
  method VerifyFinal(m: Machine) returns (s: Signal)
    requires m.Valid() && m.Mem() && VERIFY <= m.p.step < DONE
    modifies m`v, m`clock, m`trail, m`guests
    ensures m.Looked() && m.Mem()
    ensures s.Go? ==> m.p.oldRemoved && Holds(m.v, m.job.final, m.job.candidate) && (SameName(m.job) || Absent(m.v, Library))
    ensures old(m.Quiet()) && old(m.trail.own) ==> s.Go?
    ensures (old(m.TurnedAway()) ==> s.Err?) && (old(m.HeldUp()) ==> s.Wait?)
  {
    hide At, Judge, Faceless, GuestsHome, CalmFrom, Dated, Onward;
    Onwards(m.env, m.shielded);
    :- m.Enter();
    s := ConfirmFinal(m);
  }

  /** The last pauses before a cleanup whose intent is saved. */
  method PassCleanup(m: Machine) returns (s: Signal)
    requires m.Valid() && m.Mem()
    requires !m.cleared
    modifies m`v, m`clock, m`trail, m`guests, m`dur, m`shared, m`cleared
    ensures m.Kept() && m.Mem() && m.Stored() && Undisturbed(old(m.v), m.v) && (m.trail.own ==> m.v == old(m.v))
    ensures s.Go? ==> m.p == m.dur && m.cleared
    ensures old(m.Quiet()) ==> s.Go?
  {
    hide At, Judge, Faceless, GuestsHome, CalmFrom, Dated, Onward;
    Onwards(m.env, m.shielded);
    s := m.Proceed();
    if s.Go? { s := m.Save(); }
    if s.Go? { s := m.Admit(); }
  }

  /** The intent to clean up, and to empty the recovery file first, is durable before either happens. */
  method AnnounceCleanup(m: Machine, empty: bool) returns (s: Signal)
    requires m.Valid() && m.Mem() && Finished(m.job, m.v, m.p, m.trail)
    modifies m`v, m`clock, m`trail, m`guests, m`dur, m`shared, m`p, m`cleared
    ensures m.Kept() && m.Mem() && m.Stored() && Undisturbed(old(m.v), m.v) && (m.trail.own ==> m.v == old(m.v))
    ensures m.p.cleanupStarted && m.p.recoveryEmptying == (old(m.p).recoveryEmptying || empty)
    ensures s.Go? ==> m.p == m.dur && m.cleared
    ensures old(m.Quiet()) ==> s.Go?
  {
    hide At, Judge, Faceless, GuestsHome, CalmFrom, Dated, Onward, Finished, CleanupIntended;
    Onwards(m.env, m.shielded);
    CleanupIntendedKeeps(m.job, m.v, m.p, m.trail, empty);
    m.p, m.cleared := CleanupIntended(m.p, empty), false;
    s := m.Save();
    if s.Go? { s := PassCleanup(m); }
  }

  /** removeRecoveryFile on the recovery path. */
  method RemoveRecoveryFile(m: Machine) returns (s: Signal)
    requires m.Valid() && m.Mem() && m.p == m.dur && m.p.cleanupStarted && !Absent(m.v, Recovery) && m.cleared
    requires m.trail.own && m.truncates && At(m.v, Recovery).value.data != [] ==>
      m.p.recoveryEmptying && |m.job.original| > 0
    modifies m`v, m`clock, m`trail, m`guests
    ensures m.Kept() && m.Mem() && s.Plain()
    ensures s.Go? ==> Absent(m.v, Recovery)
    ensures old(m.Quiet()) ==> s.Go?
    ensures old(m.Quiet()) ==> var e := At(old(m.v), Recovery).value;
      Remains(m.v, e, if m.truncates && LastLink(old(m.v), Recovery) then [] else e.data)
  {
    hide At, Judge, Faceless, GuestsHome, CalmFrom, Dated, Onward, Failing, Visit;
    Onwards(m.env, m.shielded);
    s := Go;
    if m.truncates && At(m.v, Recovery).value.data != [] { s := m.EmptyRecovery(); }
    if s.Go? { s := m.UnlinkRecovery(); }
  }

  /** The verified recovery file goes under the saved intent; one an earlier run emptied needs no proof. */
  method RemoveKept(m: Machine) returns (s: Signal)
    requires m.Valid() && m.Mem() && m.p.step == FINALIZE && !Absent(m.v, Recovery)
    modifies m`v, m`clock, m`trail, m`guests, m`dur, m`shared, m`p, m`cleared
    ensures m.Kept() && m.Mem() && m.Stored()
    ensures s.Go? ==> m.p.cleanupStarted && Absent(m.v, Recovery)
    ensures old(m.Quiet()) && old(m.trail.own && !Stops(m.job, m.v, m.p, true)) ==> s.Go?
    ensures old(m.p.mode != MovingAside || m.p.movedAside) ==>
      !old(Holds(m.v, Recovery, m.job.original)) && !RecoveryEmptied(m.job, old(m.v), old(m.p)) ==>
      !s.Go? && m.p == old(m.p)
  {
    hide At, Judge, Faceless, GuestsHome, CalmFrom, Dated, Onward, Finished, Recoverable, Stops;
    Onwards(m.env, m.shielded);
    if m.trail.own { FinalizeResumes(m.job, m.v, m.p, m.trail); }
    var empty := m.truncates && At(m.v, Recovery).value.data != [];
    if !(m.p.recoveryEmptying && |m.job.original| > 0 && At(m.v, Recovery).value.data == []) {
      :- VerifyRecovered(m);
    }
    Finishable(m.job, m.v, m.p, m.trail);
    :- AnnounceCleanup(m, empty);
    s := RemoveRecoveryFile(m);
    if s.Err? {
      var died := NoteFailure(m);
      if died { s := Died; }
    }
  }

  method CleanRecovery(m: Machine) returns (s: Signal)
    requires m.Valid() && m.Mem() && m.p.step == FINALIZE
    modifies m`v, m`clock, m`trail, m`guests, m`dur, m`shared, m`p, m`cleared
    ensures m.Kept() && m.Mem() && m.Stored()
    ensures s.Go? ==> m.p.cleanupStarted && Absent(m.v, Recovery)
    ensures old(m.Quiet()) && old(m.trail.own && !Stops(m.job, m.v, m.p, true)) ==> s.Go?
    ensures old(m.Quiet()) && Absent(old(m.v), Recovery) && !old(m.p).cleanupStarted ==> s == Err(Stopped)
  {
    hide At, Judge, Faceless, GuestsHome, CalmFrom, Dated, Onward, Stops;
    Onwards(m.env, m.shielded);
    if m.trail.own { FinalizeResumes(m.job, m.v, m.p, m.trail); }
    var kept :- m.Look(Recovery);
    if kept {
      s := RemoveKept(m);
    } else {
      s := if m.p.cleanupStarted then Go else Err(Stopped);
    }
  }

  method RecordCleanedUp(m: Machine) returns (s: Signal)
    requires m.Valid() && m.Mem() && m.p.step == FINALIZE && m.p.cleanupStarted && Absent(m.v, Recovery)
    modifies m`v, m`clock, m`trail, m`guests, m`dur, m`shared, m`p
    ensures m.Kept() && m.Mem() && m.Stored()
    ensures s.Go? ==> m.p == m.dur && Completed(m.job, m.v, m.p)
    ensures old(m.Quiet()) ==> s.Go?
  {
    hide At, Judge, Faceless, GuestsHome, CalmFrom, Dated, Onward, CleanedUp, Completed;
    Onwards(m.env, m.shielded);
    ValidJobOf(m.job, m.v, m.p, m.trail);
    CleanedUpKeeps(m.job, m.v, m.p, m.trail);
    m.p := CleanedUp(m.p);
    s := m.Save();
    CompletedStays(m.job, old(m.v), m.v, m.p);
  }

  method CleanUp(m: Machine) returns (s: Signal)
    requires m.Valid() && m.Mem() && m.p.step == FINALIZE
    modifies m`v, m`clock, m`trail, m`guests, m`dur, m`shared, m`p, m`cleared
    ensures m.Kept() && m.Mem() && m.Stored()
    ensures s.Go? ==> m.p == m.dur && Completed(m.job, m.v, m.p)
    ensures old(m.Quiet()) && old(m.trail.own && !Stops(m.job, m.v, m.p, true)) ==> s.Go?
  {
    hide At, Judge, Faceless, GuestsHome, CalmFrom, Dated, Onward, Completed, Stops;
    Onwards(m.env, m.shielded);
    s := CleanRecovery(m);
    if s.Go? { s := RecordCleanedUp(m); }
  }

  /** A whole partial of an earlier attempt goes first. */
  method ClearPartial(m: Machine) returns (s: Signal)
    requires m.Valid() && m.Mem() && m.p == m.dur && m.p.step == FINALIZE
    modifies m`v, m`clock, m`trail, m`guests, m`dur, m`shared
    ensures m.Kept() && m.Mem() && m.Stored()
    ensures old(m.Quiet()) && old(Absent(m.v, Partial)) ==> s.Go? && m.v == old(m.v)
    ensures s.Go? ==> Absent(m.v, Partial)
  {
    hide At, Judge, Faceless, GuestsHome, CalmFrom, Dated, Onward;
    Onwards(m.env, m.shielded);
    s := m.Enter();
    if s.Go? { s := RemovePartial(m); }
  }

  method ClearAndCleanUp(m: Machine) returns (s: Signal)
    requires m.Valid() && m.Mem() && m.p == m.dur && m.p.step == FINALIZE
    modifies m`v, m`clock, m`trail, m`guests, m`dur, m`shared, m`p, m`cleared
    ensures m.Kept() && m.Mem() && m.Stored()
    ensures s.Go? ==> m.p == m.dur && Completed(m.job, m.v, m.p)
    ensures old(m.Quiet()) && old(m.trail.own && !Stops(m.job, m.v, m.p, true)) ==> s.Go?
  {
    hide At, Judge, Faceless, GuestsHome, CalmFrom, Dated, Onward, Completed, Stops;
    Onwards(m.env, m.shielded);
    if m.trail.own && !Stops(m.job, m.v, m.p, true) { FinalizeClear(m.job, m.v, m.p, m.trail); }
    s := ClearPartial(m);
    if s.Go? { s := CleanUp(m); }
  }

  /** localPromotionFinalize. */
  method Finalize(m: Machine) returns (s: Signal)
    requires m.Valid() && m.Mem() && m.p == m.dur && m.p.step == FINALIZE
    requires !m.cleared
    modifies m`v, m`clock, m`trail, m`guests, m`dur, m`shared, m`p, m`cleared
    ensures m.Kept() && m.Mem() && m.Stored()
    ensures s.Go? ==> m.p == m.dur && Completed(m.job, m.v, m.p)
    ensures old(m.Quiet()) && old(m.trail.own && !Stops(m.job, m.v, m.p, true)) ==> s.Go?
    ensures (old(m.TurnedAway()) ==> s.Err?) && (old(m.HeldUp()) ==> s.Wait?)
  {
    hide At, Judge, Faceless, GuestsHome, CalmFrom, Dated, Onward, Completed, Stops;
    Onwards(m.env, m.shielded);
    s := VerifyFinal(m);
    if s.Go? { s := ClearAndCleanUp(m); }
  }
}
