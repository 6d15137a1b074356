/**
 What a user may do with a recovery file: put a moved-aside original back (action/backup_restore.go),
 discard a duplicate copy (action/backup_duplicate.go), or give up the recovery (action/backup_discard.go).
 */
module Backups {
  import opened Volumes
  import opened Protocol
  import opened Records
  import opened Machines
  import opened Recoveries
  import opened MovesAside

  /** The only states promotionRestorableOriginal lets RestoreTranscodeBackup act on. */
  predicate Restorable(j: Job, v: Volume, r: Record) {
    && SameName(j) && r.mode == MovingAside && r.recoveryNamed && (r.movedAside || r.asideStarted || r.backStarted)
    && if Absent(v, Library) then !Absent(v, Recovery) else r.backStarted && Absent(v, Recovery)
  }

  /** promotionRestorableOriginal. */
  method CheckRestorable(m: Machine) returns (s: Signal)
    requires m.Valid() && m.Mem()
    modifies m`v, m`clock, m`trail, m`guests
    ensures m.Looked() && m.Mem() && s.Plain()
    ensures s.Go? ==> SameName(m.job) && m.p.mode == MovingAside && (m.p.movedAside || m.p.asideStarted || m.p.backStarted)
    ensures old(m.Quiet()) ==> (s.Go? <==> Restorable(m.job, m.v, m.p))
  {
    hide At, Judge, Faceless, GuestsHome, CalmFrom, Dated, Onward;
    Onwards(m.env, m.shielded);
    if !SameName(m.job) || m.p.mode != MovingAside || !m.p.recoveryNamed { return Err(Stopped); }
    if !m.p.movedAside && !m.p.asideStarted && !m.p.backStarted { return Err(Stopped); }
    var home :- m.Look(Library);
    var kept :- m.Look(Recovery);
    if home && !kept && m.p.backStarted { return Go; }
    return if home || !kept then Err(Stopped) else Go;
  }

  /** RestoreTranscodeBackup: nothing at the library path is ever overwritten, and success means the
      original is back, the recovery path is empty and every intent is cleared. Undisturbed, it succeeds on
      exactly the states it accepts. */
  method Restore(m: Machine) returns (s: Signal)
    requires m.Valid() && m.Mem() && m.p == m.dur
    modifies m`v, m`clock, m`trail, m`guests, m`dur, m`shared, m`p, m`shielded
    ensures m.Kept() && m.Mem() && m.Stored() && Untouched(old(m.v), m.v) && m.shielded == old(m.shielded)
    ensures s.Go? ==> m.p == m.dur && BackHome(m.job, m.v, m.dur)
    ensures old(m.Quiet()) ==> (s.Go? <==> Restorable(m.job, old(m.v), old(m.p)))
  {
    hide At, Judge, Faceless, GuestsHome, CalmFrom, Dated, Onward, BackHome, Restorable;
    Onwards(m.env, m.shielded);
    :- CheckRestorable(m);
    s := PutBack(m);
  }

  method BringBack(m: Machine) returns (s: Signal)
    requires m.Valid() && m.Mem() && m.p == m.dur && SameName(m.job)
    requires m.p.mode == MovingAside && (m.p.asideStarted || BackHome(m.job, m.v, m.p))
    modifies m`v, m`clock, m`trail, m`guests, m`dur, m`shared, m`p, m`shielded
    ensures m.Kept() && m.Mem() && m.Stored() && Untouched(old(m.v), m.v) && m.shielded == old(m.shielded)
    ensures s.Go? ==> m.p == m.dur && BackHome(m.job, m.v, m.dur)
    ensures old(m.Quiet()) && (old(m.p).asideStarted ==> Absent(old(m.v), Library)) ==> s.Go?
  {
    hide At, Judge, Faceless, GuestsHome, CalmFrom, Dated, Onward, BackHome;
    Onwards(m.env, m.shielded);
    if m.p.asideStarted {
      if m.Quiet() { CalmLater(m.env, m.clock, m.clock, m.shielded); }
      :- MoveBack(m);
    }
    s := SaveRestored(m);
  }

  /** A move back already under way is finished or forgotten first. */
  method PutBack(m: Machine) returns (s: Signal)
    requires m.Valid() && m.Mem() && m.p == m.dur && SameName(m.job)
    requires m.p.mode == MovingAside && (m.p.movedAside || m.p.asideStarted || m.p.backStarted)
    modifies m`v, m`clock, m`trail, m`guests, m`dur, m`shared, m`p, m`shielded
    ensures m.Kept() && m.Mem() && m.Stored() && Untouched(old(m.v), m.v) && m.shielded == old(m.shielded)
    ensures s.Go? ==> m.p == m.dur && BackHome(m.job, m.v, m.dur)
    ensures old(m.Quiet()) && Restorable(m.job, old(m.v), old(m.p)) ==> s.Go?
  {
    hide At, Judge, Faceless, GuestsHome, CalmFrom, Dated, Onward, BackHome;
    Onwards(m.env, m.shielded);
    AsideMarked(m.job, m.v, m.p, m.trail);
    s := ResumeMoveBack(m);
    if s.Go? { s := BringBack(m); }
  }

  /** The user's choice is recorded with the restored record. */
  method SaveRestored(m: Machine) returns (s: Signal)
    requires m.Valid() && m.Mem() && BackHome(m.job, m.v, m.p)
    modifies m`v, m`clock, m`trail, m`guests, m`dur, m`shared
    ensures m.Kept() && m.Mem() && m.Stored() && Untouched(old(m.v), m.v) && s.Plain()
    ensures s.Go? ==> m.p == m.dur
    ensures BackHome(m.job, m.v, m.p)
    ensures old(m.Quiet()) ==> s.Go?
  {
    hide At, Judge, Faceless, GuestsHome, CalmFrom, Dated, Onward, BackHome;
    Onwards(m.env, m.shielded);
    s := m.Save();
    BackHomeStays(m.job, old(m.v), m.v, m.p);
  }

  /** The original in its place, and the same bytes, whole or emptied by an earlier discard, at the recovery path. */
  predicate TwoCopies(j: Job, v: Volume, r: Record) {
    Duplicated(r) && Holds(v, Library, j.original) && (Holds(v, Recovery, j.original) || RecoveryEmptied(j, v, r))
  }

  /** The recovery file is read in full, unless an earlier discard emptied it. */
  method CheckCopy(m: Machine) returns (s: Signal)
    requires m.Valid() && m.Mem()
    modifies m`v, m`clock, m`trail, m`guests
    ensures m.Looked() && m.Mem() && s.Plain()
    ensures s.Go? ==> Holds(m.v, Recovery, m.job.original) || RecoveryEmptied(m.job, m.v, m.p)
    ensures old(m.Quiet()) ==> (s.Go? <==> Holds(m.v, Recovery, m.job.original) || RecoveryEmptied(m.job, m.v, m.p))
  {
    hide At, Judge, Faceless, GuestsHome, CalmFrom, Dated, Onward;
    Onwards(m.env, m.shielded);
    var kept :- m.Look(Recovery);
    if !kept { return Err(NotExist); }
    if m.p.recoveryEmptying && |m.job.original| > 0 && At(m.v, Recovery).value.data == [] { return Go; }
    s := m.Read(Recovery, m.job.original);
  }

  /** Then the original in its place. */
  method ReadBoth(m: Machine) returns (s: Signal)
    requires m.Valid() && m.Mem()
    modifies m`v, m`clock, m`trail, m`guests
    ensures m.Looked() && m.Mem() && s.Plain()
    ensures s.Go? ==> Holds(m.v, Library, m.job.original) && !Absent(m.v, Recovery)
    ensures s.Go? ==> Holds(m.v, Recovery, m.job.original) || RecoveryEmptied(m.job, m.v, m.p)
    ensures old(m.Quiet()) ==> (s.Go? <==>
      Holds(m.v, Library, m.job.original) && (Holds(m.v, Recovery, m.job.original) || RecoveryEmptied(m.job, m.v, m.p)))
  {
    hide At, Judge, Faceless, GuestsHome, CalmFrom, Dated, Onward;
    Onwards(m.env, m.shielded);
    :- CheckCopy(m);
    :- m.Proceed();
    :- m.Read(Library, m.job.original);
    s := m.Proceed();
  }

  /** duplicateBackupGuard and the full reads that follow it: both files hold the original. */
  method CheckDuplicate(m: Machine) returns (s: Signal)
    requires m.Valid() && m.Mem()
    modifies m`v, m`clock, m`trail, m`guests
    ensures m.Looked() && m.Mem() && s.Plain()
    ensures s.Go? ==> Duplicated(m.p) && Holds(m.v, Library, m.job.original) && !Absent(m.v, Recovery)
    ensures s.Go? ==> Holds(m.v, Recovery, m.job.original) || RecoveryEmptied(m.job, m.v, m.p)
    ensures old(m.Quiet()) ==> (s.Go? <==> TwoCopies(m.job, m.v, m.p))
  {
    hide At, Judge, Faceless, GuestsHome, CalmFrom, Dated, Onward, Duplicated, RecoveryEmptied;
    Onwards(m.env, m.shielded);
    if !Duplicated(m.p) { return Err(Stopped); }
    var home :- m.Look(Library);
    if !home || |At(m.v, Library).value.data| != |m.job.original| { return Err(Stopped); }
    s := ReadBoth(m);
  }

  /** removeRecoveryFile, for a recovery file the original in its place duplicates. */
  method RemoveDuplicate(m: Machine) returns (s: Signal)
    requires m.Valid() && m.Mem() && m.p == m.dur && !m.trail.own && Duplicated(m.p)
    requires Holds(m.v, Library, m.job.original) && !Absent(m.v, Recovery)
    modifies m`v, m`clock, m`trail, m`guests
    ensures m.Kept() && m.Mem() && m.FilesKept() && s.Plain()
    ensures s.Go? ==> Absent(m.v, Recovery)
    ensures old(m.Quiet()) ==> s.Go?
    ensures old(m.Quiet()) ==> var e := At(old(m.v), Recovery).value;
      Remains(m.v, e, if m.truncates && LastLink(old(m.v), Recovery) then [] else e.data)
    ensures At(m.v, Partial) == At(old(m.v), Partial)
  {
    hide At, Judge, Faceless, GuestsHome, CalmFrom, Dated, Onward, Duplicated, Failing, Visit;
    Onwards(m.env, m.shielded);
    DuplicatedMeans(m.p);
    s := Go;
    if m.truncates && At(m.v, Recovery).value.data != [] { s := m.EmptyRecovery(); }
    if s.Go? { s := m.UnlinkRecovery(); }
  }

  /** A leftover partial goes first, then the copy. */
  method RemoveBoth(m: Machine) returns (s: Signal)
    requires m.Valid() && m.Mem() && m.p == m.dur && !m.trail.own && Duplicated(m.p)
    requires Holds(m.v, Library, m.job.original) && !Absent(m.v, Recovery)
    modifies m`v, m`clock, m`trail, m`guests
    ensures m.Kept() && m.Mem() && m.FilesKept() && s.Plain()
    ensures s.Go? ==> Absent(m.v, Recovery)
    ensures old(m.Quiet()) ==> s.Go?
    ensures s.Go? ==> Absent(m.v, Partial)
  {
    hide At, Judge, Faceless, GuestsHome, CalmFrom, Dated, Onward, Duplicated;
    Onwards(m.env, m.shielded);
    DuplicatedClears(m.job, m.v, m.p, m.trail);
    s := Go;
    if !Absent(m.v, Partial) { s := DiscardPartial(m); }
    if s.Go? { s := RemoveDuplicate(m); }
  }

  /** The intent to empty the copy is durable before it is emptied. */
  method AnnounceDiscard(m: Machine) returns (s: Signal)
    requires m.Valid() && m.Mem() && m.p == m.dur && !m.trail.own && Duplicated(m.p) && !Absent(m.v, Recovery)
    modifies m`v, m`clock, m`trail, m`guests, m`dur, m`shared, m`p
    ensures m.Kept() && m.Mem() && m.Stored() && Undisturbed(old(m.v), m.v) && s.Plain()
    ensures Duplicated(m.p) && (s.Go? ==> m.p == m.dur)
    ensures old(m.Quiet()) ==> s.Go?
    ensures m.p == EmptyingPlanned(old(m.p), m.truncates && At(old(m.v), Recovery).value.data != [])
  {
    hide At, Judge, Faceless, GuestsHome, CalmFrom, Dated, Onward, Duplicated, EmptyingPlanned;
    Onwards(m.env, m.shielded);
    var empty := m.truncates && At(m.v, Recovery).value.data != [];
    NothingPlanned(m.p);
    if !empty && !m.p.recoveryEmptying { return Go; }
    EmptyingPlannedKeeps(m.job, m.v, m.p, m.trail, empty);
    m.p := EmptyingPlanned(m.p, empty);
    s := m.Save();
  }

  method RecordDiscard(m: Machine) returns (s: Signal)
    requires m.Valid() && m.Mem() && !m.trail.own && Duplicated(m.p) && Absent(m.v, Recovery)
    modifies m`v, m`clock, m`trail, m`guests, m`dur, m`shared, m`p
    ensures m.Kept() && m.Mem() && m.Stored() && m.FilesKept()
    ensures s.Go? ==> m.p == m.dur && Absent(m.v, Recovery) && !m.p.backupVerified
    ensures old(m.Quiet()) ==> s.Go?
  {
    hide At, Judge, Faceless, GuestsHome, CalmFrom, Dated, Onward, Duplicated, Discarded;
    Onwards(m.env, m.shielded);
    DiscardedKeeps(m.job, m.v, m.p, m.trail);
    m.p := Discarded(m.p);
    s := m.Save();
  }

  /** Both copies proved, the one in the private directory goes. */
  method DiscardProved(m: Machine) returns (s: Signal)
    requires m.Valid() && m.Mem() && m.p == m.dur && !m.trail.own && Duplicated(m.p)
    requires Holds(m.v, Library, m.job.original) && !Absent(m.v, Recovery)
    modifies m`v, m`clock, m`trail, m`guests, m`dur, m`shared, m`p
    ensures m.Kept() && m.Mem() && m.Stored() && m.FilesKept()
    ensures s.Go? ==> m.p == m.dur && Absent(m.v, Recovery) && !m.p.backupVerified
    ensures old(m.Quiet()) ==> s.Go?
  {
    hide At, Judge, Faceless, GuestsHome, CalmFrom, Dated, Onward, Duplicated, Discarded, EmptyingPlanned;
    Onwards(m.env, m.shielded);
    :- AnnounceDiscard(m);
    s := RemoveBoth(m);
    if s.Go? {
      s := RecordDiscard(m);
    } else if s.Err? {
      var died := NoteFailure(m);
      if died { s := Died; }
    }
  }

  /** DiscardDuplicateTranscodeBackup: the copy is touched only once both it and the original in its place
      were read in full, and the original is still in its place whatever happens. */
  method DiscardDuplicate(m: Machine) returns (s: Signal)
    requires m.Valid() && m.Mem() && m.p == m.dur
    modifies m`v, m`clock, m`trail, m`guests, m`dur, m`shared, m`p
    ensures m.Survived() && m.Mem() && m.Stored()
    ensures s.Go? ==> m.p == m.dur && Absent(m.v, Recovery) && !m.p.backupVerified && Holds(m.v, Library, m.job.original)
    ensures At(m.v, Recovery) != At(old(m.v), Recovery) ==>
      Duplicated(old(m.dur)) && Holds(m.v, Library, m.job.original)
    ensures old(m.Quiet()) ==> (s.Go? <==> TwoCopies(m.job, old(m.v), old(m.p)))
  {
    hide At, Judge, Faceless, GuestsHome, CalmFrom, Dated, Duplicated, TwoCopies;
    :- CheckDuplicate(m);
    m.Taint();
    s := DiscardProved(m);
  }

  // ---- Giving up the recovery ----

  /** A file of the candidate's size; of any size when that is not known to be more than nothing. */
  predicate Passes(j: Job, v: Volume, q: Path) {
    !Absent(v, q) && (|j.candidate| == 0 || |At(v, q).value.data| == |j.candidate|)
  }

  /** promotionRecoveryIsOnlyOriginal, which refuses a discard. */
  predicate OnlyOriginal(j: Job, v: Volume, r: Record) {
    (r.movedAside || r.asideStarted || r.backStarted) && !Passes(j, v, Library) && !Passes(j, v, j.final)
  }

  function Without(v: Volume, q: Path): (r: Volume)
    ensures forall a :: a != q ==> At(r, a) == At(v, a)
  {
    if Absent(v, q) then v else Unlink(v, q)
  }

  /** DiscardTranscodeBackup: the partial and the recovery file are gone. */
  function GivenUp(v: Volume): (r: Volume)
    ensures At(r, Library) == At(v, Library) && At(r, Final) == At(v, Final)
  {
    Without(Without(v, Partial), Recovery)
  }

  /** While nobody else touched the disk, a discard that is not refused leaves the original in its place, or the
      candidate that replaced it. */
  lemma DiscardLeaves(j: Job, v: Volume, r: Record, t: Trail)
    requires Good(j, v, r, t) && t.own && !OnlyOriginal(j, v, r)
    ensures Holds(GivenUp(v), Library, j.original) || Holds(GivenUp(v), j.final, j.candidate)
  {
    hide Without, GivenUp;
  }
}
