/**
 Moving the verified original aside and back (action/promote_move_aside.go).
 */
module MovesAside {
  import opened Volumes
  import opened Protocol
  import opened Records
  import opened Machines
  import opened Recoveries

  /** promotionResumeFallbackCopy: make, or finish, the copy a refused move aside switched to. */
  method ResumeFallbackCopy(m: Machine) returns (s: Signal)
    requires m.Valid() && m.Mem() && m.p == m.dur
    modifies m`v, m`clock, m`trail, m`guests, m`dur, m`shared, m`p
    ensures m.Kept() && m.Mem() && m.Stored() && m.FilesKept() && SameButCopy(old(m.p), m.p)
    ensures s.Go? ==> m.p == m.dur && !NeedsCopy(m.p)
    ensures s.Go? && NeedsCopy(old(m.p)) ==>
      m.p.backupVerified && Holds(m.v, Recovery, m.job.original) && Holds(m.v, Library, m.job.original)
    ensures s.Plain()
    ensures old(m.Quiet()) && old(m.trail.own) ==> s.Go?
    ensures !NeedsCopy(old(m.p)) ==> s.Go? && m.v == old(m.v) && m.p == old(m.p)
    ensures m.p.publishStarted == old(m.p).publishStarted && Stands(old(m.p), m.p)
  {
    hide At, Judge, Faceless, GuestsHome, CalmFrom, Dated, Onward, SameButCopy;
    Onwards(m.env, m.shielded);
    SameButCopyAtAll(m.p);
    if !NeedsCopy(m.p) { return Go; }
    NeedsCopyMeans(m.job, m.v, m.p, m.trail);
    :- m.Read(Library, m.job.original);
    s := MakeRecoveryCopy(m);
    SameButCopyMeans(old(m.p), m.p);
  }

  /** The file at the recovery path is the original that was moved there: record it. */
  method ConfirmMoved(m: Machine) returns (s: Signal)
    requires m.Valid() && m.Mem() && Leaving(m.job, m.v, m.p)
    requires m.p.mode == MovingAside && m.p.asideStarted && Aside(m.job, m.v, m.p)
    modifies m`v, m`clock, m`trail, m`guests, m`dur, m`shared, m`p
    ensures m.Kept() && m.Mem() && m.Stored() && !s.Wait?
    ensures s.Go? ==> m.p == m.dur && m.p.mode == MovingAside && Leaving(m.job, m.v, m.p) && Safe(m.job, m.v, m.p)
    ensures s.Go? || s.Died? || s == Err(Stopped)
    ensures old(m.Quiet()) ==> s.Go?
  {
    hide At, Judge, Faceless, GuestsHome, CalmFrom, Onward, Leaving;
    Onwards(m.env, m.shielded);
    var there :- m.Look(Recovery);
    AsideStays(m.job, old(m.v), m.v, m.p);
    LeavingStays(m.job, old(m.v), m.v, m.p);
    if !there || !m.SameAfterRead(Recovery, m.p.originalPrint) { return Err(Stopped); }
    s := RecordMoved(m);
  }

  /** And saved as moved, with the identity it has there. */
  method RecordMoved(m: Machine) returns (s: Signal)
    requires m.Valid() && m.Mem() && Leaving(m.job, m.v, m.p)
    requires m.p.mode == MovingAside && m.p.asideStarted && Aside(m.job, m.v, m.p)
    modifies m`v, m`clock, m`trail, m`guests, m`dur, m`shared, m`p
    ensures m.Kept() && m.Mem() && m.Stored()
    ensures s.Go? ==> m.p == m.dur && m.p.mode == MovingAside && Leaving(m.job, m.v, m.p) && Safe(m.job, m.v, m.p)
    ensures s.Go? || s.Died? || s == Err(Stopped)
    ensures old(m.Quiet()) ==> s.Go?
  {
    hide At, Judge, Faceless, GuestsHome, CalmFrom, Onward, Moved, Leaving;
    Onwards(m.env, m.shielded);
    var stat := m.PrintOf(Recovery);
    MovedKeeps(m.job, m.v, m.p, m.trail, stat);
    m.p := Moved(m.p, stat);
    s := m.Save();
    LeavingStays(m.job, old(m.v), m.v, m.p);
  }

  /** A refused rename moved nothing: prove it before the caller copies instead. */
  method ConfirmRefused(m: Machine) returns (s: Signal)
    requires m.Valid() && m.Mem() && Leaving(m.job, m.v, m.p) && InPlace(m.job, m.v, m.p)
    modifies m`v, m`clock, m`trail, m`guests
    ensures m.Looked() && m.Mem()
    ensures s.Died? || s == Err(Stopped) || s == Err(Refused)
    ensures s == Err(Refused) ==> Leaving(m.job, m.v, m.p) && InPlace(m.job, m.v, m.p) && m.clock == old(m.clock) + 2
    ensures old(m.Quiet()) ==> s == Err(Refused)
  {
    hide At, Judge, Faceless, GuestsHome, CalmFrom, Dated, Onward, Leaving, InPlace;
    Onwards(m.env, m.shielded);
    var home :- m.Look(Library);
    InPlaceStays(m.job, old(m.v), m.v, m.p);
    if !home { return Err(Stopped); }
    ghost var before := m.v;
    var moved :- m.Look(Recovery);
    InPlaceStays(m.job, before, m.v, m.p);
    if moved { return Err(Stopped); }
    LeavingStays(m.job, old(m.v), m.v, m.p);
    return Err(Refused);
  }

  /** The original is whole in its place, with an identity to follow. */
  method ProveMovable(m: Machine) returns (s: Signal)
    requires m.Valid() && m.Mem()
    modifies m`v, m`clock, m`trail, m`guests
    ensures m.Looked() && m.Mem() && !s.Wait? && s != Err(Refused) && (s == Err(OriginalGone) ==> Absent(m.v, Library))
    ensures s.Go? ==> Holds(m.v, Library, m.job.original) && m.trail.fate != Pinned && m.clock == old(m.clock) + 2
    ensures old(m.Quiet()) && Absent(old(m.v), Library) ==> s == Err(OriginalGone)
    ensures old(m.Quiet()) && !Absent(old(m.v), Library) ==>
      s == if old(Holds(m.v, Library, m.job.original) && m.Stable()) then Go else Err(Stopped)
  {
    hide At, Judge, Faceless, GuestsHome, CalmFrom, Dated, Onward;
    Onwards(m.env, m.shielded);
    var whole := m.Read(Library, m.job.original);
    if whole == Err(NotExist) { return Err(OriginalGone); }
    if !whole.Go? { return whole; }
    var stable;
    s, stable := m.Identify();
    if s.Go? && !stable { s := Err(Stopped); }
  }

  /** Verify the original in its place, save the intent, rename. */
  method RenameOriginal(m: Machine) returns (s: Signal)
    requires m.Valid() && m.Mem() && Leaving(m.job, m.v, m.p) && m.cleared
    requires m.p.mode == MovingAside && !m.p.movedAside && Absent(m.v, Recovery) && Absent(m.v, Partial)
    modifies m`v, m`clock, m`trail, m`guests, m`dur, m`shared, m`p
    ensures m.Kept() && m.Mem() && m.Stored() && !s.Wait?
    ensures s.Go? || s == Err(Refused) ==> m.p.mode == MovingAside && !m.p.movedAside && Leaving(m.job, m.v, m.p)
    ensures s.Go? ==> m.p == m.dur && m.p.asideStarted && Aside(m.job, m.v, m.p)
    ensures s == Err(Refused) ==> InPlace(m.job, m.v, m.p) && m.p.asideStarted && m.trail.fate != Pinned
    ensures old(m.Quiet()) && old(Holds(m.v, Library, m.job.original)) && old(m.Stable()) ==> s == Answer(old(m.Refuses(4)))
    ensures old(m.Quiet()) && old(Holds(m.v, Library, m.job.original)) && !old(m.Stable()) ==> s == Err(Stopped)
    ensures s != Err(OriginalGone)
  {
    hide At, Judge, Faceless, GuestsHome, CalmFrom, Dated, Onward, Leaving, InPlace, Aside, Intended;
    Onwards(m.env, m.shielded);
    LeavingMeans(m.job, m.v, m.p, m.trail);
    Whereabouts(m.job, m.v, m.p, m.trail);
    s := ProveMovable(m);
    if !s.Go? { return; }
    LeavingStays(m.job, old(m.v), m.v, m.p);
    s := RenameIdentified(m);
  }

  /** Under the saved intent: the rename, or the proof that its refusal moved nothing. */
  method RenameAnnounced(m: Machine) returns (s: Signal)
    requires m.Valid() && m.Mem() && m.p == m.dur && Leaving(m.job, m.v, m.p) && InPlace(m.job, m.v, m.p) && m.cleared
    requires m.p.mode == MovingAside && !m.p.movedAside && m.p.asideStarted && m.trail.fate != Pinned
    modifies m`v, m`clock, m`trail, m`guests
    ensures m.Kept() && m.Mem() && (s.Go? || s.Died? || s == Err(Stopped) || s == Err(Refused))
    ensures s.Go? || s == Err(Refused) ==> Leaving(m.job, m.v, m.p)
    ensures s.Go? ==> Aside(m.job, m.v, m.p)
    ensures s == Err(Refused) ==> InPlace(m.job, m.v, m.p) && m.clock == old(m.clock) + 3    // both paths were looked at again
    ensures old(m.Quiet()) ==> s == Answer(old(m.Refuses(0)))
  {
    hide At, Judge, Faceless, GuestsHome, CalmFrom, Dated, Onward, Leaving, InPlace, Aside, Failing, Visit;
    Onwards(m.env, m.shielded);
    LeavingMeans(m.job, m.v, m.p, m.trail);
    s := m.RenameAside();
    if s.Go? || s == Err(Refused) { LeavingStays(m.job, old(m.v), m.v, m.p); }
    if s == Err(Refused) { s := ConfirmRefused(m); }
  }

  method RenameIdentified(m: Machine) returns (s: Signal)
    requires m.Valid() && m.Mem() && Leaving(m.job, m.v, m.p) && m.cleared
    requires m.p.mode == MovingAside && !m.p.movedAside && Absent(m.v, Recovery) && Absent(m.v, Partial)
    requires Holds(m.v, Library, m.job.original) && m.trail.fate != Pinned
    modifies m`v, m`clock, m`trail, m`guests, m`dur, m`shared, m`p
    ensures m.Kept() && m.Mem() && m.Stored() && !s.Wait?
    ensures s.Go? || s == Err(Refused) ==> m.p.mode == MovingAside && !m.p.movedAside && Leaving(m.job, m.v, m.p)
    ensures s.Go? ==> m.p == m.dur && m.p.asideStarted && Aside(m.job, m.v, m.p)
    ensures s == Err(Refused) ==> InPlace(m.job, m.v, m.p) && m.p.asideStarted
    ensures old(m.Quiet()) ==> s == Answer(old(m.Refuses(2)))
    ensures s == Err(Refused) ==> m.clock == old(m.clock) + 5    // both paths were looked at again
    ensures s != Err(OriginalGone)
  {
    hide At, Judge, Faceless, GuestsHome, CalmFrom, Dated, Onward, Leaving, InPlace, Aside, Intended, Failing, Visit;
    Onwards(m.env, m.shielded);
    var known := m.PrintOf(Library);
    IntendedKeeps(m.job, m.v, m.p, m.trail, known);
    m.p := Intended(m.p, known);
    :- SaveIntent(m);
    s := RenameAnnounced(m);
  }

  /** The saved intent to move, and a last chance to stop. */
  method SaveIntent(m: Machine) returns (s: Signal)
    requires m.Valid() && m.Mem() && Leaving(m.job, m.v, m.p) && InPlace(m.job, m.v, m.p)
    modifies m`v, m`clock, m`trail, m`guests, m`dur, m`shared
    ensures m.Kept() && m.Mem() && m.Stored() && s.Plain()
    ensures s.Go? ==> m.p == m.dur && Leaving(m.job, m.v, m.p) && InPlace(m.job, m.v, m.p) && m.clock == old(m.clock) + 2
    ensures old(m.Quiet()) ==> s.Go?
  {
    hide At, Judge, Faceless, GuestsHome, CalmFrom, Dated, Onward, Leaving, InPlace;
    Onwards(m.env, m.shielded);
    :- SaveAndProceed(m);
    InPlaceStays(m.job, old(m.v), m.v, m.p);
    LeavingStays(m.job, old(m.v), m.v, m.p);
    return Go;
  }

  /** What is at either path: an original that is not aside is in its place. */
  method LookBoth(m: Machine) returns (s: Signal, home: bool, copied: bool)
    requires m.Valid() && m.Mem() && Leaving(m.job, m.v, m.p) && m.p.mode == MovingAside && !m.p.movedAside
    modifies m`v, m`clock, m`trail, m`guests
    ensures m.Looked() && m.Mem() && Leaving(m.job, m.v, m.p) && (s.Go? || s.Died? || s == Err(Stopped))
    ensures s.Go? ==> (copied <==> !Absent(m.v, Recovery)) && m.clock == old(m.clock) + 2
    ensures s.Go? && copied ==> m.p.asideStarted && Aside(m.job, m.v, m.p)
    ensures s.Go? && !copied ==> home && Holds(m.v, Library, m.job.original)
    ensures old(m.Quiet()) ==> s.Go? && (old(m.trail.own) && copied ==> !home)
  {
    hide At, Judge, Faceless, GuestsHome, CalmFrom, Dated, Onward, Leaving, InPlace, Aside;
    Onwards(m.env, m.shielded);
    LeavingMeans(m.job, m.v, m.p, m.trail);
    Whereabouts(m.job, m.v, m.p, m.trail);
    copied := false;
    s, home := m.Look(Library);
    if s.Go? { s, copied := m.Look(Recovery); }
    LeavingStays(m.job, old(m.v), m.v, m.p);
    Whereabouts(m.job, m.v, m.p, m.trail);
  }

  /** It was moved before a restart: it is read in full. */
  method FindMoved(m: Machine) returns (s: Signal)
    requires m.Valid() && m.Mem() && Leaving(m.job, m.v, m.p) && Aside(m.job, m.v, m.p)
    modifies m`v, m`clock, m`trail, m`guests
    ensures m.Looked() && m.Mem() && Leaving(m.job, m.v, m.p) && Aside(m.job, m.v, m.p)
    ensures m.clock == old(m.clock) + 1 && (s.Go? || s.Died? || s == Err(Stopped)) && (old(m.Quiet()) ==> s.Go?)
  {
    hide At, Judge, Faceless, GuestsHome, CalmFrom, Dated, Onward, Leaving, Aside;
    Onwards(m.env, m.shielded);
    AsideThere(m.job, m.v, m.p);
    s := m.Read(Recovery, m.job.original);
    LeavingStays(m.job, old(m.v), m.v, m.p);
    AsideStays(m.job, old(m.v), m.v, m.p);
    AsideThere(m.job, m.v, m.p);
  }

  /** The original is in its place and moves now, or a restart finds it moved before that was recorded. */
  method MoveOrFindMoved(m: Machine) returns (s: Signal)
    requires m.Valid() && m.Mem() && Leaving(m.job, m.v, m.p) && m.p.mode == MovingAside && !m.p.movedAside && m.cleared
    requires Absent(m.v, Partial)
    modifies m`v, m`clock, m`trail, m`guests, m`dur, m`shared, m`p
    ensures m.Kept() && m.Mem() && m.Stored() && !s.Wait?
    ensures s.Go? || s == Err(Refused) ==> m.p.mode == MovingAside && !m.p.movedAside && Leaving(m.job, m.v, m.p)
    ensures s.Go? ==> m.p.asideStarted && Aside(m.job, m.v, m.p)
    ensures s == Err(Refused) ==> InPlace(m.job, m.v, m.p) && m.p.asideStarted && m.trail.fate != Pinned
    ensures old(m.Quiet()) && old(m.trail.own) && !Absent(old(m.v), Recovery) ==> s.Go?
    ensures old(m.Quiet()) && old(m.trail.own) && Absent(old(m.v), Recovery) ==>
      s == if old(m.Stable()) then Answer(old(m.Refuses(6))) else Err(Stopped)
    ensures s.Go? && !Absent(old(m.v), Recovery) ==> m.clock == old(m.clock) + 3    // it was read in full
    ensures s != Err(OriginalGone)
  {
    hide At, Judge, Faceless, GuestsHome, CalmFrom, Dated, Onward, Leaving, InPlace, Aside;
    Onwards(m.env, m.shielded);
    var home, copied;
    s, home, copied := LookBoth(m);
    if !s.Go? { return; }
    if home && !copied {
      s := RenameOriginal(m);
    } else if !home && copied && m.p.asideStarted {
      s := FindMoved(m);
    } else {
      s := Err(if !m.p.asideStarted && !home && !copied then OriginalGone else Stopped);
    }
  }

  /** How the rename of the original ends when nothing else goes wrong. */
  function Answer(refused: bool): Signal {
    if refused then Err(Refused) else Go
  }

  /** The original is still in its place, and the file system will refuse to rename it: that is the eighth call from
      here. */
  predicate WillRefuse(m: Machine)
    reads m`v, m`p, m`env, m`clock
  {
    Absent(m.v, Recovery) && m.Refuses(7)
  }

  /** promotionMoveAside. */
  method MoveAside(m: Machine) returns (s: Signal)
    requires m.Valid() && m.Mem() && m.p == m.dur && Leaving(m.job, m.v, m.p) && m.p.mode == MovingAside && m.cleared
    modifies m`v, m`clock, m`trail, m`guests, m`dur, m`shared, m`p
    ensures m.Kept() && m.Mem() && m.Stored() && !s.Wait?
    ensures s.Go? || s == Err(Refused) ==> m.p.mode == MovingAside && Leaving(m.job, m.v, m.p)
    ensures s.Go? ==> m.p == m.dur && Safe(m.job, m.v, m.p)
    ensures s == Err(Refused) ==> !m.p.movedAside && m.p.asideStarted && InPlace(m.job, m.v, m.p) && m.trail.fate != Pinned
    ensures old(m.Quiet()) && old(m.trail.own && !Barred(m.v, m.p, m.Stable())) ==> s == Answer(old(WillRefuse(m)))
    ensures old(m.Quiet()) && old(m.trail.own && Barred(m.v, m.p, m.Stable())) ==> s == Err(Stopped)
    ensures s != Err(OriginalGone)
  {
    hide At, Judge, Faceless, GuestsHome, CalmFrom, Dated, Onward, Leaving, InPlace, Aside;
    Onwards(m.env, m.shielded);
    LeavingMeans(m.job, m.v, m.p, m.trail);
    Whereabouts(m.job, m.v, m.p, m.trail);
    if m.p.movedAside {
      s := VerifyRecovered(m);
      LeavingStays(m.job, old(m.v), m.v, m.p);
      return;
    }
    if !m.p.recoveryNamed || m.p.originalPrint.None? { return Err(Stopped); }
    var left :- m.Look(Partial);
    if left { return Err(Stopped); }
    LeavingStays(m.job, old(m.v), m.v, m.p);
    :- MoveOrFindMoved(m);
    s := ConfirmMoved(m);
  }

  /** promotionPreserveForRemoval: move the original aside, or copy it for good when that is refused. */
  method PreserveForRemoval(m: Machine) returns (s: Signal)
    requires m.Valid() && m.Mem() && m.p == m.dur && Leaving(m.job, m.v, m.p) && m.p.mode == MovingAside && m.cleared
    modifies m`v, m`clock, m`trail, m`guests, m`dur, m`shared, m`p
    ensures m.Kept() && m.Mem() && m.Stored()
    ensures s.Go? ==> m.p == m.dur && Leaving(m.job, m.v, m.p) && Safe(m.job, m.v, m.p)
    ensures !s.Wait?
    ensures old(m.Quiet()) && old(m.trail.own && !Barred(m.v, m.p, m.Stable())) ==>
      s.Go? && if old(WillRefuse(m)) then Fallen(m.job, m.v, m.p) else m.p.mode == MovingAside
    ensures old(m.Quiet()) && old(m.trail.own && Barred(m.v, m.p, m.Stable())) ==> s == Err(Stopped)
    ensures s != Err(OriginalGone)    // while nobody else removes files
  {
    hide At, Judge, Faceless, GuestsHome, CalmFrom, Dated, Onward, Leaving, InPlace, Safe, FallenBack, NeedsCopy, SameButCopy;
    Onwards(m.env, m.shielded);
    s := MoveAside(m);
    if s == Err(Refused) { s := FallBack(m); }
  }

  /** Copied for good, because the rename aside was refused. */
  predicate Fallen(j: Job, v: Volume, r: Record) {
    r.mode == Copying && r.refused && r.backupVerified && Holds(v, Recovery, j.original)
  }

  method FallBack(m: Machine) returns (s: Signal)
    requires m.Valid() && m.Mem() && Leaving(m.job, m.v, m.p)
    requires m.p.mode == MovingAside && m.p.asideStarted && !m.p.movedAside && InPlace(m.job, m.v, m.p)
    requires m.trail.fate != Pinned
    modifies m`v, m`clock, m`trail, m`guests, m`dur, m`shared, m`p
    ensures m.Kept() && m.Mem() && m.Stored() && s.Plain()
    ensures s.Go? ==> m.p == m.dur && Leaving(m.job, m.v, m.p) && Safe(m.job, m.v, m.p) && Fallen(m.job, m.v, m.p)
    ensures old(m.Quiet()) && old(m.trail.own) ==> s.Go?
  {
    hide At, Judge, Faceless, GuestsHome, CalmFrom, Dated, Onward, Leaving, InPlace, Safe, FallenBack, NeedsCopy, SameButCopy;
    Onwards(m.env, m.shielded);
    FallenBackKeeps(m.job, m.v, m.p, m.trail);
    m.p := FallenBack(m.p);
    ghost var before, fallen := m.v, m.p;
    :- m.Save();
    s := ResumeFallbackCopy(m);
    if s.Go? { CopiedLeaves(m.job, before, m.v, fallen, m.p); }
  }

  /** promotionFinishMoveBack. */
  method FinishMoveBack(m: Machine) returns (s: Signal)
    requires m.Valid() && m.Mem() && m.p.backStarted && InPlace(m.job, m.v, m.p)
    modifies m`v, m`clock, m`trail, m`guests, m`dur, m`shared, m`p
    ensures m.Kept() && m.Mem() && m.Stored() && Untouched(old(m.v), m.v) && s.Plain()
    ensures !Absent(m.v, Library) && (s.Go? ==> m.p.mode == MovingAside)
    ensures s.Go? ==> m.p == m.dur && BackHome(m.job, m.v, m.p) && !m.p.backStarted && !m.p.asideStarted
    ensures old(m.Quiet()) ==> s.Go? && m.v == old(m.v)
    ensures m.p.publishStarted == old(m.p.publishStarted)
    ensures s.Go? ==> m.clock == old(m.clock) + 2
  {
    hide At, Judge, Faceless, GuestsHome, CalmFrom, Onward, BackHome;
    Onwards(m.env, m.shielded);
    InPlaceStays(m.job, m.v, m.v, m.p);
    var there :- m.Look(Library);
    var known := if m.p.backupPrint.Some? then m.p.backupPrint else m.p.originalPrint;
    if !there || !m.SameAfterRead(Library, known) { return Err(Stopped); }
    s := RecordBack(m);
  }

  method RecordBack(m: Machine) returns (s: Signal)
    requires m.Valid() && m.Mem() && m.p.backStarted && InPlace(m.job, m.v, m.p)
    modifies m`v, m`clock, m`trail, m`guests, m`dur, m`shared, m`p
    ensures m.Kept() && m.Mem() && m.Stored() && Untouched(old(m.v), m.v) && s.Plain()
    ensures s.Go? ==> m.p == m.dur
    ensures BackHome(m.job, m.v, m.p) && !Absent(m.v, Library) && !m.p.backStarted && !m.p.asideStarted
    ensures m.p.mode == MovingAside
    ensures old(m.Quiet()) ==> s.Go? && m.v == old(m.v)
    ensures m.p.publishStarted == old(m.p.publishStarted)
    ensures m.clock == old(m.clock) + 1
  {
    hide At, Judge, Faceless, GuestsHome, CalmFrom, Onward, Restored, BackHome, InPlace;
    Onwards(m.env, m.shielded);
    InPlaceStays(m.job, m.v, m.v, m.p);
    var stat := m.PrintOf(Library);
    RestoredKeeps(m.job, m.v, m.p, m.trail, stat);
    m.p := Restored(m.p, stat);
    s := m.Save();
    BackHomeStays(m.job, old(m.v), m.v, m.p);
  }

  /** Record that the original never left its recovery path. */
  method ForgetMoveBack(m: Machine) returns (s: Signal)
    requires m.Valid() && m.Mem() && m.p.backStarted && !Absent(m.v, Recovery)
    modifies m`v, m`clock, m`trail, m`guests, m`dur, m`shared, m`p
    ensures m.Kept() && m.Mem() && m.Stored() && Untouched(old(m.v), m.v) && s.Plain()
    ensures !m.p.backStarted && m.p.mode == MovingAside && m.p.asideStarted && (s.Go? ==> m.p == m.dur)
    ensures old(m.Quiet()) ==> s.Go? && m.v == old(m.v)
    ensures m.p.publishStarted == old(m.p.publishStarted)
  {
    hide At, Judge, Faceless, GuestsHome, CalmFrom, Dated, Onward, BackDropped, Aside;
    Onwards(m.env, m.shielded);
    BackWhereabouts(m.job, m.v, m.p, m.trail);
    BackDroppedKeeps(m.job, m.v, m.p, m.trail);
    m.p := BackDropped(m.p);
    s := m.Save();
  }

  /** Something else is at the library path, and the original still at its recovery path. */
  predicate LostTo(v: Volume) {
    !Absent(v, Recovery) && !Absent(v, Library) && !SameFile(v, Library, Recovery)
  }

  /** promotionMoveBackLostToAnotherFile, and the stale intent it clears. */
  method DropLostIntent(m: Machine) returns (s: Signal)
    requires m.Valid() && m.Mem() && m.p.backStarted
    modifies m`v, m`clock, m`trail, m`guests, m`dur, m`shared, m`p
    ensures m.Kept() && m.Mem() && m.Stored() && Untouched(old(m.v), m.v)
    ensures s.Died? || s == Err(Stopped)
    ensures old(m.Quiet()) ==> (m.p.backStarted <==> !LostTo(old(m.v)))
    ensures old(m.Quiet()) ==> s == Err(Stopped)
  {
    hide At, Judge, Faceless, GuestsHome, CalmFrom, Dated, Onward, BackDropped, Aside;
    Onwards(m.env, m.shielded);
    var from, here := m.Look(Recovery);
    if !from.Go? || !here { return if from.Died? then Died else Err(Stopped); }
    var to, taken := m.Look(Library);
    if !to.Go? || !taken { return if to.Died? then Died else Err(Stopped); }
    if !SameFile(m.v, Library, Recovery) {
      s := ForgetMoveBack(m);
      if s.Died? { return; }
    }
    return Err(Stopped);
  }

  /** Under the saved intent: the rename, or the intent is dropped when another file has the path. */
  method RenameOrDrop(m: Machine) returns (s: Signal)
    requires m.Valid() && m.Mem() && m.p == m.dur && m.p.mode == MovingAside && m.p.backStarted && !m.p.cleanupStarted
    requires Aside(m.job, m.v, m.p)
    modifies m`v, m`clock, m`trail, m`guests, m`dur, m`shared, m`p
    ensures m.Kept() && m.Mem() && m.Stored() && Untouched(old(m.v), m.v) && s.Plain()
    ensures s.Go? ==> m.p == m.dur && BackHome(m.job, m.v, m.p) && m.clock == old(m.clock) + 3
    ensures old(m.Quiet()) && Absent(old(m.v), Library) ==> s.Go?
    ensures old(m.Quiet()) && !Absent(old(m.v), Library) ==>
      s == Err(Stopped) && !m.p.backStarted    // another file took the path
  {
    hide At, Judge, Faceless, GuestsHome, CalmFrom, Dated, Onward, BackHome, InPlace, Failing, Visit;
    Onwards(m.env, m.shielded);
    s := m.RenameBack();
    if s.Go? {
      s := FinishMoveBack(m);
    } else if s.Err? {
      s := DropLostIntent(m);
    }
  }

  /** The verified original is renamed back, never over another file. */
  method RenameVerifiedBack(m: Machine) returns (s: Signal)
    requires m.Valid() && m.Mem() && m.p.mode == MovingAside && m.p.asideStarted && SameName(m.job)
    requires m.p.step == PUBLISH && Aside(m.job, m.v, m.p) && (m.trail.own ==> Absent(m.v, Library))
    modifies m`v, m`clock, m`trail, m`guests, m`dur, m`shared, m`p
    ensures m.Kept() && m.Mem() && m.Stored() && Untouched(old(m.v), m.v) && s.Plain()
    ensures s.Go? ==> m.p == m.dur && BackHome(m.job, m.v, m.p)
    ensures old(m.Quiet()) && Absent(old(m.v), Library) ==> s.Go?
    ensures s.Go? ==> m.clock == old(m.clock) + 4
    ensures old(m.Quiet()) && !Absent(old(m.v), Library) ==>
      s == Err(Stopped) && !m.p.backStarted    // another file took the path
  {
    hide At, Judge, Faceless, GuestsHome, CalmFrom, Dated, Onward, BackIntended, BackHome, InPlace, Aside;
    Onwards(m.env, m.shielded);
    BackIntendedKeeps(m.job, m.v, m.p, m.trail);
    m.p := BackIntended(m.p);
    :- m.Save();
    AsideStays(m.job, old(m.v), m.v, m.p);
    s := RenameOrDrop(m);
  }

  /** promotionMoveBack, while its context ignores cancellation. */
  method ShieldedMoveBack(m: Machine) returns (s: Signal)
    requires m.Valid() && m.Mem() && m.p.mode == MovingAside && m.p.asideStarted && SameName(m.job)
    modifies m`v, m`clock, m`trail, m`guests, m`dur, m`shared, m`p
    ensures m.Kept() && m.Mem() && m.Stored() && Untouched(old(m.v), m.v) && s.Plain()
    ensures s.Go? ==> m.p == m.dur && BackHome(m.job, m.v, m.p)
    ensures old(m.Quiet()) && Absent(old(m.v), Library) ==> s.Go?
    ensures s.Go? ==> m.clock == old(m.clock) + 6    // it was read in full
    ensures old(m.Quiet()) && !Absent(old(m.v), Library) ==> s == Err(Stopped) && m.p == old(m.p)
  {
    hide At, Judge, Faceless, GuestsHome, CalmFrom, Dated, Onward, BackHome, InPlace, Aside;
    Onwards(m.env, m.shielded);
    var home :- m.Look(Library);
    if home { return Err(Stopped); }
    MayMoveBack(m.job, m.v, m.p, m.trail);
    ghost var before := m.v;
    if m.p.movedAside {
      :- VerifyRecovered(m);
    } else {
      :- m.Read(Recovery, m.job.original);
    }
    AsideStays(m.job, before, m.v, m.p);
    s := RenameVerifiedBack(m);
  }

  /** promotionMoveBack: a restoring step that runs even when the promotion is no longer approved. */
  method MoveBack(m: Machine) returns (s: Signal)
    requires m.Valid() && m.Mem() && m.p.mode == MovingAside && m.p.asideStarted && SameName(m.job)
    modifies m`v, m`clock, m`trail, m`guests, m`dur, m`shared, m`p, m`shielded
    ensures m.Kept() && m.Mem() && m.Stored() && Untouched(old(m.v), m.v) && m.shielded == old(m.shielded)
    ensures s.Plain()
    ensures s.Go? ==> m.p == m.dur && BackHome(m.job, m.v, m.p)
    ensures old(m.Steady()) && Absent(old(m.v), Library) ==> s.Go?
  {
    hide At, Judge, Faceless, GuestsHome, CalmFrom, Dated, Onward, BackHome;
    var was := m.shielded;
    m.shielded := true;
    s := ShieldedMoveBack(m);
    m.shielded := was;
    Unshielded(m.env, old(m.Now()), m.Now());
  }

  /** The original was renamed back before a crash: a full read proves it. */
  method FinishFoundBack(m: Machine) returns (s: Signal)
    requires m.Valid() && m.Mem() && m.p.backStarted && InPlace(m.job, m.v, m.p)
    modifies m`v, m`clock, m`trail, m`guests, m`dur, m`shared, m`p
    ensures m.Kept() && m.Mem() && m.Stored() && Untouched(old(m.v), m.v) && s.Plain()
    ensures s.Go? ==> m.p == m.dur && m.p.mode == MovingAside && BackHome(m.job, m.v, m.p) && !m.p.backStarted && !m.p.asideStarted
    ensures m.p.publishStarted == old(m.p.publishStarted)
    ensures old(m.Quiet()) && Holds(old(m.v), Library, m.job.original) ==> s.Go? && m.v == old(m.v)
    ensures old(m.Quiet()) ==> m.v == old(m.v)
    ensures s.Go? ==> m.clock == old(m.clock) + 3    // it was read in full
  {
    hide At, Judge, Faceless, GuestsHome, CalmFrom, Dated, Onward, BackHome, InPlace, Aside;
    Onwards(m.env, m.shielded);
    :- m.Read(Library, m.job.original);
    InPlaceStays(m.job, old(m.v), m.v, m.p);
    s := FinishMoveBack(m);
  }

  /** A move back that a crash interrupted: finish it, or forget it. */
  method ResumeStarted(m: Machine) returns (s: Signal)
    requires m.Valid() && m.Mem() && m.p == m.dur && m.p.backStarted
    modifies m`v, m`clock, m`trail, m`guests, m`dur, m`shared, m`p
    ensures m.Kept() && m.Mem() && m.Stored() && Untouched(old(m.v), m.v) && s.Plain()
    ensures s.Go? ==> m.p == m.dur && !m.p.backStarted
    ensures s.Go? ==> m.p.mode == MovingAside && old(m.p).mode == MovingAside && (m.p.asideStarted || BackHome(m.job, m.v, m.p))
    ensures m.p.publishStarted == old(m.p.publishStarted)
    ensures old(m.Quiet()) ==> m.v == old(m.v)
    ensures old(m.Quiet()) && (old(m.trail.own) || Absent(old(m.v), Library) != Absent(old(m.v), Recovery)) ==> s.Go?
    ensures old(m.Quiet()) && s.Go? && !Absent(old(m.v), Library) ==> !m.p.asideStarted
  {
    hide At, Judge, Faceless, GuestsHome, CalmFrom, Dated, Onward, BackHome, InPlace, Aside;
    Onwards(m.env, m.shielded);
    var home :- m.Look(Library);
    var copied :- m.Look(Recovery);
    BackWhereabouts(m.job, m.v, m.p, m.trail);
    if home == copied { return Err(Stopped); }
    s := FinishOrForget(m);
  }

  /** The recovery path tells which. */
  method FinishOrForget(m: Machine) returns (s: Signal)
    requires m.Valid() && m.Mem() && m.p.backStarted
    modifies m`v, m`clock, m`trail, m`guests, m`dur, m`shared, m`p
    ensures m.Kept() && m.Mem() && m.Stored() && Untouched(old(m.v), m.v) && s.Plain()
    ensures s.Go? ==> m.p == m.dur && !m.p.backStarted
    ensures s.Go? ==> m.p.mode == MovingAside && (m.p.asideStarted || BackHome(m.job, m.v, m.p))
    ensures m.p.publishStarted == old(m.p.publishStarted)
    ensures old(m.Quiet()) ==> s.Go? && m.v == old(m.v)
    ensures s.Go? && Absent(old(m.v), Recovery) ==> !m.p.asideStarted
  {
    hide At, Judge, Faceless, GuestsHome, CalmFrom, Dated, Onward, BackHome, InPlace, Aside;
    BackWhereabouts(m.job, m.v, m.p, m.trail);
    if Absent(m.v, Recovery) {
      s := FinishFoundBack(m);
    } else {
      s := ForgetMoveBack(m);
    }
  }

  /** promotionResumeMoveBack. */
  method ResumeMoveBack(m: Machine) returns (s: Signal)
    requires m.Valid() && m.Mem() && m.p == m.dur
    modifies m`v, m`clock, m`trail, m`guests, m`dur, m`shared, m`p
    ensures m.Kept() && m.Mem() && m.Stored() && Untouched(old(m.v), m.v) && s.Plain()
    ensures s.Go? ==> m.p == m.dur && !m.p.backStarted && m.p.mode == old(m.p).mode
    ensures s.Go? && old(m.p).backStarted ==>
      m.p.mode == MovingAside && (m.p.asideStarted || BackHome(m.job, m.v, m.p))
    ensures !old(m.p).backStarted ==> s.Go? && m.p == old(m.p) && m.v == old(m.v)
    ensures m.p.publishStarted == old(m.p.publishStarted)
    ensures old(m.Quiet()) ==> m.v == old(m.v)
    ensures old(m.Quiet()) && (old(m.trail.own) || Absent(old(m.v), Library) != Absent(old(m.v), Recovery)) ==> s.Go?
    ensures old(m.Quiet()) && s.Go? && old(m.p).backStarted && !Absent(old(m.v), Library) ==> !m.p.asideStarted
  {
    hide At, Judge, Faceless, Undisturbed, GuestsHome, CalmFrom, Dated, Onward, BackHome;
    Onwards(m.env, m.shielded);
    s := Go;
    if m.p.backStarted { s := ResumeStarted(m); }
  }
}
