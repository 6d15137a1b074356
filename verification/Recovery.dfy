/**
 Keeping the original recoverable (action/promote_files.go): proving a recovery, making a verified copy,
 and the preserve step that chooses between a copy and moving the original aside.
 */
module Recoveries {
  import opened Volumes
  import opened Protocol
  import opened Effects
  import opened Records
  import opened Machines

  /** promotionVerifyRecovered: the original is recoverable, at its own path or at the recovery path. */
  method VerifyRecovered(m: Machine) returns (s: Signal)
    requires m.Valid() && m.Mem()
    modifies m`v, m`clock, m`trail, m`guests
    ensures m.Looked() && m.Mem()
    ensures s.Go? && (m.p.mode != MovingAside || m.p.movedAside) ==>
      m.p.backupVerified && Holds(m.v, Recovery, m.job.original)
    ensures s.Go? ==> Holds(m.v, Library, m.job.original) || Holds(m.v, Recovery, m.job.original)
    ensures s.Plain()
    ensures old(m.Quiet()) ==> (s.Go? <==> m.p.recoveryNamed && Recoverable(m.job, m.v, m.p))
    ensures s.Go? ==> m.clock == old(m.clock) + if m.p.mode == MovingAside && !m.p.movedAside then 2 else 1
  {
    hide At, Judge, Faceless, GuestsHome, Dated, CalmFrom, Onward;
    Onwards(m.env, m.shielded);
    if m.p.mode == MovingAside && !m.p.movedAside {
      if !m.p.recoveryNamed || m.p.originalPrint.None? { return Err(Stopped); }
      if !m.p.asideStarted {
        var occupied :- m.Look(Recovery);
        if occupied { return Err(Stopped); }
      } else {
        var s0, there := m.Look(Library);
        if s0.Died? { return Died; }
        if s0.Go? && !there {
          s := m.Read(Recovery, m.job.original);
          return;
        }
      }
      s := m.Read(Library, m.job.original);
      return;
    }
    if !m.p.backupVerified || !m.p.recoveryNamed { return Err(Stopped); }
    s := m.Read(Recovery, m.job.original);
  }

  /** The record is stored, and the run may have been cancelled meanwhile. */
  method SaveAndProceed(m: Machine) returns (s: Signal)
    requires m.Valid() && m.Mem()
    modifies m`v, m`clock, m`trail, m`guests, m`dur, m`shared
    ensures m.Looked() && m.Mem() && m.Stored() && s.Plain()
    ensures (s.Go? ==> m.dur == m.p && m.clock == old(m.clock) + 2) && (m.dur == m.p || m.dur == old(m.dur))
    ensures old(m.Quiet()) ==> s.Go?
  {
    hide At, Judge, Faceless, GuestsHome, Dated, CalmFrom, Onward;
    Onwards(m.env, m.shielded);
    :- m.Save();
    s := m.Proceed();
  }

  /** promotionRemovePartial: a leftover partial goes only after it proved to be a whole copy. */
  method RemovePartial(m: Machine) returns (s: Signal)
    requires m.Valid() && m.Mem() && MayClear(m.dur) && MayClear(m.p)
    modifies m`v, m`clock, m`trail, m`guests, m`dur, m`shared
    ensures m.Kept() && m.Mem() && m.Stored()
    ensures m.FilesKept() && At(m.v, Recovery) == At(old(m.v), Recovery)
    ensures m.dur == m.p || m.dur == old(m.dur)
    ensures s.Go? ==> Absent(m.v, Partial)
    ensures s.Plain()
    ensures old(m.Quiet()) && old(Absent(m.v, Partial)) ==> s.Go? && m.v == old(m.v)
    ensures old(m.Quiet()) ==> (s.Go? <==> old(Absent(m.v, Partial) || Holds(m.v, Partial, m.job.original)))
    ensures !old(Absent(m.v, Partial)) && !old(Holds(m.v, Partial, m.job.original)) ==> At(m.v, Partial) == At(old(m.v), Partial)
    ensures s.Go? && !old(Absent(m.v, Partial)) ==> m.dur == m.p && m.clock == old(m.clock) + 5    // read in full, then noted
  {
    hide At, Judge, Faceless, GuestsHome, Dated, CalmFrom, Onward, Failing, Visit;
    Onwards(m.env, m.shielded);
    var there :- m.Look(Partial);
    if !there { return Go; }
    :- m.Read(Partial, m.job.original);
    :- SaveAndProceed(m);
    s := m.UnlinkPartial();
  }

  /** A failed removal still saves what emptying did; only a crash there changes the outcome. */
  method NoteFailure(m: Machine) returns (died: bool)
    requires m.Valid() && m.Mem()
    modifies m`v, m`clock, m`trail, m`guests, m`dur, m`shared
    ensures m.Looked() && m.Mem() && m.Stored()
  {
    var noted := m.Save();
    died := noted.Died?;
  }

  /** promotionPublishPartial. */
  method PublishPartial(m: Machine) returns (s: Signal)
    requires m.Valid() && m.Mem() && MayClear(m.dur)
    requires m.p.mode == Copying && !m.p.cleanupStarted && Holds(m.v, Partial, m.job.original)
    modifies m`v, m`clock, m`trail, m`guests, m`dur, m`shared
    ensures m.Kept() && m.Mem() && m.Stored() && m.FilesKept()
    ensures m.dur == m.p || m.dur == old(m.dur)
    ensures s.Go? ==> Holds(m.v, Recovery, m.job.original)
    ensures s.Plain()
    ensures old(m.Quiet()) && old(Absent(m.v, Recovery)) ==> s.Go?
    ensures s.Go? && old(Absent(m.v, Recovery)) ==> m.clock == old(m.clock) + 4
  {
    hide At, Judge, Faceless, GuestsHome, Dated, CalmFrom, Onward, Failing, Visit;
    Onwards(m.env, m.shielded);
    var there :- m.Look(Recovery);
    if there {
      :- m.Read(Recovery, m.job.original);
      s := RemovePartial(m);
      return;
    }
    :- SaveAndProceed(m);
    s := m.PublishPartial();
  }

  /** promotionRecordBackup: the published copy is verified. */
  method RecordBackup(m: Machine) returns (s: Signal)
    requires m.Valid() && m.Mem()
    requires m.p.mode == Copying && !m.p.cleanupStarted && Holds(m.v, Recovery, m.job.original)
    modifies m`v, m`clock, m`trail, m`guests, m`dur, m`shared, m`p
    ensures m.Kept() && m.Mem() && m.Stored() && SameButCopy(old(m.p), m.p) && m.FilesKept()
    ensures s.Go? ==> m.p == m.dur && m.p.backupVerified && Holds(m.v, Recovery, m.job.original)
    ensures s.Plain()
    ensures old(m.Quiet()) ==> s.Go?
  {
    hide At, Judge, Faceless, GuestsHome, CalmFrom, Dated, Copied, SameButCopy, Onward;
    Onwards(m.env, m.shielded);
    var stat := m.PrintOf(Recovery);
    CopiedKeeps(m.job, m.v, m.p, m.trail, stat);
    m.p := Copied(m.p, stat);
    s := m.Save();
  }

  /** removeRecoveryFile on a partial: emptied first when the setting is on, then unlinked. */
  method DiscardPartial(m: Machine) returns (s: Signal)
    requires m.Valid() && m.Mem() && !Absent(m.v, Partial)
    requires m.Scratch()
    modifies m`v, m`clock, m`trail, m`guests
    ensures m.Kept() && m.Mem() && m.FilesKept() && At(m.v, Recovery) == At(old(m.v), Recovery)
    ensures s.Go? ==> Absent(m.v, Partial)
    ensures s.Plain()
    ensures old(m.Quiet()) ==> s.Go?
    ensures old(m.Quiet()) ==> var e := At(old(m.v), Partial).value;
      Remains(m.v, e, if m.truncates && LastLink(old(m.v), Partial) then [] else e.data)
  {
    hide At, Judge, Faceless, GuestsHome, Dated, CalmFrom, Onward, Failing, Visit;
    Onwards(m.env, m.shielded);
    if m.truncates && |At(m.v, Partial).value.data| > 0 { :- m.EmptyPartial(); }
    s := m.UnlinkPartial();
  }

  /** A new copy of the original, read back in full. */
  method CopyAndRead(m: Machine) returns (s: Signal)
    requires m.Valid() && m.Mem() && Absent(m.v, Recovery) && Absent(m.v, Partial)
    requires m.p.mode == Copying && m.Scratch()
    requires Holds(m.v, Library, m.job.original)
    modifies m`v, m`clock, m`trail, m`guests, m`dur
    ensures m.Kept() && m.Mem() && m.Stored() && m.FilesKept() && At(m.v, Recovery) == At(old(m.v), Recovery)
    ensures m.dur == m.p || m.dur == old(m.dur)
    ensures s.Go? ==> Holds(m.v, Partial, m.job.original) && m.clock == old(m.clock) + 2
    ensures s.Plain() && (old(m.Quiet()) ==> s.Go?)
    ensures Machine.CutOff(old(m.env(m.clock))) && !old(m.shared) ==>
      s.Died? && !Absent(m.v, Partial) && m.dur == old(m.dur)
  {
    hide At, Judge, Faceless, GuestsHome, Dated, CalmFrom, Onward, Failing, Visit;
    Onwards(m.env, m.shielded);
    m.Report();
    :- m.CopyToPartial();
    m.Report();
    s := m.Read(Partial, m.job.original);
  }

  /** And then published. */
  method CopyAnew(m: Machine) returns (s: Signal)
    requires m.Valid() && m.Mem() && Absent(m.v, Recovery) && Absent(m.v, Partial)
    requires m.p.mode == Copying && m.Scratch()
    requires Holds(m.v, Library, m.job.original)
    modifies m`v, m`clock, m`trail, m`guests, m`dur, m`shared
    ensures m.Kept() && m.Mem() && m.Stored() && m.FilesKept()
    ensures s.Go? ==> Holds(m.v, Recovery, m.job.original)
    ensures s.Plain()
    ensures old(m.Quiet()) ==> s.Go?
    ensures Machine.CutOff(old(m.env(m.clock))) && !old(m.shared) ==>
      s.Died? && !Absent(m.v, Partial) && m.dur == old(m.dur)
    ensures s.Go? ==> m.clock == old(m.clock) + 6    // the copy was read back
  {
    hide At, Judge, Faceless, GuestsHome, Dated, CalmFrom, Onward, Failing, Visit;
    Onwards(m.env, m.shielded);
    s := CopyAndRead(m);
    if s.Go? { s := PublishPartial(m); }
  }

  /** Does a leftover partial prove to be a whole copy? Any doubt says no. */
  method IsWhole(m: Machine) returns (s: Signal, whole: bool)
    requires m.Valid() && m.Mem() && !Absent(m.v, Partial)
    modifies m`v, m`clock, m`trail, m`guests, m`dur
    ensures m.Looked() && m.Mem() && m.Stored() && (m.dur == m.p || m.dur == old(m.dur))
    ensures (s.Go? || s.Died?) && (s.Go? && whole ==> Holds(m.v, Partial, m.job.original))
    ensures old(m.Quiet()) ==> s.Go?
    ensures old(m.Quiet()) ==> (whole <==> old(Holds(m.v, Partial, m.job.original)) && |m.job.original| > 0)
    ensures old(|At(m.v, Partial).value.data|) != |m.job.original| ==> s.Go? && !whole && m.clock == old(m.clock)
  {
    hide At, Judge, Faceless, GuestsHome, Dated, CalmFrom, Onward;
    Onwards(m.env, m.shielded);
    var size := |At(m.v, Partial).value.data|;
    if size != |m.job.original| || size == 0 { return Go, false; }
    m.Report();
    s := m.Read(Partial, m.job.original);
    whole := s.Go?;
    if !s.Died? { s := Go; }
  }

  /** A whole partial left by an earlier attempt is published; any other is replaced by a new copy. */
  method FinishCopy(m: Machine) returns (s: Signal)
    requires m.Valid() && m.Mem() && Absent(m.v, Recovery)
    requires m.p.mode == Copying && m.Scratch()
    requires Holds(m.v, Library, m.job.original)
    modifies m`v, m`clock, m`trail, m`guests, m`dur, m`shared
    ensures m.Kept() && m.Mem() && m.Stored() && m.FilesKept()
    ensures s.Go? ==> Holds(m.v, Recovery, m.job.original)
    ensures s.Plain()
    ensures old(m.Quiet()) ==> s.Go?
    ensures old(m.Plain(1)) && old(Absent(m.v, Partial)) && Machine.CutOff(old(m.env(m.clock + 1))) && !old(m.shared) ==>
      s.Died? && !Absent(m.v, Partial) && m.dur == old(m.dur)
  {
    hide At, Judge, Faceless, GuestsHome, Dated, CalmFrom, Onward;
    Onwards(m.env, m.shielded);
    var left :- m.Look(Partial);
    if left {
      var whole;
      s, whole := IsWhole(m);
      if !s.Go? { return; }
      if whole {
        s := PublishPartial(m);
        return;
      }
      :- DiscardPartial(m);
    }
    s := CopyAnew(m);
  }

  /** Nothing is at the recovery path or the partial's, and the process dies while it copies, n calls from now. */
  ghost predicate Interruptible(m: Machine, n: nat)
    reads m
  {
    Absent(m.v, Recovery) && Absent(m.v, Partial) && !m.shared && m.Plain(n) && Machine.CutOff(m.env(m.clock + n))
  }

  /** A copy an earlier attempt published is proved, and its partial cleared away. */
  method ReuseCopy(m: Machine) returns (s: Signal)
    requires m.Valid() && m.Mem() && !Absent(m.v, Recovery)
    requires m.p.mode == Copying && m.Scratch()
    modifies m`v, m`clock, m`trail, m`guests, m`dur, m`shared
    ensures m.Kept() && m.Mem() && m.Stored() && m.FilesKept() && s.Plain()
    ensures s.Go? ==> Holds(m.v, Recovery, m.job.original)
    ensures old(m.Quiet()) && old(m.trail.own) ==> s.Go?
  {
    hide At, Judge, Faceless, GuestsHome, Dated, CalmFrom, Onward;
    Onwards(m.env, m.shielded);
    if m.trail.own { CopyLeft(m.job, m.v, m.p, m.trail); }
    m.Report();
    :- m.Read(Recovery, m.job.original);
    s := RemovePartial(m);
  }

  method CopyOrReuse(m: Machine) returns (s: Signal)
    requires m.Valid() && m.Mem()
    requires m.p.mode == Copying && m.Scratch()
    requires Holds(m.v, Library, m.job.original)
    modifies m`v, m`clock, m`trail, m`guests, m`dur, m`shared
    ensures m.Kept() && m.Mem() && m.Stored() && m.FilesKept() && s.Plain()
    ensures s.Go? ==> Holds(m.v, Recovery, m.job.original)
    ensures old(m.Quiet()) && old(m.trail.own) ==> s.Go?
    ensures old(Interruptible(m, 2)) ==> s.Died? && !Absent(m.v, Partial) && m.dur == old(m.dur)
  {
    hide At, Judge, Faceless, GuestsHome, Dated, CalmFrom, Onward;
    Onwards(m.env, m.shielded);
    var made :- m.Look(Recovery);
    if made {
      s := ReuseCopy(m);
    } else {
      s := FinishCopy(m);
    }
  }

  /** promotionMakeRecoveryCopy: a verified copy of the just-verified original at the recovery path, reusing
      one an earlier attempt finished. */
  method MakeRecoveryCopy(m: Machine) returns (s: Signal)
    requires m.Valid() && m.Mem()
    requires m.p.mode == Copying && m.Scratch()
    requires Holds(m.v, Library, m.job.original)
    modifies m`v, m`clock, m`trail, m`guests, m`dur, m`shared, m`p
    ensures m.Kept() && m.Mem() && m.Stored() && SameButCopy(old(m.p), m.p) && m.FilesKept()
    ensures s.Go? ==> m.p == m.dur && m.p.backupVerified && Holds(m.v, Recovery, m.job.original)
    ensures s.Plain()
    ensures old(m.Quiet()) && old(m.trail.own) ==> s.Go?
    ensures old(Interruptible(m, 2)) ==> s.Died? && !Absent(m.v, Partial) && m.dur == old(m.dur)
  {
    hide At, Judge, Faceless, GuestsHome, Dated, CalmFrom, SameButCopy, Onward, Interruptible;
    Onwards(m.env, m.shielded);
    SameButCopyAtAll(m.p);
    s := CopyOrReuse(m);
    if s.Go? { s := RecordBackup(m); }
  }

  /** Is a copy, or a partial, of an earlier attempt there? Any doubt says yes. */
  method FindLeftover(m: Machine) returns (s: Signal, left: bool)
    requires m.Valid() && m.Mem()
    modifies m`v, m`clock, m`trail, m`guests
    ensures m.Looked() && m.Mem() && (s.Go? || s.Died?)
    ensures s.Go? && !left ==> Absent(m.v, Recovery) && Absent(m.v, Partial)
    ensures old(m.Quiet()) ==> s.Go? && (left <==> !Absent(m.v, Recovery) || !Absent(m.v, Partial))
    ensures s.Go? && !left ==> m.clock == old(m.clock) + 2
  {
    hide At, Judge, Faceless, GuestsHome, Dated, CalmFrom, Onward;
    Onwards(m.env, m.shielded);
    s, left := m.Look(Recovery);
    if !s.Go? || left { return if s.Died? then Died else Go, true; }
    s, left := m.Look(Partial);
    if !s.Go? { return if s.Died? then Died else Go, true; }
  }

  /** promotionChooseRecovery: move aside unless something rules it out. */
  method ChooseRecovery(m: Machine) returns (s: Signal, mode: Mode)
    requires m.Valid() && m.Mem()
    modifies m`v, m`clock, m`trail, m`guests
    ensures m.Looked() && m.Mem()
    ensures mode != Undecided
    ensures s.Go? && mode == MovingAside ==> !m.forcesCopy && Absent(m.v, Recovery) && Absent(m.v, Partial)
    ensures mode == MovingAside ==> old(m.env(m.clock)).stable
    ensures s.Go? || s.Died?
    ensures old(m.Quiet()) ==> s.Go?
    ensures old(m.Quiet()) ==>
      (mode == MovingAside <==> !m.forcesCopy && old(m.Stable()) && Absent(m.v, Recovery) && Absent(m.v, Partial))
    ensures s.Go? && mode == MovingAside ==>
      m.clock == old(m.clock) + 4 && Felt(m.env(old(m.clock) + 3), m.shielded).fault.Calm?
  {
    hide At, Judge, Faceless, GuestsHome, Dated, CalmFrom, Onward;
    Onwards(m.env, m.shielded);
    mode := Copying;
    if m.forcesCopy { return Go, Copying; }
    var stable, left;
    s, stable := m.Identify();
    if !s.Go? || !stable { return; }
    s, left := FindLeftover(m);
    if !s.Go? || left { return; }
    var probe := m.Proceed();
    if !probe.Go? { return if probe.Died? then Died else Go, Copying; }
    return Go, MovingAside;
  }

  /** A mode once recorded stays; a first run moves aside whenever nothing rules it out. */
  predicate Moves(m: Machine, v: Volume, r: Record) {
    if r.mode == Undecided then !m.forcesCopy && Absent(v, Recovery) && Absent(v, Partial) else r.mode == MovingAside
  }

  /** The mode a retry keeps, or the one chosen now; moving aside needs the original's identity. */
  method SettleMode(m: Machine) returns (s: Signal, mode: Mode)
    requires m.Valid() && m.Mem() && m.p.step == PRESERVE
    modifies m`v, m`clock, m`trail, m`guests
    ensures m.Looked() && m.Mem()
    ensures s.Go? ==> mode != Undecided && (mode == MovingAside ==> Absent(m.v, Recovery) && m.p.mode != Copying)
    ensures s.Go? && mode == MovingAside && m.p.mode != MovingAside ==> Absent(m.v, Partial)
    ensures s.Go? || s.Died?
    ensures old(m.Quiet()) ==> s.Go? && m.v == old(m.v) && (mode == MovingAside <==> old(m.Stable()) && Moves(m, m.v, m.p))
    ensures m.p.mode == MovingAside && old(m.Plain(1)) ==> s.Go? && m.clock == old(m.clock) + 1 && m.v == old(m.v)
    ensures s.Go? && m.p.mode == MovingAside ==> (mode == MovingAside <==> old(m.env(m.clock)).stable)
    ensures s.Go? && mode == MovingAside ==> m.clock > 0 && m.env(m.clock - 1).stable
  {
    hide At, Judge, Faceless, GuestsHome, CalmFrom, Dated, Onward;
    Onwards(m.env, m.shielded);
    s, mode := Go, m.p.mode;
    if mode == Undecided { s, mode := ChooseRecovery(m); }
    if s.Go? && mode == MovingAside {
      var stable;
      s, stable := m.Identify();
      if !stable { mode := Copying; }
      NothingLeft(m.job, m.v, m.p, m.trail);
    }
  }

  /** Record the mode, and in move-aside mode the identity of the original just read in full. */
  method RecordMode(m: Machine, mode: Mode)
    requires m.Valid() && m.Mem() && MayChoose(m.job, m.v, m.p, m.trail, mode)
    modifies m`p
    ensures m.Valid() && m.Mem()
    ensures m.p.recoveryNamed && m.p.mode == mode && (mode == MovingAside ==> InPlace(m.job, m.v, m.p))
  {
    hide At, Judge, Faceless, GuestsHome, CalmFrom, Dated, InPlace, Onward;
    Onwards(m.env, m.shielded);
    var known := m.PrintOf(Library);
    ChosenKeeps(m.job, m.v, m.p, m.trail, mode, known);
    m.p := Chosen(m.p, mode, Some(known));
  }

  method ReadBoth(m: Machine) returns (s: Signal)
    requires m.Valid() && m.Mem()
    modifies m`v, m`clock, m`trail, m`guests
    ensures m.Looked() && m.Mem()
    ensures s.Go? ==> Holds(m.v, Library, m.job.original)
    ensures old(m.Quiet()) && Holds(old(m.v), Library, m.job.original) && Holds(old(m.v), Staged, m.job.candidate) ==> s.Go?
    ensures old(m.Plain(2)) && Holds(old(m.v), Library, m.job.original) && Holds(old(m.v), Staged, m.job.candidate) ==>
      s.Go? && m.clock == old(m.clock) + 2 && m.v == old(m.v)
  {
    hide At, Judge, Faceless, GuestsHome, CalmFrom, Dated, Onward;
    Onwards(m.env, m.shielded);
    :- m.Read(Library, m.job.original);
    s := m.Read(Staged, m.job.candidate);
  }

  /** Both files are read in full, and the original is reserved for this promotion. */
  method VerifyBoth(m: Machine) returns (s: Signal)
    requires m.Valid() && m.Mem()
    modifies m`v, m`clock, m`trail, m`guests
    ensures m.Looked() && m.Mem()
    ensures s.Go? ==> Holds(m.v, Library, m.job.original)
    ensures old(m.Quiet()) && Holds(old(m.v), Library, m.job.original) && Holds(old(m.v), Staged, m.job.candidate) ==> s.Go?
    ensures old(m.Plain(4)) && Holds(old(m.v), Library, m.job.original) && Holds(old(m.v), Staged, m.job.candidate) ==>
      s.Go? && m.clock == old(m.clock) + 4 && m.v == old(m.v)
    ensures (old(m.TurnedAway()) ==> s.Err?) && (old(m.HeldUp()) ==> s.Wait?)
  {
    hide Machine.TurnedAway, Machine.HeldUp, At, Judge, Faceless, GuestsHome, CalmFrom, Dated, Onward;
    Onwards(m.env, m.shielded);
    :- m.Enter();
    :- ReadBoth(m);
    s := m.Proceed();
  }

  /** The recovery path is recorded before anything is put there. */
  method NameRecovery(m: Machine) returns (s: Signal)
    requires m.Valid() && m.Mem() && m.p == m.dur
    modifies m`v, m`clock, m`trail, m`guests, m`dur, m`shared, m`p
    ensures m.Kept() && m.Mem() && m.Stored() && m.FilesKept()
    ensures m.p.step == old(m.p.step) && (s.Go? ==> m.p == m.dur && m.p.recoveryNamed)
    ensures m.p.mode == old(m.p.mode)
    ensures old(m.Quiet()) ==> s.Go? && m.v == old(m.v)
    ensures old(m.p).recoveryNamed ==>
      s.Go? && m.p == old(m.p) && m.dur == old(m.dur) && m.v == old(m.v) && m.clock == old(m.clock) && m.shared == old(m.shared)
  {
    hide At, Judge, Faceless, GuestsHome, CalmFrom, Dated, Named, Onward;
    Onwards(m.env, m.shielded);
    if m.p.recoveryNamed { return Go; }
    NamedKeeps(m.job, m.v, m.p, m.trail);
    m.p := Named(m.p);
    s := m.Save();
  }

  /** Save a record under which the original is preserved. */
  method SavePreserved(m: Machine) returns (s: Signal)
    requires m.Valid() && m.Mem() && Preserved(m.job, m.v, m.p)
    modifies m`v, m`clock, m`trail, m`guests, m`dur, m`shared
    ensures m.Kept() && m.Mem() && m.Stored()
    ensures s.Go? ==> m.p == m.dur && Preserved(m.job, m.v, m.p)
    ensures old(m.Quiet()) ==> s.Go? && m.v == old(m.v)
  {
    hide At, Judge, Faceless, GuestsHome, CalmFrom, Dated, Preserved, Undisturbed, Onward;
    Onwards(m.env, m.shielded);
    s := m.Save();
    PreservedStays(m.job, old(m.v), m.v, m.p);
  }

  /** In move-aside mode nothing moves yet; otherwise the copy is made now. */
  method KeepOriginal(m: Machine, mode: Mode) returns (s: Signal)
    requires m.Valid() && m.Mem() && m.p == m.dur && MayChoose(m.job, m.v, m.p, m.trail, mode)
    requires m.trail.fate == Clear && m.dur.mode == MovingAside ==> mode == MovingAside
    modifies m`v, m`clock, m`trail, m`guests, m`dur, m`shared, m`p
    ensures m.Kept() && m.Mem() && m.Stored()
    ensures s.Go? ==> m.p == m.dur && Preserved(m.job, m.v, m.p)
    ensures s.Go? ==> m.p.mode == mode && (mode == Copying ==> m.p.provedBefore)
    ensures old(m.Quiet()) && old(m.trail.own) ==> s.Go?
    ensures old(m.Quiet()) && mode == MovingAside ==> m.v == old(m.v)
    ensures mode == Copying && old(Interruptible(m, 2)) ==> s.Died? && !Absent(m.v, Partial) && m.dur == old(m.dur)
  {
    hide At, Judge, Faceless, GuestsHome, CalmFrom, Dated, InPlace, Chosen, Proved, Onward;
    Onwards(m.env, m.shielded);
    RecordMode(m, mode);
    NothingLeft(m.job, m.v, m.dur, m.trail);
    NothingLeft(m.job, m.v, m.p, m.trail);
    if mode == Copying {
      :- MakeRecoveryCopy(m);
      ProvedKeeps(m.job, m.v, m.p, m.trail);
      m.p := Proved(m.p);
    }
    s := SavePreserved(m);
  }

  /** The original has lost its identity since move-aside mode was recorded, and the process dies while it is
      copied instead. */
  ghost predicate LosesIdentity(m: Machine)
    reads m
  {
    && m.trail.own && m.p.mode == MovingAside && m.p.recoveryNamed && Absent(m.v, Partial) && !m.shared
    && Losing(m.env, m.clock, m.shielded)
  }

  /** After eight calls that succeed, the sixth of which finds no identity, the process dies. */
  ghost predicate Losing(env: nat -> Event, clock: nat, shielded: bool) {
    && !env(clock + 5).stable && Machine.CutOff(env(clock + 8))
    && forall n :: clock <= n < clock + 8 ==> Succeeds(Felt(env(n), shielded))
  }

  lemma LosingAt(m: Machine, clock: nat)
    requires Losing(m.env, clock, m.shielded)
    ensures m.clock == clock ==> m.Plain(5)
    ensures m.clock == clock + 5 ==> m.Plain(1) && !m.Stable()
    ensures m.clock == clock + 6 ==> m.Plain(2) && Machine.CutOff(m.env(m.clock + 2))
  {
  }

  /** The checks of the preserve step. */
  method CheckFirst(m: Machine) returns (s: Signal)
    requires m.Valid() && m.Mem() && m.p == m.dur && m.p.step == PRESERVE
    modifies m`v, m`clock, m`trail, m`guests, m`dur, m`shared, m`p
    ensures m.Kept() && m.Mem() && m.Stored() && m.p.step == old(m.p.step)
    ensures s.Go? ==> m.p == m.dur && m.p.recoveryNamed && Holds(m.v, Library, m.job.original)
    ensures old(m.Quiet()) && old(m.trail.own) ==> s.Go? && m.v == old(m.v) && m.p.mode == old(m.p.mode)
    ensures old(m.trail.own) && old(m.p).recoveryNamed && old(m.Plain(5)) ==>
      s.Go? && m.v == old(m.v) && m.p == old(m.p) && m.clock == old(m.clock) + 5 && m.shared == old(m.shared)
    ensures (old(m.TurnedAway()) ==> s.Err?) && (old(m.HeldUp()) ==> s.Wait?)
  {
    hide Machine.TurnedAway, Machine.HeldUp, At, Judge, Faceless, GuestsHome, CalmFrom, Dated, InPlace, Onward;
    Onwards(m.env, m.shielded);
    NothingLeft(m.job, m.v, m.p, m.trail);
    s := VerifyBoth(m);
    if s.Go? { s := NameRecovery(m); }
    if s.Go? { s := m.Proceed(); }
  }

  /** With the original just read whole, that mode may be recorded. */
  method SettleChecked(m: Machine) returns (s: Signal, mode: Mode)
    requires m.Valid() && m.Mem() && m.p == m.dur && m.p.step == PRESERVE
    requires m.p.recoveryNamed && Holds(m.v, Library, m.job.original)
    modifies m`v, m`clock, m`trail, m`guests
    ensures m.Looked() && m.Mem()
    ensures s.Go? ==> MayChoose(m.job, m.v, m.p, m.trail, mode)
    ensures s.Go? && Steadfast(m.env) && m.dur.mode == MovingAside ==> mode == MovingAside
    ensures old(m.Quiet()) ==> s.Go? && m.v == old(m.v) && (mode == MovingAside <==> old(m.Stable()) && Moves(m, m.v, m.p))
    ensures m.p.mode == MovingAside && old(m.Plain(1)) ==>
      s.Go? && m.clock == old(m.clock) + 1 && m.v == old(m.v) && (mode == MovingAside <==> old(m.Stable()))
    ensures !s.Wait? && !s.Err? && (s.Go? ==> mode != Undecided)
  {
    hide At, Judge, Faceless, GuestsHome, CalmFrom, Dated, Onward, Moves;
    Onwards(m.env, m.shielded);
    NothingLeft(m.job, m.v, m.p, m.trail);
    s, mode := SettleMode(m);
  }

  /** And the mode it goes on in. */
  method BeginPreserve(m: Machine) returns (s: Signal, mode: Mode)
    requires m.Valid() && m.Mem() && m.p == m.dur && m.p.step == PRESERVE
    modifies m`v, m`clock, m`trail, m`guests, m`dur, m`shared, m`p
    ensures m.Kept() && m.Mem() && m.Stored()
    ensures s.Go? ==> m.p == m.dur && MayChoose(m.job, m.v, m.p, m.trail, mode)
    ensures s.Go? && Steadfast(m.env) && m.dur.mode == MovingAside ==> mode == MovingAside
    ensures old(m.Quiet()) && old(m.trail.own) ==>
      s.Go? && m.v == old(m.v) && m.p.mode == old(m.p.mode) && (mode == MovingAside <==> old(m.Stable()) && Moves(m, m.v, m.p))
    ensures old(LosesIdentity(m)) ==> s.Go? && mode == Copying && Interruptible(m, 2) && m.dur == old(m.dur)
    ensures (old(m.TurnedAway()) ==> s.Err?) && (old(m.HeldUp()) ==> s.Wait?)
  {
    hide Machine.TurnedAway, Machine.HeldUp, At, Judge, Faceless, GuestsHome, CalmFrom, Dated, Onward, Moves, MayChoose, Machine.Plain, Losing;
    Onwards(m.env, m.shielded);
    NothingLeft(m.job, m.v, m.p, m.trail);
    mode := Copying;
    ghost var loses := LosesIdentity(m);
    if loses { LosingAt(m, m.clock); }
    s := CheckFirst(m);
    if loses { LosingAt(m, old(m.clock)); }
    if s.Go? { s, mode := SettleChecked(m); }
    if loses { LosingAt(m, old(m.clock)); }
  }

  /** stepPromotePreserve. A retry that finds the identity lost copies instead; interrupted there, it leaves a
      partial beside the mode that was recorded. */
  method Preserve(m: Machine) returns (s: Signal)
    requires m.Valid() && m.Mem() && m.p == m.dur && m.p.step == PRESERVE
    requires m.trail.fate == Clear ==> Steadfast(m.env)
    modifies m`v, m`clock, m`trail, m`guests, m`dur, m`shared, m`p
    ensures m.Kept() && m.Mem() && m.Stored()
    ensures s.Go? ==> m.p == m.dur && Preserved(m.job, m.v, m.p) && (m.p.mode == Copying ==> m.p.provedBefore)
    ensures old(m.Quiet()) && old(m.trail.own) ==>
      s.Go? && (m.p.mode == MovingAside <==> old(m.Stable()) && Moves(m, old(m.v), old(m.p)))
    ensures old(m.Quiet()) && old(m.trail.own) && old(m.Stable()) ==> (Blocked(m.v, m.p) <==> Blocked(old(m.v), old(m.p)))
    ensures old(LosesIdentity(m)) ==> s.Died? && Blocked(m.v, m.dur) && m.dur == old(m.dur)
    ensures (old(m.TurnedAway()) ==> s.Err?) && (old(m.HeldUp()) ==> s.Wait?)
  {
    hide Machine.TurnedAway, Machine.HeldUp, At, Judge, Faceless, GuestsHome, CalmFrom, Dated, InPlace, Onward;
    Onwards(m.env, m.shielded);
    NothingLeft(m.job, m.v, m.p, m.trail);
    var mode;
    s, mode := BeginPreserve(m);
    if s.Go? { s := KeepOriginal(m, mode); }
    NothingLeft(m.job, m.v, m.dur, m.trail);
    NothingLeft(m.job, m.v, m.p, m.trail);
  }
}
