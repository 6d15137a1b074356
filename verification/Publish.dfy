/**
 Publishing the candidate (action/promote_filesystem.go): the durable intent, the atomic rename, and the
 move back that follows a failure.
 */
module Publishing {
  import opened Volumes
  import opened Protocol
  import opened Effects
  import opened Records
  import opened Machines
  import opened Recoveries
  import opened MovesAside

  /** promotionInspectAdopted: the streams of the file under its final name, and all its bytes. */
  method InspectAdopted(m: Machine) returns (s: Signal)
    requires m.Valid() && m.Mem()
    modifies m`v, m`clock, m`trail, m`guests
    ensures m.Looked() && m.Mem() && s.Plain()
    ensures s.Go? ==> Holds(m.v, m.job.final, m.job.candidate) && m.clock == old(m.clock) + 2
    ensures old(m.Quiet()) && Holds(old(m.v), m.job.final, m.job.candidate) ==> s.Go?
  {
    hide At, Judge, Faceless, GuestsHome, CalmFrom, Dated, Onward;
    Onwards(m.env, m.shielded);
    :- m.Proceed();
    s := m.Read(m.job.final, m.job.candidate);
  }

  method ProveRecovery(m: Machine) returns (s: Signal)
    requires m.Valid() && m.Mem() && m.p.step == PUBLISH && !m.p.backStarted && !NeedsCopy(m.p)
    modifies m`v, m`clock, m`trail, m`guests
    ensures m.Looked() && m.Mem() && s.Plain()
    ensures s.Go? ==> Entering(m.job, m.v, m.p)
    ensures old(m.Quiet()) && old(m.trail.own) ==> s.Go?
  {
    hide At, Judge, Faceless, GuestsHome, CalmFrom, Dated, Onward, NeedsCopy, Recoverable;
    Onwards(m.env, m.shielded);
    AtPublish(m.job, m.v, m.p, m.trail);
    if m.trail.own { PublishResumes(m.job, m.v, m.p, m.trail); }
    s := VerifyRecovered(m);
  }

  /** A fallback copy that an earlier run left unfinished. */
  method FinishFallback(m: Machine) returns (s: Signal)
    requires m.Valid() && m.Mem() && m.p == m.dur
    modifies m`v, m`clock, m`trail, m`guests, m`dur, m`shared, m`p
    ensures m.Kept() && m.Mem() && m.Stored() && s.Plain()
    ensures s.Go? ==> m.p == m.dur && !NeedsCopy(m.p)
    ensures old(m.Quiet()) && old(m.trail.own) ==> s.Go?
    ensures old(m.trail.own) ==> Outlook(m.job, old(m.v), old(m.p), m.v, m.p)
    ensures !NeedsCopy(old(m.p)) ==> m.v == old(m.v) && m.p == old(m.p)
    ensures m.p.publishStarted == old(m.p).publishStarted && Stands(old(m.p), m.p)
  {
    hide At, Judge, Faceless, GuestsHome, CalmFrom, Dated, Onward, SameButCopy, NeedsCopy, Mistaken, Blocked, Unmoved, Barred, Outlook;
    Onwards(m.env, m.shielded);
    if m.p.mode != Copying { AsideNeedsNone(m.p); }
    s := ResumeFallbackCopy(m);
    if old(m.trail.own) { OutlookKept(m.job, old(m.v), old(m.p), m.v, m.p, old(m.trail)); }
  }

  /** Finish what an earlier run left unsettled: a fallback copy, a move back. */
  method FinishUnsettled(m: Machine) returns (s: Signal)
    requires m.Valid() && m.Mem() && m.p == m.dur && m.p.step == PUBLISH
    modifies m`v, m`clock, m`trail, m`guests, m`dur, m`shared, m`p
    ensures m.Kept() && m.Mem() && m.Stored() && s.Plain()
    ensures s.Go? ==> m.p == m.dur && !NeedsCopy(m.p) && !m.p.backStarted && m.p.mode == old(m.p).mode
    ensures old(m.Quiet()) && old(m.trail.own) ==> s.Go? && Outlook(m.job, old(m.v), old(m.p), m.v, m.p)
    ensures old(m.Quiet()) && !NeedsCopy(old(m.p)) ==> m.v == old(m.v)
    ensures m.p.publishStarted == old(m.p).publishStarted
  {
    hide At, Judge, Faceless, GuestsHome, CalmFrom, Dated, Onward, BackHome, NeedsCopy, Mistaken, Blocked, Unmoved, Barred, Outlook, Undisturbed, Untouched;
    Onwards(m.env, m.shielded);
    s := FinishFallback(m);
    if s.Go? {
      ghost var v, p, t := m.v, m.p, m.trail;
      AtPublish(m.job, m.v, m.p, m.trail);
      s := ResumeMoveBack(m);
      AtPublish(m.job, m.v, m.p, m.trail);
      if s.Go? && m.p.mode != Copying { AsideNeedsNone(m.p); }
      if s.Go? && old(m.Quiet()) && old(m.trail.own) {
        OutlookBack(m.job, v, p, m.p, t);
        OutlookChain(m.job, old(m.v), old(m.p), v, p, m.v, m.p);
      }
    }
  }

  /** Then prove the recovery. */
  method SettleRecovery(m: Machine) returns (s: Signal)
    requires m.Valid() && m.Mem() && m.p == m.dur && m.p.step == PUBLISH
    modifies m`v, m`clock, m`trail, m`guests, m`dur, m`shared, m`p
    ensures m.Kept() && m.Mem() && m.Stored() && s.Plain()
    ensures s.Go? ==> m.p == m.dur && !NeedsCopy(m.p) && !m.p.backStarted && Entering(m.job, m.v, m.p)
    ensures s.Go? ==> m.p.mode == old(m.p).mode
    ensures old(m.Quiet()) && old(m.trail.own) ==> s.Go? && Outlook(m.job, old(m.v), old(m.p), m.v, m.p)
    ensures old(m.Quiet()) && !NeedsCopy(old(m.p)) ==> m.v == old(m.v)
    ensures m.p.publishStarted == old(m.p).publishStarted
  {
    hide At, Judge, Faceless, GuestsHome, CalmFrom, Dated, Onward, Entering, NeedsCopy, Outlook;
    Onwards(m.env, m.shielded);
    s := FinishUnsettled(m);
    if s.Go? { s := ProveRecovery(m); }
  }

  /** Save that the candidate is published under its name, as a full read just proved. */
  method RecordPublished(m: Machine) returns (s: Signal)
    requires m.Valid() && m.Mem() && m.p.step == PUBLISH && m.p.publishStarted && !m.p.backStarted
    requires Holds(m.v, m.job.final, m.job.candidate)
    modifies m`v, m`clock, m`trail, m`guests, m`dur, m`shared, m`p
    ensures Stands(old(m.p), m.p)
    ensures m.Kept() && m.Mem() && m.Stored() && s.Plain()
    ensures s.Go? ==> m.p == m.dur
    ensures Completed(m.job, m.v, m.p) && m.p.published && !Absent(m.v, m.job.final)
    ensures old(m.Quiet()) ==> s.Go? && m.v == old(m.v)
    ensures m.clock == old(m.clock) + 1
  {
    hide At, Judge, Faceless, GuestsHome, CalmFrom, Dated, Onward, Published;
    Onwards(m.env, m.shielded);
    AtPublish(m.job, m.v, m.p, m.trail);
    PublishedKeeps(m.job, m.v, m.p, m.trail);
    m.p := Published(m.p);
    s := m.Save();
    CompletedStays(m.job, old(m.v), m.v, m.p);
  }

  /** A saved publish intent and the candidate's bytes under its name prove an earlier publication. */
  method ConfirmEarlier(m: Machine) returns (s: Signal, done: bool)
    requires m.Valid() && m.Mem() && m.p == m.dur && Entering(m.job, m.v, m.p)
    modifies m`v, m`clock, m`trail, m`guests, m`dur, m`shared, m`p
    ensures Stands(old(m.p), m.p)
    ensures m.Kept() && m.Mem() && m.Stored() && s.Plain()
    ensures s.Go? && done ==> m.p == m.dur && Completed(m.job, m.v, m.p)
    ensures !done && !s.Died? ==> s.Go? && m.p == m.dur && m.p == old(m.p) && Entering(m.job, m.v, m.p)
    ensures done ==> m.p.published && Completed(m.job, m.v, m.p)
    ensures old(m.Quiet()) ==> s.Go?
    ensures old(m.Quiet()) ==>
      m.v == old(m.v) && (done <==> old(m.p).publishStarted && Holds(m.v, m.job.final, m.job.candidate))
  {
    hide At, Judge, Faceless, GuestsHome, CalmFrom, Dated, Onward, Completed;
    Onwards(m.env, m.shielded);
    if !m.p.publishStarted { return Go, false; }
    var found := m.Read(m.job.final, m.job.candidate);
    if found.Died? { return Died, false; }
    if !found.Go? { return Go, false; }
    s := RecordPublished(m);
    done := true;
  }

  /** How many files are read again, in full. */
  function Reads(r: Record): nat {
    if r.movedAside || r.asideStarted then 1 else 2
  }

  /** Once a move aside started, the recovery check and the move itself prove the original. */
  method VerifyBothAgain(m: Machine) returns (s: Signal)
    requires m.Valid() && m.Mem()
    modifies m`v, m`clock, m`trail, m`guests
    ensures m.Looked() && m.Mem() && s.Plain()
    ensures s.Go? ==> BothWhole(m.job, m.v, m.p)
    ensures old(m.Quiet()) && BothWhole(m.job, old(m.v), m.p) ==> s.Go?
    ensures s.Go? ==> m.clock == old(m.clock) + Reads(m.p)
  {
    hide At, Judge, Faceless, GuestsHome, CalmFrom, Dated, Onward;
    Onwards(m.env, m.shielded);
    if !m.p.movedAside && !m.p.asideStarted {
      :- m.Read(Library, m.job.original);
    }
    s := m.Read(Staged, m.job.candidate);
  }

  /** Both files verified and the name free, the intent is saved. */
  method AnnouncePublish(m: Machine) returns (s: Signal)
    requires m.Valid() && m.Mem() && Entering(m.job, m.v, m.p)
    modifies m`v, m`clock, m`trail, m`guests, m`dur, m`shared, m`p, m`cleared
    ensures Stands(old(m.p), m.p)
    ensures m.Kept() && m.Mem() && m.Stored() && s.Plain()
    ensures s.Go? ==> m.p == m.dur && m.p.publishStarted && Entering(m.job, m.v, m.p)
    ensures old(m.Quiet()) && BothWhole(m.job, old(m.v), old(m.p)) && (SameName(m.job) || Absent(old(m.v), Final)) ==>
      s.Go? && m.v == old(m.v) && BothWhole(m.job, m.v, m.p)
    ensures s.Go? ==> m.clock == old(m.clock) + Reads(old(m.p)) + (if SameName(m.job) then 1 else 2)
    ensures !SameName(m.job) && !Absent(old(m.v), Final) ==> !s.Go? && m.p == old(m.p)
  {
    hide At, Judge, Faceless, GuestsHome, CalmFrom, Dated, Onward, PublishIntended, Entering, BothWhole;
    Onwards(m.env, m.shielded);
    :- VerifyBothAgain(m);
    if !SameName(m.job) {
      var taken :- m.Look(Final);
      if taken { return Err(Stopped); }
    }
    EnteringStays(m.job, old(m.v), m.v, m.p);
    s := SaveAnnounced(m);
  }

  method SaveAnnounced(m: Machine) returns (s: Signal)
    requires m.Valid() && m.Mem() && Entering(m.job, m.v, m.p)
    modifies m`v, m`clock, m`trail, m`guests, m`dur, m`shared, m`p, m`cleared
    ensures Stands(old(m.p), m.p)
    ensures m.Kept() && m.Mem() && m.Stored() && s.Plain()
    ensures s.Go? ==> m.p == m.dur && m.p.publishStarted && Entering(m.job, m.v, m.p)
    ensures BothWhole(m.job, old(m.v), old(m.p)) && m.v == old(m.v) ==> BothWhole(m.job, m.v, m.p)
    ensures old(m.Quiet()) ==> s.Go? && m.v == old(m.v)
    ensures !m.cleared && m.clock == old(m.clock) + 1
  {
    hide At, Judge, Faceless, GuestsHome, CalmFrom, Dated, Onward, PublishIntended, Entering, BothWhole;
    Onwards(m.env, m.shielded);
    PublishIntendedKeeps(m.job, m.v, m.p, m.trail);
    m.p, m.cleared := PublishIntended(m.p), false;
    ghost var before := m.v;
    s := m.Save();
    EnteringStays(m.job, before, m.v, m.p);
  }

  /** The mode stays, unless a refused move aside turned it into a verified copy. */
  predicate ModeKept(j: Job, r0: Record, r1: Record) {
    r1.mode == r0.mode || Turned(j, r0, r1)
  }

  predicate Turned(j: Job, r0: Record, r1: Record) {
    SameName(j) && r0.mode == MovingAside && r1.mode == Copying && r1.refused && r1.backupVerified
  }

  /** In move-aside mode a same-name original leaves its path first. */
  method Vacate(m: Machine) returns (s: Signal)
    requires m.Valid() && m.Mem() && m.cleared && m.p == m.dur && Verified(m.job, m.v, m.p)
    modifies m`v, m`clock, m`trail, m`guests, m`dur, m`shared, m`p
    ensures m.Kept() && m.Mem() && m.Stored() && !s.Wait?
    ensures s.Go? ==> m.p == m.dur && Publishable(m.job, m.v, m.p)
    ensures s.Go? ==> m.p.publishStarted && !m.p.backStarted && m.p.step == PUBLISH
    ensures old(m.Quiet()) && old(m.trail.own && !Barred(m.v, m.p, m.Stable())) && (SameName(m.job) || Absent(old(m.v), Final)) ==>
      s.Go? && (Overwrites(m.job, m.p) || Absent(m.v, m.job.final)) && ModeKept(m.job, old(m.p), m.p)
    ensures old(m.Quiet()) && old(m.trail.own && !Barred(m.v, m.p, m.Stable())) && SameName(m.job) && old(m.p).mode == MovingAside ==>
      if old(WillRefuse(m)) then Turned(m.job, old(m.p), m.p) else m.p.mode == MovingAside && Absent(m.v, Library)
  {
    hide At, Judge, Faceless, GuestsHome, CalmFrom, Dated, Onward, Verified, Leaving, Safe, Publishable, Overwrites;
    Onwards(m.env, m.shielded);
    VerifiedMeans(m.job, m.v, m.p, m.trail);
    if SameName(m.job) && m.p.mode == MovingAside {
      :- PreserveForRemoval(m);
      SafeToPublish(m.job, m.v, m.p);
      if m.trail.own && m.p.mode == MovingAside { NameIsFree(m.job, m.v, m.p, m.trail); }
    } else {
      OverwritesOr(m.job, m.p);
    }
    return Go;
  }

  /** Then the candidate takes the name. */
  method TakeName(m: Machine) returns (s: Signal)
    requires m.Valid() && m.Mem() && m.cleared && m.p == m.dur && Verified(m.job, m.v, m.p)
    modifies m`v, m`clock, m`trail, m`guests, m`dur, m`shared, m`p
    ensures m.Kept() && m.Mem() && m.Stored() && !s.Wait?
    ensures s.Go? ==> Holds(m.v, m.job.final, m.job.candidate) && Absent(m.v, Staged)
    ensures s.Go? ==> m.p.publishStarted && !m.p.backStarted && m.p.step == PUBLISH
    ensures old(m.Quiet()) && old(m.trail.own && !Barred(m.v, m.p, m.Stable())) && (SameName(m.job) || Absent(old(m.v), Final)) ==>
      s.Go? && ModeKept(m.job, old(m.p), m.p)
  {
    hide At, Judge, Faceless, GuestsHome, CalmFrom, Dated, Onward, Verified, Publishable, Overwrites, Failing, Visit;
    Onwards(m.env, m.shielded);
    :- Vacate(m);
    s := m.Publish();
  }

  method RecheckBoth(m: Machine) returns (s: Signal)
    requires m.Valid() && m.Mem() && Entering(m.job, m.v, m.p) && m.p.publishStarted
    modifies m`v, m`clock, m`trail, m`guests, m`cleared
    ensures m.Looked() && m.Mem()
    ensures s.Go? ==> Verified(m.job, m.v, m.p) && m.cleared
    ensures old(m.Quiet()) && BothWhole(m.job, old(m.v), m.p) ==> s.Go?
    ensures s.Go? ==> m.clock == old(m.clock) + 2 + Reads(m.p)
  {
    hide At, Judge, Faceless, GuestsHome, CalmFrom, Dated, Onward, Entering, BothWhole;
    Onwards(m.env, m.shielded);
    :- m.Proceed();
    EnteringStays(m.job, old(m.v), m.v, m.p);
    ghost var before := m.v;
    :- VerifyBothAgain(m);
    EnteringStays(m.job, before, m.v, m.p);
    ghost var verified := m.v;
    s := m.Admit();
    VerifiedStays(m.job, verified, m.v, m.p);
  }

  /** The file under the candidate's name is the candidate: the publication is recorded. */
  method ConfirmPublished(m: Machine) returns (s: Signal)
    requires m.Valid() && m.Mem() && m.p.step == PUBLISH && m.p.publishStarted && !m.p.backStarted
    requires Holds(m.v, m.job.final, m.job.candidate)
    modifies m`v, m`clock, m`trail, m`guests, m`dur, m`shared, m`p
    ensures m.Kept() && m.Mem() && m.Stored() && s.Plain()
    ensures s.Go? ==> m.p == m.dur && Completed(m.job, m.v, m.p)
    ensures !Absent(m.v, m.job.final)
    ensures old(m.Quiet()) ==> s.Go? && m.v == old(m.v) && Stands(old(m.p), m.p)
    ensures s.Go? ==> m.clock == old(m.clock) + 3    // it was read in full
  {
    hide At, Judge, Faceless, GuestsHome, CalmFrom, Dated, Onward, Completed;
    Onwards(m.env, m.shielded);
    AtPublish(m.job, m.v, m.p, m.trail);
    :- InspectAdopted(m);
    s := RecordPublished(m);
  }

  /** Under the saved intent: recheck both files and the approval, then mutate. */
  method PublishNow(m: Machine) returns (s: Signal, renamed: bool)
    requires m.Valid() && m.Mem() && m.p == m.dur && Entering(m.job, m.v, m.p) && m.p.publishStarted
    modifies m`v, m`clock, m`trail, m`guests, m`dur, m`shared, m`p, m`cleared
    ensures m.Kept() && m.Mem() && m.Stored()
    ensures s.Go? ==> m.p == m.dur && Completed(m.job, m.v, m.p)
    ensures (renamed ==> !Absent(m.v, m.job.final)) && (s.Go? ==> renamed)
    ensures old(m.Quiet()) && old(m.trail.own && !Barred(m.v, m.p, m.Stable())) && (SameName(m.job) || Absent(old(m.v), Final)) ==>
      BothWhole(m.job, old(m.v), old(m.p)) ==> s.Go? && Absent(m.v, Staged) && ModeKept(m.job, old(m.p), m.p)
  {
    hide At, Judge, Faceless, GuestsHome, CalmFrom, Dated, Onward, Entering, Verified, BothWhole, Completed;
    Onwards(m.env, m.shielded);
    renamed := false;
    s := RecheckBoth(m);
    if s.Go? {
      s := TakeName(m);
      if s.Go? {
        renamed := true;
        s := ConfirmPublished(m);
      }
    }
  }

  /** Up to the saved intent; done if an earlier run had published. */
  method AnnounceOrConfirm(m: Machine) returns (s: Signal, done: bool)
    requires m.Valid() && m.Mem() && m.p == m.dur && Entering(m.job, m.v, m.p) && !m.p.backStarted && !NeedsCopy(m.p)
    requires m.p.step == PUBLISH
    modifies m`v, m`clock, m`trail, m`guests, m`dur, m`shared, m`p, m`cleared
    ensures m.Kept() && m.Mem() && m.Stored() && s.Plain()
    ensures s.Go? ==> m.p == m.dur && if done then Completed(m.job, m.v, m.p) else Entering(m.job, m.v, m.p) && m.p.publishStarted
    ensures Stands(old(m.p), m.p) && (old(m.Quiet()) && old(m.trail.own) ==> s.Go? && m.v == old(m.v))
    ensures old(m.Quiet()) && old(m.trail.own) ==> (done <==> old(m.p).publishStarted && Holds(m.v, m.job.final, m.job.candidate))
    ensures old(m.Quiet()) && old(m.trail.own) && done ==> (Mistaken(m.job, m.v, old(m.p)) <==> !Absent(m.v, Staged))
    ensures old(m.Quiet()) && old(m.trail.own) && !done ==>
      BothWhole(m.job, m.v, m.p) && (SameName(m.job) || Absent(m.v, Final))
  {
    hide At, Judge, Faceless, GuestsHome, CalmFrom, Dated, Onward, NeedsCopy, BothWhole, Completed, Entering;
    Onwards(m.env, m.shielded);
    if m.trail.own {
      PublishResumes(m.job, m.v, m.p, m.trail);
      if m.p.publishStarted && Holds(m.v, m.job.final, m.job.candidate) { ConfirmedMeans(m.job, m.v, m.p, m.trail); }
    }
    s, done := ConfirmEarlier(m);
    if s.Go? && !done { s := AnnouncePublish(m); }
  }

  /** Everything before the mutation: settle what earlier runs left, then announce, or confirm. */
  method Ready(m: Machine) returns (s: Signal, done: bool)
    requires m.Valid() && m.Mem() && m.p == m.dur && m.p.step == PUBLISH
    modifies m`v, m`clock, m`trail, m`guests, m`dur, m`shared, m`p, m`cleared
    ensures m.Kept() && m.Mem() && m.Stored() && s.Plain()
    ensures s.Go? ==> m.p == m.dur && if done then Completed(m.job, m.v, m.p) else Entering(m.job, m.v, m.p) && m.p.publishStarted
    ensures s.Go? ==> m.p.mode == old(m.p).mode
    ensures old(m.Quiet()) && old(m.trail.own) ==> s.Go?
    ensures old(m.Quiet()) && old(m.trail.own) && !done ==>
      BothWhole(m.job, m.v, m.p) && (SameName(m.job) || Absent(m.v, Final)) && (!old(Barred(m.v, m.p, m.Stable())) ==> !Barred(m.v, m.p, m.Stable()))
    ensures old(m.Quiet()) && old(m.trail.own) && Mistaken(m.job, old(m.v), old(m.p)) ==> done
    ensures old(m.Quiet()) && old(m.trail.own) && done ==> (Mistaken(m.job, old(m.v), old(m.p)) <==> !Absent(m.v, Staged))
    ensures old(m.Quiet()) && old(m.trail.own) && !NeedsCopy(old(m.p)) && !old(m.p).publishStarted ==> !done && m.v == old(m.v)
  {
    hide At, Judge, Faceless, GuestsHome, CalmFrom, Dated, Onward, Entering, NeedsCopy, Completed, BothWhole;
    Onwards(m.env, m.shielded);
    done := false;
    s := SettleRecovery(m);
    if s.Go? { s, done := AnnounceOrConfirm(m); }
  }

  /** The candidate has left its temporary path, or an earlier publication was believed and nothing changed mode. */
  predicate Forward(j: Job, v0: Volume, r0: Record, v1: Volume, r1: Record) {
    && (Absent(v1, Staged) <==> !Mistaken(j, v0, r0))
    && (if Mistaken(j, v0, r0) then r1.mode == r0.mode else ModeKept(j, r0, r1))
  }

  /** localPromotionPublish up to the move back it defers. */
  method TryPublish(m: Machine) returns (s: Signal, renamed: bool)
    requires m.Valid() && m.Mem() && m.p == m.dur && m.p.step == PUBLISH
    modifies m`v, m`clock, m`trail, m`guests, m`dur, m`shared, m`p, m`cleared
    ensures m.Kept() && m.Mem() && m.Stored()
    ensures s.Go? ==> m.p == m.dur && Completed(m.job, m.v, m.p)
    ensures renamed ==> !Absent(m.v, m.job.final)
    ensures old(m.Quiet()) && old(m.trail.own && !Barred(m.v, m.p, m.Stable())) ==>
      s.Go? && Forward(m.job, old(m.v), old(m.p), m.v, m.p)
  {
    hide At, Judge, Faceless, GuestsHome, CalmFrom, Dated, Onward, Entering, NeedsCopy, Completed, BothWhole;
    Onwards(m.env, m.shielded);
    renamed := false;
    var done;
    s, done := Ready(m);
    if s.Go? && !done { s, renamed := PublishNow(m); }
  }

  /** promotionMoveBackAfterFailedPublish: its own failure only adds to the message. */
  method MoveBackAfterFailedPublish(m: Machine) returns (s: Signal)
    requires m.Valid() && m.Mem() && m.p.step == PUBLISH
    modifies m`v, m`clock, m`trail, m`guests, m`dur, m`shared, m`p, m`shielded
    ensures m.Kept() && m.Mem() && m.Stored() && m.shielded == old(m.shielded)
    ensures s.Go? || s.Died?
    ensures old(m.Steady()) && SameName(m.job) && old(m.p).mode == MovingAside ==> s.Go? && !Absent(m.v, Library)
    ensures old(m.p).mode != MovingAside ==> m.p == old(m.p)
  {
    hide At, Judge, Faceless, GuestsHome, CalmFrom, Dated, Onward, BackHome;
    if m.p.mode == MovingAside && !m.p.asideStarted { NotAnnounced(m.job, m.v, m.p, m.trail); }
    if !SameName(m.job) || m.p.mode != MovingAside || (!m.p.movedAside && !m.p.asideStarted) {
      Onwards(m.env, m.shielded);
      return Go;
    }
    var was := m.shielded;
    m.shielded := true;
    s := MoveBackIfEmpty(m);
    m.shielded := was;
    Unshielded(m.env, old(m.Now()), m.Now());
  }

  method MoveBackIfEmpty(m: Machine) returns (s: Signal)
    requires m.Valid() && m.Mem() && m.p.step == PUBLISH
    requires SameName(m.job) && m.p.mode == MovingAside && m.p.asideStarted
    modifies m`v, m`clock, m`trail, m`guests, m`dur, m`shared, m`p
    ensures m.Kept() && m.Mem() && m.Stored()
    ensures s.Go? || s.Died?
    ensures old(m.Quiet()) ==> s.Go? && !Absent(m.v, Library)
  {
    hide At, Judge, Faceless, GuestsHome, CalmFrom, Dated, Onward;
    Onwards(m.env, m.shielded);
    var look, home := m.Look(Library);
    if look.Died? { return Died; }
    if !look.Go? || home { return Go; }
    var back := ShieldedMoveBack(m);
    s := if back.Died? then Died else Go;
  }

  /** Whatever stops a same-name publish after the original left its path moves it back there, unless the
      candidate already has the name. */
  method PublishAdmitted(m: Machine) returns (s: Signal)
    requires m.Valid() && m.Mem() && m.p == m.dur && m.p.step == PUBLISH
    modifies m`v, m`clock, m`trail, m`guests, m`dur, m`shared, m`p, m`shielded, m`cleared
    ensures m.Kept() && m.Mem() && m.Stored() && m.shielded == old(m.shielded)
    ensures s.Go? ==> m.p == m.dur && Completed(m.job, m.v, m.p)
    ensures old(m.Quiet()) && old(m.trail.own && !Barred(m.v, m.p, m.Stable())) ==>
      s.Go? && Forward(m.job, old(m.v), old(m.p), m.v, m.p)
    ensures old(m.Steady()) && s.Err? && SameName(m.job) && m.p.mode == MovingAside && !m.p.published ==>
      !Absent(m.v, Library)
  {
    hide At, Judge, Faceless, GuestsHome, CalmFrom, Dated, Onward, Completed;
    Onwards(m.env, m.shielded);
    var renamed;
    s, renamed := TryPublish(m);
    if s.Err? && !renamed && !m.p.published {
      if old(m.Steady()) { CalmLater(m.env, old(m.clock), m.clock, true); }
      var back := MoveBackAfterFailedPublish(m);
      if back.Died? { s := Died; }
    }
  }

  /** localPromotionPublish. The move back is deferred only once the step is admitted: without other faults, a
      same-name publish leaves the library path empty exactly when it is turned away before that and found the
      path empty. */
  method Publish(m: Machine) returns (s: Signal)
    requires m.Valid() && m.Mem() && m.p == m.dur && m.p.step == PUBLISH
    requires !m.cleared
    modifies m`v, m`clock, m`trail, m`guests, m`dur, m`shared, m`p, m`shielded, m`cleared
    ensures m.Kept() && m.Mem() && m.Stored() && m.shielded == old(m.shielded)
    ensures s.Go? ==> m.p == m.dur && Completed(m.job, m.v, m.p)
    ensures old(m.Quiet()) && old(m.trail.own && !Barred(m.v, m.p, m.Stable())) ==>
      s.Go? && Forward(m.job, old(m.v), old(m.p), m.v, m.p)
    ensures old(m.TurnedAway()) ==> s.Err? && m.v == old(m.v)
    ensures old(m.Steady()) && s.Err? && SameName(m.job) && m.p.mode == MovingAside && !m.p.published ==>
      (Absent(m.v, Library) <==> old(m.TurnedAway()) && old(Absent(m.v, Library)))
    ensures old(m.HeldUp()) ==> s.Wait?
  {
    hide At, Judge, Faceless, GuestsHome, CalmFrom, Dated, Onward, Completed;
    Onwards(m.env, m.shielded);
    :- m.Enter();
    if old(m.Steady()) { CalmLater(m.env, old(m.clock), m.clock, true); }
    s := PublishAdmitted(m);
  }
}
