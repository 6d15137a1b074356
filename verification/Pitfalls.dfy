/**
 Three runs that reach the states a promotion does not recover from by itself, for every plan: a leftover
 partial beside a recorded move aside, a rerun that takes the untouched original for the published candidate,
 and a library path left empty by a withdrawn approval.
 */
module Pitfalls {
  import opened Volumes
  import opened Protocol
  import opened Effects
  import opened Records
  import opened Machines
  import opened Recoveries
  import opened Publishing
  import opened Backups
  import opened Lives
  import OldFiles

  const CALM := Event(Fault.Calm, Nobody, true, 0, true, false)
  const CUT_OFF := Event(Crash, Nobody, true, 0, true, false)
  const NO_IDENTITY := Event(Fault.Calm, Nobody, true, 0, false, false)
  const WITHDRAWN := Event(Revoked, Nobody, true, 0, true, false)

  const LOST: seq<Event> := [CALM, CALM, CALM, CALM, CALM, NO_IDENTITY, CALM, CALM, CUT_OFF]

  /** After what happened so far only this happens, and then nothing more. */
  function Later(past: nat -> Event, clock: nat, events: seq<Event>): nat -> Event {
    (n: nat) => if n < clock then past(n) else if n - clock < |events| then events[n - clock] else CALM
  }

  lemma LaterMeans(past: nat -> Event, clock: nat, events: seq<Event>)
    ensures forall n: nat :: n < clock ==> Later(past, clock, events)(n) == past(n)
    ensures events == [] ==> CalmFrom(Later(past, clock, events), clock, false) && Later(past, clock, events)(clock).stable
    ensures events == [] ==> forall n :: n >= clock ==> !Later(past, clock, events)(n).refuses
    ensures Untroubled(past) && (forall e :: e in events ==> e.stranger.Nobody?) ==> Untroubled(Later(past, clock, events))
  {
  }

  /** The preserve step ran and was saved, but the process died before the engine's checkpoint. */
  method Interrupt(job: Job, v: Volume, truncates: bool) returns (m: Machine)
    requires Planned(job, v)
    ensures fresh(m) && m.Valid() && m.Mem() && m.p == m.dur && !m.shared && !m.shielded && m.job == job
    ensures m.trail == Trail(true, Open) && Untroubled(m.env)
    ensures m.p.step == PRESERVE && m.p.mode == MovingAside && m.p.recoveryNamed && Absent(m.v, Partial)
  {
    var calm: nat -> Event := n => CALM;
    m := new Machine(job, v, calm, truncates, false);
    NothingLeft(m.job, m.v, m.p, m.trail);
    var s := Preserve(m);
    NothingLeft(m.job, m.v, m.p, m.trail);
    Restart(m, 0);
  }

  /** The next process finds everything calm so far. */
  method BecomesCalm(m: Machine)
    requires m.Valid() && !m.shielded && m.trail.fate == Open
    modifies m`env
    ensures m.Valid() && m.Quiet() && m.Stable() && m.Obliging() && (old(Untroubled(m.env)) ==> Untroubled(m.env))
  {
    hide At, Judge, Faceless, GuestsHome, Dated, CalmFrom, Untroubled, Later;
    LaterMeans(m.env, m.clock, []);
    m.Choose(Later(m.env, m.clock, []));
  }

  /** A retry of the preserve step loses the original's identity, and dies while it copies instead: beside the
      recorded move aside stands a partial. */
  method LeavePartial(job: Job, v: Volume, truncates: bool) returns (m: Machine)
    requires Planned(job, v)
    ensures fresh(m) && m.Valid() && m.Mem() && m.p == m.dur && !m.shared && !m.shielded && m.job == job
    ensures m.trail == Trail(true, Open) && Untroubled(m.env) && Blocked(m.v, m.dur)
  {
    hide At, Judge, Faceless, GuestsHome, Dated, Planned, CalmFrom, Untroubled;
    m := Interrupt(job, v, truncates);
    LaterMeans(m.env, m.clock, LOST);
    ghost var past := m.env;
    m.Choose(Later(m.env, m.clock, LOST));
    Loses(m, past);
    Onwards(m.env, m.shielded);
    var s := Preserve(m);
    Restart(m, 0);
  }

  lemma Loses(m: Machine, past: nat -> Event)
    requires m.trail.own && m.p.mode == MovingAside && m.p.recoveryNamed && Absent(m.v, Partial) && !m.shared
    requires m.env == Later(past, m.clock, LOST)
    ensures LosesIdentity(m)
  {
    hide At;
    assert m.env(m.clock + 5) == NO_IDENTITY && m.env(m.clock + 8) == CUT_OFF;
    forall n | m.clock <= n < m.clock + 8 ensures Succeeds(Felt(m.env(n), m.shielded)) {
      assert m.env(n) == LOST[n - m.clock];
    }
  }

  /** And then no undisturbed run ends any more. */
  method PartialBlocks(job: Job, v: Volume, truncates: bool) returns (m: Machine, s: Signal)
    requires Planned(job, v)
    ensures m.job == job && m.Valid() && m.trail.own && Untroubled(m.env)
    ensures !s.Go? && m.dur.step != DONE && !Replaced(job, m.v)
  {
    hide At, Judge, Faceless, GuestsHome, Dated, Planned, CalmFrom, Untroubled, Replaced;
    m := LeavePartial(job, v, truncates);
    BecomesCalm(m);
    Onwards(m.env, m.shielded);
    s := Execute(m);
  }

  /** A preserved original, with the checkpoint at the publish step. */
  method Reach(job: Job, v: Volume, truncates: bool, forcesCopy: bool) returns (m: Machine)
    requires Planned(job, v)
    ensures fresh(m) && m.Valid() && m.Mem() && m.p == m.dur && !m.shared && !m.shielded && m.job == job
    ensures m.trail == Trail(true, Open) && Untroubled(m.env) && m.Quiet() && m.Stable()
    ensures m.p.step == PUBLISH && !m.p.publishStarted && !NeedsCopy(m.p) && !Blocked(m.v, m.p)
    ensures m.p.mode == (if forcesCopy then Copying else MovingAside) && Holds(m.v, Library, job.original)
    ensures !m.p.asideStarted
  {
    hide At, Judge, Faceless, GuestsHome, Dated;
    var calm: nat -> Event := n => CALM;
    m := new Machine(job, v, calm, truncates, forcesCopy);
    Onwards(m.env, m.shielded);
    var s := Preserve(m);
    AtPreserve(m.job, m.v, m.p, m.trail);
    s := Checkpoint(m, true);
  }

  lemma AtPreserve(j: Job, v: Volume, r: Record, t: Trail)
    requires Good(j, v, r, t) && t.own && r.step == PRESERVE && Preserved(j, v, r)
    ensures Completed(j, v, r) && !r.publishStarted && !NeedsCopy(r) && Holds(v, Library, j.original) && !r.asideStarted
  {
    hide At;
  }

  /** The intent to publish is saved. */
  method Announced(job: Job, v: Volume, truncates: bool, forcesCopy: bool) returns (m: Machine)
    requires Planned(job, v)
    ensures fresh(m) && m.Valid() && m.Mem() && m.p == m.dur && !m.shielded && m.job == job
    ensures m.trail == Trail(true, Open) && Untroubled(m.env) && m.Quiet() && m.Stable()
    ensures Entering(job, m.v, m.p) && m.p.publishStarted && BothWhole(job, m.v, m.p) && !Blocked(m.v, m.p)
    ensures m.p.mode == (if forcesCopy then Copying else MovingAside) && Holds(m.v, Library, job.original)
  {
    hide At, Judge, Faceless, GuestsHome, Dated, Planned, CalmFrom, Untroubled, NeedsCopy, Entering, BothWhole;
    m := Reach(job, v, truncates, forcesCopy);
    Onwards(m.env, m.shielded);
    var s := m.Enter();
    var done;
    s, done := Ready(m);
  }

  /** The original loses its identity for good before it was moved aside as recorded: no undisturbed run ends any
      more. Lost before the preserve step, it is copied, and the run ends as any other. */
  method IdentityGone(job: Job, v: Volume, truncates: bool, preserved: bool) returns (m: Machine, s: Signal)
    requires Planned(job, v) && Distinguishable(job)
    ensures m.job == job && m.Valid() && m.trail.own && Untroubled(m.env)
    ensures (s.Go? <==> !preserved) && (m.dur.step == DONE <==> !preserved) && (Replaced(job, m.v) <==> !preserved)
  {
    hide At, Judge, Faceless, GuestsHome, Dated, Untroubled, Replaced, Mistaken;
    if preserved {
      m := Reach(job, v, truncates, false);
      EmptyRecovery(m.job, m.v, m.p, m.trail);
    } else {
      var calm: nat -> Event := n => CALM;
      m := new Machine(job, v, calm, truncates, false);
      CalmIsUntroubled(calm);
    }
    GoneMeans(m.env, m.clock);
    m.Choose(Gone(m.env, m.clock));
    Onwards(m.env, m.shielded);
    s := Execute(m);
  }

  /** The identity is gone from some call on. */
  function Gone(past: nat -> Event, clock: nat): nat -> Event {
    (n: nat) => if n < clock then past(n) else NO_IDENTITY
  }

  lemma GoneMeans(past: nat -> Event, clock: nat)
    ensures forall n: nat :: n < clock ==> Gone(past, clock)(n) == past(n)
    ensures CalmFrom(Gone(past, clock), clock, false) && !Gone(past, clock)(clock).stable
    ensures Untroubled(past) ==> Untroubled(Gone(past, clock))
  {
  }

  lemma CalmIsUntroubled(env: nat -> Event)
    requires forall n :: env(n) == CALM
    ensures Untroubled(env)
  {
  }

  /** Before its move is announced, the recovery path is empty. */
  lemma EmptyRecovery(j: Job, v: Volume, r: Record, t: Trail)
    requires Good(j, v, r, t) && r.step == PUBLISH && r.mode == MovingAside && !r.asideStarted
    ensures Unmoved(v, r)
  {
  }

  /** With one name for two equal files, the process then dies before the rename. */
  method LeaveIntent(job: Job, v: Volume, truncates: bool, forcesCopy: bool) returns (m: Machine)
    requires Planned(job, v) && !Distinguishable(job)
    ensures fresh(m) && m.Valid() && m.Mem() && m.p == m.dur && !m.shared && !m.shielded && m.job == job
    ensures m.trail == Trail(true, Open) && Untroubled(m.env) && m.Quiet() && m.Stable()
    ensures Mistaken(job, m.v, m.dur) && !Blocked(m.v, m.dur) && m.dur.mode == (if forcesCopy then Copying else MovingAside)
  {
    hide At, Judge, Faceless, GuestsHome, Dated, Planned, CalmFrom, Untroubled;
    m := Announced(job, v, truncates, forcesCopy);
    Restart(m, 0);
  }

  /** Then an undisturbed run believes it has published: it ends with the candidate still at its temporary path,
      or, when the original was to be moved aside, does not end. */
  method TwinsAreMistaken(job: Job, v: Volume, truncates: bool, forcesCopy: bool) returns (m: Machine, s: Signal)
    requires Planned(job, v) && !Distinguishable(job)
    ensures m.job == job && m.Valid() && m.trail.own && Untroubled(m.env)
    ensures !Replaced(job, m.v) && (m.dur.step == DONE <==> forcesCopy) && (s.Go? <==> forcesCopy)
  {
    hide At, Judge, Faceless, GuestsHome, Dated, Planned, CalmFrom, Untroubled, Replaced, Mistaken, Blocked;
    m := LeaveIntent(job, v, truncates, forcesCopy);
    Onwards(m.env, m.shielded);
    s := Execute(m);
  }

  /** The original is moved aside for a candidate of its own name, and the process dies before the rename. */
  method LeaveEmpty(job: Job, v: Volume, truncates: bool) returns (m: Machine)
    requires Planned(job, v) && SameName(job)
    ensures fresh(m) && m.Valid() && m.Mem() && m.p == m.dur && !m.shared && !m.shielded && m.job == job
    ensures m.trail == Trail(true, Open) && Untroubled(m.env)
    ensures m.p.step == PUBLISH && m.p.mode == MovingAside && Absent(m.v, Library)
  {
    hide At, Judge, Faceless, GuestsHome, Dated, Planned, CalmFrom, Untroubled, BothWhole;
    m := Announced(job, v, truncates, false);
    Onwards(m.env, m.shielded);
    BecomesCalm(m);
    var s := RecheckBoth(m);
    s := Vacate(m);
    Restart(m, 0);
  }

  /** Its approval is withdrawn before the rerun: the run is turned away before it would move anything back, and
      the library path stays empty though nothing else failed. */
  method PathStaysEmpty(job: Job, v: Volume, truncates: bool) returns (m: Machine, s: Signal)
    requires Planned(job, v) && SameName(job)
    ensures m.job == job && m.Valid() && m.trail.own && Untroubled(m.env)
    ensures s.Err? && Absent(m.v, Library) && Holds(m.v, Recovery, job.original)
  {
    hide At, Judge, Faceless, GuestsHome, Dated, Planned, CalmFrom, Untroubled;
    m := LeaveEmpty(job, v, truncates);
    LaterMeans(m.env, m.clock, [WITHDRAWN]);
    m.Choose(Later(m.env, m.clock, [WITHDRAWN]));
    Onwards(m.env, m.shielded);
    m.cleared := false;
    s := Publish(m);
    EmptyMeansAside(m.job, m.v, m.dur, m.trail);
  }

  lemma EmptyMeansAside(j: Job, v: Volume, r: Record, t: Trail)
    requires Good(j, v, r, t) && r.step == PUBLISH && Absent(v, Library)
    ensures Holds(v, Recovery, j.original)
  {
  }

  /** Under its own new name the candidate is published, and the original is about to leave its path. */
  method ReachRemoval(job: Job, v: Volume, truncates: bool) returns (m: Machine)
    requires Planned(job, v) && !SameName(job)
    ensures fresh(m) && m.Valid() && m.Mem() && m.p == m.dur && !m.shielded && m.job == job
    ensures m.trail == Trail(true, Open) && Untroubled(m.env) && m.Quiet() && m.Stable()
    ensures m.p.step == REMOVE && m.p.mode == MovingAside && !Blocked(m.v, m.p) && !m.p.deleteSent
  {
    hide At, Judge, Faceless, GuestsHome, Dated, Planned, CalmFrom, Untroubled;
    m := Reach(job, v, truncates, false);
    Onwards(m.env, m.shielded);
    ghost var faceless := Foresee(m);
    m.cleared := false;
    var s := Publish(m);
    NotTold(m.job, m.v, m.p, m.trail);
    s := Checkpoint(m, true);
    Forget(m, true);
  }

  lemma NotTold(j: Job, v: Volume, r: Record, t: Trail)
    requires Good(j, v, r, t) && r.step == PUBLISH
    ensures !r.deleteSent
  {
    hide At;
  }

  const OLD := 1
  const NEW := 2
  const REPLY := OldFiles.Reply(NEW, OldFiles.Snapshot([OldFiles.Episode(7, NEW)], {OLD, NEW}), OldFiles.Found(OLD, true))

  /** The library's step is about to save its intent: the original is aside, and its path was seen empty. */
  method ReachDelete(job: Job, v: Volume, truncates: bool)
    returns (r: OldFiles.Remover, seen: OldFiles.Snapshot)
    requires Planned(job, v) && !SameName(job)
    ensures fresh(r) && fresh(r.m) && r.Ready() && r.deletes == [] && r.m.job == job && r.m.trail.fate == Open
    ensures r.m.p == r.m.dur && r.m.p.mode == MovingAside && Deletable(job, r.m.v, r.m.p) && Absent(r.m.v, Library)
    ensures r.Evidence(0, seen)
  {
    hide At, Judge, Faceless, GuestsHome, Dated, Planned, CalmFrom, Untroubled, Blocked, Deletable;
    var m := ReachRemoval(job, v, truncates);
    BecomesCalm(m);
    r := new OldFiles.Remover(m, (n: nat) => REPLY, {7}, OLD, NEW);
    var s, ready;
    s, ready, seen := r.Prepare();
  }

  /** Another file comes to the original's path while the intent to delete is saved: the library is told all the
      same, with that file there. */
  method DeleteMeetsAnother(job: Job, v: Volume, truncates: bool, data: Bytes) returns (r: OldFiles.Remover, s: Signal)
    requires Planned(job, v) && !SameName(job)
    ensures r.Valid() && r.m.job == job && |r.deletes| == 1
    ensures r.deletes[0].mode == MovingAside && !r.deletes[0].pathEmpty && !Absent(r.m.v, Library)
  {
    hide At, Judge, Faceless, GuestsHome, Dated, Planned, CalmFrom, Untroubled, Deletable;
    var seen;
    r, seen := ReachDelete(job, v, truncates);
    var comes := CALM.(stranger := Stranger(Library, data));
    LaterMeans(r.m.env, r.m.clock, [comes]);
    r.m.Choose(Later(r.m.env, r.m.clock, [comes]));
    assert OldFiles.Intrudes(r.m.env(r.m.clock));
    s := r.Send(0, seen);
  }

  /** A stranger's file of the candidate's size is taken for it: with that at the empty library path, nothing
      refuses to discard the recovery file, which is the only original. */
  method DiscardFooled(job: Job, v: Volume, truncates: bool, data: Bytes) returns (m: Machine)
    requires Planned(job, v) && SameName(job) && |data| == |job.candidate| && Foreign(job, data)
    ensures m.job == job && m.Valid() && Holds(m.v, Recovery, job.original) && !OnlyOriginal(job, m.v, m.dur)
    ensures !Holds(GivenUp(m.v), Library, job.original) && !Holds(GivenUp(m.v), job.final, job.candidate)
  {
    hide Judge, Faceless, GuestsHome, Dated, Planned, CalmFrom, Untroubled, Create;
    m := LeaveEmpty(job, v, truncates);
    EmptyMeansAside(m.job, m.v, m.dur, m.trail);
    var comes := CALM.(stranger := Stranger(Library, data));
    LaterMeans(m.env, m.clock, [comes]);
    m.Choose(Later(m.env, m.clock, [comes]));
    var e := m.Tick();
  }
}
