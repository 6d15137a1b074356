/**
 The machine a promotion runs on: a volume, the durable record, the running step's own copy of it, and
 an environment that may, before any system call, create a file at a library path, fail or refuse the
 call, revoke the approval, or take the process down.
 */
module Machines {
  import opened Volumes
  import opened Protocol
  import opened Effects

  datatype Fault =
    | Calm
    | IoError         // the call reports an error
    | Revoked         // the run was cancelled or its approval withdrawn
    | Busy            // the batch coordinator is executing
    | Crash

  datatype Stranger = Nobody | Stranger(path: Path, data: Bytes)

  /** What happens just before one system call. reached: a failed call may still have had its effect; torn:
      how much a stopped copy wrote; stable: the original still has an identity to follow through a rename;
      refuses: the file system cannot rename the original into the recovery folder. */
  datatype Event = Event(fault: Fault, stranger: Stranger, reached: bool, torn: nat, stable: bool, refuses: bool)

  datatype Why = Stopped | NotExist | Refused | OriginalGone

  /** How a call ends. Wait is neither success nor failure: the step is resumed later. */
  datatype Signal = Go | Err(why: Why) | Wait | Died {
    predicate IsFailure() { !Go? }
    /** Neither a wait nor a refusal that the caller could answer differently. */
    predicate Plain() { Go? || Died? || this == Err(Stopped) || this == Err(NotExist) }
    function PropagateFailure(): Signal requires IsFailure() { this }
  }

  function Visit(v: Volume, s: Stranger): (r: Volume)
    ensures s.Nobody? ==> r == v
  {
    if s.Stranger? && (s.path == Library || s.path == Final) && Absent(v, s.path)
    then Create(v, s.path, s.data) else v
  }

  /** A visit links no file a second time. */
  lemma VisitLinks(v: Volume, s: Stranger, q: Path)
    requires !Absent(v, q)
    ensures At(Visit(v, s), q) == At(v, q) && (LastLink(Visit(v, s), q) <==> LastLink(v, q))
  {
    if !LastLink(v, q) {
      var a :| SameFile(v, a, q) && a != q;
      assert SameFile(Visit(v, s), a, q);
    }
  }

  /** An unlinked file keeps its bytes until nothing holds it. */
  lemma UnlinkLeaves(v: Volume, q: Path)
    requires !Absent(v, q)
    ensures Remains(v, At(v, q).value, At(v, q).value.data) && Remains(Unlink(v, q), At(v, q).value, At(v, q).value.data)
  {
  }

  /** A shielded call runs even when the run was cancelled or no longer approved. */
  function Felt(e: Event, shielded: bool): Event {
    if shielded && (e.fault.Revoked? || e.fault.Busy?) then e.(fault := Calm) else e
  }

  predicate Succeeds(e: Event) {
    e.fault.Calm? && e.stranger.Nobody?
  }

  /** From one system call on, nothing fails and nobody else touches the disk; and the original has a stable
      identity all along, or never. The file system may still refuse to move it aside. */
  ghost predicate CalmFrom(env: nat -> Event, clock: nat, shielded: bool) {
    forall n :: n >= clock ==>
      Felt(env(n), shielded).fault.Calm? && env(n).stranger.Nobody? && env(n).stable == env(clock).stable
  }

  /** From one system call on, the original has no stable identity. */
  ghost predicate Faceless(env: nat -> Event, clock: nat) {
    forall n :: n >= clock ==> !env(n).stable
  }

  /** Calls may fail and the process may die anywhere, but only the promotion touches the disk. */
  ghost predicate Untroubled(env: nat -> Event) {
    forall n :: env(n).stranger.Nobody?
  }

  /** The original never loses the identity that a rename is followed by. */
  ghost predicate Steadfast(env: nat -> Event) {
    forall n: nat :: env(n).stable
  }

  lemma CalmLater(env: nat -> Event, c0: nat, c1: nat, shielded: bool)
    requires CalmFrom(env, c0, shielded) && c0 <= c1
    ensures CalmFrom(env, c1, shielded) && CalmFrom(env, c1, true) && env(c1).stable == env(c0).stable
    ensures Faceless(env, c0) <==> !env(c0).stable
  {
  }

  lemma SteadfastNow(env: nat -> Event, clock: nat)
    ensures Steadfast(env) ==> env(clock).stable
  {
  }

  lemma FacelessNow(env: nat -> Event, clock: nat)
    ensures Faceless(env, clock) ==> !env(clock).stable
  {
  }

  /** Strangers worth remembering: neither promotion file, and not empty. */
  ghost function Welcome(j: Job, v: Volume, s: Stranger, guests: map<Path, Bytes>): (r: map<Path, Bytes>)
    ensures forall q :: q in guests && !Absent(v, q) ==> q in r && r[q] == guests[q]
  {
    if Visit(v, s) != v && Foreign(j, s.data)
    then guests[s.path := s.data] else guests
  }

  /** A stranger's file ends what is known of the promotion's own past. */
  ghost function Seen(t: Trail, v: Volume, s: Stranger): Trail {
    t.(own := t.own && Visit(v, s) == v)
  }

  lemma VisitKeeps(j: Job, v: Volume, r: Record, s: Stranger, t: Trail)
    requires Good(j, v, r, t)
    ensures Good(j, Visit(v, s), r, Seen(t, v, s))
  {
    hide At;
    if Visit(v, s) != v {
      StrangerKeeps(j, v, r, s.path, s.data);
    }
  }

  lemma VisitWelcomes(j: Job, v: Volume, s: Stranger, guests: map<Path, Bytes>)
    requires GuestsHome(j, v, guests)
    ensures GuestsHome(j, Visit(v, s), Welcome(j, v, s, guests))
    ensures forall q :: q in guests ==> q in Welcome(j, v, s, guests) && Welcome(j, v, s, guests)[q] == guests[q]
    ensures Undisturbed(v, Visit(v, s))
  {
  }

  datatype Moment = Moment(clock: nat, guests: map<Path, Bytes>, trail: Trail)

  /** Time only moves on: guests are remembered, and a calm or untroubled run stays so, and its own. */
  ghost predicate Onward(env: nat -> Event, shielded: bool, a: Moment, b: Moment) {
    && a.clock <= b.clock && (b.trail.own ==> a.trail.own) && a.trail.fate == b.trail.fate
    && (Untroubled(env) ==> b.trail.own == a.trail.own)
    && (forall q :: q in a.guests ==> q in b.guests && b.guests[q] == a.guests[q])
    && (CalmFrom(env, a.clock, shielded) ==>
          CalmFrom(env, b.clock, shielded) && env(b.clock).stable == env(a.clock).stable && b.trail.own == a.trail.own)
  }

  lemma Onwards(env: nat -> Event, shielded: bool)
    ensures forall a :: Onward(env, shielded, a, a)
    ensures forall a, b, c {:trigger Onward(env, shielded, a, b), Onward(env, shielded, b, c)} ::
      Onward(env, shielded, a, b) && Onward(env, shielded, b, c) ==> Onward(env, shielded, a, c)
    ensures forall a, b :: Onward(env, shielded, a, b) && CalmFrom(env, a.clock, shielded) ==>
      CalmFrom(env, b.clock, shielded) && env(b.clock).stable == env(a.clock).stable && b.trail.own == a.trail.own
    ensures forall a, b :: Onward(env, shielded, a, b) ==>
      && a.clock <= b.clock && (b.trail.own ==> a.trail.own) && a.trail.fate == b.trail.fate
      && (Untroubled(env) ==> b.trail.own == a.trail.own)
  {
  }

  /** One system call later: the oracle's event there, and what a calm stretch makes of it. */
  lemma OneCall(j: Job, v: Volume, env: nat -> Event, shielded: bool, a: Moment)
    requires GuestsHome(j, v, a.guests)
    ensures var s := Felt(env(a.clock), shielded).stranger;
      Onward(env, shielded, a, Moment(a.clock + 1, Welcome(j, v, s, a.guests), Seen(a.trail, v, s)))
    ensures var e := Felt(env(a.clock), shielded);
      && (e.stranger.Nobody? ==> Visit(v, e.stranger) == v)
      && (CalmFrom(env, a.clock, shielded) ==> e.fault.Calm? && e.stranger.Nobody?) && e.stable == env(a.clock).stable
    ensures Faceless(env, a.clock) ==> Faceless(env, a.clock + 1) && !env(a.clock).stable
  {
    VisitWelcomes(j, v, Felt(env(a.clock), shielded).stranger, a.guests);
  }

  /** What was sealed on the way is forgotten at its end. */
  lemma Foreseen(env: nat -> Event, shielded: bool, a: Moment, b: Moment, fate: Fate)
    requires Onward(env, shielded, a.(trail := a.trail.(fate := fate)), b)
    ensures Onward(env, shielded, a, b.(trail := b.trail.(fate := a.trail.fate)))
  {
  }

  /** A shielded stretch is also one of the run it interrupts. */
  lemma Unshielded(env: nat -> Event, a: Moment, b: Moment)
    requires Onward(env, true, a, b)
    ensures Onward(env, false, a, b)
  {
    if CalmFrom(env, a.clock, false) { CalmLater(env, a.clock, a.clock, false); }
  }

  /** How a call that changes the disk goes wrong: a dead process made no change; a failed call may have. */
  ghost predicate Failing(e: Event, v0: Volume, v1: Volume, s: Signal, effect: bool) {
    && (s.Died? <==> e.fault.Crash?)
    && (e.fault.IoError? ==> s == Err(Stopped))
    && (e.fault.Crash? || (e.fault.IoError? && !e.reached) ==> v1 == Visit(v0, e.stranger))
    && (e.fault.IoError? && e.reached ==> effect)
  }

  class Machine {
    const job: Job
    var env: nat -> Event      // what happens at each system call: the past, and what is still to come
    const truncates: bool      // cleanup.truncate_before_delete
    const forcesCopy: bool     // promotionAlwaysCopy, or a mount that keeps no file identity

    var v: Volume
    var dur: Record            // what a restart reads back
    var p: Record              // the running step's record
    var shared: bool           // p was handed to the engine, whose next checkpoint stores it
    var process: nat
    var dev: nat
    var clock: nat             // system calls made so far
    var shielded: bool         // context.WithoutCancel
    ghost var cleared: bool    // a mutation was admitted after the last intent was saved
    ghost var trail: Trail     // whether only this promotion's steps touched the disk
    ghost var guests: map<Path, Bytes>   // files strangers left at the library paths

    ghost predicate Prints(r: Record)
      reads `process, `dev
    {
      Dated(r.originalPrint, process, dev) && Dated(r.backupPrint, process, dev)
    }

    /** The durable record agrees with the disk: a crash here is safe. */
    ghost predicate Valid()
      reads this
    {
      && Good(job, v, dur, trail) && GuestsHome(job, v, guests) && Prints(dur) && Prints(p)
      && (trail.fate == Pinned ==> Faceless(env, clock))
    }

    ghost predicate InMemory()
      reads this
    {
      Good(job, v, p, trail)
    }

    /** The running step's record agrees too: it may be stored at any time. */
    ghost predicate Mem()
      reads this
    {
      InMemory() && p.step == dur.step
    }

    ghost predicate Quiet()
      reads `env, `clock, `shielded
    {
      CalmFrom(env, clock, shielded)
    }

    /** What happens at the next call. */
    function Coming(): Event
      reads `env, `clock, `shielded
    {
      Felt(env(clock), shielded)
    }

    /** The original has an identity a rename can be followed by. */
    predicate Stable()
      reads `env, `clock
    {
      env(clock).stable
    }

    /** The file system refuses to move the original aside, k calls from now. */
    predicate Refuses(k: nat)
      reads `env, `clock
    {
      env(clock + k).refuses
    }

    /** From here on it moves the original aside when asked to. */
    ghost predicate Obliging()
      reads `env, `clock
    {
      forall n :: n >= clock ==> !env(n).refuses
    }

    /** The next k calls succeed, and nobody else touches the disk meanwhile. */
    ghost predicate Plain(k: nat)
      reads `env, `clock, `shielded
    {
      forall n :: clock <= n < clock + k ==> Succeeds(Felt(env(n), shielded))
    }

    /** From here on only a cancellation or a lost approval can stop the run. */
    ghost predicate Steady()
      reads `env, `clock
    {
      CalmFrom(env, clock, true)
    }

    constructor (job: Job, v: Volume, env: nat -> Event, truncates: bool, forcesCopy: bool)
      requires Planned(job, v)
      ensures this.job == job && this.v == v && this.env == env && this.truncates == truncates && this.forcesCopy == forcesCopy
      ensures dur == FRESH && p == FRESH && !shared && clock == 0 && !shielded
      ensures trail == Trail(true, Open) && !cleared
      ensures Valid() && Mem()
    {
      this.job, this.v, this.env, this.truncates, this.forcesCopy := job, v, env, truncates, forcesCopy;
      dur, p, shared := FRESH, FRESH, false;
      process, dev, clock, shielded, cleared := 0, 0, 0, false, false;
      trail, guests := Trail(true, Open), map[];
      new;
      PlannedIsGood(job, v);
    }

    /** What is still to come may be anything; what happened is what it was. */
    method Choose(later: nat -> Event)
      requires Valid() && trail.fate == Open && forall n: nat :: n < clock ==> later(n) == env(n)
      modifies `env
      ensures Valid() && env == later
    {
      env := later;
    }

    ghost function Now(): Moment
      reads `clock, `guests, `trail
    {
      Moment(clock, guests, trail)
    }

    /** What every call keeps. */
    twostate predicate Kept()
      reads this
    {
      Valid() && Onward(env, shielded, old(Now()), Now())
    }

    /** What a discard keeps: it gives up convergence, never safety or a stranger's file. */
    twostate predicate Survived()
      reads this
    {
      && Valid() && old(clock) <= clock && (trail.own ==> old(trail).own) && trail.fate == old(trail).fate
      && forall q :: q in old(guests) ==> q in guests && guests[q] == old(guests)[q]
    }

    /** A call that leaves the promotion's own files alone. */
    twostate predicate Looked()
      reads this
    {
      && Kept()
      && Undisturbed(old(v), v)
      && (old(InMemory()) ==> InMemory())
      && (old(Quiet()) || trail.own ==> v == old(v))
    }

    /** The original is still at its own path if it was there, and the candidate's temporary path is as it was. */
    twostate predicate FilesKept()
      reads this
    {
      && (old(Holds(v, Library, job.original)) ==> Holds(v, Library, job.original))
      && At(v, Staged) == At(old(v), Staged)
    }

    /** A step never moves the checkpoint, and one that never saved has not changed the stored record. */
    twostate predicate Stored()
      reads this
    {
      dur.step == old(dur.step) && (!shared ==> !old(shared) && dur == old(dur))
    }

    method Tick() returns (e: Event)
      requires Valid()
      modifies `v, `clock, `trail, `guests
      ensures Looked()
      ensures e == old(Coming()) && clock == old(clock) + 1
      ensures v == Visit(old(v), e.stranger)
      ensures old(Quiet()) ==> e.fault.Calm?
      ensures e.stranger.Nobody? ==> v == old(v)
    {
      hide At, Judge, Faceless, Good, Undisturbed, Visit, Welcome, GuestsHome, Dated, CalmFrom, Onward, Untroubled, Felt;
      OneCall(job, v, env, shielded, Now());
      e := Felt(env(clock), shielded);
      clock := clock + 1;
      VisitKeeps(job, v, dur, e.stranger, trail);
      if Good(job, v, p, trail) {
        VisitKeeps(job, v, p, e.stranger, trail);
      }
      VisitWelcomes(job, v, e.stranger, guests);
      trail := Seen(trail, v, e.stranger);
      guests := Welcome(job, v, e.stranger, guests);
      v := Visit(v, e.stranger);
    }

    // ---- Calls that only look ----

    /** A full read of q, compared with data. */
    method Read(q: Path, data: Bytes) returns (s: Signal)
      requires Valid()
      modifies `v, `clock, `trail, `guests
      ensures Looked()
      ensures s.Go? ==> Holds(v, q, data)
      ensures s == Err(NotExist) ==> Absent(v, q)
      ensures s.Err? ==> s.why == Stopped || s.why == NotExist
      ensures !s.Wait? && (old(Quiet()) ==> !s.Died?)
      ensures old(Quiet()) && Holds(v, q, data) ==> s.Go?
      ensures old(Quiet()) && !Holds(v, q, data) ==> s == Err(if Absent(v, q) then NotExist else Stopped)
      ensures clock == old(clock) + 1 && (old(Plain(1)) ==> v == old(v) && (Holds(v, q, data) ==> s.Go?))
      ensures s.Died? <==> old(Coming()).fault.Crash?
      ensures old(Coming()).fault.IoError? || old(Coming()).fault.Revoked? ==> s == Err(Stopped)
    {
      var e := Tick();
      if e.fault.Crash? { return Died; }
      if e.fault.IoError? || e.fault.Revoked? { return Err(Stopped); }
      if Absent(v, q) { return Err(NotExist); }
      return if Holds(v, q, data) then Go else Err(Stopped);
    }

    /** Lstat where an unreadable answer is an error. */
    method Look(q: Path) returns (s: Signal, there: bool)
      requires Valid()
      modifies `v, `clock, `trail, `guests
      ensures Looked()
      ensures s.Go? ==> (there <==> !Absent(v, q))
      ensures s.Go? || s.Died? || s == Err(Stopped)
      ensures old(Quiet()) ==> s.Go?
      ensures clock == old(clock) + 1 && (old(Plain(1)) ==> s.Go? && v == old(v))
      ensures s.Died? <==> old(Coming()).fault.Crash?
      ensures old(Coming()).fault.IoError? <==> s.Err?
    {
      var e := Tick();
      there := !Absent(v, q);
      s := if e.fault.Crash? then Died else if e.fault.IoError? then Err(Stopped) else Go;
    }

    /** The disk is no longer one that only the promotion's own steps left. */
    ghost method Taint()
      requires Valid()
      modifies `trail
      ensures Valid() && (old(Mem()) ==> Mem()) && !trail.own && trail.fate == old(trail).fate
    {
      hide At, Judge, Faceless, GuestsHome, Dated;
      NoLongerOwn(job, v, dur, trail);
      if Good(job, v, p, trail) { NoLongerOwn(job, v, p, trail); }
      trail := trail.(own := false);
    }

    /** Does the original still have a stable identity to follow through a rename? */
    method Identify() returns (s: Signal, stable: bool)
      requires Valid()
      modifies `v, `clock, `trail, `guests
      ensures Looked() && clock == old(clock) + 1
      ensures s.Go? || s.Died?
      ensures s.Go? <==> !old(env(clock)).fault.Crash?
      ensures stable == old(Stable()) && (stable ==> trail.fate != Pinned)
      ensures old(Plain(1)) || old(Quiet()) ==> s.Go? && v == old(v)
    {
      hide At, Judge, Faceless, Undisturbed, GuestsHome, Dated, CalmFrom;
      FacelessNow(env, clock);
      var e := Tick();
      stable := e.stable;
      s := if e.fault.Crash? then Died else Go;
    }

    /** A pause at which the run may have been cancelled or have lost its approval. */
    method Proceed() returns (s: Signal)
      requires Valid()
      modifies `v, `clock, `trail, `guests
      ensures Looked()
      ensures s.Go? || s.Died? || s == Err(Stopped)
      ensures old(Quiet()) ==> s.Go?
      ensures clock == old(clock) + 1 && (old(Plain(1)) ==> s.Go? && v == old(v))
      ensures s.Go? <==> old(Coming()).fault.Calm?
      ensures s.Died? <==> old(Coming()).fault.Crash?
    {
      var e := Tick();
      s := if e.fault.Crash? then Died else if e.fault.Calm? then Go else Err(Stopped);
    }

    /** The run's next admission finds it cancelled or no longer approved. */
    ghost predicate TurnedAway()
      reads `env, `clock, `shielded
    {
      !shielded && env(clock).fault.Revoked? && env(clock).stranger.Nobody?
    }

    /** It finds the batch coordinator executing. */
    ghost predicate HeldUp()
      reads `env, `clock, `shielded
    {
      !shielded && env(clock).fault.Busy?
    }

    /** A step is admitted only while the promotion is approved (promotionMutation). */
    method Enter() returns (s: Signal)
      requires Valid()
      modifies `v, `clock, `trail, `guests
      ensures Looked()
      ensures s.Go? || s.Died? || s.Wait? || s == Err(Stopped)
      ensures old(Quiet()) ==> s.Go?
      ensures old(TurnedAway()) ==> s.Err? && v == old(v)
      ensures old(Steady()) && s.Err? ==> old(TurnedAway())
      ensures clock == old(clock) + 1 && (old(Plain(1)) ==> s.Go? && v == old(v))
      ensures old(HeldUp()) <==> s.Wait?
      ensures s.Died? <==> old(Coming()).fault.Crash?
      ensures s.Go? <==> old(Coming()).fault.Calm?
    {
      var e := Tick();
      s := match e.fault
        case Crash => Died
        case Busy => Wait
        case Calm => Go
        case _ => Err(Stopped);
    }

    /** The reviewed batch is rechecked under its execution lease right before a mutation
        (withBatchPromotionMutation). */
    method Admit() returns (s: Signal)
      requires Valid()
      modifies `v, `clock, `trail, `guests, `cleared
      ensures Looked()
      ensures s.Go? || s.Died? || s.Wait? || s == Err(Stopped)
      ensures cleared == s.Go?
      ensures old(Quiet()) ==> s.Go?
      ensures clock == old(clock) + 1
      ensures s.Died? <==> old(Coming()).fault.Crash?
      ensures s.Go? <==> old(Coming()).fault.Calm?
      ensures (old(TurnedAway()) ==> s.Err?) && (old(HeldUp()) ==> s.Wait?)
    {
      hide At, Judge, Faceless, Undisturbed, GuestsHome, Dated, CalmFrom, Onward;
      s := Enter();
      cleared := s.Go?;
    }

    /** savePromotion: hand the record to the engine and store it. */
    method Save() returns (s: Signal)
      requires Valid() && Mem()
      modifies `v, `clock, `trail, `guests, `dur, `shared
      ensures Looked() && Mem() && Stored()
      ensures s.Go? ==> dur == p
      ensures dur == p || dur == old(dur)
      ensures s.Go? || s.Died? || s == Err(Stopped)
      ensures old(Quiet()) ==> s.Go?
      ensures clock == old(clock) + 1 && v == Visit(old(v), old(env(clock)).stranger)
      ensures old(env(clock)).fault.Calm? ==> s.Go?
      ensures s.Died? <==> old(Coming()).fault.Crash?
      ensures old(Coming()).fault.IoError? || old(Coming()).fault.Revoked? ==>
        s == Err(Stopped) && dur == if old(Coming()).reached then p else old(dur)
      ensures old(Coming()).fault.Crash? ==> dur == old(dur)
    {
      hide At, Judge, Faceless, Undisturbed, GuestsHome, Dated, CalmFrom, Onward, Untroubled, Create, Write, Rename, Unlink;
      Onwards(env, shielded);
      var e := Tick();
      if e.fault.Crash? { return Died; }
      shared := true;
      if e.fault.IoError? || e.fault.Revoked? {
        if e.reached { dur := p; }
        return Err(Stopped);
      }
      dur := p;
      return Go;
    }

    /** A progress report in the middle of a read or a copy may store the record the step shares with the engine,
        saved or not. */
    method Report()
      requires Valid() && Mem()
      modifies `dur
      ensures Valid() && Mem() && (dur == p || dur == old(dur)) && (!shared ==> dur == old(dur))
      ensures dur == if shared && env(clock).reached then p else old(dur)
    {
      hide At, Judge, GuestsHome, Faceless;
      if shared && env(clock).reached { dur := p; }
    }

    function PrintOf(q: Path): (r: Print)
      requires !Absent(v, q)
      reads `v, `dev, `process
      ensures Matches(v, q, r) && Dated(Some(r), process, dev)
    {
      var f := At(v, q).value;
      Print(dev, f.ino, |f.data|, f.mtime, process)
    }

    /** Is q, just read or just renamed, the file known describes? A print of this process pins the
        device too; a network mount may have a new device number after a restart. */
    predicate SameAfterRead(q: Path, known: Option<Print>)
      reads `v, `dev, `process
    {
      && known.Some?
      && Matches(v, q, known.value)
      && (known.value.process == process ==> known.value.dev == dev)
    }

    // ---- Side effects: each one only under the record that announced it ----

    /** Fail before the call has any effect? */
    predicate Stops(e: Event) {
      e.fault.Crash? || (e.fault.IoError? && !e.reached)
    }

    /** How a call that reports success or an I/O error ends. */
    function Outcome(e: Event): Signal {
      if e.fault.Crash? then Died else if e.fault.IoError? then Err(Stopped) else Go
    }

    method RenameAside() returns (s: Signal)
      requires Valid() && Mem() && p == dur && cleared
      requires p.mode == MovingAside && p.asideStarted && !p.movedAside && !p.backStarted && !p.cleanupStarted
      requires InPlace(job, v, p) && (SameName(job) ==> p.step == PUBLISH && Holds(v, Staged, job.candidate))
      requires trail.fate != Pinned
      modifies `v, `clock, `trail, `guests
      ensures Kept() && Mem()
      ensures s.Go? ==> Aside(job, v, p) && Absent(v, Library)
      ensures s == Err(Refused) ==> InPlace(job, v, p)
      ensures s.Go? || s.Died? || s == Err(Refused) || s == Err(Stopped)
      ensures Holds(old(v), Staged, job.candidate) ==> Holds(v, Staged, job.candidate)
      ensures old(Quiet()) ==> s == if old(Refuses(0)) then Err(Refused) else Go
      ensures clock == old(clock) + 1
      ensures !old(Refuses(0)) ==> Failing(old(Coming()), old(v), v, s, Aside(job, v, p))
      ensures old(Refuses(0)) ==> v == Visit(old(v), old(Coming()).stranger)
      ensures old(Refuses(0)) ==>
        s == if old(Coming()).fault.Crash? then Died else if Stops(old(Coming())) then Err(Stopped) else Err(Refused)
    {
      hide At, Judge, Faceless, Foreign, SameFile, GuestsHome, Dated, CalmFrom, Onward, Untroubled, Create, Write, Rename, Unlink;
      Onwards(env, shielded);
      var e := Tick();
      if Stops(e) { return if e.fault.Crash? then Died else Err(Stopped); }
      if e.refuses { return Err(Refused); }
      MoveAsideKeeps(job, v, p, trail, guests);
      assert Good(job, Rename(v, Library, Recovery), dur, trail);
      v := Rename(v, Library, Recovery);
      return if e.fault.IoError? then Err(Stopped) else Go;
    }

    method RenameBack() returns (s: Signal)
      requires Valid() && Mem() && p == dur
      requires p.mode == MovingAside && p.backStarted && !p.cleanupStarted
      requires Aside(job, v, p)
      modifies `v, `clock, `trail, `guests
      ensures Kept() && Mem() && Untouched(old(v), v)
      ensures s.Go? ==> InPlace(job, v, p)
      ensures s.Go? || s.Died? || s == Err(Stopped)
      ensures Aside(job, v, p) || InPlace(job, v, p)
      ensures old(Quiet()) && old(Absent(v, Library)) ==> s.Go?
      ensures clock == old(clock) + 1
      ensures old(Quiet()) && !old(Absent(v, Library)) ==> s == Err(Stopped) && v == old(v)
      ensures Failing(old(Coming()), old(v), v, s,
        InPlace(job, v, p) || !Absent(old(v), Library) || old(Coming()).stranger.Stranger?)
    {
      hide At, Judge, Faceless, Foreign, SameFile, GuestsHome, Dated, CalmFrom, Onward, Untroubled, Create, Write, Rename, Unlink;
      Onwards(env, shielded);
      var e := Tick();
      if Stops(e) || !Absent(v, Library) { return if e.fault.Crash? then Died else Err(Stopped); }
      MoveBackKeeps(job, v, p, trail, guests);
      assert Good(job, Rename(v, Recovery, Library), dur, trail);
      v := Rename(v, Recovery, Library);
      return if e.fault.IoError? then Err(Stopped) else Go;
    }

    /** The rename of the candidate, unless something stops it. */
    method RenameCandidate(blocked: bool)
      requires Valid() && Mem() && p == dur && ValidJob(job) && Publishable(job, v, p)
      requires blocked || Overwrites(job, p) || Absent(v, job.final)
      modifies `v
      ensures Valid() && Mem()
      ensures if blocked then v == old(v) else Holds(v, job.final, job.candidate) && Absent(v, Staged)
    {
      PublishableStays(job, v, v, p);
      hide At, Judge, Faceless, Good, Holds, Foreign, SameFile, GuestsHome, Dated, Overwrites, Publishable, Create, Write, Rename, Unlink;
      if !blocked {
        PublishKeeps(job, v, p, trail, guests);
        v := Rename(v, Staged, job.final);
      }
    }

    /** The candidate takes its name: over the verified original in copy mode, else only if it is free. */
    method Publish() returns (s: Signal)
      requires Valid() && Mem() && p == dur && cleared && Publishable(job, v, p)
      modifies `v, `clock, `trail, `guests
      ensures Kept() && Mem()
      ensures s.Go? ==> Holds(v, job.final, job.candidate) && Absent(v, Staged)
      ensures s.Go? || s.Died? || s == Err(Stopped)
      ensures old(Quiet()) && (Overwrites(job, p) || Absent(old(v), job.final)) ==> s.Go?
      ensures clock == old(clock) + 1
      ensures Failing(old(Coming()), old(v), v, s,
        Absent(v, Staged) || (!Overwrites(job, p) && !Absent(Visit(old(v), old(Coming()).stranger), job.final)))
    {
      assert ValidJob(job);
      hide At, Judge, Faceless, Good, Holds, Foreign, SameFile, GuestsHome, Dated, CalmFrom, Publishable, Undisturbed, Overwrites, Onward,
        Untroubled, Create, Write, Rename, Unlink;
      Onwards(env, shielded);
      var e := Tick();
      PublishableStays(job, old(v), v, p);
      var blocked := Stops(e) || (!Overwrites(job, p) && !Absent(v, job.final));
      RenameCandidate(blocked);
      return if e.fault.Crash? then Died else if blocked || e.fault.IoError? then Err(Stopped) else Go;
    }

    /** Empty the original before it is unlinked, if this is its last link. Emptying never fails the
        removal: whatever stops it leaves the file whole. */
    method EmptyOriginal() returns (s: Signal)
      requires Valid() && Mem() && p == dur && cleared
      requires p.deleteSent && p.originalEmptying && |job.original| > 0
      requires Holds(v, Library, job.original) && Holds(v, Recovery, job.original)
      modifies `v, `clock, `trail, `guests
      ensures Kept() && Mem() && At(v, Recovery) == At(old(v), Recovery) && Holds(v, job.final, job.candidate)
      ensures Holds(v, Library, job.original) || Holds(v, Library, [])
      ensures old(Quiet()) && LastLink(old(v), Library) ==> Holds(v, Library, [])
      ensures At(v, Library) == At(old(v), Library) || LastLink(old(v), Library)
      ensures At(v, Library).Some? && At(v, Library).value.ino == At(old(v), Library).value.ino
      ensures s.Go? || s.Died?
      ensures old(Quiet()) ==> s.Go?
      ensures clock == old(clock) + 1
      ensures s.Died? <==> old(Coming()).fault.Crash?
    {
      hide At, Judge, Faceless, Foreign, SameFile, GuestsHome, Dated, CalmFrom, Onward, Untroubled, Create, Write, Rename, Unlink;
      Onwards(env, shielded);
      var e := Tick();
      VisitLinks(old(v), e.stranger, Library);
      DeletingMeans(job, v, p, trail);
      if e.fault.Crash? { return Died; }
      if LastLink(v, Library) && !Stops(e) {
        EmptyingIsSafe(job, v, p, trail);
        EmptyOriginalKeeps(job, v, p, trail, guests);
        assert Good(job, Write(v, Library, []), dur, trail);
        v := Write(v, Library, []);
      }
      return Go;
    }

    method UnlinkOriginal() returns (s: Signal)
      requires Valid() && Mem() && p == dur && cleared
      requires p.deleteSent && Unneeded(job, v)
      modifies `v, `clock, `trail, `guests
      ensures Kept() && Mem() && Holds(v, Recovery, job.original)
      ensures s.Go? ==> Absent(v, Library)
      ensures !Absent(old(v), Library) ==> Remains(v, At(old(v), Library).value, At(old(v), Library).value.data)
      ensures s.Go? || s.Died? || s == Err(Stopped)
      ensures old(Quiet()) ==> s.Go?
      ensures clock == old(clock) + 1
      ensures Failing(old(Coming()), old(v), v, s, Absent(v, Library))
    {
      hide At, Judge, Faceless, Unneeded, Holds, Undisturbed, GuestsHome, Dated, CalmFrom, Onward, Untroubled, Create, Write, Rename, Unlink;
      Onwards(env, shielded);
      var e := Tick();
      if !Absent(v, Library) { UnlinkLeaves(v, Library); }
      UnneededStays(job, old(v), v);
      if !Stops(e) {
        RemoveOriginalKeeps(job, v, p, trail, guests);
        assert Good(job, Unlink(v, Library), dur, trail);
        v := Unlink(v, Library);
      }
      s := Outcome(e);
    }

    /** The recovery file may go: cleanup durably started, or it duplicates the verified original. */
    ghost predicate Disposable()
      reads this
    {
      || (p.cleanupStarted && cleared)
      || (!trail.own && p.mode != MovingAside && !p.cleanupStarted && Holds(v, Library, job.original))
    }

    method EmptyRecovery() returns (s: Signal)
      requires Valid() && Mem() && p == dur && Disposable() && !Absent(v, Recovery)
      requires trail.own ==> p.recoveryEmptying && |job.original| > 0
      modifies `v, `clock, `trail, `guests
      ensures Kept() && Mem() && !Absent(v, Recovery)
      ensures FilesKept()
      ensures At(v, Recovery) == At(old(v), Recovery) || LastLink(old(v), Recovery)
      ensures At(v, Recovery).value.ino == At(old(v), Recovery).value.ino
      ensures old(Quiet()) && LastLink(old(v), Recovery) ==> Holds(v, Recovery, [])
      ensures s.Go? || s.Died?
      ensures old(Quiet()) ==> s.Go?
      ensures clock == old(clock) + 1
      ensures At(v, Partial) == At(old(v), Partial)
      ensures s.Died? <==> old(Coming()).fault.Crash?
    {
      hide At, Judge, Faceless, Foreign, SameFile, GuestsHome, Dated, CalmFrom, Onward, Untroubled, Create, Write, Rename, Unlink;
      Onwards(env, shielded);
      var e := Tick();
      VisitLinks(old(v), e.stranger, Recovery);
      if e.fault.Crash? { return Died; }
      if LastLink(v, Recovery) && !Stops(e) {
        if p.cleanupStarted { EmptyRecoveryKeeps(job, v, p, trail, guests); } else { DiscardKeeps(job, v, p, trail, guests); }
        assert Good(job, Write(v, Recovery, []), dur, trail);
        v := Write(v, Recovery, []);
      }
      return Go;
    }

    method UnlinkRecovery() returns (s: Signal)
      requires Valid() && Mem() && p == dur && Disposable() && !Absent(v, Recovery)
      modifies `v, `clock, `trail, `guests
      ensures Kept() && Mem()
      ensures FilesKept()
      ensures s.Go? ==> Absent(v, Recovery)
      ensures Remains(v, At(old(v), Recovery).value, At(old(v), Recovery).value.data)
      ensures s.Go? || s.Died? || s == Err(Stopped)
      ensures old(Quiet()) ==> s.Go?
      ensures clock == old(clock) + 1
      ensures At(v, Partial) == At(old(v), Partial)
      ensures Failing(old(Coming()), old(v), v, s, Absent(v, Recovery))
    {
      hide At, Judge, Faceless, Good, Foreign, SameFile, GuestsHome, Dated, CalmFrom, Onward, Untroubled, Create, Write, Rename, Unlink;
      Onwards(env, shielded);
      var e := Tick();
      UnlinkLeaves(v, Recovery);
      if !Stops(e) {
        if p.cleanupStarted { RemoveRecoveryKeeps(job, v, p, trail, guests); } else { DiscardKeeps(job, v, p, trail, guests); }
        assert Good(job, Unlink(v, Recovery), dur, trail);
        v := Unlink(v, Recovery);
      }
      s := Outcome(e);
    }

    /** The partial is this promotion's private scratch. */
    ghost predicate Scratch()
      reads this
    {
      && !dur.cleanupStarted && !p.cleanupStarted
      && (trail.own ==> !dur.asideStarted && !p.asideStarted) && MayCopy(dur) && MayCopy(p)
      && (trail.own && trail.fate == Clear ==> dur.mode != MovingAside && p.mode != MovingAside)
    }

    /** The process dies in a call that already had some effect. */
    static predicate CutOff(e: Event) {
      e.fault.Crash? && e.reached && e.stranger.Nobody?
    }

    /** promotionCopyToPartial: a new private partial. A copy that stops leaves any prefix, or nothing. */
    method CopyToPartial() returns (s: Signal)
      requires Valid() && Mem() && Absent(v, Partial) && Absent(v, Recovery)
      requires Scratch()
      modifies `v, `clock, `trail, `guests
      ensures Kept() && Mem()
      ensures FilesKept() && At(v, Recovery) == At(old(v), Recovery)
      ensures s.Go? ==> !Absent(v, Library) && Holds(v, Partial, At(v, Library).value.data)
      ensures s.Go? || s.Died? || s == Err(Stopped)
      ensures old(Quiet()) && !old(Absent(v, Library)) ==> s.Go?
      ensures CutOff(old(env(clock))) && !old(Absent(v, Library)) ==> s.Died? && !Absent(v, Partial)
      ensures clock == old(clock) + 1
      ensures s.Died? <==> old(Coming()).fault.Crash?
      ensures s.Go? <==> old(Coming()).fault.Calm? && !Absent(Visit(old(v), old(Coming()).stranger), Library)
    {
      hide At, Judge, Faceless, Foreign, SameFile, GuestsHome, Dated, CalmFrom, Onward, Untroubled, Create, Write, Rename, Unlink;
      Onwards(env, shielded);
      var e := Tick();
      if Absent(v, Library) { return if e.fault.Crash? then Died else Err(Stopped); }
      var source := At(v, Library).value.data;
      var data := if e.fault.Calm? || e.torn >= |source| then source else source[..e.torn];
      if !e.fault.Calm? && !e.reached { return if e.fault.Crash? then Died else Err(Stopped); }
      FillPartialKeeps(job, v, dur, trail, guests, data);
      FillPartialKeeps(job, v, p, trail, guests, data);
      v := Create(v, Partial, data);
      return if e.fault.Calm? then Go else if e.fault.Crash? then Died else Err(Stopped);
    }

    /** removeRecoveryFile on the partial: emptied first when it is the last link, then unlinked. */
    method EmptyPartial() returns (s: Signal)
      requires Valid() && Mem() && !Absent(v, Partial)
      requires Scratch()
      modifies `v, `clock, `trail, `guests
      ensures Kept() && Mem() && !Absent(v, Partial)
      ensures FilesKept() && At(v, Recovery) == At(old(v), Recovery)
      ensures if old(Quiet()) && LastLink(old(v), Partial) then Holds(v, Partial, [])
        else At(v, Partial) == At(old(v), Partial) || LastLink(old(v), Partial)
      ensures At(v, Partial).value.ino == At(old(v), Partial).value.ino
      ensures s.Go? || s.Died?
      ensures old(Quiet()) ==> s.Go?
      ensures clock == old(clock) + 1
      ensures s.Died? <==> old(Coming()).fault.Crash?
    {
      hide At, Faceless, GuestsHome, Dated, Agrees, Interrupted, Onward, Untroubled, Create, Write, Rename, Unlink;
      Onwards(env, shielded);
      var e := Tick();
      VisitLinks(old(v), e.stranger, Partial);
      if e.fault.Crash? { return Died; }
      if LastLink(v, Partial) && !Stops(e) {
        EmptyPartialKeeps(job, v, dur, trail, guests);
        EmptyPartialKeeps(job, v, p, trail, guests);
        v := Write(v, Partial, []);
      }
      return Go;
    }

    method UnlinkPartial() returns (s: Signal)
      requires Valid() && Mem() && !Absent(v, Partial) && MayClear(dur) && MayClear(p)
      modifies `v, `clock, `trail, `guests
      ensures Kept() && Mem()
      ensures FilesKept() && At(v, Recovery) == At(old(v), Recovery)
      ensures s.Go? ==> Absent(v, Partial)
      ensures Remains(v, At(old(v), Partial).value, At(old(v), Partial).value.data)
      ensures s.Go? || s.Died? || s == Err(Stopped)
      ensures old(Quiet()) ==> s.Go?
      ensures clock == old(clock) + 1
      ensures Failing(old(Coming()), old(v), v, s, Absent(v, Partial))
    {
      hide At, Judge, Faceless, Foreign, SameFile, GuestsHome, Dated, CalmFrom, Onward, Untroubled, Create, Write, Rename, Unlink;
      Onwards(env, shielded);
      var e := Tick();
      UnlinkLeaves(v, Partial);
      if Stops(e) { return if e.fault.Crash? then Died else Err(Stopped); }
      RemovePartialKeeps(job, v, dur, trail, guests);
      RemovePartialKeeps(job, v, p, trail, guests);
      v := Unlink(v, Partial);
      return if e.fault.IoError? then Err(Stopped) else Go;
    }

    /** The verified partial becomes the recovery copy. */
    method PublishPartial() returns (s: Signal)
      requires Valid() && Mem() && p == dur
      requires p.mode == Copying && !p.cleanupStarted
      requires Holds(v, Partial, job.original) && Absent(v, Recovery)
      modifies `v, `clock, `trail, `guests
      ensures Kept() && Mem() && FilesKept()
      ensures s.Go? ==> Holds(v, Recovery, job.original)
      ensures s.Go? || s.Died? || s == Err(Stopped)
      ensures old(Quiet()) ==> s.Go?
      ensures clock == old(clock) + 1
      ensures Failing(old(Coming()), old(v), v, s, Holds(v, Recovery, job.original))
    {
      hide At, Judge, Faceless, Foreign, SameFile, GuestsHome, Dated, CalmFrom, Onward, Untroubled, Create, Write, Rename, Unlink;
      Onwards(env, shielded);
      var e := Tick();
      if Stops(e) { return if e.fault.Crash? then Died else Err(Stopped); }
      PublishPartialKeeps(job, v, p, trail, guests);
      assert Good(job, Rename(v, Partial, Recovery), dur, trail);
      v := Rename(v, Partial, Recovery);
      return if e.fault.IoError? then Err(Stopped) else Go;
    }
  }
}
