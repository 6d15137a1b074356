/**
 The library's DELETE of the old file (action/promote_workflow.go): sent at most once, and only after every
 proof. The library may answer anything and the disk may change before any call. The candidate the library
 adopted is the one published under its own name.
 */
module OldFiles {
  import opened Volumes
  import opened Protocol
  import opened Records
  import opened Machines
  import opened Recoveries
  import opened MovesAside
  import opened Publishing
  import opened Finishing
  import opened Lives

  datatype Episode = Episode(id: nat, file: nat)

  /** What one snapshot of the library shows. */
  datatype Snapshot = Snapshot(episodes: seq<Episode>, files: set<nat>)

  /** The library lists an episode once. */
  predicate Listed(lib: Snapshot) {
    forall i, k :: 0 <= i < k < |lib.episodes| ==> lib.episodes[i].id != lib.episodes[k].id
  }

  /** Every approved episode is listed with the new file, and no episode uses the old one. */
  predicate AllMoved(lib: Snapshot, approved: set<nat>, oldFile: nat, newFile: nat) {
    && (forall id :: id in approved ==> Episode(id, newFile) in lib.episodes)
    && (forall e :: e in lib.episodes ==> e.file != oldFile)
  }

  function Ids(episodes: seq<Episode>, approved: set<nat>): set<nat> {
    set e | e in episodes && e.id in approved :: e.id
  }

  /** One more episode adds its id when it is approved; an id is listed once. */
  lemma OneMore(lib: Snapshot, approved: set<nat>, i: nat)
    requires Listed(lib) && i < |lib.episodes|
    ensures var ids, e := Ids(lib.episodes[..i], approved), lib.episodes[i];
      Ids(lib.episodes[..i + 1], approved) == (if e.id in approved then ids + {e.id} else ids) && e.id !in ids
  {
    assert lib.episodes[..i + 1] == lib.episodes[..i] + [lib.episodes[i]];
  }

  /** An approved episode of another file is not one of the new file: it is listed once. */
  lemma NotMoved(lib: Snapshot, approved: set<nat>, oldFile: nat, newFile: nat, i: nat)
    requires Listed(lib) && i < |lib.episodes| && lib.episodes[i].id in approved && lib.episodes[i].file != newFile
    ensures !AllMoved(lib, approved, oldFile, newFile)
  {
    forall k | 0 <= k < |lib.episodes| ensures lib.episodes[k] != Episode(lib.episodes[i].id, newFile) {}
  }

  /** promotionNoOldReferences, as the source counts it. */
  method NoOldReferences(lib: Snapshot, approved: set<nat>, oldFile: nat, newFile: nat) returns (ok: bool)
    requires Listed(lib)
    ensures ok <==> AllMoved(lib, approved, oldFile, newFile)
  {
    hide Ids, Listed;
    var i, seen := 0, 0;
    NoneYet(approved);
    while i < |lib.episodes|
      invariant 0 <= i <= |lib.episodes|
      invariant forall k :: 0 <= k < i ==> lib.episodes[k].file != oldFile
      invariant forall k :: 0 <= k < i && lib.episodes[k].id in approved ==> lib.episodes[k].file == newFile
      invariant seen == |Ids(lib.episodes[..i], approved)|
    {
      var e := lib.episodes[i];
      OneMore(lib, approved, i);
      if e.file == oldFile { return false; }
      if e.id in approved {
        if e.file != newFile {
          NotMoved(lib, approved, oldFile, newFile, i);
          return false;
        }
        seen := seen + 1;
      }
      i := i + 1;
    }
    assert lib.episodes[..i] == lib.episodes;
    AllSeen(lib.episodes, approved);
    ok := seen == |approved|;
    if ok {
      forall id | id in approved ensures Episode(id, newFile) in lib.episodes {
        var e :| e in lib.episodes && e.id == id;
      }
    }
  }

  lemma NoneYet(approved: set<nat>)
    ensures Ids([], approved) == {}
  {
  }

  /** Counting the approved ids seen tells whether all were. */
  lemma AllSeen(episodes: seq<Episode>, approved: set<nat>)
    ensures |Ids(episodes, approved)| == |approved| <==> forall id :: id in approved ==> exists e :: e in episodes && e.id == id
  {
    var seen := Ids(episodes, approved);
    assert seen <= approved;
    if |seen| == |approved| { SameSize(seen, approved); }
    if forall id :: id in approved ==> exists e :: e in episodes && e.id == id {
      forall id | id in approved ensures id in seen {
        var e :| e in episodes && e.id == id;
      }
      assert seen == approved;
    }
  }

  lemma SameSize(a: set<nat>, b: set<nat>)
    requires a <= b && |a| == |b|
    ensures a == b
  {
    if a != b {
      var x :| x in b && x !in a;
      var c := b - {x};
      assert a <= c && b == c + {x};
      SmallerOrEqual(a, c);
    }
  }

  lemma {:induction false} SmallerOrEqual(a: set<nat>, b: set<nat>)
    requires a <= b
    ensures |a| <= |b|
    decreases b
  {
    if x :| x in b {
      SmallerOrEqual(a - {x}, b - {x});
    }
  }

  /** How the library answers for the exact old file. */
  datatype OldFile = NotFound | Refused | Found(id: nat, atOldPath: bool)

  /** What the library answers to one request: the file it adopted, a snapshot, the old file. */
  datatype Reply = Reply(adopted: nat, library: Snapshot, file: OldFile)

  /** No episode uses the old file. */
  predicate Unused(lib: Snapshot, oldFile: nat) {
    forall e :: e in lib.episodes ==> e.file != oldFile
  }

  /** A DELETE that was sent: the first request of its run, the last snapshot, the mode, the system calls it was
      between, and what was on the disk as it left. */
  datatype Sent = Sent(first: nat, seen: Snapshot, mode: Mode, looked: nat, left: nat, kept: bool, pathEmpty: bool)

  /** Another file appears at the original's path. */
  predicate Intrudes(e: Event) {
    e.stranger.Stranger? && e.stranger.path == Library
  }

  ghost predicate Alone(env: nat -> Event, from: nat, to: nat) {
    forall n: nat :: from <= n < to ==> !Intrudes(env(n))
  }

  class Remover {
    const m: Machine
    const replies: nat -> Reply
    const approved: set<nat>
    const oldFile: nat
    const newFile: nat

    var asked: nat                  // requests the library was sent so far
    ghost var deletes: seq<Sent>    // DELETE requests that left

    ghost predicate Ready()
      reads this, m
    {
      && m.Valid() && m.Mem() && !m.shielded && m.dur.step == REMOVE && !SameName(m.job)
      && forall n: nat :: Listed(replies(n).library)
    }

    /** DELETE left at most once, under a stored intent, on sound evidence, and the original is still kept. */
    ghost predicate Valid()
      reads this, m
    {
      && Ready() && |deletes| <= 1
      && (deletes != [] ==>
            m.dur.deleteSent && m.p.deleteSent && Holds(m.v, Recovery, m.job.original) && Justified(deletes[0]))
    }

    /** The library had said all it has to say, and the original's bytes were at the recovery path; after a move
        aside, the old path was empty exactly if no other file had come there since it was last looked at. */
    ghost predicate Justified(d: Sent)
      reads m`env
    {
      && Evidence(d.first, d.seen) && d.kept && d.looked < d.left
      && (d.mode == MovingAside ==> (d.pathEmpty <==> Alone(m.env, d.looked, d.left)))
    }

    /** A promotion whose candidate the library adopted, in either recovery mode. */
    constructor (m: Machine, replies: nat -> Reply, approved: set<nat>, oldFile: nat, newFile: nat)
      requires m.Valid() && m.Mem() && m.p == m.dur && !m.shielded && m.dur.step == REMOVE && !SameName(m.job)
      requires forall n: nat :: Listed(replies(n).library)
      ensures Valid() && deletes == [] && this.m == m && this.replies == replies
      ensures this.approved == approved && this.oldFile == oldFile && this.newFile == newFile && asked == 0
    {
      this.m, this.replies, this.approved, this.oldFile, this.newFile := m, replies, approved, oldFile, newFile;
      asked, deletes := 0, [];
    }

    // ---- What the library has to say, request by request from the first of a run ----

    /** It uses the adopted candidate, */
    predicate Adopted(first: nat) {
      newFile > 0 && replies(first).adopted == newFile && Unused(replies(first + 1).library, oldFile)
    }

    /** still lists the old file, */
    predicate Lists(first: nat) {
      oldFile in replies(first + 1).library.files
    }

    /** has exactly that file at the original's path, */
    predicate Exact(r: Reply) {
      r.file == Found(oldFile, true) && oldFile != newFile
    }

    /** and uses the new file for every approved episode, and the old one for none. */
    predicate Evidence(first: nat, seen: Snapshot) {
      && Adopted(first) && Lists(first) && Exact(replies(first + 2))
      && seen == replies(first + 3).library && AllMoved(seen, approved, oldFile, newFile)
    }

    /** How the lookup of the exact old file ends when it is answered. */
    function OldAnswer(r: Reply): Signal {
      if r.file.NotFound? then Wait else if Exact(r) then Go else Err(Stopped)
    }

    function AdoptedAnswer(first: nat): Signal {
      if Adopted(first) then Go else Err(Stopped)
    }

    function MovedAnswer(lib: Snapshot): Signal {
      if AllMoved(lib, approved, oldFile, newFile) then Go else Err(Stopped)
    }

    /** How a run that nothing else disturbs ends: it waits once DELETE was sent, now or before, and for a library
        that is about to drop the file. */
    function Verdict(first: nat, told: bool): Signal {
      if !Adopted(first) then Err(Stopped)
      else if !Lists(first) then Go
      else if told || replies(first + 2).file.NotFound? then Wait
      else if !Exact(replies(first + 2)) then Err(Stopped)
      else if AllMoved(replies(first + 3).library, approved, oldFile, newFile) then Wait else Err(Stopped)
    }

    /** Nothing fails from here on, on a disk nobody else touched, with nothing in the way of a move aside. */
    ghost predicate Smooth()
      reads m
    {
      m.Quiet() && m.trail.own && !Barred(m.v, m.p, m.Stable())
    }

    /** How a request ends, whatever its reply says. */
    function Requested(e: Event): Signal {
      if e.fault.Crash? then Died else if e.fault.IoError? || e.fault.Revoked? then Err(Stopped) else Go
    }

    /** One request. */
    method Ask() returns (s: Signal, r: Reply)
      requires Ready()
      modifies m`v, m`clock, m`trail, m`guests, `asked
      ensures Ready() && m.Looked() && (s.Go? || s.Died? || s == Err(Stopped)) && Listed(r.library)
      ensures s == Requested(old(m.Coming())) && m.clock == old(m.clock) + 1
      ensures old(m.Quiet()) ==> s.Go?
      ensures r == replies(old(asked)) && asked == old(asked) + 1
    {
      hide At, Judge, Faceless, GuestsHome, Dated, CalmFrom, Onward;
      var e := m.Tick();
      r := replies(asked);
      asked := asked + 1;
      s := Requested(e);
    }

    /** The library still uses the adopted candidate; does it still list the old file? */
    method StillListed() returns (s: Signal, listed: bool)
      requires Ready()
      modifies m`v, m`clock, m`trail, m`guests, `asked
      ensures Ready() && m.Looked()
      ensures s.Go? ==> Adopted(old(asked)) && (listed <==> Lists(old(asked))) && asked == old(asked) + 2
      ensures old(m.Quiet()) ==> s == AdoptedAnswer(old(asked))
      // An unanswered snapshot is waited for; an adoption that cannot be read, or is not this one, fails.
      ensures s.Wait? <==> asked == old(asked) + 2 && Requested(Felt(old(m.env(m.clock + 1)), m.shielded)).Err?
      ensures s.Err? ==> asked == old(asked) + 1 || AdoptedAnswer(old(asked)).Err?
    {
      hide At, Judge, Faceless, GuestsHome, Dated, CalmFrom, Onward;
      Onwards(m.env, m.shielded);
      var r;
      listed := false;
      s, r := Ask();
      if !s.Go? { return; }
      if newFile == 0 || r.adopted != newFile { return Err(Stopped), false; }
      s, r := Ask();
      if !s.Go? { return if s.Died? then Died else Wait, false; }
      if !Unused(r.library, oldFile) { return Err(Stopped), false; }
      listed := oldFile in r.library.files;
    }

    /** The exact old file, asked for right before it is deleted. */
    method AskForOld() returns (s: Signal)
      requires Ready()
      modifies m`v, m`clock, m`trail, m`guests, `asked
      ensures Ready() && m.Looked() && asked == old(asked) + 1
      ensures (s.Go? ==> Exact(replies(old(asked)))) && (s.Err? ==> OldAnswer(replies(old(asked))).Err?)
      ensures s.Died? <==> Requested(old(m.Coming())).Died?
      ensures old(m.Quiet()) ==> s == OldAnswer(replies(old(asked)))
    {
      hide At, Judge, Faceless, GuestsHome, Dated, CalmFrom, Onward;
      Onwards(m.env, m.shielded);
      var r;
      s, r := Ask();
      if !s.Go? { return if s.Died? then Died else Wait; }
      if r.file.NotFound? { return Wait; }
      if r.file.Refused? || r.file.id != oldFile || oldFile == newFile || !r.file.atOldPath { return Err(Stopped); }
    }

    /** A copied original that is still in its place must still be the original. */
    method ProvePresent() returns (s: Signal)
      requires Ready()
      modifies m`v, m`clock, m`trail, m`guests
      ensures Ready() && m.Looked() && s.Plain()
      ensures s.Go? ==> Absent(m.v, Library) || Holds(m.v, Library, m.job.original)
      ensures old(m.Quiet()) && (Absent(old(m.v), Library) || Holds(old(m.v), Library, m.job.original)) ==> s.Go?
    {
      hide At, Judge, Faceless, GuestsHome, Dated, CalmFrom, Onward;
      Onwards(m.env, m.shielded);
      var there :- m.Look(Library);
      if !there { return Go; }
      s := m.Read(Library, m.job.original);
      if s == Err(NotExist) { s := Go; }
    }

    /** What is about to be deleted, and in copy mode what is kept of it. */
    method ProveOld() returns (s: Signal)
      requires Ready()
      modifies m`v, m`clock, m`trail, m`guests, `asked
      ensures Ready() && m.Looked()
      ensures s.Go? ==> Exact(replies(old(asked))) && asked == old(asked) + 1
      ensures s.Go? && m.p.mode != MovingAside ==>
        && m.p.backupVerified && Holds(m.v, Recovery, m.job.original)
        && (Absent(m.v, Library) || Holds(m.v, Library, m.job.original))
      ensures old(m.Quiet() && m.trail.own) && !NeedsCopy(m.p) && !m.p.deleteSent ==> s == OldAnswer(replies(old(asked)))
    {
      hide At, Judge, Faceless, GuestsHome, Dated, CalmFrom, Onward, NeedsCopy;
      Onwards(m.env, m.shielded);
      AtRemove(m.job, m.v, m.p, m.trail);
      if m.trail.own && !NeedsCopy(m.p) { RemoveResumes(m.job, m.v, m.p, m.trail); }
      if m.p.mode == MovingAside {
        s := AskForOld();
      } else {
        :- VerifyRecovered(m);
        :- AskForOld();
        s := ProvePresent();
      }
    }

    /** The associations are read again, and the adopted file in full. */
    method ProveAdopted() returns (s: Signal, seen: Snapshot)
      requires Ready()
      modifies m`v, m`clock, m`trail, m`guests, `asked
      ensures Ready() && m.Looked()
      ensures s.Go? ==> seen == replies(old(asked)).library && AllMoved(seen, approved, oldFile, newFile)
      ensures s.Go? ==> asked == old(asked) + 1
      ensures s.Go? ==> m.clock == old(m.clock) + 3 && Holds(m.v, m.job.final, m.job.candidate)    // read in full
      ensures !s.Wait?
      ensures old(m.Quiet() && m.trail.own) ==> s == MovedAnswer(replies(old(asked)).library)
    {
      hide At, Judge, Faceless, GuestsHome, Dated, CalmFrom, Onward;
      Onwards(m.env, m.shielded);
      AtRemove(m.job, m.v, m.p, m.trail);
      seen := Snapshot([], {});
      var r;
      s, r := Ask();
      if !s.Go? { return; }
      seen := r.library;
      var moved := NoOldReferences(seen, approved, oldFile, newFile);
      if !moved { return Err(Stopped), seen; }
      s := InspectAdopted(m);
    }

    /** Both, in this order. */
    method ProveAll() returns (s: Signal, seen: Snapshot)
      requires Ready()
      modifies m`v, m`clock, m`trail, m`guests, `asked
      ensures Ready() && m.Looked()
      ensures s.Go? ==> Exact(replies(old(asked)))
      ensures s.Go? ==> seen == replies(old(asked) + 1).library && AllMoved(seen, approved, oldFile, newFile)
      ensures s.Go? && m.p.mode != MovingAside ==> m.p.backupVerified && Holds(m.v, Recovery, m.job.original)
      ensures old(m.Quiet() && m.trail.own) && !NeedsCopy(m.p) && !m.p.deleteSent ==>
        s == if !Exact(replies(old(asked))) then OldAnswer(replies(old(asked)))
             else MovedAnswer(replies(old(asked) + 1).library)
    {
      hide At, Judge, Faceless, GuestsHome, Dated, CalmFrom, Onward, NeedsCopy;
      Onwards(m.env, m.shielded);
      seen := Snapshot([], {});
      s := ProveOld();
      if s.Go? { s, seen := ProveAdopted(); }
    }

    /** In move-aside mode the original leaves now, and nothing may be at its path afterwards. */
    method MoveAway() returns (s: Signal)
      requires Ready() && m.cleared && m.p == m.dur && m.p.mode == MovingAside
      modifies m`v, m`clock, m`trail, m`guests, m`dur, m`shared, m`p
      ensures Ready() && m.Kept()
      ensures s.Go? ==> m.p == m.dur && Deletable(m.job, m.v, m.p) && (m.p.mode == MovingAside ==> Absent(m.v, Library))
      ensures !s.Wait?    // while nobody else removes the original
      ensures old(Smooth()) ==> s.Go? && if old(WillRefuse(m)) then Fallen(m.job, m.v, m.p) else m.p.mode == MovingAside
    {
      hide At, Judge, Faceless, GuestsHome, Dated, CalmFrom, Onward, Blocked, Barred, Unmoved;
      Onwards(m.env, m.shielded);
      AtRemove(m.job, m.v, m.p, m.trail);
      s := PreserveForRemoval(m);
      if s == Err(OriginalGone) { return Wait; }
      if s.Go? && m.p.mode == MovingAside {
        if m.trail.own { NameIsFree(m.job, m.v, m.p, m.trail); }
        var there;
        s, there := m.Look(Library);
        if s.Go? && there { s := Err(Stopped); }
      }
    }

    /** Admitted, with a fallback copy finished. */
    method Readmit() returns (s: Signal)
      requires Valid() && m.p == m.dur
      modifies m`v, m`clock, m`trail, m`guests, m`dur, m`shared, m`p, m`cleared
      ensures Valid() && m.Kept() && (s.Go? ==> m.cleared && m.p == m.dur && !NeedsCopy(m.p))
      ensures old(m.Quiet() && m.trail.own) ==> s.Go?
      ensures m.p.mode == old(m.p).mode && m.p.deleteSent == old(m.p).deleteSent
      ensures old(m.Quiet() && m.trail.own) && m.p.mode == MovingAside ==> m.v == old(m.v) && m.p == old(m.p)
      ensures (old(m.TurnedAway()) ==> s.Err?) && (old(m.HeldUp()) ==> s.Wait?)
    {
      hide At, Judge, Faceless, GuestsHome, Dated, CalmFrom, Onward, NeedsCopy, Justified;
      Onwards(m.env, m.shielded);
      if m.p.deleteSent { ToldMeans(m.p); }
      if m.p.mode == MovingAside { AsideNeedsNone(m.p); }
      s := m.Admit();
      if s.Go? { s := ResumeFallbackCopy(m); }
    }

    /** Then the library still uses the candidate. */
    method Resume() returns (s: Signal, listed: bool)
      requires Valid() && m.p == m.dur
      modifies m`v, m`clock, m`trail, m`guests, m`dur, m`shared, m`p, m`cleared, `asked
      ensures Valid() && m.Kept() && (s.Go? ==> m.cleared && m.p == m.dur && !NeedsCopy(m.p))
      ensures s.Go? ==> Adopted(old(asked)) && (listed <==> Lists(old(asked))) && asked == old(asked) + 2
      ensures old(m.Quiet() && m.trail.own) ==> s == AdoptedAnswer(old(asked))
      ensures m.p.mode == old(m.p).mode && m.p.deleteSent == old(m.p).deleteSent
      ensures old(m.Quiet() && m.trail.own) && m.p.mode == MovingAside ==> m.v == old(m.v) && m.p == old(m.p)
    {
      hide At, Judge, Faceless, GuestsHome, Dated, CalmFrom, Onward, NeedsCopy, Justified;
      Onwards(m.env, m.shielded);
      listed := false;
      s := Readmit();
      if s.Go? { s, listed := StillListed(); }
    }

    /** Everything before the intent. The library is not asked twice; and when it no longer lists the old file,
        what is left of it is reconciled without a DELETE. */
    method Prepare() returns (s: Signal, ready: bool, seen: Snapshot)
      requires Valid() && m.p == m.dur
      modifies m`v, m`clock, m`trail, m`guests, m`dur, m`shared, m`p, m`cleared, `asked
      ensures Valid() && m.Kept()
      ensures ready ==> s.Go? && m.p == m.dur && Deletable(m.job, m.v, m.p) && !old(m.p).deleteSent
      ensures ready ==> Evidence(old(asked), seen) && (m.p.mode == MovingAside ==> Absent(m.v, Library))
      ensures old(Smooth()) ==>
        && (ready <==> !old(m.p).deleteSent && Evidence(old(asked), replies(old(asked) + 3).library))
        && (!ready ==> s == Verdict(old(asked), old(m.p).deleteSent))
      ensures old(Smooth() && m.Obliging()) && ready ==> m.p.mode == old(m.p).mode
    {
      hide At, Judge, Faceless, GuestsHome, Dated, CalmFrom, Onward, NeedsCopy, Justified;
      Onwards(m.env, m.shielded);
      ready, seen := false, Snapshot([], {});
      var listed;
      s, listed := Resume();
      if !s.Go? || !listed { return; }
      if m.p.deleteSent { return Wait, false, seen; }
      s, seen := ProveAll();
      if !s.Go? { return; }
      AtRemove(m.job, m.v, m.p, m.trail);
      if m.p.mode == MovingAside { s := MoveAway(); }
      ready := s.Go?;
    }

    /** What a DELETE was sent on, as it left. */
    ghost predicate Describes(d: Sent, first: nat, seen: Snapshot, mode: Mode, looked: nat)
      reads m
    {
      && d.first == first && d.seen == seen && d.mode == mode && d.looked == looked && d.left == m.clock
      && d.kept == Holds(m.v, Recovery, m.job.original) && d.pathEmpty == Absent(m.v, Library)
    }

    /** The intent is saved, and then the DELETE sent, whose reply only decides how to wait. */
    method Send(ghost first: nat, seen: Snapshot) returns (s: Signal)
      requires Ready() && deletes == [] && m.p == m.dur && Deletable(m.job, m.v, m.p)
      requires Evidence(first, seen) && (m.p.mode == MovingAside ==> Absent(m.v, Library))
      modifies m`v, m`clock, m`trail, m`guests, m`dur, m`shared, m`p, `deletes
      ensures Valid() && m.Kept()
      ensures deletes != [] ==> Describes(deletes[0], first, seen, old(m.p).mode, old(m.clock))
      ensures old(m.env(m.clock)).fault.Calm? && old(m.env(m.clock + 1)).fault.Calm? ==> s.Wait?
      ensures s.Wait? ==> deletes != []
    {
      hide At, Judge, Faceless, GuestsHome, Dated, CalmFrom, Onward, Deletable, RemovalIntended, Visit;
      Onwards(m.env, m.shielded);
      ghost var looked := m.clock;
      VisitsEmpty(m.v, m.env(m.clock).stranger);
      DeletionIntendedKeeps(m.job, m.v, m.p, m.trail);
      m.p := RemovalIntended(m.p, false);
      s := m.Save();
      if s.Go? { s := Delete(first, seen, looked); }
    }

    method Delete(ghost first: nat, seen: Snapshot, ghost looked: nat) returns (s: Signal)
      requires Ready() && deletes == [] && m.p == m.dur && m.p.deleteSent && Holds(m.v, Recovery, m.job.original)
      requires Evidence(first, seen)
      requires looked + 1 == m.clock && (m.p.mode == MovingAside ==> (Absent(m.v, Library) <==> !Intrudes(m.env(looked))))
      modifies m`v, m`clock, m`trail, m`guests, `deletes
      ensures Valid() && m.Kept()
      ensures deletes != [] ==> Describes(deletes[0], first, seen, m.p.mode, looked)
      ensures deletes == [] <==> old(m.Coming()).fault.Crash? && !old(m.env(m.clock)).reached
      ensures s == if old(m.env(m.clock)).fault.Crash? then Died else Wait
      ensures s.Wait? ==> deletes != []
    {
      hide At, Judge, Faceless, GuestsHome, Dated, CalmFrom, Onward, Visit;
      Onwards(m.env, m.shielded);
      VisitsEmpty(m.v, m.env(m.clock).stranger);
      var e := m.Tick();
      if e.fault.Crash? && !e.reached { return Died; }
      deletes := [Sent(first, seen, m.p.mode, looked, m.clock, Holds(m.v, Recovery, m.job.original), Absent(m.v, Library))];
      s := if e.fault.Crash? then Died else Wait;
    }

    /** stepPromoteRemoveOld. When nothing is wrong, DELETE is sent. */
    method RemoveOld() returns (s: Signal)
      requires Valid() && m.p == m.dur
      modifies m`v, m`clock, m`trail, m`guests, m`dur, m`shared, m`p, m`cleared, `asked, `deletes
      ensures Valid() && m.Kept() && old(deletes) <= deletes
      ensures deletes != old(deletes) ==> !old(m.dur).deleteSent
      ensures deletes != old(deletes) ==> deletes[0].first == old(asked)
      ensures old(Smooth()) ==> s == Verdict(old(asked), old(m.p).deleteSent)
      ensures old(Smooth()) ==>
        (deletes != old(deletes) <==> !old(m.p).deleteSent && Evidence(old(asked), replies(old(asked) + 3).library))
    {
      hide At, Judge, Faceless, GuestsHome, Dated, CalmFrom, Onward, Justified, Deletable, Blocked, Barred, Unmoved;
      Onwards(m.env, m.shielded);
      var ready, seen;
      s, ready, seen := Prepare();
      if ready {
        if m.Quiet() { QuietMeans(m.env, m.clock); }
        s := Send(old(asked), seen);
      }
    }

    /** The engine's checkpoint after a step that did not crash; a new run starts from what is stored. */
    method NextRun(s: Signal, dev: nat)
      requires Valid()
      modifies m`v, m`clock, m`trail, m`guests, m`dur, m`shared, m`p, m`shielded, m`process, m`dev
      ensures Valid() && m.p == m.dur && deletes == old(deletes)
    {
      hide At, Judge, Faceless, GuestsHome, Dated, CalmFrom, Onward, Justified;
      var stored := s;
      if !s.Died? { stored := Checkpoint(m, false); }
      if stored.Died? { Restart(m, dev); }
    }
  }

  lemma QuietMeans(env: nat -> Event, clock: nat)
    requires CalmFrom(env, clock, false)
    ensures env(clock).fault.Calm? && env(clock + 1).fault.Calm?
  {
  }

  /** Only a stranger's file fills an empty library path. */
  lemma VisitsEmpty(v: Volume, s: Stranger)
    ensures Absent(Visit(v, s), Library) <==> Absent(v, Library) && !(s.Stranger? && s.path == Library)
  {
  }

  /** Over any number of runs, crashes and lost replies: DELETE leaves at most once, on a snapshot in which every
      approved episode uses the new file and with the original's bytes at the recovery path, where they stay;
      and after a move aside, with nothing at the old path exactly if nothing came there since the last look. */
  method Live(r: Remover, devs: seq<nat>)
    requires r.Valid() && r.m.p == r.m.dur
    modifies r`asked, r`deletes, r.m`v, r.m`clock, r.m`trail, r.m`guests, r.m`dur, r.m`shared, r.m`p
    modifies r.m`cleared, r.m`shielded, r.m`process, r.m`dev
    ensures r.Valid() && old(r.deletes) <= r.deletes && |r.deletes| <= 1
    ensures r.deletes != [] ==> r.Justified(r.deletes[0]) && Holds(r.m.v, Recovery, r.m.job.original)
  {
    hide At, Judge, Faceless, GuestsHome, Dated;
    var i := 0;
    while i < |devs|
      invariant 0 <= i <= |devs| && r.Valid() && r.m.p == r.m.dur && old(r.deletes) <= r.deletes
    {
      var s := r.RemoveOld();
      r.NextRun(s, devs[i]);
      i := i + 1;
    }
  }
}
