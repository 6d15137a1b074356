/**
 Each side effect on the disk keeps the record's agreement with it, and every stranger's file, for every
 record it may happen under. `trail` carries along what holds while only the promotion's own steps
 touched the disk.
 */
module Effects {
  import opened Volumes
  import opened Protocol

  lemma StrangerKeeps(j: Job, v: Volume, r: Record, q: Path, data: Bytes)
    requires Agrees(j, v, r)
    requires (q == Library || q == Final) && Absent(v, q)
    ensures Agrees(j, Create(v, q, data), r)
  {
    hide At, Create, Write, Rename, Unlink;
  }

  lemma MoveAsideKeeps(j: Job, v: Volume, r: Record, t: Trail, guests: map<Path, Bytes>)
    requires Good(j, v, r, t) && GuestsHome(j, v, guests)
    requires r.mode == MovingAside && r.asideStarted && !r.movedAside && !r.backStarted && !r.cleanupStarted
    requires InPlace(j, v, r) && (SameName(j) ==> r.step == PUBLISH && Holds(v, Staged, j.candidate)) && t.fate != Pinned
    ensures Good(j, Rename(v, Library, Recovery), r, t) && GuestsHome(j, Rename(v, Library, Recovery), guests)
    ensures Aside(j, Rename(v, Library, Recovery), r)
  {
    hide At, Create, Write, Rename, Unlink, GuestsHome;
    GuestsStay(j, v, Rename(v, Library, Recovery), guests);
  }

  lemma MoveBackKeeps(j: Job, v: Volume, r: Record, t: Trail, guests: map<Path, Bytes>)
    requires Good(j, v, r, t) && GuestsHome(j, v, guests)
    requires r.mode == MovingAside && r.backStarted && !r.cleanupStarted
    requires Aside(j, v, r) && Absent(v, Library)
    ensures Good(j, Rename(v, Recovery, Library), r, t)
    ensures Untouched(v, Rename(v, Recovery, Library)) && GuestsHome(j, Rename(v, Recovery, Library), guests)
    ensures InPlace(j, Rename(v, Recovery, Library), r)
  {
    hide At, Create, Write, Rename, Unlink, GuestsHome;
    GuestsStay(j, v, Rename(v, Recovery, Library), guests);
  }

  /** The candidate may take its name: the intent is recorded and the original safe. */
  predicate Publishable(j: Job, v: Volume, r: Record) {
    && r.publishStarted && r.step == PUBLISH && !r.cleanupStarted && Holds(v, Staged, j.candidate)
    && (SameName(j) ==>
          if r.mode == MovingAside then r.movedAside && !r.backStarted
          else r.backupVerified && Holds(v, Recovery, j.original) && Holds(v, Library, j.original))
  }

  /** Only a verified copy lets the candidate replace a file, the original it was copied from. */
  predicate Overwrites(j: Job, r: Record) {
    SameName(j) && r.mode != MovingAside
  }

  lemma PublishableStays(j: Job, v0: Volume, v1: Volume, r: Record)
    requires Publishable(j, v0, r) && Undisturbed(v0, v1)
    ensures Publishable(j, v1, r) && !Absent(v1, Staged)
  {
  }

  lemma PublishKeeps(j: Job, v: Volume, r: Record, t: Trail, guests: map<Path, Bytes>)
    requires Good(j, v, r, t) && GuestsHome(j, v, guests) && Publishable(j, v, r)
    requires Overwrites(j, r) || Absent(v, j.final)
    ensures Good(j, Rename(v, Staged, j.final), r, t) && GuestsHome(j, Rename(v, Staged, j.final), guests)
    ensures Holds(Rename(v, Staged, j.final), j.final, j.candidate)
  {
    hide At, Create, Write, Rename, Unlink, GuestsHome;
    GuestsStay(j, v, Rename(v, Staged, j.final), guests);
  }

  lemma EmptyOriginalKeeps(j: Job, v: Volume, r: Record, t: Trail, guests: map<Path, Bytes>)
    requires Good(j, v, r, t) && GuestsHome(j, v, guests)
    requires r.deleteSent && r.originalEmptying && |j.original| > 0
    requires LastLink(v, Library) && Holds(v, Library, j.original) && Holds(v, Recovery, j.original)
    ensures Good(j, Write(v, Library, []), r, t) && GuestsHome(j, Write(v, Library, []), guests)
    ensures Holds(Write(v, Library, []), Recovery, j.original)
  {
    hide At, Create, Write, Rename, Unlink, GuestsHome;
    GuestsStay(j, v, Write(v, Library, []), guests);
  }

  /** The original goes only once the replacement stands under its own new name. */
  lemma DeletingMeans(j: Job, v: Volume, r: Record, t: Trail)
    requires Good(j, v, r, t) && r.deleteSent
    ensures Holds(v, j.final, j.candidate) && j.final != Library
  {
  }

  /** Emptying the original touches nothing but its one name: its bytes are in another file at the recovery
      path, and the verified candidate is in place. */
  lemma EmptyingIsSafe(j: Job, v: Volume, r: Record, t: Trail)
    requires Good(j, v, r, t)
    requires r.deleteSent && LastLink(v, Library) && Holds(v, Library, j.original) && Holds(v, Recovery, j.original)
    ensures !SameFile(v, Library, Recovery) && !SameFile(v, Library, j.final)
    ensures Holds(v, j.final, j.candidate) && Holds(Write(v, Library, []), j.final, j.candidate)
    ensures forall q :: q != Library ==> At(Write(v, Library, []), q) == At(v, q)
  {
    hide Create, Write, Rename, Unlink;
    forall q | q != Library ensures !SameFile(v, q, Library) {}
  }

  /** The original in its place, whole or already emptied, while a verified copy is kept. */
  predicate Unneeded(j: Job, v: Volume) {
    Holds(v, Recovery, j.original) && (Holds(v, Library, j.original) || Holds(v, Library, []))
  }

  lemma UnneededStays(j: Job, v0: Volume, v1: Volume)
    requires Unneeded(j, v0) && Undisturbed(v0, v1)
    ensures Unneeded(j, v1) && !Absent(v1, Library) && Holds(v1, Recovery, j.original)
  {
  }

  lemma RemoveOriginalKeeps(j: Job, v: Volume, r: Record, t: Trail, guests: map<Path, Bytes>)
    requires Good(j, v, r, t) && GuestsHome(j, v, guests)
    requires r.deleteSent && Unneeded(j, v)
    ensures Good(j, Unlink(v, Library), r, t) && GuestsHome(j, Unlink(v, Library), guests)
    ensures Holds(Unlink(v, Library), Recovery, j.original)
  {
    hide At, Create, Write, Rename, Unlink, GuestsHome;
    GuestsStay(j, v, Unlink(v, Library), guests);
  }

  lemma EmptyRecoveryKeeps(j: Job, v: Volume, r: Record, t: Trail, guests: map<Path, Bytes>)
    requires Good(j, v, r, t) && GuestsHome(j, v, guests)
    requires r.cleanupStarted
    requires t.own ==> r.recoveryEmptying && |j.original| > 0
    requires LastLink(v, Recovery) && !Absent(v, Recovery)
    ensures Good(j, Write(v, Recovery, []), r, t) && GuestsHome(j, Write(v, Recovery, []), guests)
  {
    hide At, Create, Write, Rename, Unlink, GuestsHome;
    GuestsStay(j, v, Write(v, Recovery, []), guests);
  }

  lemma RemoveRecoveryKeeps(j: Job, v: Volume, r: Record, t: Trail, guests: map<Path, Bytes>)
    requires Good(j, v, r, t) && GuestsHome(j, v, guests)
    requires r.cleanupStarted && !Absent(v, Recovery)
    ensures Good(j, Unlink(v, Recovery), r, t) && GuestsHome(j, Unlink(v, Recovery), guests)
  {
    hide At, Create, Write, Rename, Unlink, GuestsHome;
    GuestsStay(j, v, Unlink(v, Recovery), guests);
  }

  /** Only preserving and a copy make a partial; the final cleanup too clears a whole one away. */
  predicate MayCopy(r: Record) {
    r.step == PRESERVE || r.mode == Copying
  }

  predicate MayClear(r: Record) {
    MayCopy(r) || r.step == FINALIZE
  }

  /** The partial copy is private scratch until a copy is verified; Partial has no other use. */
  lemma FillPartialKeeps(j: Job, v: Volume, r: Record, t: Trail, guests: map<Path, Bytes>, data: Bytes)
    requires Good(j, v, r, t) && GuestsHome(j, v, guests) && Absent(v, Partial)
    requires !r.cleanupStarted && Absent(v, Recovery) && (t.own ==> !r.asideStarted) && MayCopy(r)
    requires t.own && t.fate == Clear ==> r.mode != MovingAside
    ensures Good(j, Create(v, Partial, data), r, t)
    ensures GuestsHome(j, Create(v, Partial, data), guests)
  {
    hide At, Create, Write, Rename, Unlink, GuestsHome;
    GuestsStay(j, v, Create(v, Partial, data), guests);
  }

  lemma EmptyPartialKeeps(j: Job, v: Volume, r: Record, t: Trail, guests: map<Path, Bytes>)
    requires Good(j, v, r, t) && GuestsHome(j, v, guests) && !Absent(v, Partial) && LastLink(v, Partial)
    requires !r.cleanupStarted
    ensures Good(j, Write(v, Partial, []), r, t)
    ensures GuestsHome(j, Write(v, Partial, []), guests)
    ensures At(Write(v, Partial, []), Recovery) == At(v, Recovery)
  {
    hide At, Create, Write, Rename, Unlink, GuestsHome;
    GuestsStay(j, v, Write(v, Partial, []), guests);
  }

  lemma RemovePartialKeeps(j: Job, v: Volume, r: Record, t: Trail, guests: map<Path, Bytes>)
    requires Good(j, v, r, t) && GuestsHome(j, v, guests) && !Absent(v, Partial) && MayClear(r)
    ensures Good(j, Unlink(v, Partial), r, t) && GuestsHome(j, Unlink(v, Partial), guests)
  {
    hide At, Create, Write, Rename, Unlink, GuestsHome;
    GuestsStay(j, v, Unlink(v, Partial), guests);
  }

  lemma PublishPartialKeeps(j: Job, v: Volume, r: Record, t: Trail, guests: map<Path, Bytes>)
    requires Good(j, v, r, t) && GuestsHome(j, v, guests)
    requires r.mode == Copying && !r.cleanupStarted && Absent(v, Recovery)
    requires Holds(v, Partial, j.original)
    ensures Good(j, Rename(v, Partial, Recovery), r, t) && GuestsHome(j, Rename(v, Partial, Recovery), guests)
  {
    hide At, Create, Write, Rename, Unlink, GuestsHome;
    GuestsStay(j, v, Rename(v, Partial, Recovery), guests);
  }

  /** Discarding a duplicate copy: the verified original is still in its place. */
  lemma DiscardKeeps(j: Job, v: Volume, r: Record, t: Trail, guests: map<Path, Bytes>)
    requires Good(j, v, r, t) && !t.own && GuestsHome(j, v, guests) && r.mode != MovingAside && !r.cleanupStarted
    requires Holds(v, Library, j.original) && !Absent(v, Recovery)
    ensures Good(j, Unlink(v, Recovery), r, t) && GuestsHome(j, Unlink(v, Recovery), guests)
    ensures LastLink(v, Recovery) ==> Good(j, Write(v, Recovery, []), r, t) && GuestsHome(j, Write(v, Recovery, []), guests)
  {
    hide At, Create, Write, Rename, Unlink, GuestsHome;
    GuestsStay(j, v, Unlink(v, Recovery), guests);
    if LastLink(v, Recovery) { GuestsStay(j, v, Write(v, Recovery, []), guests); }
  }
}
