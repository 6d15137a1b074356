/**
 What a promotion records and how that record must agree with the disk.

 A promotion replaces the file at Library with the one at Staged. `Record` is the durable state each
 side effect is bracketed by; `Agrees` is the agreement every reachable pair of volume and record keeps,
 and `Interrupted` adds what holds while only this promotion's own steps (and crashes) touched the disk.
 */
module Protocol {
  import opened Volumes

  /** The plan: the verified bytes of both files, and the name the candidate takes. */
  datatype Job = Job(original: Bytes, candidate: Bytes, final: Path)

  predicate ValidJob(j: Job) {
    j.final == Library || j.final == Final
  }

  predicate SameName(j: Job) {
    j.final == Library
  }

  /** A digest tells the two files apart, or they never share a name. */
  predicate Distinguishable(j: Job) {
    !SameName(j) || j.original != j.candidate
  }

  datatype Mode = Undecided | Copying | MovingAside

  /** A file's stat identity, stamped with the process that took it. */
  datatype Print = Print(dev: nat, ino: Ino, size: nat, mtime: nat, process: nat)

  datatype Record = Record(
    step: nat,                     // the step a run starts from
    mode: Mode,
    recoveryNamed: bool,
    backupVerified: bool,
    provedBefore: bool,            // verified before the replacement
    originalPrint: Option<Print>,
    backupPrint: Option<Print>,
    asideStarted: bool,
    movedAside: bool,
    refused: bool,                 // the rename aside was refused for good
    backStarted: bool,
    publishStarted: bool,
    published: bool,
    deleteSent: bool,
    originalEmptying: bool,
    oldRemoved: bool,
    cleanupStarted: bool,
    recoveryEmptying: bool,
    cleanupCompleted: bool)

  const PRESERVE := 2
  const PUBLISH := 3
  const REMOVE := 4
  const VERIFY := 5
  const RESCAN := 6
  const FINALIZE := 7
  const DONE := 8

  /** A print taken by this process was taken under this mount. */
  predicate Dated(known: Option<Print>, process: nat, dev: nat) {
    known.Some? ==>
      known.value.process <= process && (known.value.process == process ==> known.value.dev == dev)
  }

  /** Path q is the file known describes, whatever process and mount it was taken under. */
  predicate Matches(v: Volume, q: Path, known: Print) {
    && At(v, q).Some?
    && known.ino == At(v, q).value.ino
    && known.size == |At(v, q).value.data|
    && known.mtime == At(v, q).value.mtime
  }

  /** Path q is the very file the promotion recorded as its original, with the original's bytes. */
  predicate IsOriginal(j: Job, v: Volume, r: Record, q: Path) {
    && Holds(v, q, j.original)
    && r.originalPrint.Some? && Matches(v, q, r.originalPrint.value)
    && (r.backupPrint.Some? ==> Matches(v, q, r.backupPrint.value))
  }

  predicate InPlace(j: Job, v: Volume, r: Record) {
    IsOriginal(j, v, r, Library) && Absent(v, Recovery)
  }

  predicate Aside(j: Job, v: Volume, r: Record) {
    IsOriginal(j, v, r, Recovery) && !SameFile(v, Library, Recovery)
  }

  /** No loss: the original's bytes are at one of its two paths, or its verified replacement is in
      place and the removal of the recovery file has durably started. */
  predicate NoLoss(j: Job, v: Volume, r: Record) {
    || Holds(v, Library, j.original)
    || Holds(v, Recovery, j.original)
    || (r.cleanupStarted && Holds(v, j.final, j.candidate))
  }

  /** In move-aside mode the durable flags say where the original is, until cleanup starts. */
  predicate FlagsAgree(j: Job, v: Volume, r: Record) {
    && (r.backStarted ==> r.asideStarted && SameName(j) && r.step == PUBLISH)
    && (r.movedAside ==> r.asideStarted)
    && (!r.movedAside ==> !r.backupVerified)
    && (r.movedAside && !r.cleanupCompleted ==> r.backupVerified)
    && (r.oldRemoved && !SameName(j) ==> r.movedAside)
    && (!r.cleanupStarted ==>
          && (!r.asideStarted ==> InPlace(j, v, r))
          && (r.movedAside && !r.backStarted ==> Aside(j, v, r))
          && (InPlace(j, v, r) || Aside(j, v, r)))
  }

  /** A repeated publish may move an original that equals its candidate aside once more. */
  predicate Repeating(j: Job, r: Record) {
    !Distinguishable(j) && r.step == PUBLISH && r.asideStarted
  }

  predicate Agrees(j: Job, v: Volume, r: Record) {
    && ValidJob(j) && StepAgrees(r)
    && NoLoss(j, v, r)
    && (r.mode == MovingAside ==> FlagsAgree(j, v, r))
    && (r.mode != MovingAside ==> !r.asideStarted && !r.movedAside && !r.backStarted)
    && (r.published ==> r.publishStarted && (Holds(v, j.final, j.candidate) || Repeating(j, r)))
    && (r.oldRemoved ==> r.published)
    && (r.cleanupStarted ==> r.oldRemoved)
    && (r.deleteSent ==> r.published && !SameName(j) && (r.mode == MovingAside ==> r.movedAside))
    && (Holds(v, Staged, j.candidate) || (r.publishStarted && Holds(v, j.final, j.candidate)))
    && !SameFile(v, Staged, Library) && !SameFile(v, Staged, Recovery) && !SameFile(v, Staged, Partial)
  }

  /** The recovery file, once it may be discarded: whole, emptied, or gone. */
  predicate RecoveryLeft(j: Job, v: Volume, r: Record) {
    Absent(v, Recovery) || Holds(v, Recovery, j.original) || RecoveryEmptied(j, v, r)
  }

  predicate RecoveryEmptied(j: Job, v: Volume, r: Record) {
    r.recoveryEmptying && |j.original| > 0 && Holds(v, Recovery, [])
  }

  predicate OriginalEmptied(j: Job, v: Volume, r: Record) {
    r.originalEmptying && |j.original| > 0 && Holds(v, Library, [])
  }

  /** The checkpoint and the flags were saved in order. */
  predicate StepAgrees(r: Record) {
    && PRESERVE <= r.step <= DONE
    && (r.publishStarted || r.asideStarted ==> r.step >= PUBLISH)
    && (r.step > PUBLISH ==> r.published)
    && (r.oldRemoved || r.deleteSent ==> r.step >= REMOVE)
    && (r.step > REMOVE ==> r.oldRemoved)
    && (r.cleanupStarted ==> r.step >= FINALIZE)
    && (r.step == DONE ==> r.cleanupCompleted)
    && (r.mode != Undecided ==> r.recoveryNamed)
    && (r.mode == Undecided ==> r.step == PRESERVE && !r.backupVerified && r.backupPrint.None?)
    && (r.originalEmptying ==> r.deleteSent)
    && (r.cleanupCompleted ==> r.cleanupStarted)
  }

  predicate AsideInterrupted(j: Job, v: Volume, r: Record) {
    && (r.asideStarted && !SameName(j) ==> r.step >= REMOVE)
    && (r.backStarted ==> r.step == PUBLISH && !Absent(v, Staged) && (r.published ==> !Distinguishable(j)))
    && (SameName(j) && Absent(v, Staged) ==> r.movedAside)
    && (r.cleanupStarted ==> if SameName(j) then Absent(v, Staged) else Absent(v, Library))
    && (!r.cleanupStarted && !InPlace(j, v, r) ==>
          || Absent(v, Library)
          || (SameName(j) && r.publishStarted && r.movedAside && !r.backStarted && Holds(v, Library, j.candidate) && Absent(v, Staged)))
    && (!Absent(v, Partial) ==> !r.asideStarted)
  }

  predicate CopyInterrupted(j: Job, v: Volume, r: Record) {
    && (r.backupVerified && !r.cleanupStarted ==> Holds(v, Recovery, j.original))
    && (!Absent(v, Recovery) && !r.cleanupStarted ==> Holds(v, Recovery, j.original))
    && (!r.backupVerified && !r.cleanupCompleted ==>
          Holds(v, Library, j.original) && !r.deleteSent && !r.oldRemoved && (r.step > PRESERVE ==> r.refused))
    && (SameName(j) ==> Holds(v, Library, j.original) || (r.publishStarted && Holds(v, Library, j.candidate)))
    && (!SameName(j) ==>
          || Holds(v, Library, j.original)
          || (r.deleteSent && (Absent(v, Library) || OriginalEmptied(j, v, r))))
    && (!SameName(j) && r.oldRemoved ==> Absent(v, Library))
  }

  /** What this promotion's own steps, failed or crashed anywhere, leave behind. */
  predicate Interrupted(j: Job, v: Volume, r: Record) {
    && (r.recoveryEmptying ==> r.cleanupStarted)
    && (r.cleanupStarted && !r.cleanupCompleted ==> r.backupVerified)
    && (if Absent(v, Staged) then r.publishStarted && Holds(v, j.final, j.candidate)
        else Holds(v, Staged, j.candidate) && (Distinguishable(j) ==> !Holds(v, j.final, j.candidate)))
    && (!SameName(j) ==> Absent(v, Final) || Holds(v, Final, j.candidate))
    && (r.mode == Undecided ==> Holds(v, Library, j.original) && Absent(v, Recovery) && !r.backupVerified)
    && (r.mode == MovingAside ==> AsideInterrupted(j, v, r))
    && (r.mode == Copying ==> CopyInterrupted(j, v, r))
    && (r.cleanupStarted ==> RecoveryLeft(j, v, r))
    && (r.cleanupCompleted ==> Absent(v, Recovery))
    && (!Absent(v, Partial) ==> !r.backupVerified && !r.cleanupStarted && Absent(v, Recovery))
  }

  /** A leftover partial, beside which a move aside refuses to start. */
  predicate Blocked(v: Volume, r: Record) {
    r.mode == MovingAside && !r.movedAside && !Absent(v, Partial)
  }

  /** The saved intent to publish, and both files where they were before: what the candidate's own bytes under
      its name are then taken for is a finished publication. */
  predicate Mistaken(j: Job, v: Volume, r: Record) {
    !Distinguishable(j) && r.publishStarted && Holds(v, Library, j.original) && !Absent(v, Staged)
  }

  /** The original is still to be moved aside, which takes a stable identity. */
  predicate Unmoved(v: Volume, r: Record) {
    r.mode == MovingAside && Absent(v, Recovery) && !r.cleanupStarted
  }

  /** What keeps the original from being moved aside. */
  predicate Barred(v: Volume, r: Record, stable: bool) {
    Blocked(v, r) || (!stable && Unmoved(v, r))
  }

  /** An undisturbed run from here does not end on the replaced disk; or does not even end. It matters whether
      the original has a stable identity; without one, preserving still turns to a copy. */
  predicate Doomed(j: Job, v: Volume, r: Record, stable: bool) {
    (stable || r.step > PRESERVE) && (Barred(v, r, stable) || Mistaken(j, v, r))
  }

  predicate Stops(j: Job, v: Volume, r: Record, stable: bool) {
    (stable || r.step > PRESERVE) && (Barred(v, r, stable) || (Mistaken(j, v, r) && r.mode == MovingAside))
  }

  /** How a promotion ends, once none of its own steps can change that any more. */
  datatype Fate =
    | Open
    | Clear     // no leftover will be found beside a move aside
    | Pinned    // without an identity, the original stays at its path
    | Stuck     // it never ends
    | Spoiled   // it ends with the candidate still at its temporary path
    | Placed    // it ends on the replaced disk

  predicate Sealed(j: Job, v: Volume, r: Record, f: Fate) {
    match f
    case Open => true
    case Clear => !Blocked(v, r)
    case Pinned => r.step >= PUBLISH && Unmoved(v, r)
    case Stuck =>
      && r.mode == MovingAside && r.step >= PUBLISH
      && if !Absent(v, Partial) then !r.asideStarted
         else r.step >= REMOVE && !Distinguishable(j) && !Absent(v, Staged) && Absent(v, Recovery) && !r.cleanupStarted
    case Spoiled => r.step >= REMOVE && r.mode == Copying && !Distinguishable(j) && !Absent(v, Staged)
    case Placed => r.step >= REMOVE && !Blocked(v, r) && Absent(v, Staged)
  }

  /** What is known of a promotion's past: that only its own steps touched the disk, and what they sealed. */
  datatype Trail = Trail(own: bool, fate: Fate)

  /** One verdict on a record, so that it travels through proofs as a single fact. */
  datatype Verdict = Sound | Broken

  function Judge(j: Job, v: Volume, r: Record, t: Trail): Verdict {
    if Agrees(j, v, r) && (t.own ==> Interrupted(j, v, r) && Sealed(j, v, r, t.fate)) then Sound else Broken
  }

  predicate Good(j: Job, v: Volume, r: Record, t: Trail) {
    Judge(j, v, r, t) == Sound
  }

  /** Where an uninterrupted promotion ends. */
  predicate Replaced(j: Job, v: Volume) {
    && Holds(v, j.final, j.candidate)
    && (!SameName(j) ==> Absent(v, Library))
    && Absent(v, Staged) && Absent(v, Recovery) && Absent(v, Partial)
  }

  const FRESH := Record(PRESERVE, Undecided, false, false, false, None, None, false, false, false, false,
                        false, false, false, false, false, false, false, false)

  /** An approved plan on an untouched disk. */
  predicate Planned(j: Job, v: Volume) {
    && ValidJob(j)
    && Holds(v, Library, j.original) && Holds(v, Staged, j.candidate)
    && Absent(v, Recovery) && Absent(v, Partial) && Absent(v, Final)
    && !SameFile(v, Staged, Library)
  }

  lemma PlannedIsGood(j: Job, v: Volume)
    requires Planned(j, v)
    ensures Good(j, v, FRESH, Trail(true, Open))
  {
  }

  /** Strangers may have appeared at an empty library path; nothing else changed. */
  ghost predicate Undisturbed(v0: Volume, v1: Volume) {
    && At(v1, Staged) == At(v0, Staged) && At(v1, Recovery) == At(v0, Recovery) && At(v1, Partial) == At(v0, Partial)
    && Untouched(v0, v1)
    && (SameFile(v1, Library, Recovery) ==> SameFile(v0, Library, Recovery))
  }

  /** Nothing already at a library path moved, whatever it holds. */
  ghost predicate Untouched(v0: Volume, v1: Volume) {
    && (!Absent(v0, Library) ==> At(v1, Library) == At(v0, Library))
    && (!Absent(v0, Final) ==> At(v1, Final) == At(v0, Final))
  }

  /** A file that is neither the original, the candidate nor empty. */
  predicate Foreign(j: Job, data: Bytes) {
    data != j.original && data != j.candidate && data != []
  }

  /** A foreign file stays at its library path. */
  ghost predicate Spared(j: Job, v0: Volume, v1: Volume) {
    && (!Absent(v0, Library) && Foreign(j, At(v0, Library).value.data) ==> At(v1, Library) == At(v0, Library))
    && (!Absent(v0, Final) && Foreign(j, At(v0, Final).value.data) ==> At(v1, Final) == At(v0, Final))
  }

  /** Every recorded foreign file is where it appeared, unchanged. */
  ghost predicate GuestsHome(j: Job, v: Volume, guests: map<Path, Bytes>) {
    forall q :: q in guests ==> (q == Library || q == Final) && Holds(v, q, guests[q]) && Foreign(j, guests[q])
  }

  lemma GuestsStay(j: Job, v0: Volume, v1: Volume, guests: map<Path, Bytes>)
    requires GuestsHome(j, v0, guests) && Spared(j, v0, v1)
    ensures GuestsHome(j, v1, guests)
  {
  }

  lemma NoLongerOwn(j: Job, v: Volume, r: Record, t: Trail)
    requires Good(j, v, r, t)
    ensures Good(j, v, r, t.(own := false))
  {
  }

  /** Where an undisturbed run from here leads. */
  function Ending(j: Job, v: Volume, r: Record, stable: bool): Fate {
    if Stops(j, v, r, stable) then Stuck else if Doomed(j, v, r, stable) then Spoiled else Placed
  }

  /** Once the candidate is published the ending is sealed. Before, a leftover partial decides it; and until the
      original is preserved, one may still be left where the original can lose its identity. One that has none
      from now on is not moved any more. */
  function Settled(j: Job, v: Volume, r: Record, steadfast: bool, faceless: bool): Fate {
    if r.step == PRESERVE then if !Blocked(v, r) && steadfast then Clear else Open
    else if Blocked(v, r) || (r.step >= REMOVE && Ending(j, v, r, true) == Stuck) then Stuck
    else if faceless && Unmoved(v, r) then Pinned
    else if r.step >= REMOVE then Ending(j, v, r, true) else Clear
  }

  lemma Seal(j: Job, v: Volume, r: Record, t: Trail, steadfast: bool, faceless: bool)
    requires Good(j, v, r, t) && t.own
    ensures Good(j, v, r, t.(fate := Settled(j, v, r, steadfast, faceless)))
  {
  }

  lemma Unsealed(j: Job, v: Volume, r: Record, t: Trail)
    requires Good(j, v, r, t)
    ensures Good(j, v, r, t.(fate := Open))
  {
  }

  /** A sealed ending is where an undisturbed run from here leads. */
  lemma SealedMeans(j: Job, v: Volume, r: Record, t: Trail, stable: bool)
    requires Good(j, v, r, t) && t.own
    ensures t.fate == Stuck || t.fate == Spoiled ==> Ending(j, v, r, stable) == t.fate
    ensures t.fate == Placed && (stable || r.step > REMOVE) ==> Ending(j, v, r, stable) == Placed
    ensures t.fate == Pinned && !stable ==> Ending(j, v, r, stable) == Stuck
    ensures t.fate == Stuck || t.fate == Spoiled || t.fate == Pinned ==> !Replaced(j, v)
    ensures t.fate == Stuck || t.fate == Pinned ==> r.step < DONE
    ensures t.fate == Clear || t.fate == Placed ==> !Blocked(v, r)
  {
  }

  /** What dooms a promotion at publication is neither mended nor made worse. */
  predicate Outlook(j: Job, v0: Volume, r0: Record, v1: Volume, r1: Record) {
    && (Mistaken(j, v0, r0) <==> Mistaken(j, v1, r1))
    && (!Blocked(v0, r0) ==> !Blocked(v1, r1)) && (!Unmoved(v0, r0) ==> !Unmoved(v1, r1))
  }

  lemma OutlookKept(j: Job, v0: Volume, r0: Record, v1: Volume, r1: Record, t: Trail)
    requires Good(j, v0, r0, t) && t.own
    requires r1.publishStarted == r0.publishStarted && r1.mode == r0.mode && r1.cleanupStarted == r0.cleanupStarted
    requires Holds(v0, Library, j.original) ==> Holds(v1, Library, j.original)
    requires At(v1, Staged) == At(v0, Staged)
    requires r0.mode == MovingAside ==> v1 == v0
    ensures Outlook(j, v0, r0, v1, r1)
  {
    hide At;
  }

  lemma OutlookChain(j: Job, v0: Volume, r0: Record, v1: Volume, r1: Record, v2: Volume, r2: Record)
    requires Outlook(j, v0, r0, v1, r1) && Outlook(j, v1, r1, v2, r2)
    ensures Outlook(j, v0, r0, v2, r2)
  {
  }

  /** A move back leaves no partial behind, so what doomed a blocked promotion is still there. */
  lemma OutlookBack(j: Job, v: Volume, r0: Record, r1: Record, t: Trail)
    requires Good(j, v, r0, t) && t.own
    requires r1.publishStarted == r0.publishStarted && r1.mode == r0.mode && r1.cleanupStarted == r0.cleanupStarted
    ensures Outlook(j, v, r0, v, r1)
  {
    hide At;
  }
}
