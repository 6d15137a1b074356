/**
 The record's own changes: what each saved intent or outcome writes, and that the record still agrees with
 the disk when it is saved.
 */
module Records {
  import opened Volumes
  import opened Protocol
  import opened Effects

  function Copied(r: Record, stat: Print): Record {
    r.(backupVerified := true, backupPrint := Some(stat))
  }

  /** Only the recovery-copy fields of the record may differ. */
  predicate SameButCopy(r0: Record, r1: Record) {
    && r1.step == r0.step && r1.mode == r0.mode && r1.recoveryNamed == r0.recoveryNamed
    && r1.provedBefore == r0.provedBefore && r1.originalPrint == r0.originalPrint
    && r1.asideStarted == r0.asideStarted && r1.movedAside == r0.movedAside
    && r1.refused == r0.refused && r1.backStarted == r0.backStarted
    && r1.publishStarted == r0.publishStarted && r1.published == r0.published
    && r1.deleteSent == r0.deleteSent && r1.originalEmptying == r0.originalEmptying && r1.oldRemoved == r0.oldRemoved
    && r1.cleanupStarted == r0.cleanupStarted && r1.recoveryEmptying == r0.recoveryEmptying
    && r1.cleanupCompleted == r0.cleanupCompleted
  }

  lemma SameButCopyAtAll(r: Record)
    ensures SameButCopy(r, r)
  {
  }

  lemma CopiedKeeps(j: Job, v: Volume, r: Record, t: Trail, stat: Print)
    requires Good(j, v, r, t) && r.mode == Copying && !r.cleanupStarted && Holds(v, Recovery, j.original)
    ensures Good(j, v, Copied(r, stat), t) && SameButCopy(r, Copied(r, stat))
    ensures Copied(r, stat).backupVerified && Copied(r, stat).backupPrint == Some(stat)
    ensures Copied(r, stat).step == r.step && Copied(r, stat).originalPrint == r.originalPrint
  {
    hide At, Create, Write, Rename, Unlink;
  }

  /** What a move aside recorded stays as it is. */
  predicate Stands(r0: Record, r1: Record) {
    && r1.mode == r0.mode && r1.movedAside == r0.movedAside && r1.asideStarted == r0.asideStarted
    && r1.cleanupStarted == r0.cleanupStarted && r1.refused == r0.refused && (r0.backupVerified ==> r1.backupVerified)
  }

  lemma SameButCopyMeans(r0: Record, r1: Record)
    requires SameButCopy(r0, r1)
    ensures (r0.backupVerified ==> r1.backupVerified) ==> Stands(r0, r1)
    ensures r1.publishStarted == r0.publishStarted
  {
  }

  /** Before cleanup, a recovery copy left by this promotion is whole, and then no partial is left. */
  lemma CopyLeft(j: Job, v: Volume, r: Record, t: Trail)
    requires Good(j, v, r, t) && t.own && r.mode == Copying && !r.cleanupStarted && !Absent(v, Recovery)
    ensures Holds(v, Recovery, j.original) && Absent(v, Partial)
  {
    hide At, Create, Write, Rename, Unlink;
  }

  /** The step and the prints of the files stay as they were recorded. */
  predicate Alike(r0: Record, r1: Record) {
    r1.step == r0.step && r1.originalPrint == r0.originalPrint && r1.backupPrint == r0.backupPrint
  }

  function Named(r: Record): Record {
    r.(recoveryNamed := true)
  }

  function Proved(r: Record): Record {
    r.(provedBefore := true)
  }

  lemma NamedKeeps(j: Job, v: Volume, r: Record, t: Trail)
    requires Good(j, v, r, t)
    ensures Good(j, v, Named(r), t) && Named(r).recoveryNamed && Named(r).mode == r.mode && Alike(r, Named(r))
  {
    hide At;
  }

  lemma ProvedKeeps(j: Job, v: Volume, r: Record, t: Trail)
    requires Good(j, v, r, t) && Preserved(j, v, r)
    ensures Good(j, v, Proved(r), t) && Preserved(j, v, Proved(r)) && Alike(r, Proved(r))
    ensures Proved(r).provedBefore && Proved(r).mode == r.mode
  {
    hide At;
  }

  /** A mode to record: a copy, or a move aside of the file whose identity is known. */
  predicate MayChoose(j: Job, v: Volume, r: Record, t: Trail, mode: Mode) {
    && r.step == PRESERVE && r.recoveryNamed && Holds(v, Library, j.original) && mode != Undecided
    && (mode == MovingAside ==> r.mode != Copying && Absent(v, Recovery) && (t.own && r.mode != MovingAside ==> Absent(v, Partial)))
  }

  function Chosen(r: Record, mode: Mode, known: Option<Print>): Record {
    r.(mode := mode, originalPrint := if mode == MovingAside then known else r.originalPrint)
  }

  lemma ChosenKeeps(j: Job, v: Volume, r: Record, t: Trail, mode: Mode, known: Print)
    requires Good(j, v, r, t) && MayChoose(j, v, r, t, mode) && Matches(v, Library, known)
    ensures Good(j, v, Chosen(r, mode, Some(known)), t)
    ensures mode == MovingAside ==> InPlace(j, v, Chosen(r, mode, Some(known)))
  {
    hide At, Create, Write, Rename, Unlink;
  }

  /** What a completed preserve step leaves: a verified copy, or a verified original it can move aside. */
  predicate Preserved(j: Job, v: Volume, r: Record) {
    && r.recoveryNamed && r.mode != Undecided
    && (r.mode == Copying ==> r.backupVerified && Holds(v, Recovery, j.original))
    && (r.mode == MovingAside ==> InPlace(j, v, r))
  }

  lemma PreservedStays(j: Job, v0: Volume, v1: Volume, r: Record)
    requires Preserved(j, v0, r) && Undisturbed(v0, v1)
    ensures Preserved(j, v1, r)
  {
    hide At, Create, Write, Rename, Unlink;
  }

  /** Until the preserve step completes, nothing this promotion does leaves its two files. */
  lemma NothingLeft(j: Job, v: Volume, r: Record, t: Trail)
    requires Good(j, v, r, t) && r.step == PRESERVE
    ensures !r.cleanupStarted && (r.mode == MovingAside ==> InPlace(j, v, r))
    ensures t.own ==> Holds(v, Library, j.original) && Holds(v, Staged, j.candidate)
    ensures !r.asideStarted && !r.movedAside && (t.own && r.mode == MovingAside ==> !r.backupVerified)
  {
    hide At, Create, Write, Rename, Unlink;
  }

  // ---- Moving the original aside ----

  /** The original is about to leave its library path: into recovery, or under the candidate's name. */
  predicate Leaving(j: Job, v: Volume, r: Record) {
    && r.mode != Undecided && !r.backStarted && !r.cleanupStarted
    && if SameName(j) then r.publishStarted && r.step == PUBLISH && Holds(v, Staged, j.candidate)
       else r.step == REMOVE
  }

  /** The original is safe to lose from its library path. */
  predicate Safe(j: Job, v: Volume, r: Record) {
    if r.mode == MovingAside then r.movedAside
    else r.backupVerified && Holds(v, Recovery, j.original) && Holds(v, Library, j.original)
  }

  lemma SafeToPublish(j: Job, v: Volume, r: Record)
    requires Leaving(j, v, r) && Safe(j, v, r) && SameName(j)
    ensures Publishable(j, v, r) && r.publishStarted && !r.backStarted && r.step == PUBLISH
    ensures r.mode == MovingAside || Overwrites(j, r)
  {
  }

  lemma LeavingMeans(j: Job, v: Volume, r: Record, t: Trail)
    requires Good(j, v, r, t) && Leaving(j, v, r)
    ensures r.mode == MovingAside || r.mode == Copying
    ensures !r.cleanupStarted && !r.backStarted
    ensures SameName(j) ==> r.step == PUBLISH && Holds(v, Staged, j.candidate)
  {
    hide At;
  }

  lemma LeavingStays(j: Job, v0: Volume, v1: Volume, r: Record)
    requires Leaving(j, v0, r) && (Holds(v0, Staged, j.candidate) ==> Holds(v1, Staged, j.candidate))
    ensures Leaving(j, v1, r)
  {
  }

  /** Where a move aside may find the original: in place, or aside before the move was recorded. */
  lemma Whereabouts(j: Job, v: Volume, r: Record, t: Trail)
    requires Good(j, v, r, t) && r.mode == MovingAside && !r.cleanupStarted
    ensures r.recoveryNamed && r.originalPrint.Some?
    ensures Absent(v, Recovery) ==> InPlace(j, v, r) && Holds(v, Library, j.original)
    ensures !Absent(v, Recovery) ==> r.asideStarted && Aside(j, v, r) && Holds(v, Recovery, j.original)
    ensures r.movedAside && !r.backStarted ==> !Absent(v, Recovery)
    ensures t.own && !Blocked(v, r) ==> Absent(v, Partial)
    ensures r.movedAside ==> r.backupVerified
    ensures t.own && !r.movedAside && !Absent(v, Recovery) ==> Absent(v, Library)
  {
    hide At;
  }

  function Intended(r: Record, known: Print): Record {
    r.(originalPrint := Some(known), asideStarted := true)
  }

  lemma IntendedKeeps(j: Job, v: Volume, r: Record, t: Trail, known: Print)
    requires Good(j, v, r, t) && Leaving(j, v, r) && r.mode == MovingAside && !r.movedAside
    requires Holds(v, Library, j.original) && Absent(v, Recovery) && Matches(v, Library, known) && Absent(v, Partial)
    ensures var r' := Intended(r, known); Good(j, v, r', t) && Leaving(j, v, r') && InPlace(j, v, r')
    ensures var r' := Intended(r, known); r'.mode == MovingAside && r'.asideStarted && !r'.movedAside
    ensures var r' := Intended(r, known);
      r'.step == r.step && r'.originalPrint == Some(known) && r'.backupPrint == r.backupPrint
  {
    hide At;
  }

  function Moved(r: Record, stat: Print): Record {
    r.(movedAside := true, backupVerified := true, backupPrint := Some(stat), provedBefore := true)
  }

  lemma MovedKeeps(j: Job, v: Volume, r: Record, t: Trail, stat: Print)
    requires Good(j, v, r, t) && Leaving(j, v, r)
    requires r.mode == MovingAside && r.asideStarted && Aside(j, v, r) && Matches(v, Recovery, stat)
    ensures var r' := Moved(r, stat); Good(j, v, r', t) && Leaving(j, v, r') && Safe(j, v, r')
    ensures var r' := Moved(r, stat);
      r'.mode == MovingAside && r'.step == r.step && r'.originalPrint == r.originalPrint && r'.backupPrint == Some(stat)
  {
    hide At;
  }

  function FallenBack(r: Record): Record {
    r.(mode := Copying, asideStarted := false, refused := true)
  }

  lemma FallenBackKeeps(j: Job, v: Volume, r: Record, t: Trail)
    requires Good(j, v, r, t) && Leaving(j, v, r)
    requires r.mode == MovingAside && r.asideStarted && !r.movedAside && InPlace(j, v, r) && t.fate != Pinned
    ensures var r' := FallenBack(r); Good(j, v, r', t) && Leaving(j, v, r') && Alike(r, r')
    ensures var r' := FallenBack(r); r'.mode == Copying && NeedsCopy(r')
  {
    hide At;
  }

  /** The copy a refused move aside switched to is not made yet, and nothing has left the library. */
  predicate NeedsCopy(r: Record) {
    && r.mode == Copying && r.refused && !r.backupVerified && !r.movedAside && !r.asideStarted
    && !r.deleteSent && !r.oldRemoved
  }

  lemma AsideNeedsNone(r: Record)
    requires r.mode != Copying
    ensures !NeedsCopy(r)
  {
  }

  lemma NeedsCopyMeans(j: Job, v: Volume, r: Record, t: Trail)
    requires Good(j, v, r, t) && NeedsCopy(r)
    ensures !r.cleanupStarted && (t.own ==> Holds(v, Library, j.original))
  {
    hide At;
  }

  lemma CopiedLeaves(j: Job, v0: Volume, v1: Volume, r0: Record, r1: Record)
    requires Leaving(j, v0, r0) && (Holds(v0, Staged, j.candidate) ==> Holds(v1, Staged, j.candidate))
    requires SameButCopy(r0, r1) && r1.backupVerified && NeedsCopy(r0)
    requires Holds(v1, Recovery, j.original) && Holds(v1, Library, j.original)
    ensures Leaving(j, v1, r1) && Safe(j, v1, r1) && r1.mode == Copying && r1.refused
  {
  }

  lemma AsideStays(j: Job, v0: Volume, v1: Volume, r: Record)
    requires Undisturbed(v0, v1) && Aside(j, v0, r)
    ensures Aside(j, v1, r)
  {
  }

  lemma AsideThere(j: Job, v: Volume, r: Record)
    requires Aside(j, v, r)
    ensures Holds(v, Recovery, j.original) && !Absent(v, Recovery)
  {
  }

  lemma InPlaceStays(j: Job, v0: Volume, v1: Volume, r: Record)
    requires Undisturbed(v0, v1) && InPlace(j, v0, r)
    ensures InPlace(j, v1, r) && !Absent(v0, Library) && !Absent(v1, Library)
  {
  }

  // ---- Moving the original back ----

  /** A move back is a choice only while the library path is empty, so the candidate has no name yet. */
  lemma MayMoveBack(j: Job, v: Volume, r: Record, t: Trail)
    requires Good(j, v, r, t) && r.mode == MovingAside && r.asideStarted && SameName(j) && Absent(v, Library)
    ensures r.step == PUBLISH && !r.cleanupStarted && Aside(j, v, r) && Holds(v, Recovery, j.original) && r.recoveryNamed
    ensures r.movedAside ==> r.backupVerified
  {
    hide At;
  }

  /** An unfinished move back: the original is at exactly one of its two paths. */
  lemma BackWhereabouts(j: Job, v: Volume, r: Record, t: Trail)
    requires Good(j, v, r, t) && r.backStarted
    ensures r.mode == MovingAside && r.asideStarted && SameName(j) && r.step == PUBLISH && !r.cleanupStarted
    ensures Absent(v, Recovery) ==> InPlace(j, v, r) && Holds(v, Library, j.original)
    ensures !Absent(v, Recovery) ==> Aside(j, v, r)
    ensures t.own && !Absent(v, Recovery) ==> Absent(v, Library)
  {
    hide At;
  }

  function BackIntended(r: Record): Record {
    r.(backStarted := true)
  }

  lemma BackIntendedKeeps(j: Job, v: Volume, r: Record, t: Trail)
    requires Good(j, v, r, t) && r.mode == MovingAside && r.asideStarted && SameName(j)
    requires r.step == PUBLISH && Aside(j, v, r) && (t.own ==> Absent(v, Library))
    ensures var r' := BackIntended(r); Good(j, v, r', t) && Aside(j, v, r') && Alike(r, r')
    ensures var r' := BackIntended(r); r'.mode == MovingAside && r'.backStarted && !r'.cleanupStarted
  {
    hide At;
  }

  function BackDropped(r: Record): Record {
    r.(backStarted := false)
  }

  lemma BackDroppedKeeps(j: Job, v: Volume, r: Record, t: Trail)
    requires Good(j, v, r, t) && r.mode == MovingAside && Aside(j, v, r)
    ensures var r' := BackDropped(r); Good(j, v, r', t) && Alike(r, r')
    ensures var r' := BackDropped(r); !r'.backStarted && r'.mode == MovingAside && r'.asideStarted == r.asideStarted
    ensures BackDropped(r).publishStarted == r.publishStarted
  {
    hide At;
  }

  function Restored(r: Record, stat: Print): Record {
    r.(originalPrint := Some(stat), movedAside := false, backupVerified := false, backupPrint := None,
       asideStarted := false, backStarted := false, provedBefore := false)
  }

  lemma RestoredKeeps(j: Job, v: Volume, r: Record, t: Trail, stat: Print)
    requires Good(j, v, r, t) && r.backStarted && InPlace(j, v, r) && Matches(v, Library, stat)
    ensures var r' := Restored(r, stat); Good(j, v, r', t) && BackHome(j, v, r') && r'.mode == MovingAside
    ensures var r' := Restored(r, stat); r'.step == r.step && r'.originalPrint == Some(stat) && r'.backupPrint == None
    ensures Restored(r, stat).publishStarted == r.publishStarted
  {
    hide At;
  }

  /** The original is back in its place, the recovery path is empty, and every intent is cleared. */
  predicate BackHome(j: Job, v: Volume, r: Record) {
    && InPlace(j, v, r)
    && !r.asideStarted && !r.movedAside && !r.backStarted && !r.backupVerified
  }

  lemma BackHomeStays(j: Job, v0: Volume, v1: Volume, r: Record)
    requires BackHome(j, v0, r) && Undisturbed(v0, v1)
    ensures BackHome(j, v1, r) && !Absent(v1, Library) && !r.backStarted && !r.asideStarted
  {
  }

  // ---- Publishing ----

  /** When a quiet promotionVerifyRecovered succeeds. */
  predicate Recoverable(j: Job, v: Volume, r: Record) {
    if r.mode == MovingAside && !r.movedAside then
      r.originalPrint.Some? &&
      if !r.asideStarted then Absent(v, Recovery) && Holds(v, Library, j.original)
      else if Absent(v, Library) then Holds(v, Recovery, j.original)
      else Holds(v, Library, j.original)
    else r.backupVerified && Holds(v, Recovery, j.original)
  }

  /** Recovery is settled, and the candidate may be published under its name. */
  predicate Entering(j: Job, v: Volume, r: Record) {
    && r.step == PUBLISH && !r.backStarted && !r.cleanupStarted && r.mode != Undecided
    && (r.mode == Copying ==> r.backupVerified && Holds(v, Recovery, j.original))
  }

  lemma EnteringStays(j: Job, v0: Volume, v1: Volume, r: Record)
    requires Entering(j, v0, r) && Undisturbed(v0, v1)
    ensures Entering(j, v1, r)
  {
  }

  /** Both files are whole; once a move aside started, the recovery check and the move prove the original. */
  predicate BothWhole(j: Job, v: Volume, r: Record) {
    Holds(v, Staged, j.candidate) && (r.movedAside || r.asideStarted || Holds(v, Library, j.original))
  }

  /** Both files were just verified under the saved intent. */
  predicate Verified(j: Job, v: Volume, r: Record) {
    Entering(j, v, r) && r.publishStarted && BothWhole(j, v, r)
  }

  lemma VerifiedStays(j: Job, v0: Volume, v1: Volume, r: Record)
    requires Verified(j, v0, r) && Undisturbed(v0, v1)
    ensures Verified(j, v1, r)
  {
  }

  lemma VerifiedMeans(j: Job, v: Volume, r: Record, t: Trail)
    requires Good(j, v, r, t) && Verified(j, v, r)
    ensures if SameName(j) && r.mode == MovingAside then Leaving(j, v, r) else Publishable(j, v, r)
    ensures r.publishStarted && !r.backStarted && r.step == PUBLISH && ValidJob(j)
  {
    hide At;
  }

  lemma OverwritesOr(j: Job, r: Record)
    requires ValidJob(j)
    ensures SameName(j) && r.mode != MovingAside ==> Overwrites(j, r)
    ensures !SameName(j) ==> j.final == Final
  {
  }

  lemma NameIsFree(j: Job, v: Volume, r: Record, t: Trail)
    requires Good(j, v, r, t) && t.own && Leaving(j, v, r) && Safe(j, v, r) && r.mode == MovingAside
    ensures Absent(v, Library)
  {
    hide At;
  }

  /** Once recovery is settled, an undisturbed publish finds either its result or everything it needs. */
  lemma PublishResumes(j: Job, v: Volume, r: Record, t: Trail)
    requires Good(j, v, r, t) && t.own && r.step == PUBLISH && !r.backStarted && !NeedsCopy(r)
    ensures Recoverable(j, v, r) && r.recoveryNamed
    ensures !(r.publishStarted && Holds(v, j.final, j.candidate)) ==> BothWhole(j, v, r) && (SameName(j) || Absent(v, Final))
  {
    hide At;
  }

  /** What a rerun confirms as published is a mistake exactly while the candidate's temporary file is there. */
  lemma ConfirmedMeans(j: Job, v: Volume, r: Record, t: Trail)
    requires Good(j, v, r, t) && t.own && r.publishStarted && Holds(v, j.final, j.candidate)
    ensures Mistaken(j, v, r) <==> !Absent(v, Staged)
  {
    hide At;
  }

  lemma AtPublish(j: Job, v: Volume, r: Record, t: Trail)
    requires Good(j, v, r, t) && r.step == PUBLISH
    ensures ValidJob(j) && !r.cleanupStarted && r.mode != Undecided
  {
    hide At;
  }

  /** Before a move aside is announced the original is in its place. */
  lemma NotAnnounced(j: Job, v: Volume, r: Record, t: Trail)
    requires Good(j, v, r, t) && r.step == PUBLISH && r.mode == MovingAside && !r.asideStarted
    ensures !Absent(v, Library) && !r.movedAside
  {
    hide At;
  }

  function PublishIntended(r: Record): Record {
    r.(publishStarted := true)
  }

  lemma PublishIntendedKeeps(j: Job, v: Volume, r: Record, t: Trail)
    requires Good(j, v, r, t) && Entering(j, v, r)
    ensures var r' := PublishIntended(r); Good(j, v, r', t) && Entering(j, v, r') && Alike(r, r')
    ensures Stands(r, PublishIntended(r))
    ensures var r' := PublishIntended(r); r'.publishStarted && (BothWhole(j, v, r) ==> BothWhole(j, v, r'))
  {
    hide At;
  }

  function Published(r: Record): Record {
    r.(published := true)
  }

  /** What each step's completion leaves for the next one. */
  predicate Completed(j: Job, v: Volume, r: Record) {
    && (r.step == PRESERVE ==> Preserved(j, v, r))
    && (r.step == PUBLISH ==> r.published && !r.backStarted && Holds(v, j.final, j.candidate))
    && (r.step == REMOVE ==> r.oldRemoved)
    && (r.step == FINALIZE ==> r.cleanupCompleted)
    && r.step < DONE
  }

  lemma PublishedKeeps(j: Job, v: Volume, r: Record, t: Trail)
    requires Good(j, v, r, t) && r.step == PUBLISH && r.publishStarted && !r.backStarted
    requires Holds(v, j.final, j.candidate)
    ensures Stands(r, Published(r))
    ensures var r' := Published(r); Good(j, v, r', t) && Completed(j, v, r') && Alike(r, r')
  {
    hide At;
  }

  lemma CompletedStays(j: Job, v0: Volume, v1: Volume, r: Record)
    requires Completed(j, v0, r) && Undisturbed(v0, v1) && ValidJob(j)
    ensures Completed(j, v1, r)
    ensures r.step == PUBLISH ==> !Absent(v1, j.final)
  {
    hide At;
  }

  // ---- Removing the original, and recovery ----

  function RemovalIntended(r: Record, empty: bool): Record {
    r.(deleteSent := true, originalEmptying := r.originalEmptying || empty)
  }

  /** Copy mode, with the candidate under its own new name: the verified copy outlives the original. */
  predicate Removable(j: Job, v: Volume, r: Record) {
    && r.step == REMOVE && !SameName(j) && r.mode == Copying && r.published
    && r.backupVerified && Holds(v, Recovery, j.original)
  }

  lemma RemovableStays(j: Job, v0: Volume, v1: Volume, r: Record)
    requires Removable(j, v0, r) && (Holds(v0, Recovery, j.original) ==> Holds(v1, Recovery, j.original))
    ensures Removable(j, v1, r)
  {
  }

  lemma RemovableMeans(j: Job, v: Volume, r: Record)
    requires Removable(j, v, r)
    ensures Holds(v, Recovery, j.original) && r.step == REMOVE && r.published
  {
  }

  lemma RemovalIntendedKeeps(j: Job, v: Volume, r: Record, t: Trail, empty: bool)
    requires Good(j, v, r, t) && Removable(j, v, r)
    ensures var r' := RemovalIntended(r, empty); Good(j, v, r', t) && Removable(j, v, r') && Alike(r, r')
    ensures var r' := RemovalIntended(r, empty);
      r'.deleteSent && r'.originalEmptying == (r.originalEmptying || empty) && r'.oldRemoved == r.oldRemoved
  {
    hide At;
  }

  /** The library may be told to delete the old file: the original is safe at the recovery path. */
  predicate Deletable(j: Job, v: Volume, r: Record) {
    && r.step == REMOVE && !SameName(j)
    && if r.mode == MovingAside then r.movedAside else r.backupVerified && Holds(v, Recovery, j.original)
  }

  lemma DeletionIntendedKeeps(j: Job, v: Volume, r: Record, t: Trail)
    requires Good(j, v, r, t) && Deletable(j, v, r)
    ensures var r' := RemovalIntended(r, false);
      Good(j, v, r', t) && Alike(r, r') && r'.deleteSent && r'.mode == r.mode && Holds(v, Recovery, j.original)
  {
    hide At;
  }

  /** Once the library was told, nothing is left to copy. */
  lemma ToldMeans(r: Record)
    requires r.deleteSent
    ensures !NeedsCopy(r)
  {
  }

  function OldGone(r: Record): Record {
    r.(oldRemoved := true)
  }

  /** Nothing keeps the original at its path any more: it moved, or its name is the candidate's, or it was
      removed under a saved intent. */
  predicate Departed(j: Job, v: Volume, r: Record, t: Trail) {
    && r.step == REMOVE && r.published
    && (r.mode == MovingAside && !SameName(j) ==> r.movedAside)
    && (r.mode == Copying ==> r.backupVerified && (t.own && !SameName(j) ==> Absent(v, Library)))
  }

  lemma OldGoneKeeps(j: Job, v: Volume, r: Record, t: Trail)
    requires Good(j, v, r, t) && Departed(j, v, r, t)
    ensures var r' := OldGone(r); Good(j, v, r', t) && Completed(j, v, r') && Alike(r, r')
  {
    hide At;
  }

  function CleanupIntended(r: Record, empty: bool): Record {
    r.(cleanupStarted := true, recoveryEmptying := r.recoveryEmptying || empty)
  }

  /** The replacement is final, so its recovery may go: verified whole, or already emptied or gone by an
      earlier cleanup. */
  predicate Finished(j: Job, v: Volume, r: Record, t: Trail) {
    && r.step == FINALIZE && r.oldRemoved && Holds(v, j.final, j.candidate)
    && (t.own ==> SameName(j) || Absent(v, Library))
    && (t.own ==> r.cleanupStarted || (r.backupVerified && Holds(v, Recovery, j.original)))
  }

  lemma CleanupIntendedKeeps(j: Job, v: Volume, r: Record, t: Trail, empty: bool)
    requires Good(j, v, r, t) && Finished(j, v, r, t)
    ensures var r' := CleanupIntended(r, empty); Good(j, v, r', t) && Alike(r, r')
    ensures var r' := CleanupIntended(r, empty);
      r'.cleanupStarted && r'.cleanupCompleted == r.cleanupCompleted && r'.recoveryEmptying == (r.recoveryEmptying || empty)
  {
    hide At;
  }

  function CleanedUp(r: Record): Record {
    r.(backupVerified := false, cleanupCompleted := true)
  }

  lemma CleanedUpKeeps(j: Job, v: Volume, r: Record, t: Trail)
    requires Good(j, v, r, t) && r.cleanupStarted && r.step == FINALIZE && (t.own ==> Absent(v, Recovery))
    ensures var r' := CleanedUp(r); Good(j, v, r', t) && Completed(j, v, r') && Alike(r, r')
  {
    hide At;
  }

  /** What an undisturbed removal step finds. */
  lemma RemoveResumes(j: Job, v: Volume, r: Record, t: Trail)
    requires Good(j, v, r, t) && t.own && r.step == REMOVE && !NeedsCopy(r)
    ensures Recoverable(j, v, r) && r.recoveryNamed && Holds(v, j.final, j.candidate)
    ensures r.mode == Copying && !SameName(j) ==>
      || Holds(v, Library, j.original)
      || (r.deleteSent && (Absent(v, Library) || OriginalEmptied(j, v, r)))
  {
    hide At;
  }

  lemma AtRemove(j: Job, v: Volume, r: Record, t: Trail)
    requires Good(j, v, r, t) && r.step == REMOVE
    ensures ValidJob(j) && r.published && Holds(v, j.final, j.candidate) && !r.cleanupStarted && !r.backStarted
    ensures r.mode == MovingAside || r.mode == Copying
    ensures t.own && r.mode == Copying ==> r.backupVerified || NeedsCopy(r)
  {
    hide At;
  }

  /** What an undisturbed verification of the result finds. */
  lemma VerifyResumes(j: Job, v: Volume, r: Record, t: Trail)
    requires Good(j, v, r, t) && t.own && r.step >= VERIFY && r.step < DONE
    ensures r.oldRemoved && r.published && Holds(v, j.final, j.candidate) && (SameName(j) || Absent(v, Library))
  {
    hide At;
  }

  lemma FinalizeClear(j: Job, v: Volume, r: Record, t: Trail)
    requires Good(j, v, r, t) && t.own && r.step == FINALIZE && !Stops(j, v, r, true)
    ensures Absent(v, Partial)
  {
    hide At;
  }

  /** What an undisturbed finalization finds. */
  lemma FinalizeResumes(j: Job, v: Volume, r: Record, t: Trail)
    requires Good(j, v, r, t) && t.own && r.step >= VERIFY && r.step < DONE
    ensures !Stops(j, v, r, true) && Absent(v, Recovery) ==> r.cleanupStarted
    ensures !Absent(v, Recovery) ==> !r.cleanupCompleted
    ensures !Absent(v, Recovery) && !RecoveryEmptied(j, v, r) ==> Recoverable(j, v, r) && r.recoveryNamed
    ensures !Absent(v, Recovery) ==> Holds(v, Recovery, j.original) || RecoveryEmptied(j, v, r)
    ensures !Absent(v, Recovery) ==> r.cleanupStarted || r.backupVerified
    ensures RecoveryEmptied(j, v, r) ==> r.cleanupStarted
  {
    hide At;
  }

  lemma ValidJobOf(j: Job, v: Volume, r: Record, t: Trail)
    requires Good(j, v, r, t)
    ensures ValidJob(j)
  {
  }

  lemma Finishable(j: Job, v: Volume, r: Record, t: Trail)
    requires Good(j, v, r, t) && r.step == FINALIZE && !Absent(v, Recovery)
    ensures Finished(j, v, r, t)
    ensures t.own && At(v, Recovery).value.data != [] ==> |j.original| > 0
  {
    hide At;
  }

  lemma AsideMarked(j: Job, v: Volume, r: Record, t: Trail)
    requires Good(j, v, r, t) && r.mode == MovingAside
    ensures r.movedAside || r.backStarted ==> r.asideStarted
  {
  }

  // ---- Discarding a duplicate copy ----

  /** duplicateBackupGuard: no replacement has started, so the original in its place is not needed twice. */
  predicate Duplicated(r: Record) {
    && r.mode != MovingAside && !r.movedAside && !r.asideStarted && !r.backStarted
    && !r.oldRemoved && !r.deleteSent && !r.cleanupStarted && !r.originalEmptying && !r.publishStarted
  }

  function EmptyingPlanned(r: Record, empty: bool): Record {
    r.(recoveryEmptying := r.recoveryEmptying || empty)
  }

  lemma NothingPlanned(r: Record)
    ensures !r.recoveryEmptying ==> EmptyingPlanned(r, false) == r
  {
  }

  lemma EmptyingPlannedAgrees(j: Job, v: Volume, r: Record, empty: bool)
    requires Agrees(j, v, r)
    ensures Agrees(j, v, EmptyingPlanned(r, empty))
  {
    hide At;
  }

  lemma EmptyingPlannedKeeps(j: Job, v: Volume, r: Record, t: Trail, empty: bool)
    requires Good(j, v, r, t) && !t.own
    ensures var r' := EmptyingPlanned(r, empty); Good(j, v, r', t) && Alike(r, r') && (Duplicated(r) ==> Duplicated(r'))
  {
    EmptyingPlannedAgrees(j, v, r, empty);
    hide At, Agrees, Interrupted, Sealed;
  }

  function Discarded(r: Record): Record {
    r.(backupVerified := false)
  }

  lemma DiscardedKeeps(j: Job, v: Volume, r: Record, t: Trail)
    requires Good(j, v, r, t) && !t.own && Duplicated(r)
    ensures var r' := Discarded(r); Good(j, v, r', t) && Alike(r, r') && !r'.backupVerified
  {
    hide At, Interrupted, Sealed;
  }

  lemma DuplicatedMeans(r: Record)
    requires Duplicated(r)
    ensures r.mode != MovingAside && !r.cleanupStarted
  {
  }

  lemma DuplicatedClears(j: Job, v: Volume, r: Record, t: Trail)
    requires Good(j, v, r, t) && Duplicated(r)
    ensures r.mode != MovingAside && !r.cleanupStarted && !r.asideStarted && MayCopy(r)
  {
    hide At, Interrupted, Sealed;
  }

  // ---- The engine's checkpoint ----

  function Advanced(r: Record): Record {
    r.(step := r.step + 1)
  }

  lemma AdvancedKeeps(j: Job, v: Volume, r: Record, t: Trail)
    requires Good(j, v, r, t) && Completed(j, v, r)
    ensures var r' := Advanced(r); Good(j, v, r', t)
    ensures var r' := Advanced(r);
      r'.step == r.step + 1 && r'.originalPrint == r.originalPrint && r'.backupPrint == r.backupPrint
  {
    hide At;
  }

  /** What a step of an undisturbed run leaves of what may doom it. */
  predicate Leads(j: Job, v0: Volume, r0: Record, v1: Volume, r1: Record, stable: bool) {
    && r1.step == r0.step
    && (r0.step == PRESERVE ==> if stable then (Blocked(v1, r1) <==> Blocked(v0, r0)) else r1.mode != MovingAside)
    && (r0.step == PUBLISH && !Barred(v0, r0, stable) ==>
          && (Absent(v1, Staged) <==> !Mistaken(j, v0, r0))
          && (r1.mode == r0.mode || (r1.mode == Copying && !Mistaken(j, v0, r0))))
  }

  /** So the ending stays the same from step to step. */
  lemma EndingKept(j: Job, v0: Volume, r0: Record, t0: Trail, v1: Volume, r1: Record, t1: Trail, steadfast: bool, stable: bool)
    requires Good(j, v0, r0, t0) && t0.own && t0.fate == Settled(j, v0, r0, steadfast, !stable)
    requires Good(j, v1, r1, t1) && t1.own && t1.fate == t0.fate && Completed(j, v1, r1)
    requires Leads(j, v0, r0, v1, r1, stable)
    ensures Ending(j, v1, Advanced(r1), stable) == Ending(j, v0, r0, stable)
  {
    hide At;
    AdvancedKeeps(j, v1, r1, t1);
    SealedMeans(j, v1, Advanced(r1), t1, stable);
  }

  /** Where an undisturbed run ends. */
  lemma DoneIsReplaced(j: Job, v: Volume, r: Record, t: Trail, stable: bool)
    requires Good(j, v, r, t) && t.own && r.step == DONE
    ensures Replaced(j, v) <==> !Doomed(j, v, r, stable)
    ensures !Stops(j, v, r, stable)
  {
    hide At;
  }

  /** A run that cannot end has not replaced the file, and one that ended has, unless it was doomed. */
  lemma EndingMeans(j: Job, v: Volume, r: Record, t: Trail, v0: Volume, r0: Record, stable: bool)
    requires Good(j, v, r, t) && t.own
    ensures Ending(j, v0, r0, stable) == Stuck <==> Stops(j, v0, r0, stable)
    ensures Ending(j, v0, r0, stable) == Placed <==> !Doomed(j, v0, r0, stable)
    ensures Doomed(j, v, r, stable) ==> !Replaced(j, v)
    ensures Ending(j, v, r, stable) == Placed <==> !Doomed(j, v, r, stable)
    ensures r.step == DONE ==> Ending(j, v, r, stable) != Stuck && (Replaced(j, v) <==> !Doomed(j, v, r, stable))
  {
    if r.step == DONE { DoneIsReplaced(j, v, r, t, stable); }
    hide At;
  }

  /** What a reader of the stored record may rely on. */
  lemma GoodMeans(j: Job, v: Volume, r: Record, t: Trail)
    requires Good(j, v, r, t)
    ensures NoLoss(j, v, r) && (r.mode == MovingAside ==> FlagsAgree(j, v, r))
    ensures PRESERVE <= r.step <= DONE
  {
  }
}
