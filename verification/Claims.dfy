/**
 Who may replace a file (action/replace_when_done.go, action/transcode_batch_promotion.go,
 action/batch_candidate_review.go): a person's review, the job's automatic replacement, and the batch's
 replacement plan compete for each file under one lock, each in several store operations that may interleave
 with everything done outside it.
 */
module Claims {
  import opened Volumes

  type File = nat    // a finished transcode

  datatype Kind = Reviewed | Automatic

  /** A file's replacement: its idempotency key allows one; early until its checkpoint is past its approval. */
  datatype Promotion = Promotion(byBatch: bool, approved: bool, early: bool)

  /** The approval ahead of the plan, bound to the file's own replacement. */
  datatype Approval = Approval(kind: Kind, used: bool)

  /** Where one actor of the process is; in every phase but Idle it holds replaceMu. */
  datatype Phase =
    | Idle
    | Reviewing(todo: seq<File>, ready: seq<File>)   // ReplaceReviewed checks all its files first
    | Submitting(todo: seq<File>)
    | Granting(todo: seq<File>, file: File)
    | AutoChecking(file: File)                       // submitAutoReplacementLocked
    | AutoEnqueueing(file: File)
    | AutoGranting(file: File)
    | Planning(todo: seq<File>, members: set<File>)  // buildBatchPromotionPlan
    | Approving(file: File)                          // promotionApprovedAhead
    | Using(file: File, kind: Kind)
    | Dropping(file: File)                           // revokeUnusedApproval
    | Revoking(file: File)                           // submitReviewed, a replacement that failed early
    | Replanning(file: File)

  datatype State = State(
    holder: int,                     // the actor that holds replaceMu, or FREE
    switchedOn: bool,                // replace when done
    plan: Option<set<File>>,         // the batch's live replacement plan
    kept: Option<set<File>>,         // one whose save failed, in the memory of the failing step
    late: set<File>,                 // its members submitted on their own, found free before it was stored
    open: set<File>,                 // members the lock's holder had found free as it was stored
    promotions: map<File, Promotion>,
    pending: set<File>,              // automatic replacements not submitted yet
    finished: set<File>,             // items saved as completed
    approvals: map<File, Approval>,
    uses: seq<Use>,                  // approvals that let a promotion go ahead
    unsaved: set<File>,              // promotions that used one and have not stored that yet
    lost: multiset<File>,            // uses that do not stand: never stored, or given up by a new plan
    actors: seq<Phase>)

  datatype Use = Use(file: File, kind: Kind, switchedOn: bool)

  const FREE := -1

  /** replacement and BatchItemReplacementReserved, as far as claims go: nobody has the file. */
  predicate Free(s: State, f: File) {
    f in s.finished && f !in s.promotions && (s.plan.Some? ==> f !in s.plan.value)
  }

  /** A review may also approve the file's own replacement while that still lacks an approval. */
  predicate Replaceable(s: State, f: File) {
    Free(s, f) || (f in s.promotions && !s.promotions[f].byBatch && !s.promotions[f].approved)
  }

  datatype Action =
    // Taking replaceMu
    | StartReview(a: nat, files: seq<File>)
    | StartAuto(a: nat, file: File)
    | StartPlan(a: nat, files: seq<File>)
    | StartApproval(a: nat, file: File)
    | StartDrop(a: nat, file: File)  // a promotion was rejected, or failed before its approval
    | StartReplan(a: nat, file: File)
    | Switch(a: nat, value: bool)
    // Under it
    | Continue(a: nat)
    // Outside it
    | Finish(file: File)             // a transcode is saved as completed, listed as pending first
    | FailPlan(a: nat, stored: bool) // planBatchPromotion's save fails, and the lock is released
    | KeepPlan                       // the failing step's checkpoint stores the plan all the same
    | LosePlan                       // or does not
    | RejectPlan
    | RunMember(file: File)          // the approved plan starts a member's promotion
    | SaveApproved(file: File)
    | LoseApproved(file: File)       // the promotion's step ends without storing it
    | PassApproval(file: File)       // its checkpoint moves on
    | Crash                          // the process dies: only the store is left

  /** approve_promotion runs under the promotion's lease, and looks for an approval only without one. */
  predicate MayApprove(s: State, f: File) {
    f in s.promotions && !s.promotions[f].approved && f !in s.unsaved
  }

  /** A replacement of the file's own that failed at or before its approval, and whose step has ended. */
  predicate MayReplan(s: State, f: File) {
    f in s.promotions && !s.promotions[f].byBatch && s.promotions[f].early && f !in s.unsaved
  }

  predicate Enabled(s: State, a: Action) {
    match a
    case StartReview(k, _) => k < |s.actors| && s.holder == FREE && s.actors[k].Idle?
    case StartAuto(k, f) => k < |s.actors| && s.holder == FREE && s.actors[k].Idle?
    case StartPlan(k, _) => k < |s.actors| && s.holder == FREE && s.actors[k].Idle? && s.plan.None? && s.kept.None?
    case StartApproval(k, f) => k < |s.actors| && s.holder == FREE && s.actors[k].Idle? && MayApprove(s, f)
    case StartDrop(k, f) => k < |s.actors| && s.holder == FREE && s.actors[k].Idle?
    case StartReplan(k, f) => k < |s.actors| && s.holder == FREE && s.actors[k].Idle? && MayReplan(s, f)
    case Switch(k, _) => k < |s.actors| && s.holder == FREE && s.actors[k].Idle?
    case Continue(k) => k < |s.actors| && !s.actors[k].Idle?
    case Finish(f) => f !in s.finished
    case FailPlan(k, _) => k < |s.actors| && s.actors[k].Planning? && s.actors[k].todo == []
    case KeepPlan => s.kept.Some?
    case LosePlan => s.kept.Some?
    case RejectPlan => s.plan.Some?
    case RunMember(f) => s.plan.Some? && f in s.plan.value && f !in s.promotions
    case SaveApproved(f) => f in s.unsaved && f in s.promotions
    case LoseApproved(f) => f in s.unsaved
    case PassApproval(f) => f in s.promotions && s.promotions[f].approved
    case Crash => true
  }

  function Go(s: State, k: nat, p: Phase): (r: State)
    requires k < |s.actors|
    ensures r.plan == s.plan && r.kept == s.kept && r.late == s.late && r.open <= s.open
  {
    s.(actors := s.actors[k := p], holder := if p.Idle? then FREE else k, open := if p.Idle? then {} else s.open)
  }

  /** The files the lock's holder found free and may still submit. */
  function Checked(s: State): set<File> {
    if !(0 <= s.holder < |s.actors|) then {} else
    match s.actors[s.holder]
    case Reviewing(_, ready) => set f | f in ready
    case Submitting(todo) => set f | f in todo
    case Granting(todo, _) => set f | f in todo
    case AutoEnqueueing(f) => {f}
    case _ => {}
  }

  /** Submit a file's own replacement, unless the batch did meanwhile. */
  function Submitted(s: State, f: File): State {
    if f in s.promotions then s
    else s.(promotions := s.promotions[f := Promotion(false, false, true)],
            late := if f in s.open || (s.kept.Some? && f in s.kept.value) then s.late + {f} else s.late)
  }

  /** The actor's next store operation under the lock. */
  function Locked(s: State, k: nat): State
    requires k < |s.actors| && !s.actors[k].Idle?
  {
    match s.actors[k]
    case Reviewing(todo, ready) =>
      if todo == [] then Go(s, k, Submitting(ready))
      else if Replaceable(s, todo[0]) && todo[0] !in ready then Go(s, k, Reviewing(todo[1..], ready + [todo[0]]))
      else Go(s, k, Idle)            // one refused file refuses them all
    case Submitting(todo) =>
      if todo == [] then Go(s, k, Idle)
      else if todo[0] in s.promotions && s.promotions[todo[0]].byBatch then Go(s, k, Submitting(todo[1..]))
      else Go(Submitted(s, todo[0]), k, Granting(todo[1..], todo[0]))
    case Granting(todo, f) =>
      Go(s, k, Submitting(todo)).(approvals := s.approvals[f := Approval(Reviewed, false)])
    case AutoChecking(f) =>
      if f in s.pending && s.switchedOn && Free(s, f) then Go(s, k, AutoEnqueueing(f))
      else Go(s, k, Idle).(pending := s.pending - {f})
    case AutoEnqueueing(f) =>
      if f in s.promotions then Go(s, k, Idle)
      else Go(Submitted(s, f).(pending := s.pending - {f}), k, AutoGranting(f))
    case AutoGranting(f) =>
      Go(s, k, Idle).(approvals := s.approvals[f := Approval(Automatic, false)])
    case Planning(todo, members) =>
      if todo == [] then Go(s, k, Idle).(plan := Some(members))
      else if Free(s, todo[0]) && todo[0] !in s.pending then Go(s, k, Planning(todo[1..], members + {todo[0]}))
      else Go(s, k, Planning(todo[1..], members))
    case Approving(f) =>
      if f in s.approvals && (s.approvals[f].kind.Automatic? ==> s.switchedOn) && f in s.promotions && !s.promotions[f].byBatch
      then Go(s, k, Using(f, s.approvals[f].kind)) else Go(s, k, Idle)
    case Using(f, kind) =>
      if f in s.approvals && s.approvals[f].kind == kind then
        Go(s, k, Idle).(approvals := s.approvals[f := s.approvals[f].(used := true)],
                        uses := s.uses + [Use(f, kind, s.switchedOn)], unsaved := s.unsaved + {f})
      else Go(s, k, Idle)
    case Dropping(f) =>
      Go(s, k, Idle).(approvals := if f in s.approvals && !s.approvals[f].used then s.approvals - {f} else s.approvals)
    case Revoking(f) => Go(s, k, Replanning(f)).(approvals := s.approvals - {f})
    case Replanning(f) =>
      if !MayReplan(s, f) then Go(s, k, Idle)
      else Go(s, k, Idle).(promotions := s.promotions[f := s.promotions[f].(approved := false)],
                           lost := if s.promotions[f].approved then s.lost + multiset{f} else s.lost)
    case Idle => s
  }

  function Step(s: State, a: Action): State
    requires Enabled(s, a)
  {
    match a
    case StartReview(k, files) => Go(s, k, Reviewing(files, []))
    case StartAuto(k, f) => Go(s, k, AutoChecking(f))
    case StartPlan(k, files) => Go(s, k, Planning(files, {}))
    case StartApproval(k, f) => Go(s, k, Approving(f))
    case StartDrop(k, f) => Go(s, k, Dropping(f))
    case StartReplan(k, f) => Go(s, k, Revoking(f))
    case Switch(_, value) => s.(switchedOn := value, pending := if value then s.pending else {})
    case Continue(k) => Locked(s, k)
    case Finish(f) => s.(finished := s.finished + {f}, pending := if s.switchedOn then s.pending + {f} else s.pending)
    case FailPlan(k, stored) => if stored then Go(s, k, Idle).(plan := Some(s.actors[k].members))
                                else Go(s, k, Idle).(kept := Some(s.actors[k].members))
    case KeepPlan => s.(plan := s.kept, kept := None, open := Checked(s) * s.kept.value)
    case LosePlan => s.(kept := None, late := {})
    case RejectPlan => s.(plan := None, late := {}, open := {})
    case RunMember(f) => s.(promotions := s.promotions[f := Promotion(true, false, true)])
    case SaveApproved(f) =>
      s.(promotions := s.promotions[f := s.promotions[f].(approved := true)], unsaved := s.unsaved - {f})
    case LoseApproved(f) => s.(unsaved := s.unsaved - {f}, lost := s.lost + multiset{f})
    case PassApproval(f) => s.(promotions := s.promotions[f := s.promotions[f].(early := false)])
    case Crash =>
      s.(holder := FREE, actors := seq(|s.actors|, i => Idle), unsaved := {}, lost := s.lost + multiset(s.unsaved),
         kept := None, late := if s.plan.Some? then s.late else {}, open := {})
  }

  /** No file is both in the live plan and the subject of its own replacement. */
  predicate OneClaimant(s: State) {
    s.plan.Some? ==> forall f :: f in s.plan.value && f in s.promotions ==> s.promotions[f].byBatch
  }

  /** The plan that is stored, or may still be. */
  function Members(s: State): set<File> {
    if s.plan.Some? then s.plan.value else if s.kept.Some? then s.kept.value else {}
  }

  /** The late ones are exactly the plan's members that were submitted on their own. */
  ghost predicate LateExactly(s: State) {
    && (s.plan.None? || s.kept.None?)
    && s.open <= (if s.plan.Some? then s.plan.value else {})
    && forall f :: f in s.late <==> f in Members(s) && f in s.promotions && !s.promotions[f].byBatch
  }

  /** A file found free may be submitted, even if a kept plan was stored since. */
  predicate Claimable(s: State, f: File) {
    f in s.promotions || (s.plan.Some? && f in s.plan.value ==> f in s.open)
  }

  /** What the lock's holder read is still so. */
  predicate Holding(s: State, p: Phase) {
    match p
    case Reviewing(_, ready) => Unclaimed(s, ready)
    case Submitting(todo) => Unclaimed(s, todo)
    case Granting(todo, f) => Unclaimed(s, todo) && f !in todo
    case AutoEnqueueing(f) => Claimable(s, f)
    case Planning(_, members) => s.plan.None? && s.kept.None? && forall f :: f in members ==> f !in s.promotions
    case Approving(f) => MayApprove(s, f)
    case Using(f, kind) => (kind.Automatic? ==> s.switchedOn) && MayApprove(s, f) && !s.promotions[f].byBatch
    case _ => true
  }

  predicate Unclaimed(s: State, files: seq<File>) {
    && (forall f :: f in files ==> Claimable(s, f))
    && (forall i, j :: 0 <= i < j < |files| ==> files[i] != files[j])
  }

  ghost predicate Invariant(s: State) {
    && LateExactly(s)
    && (forall k :: 0 <= k < |s.actors| && !s.actors[k].Idle? ==> s.holder == k)
    && (forall k :: 0 <= k < |s.actors| ==> Holding(s, s.actors[k]))
    && UsesAllowed(s) && UsesStored(s)
  }

  function Uses(uses: seq<Use>, f: File): nat {
    if uses == [] then 0 else Uses(uses[..|uses| - 1], f) + if uses[|uses| - 1].file == f then 1 else 0
  }

  predicate Stored(s: State, f: File) {
    f in s.unsaved || (f in s.promotions && s.promotions[f].approved)
  }

  /** Every use of a file's approval stands in its promotion, or was lost; at most one stands. */
  ghost predicate UsesStored(s: State) {
    && (forall f :: f in s.unsaved ==> f in s.promotions && !s.promotions[f].approved)
    && (forall f :: Uses(s.uses, f) == s.lost[f] + if Stored(s, f) then 1 else 0)
  }

  /** Each use was by the file's own replacement, and an automatic one while the switch was on. */
  predicate UsesAllowed(s: State) {
    forall i :: 0 <= i < |s.uses| ==>
      && (s.uses[i].kind.Automatic? ==> s.uses[i].switchedOn)
      && s.uses[i].file in s.promotions && !s.promotions[s.uses[i].file].byBatch
  }

  /** What the lock's holder relies on outlives the step. */
  lemma PlanStepKeeps(s: State, a: Action)
    requires Invariant(s) && Enabled(s, a) && (a.Finish? || a.KeepPlan? || a.LosePlan? || a.RejectPlan? || a.RunMember?)
    ensures Invariant(Step(s, a))
  {
    var after := Step(s, a);
    forall k | 0 <= k < |after.actors| ensures Holding(after, after.actors[k]) {
      assert Holding(s, s.actors[k]);
    }
  }

  lemma SaveKeeps(s: State, a: Action)
    requires Invariant(s) && Enabled(s, a) && a.SaveApproved?
    ensures Invariant(Step(s, a))
  {
    var after := Step(s, a);
    forall k | 0 <= k < |after.actors| ensures Holding(after, after.actors[k]) {
      assert Holding(s, s.actors[k]);
    }
  }

  lemma LoseKeeps(s: State, a: Action)
    requires Invariant(s) && Enabled(s, a) && a.LoseApproved?
    ensures Invariant(Step(s, a))
  {
    var after := Step(s, a);
    forall k | 0 <= k < |after.actors| ensures Holding(after, after.actors[k]) {
      assert Holding(s, s.actors[k]);
    }
  }

  lemma PassKeeps(s: State, a: Action)
    requires Invariant(s) && Enabled(s, a) && a.PassApproval?
    ensures Invariant(Step(s, a))
  {
    var after := Step(s, a);
    forall k | 0 <= k < |after.actors| ensures Holding(after, after.actors[k]) {
      assert Holding(s, s.actors[k]);
    }
  }

  lemma CrashKeeps(s: State)
    requires Invariant(s)
    ensures Invariant(Step(s, Crash))
  {
  }

  /** A step outside the lock takes nothing the holder relies on. */
  lemma OutsideKeeps(s: State, a: Action)
    requires Invariant(s) && Enabled(s, a)
    requires a.Finish? || a.KeepPlan? || a.LosePlan? || a.RejectPlan? || a.RunMember?
      || a.SaveApproved? || a.LoseApproved? || a.PassApproval? || a.Crash?
    ensures Invariant(Step(s, a))
  {
    hide Invariant, Enabled, Step;
    if a.Crash? { CrashKeeps(s); }
    else if a.Finish? || a.KeepPlan? || a.LosePlan? || a.RejectPlan? || a.RunMember? { PlanStepKeeps(s, a); }
    else if a.SaveApproved? { SaveKeeps(s, a); }
    else if a.LoseApproved? { LoseKeeps(s, a); }
    else { PassKeeps(s, a); }
  }

  lemma StartKeeps(s: State, a: Action)
    requires Invariant(s) && Enabled(s, a)
    requires a.StartReview? || a.StartAuto? || a.StartPlan? || a.StartApproval? || a.StartDrop? || a.StartReplan?
      || a.Switch?
    ensures Invariant(Step(s, a))
  {
    var after := Step(s, a);
    forall k | 0 <= k < |after.actors| ensures Holding(after, after.actors[k]) {
      assert s.actors[k].Idle?;
    }
  }

  ghost predicate Moved(s: State, k: nat)
    requires k < |s.actors|
  {
    Holding(s, s.actors[k]) && LateExactly(s) && UsesAllowed(s) && UsesStored(s)
  }

  lemma CheckMoves(s: State, k: nat)
    requires Invariant(s) && k < |s.actors| && s.actors[k].Reviewing?
    ensures Moved(Locked(s, k), k)
  {
    hide UsesStored, UsesAllowed;
    assert Holding(s, s.actors[k]);
    var Reviewing(todo, ready) := s.actors[k];
    if todo != [] && Replaceable(s, todo[0]) && todo[0] !in ready {
      assert forall f :: f in ready + [todo[0]] <==> f in ready || f == todo[0];
    }
    UsesAlike(s, Locked(s, k));
  }

  lemma SubmitMoves(s: State, k: nat)
    requires Invariant(s) && k < |s.actors| && s.actors[k].Submitting?
    ensures Moved(Locked(s, k), k)
  {
    hide UsesStored, UsesAllowed;
    assert Holding(s, s.actors[k]);
    var todo := s.actors[k].todo;
    if todo != [] {
      assert todo == [todo[0]] + todo[1..];
      assert todo[0] in todo && forall f :: f in todo[1..] ==> f in todo;
      if todo[0] !in s.promotions {
        UsesWithNew(s, Locked(s, k), todo[0]);
      } else {
        UsesAlike(s, Locked(s, k));
      }
    } else {
      UsesAlike(s, Locked(s, k));
    }
  }

  /** A new promotion is not approved yet. */
  lemma UsesWithNew(s: State, after: State, f: File)
    requires f !in s.promotions && after.promotions == s.promotions[f := Promotion(false, false, true)]
    requires after.uses == s.uses && after.unsaved == s.unsaved && after.lost == s.lost
    ensures UsesAllowed(s) ==> UsesAllowed(after)
    ensures UsesStored(s) ==> UsesStored(after)
  {
    forall g ensures Stored(s, g) == Stored(after, g) {}
  }

  lemma GrantMoves(s: State, k: nat)
    requires Invariant(s) && k < |s.actors| && s.actors[k].Granting?
    ensures Moved(Locked(s, k), k)
  {
    hide UsesStored, UsesAllowed;
    assert Holding(s, s.actors[k]);
    UsesAlike(s, Locked(s, k));
  }

  /** What the uses rest on did not change. */
  lemma UsesAlike(s: State, after: State)
    requires after.uses == s.uses && after.promotions == s.promotions && after.unsaved == s.unsaved && after.lost == s.lost
    ensures UsesAllowed(s) ==> UsesAllowed(after)
    ensures UsesStored(s) ==> UsesStored(after)
  {
    forall f ensures Stored(s, f) == Stored(after, f) {}
  }

  /** Plans and submissions did not change. */
  lemma LateAlike(s: State, after: State)
    requires LateExactly(s) && after.plan == s.plan && after.kept == s.kept
    requires after.late == s.late && after.open <= s.open
    requires after.promotions.Keys == s.promotions.Keys
    requires forall f :: f in s.promotions && f in after.promotions ==>
      after.promotions[f].byBatch == s.promotions[f].byBatch
    ensures LateExactly(after)
  {
    forall f ensures f in after.promotions <==> f in s.promotions {
      assert f in after.promotions.Keys <==> f in s.promotions.Keys;
    }
  }

  /** A file submitted on its own is late exactly if a plan has it as a member. */
  lemma SubmittedLate(s: State, f: File)
    requires LateExactly(s) && Claimable(s, f)
    ensures LateExactly(Submitted(s, f)) && f in Submitted(s, f).promotions
    ensures Submitted(s, f).promotions.Keys == s.promotions.Keys + {f} && Submitted(s, f).open == s.open
    ensures forall g :: g in s.promotions ==> Submitted(s, f).promotions[g] == s.promotions[g]
    ensures forall g :: Claimable(s, g) ==> Claimable(Submitted(s, f), g)
    ensures var t := Submitted(s, f);
      t.plan == s.plan && t.kept == s.kept && t.actors == s.actors && t.holder == s.holder && t.uses == s.uses
      && t.unsaved == s.unsaved && t.lost == s.lost
    ensures UsesAllowed(s) ==> UsesAllowed(Submitted(s, f))
    ensures UsesStored(s) ==> UsesStored(Submitted(s, f))
  {
    if f !in s.promotions { UsesWithNew(s, Submitted(s, f), f); }
  }

  lemma AutoChecks(s: State, k: nat)
    requires Invariant(s) && k < |s.actors| && s.actors[k].AutoChecking?
    ensures Moved(Locked(s, k), k)
  {
    hide UsesStored, UsesAllowed, LateExactly;
    UsesAlike(s, Locked(s, k));
    LateAlike(s, Locked(s, k));
  }

  lemma AutoSubmits(s: State, k: nat)
    requires Invariant(s) && k < |s.actors| && s.actors[k].AutoEnqueueing?
    ensures Moved(Locked(s, k), k)
  {
    hide UsesStored, UsesAllowed, LateExactly, Claimable, Submitted;
    assert Holding(s, s.actors[k]);
    var f := s.actors[k].file;
    SubmittedLate(s, f);
    if f in s.promotions {
      UsesAlike(s, Locked(s, k));
      LateAlike(s, Locked(s, k));
    } else {
      UsesAlike(Submitted(s, f), Locked(s, k));
      LateAlike(Submitted(s, f), Locked(s, k));
    }
  }

  lemma AutoGrants(s: State, k: nat)
    requires Invariant(s) && k < |s.actors| && s.actors[k].AutoGranting?
    ensures Moved(Locked(s, k), k)
  {
    hide UsesStored, UsesAllowed, LateExactly;
    UsesAlike(s, Locked(s, k));
    LateAlike(s, Locked(s, k));
  }

  lemma PlanMoves(s: State, k: nat)
    requires Invariant(s) && k < |s.actors| && s.actors[k].Planning?
    ensures Moved(Locked(s, k), k)
  {
    hide UsesStored, UsesAllowed;
    assert Holding(s, s.actors[k]);
    UsesAlike(s, Locked(s, k));
  }

  lemma ApprovalLooks(s: State, k: nat)
    requires Invariant(s) && k < |s.actors| && s.actors[k].Approving?
    ensures Moved(Locked(s, k), k)
  {
    hide UsesStored, UsesAllowed, LateExactly;
    assert Holding(s, s.actors[k]);
    UsesAlike(s, Locked(s, k));
    LateAlike(s, Locked(s, k));
  }

  lemma ApprovalMoves(s: State, k: nat)
    requires Invariant(s) && k < |s.actors| && s.actors[k].Using?
    ensures Moved(Locked(s, k), k)
  {
    hide LateExactly, Free, Claimable;
    assert Holding(s, s.actors[k]);
    LateAlike(s, Locked(s, k));
  }

  lemma RevokeMoves(s: State, k: nat)
    requires Invariant(s) && k < |s.actors| && (s.actors[k].Dropping? || s.actors[k].Revoking?)
    ensures Moved(Locked(s, k), k)
  {
    hide UsesStored, UsesAllowed;
    UsesAlike(s, Locked(s, k));
  }

  /** A new plan gives up the use that stood. */
  lemma UsesReplanned(s: State, after: State, f: File)
    requires f in s.promotions && f !in s.unsaved
    requires after.promotions == s.promotions[f := s.promotions[f].(approved := false)]
    requires after.lost == if s.promotions[f].approved then s.lost + multiset{f} else s.lost
    requires after.uses == s.uses && after.unsaved == s.unsaved
    ensures UsesAllowed(s) ==> UsesAllowed(after)
    ensures UsesStored(s) ==> UsesStored(after)
  {
    forall g ensures Stored(after, g) == (Stored(s, g) && (g == f ==> g in s.unsaved)) {}
  }

  lemma NothingHeld(s: State)
    ensures Holding(s, Idle)
  {
  }

  lemma ReplanMoves(s: State, k: nat)
    requires Invariant(s) && k < |s.actors| && s.actors[k].Replanning?
    ensures Moved(Locked(s, k), k)
  {
    hide LateExactly, UsesStored, UsesAllowed, Free, Claimable, Unclaimed, Holding, MayApprove;
    var f := s.actors[k].file;
    LateAlike(s, Locked(s, k));
    NothingHeld(Locked(s, k));
    if MayReplan(s, f) { UsesReplanned(s, Locked(s, k), f); } else { UsesAlike(s, Locked(s, k)); }
  }

  /** The holder's operation: everyone else is idle. */
  lemma HolderKeeps(s: State, k: nat)
    requires Invariant(s) && Enabled(s, Continue(k))
    ensures Invariant(Step(s, Continue(k)))
  {
    hide Holding, UsesAllowed, UsesStored, Uses, LateExactly, Free, Claimable;
    var p := s.actors[k];
    if p.Reviewing? { CheckMoves(s, k); }
    else if p.Submitting? { SubmitMoves(s, k); }
    else if p.Granting? { GrantMoves(s, k); }
    else if p.Planning? { PlanMoves(s, k); }
    else if p.Approving? { ApprovalLooks(s, k); }
    else if p.Using? { ApprovalMoves(s, k); }
    else if p.Dropping? || p.Revoking? { RevokeMoves(s, k); }
    else if p.Replanning? { ReplanMoves(s, k); }
    else if p.AutoChecking? { AutoChecks(s, k); }
    else if p.AutoEnqueueing? { AutoSubmits(s, k); }
    else { AutoGrants(s, k); }
    HolderAlone(s, k, Locked(s, k));
  }

  lemma HolderAlone(s: State, k: nat, after: State)
    requires Invariant(s) && k < |s.actors| == |after.actors| && !s.actors[k].Idle? && Moved(after, k)
    requires forall j :: 0 <= j < |s.actors| && j != k ==> after.actors[j] == s.actors[j]
    requires after.holder == if after.actors[k].Idle? then FREE else k
    ensures Invariant(after)
  {
    forall j | 0 <= j < |s.actors| && j != k ensures after.actors[j].Idle? {}
  }

  lemma StepKeeps(s: State, a: Action)
    requires Invariant(s) && Enabled(s, a)
    ensures Invariant(Step(s, a))
  {
    match a
    case Continue(k) => HolderKeeps(s, k);
    case StartReview(_, _) => StartKeeps(s, a);
    case StartAuto(_, _) => StartKeeps(s, a);
    case StartPlan(_, _) => StartKeeps(s, a);
    case StartApproval(_, _) => StartKeeps(s, a);
    case StartDrop(_, _) => StartKeeps(s, a);
    case StartReplan(_, _) => StartKeeps(s, a);
    case Switch(_, _) => StartKeeps(s, a);
    case FailPlan(k, stored) => FailPlanKeeps(s, k, stored);
    case _ => OutsideKeeps(s, a);
  }

  /** A failed save leaves a plan none of whose members was submitted yet. */
  lemma FailPlanKeeps(s: State, k: nat, stored: bool)
    requires Invariant(s) && Enabled(s, FailPlan(k, stored))
    ensures Invariant(Step(s, FailPlan(k, stored)))
  {
    assert Holding(s, s.actors[k]);
    var after := Step(s, FailPlan(k, stored));
    UsesAlike(s, after);
    HolderAlone(s, k, after);
  }

  /** Nothing claimed yet. */
  predicate Fresh(s: State) {
    && s.holder == FREE && s.plan.None? && s.kept.None? && s.late == {} && s.open == {} && s.promotions == map[]
    && s.uses == [] && s.unsaved == {} && s.lost == multiset{}
    && forall k :: 0 <= k < |s.actors| ==> s.actors[k].Idle?
  }

  ghost function After(start: State, steps: seq<Action>): (s: Option<State>)
    requires Fresh(start)
    ensures s.Some? ==> Invariant(s.value)
  {
    if steps == [] then Some(start)
    else
      var before := After(start, steps[..|steps| - 1]);
      var a := steps[|steps| - 1];
      if before.None? || !Enabled(before.value, a) then None
      else StepKeeps(before.value, a); Some(Step(before.value, a))
  }

  /** Under every interleaving, no file is both in the live plan and replaced on its own, exactly while no member
      of a plan that a failed save had kept was submitted by someone who found it free before that plan was
      stored; an automatic approval lets a promotion go ahead only while the switch is on; and the uses of a file's approvals are
      exactly those that were lost, by a save that never happened or by a new plan, and one that stands if its
      promotion is approved or about to store that. */
  lemma OneClaimantAlways(start: State, steps: seq<Action>)
    requires Fresh(start) && After(start, steps).Some?
    ensures var s := After(start, steps).value; OneClaimant(s) <==> (s.plan.Some? ==> s.late == {})
    ensures var s := After(start, steps).value;
      && (forall i :: 0 <= i < |s.uses| && s.uses[i].kind.Automatic? ==> s.uses[i].switchedOn)
      && (forall f :: Uses(s.uses, f) == s.lost[f] + if Stored(s, f) then 1 else 0)
  {
  }

  /** And so never unless a plan's save failed. */
  lemma {:induction false} OneClaimantWithoutFailure(start: State, steps: seq<Action>)
    requires Fresh(start) && After(start, steps).Some?
    requires forall a :: a in steps ==> !(a.FailPlan? && !a.stored)
    ensures var s := After(start, steps).value; OneClaimant(s) && s.kept.None? && s.late == {} && s.open == {}
  {
    hide Invariant, Enabled, Step, OneClaimant;
    if steps == [] {
      NoSteps(start);
      ExactlyWithoutLate(start);
    } else {
      var before, a := steps[..|steps| - 1], steps[|steps| - 1];
      OneClaimantWithoutFailure(start, before);
      assert a in steps;
      NothingKept(After(start, before).value, a);
      ExactlyWithoutLate(After(start, steps).value);
    }
  }

  lemma ExactlyWithoutLate(s: State)
    requires Invariant(s) && s.late == {}
    ensures OneClaimant(s)
  {
  }

  lemma NothingKept(s: State, a: Action)
    requires Invariant(s) && Enabled(s, a) && !(a.FailPlan? && !a.stored)
    requires s.kept.None? && s.late == {} && s.open == {}
    ensures var t := Step(s, a); t.kept.None? && t.late == {} && t.open == {}
  {
    hide Invariant, Checked, Locked, Free, Replaceable;
    if a.Continue? { NothingKeptUnderLock(s, a.a); }
  }

  predicate NothingLate(s: State) {
    s.kept.None? && s.late == {} && s.open == {}
  }

  lemma NothingKeptUnderLock(s: State, k: nat)
    requires k < |s.actors| && !s.actors[k].Idle? && NothingLate(s)
    ensures NothingLate(Locked(s, k))
  {
    hide Free, Replaceable, MayReplan, Go, Submitted;
    var p := s.actors[k];
    if p.Submitting? && p.todo != [] { SubmittedNotLate(s, p.todo[0]); }
    if p.AutoEnqueueing? { SubmittedNotLate(s, p.file); }
  }

  lemma SubmittedNotLate(s: State, f: File)
    requires NothingLate(s)
    ensures NothingLate(Submitted(s, f)) && Submitted(s, f).actors == s.actors
  {
  }

  lemma AfterOne(start: State, steps: seq<Action>, a: Action)
    requires Fresh(start) && After(start, steps).Some?
    ensures var s := After(start, steps).value; Enabled(s, a) ==> After(start, steps + [a]) == Some(Step(s, a))
  {
    hide Invariant, Enabled, Step;
    assert (steps + [a])[..|steps|] == steps;
  }

  const CRASHED_USE := [Finish(0), StartAuto(0, 0), Continue(0), Continue(0), Continue(0),
                        StartApproval(0, 0), Continue(0), Continue(0), Crash,
                        StartApproval(0, 0), Continue(0), Continue(0)]

  /** "Used once" is not what the store keeps: a process that dies after an automatic approval was used and
      before its promotion stored that uses it again, for the same promotion and only while the switch is on. */
  lemma UsedAgainAfterCrash() returns (start: State)
    ensures Fresh(start) && After(start, CRASHED_USE).Some?
    ensures var s := After(start, CRASHED_USE).value;
      |s.uses| == 2 && s.uses[0] == s.uses[1] == Use(0, Automatic, true)
  {
    hide After, Enabled, Step, Invariant;
    start := Reached(0);
    var i := 0;
    NoSteps(start);
    while i < 12
      invariant 0 <= i <= 12 && After(start, CRASHED_USE[..i]) == Some(Reached(i))
    {
      AfterOne(start, CRASHED_USE[..i], CRASHED_USE[i]);
      ReachedNext(i);
      assert CRASHED_USE[..i + 1] == CRASHED_USE[..i] + [CRASHED_USE[i]];
      i := i + 1;
    }
    assert CRASHED_USE[..12] == CRASHED_USE;
  }

  predicate Leads(i: nat)
    requires i < 12
  {
    Enabled(Reached(i), CRASHED_USE[i]) && Step(Reached(i), CRASHED_USE[i]) == Reached(i + 1)
  }

  lemma FirstLead(i: nat)
    requires i < 6
    ensures Leads(i)
  {
  }

  lemma LaterLead(i: nat)
    requires 6 <= i < 12 && i != 8
    ensures Leads(i)
  {
  }

  /** The crash loses the use. */
  lemma CrashLead()
    ensures Leads(8)
  {
    assert multiset({0 as File}) == multiset{0};
    assert seq(1, i => Idle) == [Idle];
  }

  lemma ReachedNext(i: nat)
    requires i < 12
    ensures Enabled(Reached(i), CRASHED_USE[i]) && Step(Reached(i), CRASHED_USE[i]) == Reached(i + 1)
  {
    hide Enabled, Step, Reached;
    if i < 6 { FirstLead(i); } else if i == 8 { CrashLead(); } else { LaterLead(i); }
  }

  lemma NoSteps(start: State)
    requires Fresh(start)
    ensures After(start, []) == Some(start)
  {
  }

  /** The states of that run, one by one. */
  function Reached(i: nat): State {
    var actor :=
      if i == 2 then AutoChecking(0) else if i == 3 then AutoEnqueueing(0) else if i == 4 then AutoGranting(0)
      else if i == 6 || i == 10 then Approving(0) else if i == 7 || i == 11 then Using(0, Automatic) else Idle;
    State(if actor.Idle? then FREE else 0, true, None, None, {}, {},
      if i < 4 then map[] else map[0 := Promotion(false, false, true)],
      if 1 <= i < 4 then {0} else {}, if i == 0 then {} else {0},
      if i < 5 then map[] else map[0 := Approval(Automatic, i >= 8)],
      if i < 8 then [] else if i < 12 then [Use(0, Automatic, true)] else [Use(0, Automatic, true), Use(0, Automatic, true)],
      if i == 8 || i == 12 then {0} else {}, if i < 9 then multiset{} else multiset{0},
      [actor])
  }

  /** A run whose states are known, step by step. */
  lemma {:induction false} Follows(steps: seq<Action>, states: seq<State>)
    requires |states| == |steps| + 1 && Fresh(states[0])
    requires forall i :: 0 <= i < |steps| ==> Follow(states[i], steps[i], states[i + 1])
    ensures After(states[0], steps) == Some(states[|steps|])
  {
    hide Enabled, Step, Invariant;
    if steps == [] {
      NoSteps(states[0]);
    } else {
      var n := |steps| - 1;
      assert forall i :: 0 <= i < n ==> steps[..n][i] == steps[i] && states[..n + 1][i + 1] == states[i + 1];
      forall i | 0 <= i < n ensures Follow(states[..n + 1][i], steps[..n][i], states[..n + 1][i + 1]) {
        assert Follow(states[i], steps[i], states[i + 1]);
      }
      Follows(steps[..n], states[..n + 1]);
      AfterOne(states[0], steps[..n], steps[n]);
      assert steps == steps[..n] + [steps[n]] && Follow(states[n], steps[n], states[n + 1]);
    }
  }

  predicate Follow(s: State, a: Action, t: State) {
    Enabled(s, a) && Step(s, a) == t
  }

  const FINISHED := State(FREE, false, None, None, {}, {}, map[], {}, {0}, map[], [], {}, multiset{}, [Idle])

  function With(s: State, p: Phase): State {
    s.(holder := if p.Idle? then FREE else 0, actors := [p])
  }

  const KEPT := FINISHED.(kept := Some({0}))
  const STORED := FINISHED.(plan := Some({0}))
  const GRANT := map[0 := Approval(Reviewed, false)]

  function Taken(s: State): State {
    s.(promotions := map[0 := Promotion(false, false, true)], late := {0})
  }

  /** A plan's save fails; a person replaces its member on its own; and the failing step stores the plan. */
  const SUBMITTED_FIRST := [Finish(0), StartPlan(0, [0]), Continue(0), FailPlan(0, false),
                            StartReview(0, [0]), Continue(0), Continue(0), Continue(0), Continue(0), Continue(0), KeepPlan]

  function SubmittedFirst(): seq<State> {
    [FINISHED.(finished := {}), FINISHED, With(FINISHED, Planning([0], {})), With(FINISHED, Planning([], {0})),
     KEPT, With(KEPT, Reviewing([0], [])), With(KEPT, Reviewing([], [0])), With(KEPT, Submitting([0])),
     With(Taken(KEPT), Granting([], 0)), With(Taken(KEPT).(approvals := GRANT), Submitting([])),
     Taken(KEPT).(approvals := GRANT), Taken(STORED).(approvals := GRANT)]
  }

  /** Or the plan is stored between the person's check and the submission. */
  const STORED_FIRST := [Finish(0), StartPlan(0, [0]), Continue(0), FailPlan(0, false),
                         StartReview(0, [0]), Continue(0), Continue(0), KeepPlan, Continue(0), Continue(0), Continue(0)]

  function StoredFirst(): seq<State> {
    [FINISHED.(finished := {}), FINISHED, With(FINISHED, Planning([0], {})), With(FINISHED, Planning([], {0})),
     KEPT, With(KEPT, Reviewing([0], [])), With(KEPT, Reviewing([], [0])), With(KEPT, Submitting([0])),
     With(STORED.(open := {0}), Submitting([0])), With(Taken(STORED).(open := {0}), Granting([], 0)),
     With(Taken(STORED).(open := {0}, approvals := GRANT), Submitting([])), Taken(STORED).(approvals := GRANT)]
  }

  lemma PlanFollows(i: nat)
    requires i < 4
    ensures Follow(SubmittedFirst()[i], SUBMITTED_FIRST[i], SubmittedFirst()[i + 1])
  {
    assert [0 as File][1..] == [] && {} + {0 as File} == {0};
  }

  lemma ReviewFollows(i: nat)
    requires 4 <= i < 7
    ensures Follow(SubmittedFirst()[i], SUBMITTED_FIRST[i], SubmittedFirst()[i + 1])
  {
    assert [0 as File][1..] == [] && [] + [0 as File] == [0];
  }

  lemma SubmissionFollows()
    ensures Follow(SubmittedFirst()[7], SUBMITTED_FIRST[7], SubmittedFirst()[8])
  {
    assert [0 as File][1..] == [] && {} + {0 as File} == {0};
  }

  lemma RestFollows(i: nat)
    requires 8 <= i < 11
    ensures Follow(SubmittedFirst()[i], SUBMITTED_FIRST[i], SubmittedFirst()[i + 1])
  {
    if i == 10 { assert Checked(Taken(KEPT).(approvals := GRANT)) == {}; }
  }

  lemma StoreFollows()
    ensures Follow(StoredFirst()[7], STORED_FIRST[7], StoredFirst()[8])
  {
    var s := With(KEPT, Submitting([0]));
    assert Checked(s) == {0} && Checked(s) * s.kept.value == {0};
  }

  lemma LateSubmissionFollows()
    ensures Follow(StoredFirst()[8], STORED_FIRST[8], StoredFirst()[9])
  {
    assert [0 as File][1..] == [] && {} + {0 as File} == {0};
  }

  lemma LateRestFollows(i: nat)
    requires 9 <= i < 11
    ensures Follow(StoredFirst()[i], STORED_FIRST[i], StoredFirst()[i + 1])
  {
  }

  /** Either way the file is in the live plan and replaced on its own. */
  lemma TwoClaimants() returns (start: State)
    ensures Fresh(start)
    ensures After(start, SUBMITTED_FIRST).Some? && !OneClaimant(After(start, SUBMITTED_FIRST).value)
    ensures After(start, STORED_FIRST).Some? && !OneClaimant(After(start, STORED_FIRST).value)
  {
    hide Follow, After, Enabled, Step, Invariant;
    start := FINISHED.(finished := {});
    forall i | 0 <= i < 11
      ensures Follow(SubmittedFirst()[i], SUBMITTED_FIRST[i], SubmittedFirst()[i + 1])
      ensures Follow(StoredFirst()[i], STORED_FIRST[i], StoredFirst()[i + 1])
    {
      if i < 4 { PlanFollows(i); } else if i < 7 { ReviewFollows(i); }
      else if i == 7 { SubmissionFollows(); StoreFollows(); }
      else {
        RestFollows(i);
        if i == 8 { LateSubmissionFollows(); } else { LateRestFollows(i); }
      }
    }
    Follows(SUBMITTED_FIRST, SubmittedFirst());
    Follows(STORED_FIRST, StoredFirst());
    assert 0 in Taken(STORED).plan.value;
  }
}
