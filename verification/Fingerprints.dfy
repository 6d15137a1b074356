/**
 The verified-file cache (action/promote_fingerprint.go): stat fingerprints that stand in for full reads of
 very large files. A digest is identified with the bytes it was computed from.

 Other writers may move the volume at any moment, also in the middle of a read. A write moves a file's mtime
 and ctime, a rename its ctime only; setting an mtime back is possible and moves the ctime.
 */
module Fingerprints {
  import opened Volumes

  /** promotionFingerprint, and the process a persisted one is stamped with. */
  datatype Fingerprint = Fingerprint(dev: nat, ino: Ino, size: nat, mtime: nat, ctime: nat)
  datatype Stamped = Stamped(fp: Fingerprint, process: nat, sha: Bytes)
  datatype Known = Known(sha: Bytes, fp: Fingerprint)

  /** The same file, but for the ctime a rename moves. */
  predicate Renamed(fp: Fingerprint, known: Fingerprint) {
    fp.dev == known.dev && fp.ino == known.ino && fp.size == known.size && fp.mtime == known.mtime
  }

  /** Whatever changes in a file moves its ctime past every earlier moment. */
  ghost predicate Moves(v0: Volume, v1: Volume) {
    && v0.now <= v1.now
    && forall i :: i in v1.files ==> v1.files[i].ctime > v0.now || (i in v0.files && v1.files[i] == v0.files[i])
  }

  /** Writes to this file also moved its mtime: it was not set back. */
  predicate Forward(v0: Volume, v1: Volume, i: Ino) {
    i in v1.files ==>
      || v1.files[i].mtime > v0.now
      || (i in v0.files && v1.files[i].mtime == v0.files[i].mtime && v1.files[i].data == v0.files[i].data)
  }

  /** While the file still shows this ctime, it holds these bytes. */
  ghost predicate Sound(v: Volume, fp: Fingerprint, sha: Bytes) {
    && fp.ctime <= v.now
    && (fp.ino in v.files && v.files[fp.ino].ctime == fp.ctime ==> v.files[fp.ino].data == sha)
  }

  /** While the file still shows this mtime, it holds these bytes, whatever renames did to its ctime. */
  ghost predicate SoundByMtime(v: Volume, fp: Fingerprint, sha: Bytes) {
    && fp.mtime <= v.now
    && (fp.ino in v.files && v.files[fp.ino].mtime == fp.mtime ==> v.files[fp.ino].data == sha)
  }

  lemma SoundStays(v0: Volume, v1: Volume, fp: Fingerprint, sha: Bytes)
    requires Moves(v0, v1) && Sound(v0, fp, sha)
    ensures Sound(v1, fp, sha)
    ensures Forward(v0, v1, fp.ino) && SoundByMtime(v0, fp, sha) ==> SoundByMtime(v1, fp, sha)
  {
  }

  /** A sound fingerprint that the name still shows tells the name's bytes. */
  lemma SoundTells(v: Volume, q: Path, fp: Fingerprint, sha: Bytes)
    requires Sound(v, fp, sha) && !Absent(v, q) && v.names[q] == fp.ino && v.files[fp.ino].ctime == fp.ctime
    ensures Holds(v, q, sha)
  {
  }

  /** A file whose mtime only moved forward, and which kept it through a rename, kept its bytes. */
  lemma CarriedIsSound(v0: Volume, v1: Volume, known: Known, fp: Fingerprint)
    requires Forward(v0, v1, fp.ino) && SoundByMtime(v0, known.fp, known.sha) && Renamed(fp, known.fp)
    requires fp.ino in v1.files && fp.mtime == v1.files[fp.ino].mtime && fp.ctime == v1.files[fp.ino].ctime
    ensures Sound(v1, fp, known.sha) && SoundByMtime(v1, fp, known.sha)
  {
  }

  /** Every operation of the file system moves the volume that way. */
  lemma OperationsMove(v: Volume, q: Path, to: Path, data: Bytes)
    ensures Absent(v, q) ==> Moves(v, Create(v, q, data)) && forall i :: Forward(v, Create(v, q, data), i)
    ensures !Absent(v, q) ==> Moves(v, Write(v, q, data)) && forall i :: Forward(v, Write(v, q, data), i)
    ensures !Absent(v, q) && q != to ==> Moves(v, Rename(v, q, to)) && forall i :: Forward(v, Rename(v, q, to), i)
    ensures !Absent(v, q) ==> Moves(v, Unlink(v, q)) && forall i :: Forward(v, Unlink(v, q), i)
  {
  }

  lemma Standstill(v: Volume)
    ensures Moves(v, v) && forall i :: Forward(v, v, i)
  {
  }

  lemma MovesChain(v0: Volume, v1: Volume, v2: Volume)
    requires Moves(v0, v1) && Moves(v1, v2)
    ensures Moves(v0, v2) && forall i :: Forward(v0, v1, i) && Forward(v1, v2, i) ==> Forward(v0, v2, i)
  {
  }

  /** A file written while it was read, and what the reader saw of it. */
  datatype Tear = Tear(ino: Ino, seen: Bytes)

  /** Other writers, one gust before each call: where they move the volume to, and the read they tear. */
  datatype Gust = Gust(to: Volume -> Volume, torn: Option<Tear>)

  /** A torn file was written, so it moved like any written file. */
  ghost predicate Torn(v0: Volume, v1: Volume, t: Option<Tear>) {
    t.Some? && t.value.ino in v1.files ==> v1.files[t.value.ino].ctime > v0.now
  }

  predicate TornForward(v0: Volume, v1: Volume, t: Option<Tear>, i: Ino) {
    t.Some? && t.value.ino == i && i in v1.files ==> v1.files[i].mtime > v0.now
  }

  /** The files whose mtime a gust set back. */
  function SetBack(v0: Volume, v1: Volume, t: Option<Tear>): set<Ino> {
    set i | i in v1.files && !(Forward(v0, v1, i) && TornForward(v0, v1, t, i))
  }

  /** A gust that moves nothing. */
  ghost predicate Calm(g: Gust) {
    g.torn.None? && forall w :: g.to(w) == w
  }

  ghost predicate Lawful(env: nat -> Gust) {
    forall n, v :: Moves(v, env(n).to(v)) && Torn(v, env(n).to(v), env(n).torn)
  }

  datatype Reading = Read(sha: Bytes) | Changed | NotExist

  const STABLE_ATTEMPTS := 5

  /** A fingerprint of this process tells the file's bytes; by its mtime alone, only of a file whose mtime was
      not set back. */
  ghost predicate Vouches(v: Volume, backdated: set<Ino>, distrusted: set<Ino>, fp: Fingerprint, sha: Bytes) {
    && (fp.ino !in distrusted ==> Sound(v, fp, sha))
    && (fp.ino !in backdated ==> SoundByMtime(v, fp, sha))
  }

  class Verifier {
    var env: nat -> Gust
    var v: Volume
    var dev: nat
    var process: nat
    var clock: nat
    var files: map<Path, Known>         // one execution's verified files
    var saved: map<Path, Stamped>       // durable fingerprints, from this and earlier processes
    ghost var backdated: set<Ino>       // files whose mtime was set back since this process started
    ghost var distrusted: set<Ino>      // those whose fingerprint was carried across a rename after that

    ghost predicate Valid()
      reads this
    {
      && Lawful(env) && distrusted <= backdated && (forall q :: q in saved ==> saved[q].process <= process)
      && (forall q :: q in files ==> Vouches(v, backdated, distrusted, files[q].fp, files[q].sha))
      && (forall q :: q in saved && saved[q].process == process ==> Vouches(v, backdated, distrusted, saved[q].fp, saved[q].sha))
    }

    /** Nobody else writes from here on. */
    ghost predicate Still()
      reads `clock, `env
    {
      forall n :: n >= clock ==> Calm(env(n))
    }

    /** Was this name's file backdated, and is its cached fingerprint then not to be believed? */
    ghost predicate Backdated(q: Path)
      reads `v, `backdated
    {
      q in v.names && v.names[q] in backdated
    }

    ghost predicate Distrusted(q: Path)
      reads `v, `distrusted
    {
      q in v.names && v.names[q] in distrusted
    }

    constructor (v: Volume, env: nat -> Gust)
      requires Lawful(env)
      ensures Valid() && distrusted == backdated == {} && this.v == v && files == map[] && saved == map[]
      ensures this.env == env && clock == 0 && dev == 0 && process == 0
    {
      this.v, this.env, dev, process, clock := v, env, 0, 0, 0;
      files, saved, backdated, distrusted := map[], map[], {}, {};
    }

    /** The gusts still to come may be any; those that came are what they were. */
    method Choose(later: nat -> Gust)
      requires Valid() && Lawful(later) && forall n: nat :: n < clock ==> later(n) == env(n)
      modifies `env
      ensures Valid() && env == later
    {
      env := later;
    }

    /** What every call keeps: mtimes set back are remembered, trust is lost only by a carry. */
    twostate predicate Kept()
      reads this
    {
      && Valid() && Moves(old(v), v) && old(clock) <= clock
      && old(backdated) <= backdated && old(distrusted) <= distrusted
      && (forall i :: i in backdated || Forward(old(v), v, i))
      && (old(Still()) ==> Still() && v == old(v) && backdated == old(backdated))
    }

    method Blow() returns (torn: Option<Tear>)
      requires Valid()
      modifies `v, `clock, `backdated
      ensures Kept() && clock == old(clock) + 1
      ensures v == env(old(clock)).to(old(v)) && torn == env(old(clock)).torn
      ensures Torn(old(v), v, torn) && (forall i :: i in backdated || TornForward(old(v), v, torn, i))
      ensures old(Still()) ==> torn.None?
    {
      var g := env(clock);
      var w := g.to(v);
      torn := g.torn;
      clock := clock + 1;
      assert old(Still()) ==> Calm(g);
      Swept(w, torn);
      backdated := backdated + SetBack(v, w, torn);
      v := w;
    }

    /** Fingerprints keep vouching through a gust, but for the mtimes it set back. */
    lemma Swept(w: Volume, torn: Option<Tear>)
      requires Moves(v, w)
      ensures forall fp, sha :: Sound(v, fp, sha) ==> Sound(w, fp, sha)
      ensures forall fp, sha :: SoundByMtime(v, fp, sha) && fp.ino !in SetBack(v, w, torn) ==> SoundByMtime(w, fp, sha)
    {
    }

    /** promotionFileFingerprint of the file open under this inode. */
    function Stat(i: Ino): (fp: Fingerprint)
      requires i in v.files
      reads `v, `dev
    {
      Fingerprint(dev, i, |v.files[i].data|, v.files[i].mtime, v.files[i].ctime)
    }

    /** promotionStatIdentity: Lstat, then open and stat the descriptor; None if the two differ. */
    method StatIdentity(q: Path) returns (fp: Option<Fingerprint>)
      requires Valid()
      modifies `v, `clock, `backdated
      ensures Kept() && distrusted == old(distrusted)
      ensures fp.Some? ==> !Absent(v, q) && fp.value == Stat(v.names[q])
      ensures !old(Absent(v, q)) && !Absent(v, q) && v.names[q] == old(v.names[q]) ==> fp.Some?
      ensures if old(Absent(v, q)) then v == old(v) && clock == old(clock) else v == env(old(clock)).to(old(v)) && clock == old(clock) + 1
    {
      if Absent(v, q) { return None; }
      var before := v.names[q];
      var _ := Blow();
      if Absent(v, q) || v.names[q] != before { return None; }
      return Some(Stat(before));
    }

    /** The cache remembers a full read of exactly what the name shows. */
    predicate Cached(q: Path, expected: Bytes)
      reads `v, `dev, `files
    {
      q in files && files[q].sha == expected && !Absent(v, q) && files[q].fp == Stat(v.names[q])
    }

    /** promotionRememberHash: kept only when the descriptor showed one identity before and after the read. */
    method Remember(q: Path, sum: Bytes, before: Fingerprint, after: Fingerprint)
      requires Valid() && after.ino in v.files && after == Stat(after.ino)
      requires before == after ==> v.files[after.ino].data == sum
      modifies `files
      ensures Valid()
      ensures files == if before == after then old(files)[q := Known(sum, after)] else old(files) - {q}
    {
      files := if before == after then files[q := Known(sum, after)] else files - {q};
    }

    /** Read the open file: a write meanwhile tears what is read. */
    method ReadOpen(q: Path, fp: Fingerprint) returns (r: Reading)
      requires Valid() && !Absent(v, q) && fp == Stat(v.names[q])
      modifies `v, `clock, `backdated, `files
      ensures Kept() && distrusted == old(distrusted)
      ensures r.Read? && !Backdated(q) ==> Holds(v, q, r.sha)
      ensures old(Still()) ==> r == Read(At(v, q).value.data) && Cached(q, At(v, q).value.data) && files.Keys == old(files).Keys + {q}
      ensures clock == old(clock) + 1
    {
      var content := v.files[fp.ino].data;
      var torn := Blow();
      if Absent(v, q) { return NotExist; }
      if v.names[q] != fp.ino { return Changed; }
      var finished := Stat(fp.ino);
      var sum := if torn.Some? && torn.value.ino == fp.ino then torn.value.seen else content;
      if fp.size != |sum| || finished.size != |sum| || fp.mtime != finished.mtime { return Changed; }
      Remember(q, sum, fp, finished);
      return Read(sum);
    }

    /** promotionHash: one whole read, refused when the file's identity, size or mtime moved. */
    method Hash(q: Path) returns (r: Reading)
      requires Valid()
      modifies `v, `clock, `backdated, `files
      ensures Kept() && distrusted == old(distrusted)
      ensures r.Read? && !Backdated(q) ==> Holds(v, q, r.sha)
      ensures old(Still()) ==> r == if Absent(v, q) then NotExist else Read(At(v, q).value.data)
      ensures old(Still()) && !Absent(v, q) ==> Cached(q, At(v, q).value.data) && files.Keys == old(files).Keys + {q}
      ensures clock <= old(clock) + 2 && (r.Changed? ==> clock > old(clock))
    {
      var start := StatIdentity(q);
      if start.None? { return if Absent(v, q) then NotExist else Changed; }
      ghost var w := v;
      r := ReadOpen(q, start.value);
      MovesChain(old(v), w, v);
    }

    /** promotionHashStable: a few more whole reads while the file keeps moving. */
    method HashStable(q: Path) returns (r: Reading)
      requires Valid()
      modifies `v, `clock, `backdated, `files
      ensures Kept() && distrusted == old(distrusted)
      ensures r.Read? && !Backdated(q) ==> Holds(v, q, r.sha)
      ensures old(Still()) ==> r == if Absent(v, q) then NotExist else Read(At(v, q).value.data)
      ensures old(Still()) && !Absent(v, q) ==> Cached(q, At(v, q).value.data) && files.Keys == old(files).Keys + {q}
      ensures clock <= old(clock) + 2 * STABLE_ATTEMPTS && (r.Changed? ==> clock >= old(clock) + STABLE_ATTEMPTS)
    {
      r := Changed;
      var attempt := 0;
      while attempt < STABLE_ATTEMPTS && r.Changed?
        invariant Kept() && distrusted == old(distrusted) && 0 <= attempt && (attempt == 0 ==> r.Changed?)
        invariant r.Read? && !Backdated(q) ==> Holds(v, q, r.sha)
        invariant attempt > 0 && old(Still()) ==> r == if Absent(v, q) then NotExist else Read(At(v, q).value.data)
        invariant attempt > 0 && old(Still()) && !Absent(v, q) ==> Cached(q, At(v, q).value.data) && files.Keys == old(files).Keys + {q}
        invariant attempt == 0 ==> files == old(files)
        invariant attempt <= STABLE_ATTEMPTS && clock <= old(clock) + 2 * attempt
        invariant r.Changed? ==> clock >= old(clock) + attempt
      {
        ghost var w := v;
        r := Hash(q);
        MovesChain(old(v), w, v);
        attempt := attempt + 1;
      }
    }

    /** promotionStillVerified: any doubt answers false. A yes is what a full read now would say. */
    method StillVerified(q: Path, expected: Bytes) returns (ok: bool)
      requires Valid()
      modifies `v, `clock, `backdated, `files
      ensures Kept() && distrusted == old(distrusted)
      ensures ok && !Distrusted(q) ==> Holds(v, q, expected)
      ensures files == old(files) || files == old(files) - {q}
      ensures old(Still()) ==> (ok <==> old(Cached(q, expected)))
      ensures ok ==> files == old(files)
      // An entry that no longer describes its file is forgotten.
      ensures old(Still()) && q in files && files[q].sha == expected && !Absent(v, q) ==> ok
    {
      if q !in files || files[q].sha != expected { return false; }
      var fp := StatIdentity(q);
      if fp.None? { return false; }
      if fp.value != files[q].fp {
        files := files - {q};
        return false;
      }
      return true;
    }

    /** verifyPromotionHashStable: the cached answer, or a full read. The cache changes nothing a caller can
        see: undisturbed, the answer is exactly whether the file holds these bytes. */
    method VerifyHashStable(q: Path, expected: Bytes) returns (ok: bool)
      requires Valid()
      modifies `v, `clock, `backdated, `files
      ensures Kept() && distrusted == old(distrusted)
      ensures ok && !Backdated(q) ==> Holds(v, q, expected)
      ensures old(Still()) && !Distrusted(q) ==> (ok <==> Holds(v, q, expected))
    {
      ok := StillVerified(q, expected);
      if !ok {
        ghost var w := v;
        var r := HashStable(q);
        MovesChain(old(v), w, v);
        ok := r == Read(expected);
      }
    }

    /** An own rename of this step. */
    method RenameOwn(from: Path, to: Path)
      requires Valid() && !Absent(v, from) && from != to
      modifies `v
      ensures Valid() && v == Rename(old(v), from, to)
    {
      OperationsMove(v, from, to, []);
      forall fp, sha | Sound(v, fp, sha) ensures Sound(Rename(v, from, to), fp, sha)
        && (SoundByMtime(v, fp, sha) ==> SoundByMtime(Rename(v, from, to), fp, sha)) {
        SoundStays(v, Rename(v, from, to), fp, sha);
      }
      v := Rename(v, from, to);
    }

    /** The full hash moves to the file's new name. */
    method Carried(to: Path, known: Known, fp: Fingerprint, ghost before: Volume)
      requires Valid() && Renamed(fp, known.fp) && fp.ino in v.files && fp == Stat(fp.ino)
      requires fp.ino in backdated || (Forward(before, v, fp.ino) && SoundByMtime(before, known.fp, known.sha))
      modifies `files, `distrusted
      ensures Valid() && files == old(files)[to := Known(known.sha, fp)]
      ensures distrusted == old(distrusted) + ({fp.ino} * backdated)
    {
      hide Moves, Forward, Sound, SoundByMtime, Lawful;
      if fp.ino !in backdated { CarriedIsSound(before, v, known, fp); }
      files := files[to := Known(known.sha, fp)];
      distrusted := distrusted + ({fp.ino} * backdated);
    }

    /** promotionCarryRenamed: the full hash follows this step's own rename when device, inode, size and mtime
        are unchanged. That is exact unless this file's mtime was set back, and only then is trust in it lost. */
    method CarryRenamed(from: Path, to: Path)
      requires Valid() && from != to
      modifies `v, `clock, `backdated, `files, `distrusted
      ensures Valid() && clock <= old(clock) + 1
      ensures
        || distrusted == old(distrusted)
        || (to in v.names && distrusted == old(distrusted) + {v.names[to]} && v.names[to] in backdated)
      ensures forall q :: q in files && q != to ==> q in old(files) && q != from && files[q] == old(files)[q]
      ensures to in files && to !in old(files) ==> from in old(files) && files[to].sha == old(files)[from].sha
      ensures from in old(files) && !Absent(v, to) && !old(Absent(v, to)) && v.names[to] == old(v.names[to]) ==>
        Renamed(Stat(v.names[to]), old(files)[from].fp) ==>
          to in files && files[to] == Known(old(files)[from].sha, Stat(v.names[to]))
      ensures from in old(files) && !old(Absent(v, to)) ==> v == env(old(clock)).to(old(v)) && clock == old(clock) + 1
    {
      hide Moves, Forward, Sound, SoundByMtime, Lawful;
      var known := if from in files then Some(files[from]) else None;
      files := files - {from};
      if known.None? { return; }
      ghost var w := v;
      var fp := StatIdentity(to);
      if fp.None? || !Renamed(fp.value, known.value.fp) { return; }
      Carried(to, known.value, fp.value, w);
    }

    /** promotionKnownFingerprint, persisted under key: what this execution's full hash of q to sha recorded,
        stamped with this process; nothing when there was none. */
    method Persist(key: Path, q: Path, sha: Bytes)
      requires Valid()
      modifies `saved
      ensures Valid()
      ensures saved == if q in files && files[q].sha == sha then old(saved)[key := Stamped(files[q].fp, process, sha)]
                       else old(saved) - {key}
    {
      saved := if q in files && files[q].sha == sha then saved[key := Stamped(files[q].fp, process, sha)] else saved - {key};
    }

    /** The persisted fingerprint is this execution's again. */
    method Recall(q: Path, key: Path, sha: Bytes)
      requires Valid() && key in saved && saved[key].sha == sha && saved[key].process == process
      modifies `files
      ensures Valid() && files == old(files)[q := Known(sha, saved[key].fp)]
    {
      hide Sound, SoundByMtime, Lawful;
      assert Vouches(v, backdated, distrusted, saved[key].fp, sha);
      files := files[q := Known(sha, saved[key].fp)];
    }

    /** This process persisted exactly what the name shows. */
    predicate Vouched(q: Path, key: Path)
      reads `v, `dev, `saved, `process
    {
      key in saved && saved[key].process == process && !Absent(v, q) && saved[key].fp == Stat(v.names[q])
    }

    lemma VouchedTells(q: Path, key: Path)
      requires Valid() && Vouched(q, key)
      ensures !Distrusted(q) ==> Holds(v, q, saved[key].sha)
    {
      hide Moves, Forward, Sound, SoundByMtime, Lawful;
      assert Vouches(v, backdated, distrusted, saved[key].fp, saved[key].sha);
      if !Distrusted(q) { SoundTells(v, q, saved[key].fp, saved[key].sha); }
    }

    /** The file still shows exactly the fingerprint this process persisted, ctime included. */
    method ShowsSaved(q: Path, sha: Bytes, key: Path) returns (alone: bool)
      requires Valid() && (key in saved ==> saved[key].sha == sha)
      modifies `v, `clock, `backdated
      ensures Kept() && distrusted == old(distrusted)
      ensures alone ==> key in saved && saved[key].process == process
      ensures alone && !Distrusted(q) ==> Holds(v, q, sha)
      ensures old(Still()) ==> (alone <==> old(Vouched(q, key)))
    {
      hide Moves, Forward, Sound, SoundByMtime, Lawful, Vouches;
      Standstill(v);
      if key !in saved || saved[key].process != process { return false; }
      var fp := StatIdentity(q);
      alone := fp == Some(saved[key].fp);
      if alone { VouchedTells(q, key); }
    }

    /** That fingerprint is then this execution's again. */
    method StillAsSaved(q: Path, sha: Bytes, key: Path) returns (alone: bool)
      requires Valid() && (key in saved ==> saved[key].sha == sha)
      modifies `v, `clock, `backdated, `files
      ensures Kept() && distrusted == old(distrusted)
      ensures alone ==> key in saved && saved[key].process == process
      ensures alone && !Distrusted(q) ==> Holds(v, q, sha)
      ensures files == if alone then old(files)[q := Known(sha, saved[key].fp)] else old(files)
      ensures old(Still()) ==> (alone <==> old(Vouched(q, key)))
    {
      hide Moves, Forward, Sound, SoundByMtime, Lawful, Vouches;
      alone := ShowsSaved(q, sha, key);
      if alone { Recall(q, key, sha); }
    }

    /** promotionVerifyByIdentity: after a wait, the fingerprint this process persisted answers alone; one from
        an earlier process, or any doubt, reads the whole file. */
    method VerifyByIdentity(q: Path, sha: Bytes, key: Path) returns (ok: bool, alone: bool)
      requires Valid() && (key in saved ==> saved[key].sha == sha)
      modifies `v, `clock, `backdated, `files
      ensures Kept() && distrusted == old(distrusted)
      ensures alone ==> ok && key in saved && saved[key].process == process
      ensures ok && !(if alone then Distrusted(q) else Backdated(q)) ==> Holds(v, q, sha)
      ensures old(Still()) && !Distrusted(q) ==> (ok <==> Holds(v, q, sha))
      ensures old(Still()) ==> (alone <==> old(Vouched(q, key)))
    {
      hide Moves, Forward, Sound, SoundByMtime, Lawful;
      alone := StillAsSaved(q, sha, key);
      ok := true;
      if !alone {
        ghost var w := v;
        ok := VerifyHashStable(q, sha);
        MovesChain(old(v), w, v);
      }
    }

    /** promotionForget. */
    method Forget(q: Path)
      requires Valid()
      modifies `files
      ensures Valid() && files == old(files) - {q}
    {
      files := files - {q};
    }

    /** Every wait, resume or retry starts a new execution, which has read nothing yet. */
    method NewExecution()
      requires Valid()
      modifies `files
      ensures Valid() && files == map[]
    {
      files := map[];
    }

    /** A restart: the volume may be any other by now, on a mount with another device number. */
    method Restart(w: Volume, newDev: nat)
      requires Valid()
      modifies this
      ensures Valid() && distrusted == backdated == {} && files == map[] && saved == old(saved) && v == w
      ensures forall q :: q in saved ==> saved[q].process < process
    {
      v, dev, process, files, backdated, distrusted := w, newDev, process + 1, map[], {}, {};
    }
  }

  datatype Call =
    | HashFile(q: Path)
    | Check(q: Path, sha: Bytes)
    | CheckAfterWait(q: Path, sha: Bytes, key: Path)
    | MoveOwn(from: Path, to: Path)
    | ForgetFile(q: Path)
    | PersistAs(key: Path, q: Path, sha: Bytes)
    | NextExecution
    | NextProcess(w: Volume, dev: nat)

  /** What was answered, and how things stood then: whether the name held the bytes, whether the answer came from
      a persisted fingerprint alone and from which process, whether this very file's mtime had been set back, and
      whether its fingerprint was carried after that. */
  datatype Answer = Answer(yes: bool, right: bool, alone: bool, ownProcess: bool, backdated: bool, distrusted: bool)

  /** Unless this file's mtime was set back a yes is right; one from a fingerprint alone is right unless a carry
      followed that, and only ever from this process's own fingerprint. */
  predicate Honest(a: Answer) {
    && (a.yes && !a.backdated ==> a.right)
    && (a.alone ==> a.yes && a.ownProcess && (!a.distrusted ==> a.right))
  }

  /** The bytes a check asks about: after a wait, those the persisted fingerprint was taken for. */
  function Asked(call: Call, saved: map<Path, Stamped>): Bytes
    requires call.Check? || call.CheckAfterWait?
  {
    if call.CheckAfterWait? && call.key in saved then saved[call.key].sha else call.sha
  }

  /** How many of these calls are checks. */
  function Checks(calls: seq<Call>): nat {
    if calls == [] then 0
    else Checks(calls[..|calls| - 1]) + if calls[|calls| - 1].Check? || calls[|calls| - 1].CheckAfterWait? then 1 else 0
  }

  method TakeCheck(v: Verifier, call: Call) returns (ghost a: Answer)
    requires v.Valid() && (call.Check? || call.CheckAfterWait?)
    modifies v
    ensures v.Valid() && Honest(a)
    ensures a.right == Holds(v.v, call.q, Asked(call, old(v.saved)))
    ensures a.backdated == v.Backdated(call.q) && a.distrusted == v.Distrusted(call.q)
    ensures old(v.Still()) && !a.distrusted ==> (a.yes <==> a.right)
  {
    var ok, alone := false, false;
    if call.Check? {
      ok := v.VerifyHashStable(call.q, call.sha);
      a := Answer(ok, Holds(v.v, call.q, call.sha), false, false, v.Backdated(call.q), v.Distrusted(call.q));
    } else {
      var sha := Asked(call, v.saved);
      ok, alone := v.VerifyByIdentity(call.q, sha, call.key);
      var own := call.key in v.saved && v.saved[call.key].process == v.process;
      a := Answer(ok, Holds(v.v, call.q, sha), alone, own, v.Backdated(call.q), v.Distrusted(call.q));
    }
  }

  method Take(v: Verifier, call: Call)
    requires v.Valid() && !call.Check? && !call.CheckAfterWait?
    modifies v
    ensures v.Valid()
  {
    match call {
      case HashFile(q) => var r := v.HashStable(q);
      case MoveOwn(from, to) =>
        if !Absent(v.v, from) && from != to {
          v.RenameOwn(from, to);
          v.CarryRenamed(from, to);
        }
      case ForgetFile(q) => v.Forget(q);
      case PersistAs(key, q, sha) => v.Persist(key, q, sha);
      case NextExecution => v.NewExecution();
      case NextProcess(w, dev) => v.Restart(w, dev);
    }
  }

  /** Over any sequence of hashes, checks, own renames, forgets and restarts, whatever others write meanwhile,
      every answer is honest. */
  method Live(v: Verifier, calls: seq<Call>) returns (ghost answers: seq<Answer>)
    requires v.Valid()
    modifies v
    ensures v.Valid() && |answers| == Checks(calls) && forall a :: a in answers ==> Honest(a)
  {
    answers := [];
    for i := 0 to |calls|
      invariant v.Valid() && |answers| == Checks(calls[..i]) && forall a :: a in answers ==> Honest(a)
    {
      assert calls[..i + 1][..i] == calls[..i];
      if calls[i].Check? || calls[i].CheckAfterWait? {
        ghost var a := TakeCheck(v, calls[i]);
        answers := answers + [a];
      } else {
        Take(v, calls[i]);
      }
    }
    assert calls[..|calls|] == calls;
  }

  const BEFORE: Volume := Table(map[Staged := 0], map[0 := Inode([1], 1, 1)], 1, 1)
  const MOVED: Volume := Table(map[Final := 0], map[0 := Inode([1], 1, 2)], 1, 2)
  const SET_BACK: Volume := Table(map[Final := 0], map[0 := Inode([2], 1, 3)], 1, 3)

  const LULL := Gust((w: Volume) => w, None)

  /** Another writer rewrites the renamed file and sets its mtime back. */
  const TRICK := Gust((w: Volume) => if w == MOVED then SET_BACK else w, None)

  method ReadOnce() returns (v: Verifier)
    ensures fresh(v) && v.Valid() && v.Still() && v.v == BEFORE && v.dev == 0
    ensures v.files.Keys == {Staged} && v.files[Staged] == Known([1], Fingerprint(0, 0, 1, 1, 1))
  {
    hide Moves, Forward, Sound, SoundByMtime, Vouches;
    Lulls();
    v := new Verifier(BEFORE, (n: nat) => LULL);
    var r := v.Hash(Staged);
  }

  method ReadThenMoved() returns (v: Verifier)
    ensures fresh(v) && v.Valid() && v.Still() && v.v == MOVED && v.dev == 0
    ensures v.files.Keys == {Staged} && v.files[Staged] == Known([1], Fingerprint(0, 0, 1, 1, 1))
  {
    hide Moves, Forward, Sound, SoundByMtime, Vouches;
    v := ReadOnce();
    v.RenameOwn(Staged, Final);
  }

  /** The carry is only as good as the file's mtime: a file that is read whole and renamed, but rewritten with
      its mtime set back before the carry looks at it, is then still verified with bytes it does not hold. */
  method BackdatedCarryIsWrong() returns (v: Verifier, ok: bool)
    ensures v.Valid() && ok && !Holds(v.v, Final, [1])
  {
    hide Moves, Forward, Sound, SoundByMtime, Vouches;
    v := ReadThenMoved();
    Lulls();
    var now, past := v.clock, v.env;
    v.Choose((n: nat) => if n < now then past(n) else if n == now then TRICK else LULL);
    v.CarryRenamed(Staged, Final);
    assert v.v == SET_BACK && [2 as Byte][0] != [1 as Byte][0];
    ok := v.StillVerified(Final, [1]);
  }

  lemma Lulls()
    ensures Calm(LULL) && forall w: Volume :: Moves(w, LULL.to(w)) && Moves(w, TRICK.to(w))
  {
  }
}
