/**
 Removing a throwaway file, emptied first when that is safe (action/disposable_remove.go,
 action/disposable_truncate_unix.go). Names are hard links: several can share one file.
 */
module Disposables {
  import opened Volumes

  /** os.FileInfo, as far as these checks look at it. */
  datatype Info = Info(ino: Ino, size: nat, mtime: nat, lastLink: bool)

  /** The outcome of emptying: not tried, done, or why not. */
  datatype Truncate = Untried | Emptied | Skipped(why: Why)
  datatype Why = Linked | Changed | Denied

  function Stat(v: Volume, q: Path): (i: Info)
    requires !Absent(v, q)
  {
    var e := At(v, q).value;
    Info(e.ino, |e.data|, e.mtime, LastLink(v, q))
  }

  predicate Same(a: Info, b: Info) {
    a.ino == b.ino && a.size == b.size && a.mtime == b.mtime
  }

  /** Only the very file that was looked at, and only under its last name, is emptied. */
  function Judged(v: Volume, q: Path, want: Info): Truncate
    requires !Absent(v, q)
  {
    if !Same(Stat(v, q), want) then Skipped(Changed) else if !LastLink(v, q) then Skipped(Linked) else Emptied
  }

  /** Every other name reads the same bytes as before. */
  ghost predicate Isolated(v0: Volume, v1: Volume, q: Path) {
    forall a :: a != q ==> At(v1, a) == At(v0, a)
  }

  class Disk {
    var v: Volume

    constructor (v: Volume)
      ensures this.v == v
    {
      this.v := v;
    }

    /** truncateDisposable: the open descriptor must still be the file want describes, under no other name. */
    method Empty(q: Path, want: Info, writable: bool) returns (t: Truncate)
      modifies this
      ensures Isolated(old(v), v, q)
      ensures t == if Absent(old(v), q) || !writable then Skipped(Denied) else Judged(old(v), q, want)
      ensures if t.Emptied? then Holds(v, q, []) else v == old(v)
    {
      if Absent(v, q) || !writable { return Skipped(Denied); }
      var got := Stat(v, q);
      if !Same(got, want) { return Skipped(Changed); }
      if !got.lastLink { return Skipped(Linked); }
      v := Write(v, q, []);
      return Emptied;
    }

    /** removeDisposable: info is the file's Lstat from before, and the disk may have changed since. Emptying is
        tried only on that very file and its last name, and never fails the removal; no other name's bytes
        change, whatever happened in between. */
    method Remove(q: Path, info: Option<Info>, truncates: bool, writable: bool, refused: bool) returns (t: Truncate, ok: bool)
      modifies this
      ensures Isolated(old(v), v, q)
      ensures ok <==> Absent(v, q)
      ensures ok <==> !refused || Absent(old(v), q)
      ensures t.Untried? <==> !truncates || info.None? || info.value.size == 0
      ensures t.Emptied? <==>
        && truncates && info.Some? && info.value.size > 0 && info.value.lastLink && writable
        && !Absent(old(v), q) && LastLink(old(v), q) && Same(Stat(old(v), q), info.value)
      ensures !ok ==> if t.Emptied? then Holds(v, q, []) else v == old(v)
    {
      t := Untried;
      if truncates && info.Some? && info.value.size > 0 {
        if !info.value.lastLink { t := Skipped(Linked); } else { t := Empty(q, info.value, writable); }
      }
      if Absent(v, q) { return t, true; }
      if refused { return t, false; }
      v := Unlink(v, q);
      ok := true;
    }
  }

  // ---- Folding several removals into one outcome ----

  /** candidateRemoval. */
  class CandidateRemoval {
    var freed: nat
    var truncate: Truncate

    constructor ()
      ensures freed == 0 && truncate == Untried
    {
      freed, truncate := 0, Untried;
    }

    /** add: a skip wins over an emptied file, the first skip over later ones. */
    method Add(freed: nat, truncate: Truncate)
      modifies this
      ensures this.freed == old(this.freed) + freed && this.truncate == Worse(old(this.truncate), truncate)
    {
      this.freed := this.freed + freed;
      if truncate.Untried? {
      } else if this.truncate.Untried? || (this.truncate.Emptied? && !truncate.Emptied?) {
        this.truncate := truncate;
      }
    }
  }

  function Worse(a: Truncate, b: Truncate): Truncate {
    if a.Skipped? || b.Untried? then a else if b.Skipped? || a.Untried? then b else a
  }

  function Overall(ts: seq<Truncate>): Truncate {
    if ts == [] then Untried else Worse(Overall(ts[..|ts| - 1]), ts[|ts| - 1])
  }

  /** What the folded outcome tells: untried only if none was tried, emptied only if some file was emptied and
      none skipped, and otherwise the first reason to skip. */
  lemma {:induction false} OverallMeans(ts: seq<Truncate>)
    ensures Overall(ts).Untried? <==> forall t :: t in ts ==> t.Untried?
    ensures Overall(ts).Emptied? <==> Emptied in ts && forall t :: t in ts ==> !t.Skipped?
    ensures Overall(ts).Skipped? ==> exists k :: 0 <= k < |ts| && ts[k] == Overall(ts) && forall m :: 0 <= m < k ==> !ts[m].Skipped?
  {
    if ts != [] {
      var most, last := ts[..|ts| - 1], ts[|ts| - 1];
      OverallMeans(most);
      assert ts == most + [last];
      if Overall(most).Skipped? {
        var k :| 0 <= k < |most| && most[k] == Overall(most) && forall m :: 0 <= m < k ==> !most[m].Skipped?;
        assert ts[k] == Overall(ts) && forall m :: 0 <= m < k ==> ts[m] == most[m];
      } else if last.Skipped? {
        assert ts[|most|] == Overall(ts);
        forall m | 0 <= m < |most| ensures !ts[m].Skipped? { assert ts[m] in most; }
      }
    }
  }
}
