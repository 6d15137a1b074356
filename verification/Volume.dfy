/**
 The file system a promotion works on: names pointing at inodes, so that several names can share one
 file. A clock stamps every change; writes move mtime and ctime, renames and unlinks move ctime only.
 */
module Volumes {

  datatype Option<+T> = None | Some(value: T)

  newtype Byte = b: int | 0 <= b < 0x100

  type Bytes = seq<Byte>

  type Ino = nat

  /** The paths one promotion touches, and any other name on the same file system. */
  datatype Path =
    | Library         // where the original lives
    | Final           // the replacement's name when it differs from the original's
    | Staged          // the candidate's temporary path
    | Recovery        // the private recovery path
    | Partial         // an unfinished recovery copy
    | Elsewhere(n: nat)

  datatype Inode = Inode(data: Bytes, mtime: nat, ctime: nat)

  datatype Table = Table(names: map<Path, Ino>, files: map<Ino, Inode>, unused: Ino, now: nat)

  ghost predicate WellFormed(v: Table) {
    && (forall q :: q in v.names ==> v.names[q] in v.files)
    && (forall i :: i in v.files ==> i < v.unused && v.files[i].mtime <= v.now && v.files[i].ctime <= v.now)
  }

  type Volume = v: Table | WellFormed(v) ghost witness Table(map[], map[], 0, 0)

  /** What a name shows without its ctime: which file, its bytes and its mtime. */
  datatype Entry = Entry(ino: Ino, data: Bytes, mtime: nat)

  function At(v: Volume, q: Path): Option<Entry> {
    if q in v.names then
      var f := v.files[v.names[q]];
      Some(Entry(v.names[q], f.data, f.mtime))
    else None
  }

  predicate Absent(v: Volume, q: Path) {
    At(v, q).None?
  }

  /** Path q exists and a full read of it gives exactly data. */
  predicate Holds(v: Volume, q: Path, data: Bytes) {
    At(v, q).Some? && At(v, q).value.data == data
  }

  /** What is left of a file that had this entry, under whatever name, or under none. */
  predicate Remains(v: Volume, e: Entry, data: Bytes) {
    e.ino in v.files && v.files[e.ino].data == data
  }

  /** Two names of one file. */
  predicate SameFile(v: Volume, a: Path, b: Path) {
    At(v, a).Some? && At(v, b).Some? && At(v, a).value.ino == At(v, b).value.ino
  }

  /** Path q is the only name of its file. */
  predicate LastLink(v: Volume, q: Path): (last: bool)
    ensures last <==> forall a :: SameFile(v, a, q) ==> a == q
  {
    forall a | a in v.names :: SameFile(v, a, q) ==> a == q
  }

  function Create(v: Volume, q: Path, data: Bytes): (r: Volume)
    requires Absent(v, q)
    ensures Holds(r, q, data)
    ensures forall a :: a != q ==> At(r, a) == At(v, a) && !SameFile(r, a, q)
  {
    Table(v.names[q := v.unused], v.files[v.unused := Inode(data, v.now + 1, v.now + 1)], v.unused + 1, v.now + 1)
  }

  /** Rewrite a file in place, through any of its names. */
  function Write(v: Volume, q: Path, data: Bytes): (r: Volume)
    requires !Absent(v, q)
    ensures Holds(r, q, data)
    ensures forall a :: !SameFile(v, a, q) ==> At(r, a) == At(v, a)
    ensures forall a :: SameFile(v, a, q) ==> Holds(r, a, data) && At(r, a).value.ino == At(v, a).value.ino
  {
    v.(files := v.files[v.names[q] := Inode(data, v.now + 1, v.now + 1)], now := v.now + 1)
  }

  /** rename(2): the name from moves to to, replacing whatever to named. */
  function Rename(v: Volume, from: Path, to: Path): (r: Volume)
    requires !Absent(v, from) && from != to
    ensures Absent(r, from) && At(r, to) == At(v, from)
    ensures forall a :: a != from && a != to ==> At(r, a) == At(v, a)
  {
    var i := v.names[from];
    v.(names := (v.names - {from})[to := i],
       files := v.files[i := v.files[i].(ctime := v.now + 1)],
       now := v.now + 1)
  }

  function Unlink(v: Volume, q: Path): (r: Volume)
    requires !Absent(v, q)
    ensures Absent(r, q)
    ensures forall a :: a != q ==> At(r, a) == At(v, a)
  {
    var i := v.names[q];
    v.(names := v.names - {q}, files := v.files[i := v.files[i].(ctime := v.now + 1)], now := v.now + 1)
  }
}
