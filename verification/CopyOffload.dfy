/**
 The recovery copy itself (action/promote_copy.go): a clone, else kernel copies, else a stream that goes on
 from where the kernel stopped. A digest is identified with the bytes it was computed from.
 */
module CopyOffload {
  import opened Volumes

  const COPY_CHUNK := 64 * 1024 * 1024

  datatype Means = Unknown | Clone | Kernel | Stream

  /** FICLONE completes, or refuses; a refusal that left bytes behind stops the copy. */
  datatype CloneCall = Cloned | Refused(left: Bytes)

  /** One copy_file_range call: how much it would move, a refusal streaming can answer, or a real error. */
  datatype KernelCall = Moved(n: nat) | Unsupported | Broken

  /** Everything the system may answer to one copy, call by call. */
  datatype System = System(
    clone: CloneCall,
    kernel: nat -> KernelCall,
    cancelled: nat -> bool,
    unreported: nat -> bool,   // saying how much was copied fails
    streams: nat)              // a stream that fails stops after this many bytes; it succeeds if more remain

  datatype Copied = Copied(ok: bool, means: Means, dst: Bytes, digest: Option<Bytes>)

  function Min(a: nat, b: nat): nat {
    if a < b then a else b
  }

  /** What one kernel call moves at this offset: never more than a chunk, or than is left. */
  function Advance(src: Bytes, at: nat, n: nat): nat
    requires at <= |src|
  {
    Min(n, Min(COPY_CHUNK, |src| - at))
  }

  /** From this call on, before any refusal or error, the kernel claims the end of a source that does not end
      there: after it copied something, or for a source whose size could not be read. */
  predicate StopsShort(src: Bytes, total: nat, sys: System, at: nat, i: nat)
    requires at <= |src|
    decreases |src| - at
  {
    match sys.kernel(i)
    case Moved(n) =>
      var step := Advance(src, at, n);
      if step == 0 then at < |src| && (at > 0 || total == 0) else StopsShort(src, total, sys, at + step, i + 1)
    case _ => false
  }

  /** The clone is refused and the kernel copy then ends too early. */
  predicate EndsEarly(src: Bytes, total: nat, sys: System) {
    sys.clone.Refused? && StopsShort(src, total, sys, 0, 0)
  }

  /** A kernel call after which the rest is streamed. */
  predicate Declines(src: Bytes, call: KernelCall, total: nat) {
    call.Unsupported? || (call.Moved? && Advance(src, 0, call.n) == 0 && total > 0)
  }

  /** Nothing but the system ends a copy early: a cancellation, a refusal that left bytes, a real error, a report
      that failed, or a stream that breaks off. */
  ghost predicate Stopped(src: Bytes, sys: System, calls: nat, r: Copied) {
    || (calls == 0 && sys.cancelled(0)) || (sys.clone.Cloned? && sys.unreported(0))
    || (sys.clone.Refused? && sys.clone.left != [])
    || (sys.clone.Refused? && sys.cancelled(calls + 1))
    || (calls > 0 && (sys.kernel(calls - 1).Broken? || sys.unreported(calls)))
    || (r.means == Stream && |r.dst| < |src| && sys.streams < |src|)
  }

  /** None of the kernel calls, nor what stands between them, was answered by anything but success, and the last one
      by nothing worse than a refusal. */
  ghost predicate Smooth(sys: System, calls: nat) {
    && (forall k :: 0 < k <= calls ==> !sys.cancelled(k))
    && (forall k :: 0 <= k < calls ==> !sys.kernel(k).Broken?)
    && (forall k :: 0 < k < calls ==> !sys.unreported(k))
  }

  /** io.Copy of the rest; the digest covers the file only when nothing was copied before. */
  method StreamRest(src: Bytes, dst: Bytes, sys: System) returns (r: Copied)
    requires dst <= src
    ensures r.means == Stream && dst <= r.dst <= src
    ensures r.ok <==> sys.streams >= |src| - |dst|
    ensures r.ok <==> r.dst == src
    ensures r.digest == if r.ok && dst == [] then Some(src) else None
  {
    var n := Min(sys.streams, |src| - |dst|);
    r := Copied(sys.streams >= |src| - |dst|, Stream, src[..|dst| + n], None);
    if r.ok && dst == [] { r := r.(digest := Some(r.dst)); }
  }

  /** promotionCopyData. A successful copy equals the source unless the kernel claimed an end too early, which
      the caller's read-back then refuses; a digest is only ever that of the whole source. */
  method CopyData(src: Bytes, total: nat, sys: System) returns (r: Copied, ghost calls: nat)
    ensures r.dst <= src || (!r.ok && sys.clone.Refused? && r.dst == sys.clone.left)
    ensures r.ok ==> (r.dst == src <==> !EndsEarly(src, total, sys))
    ensures r.digest.Some? ==> r.ok && r.digest.value == src && r.dst == src
    ensures r.ok && r.means != Kernel ==> r.dst == src
    ensures r.means == Clone <==> !sys.cancelled(0) && sys.clone.Cloned?
    ensures r.means == Stream ==> calls > 0 && Declines(src, sys.kernel(calls - 1), total)
    ensures r.means == Stream && r.ok && calls == 1 ==> r.digest == Some(src)
    ensures !r.ok ==> Stopped(src, sys, calls, r)
    ensures r.ok ==>
      && !sys.cancelled(0)
      && if sys.clone.Cloned? then !sys.unreported(0) else sys.clone.left == [] && Smooth(sys, calls)
    ensures !sys.cancelled(0) && sys.clone.Refused? && sys.clone.left != [] ==> !r.ok && r.dst == sys.clone.left
    ensures !sys.cancelled(0) && !sys.cancelled(1) && !sys.unreported(0) ==> match sys.clone
      case Cloned => r.ok && r.dst == src
      case Refused(left) =>
        // A source whose size could not be read, and a kernel that declines silently: an empty copy succeeds.
        left == [] && total == 0 && sys.kernel(0) == Moved(0) ==> r.ok && r.dst == []
  {
    calls := 0;
    if sys.cancelled(0) { return Copied(false, Unknown, [], None), 0; }
    if sys.clone.Cloned? { return Copied(!sys.unreported(0), Clone, src, None), 0; }
    if sys.clone.left != [] { return Copied(false, Unknown, sys.clone.left, None), 0; }
    var copied := 0;
    var i := 0;
    while true
      invariant copied <= |src| && i == calls && (copied == 0 <==> i == 0)
      invariant Smooth(sys, i) && (i > 0 ==> !sys.unreported(i))
      invariant i > 0 && total == 0 ==> sys.kernel(0) != Moved(0)
      invariant EndsEarly(src, total, sys) <==> StopsShort(src, total, sys, copied, i)
      decreases |src| - copied
    {
      if sys.cancelled(i + 1) { return Copied(false, Unknown, src[..copied], None), calls; }
      var call := sys.kernel(i);
      i, calls := i + 1, calls + 1;
      if call.Broken? { return Copied(false, Unknown, src[..copied], None), calls; }
      if call.Unsupported? { break; }
      var n := Advance(src, copied, call.n);
      if n == 0 {
        if copied == 0 && total > 0 { break; }
        assert copied == 0 ==> src[..copied] == [];
        return Copied(true, Kernel, src[..copied], None), calls;
      }
      copied := copied + n;
      if sys.unreported(i) { return Copied(false, Unknown, src[..copied], None), calls; }
    }
    r := StreamRest(src, src[..copied], sys);
  }

  const ONE_OF_TWO := System(Refused([]), i => if i == 0 then Moved(1) else Moved(0), i => false, i => false, 2)

  /** Such a kernel is believed: it moves one byte of two, then claims the end, and the copy succeeds without
      the second byte. The read-back then refuses it. */
  method ShortCopySucceeds() returns (r: Copied)
    ensures r.ok && r.dst < [1, 2] && EndsEarly([1, 2], 2, ONE_OF_TWO)
  {
    ghost var calls;
    assert StopsShort([1, 2], 2, ONE_OF_TWO, 1, 1);
    r, calls := CopyData([1, 2], 2, ONE_OF_TWO);
  }
}
