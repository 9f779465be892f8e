/** Positioned reads through an aligned window: a reader with a private descriptor and bounce buffer
    per lane, on a disk that may return short reads and a heap that may refuse an allocation. */
module FileReader {
  import opened Bits

  type byte = bv8

  /** A descriptor that did open, and whether it bypasses the page cache in alignment-bound mode. */
  datatype Fd = Invalid | Fd(direct: bool)

  const DEFAULT_ALIGN := 4096
  /** File offsets are signed 64-bit, and so is a file's size. */
  const OFFSET_LIMIT := 0x8000_0000_0000_0000

  class FileReader {
    /** The file on disk. */
    const file: seq<byte>

    var fds: seq<Fd>
    var fdsBuf: seq<Fd>
    var bounces: seq<array?<byte>>
    var bounceSz: seq<nat>
    var align: nat
    var alignedReads: bool
    var readBytes: nat
    /** What the last open that was not refused asked for; Reopen replays it. */
    var lanes: int
    var directReq: bool
    var bounceCap: nat
    /** Opens and reads that the platform failed, and allocations it refused. */
    ghost var faults: nat

    constructor (file: seq<byte>)
      requires |file| < OFFSET_LIMIT
      ensures this.file == file && Closed()
    {
      this.file := file;
      fds, fdsBuf, bounces, bounceSz := [], [], [], [];
      align, alignedReads, readBytes := DEFAULT_ALIGN, false, 0;
      lanes, directReq, bounceCap, faults := 1, false, 0, 0;
    }

    ghost predicate Closed()
      reads this
    {
      |file| < OFFSET_LIMIT && fds == [] && fdsBuf == [] && bounces == [] && bounceSz == []
    }

    /** One positioned read of up to `count` bytes into an aligned buffer. Anything from one byte to all
        of them may arrive. An alignment-bound descriptor refuses a read whose file position, buffer
        position or length is not a whole number of blocks. */
    method PRead(fd: Fd, alignment: nat, buf: array<byte>, at: nat, count: nat, off: nat) returns (got: int)
      requires fd.Fd? && at + count <= buf.Length && 0 < count && (fd.direct ==> alignment > 0)
      modifies buf, this`faults
      ensures got <= count && (got > 0 ==> off + got <= |file|)
      ensures forall i :: 0 <= i < buf.Length ==>
                buf[i] == if at <= i < at + got then file[off + i - at] else old(buf[i])
      ensures got <= 0 && off < |file| ==> faults > old(faults)
      ensures faults >= old(faults) && (got > 0 ==> faults == old(faults))
      ensures fd.direct && !WholeBlocks(off, at, count, alignment) ==> got <= 0
    {
      var failed: bool := *;
      if failed || (fd.direct && !WholeBlocks(off, at, count, alignment)) {
        faults := faults + 1;
        return -1;
      }
      if off >= |file| { return 0; }
      var n: nat :| 1 <= n && n <= count && n <= |file| - off;
      forall i | 0 <= i < n {
        buf[at + i] := file[off + i];
      }
      got := n;
    }

    method TryAllocate(size: nat) returns (a: array?<byte>)
      modifies this`faults
      ensures a != null ==> fresh(a) && a.Length == size
      ensures faults == old(faults) + if a == null then 1 else 0
    {
      if * {
        faults := faults + 1;
        return null;
      }
      a := new byte[size];
    }

    /** Every lane has a descriptor, and a lane that advertises a bounce size has a bounce that large. */
    ghost predicate Lanes()
      reads this`fds, this`fdsBuf, this`bounces, this`bounceSz, this`alignedReads
    {
      && |fds| == |fdsBuf| == |bounces| == |bounceSz|
      && (forall l :: 0 <= l < |fds| ==> fds[l].Fd? && (fds[l].direct ==> alignedReads))
      && (forall l :: 0 <= l < |fdsBuf| ==> fdsBuf[l].Fd? ==> !fdsBuf[l].direct)
      && (forall l :: 0 <= l < |bounces| ==> bounceSz[l] == if bounces[l] == null then 0 else bounces[l].Length)
      && (forall j, l :: 0 <= j < l < |bounces| && bounces[j] != null ==> bounces[j] != bounces[l])
    }

    ghost predicate Valid()
      reads this
    {
      |file| < OFFSET_LIMIT && 0 < |fds| && Lanes() && IsPow2(align) && align <= OFFSET_LIMIT
    }

    /** What opening makes of every lane: a descriptor that is direct when the reader is, and then a bounce of the
        size that was asked for. */
    ghost predicate Equipped(cap: nat)
      reads this`fds, this`bounceSz, this`alignedReads
    {
      && |fds| == |bounceSz|
      && forall l :: 0 <= l < |fds| ==> fds[l] == Fd(alignedReads) && bounceSz[l] == if alignedReads then cap else 0
    }

    /** Open one descriptor pair and one bounce per lane. Any lane that fails closes the reader. The lanes read
        directly when that was asked for and the platform reported a descriptor that is bound to blocks. */
    method Open(lanes: int, direct: bool, alignReq: nat, cap: nat) returns (ok: bool, ghost bound: bool)
      requires |file| < OFFSET_LIMIT && (alignReq != 0 ==> IsPow2(alignReq) && alignReq <= OFFSET_LIMIT)
      requires Closed() || Valid()
      modifies this
      ensures old(Valid()) ==> !ok && unchanged(this)
      ensures old(Closed()) ==> if ok then Valid() && |fds| == (if lanes < 1 then 1 else lanes) else Closed()
      ensures old(Closed()) ==> this.lanes == lanes && directReq == direct && bounceCap == cap
      ensures old(Closed()) ==> align == if alignReq != 0 then alignReq else DEFAULT_ALIGN
      ensures !ok && old(Closed()) ==> faults > old(faults)
      ensures ok ==> Equipped(cap) && (alignedReads <==> direct && bound)
      ensures ok ==>
                forall l :: 0 <= l < |bounces| ==> bounces[l] != null ==> fresh(bounces[l])
    {
      bound := false;
      if fds != [] { return false, bound; }
      this.lanes, directReq, bounceCap := lanes, direct, cap;
      align := if alignReq != 0 then alignReq else DEFAULT_ALIGN;
      assert IsPow2(DEFAULT_ALIGN) by { DefaultAlignIsPow2(); }
      var n := if lanes < 1 then 1 else lanes;
      // what the platform reports about the descriptor, and about its direct mode
      var bypasses: bool, constrained: bool := *, *;
      alignedReads, bound := direct && bypasses && constrained, bypasses && constrained;
      var lane := 0;
      while lane < n
        invariant 0 <= lane <= n && |fds| == lane && Lanes() && Equipped(cap) && faults == old(faults)
        invariant forall l :: 0 <= l < lane && bounces[l] != null ==> fresh(bounces[l])
        modifies this`fds, this`fdsBuf, this`bounces, this`bounceSz, this`faults
      {
        ok := OpenLane(cap);
        if !ok {
          Close();
          return;
        }
        lane := lane + 1;
      }
      ok := true;
    }

    method OpenLane(cap: nat) returns (ok: bool)
      requires Lanes()
      modifies this`fds, this`fdsBuf, this`bounces, this`bounceSz, this`faults
      ensures ok ==> Lanes() && |fds| == |old(fds)| + 1 && (old(Equipped(cap)) ==> Equipped(cap))
      ensures if ok then faults == old(faults) else faults > old(faults)
      ensures ok ==> bounces[..|old(bounces)|] == old(bounces)
      ensures ok ==> bounces[|old(bounces)|] != null ==> fresh(bounces[|old(bounces)|])
    {
      var laneOk: bool, tailOk: bool := *, *;
      if !laneOk {
        faults := faults + 1;
        return false;
      }
      var bounce: array?<byte> := null;
      if alignedReads {
        bounce := TryAllocate(cap);
        if bounce == null { return false; }
      }
      fds := fds + [Fd(alignedReads)];
      fdsBuf := fdsBuf + [if alignedReads && tailOk then Fd(false) else Invalid];
      bounces := bounces + [bounce];
      bounceSz := bounceSz + [if alignedReads then cap else 0];
      ok := true;
    }

    method Close()
      requires |file| < OFFSET_LIMIT
      modifies this`fds, this`fdsBuf, this`bounces, this`bounceSz
      ensures Closed()
    {
      fds, fdsBuf, bounces, bounceSz := [], [], [], [];
    }

    /** Close and open again with the settings of the last open. */
    method Reopen() returns (ok: bool)
      requires Closed() || Valid()
      modifies this
      ensures old(Closed()) ==> !ok && unchanged(this)
      ensures old(Valid()) ==>
                if ok then Valid() && Equipped(bounceCap) && |fds| == (if lanes < 1 then 1 else lanes) else Closed()
      ensures lanes == old(lanes) && directReq == old(directReq) && bounceCap == old(bounceCap) && align == old(align)
    {
      if fds == [] { return false; }
      assert align > 0;
      Close();
      ghost var bound;
      ok, bound := Open(lanes, directReq, align, bounceCap);
    }

    /** Fill buf[from - base..end - base) from file[from..end) with as many reads as it takes. `starts` is
        where they start. A direct range is made of whole blocks, and so is its first read; it can only
        come to its end if every short read stops at a block boundary, for the descriptor refuses to go on
        from anywhere else. */
    method ReadRange(fd: Fd, alignment: nat, buf: array<byte>, base: nat, from: nat, end: nat)
      returns (ok: bool, ghost starts: seq<nat>)
      requires base <= from <= end <= |file| && end - base <= buf.Length
      requires from < end ==> fd.Fd?
      requires from < end && fd.direct ==>
                 alignment > 0 && Aligned(base, alignment) && Aligned(from, alignment) && Aligned(end, alignment)
      modifies buf, this`faults
      ensures if ok then faults == old(faults) else faults > old(faults)
      ensures ok ==> forall i :: from <= i < end ==> buf[i - base] == file[i]
      ensures forall i :: 0 <= i < buf.Length && !(from <= i + base < end) ==> buf[i] == old(buf[i])
      ensures from < end ==> starts != [] && starts[0] == from
      ensures ok && from < end && fd.direct ==> forall s <- starts :: Aligned(s, alignment)
    {
      var a := from;
      starts := [];
      while a < end
        invariant from <= a <= end && faults == old(faults)
        invariant forall i :: from <= i < a ==> buf[i - base] == file[i]
        invariant forall i :: 0 <= i < buf.Length && !(from <= i + base < end) ==> buf[i] == old(buf[i])
        invariant if starts == [] then a == from else starts[0] == from
        invariant from < end && fd.direct ==> forall s <- starts :: Aligned(s, alignment)
      {
        if fd.direct { AlignedRead(base, a, end, alignment); }
        starts := starts + [a];
        var got := PRead(fd, alignment, buf, a - base, end - a, a);
        if got <= 0 { return false, starts; }
        a := a + got;
      }
      ok := true;
    }

    /** Make the lane's bounce hold `len` bytes. The size is cleared before the allocation, so that a
        refused one leaves an empty lane and not one that advertises a freed buffer. */
    method GrowBounce(lane: nat, len: nat) returns (ok: bool)
      requires Valid() && lane < |bounces|
      modifies this`bounces, this`bounceSz, this`faults
      ensures Valid()
      ensures if ok then faults == old(faults) else faults > old(faults)
      ensures ok ==> bounceSz[lane] >= len
      ensures !ok ==> bounces[lane] == null && bounceSz[lane] == 0 && bounceSz[lane] < len
      ensures bounces[lane] == null || bounces[lane] == old(bounces[lane]) || fresh(bounces[lane])
      ensures |bounces| == |old(bounces)| && forall l :: 0 <= l < |bounces| && l != lane ==>
                bounces[l] == old(bounces[l])
    {
      if bounceSz[lane] < len {
        bounces := bounces[lane := null];
        bounceSz := bounceSz[lane := 0];
        var grown := TryAllocate(len);
        bounces := bounces[lane := grown];
        if grown == null { return false; }
        bounceSz := bounceSz[lane := len];
      }
      ok := true;
    }

    /** The lane has no buffered descriptor and a window that ends in the middle of the last block. */
    ghost predicate NeedsTail(lane: nat, end: nat)
      requires lane < |fdsBuf| && end <= |file| && align > 0
      reads this`fdsBuf, this`align
    {
      fdsBuf[lane] == Invalid && !Aligned(WindowEnd(end, align, |file|), align)
    }

    /** Read nbytes at off into dst: the bytes pulled from the drive, or -1. */
    method Read(lane: nat, dst: array<byte>, off: nat, nbytes: nat) returns (r: int)
      requires Valid() && lane < |fds| && nbytes <= dst.Length
      requires off < WORD && nbytes < WORD
      requires forall l :: 0 <= l < |bounces| ==> bounces[l] != dst
      modifies this`bounces, this`bounceSz, this`readBytes, this`faults, dst, bounces[lane]
      ensures Valid()
      // a read inside the file fails only for a reason
      ensures r == -1 && off + nbytes <= |file| ==>
                faults > old(faults) || (alignedReads && NeedsTail(lane, off + nbytes))
      ensures r < 0 ==> r == -1
      ensures r >= 0 && nbytes > 0 ==>
                && off + nbytes <= |file|
                && (forall i :: 0 <= i < nbytes ==> dst[i] == file[off + i])
                && r == (if alignedReads then WindowEnd(off + nbytes, align, |file|) - Floor(off, align) else nbytes)
                && r >= nbytes
      ensures r >= 0 && nbytes > 0 && alignedReads ==> !NeedsTail(lane, off + nbytes)
      ensures off + nbytes > |file| && nbytes > 0 ==> r == -1
      ensures nbytes == 0 ==> r == 0
      ensures forall i :: nbytes <= i < dst.Length ==> dst[i] == old(dst[i])
      ensures r < 0 && alignedReads ==> unchanged(dst)
      ensures readBytes == old(readBytes) + if r >= 0 then r else 0
      ensures |bounces| == |old(bounces)| && forall l :: 0 <= l < |bounces| && l != lane ==>
                bounces[l] == old(bounces[l])
      ensures bounces[lane] != dst
    {
      if nbytes == 0 { return 0; }
      if off > |file| || nbytes > |file| - off { return -1; }
      if !alignedReads {
        var ok, _ := ReadRange(fds[lane], 0, dst, off, off, off + nbytes);
        if !ok { return -1; }
        readBytes := readBytes + nbytes;
        return nbytes;
      }
      var ok, a0, readEnd := PullWindow(lane, off, nbytes);
      if !ok { return -1; }
      var b := bounces[lane];
      forall i | 0 <= i < nbytes {
        dst[i] := b[off - a0 + i];
      }
      r := readEnd - a0;
      readBytes := readBytes + r;
    }

    /** Pull the aligned window around [off, off + nbytes) into the lane's bounce. */
    method PullWindow(lane: nat, off: nat, nbytes: nat) returns (ok: bool, a0: nat, readEnd: nat)
      requires Valid() && lane < |fds| && 0 < nbytes && off + nbytes <= |file|
      modifies this`bounces, this`bounceSz, this`faults, bounces[lane]
      ensures Valid()
      ensures if ok then faults == old(faults) else faults > old(faults) || NeedsTail(lane, off + nbytes)
      ensures ok ==> !NeedsTail(lane, off + nbytes)
      ensures a0 == Floor(off, align) && readEnd == WindowEnd(off + nbytes, align, |file|)
      ensures ok ==> bounces[lane] != null && bounces[lane].Length >= readEnd - a0
      ensures ok ==> forall i :: a0 <= i < readEnd ==> bounces[lane][i - a0] == file[i]
      ensures bounces[lane] == null || bounces[lane] == old(bounces[lane]) || fresh(bounces[lane])
      ensures |bounces| == |old(bounces)| && forall l :: 0 <= l < |bounces| && l != lane ==>
                bounces[l] == old(bounces[l])
    {
      var a1, bulkEnd;
      a0 := MaskDown(off);
      a1 := MaskDown(off + nbytes + align - 1);
      readEnd := if |file| != 0 && a1 > |file| then |file| else a1;
      ok := GrowBounce(lane, a1 - a0);
      if !ok { return; }
      bulkEnd := MaskDown(readEnd);
      FloorIsAligned(off, align);
      FloorIsAligned(readEnd, align);
      FloorIsLargest(a0, readEnd, align);
      ok := PullBlocks(lane, a0, bulkEnd, readEnd);
    }

    method MaskDown(x: nat) returns (r: nat)
      requires x < WORD && IsPow2(align) && align <= OFFSET_LIMIT
      ensures align > 0 && r == Floor(x, align)
    {
      r := RoundDown(x, align);
      RoundDownIsFloor(x, align);
    }

    /** Pull the window into the bounce: whole blocks through the direct descriptor, and the part of the
        last block that the file does not fill through the buffered one. */
    method PullBlocks(lane: nat, a0: nat, bulkEnd: nat, readEnd: nat) returns (ok: bool)
      requires Valid() && lane < |fds| && bounceSz[lane] >= readEnd - a0 && bounceSz[lane] > 0
      requires a0 <= bulkEnd <= readEnd <= |file| && align > 0 && Aligned(a0, align) && Aligned(bulkEnd, align)
      modifies bounces[lane], this`faults
      ensures Valid()
      ensures if ok then faults == old(faults)
              else faults > old(faults) || (bulkEnd < readEnd && fdsBuf[lane] == Invalid)
      ensures ok ==> bulkEnd == readEnd || fdsBuf[lane] != Invalid
      ensures ok ==> forall i :: a0 <= i < readEnd ==> bounces[lane][i - a0] == file[i]
    {
      var b := bounces[lane];
      ghost var starts;
      ok, starts := ReadRange(fds[lane], align, b, a0, a0, bulkEnd);
      if !ok { return; }
      if bulkEnd < readEnd && fdsBuf[lane] == Invalid { return false; }
      ok, starts := ReadRange(fdsBuf[lane], align, b, a0, bulkEnd, readEnd);
    }
  }

  /** What a direct read needs: position in the file, position in the buffer and length are whole blocks. */
  predicate WholeBlocks(off: nat, at: nat, count: nat, alignment: nat)
    requires alignment > 0
  {
    Aligned(off, alignment) && Aligned(at, alignment) && Aligned(count, alignment)
  }

  /** Within an aligned range read into an aligned buffer, that is a matter of where the read starts. */
  lemma AlignedRead(base: nat, a: nat, end: nat, alignment: nat)
    requires alignment > 0 && base <= a <= end && Aligned(base, alignment) && Aligned(end, alignment)
    ensures WholeBlocks(a, a - base, end - a, alignment) <==> Aligned(a, alignment)
  {
    if Aligned(a, alignment) {
      AlignedDifference(a, base, alignment);
      AlignedDifference(end, a, alignment);
    }
  }

  lemma {:induction false} AlignedDifference(x: nat, y: nat, alignment: nat)
    requires alignment > 0 && y <= x && Aligned(x, alignment) && Aligned(y, alignment)
    ensures Aligned(x - y, alignment)
    decreases y
  {
    if y > 0 { AlignedDifference(x - alignment, y - alignment, alignment); }
  }

  lemma DefaultAlignIsPow2()
    ensures IsPow2(DEFAULT_ALIGN)
  {
    assert Pow2(6) == 64;
    Pow2Sum(6, 6);
    assert Pow2(12) == 4096;
  }

  /** Where the aligned window over a range ending at `end` ends: at the next block start, or at the
      end of the file. */
  function WindowEnd(end: nat, align: nat, size: nat): (hi: nat)
    requires align > 0 && end <= size
    ensures end <= hi <= size && hi < end + align
  {
    var up := Floor(end + align - 1, align);
    if up > size then size else up
  }

  /** The window's end is the first position at or after `end` where a direct read may stop. */
  lemma WindowEndIsFirst(end: nat, align: nat, size: nat, stop: nat)
    requires align > 0 && end <= stop <= size && (Aligned(stop, align) || stop == size)
    ensures Aligned(WindowEnd(end, align, size), align) || WindowEnd(end, align, size) == size
    ensures WindowEnd(end, align, size) <= stop
  {
    var up := Floor(end + align - 1, align);
    FloorIsAligned(end + align - 1, align);
    if stop < up && Aligned(stop, align) {
      NextBlockIsFar(stop, up, align);
    }
  }

  /** Two different block starts are at least one block apart. */
  lemma {:induction false} NextBlockIsFar(a: nat, b: nat, block: nat)
    requires block > 0 && Aligned(b, block) && a < b && Aligned(a, block)
    ensures a + block <= b
    decreases a
  {
    if block <= a {
      NextBlockIsFar(a - block, b - block, block);
    }
  }
}
