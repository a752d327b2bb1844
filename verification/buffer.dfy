/**
 `internal/buffer/buffer.go`: the append-only history kept on both ends of the connection.

 The newest bytes live in a RAM window, older ones in rotating segment files, and complete chunks
 are digested as they go by. Disk operations succeed; the mutex makes each method one step.
 */
module Buffers {
  import opened Bytes
  import opened History

  datatype ReadError = NoError | EndOfStream | BelowTrim

  datatype Wait = Ready(total: nat) | Ended(total: nat) | Parked

  /** A snapshot of the counters (`Stats`). */
  datatype Snapshot = Snapshot(total: nat, trimOffset: nat, memOffset: nat, heldBytes: nat, ramBytes: nat,
                               diskBytes: nat, diskFileSize: nat, numChunks: nat, numSegments: nat)

  class Buffer {
    const cfg: Config

    var mem: seq<byte>
    var memOffset: nat
    var total: nat

    var segments: seq<Segment>
    var files: map<nat, seq<byte>> // segment files by the start offset in their name

    var chunkHashes: seq<Hash>
    var firstChunkIndex: nat
    var curHasher: seq<byte> // bytes written to the hasher since its last reset
    var curBytes: nat

    var trimOffset: nat
    var sealed: bool

    ghost var view: View

    ghost predicate ValidHashes(s: seq<byte>, first: nat)
      reads this`curHasher, this`curBytes, this`chunkHashes, this`firstChunkIndex
    {
      && cfg.Ok()
      && firstChunkIndex == first <= Div(|s|, cfg.chunkSize)
      && curBytes == Mod(|s|, cfg.chunkSize)
      && curHasher == s[|s| - curBytes..]
      && chunkHashes == HashesFrom(cfg, s, first)
    }

    ghost predicate ValidDisk(s: seq<byte>, base: nat, end: nat)
      reads this`segments, this`files
    {
      && cfg.Ok()
      && base <= end <= |s|
      && segments == Tiles(base, end, cfg.segmentSize)
      && files == FilesOf(s, segments)
    }

    ghost predicate ValidWindow(v: View)
      reads this`mem, this`memOffset, this`total, this`trimOffset
    {
      && total == |v.stream|
      && trimOffset == v.trim <= total
      && memOffset == MemOffset(cfg, v)
      && mem == v.stream[memOffset..]
    }

    /** Every field is the function of `view` that `History` says it is. */
    ghost predicate Valid()
      reads this
    {
      && WellFormed(cfg, view)
      && ValidWindow(view)
      && ValidHashes(view.stream, view.first)
      && ValidDisk(view.stream, view.base, memOffset)
    }

    /** A limit of 0 selects the default; segment files left over under the same prefix are removed. */
    constructor (disk: bool, ramTail: nat, chunkSize: nat, segmentSize: nat, H: seq<byte> -> Hash,
                 leftover: map<nat, seq<byte>>)
      requires !disk ==> leftover == map[]
      ensures Valid() && view == EmptyView && !sealed && files == map[]
      ensures cfg == Config(if ramTail == 0 then DEFAULT_RAM_TAIL else ramTail,
                            if chunkSize == 0 then DEFAULT_CHUNK_SIZE else chunkSize,
                            if segmentSize == 0 then DEFAULT_SEGMENT_SIZE else segmentSize, disk, H)
      ensures ramTail == chunkSize == segmentSize == 0 ==> cfg == Config(10 * 0x10_0000, 0x10_0000, 10 * 0x10_0000, disk, H)
    {
      ghost var c := Config(if ramTail == 0 then DEFAULT_RAM_TAIL else ramTail,
                            if chunkSize == 0 then DEFAULT_CHUNK_SIZE else chunkSize,
                            if segmentSize == 0 then DEFAULT_SEGMENT_SIZE else segmentSize, disk, H);
      cfg := Config(if ramTail == 0 then DEFAULT_RAM_TAIL else ramTail,
                    if chunkSize == 0 then DEFAULT_CHUNK_SIZE else chunkSize,
                    if segmentSize == 0 then DEFAULT_SEGMENT_SIZE else segmentSize, disk, H);
      mem, memOffset, total := [], 0, 0;
      segments, files := [], leftover;
      chunkHashes, firstChunkIndex, curHasher, curBytes := [], 0, [], 0;
      trimOffset, sealed := 0, false;
      view := EmptyView;
      new;
      while files != map[]
        invariant cfg == c && segments == [] && ValidWindow(view) && ValidHashes(view.stream, view.first)
        invariant view == EmptyView && !sealed
        decreases |files|
      {
        var k: nat :| k in files;
        files := files - {k};
      }
    }

    /** Opens a new, empty segment file where the last one ends. */
    method Rotate()
      modifies this`segments, this`files
      ensures var start := if old(segments) == [] then memOffset else old(segments)[|old(segments)| - 1].endOff;
              segments == old(segments) + [Segment(start, start)] && files == old(files)[start := []]
    {
      var startOff := memOffset;
      if |segments| > 0 {
        startOff := segments[|segments| - 1].endOff;
      }
      files := files[startOff := []];
      segments := segments + [Segment(startOff, startOff)];
    }

    /** Opens a new segment unless the last one has room. */
    method MakeRoom(ghost s: seq<byte>, ghost base: nat, ghost end: nat)
      requires ValidDisk(s, base, end) && (base == end ==> memOffset == end)
      modifies this`segments, this`files
      ensures Roomy(s, base, end, cfg.segmentSize, segments, files)
    {
      if base < end {
        TilesLast(base, end, cfg.segmentSize);
      }
      assert segments == [] ==> base == end;
      hide Tiles, FilesOf;
      if |segments| == 0 || segments[|segments| - 1].endOff - segments[|segments| - 1].startOff >= cfg.segmentSize {
        Rotate();
      }
    }

    /** One write of the spill loop: as much of `rem` as the current segment file has room for. */
    method SpillOnce(rem: seq<byte>, ghost s: seq<byte>, ghost base: nat, ghost end: nat) returns (n: nat)
      requires ValidDisk(s, base, end) && (base == end ==> memOffset == end)
      requires 0 < |rem| && end + |rem| <= |s| && rem == s[end..end + |rem|]
      modifies this`segments, this`files
      ensures 0 < n <= |rem| && ValidDisk(s, base, end + n)
    {
      hide Tiles, FilesOf, Roomy;
      MakeRoom(s, base, end);
      RoomyLast(s, base, end, cfg.segmentSize, segments, files);
      var seg := segments[|segments| - 1];
      var room := cfg.segmentSize - (seg.endOff - seg.startOff);
      n := |rem|;
      if n > room {
        n := room;
      }
      SplitSlice(s, end, end + |rem|, n);
      SpillWrite(s, base, end, n, cfg.segmentSize, segments, files);
      files := files[seg.startOff := files[seg.startOff] + rem[..n]];
      segments := segments[..|segments| - 1] + [Segment(seg.startOff, seg.endOff + n)];
    }

    /** Moves the bytes after the disk region into segment files, rotating as they fill up. */
    method SpillToDisk(data: seq<byte>, ghost s: seq<byte>, ghost base: nat)
      requires ValidDisk(s, base, memOffset)
      requires memOffset + |data| <= |s| && data == s[memOffset..memOffset + |data|]
      modifies this`segments, this`files
      ensures ValidDisk(s, base, memOffset + |data|)
    {
      var rem := data;
      ghost var end := memOffset;
      while |rem| > 0
        invariant |rem| <= |data| && end == memOffset + |data| - |rem|
        invariant rem == s[end..memOffset + |data|]
        invariant ValidDisk(s, base, end)
        decreases |rem|
      {
        var n := SpillOnce(rem, s, base, end);
        SplitSlice(s, end, end + |rem|, n);
        rem := rem[n..];
        end := end + n;
      }
    }

    /** One round of the hashing loop: up to the end of the current chunk. */
    method AbsorbOnce(rem: seq<byte>, ghost s: seq<byte>, ghost first: nat) returns (n: nat)
      requires ValidHashes(s, first) && 0 < |rem|
      modifies this`curHasher, this`curBytes, this`chunkHashes
      ensures 0 < n <= |rem| && ValidHashes(s + rem[..n], first)
    {
      var room := cfg.chunkSize - curBytes;
      n := |rem|;
      if n > room {
        n := room;
      }
      if curBytes + n < cfg.chunkSize {
        HashPartial(cfg, s, first, rem[..n]);
      } else {
        HashComplete(cfg, s, first, rem[..n]);
      }
      assert s[|s| - curBytes..] + rem[..n] == (s + rem[..n])[|s| - curBytes..];
      curHasher := curHasher + rem[..n];
      curBytes := curBytes + n;
      if curBytes == cfg.chunkSize {
        chunkHashes := chunkHashes + [cfg.H(curHasher)];
        curHasher := [];
        curBytes := 0;
      }
    }

    /** Feeds `p` to the incremental hasher, chunk by chunk. */
    method Absorb(p: seq<byte>, ghost s: seq<byte>, ghost first: nat)
      requires ValidHashes(s, first)
      modifies this`curHasher, this`curBytes, this`chunkHashes
      ensures ValidHashes(s + p, first)
    {
      var rem := p;
      ghost var done := s;
      while |rem| > 0
        invariant done + rem == s + p && ValidHashes(done, first)
        decreases |rem|
      {
        var n := AbsorbOnce(rem, done, first);
        assert done + rem[..n] + rem[n..] == done + rem;
        done := done + rem[..n];
        rem := rem[n..];
      }
      assert done == s + p;
    }

    /** Moves the window's first `spill` bytes to disk or, without one, gives them up. */
    method Overflow(spill: nat, ghost s: seq<byte>, ghost base: nat)
      requires spill <= |mem| && memOffset <= |s| && mem == s[memOffset..] && ValidDisk(s, base, memOffset)
      modifies this`mem, this`memOffset, this`trimOffset, this`segments, this`files
      ensures memOffset == old(memOffset) + spill <= |s| && mem == s[memOffset..]
      ensures if cfg.disk then trimOffset == old(trimOffset) && ValidDisk(s, base, memOffset)
              else trimOffset == old(trimOffset) + spill && segments == old(segments) && files == old(files)
    {
      hide Tiles, FilesOf;
      if cfg.disk {
        SpillToDisk(mem[..spill], s, base);
      } else {
        trimOffset := trimOffset + spill;
      }
      memOffset := memOffset + spill;
      mem := mem[spill..];
    }

    /** Slides the RAM window over `p`, spilling what no longer fits (or, without a disk, dropping it). */
    method Slide(p: seq<byte>, ghost v: View)
      requires WellFormed(cfg, v) && ValidWindow(v) && ValidDisk(v.stream, v.base, memOffset)
      modifies this`mem, this`memOffset, this`total, this`trimOffset, this`segments, this`files
      ensures var w := Appended(cfg, v, p);
              ValidWindow(w) && ValidDisk(w.stream, w.base, memOffset)
    {
      WindowSlides(cfg, v, p);
      ghost var w, m := Appended(cfg, v, p), memOffset;
      NoTiles(m, cfg.segmentSize);
      NoTiles(MemOffset(cfg, w), cfg.segmentSize);
      mem := mem + p;
      total := total + |p|;
      assert memOffset <= |w.stream| && mem == w.stream[memOffset..] && ValidDisk(w.stream, v.base, memOffset);
      assert !cfg.disk ==> v.base == m && segments == [];
      hide Tiles, FilesOf;
      if |mem| > cfg.ramTail {
        Overflow(|mem| - cfg.ramTail, w.stream, v.base);
      }
    }

    /** Digests `p`, then takes it into the window. */
    method Grow(p: seq<byte>, ghost v: View)
      requires WellFormed(cfg, v) && ValidWindow(v) && ValidHashes(v.stream, v.first) && ValidDisk(v.stream, v.base, memOffset)
      modifies this`mem, this`memOffset, this`total, this`trimOffset, this`segments, this`files
      modifies this`curHasher, this`curBytes, this`chunkHashes
      ensures var w := Appended(cfg, v, p);
              ValidWindow(w) && ValidHashes(w.stream, w.first) && ValidDisk(w.stream, w.base, memOffset)
    {
      hide WellFormed, ValidWindow, ValidHashes, ValidDisk;
      Absorb(p, v.stream, v.first);
      Slide(p, v);
    }

    /** Adds `p` to the stream; refused only once the buffer is sealed. */
    method Append(p: seq<byte>) returns (ok: bool)
      requires Valid()
      modifies this
      ensures Valid() && sealed == old(sealed) && ok == !old(sealed)
      ensures view == if ok then Appended(cfg, old(view), p) else old(view)
    {
      hide WellFormed, Appended, ValidWindow, ValidHashes, ValidDisk;
      if sealed {
        return false;
      }
      AppendedWellFormed(cfg, view, p);
      Grow(p, view);
      view := Appended(cfg, view, p);
      return true;
    }

    /** The segment whose file holds the byte at `off`, found by a linear scan. */
    method SegmentContaining(off: nat) returns (r: Option<Segment>)
      ensures r.Some? ==> r.value in segments && r.value.startOff <= off < r.value.endOff
      ensures r.None? ==> forall g :: g in segments ==> !(g.startOff <= off < g.endOff)
    {
      for i := 0 to |segments|
        invariant forall j :: 0 <= j < i ==> !(segments[j].startOff <= off < segments[j].endOff)
      {
        if segments[i].startOff <= off && off < segments[i].endOff {
          return Some(segments[i]);
        }
      }
      return None;
    }

    /** Copies `n` bytes at `off` out of the segment file that holds them. */
    method ReadSegment(p: array<byte>, at: nat, off: nat, want: nat) returns (n: nat)
      requires Valid() && view.trim <= off < memOffset && 0 < want && at + want <= p.Length
      modifies p
      ensures 0 < n <= want && off + n <= memOffset
      ensures p[..] == old(p[..at]) + view.stream[off..off + n] + old(p[at + n..])
    {
      TilesCover(view.base, memOffset, cfg.segmentSize, off);
      var found := SegmentContaining(off);
      var seg := found.value;
      n := Min(want, seg.endOff - off);
      TileHolds(view.stream, view.base, memOffset, cfg.segmentSize, seg, off, n);
      CopyInto(p, at, files[seg.startOff][off - seg.startOff..off - seg.startOff + n]);
    }

    /** Copies `n` bytes at `off` out of the RAM window. */
    method ReadWindow(p: array<byte>, at: nat, off: nat, n: nat)
      requires ValidWindow(view) && memOffset <= off && off + n <= total && at + n <= p.Length
      modifies p
      ensures p[..] == old(p[..at]) + view.stream[off..off + n] + old(p[at + n..])
    {
      var memOff := off - memOffset;
      SubSlice(view.stream, memOffset, total, off, n);
      CopyInto(p, at, mem[memOff..memOff + n]);
    }

    /** The disk part of a read: stops after `want` bytes or at the start of the RAM window. */
    method ReadDisk(p: array<byte>, off: nat, want: nat) returns (n: nat)
      requires Valid() && view.trim <= off && off + want <= total && want <= p.Length
      modifies p
      ensures n <= want && (n < want ==> memOffset <= off + n)
      ensures p[..n] == view.stream[off..off + n] && p[n..] == old(p[n..])
    {
      n := 0;
      while n < want && off + n < memOffset
        invariant n <= want
        invariant p[..n] == view.stream[off..off + n] && p[n..] == old(p[n..])
      {
        ghost var before := p[..];
        var k := ReadSegment(p, n, off + n, want - n);
        Spliced(p[..], before, n, view.stream, off, k);
        n := n + k;
      }
    }

    /**
     Copies held bytes from `off` on into `p`: as many as fit and exist, whatever mix of segment
     files and RAM they sit in. The source's further error, an offset in no segment, cannot arise.
     */
    method ReadAt(p: array<byte>, off: nat) returns (n: nat, err: ReadError)
      requires Valid()
      modifies p
      ensures err == if |view.stream| <= off then EndOfStream else if off < view.trim then BelowTrim else NoError
      ensures n == if err.NoError? then Min(p.Length, |view.stream| - off) else 0
      ensures n <= p.Length && p[n..] == old(p[n..])
      ensures err.NoError? ==> p[..n] == view.stream[off..off + n]
    {
      hide WellFormed, HashesFrom, Tiles, FilesOf;
      if off >= total {
        return 0, EndOfStream;
      }
      if off < trimOffset {
        return 0, BelowTrim;
      }
      err := NoError;
      var want := p.Length;
      if off + want > total {
        want := total - off;
      }
      n := ReadHeld(p, off, want);
    }

    /** The disk part, then the RAM part. */
    method ReadHeld(p: array<byte>, off: nat, want: nat) returns (n: nat)
      requires Valid() && view.trim <= off && off + want <= total && want <= p.Length
      modifies p
      ensures n == want && p[n..] == old(p[n..]) && p[..n] == view.stream[off..off + n]
    {
      hide WellFormed, HashesFrom, Tiles, FilesOf;
      n := ReadDisk(p, off, want);
      if n < want {
        ghost var before := p[..];
        ReadWindow(p, n, off + n, want - n);
        Spliced(p[..], before, n, view.stream, off, want - n);
        n := want;
      }
    }

    /** Bookkeeping of `ReadAt`: after another `k` bytes, one more stretch of the stream is in place. */
    static lemma Spliced(now: seq<byte>, before: seq<byte>, n: nat, s: seq<byte>, off: nat, k: nat)
      requires n + k <= |before| && off + n + k <= |s|
      requires before[..n] == s[off..off + n]
      requires now == before[..n] + s[off + n..off + n + k] + before[n + k..]
      ensures now[..n + k] == s[off..off + n + k]
      ensures now[n + k..] == before[n..][k..] == before[n + k..]
    {
    }

    /** Deletes the segment files that end at or below `off`. */
    method TrimSegments(off: nat, ghost v: View, ghost offset: nat, ghost w: View)
      requires WellFormed(cfg, v) && v.trim < offset && off == Min(offset, |v.stream|) && w == Trimmed(cfg, v, offset)
      requires memOffset == MemOffset(cfg, v) && ValidDisk(v.stream, v.base, memOffset)
      modifies this`segments, this`files
      ensures ValidDisk(w.stream, w.base, MemOffset(cfg, w))
    {
      TrimmedPieces(cfg, v, offset);
      ghost var base := v.base;
      while |segments| > 0 && segments[0].endOff <= off
        invariant v.base <= base && ValidDisk(v.stream, base, memOffset)
        invariant off < memOffset ==>
            base <= off && TrimBase(base, off, cfg.segmentSize) == TrimBase(v.base, off, cfg.segmentSize)
        decreases |segments|
      {
        DropStep(v.stream, base, memOffset, cfg.segmentSize);
        files := files - {segments[0].startOff};
        segments := segments[1..];
        base := Min(base + cfg.segmentSize, memOffset);
      }
      if base < memOffset {
        DropStep(v.stream, base, memOffset, cfg.segmentSize);
      }
    }

    /** Drops the digests of chunks that end at or below `off`. */
    method TrimHashes(off: nat, ghost v: View, ghost offset: nat, ghost w: View)
      requires WellFormed(cfg, v) && v.trim < offset && off == Min(offset, |v.stream|) && w == Trimmed(cfg, v, offset)
      requires ValidHashes(v.stream, v.first)
      modifies this`chunkHashes, this`firstChunkIndex
      ensures ValidHashes(w.stream, w.first)
    {
      TrimmedPieces(cfg, v, offset);
      DivIsQuotient(off, cfg.chunkSize);
      DivMonotone(off, |v.stream|, cfg.chunkSize);
      var threshold := off / cfg.chunkSize;
      if threshold > firstChunkIndex {
        var drop := threshold - firstChunkIndex;
        if drop > |chunkHashes| {
          drop := |chunkHashes|;
        }
        HashesDrop(cfg, v.stream, firstChunkIndex, threshold);
        chunkHashes := chunkHashes[drop..];
        firstChunkIndex := firstChunkIndex + drop;
      }
    }

    /** Slides the RAM window forward when the trim point lands inside it. */
    method TrimWindow(off: nat, ghost v: View, ghost offset: nat, ghost w: View)
      requires WellFormed(cfg, v) && v.trim < offset && off == Min(offset, |v.stream|) && w == Trimmed(cfg, v, offset)
      requires ValidWindow(v)
      modifies this`trimOffset, this`mem, this`memOffset
      ensures ValidWindow(w)
    {
      TrimmedPieces(cfg, v, offset);
      trimOffset := off;
      if off > memOffset {
        var drop := off - memOffset;
        SplitSlice(v.stream, memOffset, total, drop);
        mem := mem[drop..];
        memOffset := off;
      }
    }

    /** The rest of `TrimTo`, once the offset is known to lie above the trim point. */
    method TrimPast(off: nat, ghost offset: nat)
      requires Valid() && view.trim < offset && off == Min(offset, |view.stream|)
      modifies this`segments, this`files, this`chunkHashes, this`firstChunkIndex
      modifies this`trimOffset, this`mem, this`memOffset, this`view
      ensures Valid() && view == Trimmed(cfg, old(view), offset)
    {
      hide Trimmed, Tiles, FilesOf, HashesFrom;
      ghost var v, w := view, Trimmed(cfg, view, offset);
      TrimmedWellFormed(cfg, v, offset);
      TrimmedPieces(cfg, v, offset);
      TrimSegments(off, v, offset, w);
      TrimHashes(off, v, offset, w);
      TrimWindow(off, v, offset, w);
      view := w;
    }

    /** Forgets everything below `offset`: whole segment files, RAM bytes and digests. */
    method TrimTo(offset: nat)
      requires Valid()
      modifies this
      ensures Valid() && sealed == old(sealed)
      ensures view == Trimmed(cfg, old(view), offset)
    {
      var off := offset;
      if off <= trimOffset {
        return;
      }
      if off > total {
        off := total;
      }
      TrimPast(off, offset);
    }

    method Len() returns (n: nat)
      requires Valid()
      ensures n == |view.stream|
    {
      return total;
    }

    method TrimOffset() returns (n: nat)
      requires Valid()
      ensures n == view.trim
    {
      return trimOffset;
    }

    method FirstChunkIndex() returns (n: nat)
      requires Valid()
      ensures n == view.first
    {
      return firstChunkIndex;
    }

    /** The digests held are those of the finished stream, however it was cut into appends. */
    method ChunkHashes() returns (hs: seq<Hash>)
      requires Valid()
      ensures hs == HashesFrom(cfg, view.stream, view.first)
    {
      return chunkHashes;
    }

    /** Adds up the sizes of the segment files. */
    method DiskFileSize() returns (size: nat)
      requires Valid()
      ensures size == FileBytes(segments)
    {
      size := 0;
      for i := 0 to |segments|
        invariant size == FileBytes(segments[..i])
      {
        TileSize(view.stream, view.base, memOffset, cfg.segmentSize, i);
        assert segments[..i + 1][..i] == segments[..i];
        size := size + |files[segments[i].startOff]|;
      }
      assert segments[..|segments|] == segments;
    }

    /** A counter snapshot: the files waste less than one segment beyond the unacknowledged spill. */
    method Stats() returns (st: Snapshot)
      requires Valid()
      ensures st.total == |view.stream| && st.trimOffset == view.trim && st.memOffset == MemOffset(cfg, view)
      ensures st.heldBytes == st.total - st.trimOffset
      ensures st.ramBytes == Min(cfg.ramTail, st.heldBytes) && st.heldBytes == st.ramBytes + st.diskBytes
      ensures st.diskBytes <= st.diskFileSize < st.diskBytes + cfg.segmentSize
      ensures st.diskFileSize == st.memOffset - view.base
      ensures st.numSegments == |Tiles(view.base, st.memOffset, cfg.segmentSize)|
      ensures st.numSegments == 0 <==> st.diskBytes == 0
      ensures view.first + st.numChunks == Div(st.total, cfg.chunkSize)
    {
      DiskFootprint(cfg, view);
      FileBytesOfTiles(view.base, memOffset, cfg.segmentSize);
      ManifestReaches(cfg, view);
      var size := DiskFileSize();
      st := Snapshot(total, trimOffset, memOffset, total - trimOffset, |mem|, memOffset - trimOffset,
                     size, |chunkHashes|, |segments|);
    }

    /** One look of `WaitFor` under the lock: bytes past `offset`, the sealed end, or back to sleep. */
    method Poll(offset: nat) returns (w: Wait)
      requires Valid()
      ensures w == if offset < |view.stream| then Ready(|view.stream|)
                   else if sealed then Ended(|view.stream|) else Parked
    {
      if total > offset {
        return Ready(total);
      }
      if sealed {
        return Ended(total);
      }
      return Parked;
    }

    method Seal()
      requires Valid()
      modifies this`sealed
      ensures Valid() && sealed
    {
      sealed := true;
    }

    /** Removes every segment file. */
    method Unlink()
      requires Valid()
      modifies this`files
      ensures files == map[]
    {
      ghost var s := view.stream;
      TilesContiguous(view.base, memOffset, cfg.segmentSize);
      assert Ascending(segments) && segments[0..] == segments && FilesOf(s, []) == map[];
      hide Tiles, FilesOf, Ascending, WellFormed, HashesFrom;
      for i := 0 to |segments|
        invariant files == FilesOf(s, segments[i..])
      {
        FilesDropAt(s, segments, i);
        files := files - {segments[i].startOff};
      }
      assert segments[|segments|..] == [];
    }

    /**
     Releases the segment files. Kept files hold the stream from the oldest segment to its very
     end, RAM window included; otherwise every file is unlinked.
     */
    method Close(removeFile: bool)
      requires Valid()
      modifies this
      ensures sealed && segments == [] && view == old(view)
      ensures files == if cfg.disk && !removeFile
                       then FilesOf(view.stream, Tiles(view.base, |view.stream|, cfg.segmentSize))
                       else map[]
    {
      sealed := true;
      if !cfg.disk {
        assert Tiles(view.base, memOffset, cfg.segmentSize) == [];
        return;
      }
      if removeFile {
        Unlink();
      } else if |mem| > 0 {
        SpillToDisk(mem, view.stream, view.base);
        memOffset := memOffset + |mem|;
        mem := [];
      }
      segments := [];
    }
  }
}
