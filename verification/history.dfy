/**
 The abstract side of `internal/buffer`: what a history buffer holds, as a function of the
 stream produced so far and of how much of it has been acknowledged.

 A `View` is four values. Every concrete field of `Buffers.Buffer` (RAM window, segment list,
 segment files, digest list, hasher) is a function of its view, so two buffers with equal views
 are equal field by field.
 */
module History {
  import opened Bytes

  const DEFAULT_RAM_TAIL: nat := 0xA0_0000
  const DEFAULT_CHUNK_SIZE: nat := 0x10_0000
  const DEFAULT_SEGMENT_SIZE: nat := 0xA0_0000

  /** Limits of a buffer, whether it spills to disk, and the digest function (SHA-256 in the program). */
  datatype Config = Config(ramTail: nat, chunkSize: nat, segmentSize: nat, disk: bool, H: seq<byte> -> Hash) {
    predicate Ok() {
      0 < ramTail && 0 < chunkSize && 0 < segmentSize
    }
  }

  /** One segment file: it holds the stream's bytes [startOff, endOff). */
  datatype Segment = Segment(startOff: nat, endOff: nat)

  /**
   What a buffer stands for: the whole stream ever appended, the lowest offset still held, the
   start of the oldest segment file (the end of the disk region when there is none), and the index
   of the oldest chunk digest still held.
   */
  datatype View = View(stream: seq<byte>, trim: nat, base: nat, first: nat)

  const EmptyView: View := View([], 0, 0, 0)

  // ----- Segment layout -----

  /** The segment files that cover [from, end): all of length `size` except possibly the last. */
  function Tiles(from: nat, end: nat, size: nat): seq<Segment>
    requires 0 < size
    decreases end - from
  {
    if end <= from then []
    else [Segment(from, Min(from + size, end))] + Tiles(Min(from + size, end), end, size)
  }

  lemma NoTiles(from: nat, size: nat)
    requires 0 < size
    ensures Tiles(from, from, size) == []
  {
  }

  /** Contiguous, non-empty, full except for the last, covering exactly [from, end). */
  ghost predicate Contiguous(segs: seq<Segment>, from: nat, end: nat, size: nat) {
    && (segs == [] <==> from == end)
    && (segs != [] ==> segs[0].startOff == from && segs[|segs| - 1].endOff == end)
    && (forall i :: 0 <= i < |segs| ==> from <= segs[i].startOff < segs[i].endOff <= end && segs[i].endOff - segs[i].startOff <= size)
    && (forall i, j :: 0 <= i < j < |segs| ==>
          && segs[i].endOff - segs[i].startOff == size
          && segs[i].endOff <= segs[j].startOff
          && (j == i + 1 ==> segs[i].endOff == segs[j].startOff))
  }

  lemma ContiguousCons(s: seq<Segment>, from: nat, cut: nat, end: nat, size: nat)
    requires from < cut == Min(from + size, end) && Contiguous(s, cut, end, size)
    ensures Contiguous([Segment(from, cut)] + s, from, end, size)
  {
    var t := [Segment(from, cut)] + s;
    assert s != [] ==> t[|t| - 1] == s[|s| - 1] && s[0].startOff == cut;
  }

  lemma {:induction false} TilesContiguous(from: nat, end: nat, size: nat)
    requires 0 < size && from <= end
    ensures Contiguous(Tiles(from, end, size), from, end, size)
    decreases end - from
  {
    if from < end {
      var cut := Min(from + size, end);
      TilesContiguous(cut, end, size);
      assert Tiles(from, end, size) == [Segment(from, cut)] + Tiles(cut, end, size);
      ContiguousCons(Tiles(cut, end, size), from, cut, end, size);
    }
  }

  lemma ContiguousTail(segs: seq<Segment>, from: nat, end: nat, size: nat)
    requires Contiguous(segs, from, end, size) && segs != []
    ensures Contiguous(segs[1..], segs[0].endOff, end, size)
    ensures segs[0] == Segment(from, Min(from + size, end))
  {
    var tail := segs[1..];
    assert forall i :: 0 <= i < |tail| ==> tail[i] == segs[i + 1];
    assert |segs| > 1 ==> segs[0].endOff == segs[1].startOff && tail[0] == segs[1];
  }

  /** `Contiguous` pins the list down: nothing else has that shape. */
  lemma {:induction false} ContiguousIsTiles(segs: seq<Segment>, from: nat, end: nat, size: nat)
    requires 0 < size && from <= end && Contiguous(segs, from, end, size)
    ensures segs == Tiles(from, end, size)
    decreases |segs|
  {
    if segs != [] {
      ContiguousTail(segs, from, end, size);
      ContiguousIsTiles(segs[1..], segs[0].endOff, end, size);
      assert segs == [segs[0]] + segs[1..];
    }
  }

  lemma {:induction false} TilesCover(from: nat, end: nat, size: nat, off: nat)
    requires 0 < size && from <= off < end
    ensures exists g :: g in Tiles(from, end, size) && g.startOff <= off < g.endOff
    decreases end - from
  {
    var t := Tiles(from, end, size);
    if off < t[0].endOff {
      assert t[0] in t;
    } else {
      TilesCover(Min(from + size, end), end, size, off);
      assert forall g :: g in Tiles(Min(from + size, end), end, size) ==> g in t;
    }
  }

  /** The next spilled byte opens a new segment: there is none yet, or the last one is full. */
  predicate NeedsNew(segs: seq<Segment>, size: nat) {
    segs == [] || segs[|segs| - 1].endOff - segs[|segs| - 1].startOff >= size
  }

  /** Writing `n` more bytes after `end` either opens a new last segment or lengthens the last one. */
  lemma {:induction false} TilesExtend(from: nat, end: nat, n: nat, size: nat)
    requires 0 < size && from <= end && 0 < n
    ensures var t := Tiles(from, end, size);
            NeedsNew(t, size) && n <= size ==>
              Tiles(from, end + n, size) == t + [Segment(end, end + n)]
    ensures var t := Tiles(from, end, size);
            !NeedsNew(t, size) && n <= size - (t[|t| - 1].endOff - t[|t| - 1].startOff) ==>
              Tiles(from, end + n, size) == t[..|t| - 1] + [Segment(t[|t| - 1].startOff, end + n)]
    decreases end - from
  {
    var t := Tiles(from, end, size);
    if from < end && from + size < end {
      var s := Tiles(from + size, end, size);
      TilesExtend(from + size, end, n, size);
      assert t == [t[0]] + s && t[|t| - 1] == s[|s| - 1];
      assert t[..|t| - 1] == [t[0]] + s[..|s| - 1];
    } else if from < end {
      assert Tiles(end, end, size) == [] && Tiles(end + n, end + n, size) == [];
      assert t == [Segment(from, end)];
      if end - from == size && n <= size {
        assert Tiles(end, end + n, size) == [Segment(end, end + n)];
      }
    } else if n <= size {
      assert Tiles(end + n, end + n, size) == [];
      assert Tiles(end, end + n, size) == [Segment(end, end + n)];
    }
  }

  /** Start of the oldest tile that ends above `off`, walking up from `base` one tile at a time. */
  function TrimBase(base: nat, off: nat, size: nat): (b: nat)
    requires 0 < size && base <= off
    ensures base <= b <= off < b + size
    decreases off - base
  {
    if off < base + size then base else TrimBase(base + size, off, size)
  }

  lemma {:induction false} TrimBaseJoin(base: nat, off: nat, off': nat, size: nat)
    requires 0 < size && base <= off <= off'
    ensures TrimBase(TrimBase(base, off, size), off', size) == TrimBase(base, off', size)
    decreases off - base
  {
    if base + size <= off {
      TrimBaseJoin(base + size, off, off', size);
    }
  }

  // ----- Segment files -----

  function Slice(s: seq<byte>, a: nat, b: nat): seq<byte> {
    if a <= b <= |s| then s[a..b] else []
  }

  /** The directory contents for a segment list: file name (start offset) to file contents. */
  function FilesOf(s: seq<byte>, segs: seq<Segment>): map<nat, seq<byte>> {
    if segs == [] then map[]
    else
      var g := segs[|segs| - 1];
      FilesOf(s, segs[..|segs| - 1])[g.startOff := Slice(s, g.startOff, g.endOff)]
  }

  /** Start offsets increase, so file names never collide. */
  ghost predicate Ascending(segs: seq<Segment>) {
    forall i, j :: 0 <= i < j < |segs| ==> segs[i].startOff < segs[j].startOff
  }

  lemma {:induction false} FilesLookup(s: seq<byte>, segs: seq<Segment>, i: nat)
    requires Ascending(segs) && i < |segs|
    ensures segs[i].startOff in FilesOf(s, segs)
    ensures FilesOf(s, segs)[segs[i].startOff] == Slice(s, segs[i].startOff, segs[i].endOff)
  {
    if i < |segs| - 1 {
      FilesLookup(s, segs[..|segs| - 1], i);
    }
  }

  lemma {:induction false} FilesKeys(s: seq<byte>, segs: seq<Segment>, k: nat)
    requires k in FilesOf(s, segs)
    ensures exists g :: g in segs && g.startOff == k
  {
    var last := segs[|segs| - 1];
    if k == last.startOff {
      assert last in segs;
    } else {
      FilesKeys(s, segs[..|segs| - 1], k);
    }
  }

  lemma {:induction false} TilesLast(from: nat, end: nat, size: nat)
    requires 0 < size && from < end
    ensures var t := Tiles(from, end, size);
            t[|t| - 1].endOff == end && from <= t[|t| - 1].startOff && 0 < end - t[|t| - 1].startOff <= size
    decreases end - from
  {
    if from + size < end {
      TilesLast(from + size, end, size);
    }
  }

  /** The effect on segment list and files of a spill write of `n` bytes that opens a new file. */
  lemma SpillNew(s: seq<byte>, base: nat, end: nat, n: nat, size: nat)
    requires 0 < n <= size && base <= end && end + n <= |s|
    requires NeedsNew(Tiles(base, end, size), size)
    ensures var t, u := Tiles(base, end, size), Tiles(base, end + n, size);
            && u == t + [Segment(end, end + n)]
            && FilesOf(s, u) == FilesOf(s, t)[end := [] + s[end..end + n]]
  {
    var t, u := Tiles(base, end, size), Tiles(base, end + n, size);
    TilesExtend(base, end, n, size);
    assert u[..|u| - 1] == t && [] + s[end..end + n] == s[end..end + n];
  }

  /** The effect of one that fits into the last file. */
  lemma SpillMore(s: seq<byte>, base: nat, end: nat, n: nat, size: nat)
    requires 0 < size && 0 < n && base <= end && end + n <= |s|
    requires var t := Tiles(base, end, size);
             !NeedsNew(t, size) && n <= size - (t[|t| - 1].endOff - t[|t| - 1].startOff)
    ensures var t, u := Tiles(base, end, size), Tiles(base, end + n, size);
            var a := t[|t| - 1].startOff;
            && u == t[..|t| - 1] + [Segment(a, end + n)]
            && a in FilesOf(s, t)
            && FilesOf(s, u) == FilesOf(s, t)[a := FilesOf(s, t)[a] + s[end..end + n]]
  {
    var t, u := Tiles(base, end, size), Tiles(base, end + n, size);
    var a := t[|t| - 1].startOff;
    TilesLast(base, end, size);
    TilesExtend(base, end, n, size);
    hide Tiles;
    assert u[..|u| - 1] == t[..|t| - 1] && t[|t| - 1] == Segment(a, end);
    FilesLengthen(s, t, u, a, end, n);
  }

  /** The last file, longer by `n` bytes. */
  lemma FilesLengthen(s: seq<byte>, t: seq<Segment>, u: seq<Segment>, a: nat, end: nat, n: nat)
    requires t != [] && u != [] && t[..|t| - 1] == u[..|u| - 1] && a <= end && end + n <= |s|
    requires t[|t| - 1] == Segment(a, end) && u[|u| - 1] == Segment(a, end + n)
    ensures a in FilesOf(s, t)
    ensures FilesOf(s, u) == FilesOf(s, t)[a := FilesOf(s, t)[a] + s[end..end + n]]
  {
    assert s[a..end] + s[end..end + n] == s[a..end + n];
  }

  /** The last segment can take more: it is not full, or it was just opened, empty, behind a full one. */
  ghost predicate Roomy(s: seq<byte>, base: nat, end: nat, size: nat, segs: seq<Segment>, files: map<nat, seq<byte>>)
    requires 0 < size
  {
    var t := Tiles(base, end, size);
    if NeedsNew(t, size) then segs == t + [Segment(end, end)] && files == FilesOf(s, t)[end := []]
    else segs == t && files == FilesOf(s, t)
  }

  /** Where it stands. */
  lemma RoomyLast(s: seq<byte>, base: nat, end: nat, size: nat, segs: seq<Segment>, files: map<nat, seq<byte>>)
    requires 0 < size && base <= end <= |s| && Roomy(s, base, end, size, segs, files)
    ensures segs != []
    ensures var g := segs[|segs| - 1]; g.endOff == end && g.startOff <= end < g.startOff + size && g.startOff in files
  {
    var t := Tiles(base, end, size);
    if !NeedsNew(t, size) {
      TilesLast(base, end, size);
      hide Tiles;
    }
  }

  /** Writing `n` more bytes into it. */
  lemma SpillWrite(s: seq<byte>, base: nat, end: nat, n: nat, size: nat, segs: seq<Segment>, files: map<nat, seq<byte>>)
    requires 0 < size && 0 < n && base <= end && end + n <= |s| && Roomy(s, base, end, size, segs, files)
    requires segs != [] && segs[|segs| - 1].startOff in files && segs[|segs| - 1].startOff <= end
    requires n <= size - (end - segs[|segs| - 1].startOff) && segs[|segs| - 1].endOff == end
    ensures var u, a := Tiles(base, end + n, size), segs[|segs| - 1].startOff;
            && segs[..|segs| - 1] + [Segment(a, end + n)] == u
            && files[a := files[a] + s[end..end + n]] == FilesOf(s, u)
  {
    var t := Tiles(base, end, size);
    if NeedsNew(t, size) {
      SpillNew(s, base, end, n, size);
      hide Tiles, FilesOf;
      assert segs[..|segs| - 1] == t;
    } else {
      SpillMore(s, base, end, n, size);
      hide Tiles, FilesOf;
    }
  }

  /** Deleting the oldest file leaves the files of the remaining segments. */
  lemma {:induction false} FilesDropFirst(s: seq<byte>, segs: seq<Segment>)
    requires segs != [] && Ascending(segs)
    ensures FilesOf(s, segs) - {segs[0].startOff} == FilesOf(s, segs[1..])
  {
    if |segs| > 1 {
      var front := segs[..|segs| - 1];
      FilesDropFirst(s, front);
      assert segs[1..][..|segs| - 2] == front[1..];
      assert segs[0].startOff < segs[|segs| - 1].startOff;
    }
  }

  lemma {:induction false} FilesStable(s: seq<byte>, x: seq<byte>, segs: seq<Segment>)
    requires forall g :: g in segs ==> g.endOff <= |s|
    ensures FilesOf(s + x, segs) == FilesOf(s, segs)
  {
    if segs != [] {
      var g := segs[|segs| - 1];
      assert g in segs;
      assert forall h :: h in segs[..|segs| - 1] ==> h in segs;
      FilesStable(s, x, segs[..|segs| - 1]);
      assert Slice(s + x, g.startOff, g.endOff) == Slice(s, g.startOff, g.endOff);
    }
  }

  /** Deleting the files one by one, oldest first. */
  lemma FilesDropAt(s: seq<byte>, segs: seq<Segment>, i: nat)
    requires Ascending(segs) && i < |segs|
    ensures FilesOf(s, segs[i..]) - {segs[i].startOff} == FilesOf(s, segs[i + 1..])
  {
    assert segs[i..][1..] == segs[i + 1..];
    FilesDropFirst(s, segs[i..]);
  }

  /** What a segment file holds between `off` and `off + n`. */
  lemma TileHolds(s: seq<byte>, base: nat, end: nat, size: nat, g: Segment, off: nat, n: nat)
    requires 0 < size && base <= end <= |s| && g in Tiles(base, end, size)
    requires g.startOff <= off && off + n <= g.endOff
    ensures var files := FilesOf(s, Tiles(base, end, size));
            && g.endOff <= end
            && g.startOff in files
            && |files[g.startOff]| == g.endOff - g.startOff
            && files[g.startOff][off - g.startOff..off - g.startOff + n] == s[off..off + n]
  {
    var t := Tiles(base, end, size);
    TilesContiguous(base, end, size);
    var i :| 0 <= i < |t| && t[i] == g;
    FilesLookup(s, t, i);
    SubSlice(s, g.startOff, g.endOff, off, n);
  }

  lemma TileSize(s: seq<byte>, base: nat, end: nat, size: nat, i: nat)
    requires 0 < size && base <= end <= |s| && i < |Tiles(base, end, size)|
    ensures var t := Tiles(base, end, size);
            && t[i].startOff in FilesOf(s, t)
            && |FilesOf(s, t)[t[i].startOff]| == t[i].endOff - t[i].startOff
  {
    TilesContiguous(base, end, size);
    FilesLookup(s, Tiles(base, end, size), i);
  }

  /** Deleting the oldest file walks the disk region up by one tile. */
  lemma DropStep(s: seq<byte>, base: nat, end: nat, size: nat)
    requires 0 < size && base < end
    ensures var t := Tiles(base, end, size);
            && t[0] == Segment(base, Min(base + size, end))
            && t[1..] == Tiles(Min(base + size, end), end, size)
            && FilesOf(s, t) - {base} == FilesOf(s, t[1..])
  {
    TilesContiguous(base, end, size);
    FilesDropFirst(s, Tiles(base, end, size));
  }

  // ----- Chunk digests -----

  /** The k-th chunk of `s`, empty when `s` does not reach its end. */
  function ChunkAt(s: seq<byte>, k: nat, size: nat): seq<byte> {
    var a := k * size;
    if 0 <= a <= a + size <= |s| then s[a..a + size] else []
  }

  function Digest(c: Config, s: seq<byte>, k: nat): Hash {
    c.H(ChunkAt(s, k, c.chunkSize))
  }

  /** Digests of the complete chunks of `s` from index `first` on, computed from the finished stream. */
  function HashesFrom(c: Config, s: seq<byte>, first: nat): seq<Hash>
    requires c.Ok()
  {
    if Div(|s|, c.chunkSize) <= first then []
    else seq(Div(|s|, c.chunkSize) - first, (i: nat) => Digest(c, s, first + i))
  }

  lemma ChunkAtStable(s: seq<byte>, x: seq<byte>, k: nat, size: nat)
    requires 0 < size && k < Div(|s|, size)
    ensures (k + 1) * size <= |s|
    ensures ChunkAt(s + x, k, size) == ChunkAt(s, k, size) == s[k * size..(k + 1) * size]
  {
    DivMod(|s|, size);
    MulMonotone(k + 1, Div(|s|, size), size);
    MulNext(k, size);
    PrefixSlice(s, x, k * size, k * size + size);
  }

  lemma PrefixSlice(s: seq<byte>, x: seq<byte>, a: nat, b: nat)
    requires a <= b <= |s|
    ensures (s + x)[a..b] == s[a..b]
  {
  }

  lemma HashesAt(c: Config, s: seq<byte>, first: nat, i: nat)
    requires c.Ok() && first + i < Div(|s|, c.chunkSize)
    ensures HashesFrom(c, s, first)[i] == Digest(c, s, first + i)
  {
  }

  /** Appending bytes leaves the digests of complete chunks alone and only adds later ones. */
  lemma HashesStable(c: Config, s: seq<byte>, first: nat, x: seq<byte>)
    requires c.Ok() && first <= Div(|s|, c.chunkSize)
    ensures Div(|s|, c.chunkSize) <= Div(|s + x|, c.chunkSize)
    ensures HashesFrom(c, s + x, first)[..Div(|s|, c.chunkSize) - first] == HashesFrom(c, s, first)
  {
    var size, q := c.chunkSize, Div(|s|, c.chunkSize);
    DivMonotone(|s|, |s + x|, size);
    forall i | 0 <= i < q - first
      ensures HashesFrom(c, s + x, first)[i] == HashesFrom(c, s, first)[i]
    {
      ChunkAtStable(s, x, first + i, size);
      HashesAt(c, s, first, i);
      HashesAt(c, s + x, first, i);
    }
  }

  /** Bytes that do not complete the current chunk change no digest. */
  lemma HashPartial(c: Config, s: seq<byte>, first: nat, x: seq<byte>)
    requires c.Ok() && first <= Div(|s|, c.chunkSize) && Mod(|s|, c.chunkSize) + |x| < c.chunkSize
    ensures Mod(|s + x|, c.chunkSize) == Mod(|s|, c.chunkSize) + |x|
    ensures first <= Div(|s + x|, c.chunkSize) && HashesFrom(c, s + x, first) == HashesFrom(c, s, first)
  {
    DivMod(|s|, c.chunkSize);
    HashesStable(c, s, first, x);
    DivUnique(|s + x|, c.chunkSize, Div(|s|, c.chunkSize), Mod(|s|, c.chunkSize) + |x|);
    assert |HashesFrom(c, s + x, first)| == Div(|s|, c.chunkSize) - first;
  }

  /** Bytes that complete it add one digest: that of the bytes gathered since the last chunk boundary. */
  lemma HashComplete(c: Config, s: seq<byte>, first: nat, x: seq<byte>)
    requires c.Ok() && first <= Div(|s|, c.chunkSize) && Mod(|s|, c.chunkSize) + |x| == c.chunkSize
    ensures Mod(|s + x|, c.chunkSize) == 0 && first <= Div(|s + x|, c.chunkSize)
    ensures HashesFrom(c, s + x, first) == HashesFrom(c, s, first) + [c.H(s[|s| - Mod(|s|, c.chunkSize)..] + x)]
  {
    var size, q, r := c.chunkSize, Div(|s|, c.chunkSize), Mod(|s|, c.chunkSize);
    DivMod(|s|, size);
    HashesStable(c, s, first, x);
    assert (q + 1) * size == q * size + size;
    DivUnique(|s + x|, size, q + 1, 0);
    assert q * size == |s| - r;
    assert ChunkAt(s + x, q, size) == s[|s| - r..] + x;
    HashesAt(c, s + x, first, q - first);
  }

  /** Dropping digests from the front is the same as starting the list later. */
  lemma HashesDrop(c: Config, s: seq<byte>, first: nat, first': nat)
    requires c.Ok() && first <= first' <= Div(|s|, c.chunkSize)
    ensures HashesFrom(c, s, first') == HashesFrom(c, s, first)[first' - first..]
  {
  }

  // ----- Views -----

  /** Where the RAM window starts: the acknowledged point, or the stream's last `ramTail` bytes. */
  function MemOffset(c: Config, v: View): nat {
    Max(v.trim, |v.stream| - c.ramTail)
  }

  ghost predicate WellFormed(c: Config, v: View) {
    && c.Ok()
    && v.trim <= |v.stream|
    && v.base <= v.trim < v.base + c.segmentSize
    && (v.trim == MemOffset(c, v) ==> v.base == v.trim)
    && v.first <= Div(v.trim, c.chunkSize)
    && (if c.disk then v.first == Div(v.trim, c.chunkSize) else v.trim == MemOffset(c, v))
  }

  /** The view after appending `p`. Without a disk, bytes past the RAM window are given up. */
  function Appended(c: Config, v: View, p: seq<byte>): View {
    var s := v.stream + p;
    if c.disk then v.(stream := s)
    else
      var t := Max(v.trim, |s| - c.ramTail);
      View(s, t, t, v.first)
  }

  /** The view after acknowledging everything below `off`. */
  function Trimmed(c: Config, v: View, off: nat): (w: View)
    requires WellFormed(c, v)
  {
    if off <= v.trim then v
    else
      var t := Min(off, |v.stream|);
      View(v.stream, t,
           if MemOffset(c, v) <= t then t else TrimBase(v.base, t, c.segmentSize),
           Max(v.first, Div(t, c.chunkSize)))
  }

  /** A RAM window over `s` from `m` on, split where it outgrows the tail. */
  lemma WindowSplit(s: seq<byte>, m: nat, spill: nat)
    requires m + spill <= |s|
    ensures s[m..][..spill] == s[m..m + spill] && s[m..][spill..] == s[m + spill..]
  {
  }

  /** How far the RAM window moves over newly appended bytes, and what leaves it. */
  lemma WindowSlides(c: Config, v: View, p: seq<byte>)
    requires WellFormed(c, v)
    ensures var w, m := Appended(c, v, p), MemOffset(c, v);
            var mem := v.stream[m..] + p;
            var spill := Max(|mem| - c.ramTail, 0);
            && mem == w.stream[m..]
            && MemOffset(c, w) == m + spill
            && mem[..spill] == w.stream[m..m + spill]
            && mem[spill..] == w.stream[m + spill..]
            && (if c.disk then w.base == v.base && w.trim == v.trim else w.base == w.trim == v.trim + spill)
    ensures FilesOf(v.stream + p, Tiles(v.base, MemOffset(c, v), c.segmentSize)) ==
            FilesOf(v.stream, Tiles(v.base, MemOffset(c, v), c.segmentSize))
  {
    var m := MemOffset(c, v);
    assert v.stream[m..] + p == (v.stream + p)[m..];
    WindowSplit(v.stream + p, m, Max(|v.stream| - m + |p| - c.ramTail, 0));
    FilesOutlive(v.stream, p, v.base, m, c.segmentSize);
  }

  /** Bytes appended to the stream leave the segment files as they are. */
  lemma FilesOutlive(s: seq<byte>, p: seq<byte>, base: nat, end: nat, size: nat)
    requires 0 < size && base <= end <= |s|
    ensures FilesOf(s + p, Tiles(base, end, size)) == FilesOf(s, Tiles(base, end, size))
  {
    TilesContiguous(base, end, size);
    FilesStable(s, p, Tiles(base, end, size));
  }

  lemma AppendedWellFormed(c: Config, v: View, p: seq<byte>)
    requires WellFormed(c, v)
    ensures WellFormed(c, Appended(c, v, p))
  {
    var w := Appended(c, v, p);
    if !c.disk {
      DivMonotone(v.trim, w.trim, c.chunkSize);
    }
  }

  lemma TrimmedWellFormed(c: Config, v: View, off: nat)
    requires WellFormed(c, v)
    ensures WellFormed(c, Trimmed(c, v, off))
    ensures Trimmed(c, v, off).trim == Max(v.trim, Min(off, |v.stream|))
  {
    if v.trim < off {
      DivMonotone(v.trim, Min(off, |v.stream|), c.chunkSize);
    }
  }

  /** The pieces of a trimmed view, for an offset that moves the trim point. */
  lemma TrimmedPieces(c: Config, v: View, off: nat)
    requires WellFormed(c, v) && v.trim < off
    ensures var w, t := Trimmed(c, v, off), Min(off, |v.stream|);
            && w.stream == v.stream && w.trim == t
            && w.first == Max(v.first, Div(t, c.chunkSize))
            && MemOffset(c, w) == Max(MemOffset(c, v), t)
            && w.base == (if MemOffset(c, v) <= t then t else TrimBase(v.base, t, c.segmentSize))
  {
  }

  /** Trimming twice is trimming once to the larger offset: acknowledgements form a join. */
  lemma TrimmedJoin(c: Config, v: View, a: nat, b: nat)
    requires WellFormed(c, v)
    ensures WellFormed(c, Trimmed(c, v, a))
    ensures Trimmed(c, Trimmed(c, v, a), b) == Trimmed(c, v, Max(a, b))
  {
    TrimmedWellFormed(c, v, a);
    if v.trim < a {
      var t := Min(a, |v.stream|);
      if a < b {
        var t' := Min(b, |v.stream|);
        DivMonotone(t, t', c.chunkSize);
        if t' < MemOffset(c, v) {
          TrimBaseJoin(v.base, t, t', c.segmentSize);
        }
      }
    }
  }

  /** A list of acknowledgements processed in the order they arrive. */
  ghost function TrimmedAll(c: Config, v: View, acks: seq<nat>): (w: View)
    requires WellFormed(c, v)
    ensures WellFormed(c, w)
    decreases |acks|
  {
    if acks == [] then v
    else
      TrimmedWellFormed(c, v, acks[0]);
      TrimmedAll(c, Trimmed(c, v, acks[0]), acks[1..])
  }

  /** Any order, repetition or loss of acknowledgements ends where the largest arrival alone would. */
  lemma {:induction false} AcksAreAJoin(c: Config, v: View, acks: seq<nat>, top: nat)
    requires WellFormed(c, v)
    requires forall a :: a in acks ==> a <= top
    requires top in acks || (acks == [] && top == 0)
    ensures TrimmedAll(c, v, acks) == Trimmed(c, v, top)
    decreases |acks|
  {
    if acks != [] {
      var w := Trimmed(c, v, acks[0]);
      TrimmedWellFormed(c, v, acks[0]);
      var rest := acks[1..];
      var m := MaxOf(rest);
      AcksAreAJoin(c, w, rest, m);
      TrimmedJoin(c, v, acks[0], m);
      assert acks == [acks[0]] + rest;
      assert acks[0] in acks && (rest != [] ==> m in acks);
      assert top != acks[0] ==> top in rest;
      assert top == Max(acks[0], m);
    }
  }

  ghost function MaxOf(xs: seq<nat>): (m: nat)
    ensures forall x :: x in xs ==> x <= m
    ensures m in xs || (xs == [] && m == 0)
  {
    if xs == [] then 0
    else
      assert xs == [xs[0]] + xs[1..];
      Max(xs[0], MaxOf(xs[1..]))
  }

  // ----- What a buffer keeps -----

  /** Total size of a list of segment files. */
  function FileBytes(segs: seq<Segment>): int {
    if segs == [] then 0
    else FileBytes(segs[..|segs| - 1]) + segs[|segs| - 1].endOff - segs[|segs| - 1].startOff
  }

  lemma {:induction false} FileBytesContiguous(segs: seq<Segment>, from: nat, end: nat, size: nat, i: nat)
    requires Contiguous(segs, from, end, size) && i <= |segs|
    ensures FileBytes(segs[..i]) == if i == 0 then 0 else segs[i - 1].endOff - from
    decreases i
  {
    if 0 < i {
      FileBytesContiguous(segs, from, end, size, i - 1);
      assert segs[..i][..i - 1] == segs[..i - 1];
    }
  }

  lemma FileBytesOfTiles(from: nat, end: nat, size: nat)
    requires 0 < size && from <= end
    ensures FileBytes(Tiles(from, end, size)) == end - from
  {
    var t := Tiles(from, end, size);
    TilesContiguous(from, end, size);
    FileBytesContiguous(t, from, end, size, |t|);
    assert t[..|t|] == t;
  }

  /** The segment files occupy less than the spilled, unacknowledged bytes plus one segment. */
  lemma DiskFootprint(c: Config, v: View)
    requires WellFormed(c, v)
    ensures FileBytes(Tiles(v.base, MemOffset(c, v), c.segmentSize)) < MemOffset(c, v) - v.trim + c.segmentSize
    ensures Tiles(v.base, MemOffset(c, v), c.segmentSize) == [] <==> v.trim == MemOffset(c, v)
    ensures forall g :: g in Tiles(v.base, MemOffset(c, v), c.segmentSize) ==> v.trim < g.endOff
  {
    FileBytesOfTiles(v.base, MemOffset(c, v), c.segmentSize);
    TilesContiguous(v.base, MemOffset(c, v), c.segmentSize);
  }

  /** Digests held reach from the first one kept to the last complete chunk. */
  lemma ManifestReaches(c: Config, v: View)
    requires WellFormed(c, v)
    ensures v.first + |HashesFrom(c, v.stream, v.first)| == Div(|v.stream|, c.chunkSize)
  {
    DivMonotone(v.trim, |v.stream|, c.chunkSize);
  }

  lemma DivDifference(a: nat, b: nat, size: nat)
    requires 0 < size && a <= b
    ensures Div(a, size) <= Div(b, size) && (Div(b, size) - Div(a, size)) * size < b - a + size
  {
    DivMonotone(a, b, size);
    DivMod(a, size);
    DivMod(b, size);
    assert (Div(b, size) - Div(a, size)) * size == Div(b, size) * size - Div(a, size) * size;
  }

  /**
   On disk digests never number more than the held bytes allow: at most one chunk straddles the trim
   point. Without a disk nothing but an explicit trim drops digests, however far the window slides.
   */
  lemma ManifestBounded(c: Config, v: View)
    requires WellFormed(c, v)
    ensures v.first + |HashesFrom(c, v.stream, v.first)| == Div(|v.stream|, c.chunkSize)
    ensures c.disk ==> |HashesFrom(c, v.stream, v.first)| * c.chunkSize < |v.stream| - v.trim + c.chunkSize
  {
    hide HashesFrom, MemOffset;
    ManifestReaches(c, v);
    DivDifference(v.trim, |v.stream|, c.chunkSize);
  }

  // ----- Whole histories -----

  datatype Op = AppendOp(p: seq<byte>) | TrimOp(off: nat)

  /** The view after a list of operations, latest last. */
  ghost function After(c: Config, ops: seq<Op>): (v: View)
    requires c.Ok()
    ensures WellFormed(c, v)
  {
    if ops == [] then EmptyView
    else
      var u := After(c, ops[..|ops| - 1]);
      match ops[|ops| - 1]
      case AppendOp(p) => AppendedWellFormed(c, u, p); Appended(c, u, p)
      case TrimOp(off) => TrimmedWellFormed(c, u, off); Trimmed(c, u, off)
  }

  /** Everything appended, in order. */
  function Appends(ops: seq<Op>): seq<byte> {
    if ops == [] then []
    else
      match ops[|ops| - 1]
      case AppendOp(p) => Appends(ops[..|ops| - 1]) + p
      case TrimOp(_) => Appends(ops[..|ops| - 1])
  }

  /** No operation loses or reorders bytes, and the trim point only rises, never past the end. */
  lemma {:induction false} HistoryKeeps(c: Config, ops: seq<Op>, k: nat)
    requires c.Ok() && k <= |ops|
    ensures After(c, ops).stream == Appends(ops)
    ensures After(c, ops[..k]).stream <= After(c, ops).stream
    ensures After(c, ops[..k]).trim <= After(c, ops).trim <= |Appends(ops)|
    decreases |ops|
  {
    if k < |ops| {
      var front := ops[..|ops| - 1];
      HistoryKeeps(c, front, k);
      assert front[..k] == ops[..k];
      var u := After(c, front);
      match ops[|ops| - 1]
      case AppendOp(p) => AppendedWellFormed(c, u, p);
      case TrimOp(off) => TrimmedWellFormed(c, u, off);
    } else {
      assert ops[..k] == ops;
      if ops != [] {
        HistoryKeeps(c, ops[..|ops| - 1], |ops| - 1);
      }
    }
  }

  /** The largest offset acknowledged. */
  function Acked(ops: seq<Op>): nat {
    if ops == [] then 0
    else
      match ops[|ops| - 1]
      case AppendOp(_) => Acked(ops[..|ops| - 1])
      case TrimOp(off) => Max(Acked(ops[..|ops| - 1]), off)
  }

  /**
   A buffer gives up nothing but what was acknowledged and, without a disk, what lies more than the RAM
   tail back; and without a disk it does give that up.
   */
  lemma {:induction false} NothingForgotten(c: Config, ops: seq<Op>)
    requires c.Ok()
    ensures After(c, ops).trim <= Max(Acked(ops), if c.disk then 0 else |Appends(ops)| - c.ramTail)
    ensures !c.disk ==> |Appends(ops)| - c.ramTail <= After(c, ops).trim
    decreases |ops|
  {
    if ops != [] {
      var front := ops[..|ops| - 1];
      NothingForgotten(c, front);
      HistoryKeeps(c, ops, |front|);
      HistoryKeeps(c, front, |front|);
      StepForgets(c, After(c, front), ops[|ops| - 1], Acked(front));
      hide Appended, Trimmed, WellFormed;
    }
  }

  /** One operation more. */
  lemma StepForgets(c: Config, u: View, op: Op, acked: nat)
    requires WellFormed(c, u) && u.trim <= Max(acked, if c.disk then 0 else |u.stream| - c.ramTail)
    requires !c.disk ==> |u.stream| - c.ramTail <= u.trim
    ensures var v := if op.AppendOp? then Appended(c, u, op.p) else Trimmed(c, u, op.off);
            && v.trim <= Max(if op.TrimOp? then Max(acked, op.off) else acked, if c.disk then 0 else |v.stream| - c.ramTail)
            && (!c.disk ==> |v.stream| - c.ramTail <= v.trim)
  {
    if op.TrimOp? {
      TrimmedWellFormed(c, u, op.off);
    }
  }

  /** A trim that moves the trim point leaves the digests from the chunk it lies in on. */
  lemma TrimmedDigests(c: Config, v: View, off: nat)
    requires WellFormed(c, v) && v.trim < off
    ensures Trimmed(c, v, off).first == Div(Min(off, |v.stream|), c.chunkSize)
  {
    TrimmedWellFormed(c, v, off);
  }

  /** The same RAM window; on disk the same digests; without one, the same wherever both lists reach. */
  ghost predicate SameHeld(c: Config, v: View, w: View)
    requires WellFormed(c, v) && WellFormed(c, w)
  {
    && MemOffset(c, v) == MemOffset(c, w)
    && v.stream[MemOffset(c, v)..] == w.stream[MemOffset(c, w)..]
    && (c.disk ==> v.first == w.first)
    && (v.first <= w.first ==>
          && w.first - v.first <= |HashesFrom(c, v.stream, v.first)|
          && HashesFrom(c, v.stream, v.first)[w.first - v.first..] == HashesFrom(c, w.stream, w.first))
  }

  lemma SameViewParts(c: Config, v: View, w: View)
    requires WellFormed(c, v) && WellFormed(c, w) && v.stream == w.stream && v.trim == w.trim
    ensures SameHeld(c, v, w)
  {
    ManifestReaches(c, v);
    ManifestReaches(c, w);
    if v.first <= w.first {
      HashesDrop(c, v.stream, v.first, w.first);
    }
  }

  /**
   However the same bytes were cut into appends and however acknowledgements were interleaved, two
   histories with the same trim point hold the same window and digests.
   */
  lemma HistoryIndependent(c: Config, ops: seq<Op>, ops': seq<Op>)
    requires c.Ok()
    requires Appends(ops) == Appends(ops') && After(c, ops).trim == After(c, ops').trim
    ensures SameHeld(c, After(c, ops), After(c, ops'))
  {
    HistoryKeeps(c, ops, |ops|);
    HistoryKeeps(c, ops', |ops'|);
    SameViewParts(c, After(c, ops), After(c, ops'));
  }
}
