/**
 `ScanSegments`: the directory listing a replay daemon starts from. A file is named by the start
 offset of the bytes it holds; the listing is sorted by that offset.
 */
module SegmentFiles {
  import opened Bytes
  import opened History

  /** A segment file found on disk: its name's offset, that plus its size, and its contents. */
  datatype SegmentInfo = SegmentInfo(startOff: nat, endOff: nat, data: seq<byte>)

  ghost predicate Sorted(out: seq<SegmentInfo>) {
    forall i, j :: 0 <= i < j < |out| ==> out[i].startOff < out[j].startOff
  }

  /** The entry `Stat` yields for a file. */
  ghost predicate IsEntry(g: SegmentInfo, files: map<nat, seq<byte>>) {
    g.startOff in files && g.data == files[g.startOff] && g.endOff == g.startOff + |g.data|
  }

  /** Every entry describes its file, and every file has an entry. */
  ghost predicate Lists(out: seq<SegmentInfo>, files: map<nat, seq<byte>>) {
    forall g :: g in out <==> IsEntry(g, files)
  }

  /** Puts one entry in its place in a sorted listing. */
  method Insert(out: seq<SegmentInfo>, g: SegmentInfo) returns (r: seq<SegmentInfo>)
    requires Sorted(out) && forall h :: h in out ==> h.startOff != g.startOff
    ensures Sorted(r) && forall h :: h in r <==> h in out || h == g
  {
    var i := 0;
    while i < |out| && out[i].startOff < g.startOff
      invariant i <= |out| && forall j :: 0 <= j < i ==> out[j].startOff < g.startOff
    {
      i := i + 1;
    }
    assert i < |out| ==> out[i] in out && g.startOff < out[i].startOff;
    r := out[..i] + [g] + out[i..];
    Inserted(out, g, i);
  }

  lemma Inserted(out: seq<SegmentInfo>, g: SegmentInfo, i: nat)
    requires Sorted(out) && i <= |out| && (forall j :: 0 <= j < i ==> out[j].startOff < g.startOff)
    requires i < |out| ==> g.startOff < out[i].startOff
    ensures Sorted(out[..i] + [g] + out[i..])
    ensures forall h :: h in out[..i] + [g] + out[i..] <==> h in out || h == g
  {
    var r := out[..i] + [g] + out[i..];
    assert out == out[..i] + out[i..];
    assert forall j :: 0 <= j < |r| ==> r[j] == if j < i then out[j] else if j == i then g else out[j - 1];
  }

  /** Lists the files in whatever order the directory yields them, sorted by start offset. */
  method ScanSegments(files: map<nat, seq<byte>>) returns (out: seq<SegmentInfo>)
    ensures Sorted(out) && Lists(out, files)
  {
    out := [];
    var names := files.Keys;
    while names != {}
      invariant names <= files.Keys && Sorted(out)
      invariant forall g :: g in out <==> IsEntry(g, files) && g.startOff !in names
      decreases |names|
    {
      var k: nat :| k in names;
      out := Insert(out, SegmentInfo(k, k + |files[k]|, files[k]));
      names := names - {k};
    }
  }

  /** The listing of a buffer closed with its files kept. */
  function TileInfos(s: seq<byte>, from: nat, size: nat): seq<SegmentInfo>
    requires 0 < size
    decreases |s| - from
  {
    if |s| <= from then []
    else
      var e := Min(from + size, |s|);
      [SegmentInfo(from, e, s[from..e])] + TileInfos(s, e, size)
  }

  /** The entries cover the stream from `from` to its end, in order, without gaps, with its bytes. */
  ghost predicate Covers(segs: seq<SegmentInfo>, s: seq<byte>, from: nat)
    decreases |segs|
  {
    if segs == [] then from == |s|
    else
      && segs[0].startOff == from < segs[0].endOff <= |s|
      && segs[0].data == s[from..segs[0].endOff]
      && Covers(segs[1..], s, segs[0].endOff)
  }

  lemma {:induction false} TileInfosCover(s: seq<byte>, from: nat, size: nat)
    requires 0 < size && from <= |s|
    ensures Covers(TileInfos(s, from, size), s, from)
    decreases |s| - from
  {
    if from < |s| {
      TileInfosCover(s, Min(from + size, |s|), size);
    }
  }

  /** A sorted listing is unique. */
  lemma {:induction false} SortedUnique(a: seq<SegmentInfo>, b: seq<SegmentInfo>)
    requires Sorted(a) && Sorted(b) && forall g :: g in a <==> g in b
    ensures a == b
    decreases |a|
  {
    if a == [] {
      assert forall i :: 0 <= i < |b| ==> b[i] !in b;
    } else {
      assert a[0] in a && b[0] in b;
      var i :| 0 <= i < |b| && b[i] == a[0];
      var j :| 0 <= j < |a| && a[j] == b[0];
      assert i == 0 && j == 0;
      assert a == [a[0]] + a[1..] && b == [b[0]] + b[1..];
      assert a[0] !in a[1..] && b[0] !in b[1..];
      forall g
        ensures g in a[1..] <==> g in b[1..]
      {
        assert g in a <==> g == a[0] || g in a[1..];
        assert g in b <==> g == a[0] || g in b[1..];
      }
      SortedUnique(a[1..], b[1..]);
    }
  }

  /** The files `Close(false)` leaves behind, scanned, are the tiles of the stream. */
  lemma ScanOfClosed(s: seq<byte>, base: nat, size: nat, out: seq<SegmentInfo>)
    requires 0 < size && base <= |s|
    requires Sorted(out) && Lists(out, FilesOf(s, Tiles(base, |s|, size)))
    ensures out == TileInfos(s, base, size) && Covers(out, s, base)
  {
    TileInfosListed(s, base, size);
    SortedUnique(out, TileInfos(s, base, size));
    TileInfosCover(s, base, size);
  }

  lemma {:induction false} TileInfosAre(s: seq<byte>, base: nat, size: nat)
    requires 0 < size && base <= |s|
    ensures var t, u := Tiles(base, |s|, size), TileInfos(s, base, size);
            |t| == |u| && forall i :: 0 <= i < |t| ==>
              u[i].startOff == t[i].startOff && u[i].endOff == t[i].endOff && u[i].data == Slice(s, t[i].startOff, t[i].endOff)
    decreases |s| - base
  {
    if base < |s| {
      TileInfosAre(s, Min(base + size, |s|), size);
    }
  }

  lemma TileInfosSorted(s: seq<byte>, base: nat, size: nat)
    requires 0 < size && base <= |s|
    ensures Sorted(TileInfos(s, base, size))
    ensures forall g :: g in TileInfos(s, base, size) ==> IsEntry(g, FilesOf(s, Tiles(base, |s|, size)))
  {
    var t, u := Tiles(base, |s|, size), TileInfos(s, base, size);
    TilesContiguous(base, |s|, size);
    TileInfosAre(s, base, size);
    forall i | 0 <= i < |u|
      ensures IsEntry(u[i], FilesOf(s, t))
    {
      FilesLookup(s, t, i);
    }
  }

  lemma TileInfosListed(s: seq<byte>, base: nat, size: nat)
    requires 0 < size && base <= |s|
    ensures Sorted(TileInfos(s, base, size))
    ensures Lists(TileInfos(s, base, size), FilesOf(s, Tiles(base, |s|, size)))
  {
    var t, u, files := Tiles(base, |s|, size), TileInfos(s, base, size), FilesOf(s, Tiles(base, |s|, size));
    TileInfosSorted(s, base, size);
    TileInfosAre(s, base, size);
    forall g | IsEntry(g, files)
      ensures g in u
    {
      FilesKeys(s, t, g.startOff);
      var i :| 0 <= i < |t| && t[i].startOff == g.startOff;
      assert IsEntry(u[i], files);
      assert g == u[i];
    }
  }
}
