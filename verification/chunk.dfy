/** `internal/chunk/chunk.go`: chunk manifests and the resend rule. */
module Chunks {
  import opened Bytes
  import opened History

  /** One side's view of the stream: its length and the digests of the chunks from `first` on. */
  datatype Manifest = Manifest(total: nat, first: nat, hashes: seq<Hash>)

  /** The manifest of a buffer that nobody touches while it is read. */
  function ManifestOf(c: Config, v: View): Manifest
    requires c.Ok()
  {
    Manifest(|v.stream|, v.first, HashesFrom(c, v.stream, v.first))
  }

  /** uint64 wrap-around, by repeated subtraction so that products need no division. */
  function Wrap(x: nat): (w: nat)
    ensures w <= x && w < U64
  {
    if x < U64 then x else Wrap(x - U64)
  }

  lemma {:induction false} WrapIsModulo(x: nat)
    ensures Wrap(x) == x % U64
  {
    if U64 <= x {
      WrapIsModulo(x - U64);
      assert x % U64 == (x - U64) % U64;
    }
  }

  function EndIndex(m: Manifest): nat {
    Wrap(m.first + |m.hashes|)
  }

  /** The chunk indices both manifests cover. */
  function OverlapStart(own: Manifest, peer: Manifest): nat {
    Max(own.first, peer.first)
  }

  function OverlapEnd(own: Manifest, peer: Manifest): nat {
    Min(EndIndex(own), EndIndex(peer))
  }

  ghost predicate SameDigest(own: Manifest, peer: Manifest, i: nat) {
    && own.first <= i < own.first + |own.hashes|
    && peer.first <= i < peer.first + |peer.hashes|
    && own.hashes[i - own.first] == peer.hashes[i - peer.first]
  }

  /** `d` is the first index of the overlap where the digests differ, or its end. */
  ghost predicate Diverges(own: Manifest, peer: Manifest, d: nat) {
    var start, end := OverlapStart(own, peer), OverlapEnd(own, peer);
    && (forall i :: start <= i < d ==> SameDigest(own, peer, i))
    && (if end <= start then d == end else start <= d <= end && (d < end ==> !SameDigest(own, peer, d)))
  }

  lemma DivergesUnique(own: Manifest, peer: Manifest, d: nat, d': nat)
    requires Diverges(own, peer, d) && Diverges(own, peer, d')
    ensures d == d'
  {
  }

  /** The byte offset of a chunk. */
  function ChunkOffset(i: nat, chunkSize: nat): (off: nat)
    ensures off <= i * chunkSize
  {
    Wrap(i * chunkSize)
  }

  /** Both are computed in uint64 arithmetic. */
  lemma ModularOffsets(m: Manifest, i: nat, chunkSize: nat)
    ensures EndIndex(m) == (m.first + |m.hashes|) % U64
    ensures ChunkOffset(i, chunkSize) == (i * chunkSize) % U64
  {
    WrapIsModulo(m.first + |m.hashes|);
    WrapIsModulo(i * chunkSize);
  }

  function LastChunkStart(own: Manifest, chunkSize: nat): nat {
    if EndIndex(own) > 0 then ChunkOffset(EndIndex(own) - 1, chunkSize) else 0
  }

  /** The divergence point as a function, for use where a method cannot be called. */
  function Divergence(own: Manifest, peer: Manifest, i: nat): (d: nat)
    requires OverlapStart(own, peer) <= i
    requires forall j :: OverlapStart(own, peer) <= j < i ==> SameDigest(own, peer, j)
    requires OverlapStart(own, peer) < OverlapEnd(own, peer) ==> i <= OverlapEnd(own, peer)
    ensures Diverges(own, peer, d)
    decreases OverlapEnd(own, peer) - i
  {
    if OverlapEnd(own, peer) <= i then OverlapEnd(own, peer)
    else if own.hashes[i - own.first] != peer.hashes[i - peer.first] then i
    else Divergence(own, peer, i + 1)
  }

  /** How far the two manifests agree. */
  function Agreement(own: Manifest, peer: Manifest): (d: nat)
    ensures Diverges(own, peer, d)
  {
    Divergence(own, peer, OverlapStart(own, peer))
  }

  lemma AgreementUnique(own: Manifest, peer: Manifest, d: nat)
    requires Diverges(own, peer, d)
    ensures d == Agreement(own, peer)
  {
    DivergesUnique(own, peer, d, Agreement(own, peer));
  }

  /** The value `ResendFrom` returns. */
  function Resend(own: Manifest, peer: Manifest, chunkSize: nat): nat {
    Min(ChunkOffset(Agreement(own, peer), chunkSize), LastChunkStart(own, chunkSize))
  }

  /**
   Where to start resending: the first divergent chunk, or the sender's last complete chunk if
   that is lower. Any two manifests are accepted, even ones whose sums wrap around.
   */
  method ResendFrom(own: Manifest, peer: Manifest, chunkSize: nat) returns (r: nat)
    ensures r == Resend(own, peer, chunkSize)
    ensures forall d: nat :: Diverges(own, peer, d) ==>
              r == if EndIndex(own) == 0 then 0 else Min(ChunkOffset(d, chunkSize), ChunkOffset(EndIndex(own) - 1, chunkSize))
  {
    var ownEnd := EndIndex(own);
    var peerEnd := EndIndex(peer);
    var startIndex := own.first;
    if peer.first > startIndex {
      startIndex := peer.first;
    }
    var endIndex := ownEnd;
    if peerEnd < endIndex {
      endIndex := peerEnd;
    }
    var divergent := FirstDivergent(own, peer, startIndex, endIndex);
    r := ChunkOffset(divergent, chunkSize);
    var lastChunkStart := 0;
    if ownEnd > 0 {
      lastChunkStart := ChunkOffset(ownEnd - 1, chunkSize);
    }
    if lastChunkStart < r {
      r := lastChunkStart;
    }
    forall d: nat | Diverges(own, peer, d)
      ensures d == Agreement(own, peer)
    {
      AgreementUnique(own, peer, d);
    }
  }

  /**
   The ragged-edge guard: whatever the peer claims to agree on, the sender's last complete chunk is
   sent again, and a sender without a complete chunk starts from 0.
   */
  lemma RaggedEdge(own: Manifest, peer: Manifest, chunkSize: nat, d: nat)
    requires Diverges(own, peer, d) && d * chunkSize < U64
    requires own.first + |own.hashes| < U64 && (own.first + |own.hashes|) * chunkSize < U64
    ensures own.first + |own.hashes| == 0 ==> Resend(own, peer, chunkSize) == 0
    ensures 0 < own.first + |own.hashes| ==>
              var last := (own.first + |own.hashes| - 1) * chunkSize;
              Resend(own, peer, chunkSize) <= last && Resend(own, peer, chunkSize) == Min(d * chunkSize, last)
  {
    var end := own.first + |own.hashes|;
    AgreementUnique(own, peer, d);
    if 0 < end {
      MulMonotone(end - 1, end, chunkSize);
    }
  }

  /** A chunk that both sides have with different digests is sent again, and all that follows it. */
  lemma DivergentResent(own: Manifest, peer: Manifest, chunkSize: nat, i: nat)
    requires own.first <= i < own.first + |own.hashes| < U64 && peer.first <= i < peer.first + |peer.hashes| < U64
    requires own.hashes[i - own.first] != peer.hashes[i - peer.first] && i * chunkSize < U64
    ensures Resend(own, peer, chunkSize) <= i * chunkSize
  {
    var d := Agreement(own, peer);
    assert EndIndex(own) == own.first + |own.hashes| && EndIndex(peer) == peer.first + |peer.hashes|;
    assert !SameDigest(own, peer, i);
    MulMonotone(d, i, chunkSize);
  }

  /** Where all digests both sides have are equal, only the sender's last complete chunk is sent twice. */
  lemma AgreedSkipped(own: Manifest, peer: Manifest, chunkSize: nat)
    requires var start, end := Max(own.first, peer.first), Min(own.first + |own.hashes|, peer.first + |peer.hashes|);
             && own.first + |own.hashes| < U64 && peer.first + |peer.hashes| < U64 && start < end
             && (own.first + |own.hashes|) * chunkSize < U64
             && own.hashes[start - own.first..end - own.first] == peer.hashes[start - peer.first..end - peer.first]
    ensures var end := Min(own.first + |own.hashes|, peer.first + |peer.hashes|);
            Resend(own, peer, chunkSize) == Min(end * chunkSize, (own.first + |own.hashes| - 1) * chunkSize)
  {
    var end := Min(own.first + |own.hashes|, peer.first + |peer.hashes|);
    Agreed(own, peer, end);
    hide Diverges, Resend;
    MulMonotone(end, own.first + |own.hashes|, chunkSize);
    RaggedEdge(own, peer, chunkSize, end);
  }

  lemma Agreed(own: Manifest, peer: Manifest, end: nat)
    requires own.first + |own.hashes| < U64 && peer.first + |peer.hashes| < U64
    requires end == Min(own.first + |own.hashes|, peer.first + |peer.hashes|)
    requires var start := Max(own.first, peer.first);
             start < end && own.hashes[start - own.first..end - own.first] == peer.hashes[start - peer.first..end - peer.first]
    ensures Diverges(own, peer, end)
  {
    var start := Max(own.first, peer.first);
    forall i | start <= i < end
      ensures SameDigest(own, peer, i)
    {
      assert own.hashes[i - own.first] == own.hashes[start - own.first..end - own.first][i - start];
      assert peer.hashes[i - peer.first] == peer.hashes[start - peer.first..end - peer.first][i - start];
    }
  }

  /** The comparison loop of `ResendFrom`: every index it uses lies inside both digest lists. */
  method FirstDivergent(own: Manifest, peer: Manifest, startIndex: nat, endIndex: nat) returns (divergent: nat)
    requires startIndex == OverlapStart(own, peer) && endIndex == OverlapEnd(own, peer)
    ensures divergent == Agreement(own, peer)
  {
    divergent := endIndex;
    var i := startIndex;
    while i < endIndex
      invariant startIndex <= i && (startIndex < endIndex ==> i <= endIndex)
      invariant forall j :: startIndex <= j < i ==> SameDigest(own, peer, j)
      invariant divergent == endIndex
    {
      if own.hashes[i - own.first] != peer.hashes[i - peer.first] {
        divergent := i;
        break;
      }
      i := i + 1;
    }
    AgreementUnique(own, peer, divergent);
  }

  /**
   Whatever the sender's own manifest says, torn across its three locks or not, the resend point
   is no further than the peer's last complete chunk reaches.
   */
  lemma ResendWithinPeer(own: Manifest, peer: Manifest, chunkSize: nat)
    ensures Resend(own, peer, chunkSize) <= EndIndex(peer) * chunkSize
    ensures Resend(own, peer, chunkSize) <= (peer.first + |peer.hashes|) * chunkSize
  {
    var d := Agreement(own, peer);
    assert d <= EndIndex(peer);
    MulMonotone(d, EndIndex(peer), chunkSize);
    MulMonotone(EndIndex(peer), peer.first + |peer.hashes|, chunkSize);
  }

  /** A truthful manifest never claims more than its stream holds. */
  lemma ManifestWithinStream(c: Config, v: View)
    requires WellFormed(c, v)
    ensures var m := ManifestOf(c, v);
            m.first + |m.hashes| == Div(|v.stream|, c.chunkSize) && (m.first + |m.hashes|) * c.chunkSize <= |v.stream|
  {
    DivMonotone(v.trim, |v.stream|, c.chunkSize);
    DivMod(|v.stream|, c.chunkSize);
  }

  /** Digests of a prefix are a prefix of the digests: both sides agree wherever both have one. */
  lemma PrefixAgrees(dc: Config, dv: View, cc: Config, cv: View, i: nat)
    requires WellFormed(dc, dv) && WellFormed(cc, cv)
    requires dc.chunkSize == cc.chunkSize && dc.H == cc.H
    requires cv.stream <= dv.stream
    requires var own, peer := ManifestOf(dc, dv), ManifestOf(cc, cv);
             OverlapStart(own, peer) <= i < peer.first + |peer.hashes| && i < own.first + |own.hashes|
    ensures SameDigest(ManifestOf(dc, dv), ManifestOf(cc, cv), i)
  {
    var x := dv.stream[|cv.stream|..];
    assert dv.stream == cv.stream + x;
    ManifestWithinStream(dc, dv);
    ManifestWithinStream(cc, cv);
    HashesAt(cc, cv.stream, cv.first, i - cv.first);
    HashesAt(dc, dv.stream, dv.first, i - dv.first);
    ChunkAtStable(cv.stream, x, i, cc.chunkSize);
  }

  lemma QuotientSmall(a: nat, d: nat)
    requires 0 < d
    ensures Div(a, d) <= a
  {
    DivMod(a, d);
    MulMonotone(1, d, Div(a, d));
  }

  lemma TruthfulEnd(c: Config, v: View)
    requires WellFormed(c, v) && |v.stream| < U64
    ensures EndIndex(ManifestOf(c, v)) == Div(|v.stream|, c.chunkSize)
  {
    ManifestWithinStream(c, v);
    QuotientSmall(|v.stream|, c.chunkSize);
  }

  /** Truthful manifests agree up to the last complete chunk of the shorter stream. */
  lemma TruthfulAgreement(dc: Config, dv: View, cc: Config, cv: View)
    requires WellFormed(dc, dv) && WellFormed(cc, cv)
    requires dc.disk && cv.first == 0
    requires dc.chunkSize == cc.chunkSize && dc.H == cc.H
    requires cv.stream <= dv.stream && dv.trim <= |cv.stream| && |dv.stream| < U64
    ensures Agreement(ManifestOf(dc, dv), ManifestOf(cc, cv)) == Div(|cv.stream|, cc.chunkSize)
  {
    var own, peer := ManifestOf(dc, dv), ManifestOf(cc, cv);
    TruthfulEnd(dc, dv);
    TruthfulEnd(cc, cv);
    ManifestWithinStream(dc, dv);
    ManifestWithinStream(cc, cv);
    DivMonotone(|cv.stream|, |dv.stream|, cc.chunkSize);
    DivMonotone(dv.trim, |cv.stream|, cc.chunkSize);
    var d := Agreement(own, peer);
    if OverlapStart(own, peer) <= d < OverlapEnd(own, peer) {
      PrefixAgrees(dc, dv, cc, cv, d);
    }
  }

  /** The arithmetic of the rule: q and Q complete chunks on the two sides, q <= Q. */
  lemma ResendArithmetic(len: nat, q: nat, Q: nat, size: nat)
    requires q <= Q && q * size <= len < q * size + size && len < U64 && Q * size < U64
    ensures var r := Min(ChunkOffset(q, size), if Q > 0 then ChunkOffset(Q - 1, size) else 0);
            r <= len && len - r < 2 * size
  {
    if 0 < Q {
      assert Q * size == (Q - 1) * size + size;
      if q < Q {
        MulMonotone(q, Q - 1, size);
      }
    }
  }

  /**
   Truthful manifests, the client's stream a prefix of the daemon's and nothing it misses trimmed:
   the clamped resend point lies within [trim, client length], less than two chunks back.
   */
  lemma ResendPointCorrect(dc: Config, dv: View, cc: Config, cv: View)
    requires WellFormed(dc, dv) && WellFormed(cc, cv)
    requires dc.disk && cv.first == 0
    requires dc.chunkSize == cc.chunkSize && dc.H == cc.H
    requires cv.stream <= dv.stream && dv.trim <= |cv.stream| && |dv.stream| < U64
    ensures var r := Max(Resend(ManifestOf(dc, dv), ManifestOf(cc, cv), dc.chunkSize), dv.trim);
            dv.trim <= r <= |cv.stream| && |cv.stream| - r < 2 * dc.chunkSize
  {
    var q, Q := Div(|cv.stream|, dc.chunkSize), Div(|dv.stream|, dc.chunkSize);
    TruthfulAgreement(dc, dv, cc, cv);
    TruthfulEnd(dc, dv);
    DivMonotone(|cv.stream|, |dv.stream|, dc.chunkSize);
    DivMod(|cv.stream|, dc.chunkSize);
    DivMod(|dv.stream|, dc.chunkSize);
    ResendArithmetic(|cv.stream|, q, Q, dc.chunkSize);
  }

  /**
   For truthful manifests the rule is exact: a client that is behind is sent everything from its last
   complete chunk's end, and one that is level again a whole chunk and its tail.
   */
  lemma ResendExact(dc: Config, dv: View, cc: Config, cv: View)
    requires WellFormed(dc, dv) && WellFormed(cc, cv)
    requires dc.disk && cv.first == 0
    requires dc.chunkSize == cc.chunkSize && dc.H == cc.H
    requires cv.stream <= dv.stream && dv.trim <= |cv.stream| && |dv.stream| < U64
    ensures var r := Resend(ManifestOf(dc, dv), ManifestOf(cc, cv), dc.chunkSize);
            var q, Q := Div(|cv.stream|, dc.chunkSize), Div(|dv.stream|, dc.chunkSize);
            && (q < Q ==> r == q * dc.chunkSize)
            && (q == Q > 0 ==> r == (q - 1) * dc.chunkSize && |cv.stream| - r >= dc.chunkSize)
            && (Q == 0 ==> r == 0)
  {
    var q, Q := Div(|cv.stream|, dc.chunkSize), Div(|dv.stream|, dc.chunkSize);
    TruthfulAgreement(dc, dv, cc, cv);
    ManifestWithinStream(dc, dv);
    QuotientSmall(|dv.stream|, dc.chunkSize);
    DivMonotone(|cv.stream|, |dv.stream|, dc.chunkSize);
    DivMod(|cv.stream|, dc.chunkSize);
    MulMonotone(q, Q, dc.chunkSize);
    RaggedEdge(ManifestOf(dc, dv), ManifestOf(cc, cv), dc.chunkSize, q);
    if q < Q {
      MulMonotone(q, Q - 1, dc.chunkSize);
    } else if 0 < q {
      MulNext(q - 1, dc.chunkSize);
    }
  }

  /** The clamp stays at or below the client's length exactly when the client has everything trimmed. */
  lemma ClampReachesClient(own: Manifest, peer: Manifest, chunkSize: nat, trim: nat, len: nat)
    requires (peer.first + |peer.hashes|) * chunkSize <= len
    ensures Max(Resend(own, peer, chunkSize), trim) <= len <==> trim <= len
  {
    ResendWithinPeer(own, peer, chunkSize);
  }
}
