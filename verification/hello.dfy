/** The HELLO / HELLO_ACK payload codec of `internal/chunk/chunk.go`. */
module Hellos {
  import opened Bytes
  import opened Chunks
  import Proto

  datatype Hello = Hello(major: byte, minor: byte, mode: byte, sessionID: seq<byte>, output: Manifest, altScreen: bool)

  datatype CodecError = SessionIdTooLong | PayloadTooShort | SessionIdTruncated | ManifestTruncated | HashesTruncated

  /** Field widths the Go types impose: uint64 counters and 32-byte digests. */
  predicate Typed(h: Hello) {
    && h.output.total < U64
    && h.output.first < U64
    && forall d :: d in h.output.hashes ==> |d| == HASH_SIZE
  }

  function Flat(hs: seq<Hash>): seq<byte> {
    if hs == [] then [] else hs[0] + Flat(hs[1..])
  }

  function Unflat(p: seq<byte>, n: nat): (hs: seq<Hash>)
    requires n * HASH_SIZE <= |p|
    ensures |hs| == n
  {
    if n == 0 then [] else [p[..HASH_SIZE]] + Unflat(p[HASH_SIZE..], n - 1)
  }

  lemma {:induction false} FlatLength(hs: seq<Hash>)
    requires forall d :: d in hs ==> |d| == HASH_SIZE
    ensures |Flat(hs)| == |hs| * HASH_SIZE
  {
    if hs != [] {
      assert hs[0] in hs;
      FlatLength(hs[1..]);
    }
  }

  lemma {:induction false} UnflatFlat(hs: seq<Hash>, rest: seq<byte>)
    requires forall d :: d in hs ==> |d| == HASH_SIZE
    ensures |hs| * HASH_SIZE <= |Flat(hs) + rest| && Unflat(Flat(hs) + rest, |hs|) == hs
  {
    FlatLength(hs);
    if hs != [] {
      assert hs[0] in hs;
      UnflatFlat(hs[1..], rest);
      assert Flat(hs) + rest == hs[0] + (Flat(hs[1..]) + rest);
    }
  }

  /** Version, mode and session id; an unset major selects this build's version. */
  function Preamble(h: Hello): (p: seq<byte>)
    requires |h.sessionID| <= 255
    ensures |p| == 4 + |h.sessionID|
  {
    [if h.major == 0 then Proto.PROTOCOL_MAJOR else h.major,
     if h.major == 0 && h.minor == 0 then Proto.PROTOCOL_MINOR else h.minor,
     h.mode, |h.sessionID| as byte] + h.sessionID
  }

  function ManifestHeader(m: Manifest): (p: seq<byte>)
    requires m.total < U64 && m.first < U64
    ensures |p| == 20
  {
    BE64(m.total) + BE64(m.first) + BE32(|m.hashes| % U32)
  }

  /** Everything but the alt-screen byte. */
  function Body(h: Hello): seq<byte>
    requires Typed(h) && |h.sessionID| <= 255
  {
    Preamble(h) + ManifestHeader(h.output) + Flat(h.output.hashes)
  }

  function Encoded(h: Hello): seq<byte>
    requires Typed(h) && |h.sessionID| <= 255
  {
    Body(h) + [if h.altScreen then 1 else 0]
  }

  /** Appends the digests one after the other. */
  method AppendHashes(front: seq<byte>, hs: seq<Hash>) returns (payload: seq<byte>)
    ensures payload == front + Flat(hs)
  {
    payload := front;
    assert hs[0..] == hs;
    for i := 0 to |hs|
      invariant payload + Flat(hs[i..]) == front + Flat(hs)
    {
      assert hs[i..][1..] == hs[i + 1..];
      Regroup(payload, hs[i], Flat(hs[i + 1..]));
      payload := payload + hs[i];
    }
  }

  method Encode(h: Hello) returns (r: Result<seq<byte>, CodecError>)
    requires Typed(h)
    ensures r == if |h.sessionID| > 255 then Err(SessionIdTooLong) else Ok(Encoded(h))
  {
    if |h.sessionID| > 255 {
      return Err(SessionIdTooLong);
    }
    var major := h.major;
    if major == 0 {
      major := Proto.PROTOCOL_MAJOR;
    }
    var minor := h.minor;
    if minor == 0 && h.major == 0 {
      minor := Proto.PROTOCOL_MINOR;
    }
    var payload := [major, minor, h.mode, |h.sessionID| as byte];
    payload := payload + h.sessionID;
    payload := payload + BE64(h.output.total) + BE64(h.output.first) + BE32(|h.output.hashes| % U32);
    assert payload == Preamble(h) + ManifestHeader(h.output);
    payload := AppendHashes(payload, h.output.hashes);
    if h.altScreen {
      payload := payload + [1];
    } else {
      payload := payload + [0];
    }
    return Ok(payload);
  }

  /** The fields of a payload, or the first thing found missing. A trailing alt-screen byte is optional. */
  function Decoded(p: seq<byte>): Result<Hello, CodecError> {
    if |p| < 4 then Err(PayloadTooShort)
    else if |p| < 4 + p[3] as nat then Err(SessionIdTruncated)
    else
      var n := p[3] as nat;
      DecodedManifest(p[0], p[1], p[2], p[4..4 + n], p[4 + n..])
  }

  function DecodedManifest(major: byte, minor: byte, mode: byte, sid: seq<byte>, m: seq<byte>): Result<Hello, CodecError> {
    if |m| < 20 then Err(ManifestTruncated)
    else
      var count := FromBE32(m[16..20]);
      if |m| - 20 < count * HASH_SIZE then Err(HashesTruncated)
      else
        var rest := m[20 + count * HASH_SIZE..];
        Ok(Hello(major, minor, mode, sid,
                 Manifest(FromBE64(m[0..8]), FromBE64(m[8..16]), Unflat(m[20..], count)),
                 |rest| >= 1 && rest[0] != 0))
  }

  /** Reads `n` digests and leaves the rest. */
  method TakeHashes(d: seq<byte>, n: nat) returns (hashes: seq<Hash>, p: seq<byte>)
    requires n * HASH_SIZE <= |d|
    ensures hashes == Unflat(d, n) && p == d[n * HASH_SIZE..]
  {
    hashes, p := [], d;
    for j := 0 to n
      invariant |p| >= (n - j) * HASH_SIZE && p == d[j * HASH_SIZE..]
      invariant hashes + Unflat(p, n - j) == Unflat(d, n)
    {
      hashes := hashes + [p[..HASH_SIZE]];
      p := p[HASH_SIZE..];
    }
  }

  method DecodeHello(payload: seq<byte>) returns (r: Result<Hello, CodecError>)
    ensures r == Decoded(payload)
  {
    var p := payload;
    if |p| < 4 {
      return Err(PayloadTooShort);
    }
    var sidLen := p[3] as nat;
    p := p[4..];
    if |p| < sidLen {
      return Err(SessionIdTruncated);
    }
    var sid := p[..sidLen];
    p := p[sidLen..];
    assert sid == payload[4..4 + sidLen] && p == payload[4 + sidLen..];
    ghost var m := p;
    if |p| < 20 {
      return Err(ManifestTruncated);
    }
    var total, first, n := FromBE64(p[0..8]), FromBE64(p[8..16]), FromBE32(p[16..20]);
    p := p[20..];
    if |p| < n * HASH_SIZE {
      return Err(HashesTruncated);
    }
    var hashes;
    hashes, p := TakeHashes(p, n);
    assert p == m[20 + n * HASH_SIZE..];
    var alt := false;
    if |p| >= 1 {
      alt := p[0] != 0;
    }
    return Ok(Hello(payload[0], payload[1], payload[2], sid, Manifest(total, first, hashes), alt));
  }

  lemma EncodedLength(h: Hello)
    requires Typed(h) && |h.sessionID| <= 255
    ensures |Encoded(h)| == 25 + |h.sessionID| + |h.output.hashes| * HASH_SIZE
  {
    FlatLength(h.output.hashes);
  }

  lemma Within(p: seq<byte>, at: nat, f: seq<byte>, j: nat, n: nat)
    requires at + |f| <= |p| && p[at..at + |f|] == f && j + n <= |f|
    ensures p[at + j..at + j + n] == f[j..j + n]
  {
    SubSlice(p, at, at + |f|, at + j, n);
  }

  lemma {:induction false} FlatAt(hs: seq<Hash>, i: nat)
    requires (forall d :: d in hs ==> |d| == HASH_SIZE) && i < |hs|
    ensures |Flat(hs)| == 32 * |hs| && Flat(hs)[32 * i..32 * i + 32] == hs[i]
  {
    FlatLength(hs);
    assert hs[0] in hs;
    if 0 < i {
      FlatAt(hs[1..], i - 1);
      assert Flat(hs)[32..32 + |Flat(hs[1..])|] == Flat(hs[1..]);
      hide Flat;
      Within(Flat(hs), 32, Flat(hs[1..]), 32 * (i - 1), 32);
    }
  }

  /** Where every field lies in the payload. */
  lemma HelloLayout(h: Hello)
    requires Typed(h) && |h.sessionID| <= 255
    ensures var p, n, k := Encoded(h), |h.sessionID|, |h.output.hashes|;
            && |p| == 25 + n + 32 * k
            && p[0] == (if h.major == 0 then 1 else h.major) && p[1] == (if h.major == 0 && h.minor == 0 then 2 else h.minor)
            && p[2] == h.mode && p[3] as nat == n && p[4..4 + n] == h.sessionID
            && p[4 + n..12 + n] == BE64(h.output.total) && p[12 + n..20 + n] == BE64(h.output.first)
            && p[20 + n..24 + n] == BE32(k % U32)
            && (forall i :: 0 <= i < k ==> p[24 + n + 32 * i..24 + n + 32 * i + 32] == h.output.hashes[i])
            && p[24 + n + 32 * k] == if h.altScreen then 1 else 0
  {
    hide Encoded, Body, Preamble, ManifestHeader, Flat, BE64, BE32;
    var p, n := Encoded(h), |h.sessionID|;
    EncodedPieces(h);
    PreambleLayout(h, p);
    ManifestLayout(h.output, p, 4 + n);
    HashesLayout(h.output.hashes, p, 24 + n);
  }

  lemma EncodedPieces(h: Hello)
    requires Typed(h) && |h.sessionID| <= 255
    ensures var p, n, k := Encoded(h), |h.sessionID|, |h.output.hashes|;
            && |p| == 25 + n + 32 * k && p[..4 + n] == Preamble(h) && p[4 + n..24 + n] == ManifestHeader(h.output)
            && p[24 + n..24 + n + 32 * k] == Flat(h.output.hashes) && p[24 + n + 32 * k] == if h.altScreen then 1 else 0
  {
    FlatLength(h.output.hashes);
    FourPieces(Preamble(h), ManifestHeader(h.output), Flat(h.output.hashes), [if h.altScreen then 1 else 0]);
    hide Preamble, ManifestHeader, Flat;
  }

  lemma PreambleLayout(h: Hello, p: seq<byte>)
    requires |h.sessionID| <= 255 && 4 + |h.sessionID| <= |p| && p[..4 + |h.sessionID|] == Preamble(h)
    ensures p[0] == (if h.major == 0 then 1 else h.major) && p[1] == (if h.major == 0 && h.minor == 0 then 2 else h.minor)
    ensures p[2] == h.mode && p[3] as nat == |h.sessionID| && p[4..4 + |h.sessionID|] == h.sessionID
  {
    var pre := Preamble(h);
    assert p[0] == pre[0] && p[1] == pre[1] && p[2] == pre[2] && p[3] == pre[3];
    assert pre[4..] == h.sessionID && p[4..4 + |h.sessionID|] == p[..4 + |h.sessionID|][4..];
  }

  lemma HashesLayout(hs: seq<Hash>, p: seq<byte>, at: nat)
    requires (forall d :: d in hs ==> |d| == HASH_SIZE) && at + |Flat(hs)| <= |p| && p[at..at + |Flat(hs)|] == Flat(hs)
    ensures |Flat(hs)| == 32 * |hs|
    ensures forall i :: 0 <= i < |hs| ==> p[at + 32 * i..at + 32 * i + 32] == hs[i]
  {
    FlatLength(hs);
    hide Flat;
    forall i | 0 <= i < |hs|
      ensures p[at + 32 * i..at + 32 * i + 32] == hs[i]
    {
      FlatAt(hs, i);
      Within(p, at, Flat(hs), 32 * i, 32);
    }
  }

  lemma FourPieces(a: seq<byte>, b: seq<byte>, c: seq<byte>, d: seq<byte>)
    ensures var s := a + b + c + d;
            && s[..|a|] == a && s[|a|..|a| + |b|] == b && s[|a| + |b|..|a| + |b| + |c|] == c && s[|a| + |b| + |c|..] == d
  {
  }

  lemma ManifestLayout(m: Manifest, p: seq<byte>, at: nat)
    requires m.total < U64 && m.first < U64 && at + 20 <= |p| && p[at..at + 20] == ManifestHeader(m)
    ensures p[at..at + 8] == BE64(m.total) && p[at + 8..at + 16] == BE64(m.first) && p[at + 16..at + 20] == BE32(|m.hashes| % U32)
  {
    ThreeFields(BE64(m.total), BE64(m.first), BE32(|m.hashes| % U32));
    SubSlice(p, at, at + 20, at, 8);
    SubSlice(p, at, at + 20, at + 8, 8);
    SubSlice(p, at, at + 20, at + 16, 4);
  }

  /** Decoding 20 bytes of manifest header, the digests it announces, and a tail. */
  lemma DecodeManifestPieces(major: byte, minor: byte, mode: byte, sid: seq<byte>, m: seq<byte>, f: seq<byte>, tail: seq<byte>)
    requires |m| == 20 && |f| == FromBE32(m[16..20]) * HASH_SIZE
    ensures FromBE32(m[16..20]) * HASH_SIZE <= |f + tail|
    ensures DecodedManifest(major, minor, mode, sid, m + (f + tail)) ==
            Ok(Hello(major, minor, mode, sid,
                     Manifest(FromBE64(m[0..8]), FromBE64(m[8..16]), Unflat(f + tail, FromBE32(m[16..20]))),
                     |tail| >= 1 && tail[0] != 0))
  {
    var s := m + (f + tail);
    assert s[0..8] == m[0..8] && s[8..16] == m[8..16] && s[16..20] == m[16..20] && s[20..] == f + tail;
    assert s[20 + |f|..] == tail;
  }

  /** Decoding a preamble with its session id. */
  lemma DecodePreamble(pre: seq<byte>, rest: seq<byte>)
    requires |pre| >= 4 && |pre| == 4 + pre[3] as nat
    ensures Decoded(pre + rest) == DecodedManifest(pre[0], pre[1], pre[2], pre[4..], rest)
  {
    var p := pre + rest;
    assert p[4..|pre|] == pre[4..] && p[|pre|..] == rest;
  }

  lemma ThreeFields(a: seq<byte>, b: seq<byte>, c: seq<byte>)
    requires |a| == 8 && |b| == 8 && |c| == 4
    ensures (a + b + c)[0..8] == a && (a + b + c)[8..16] == b && (a + b + c)[16..20] == c
  {
  }

  lemma ManifestHeaderFields(m: Manifest)
    requires m.total < U64 && m.first < U64 && |m.hashes| < U32
    ensures var b := ManifestHeader(m);
            FromBE64(b[0..8]) == m.total && FromBE64(b[8..16]) == m.first && FromBE32(b[16..20]) == |m.hashes|
  {
    hide BE64, BE32, FromBE64, FromBE32;
    ThreeFields(BE64(m.total), BE64(m.first), BE32(|m.hashes| % U32));
    BE64RoundTrip(m.total);
    BE64RoundTrip(m.first);
    BE32RoundTrip(|m.hashes|);
  }

  /** What the decoder makes of an encoded hello without its last byte, followed by anything. */
  lemma DecodeBody(h: Hello, tail: seq<byte>)
    requires Typed(h) && |h.sessionID| <= 255 && h.major != 0 && |h.output.hashes| < U32
    ensures Decoded(Body(h) + tail) == Ok(h.(altScreen := |tail| >= 1 && tail[0] != 0))
  {
    var pre, m, f := Preamble(h), ManifestHeader(h.output), Flat(h.output.hashes);
    ManifestHeaderFields(h.output);
    FlatLength(h.output.hashes);
    UnflatFlat(h.output.hashes, tail);
    Regroup(pre + m, f, tail);
    Regroup(pre, m, f + tail);
    DecodePreamble(pre, m + (f + tail));
    DecodeManifestPieces(pre[0], pre[1], pre[2], pre[4..], m, f, tail);
    assert pre[4..] == h.sessionID;
  }

  /** The hello as its receiver sees it: an unset major stands for this build's version. */
  function Versioned(h: Hello): (v: Hello)
    ensures v.major != 0 && v.(major := h.major, minor := h.minor) == h
    ensures h.major != 0 ==> v == h
  {
    if h.major != 0 then h
    else h.(major := Proto.PROTOCOL_MAJOR, minor := if h.minor == 0 then Proto.PROTOCOL_MINOR else h.minor)
  }

  /** Decoding inverts encoding, whatever follows on the wire. */
  lemma HelloRoundTrip(h: Hello, extra: seq<byte>)
    requires Typed(h) && |h.sessionID| <= 255 && |h.output.hashes| < U32
    ensures Decoded(Encoded(h) + extra) == Ok(Versioned(h))
  {
    var alt := [if h.altScreen then 1 else 0];
    DecodeBody(Versioned(h), alt + extra);
    Regroup(Body(h), alt, extra);
    assert Body(h) == Body(Versioned(h));
  }

  /** A 1.0 peer's payload, which lacks the alt-screen byte, reads as "not in alt-screen". */
  lemma OldPeer(h: Hello)
    requires Typed(h) && |h.sessionID| <= 255 && |h.output.hashes| < U32
    ensures Decoded(Encoded(h)[..|Encoded(h)| - 1]) == Ok(Versioned(h).(altScreen := false))
  {
    DecodeBody(Versioned(h), []);
    assert Body(h) == Body(Versioned(h));
    assert Encoded(h)[..|Encoded(h)| - 1] == Body(h) + [];
  }

  /** Any shorter cut is rejected for what it lacks first: a payload never decodes to a manifest it does not carry. */
  lemma CutHelloRejected(h: Hello, k: nat)
    requires Typed(h) && |h.sessionID| <= 255 && |h.output.hashes| < U32
    requires k < |Encoded(h)| - 1
    ensures var n := |h.sessionID|;
            Decoded(Encoded(h)[..k]) == Err(if k < 4 then PayloadTooShort else if k < 4 + n then SessionIdTruncated
                                            else if k < 24 + n then ManifestTruncated else HashesTruncated)
  {
    var pre, m, f := Preamble(h), ManifestHeader(h.output), Flat(h.output.hashes);
    FlatLength(h.output.hashes);
    ManifestHeaderFields(h.output);
    CutBody(pre, m, f, [if h.altScreen then 1 else 0], k);
    if |pre| <= k {
      DecodePreamble(pre, (m + f)[..k - |pre|]);
      CutManifest(m, f, k - |pre|, pre[0], pre[1], pre[2], pre[4..]);
    }
  }

  lemma CutBody(pre: seq<byte>, m: seq<byte>, f: seq<byte>, x: seq<byte>, k: nat)
    requires k < |pre| + |m| + |f|
    ensures (pre + m + f + x)[..k] == if |pre| <= k then pre + (m + f)[..k - |pre|] else pre[..k]
  {
    Regroup(pre, m, f);
    assert (pre + m + f + x)[..k] == (pre + (m + f))[..k];
  }

  /** A manifest cut before its last digest ends is recognised as truncated. */
  lemma CutManifest(m: seq<byte>, f: seq<byte>, n: nat, major: byte, minor: byte, mode: byte, sid: seq<byte>)
    requires |m| == 20 && |f| == FromBE32(m[16..20]) * HASH_SIZE && n < 20 + |f|
    ensures DecodedManifest(major, minor, mode, sid, (m + f)[..n]) == Err(if n < 20 then ManifestTruncated else HashesTruncated)
  {
    if 20 <= n {
      assert (m + f)[..n][16..20] == m[16..20];
    }
  }

  /** A hello with a session id of `idLen` bytes and this many digests goes through `WriteFrame`. */
  predicate Fits(idLen: nat, digests: nat) {
    digests * 32 <= 0x400_0000 - 25 - idLen
  }

  /** Which hellos fit in one frame: the client's digest list, never trimmed, is what can outgrow it. */
  lemma HelloFitsFrame(h: Hello)
    requires Typed(h) && |h.sessionID| <= 255
    ensures |Encoded(h)| <= Proto.MAX_PAYLOAD <==> Fits(|h.sessionID|, |h.output.hashes|)
    ensures |h.output.hashes| < 0x20_0000 - 8 ==> Fits(|h.sessionID|, |h.output.hashes|)
    ensures |h.output.hashes| >= 0x20_0000 ==> !Fits(|h.sessionID|, |h.output.hashes|)
  {
    EncodedLength(h);
  }
}
