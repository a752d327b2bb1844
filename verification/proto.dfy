/** `internal/proto/frame.go`: length-prefixed frames over a byte stream. */
module Proto {
  import opened Bytes

  const HELLO: byte := 0x01
  const HELLO_ACK: byte := 0x02
  const OUTPUT: byte := 0x04
  const EXIT: byte := 0x07
  const ACK: byte := 0x0A

  const HEADER_SIZE: nat := 13
  const MAX_PAYLOAD: nat := 0x400_0000

  const PROTOCOL_MAJOR: byte := 1
  const PROTOCOL_MINOR: byte := 2

  datatype Frame = Frame(ftype: byte, offset: nat, payload: seq<byte>)

  /** A frame whose fields have their wire widths: a uint64 offset and an accepted payload length. */
  predicate Sendable(f: Frame) {
    f.offset < U64 && |f.payload| <= MAX_PAYLOAD
  }

  function Header(f: Frame): (h: seq<byte>)
    requires Sendable(f)
    ensures |h| == HEADER_SIZE
  {
    [f.ftype] + BE64(f.offset) + BE32(|f.payload|)
  }

  function EncodeFrame(f: Frame): seq<byte>
    requires Sendable(f)
  {
    Header(f) + f.payload
  }

  datatype Parse = Got(frame: Frame, rest: seq<byte>) | Truncated | TooLarge(rest: seq<byte>)

  /** The frame at the head of a byte stream, as a reader sees it. */
  function ParseFrame(s: seq<byte>): Parse {
    if |s| < HEADER_SIZE then Truncated
    else
      var length := FromBE32(s[9..13]);
      if length > MAX_PAYLOAD then TooLarge(s[13..])
      else if |s| < HEADER_SIZE + length then Truncated
      else Got(Frame(s[0], FromBE64(s[1..9]), s[13..13 + length]), s[13 + length..])
  }

  lemma HeaderFields(f: Frame)
    requires Sendable(f)
    ensures Header(f)[0] == f.ftype
    ensures FromBE64(Header(f)[1..9]) == f.offset
    ensures FromBE32(Header(f)[9..13]) == |f.payload|
  {
    BE64RoundTrip(f.offset);
    BE32RoundTrip(|f.payload|);
    assert Header(f)[1..9] == BE64(f.offset);
    assert Header(f)[9..13] == BE32(|f.payload|);
  }

  /**
   What a reader makes of any byte stream: fewer than 13 bytes are cut short, a length over 64 MiB is
   refused, and otherwise the frame is there as soon as its payload is.
   */
  lemma ParseIs(ftype: byte, offset: nat, length: nat, rest: seq<byte>, k: nat)
    requires offset < U64 && length < U32 && k < 13
    ensures var hdr := [ftype] + BE64(offset) + BE32(length);
            && ParseFrame(hdr[..k]) == Truncated
            && ParseFrame(hdr + rest) == if 0x400_0000 < length then TooLarge(rest)
                                         else if |rest| < length then Truncated
                                         else Got(Frame(ftype, offset, rest[..length]), rest[length..])
  {
    var hdr := [ftype] + BE64(offset) + BE32(length);
    var s := hdr + rest;
    BE64RoundTrip(offset);
    BE32RoundTrip(length);
    assert s[1..9] == BE64(offset) && s[9..13] == BE32(length) && s[13..] == rest;
    hide BE64, BE32, FromBE64, FromBE32;
    if length <= |rest| {
      assert s[13..13 + length] == rest[..length] && s[13 + length..] == rest[length..];
    }
  }

  lemma ParseEncoded(f: Frame, rest: seq<byte>)
    requires Sendable(f)
    ensures ParseFrame(EncodeFrame(f) + rest) == Got(f, rest)
  {
    var s := EncodeFrame(f) + rest;
    HeaderFields(f);
    assert s[1..9] == Header(f)[1..9] && s[9..13] == Header(f)[9..13];
    assert s[13..13 + |f.payload|] == f.payload && s[13 + |f.payload|..] == rest;
  }

  /** Half a frame is never mistaken for a frame. */
  lemma ParseCut(f: Frame, k: nat)
    requires Sendable(f) && k < |EncodeFrame(f)|
    ensures ParseFrame(EncodeFrame(f)[..k]) == Truncated
  {
    HeaderFields(f);
    if HEADER_SIZE <= k {
      assert EncodeFrame(f)[..k][9..13] == Header(f)[9..13];
    }
  }

  ghost predicate AllSendable(fs: seq<Frame>) {
    forall f :: f in fs ==> Sendable(f)
  }

  function EncodeAll(fs: seq<Frame>): seq<byte>
    requires AllSendable(fs)
  {
    if fs == [] then [] else EncodeFrame(fs[0]) + EncodeAll(fs[1..])
  }

  /** What a reader that calls `ReadFrame` until it fails gets out of a byte stream. */
  function ParseAll(s: seq<byte>): seq<Frame>
    decreases |s|
  {
    match ParseFrame(s)
    case Got(f, rest) => [f] + ParseAll(rest)
    case _ => []
  }

  lemma {:induction false} EncodeSnoc(fs: seq<Frame>, f: Frame)
    requires Sendable(f) && AllSendable(fs)
    ensures AllSendable(fs + [f]) && EncodeAll(fs + [f]) == EncodeAll(fs) + EncodeFrame(f)
  {
    if fs == [] {
      assert [f][1..] == [];
    } else {
      EncodeSnoc(fs[1..], f);
      assert (fs + [f])[1..] == fs[1..] + [f];
    }
  }

  /** How many of the frames lie entirely within the first `k` bytes of their encoding. */
  function WholeFrames(fs: seq<Frame>, k: nat): (n: nat)
    requires AllSendable(fs)
    ensures n <= |fs|
  {
    if fs == [] || k < |EncodeFrame(fs[0])| then 0
    else 1 + WholeFrames(fs[1..], k - |EncodeFrame(fs[0])|)
  }

  /** It is the largest number that fits. */
  lemma {:induction false} WholeFramesMaximal(fs: seq<Frame>, k: nat)
    requires AllSendable(fs)
    ensures var n := WholeFrames(fs, k);
            |EncodeAll(fs[..n])| <= k && (n < |fs| ==> k < |EncodeAll(fs[..n + 1])|)
    ensures |EncodeAll(fs)| <= k ==> WholeFrames(fs, k) == |fs|
  {
    if fs != [] {
      var n := WholeFrames(fs, k);
      if |EncodeFrame(fs[0])| <= k {
        WholeFramesMaximal(fs[1..], k - |EncodeFrame(fs[0])|);
        assert fs[..n][1..] == fs[1..][..n - 1];
        assert n < |fs| ==> fs[..n + 1][1..] == fs[1..][..n];
      } else {
        assert fs[..1][1..] == [];
      }
    }
  }

  lemma CutInside(f: Frame, k: nat)
    requires Sendable(f) && k < |EncodeFrame(f)|
    ensures ParseAll(EncodeFrame(f)[..k]) == []
  {
    ParseCut(f, k);
  }

  lemma ParseAllStep(f: Frame, tail: seq<byte>)
    requires Sendable(f)
    ensures ParseAll(EncodeFrame(f) + tail) == [f] + ParseAll(tail)
  {
    ParseEncoded(f, tail);
  }

  lemma CutAfter(a: seq<byte>, b: seq<byte>, k: nat)
    requires |a| <= k <= |a| + |b|
    ensures (a + b)[..k] == a + b[..k - |a|]
  {
  }

  lemma CutWithin(f: Frame, tail: seq<byte>, k: nat)
    requires Sendable(f) && k < |EncodeFrame(f)|
    ensures ParseAll((EncodeFrame(f) + tail)[..k]) == []
  {
    assert (EncodeFrame(f) + tail)[..k] == EncodeFrame(f)[..k];
    hide EncodeFrame, ParseFrame, ParseAll;
    CutInside(f, k);
  }

  lemma CutBeyond(f: Frame, tail: seq<byte>, k: nat)
    requires Sendable(f) && |EncodeFrame(f)| <= k <= |EncodeFrame(f)| + |tail|
    ensures ParseAll((EncodeFrame(f) + tail)[..k]) == [f] + ParseAll(tail[..k - |EncodeFrame(f)|])
  {
    hide EncodeFrame, ParseFrame, ParseAll;
    CutAfter(EncodeFrame(f), tail, k);
    ParseAllStep(f, tail[..k - |EncodeFrame(f)|]);
  }

  /**
   However a connection is cut, the reader gets exactly the frames that were completely sent, in
   order and unaltered.
   */
  lemma {:induction false} CutAnywhere(fs: seq<Frame>, k: nat)
    requires AllSendable(fs) && k <= |EncodeAll(fs)|
    ensures ParseAll(EncodeAll(fs)[..k]) == fs[..WholeFrames(fs, k)]
  {
    if fs != [] {
      hide *;
      HeadFrame(fs, k);
      var f, rest := fs[0], fs[1..];
      var size := |EncodeFrame(f)|;
      if k < size {
        CutWithin(f, EncodeAll(rest), k);
      } else {
        CutBeyond(f, EncodeAll(rest), k);
        CutAnywhere(rest, k - size);
        TakeFirst(fs, WholeFrames(rest, k - size));
      }
    }
  }

  lemma HeadFrame(fs: seq<Frame>, k: nat)
    requires AllSendable(fs) && fs != []
    ensures Sendable(fs[0]) && AllSendable(fs[1..]) && EncodeAll(fs) == EncodeFrame(fs[0]) + EncodeAll(fs[1..])
    ensures WholeFrames(fs, k) ==
            if k < |EncodeFrame(fs[0])| then 0 else 1 + WholeFrames(fs[1..], k - |EncodeFrame(fs[0])|)
  {
  }

  lemma TakeFirst(fs: seq<Frame>, n: nat)
    requires fs != [] && n < |fs|
    ensures fs[..n + 1] == [fs[0]] + fs[1..][..n]
  {
  }

  /** With no cut the reader gets every frame back. */
  lemma RoundTrip(fs: seq<Frame>)
    requires AllSendable(fs)
    ensures ParseAll(EncodeAll(fs)) == fs
  {
    var k := |EncodeAll(fs)|;
    CutAnywhere(fs, k);
    WholeFramesMaximal(fs, k);
    assert EncodeAll(fs)[..k] == EncodeAll(fs);
  }

  /** A 13-byte array filled field by field is the header. */
  lemma HeaderBytes(hdr: seq<byte>, f: Frame)
    requires Sendable(f) && |hdr| == HEADER_SIZE && hdr[0] == f.ftype
    requires hdr[1..9] == BE64(f.offset) && hdr[9..] == BE32(|f.payload|)
    ensures hdr == Header(f)
  {
    assert hdr == [hdr[0]] + hdr[1..9] + hdr[9..];
  }

  /** Fills in the header field by field. */
  method HeaderOf(f: Frame) returns (hdr: array<byte>)
    requires Sendable(f)
    ensures fresh(hdr) && hdr[..] == Header(f)
  {
    hdr := new byte[HEADER_SIZE](_ => 0);
    hdr[0] := f.ftype;
    CopyInto(hdr, 1, BE64(f.offset));
    CopyInto(hdr, 9, BE32(|f.payload|));
    HeaderBytes(hdr[..], f);
  }

  datatype WriteError = PayloadTooLarge | LinkBroken

  datatype ReadError = ShortRead | Oversized

  /**
   One end of a connection: bytes still to be read, bytes written so far. A write can break the
   link at any time, and a broken link stays broken; `sent` lists the frames written whole.
   */
  class Conn {
    var inbox: seq<byte>
    var outbox: seq<byte>
    var broken: bool
    ghost var sent: seq<Frame>

    ghost predicate Valid()
      reads this
    {
      AllSendable(sent) && (!broken ==> outbox == EncodeAll(sent))
    }

    constructor (inbox: seq<byte>)
      ensures Valid() && this.inbox == inbox && outbox == [] && !broken && sent == []
    {
      this.inbox := inbox;
      outbox, broken, sent := [], false, [];
    }

    /** Header, then payload. `linkUp` is the environment's choice of whether the writes go through. */
    method WriteFrame(f: Frame, linkUp: bool) returns (r: Result<(), WriteError>)
      requires Valid() && f.offset < U64
      modifies this`outbox, this`broken, this`sent
      ensures Valid()
      ensures r == if |f.payload| > MAX_PAYLOAD then Err(PayloadTooLarge)
                   else if old(broken) || !linkUp then Err(LinkBroken) else Ok(())
      ensures sent == if r.Ok? then old(sent) + [f] else old(sent)
      ensures broken == (old(broken) || r == Err(LinkBroken))
      ensures r.Ok? ==> outbox == old(outbox) + EncodeFrame(f)
    {
      if |f.payload| > MAX_PAYLOAD {
        return Err(PayloadTooLarge);
      }
      var hdr := HeaderOf(f);
      hide Header, EncodeAll;
      if broken || !linkUp {
        broken := true;
        return Err(LinkBroken);
      }
      ghost var before := outbox;
      outbox := outbox + hdr[..];
      if |f.payload| > 0 {
        outbox := outbox + f.payload;
      }
      assert outbox == before + EncodeFrame(f);
      EncodeSnoc(sent, f);
      sent := sent + [f];
      return Ok(());
    }

    /** Reads one frame. A failed read leaves the stream wherever it stopped and ends the connection. */
    method ReadFrame() returns (r: Result<Frame, ReadError>)
      modifies this`inbox
      ensures var p := ParseFrame(old(inbox));
              match p
              case Got(f, rest) => r == Ok(f) && inbox == rest
              case Truncated => r == Err(ShortRead) && inbox == []
              case TooLarge(rest) => r == Err(Oversized) && inbox == rest
    {
      if |inbox| < HEADER_SIZE {
        inbox := [];
        return Err(ShortRead);
      }
      var hdr := inbox[..HEADER_SIZE];
      ghost var s := inbox;
      assert hdr[9..13] == s[9..13] && hdr[1..9] == s[1..9];
      inbox := inbox[HEADER_SIZE..];
      var length := FromBE32(hdr[9..13]);
      if length > MAX_PAYLOAD {
        return Err(Oversized);
      }
      var payload := [];
      if length > 0 {
        if |inbox| < length {
          inbox := [];
          return Err(ShortRead);
        }
        payload := inbox[..length];
        inbox := inbox[length..];
      }
      assert payload == s[13..13 + length] && inbox == s[13 + length..];
      return Ok(Frame(hdr[0], FromBE64(hdr[1..9]), payload));
    }
  }
}
