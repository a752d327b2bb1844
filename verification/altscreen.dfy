/** `internal/altscreen/altscreen.go`: the alt-screen escape-sequence scanner both ends run. */
module AltScreen {
  import opened Bytes

  const ESC: byte := 0x1B
  const BRACKET: byte := 0x5B
  const QUESTION: byte := 0x3F
  const SEMICOLON: byte := 0x3B
  const LOWER_H: byte := 0x68
  const LOWER_L: byte := 0x6C
  const PARM_MAX: nat := 32

  datatype Event = Quiet | Enter | Leave

  /** 0 idle, 1 saw ESC, 2 saw [, 3 saw ? and gathering parameters. */
  datatype ScanState = ScanState(state: nat, parm: seq<byte>)

  const Fresh: ScanState := ScanState(0, [])

  predicate IsParam(b: byte) {
    0x30 <= b <= 0x39 || b == SEMICOLON
  }

  /** The private modes 47, 1047 and 1049. */
  predicate IsAltMode(q: seq<byte>) {
    q == [0x34, 0x37] || q == [0x31, 0x30, 0x34, 0x37] || q == [0x31, 0x30, 0x34, 0x39]
  }

  /** The semicolon-separated fields of a parameter string; the empty string has one empty field. */
  function Split(s: seq<byte>): (fields: seq<seq<byte>>)
    ensures fields != []
  {
    if s == [] then [[]]
    else
      var front := Split(s[..|s| - 1]);
      if s[|s| - 1] == SEMICOLON then front + [[]]
      else front[..|front| - 1] + [front[|front| - 1] + [s[|s| - 1]]]
  }

  predicate Mentions(parm: seq<byte>) {
    exists i :: 0 <= i < |Split(parm)| && IsAltMode(Split(parm)[i])
  }

  function FinalEvent(b: byte, parm: seq<byte>): Event {
    if !Mentions(parm) then Quiet else if b == LOWER_H then Enter else Leave
  }

  /** One byte through the scanner. */
  function Step(a: ScanState, b: byte): (ScanState, Event) {
    if a.state == 0 then (a.(state := if b == ESC then 1 else 0), Quiet)
    else if a.state == 1 then (a.(state := if b == BRACKET then 2 else 0), Quiet)
    else if a.state == 2 then (if b == QUESTION then ScanState(3, []) else a.(state := 0), Quiet)
    else if IsParam(b) then (if |a.parm| < PARM_MAX then a.(parm := a.parm + [b]) else a, Quiet)
    else if b == LOWER_H || b == LOWER_L then (a.(state := 0), FinalEvent(b, a.parm))
    else (a.(state := 0), Quiet)
  }

  /** The later of two observations. */
  function Later(e: Event, e': Event): Event {
    if e'.Quiet? then e else e'
  }

  /** A whole string through the scanner: the state it leaves and the last event in it. */
  function ScanFrom(a: ScanState, p: seq<byte>): (ScanState, Event) {
    if p == [] then (a, Quiet)
    else
      var (b, e) := ScanFrom(a, p[..|p| - 1]);
      var (c, e') := Step(b, p[|p| - 1]);
      (c, Later(e, e'))
  }

  /** Whether a terminal fed the whole of `s` is in alt-screen. */
  predicate InAlt(s: seq<byte>) {
    ScanFrom(Fresh, s).1.Enter?
  }

  /** Scanning is independent of how the stream is cut: states chain and the last event wins. */
  lemma {:induction false} ScanComposes(a: ScanState, p: seq<byte>, q: seq<byte>)
    ensures ScanFrom(a, p + q) ==
            (ScanFrom(ScanFrom(a, p).0, q).0, Later(ScanFrom(a, p).1, ScanFrom(ScanFrom(a, p).0, q).1))
    decreases |q|
  {
    if q == [] {
      assert p + q == p;
    } else {
      ScanComposes(a, p, q[..|q| - 1]);
      assert (p + q)[..|p + q| - 1] == p + q[..|q| - 1];
    }
  }

  /** A terminal's flag after an observation. */
  function Flag(was: bool, ev: Event): bool {
    if ev.Quiet? then was else ev.Enter?
  }

  /** How the flag moves when `y` follows `w`. */
  lemma InAltAfter(w: seq<byte>, y: seq<byte>)
    ensures ScanFrom(Fresh, w + y).0 == ScanFrom(ScanFrom(Fresh, w).0, y).0
    ensures InAlt(w + y) == Flag(InAlt(w), ScanFrom(ScanFrom(Fresh, w).0, y).1)
  {
    ScanComposes(Fresh, w, y);
  }

  /** A stretch without an event has none in its first part either. */
  lemma QuietPrefix(a: ScanState, y: seq<byte>, k: nat)
    requires k <= |y| && ScanFrom(a, y).1.Quiet?
    ensures ScanFrom(a, y[..k]).1.Quiet?
  {
    assert y == y[..k] + y[k..];
    ScanComposes(a, y[..k], y[k..]);
  }

  class Scanner {
    var state: nat
    var parm: seq<byte>

    function Current(): ScanState
      reads this
    {
      ScanState(state, parm)
    }

    constructor ()
      ensures Current() == Fresh
    {
      state, parm := 0, [];
    }

    /** Whether any field names an alt-screen mode. */
    method AnyAltMode(fields: seq<seq<byte>>) returns (hit: bool)
      ensures hit <==> exists i :: 0 <= i < |fields| && IsAltMode(fields[i])
    {
      for i := 0 to |fields|
        invariant forall j :: 0 <= j < i ==> !IsAltMode(fields[j])
      {
        if IsAltMode(fields[i]) {
          return true;
        }
      }
      return false;
    }

    /** Feeds `p` through the state machine; returns the last transition seen in it. */
    method Scan(p: seq<byte>) returns (ev: Event)
      modifies this
      ensures (Current(), ev) == ScanFrom(old(Current()), p)
    {
      ev := Quiet;
      assert p[..0] == [];
      for k := 0 to |p|
        invariant (Current(), ev) == ScanFrom(old(Current()), p[..k])
      {
        var b := p[k];
        assert p[..k + 1][..k] == p[..k];
        if state == 0 {
          if b == ESC {
            state := 1;
          }
        } else if state == 1 {
          if b == BRACKET {
            state := 2;
          } else {
            state := 0;
          }
        } else if state == 2 {
          if b == QUESTION {
            state, parm := 3, [];
          } else {
            state := 0;
          }
        } else if IsParam(b) {
          if |parm| < PARM_MAX {
            parm := parm + [b];
          }
        } else if b == LOWER_H || b == LOWER_L {
          var hit := AnyAltMode(Split(parm));
          if hit {
            ev := if b == LOWER_H then Enter else Leave;
          }
          state := 0;
        } else {
          state := 0;
        }
      }
      assert p[..|p|] == p;
    }
  }

  // ----- What is recognised -----

  /** ESC [ ? parameters, then a final byte. */
  function Sequence(ds: seq<byte>, f: byte): seq<byte> {
    [ESC, BRACKET, QUESTION] + ds + [f]
  }

  /** Parameters gathered after `ESC [ ?` are kept up to the 32nd byte. */
  lemma {:induction false} GatherParams(a: ScanState, ds: seq<byte>)
    requires a.state == 3 && a.parm == [] && forall i :: 0 <= i < |ds| ==> IsParam(ds[i])
    ensures ScanFrom(a, ds) == (ScanState(3, ds[..Min(|ds|, PARM_MAX)]), Quiet)
  {
    if ds != [] {
      var front, last := ds[..|ds| - 1], ds[|ds| - 1];
      GatherParams(a, front);
      if |front| < PARM_MAX {
        assert front[..|front|] == front && ds[..|ds|] == ds == front + [last];
      } else {
        assert front[..PARM_MAX] == ds[..PARM_MAX];
        assert Min(|ds|, PARM_MAX) == PARM_MAX == Min(|front|, PARM_MAX);
      }
      assert Step(ScanFrom(a, front).0, last) == (ScanState(3, ds[..Min(|ds|, PARM_MAX)]), Quiet);
    }
  }

  /** An idle scanner ignores everything but ESC. */
  lemma {:induction false} IdleStays(a: ScanState, p: seq<byte>)
    requires a.state == 0 && forall i :: 0 <= i < |p| ==> p[i] != ESC
    ensures ScanFrom(a, p) == (a, Quiet)
  {
    if p != [] {
      IdleStays(a, p[..|p| - 1]);
    }
  }

  /** From idle, h and l yield what the first 32 parameter bytes say, and another final byte nothing. */
  lemma FromIdle(a: ScanState, ds: seq<byte>, f: byte)
    requires a.state == 0 && !IsParam(f) && forall i :: 0 <= i < |ds| ==> IsParam(ds[i])
    ensures ScanFrom(a, Sequence(ds, f)).0.state == 0
    ensures ScanFrom(a, Sequence(ds, f)).1 ==
            if f == LOWER_H || f == LOWER_L then FinalEvent(f, ds[..Min(|ds|, PARM_MAX)]) else Quiet
  {
    var intro := [ESC, BRACKET, QUESTION];
    ThreeBytes(a, ESC, BRACKET, QUESTION);
    ScanComposes(a, intro, ds);
    GatherParams(ScanState(3, []), ds);
    assert Sequence(ds, f)[..|Sequence(ds, f)| - 1] == intro + ds;
  }

  lemma ThreeBytes(a: ScanState, x: byte, y: byte, z: byte)
    ensures var (s1, e1) := Step(a, x);
            var (s2, e2) := Step(s1, y);
            var (s3, e3) := Step(s2, z);
            ScanFrom(a, [x, y, z]) == (s3, Later(Later(e1, e2), e3))
  {
    assert [x, y, z][..2] == [x, y] && [x, y][..1] == [x] && [x][..0] == [];
    assert ScanFrom(a, [x]) == Step(a, x);
    assert ScanFrom(a, [x, y]).0 == Step(Step(a, x).0, y).0;
  }

  /** In the middle of another sequence its ESC is swallowed, and the rest goes unnoticed. */
  lemma FromBusy(a: ScanState, ds: seq<byte>, f: byte)
    requires a.state != 0 && (f == LOWER_H || f == LOWER_L) && forall i :: 0 <= i < |ds| ==> IsParam(ds[i])
    ensures ScanFrom(a, Sequence(ds, f)).0.state == 0
    ensures ScanFrom(a, Sequence(ds, f)).1 == Quiet
  {
    var rest := [BRACKET, QUESTION] + ds + [f];
    assert Sequence(ds, f) == [ESC] + rest;
    forall i | 0 <= i < |rest|
      ensures rest[i] != ESC
    {
      assert 2 <= i < 2 + |ds| ==> rest[i] == ds[i - 2] && IsParam(ds[i - 2]);
    }
    ScanComposes(a, [ESC], rest);
    assert [ESC][..0] == [];
    IdleStays(Step(a, ESC).0, rest);
  }

  /**
   A recognised sequence is heard after an arbitrary prefix if and only if the scanner is idle when
   it arrives; otherwise the prefix's own last event stands.
   */
  lemma HeardIffIdle(prefix: seq<byte>, ds: seq<byte>, f: byte)
    requires (f == LOWER_H || f == LOWER_L) && forall i :: 0 <= i < |ds| ==> IsParam(ds[i])
    requires Mentions(ds[..Min(|ds|, PARM_MAX)])
    requires InAlt(prefix) != (f == LOWER_H)
    ensures InAlt(prefix + Sequence(ds, f)) == (f == LOWER_H) <==> ScanFrom(Fresh, prefix).0.state == 0
  {
    var a := ScanFrom(Fresh, prefix).0;
    ScanComposes(Fresh, prefix, Sequence(ds, f));
    if a.state == 0 {
      FromIdle(a, ds, f);
    } else {
      FromBusy(a, ds, f);
    }
  }

  // ----- Which parameter strings name a mode -----

  function Join(fields: seq<seq<byte>>): seq<byte>
    requires fields != []
  {
    if |fields| == 1 then fields[0] else Join(fields[..|fields| - 1]) + [SEMICOLON] + fields[|fields| - 1]
  }

  /** The fields are what stands between the semicolons: joined they give the string back. */
  lemma {:induction false} SplitJoins(s: seq<byte>)
    ensures Join(Split(s)) == s
    ensures forall i :: 0 <= i < |Split(s)| ==> SEMICOLON !in Split(s)[i]
  {
    if s != [] {
      var front := Split(s[..|s| - 1]);
      SplitJoins(s[..|s| - 1]);
      assert s == s[..|s| - 1] + [s[|s| - 1]];
      if s[|s| - 1] == SEMICOLON {
        assert (front + [[]])[..|front|] == front;
      } else {
        LongerLast(front, s[|s| - 1]);
      }
    }
  }

  lemma LongerLast(fields: seq<seq<byte>>, b: byte)
    requires fields != []
    ensures Join(fields[..|fields| - 1] + [fields[|fields| - 1] + [b]]) == Join(fields) + [b]
  {
    var longer := fields[..|fields| - 1] + [fields[|fields| - 1] + [b]];
    if |fields| > 1 {
      assert longer[..|longer| - 1] == fields[..|fields| - 1];
      Regroup(Join(fields[..|fields| - 1]) + [SEMICOLON], fields[|fields| - 1], [b]);
    }
  }

  lemma {:induction false} SplitWhole(s: seq<byte>)
    requires SEMICOLON !in s
    ensures Split(s) == [s]
  {
    if s != [] {
      assert s == s[..|s| - 1] + [s[|s| - 1]];
      SplitWhole(s[..|s| - 1]);
    }
  }

  /** A semicolon separates the fields before it from those after it. */
  lemma {:induction false} SplitAt(a: seq<byte>, b: seq<byte>)
    ensures Split(a + [SEMICOLON] + b) == Split(a) + Split(b)
    decreases |b|
  {
    hide Extended;
    if b == [] {
      SplitSnoc(a, SEMICOLON);
      LastField(Split(a));
      assert a + [SEMICOLON] + b == a + [SEMICOLON];
    } else {
      hide Split;
      var b', c := b[..|b| - 1], b[|b| - 1];
      assert b == b' + [c];
      Regroup(a + [SEMICOLON], b', [c]);
      SplitAt(a, b');
      SplitSnoc(a + [SEMICOLON] + b', c);
      SplitSnoc(b', c);
      LaterField(Split(a), Split(b'), c);
    }
  }

  lemma LastField(fields: seq<seq<byte>>)
    requires fields != []
    ensures Extended(fields, SEMICOLON) == fields + [[]]
  {
  }

  /** The fields after one byte more. */
  function Extended(fields: seq<seq<byte>>, b: byte): seq<seq<byte>>
    requires fields != []
  {
    if b == SEMICOLON then fields + [[]] else fields[..|fields| - 1] + [fields[|fields| - 1] + [b]]
  }

  lemma SplitSnoc(s: seq<byte>, b: byte)
    ensures Split(s + [b]) == Extended(Split(s), b)
  {
    assert (s + [b])[..|s|] == s;
  }

  lemma LaterField(x: seq<seq<byte>>, y: seq<seq<byte>>, b: byte)
    requires y != []
    ensures Extended(x + y, b) == x + Extended(y, b)
  {
    assert (x + y)[..|x + y| - 1] == x + y[..|y| - 1];
  }

  /** `m` stands between `a` and `b`, with a semicolon or an end of the string on either side. */
  predicate Sits(ds: seq<byte>, a: seq<byte>, m: seq<byte>, b: seq<byte>) {
    ds == a + m + b && (a == [] || a[|a| - 1] == SEMICOLON) && (b == [] || b[0] == SEMICOLON)
  }

  ghost predicate HasField(ds: seq<byte>, m: seq<byte>) {
    exists a, b :: Sits(ds, a, m, b)
  }

  /** The forms a field can be written in: alone, last, first, in the middle. */
  lemma FieldForms(m: seq<byte>, a: seq<byte>, b: seq<byte>)
    ensures HasField(m, m)
    ensures HasField(a + [SEMICOLON] + m, m)
    ensures HasField(m + [SEMICOLON] + b, m)
    ensures HasField(a + [SEMICOLON] + m + [SEMICOLON] + b, m)
  {
    assert Sits(m, [], m, []);
    assert Sits(a + [SEMICOLON] + m, a + [SEMICOLON], m, []);
    Regroup(m, [SEMICOLON], b);
    assert Sits(m + [SEMICOLON] + b, [], m, [SEMICOLON] + b);
    Regroup(a + [SEMICOLON] + m, [SEMICOLON], b);
    assert Sits(a + [SEMICOLON] + m + [SEMICOLON] + b, a + [SEMICOLON], m, [SEMICOLON] + b);
  }

  /** What a joined list holds before and after one of its fields. */
  lemma {:induction false} JoinAround(fields: seq<seq<byte>>, i: nat)
    requires i < |fields|
    ensures HasField(Join(fields), fields[i])
    ensures exists a, b :: Sits(Join(fields), a, fields[i], b) && (b == [] <==> i == |fields| - 1)
    decreases |fields|
  {
    var front, last := fields[..|fields| - 1], fields[|fields| - 1];
    if i == |fields| - 1 {
      assert Sits(Join(fields), if i == 0 then [] else Join(front) + [SEMICOLON], last, []);
    } else {
      JoinAround(front, i);
      var a, b :| Sits(Join(front), a, fields[i], b) && (b == [] <==> i == |front| - 1);
      assert Join(fields) == Join(front) + [SEMICOLON] + last == a + fields[i] + (b + [SEMICOLON] + last);
      assert Sits(Join(fields), a, fields[i], b + [SEMICOLON] + last);
    }
  }

  /** What follows a field is none of its business. */
  lemma FieldFirst(m: seq<byte>, b: seq<byte>)
    requires SEMICOLON !in m && (b == [] || b[0] == SEMICOLON)
    ensures Split(m + b)[0] == m
  {
    SplitWhole(m);
    if b == [] {
      assert m + b == m;
    } else {
      assert m + b == m + [SEMICOLON] + b[1..];
      SplitAt(m, b[1..]);
    }
  }

  /** The fields of a string are what its semicolons separate. */
  lemma FieldIff(ds: seq<byte>, m: seq<byte>)
    requires SEMICOLON !in m
    ensures m in Split(ds) <==> HasField(ds, m)
  {
    hide Split, HasField;
    if m in Split(ds) {
      var i :| 0 <= i < |Split(ds)| && Split(ds)[i] == m;
      SplitJoins(ds);
      JoinAround(Split(ds), i);
    }
    if HasField(ds, m) {
      FieldIsSplit(ds, m);
    }
  }

  lemma FieldIsSplit(ds: seq<byte>, m: seq<byte>)
    requires SEMICOLON !in m && HasField(ds, m)
    ensures m in Split(ds)
  {
    var a, b :| Sits(ds, a, m, b);
    hide Split, HasField;
    FieldFirst(m, b);
    if a == [] {
      assert ds == m + b;
    } else {
      var a' := a[..|a| - 1];
      assert a == a' + [SEMICOLON];
      Regroup(a, m, b);
      SplitAt(a', m + b);
      assert Split(ds)[|Split(a')|] == m;
    }
  }

  /** One of the private modes 47, 1047 and 1049 is among the parameters. */
  ghost predicate NamesMode(ds: seq<byte>) {
    HasField(ds, [0x34, 0x37]) || HasField(ds, [0x31, 0x30, 0x34, 0x37]) || HasField(ds, [0x31, 0x30, 0x34, 0x39])
  }

  lemma MentionsIff(ds: seq<byte>)
    ensures Mentions(ds) <==> NamesMode(ds)
  {
    FieldIff(ds, [0x34, 0x37]);
    FieldIff(ds, [0x31, 0x30, 0x34, 0x37]);
    FieldIff(ds, [0x31, 0x30, 0x34, 0x39]);
    hide Split, HasField;
    assert Mentions(ds) <==> exists q :: q in Split(ds) && IsAltMode(q);
  }

  /**
   An idle scanner reports ESC [ ? parameters h as entered and ESC [ ? parameters l as left exactly if
   one of the semicolon-separated fields in the first 32 parameter bytes is 47, 1047 or 1049; with any
   other final byte it reports nothing.
   */
  lemma Recognised(a: ScanState, ds: seq<byte>, f: byte)
    requires a.state == 0 && forall i :: 0 <= i < |ds| ==> 0x30 <= ds[i] <= 0x39 || ds[i] == 0x3B
    requires !(0x30 <= f <= 0x39 || f == 0x3B)
    ensures ScanFrom(a, [0x1B, 0x5B, 0x3F] + ds + [f]).0.state == 0
    ensures ScanFrom(a, [0x1B, 0x5B, 0x3F] + ds + [f]).1 ==
            if !NamesMode(ds[..Min(|ds|, 32)]) then Quiet else if f == 0x68 then Enter else if f == 0x6C then Leave else Quiet
  {
    FromIdle(a, ds, f);
    MentionsIff(ds[..Min(|ds|, 32)]);
  }

  /** ESC ESC [ ? 1 0 4 9 h: a stray ESC hides the sequence that a terminal would act on. */
  lemma StrayEscapeHides()
    ensures var seq1049 := Sequence([0x31, 0x30, 0x34, 0x39], LOWER_H);
            InAlt(seq1049) && !InAlt([ESC] + seq1049)
  {
    var ds: seq<byte> := [0x31, 0x30, 0x34, 0x39];
    SplitWhole(ds);
    assert IsAltMode(Split(ds)[0]);
    assert ds[..Min(|ds|, PARM_MAX)] == ds;
    assert [ESC][..0] == [];
    assert ScanFrom(Fresh, [ESC]) == (ScanState(1, []), Quiet);
    HeardIffIdle([ESC], ds, LOWER_H);
    assert InAlt([]) == false;
    HeardIffIdle([], ds, LOWER_H);
    assert [] + Sequence(ds, LOWER_H) == Sequence(ds, LOWER_H);
  }
}
