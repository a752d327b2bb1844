/** `internal/sessions/diskcap.go` and the sweeper's decision in `checkDiskCap`. */
module DiskCap {
  import opened Bytes

  datatype Status = Unknown | Active | Idle | Catchup | Stalled | Replay | Stale | Dead

  /**
   A row of the session list; a failed size lookup shows up as a non-positive count. `shell` is not in
   the list: it says that the session's PTY pump is still running, and with it its sweeper.
   */
  datatype Session = Session(status: Status, shell: bool, diskBytes: int)

  const CAP_ABSOLUTE: nat := 0x8000_0000
  const RESERVE_MAX: nat := 0x640_0000

  /** What `GrowingCount` counts: active and stale sessions, and no others. */
  predicate Counted(s: Session) {
    s.status == Active || s.status == Stale
  }

  /** Sessions whose own daemon still runs the sweeper, whatever their health marker says. */
  predicate Sweeping(s: Session) {
    s.shell && (Counted(s) || s.status == Idle || s.status == Catchup || s.status == Stalled)
  }

  function Size(s: Session): nat {
    Max(s.diskBytes, 0)
  }

  function CountIf(ss: seq<Session>, p: Session -> bool): nat {
    if ss == [] then 0 else CountIf(ss[..|ss| - 1], p) + if p(ss[|ss| - 1]) then 1 else 0
  }

  function UsageIf(ss: seq<Session>, p: Session -> bool): nat {
    if ss == [] then 0 else UsageIf(ss[..|ss| - 1], p) + if p(ss[|ss| - 1]) then Size(ss[|ss| - 1]) else 0
  }

  function CountCounted(ss: seq<Session>): nat {
    CountIf(ss, Counted)
  }

  predicate Any(s: Session) {
    true
  }

  function CountedWithin(share: nat): Session -> bool {
    (s: Session) => Counted(s) && Size(s) <= share
  }

  function Usage(ss: seq<Session>): nat {
    UsageIf(ss, Any)
  }

  /** The rows that are active or stale. */
  ghost function CountedRows(ss: seq<Session>): set<int> {
    set i | 0 <= i < |ss| && (ss[i].status == Active || ss[i].status == Stale)
  }

  method GrowingCount(ss: seq<Session>) returns (n: nat)
    ensures n == CountCounted(ss)
    ensures n == |CountedRows(ss)|
  {
    n := 0;
    for i := 0 to |ss|
      invariant n == CountCounted(ss[..i])
    {
      assert ss[..i + 1][..i] == ss[..i];
      if ss[i].status == Active || ss[i].status == Stale {
        n := n + 1;
      }
    }
    assert ss[..|ss|] == ss;
    CountIsSize(ss);
  }

  lemma {:induction false} CountIsSize(ss: seq<Session>)
    ensures CountCounted(ss) == |CountedRows(ss)|
  {
    if ss == [] {
      assert CountedRows(ss) == {};
    } else {
      var front, last := ss[..|ss| - 1], |ss| - 1;
      CountIsSize(front);
      assert CountedRows(ss) == CountedRows(front) + if Counted(ss[last]) then {last} else {};
    }
  }

  method TotalDiskUsage(ss: seq<Session>) returns (total: nat)
    ensures total == Usage(ss)
  {
    total := 0;
    for i := 0 to |ss|
      invariant total == UsageIf(ss[..i], Any)
    {
      assert ss[..i + 1][..i] == ss[..i];
      if ss[i].diskBytes > 0 {
        total := total + ss[i].diskBytes;
      }
    }
    assert ss[..|ss|] == ss;
  }

  /** The budget for a free-space reading, with the two ratios as floors of 20% and 1%. */
  function Budget(n: nat, freeDisk: nat): nat {
    Max(Min(CAP_ABSOLUTE, freeDisk / 5) - Min(RESERVE_MAX, freeDisk / 100) * n, 0)
  }

  method DiskBudget(ss: seq<Session>, freeDisk: nat) returns (b: nat)
    ensures b == Budget(CountCounted(ss), freeDisk)
  {
    var c := CAP_ABSOLUTE;
    var fromFree := freeDisk / 5;
    if fromFree < c {
      c := fromFree;
    }
    var growing := GrowingCount(ss);
    var perSession := freeDisk / 100;
    if perSession > RESERVE_MAX {
      perSession := RESERVE_MAX;
    }
    var reserve := perSession * growing;
    if reserve >= c {
      return 0;
    }
    return c - reserve;
  }

  /** Never more than 2 GiB or 20% of the disk, and never raised by one more counted session. */
  lemma BudgetBounds(n: nat, freeDisk: nat)
    ensures Budget(n, freeDisk) <= CAP_ABSOLUTE && Budget(n, freeDisk) <= freeDisk / 5
    ensures Budget(n + 1, freeDisk) <= Budget(n, freeDisk)
    ensures Budget(0, freeDisk) == Min(0x8000_0000, freeDisk / 5)
    ensures Budget(n + 1, freeDisk) == Max(0, Budget(n, freeDisk) - Min(0x640_0000, freeDisk / 100))
  {
    var per := Min(RESERVE_MAX, freeDisk / 100);
    MulMonotone(0, n, per);
    assert per * (n + 1) == per * n + per;
  }

  /** The sweeper's rule for the session that holds `mySize` bytes. */
  predicate Selected(ss: seq<Session>, freeDisk: nat, mySize: nat) {
    var n := CountCounted(ss);
    var cap := Budget(n, freeDisk);
    n != 0 && cap < Usage(ss) && Div(cap, n) < mySize
  }

  /** Every session counts towards the total with what it holds, whatever its status. */
  lemma UsageAdds(ss: seq<Session>, s: Session)
    ensures Usage(ss + [s]) == Usage(ss) + (if s.diskBytes > 0 then s.diskBytes else 0)
  {
    assert (ss + [s])[..|ss|] == ss;
  }

  /** A host within its budget stops nobody, nor does any host a session within the fair share. */
  lemma SparedIff(ss: seq<Session>, freeDisk: nat)
    ensures Usage(ss) <= Budget(CountCounted(ss), freeDisk) || CountCounted(ss) == 0 <==>
            forall mySize: nat :: !Selected(ss, freeDisk, mySize)
    ensures forall mySize: nat :: mySize * CountCounted(ss) <= Budget(CountCounted(ss), freeDisk) ==> !Selected(ss, freeDisk, mySize)
  {
    var n := CountCounted(ss);
    var cap := Budget(n, freeDisk);
    if n != 0 {
      assert cap < Usage(ss) ==> Selected(ss, freeDisk, Div(cap, n) + 1);
      forall mySize: nat | mySize * n <= cap
        ensures !Selected(ss, freeDisk, mySize)
      {
        DivMod(cap, n);
        if Div(cap, n) < mySize {
          MulStep(Div(cap, n), mySize, n);
        }
      }
    }
  }

  method CheckDiskCap(ss: seq<Session>, freeDisk: nat, mySize: nat) returns (stop: bool)
    ensures stop <==> Selected(ss, freeDisk, mySize)
  {
    var cap := DiskBudget(ss, freeDisk);
    var sum := TotalDiskUsage(ss);
    var growing := GrowingCount(ss);
    if growing == 0 {
      return false;
    }
    DivIsQuotient(cap, growing);
    var share := cap / growing;
    if sum <= cap {
      return false;
    }
    if mySize <= share {
      return false;
    }
    return true;
  }

  /** Some running daemon is told to stop. */
  ghost predicate SomeoneStops(ss: seq<Session>, freeDisk: nat) {
    exists i :: 0 <= i < |ss| && Sweeping(ss[i]) && Selected(ss, freeDisk, Size(ss[i]))
  }

  /** Sessions no larger than `share` together hold at most `share` times their number. */
  lemma {:induction false} ModestFit(ss: seq<Session>, p: Session -> bool, share: nat)
    requires forall i :: 0 <= i < |ss| && p(ss[i]) ==> Size(ss[i]) <= share
    ensures UsageIf(ss, p) <= CountIf(ss, p) * share
  {
    if ss != [] {
      var front, last := ss[..|ss| - 1], ss[|ss| - 1];
      ModestFit(front, p, share);
      assert p(last) ==> Size(last) <= share;
      assert (CountIf(front, p) + 1) * share == CountIf(front, p) * share + share;
    }
  }

  lemma {:induction false} UsageMonotone(ss: seq<Session>, p: Session -> bool, q: Session -> bool)
    requires forall i :: 0 <= i < |ss| && p(ss[i]) ==> q(ss[i])
    ensures UsageIf(ss, p) <= UsageIf(ss, q) && CountIf(ss, p) <= CountIf(ss, q)
  {
    if ss != [] {
      UsageMonotone(ss[..|ss| - 1], p, q);
      assert p(ss[|ss| - 1]) ==> q(ss[|ss| - 1]);
    }
  }

  lemma {:induction false} UsageNeedsCount(ss: seq<Session>, p: Session -> bool)
    requires CountIf(ss, p) == 0
    ensures UsageIf(ss, p) == 0
  {
    if ss != [] {
      UsageNeedsCount(ss[..|ss| - 1], p);
    }
  }

  /** Fairness: the counted sessions at or under the fair share fit in the budget together. */
  lemma SparedFit(ss: seq<Session>, freeDisk: nat)
    requires CountCounted(ss) > 0
    ensures var cap := Budget(CountCounted(ss), freeDisk);
            UsageIf(ss, CountedWithin(Div(cap, CountCounted(ss)))) <= cap
  {
    var n := CountCounted(ss);
    var cap := Budget(n, freeDisk);
    var share := Div(cap, n);
    var spared := CountedWithin(share);
    ModestFit(ss, spared, share);
    UsageMonotone(ss, spared, Counted);
    MulMonotone(CountIf(ss, spared), n, share);
    DivMod(cap, n);
    assert n * share == share * n;
  }

  /** Adequacy: counted sessions that exceed the budget together include one over the fair share. */
  lemma CountedOverShare(ss: seq<Session>, freeDisk: nat)
    requires Budget(CountCounted(ss), freeDisk) < UsageIf(ss, Counted)
    ensures 0 < CountCounted(ss)
    ensures exists i :: 0 <= i < |ss| && Counted(ss[i]) && Selected(ss, freeDisk, Size(ss[i]))
  {
    var n := CountCounted(ss);
    var cap := Budget(n, freeDisk);
    if n == 0 {
      UsageNeedsCount(ss, Counted);
    } else {
      UsageMonotone(ss, Counted, Any);
      DivMod(cap, n);
      assert n * Div(cap, n) == Div(cap, n) * n;
      if forall i :: 0 <= i < |ss| && Counted(ss[i]) ==> Size(ss[i]) <= Div(cap, n) {
        ModestFit(ss, Counted, Div(cap, n));
      } else {
        var i :| 0 <= i < |ss| && Counted(ss[i]) && Div(cap, n) < Size(ss[i]);
        assert Selected(ss, freeDisk, Size(ss[i]));
      }
    }
  }

  /** The same sessions, with other sizes. */
  ghost predicate SameRows(ss: seq<Session>, ss': seq<Session>) {
    |ss| == |ss'| && forall i :: 0 <= i < |ss| ==> ss[i].status == ss'[i].status && ss[i].shell == ss'[i].shell
  }

  lemma {:induction false} SameCount(ss: seq<Session>, ss': seq<Session>)
    requires SameRows(ss, ss')
    ensures CountCounted(ss) == CountCounted(ss')
  {
    if ss != [] {
      SameCount(ss[..|ss| - 1], ss'[..|ss| - 1]);
    }
  }

  lemma {:induction false} CountAtMost(ss: seq<Session>, p: Session -> bool)
    ensures CountIf(ss, p) <= |ss|
    ensures CountIf(ss, p) == |ss| <==> forall i :: 0 <= i < |ss| ==> p(ss[i])
  {
    if ss != [] {
      CountAtMost(ss[..|ss| - 1], p);
    }
  }

  /** With 21 counted sessions the reserves eat the budget on any disk, save less than a byte each. */
  lemma ManyLeaveNoShare(n: nat, freeDisk: nat)
    requires 21 <= n
    ensures Budget(n, freeDisk) < n
  {
    var per := Min(RESERVE_MAX, freeDisk / 100);
    MulMonotone(21, n, per);
    assert per * 21 <= per * n;
    assert freeDisk / 5 <= 20 * (freeDisk / 100) + 19;
  }

  /** A share of at least `n` bytes outweighs what is left over by dividing among `n`. */
  lemma ShareOutweighs(cap: nat, n: nat)
    requires 0 < n <= 20 && 400 <= cap
    ensures n * Div(cap, n) <= cap < (n + 1) * Div(cap, n)
  {
    var share := Div(cap, n);
    DivMod(cap, n);
    assert share * n == n * share && (n + 1) * share == n * share + share;
    if share < 20 {
      MulMonotone(share, 19, n);
    }
  }

  /** On a disk of 2^48 bytes, up to 20 counted sessions have a share that outweighs any remainder. */
  lemma FewLeaveShare(n: nat)
    requires 0 < n <= 20
    ensures var cap := Budget(n, 0x1_0000_0000_0000); var share := Div(cap, n);
            n * share <= cap < (n + 1) * share
  {
    ShareOutweighs(Budget(n, 0x1_0000_0000_0000), n);
  }

  /** Every session holds `share` bytes. */
  function Level(ss: seq<Session>, share: nat): (r: seq<Session>)
    ensures SameRows(ss, r) && forall i :: 0 <= i < |r| ==> Size(r[i]) == share
  {
    seq(|ss|, i requires 0 <= i < |ss| => ss[i].(diskBytes := share))
  }

  lemma {:induction false} UsageOfLevel(ss: seq<Session>, share: nat)
    requires forall i :: 0 <= i < |ss| ==> Size(ss[i]) == share
    ensures Usage(ss) == |ss| * share
  {
    if ss != [] {
      UsageOfLevel(ss[..|ss| - 1], share);
      assert |ss| * share == (|ss| - 1) * share + share;
    }
  }

  /** Session `k` holds everything there is. */
  function Hog(ss: seq<Session>, k: nat, bytes: nat): (r: seq<Session>)
    requires k < |ss|
    ensures SameRows(ss, r) && Size(r[k]) == bytes && forall i :: 0 <= i < |r| && i != k ==> Size(r[i]) == 0
  {
    seq(|ss|, i requires 0 <= i < |ss| => ss[i].(diskBytes := if i == k then bytes else 0))
  }

  lemma {:induction false} UsageAtLeast(ss: seq<Session>, k: nat)
    requires k < |ss|
    ensures Size(ss[k]) <= Usage(ss)
  {
    if k < |ss| - 1 {
      UsageAtLeast(ss[..|ss| - 1], k);
    }
  }

  /** Whatever these sessions hold and however large the disk, a host over budget has somebody stop. */
  ghost predicate Enforced(ss: seq<Session>) {
    forall ss': seq<Session>, freeDisk: nat ::
      SameRows(ss, ss') && Budget(CountCounted(ss'), freeDisk) < Usage(ss') ==> SomeoneStops(ss', freeDisk)
  }

  /**
   Which sessions make the cap hold, seen from their statuses alone: every one of them still runs its
   sweeper, and either all are counted or so many are that nothing is left to share.
   */
  ghost predicate CapHolds(ss: seq<Session>) {
    || ss == []
    || ((forall i :: 0 <= i < |ss| ==> Sweeping(ss[i])) && (CountCounted(ss) == |ss| || 21 <= CountCounted(ss)))
  }

  /** Sessions all within the counted ones' share are within the budget. */
  lemma WithinShareFit(ss: seq<Session>, freeDisk: nat)
    requires CapHolds(ss) && ss != []
    requires forall i :: 0 <= i < |ss| ==> Size(ss[i]) <= Div(Budget(CountCounted(ss), freeDisk), CountCounted(ss))
    ensures Usage(ss) <= Budget(CountCounted(ss), freeDisk)
  {
    var n := CountCounted(ss);
    var cap := Budget(n, freeDisk);
    var share := Div(cap, n);
    ModestFit(ss, Any, share);
    CountAtMost(ss, Any);
    if n == |ss| {
      DivMod(cap, n);
      assert n * share == share * n;
    } else {
      ManyLeaveNoShare(n, freeDisk);
      assert share == 0;
    }
  }

  lemma OverBudgetStops(ss: seq<Session>, freeDisk: nat)
    requires CapHolds(ss) && ss != [] && Budget(CountCounted(ss), freeDisk) < Usage(ss)
    ensures SomeoneStops(ss, freeDisk)
  {
    var share := Div(Budget(CountCounted(ss), freeDisk), CountCounted(ss));
    if i :| 0 <= i < |ss| && share < Size(ss[i]) {
      assert Selected(ss, freeDisk, Size(ss[i]));
    } else {
      WithinShareFit(ss, freeDisk);
    }
  }

  /** A session that runs no sweeper can fill the disk; so can anything while no session is counted. */
  lemma HogEscapes(ss: seq<Session>, k: nat)
    requires k < |ss| && (!Sweeping(ss[k]) || CountCounted(ss) == 0)
    ensures !Enforced(ss)
  {
    var ss' := Hog(ss, k, CAP_ABSOLUTE + 1);
    SameCount(ss, ss');
    UsageAtLeast(ss', k);
    BudgetBounds(CountCounted(ss'), 0);
    assert Budget(CountCounted(ss'), 0) < Usage(ss');
    assert !SomeoneStops(ss', 0);
  }

  /** Sessions that all hold exactly the counted ones' share are over budget as soon as one is uncounted. */
  lemma LevelEscapes(ss: seq<Session>)
    requires 0 < CountCounted(ss) <= 20 && CountCounted(ss) < |ss|
    ensures !Enforced(ss)
  {
    var n, freeDisk := CountCounted(ss), 0x1_0000_0000_0000;
    var share := Div(Budget(n, freeDisk), n);
    var ss' := Level(ss, share);
    SameCount(ss, ss');
    FewLeaveShare(n);
    UsageOfLevel(ss', share);
    MulMonotone(n + 1, |ss|, share);
    assert Budget(CountCounted(ss'), freeDisk) < Usage(ss');
    assert !SomeoneStops(ss', freeDisk);
  }

  /** Exactly when the host-wide cap is enforced. */
  lemma EnforcedIff(ss: seq<Session>)
    ensures Enforced(ss) <==> CapHolds(ss)
  {
    if CapHolds(ss) {
      forall ss': seq<Session>, freeDisk: nat | SameRows(ss, ss') && Budget(CountCounted(ss'), freeDisk) < Usage(ss')
        ensures SomeoneStops(ss', freeDisk)
      {
        SameCount(ss, ss');
        assert ss' != [];
        assert forall i :: 0 <= i < |ss'| && Sweeping(ss[i]) ==> Sweeping(ss'[i]);
        OverBudgetStops(ss', freeDisk);
      }
    } else if CountCounted(ss) == 0 {
      HogEscapes(ss, 0);
    } else if k: nat :| k < |ss| && !Sweeping(ss[k]) {
      HogEscapes(ss, k);
    } else {
      CountAtMost(ss, Counted);
      LevelEscapes(ss);
    }
  }

  lemma OneSession(s: Session)
    ensures CountCounted([s]) == (if Counted(s) then 1 else 0) && Usage([s]) == Size(s)
  {
    assert [s][..0] == [];
    assert CountIf([s][..0], Counted) == 0 && UsageIf([s][..0], Any) == 0;
  }

  /**
   Lone sessions over budget at which nobody stops: one whose client stopped answering, which counts
   as nothing, and one that counts but whose shell has exited, so that its sweeper is gone.
   */
  lemma UncountedEscape(bytes: nat, freeDisk: nat)
    requires CAP_ABSOLUTE < bytes
    ensures Budget(CountCounted([Session(Stalled, true, bytes)]), freeDisk) < Usage([Session(Stalled, true, bytes)])
    ensures !SomeoneStops([Session(Stalled, true, bytes)], freeDisk)
    ensures Budget(CountCounted([Session(Active, false, bytes)]), freeDisk) < Usage([Session(Active, false, bytes)])
    ensures !SomeoneStops([Session(Active, false, bytes)], freeDisk)
  {
    OneSession(Session(Stalled, true, bytes));
    OneSession(Session(Active, false, bytes));
    BudgetBounds(0, freeDisk);
    BudgetBounds(1, freeDisk);
  }
}
