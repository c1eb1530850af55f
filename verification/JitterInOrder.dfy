/** Jitter buffer runs whose packets arrive in order: what comes out is what went in, in order. */
module JitterInOrder {
  import opened Packets
  import opened JitterModel
  import opened JitterOrder
  import opened JitterLedger

  const TOP: int := 0xFFFF_FFFF

  /** The numbers of s increase, lie above last and stop short of the last 32-bit number. */
  predicate FollowsOn(s: seq<AudioPacket>, last: int)
  {
    Increasing(s) && forall p :: p in s ==> last < p.sequence < TOP
  }

  /** Everything up to last has arrived; the head has not run past it. */
  ghost predicate CaughtUp(b: Jitter, last: int)
  {
    && WellFormed(b)
    && Ordered(b)
    && -1 <= last < TOP
    && (b.started ==> b.head <= last + 1)
    && (forall k :: k in b.packets ==> k <= last)
  }

  function LastAfter(last: int, op: Op): int
  {
    if op.PushOp? then op.p.sequence else last
  }

  predicate InSequence(op: Op, last: int)
  {
    op.PushOp? ==> last < op.p.sequence < TOP
  }

  lemma {:induction false} TrimHeadBound(b: Jitter, last: int)
    requires b.started ==> b.head <= last + 1
    requires forall k :: k in b.packets ==> k <= last < TOP
    ensures b.started ==> Trim(b).head <= last + 1
    decreases |b.packets|
  {
    if |b.packets| > b.maxKeep {
      TrimHeadBound(DropOldest(b), last);
    }
  }

  lemma PushCaughtUp(b: Jitter, p: AudioPacket, last: int)
    requires CaughtUp(b, last) && last < p.sequence < TOP
    ensures NotLate(b, PushOp(p)) && CaughtUp(Push(b, p), p.sequence)
  {
    var b1 := Insert(b, p);
    PushWellFormed(b, p);
    PushOrdered(b, p);
    TrimKeepsNewest(b1);
    TrimHeadBound(b1, p.sequence);
  }

  lemma PopCaughtUp(b: Jitter, last: int)
    requires CaughtUp(b, last)
    ensures CaughtUp(Pop(b).0, last)
  {
    PopWellFormed(b);
    PopOrdered(b);
  }

  lemma ResizeCaughtUp(b: Jitter, n: int, floor: nat, ceil: nat, last: int)
    requires CaughtUp(b, last) && Legal(ResizeOp(n, floor, ceil))
    ensures CaughtUp(SetMinStart(b, n, floor, ceil), last)
  {
    var b1 := Deepen(b, Clamp(n, floor, ceil));
    SetMinStartWellFormed(b, n, floor, ceil);
    ResizeOrdered(b, n, floor, ceil);
    TrimKeepsNewest(b1);
    TrimHeadBound(b1, last);
  }

  lemma StepCaughtUp(b: Jitter, op: Op, last: int)
    requires CaughtUp(b, last) && Legal(op) && InSequence(op, last)
    ensures NotLate(b, op) && CaughtUp(Step(b, op).0, LastAfter(last, op))
  {
    match op
    case PushOp(p) => PushCaughtUp(b, p, last);
    case PopOp => PopCaughtUp(b, last);
    case ForceOp =>
    case ResizeOp(n, floor, ceil) => ResizeCaughtUp(b, n, floor, ceil, last);
    case ResetOp =>
  }

  // ---------- Lossless runs ----------

  lemma ListingAppend(m: map<uint32, AudioPacket>, p: AudioPacket, s: seq<AudioPacket>)
    requires Keyed(m) && (forall k :: k in m ==> k < p.sequence) && Lists(s, m)
    ensures Lists(s + [p], m[p.sequence := p])
  {
    var t, m1 := s + [p], m[p.sequence := p];
    forall i, j | 0 <= i < j < |t|
      ensures t[i].sequence < t[j].sequence
    {
      assert t[i] in s;
    }
    forall k | k in m1 ensures m1[k] in t {
      if k != p.sequence {
        assert m[k] in s;
      } else {
        assert t[|s|] == p;
      }
    }
  }

  lemma SortedAppend(m: map<uint32, AudioPacket>, p: AudioPacket)
    requires Keyed(m) && forall k :: k in m ==> k < p.sequence
    ensures Sorted(m[p.sequence := p]) == Sorted(m) + [p]
  {
    ListingAppend(m, p, Sorted(m));
    ListingUnique(Sorted(m[p.sequence := p]), Sorted(m) + [p], m[p.sequence := p]);
  }

  /** A push that nothing is lost to leaves the packet in the buffer and takes none out. */
  lemma LosslessPush(b: Jitter, p: AudioPacket, last: int)
    requires CaughtUp(b, last) && last < p.sequence < TOP
    requires Lost(b, PushOp(p)) == []
    ensures Keyed(Push(b, p).packets) && Sorted(Push(b, p).packets) == Sorted(b.packets) + [p]
  {
    assert p.sequence !in b.packets;
    assert Push(b, p).packets == Insert(b, p).packets;
    SortedAppend(b.packets, p);
  }

  lemma LosslessPop(b: Jitter)
    requires WellFormed(b) && Ordered(b)
    ensures Keyed(Pop(b).0.packets) && Emit(Pop(b).1, Sorted(Pop(b).0.packets)) == Sorted(b.packets)
  {
    PopWellFormed(b);
    PopOrdered(b);
    if Pop(b).1.Some? {
      PopLeast(if b.started then b else Start(b));
    }
  }

  /** One operation that loses nothing extends or shortens the waiting line at its two ends. */
  lemma StepInOrder(b: Jitter, op: Op, last: int)
    requires CaughtUp(b, last) && Legal(op) && InSequence(op, last) && Lost(b, op) == []
    ensures Keyed(Step(b, op).0.packets)
    ensures Emit(Step(b, op).1, Sorted(Step(b, op).0.packets))
            == Sorted(b.packets) + (if op.PushOp? then [op.p] else [])
  {
    match op
    case PushOp(p) => LosslessPush(b, p, last);
    case PopOp => LosslessPop(b);
    case ForceOp =>
    case ResizeOp(n, floor, ceil) =>
    case ResetOp =>
      ListingEmpty(Sorted(b.packets), b.packets);
      ListingEmpty(Sorted(map[]), map[]);
  }

  lemma FollowsOnTail(a: seq<AudioPacket>, last: int)
    requires a != [] && FollowsOn(a, last)
    ensures last < a[0].sequence < TOP && FollowsOn(a[1..], a[0].sequence) && FollowsOn(a[1..], last)
  {
    assert a[0] in a;
    forall p | p in a[1..] ensures a[0].sequence < p.sequence < TOP {
      var i :| 0 <= i < |a[1..]| && a[1..][i] == p;
      assert a[i + 1] == p && a[i + 1] in a;
    }
  }

  lemma PushedSplits(ops: seq<Op>, last: int)
    requires ops != [] && FollowsOn(Pushed(ops), last)
    ensures InSequence(ops[0], last)
    ensures FollowsOn(Pushed(ops[1..]), LastAfter(last, ops[0]))
  {
    var op, rest := ops[0], ops[1..];
    if op.PushOp? {
      var all := Pushed(ops);
      assert all == [op.p] + Pushed(rest);
      assert all[1..] == Pushed(rest);
      FollowsOnTail(all, last);
    }
  }

  /**
   In-order arrivals, forced starts and resizes at any moment, nothing lost: what was popped followed
   by what is resident is exactly what has arrived. In particular the output is a prefix of it.
   */
  lemma {:induction false} LosslessRunIsFifo(b: Jitter, ops: seq<Op>, last: int)
    requires CaughtUp(b, last) && AllLegal(ops) && FollowsOn(Pushed(ops), last)
    requires LostOn(b, ops) == []
    ensures LateFree(b, ops) && Keyed(Run(b, ops).0.packets)
    ensures Run(b, ops).1 + Sorted(Run(b, ops).0.packets) == Sorted(b.packets) + Pushed(ops)
    decreases ops
  {
    hide Step, Sorted, Lost, LostOn, CaughtUp, FollowsOn, InSequence, NotLate, Keyed;
    CaughtUpIsKeyed(b, last);
    if ops == [] {
      assert Sorted(b.packets) + [] == [] + Sorted(b.packets);
    } else {
      var op, rest := ops[0], ops[1..];
      assert op in ops;
      PushedSplits(ops, last);
      LostSplits(b, ops);
      StepCaughtUp(b, op, last);
      StepInOrder(b, op, last);
      var (b1, out) := Step(b, op);
      LosslessRunIsFifo(b1, rest, LastAfter(last, op));
      var (b2, outs) := Run(b1, rest);
      JoinRuns(out, outs, Sorted(b2.packets), Sorted(b1.packets), Pushed(rest), Sorted(b.packets),
               if op.PushOp? then Some(op.p) else None);
    }
  }

  lemma CaughtUpIsKeyed(b: Jitter, last: int)
    requires CaughtUp(b, last)
    ensures Keyed(b.packets)
  {
  }

  lemma LostSplits(b: Jitter, ops: seq<Op>)
    requires Keyed(b.packets) && ops != [] && LostOn(b, ops) == []
    ensures Lost(b, ops[0]) == []
    ensures Keyed(Step(b, ops[0]).0.packets) && LostOn(Step(b, ops[0]).0, ops[1..]) == []
  {
    hide Step, Lost;
    StepKeyed(b, ops[0]);
  }

  lemma JoinRuns<T>(
    out: Option<T>, outs: seq<T>, left2: seq<T>, left1: seq<T>, in2: seq<T>, left0: seq<T>, in1: Option<T>)
    requires outs + left2 == left1 + in2
    requires Emit(out, left1) == left0 + Emit(in1, [])
    ensures Emit(out, outs) + left2 == left0 + Emit(in1, in2)
  {
    hide Emit;
    EmitThen(out, outs, left2);
    EmitThen(out, left1, in2);
    EmitThen(in1, [], in2);
    assert [] + in2 == in2;
    ThreeParts(left0, Emit(in1, []), in2);
  }

  lemma EmitThen<T>(o: Option<T>, s: seq<T>, t: seq<T>)
    ensures Emit(o, s) + t == Emit(o, s + t)
  {
    if o.Some? {
      ThreeParts([o.value], s, t);
    }
  }

  lemma ThreeParts<T>(a: seq<T>, b: seq<T>, c: seq<T>)
    ensures a + b + c == a + (b + c)
  {
  }

  // ---------- Exactly when nothing is lost ----------

  /** Nothing is trimmed: a push finds room, and the new depth has room for all that wait. */
  ghost predicate Fits(b: Jitter, op: Op)
  {
    match op
    case PushOp(p) => p.sequence in b.packets || |b.packets| < b.maxKeep
    case ResizeOp(n, floor, ceil) => |b.packets| <= KeepFor(Clamp(n, floor, ceil))
    case PopOp => true
    case ForceOp => true
    case ResetOp => true
  }

  ghost predicate AllFit(b: Jitter, ops: seq<Op>)
    decreases ops
  {
    ops != [] ==> Fits(b, ops[0]) && AllFit(Step(b, ops[0]).0, ops[1..])
  }

  /** A reset finds nothing to throw away. */
  ghost predicate Spares(b: Jitter, op: Op)
  {
    op.ResetOp? ==> |b.packets| == 0
  }

  ghost predicate AllSpared(b: Jitter, ops: seq<Op>)
    decreases ops
  {
    ops != [] ==> Spares(b, ops[0]) && AllSpared(Step(b, ops[0]).0, ops[1..])
  }

  lemma LosesNothingIff(b: Jitter, op: Op, last: int)
    requires CaughtUp(b, last) && Legal(op) && InSequence(op, last)
    ensures Lost(b, op) == [] <==> Fits(b, op) && Spares(b, op)
  {
    if op.ResetOp? {
      ListingEmpty(Sorted(b.packets), b.packets);
    }
  }

  lemma NothingAndNothing<T>(s: seq<T>, t: seq<T>)
    ensures s + t == [] <==> s == [] && t == []
  {
    assert |s + t| == |s| + |t|;
  }

  /** In-order arrivals lose nothing exactly when nothing is trimmed and no reset finds a packet. */
  lemma {:induction false} LosslessRunIff(b: Jitter, ops: seq<Op>, last: int)
    requires CaughtUp(b, last) && AllLegal(ops) && FollowsOn(Pushed(ops), last) && Keyed(b.packets)
    ensures LostOn(b, ops) == [] <==> AllFit(b, ops) && AllSpared(b, ops)
    decreases ops
  {
    hide Step, Lost, CaughtUp, FollowsOn, InSequence, NotLate, Keyed, Fits, Spares;
    if ops != [] {
      var op, rest := ops[0], ops[1..];
      assert op in ops;
      PushedSplits(ops, last);
      StepCaughtUp(b, op, last);
      StepKeyed(b, op);
      LosesNothingIff(b, op, last);
      LosslessRunIff(Step(b, op).0, rest, LastAfter(last, op));
      NothingAndNothing(Lost(b, op), LostOn(Step(b, op).0, rest));
    }
  }

  /** What was popped, followed by what is resident, is what has arrived exactly when nothing was lost. */
  lemma {:induction false} FifoIffLossless(b: Jitter, ops: seq<Op>, last: int)
    requires CaughtUp(b, last) && AllLegal(ops) && FollowsOn(Pushed(ops), last)
    requires Keyed(b.packets) && Keyed(Run(b, ops).0.packets)
    ensures Run(b, ops).1 + Sorted(Run(b, ops).0.packets) == Sorted(b.packets) + Pushed(ops)
            <==> LostOn(b, ops) == []
  {
    hide Run, LostOn, Pushed, Sorted, CaughtUp, FollowsOn, Resident;
    if LostOn(b, ops) == [] {
      LosslessRunIsFifo(b, ops, last);
    }
    RunBalances(b, ops);
    SortedBag(b.packets);
    SortedBag(Run(b, ops).0.packets);
    NoRoomForMore(Run(b, ops).1, Sorted(Run(b, ops).0.packets), Sorted(b.packets), Pushed(ops), LostOn(b, ops));
  }

  lemma NoRoomForMore<T>(out: seq<T>, left: seq<T>, before: seq<T>, pushed: seq<T>, lost: seq<T>)
    requires multiset(pushed) + multiset(before) == multiset(out) + multiset(lost) + multiset(left)
    ensures out + left == before + pushed ==> lost == []
  {
    assert |multiset(pushed) + multiset(before)| == |pushed| + |before|;
    assert |multiset(out) + multiset(lost) + multiset(left)| == |out| + |lost| + |left|;
    assert |out + left| == |out| + |left| && |before + pushed| == |before| + |pushed|;
  }

  lemma {:induction false} SparedAppend(b: Jitter, ops1: seq<Op>, ops2: seq<Op>)
    ensures AllSpared(b, ops1 + ops2) <==> AllSpared(b, ops1) && AllSpared(Run(b, ops1).0, ops2)
    decreases ops1
  {
    hide Step, Spares;
    if ops1 == [] {
      assert ops1 + ops2 == ops2;
    } else {
      assert (ops1 + ops2)[1..] == ops1[1..] + ops2;
      SparedAppend(Step(b, ops1[0]).0, ops1[1..], ops2);
    }
  }

  lemma {:induction false} NoResetsSpare(b: Jitter, ops: seq<Op>)
    requires forall op :: op in ops ==> !op.ResetOp?
    ensures AllSpared(b, ops)
    decreases ops
  {
    hide Step;
    if ops != [] {
      assert ops[0] in ops;
      NoResetsSpare(Step(b, ops[0]).0, ops[1..]);
    }
  }

  // ---------- Runs with losses ----------

  lemma PushAbove(b: Jitter, p: AudioPacket, low: int)
    requires Keyed(b.packets) && low < p.sequence && forall k :: k in b.packets ==> low < k
    ensures forall k :: k in Push(b, p).packets ==> low < k
  {
    if p.sequence !in b.packets {
      TrimKeepsNewest(Insert(b, p));
    }
  }

  lemma StepAbove(b: Jitter, op: Op, low: int)
    requires Keyed(b.packets) && forall k :: k in b.packets ==> low < k
    requires op.PushOp? ==> low < op.p.sequence
    ensures forall k :: k in Step(b, op).0.packets ==> low < k
    ensures Step(b, op).1.Some? ==> low < Step(b, op).1.value.sequence
  {
    match op
    case PushOp(p) => PushAbove(b, p, low);
    case PopOp =>
      if Pop(b).1.Some? {
        PopTakesOne(b);
      }
    case ForceOp =>
    case ResizeOp(n, floor, ceil) => TrimKeepsNewest(Deepen(b, Clamp(n, floor, ceil)));
    case ResetOp =>
  }

  lemma {:induction false} OutputAbove(b: Jitter, ops: seq<Op>, low: int)
    requires Keyed(b.packets)
    requires forall k :: k in b.packets ==> low < k
    requires forall p :: p in Pushed(ops) ==> low < p.sequence
    ensures forall p :: p in Run(b, ops).1 ==> low < p.sequence
    decreases ops
  {
    if ops != [] {
      var op, rest := ops[0], ops[1..];
      if op.PushOp? {
        assert Pushed(ops)[0] in Pushed(ops);
        assert forall p :: p in Pushed(rest) ==> p in Pushed(ops);
      }
      StepKeyed(b, op);
      StepAbove(b, op, low);
      OutputAbove(Step(b, op).0, rest, low);
    }
  }

  /** In-order arrivals keep their order even when packets are trimmed or thrown away in between. */
  lemma {:induction false} LossyRunKeepsOrder(b: Jitter, ops: seq<Op>, last: int)
    requires CaughtUp(b, last) && AllLegal(ops) && FollowsOn(Pushed(ops), last)
    ensures Increasing(Run(b, ops).1)
    decreases ops
  {
    if ops != [] {
      var op, rest := ops[0], ops[1..];
      assert op in ops;
      PushedSplits(ops, last);
      StepCaughtUp(b, op, last);
      var (b1, out) := Step(b, op);
      LossyRunKeepsOrder(b1, rest, LastAfter(last, op));
      if out.Some? {
        PopOrdered(b);
        var k := MinKey(b.packets);
        assert out.value.sequence == k && b1.packets == b.packets - {k};
        OutputAbove(b1, rest, k);
        PrependLeast(out.value, Run(b1, rest).1);
      }
    }
  }

  // ---------- Runs in parts ----------

  lemma {:induction false} RunAppend(b: Jitter, ops1: seq<Op>, ops2: seq<Op>)
    ensures Run(b, ops1 + ops2)
            == (Run(Run(b, ops1).0, ops2).0, Run(b, ops1).1 + Run(Run(b, ops1).0, ops2).1)
    decreases ops1
  {
    if ops1 == [] {
      assert ops1 + ops2 == ops2;
      assert [] + Run(b, ops2).1 == Run(b, ops2).1;
    } else {
      var op, rest := ops1[0], ops1[1..];
      assert (ops1 + ops2)[1..] == rest + ops2;
      var (b1, out) := Step(b, op);
      RunAppend(b1, rest, ops2);
      var (b2, outs) := Run(b1, rest);
      assert Emit(out, outs + Run(b2, ops2).1) == Emit(out, outs) + Run(b2, ops2).1;
    }
  }

  lemma {:induction false} LostAppend(b: Jitter, ops1: seq<Op>, ops2: seq<Op>)
    requires Keyed(b.packets)
    ensures Keyed(Run(b, ops1).0.packets)
    ensures LostOn(b, ops1 + ops2) == LostOn(b, ops1) + LostOn(Run(b, ops1).0, ops2)
    decreases ops1
  {
    if ops1 == [] {
      assert ops1 + ops2 == ops2;
      assert [] + LostOn(b, ops2) == LostOn(b, ops2);
    } else {
      var op, rest := ops1[0], ops1[1..];
      assert (ops1 + ops2)[1..] == rest + ops2;
      StepKeyed(b, op);
      var b1 := Step(b, op).0;
      LostAppend(b1, rest, ops2);
      assert Lost(b, op) + (LostOn(b1, rest) + LostOn(Run(b, ops1).0, ops2))
          == Lost(b, op) + LostOn(b1, rest) + LostOn(Run(b, ops1).0, ops2);
    }
  }

  lemma {:induction false} PushedAppend(ops1: seq<Op>, ops2: seq<Op>)
    ensures Pushed(ops1 + ops2) == Pushed(ops1) + Pushed(ops2)
  {
    if ops1 == [] {
      assert ops1 + ops2 == ops2;
    } else {
      assert (ops1 + ops2)[1..] == ops1[1..] + ops2;
      PushedAppend(ops1[1..], ops2);
    }
  }
}
