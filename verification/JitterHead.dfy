/** Where the head of the jitter buffer goes, which operations move it back, and how much the buffer holds. */
module JitterHead {
  import opened Packets
  import opened JitterModel
  import opened JitterOrder

  /** Every packet that b held and t does not is behind the head of t. */
  ghost predicate PassedOver(b: Jitter, t: Jitter)
  {
    forall d :: d in b.packets && d !in t.packets ==> d < t.head
  }

  /** The head of t is that of b, or just behind a packet that b held and t does not. */
  ghost predicate JustBehind(b: Jitter, t: Jitter)
  {
    t.head == b.head || (exists d :: d in b.packets && d !in t.packets && t.head == d + 1)
  }

  lemma DroppedHead(b: Jitter)
    requires |b.packets| > 1 && b.started
    ensures var t, k := DropOldest(b), MinKey(b.packets);
            && k + 1 < TWO32 && t.started && t.packets == b.packets - {k} && t.head == (if k >= b.head then k + 1 else b.head)
  {
    var k := MinKey(b.packets);
    assert |b.packets.Keys - {k}| == |b.packets| - 1;
    var other :| other in b.packets.Keys - {k};
    assert k < other;
  }

  /** Trimming never moves the head back: a started head goes just behind the newest dropped packet that it was not past. */
  lemma {:induction false} TrimMovesHead(b: Jitter)
    requires b.maxKeep >= 1
    ensures var t := Trim(b);
            if b.started then b.head <= t.head && PassedOver(b, t) && JustBehind(b, t) else t.head == b.head
    decreases |b.packets|
  {
    if |b.packets| > b.maxKeep {
      var d := DropOldest(b);
      if b.started {
        DroppedHead(b);
      }
      TrimMovesHead(d);
      if b.started {
        TrimKeepsNewest(d);
        JoinDrops(b, d, Trim(d), MinKey(b.packets));
      }
    }
  }

  lemma JoinDrops(b: Jitter, d: Jitter, t: Jitter, k: uint32)
    requires k in b.packets && d.packets == b.packets - {k} && k !in t.packets
    requires d.head == (if k >= b.head then k + 1 else b.head)
    requires d.head <= t.head && PassedOver(d, t) && JustBehind(d, t)
    ensures PassedOver(b, t) && JustBehind(b, t)
  {
  }

  /** No number is so high that the head would wrap behind it. */
  ghost predicate Roomy(b: Jitter)
  {
    forall k :: k in b.packets ==> k + 1 < TWO32
  }

  /**
   While a buffer stays started its head goes back exactly in two ways: a pop answers with a packet that lies more
   than one behind it, or an end marker starts the buffer anew from a late packet. Pushes and resizes, whatever they
   trim, never move it back.
   */
  lemma {:induction false} HeadGoesBackIff(b: Jitter, op: Op)
    requires WellFormed(b) && Legal(op) && Roomy(b) && b.started && Step(b, op).0.started
    ensures var (b1, out) := Step(b, op);
            b1.head < b.head
            <==> || (op.PopOp? && out.Some? && out.value.sequence + 1 < b.head)
                 || (op.ForceOp? && exists k :: k in b.packets && k < b.head)
  {
    match op {
      case PushOp(p) =>
        if p.sequence !in b.packets {
          TrimMovesHead(Insert(b, p));
        }
      case PopOp => PopMovesHead(b);
      case ForceOp =>
        if |b.packets| > 0 {
          assert MinKey(b.packets) in b.packets;
        }
      case ResizeOp(n, floor, ceil) => TrimMovesHead(Deepen(b, Clamp(n, floor, ceil)));
      case ResetOp =>
    }
  }

  lemma PopMovesHead(b: Jitter)
    requires WellFormed(b) && Roomy(b) && b.started && |b.packets| > 0
    ensures var (b1, out) := Pop(b); b1.head == if out.Some? then out.value.sequence + 1 else b.head
  {
    assert MinKey(b.packets) in b.packets;
  }

  // ---------- The capacity ----------

  /** Eight times the depth, and no less than 32. */
  function Capacity(depth: nat): nat
  {
    if depth <= 4 then 32 else 8 * depth
  }

  lemma {:induction false} StaysWellFormed(b: Jitter, ops: seq<Op>)
    requires WellFormed(b) && AllLegal(ops)
    ensures WellFormed(Run(b, ops).0)
    decreases ops
  {
    hide Step, WellFormed;
    if ops != [] {
      assert ops[0] in ops;
      StepWellFormed(b, ops[0]);
      StaysWellFormed(Step(b, ops[0]).0, ops[1..]);
    }
  }

  /** On every run from an empty buffer, resized as may be, the buffer holds up to its capacity and never more. */
  lemma CapacityHolds(depth: nat, ops: seq<Op>)
    requires 1 <= depth <= 0xFFFF && AllLegal(ops)
    ensures var b := Run(Empty(depth), ops).0;
            1 <= b.minStart <= 0xFFFF && b.maxKeep == Capacity(b.minStart) && |b.packets| <= Capacity(b.minStart)
  {
    StaysWellFormed(Empty(depth), ops);
  }

  /** And a push that finds room, however late, adds its packet and drops none. */
  lemma RoomKeepsAll(b: Jitter, p: AudioPacket)
    requires WellFormed(b) && p.sequence !in b.packets && |b.packets| < Capacity(b.minStart)
    ensures Push(b, p).packets == b.packets[p.sequence := p]
    ensures Push(b, p).started <==> b.started || |b.packets| + 1 >= b.minStart
  {
    TrimKeepsNewest(Insert(b, p));
  }
}
