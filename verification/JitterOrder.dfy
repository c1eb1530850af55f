/**
 Whole runs of the jitter buffer: it refines a priority queue with hold-off as long as no packet
 arrives behind the head, and its output increases while it stays started.
 */
module JitterOrder {
  import opened Packets
  import opened JitterModel

  datatype Op =
    | PushOp(p: AudioPacket)
    | PopOp
    | ForceOp
    | ResizeOp(n: int, floor: nat, ceil: nat)
    | ResetOp

  /** Resizing is only ever asked for with depths between one and 16 bits. */
  ghost predicate Legal(op: Op)
  {
    op.ResizeOp? ==> 1 <= op.floor <= 0xFFFF && 1 <= op.ceil <= 0xFFFF
  }

  ghost predicate AllLegal(ops: seq<Op>)
  {
    forall op :: op in ops ==> Legal(op)
  }

  ghost function Step(b: Jitter, op: Op): (Jitter, Option<AudioPacket>)
  {
    match op
    case PushOp(p) => (Push(b, p), None)
    case PopOp => Pop(b)
    case ForceOp => (ForceStart(b), None)
    case ResizeOp(n, floor, ceil) => (SetMinStart(b, n, floor, ceil), None)
    case ResetOp => (Reset(b), None)
  }

  function Emit<T>(o: Option<T>, s: seq<T>): seq<T>
  {
    if o.Some? then [o.value] + s else s
  }

  /** The final buffer and everything popped on the way. */
  ghost function Run(b: Jitter, ops: seq<Op>): (Jitter, seq<AudioPacket>)
    decreases ops
  {
    if ops == [] then (b, [])
    else
      var (b1, out) := Step(b, ops[0]);
      var (b2, rest) := Run(b1, ops[1..]);
      (b2, Emit(out, rest))
  }

  // ---------- Invariants ----------

  /** Nothing waits behind a started head. */
  ghost predicate Ordered(b: Jitter)
  {
    b.started ==> forall k :: k in b.packets ==> b.head <= k
  }

  lemma TrimWellFormed(b: Jitter)
    requires 1 <= b.minStart <= 0xFFFF && b.maxKeep == KeepFor(b.minStart) && Keyed(b.packets)
    ensures WellFormed(Trim(b))
  {
    TrimKeepsNewest(b);
  }

  lemma TakeWellFormed(b: Jitter)
    requires WellFormed(b) && b.head in b.packets
    ensures WellFormed(Take(b).0) && |Take(b).0.packets| == |b.packets| - 1
  {
    assert (b.packets - {b.head}).Keys == b.packets.Keys - {b.head};
  }

  lemma PopWellFormed(b: Jitter)
    requires WellFormed(b)
    ensures WellFormed(Pop(b).0)
  {
    if |b.packets| != 0 && (b.started || |b.packets| >= b.minStart) {
      var b1 := if b.started then b else Start(b);
      if b1.head in b1.packets {
        TakeWellFormed(b1);
      } else {
        TakeWellFormed(b1.(head := MinKey(b1.packets)));
      }
    }
  }

  lemma PushWellFormed(b: Jitter, p: AudioPacket)
    requires WellFormed(b)
    ensures WellFormed(Push(b, p))
  {
    if p.sequence !in b.packets {
      TrimWellFormed(Insert(b, p));
    }
  }

  lemma SetMinStartWellFormed(b: Jitter, n: int, floor: nat, ceil: nat)
    requires WellFormed(b) && 1 <= floor <= 0xFFFF && 1 <= ceil <= 0xFFFF
    ensures WellFormed(SetMinStart(b, n, floor, ceil))
  {
    TrimWellFormed(Deepen(b, Clamp(n, floor, ceil)));
  }

  /** Occupancy, depth and capacity stay consistent under every operation. */
  lemma StepWellFormed(b: Jitter, op: Op)
    requires WellFormed(b) && Legal(op)
    ensures WellFormed(Step(b, op).0)
  {
    match op
    case PushOp(p) => PushWellFormed(b, p);
    case PopOp => PopWellFormed(b);
    case ForceOp =>
    case ResizeOp(n, floor, ceil) => SetMinStartWellFormed(b, n, floor, ceil);
    case ResetOp =>
  }

  lemma {:induction false} TrimOrdered(b: Jitter)
    requires Ordered(b) && b.maxKeep >= 1
    ensures Ordered(Trim(b)) && b.head <= Trim(b).head
    decreases |b.packets|
  {
    if |b.packets| > b.maxKeep {
      var k := MinKey(b.packets);
      assert |b.packets.Keys - {k}| == |b.packets| - 1;
      var other :| other in b.packets.Keys - {k};
      assert k < other;
      TrimOrdered(DropOldest(b));
    }
  }

  // ---------- The reference: a priority queue with hold-off, which has no head ----------

  datatype Queue = Queue(minStart: nat, maxKeep: nat, items: map<uint32, AudioPacket>, ready: bool)

  function Abstract(b: Jitter): Queue
  {
    Queue(b.minStart, b.maxKeep, b.packets, b.started)
  }

  ghost function KeepNewest(items: map<uint32, AudioPacket>, n: nat): map<uint32, AudioPacket>
    decreases |items|
  {
    if |items| <= n then items
    else
      var k := MinKey(items);
      assert (items - {k}).Keys == items.Keys - {k};
      KeepNewest(items - {k}, n)
  }

  ghost function QPush(q: Queue, p: AudioPacket): Queue
  {
    if p.sequence in q.items then q
    else
      var items := q.items[p.sequence := p];
      q.(items := KeepNewest(items, q.maxKeep), ready := q.ready || |items| >= q.minStart)
  }

  /** Holds off until ready or deep enough, then hands out the least number. */
  ghost function QPop(q: Queue): (Queue, Option<AudioPacket>)
  {
    if |q.items| == 0 then (q.(ready := false), None)
    else if !q.ready && |q.items| < q.minStart then (q, None)
    else
      var k := MinKey(q.items);
      (q.(items := q.items - {k}, ready := true), Some(q.items[k]))
  }

  ghost function QResize(q: Queue, n: int, floor: nat, ceil: nat): Queue
  {
    var depth := Clamp(n, floor, ceil);
    if depth == q.minStart then q
    else q.(minStart := depth, maxKeep := KeepFor(depth), items := KeepNewest(q.items, KeepFor(depth)))
  }

  ghost function QStep(q: Queue, op: Op): (Queue, Option<AudioPacket>)
  {
    match op
    case PushOp(p) => (QPush(q, p), None)
    case PopOp => QPop(q)
    case ForceOp => (q.(ready := q.ready || |q.items| > 0), None)
    case ResizeOp(n, floor, ceil) => (QResize(q, n, floor, ceil), None)
    case ResetOp => (q.(items := map[], ready := false), None)
  }

  ghost function QRun(q: Queue, ops: seq<Op>): (Queue, seq<AudioPacket>)
    decreases ops
  {
    if ops == [] then (q, [])
    else
      var (q1, out) := QStep(q, ops[0]);
      var (q2, rest) := QRun(q1, ops[1..]);
      (q2, Emit(out, rest))
  }

  /** The operation does not add a packet behind the head of a started buffer. */
  ghost predicate NotLate(b: Jitter, op: Op)
  {
    op.PushOp? && b.started ==> b.head <= op.p.sequence
  }

  ghost predicate LateFree(b: Jitter, ops: seq<Op>)
    decreases ops
  {
    ops != [] ==> NotLate(b, ops[0]) && LateFree(Step(b, ops[0]).0, ops[1..])
  }

  lemma {:induction false} TrimIsKeepNewest(b: Jitter)
    ensures Trim(b).packets == KeepNewest(b.packets, b.maxKeep) && Trim(b).started == b.started
    decreases |b.packets|
  {
    if |b.packets| > b.maxKeep {
      TrimIsKeepNewest(DropOldest(b));
    }
  }

  lemma PushOrdered(b: Jitter, p: AudioPacket)
    requires WellFormed(b) && Ordered(b) && NotLate(b, PushOp(p))
    ensures Ordered(Push(b, p)) && (b.started ==> b.head <= Push(b, p).head)
    ensures Abstract(Push(b, p)) == QPush(Abstract(b), p)
  {
    if p.sequence !in b.packets {
      var b1 := Insert(b, p);
      TrimOrdered(b1);
      TrimIsKeepNewest(b1);
      TrimKeepsNewest(b1);
    }
  }

  lemma TakeOrdered(b: Jitter)
    requires Ordered(b) && b.started && b.head in b.packets
    ensures Ordered(Take(b).0)
  {
    if b.head + 1 > 0xFFFF_FFFF {
      assert forall k :: k in b.packets ==> k == b.head;
    }
  }

  /** On an ordered buffer one pop is one pop of the queue. */
  lemma PopOrdered(b: Jitter)
    requires WellFormed(b) && Ordered(b)
    ensures Ordered(Pop(b).0)
    ensures (Abstract(Pop(b).0), Pop(b).1) == QPop(Abstract(b))
  {
    if |b.packets| != 0 && (b.started || |b.packets| >= b.minStart) {
      var b1 := if b.started then b else Start(b);
      var k := MinKey(b1.packets);
      assert b1.head in b1.packets ==> b1.head == k;
      TakeOrdered(b1.(head := k));
    }
  }

  lemma ResizeOrdered(b: Jitter, n: int, floor: nat, ceil: nat)
    requires WellFormed(b) && Ordered(b) && Legal(ResizeOp(n, floor, ceil))
    ensures Ordered(SetMinStart(b, n, floor, ceil)) && b.head <= SetMinStart(b, n, floor, ceil).head
    ensures Abstract(SetMinStart(b, n, floor, ceil)) == QResize(Abstract(b), n, floor, ceil)
  {
    var b1 := Deepen(b, Clamp(n, floor, ceil));
    TrimOrdered(b1);
    TrimIsKeepNewest(b1);
    TrimKeepsNewest(b1);
  }

  lemma StepRefinesQueue(b: Jitter, op: Op)
    requires WellFormed(b) && Ordered(b) && Legal(op) && NotLate(b, op)
    ensures Ordered(Step(b, op).0)
    ensures (Abstract(Step(b, op).0), Step(b, op).1) == QStep(Abstract(b), op)
  {
    match op
    case PushOp(p) => PushOrdered(b, p);
    case PopOp => PopOrdered(b);
    case ForceOp =>
    case ResizeOp(n, floor, ceil) => ResizeOrdered(b, n, floor, ceil);
    case ResetOp =>
  }

  /**
   Over any run without a late push the buffer is the priority queue: same outputs, same content,
   same readiness, and nothing resident is ever behind the head.
   */
  lemma {:induction false} RunRefinesQueue(b: Jitter, ops: seq<Op>)
    requires WellFormed(b) && Ordered(b) && AllLegal(ops) && LateFree(b, ops)
    ensures WellFormed(Run(b, ops).0) && Ordered(Run(b, ops).0)
    ensures (Abstract(Run(b, ops).0), Run(b, ops).1) == QRun(Abstract(b), ops)
    decreases ops
  {
    if ops != [] {
      assert ops[0] in ops;
      StepWellFormed(b, ops[0]);
      StepRefinesQueue(b, ops[0]);
      RunRefinesQueue(Step(b, ops[0]).0, ops[1..]);
    }
  }

  /**
   Exactly when a started, non-empty buffer answers like the queue: nothing resident is behind
   the head, or the head is missing and the newest packet is more than half a capacity ahead.
   */
  lemma {:induction false} PopReturnsLeastIff(b: Jitter)
    requires WellFormed(b) && b.started && |b.packets| != 0
    ensures Pop(b).1 == Some(b.packets[MinKey(b.packets)])
            <==> Ordered(b)
                 || (b.head !in b.packets && Add32(b.head, Truncate32(b.maxKeep / 2)) < MaxKey(b.packets))
  {
    assert b.head in b.packets ==> b.packets[b.head].sequence == b.head;
    assert b.packets[MinKey(b.packets)].sequence == MinKey(b.packets);
  }

  // ---------- Strict order within a started epoch ----------

  ghost predicate StaysStarted(b: Jitter, ops: seq<Op>)
    decreases ops
  {
    b.started && (ops != [] ==> StaysStarted(Step(b, ops[0]).0, ops[1..]))
  }

  predicate Increasing(s: seq<AudioPacket>)
  {
    forall i, j :: 0 <= i < j < |s| ==> s[i].sequence < s[j].sequence
  }

  /** The last 32-bit number is not in use, so the head cannot wrap. */
  ghost predicate BelowTop(b: Jitter)
  {
    forall k :: k in b.packets ==> k < 0xFFFF_FFFF
  }

  ghost predicate PushesBelowTop(ops: seq<Op>)
  {
    forall op :: op in ops && op.PushOp? ==> op.p.sequence < 0xFFFF_FFFF
  }

  lemma EpochPush(b: Jitter, p: AudioPacket)
    requires WellFormed(b) && Ordered(b) && NotLate(b, PushOp(p)) && BelowTop(b) && p.sequence < 0xFFFF_FFFF
    ensures BelowTop(Push(b, p))
  {
    if p.sequence !in b.packets {
      TrimKeepsNewest(Insert(b, p));
    }
  }

  lemma EpochPop(b: Jitter)
    requires WellFormed(b) && Ordered(b) && BelowTop(b) && b.started && Pop(b).0.started
    ensures BelowTop(Pop(b).0) && b.head <= Pop(b).0.head
    ensures Pop(b).1.Some? ==> b.head <= Pop(b).1.value.sequence < Pop(b).0.head
  {
    var k := MinKey(b.packets);
    assert b.head in b.packets ==> b.head == k;
    assert b.packets[k].sequence == k;
  }

  lemma EpochStep(b: Jitter, op: Op)
    requires WellFormed(b) && Ordered(b) && Legal(op) && NotLate(b, op)
    requires BelowTop(b) && PushesBelowTop([op])
    requires b.started && Step(b, op).0.started
    ensures BelowTop(Step(b, op).0)
    ensures b.head <= Step(b, op).0.head
    ensures Step(b, op).1.Some? ==> b.head <= Step(b, op).1.value.sequence < Step(b, op).0.head
  {
    assert op in [op];
    match op
    case PushOp(p) =>
      PushOrdered(b, p);
      EpochPush(b, p);
    case PopOp => EpochPop(b);
    case ForceOp =>
    case ResizeOp(n, floor, ceil) =>
      ResizeOrdered(b, n, floor, ceil);
      TrimKeepsNewest(Deepen(b, Clamp(n, floor, ceil)));
    case ResetOp =>
  }

  lemma PrependLeast(p: AudioPacket, s: seq<AudioPacket>)
    requires Increasing(s) && forall q :: q in s ==> p.sequence < q.sequence
    ensures Increasing([p] + s)
  {
    var t := [p] + s;
    forall i, j | 0 <= i < j < |t|
      ensures t[i].sequence < t[j].sequence
    {
      assert t[j] == s[j - 1] && s[j - 1] in s;
    }
  }

  /** While the buffer stays started, packets leave in strictly increasing order, none behind the head. */
  lemma {:induction false} EpochIncreases(b: Jitter, ops: seq<Op>)
    requires WellFormed(b) && Ordered(b) && AllLegal(ops) && LateFree(b, ops)
    requires BelowTop(b) && PushesBelowTop(ops) && StaysStarted(b, ops)
    ensures Increasing(Run(b, ops).1)
    ensures forall p :: p in Run(b, ops).1 ==> b.head <= p.sequence
    decreases ops
  {
    if ops != [] {
      var op := ops[0];
      assert op in ops;
      StepWellFormed(b, op);
      StepRefinesQueue(b, op);
      var (b1, out) := Step(b, op);
      EpochStep(b, op);
      EpochIncreases(b1, ops[1..]);
      if out.Some? {
        PrependLeast(out.value, Run(b1, ops[1..]).1);
      }
    }
  }
}
