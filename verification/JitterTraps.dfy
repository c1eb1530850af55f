/**
 Where the jitter buffer leaves the order of numbers: exactly when a pop answers from behind the head, and a
 reachable buffer each for going back and for answering nothing while packets wait.
 */
module JitterTraps {
  import opened Packets
  import opened JitterModel
  import opened JitterOrder

  /**
   A started, non-empty buffer goes backwards exactly when something resident lies behind the head, the head is
   missing, and the newest packet is more than half a capacity ahead.
   */
  lemma {:induction false} PopGoesBackIff(b: Jitter)
    requires WellFormed(b) && b.started && |b.packets| != 0
    ensures Pop(b).1.Some? && Pop(b).1.value.sequence < b.head
            <==> !Ordered(b) && b.head !in b.packets
                 && Add32(b.head, Truncate32(b.maxKeep / 2)) < MaxKey(b.packets)
  {
    var k: uint32 := MinKey(b.packets);
    assert k in b.packets && forall x :: x in b.packets ==> k <= x;
  }

  function Voice(n: uint32): AudioPacket
  {
    AudioPacket(1, n, 255, [1])
  }

  function Holding(packets: map<uint32, AudioPacket>): Jitter
  {
    Jitter(1, 32, packets, 101, true)
  }

  /** A packet of a speaker has been played, then a late one and a newer one have come. */
  function LateAnd(newer: uint32): Jitter
  {
    Holding(map[50 := Voice(50), newer := Voice(newer)])
  }

  function LateRun(newer: uint32): seq<Op>
  {
    [PushOp(Voice(100)), PopOp, PushOp(Voice(50)), PushOp(Voice(newer))]
  }

  lemma OneIsLeast(m: map<uint32, AudioPacket>, k: uint32)
    requires m.Keys == {k}
    ensures |m| == 1 && MinKey(m) == k
  {
    assert |m| == |m.Keys|;
    MinKeyIs(m, k);
  }

  lemma LateSteps(newer: uint32)
    requires 101 < newer
    ensures Push(Empty(1), Voice(100)) == Jitter(1, 32, map[100 := Voice(100)], 100, true)
    ensures Pop(Jitter(1, 32, map[100 := Voice(100)], 100, true)) == (Holding(map[]), Some(Voice(100)))
    ensures Push(Holding(map[]), Voice(50)) == Holding(map[50 := Voice(50)])
    ensures Push(Holding(map[50 := Voice(50)]), Voice(newer)) == LateAnd(newer)
  {
    var one: map<uint32, AudioPacket> := map[100 := Voice(100)];
    OneIsLeast(one, 100);
    assert one - {100} == map[];
    var two: map<uint32, AudioPacket> := map[50 := Voice(50)];
    OneIsLeast(two, 50);
    assert two[newer := Voice(newer)] == LateAnd(newer).packets;
    assert |two[newer := Voice(newer)]| == 2;
  }

  /** The buffer of LateAnd is reached from a fresh one. */
  lemma {:induction false} LateIsReached(newer: uint32)
    requires 101 < newer
    ensures Run(Empty(1), LateRun(newer)) == (LateAnd(newer), [Voice(100)])
  {
    hide Push, Pop;
    LateSteps(newer);
    var ops := LateRun(newer);
    var b1, b2, b3 := Jitter(1, 32, map[100 := Voice(100)], 100, true), Holding(map[]), Holding(map[50 := Voice(50)]);
    assert ops[1..] == [ops[1], ops[2], ops[3]];
    assert [ops[1], ops[2], ops[3]][1..] == [ops[2], ops[3]];
    assert [ops[2], ops[3]][1..] == [ops[3]] && [ops[3]][1..] == [];
    assert Run(b3, [ops[3]]) == (LateAnd(newer), []);
    assert Run(b2, [ops[2], ops[3]]) == (LateAnd(newer), []);
    assert [Voice(100)] + [] == [Voice(100)];
    assert Run(b1, ops[1..]) == (LateAnd(newer), [Voice(100)]);
  }

  lemma LateKeys(newer: uint32)
    requires 101 < newer
    ensures MinKey(LateAnd(newer).packets) == 50 && MaxKey(LateAnd(newer).packets) == newer
    ensures |LateAnd(newer).packets| == 2
  {
    var m := LateAnd(newer).packets;
    assert m.Keys == {50, newer};
    MinKeyIs(m, 50);
    MaxKeyIs(m, newer);
    assert |m| == |m.Keys|;
  }

  /** After 100 was played, the late 50 comes out once 118 or later has come. */
  lemma GoesBack(newer: uint32)
    requires 117 < newer
    ensures Run(Empty(1), LateRun(newer)).0 == LateAnd(newer) && Run(Empty(1), LateRun(newer)).1 == [Voice(100)]
    ensures Pop(LateAnd(newer)).1 == Some(Voice(50))
  {
    hide Run;
    LateIsReached(newer);
    LateKeys(newer);
  }

  /** Up to 117 the buffer answers nothing, although the late 50 and the newer packet wait. */
  lemma Stalls(newer: uint32)
    requires 101 < newer <= 117
    ensures Run(Empty(1), LateRun(newer)).0 == LateAnd(newer) && |LateAnd(newer).packets| == 2
    ensures Pop(LateAnd(newer)) == (LateAnd(newer), None)
  {
    hide Run;
    LateIsReached(newer);
    LateKeys(newer);
  }
}
