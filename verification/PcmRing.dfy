/**
 The Android playback ring: a circular buffer of samples that drops the oldest when it is full, and from
 which the playback thread takes whole frames.
 */
module PcmRing {
  import opened Circles

  /** The buffer as a bounded queue, oldest sample first. */
  datatype Queue = Queue(capacity: nat, content: seq<int>)

  const EMPTY: Queue := Queue(0, [])

  function AtLeast(n: int, least: int): int
  {
    if n < least then least else n
  }

  /** The capacity that a frame length asks for: a number of frames, and never less than four. */
  function Needed(frame: int, ringFrames: int): (n: nat)
    ensures n >= 4
  {
    var f := AtLeast(frame, 1);
    AtLeast(f * ringFrames, f * 4)
  }

  function Capacity(q: Queue, frame: int, ringFrames: int): nat
  {
    if q.capacity >= Needed(frame, ringFrames) then q.capacity else Needed(frame, ringFrames)
  }

  /** After an offer the queue holds the last samples of the old content and the new, as many as fit. */
  function Offered(q: Queue, pcm: seq<int>, frame: int, ringFrames: int): Queue
  {
    if pcm == [] then q
    else Queue(Capacity(q, frame, ringFrames), Last(q.content + pcm, Capacity(q, frame, ringFrames)))
  }

  /** A read takes the oldest whole frame, or nothing. */
  function FrameRead(q: Queue, frame: int): seq<int>
  {
    if |q.content| < AtLeast(frame, 1) then [] else q.content[..AtLeast(frame, 1)]
  }

  function AfterRead(q: Queue, frame: int): Queue
  {
    q.(content := q.content[|FrameRead(q, frame)|..])
  }

  // ---------- Runs ----------

  datatype Op =
    | Offer(pcm: seq<int>, frame: int)
    | Read(frame: int)
    | Reset

  function Apply(ringFrames: int, q: Queue, op: Op): Queue
  {
    match op
    case Offer(pcm, frame) => Offered(q, pcm, frame, ringFrames)
    case Read(frame) => AfterRead(q, frame)
    case Reset => EMPTY
  }

  function After(ringFrames: int, q: Queue, ops: seq<Op>): Queue
    decreases ops
  {
    if ops == [] then q else After(ringFrames, Apply(ringFrames, q, ops[0]), ops[1..])
  }

  function New(op: Op): seq<int>
  {
    if op.Offer? then op.pcm else []
  }

  /** All the samples that a run offers. */
  function AllOffered(ops: seq<Op>): seq<int>
    decreases ops
  {
    if ops == [] then [] else New(ops[0]) + AllOffered(ops[1..])
  }

  /** A played frame, with the place of its first sample among all the samples offered. */
  datatype Block = Block(start: int, samples: seq<int>)

  function BlockRead(q: Queue, offered: nat, op: Op): seq<Block>
  {
    if op.Read? && FrameRead(q, op.frame) != []
    then [Block(offered - |q.content|, FrameRead(q, op.frame))] else []
  }

  /** The frames that a run plays, given how many samples had been offered before it. */
  function Played(ringFrames: int, q: Queue, offered: nat, ops: seq<Op>): seq<Block>
    decreases ops
  {
    if ops == [] then []
    else
      BlockRead(q, offered, ops[0])
      + Played(ringFrames, Apply(ringFrames, q, ops[0]), offered + |New(ops[0])|, ops[1..])
  }

  /** The blocks are pieces of the text, one after the other without overlap, from a place on. */
  predicate InOrder(blocks: seq<Block>, text: seq<int>, from: int)
    decreases blocks
  {
    blocks != [] ==>
      && 0 <= from <= blocks[0].start
      && blocks[0].start + |blocks[0].samples| <= |text|
      && text[blocks[0].start..blocks[0].start + |blocks[0].samples|] == blocks[0].samples
      && InOrder(blocks[1..], text, blocks[0].start + |blocks[0].samples|)
  }

  /** What is buffered is the end of what has been offered. */
  predicate HoldsEnd(q: Queue, text: seq<int>)
  {
    q.content == Last(text, |q.content|)
  }

  lemma OfferHoldsEnd(text: seq<int>, k: nat, pcm: seq<int>, n: nat)
    requires k <= |text|
    ensures var content := Last(text, k) + pcm;
            Last(content, n) == Last(text + pcm, |Last(content, n)|)
  {
    var content, all := Last(text, k) + pcm, text + pcm;
    assert all[|text| - k..] == content;
  }

  lemma ReadHoldsEnd(text: seq<int>, k: nat, taken: nat)
    requires taken <= k <= |text|
    ensures Last(text, k)[taken..] == Last(text, k - taken)
  {
  }

  lemma StepHoldsEnd(ringFrames: int, q: Queue, text: seq<int>, op: Op)
    requires HoldsEnd(q, text)
    ensures HoldsEnd(Apply(ringFrames, q, op), text + New(op))
  {
    hide Last, Needed, Capacity;
    match op {
      case Offer(pcm, frame) =>
        if pcm == [] {
          assert text + [] == text;
        } else {
          OfferHoldsEnd(text, |q.content|, pcm, Capacity(q, frame, ringFrames));
        }
      case Read(frame) =>
        assert text + [] == text;
        ReadHoldsEnd(text, |q.content|, |FrameRead(q, frame)|);
      case Reset =>
        EndIsEmpty(text + []);
    }
  }

  lemma EndIsEmpty(text: seq<int>)
    ensures Last(text, 0) == []
  {
  }

  /** Where the buffered samples begin among the offered ones. */
  function Start(q: Queue, text: seq<int>): int
  {
    |text| - |q.content|
  }

  lemma BlockFits(ringFrames: int, q: Queue, text: seq<int>, op: Op, all: seq<int>)
    requires HoldsEnd(q, text) && text <= all
    ensures InOrder(BlockRead(q, |text|, op), all, Start(q, text))
    ensures var end := Start(Apply(ringFrames, q, op), text + New(op));
            && 0 <= Start(q, text) <= end
            && (forall block :: block in BlockRead(q, |text|, op) ==> block.start + |block.samples| <= end)
  {
  }

  lemma InOrderJoins(block: seq<Block>, rest: seq<Block>, text: seq<int>, from: int, next: int)
    requires |block| <= 1 && InOrder(block, text, from) && InOrder(rest, text, next)
    requires 0 <= from <= next && forall b :: b in block ==> b.start + |b.samples| <= next
    ensures InOrder(block + rest, text, from)
  {
    if block == [] {
      assert block + rest == rest;
    } else {
      assert block[0] in block && (block + rest)[1..] == rest;
    }
  }

  /**
   Whatever is offered, read, overflown or reset: the played frames are pieces of the offered samples, in
   order and without overlap, so no sample is played twice or out of order; and the buffer is the end of them.
   */
  lemma {:induction false} PlayedInOrder(ringFrames: int, q: Queue, text: seq<int>, ops: seq<Op>)
    requires HoldsEnd(q, text)
    ensures var all := text + AllOffered(ops);
            InOrder(Played(ringFrames, q, |text|, ops), all, Start(q, text))
            && HoldsEnd(After(ringFrames, q, ops), all)
    decreases ops
  {
    hide Apply, BlockRead, HoldsEnd, Start, InOrder, AllOffered;
    Gather(text, ops);
    if ops == [] {
      NoBlocks(text, Start(q, text));
    } else {
      var op := ops[0];
      var q1, text1 := Apply(ringFrames, q, op), text + New(op);
      StepHoldsEnd(ringFrames, q, text, op);
      PlayedInOrder(ringFrames, q1, text1, ops[1..]);
      var all := text1 + AllOffered(ops[1..]);
      BlockFits(ringFrames, q, text, op, all);
      OneBlock(q, |text|, op);
      InOrderJoins(BlockRead(q, |text|, op), Played(ringFrames, q1, |text1|, ops[1..]), all,
                   Start(q, text), Start(q1, text1));
    }
  }

  lemma Gather(text: seq<int>, ops: seq<Op>)
    ensures ops == [] ==> text + AllOffered(ops) == text
    ensures ops != [] ==> text + New(ops[0]) + AllOffered(ops[1..]) == text + AllOffered(ops)
    ensures text <= text + AllOffered(ops)
  {
    hide New, AllOffered;
    AllOfferedStep(ops);
    if ops == [] {
      assert text + [] == text;
    } else {
      ThreeParts(text, New(ops[0]), AllOffered(ops[1..]));
    }
  }

  lemma ThreeParts(a: seq<int>, b: seq<int>, c: seq<int>)
    ensures a + b + c == a + (b + c)
  {
  }

  lemma NoBlocks(text: seq<int>, from: int)
    ensures InOrder([], text, from)
  {
  }

  lemma OneBlock(q: Queue, offered: nat, op: Op)
    ensures |BlockRead(q, offered, op)| <= 1
  {
  }

  function Joined(blocks: seq<Block>): seq<int>
    decreases blocks
  {
    if blocks == [] then [] else blocks[0].samples + Joined(blocks[1..])
  }

  /** No offer of the run overflows, and there is no reset. */
  predicate Fits(ringFrames: int, q: Queue, ops: seq<Op>)
    decreases ops
  {
    ops != [] ==>
      && !ops[0].Reset?
      && (ops[0].Offer? ==> |q.content| + |ops[0].pcm| <= Capacity(q, ops[0].frame, ringFrames))
      && Fits(ringFrames, Apply(ringFrames, q, ops[0]), ops[1..])
  }

  /** Without overflow nothing is lost: played frames and the rest of the buffer are exactly what came in. */
  lemma {:induction false} FittingRunConserves(ringFrames: int, q: Queue, offered: nat, ops: seq<Op>)
    requires Fits(ringFrames, q, ops)
    ensures Joined(Played(ringFrames, q, offered, ops)) + After(ringFrames, q, ops).content
            == q.content + AllOffered(ops)
    decreases ops
  {
    hide Apply, BlockRead, Joined, AllOffered, New, Capacity;
    AllOfferedStep(ops);
    if ops == [] {
      JoinedSplit([], []);
    } else {
      var op := ops[0];
      var q1 := Apply(ringFrames, q, op);
      FittingRunConserves(ringFrames, q1, offered + |New(op)|, ops[1..]);
      var block, rest := BlockRead(q, offered, op), Played(ringFrames, q1, offered + |New(op)|, ops[1..]);
      OneBlock(q, offered, op);
      JoinedSplit(block, rest);
      FittingStepConserves(ringFrames, q, offered, op);
      Shuffle(Joined(block), Joined(rest), After(ringFrames, q, ops).content, q1.content,
              AllOffered(ops[1..]), q.content, New(op));
    }
  }

  lemma AllOfferedStep(ops: seq<Op>)
    ensures AllOffered(ops) == if ops == [] then [] else New(ops[0]) + AllOffered(ops[1..])
  {
  }

  lemma FittingStepConserves(ringFrames: int, q: Queue, offered: nat, op: Op)
    requires !op.Reset? && (op.Offer? ==> |q.content| + |op.pcm| <= Capacity(q, op.frame, ringFrames))
    ensures Joined(BlockRead(q, offered, op)) + Apply(ringFrames, q, op).content == q.content + New(op)
  {
    hide Joined;
    var block := BlockRead(q, offered, op);
    JoinedSplit(block, []);
    assert block + [] == block;
    if op.Read? {
      assert FrameRead(q, op.frame) + AfterRead(q, op.frame).content == q.content;
    }
  }

  lemma JoinedSplit(block: seq<Block>, rest: seq<Block>)
    requires |block| <= 1
    ensures Joined(block + rest) == Joined(block) + Joined(rest)
    ensures Joined(block) == if block == [] then [] else block[0].samples
  {
    if block == [] {
      assert block + rest == rest;
    } else {
      assert (block + rest)[1..] == rest && block[1..] == [];
      assert Joined(block) == block[0].samples + Joined([]);
    }
  }

  lemma Shuffle(a: seq<int>, b: seq<int>, c: seq<int>, d: seq<int>, e: seq<int>, f: seq<int>, g: seq<int>)
    requires b + c == d + e && a + d == f + g
    ensures a + b + c == f + (g + e)
  {
    assert a + b + c == a + (b + c) == a + d + e == f + g + e;
  }

  // ---------- The ring ----------

  lemma LastGrows(content: seq<int>, x: int, n: nat)
    requires |content| <= n && n > 0
    ensures Last(content + [x], n) == (if |content| == n then content[1..] else content) + [x]
  {
  }

  lemma LastOfLast(s: seq<int>, x: int, n: nat)
    requires n > 0
    ensures Last(Last(s, n) + [x], n) == Last(s + [x], n)
  {
  }

  /** The samples in a circle from a place on. */
  function Circle(ring: seq<int>, from: int, size: int): (s: seq<int>)
    requires 0 <= from <= |ring| && 0 <= size <= |ring|
    ensures |s| == size
  {
    if from + size <= |ring| then ring[from..from + size] else ring[from..] + ring[..from + size - |ring|]
  }

  predicate WriteMeetsEnd(read: int, size: int, write: int, capacity: int)
  {
    write == if read + size < capacity then read + size else read + size - capacity
  }

  lemma CircleDrops(ring: seq<int>, from: int, size: int)
    requires 0 <= from < |ring| && 0 < size <= |ring|
    ensures Circle(ring, Next(from, |ring|), size - 1) == Circle(ring, from, size)[1..]
            && Circle(ring, from, size)[0] == ring[from]
  {
  }

  lemma CircleGrows(ring: seq<int>, from: int, size: int, write: int, x: int)
    requires 0 <= from < |ring| && 0 <= size < |ring| && WriteMeetsEnd(from, size, write, |ring|)
    ensures Circle(ring[write := x], from, size + 1) == Circle(ring, from, size) + [x]
  {
  }

  lemma CircleFromZero(ring: seq<int>, size: int)
    requires 0 <= size <= |ring|
    ensures Circle(ring, 0, size) == ring[..size]
  {
  }

  lemma Slides(content: seq<int>, i: nat)
    requires i < |content|
    ensures content[i..][0] == content[i] && content[i..][1..] == content[i + 1..]
    ensures content[..i + 1] == content[..i] + [content[i]]
  {
  }

  lemma LastStart(content: seq<int>, pcm: seq<int>, n: nat)
    requires |content| <= n
    ensures Last(content + pcm[..0], n) == content
  {
    assert content + pcm[..0] == content;
  }

  lemma LastStep(content: seq<int>, pcm: seq<int>, i: nat, n: nat)
    requires n > 0 && i < |pcm|
    ensures Last(Last(content + pcm[..i], n) + [pcm[i]], n) == Last(content + pcm[..i + 1], n)
  {
    assert content + pcm[..i + 1] == content + pcm[..i] + [pcm[i]];
    LastOfLast(content + pcm[..i], pcm[i], n);
  }

  class RxPcmJitterBuffer {
    const ringFrameCapacity: int
    var ring: array<int>
    var ringCapacity: nat
    var writePos: int
    var readPos: int
    var size: int

    ghost predicate Valid()
      reads this, ring
    {
      && ring.Length == ringCapacity && 0 <= size <= ringCapacity
      && (if ringCapacity == 0 then readPos == writePos == 0
          else 0 <= readPos < ringCapacity && WriteMeetsEnd(readPos, size, writePos, ringCapacity))
    }

    ghost function View(): Queue
      requires Valid()
      reads this, ring
    {
      Queue(ringCapacity, Circle(ring[..], readPos, size))
    }

    constructor (ringFrames: int)
      ensures Valid() && View() == EMPTY && ringFrameCapacity == ringFrames && fresh(ring)
    {
      ringFrameCapacity := ringFrames;
      ring := new int[0];
      ringCapacity, writePos, readPos, size := 0, 0, 0, 0;
    }

    method ResetCodec()
      modifies this
      ensures Valid() && View() == EMPTY && fresh(ring)
    {
      size, writePos, readPos, ringCapacity := 0, 0, 0, 0;
      ring := new int[0];
    }

    method EnsureRingCapacity(frameSamples: int)
      requires Valid()
      modifies this
      ensures Valid() && ringCapacity > 0 && (ring == old(ring) || fresh(ring))
      ensures View() == Queue(Capacity(old(View()), frameSamples, ringFrameCapacity), old(View()).content)
    {
      hide Circle;
      var frame := AtLeast(frameSamples, 1);
      var needed := AtLeast(frame * ringFrameCapacity, frame * 4);
      if ringCapacity >= needed && ring.Length != 0 {
        return;
      }
      var oldRing, oldCap, oldSize, oldRead := ring, ringCapacity, size, readPos;
      ring := new int[needed];
      ringCapacity := needed;
      readPos, writePos, size := 0, 0, 0;
      if oldCap > 0 && oldSize > 0 {
        CopyFrom(oldRing, oldRead, oldSize);
      } else {
        CircleFromZero(ring[..], 0);
      }
    }

    /** The samples of the old ring, oldest first, to the start of the new and larger one. */
    method CopyFrom(oldRing: array<int>, oldRead: int, oldSize: int)
      requires Valid() && size == readPos == 0 && oldRing != ring
      requires 0 <= oldRead < oldRing.Length && 0 < oldSize <= oldRing.Length < ringCapacity
      modifies this`writePos, this`size, ring
      ensures Valid() && View().content == Circle(oldRing[..], oldRead, oldSize)
    {
      hide Circle;
      var needed, rp := ringCapacity, oldRead;
      ghost var old1 := oldRing[..];
      ghost var content := Circle(old1, oldRead, oldSize);
      var count := if oldSize < needed then oldSize else needed;
      var i := 0;
      assert ring[..0] == content[..0] && content[0..] == content;
      while i < count
        invariant 0 <= i <= count == oldSize && size == i && 0 <= rp < |old1| && oldRing[..] == old1
        invariant writePos == if i < needed then i else 0
        invariant ring[..i] == content[..i] && Circle(old1, rp, oldSize - i) == content[i..]
      {
        CircleDrops(old1, rp, oldSize - i);
        Slides(content, i);
        ghost var copied := ring[..i];
        ring[writePos] := oldRing[rp];
        assert ring[..i + 1] == copied + [oldRing[rp]];
        writePos := Next(writePos, ringCapacity);
        size := size + 1;
        rp := Next(rp, oldRing.Length);
        i := i + 1;
      }
      CircleFromZero(ring[..], size);
    }

    method Offer(pcm: seq<int>, frameSamples: int)
      requires Valid()
      modifies this, ring
      ensures Valid() && (ring == old(ring) || fresh(ring))
      ensures View() == Offered(old(View()), pcm, frameSamples, ringFrameCapacity)
    {
      if pcm == [] {
        return;
      }
      hide Circle, Last, Capacity, WriteMeetsEnd;
      EnsureRingCapacity(frameSamples);
      PutAll(pcm);
    }

    method PutAll(pcm: seq<int>)
      requires Valid() && ringCapacity > 0
      modifies this`readPos, this`size, this`writePos, ring
      ensures Valid()
      ensures View().content == Last(old(View()).content + pcm, ringCapacity)
    {
      hide Circle, Last, WriteMeetsEnd;
      ghost var content := View().content;
      var i := 0;
      LastStart(content, pcm, ringCapacity);
      while i < |pcm|
        invariant 0 <= i <= |pcm| && Valid()
        invariant View().content == Last(content + pcm[..i], ringCapacity)
      {
        Put(pcm[i]);
        LastStep(content, pcm, i, ringCapacity);
        i := i + 1;
      }
      assert pcm[..i] == pcm;
    }

    /** One sample in, over the oldest one when the ring is full. */
    method Put(sample: int)
      requires Valid() && ringCapacity > 0
      modifies this`readPos, this`size, this`writePos, ring
      ensures Valid()
      ensures View().content == Last(old(View()).content + [sample], ringCapacity)
    {
      hide Circle, Last;
      LastGrows(View().content, sample, ringCapacity);
      if size == ringCapacity {
        CircleDrops(ring[..], readPos, size);
        readPos := Next(readPos, ringCapacity);
        size := size - 1;
      }
      CircleGrows(ring[..], readPos, size, writePos, sample);
      ghost var stored := ring[..];
      ring[writePos] := sample;
      assert ring[..] == stored[writePos := sample];
      writePos := Next(writePos, ringCapacity);
      size := size + 1;
    }

    /** The read of the playback loop: a whole frame, or nothing. */
    method ReadFrame(frameSamplesProvided: int) returns (frame: array<int>, got: int)
      requires Valid()
      modifies this`readPos, this`size
      ensures Valid() && View() == AfterRead(old(View()), frameSamplesProvided)
      ensures fresh(frame) && 0 <= got <= frame.Length && frame[..got] == FrameRead(old(View()), frameSamplesProvided)
    {
      hide Circle;
      var frameSamples := AtLeast(frameSamplesProvided, 1);
      frame := new int[frameSamples];
      if size < frameSamples {
        got := 0;
        assert frame[..0] == [];
      } else {
        TakeInto(frame);
        got := frameSamples;
        assert frame[..got] == frame[..];
      }
    }

    /** Fills a frame with the oldest samples, and takes them out of the ring. */
    method TakeInto(frame: array<int>)
      requires Valid() && 0 < frame.Length <= size && frame != ring
      modifies this`readPos, this`size, frame
      ensures Valid()
      ensures frame[..] == old(View()).content[..frame.Length]
      ensures View() == old(View()).(content := old(View()).content[frame.Length..])
    {
      hide Circle;
      ghost var content, stored := View().content, ring[..];
      var n, i := frame.Length, 0;
      assert frame[..0] == content[..0] && content[0..] == content;
      while i < n
        invariant 0 <= i <= n == frame.Length <= size <= ringCapacity == ring.Length && ring[..] == stored
        invariant 0 <= readPos < ringCapacity && WriteMeetsEnd(readPos, size - i, writePos, ringCapacity)
        invariant frame[..i] == content[..i] && Circle(stored, readPos, size - i) == content[i..]
      {
        CircleDrops(stored, readPos, size - i);
        Slides(content, i);
        ghost var taken := frame[..i];
        frame[i] := ring[readPos];
        assert frame[..i + 1] == taken + [ring[readPos]];
        readPos := Next(readPos, ringCapacity);
        i := i + 1;
      }
      size := size - n;
      assert frame[..n] == frame[..];
    }
  }

  // ---------- What the ring is good for ----------

  function Reads(frame: int, n: nat): seq<Op>
  {
    seq(n, _ => Read(frame))
  }

  function Lesser(a: int, b: int): int
  {
    if a < b then a else b
  }

  /** A read plays a frame exactly if a whole one is there. */
  lemma ReadPlaysIff(q: Queue, frame: int, offered: nat)
    requires frame > 0
    ensures var blocks := BlockRead(q, offered, Read(frame));
            if |q.content| >= frame then blocks == [Block(offered - |q.content|, q.content[..frame])] else blocks == []
    ensures AfterRead(q, frame).content == if |q.content| >= frame then q.content[frame..] else q.content
  {
  }

  /** How many whole frames there are in m samples, and how many samples there are in k frames. */
  function WholeFrames(m: nat, frame: int): nat
    requires frame > 0
  {
    m / frame
  }

  function Samples(k: int, frame: int): int
  {
    k * frame
  }

  /** n reads in a row play n frames, or as many whole ones as there are, and leave the rest. */
  lemma {:induction false} ReadsDrain(ringFrames: int, q: Queue, frame: int, n: nat, offered: nat)
    requires frame > 0
    ensures var k := Lesser(n, WholeFrames(|q.content|, frame));
            && |Played(ringFrames, q, offered, Reads(frame, n))| == k
            && |After(ringFrames, q, Reads(frame, n)).content| == |q.content| - Samples(k, frame)
    decreases n
  {
    hide BlockRead, AfterRead, Reads, WholeFrames, Samples;
    FirstRead(frame, n);
    NoSamples(frame);
    if n > 0 {
      ReadPlaysIff(q, frame, offered);
      ReadsDrain(ringFrames, AfterRead(q, frame), frame, n - 1, offered);
      OneFrameLess(|q.content|, frame, n);
    }
  }

  lemma FirstRead(frame: int, n: nat)
    ensures n == 0 ==> Reads(frame, n) == []
    ensures n > 0 ==> Reads(frame, n) != [] && Reads(frame, n)[0] == Read(frame) && Reads(frame, n)[1..] == Reads(frame, n - 1)
  {
  }

  lemma NoSamples(frame: int)
    ensures Samples(0, frame) == 0
  {
  }

  lemma OneFrameLess(m: nat, frame: int, n: nat)
    requires frame > 0 && n > 0
    ensures m < frame ==> WholeFrames(m, frame) == 0
    ensures m >= frame ==>
              && WholeFrames(m, frame) == WholeFrames(m - frame, frame) + 1
              && Samples(Lesser(n, WholeFrames(m, frame)), frame)
                 == Samples(Lesser(n - 1, WholeFrames(m - frame, frame)), frame) + frame
  {
    if m >= frame {
      QuotientLess(m, frame);
      OneFrameMore(Lesser(n - 1, m / frame - 1), frame);
    } else {
      NoFrameIn(m, frame);
    }
  }

  lemma NoFrameIn(m: nat, frame: int)
    requires m < frame
    ensures m / frame == 0
  {
  }

  lemma OneFrameMore(k: int, frame: int)
    ensures (k + 1) * frame == k * frame + frame
  {
  }

  lemma QuotientLess(m: nat, frame: int)
    requires 0 < frame <= m
    ensures (m - frame) / frame == m / frame - 1
  {
    var q, rest := m / frame, m % frame;
    assert m == q * frame + rest;
    OneFrameMore(q - 1, frame);
    var p, rest1 := (m - frame) / frame, (m - frame) % frame;
    assert m - frame == p * frame + rest1;
    SameQuotient(p, rest1, q - 1, rest, frame);
  }

  lemma SameQuotient(p: int, a: nat, q: int, b: nat, frame: int)
    requires p * frame + a == q * frame + b && a < frame && b < frame
    ensures p == q
  {
    if p < q {
      FramesApart(p, q, frame);
    } else if q < p {
      FramesApart(q, p, frame);
    }
  }

  lemma FramesApart(p: int, q: int, frame: int)
    requires p < q && 0 < frame
    ensures p * frame + frame <= q * frame
  {
    var d := q - p - 1;
    assert d * frame >= 0;
    assert q * frame == p * frame + d * frame + frame;
  }

  /** An offer loses nothing as long as all fits into the asked number of frames, or four; growth is never undone. */
  lemma OfferKeepsAll(q: Queue, pcm: seq<int>, frame: int, ringFrames: int)
    requires frame > 0
    requires |q.content| + |pcm| <= frame * ringFrames || |q.content| + |pcm| <= frame * 4
    ensures Offered(q, pcm, frame, ringFrames).content == q.content + pcm
    ensures Offered(q, pcm, frame, ringFrames).capacity >= q.capacity
  {
    assert q.content + [] == q.content;
  }
}
