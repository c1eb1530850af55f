/**
 Draining without a marker: enough ticks play whatever waits, if the buffer has started or the first of them
 comes more than a packet time after the last packet.
 */
module SpeakerDrain {
  import opened Packets
  import opened JitterModel
  import opened JitterOrder
  import opened JitterLedger
  import opened JitterInOrder
  import opened SpeakerModel
  import opened SpeakerFlow

  /** The buffer has started, or has nothing to start with. */
  predicate Flowing(b: Jitter)
  {
    b.started || |b.packets| == 0
  }

  ghost predicate Sound(c: Timing, s: Speaker)
  {
    WellFormed(JitterOf(c, s)) && Ordered(JitterOf(c, s))
  }

  /** The next tick finds something to play, if anything waits. */
  predicate Drains(c: Timing, s: Speaker, ticks: seq<Event>)
    requires GoodTicks(ticks)
  {
    Flowing(JitterOf(c, s))
    || (ticks != [] && (assert ticks[0] in ticks; ticks[0].at - StreamOf(c, s).lastPacketAt > c.packetDur))
  }

  lemma PrimedFlows(c: Timing, s: Speaker, at: int)
    requires s.stream.Some? && Sound(c, s)
    requires Flowing(JitterOf(c, s)) || at - s.stream.value.lastPacketAt > c.packetDur
    ensures var b := Primed(c, s.stream.value, at).jitter;
            && WellFormed(b) && Ordered(b) && Flowing(b)
            && b.packets == JitterOf(c, s).packets
  {
  }

  lemma ResizedFlows(c: Timing, b: Jitter, depth: Option<int>)
    requires ValidTiming(c) && WellFormed(b) && Ordered(b) && Flowing(b)
    ensures var b1 := Resized(c, b, depth);
            WellFormed(b1) && Ordered(b1) && Flowing(b1) && |b1.packets| <= |b.packets|
  {
    if depth.Some? {
      var op := ResizeOp(depth.value, c.floor, c.ceil);
      StepWellFormed(b, op);
      ResizeOrdered(b, depth.value, c.floor, c.ceil);
      TrimKeepsNewest(Deepen(b, Clamp(depth.value, c.floor, c.ceil)));
    }
  }

  lemma AdaptResizes(c: Timing, st: Stream, played: bool, conceal: bool)
    ensures var st1 := Adapt(c, st, played, conceal);
            && st1.jitter == Resized(c, st.jitter, WantedDepth(c, st, played, conceal))
            && st1.lastPacketAt == st.lastPacketAt
  {
  }

  lemma PopShrinks(b: Jitter)
    requires WellFormed(b) && Ordered(b) && Flowing(b) && |b.packets| != 0
    ensures var (b1, popped) := Pop(b);
            popped.Some? && WellFormed(b1) && Ordered(b1) && Flowing(b1) && |b1.packets| < |b.packets|
  {
    hide Pop, Ordered, WellFormed;
    PopLeast(b);
    PopOrdered(b);
    PopWellFormed(b);
  }

  lemma DrainMix(c: Timing, s: Speaker, at: int, decoded: Option<seq<int>>)
    requires ValidTiming(c) && s.stream.Some? && decoded.Some? && Sound(c, s) && |JitterOf(c, s).packets| != 0
    requires Flowing(JitterOf(c, s)) || at - s.stream.value.lastPacketAt > c.packetDur
    ensures var s1 := MixTick(c, s, at, decoded).0;
            && s1.stream.Some? && s1.stream.value.lastPacketAt == at
            && Sound(c, s1) && Flowing(JitterOf(c, s1)) && |JitterOf(c, s1).packets| < |JitterOf(c, s).packets|
  {
    PrimedFlows(c, s, at);
    hide Pop, WellFormed, Ordered, Flowing, Resized, Primed, Play, WantedDepth, Adapt;
    var st := Primed(c, s.stream.value, at);
    PopShrinks(st.jitter);
    PlayDecodes(c, st, s.eofMarked, at, decoded);
    var (s1, out) := Play(c, st, s.eofMarked, at, decoded);
    AdaptResizes(c, s1.stream.value, out.played, out.conceal);
    ResizedFlows(c, s1.stream.value.jitter, WantedDepth(c, s1.stream.value, out.played, out.conceal));
  }

  /** The tick of a drain plays a packet, and the buffer goes on flowing. */
  lemma DrainTick(c: Timing, s: Speaker, at: int, decoded: Option<seq<int>>)
    requires ValidTiming(c) && s.stream.Some? && decoded.Some? && Sound(c, s) && |JitterOf(c, s).packets| != 0
    requires Flowing(JitterOf(c, s)) || at - s.stream.value.lastPacketAt > c.packetDur
    ensures var s1 := Next(c, s, Tick(at, decoded, true)).0;
            && s1.stream.Some? && Sound(c, s1) && Flowing(JitterOf(c, s1))
            && |JitterOf(c, s1).packets| < |JitterOf(c, s).packets|
  {
    hide MixTick, Sound, Flowing;
    DrainMix(c, s, at, decoded);
  }

  lemma {:induction false} TicksEmpty(c: Timing, s: Speaker, ticks: seq<Event>)
    requires ValidTiming(c) && GoodTicks(ticks) && Sound(c, s)
    requires |ticks| >= |JitterOf(c, s).packets| && Drains(c, s, ticks)
    ensures |JitterOf(c, RunAll(c, s, ticks).0).packets| == 0
    decreases ticks
  {
    hide Next, WellFormed, Ordered;
    if ticks == [] {
    } else {
      var e := ticks[0];
      assert e in ticks;
      if |JitterOf(c, s).packets| == 0 {
        EmptyTick(c, s, e);
        EmptyIsSound(c, Next(c, s, e).0);
        TickWellFormed(c, s, e);
        TicksEmpty(c, Next(c, s, e).0, ticks[1..]);
      } else {
        DrainTick(c, s, e.at, e.decoded);
        TicksEmpty(c, Next(c, s, e).0, ticks[1..]);
      }
    }
  }

  lemma TickWellFormed(c: Timing, s: Speaker, e: Event)
    requires ValidTiming(c) && Sound(c, s)
    ensures WellFormed(JitterOf(c, Next(c, s, e).0))
  {
    EventIsJitterRun(c, s, e);
  }

  lemma EmptyIsSound(c: Timing, s: Speaker)
    requires |JitterOf(c, s).packets| == 0
    ensures Ordered(JitterOf(c, s)) && Flowing(JitterOf(c, s))
  {
  }

  lemma {:induction false} AllOpsAppend(c: Timing, s: Speaker, es: seq<Event>, fs: seq<Event>)
    ensures AllOps(c, s, es + fs) == AllOps(c, s, es) + AllOps(c, RunAll(c, s, es).0, fs)
    decreases es
  {
    hide Next, Ops;
    if es == [] {
      assert es + fs == fs;
      assert [] + AllOps(c, s, fs) == AllOps(c, s, fs);
    } else {
      assert (es + fs)[1..] == es[1..] + fs;
      AllOpsAppend(c, Next(c, s, es[0]).0, es[1..], fs);
      Regroup(Ops(c, s, es[0]), AllOps(c, Next(c, s, es[0]).0, es[1..]), AllOps(c, RunAll(c, s, es).0, fs));
    }
  }

  lemma Regroup<X>(a: seq<X>, b: seq<X>, d: seq<X>)
    ensures a + b + d == a + (b + d)
  {
  }

  /** A lossless run leaves the buffer sound. */
  lemma LosslessIsSound(c: Timing, es: seq<Event>)
    requires ValidTiming(c) && FollowsOn(Arrivals(es), -1)
    requires LostIn(c, Speaker(None, false), es) == []
    ensures Sound(c, RunAll(c, Speaker(None, false), es).0)
  {
    var s0 := Speaker(None, false);
    SpeakerIsJitterRun(c, s0, es);
    LosslessRunIsFifo(JitterOf(c, s0), AllOps(c, s0, es), -1);
    RunRefinesQueue(JitterOf(c, s0), AllOps(c, s0, es));
  }

  lemma LosslessAtFirst(c: Timing, es: seq<Event>, fs: seq<Event>)
    requires ValidTiming(c) && LostIn(c, Speaker(None, false), es + fs) == []
    ensures LostIn(c, Speaker(None, false), es) == []
  {
    var s0 := Speaker(None, false);
    AllOpsAppend(c, s0, es, fs);
    LostAppend(JitterOf(c, s0), AllOps(c, s0, es), AllOps(c, RunAll(c, s0, es).0, fs));
  }

  lemma {:induction false} TicksBringNothing(es: seq<Event>, ticks: seq<Event>)
    requires GoodTicks(ticks)
    ensures Arrivals(es + ticks) == Arrivals(es)
    decreases |es| + |ticks|
  {
    if es == [] {
      assert es + ticks == ticks;
      if ticks != [] {
        assert ticks[0] in ticks;
        TicksBringNothing([], ticks[1..]);
        assert [] + ticks[1..] == ticks[1..];
      }
    } else {
      assert (es + ticks)[1..] == es[1..] + ticks;
      TicksBringNothing(es[1..], ticks);
    }
  }

  /**
   At least as many good ticks as packets wait play everything that has arrived, with no marker at all: as long
   as nothing is lost, and the buffer has started or the ticks begin a packet time after the last packet.
   */
  lemma {:induction false} TicksDrainLossless(c: Timing, es: seq<Event>, ticks: seq<Event>)
    requires ValidTiming(c) && FollowsOn(Arrivals(es), -1)
    requires LostIn(c, Speaker(None, false), es + ticks) == []
    requires GoodTicks(ticks) && |ticks| >= Waiting(c, es)
    requires Drains(c, RunAll(c, Speaker(None, false), es).0, ticks)
    ensures Popped(RunAll(c, Speaker(None, false), es + ticks).1) == Arrivals(es)
  {
    hide RunAll, LostIn, Drains, Sound;
    var s0 := Speaker(None, false);
    TicksBringNothing(es, ticks);
    LosslessAtFirst(c, es, ticks);
    LosslessIsSound(c, es);
    TicksEmpty(c, RunAll(c, s0, es).0, ticks);
    RunAllAppend(c, s0, es, ticks);
    LosslessIsPlayed(c, es + ticks);
    var m := JitterOf(c, RunAll(c, s0, es + ticks).0).packets;
    ListingEmpty(Sorted(m), m);
    assert Popped(RunAll(c, s0, es + ticks).1) + [] == Popped(RunAll(c, s0, es + ticks).1);
  }

  // ---------- A flowing buffer goes on flowing ----------

  /** Ticks and markers never stop a flowing buffer from flowing. */
  lemma FlowStays(c: Timing, s: Speaker, e: Event)
    requires Flowing(JitterOf(c, s)) && !e.Arrive?
    ensures Flowing(JitterOf(c, Next(c, s, e).0))
  {
    hide Gain, Faded;
    if e.Tick? && s.stream.Some? {
      var st := Primed(c, s.stream.value, e.at);
      PopKeepsStart(st.jitter);
      PlayPops(c, st, s.eofMarked, e.at, e.decoded);
      var (s1, out) := Play(c, st, s.eofMarked, e.at, e.decoded);
      ResizedKeepsStart(c, s1.stream.value.jitter, WantedDepth(c, s1.stream.value, out.played, out.conceal));
    }
  }

  lemma MarkerFlows(c: Timing, s: Speaker, at: int)
    ensures Flowing(JitterOf(c, OnEof(s, at)))
  {
  }
}
