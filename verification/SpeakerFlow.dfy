/** Every run of a speaker is a run of its jitter buffer; so order and completeness carry over. */
module SpeakerFlow {
  import opened Packets
  import opened JitterModel
  import opened JitterOrder
  import opened JitterLedger
  import opened JitterInOrder
  import opened SpeakerModel

  function JitterOf(c: Timing, s: Speaker): Jitter
  {
    StreamOf(c, s).jitter
  }

  // ---------- The jitter operations behind each event ----------

  ghost function KickOps(c: Timing, st: Stream, now: int): seq<Op>
  {
    if Stuck(c, FlushDecoder(c, st.(txEofPending := false), now), now) then [ForceOp, PopOp] else [PopOp]
  }

  ghost function AdaptOps(c: Timing, s: Speaker, now: int, decoded: Option<seq<int>>): seq<Op>
    requires s.stream.Some?
  {
    var (s1, out) := Play(c, Primed(c, s.stream.value, now), s.eofMarked, now, decoded);
    if c.adapt && !s1.eofMarked then
      var depth := WantedDepth(c, s1.stream.value, out.played, out.conceal);
      if depth.Some? then [ResizeOp(depth.value, c.floor, c.ceil)] else []
    else []
  }

  ghost function CleanupOps(c: Timing, s: Speaker, now: int, present: bool): seq<Op>
  {
    if Expired(c, s, now, present) then [ResetOp, ResizeOp(c.floor, c.floor, c.ceil)] else []
  }

  ghost function Ops(c: Timing, s: Speaker, e: Event): seq<Op>
  {
    match e
    case Arrive(p, at) => if Leftover(c, StreamOf(c, s), at) then [ResetOp, PushOp(p)] else [PushOp(p)]
    case Marker(at) => [ForceOp]
    case Tick(at, decoded, present) =>
      if s.stream.None? then []
      else KickOps(c, s.stream.value, at) + AdaptOps(c, s, at, decoded)
           + CleanupOps(c, MixTick(c, s, at, decoded).0, at, present)
  }

  lemma RunOne(b: Jitter, op: Op)
    ensures Run(b, [op]) == (Step(b, op).0, Emit(Step(b, op).1, []))
    ensures Pushed([op]) == Emit(if op.PushOp? then Some(op.p) else None, [])
  {
    assert [op][1..] == [];
  }

  lemma RunTwo(b: Jitter, op1: Op, op2: Op)
    ensures Run(b, [op1, op2])
            == (Step(Step(b, op1).0, op2).0, Emit(Step(b, op1).1, Emit(Step(Step(b, op1).0, op2).1, [])))
    ensures Pushed([op1, op2])
            == Emit(if op1.PushOp? then Some(op1.p) else None, Emit(if op2.PushOp? then Some(op2.p) else None, []))
  {
    assert [op1, op2][1..] == [op2];
    RunOne(Step(b, op1).0, op2);
  }

  lemma KickRun(c: Timing, st: Stream, now: int)
    ensures Run(st.jitter, KickOps(c, st, now))
            == (Pop(Primed(c, st, now).jitter).0, Emit(Pop(Primed(c, st, now).jitter).1, []))
    ensures Pushed(KickOps(c, st, now)) == []
  {
    RunOne(st.jitter, PopOp);
    RunTwo(st.jitter, ForceOp, PopOp);
  }

  lemma AdaptRun(c: Timing, s: Speaker, now: int, decoded: Option<seq<int>>)
    requires s.stream.Some?
    ensures Run(Pop(Primed(c, s.stream.value, now).jitter).0, AdaptOps(c, s, now, decoded))
            == (JitterOf(c, MixTick(c, s, now, decoded).0), [])
    ensures Pushed(AdaptOps(c, s, now, decoded)) == []
  {
    hide Gain, Faded;
    var (s1, out) := Play(c, Primed(c, s.stream.value, now), s.eofMarked, now, decoded);
    var depth := WantedDepth(c, s1.stream.value, out.played, out.conceal);
    if depth.Some? {
      RunOne(s1.stream.value.jitter, ResizeOp(depth.value, c.floor, c.ceil));
    }
  }

  lemma CleanupRun(c: Timing, s: Speaker, now: int, present: bool)
    requires ValidTiming(c) && WellFormed(JitterOf(c, s))
    ensures Run(JitterOf(c, s), CleanupOps(c, s, now, present)) == (JitterOf(c, Cleanup(c, s, now, present)), [])
    ensures Pushed(CleanupOps(c, s, now, present)) == []
  {
    if Expired(c, s, now, present) {
      RunTwo(JitterOf(c, s), ResetOp, ResizeOp(c.floor, c.floor, c.ceil));
    }
  }

  function Arrivals(es: seq<Event>): seq<AudioPacket>
  {
    if es == [] then []
    else if es[0].Arrive? then [es[0].p] + Arrivals(es[1..])
    else Arrivals(es[1..])
  }

  function Popped(outs: seq<Outcome>): seq<AudioPacket>
  {
    if outs == [] then [] else Emit(outs[0].popped, Popped(outs[1..]))
  }

  lemma OpsLegal(c: Timing, s: Speaker, e: Event)
    requires ValidTiming(c)
    ensures AllLegal(Ops(c, s, e))
  {
    hide Gain, Faded;
  }

  lemma {:induction false} RunWellFormed(b: Jitter, ops: seq<Op>)
    requires WellFormed(b) && AllLegal(ops)
    ensures WellFormed(Run(b, ops).0)
    decreases ops
  {
    if ops != [] {
      assert ops[0] in ops;
      StepWellFormed(b, ops[0]);
      RunWellFormed(Step(b, ops[0]).0, ops[1..]);
    }
  }

  lemma RunInThree(
    b: Jitter, k: seq<Op>, a: seq<Op>, l: seq<Op>, b1: Jitter, b2: Jitter, b3: Jitter, out: seq<AudioPacket>)
    requires Run(b, k) == (b1, out) && Run(b1, a) == (b2, []) && Run(b2, l) == (b3, [])
    requires Pushed(k) == Pushed(a) == Pushed(l) == []
    ensures Run(b, k + a + l) == (b3, out) && Pushed(k + a + l) == []
  {
    RunAppend(b, k, a);
    RunAppend(b, k + a, l);
    PushedAppend(k, a);
    PushedAppend(k + a, l);
    assert out + [] == out;
  }

  lemma MixTickWellFormed(c: Timing, s: Speaker, at: int, decoded: Option<seq<int>>)
    requires ValidTiming(c) && WellFormed(JitterOf(c, s)) && s.stream.Some?
    ensures WellFormed(JitterOf(c, MixTick(c, s, at, decoded).0))
  {
    hide Gain, Faded;
    KickRun(c, s.stream.value, at);
    RunWellFormed(JitterOf(c, s), KickOps(c, s.stream.value, at));
    AdaptRun(c, s, at, decoded);
    RunWellFormed(Pop(Primed(c, s.stream.value, at).jitter).0, AdaptOps(c, s, at, decoded));
  }

  lemma TickIsJitterRun(c: Timing, s: Speaker, at: int, decoded: Option<seq<int>>, present: bool)
    requires ValidTiming(c) && WellFormed(JitterOf(c, s)) && s.stream.Some?
    ensures var e := Tick(at, decoded, present);
            && Run(JitterOf(c, s), Ops(c, s, e)) == (JitterOf(c, Next(c, s, e).0), Emit(Next(c, s, e).1.popped, []))
            && Pushed(Ops(c, s, e)) == []
  {
    hide KickOps, AdaptOps, Run, Pop, Primed, Resized, WantedDepth;
    var st := s.stream.value;
    var s1 := MixTick(c, s, at, decoded).0;
    var (b1, popped) := Pop(Primed(c, st, at).jitter);
    KickRun(c, st, at);
    AdaptRun(c, s, at, decoded);
    MixTickWellFormed(c, s, at, decoded);
    CleanupRun(c, s1, at, present);
    RunInThree(JitterOf(c, s), KickOps(c, st, at), AdaptOps(c, s, at, decoded), CleanupOps(c, s1, at, present),
               b1, JitterOf(c, s1), JitterOf(c, Cleanup(c, s1, at, present)), Emit(popped, []));
  }

  /** Each event of a speaker is a short run of its jitter buffer. */
  lemma EventIsJitterRun(c: Timing, s: Speaker, e: Event)
    requires ValidTiming(c) && WellFormed(JitterOf(c, s))
    ensures Run(JitterOf(c, s), Ops(c, s, e)) == (JitterOf(c, Next(c, s, e).0), Emit(Next(c, s, e).1.popped, []))
    ensures Pushed(Ops(c, s, e)) == Emit(if e.Arrive? then Some(e.p) else None, [])
    ensures WellFormed(JitterOf(c, Next(c, s, e).0))
  {
    hide Gain, Faded;
    OpsLegal(c, s, e);
    match e {
      case Arrive(p, at) =>
        RunOne(JitterOf(c, s), PushOp(p));
        RunTwo(JitterOf(c, s), ResetOp, PushOp(p));
      case Marker(at) => RunOne(JitterOf(c, s), ForceOp);
      case Tick(at, decoded, present) =>
        if s.stream.Some? {
          TickIsJitterRun(c, s, at, decoded, present);
        }
    }
    RunWellFormed(JitterOf(c, s), Ops(c, s, e));
  }

  ghost function AllOps(c: Timing, s: Speaker, es: seq<Event>): seq<Op>
    decreases es
  {
    if es == [] then [] else Ops(c, s, es[0]) + AllOps(c, Next(c, s, es[0]).0, es[1..])
  }

  /**
   Every run of a speaker is a run of its jitter buffer: the packets played or thrown to the decoder are the
   buffer's output, the packets received its input, and the buffer ends up in the same state.
   */
  lemma {:induction false} SpeakerIsJitterRun(c: Timing, s: Speaker, es: seq<Event>)
    requires ValidTiming(c) && WellFormed(JitterOf(c, s))
    ensures Run(JitterOf(c, s), AllOps(c, s, es)) == (JitterOf(c, RunAll(c, s, es).0), Popped(RunAll(c, s, es).1))
    ensures Pushed(AllOps(c, s, es)) == Arrivals(es)
    ensures AllLegal(AllOps(c, s, es)) && WellFormed(JitterOf(c, RunAll(c, s, es).0))
    decreases es
  {
    hide Next, Ops;
    if es != [] {
      var e, rest := es[0], es[1..];
      var (s1, out) := Next(c, s, e);
      OpsLegal(c, s, e);
      EventIsJitterRun(c, s, e);
      SpeakerIsJitterRun(c, s1, rest);
      RunAppend(JitterOf(c, s), Ops(c, s, e), AllOps(c, s1, rest));
      PushedAppend(Ops(c, s, e), AllOps(c, s1, rest));
      PoppedFirst(out, RunAll(c, s1, rest).1);
      EmitJoins(out.popped, Popped(RunAll(c, s1, rest).1));
      EmitJoins(if e.Arrive? then Some(e.p) else None, Arrivals(rest));
    }
  }

  lemma EmitJoins<T>(o: Option<T>, s: seq<T>)
    ensures Emit(o, []) + s == Emit(o, s)
  {
  }

  lemma PoppedFirst(out: Outcome, outs: seq<Outcome>)
    ensures Popped([out] + outs) == Emit(out.popped, Popped(outs))
  {
    assert ([out] + outs)[1..] == outs;
  }

  /** Everything that a run of the speaker loses: duplicates, trimmed, reset and forgotten packets. */
  ghost function LostIn(c: Timing, s: Speaker, es: seq<Event>): seq<AudioPacket>
    requires WellFormed(JitterOf(c, s))
  {
    LostOn(JitterOf(c, s), AllOps(c, s, es))
  }

  /**
   A speaker whose packets arrive in order: as long as nothing is lost, what has been played followed by
   what waits is what has arrived, whatever markers, ticks and resizes come in between.
   */
  lemma {:induction false} LosslessIsPlayed(c: Timing, es: seq<Event>)
    requires ValidTiming(c) && FollowsOn(Arrivals(es), -1)
    requires LostIn(c, Speaker(None, false), es) == []
    ensures var (s, outs) := RunAll(c, Speaker(None, false), es);
            && WellFormed(JitterOf(c, s))
            && Popped(outs) + Sorted(JitterOf(c, s).packets) == Arrivals(es)
  {
    var s0 := Speaker(None, false);
    SpeakerIsJitterRun(c, s0, es);
    ListingEmpty(Sorted(JitterOf(c, s0).packets), JitterOf(c, s0).packets);
    LosslessRunIsFifo(JitterOf(c, s0), AllOps(c, s0, es), -1);
  }

  /** With losses the packets played still are in order, and none is played more often than it arrived. */
  lemma PlayedIsOrderedAnyway(c: Timing, es: seq<Event>, p: AudioPacket)
    requires ValidTiming(c) && FollowsOn(Arrivals(es), -1)
    ensures var outs := RunAll(c, Speaker(None, false), es).1;
            Increasing(Popped(outs)) && multiset(Popped(outs))[p] <= multiset(Arrivals(es))[p]
  {
    var s0 := Speaker(None, false);
    SpeakerIsJitterRun(c, s0, es);
    LossyRunKeepsOrder(JitterOf(c, s0), AllOps(c, s0, es), -1);
    NothingInvented(JitterOf(c, s0), AllOps(c, s0, es), p);
  }

  // ---------- Draining after the end marker ----------

  /** Ticks that decode what they pop, for a speaker who is still there. */
  predicate GoodTicks(es: seq<Event>)
  {
    forall e :: e in es ==> e.Tick? && e.decoded.Some? && e.present
  }

  lemma PlayPops(c: Timing, st: Stream, eofMarked: bool, at: int, decoded: Option<seq<int>>)
    ensures var (s1, out) := Play(c, st, eofMarked, at, decoded);
            s1.stream.Some? && s1.stream.value.jitter == Pop(st.jitter).0 && out.popped == Pop(st.jitter).1
  {
    hide Gain, Faded;
  }

  lemma GoodMix(c: Timing, s: Speaker, at: int, decoded: Option<seq<int>>)
    requires s.stream.Some? && s.eofMarked && decoded.Some? && JitterOf(c, s).started && Pop(JitterOf(c, s)).1.Some?
    ensures var (s1, out) := MixTick(c, s, at, decoded);
            && s1.stream.Some? && s1.eofMarked && JitterOf(c, s1) == Pop(JitterOf(c, s)).0
            && s1.stream.value.lastPacketAt == at && out.popped == Pop(JitterOf(c, s)).1
  {
    hide Pop, Primed, Play, Adapt;
    StartedIsPrimed(c, s.stream.value, at);
    PlayDecodes(c, Primed(c, s.stream.value, at), true, at, decoded);
  }

  lemma GoodTick(c: Timing, s: Speaker, at: int, decoded: Option<seq<int>>)
    requires ValidTiming(c) && s.stream.Some? && s.eofMarked && decoded.Some?
    requires WellFormed(JitterOf(c, s)) && Ordered(JitterOf(c, s)) && JitterOf(c, s).started
    requires |JitterOf(c, s).packets| != 0
    ensures var (s1, out) := Next(c, s, Tick(at, decoded, true));
            && s1.stream.Some? && s1.eofMarked && JitterOf(c, s1) == Pop(JitterOf(c, s)).0
            && out.popped == Pop(JitterOf(c, s)).1
  {
    hide Pop, WellFormed, Ordered, MixTick, JitterOf;
    ReadyPops(JitterOf(c, s));
    GoodMix(c, s, at, decoded);
    PresentStays(c, MixTick(c, s, at, decoded).0, at);
  }

  lemma ReadyPops(b: Jitter)
    requires WellFormed(b) && Ordered(b) && b.started && |b.packets| != 0
    ensures Pop(b).1.Some?
  {
    PopLeast(b);
  }

  lemma PresentStays(c: Timing, s: Speaker, now: int)
    requires ValidTiming(c) && s.stream.Some? && s.stream.value.lastPacketAt == now
    ensures Cleanup(c, s, now, true) == s
  {
  }

  lemma StartedIsPrimed(c: Timing, st: Stream, at: int)
    requires st.jitter.started
    ensures Primed(c, st, at).jitter == st.jitter
  {
  }

  lemma PlayDecodes(c: Timing, st: Stream, eofMarked: bool, at: int, decoded: Option<seq<int>>)
    requires Pop(st.jitter).1.Some? && decoded.Some?
    ensures var (s1, out) := Play(c, st, eofMarked, at, decoded);
            && s1.stream.Some? && s1.eofMarked == eofMarked && s1.stream.value.jitter == Pop(st.jitter).0
            && s1.stream.value.lastPacketAt == at && out.popped == Pop(st.jitter).1
            && out.played && !out.conceal
  {
    hide Gain, Faded, Pop;
  }

  /** A tick pops nothing from an empty buffer, and leaves it empty. */
  lemma EmptyTick(c: Timing, s: Speaker, e: Event)
    requires e.Tick? && |JitterOf(c, s).packets| == 0
    ensures |JitterOf(c, Next(c, s, e).0).packets| == 0 && Next(c, s, e).1.popped == None
  {
    hide Gain, Faded;
    if s.stream.Some? {
      var st := Primed(c, s.stream.value, e.at);
      PlayPops(c, st, s.eofMarked, e.at, e.decoded);
      var (s1, out) := Play(c, st, s.eofMarked, e.at, e.decoded);
      ResizeOfEmpty(c, s1.stream.value.jitter, WantedDepth(c, s1.stream.value, out.played, out.conceal));
    }
  }

  lemma ResizeOfEmpty(c: Timing, b: Jitter, depth: Option<int>)
    requires |b.packets| == 0
    ensures |Resized(c, b, depth).packets| == 0
  {
    if depth.Some? {
      TrimKeepsNewest(Deepen(b, Clamp(depth.value, c.floor, c.ceil)));
    }
  }

  lemma {:induction false} EmptyTicks(c: Timing, s: Speaker, es: seq<Event>)
    requires GoodTicks(es) && |JitterOf(c, s).packets| == 0
    ensures Popped(RunAll(c, s, es).1) == []
    decreases es
  {
    hide Next, JitterOf;
    if es == [] {
    } else {
      assert es[0] in es;
      EmptyTick(c, s, es[0]);
      var (s1, out) := Next(c, s, es[0]);
      EmptyTicks(c, s1, es[1..]);
      PoppedFirst(out, RunAll(c, s1, es[1..]).1);
    }
  }

  lemma {:induction false} GoodTicksDrain(c: Timing, s: Speaker, es: seq<Event>)
    requires ValidTiming(c) && GoodTicks(es) && s.stream.Some? && s.eofMarked
    requires WellFormed(JitterOf(c, s)) && Ordered(JitterOf(c, s))
    requires JitterOf(c, s).started || |JitterOf(c, s).packets| == 0
    requires |es| >= |JitterOf(c, s).packets|
    ensures Popped(RunAll(c, s, es).1) == Sorted(JitterOf(c, s).packets)
    decreases es
  {
    hide Next, Pop, Sorted;
    var b := JitterOf(c, s);
    if |b.packets| == 0 {
      ListingEmpty(Sorted(b.packets), b.packets);
      EmptyTicks(c, s, es);
    } else {
      var e, rest := es[0], es[1..];
      assert e in es;
      GoodTick(c, s, e.at, e.decoded);
      PopLeast(b);
      PopOrdered(b);
      PopWellFormed(b);
      var (s1, out) := Next(c, s, e);
      GoodTicksDrain(c, s1, rest);
      PoppedFirst(out, RunAll(c, s1, rest).1);
    }
  }

  lemma {:induction false} RunAllAppend(c: Timing, s: Speaker, es1: seq<Event>, es2: seq<Event>)
    ensures var (s1, out1) := RunAll(c, s, es1);
            RunAll(c, s, es1 + es2) == (RunAll(c, s1, es2).0, out1 + RunAll(c, s1, es2).1)
    decreases es1
  {
    if es1 == [] {
      assert es1 + es2 == es2;
      assert [] + RunAll(c, s, es2).1 == RunAll(c, s, es2).1;
    } else {
      var (s1, out) := Next(c, s, es1[0]);
      assert (es1 + es2)[1..] == es1[1..] + es2;
      RunAllAppend(c, s1, es1[1..], es2);
      var (s2, outs) := RunAll(c, s1, es1[1..]);
      assert [out] + (outs + RunAll(c, s2, es2).1) == [out] + outs + RunAll(c, s2, es2).1;
    }
  }

  lemma {:induction false} PoppedAppend(a: seq<Outcome>, b: seq<Outcome>)
    ensures Popped(a + b) == Popped(a) + Popped(b)
  {
    if a == [] {
      assert a + b == b;
    } else {
      assert (a + b)[1..] == a[1..] + b;
      PoppedAppend(a[1..], b);
      assert Emit(a[0].popped, Popped(a[1..]) + Popped(b)) == Emit(a[0].popped, Popped(a[1..])) + Popped(b);
    }
  }

  lemma MarkerAndTicksDrain(c: Timing, s: Speaker, at: int, ticks: seq<Event>)
    requires ValidTiming(c) && WellFormed(JitterOf(c, s)) && GoodTicks(ticks)
    requires |ticks| >= |JitterOf(c, s).packets|
    ensures Popped(RunAll(c, s, [Marker(at)] + ticks).1) == Sorted(JitterOf(c, s).packets)
  {
    var s1, b := OnEof(s, at), JitterOf(c, s);
    assert ([Marker(at)] + ticks)[1..] == ticks;
    var outs := RunAll(c, s1, ticks).1;
    var first := Outcome(None, None, false, false);
    assert RunAll(c, s, [Marker(at)] + ticks).1 == [first] + outs;
    PoppedFirst(first, outs);
    if |b.packets| == 0 {
      ListingEmpty(Sorted(b.packets), b.packets);
      EmptyTicks(c, s1, ticks);
    } else {
      GoodTicksDrain(c, s1, ticks);
    }
  }

  /** How many packets wait when a run is over. */
  ghost function Waiting(c: Timing, es: seq<Event>): nat
  {
    |JitterOf(c, RunAll(c, Speaker(None, false), es).0).packets|
  }

  /**
   After an end marker, at least as many good ticks as there are waiting packets play all of them: in total the
   speaker has played exactly what arrived, in order.
   */
  lemma {:induction false} MarkerDrainsLossless(c: Timing, es: seq<Event>, at: int, ticks: seq<Event>)
    requires ValidTiming(c) && FollowsOn(Arrivals(es), -1)
    requires LostIn(c, Speaker(None, false), es) == []
    requires GoodTicks(ticks) && |ticks| >= Waiting(c, es)
    ensures Popped(RunAll(c, Speaker(None, false), es + ([Marker(at)] + ticks)).1) == Arrivals(es)
  {
    var s0 := Speaker(None, false);
    var (s1, outs) := RunAll(c, s0, es);
    LosslessIsPlayed(c, es);
    RunAllAppend(c, s0, es, [Marker(at)] + ticks);
    PoppedAppend(outs, RunAll(c, s1, [Marker(at)] + ticks).1);
    MarkerAndTicksDrain(c, s1, at, ticks);
  }

  lemma PopKeepsStart(b: Jitter)
    requires b.started || |b.packets| == 0
    ensures Pop(b).0.started || |Pop(b).0.packets| == 0
  {
  }

  lemma PrimedUnsticks(c: Timing, st: Stream, at: int)
    requires at - st.lastPacketAt > c.packetDur
    ensures var b := Primed(c, st, at).jitter; b.started || |b.packets| == 0
  {
  }

  lemma ResizedKeepsStart(c: Timing, b: Jitter, depth: Option<int>)
    requires b.started || |b.packets| == 0
    ensures Resized(c, b, depth).started || |Resized(c, b, depth).packets| == 0
  {
    if depth.Some? {
      TrimKeepsNewest(Deepen(b, Clamp(depth.value, c.floor, c.ceil)));
    }
  }

  /**
   A tick more than one packet time after the last packet never leaves packets behind in a buffer that
   has not started.
   */
  lemma {:induction false} TickUnsticks(c: Timing, s: Speaker, at: int, decoded: Option<seq<int>>, present: bool)
    requires ValidTiming(c) && WellFormed(JitterOf(c, s))
    requires s.stream.Some? && at - s.stream.value.lastPacketAt > c.packetDur
    ensures var b := JitterOf(c, Next(c, s, Tick(at, decoded, present)).0); b.started || |b.packets| == 0
  {
    hide Gain, Faded, Pop, Primed, Play, Resized, WantedDepth;
    var st := Primed(c, s.stream.value, at);
    PrimedUnsticks(c, s.stream.value, at);
    PopKeepsStart(st.jitter);
    var (s1, out) := Play(c, st, s.eofMarked, at, decoded);
    PlayPops(c, st, s.eofMarked, at, decoded);
    ResizedKeepsStart(c, s1.stream.value.jitter, WantedDepth(c, s1.stream.value, out.played, out.conceal));
  }
}
