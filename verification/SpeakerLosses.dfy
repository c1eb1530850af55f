/**
 What a speaker loses: exactly when a run throws packets away that nobody trimmed, and that a mixer that ticks
 in time for a speaker who stays never does.
 */
module SpeakerLosses {
  import opened Packets
  import opened JitterModel
  import opened JitterOrder
  import opened JitterLedger
  import opened JitterInOrder
  import opened SpeakerModel
  import opened SpeakerFlow
  import opened SpeakerDrain
  import J = JitterTraps

  const SILENT: Speaker := Speaker(None, false)

  /** Every push finds room in the buffer, and every new depth has room for what waits. */
  ghost predicate Untrimmed(c: Timing, s: Speaker, es: seq<Event>)
  {
    AllFit(JitterOf(c, s), AllOps(c, s, es))
  }

  // ---------- Resets and clean-ups ----------

  /** A packet finds no leftovers to be reset, and a clean-up forgets nobody with a packet that waits. */
  ghost predicate Spared(c: Timing, s: Speaker, e: Event)
  {
    match e
    case Arrive(p, at) => !Leftover(c, StreamOf(c, s), at)
    case Marker(at) => true
    case Tick(at, decoded, present) =>
      var s1 := MixTick(c, s, at, decoded).0;
      Expired(c, s1, at, present) ==> |JitterOf(c, s1).packets| == 0
  }

  ghost predicate Undisturbed(c: Timing, s: Speaker, es: seq<Event>)
    decreases es
  {
    es != [] ==> Spared(c, s, es[0]) && Undisturbed(c, Next(c, s, es[0]).0, es[1..])
  }

  lemma CleanupSparesIff(c: Timing, s: Speaker, now: int, present: bool)
    ensures AllSpared(JitterOf(c, s), CleanupOps(c, s, now, present))
            <==> (Expired(c, s, now, present) ==> |JitterOf(c, s).packets| == 0)
  {
    if Expired(c, s, now, present) {
      NoResetsSpare(Reset(JitterOf(c, s)), [ResizeOp(c.floor, c.floor, c.ceil)]);
      assert CleanupOps(c, s, now, present)[1..] == [ResizeOp(c.floor, c.floor, c.ceil)];
    }
  }

  lemma TickSparesIff(c: Timing, s: Speaker, at: int, decoded: Option<seq<int>>, present: bool)
    requires s.stream.Some?
    ensures AllSpared(JitterOf(c, s), Ops(c, s, Tick(at, decoded, present)))
            <==> Spared(c, s, Tick(at, decoded, present))
  {
    hide MixTick, Expired, Pop, Primed, Play, WantedDepth, Resized, CleanupOps, Run, AllSpared;
    var k, a := KickOps(c, s.stream.value, at), AdaptOps(c, s, at, decoded);
    var s1 := MixTick(c, s, at, decoded).0;
    var l := CleanupOps(c, s1, at, present);
    KickRun(c, s.stream.value, at);
    AdaptRun(c, s, at, decoded);
    RunAppend(JitterOf(c, s), k, a);
    SparedAppend(JitterOf(c, s), k + a, l);
    NoResetsSpare(JitterOf(c, s), k + a);
    CleanupSparesIff(c, s1, at, present);
  }

  lemma ArrivalSparesIff(c: Timing, s: Speaker, p: AudioPacket, at: int)
    ensures AllSpared(JitterOf(c, s), Ops(c, s, Arrive(p, at))) <==> !Leftover(c, StreamOf(c, s), at)
  {
    var b := JitterOf(c, s);
    NoResetsSpare(b, [PushOp(p)]);
    NoResetsSpare(Reset(b), [PushOp(p)]);
    assert [ResetOp, PushOp(p)][1..] == [PushOp(p)];
  }

  lemma EventSparesIff(c: Timing, s: Speaker, e: Event)
    ensures AllSpared(JitterOf(c, s), Ops(c, s, e)) <==> Spared(c, s, e)
  {
    hide Gain, Faded, Leftover, Pop, Play, Primed;
    match e
    case Arrive(p, at) => ArrivalSparesIff(c, s, p, at);
    case Marker(at) => NoResetsSpare(JitterOf(c, s), [ForceOp]);
    case Tick(at, decoded, present) =>
      if s.stream.Some? {
        TickSparesIff(c, s, at, decoded, present);
      }
  }

  lemma {:induction false} UndisturbedIff(c: Timing, s: Speaker, es: seq<Event>)
    requires ValidTiming(c) && WellFormed(JitterOf(c, s))
    ensures AllSpared(JitterOf(c, s), AllOps(c, s, es)) <==> Undisturbed(c, s, es)
    decreases es
  {
    hide Next, Ops, Spared, AllSpared, Run, WellFormed;
    if es == [] {
      NoResetsSpare(JitterOf(c, s), []);
    } else {
      var s1, rest := Next(c, s, es[0]).0, es[1..];
      EventIsJitterRun(c, s, es[0]);
      EventSparesIff(c, s, es[0]);
      SparedAppend(JitterOf(c, s), Ops(c, s, es[0]), AllOps(c, s1, rest));
      UndisturbedIff(c, s1, rest);
    }
  }

  lemma SilentIsCaughtUp(c: Timing)
    requires ValidTiming(c)
    ensures CaughtUp(JitterOf(c, SILENT), -1) && WellFormed(JitterOf(c, SILENT)) && Keyed(JitterOf(c, SILENT).packets)
    ensures Sorted(JitterOf(c, SILENT).packets) == []
  {
    ListingEmpty(Sorted(JitterOf(c, SILENT).packets), JitterOf(c, SILENT).packets);
  }

  lemma LosesNothingWhenSpared(c: Timing, es: seq<Event>)
    requires ValidTiming(c) && FollowsOn(Arrivals(es), -1)
    ensures WellFormed(JitterOf(c, SILENT))
    ensures LostIn(c, SILENT, es) == [] <==> Untrimmed(c, SILENT, es) && Undisturbed(c, SILENT, es)
  {
    hide JitterOf, AllOps, RunAll, CaughtUp, FollowsOn, WellFormed, Keyed, Run, Arrivals, Pushed, AllLegal, LostOn;
    SilentIsCaughtUp(c);
    SpeakerIsJitterRun(c, SILENT, es);
    LosslessRunIff(JitterOf(c, SILENT), AllOps(c, SILENT, es), -1);
    UndisturbedIff(c, SILENT, es);
  }

  lemma FifoIffNoneLost(c: Timing, es: seq<Event>)
    requires ValidTiming(c) && FollowsOn(Arrivals(es), -1)
    ensures WellFormed(JitterOf(c, SILENT)) && Keyed(JitterOf(c, RunAll(c, SILENT, es).0).packets)
    ensures Popped(RunAll(c, SILENT, es).1) + Sorted(JitterOf(c, RunAll(c, SILENT, es).0).packets) == Arrivals(es)
            <==> LostIn(c, SILENT, es) == []
  {
    hide JitterOf, AllOps, RunAll, CaughtUp, FollowsOn, WellFormed, Keyed, Run, Sorted, Popped, Arrivals, Pushed;
    hide AllLegal, LostOn;
    SilentIsCaughtUp(c);
    SpeakerIsJitterRun(c, SILENT, es);
    WellFormedIsKeyed(JitterOf(c, RunAll(c, SILENT, es).0));
    FifoIffLossless(JitterOf(c, SILENT), AllOps(c, SILENT, es), -1);
    assert [] + Arrivals(es) == Arrivals(es);
  }

  lemma WellFormedIsKeyed(b: Jitter)
    requires WellFormed(b)
    ensures Keyed(b.packets)
  {
  }

  /**
   A speaker whose packets arrive in order and are not trimmed has played, followed by what waits, exactly what
   has arrived, if and only if no packet came upon leftovers and no clean-up forgot a packet that waited.
   */
  lemma {:induction false} KeepsAllIff(c: Timing, es: seq<Event>)
    requires ValidTiming(c) && FollowsOn(Arrivals(es), -1) && Untrimmed(c, SILENT, es)
    ensures Keyed(JitterOf(c, RunAll(c, SILENT, es).0).packets)
    ensures Popped(RunAll(c, SILENT, es).1) + Sorted(JitterOf(c, RunAll(c, SILENT, es).0).packets) == Arrivals(es)
            <==> Undisturbed(c, SILENT, es)
  {
    hide AllOps, RunAll, CaughtUp, FollowsOn, Untrimmed, Undisturbed, LostIn;
    FifoIffNoneLost(c, es);
    LosesNothingWhenSpared(c, es);
  }

  // ---------- A mixer that ticks in time ----------

  /**
   What the ticker owes a speaker. Its ticks decode what they pop while the speaker is there, and between two
   packets more than three packet times apart one comes more than a packet time after the earlier. Here last is
   when the last packet came, and ticked whether such a tick has come since.
   */
  predicate AttendedFrom(c: Timing, es: seq<Event>, last: Option<int>, ticked: bool)
    decreases es
  {
    es != [] ==>
      && Attends(c, es[0], last, ticked)
      && AttendedFrom(c, es[1..], LastCome(es[0], last), Ticked(c, es[0], last, ticked))
  }

  predicate Attends(c: Timing, e: Event, last: Option<int>, ticked: bool)
  {
    match e
    case Arrive(p, at) => last.Some? && at - last.value > 3 * c.packetDur ==> ticked
    case Marker(at) => true
    case Tick(at, decoded, present) => decoded.Some? && present
  }

  function LastCome(e: Event, last: Option<int>): Option<int>
  {
    if e.Arrive? then Some(e.at) else last
  }

  predicate Ticked(c: Timing, e: Event, last: Option<int>, ticked: bool)
  {
    !e.Arrive? && (ticked || (e.Tick? && last.Some? && e.at - last.value > c.packetDur))
  }

  predicate Attended(c: Timing, es: seq<Event>)
  {
    AttendedFrom(c, es, None, false)
  }

  /** The buffer flows, or no tick has had reason to start it since the last packet. */
  predicate Watched(c: Timing, s: Speaker, last: Option<int>, ticked: bool)
  {
    Flowing(JitterOf(c, s)) || (s.stream.Some? && last == Some(s.stream.value.lastPacketAt) && !ticked)
  }

  lemma EmptyMix(c: Timing, s: Speaker, at: int, decoded: Option<seq<int>>)
    requires |JitterOf(c, s).packets| == 0
    ensures |JitterOf(c, MixTick(c, s, at, decoded).0).packets| == 0
  {
    hide Gain, Faded;
    if s.stream.Some? {
      var st := Primed(c, s.stream.value, at);
      PlayPops(c, st, s.eofMarked, at, decoded);
      var (s1, out) := Play(c, st, s.eofMarked, at, decoded);
      ResizeOfEmpty(c, s1.stream.value.jitter, WantedDepth(c, s1.stream.value, out.played, out.conceal));
    }
  }

  lemma EarlyIsUnprimed(c: Timing, st: Stream, at: int)
    requires !Flowing(st.jitter) && at - st.lastPacketAt <= c.packetDur
    ensures Primed(c, st, at).jitter == st.jitter && Primed(c, st, at).lastPacketAt == st.lastPacketAt
  {
  }

  lemma PopStartsOrHolds(b: Jitter)
    requires !Flowing(b)
    ensures Pop(b) == (b, None) || (Pop(b).1.Some? && Pop(b).0.started)
  {
  }

  lemma PlayHolds(c: Timing, st: Stream, eofMarked: bool, at: int, decoded: Option<seq<int>>)
    requires Pop(st.jitter) == (st.jitter, None)
    ensures var s1 := Play(c, st, eofMarked, at, decoded).0;
            s1.stream.Some? && s1.stream.value.jitter == st.jitter && s1.stream.value.lastPacketAt == st.lastPacketAt
  {
    hide Gain, Faded, Pop;
  }

  lemma ResizedStaysStarted(c: Timing, b: Jitter, depth: Option<int>)
    requires b.started
    ensures Resized(c, b, depth).started
  {
    if depth.Some? {
      TrimKeepsNewest(Deepen(b, Clamp(depth.value, c.floor, c.ceil)));
    }
  }

  /** A tick soon after the last packet starts the buffer and plays, or leaves both as they are. */
  lemma EarlyMix(c: Timing, s: Speaker, at: int, decoded: Option<seq<int>>)
    requires s.stream.Some? && decoded.Some?
    requires !Flowing(JitterOf(c, s)) && at - s.stream.value.lastPacketAt <= c.packetDur
    ensures var s1 := MixTick(c, s, at, decoded).0;
            && s1.stream.Some?
            && (s1.stream.value.lastPacketAt == s.stream.value.lastPacketAt
                || (s1.stream.value.lastPacketAt == at && Flowing(JitterOf(c, s1))))
  {
    hide Pop, Primed, Play, Adapt, Resized, WantedDepth;
    var st := Primed(c, s.stream.value, at);
    EarlyIsUnprimed(c, s.stream.value, at);
    PopStartsOrHolds(st.jitter);
    var (s1, out) := Play(c, st, s.eofMarked, at, decoded);
    if Pop(st.jitter).1.Some? {
      PlayDecodes(c, st, s.eofMarked, at, decoded);
      ResizedStaysStarted(c, s1.stream.value.jitter, WantedDepth(c, s1.stream.value, out.played, out.conceal));
    } else {
      PlayHolds(c, st, s.eofMarked, at, decoded);
    }
    AdaptResizes(c, s1.stream.value, out.played, out.conceal);
  }

  lemma Recent(c: Timing, s: Speaker, at: int)
    requires ValidTiming(c) && s.stream.Some? && at - s.stream.value.lastPacketAt <= c.packetDur
    ensures !Expired(c, s, at, true) && Cleanup(c, s, at, true) == s
  {
  }

  lemma TickIsAttended(c: Timing, s: Speaker, e: Event, last: Option<int>, ticked: bool)
    requires ValidTiming(c) && Sound(c, s) && Watched(c, s, last, ticked)
    requires e.Tick? && Attends(c, e, last, ticked)
    ensures Spared(c, s, e) && Watched(c, Next(c, s, e).0, last, Ticked(c, e, last, ticked))
  {
    hide MixTick, Sound, Flowing, Expired, Cleanup;
    if |JitterOf(c, s).packets| == 0 {
      EmptyMix(c, s, e.at, e.decoded);
      EmptyTick(c, s, e);
      EmptyIsSound(c, Next(c, s, e).0);
    } else if Flowing(JitterOf(c, s)) || e.at - s.stream.value.lastPacketAt > c.packetDur {
      DrainMix(c, s, e.at, e.decoded);
      Recent(c, MixTick(c, s, e.at, e.decoded).0, e.at);
    } else {
      EarlyMix(c, s, e.at, e.decoded);
      Recent(c, MixTick(c, s, e.at, e.decoded).0, e.at);
    }
  }

  lemma EventIsAttended(c: Timing, s: Speaker, e: Event, last: Option<int>, ticked: bool)
    requires ValidTiming(c) && Sound(c, s) && Watched(c, s, last, ticked) && Attends(c, e, last, ticked)
    ensures Spared(c, s, e) && Watched(c, Next(c, s, e).0, LastCome(e, last), Ticked(c, e, last, ticked))
  {
    hide MixTick, Push, ForceStart;
    match e
    case Arrive(p, at) =>
    case Marker(at) => MarkerFlows(c, s, at);
    case Tick(at, decoded, present) => TickIsAttended(c, s, e, last, ticked);
  }

  // ---------- Every run of such a mixer ----------

  lemma {:induction false} RunCaughtUp(b: Jitter, ops: seq<Op>, last: int)
    requires CaughtUp(b, last) && AllLegal(ops) && FollowsOn(Pushed(ops), last)
    ensures CaughtUp(Run(b, ops).0, if Pushed(ops) == [] then last else Pushed(ops)[|Pushed(ops)| - 1].sequence)
    decreases ops
  {
    hide Step, CaughtUp, FollowsOn, InSequence, NotLate;
    if ops != [] {
      assert ops[0] in ops;
      PushedSplits(ops, last);
      StepCaughtUp(b, ops[0], last);
      RunCaughtUp(Step(b, ops[0]).0, ops[1..], LastAfter(last, ops[0]));
    }
  }

  lemma ArrivalsSplit(es: seq<Event>, last: int)
    requires es != [] && FollowsOn(Arrivals(es), last)
    ensures FollowsOn(Emit(if es[0].Arrive? then Some(es[0].p) else None, []), last)
    ensures FollowsOn(Arrivals(es[1..]), if es[0].Arrive? then es[0].p.sequence else last)
  {
    hide FollowsOn;
    if es[0].Arrive? {
      var p, rest := es[0].p, Arrivals(es[1..]);
      var all := [p] + rest;
      assert Arrivals(es) == all;
      assert all[0] == p && all[1..] == rest;
      FollowsOnTail(all, last);
      OneFollows(p, last);
      assert Emit(Some(p), []) == [p];
    } else {
      NoneFollows(last);
    }
  }

  lemma OneFollows(p: AudioPacket, last: int)
    requires last < p.sequence < TOP
    ensures FollowsOn([p], last)
  {
  }

  lemma NoneFollows(last: int)
    ensures FollowsOn([], last)
  {
  }

  lemma EventCaughtUp(c: Timing, s: Speaker, e: Event, n: int)
    requires ValidTiming(c) && CaughtUp(JitterOf(c, s), n)
    requires FollowsOn(Emit(if e.Arrive? then Some(e.p) else None, []), n)
    ensures CaughtUp(JitterOf(c, Next(c, s, e).0), if e.Arrive? then e.p.sequence else n)
  {
    hide Ops, Next, FollowsOn;
    OpsLegal(c, s, e);
    EventIsJitterRun(c, s, e);
    RunCaughtUp(JitterOf(c, s), Ops(c, s, e), n);
  }

  lemma CaughtUpIsSound(c: Timing, s: Speaker, n: int)
    requires CaughtUp(JitterOf(c, s), n)
    ensures Sound(c, s)
  {
  }

  lemma {:induction false} AttendedRun(
    c: Timing, s: Speaker, es: seq<Event>, last: Option<int>, ticked: bool, n: int)
    requires ValidTiming(c) && CaughtUp(JitterOf(c, s), n) && FollowsOn(Arrivals(es), n)
    requires Watched(c, s, last, ticked) && AttendedFrom(c, es, last, ticked)
    ensures Undisturbed(c, s, es)
    decreases es
  {
    hide Next, Spared, CaughtUp, Sound, Watched, Attends, LastCome, Ticked, FollowsOn;
    if es != [] {
      var e := es[0];
      CaughtUpIsSound(c, s, n);
      EventIsAttended(c, s, e, last, ticked);
      ArrivalsSplit(es, n);
      EventCaughtUp(c, s, e, n);
      AttendedRun(c, Next(c, s, e).0, es[1..], LastCome(e, last), Ticked(c, e, last, ticked),
                  if e.Arrive? then e.p.sequence else n);
    }
  }

  /** A mixer that ticks in time loses nothing but what it trims. */
  lemma {:induction false} AttendedLosesNothing(c: Timing, es: seq<Event>)
    requires ValidTiming(c) && FollowsOn(Arrivals(es), -1) && Attended(c, es) && Untrimmed(c, SILENT, es)
    ensures WellFormed(JitterOf(c, SILENT)) && LostIn(c, SILENT, es) == []
    ensures Undisturbed(c, SILENT, es)
  {
    SilentIsCaughtUp(c);
    AttendedRun(c, SILENT, es, None, false, -1);
    LosesNothingWhenSpared(c, es);
  }

  /**
   So if its ticks come in time and nothing is trimmed, what has been played followed by what waits is what has
   arrived, in order, whatever markers, ticks and resizes come in between.
   */
  lemma {:induction false} PlayedIsPrefixOfArrived(c: Timing, es: seq<Event>)
    requires ValidTiming(c) && FollowsOn(Arrivals(es), -1) && Attended(c, es) && Untrimmed(c, SILENT, es)
    ensures var (s, outs) := RunAll(c, SILENT, es);
            && WellFormed(JitterOf(c, s))
            && Popped(outs) + Sorted(JitterOf(c, s).packets) == Arrivals(es)
  {
    AttendedLosesNothing(c, es);
    LosslessIsPlayed(c, es);
  }

  /** And an end marker with at least as many good ticks as packets wait plays all that has arrived. */
  lemma {:induction false} MarkerAndTicksPlayAll(c: Timing, es: seq<Event>, at: int, ticks: seq<Event>)
    requires ValidTiming(c) && FollowsOn(Arrivals(es), -1) && Attended(c, es) && Untrimmed(c, SILENT, es)
    requires GoodTicks(ticks) && |ticks| >= Waiting(c, es)
    ensures Popped(RunAll(c, SILENT, es + ([Marker(at)] + ticks)).1) == Arrivals(es)
  {
    AttendedLosesNothing(c, es);
    MarkerDrainsLossless(c, es, at, ticks);
  }

  lemma {:induction false} GoodTicksAttend(
    c: Timing, es: seq<Event>, ticks: seq<Event>, last: Option<int>, ticked: bool)
    requires AttendedFrom(c, es, last, ticked) && GoodTicks(ticks)
    ensures AttendedFrom(c, es + ticks, last, ticked)
    decreases |es| + |ticks|
  {
    if es == [] {
      assert es + ticks == ticks;
      if ticks != [] {
        assert ticks[0] in ticks;
        GoodTicksAttend(c, [], ticks[1..], LastCome(ticks[0], last), Ticked(c, ticks[0], last, ticked));
        assert [] + ticks[1..] == ticks[1..];
      }
    } else {
      assert (es + ticks)[1..] == es[1..] + ticks;
      GoodTicksAttend(c, es[1..], ticks, LastCome(es[0], last), Ticked(c, es[0], last, ticked));
    }
  }

  /** And so do they without it, if the buffer has started or they begin a packet time after the last packet. */
  lemma {:induction false} EnoughTicksPlayAll(c: Timing, es: seq<Event>, ticks: seq<Event>)
    requires ValidTiming(c) && FollowsOn(Arrivals(es), -1) && Attended(c, es) && Untrimmed(c, SILENT, es + ticks)
    requires GoodTicks(ticks) && |ticks| >= Waiting(c, es)
    requires Drains(c, RunAll(c, SILENT, es).0, ticks)
    ensures Popped(RunAll(c, SILENT, es + ticks).1) == Arrivals(es)
  {
    GoodTicksAttend(c, es, ticks, None, false);
    TicksBringNothing(es, ticks);
    AttendedLosesNothing(c, es + ticks);
    TicksDrainLossless(c, es, ticks);
  }

  // ---------- The mixer's own ticker ----------

  /**
   The clock goes forward and two ticks are never more than two packet times apart, as those of a ticker that
   fires every packet time and is late by less than one; from is the time of the last tick.
   */
  predicate Punctual(c: Timing, es: seq<Event>, from: int, clock: int)
    decreases es
  {
    es != [] ==>
      && clock <= es[0].at <= from + 2 * c.packetDur
      && Punctual(c, es[1..], if es[0].Tick? then es[0].at else from, es[0].at)
  }

  predicate Decoding(es: seq<Event>)
  {
    forall e :: e in es && e.Tick? ==> e.decoded.Some? && e.present
  }

  /** A ticker that is never late by a packet time ticks in time. */
  lemma {:induction false} PunctualIsAttended(
    c: Timing, es: seq<Event>, last: Option<int>, ticked: bool, from: int, clock: int)
    requires Punctual(c, es, from, clock) && Decoding(es) && from <= clock
    requires last.Some? ==> last.value <= clock && (from > last.value + c.packetDur ==> ticked)
    requires 0 < c.packetDur
    ensures AttendedFrom(c, es, last, ticked)
    decreases es
  {
    if es != [] {
      var e := es[0];
      assert e in es;
      PunctualIsAttended(c, es[1..], LastCome(e, last), Ticked(c, e, last, ticked),
                         if e.Tick? then e.at else from, e.at);
    }
  }

  // ---------- An instance ----------

  const PATIENT: Timing := Timing(20, 40, 60, 3, 3, false, 0.5)

  /** Two packets a long time apart with no tick between them, then an end marker and a tick. */
  const NEGLECTED: seq<Event> :=
    [Arrive(J.Voice(1), 100), Arrive(J.Voice(2), 200), Marker(200), Tick(220, Some([]), true)]

  function Holding(n: uint32, at: int): Stream
  {
    FreshStream(PATIENT).(jitter := Jitter(3, 32, map[n := J.Voice(n)], 0, false), lastPacketAt := at)
  }

  function Called(n: uint32, at: int): Stream
  {
    Holding(n, at).(jitter := Jitter(3, 32, map[n := J.Voice(n)], n, true), flushPending := true, eofAt := at,
                    txEofPending := true)
  }

  lemma OneComes(n: uint32)
    ensures Push(Empty(3), J.Voice(n)) == Jitter(3, 32, map[n := J.Voice(n)], 0, false)
  {
    assert map[][n := J.Voice(n)] == map[n := J.Voice(n)];
    assert |map[n := J.Voice(n)]| == 1;
  }

  lemma NeglectedArrivals()
    ensures OnPacket(PATIENT, SILENT, J.Voice(1), 100) == Speaker(Some(Holding(1, 100)), false)
    ensures Leftover(PATIENT, Holding(1, 100), 200)
    ensures OnPacket(PATIENT, Speaker(Some(Holding(1, 100)), false), J.Voice(2), 200)
            == Speaker(Some(Holding(2, 200)), false)
  {
    hide Push;
    OneComes(1);
    OneComes(2);
    assert |map[1 := J.Voice(1)]| == 1;
    assert Reset(Holding(1, 100).jitter) == Empty(3);
  }

  lemma NeglectedEnd()
    ensures OnEof(Speaker(Some(Holding(2, 200)), false), 200) == Speaker(Some(Called(2, 200)), true)
    ensures Next(PATIENT, Speaker(Some(Called(2, 200)), true), Tick(220, Some([]), true)).1.popped == Some(J.Voice(2))
  {
    hide Gain, Faded;
    var m: map<uint32, AudioPacket> := map[2 := J.Voice(2)];
    assert |m| == 1 && IsLeast(2, m.Keys);
    MinKeyIs(m, 2);
  }

  /** Fewer operations than the capacity trim nothing, if none of them changes the depth. */
  lemma {:induction false} FewFit(b: Jitter, ops: seq<Op>)
    requires |b.packets| + |ops| <= b.maxKeep && forall op :: op in ops ==> !op.ResizeOp?
    ensures AllFit(b, ops)
    decreases ops
  {
    hide AllFit;
    if ops == [] {
      NoneFit(b);
    } else {
      assert ops[0] in ops;
      GrowsByOne(b, ops[0]);
      FewFit(Step(b, ops[0]).0, ops[1..]);
      FirstFits(b, ops);
    }
  }

  lemma NoneFit(b: Jitter)
    ensures AllFit(b, [])
  {
  }

  lemma FirstFits(b: Jitter, ops: seq<Op>)
    requires ops != [] && Fits(b, ops[0]) && AllFit(Step(b, ops[0]).0, ops[1..])
    ensures AllFit(b, ops)
  {
  }

  lemma GrowsByOne(b: Jitter, op: Op)
    requires |b.packets| < b.maxKeep && !op.ResizeOp?
    ensures Fits(b, op) && Step(b, op).0.maxKeep == b.maxKeep
    ensures |Step(b, op).0.packets| <= |b.packets| + 1
  {
    match op
    case PushOp(p) =>
      if p.sequence !in b.packets {
        TrimKeepsNewest(Insert(b, p));
      }
    case PopOp =>
      if Pop(b).1.Some? {
        PopTakesOne(b);
        var k :| k in b.packets && Pop(b).0.packets == b.packets - {k};
        assert (b.packets - {k}).Keys == b.packets.Keys - {k};
      }
    case ForceOp =>
    case ResizeOp(n, floor, ceil) =>
    case ResetOp =>
  }

  lemma NeglectedOps()
    ensures Ops(PATIENT, SILENT, NEGLECTED[0]) == [PushOp(J.Voice(1))]
    ensures Ops(PATIENT, Speaker(Some(Holding(1, 100)), false), NEGLECTED[1]) == [ResetOp, PushOp(J.Voice(2))]
    ensures Ops(PATIENT, Speaker(Some(Holding(2, 200)), false), NEGLECTED[2]) == [ForceOp]
    ensures Ops(PATIENT, Speaker(Some(Called(2, 200)), true), NEGLECTED[3]) == [PopOp]
  {
    hide Gain, Faded, Pop;
    NeglectedArrivals();
    var s := Speaker(Some(Called(2, 200)), true);
    assert |map[2 := J.Voice(2)]| == 1;
    assert Primed(PATIENT, Called(2, 200), 220).jitter == Called(2, 200).jitter;
    NeglectedEnd();
    PlayDecodes(PATIENT, Primed(PATIENT, Called(2, 200), 220), true, 220, Some([]));
    assert AdaptOps(PATIENT, s, 220, Some([])) == [];
    assert CleanupOps(PATIENT, MixTick(PATIENT, s, 220, Some([])).0, 220, true) == [];
  }

  lemma NeglectedOutput()
    ensures Popped(RunAll(PATIENT, SILENT, NEGLECTED).1) == [J.Voice(2)]
  {
    hide Next, Popped;
    NeglectedSteps();
    var s1, s2, s3 := Speaker(Some(Holding(1, 100)), false), Speaker(Some(Holding(2, 200)), false),
      Speaker(Some(Called(2, 200)), true);
    var none, last := Outcome(None, None, false, false), Next(PATIENT, s3, NEGLECTED[3]).1;
    var es1, es2, es3 := NEGLECTED[1..], [NEGLECTED[2], NEGLECTED[3]], [NEGLECTED[3]];
    assert es1[1..] == es2 && es2[1..] == es3 && es3[1..] == [];
    var out3 := RunAll(PATIENT, s3, es3).1;
    OneOutcome(s3, NEGLECTED[3]);
    assert RunAll(PATIENT, s2, es2).1 == [none] + out3;
    assert RunAll(PATIENT, s1, es1).1 == [none] + ([none] + out3);
    assert RunAll(PATIENT, SILENT, NEGLECTED).1 == [none] + ([none] + ([none] + out3));
    PoppedFirst(none, [none] + ([none] + out3));
    PoppedFirst(none, [none] + out3);
    PoppedFirst(none, out3);
    NeglectedEnd();
  }

  lemma OneOutcome(s: Speaker, e: Event)
    ensures RunAll(PATIENT, s, [e]).1 == [Next(PATIENT, s, e).1]
    ensures Popped([Next(PATIENT, s, e).1]) == Emit(Next(PATIENT, s, e).1.popped, [])
  {
    hide Next;
    assert [e][1..] == [] && RunAll(PATIENT, Next(PATIENT, s, e).0, []).1 == [];
    assert [Next(PATIENT, s, e).1][1..] == [];
  }

  lemma NeglectedComing()
    ensures Arrivals(NEGLECTED) == [J.Voice(1), J.Voice(2)] && FollowsOn([J.Voice(1), J.Voice(2)], -1)
  {
    var es1, es2, es3 := NEGLECTED[1..], [NEGLECTED[2], NEGLECTED[3]], [NEGLECTED[3]];
    assert es1 == [NEGLECTED[1]] + es2 && es2 == [NEGLECTED[2]] + es3 && es3 == [NEGLECTED[3]] + [];
    ArrivalsFirst(NEGLECTED[3], []);
    ArrivalsFirst(NEGLECTED[2], es3);
    ArrivalsFirst(NEGLECTED[1], es2);
    ArrivalsFirst(NEGLECTED[0], es1);
    assert NEGLECTED == [NEGLECTED[0]] + es1;
  }

  lemma ArrivalsFirst(e: Event, es: seq<Event>)
    ensures Arrivals([e] + es) == Emit(if e.Arrive? then Some(e.p) else None, Arrivals(es))
  {
    assert ([e] + es)[1..] == es;
  }

  lemma NeglectedIsDisturbed()
    ensures !Undisturbed(PATIENT, SILENT, NEGLECTED) && !Attended(PATIENT, NEGLECTED)
  {
    hide Next, Leftover;
    NeglectedSteps();
    NeglectedArrivals();
    assert !Undisturbed(PATIENT, Speaker(Some(Holding(1, 100)), false), NEGLECTED[1..]);
    assert !AttendedFrom(PATIENT, NEGLECTED[1..], Some(100), false);
  }

  lemma NeglectedRun()
    ensures AllOps(PATIENT, SILENT, NEGLECTED) == [PushOp(J.Voice(1)), ResetOp, PushOp(J.Voice(2)), ForceOp, PopOp]
  {
    hide Next, Ops;
    NeglectedSteps();
    NeglectedOps();
    var s1, s2, s3 := Speaker(Some(Holding(1, 100)), false), Speaker(Some(Holding(2, 200)), false),
      Speaker(Some(Called(2, 200)), true);
    var es1, es2, es3 := NEGLECTED[1..], [NEGLECTED[2], NEGLECTED[3]], [NEGLECTED[3]];
    assert es1[1..] == es2 && es2[1..] == es3 && es3[1..] == [];
    assert AllOps(PATIENT, s3, es3) == [PopOp];
    assert AllOps(PATIENT, s2, es2) == [ForceOp, PopOp];
    assert AllOps(PATIENT, s1, es1) == [ResetOp, PushOp(J.Voice(2)), ForceOp, PopOp];
  }

  /**
   A speaker of whom nothing is trimmed loses the first packet to the reset of leftovers, so that what it plays
   is no prefix of what has arrived.
   */
  lemma {:induction false} NeglectLoses()
    ensures Arrivals(NEGLECTED) == [J.Voice(1), J.Voice(2)] && FollowsOn(Arrivals(NEGLECTED), -1)
    ensures ValidTiming(PATIENT) && Untrimmed(PATIENT, SILENT, NEGLECTED)
    ensures !Undisturbed(PATIENT, SILENT, NEGLECTED) && !Attended(PATIENT, NEGLECTED)
    ensures Popped(RunAll(PATIENT, SILENT, NEGLECTED).1) == [J.Voice(2)]
  {
    hide RunAll, Popped, AllOps, Arrivals, FollowsOn, Undisturbed, Attended;
    NeglectedComing();
    NeglectedIsDisturbed();
    NeglectedOutput();
    NeglectedRun();
    FewFit(JitterOf(PATIENT, SILENT), AllOps(PATIENT, SILENT, NEGLECTED));
  }

  lemma NeglectedSteps()
    ensures var none := Outcome(None, None, false, false);
            && Next(PATIENT, SILENT, NEGLECTED[0]) == (Speaker(Some(Holding(1, 100)), false), none)
            && Next(PATIENT, Speaker(Some(Holding(1, 100)), false), NEGLECTED[1])
               == (Speaker(Some(Holding(2, 200)), false), none)
            && Next(PATIENT, Speaker(Some(Holding(2, 200)), false), NEGLECTED[2])
               == (Speaker(Some(Called(2, 200)), true), none)
  {
    hide OnPacket, OnEof;
    NeglectedArrivals();
    NeglectedEnd();
  }
}
