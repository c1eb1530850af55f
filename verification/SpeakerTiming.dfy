/** The timed behaviour of one speaker: concealment fades and ends, and the adaptive depth stays in bounds. */
module SpeakerTiming {
  import opened Packets
  import opened JitterModel
  import opened JitterOrder
  import opened JitterLedger
  import opened SpeakerModel
  import opened SpeakerFlow

  // ---------- Fading ----------

  lemma TimesPositive(x: real, y: real)
    requires 0.0 <= x && 0.0 <= y
    ensures 0.0 <= x * y
  {
  }

  lemma TimesDifference(a: real, b: real, x: real)
    ensures (b - a) * x == b * x - a * x
  {
  }

  lemma TimesCommutes(x: real, y: real)
    ensures x * y == y * x
  {
  }

  lemma TimesNegates(x: real, y: real)
    ensures (-x) * y == -(x * y)
  {
  }

  lemma TimesLeft(a: real, b: real, x: real)
    requires a <= b && 0.0 <= x
    ensures a * x <= b * x
  {
    var d := b - a;
    TimesPositive(d, x);
    TimesDifference(a, b, x);
  }

  lemma TimesRight(x: real, a: real, b: real)
    requires a <= b && 0.0 <= x
    ensures x * a <= x * b
  {
    TimesLeft(a, b, x);
    TimesCommutes(a, x);
    TimesCommutes(b, x);
  }

  /** A power times its base: no more than the power, and not negative. */
  lemma PowerStep(x: real, p: real)
    requires 0.0 <= x <= 1.0 && 0.0 <= p
    ensures 0.0 <= Attenuate(x, p) <= p
  {
    TimesPositive(x, p);
    TimesLeft(x, 1.0, p);
  }

  lemma {:induction false} PowerBounds(x: real, n: nat)
    requires 0.0 <= x <= 1.0
    ensures 0.0 <= Power(x, n + 1) <= Power(x, n) <= 1.0
  {
    hide Power, Attenuate;
    OneMore(x, n);
    if n > 0 {
      PowerBounds(x, n - 1);
    } else {
      NoPower(x);
    }
    PowerStep(x, Power(x, n));
  }

  lemma OneMore(x: real, n: nat)
    ensures Power(x, n + 1) == Attenuate(x, Power(x, n))
  {
  }

  lemma NoPower(x: real)
    ensures Power(x, 0) == 1.0
  {
  }

  lemma {:induction false} PowerFalls(x: real, m: nat, n: nat)
    requires 0.0 <= x <= 1.0 && m <= n
    ensures 0.0 <= Power(x, n) <= Power(x, m) <= 1.0
    decreases n
  {
    hide Power;
    if n > m {
      PowerFalls(x, m, n - 1);
      PowerBounds(x, n - 1);
    } else {
      PowerBounds(x, n);
    }
  }

  /** The gain never rises: not with another miss and not when the hangover runs out. */
  lemma GainFalls(c: Timing, m: nat, n: nat, lateM: bool, lateN: bool)
    requires 0.0 <= c.decay <= 1.0 && m <= n && (lateM ==> lateN)
    ensures 0.0 <= Gain(c, n, lateN) <= Gain(c, m, lateM) <= 1.0
  {
    hide Attenuate, Power, Unit;
    var dm, dn, fm, fn := DecayPower(c, m), DecayPower(c, n), FadePower(m), FadePower(n);
    PowerFalls(c.decay, m + 1, n + 1);
    PowerFalls(0.80, m + 1, n + 1);
    AttenuateFalls(dm, dn, fm, fn);
    UnitFalls(if lateM then Attenuate(dm, fm) else dm, if lateN then Attenuate(dn, fn) else dn);
  }

  lemma AttenuatePositive(x: real, y: real)
    requires 0.0 <= x && 0.0 <= y
    ensures 0.0 <= Attenuate(x, y)
  {
    TimesPositive(x, y);
  }

  lemma AttenuateLeft(a: real, b: real, x: real)
    requires a <= b && 0.0 <= x
    ensures Attenuate(a, x) <= Attenuate(b, x)
  {
    TimesLeft(a, b, x);
  }

  lemma AttenuateRight(x: real, a: real, b: real)
    requires a <= b && 0.0 <= x
    ensures Attenuate(x, a) <= Attenuate(x, b)
  {
    TimesRight(x, a, b);
  }

  lemma AttenuateByOne(x: real)
    ensures Attenuate(x, 1.0) == x
  {
  }

  lemma AttenuateFalls(dm: real, dn: real, fm: real, fn: real)
    requires 0.0 <= dn <= dm <= 1.0 && 0.0 <= fn <= fm <= 1.0
    ensures 0.0 <= Attenuate(dn, fn) <= Attenuate(dm, fm) <= 1.0 && Attenuate(dn, fn) <= dm
  {
    hide Attenuate;
    AttenuatePositive(dn, fn);
    AttenuateLeft(dn, dm, fn);
    AttenuateRight(dm, fn, fm);
    AttenuateRight(dm, fm, 1.0);
    AttenuateByOne(dm);
  }

  lemma UnitFalls(x: real, y: real)
    requires 0.0 <= y <= x <= 1.0
    ensures 0.0 <= Unit(y) <= Unit(x) <= 1.0
  {
  }

  function Abs(x: int): nat
  {
    if x < 0 then -x else x
  }

  /** The size of a sample of size n after scaling, before and after its fraction is dropped. */
  function Size(n: nat, g: real): real
  {
    n as real * g
  }

  function SizeAt(n: nat, g: real): int
  {
    Size(n, g).Floor
  }

  lemma CutSize(x: int, g: real)
    requires 0.0 <= g
    ensures Abs(Scaled(x, g)) == SizeAt(Abs(x), g)
  {
    var a := Abs(x) as real;
    TimesPositive(a, g);
    TimesNegates(a, g);
    if x < 0 {
      assert x as real == -a;
    }
  }

  lemma SizeMonotone(n: nat, g: real, h: real)
    requires g <= h
    ensures Size(n, g) <= Size(n, h)
  {
    TimesRight(n as real, g, h);
  }

  lemma SizeOne(n: nat)
    ensures Size(n, 1.0) == n as real
  {
  }

  lemma FloorOfNat(n: nat)
    ensures (n as real).Floor == n
  {
  }

  lemma SizeFalls(n: nat, g: real, h: real)
    requires 0.0 <= g <= h <= 1.0
    ensures SizeAt(n, g) <= SizeAt(n, h) <= n
  {
    hide Size;
    SizeMonotone(n, g, h);
    SizeMonotone(n, h, 1.0);
    SizeOne(n);
    FloorMonotone(Size(n, g), Size(n, h));
    FloorMonotone(Size(n, h), n as real);
    FloorOfNat(n);
  }

  lemma FloorMonotone(u: real, v: real)
    requires u <= v
    ensures u.Floor <= v.Floor
  {
  }

  lemma CutMonotone(x: int, g: real, h: real)
    requires 0.0 <= g <= h <= 1.0
    ensures Abs(Scaled(x, g)) <= Abs(Scaled(x, h)) <= Abs(x)
  {
    hide Scaled, SizeAt;
    CutSize(x, g);
    CutSize(x, h);
    SizeFalls(Abs(x), g, h);
  }

  /** Sample by sample f is no louder than g. */
  predicate NoLouder(f: seq<int>, g: seq<int>)
  {
    |f| == |g| && forall i :: 0 <= i < |f| ==> Abs(f[i]) <= Abs(g[i])
  }

  lemma FadedNoLouder(pcm: seq<int>, g: real, h: real)
    requires 0.0 <= g <= h <= 1.0
    ensures NoLouder(Faded(pcm, g), Faded(pcm, h)) && NoLouder(Faded(pcm, h), pcm)
  {
    forall i | 0 <= i < |pcm|
      ensures Abs(Faded(pcm, g)[i]) <= Abs(Faded(pcm, h)[i]) <= Abs(pcm[i])
    {
      CutMonotone(pcm[i], g, h);
    }
  }

  // ---------- Concealment in a gap ----------

  /**
   Ticks only, none of which plays a packet. The ticker asks for one every packet time from due on; each comes
   when it is due or later, and in order, so that a late tick may be followed by a punctual one.
   */
  ghost predicate Gap(c: Timing, s: Speaker, es: seq<Event>, due: int, now: int)
    decreases es
  {
    es != [] ==>
      && es[0].Tick? && due <= es[0].at && now <= es[0].at
      && !Next(c, s, es[0]).1.played
      && Gap(c, Next(c, s, es[0]).0, es[1..], due + c.packetDur, es[0].at)
  }

  /** The frames made up by concealment during a run. */
  function Concealed(outs: seq<Outcome>): seq<seq<int>>
  {
    if outs == [] then []
    else if outs[0].conceal && outs[0].frame.Some? then [outs[0].frame.value] + Concealed(outs[1..])
    else Concealed(outs[1..])
  }

  /** What one silent tick does: it conceals with the stored frame, or it makes no sound. */
  lemma SilentTick(c: Timing, s: Speaker, e: Event)
    requires ValidTiming(c) && s.stream.Some? && e.Tick? && !Next(c, s, e).1.played
    ensures var st, (s1, out) := s.stream.value, Next(c, s, e);
            && (s1.stream.Some? ==>
                  && s1.stream.value.lastPacketAt == st.lastPacketAt
                  && (s1.stream.value.lastPCM == st.lastPCM || s1.stream.value.lastPCM == []))
            && (out.conceal ==>
                  && !s.eofMarked && st.lastPCM != [] && e.at - st.lastPacketAt <= c.eofTimeout
                  && out.frame == Some(Faded(st.lastPCM, Gain(c, st.missCount, e.at - st.lastPacketAt > c.hangover)))
                  && (s1.stream.Some? && s1.stream.value.lastPCM != [] ==>
                        s1.stream.value.missCount == st.missCount + 1))
            && (!out.conceal && s1.stream.Some? && s1.stream.value.lastPCM != [] ==>
                  s1.stream.value.missCount == st.missCount)
            && (s.eofMarked && s1.stream.Some? ==> s1.eofMarked)
  {
    var st := Primed(c, s.stream.value, e.at);
    assert st.lastPacketAt == s.stream.value.lastPacketAt;
    assert st.lastPCM == [] || (st.lastPCM == s.stream.value.lastPCM && st.missCount == s.stream.value.missCount);
  }

  lemma NoStreamTick(c: Timing, s: Speaker, e: Event)
    requires s.stream.None? && e.Tick?
    ensures Next(c, s, e) == (s, Outcome(None, None, false, false))
  {
  }

  lemma {:induction false} ConcealedNone(c: Timing, s: Speaker, es: seq<Event>, due: int, now: int)
    requires ValidTiming(c) && Gap(c, s, es, due, now)
    requires s.stream.None? || s.stream.value.lastPCM == [] || s.eofMarked
    ensures Concealed(RunAll(c, s, es).1) == []
    decreases es
  {
    hide Next, Gain, Faded;
    if es != [] {
      if s.stream.Some? {
        SilentTick(c, s, es[0]);
      } else {
        NoStreamTick(c, s, es[0]);
      }
      var (s1, out) := Next(c, s, es[0]);
      var outs := RunAll(c, s1, es[1..]).1;
      assert ([out] + outs)[1..] == outs;
      ConcealedNone(c, s1, es[1..], due + c.packetDur, es[0].at);
    }
  }

  /** Every frame concealed later in the gap is no louder than one concealed now would be. */
  lemma {:induction false} LaterIsNoLouder(
    c: Timing, s: Speaker, es: seq<Event>, due: int, now: int, miss: nat, late: bool)
    requires ValidTiming(c) && Gap(c, s, es, due, now) && s.stream.Some?
    requires s.stream.value.lastPCM != [] ==> miss <= s.stream.value.missCount
    requires late ==> now - s.stream.value.lastPacketAt > c.hangover
    ensures forall f :: f in Concealed(RunAll(c, s, es).1) ==>
              NoLouder(f, Faded(s.stream.value.lastPCM, Gain(c, miss, late)))
    decreases es
  {
    hide Next, Gain, Faded, NoLouder;
    if es == [] {
    } else if s.stream.value.lastPCM == [] {
      ConcealedNone(c, s, es, due, now);
    } else {
      var st := s.stream.value;
      var (s1, out) := Next(c, s, es[0]);
      SilentTick(c, s, es[0]);
      var outs := RunAll(c, s1, es[1..]).1;
      assert ([out] + outs)[1..] == outs;
      if out.conceal {
        GainFalls(c, miss, st.missCount, late, es[0].at - st.lastPacketAt > c.hangover);
        FadedNoLouder(st.lastPCM, Gain(c, st.missCount, es[0].at - st.lastPacketAt > c.hangover), Gain(c, miss, late));
      }
      if s1.stream.None? || s1.stream.value.lastPCM == [] {
        ConcealedNone(c, s1, es[1..], due + c.packetDur, es[0].at);
      } else {
        LaterIsNoLouder(c, s1, es[1..], due + c.packetDur, es[0].at, miss, late);
      }
    }
  }

  predicate Fading(fs: seq<seq<int>>)
  {
    forall i, j :: 0 <= i < j < |fs| ==> NoLouder(fs[j], fs[i])
  }

  lemma PrependLoudest(f: seq<int>, fs: seq<seq<int>>)
    requires Fading(fs) && forall g :: g in fs ==> NoLouder(g, f)
    ensures Fading([f] + fs)
  {
    var all := [f] + fs;
    forall i, j | 0 <= i < j < |all|
      ensures NoLouder(all[j], all[i])
    {
      assert all[j] == fs[j - 1] && fs[j - 1] in fs;
    }
  }

  /**
   In a gap, that is while nothing arrives and nothing is played, the concealed frames fade sample by
   sample and none is louder than the last frame that was played.
   */
  lemma {:induction false} ConcealmentFades(c: Timing, s: Speaker, es: seq<Event>, due: int, now: int)
    requires ValidTiming(c) && Gap(c, s, es, due, now) && s.stream.Some?
    ensures Fading(Concealed(RunAll(c, s, es).1))
    ensures forall f :: f in Concealed(RunAll(c, s, es).1) ==> NoLouder(f, s.stream.value.lastPCM)
    decreases es
  {
    hide Next, Gain, Faded, NoLouder;
    if es != [] {
      var st := s.stream.value;
      var (s1, out) := Next(c, s, es[0]);
      SilentTick(c, s, es[0]);
      var rest, due1, now1 := es[1..], due + c.packetDur, es[0].at;
      var outs := RunAll(c, s1, rest).1;
      assert ([out] + outs)[1..] == outs;
      if s1.stream.None? || s1.stream.value.lastPCM == [] {
        ConcealedNone(c, s1, rest, due1, now1);
      } else {
        ConcealmentFades(c, s1, rest, due1, now1);
      }
      if out.conceal {
        var late := es[0].at - st.lastPacketAt > c.hangover;
        GainFalls(c, st.missCount, st.missCount, late, late);
        FadedNoLouder(st.lastPCM, Gain(c, st.missCount, late), Gain(c, st.missCount, late));
        if s1.stream.Some? && s1.stream.value.lastPCM != [] {
          LaterIsNoLouder(c, s1, rest, due1, now1, st.missCount, late);
        }
        PrependLoudest(out.frame.value, Concealed(outs));
      }
    }
  }

  /** The time that n packets take. */
  function Span(n: nat, p: int): int
  {
    if n == 0 then 0 else p + Span(n - 1, p)
  }

  /** In a gap the last of n concealed frames, which come a packet time apart, still lies within the timeout. */
  lemma {:induction false} ConcealmentEnds(c: Timing, s: Speaker, es: seq<Event>, due: int, now: int)
    requires ValidTiming(c) && Gap(c, s, es, due, now) && s.stream.Some?
    ensures var n := |Concealed(RunAll(c, s, es).1)|;
            n > 0 ==> due + Span(n - 1, c.packetDur) <= s.stream.value.lastPacketAt + c.eofTimeout
    decreases es
  {
    hide Next, Gain, Faded;
    if es != [] {
      var (s1, out) := Next(c, s, es[0]);
      SilentTick(c, s, es[0]);
      var rest, due1, now1 := es[1..], due + c.packetDur, es[0].at;
      var outs := RunAll(c, s1, rest).1;
      assert ([out] + outs)[1..] == outs;
      if s1.stream.None? {
        ConcealedNone(c, s1, rest, due1, now1);
      } else {
        ConcealmentEnds(c, s1, rest, due1, now1);
      }
    }
  }

  lemma {:induction false} SpanIsProduct(n: nat, p: int)
    ensures Span(n, p) == n * p
  {
    if n > 0 {
      SpanIsProduct(n - 1, p);
    }
  }

  lemma QuotientBound(n: nat, p: int, room: int)
    requires 0 < p && 0 <= room && n * p <= room
    ensures n <= room / p
  {
    var q := room / p;
    assert room < (q + 1) * p;
    if q < n {
      TimesMonotone(q + 1, n, p);
    }
  }

  lemma TimesMonotone(a: int, b: int, p: int)
    requires a <= b && 0 <= p
    ensures a * p <= b * p
  {
  }

  /**
   A gap whose first tick was due late or less before the last packet, is concealed for at most
   (eofTimeout + late) / packetDur + 1 frames: eofTimeout / packetDur + 1 if it was due after the packet.
   */
  lemma ConcealmentIsBounded(c: Timing, s: Speaker, es: seq<Event>, due: int, now: int, late: nat)
    requires ValidTiming(c) && Gap(c, s, es, due, now) && s.stream.Some?
    requires s.stream.value.lastPacketAt <= due + late
    ensures |Concealed(RunAll(c, s, es).1)| <= (c.eofTimeout + late) / c.packetDur + 1
  {
    var n := |Concealed(RunAll(c, s, es).1)|;
    ConcealmentEnds(c, s, es, due, now);
    if n > 0 {
      SpanIsProduct(n - 1, c.packetDur);
      QuotientBound(n - 1, c.packetDur, c.eofTimeout + late);
    }
  }

  // ---------- Adaptive depth ----------

  /** Depth and capacity stay in their bounds and belong together; so does the occupancy. */
  ghost predicate DepthInBounds(c: Timing, s: Speaker)
  {
    WellFormed(JitterOf(c, s)) && c.floor <= JitterOf(c, s).minStart <= c.ceil
  }

  lemma TrimKeepsDepth(b: Jitter)
    ensures Trim(b).minStart == b.minStart
  {
    TrimKeepsNewest(b);
  }

  lemma PushKeepsDepth(b: Jitter, p: AudioPacket)
    ensures Push(b, p).minStart == b.minStart
  {
    if p.sequence !in b.packets {
      TrimKeepsDepth(Insert(b, p));
    }
  }

  lemma ResizeDepth(c: Timing, b: Jitter, n: int)
    requires ValidTiming(c) && c.floor <= n <= c.ceil
    ensures SetMinStart(b, n, c.floor, c.ceil).minStart == n
  {
    TrimKeepsDepth(Deepen(b, n));
  }

  lemma PopKeepsDepth(b: Jitter)
    ensures Pop(b).0.minStart == b.minStart
  {
  }

  /** The depth after the tick without cleanup, compared to the depth before. */
  ghost function DepthChange(c: Timing, s: Speaker, e: Event): int
  {
    if e.Tick? then JitterOf(c, MixTick(c, s, e.at, e.decoded).0).minStart - JitterOf(c, s).minStart else 0
  }

  lemma TickDepth(c: Timing, s: Speaker, at: int, decoded: Option<seq<int>>)
    requires ValidTiming(c) && DepthInBounds(c, s) && s.stream.Some?
    ensures var (s1, out) := MixTick(c, s, at, decoded);
            && DepthInBounds(c, s1) && s1.stream.Some?
            && -1 <= JitterOf(c, s1).minStart - JitterOf(c, s).minStart <= 1
            && !(out.conceal && out.played)
            && (JitterOf(c, s1).minStart > JitterOf(c, s).minStart ==>
                  out.conceal && s.stream.value.concealStreak + 1 >= 4 && s1.stream.value.concealStreak == 0)
            && (JitterOf(c, s1).minStart < JitterOf(c, s).minStart ==>
                  out.played && s.stream.value.stableTicks + 1 >= 80 && s1.stream.value.stableTicks == 0)
            && s1.stream.value.concealStreak <= s.stream.value.concealStreak + (if out.conceal then 1 else 0)
            && s1.stream.value.stableTicks <= s.stream.value.stableTicks + (if out.played then 1 else 0)
  {
    hide Gain, Faded, Primed, Play, Adapt, WellFormed, Pop;
    MixTickWellFormed(c, s, at, decoded);
    var st := Primed(c, s.stream.value, at);
    PrimedKeepsDepth(c, s.stream.value, at);
    PlayKeepsDepth(c, st, s.eofMarked, at, decoded);
    var (s1, out) := Play(c, st, s.eofMarked, at, decoded);
    AdaptDepth(c, s1.stream.value, out.played, out.conceal);
  }

  lemma PrimedKeepsDepth(c: Timing, st: Stream, at: int)
    ensures var st1 := Primed(c, st, at);
            && st1.jitter.minStart == st.jitter.minStart
            && st1.concealStreak == st.concealStreak && st1.stableTicks == st.stableTicks
  {
  }

  lemma PlayKeepsDepth(c: Timing, st: Stream, eofMarked: bool, at: int, decoded: Option<seq<int>>)
    ensures var (s1, out) := Play(c, st, eofMarked, at, decoded);
            && s1.stream.Some? && s1.stream.value.jitter.minStart == st.jitter.minStart
            && s1.stream.value.concealStreak == st.concealStreak && s1.stream.value.stableTicks == st.stableTicks
            && !(out.conceal && out.played)
  {
    hide Gain, Faded, Pop;
    PopKeepsDepth(st.jitter);
  }

  lemma AdaptDepth(c: Timing, st: Stream, played: bool, conceal: bool)
    requires ValidTiming(c) && c.floor <= st.jitter.minStart <= c.ceil && !(played && conceal)
    ensures var st1 := Adapt(c, st, played, conceal);
            && c.floor <= st1.jitter.minStart <= c.ceil
            && -1 <= st1.jitter.minStart - st.jitter.minStart <= 1
            && (st1.jitter.minStart > st.jitter.minStart ==>
                  conceal && st.concealStreak + 1 >= 4 && st1.concealStreak == 0)
            && (st1.jitter.minStart < st.jitter.minStart ==>
                  played && st.stableTicks + 1 >= 80 && st1.stableTicks == 0)
            && st1.concealStreak <= st.concealStreak + (if conceal then 1 else 0)
            && st1.stableTicks <= st.stableTicks + (if played then 1 else 0)
  {
    hide SetMinStart;
    var depth := WantedDepth(c, st, played, conceal);
    if depth.Some? {
      ResizeDepth(c, st.jitter, depth.value);
    }
  }

  ghost function Raises(c: Timing, s: Speaker, es: seq<Event>): nat
    decreases es
  {
    if es == [] then 0
    else (if DepthChange(c, s, es[0]) > 0 then 1 else 0) + Raises(c, Next(c, s, es[0]).0, es[1..])
  }

  ghost function Lowerings(c: Timing, s: Speaker, es: seq<Event>): nat
    decreases es
  {
    if es == [] then 0
    else (if DepthChange(c, s, es[0]) < 0 then 1 else 0) + Lowerings(c, Next(c, s, es[0]).0, es[1..])
  }

  function ConcealTicks(outs: seq<Outcome>): nat
  {
    if outs == [] then 0 else (if outs[0].conceal then 1 else 0) + ConcealTicks(outs[1..])
  }

  function PlayTicks(outs: seq<Outcome>): nat
  {
    if outs == [] then 0 else (if outs[0].played then 1 else 0) + PlayTicks(outs[1..])
  }

  /** One event moves the depth by one at most, and pays for it with the ticks it counted. */
  lemma EventDepth(c: Timing, s: Speaker, e: Event)
    requires ValidTiming(c) && DepthInBounds(c, s)
    ensures var (s1, out) := Next(c, s, e);
            && DepthInBounds(c, s1)
            && 4 * (if DepthChange(c, s, e) > 0 then 1 else 0) + StreamOf(c, s1).concealStreak
               <= StreamOf(c, s).concealStreak + (if out.conceal then 1 else 0)
            && 80 * (if DepthChange(c, s, e) < 0 then 1 else 0) + StreamOf(c, s1).stableTicks
               <= StreamOf(c, s).stableTicks + (if out.played then 1 else 0)
  {
    hide Gain, Faded;
    EventIsJitterRun(c, s, e);
    match e {
      case Arrive(p, at) =>
        var st := StreamOf(c, s);
        PushKeepsDepth(if Leftover(c, st, at) then Reset(st.jitter) else st.jitter, p);
      case Marker(at) =>
      case Tick(at, decoded, present) =>
        if s.stream.Some? {
          TickDepth(c, s, at, decoded);
        }
    }
  }

  /**
   On every run the depth stays between floor and ceil and the occupancy within the capacity that goes
   with it; a raise costs four concealed ticks and a lowering eighty played ones.
   */
  lemma {:induction false} DepthAdaptsSlowly(c: Timing, s: Speaker, es: seq<Event>)
    requires ValidTiming(c) && DepthInBounds(c, s)
    ensures var (s1, outs) := RunAll(c, s, es);
            && DepthInBounds(c, s1)
            && 4 * Raises(c, s, es) + StreamOf(c, s1).concealStreak <= StreamOf(c, s).concealStreak + ConcealTicks(outs)
            && 80 * Lowerings(c, s, es) + StreamOf(c, s1).stableTicks <= StreamOf(c, s).stableTicks + PlayTicks(outs)
    decreases es
  {
    if es != [] {
      var (s1, out) := Next(c, s, es[0]);
      EventDepth(c, s, es[0]);
      DepthAdaptsSlowly(c, s1, es[1..]);
      var outs := RunAll(c, s1, es[1..]).1;
      assert ([out] + outs)[1..] == outs;
    }
  }
}
