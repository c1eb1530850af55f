/** A gap in a transmission, tick by tick: which ticks conceal it, and how loud each concealed frame is. */
module SpeakerGap {
  import opened Packets
  import opened JitterModel
  import opened SpeakerModel
  import opened SpeakerFlow
  import opened SpeakerTiming
  import opened SpeakerDepth

  // ---------- How loud ----------

  /** A product of n factors x. */
  function Product(x: real, n: nat): real
  {
    if n == 0 then 1.0 else Product(x, n - 1) * x
  }

  /** Powers multiply as their exponents add. */
  lemma {:induction false} ProductAdds(x: real, m: nat, n: nat)
    ensures Product(x, m + n) == Product(x, m) * Product(x, n)
    decreases n
  {
    if n > 0 {
      ProductAdds(x, m, n - 1);
      Associates(Product(x, m), Product(x, n - 1), x);
    }
  }

  lemma Associates(a: real, b: real, c: real)
    ensures a * b * c == a * (b * c)
  {
  }

  /** The integer next to x on the side of zero, or x itself. */
  predicate IsCut(y: int, x: real)
  {
    if x >= 0.0 then y as real <= x < y as real + 1.0 else y as real - 1.0 < x <= y as real
  }

  /** The volume of the n-th concealed frame of a gap, counted from one. */
  function Volume(c: Timing, n: nat, late: bool): real
  {
    Product(c.decay, n) * if late then Product(0.8, n) else 1.0
  }

  lemma {:induction false} PowerIsProduct(x: real, n: nat)
    ensures Power(x, n) == Product(x, n)
  {
    if n > 0 {
      PowerIsProduct(x, n - 1);
      TimesCommutes(x, Product(x, n - 1));
    }
  }

  lemma UnitKeeps(x: real)
    requires 0.0 <= x <= 1.0
    ensures Unit(x) == x
  {
  }

  lemma TimesOne(x: real)
    ensures x * 1.0 == x
  {
  }

  lemma AttenuateTimes(x: real, y: real)
    ensures Attenuate(x, y) == x * y
  {
  }

  lemma DecayIs(c: Timing, miss: nat)
    ensures DecayPower(c, miss) == Product(c.decay, miss + 1) && FadePower(miss) == Product(0.8, miss + 1)
  {
    PowerIsProduct(c.decay, miss + 1);
    PowerIsProduct(0.8, miss + 1);
  }

  lemma GainIsVolume(c: Timing, miss: nat, late: bool)
    requires ValidTiming(c)
    ensures Gain(c, miss, late) == Volume(c, miss + 1, late)
  {
    hide Product, Power, Attenuate, Unit, DecayPower, FadePower;
    var d, f := Product(c.decay, miss + 1), Product(0.8, miss + 1);
    PowersAreSmall(c.decay, miss + 1);
    PowersAreSmall(0.8, miss + 1);
    DecayIs(c, miss);
    AttenuateFalls(1.0, d, 1.0, f);
    AttenuateByOne(1.0);
    AttenuateTimes(d, f);
    TimesOne(d);
    UnitKeeps(d);
    UnitKeeps(Attenuate(d, f));
  }

  lemma PowersAreSmall(x: real, n: nat)
    requires 0.0 <= x <= 1.0
    ensures 0.0 <= Product(x, n) <= 1.0
  {
    PowerIsProduct(x, n);
    PowerBounds(x, n);
  }

  lemma CutIsCut(x: real)
    ensures IsCut(Cut(x), x)
  {
  }

  /** A frame that is the last one at a volume, sample by sample, cut towards zero. */
  predicate AtVolume(frame: seq<int>, pcm: seq<int>, volume: real)
  {
    |frame| == |pcm| && forall k :: 0 <= k < |pcm| ==> IsCut(frame[k], pcm[k] as real * volume)
  }

  lemma FadedAtVolume(pcm: seq<int>, gain: real)
    ensures AtVolume(Faded(pcm, gain), pcm, gain)
  {
    forall k | 0 <= k < |pcm| ensures IsCut(Faded(pcm, gain)[k], pcm[k] as real * gain) {
      CutIsCut(pcm[k] as real * gain);
    }
  }

  // ---------- Every frame of a gap ----------

  lemma {:induction false} OutcomeOfEach(c: Timing, s: Speaker, es: seq<Event>)
    ensures |RunAll(c, s, es).1| == |es|
    decreases es
  {
    if es != [] {
      OutcomeOfEach(c, Next(c, s, es[0]).0, es[1..]);
    }
  }

  /** Without a stream or a last frame, or with the mark, no tick of a gap conceals. */
  lemma {:induction false} NoneConceals(c: Timing, s: Speaker, es: seq<Event>, due: int, now: int)
    requires ValidTiming(c) && Gap(c, s, es, due, now)
    requires s.stream.None? || s.stream.value.lastPCM == [] || s.eofMarked
    ensures forall i :: 0 <= i < |RunAll(c, s, es).1| ==> !RunAll(c, s, es).1[i].conceal
    decreases es
  {
    hide Next, Gain, Faded;
    if es != [] {
      if s.stream.Some? {
        SilentTick(c, s, es[0]);
      } else {
        NoStreamTick(c, s, es[0]);
      }
      NoneConceals(c, Next(c, s, es[0]).0, es[1..], due + c.packetDur, es[0].at);
    }
  }

  lemma TicksBefore(out: Outcome, outs: seq<Outcome>, i: nat)
    requires i < |outs|
    ensures ConcealTicks(([out] + outs)[..i + 2]) == (if out.conceal then 1 else 0) + ConcealTicks(outs[..i + 1])
  {
    var first := ([out] + outs)[..i + 2];
    assert first[0] == out && first[1..] == outs[..i + 1];
  }

  lemma FirstTick(out: Outcome, outs: seq<Outcome>)
    ensures ConcealTicks(([out] + outs)[..1]) == if out.conceal then 1 else 0
  {
    var first := ([out] + outs)[..1];
    assert first == [out] && first[1..] == [];
  }

  lemma ConcealedNow(c: Timing, s: Speaker, e: Event)
    requires ValidTiming(c) && s.stream.Some? && e.Tick? && !Next(c, s, e).1.played && Next(c, s, e).1.conceal
    ensures var st, out := s.stream.value, Next(c, s, e).1;
            out.frame.Some?
            && AtVolume(out.frame.value, st.lastPCM,
                        Volume(c, st.missCount + 1, e.at - st.lastPacketAt > c.hangover))
  {
    hide Next, Gain, Faded, Volume, AtVolume;
    var st := s.stream.value;
    SilentTick(c, s, e);
    GainIsVolume(c, st.missCount, e.at - st.lastPacketAt > c.hangover);
    FadedAtVolume(st.lastPCM, Gain(c, st.missCount, e.at - st.lastPacketAt > c.hangover));
  }

  /**
   How loud a gap is: its n-th concealed frame holds at each place the sample of the last played frame times the
   n-th power of the decay, and of 0.8 too once the hangover is over, cut towards zero. Misses from before
   the gap count.
   */
  lemma {:induction false} ConcealedExactly(c: Timing, s: Speaker, es: seq<Event>, due: int, now: int, i: nat)
    requires ValidTiming(c) && Gap(c, s, es, due, now) && s.stream.Some?
    requires i < |RunAll(c, s, es).1| == |es| && RunAll(c, s, es).1[i].conceal
    ensures var outs, st := RunAll(c, s, es).1, s.stream.value;
            var n := st.missCount + ConcealTicks(outs[..i + 1]);
            && outs[i].frame.Some?
            && AtVolume(outs[i].frame.value, st.lastPCM, Volume(c, n, es[i].at - st.lastPacketAt > c.hangover))
    decreases es
  {
    hide Next, Gain, Faded, Volume, AtVolume;
    var (s1, out) := Next(c, s, es[0]);
    var outs := RunAll(c, s1, es[1..]).1;
    assert RunAll(c, s, es).1 == [out] + outs;
    SilentTick(c, s, es[0]);
    if i == 0 {
      FirstTick(out, outs);
      ConcealedNow(c, s, es[0]);
    } else {
      assert outs[i - 1].conceal;
      if s1.stream.None? || s1.stream.value.lastPCM == [] {
        NoneConceals(c, s1, es[1..], due + c.packetDur, es[0].at);
        assert false;
      } else {
        OutcomeOfEach(c, s1, es[1..]);
        ConcealedExactly(c, s1, es[1..], due + c.packetDur, es[0].at, i - 1);
        TicksBefore(out, outs, i - 1);
      }
    }
  }

  // ---------- Which ticks conceal ----------

  /** The decoder is due to be flushed: the end was marked at least five packet times ago, and all is played. */
  predicate FlushDue(c: Timing, st: Stream, at: int)
  {
    st.flushPending && |st.jitter.packets| == 0 && (st.eofAt == 0 || at - st.eofAt >= 5 * c.packetDur)
  }

  /** The speaker stays in the channel, and no packet is taken. */
  predicate Dry(es: seq<Event>, outs: seq<Outcome>)
  {
    && (forall e :: e in es ==> e.Tick? && e.present)
    && (forall out :: out in outs ==> out.popped.None?)
  }

  lemma DryPop(b: Jitter)
    requires Pop(b).1.None?
    ensures |Pop(b).0.packets| == 0 <==> |b.packets| == 0
    ensures |b.packets| > 0 ==> Pop(ForceStart(b)).1.Some?
  {
  }

  lemma ResizedEmptyIff(c: Timing, b: Jitter, depth: Option<int>)
    requires ValidTiming(c)
    ensures |Resized(c, b, depth).packets| == 0 <==> |b.packets| == 0
  {
    if depth.Some? {
      TrimKeepsNewest(Deepen(b, Clamp(depth.value, c.floor, c.ceil)));
    }
  }

  lemma PrimedFlushes(c: Timing, st: Stream, at: int)
    ensures var st1 := Primed(c, st, at);
            && st1.lastPacketAt == st.lastPacketAt
            && (st1.jitter == st.jitter || (|st.jitter.packets| > 0 && st1.jitter == ForceStart(st.jitter)))
            && (if FlushDue(c, st, at) then st1.lastPCM == []
                else st1.lastPCM == st.lastPCM && st1.flushPending == st.flushPending && st1.eofAt == st.eofAt)
  {
  }

  lemma DryPlay(c: Timing, st: Stream, at: int, decoded: Option<seq<int>>)
    requires Play(c, st, false, at, decoded).1.popped.None?
    ensures var (s1, out) := Play(c, st, false, at, decoded);
            && s1.stream.Some? && !out.played && Pop(st.jitter).1.None?
            && (out.conceal <==> at - st.lastPacketAt <= c.eofTimeout && st.lastPCM != [])
            && (s1.eofMarked <==> at - st.lastPacketAt > c.eofTimeout)
            && s1.stream.value.lastPacketAt == st.lastPacketAt && s1.stream.value.lastPCM == st.lastPCM
            && s1.stream.value.flushPending == st.flushPending && s1.stream.value.eofAt == st.eofAt
            && s1.stream.value.jitter == Pop(st.jitter).0
  {
    hide Gain, Faded, Pop;
  }

  lemma AdaptKeepsRest(c: Timing, st: Stream, played: bool, conceal: bool)
    ensures var st1 := Adapt(c, st, played, conceal);
            && st1.jitter == Resized(c, st.jitter, WantedDepth(c, st, played, conceal))
            && st1.lastPacketAt == st.lastPacketAt && st1.lastPCM == st.lastPCM
            && st1.flushPending == st.flushPending && st1.eofAt == st.eofAt
  {
    hide Resized, WantedDepth;
  }

  /** A tick without a packet: it conceals, or the speaker is silent, or the decoder has been flushed. */
  lemma DryTick(c: Timing, s: Speaker, e: Event)
    requires ValidTiming(c) && s.stream.Some? && !s.eofMarked && s.stream.value.lastPCM != []
    requires e.Tick? && e.present && Next(c, s, e).1.popped.None?
    ensures var (st, (s1, out)) := (s.stream.value, Next(c, s, e));
            && !out.played
            && (out.conceal <==> e.at - st.lastPacketAt <= c.eofTimeout && !FlushDue(c, st, e.at))
            && (e.at - st.lastPacketAt > c.eofTimeout ==> s1.stream.None?)
            && (e.at - st.lastPacketAt <= c.eofTimeout ==>
                  && s1.stream.Some? && !s1.eofMarked
                  && var st1 := s1.stream.value;
                     && st1.lastPacketAt == st.lastPacketAt
                     && (if FlushDue(c, st, e.at) then st1.lastPCM == []
                         else st1.lastPCM == st.lastPCM && st1.flushPending == st.flushPending && st1.eofAt == st.eofAt
                              && (|st1.jitter.packets| == 0 <==> |st.jitter.packets| == 0)))
  {
    hide Primed, Play, Adapt, Resized, WantedDepth, Pop, ForceStart, FlushDue;
    var st := Primed(c, s.stream.value, e.at);
    PrimedFlushes(c, s.stream.value, e.at);
    DryPlay(c, st, e.at, e.decoded);
    var (s1, out) := Play(c, st, false, e.at, e.decoded);
    DryPop(st.jitter);
    AdaptKeepsRest(c, s1.stream.value, out.played, out.conceal);
    ResizedEmptyIff(c, s1.stream.value.jitter, WantedDepth(c, s1.stream.value, out.played, out.conceal));
    StartedIsNotDry(s.stream.value.jitter);
  }

  lemma StartedIsNotDry(b: Jitter)
    ensures |b.packets| > 0 ==> Pop(ForceStart(b)).1.Some?
  {
  }

  /**
   Which ticks of a gap conceal it, while the speaker stays and no packet is taken: exactly those that come within
   the timeout after the last packet, and before the decoder is due to be flushed.
   */
  lemma {:induction false} GapConcealsIff(c: Timing, s: Speaker, es: seq<Event>, due: int, now: int, i: nat)
    requires ValidTiming(c) && Gap(c, s, es, due, now) && i < |es| == |RunAll(c, s, es).1|
    requires s.stream.Some? && !s.eofMarked && s.stream.value.lastPCM != [] && Dry(es, RunAll(c, s, es).1)
    ensures RunAll(c, s, es).1[i].conceal
            <==> es[i].at - s.stream.value.lastPacketAt <= c.eofTimeout && !FlushDue(c, s.stream.value, es[i].at)
    decreases es
  {
    hide Next, Gain, Faded, FlushDue;
    var st, e := s.stream.value, es[0];
    var (s1, out) := Next(c, s, e);
    var outs := RunAll(c, s1, es[1..]).1;
    var due1 := due + c.packetDur;
    assert RunAll(c, s, es).1 == [out] + outs;
    DryRest(es, out, outs);
    DryTick(c, s, e);
    if i > 0 {
      GapGoesOn(c, s, es, due, now, i);
      if e.at - st.lastPacketAt > c.eofTimeout {
        NoneConceals(c, s1, es[1..], due1, e.at);
      } else if FlushDue(c, st, e.at) {
        NoneConceals(c, s1, es[1..], due1, e.at);
        DueFromThen(c, st, st, e.at, es[i].at);
      } else {
        OutcomeOfEach(c, s1, es[1..]);
        GapConcealsIff(c, s1, es[1..], due1, e.at, i - 1);
        DueFromThen(c, st, s1.stream.value, es[i].at, es[i].at);
      }
    }
  }

  lemma DryRest(es: seq<Event>, out: Outcome, outs: seq<Outcome>)
    requires es != [] && Dry(es, [out] + outs)
    ensures Dry(es[1..], outs) && es[0].Tick? && es[0].present && out.popped.None?
  {
    assert es[0] in es && ([out] + outs)[0] == out && out in [out] + outs;
  }

  lemma {:induction false} GapGoesOn(c: Timing, s: Speaker, es: seq<Event>, due: int, now: int, i: nat)
    requires Gap(c, s, es, due, now) && i < |es|
    ensures now <= es[0].at <= es[i].at
    decreases es
  {
    hide Next;
    if i > 0 {
      GapGoesOn(c, Next(c, s, es[0]).0, es[1..], due + c.packetDur, es[0].at, i - 1);
    }
  }

  lemma DueFromThen(c: Timing, st: Stream, st1: Stream, at: int, later: int)
    requires at <= later && st1.flushPending == st.flushPending && st1.eofAt == st.eofAt
    requires |st1.jitter.packets| == 0 <==> |st.jitter.packets| == 0
    ensures FlushDue(c, st, at) ==> FlushDue(c, st1, later)
    ensures at == later ==> (FlushDue(c, st, at) <==> FlushDue(c, st1, later))
  {
  }

  // ---------- What a marker leaves behind ----------

  /** The speaker is there throughout, and its ticks come less than five packet times after the marker. */
  ghost predicate SoonAfter(c: Timing, s: Speaker, es: seq<Event>, marked: int)
    decreases es
  {
    s.stream.Some?
    && (es != [] ==>
          && !es[0].Marker? && (es[0].Tick? ==> es[0].at - marked < 5 * c.packetDur)
          && SoonAfter(c, Next(c, s, es[0]).0, es[1..], marked))
  }

  predicate Armed(s: Speaker, marked: int)
  {
    s.stream.Some? && s.stream.value.flushPending && s.stream.value.eofAt == marked
  }

  lemma ArmedEvent(c: Timing, s: Speaker, e: Event, marked: int)
    requires marked != 0 && Armed(s, marked) && Next(c, s, e).0.stream.Some?
    requires !e.Marker? && (e.Tick? ==> e.at - marked < 5 * c.packetDur)
    ensures Armed(Next(c, s, e).0, marked)
  {
    hide Gain, Faded, Pop, Push, Resized, WantedDepth, Primed;
    if e.Tick? {
      PrimedFlushes(c, s.stream.value, e.at);
    }
  }

  lemma {:induction false} StaysArmed(c: Timing, s: Speaker, es: seq<Event>, marked: int)
    requires marked != 0 && Armed(s, marked) && SoonAfter(c, s, es, marked)
    ensures Armed(RunAll(c, s, es).0, marked)
    decreases es
  {
    hide Next;
    if es != [] {
      ArmedEvent(c, s, es[0], marked);
      StaysArmed(c, Next(c, s, es[0]).0, es[1..], marked);
    }
  }

  /**
   A marker arms the flush even if the next transmission begins before it comes, and takes the mark away: a gap in
   that transmission is then concealed only while packets wait or the five packet times are not over.
   */
  lemma {:induction false} MarkerMutesLater(
    c: Timing, s: Speaker, marked: int, es: seq<Event>, gap: seq<Event>, due: int, now: int, i: nat)
    requires ValidTiming(c) && s.stream.Some? && marked != 0
    requires SoonAfter(c, Next(c, s, Marker(marked)).0, es, marked)
    requires var s1 := RunAll(c, Next(c, s, Marker(marked)).0, es).0;
             && s1.stream.Some? && !s1.eofMarked && s1.stream.value.lastPCM != []
             && Gap(c, s1, gap, due, now) && i < |gap| == |RunAll(c, s1, gap).1| && Dry(gap, RunAll(c, s1, gap).1)
    ensures var s1 := RunAll(c, Next(c, s, Marker(marked)).0, es).0;
            RunAll(c, s1, gap).1[i].conceal
            <==> && gap[i].at - s1.stream.value.lastPacketAt <= c.eofTimeout
                 && (|s1.stream.value.jitter.packets| > 0 || gap[i].at - marked < 5 * c.packetDur)
  {
    var s0 := Next(c, s, Marker(marked)).0;
    StaysArmed(c, s0, es, marked);
    GapConcealsIff(c, RunAll(c, s0, es).0, gap, due, now, i);
  }

  // ---------- Any run ----------

  /** The frame played last, when pcm was before; the time of the last packet that came or was played. */
  function LastHeard(pcm: seq<int>, outs: seq<Outcome>): seq<int>
    decreases outs
  {
    if outs == [] then pcm
    else LastHeard(if outs[0].played && outs[0].frame.Some? then outs[0].frame.value else pcm, outs[1..])
  }

  function LastSign(t: int, es: seq<Event>, outs: seq<Outcome>): int
    requires |es| == |outs|
    decreases es
  {
    if es == [] then t else LastSign(Sign(t, es[0], outs[0]), es[1..], outs[1..])
  }

  function Sign(t: int, e: Event, out: Outcome): int
  {
    match e
    case Arrive(_, at) => at
    case Marker(_) => t
    case Tick(at, _, _) => if out.played then at else t
  }

  /** What the stream remembers: the last frame, how often it was concealed, and the last sign of life. */
  predicate Remembers(s: Speaker, pcm: seq<int>, k: nat, t: int)
  {
    s.stream.Some? ==>
      && s.stream.value.lastPacketAt == t
      && (s.stream.value.lastPCM != [] ==> s.stream.value.lastPCM == pcm && s.stream.value.missCount == k)
  }

  lemma PlayRemembers(c: Timing, st: Stream, eofMarked: bool, at: int, decoded: Option<seq<int>>)
    ensures var (s1, out) := Play(c, st, eofMarked, at, decoded);
            && s1.stream.Some? && !(out.played && out.conceal)
            && (out.played ==>
                  && out.frame == Some(s1.stream.value.lastPCM) && s1.stream.value.missCount == 0
                  && s1.stream.value.lastPacketAt == at)
            && (!out.played ==> s1.stream.value.lastPCM == st.lastPCM && s1.stream.value.lastPacketAt == st.lastPacketAt)
            && (out.conceal ==>
                  && st.lastPCM != [] && s1.stream.value.missCount == st.missCount + 1
                  && out.frame == Some(Faded(st.lastPCM, Gain(c, st.missCount, at - st.lastPacketAt > c.hangover))))
            && (!out.played && !out.conceal ==> s1.stream.value.missCount == st.missCount)
  {
    hide Gain, Faded, Pop;
  }

  lemma AdaptRemembers(c: Timing, st: Stream, played: bool, conceal: bool)
    ensures var st1 := Adapt(c, st, played, conceal);
            st1.lastPacketAt == st.lastPacketAt && st1.lastPCM == st.lastPCM && st1.missCount == st.missCount
  {
    hide Resized, WantedDepth;
  }

  lemma PrimedRemembers(c: Timing, st: Stream, at: int)
    ensures var st1 := Primed(c, st, at);
            && st1.lastPacketAt == st.lastPacketAt
            && (st1.lastPCM == [] || (st1.lastPCM == st.lastPCM && st1.missCount == st.missCount))
  {
  }

  /** One event, and what it conceals. */
  lemma EventRemembers(c: Timing, s: Speaker, e: Event, pcm: seq<int>, k: nat, t: int)
    requires ValidTiming(c) && Remembers(s, pcm, k, t)
    ensures var (s1, out) := Next(c, s, e);
            && Remembers(s1, LastHeard(pcm, [out]), ConcealRow(k, [out]), Sign(t, e, out))
            && (out.conceal ==> e.Tick? && out.frame.Some?
                                && AtVolume(out.frame.value, pcm, Volume(c, k + 1, e.at - t > c.hangover)))
  {
    hide Gain, Faded, Pop, Push, ForceStart, Primed, Play, Adapt, Volume, AtVolume;
    var (s1, out) := Next(c, s, e);
    assert [out][1..] == [];
    if e.Tick? && s.stream.Some? {
      var st := Primed(c, s.stream.value, e.at);
      PrimedRemembers(c, s.stream.value, e.at);
      PlayRemembers(c, st, s.eofMarked, e.at, e.decoded);
      var played := Play(c, st, s.eofMarked, e.at, e.decoded).0;
      AdaptRemembers(c, played.stream.value, out.played, out.conceal);
      if out.conceal {
        GainIsVolume(c, k, e.at - t > c.hangover);
        FadedAtVolume(pcm, Gain(c, k, e.at - t > c.hangover));
      }
    }
  }

  lemma {:induction false} RunRemembers(c: Timing, s: Speaker, es: seq<Event>, pcm: seq<int>, k: nat, t: int)
    requires ValidTiming(c) && Remembers(s, pcm, k, t)
    ensures var (s1, outs) := RunAll(c, s, es);
            |outs| == |es| && Remembers(s1, LastHeard(pcm, outs), ConcealRow(k, outs), LastSign(t, es, outs))
    decreases es
  {
    hide Next, Remembers, Sign;
    if es != [] {
      var (s1, out) := Next(c, s, es[0]);
      EventRemembers(c, s, es[0], pcm, k, t);
      var outs := RunAll(c, s1, es[1..]).1;
      assert ([out] + outs)[1..] == outs && [out][1..] == [];
      RunRemembers(c, s1, es[1..], LastHeard(pcm, [out]), ConcealRow(k, [out]), Sign(t, es[0], out));
    }
  }

  /**
   On every run of a speaker who was not there at first, with any packets, markers and ticks: what a tick conceals
   is the frame played last, at the volume that its place among the concealed ticks since then and the time since the
   last packet ask for.
   */
  lemma {:induction false} ConcealsLastHeard(c: Timing, s: Speaker, es: seq<Event>, e: Event)
    requires ValidTiming(c) && s.stream.None? && |es| == |RunAll(c, s, es).1|
    ensures var (s1, outs) := RunAll(c, s, es);
            var out := Next(c, s1, e).1;
            out.conceal ==>
              && e.Tick? && out.frame.Some?
              && AtVolume(out.frame.value, LastHeard([], outs),
                          Volume(c, ConcealRow(0, outs) + 1, e.at - LastSign(0, es, outs) > c.hangover))
  {
    hide RunAll, Next, Volume, AtVolume;
    RunRemembers(c, s, es, [], 0, 0);
    var (s1, outs) := RunAll(c, s, es);
    EventRemembers(c, s1, e, LastHeard([], outs), ConcealRow(0, outs), LastSign(0, es, outs));
  }

  // ---------- What is never concealed ----------

  /** Before its first frame is played, and after leftovers of an earlier burst were dropped, a speaker makes no sound. */
  lemma {:induction false} NothingBeforeFirst(c: Timing, s: Speaker, es: seq<Event>)
    requires ValidTiming(c) && (s.stream.None? || s.stream.value.lastPCM == [])
    requires forall out :: out in RunAll(c, s, es).1 ==> !out.played
    ensures forall out :: out in RunAll(c, s, es).1 ==> out.frame.None? && !out.conceal
    decreases es
  {
    hide Next;
    if es != [] {
      var (s1, out) := Next(c, s, es[0]);
      var outs := RunAll(c, s1, es[1..]).1;
      assert RunAll(c, s, es).1 == [out] + outs;
      assert ([out] + outs)[0] == out;
      SilentEvent(c, s, es[0]);
      forall o | o in outs ensures !o.played {
        assert o in [out] + outs;
      }
      NothingBeforeFirst(c, s1, es[1..]);
    }
  }

  lemma SilentEvent(c: Timing, s: Speaker, e: Event)
    requires (s.stream.None? || s.stream.value.lastPCM == []) && !Next(c, s, e).1.played
    ensures var (s1, out) := Next(c, s, e);
            (s1.stream.None? || s1.stream.value.lastPCM == []) && out.frame.None? && !out.conceal
  {
    hide Gain, Faded, Pop, Push, ForceStart, Primed, Play, Adapt;
    if e.Tick? && s.stream.Some? {
      var st := Primed(c, s.stream.value, e.at);
      PrimedRemembers(c, s.stream.value, e.at);
      SilentPlay(c, st, s.eofMarked, e.at, e.decoded);
      var s1 := Play(c, st, s.eofMarked, e.at, e.decoded).0;
      AdaptRemembers(c, s1.stream.value, Play(c, st, s.eofMarked, e.at, e.decoded).1.played, false);
    }
  }

  lemma SilentPlay(c: Timing, st: Stream, eofMarked: bool, at: int, decoded: Option<seq<int>>)
    requires st.lastPCM == []
    ensures var (s1, out) := Play(c, st, eofMarked, at, decoded);
            s1.stream.Some? && !out.conceal && (!out.played ==> s1.stream.value.lastPCM == [] && out.frame.None?)
  {
    hide Gain, Faded, Pop;
  }

  /** So the leftovers of a burst too short to start go with its sound: the next burst does not conceal with it. */
  lemma LeftoversAreSilent(c: Timing, s: Speaker, p: AudioPacket, at: int, es: seq<Event>)
    requires ValidTiming(c) && s.stream.Some? && Leftover(c, s.stream.value, at)
    requires var s1 := Next(c, s, Arrive(p, at)).0; forall out :: out in RunAll(c, s1, es).1 ==> !out.played
    ensures var s1 := Next(c, s, Arrive(p, at)).0;
            forall out :: out in RunAll(c, s1, es).1 ==> out.frame.None? && !out.conceal
  {
    NothingBeforeFirst(c, Next(c, s, Arrive(p, at)).0, es);
  }
}
