/**
 A talker who was stopped by the transmit timeout, and the clean-up of silent streams, which forgets the stop:
 gate and stream of one session together.
 */
module StoppedTalker {
  import opened Packets
  import opened JitterModel
  import opened SpeakerModel
  import opened SpeakerTiming
  import G = TxGate
  import M = SpeakerMark
  import F = SpeakerFlow

  datatype Settings = Settings(timing: Timing, transmitTimeout: int, session: uint32)

  datatype Talker = Talker(gate: G.Gate, speaker: Speaker)

  /** Busy mode's answer to a packet and the decoder's to a popped one are inputs. */
  datatype Happening =
    | Packet(p: AudioPacket, at: int, accepted: bool)
    | EndMark(at: int)
    | Leave
    | Tick(at: int, decoded: Option<seq<int>>, present: bool)

  ghost predicate Sweeps(s: Settings, t: Talker, h: Happening)
  {
    h.Tick? && Expired(s.timing, MixTick(s.timing, t.speaker, h.at, h.decoded).0, h.at, h.present)
  }

  /** What the happening is to the gate. */
  ghost function GateEvents(s: Settings, t: Talker, h: Happening): seq<G.Event>
  {
    match h
    case Packet(_, at, _) => [G.Packet(s.session, at)]
    case EndMark(_) => [G.Ended(s.session)]
    case Leave => [G.Ended(s.session)]
    case Tick(_, _, _) => if Sweeps(s, t, h) then [G.Swept({s.session})] else []
  }

  predicate Passes(s: Settings, t: Talker, at: int)
  {
    G.Rule(s.transmitTimeout, t.gate, s.session, at).1.pass
  }

  /** A packet that the gate refuses does not reach the stream. */
  ghost function Next(s: Settings, t: Talker, h: Happening): Talker
  {
    match h
    case Packet(p, at, accepted) =>
      Talker(G.Rule(s.transmitTimeout, t.gate, s.session, at).0,
             if Passes(s, t, at) && accepted then OnPacket(s.timing, t.speaker, p, at) else t.speaker)
    case EndMark(at) => Talker(G.Forget(t.gate, s.session), OnEof(t.speaker, at))
    case Leave => Talker(G.Forget(t.gate, s.session), t.speaker)
    case Tick(at, decoded, present) =>
      Talker(if Sweeps(s, t, h) then G.Sweep(t.gate, {s.session}) else t.gate,
             OnTick(s.timing, t.speaker, at, decoded, present).0)
  }

  ghost function After(s: Settings, t: Talker, hs: seq<Happening>): Talker
    decreases hs
  {
    if hs == [] then t else After(s, Next(s, t, hs[0]), hs[1..])
  }

  ghost predicate NonePasses(s: Settings, t: Talker, hs: seq<Happening>)
    decreases hs
  {
    hs != [] ==> (hs[0].Packet? ==> !Passes(s, t, hs[0].at)) && NonePasses(s, Next(s, t, hs[0]), hs[1..])
  }

  ghost predicate Forgets(s: Settings, t: Talker, h: Happening)
  {
    h.EndMark? || h.Leave? || Sweeps(s, t, h)
  }

  ghost predicate SomeForgets(s: Settings, t: Talker, hs: seq<Happening>)
    decreases hs
  {
    hs != [] && (Forgets(s, t, hs[0]) || SomeForgets(s, Next(s, t, hs[0]), hs[1..]))
  }

  /** Each happening is what its events are to the gate. */
  lemma StepIsGateRun(s: Settings, t: Talker, h: Happening)
    ensures Next(s, t, h).gate == G.After(s.transmitTimeout, t.gate, GateEvents(s, t, h))
  {
    hide G.Rule, G.Forget, G.Sweep, Sweeps, OnTick, OnPacket;
    match h {
      case Packet(_, at, _) => OneGateEvent(s.transmitTimeout, t.gate, G.Packet(s.session, at));
      case EndMark(_) => OneGateEvent(s.transmitTimeout, t.gate, G.Ended(s.session));
      case Leave => OneGateEvent(s.transmitTimeout, t.gate, G.Ended(s.session));
      case Tick(_, _, _) => OneGateEvent(s.transmitTimeout, t.gate, G.Swept({s.session}));
    }
  }

  lemma OneGateEvent(timeout: int, g: G.Gate, e: G.Event)
    ensures G.After(timeout, g, [e]) == G.Next(timeout, g, e).0 && G.After(timeout, g, []) == g
  {
    assert [e][1..] == [];
  }

  lemma StoppedStep(s: Settings, t: Talker, h: Happening)
    requires 0 < s.transmitTimeout && G.Latched(t.gate, s.session)
    ensures var g := Next(s, t, h).gate;
            if Forgets(s, t, h) then s.session !in g.startedAt else G.Latched(g, s.session)
  {
    hide OnTick, OnPacket, MixTick, Expired;
  }

  lemma ForgottenStep(s: Settings, t: Talker, h: Happening)
    requires 0 < s.transmitTimeout && s.session !in t.gate.startedAt && (h.Packet? ==> !Passes(s, t, h.at))
    ensures s.session !in Next(s, t, h).gate.startedAt
  {
    hide OnTick, OnPacket, MixTick, Expired;
  }

  lemma {:induction false} ForgottenRun(s: Settings, t: Talker, hs: seq<Happening>)
    requires 0 < s.transmitTimeout && s.session !in t.gate.startedAt && NonePasses(s, t, hs)
    ensures s.session !in After(s, t, hs).gate.startedAt
    decreases hs
  {
    hide Next, Passes;
    if hs == [] {
    } else {
      ForgottenStep(s, t, hs[0]);
      ForgottenRun(s, Next(s, t, hs[0]), hs[1..]);
    }
  }

  lemma {:induction false} StoppedRun(s: Settings, t: Talker, hs: seq<Happening>)
    requires 0 < s.transmitTimeout && G.Latched(t.gate, s.session) && NonePasses(s, t, hs)
    ensures var g := After(s, t, hs).gate;
            if SomeForgets(s, t, hs) then s.session !in g.startedAt else G.Latched(g, s.session)
    decreases hs
  {
    hide Next, Forgets, G.Latched, Passes;
    if hs == [] {
    } else {
      StoppedStep(s, t, hs[0]);
      if Forgets(s, t, hs[0]) {
        ForgottenRun(s, Next(s, t, hs[0]), hs[1..]);
      } else {
        StoppedRun(s, Next(s, t, hs[0]), hs[1..]);
      }
    }
  }

  /**
   A stopped talker, who may go on sending all the time: the next packet passes exactly if an end marker, a
   departure or the clean-up of the stream came in between.
   */
  lemma {:induction false} StoppedPassesIff(s: Settings, t: Talker, hs: seq<Happening>, at: int)
    requires 0 < s.transmitTimeout && G.Latched(t.gate, s.session) && NonePasses(s, t, hs)
    ensures Passes(s, After(s, t, hs), at) <==> SomeForgets(s, t, hs)
  {
    hide After;
    StoppedRun(s, t, hs);
  }

  // ---------- When the clean-up comes ----------

  /** Refused packets, and ticks that play nothing and find the session still in the channel. */
  ghost predicate Unheard(s: Settings, t: Talker, hs: seq<Happening>)
    decreases hs
  {
    hs != [] ==>
      && (hs[0].Packet? || (hs[0].Tick? && hs[0].present
                            && !MixTick(s.timing, t.speaker, hs[0].at, hs[0].decoded).1.played))
      && (hs[0].Packet? ==> !Passes(s, t, hs[0].at))
      && Unheard(s, Next(s, t, hs[0]), hs[1..])
  }

  /** Some tick comes more than the end-of-transmission timeout after a time. */
  predicate TickLate(s: Settings, hs: seq<Happening>, last: int)
  {
    exists i :: 0 <= i < |hs| && hs[i].Tick? && hs[i].at - last > s.timing.eofTimeout
  }

  lemma TickLateFirst(s: Settings, hs: seq<Happening>, last: int)
    requires hs != []
    ensures TickLate(s, hs, last)
            <==> (hs[0].Tick? && hs[0].at - last > s.timing.eofTimeout) || TickLate(s, hs[1..], last)
  {
    if i :| 1 <= i < |hs| && hs[i].Tick? && hs[i].at - last > s.timing.eofTimeout {
      assert hs[1..][i - 1] == hs[i];
    }
  }

  lemma UnheardStep(s: Settings, t: Talker, h: Happening)
    requires ValidTiming(s.timing) && t.speaker.stream.Some? && Unheard(s, t, [h])
    ensures var last := t.speaker.stream.value.lastPacketAt;
            && (Forgets(s, t, h) <==> h.Tick? && h.at - last > s.timing.eofTimeout)
            && var s1 := Next(s, t, h).speaker;
               !Forgets(s, t, h) ==> s1.stream.Some? && s1.stream.value.lastPacketAt == last
  {
    hide MixTick, OnPacket, G.Rule;
    if h.Tick? {
      QuietMix(s.timing, t.speaker, h.at, h.decoded);
    }
  }

  lemma QuietMix(c: Timing, sp: Speaker, now: int, decoded: Option<seq<int>>)
    requires sp.stream.Some? && !MixTick(c, sp, now, decoded).1.played
    ensures var s1 := MixTick(c, sp, now, decoded).0;
            s1.stream.Some? && s1.stream.value.lastPacketAt == sp.stream.value.lastPacketAt
  {
    hide Pop, ForceStart, Gain, Faded;
  }

  /**
   The clean-up of a talker who is stopped but goes on sending comes with the first tick more than the timeout
   after the last packet that was taken or played: refused packets do not put it off.
   */
  lemma {:induction false} SweptIffLate(s: Settings, t: Talker, hs: seq<Happening>)
    requires ValidTiming(s.timing) && t.speaker.stream.Some? && Unheard(s, t, hs)
    ensures SomeForgets(s, t, hs) <==> TickLate(s, hs, t.speaker.stream.value.lastPacketAt)
    decreases hs
  {
    hide Next, Forgets, TickLate, MixTick, Passes;
    if hs == [] {
      NoTick(s, t.speaker.stream.value.lastPacketAt);
    } else {
      assert [hs[0]][1..] == [];
      UnheardStep(s, t, hs[0]);
      TickLateFirst(s, hs, t.speaker.stream.value.lastPacketAt);
      if !Forgets(s, t, hs[0]) {
        SweptIffLate(s, Next(s, t, hs[0]), hs[1..]);
      }
    }
  }

  lemma NoTick(s: Settings, last: int)
    ensures !TickLate(s, [], last)
  {
  }

  lemma {:induction false} UnheardPassesNone(s: Settings, t: Talker, hs: seq<Happening>)
    requires Unheard(s, t, hs)
    ensures NonePasses(s, t, hs)
    decreases hs
  {
    hide Next, Passes, MixTick;
    if hs == [] {
    } else {
      UnheardPassesNone(s, Next(s, t, hs[0]), hs[1..]);
    }
  }

  /** So such a talker is heard again exactly when a tick has come that late: the stop does not hold for longer. */
  lemma {:induction false} StopLapsesIff(s: Settings, t: Talker, hs: seq<Happening>, at: int)
    requires ValidTiming(s.timing) && 0 < s.transmitTimeout && G.Latched(t.gate, s.session)
    requires t.speaker.stream.Some? && Unheard(s, t, hs)
    ensures Passes(s, After(s, t, hs), at) <==> TickLate(s, hs, t.speaker.stream.value.lastPacketAt)
  {
    UnheardPassesNone(s, t, hs);
    StoppedPassesIff(s, t, hs, at);
    SweptIffLate(s, t, hs);
  }

  // ---------- An instance ----------

  const SHORT: Settings := Settings(M.QUICK, 50, 1)

  /** One packet is heard and played; then the talker keeps sending after his time is up. */
  const INSISTS: seq<Happening> :=
    [Packet(M.FIRST, 100, true), Happening.Tick(100, Some([1000]), true),
     Packet(M.FIRST, 160, true), Happening.Tick(165, None, true)]

  function Silent(marked: bool): Speaker
  {
    Speaker(Some(M.TalkStream(M.Played(), [1000])), marked)
  }

  lemma ScheduleSteps()
    ensures Next(SHORT, Talker(G.IDLE, Speaker(None, false)), INSISTS[0])
            == Talker(Running(), Speaker(Some(M.TalkStream(M.Waits(), [])), false))
    ensures Next(SHORT, Talker(Running(), Speaker(Some(M.TalkStream(M.Waits(), [])), false)), INSISTS[1])
            == Talker(Running(), Silent(false))
    ensures Next(SHORT, Talker(Running(), Silent(false)), INSISTS[2]) == Talker(Over(), Silent(false))
  {
    hide SpeakerModel.Gain, SpeakerModel.Faded;
    M.FirstComesAndGoes();
  }

  function Running(): G.Gate
  {
    G.Gate(map[1 := 100], map[], map[], map[1 := false])
  }

  function Over(): G.Gate
  {
    G.Gate(map[1 := 100], map[1 := true], map[1 := 160], map[1 := false])
  }

  lemma StopSwept()
    ensures G.Latched(Over(), 1) && Sweeps(SHORT, Talker(Over(), Silent(false)), INSISTS[3])
    ensures 1 !in Next(SHORT, Talker(Over(), Silent(false)), INSISTS[3]).gate.startedAt
  {
    hide SpeakerModel.Gain, SpeakerModel.Faded;
  }

  /**
   A talker whose packet at 160 is refused, 60 after his first one and with 50 allowed, is heard again at any time
   from the tick at 165 on, although he has not stopped sending: he has been silent, to the mixer, for 65.
   */
  lemma {:induction false} InsistingHelps(at: int)
    ensures var t0 := Talker(G.IDLE, Speaker(None, false));
            && Passes(SHORT, t0, 100) && !Passes(SHORT, After(SHORT, t0, INSISTS[..2]), 160)
            && Passes(SHORT, After(SHORT, t0, INSISTS), at)
  {
    var t0 := Talker(G.IDLE, Speaker(None, false));
    var t1 := Talker(Running(), Speaker(Some(M.TalkStream(M.Waits(), [])), false));
    var t2, t3 := Talker(Running(), Silent(false)), Talker(Over(), Silent(false));
    ScheduleSteps();
    StopSwept();
    Unfold(t0, t1, t2, t3);
  }

  lemma {:induction false} Unfold(t0: Talker, t1: Talker, t2: Talker, t3: Talker)
    requires Next(SHORT, t0, INSISTS[0]) == t1 && Next(SHORT, t1, INSISTS[1]) == t2 && Next(SHORT, t2, INSISTS[2]) == t3
    ensures After(SHORT, t0, INSISTS[..2]) == t2
    ensures After(SHORT, t0, INSISTS) == Next(SHORT, t3, INSISTS[3])
  {
    hide Next;
    assert INSISTS[..2][1..] == [INSISTS[1]] && [INSISTS[1]][1..] == [];
    assert After(SHORT, t1, [INSISTS[1]]) == t2;
    assert INSISTS[1..] == [INSISTS[1], INSISTS[2], INSISTS[3]];
    assert [INSISTS[1], INSISTS[2], INSISTS[3]][1..] == [INSISTS[2], INSISTS[3]];
    assert [INSISTS[2], INSISTS[3]][1..] == [INSISTS[3]] && [INSISTS[3]][1..] == [];
    assert After(SHORT, t3, [INSISTS[3]]) == Next(SHORT, t3, INSISTS[3]);
    assert After(SHORT, t2, [INSISTS[2], INSISTS[3]]) == Next(SHORT, t3, INSISTS[3]);
  }

  // ---------- The stream ----------

  /** What the happening is to the speaker's stream: a packet only if the gate and busy mode let it in. */
  ghost function SpeakerEvents(s: Settings, t: Talker, h: Happening): seq<SpeakerModel.Event>
  {
    match h
    case Packet(p, at, accepted) => if Passes(s, t, at) && accepted then [Arrive(p, at)] else []
    case EndMark(at) => [Marker(at)]
    case Leave => []
    case Tick(at, decoded, present) => [SpeakerModel.Tick(at, decoded, present)]
  }

  ghost function SpeakerRun(s: Settings, t: Talker, hs: seq<Happening>): seq<SpeakerModel.Event>
    decreases hs
  {
    if hs == [] then [] else SpeakerEvents(s, t, hs[0]) + SpeakerRun(s, Next(s, t, hs[0]), hs[1..])
  }

  lemma OneSpeakerEvent(c: Timing, sp: Speaker, e: SpeakerModel.Event)
    ensures RunAll(c, sp, [e]).0 == SpeakerModel.Next(c, sp, e).0 && RunAll(c, sp, []).0 == sp
  {
    hide SpeakerModel.Next;
    assert [e][1..] == [];
  }

  lemma StepIsSpeakerRun(s: Settings, t: Talker, h: Happening)
    ensures Next(s, t, h).speaker == RunAll(s.timing, t.speaker, SpeakerEvents(s, t, h)).0
  {
    hide RunAll, OnPacket, OnTick, OnEof, G.Rule, Sweeps;
    match h {
      case Packet(p, at, accepted) => OneSpeakerEvent(s.timing, t.speaker, Arrive(p, at));
      case EndMark(at) => OneSpeakerEvent(s.timing, t.speaker, Marker(at));
      case Leave => OneSpeakerEvent(s.timing, t.speaker, Marker(0));
      case Tick(at, decoded, present) =>
        OneSpeakerEvent(s.timing, t.speaker, SpeakerModel.Tick(at, decoded, present));
    }
  }

  /** On every run the stream goes through the steps of a speaker whose packets are those that got in. */
  lemma {:induction false} StreamIsSpeakerRun(s: Settings, t: Talker, hs: seq<Happening>)
    ensures After(s, t, hs).speaker == RunAll(s.timing, t.speaker, SpeakerRun(s, t, hs)).0
    decreases hs
  {
    hide Next, SpeakerEvents;
    if hs != [] {
      var t1 := Next(s, t, hs[0]);
      StepIsSpeakerRun(s, t, hs[0]);
      StreamIsSpeakerRun(s, t1, hs[1..]);
      F.RunAllAppend(s.timing, t.speaker, SpeakerEvents(s, t, hs[0]), SpeakerRun(s, t1, hs[1..]));
    }
  }
}
