/**
 Runs of the relay seen from one channel: its hold and its gate go through exactly the steps of the busy
 arbiter and of the transmit-timeout gate, so what those modules prove of every run holds in every channel.
 */
module RelayRuns {
  import opened Packets
  import B = BusyArbiter
  import G = TxGate
  import opened RelayModel
  import RelaySafety

  function ArenaOf(r: Relay, name: string): B.Arena
  {
    B.Arena(MixerAt(r, name).hold, MixerAt(r, name).participants)
  }

  predicate Concerns(r: Relay, session: uint32, name: string)
  {
    session in r.clients && r.clients[session].channel == name
  }

  /** What a step of the relay is to the arbiter of a channel; a packet that the gate refuses is nothing. */
  function ArenaEvents(s: Settings, r: Relay, e: Event, name: string): seq<B.Event>
  {
    match e
    case Bind(session, n, _) => if n == name then [B.Join(session)] else []
    case Disconnect(session) => if session in r.clients then [B.Leave(session)] else []
    case Voice(session, at) =>
      if Concerns(r, session, name) && G.Rule(s.transmitTimeout, MixerAt(r, name).gate, session, at).1.pass
      then [B.Packet(session, at)] else []
    case EndMark(session, at) => if Concerns(r, session, name) then [B.EofFrom(session, at)] else []
    case _ => []
  }

  /** What it is to the gate. */
  function GateEvents(r: Relay, e: Event, name: string): seq<G.Event>
  {
    match e
    case Disconnect(session) => if session in r.clients then [G.Ended(session)] else []
    case Voice(session, at) => if Concerns(r, session, name) then [G.Packet(session, at)] else []
    case EndMark(session, _) => if Concerns(r, session, name) then [G.Ended(session)] else []
    case Tick(n, _, _, _, dropped) => if n == name then [G.Swept(dropped)] else []
    case _ => []
  }

  function ArenaRun(s: Settings, r: Relay, es: seq<Event>, name: string): seq<B.Event>
    requires PossibleRun(s, r, es)
    decreases es
  {
    if es == [] then [] else ArenaEvents(s, r, es[0], name) + ArenaRun(s, Step(s, r, es[0]), es[1..], name)
  }

  function GateRun(s: Settings, r: Relay, es: seq<Event>, name: string): seq<G.Event>
    requires PossibleRun(s, r, es)
    decreases es
  {
    if es == [] then [] else GateEvents(r, es[0], name) + GateRun(s, Step(s, r, es[0]), es[1..], name)
  }

  // ---------- One step ----------

  lemma TickArbitration(
    s: Settings, m: Mixer, clients: map<uint32, Client>, name: string, now: int, f: Frame, emits: bool,
    dropped: set<uint32>)
    ensures var m1 := MixTick(s, m, clients, name, now, f, emits, dropped).0;
            m1.hold == m.hold && m1.participants == m.participants && m1.gate == G.Sweep(m.gate, dropped)
  {
    hide G.Sweep, Tell, EmitFrame, ProbeIdle;
    var m1 := NoteSpeakers(m, f.speakers, now);
    var (m2, clients2) := if emits then EmitFrame(s, m1, clients, name, now, f) else (m1, clients);
    EmitArbitration(s, m1, clients, name, now, f);
    ProbeArbitration(s, Swept(m2, dropped), clients2, name, now);
  }

  lemma EmitArbitration(s: Settings, m: Mixer, clients: map<uint32, Client>, name: string, now: int, f: Frame)
    ensures var m1 := EmitFrame(s, m, clients, name, now, f).0;
            m1.hold == m.hold && m1.participants == m.participants && m1.gate == m.gate
  {
    hide Tell, Bound, Broadcast, Excluded;
  }

  lemma ProbeArbitration(s: Settings, m: Mixer, clients: map<uint32, Client>, name: string, now: int)
    ensures var m1 := ProbeIdle(s, m, clients, name, now).0;
            m1.hold == m.hold && m1.participants == m.participants && m1.gate == m.gate
  {
    hide Tell, Bound;
  }

  lemma AdmitArbitration(s: Settings, m: Mixer, clients: map<uint32, Client>, session: uint32, now: int)
    ensures var m1 := Admit(s, m, clients, session, now).0;
            var (gate, ruling) := G.Rule(s.transmitTimeout, m.gate, session, now);
            && m1.participants == m.participants && m1.gate == gate
            && m1.hold == if ruling.pass then B.TryAccept(s.rules, m.hold, m.participants, session, now).0 else m.hold
  {
    hide G.Rule, B.TryAccept, Tell;
  }

  lemma OneArenaEvent(c: B.Rules, a: B.Arena, e: B.Event)
    ensures B.After(c, a, [e]) == B.Next(c, a, e) && B.After(c, a, []) == a
  {
    assert [e][1..] == [];
  }

  lemma OneGateEvent(timeout: int, g: G.Gate, e: G.Event)
    ensures G.After(timeout, g, [e]) == G.Next(timeout, g, e).0 && G.After(timeout, g, []) == g
  {
    assert [e][1..] == [];
  }

  function PunchedClients(r: Relay, session: uint32): map<uint32, Client>
  {
    if session in r.clients then Punched(r, session).clients else r.clients
  }

  lemma IdleForgets(session: uint32)
    ensures G.Forget(G.IDLE, session) == G.IDLE
  {
  }

  lemma {:induction false} ArenaStep(s: Settings, r: Relay, e: Event, name: string)
    requires Possible(r, e) && name != ""
    ensures ArenaOf(Step(s, r, e), name) == B.After(s.rules, ArenaOf(r, name), ArenaEvents(s, r, e, name))
  {
    hide B.After, B.TryAccept, B.MarkEof, G.Rule, G.Forget, Admit, MixTick, SendLatest, SyncMessages;
    var a := ArenaOf(r, name);
    var events := ArenaEvents(s, r, e, name);
    if events != [] {
      OneArenaEvent(s.rules, a, events[0]);
      assert events == [events[0]];
    } else {
      OneArenaEvent(s.rules, a, B.Join(0));
    }
    match e {
      case Voice(session, at) => AdmitArbitration(s, MixerAt(r, name), PunchedClients(r, session), session, at);
      case Tick(n, at, f, emits, dropped) => TickArbitration(s, r.channels[n], r.clients, n, at, f, emits, dropped);
      case _ =>
    }
  }

  lemma {:induction false} GateStep(s: Settings, r: Relay, e: Event, name: string)
    requires Possible(r, e) && name != ""
    ensures MixerAt(Step(s, r, e), name).gate
            == G.After(s.transmitTimeout, MixerAt(r, name).gate, GateEvents(r, e, name))
  {
    hide G.After, B.TryAccept, B.MarkEof, G.Rule, G.Forget, G.Sweep, Admit, MixTick, SendLatest, SyncMessages;
    var g := MixerAt(r, name).gate;
    var events := GateEvents(r, e, name);
    if events != [] {
      OneGateEvent(s.transmitTimeout, g, events[0]);
      assert events == [events[0]];
    } else {
      OneGateEvent(s.transmitTimeout, g, G.Ended(0));
    }
    match e {
      case Voice(session, at) => AdmitArbitration(s, MixerAt(r, name), PunchedClients(r, session), session, at);
      case Tick(n, at, f, emits, dropped) => TickArbitration(s, r.channels[n], r.clients, n, at, f, emits, dropped);
      case Disconnect(session) => IdleForgets(session);
      case _ =>
    }
  }

  // ---------- Every run ----------

  lemma {:induction false} ArenaAfterBoth(c: B.Rules, a: B.Arena, es: seq<B.Event>, fs: seq<B.Event>)
    ensures B.After(c, a, es + fs) == B.After(c, B.After(c, a, es), fs)
    decreases es
  {
    if es == [] {
      assert es + fs == fs;
    } else {
      assert (es + fs)[1..] == es[1..] + fs;
      ArenaAfterBoth(c, B.Next(c, a, es[0]), es[1..], fs);
    }
  }

  lemma {:induction false} GateAfterBoth(timeout: int, g: G.Gate, es: seq<G.Event>, fs: seq<G.Event>)
    ensures G.After(timeout, g, es + fs) == G.After(timeout, G.After(timeout, g, es), fs)
    decreases es
  {
    if es == [] {
      assert es + fs == fs;
    } else {
      assert (es + fs)[1..] == es[1..] + fs;
      GateAfterBoth(timeout, G.Next(timeout, g, es[0]).0, es[1..], fs);
    }
  }

  /** On every run of the relay, with any clients coming, talking and going, hold and members are the arbiter's. */
  lemma {:induction false} RunIsArenaRun(s: Settings, r: Relay, es: seq<Event>, name: string)
    requires PossibleRun(s, r, es) && name != ""
    ensures ArenaOf(Run(s, r, es), name) == B.After(s.rules, ArenaOf(r, name), ArenaRun(s, r, es, name))
    decreases es
  {
    hide Step, Possible, ArenaOf, ArenaEvents;
    if es == [] {
    } else {
      ArenaStep(s, r, es[0], name);
      RunIsArenaRun(s, Step(s, r, es[0]), es[1..], name);
      ArenaAfterBoth(s.rules, ArenaOf(r, name), ArenaEvents(s, r, es[0], name),
                     ArenaRun(s, Step(s, r, es[0]), es[1..], name));
    }
  }

  /** And its gate is the transmit-timeout gate's. */
  lemma {:induction false} RunIsGateRun(s: Settings, r: Relay, es: seq<Event>, name: string)
    requires PossibleRun(s, r, es) && name != ""
    ensures MixerAt(Run(s, r, es), name).gate
            == G.After(s.transmitTimeout, MixerAt(r, name).gate, GateRun(s, r, es, name))
    decreases es
  {
    hide Step, Possible, MixerAt, GateEvents;
    if es == [] {
    } else {
      GateStep(s, r, es[0], name);
      RunIsGateRun(s, Step(s, r, es[0]), es[1..], name);
      GateAfterBoth(s.transmitTimeout, MixerAt(r, name).gate, GateEvents(r, es[0], name),
                    GateRun(s, Step(s, r, es[0]), es[1..], name));
    }
  }

  // ---------- What follows for the relay ----------

  function At(e: Event, now: int): int
  {
    match e
    case Bind(_, _, at) => at
    case Hello(_, at) => at
    case Voice(_, at) => at
    case EndMark(_, at) => at
    case Tick(_, at, _, _, _) => at
    case _ => now
  }

  predicate TimelyRun(es: seq<Event>, now: int)
    decreases es
  {
    es != [] ==> now <= At(es[0], now) && TimelyRun(es[1..], At(es[0], now))
  }

  function Until(es: seq<Event>, now: int): int
    decreases es
  {
    if es == [] then now else Until(es[1..], At(es[0], now))
  }

  lemma {:induction false} TimelyFromEarlier(es: seq<B.Event>, now: int, earlier: int)
    requires B.Timely(es, now) && earlier <= now
    ensures B.Timely(es, earlier)
    ensures B.ClockAfter(es, earlier) <= B.ClockAfter(es, now)
    decreases es
  {
    if es == [] {
    } else {
      TimelyFromEarlier(es[1..], B.Clock(es[0], now), B.Clock(es[0], earlier));
    }
  }

  /** The arbiter sees the packets of a safe relay in the order of time, from sessions that are not zero. */
  lemma {:induction false} ArenaRunIsTimely(s: Settings, r: Relay, es: seq<Event>, name: string, now: int)
    requires RelaySafety.Safe(s, r) && PossibleRun(s, r, es) && TimelyRun(es, now) && name != ""
    ensures B.Timely(ArenaRun(s, r, es, name), now)
    ensures B.ClockAfter(ArenaRun(s, r, es, name), now) <= Until(es, now)
    decreases es
  {
    hide Step;
    if es == [] {
    } else {
      var e, later := es[0], At(es[0], now);
      var events, rest := ArenaEvents(s, r, e, name), ArenaRun(s, Step(s, r, e), es[1..], name);
      RelaySafety.StepIsSafe(s, r, e);
      ArenaRunIsTimely(s, Step(s, r, e), es[1..], name, later);
      TimelyFromEarlier(rest, later, now);
      SessionsAreNotZero(s, r, e, name);
      if events == [] {
        assert events + rest == rest;
      } else {
        assert events + rest == [events[0]] + rest && (events + rest)[1..] == rest;
      }
    }
  }

  lemma SessionsAreNotZero(s: Settings, r: Relay, e: Event, name: string)
    requires RelaySafety.Safe(s, r) && Possible(r, e)
    ensures |ArenaEvents(s, r, e, name)| <= 1
    ensures forall event :: event in ArenaEvents(s, r, e, name) ==> event.session != 0
  {
    if e.Bind? || e.Disconnect? || e.Voice? || e.EndMark? {
      assert e.session in r.clients ==> RelaySafety.ClientOk(r, e.session);
    }
  }

  /** On every run of the relay parallel talk has a holder, and the busy timeout has run out before it. */
  lemma ParallelTalkIsLate(s: Settings, es: seq<Event>, name: string)
    requires PossibleRun(s, EMPTY, es) && TimelyRun(es, 1) && name != ""
    ensures var h := MixerAt(Run(s, EMPTY, es), name).hold;
            h.parallel ==> h.session != 0 && s.rules.busyTimeout > 0
                           && h.lastPacketAt >= h.startedAt + s.rules.busyTimeout
  {
    ArenaRunIsTimely(s, EMPTY, es, name, 1);
    RunIsArenaRun(s, EMPTY, es, name);
    B.ParallelNeedsTimeout(s.rules, {}, ArenaRun(s, EMPTY, es, name));
  }

  /** On every run of the relay a force-stopped session, or one that was told so, has a start time. */
  lemma StoppedHaveStarted(s: Settings, es: seq<Event>, name: string)
    requires PossibleRun(s, EMPTY, es) && name != ""
    ensures G.StoppedIsStarted(MixerAt(Run(s, EMPTY, es), name).gate)
  {
    RunIsGateRun(s, EMPTY, es, name);
    G.StoppedAlwaysStarted(s.transmitTimeout, G.IDLE, GateRun(s, EMPTY, es, name));
  }

  /** A voice packet for the channel that goes on to its mixer. */
  predicate Accepts(s: Settings, r: Relay, e: Event, name: string)
  {
    e.Voice? && Concerns(r, e.session, name) && Admits(s, MixerAt(r, name), e.session, e.at)
  }

  predicate AcceptsNone(s: Settings, r: Relay, es: seq<Event>, name: string)
    requires PossibleRun(s, r, es)
    decreases es
  {
    es != [] ==> !Accepts(s, r, es[0], name) && AcceptsNone(s, Step(s, r, es[0]), es[1..], name)
  }

  lemma {:induction false} AcceptingNoneIsQuiet(s: Settings, r: Relay, es: seq<Event>, name: string)
    requires PossibleRun(s, r, es) && AcceptsNone(s, r, es, name) && name != ""
    ensures B.Quiet(s.rules, ArenaOf(r, name), ArenaRun(s, r, es, name))
    decreases es
  {
    hide Step, B.TryAccept, G.Rule;
    if es == [] {
    } else {
      var e := es[0];
      var events, rest := ArenaEvents(s, r, e, name), ArenaRun(s, Step(s, r, e), es[1..], name);
      ArenaStep(s, r, e, name);
      AcceptingNoneIsQuiet(s, Step(s, r, e), es[1..], name);
      if events == [] {
        assert events + rest == rest;
      } else {
        OneArenaEvent(s.rules, ArenaOf(r, name), events[0]);
        assert events == [events[0]] && (events + rest)[1..] == rest;
      }
    }
  }

  /**
   Taking turns on every run of the relay in busy mode. When a packet of one session is accepted in a channel,
   and the next one accepted there is another session's, then the holder has left in between, or has ended
   explicitly more than a packet time ago, or nothing was accepted for more than the hangover; or parallel
   talk is allowed, because the busy timeout has run out.
   */
  lemma TurnsAreTaken(s: Settings, past: seq<Event>, first: Event, mid: seq<Event>, last: Event, name: string, now: int)
    requires s.rules.busyMode && PossibleRun(s, EMPTY, past) && first.Voice? && last.Voice? && name != ""
    requires var r := Run(s, EMPTY, past);
             && Accepts(s, r, first, name)
             && PossibleRun(s, Step(s, r, first), mid) && AcceptsNone(s, Step(s, r, first), mid, name)
             && Accepts(s, Run(s, Step(s, r, first), mid), last, name)
    requires now <= first.at && TimelyRun(mid, first.at) && Until(mid, first.at) <= last.at
    requires first.session != last.session
    ensures var r1 := Step(s, Run(s, EMPTY, past), first);
            var r2 := Run(s, r1, mid);
            var h, events := MixerAt(r1, name).hold, ArenaRun(s, r1, mid, name);
            || B.HoldIsOver(s.rules, h.session, first.at, events, MixerAt(r2, name).participants, last.at)
            || h.parallel || B.TimeoutElapses(s.rules, h, last.at)
  {
    hide Step, Accepts, AcceptsNone, ArenaEvents, B.VerdictOn, B.HoldIsOver, B.TimeoutElapses, B.Next, B.After;
    var r := Run(s, EMPTY, past);
    var r1 := Step(s, r, first);
    var a, e1, e2 := ArenaOf(r, name), B.Packet(first.session, first.at), B.Packet(last.session, last.at);
    RelaySafety.EveryRunIsSafe(s, past);
    AcceptIsPacket(s, r, first, name);
    ArenaStep(s, r, first, name);
    OneArenaEvent(s.rules, a, e1);
    RelaySafety.StepIsSafe(s, r, first);
    ArenaRunIsTimely(s, r1, mid, name, first.at);
    AcceptingNoneIsQuiet(s, r1, mid, name);
    RunIsArenaRun(s, r1, mid, name);
    RelaySafety.RunIsSafe(s, r1, mid);
    AcceptIsPacket(s, Run(s, r1, mid), last, name);
    B.Exclusion(s.rules, a, e1, ArenaRun(s, r1, mid, name), e2, now);
  }

  /** An accepted packet is one that the gate lets through and that the arbiter accepts. */
  lemma AcceptIsPacket(s: Settings, r: Relay, e: Event, name: string)
    requires RelaySafety.Safe(s, r) && e.Voice? && Accepts(s, r, e, name)
    ensures e.session != 0 && ArenaEvents(s, r, e, name) == [B.Packet(e.session, e.at)]
    ensures B.Accepted(B.VerdictOn(s.rules, ArenaOf(r, name), B.Packet(e.session, e.at)))
  {
    hide B.TryAccept, G.Rule;
    assert RelaySafety.ClientOk(r, e.session);
  }
}
