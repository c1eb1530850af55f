/**
 Who hears what: on every run of the relay, from the events alone, which frames reach a client live and which
 one it gets when it comes late.
 */
module RelayAudience {
  import opened Packets
  import B = BusyArbiter
  import G = TxGate
  import opened RelayModel
  import opened RelaySafety

  // ---------- What the events say ----------

  function Last(es: seq<Event>): Event
    requires es != []
  {
    es[|es| - 1]
  }

  function Before(es: seq<Event>): seq<Event>
    requires es != []
  {
    es[..|es| - 1]
  }

  predicate IsTick(e: Event, name: string)
  {
    e.Tick? && e.name == name
  }

  /** A datagram of any kind shows the client's address. */
  predicate IsDatagram(e: Event, session: uint32)
  {
    (e.Punch? || e.Hello? || e.Voice? || e.EndMark?) && e.session == session
  }

  /** Where a client is bound, whether its address is known, and whether it repeats. */
  datatype Standing = Standing(channel: string, hasUdp: bool, repeater: bool)

  const NOWHERE: Standing := Standing("", false, false)

  function StandingAfter(es: seq<Event>, session: uint32): Standing
    decreases es
  {
    if es == [] then NOWHERE
    else
      var e, was := Last(es), StandingAfter(Before(es), session);
      if e == Connect(session) then NOWHERE else StandingNext(was, e, session)
  }

  function StandingNext(was: Standing, e: Event, session: uint32): Standing
  {
    if e.Bind? && e.session == session then was.(channel := e.name)
    else if e.SetRepeater? && e.session == session then was.(repeater := e.on)
    else if IsDatagram(e, session) then was.(hasUdp := true)
    else was
  }

  /** Who has last spoken alone in a channel, and when; nobody if several have spoken together since. */
  function LoneTalk(es: seq<Event>, name: string): (uint32, int)
    decreases es
  {
    if es == [] then (0, 0)
    else
      var e, was := Last(es), LoneTalk(Before(es), name);
      if !IsTick(e, name) || |e.frame.speakers| == 0 then was
      else if |e.frame.speakers| == 1 then (e.frame.speakers[0], e.at)
      else (0, was.1)
  }

  /** Who does not get the frame of a tick after es: its only speaker, or the last one in the tail. */
  predicate KeptFrom(s: Settings, es: seq<Event>, e: Event, session: uint32)
    requires e.Tick?
  {
    || e.frame.speakers == [session]
    || (e.frame.speakers == [] && LoneTalk(es, e.name).0 == session && e.at - LoneTalk(es, e.name).1 <= s.tailGrace)
  }

  /** The last tick that sent a frame in a channel, by its place in the run. */
  function LastAired(es: seq<Event>, name: string): (k: Option<nat>)
    ensures k.Some? ==> k.value < |es| && es[k.value].Tick?
    decreases es
  {
    if es == [] then None
    else if IsTick(Last(es), name) && Last(es).emits then Some(|es| - 1)
    else LastAired(Before(es), name)
  }

  /** Whether the last frame of a channel is still good for a client that comes now, and was not kept from it. */
  predicate MayCatchUp(s: Settings, es: seq<Event>, name: string, session: uint32, now: int)
  {
    var k := LastAired(es, name);
    && k.Some?
    && now - es[k.value].at <= s.frameMaxAge
    && !KeptFrom(s, es[..k.value], es[k.value], session)
  }

  function Caught(s: Settings, es: seq<Event>, name: string, session: uint32, now: int): seq<Frame>
  {
    if MayCatchUp(s, es, name, session, now) then [es[LastAired(es, name).value].frame] else []
  }

  /** What a client hears of the event e that follows es. */
  function Heard(s: Settings, es: seq<Event>, e: Event, session: uint32): seq<Frame>
  {
    var c := StandingAfter(es, session);
    match e
    case Tick(name, at, frame, emits, _) =>
      if emits && c.channel == name && c.hasUdp && !c.repeater && !KeptFrom(s, es, e, session) then [frame] else []
    case Bind(x, name, at) => if x == session && c.hasUdp then Caught(s, es, name, session, at) else []
    case Hello(x, at) => if x == session && c.channel != "" then Caught(s, es, c.channel, session, at) else []
    case _ => []
  }

  // ---------- Runs by their last step ----------

  lemma {:induction false} RunSnoc(s: Settings, r: Relay, es: seq<Event>, e: Event)
    requires PossibleRun(s, r, es + [e])
    ensures PossibleRun(s, r, es) && Possible(Run(s, r, es), e)
    ensures Run(s, r, es + [e]) == Step(s, Run(s, r, es), e)
    decreases es
  {
    hide Possible, Step;
    if es == [] {
      assert es + [e] == [e] && [e][1..] == [];
    } else {
      assert (es + [e])[1..] == es[1..] + [e];
      RunSnoc(s, Step(s, r, es[0]), es[1..], e);
    }
  }

  lemma RunLast(s: Settings, es: seq<Event>)
    requires es != [] && PossibleRun(s, EMPTY, es)
    ensures PossibleRun(s, EMPTY, Before(es)) && Possible(Run(s, EMPTY, Before(es)), Last(es))
    ensures Run(s, EMPTY, es) == Step(s, Run(s, EMPTY, Before(es)), Last(es))
  {
    assert es == Before(es) + [Last(es)];
    RunSnoc(s, EMPTY, Before(es), Last(es));
  }

  // ---------- The clients ----------

  function StandingOf(c: Client): Standing
  {
    Standing(c.channel, c.hasUdp, c.repeater)
  }

  lemma TickStanding(
    s: Settings, m: Mixer, clients: map<uint32, Client>, name: string, now: int, f: Frame, emits: bool,
    dropped: set<uint32>, x: uint32)
    requires x in clients
    ensures var clients1 := MixTick(s, m, clients, name, now, f, emits, dropped).1;
            x in clients1 && StandingOf(clients1[x]) == StandingOf(clients[x])
  {
    hide Excluded, NoteSpeakers, Bound, BurstMessages, EndMessages;
  }

  lemma StandingStep(s: Settings, r: Relay, e: Event, x: uint32)
    requires Possible(r, e) && x in Step(s, r, e).clients
    ensures e == Connect(x) || x in r.clients
    ensures var c := StandingOf(Step(s, r, e).clients[x]);
            if e == Connect(x) then c == NOWHERE else c == StandingNext(StandingOf(r.clients[x]), e, x)
  {
    hide MixTick, StandingNext, StandingOf;
    if e.Tick? {
      TickClients(s, r.channels[e.name], r.clients, e.name, e.at, e.frame, e.emits, e.dropped);
      TickStanding(s, r.channels[e.name], r.clients, e.name, e.at, e.frame, e.emits, e.dropped, x);
      NextAtTick(StandingOf(r.clients[x]), e, x);
    } else if e.Voice? {
      VoiceStanding(s, r, e, x);
    } else {
      OtherStanding(s, r, e, x);
    }
  }

  lemma NextAtTick(was: Standing, e: Event, x: uint32)
    requires e.Tick?
    ensures StandingNext(was, e, x) == was
  {
  }

  /** What a voice packet does to the relay, through the mixer of its channel. */
  lemma VoiceStep(s: Settings, r: Relay, e: Event)
    requires e.Voice?
    ensures var r1 := Step(s, r, e);
            if e.session !in r.clients then r1 == r
            else
              var r2 := Punched(r, e.session);
              var name := r2.clients[e.session].channel;
              && name == r.clients[e.session].channel
              && if name == "" then r1 == r2
                 else
                   r1.clients == Admit(s, MixerAt(r2, name), r2.clients, e.session, e.at).1
                   && MixerAt(r1, name) == Admit(s, MixerAt(r2, name), r2.clients, e.session, e.at).0
  {
    hide Admit;
  }

  /** Nothing changes about the frames sent in a channel. */
  predicate SameAiring(m: Mixer, m1: Mixer)
  {
    && m1.latest == m.latest && m1.lastSingle == m.lastSingle && m1.lastSingleAt == m.lastSingleAt
    && m1.rxActive == m.rxActive && m1.rxLastAt == m.rxLastAt
  }

  lemma TellKeeps(clients: map<uint32, Client>, to: set<uint32>, messages: seq<Message>)
    ensures var clients1 := Tell(clients, to, messages);
            && clients1.Keys == clients.Keys
            && (forall x :: x in clients ==>
                  StandingOf(clients1[x]) == StandingOf(clients[x]) && clients1[x].heard == clients[x].heard)
  {
  }

  lemma AdmitKeeps(s: Settings, m: Mixer, clients: map<uint32, Client>, session: uint32, now: int)
    ensures var (m1, clients1) := Admit(s, m, clients, session, now);
            && SameAiring(m, m1)
            && clients1.Keys == clients.Keys
            && (forall x :: x in clients ==>
                  StandingOf(clients1[x]) == StandingOf(clients[x]) && clients1[x].heard == clients[x].heard)
  {
    hide G.Rule, B.TryAccept, NoticeMessages, Tell, StandingOf;
    var ruling := G.Rule(s.transmitTimeout, m.gate, session, now).1;
    TellKeeps(clients, {session}, NoticeMessages(ruling));
    TellKeeps(Tell(clients, {session}, NoticeMessages(ruling)), m.participants, [PttUnlock]);
  }

  lemma PunchedStands(r: Relay, session: uint32, x: uint32)
    requires session in r.clients
    ensures var r1 := Punched(r, session);
            && r1.channels == r.channels && r1.clients.Keys == r.clients.Keys
            && (x in r.clients ==>
                  && r1.clients[x].heard == r.clients[x].heard
                  && StandingOf(r1.clients[x])
                     == if x == session then StandingOf(r.clients[x]).(hasUdp := true) else StandingOf(r.clients[x]))
  {
  }

  lemma VoiceStanding(s: Settings, r: Relay, e: Event, x: uint32)
    requires e.Voice? && x in Step(s, r, e).clients
    ensures x in r.clients && StandingOf(Step(s, r, e).clients[x]) == StandingNext(StandingOf(r.clients[x]), e, x)
    ensures Step(s, r, e).clients[x].heard == r.clients[x].heard
  {
    hide Step, Admit, Punched, StandingOf;
    VoiceStep(s, r, e);
    if e.session in r.clients {
      var r2 := Punched(r, e.session);
      PunchedStands(r, e.session, x);
      AdmitKeeps(s, MixerAt(r2, r.clients[e.session].channel), r2.clients, e.session, e.at);
    }
  }

  lemma OtherStanding(s: Settings, r: Relay, e: Event, x: uint32)
    requires Possible(r, e) && x in Step(s, r, e).clients && !e.Tick? && !e.Voice?
    ensures e == Connect(x) || x in r.clients
    ensures var c := StandingOf(Step(s, r, e).clients[x]);
            if e == Connect(x) then c == NOWHERE else c == StandingNext(StandingOf(r.clients[x]), e, x)
  {
    hide CatchUp, SyncMessages, MarkEof, RemoveParticipant;
  }

  lemma TickClients(
    s: Settings, m: Mixer, clients: map<uint32, Client>, name: string, now: int, f: Frame, emits: bool,
    dropped: set<uint32>)
    ensures MixTick(s, m, clients, name, now, f, emits, dropped).1.Keys == clients.Keys
  {
    hide Excluded, NoteSpeakers, Bound, BurstMessages, EndMessages;
  }

  /** On every run a client is bound, known and repeating as the events say. */
  lemma {:induction false} ClientStands(s: Settings, es: seq<Event>, x: uint32)
    requires PossibleRun(s, EMPTY, es) && x in Run(s, EMPTY, es).clients
    ensures StandingOf(Run(s, EMPTY, es).clients[x]) == StandingAfter(es, x)
    decreases es
  {
    hide Step, Possible;
    if es != [] {
      RunLast(s, es);
      var r, e := Run(s, EMPTY, Before(es)), Last(es);
      StandingStep(s, r, e, x);
      if e != Connect(x) {
        ClientStands(s, Before(es), x);
      }
    }
  }

  // ---------- The frame kept for late comers ----------

  /** What the mixer knows of the frames that it has sent. */
  predicate Remembers(s: Settings, es: seq<Event>, name: string, m: Mixer)
  {
    var k := LastAired(es, name);
    && (m.lastSingle, m.lastSingleAt) == LoneTalk(es, name)
    && (if k.None? then m.latest.frame.None?
        else && m.latest.frame == Some(es[k.value].frame) && m.latest.at == es[k.value].at
             && m.latest.excluded == ExcludedAt(s, es[..k.value], es[k.value]))
  }

  function ExcludedAt(s: Settings, es: seq<Event>, e: Event): uint32
    requires e.Tick?
  {
    var lone := LoneTalk(es, e.name);
    if |e.frame.speakers| == 1 then e.frame.speakers[0]
    else if |e.frame.speakers| == 0 && lone.0 != 0 && e.at - lone.1 <= s.tailGrace then lone.0
    else 0
  }

  lemma ExcludedIsKept(s: Settings, es: seq<Event>, e: Event, session: uint32)
    requires e.Tick? && session != 0
    ensures KeptFrom(s, es, e, session) <==> ExcludedAt(s, es, e) == session
  {
    if |e.frame.speakers| == 1 {
      assert e.frame.speakers == [e.frame.speakers[0]];
    }
  }

  lemma TickRemembers(
    s: Settings, m: Mixer, clients: map<uint32, Client>, name: string, now: int, f: Frame, emits: bool,
    dropped: set<uint32>)
    ensures var m0, m1 := NoteSpeakers(m, f.speakers, now), MixTick(s, m, clients, name, now, f, emits, dropped).0;
            && m1.lastSingle == m0.lastSingle && m1.lastSingleAt == m0.lastSingleAt
            && m1.latest == if emits then Latest(Some(f), now, Excluded(s, m0, f.speakers, now)) else m.latest
  {
    hide Tell, Broadcast, Bound, Excluded;
  }

  lemma VoiceRemembers(s: Settings, r: Relay, e: Event, name: string)
    requires e.Voice?
    ensures SameAiring(MixerAt(r, name), MixerAt(Step(s, r, e), name))
  {
    hide Admit;
    if e.session in r.clients {
      var r2 := Punched(r, e.session);
      AdmitKeeps(s, MixerAt(r2, r.clients[e.session].channel), r2.clients, e.session, e.at);
    }
  }

  lemma QuietRemembers(s: Settings, r: Relay, e: Event, name: string)
    requires Possible(r, e) && !e.Voice? && !e.Tick?
    ensures SameAiring(MixerAt(r, name), MixerAt(Step(s, r, e), name))
  {
    hide CatchUp, SyncMessages, Told, Hears;
  }

  lemma TickElsewhere(s: Settings, r: Relay, e: Event, name: string)
    requires Possible(r, e) && e.Tick?
    ensures name != e.name ==> MixerAt(Step(s, r, e), name) == MixerAt(r, name)
  {
    hide MixTick;
  }

  lemma OtherRemembers(s: Settings, r: Relay, e: Event, name: string)
    requires Possible(r, e) && !IsTick(e, name)
    ensures SameAiring(MixerAt(r, name), MixerAt(Step(s, r, e), name))
  {
    hide Step;
    if e.Voice? {
      VoiceRemembers(s, r, e, name);
    } else if e.Tick? {
      TickElsewhere(s, r, e, name);
    } else {
      QuietRemembers(s, r, e, name);
    }
  }

  lemma {:induction false} MixerRemembers(s: Settings, es: seq<Event>, name: string)
    requires PossibleRun(s, EMPTY, es)
    ensures Remembers(s, es, name, MixerAt(Run(s, EMPTY, es), name))
    decreases es
  {
    hide Step, Possible, Excluded;
    if es != [] {
      RunLast(s, es);
      var before, e := Before(es), Last(es);
      var r := Run(s, EMPTY, before);
      MixerRemembers(s, before, name);
      SamePlace(es, name);
      if IsTick(e, name) {
        TickIsStep(s, r, e);
        TickRemembers(s, r.channels[name], r.clients, name, e.at, e.frame, e.emits, e.dropped);
        ExcludedNow(s, before, e, r.channels[name]);
      } else {
        OtherRemembers(s, r, e, name);
      }
    }
  }

  lemma SamePlace(es: seq<Event>, name: string)
    requires es != []
    ensures var k := LastAired(Before(es), name);
            k.Some? ==> es[k.value] == Before(es)[k.value] && es[..k.value] == Before(es)[..k.value]
    ensures es[..|es| - 1] == Before(es) && es[|es| - 1] == Last(es)
  {
  }

  lemma TickIsStep(s: Settings, r: Relay, e: Event)
    requires Possible(r, e) && e.Tick?
    ensures e.name in r.channels
    ensures var m1 := MixTick(s, r.channels[e.name], r.clients, e.name, e.at, e.frame, e.emits, e.dropped);
            MixerAt(Step(s, r, e), e.name) == m1.0 && Step(s, r, e).clients == m1.1
  {
    hide MixTick;
  }

  lemma ExcludedNow(s: Settings, es: seq<Event>, e: Event, m: Mixer)
    requires e.Tick? && (m.lastSingle, m.lastSingleAt) == LoneTalk(es, e.name)
    ensures Excluded(s, NoteSpeakers(m, e.frame.speakers, e.at), e.frame.speakers, e.at) == ExcludedAt(s, es, e)
  {
  }

  // ---------- What is heard ----------

  lemma TellHeard(clients: map<uint32, Client>, to: set<uint32>, messages: seq<Message>, x: uint32)
    requires x in clients
    ensures x in Tell(clients, to, messages) && Tell(clients, to, messages)[x].heard == clients[x].heard
  {
  }

  lemma BroadcastHeard(clients: map<uint32, Client>, name: string, except: uint32, f: Frame, x: uint32)
    requires x in clients && x != 0
    ensures var c, clients1 := clients[x], Broadcast(clients, name, except, f);
            && x in clients1
            && clients1[x].heard
               == c.heard + if c.channel == name && c.hasUdp && !c.repeater && except != x then [f] else []
  {
  }

  lemma NoteHeard(
    s: Settings, m: Mixer, clients: map<uint32, Client>, name: string, now: int, exclude: uint32, x: uint32)
    requires x in clients
    ensures var clients1 := NoteOutbound(s, m, clients, name, now, exclude).1;
            x in clients1 && clients1[x].heard == clients[x].heard
  {
    hide Tell;
    TellHeard(clients, Bound(clients, name, exclude), BurstMessages(s), x);
  }

  lemma ProbeHeard(s: Settings, m: Mixer, clients: map<uint32, Client>, name: string, now: int, x: uint32)
    requires x in clients
    ensures var clients1 := ProbeIdle(s, m, clients, name, now).1;
            x in clients1 && clients1[x].heard == clients[x].heard
  {
    hide Tell;
    TellHeard(clients, Bound(clients, name, 0), EndMessages(s, Unlocks(s, m)), x);
  }

  lemma TickHeard(
    s: Settings, m: Mixer, clients: map<uint32, Client>, name: string, now: int, f: Frame, emits: bool,
    dropped: set<uint32>, x: uint32)
    requires x in clients && x != 0
    ensures var clients1 := MixTick(s, m, clients, name, now, f, emits, dropped).1;
            var c := clients[x];
            && x in clients1
            && clients1[x].heard
               == c.heard
                  + if emits && c.channel == name && c.hasUdp && !c.repeater
                       && Excluded(s, NoteSpeakers(m, f.speakers, now), f.speakers, now) != x
                    then [f] else []
  {
    hide Excluded, NoteSpeakers, NoteOutbound, ProbeIdle, Broadcast, Remember, Swept;
    var m1 := NoteSpeakers(m, f.speakers, now);
    var (m2, clients2) := if emits then EmitFrame(s, m1, clients, name, now, f) else (m1, clients);
    if emits {
      var exclude := Excluded(s, m1, f.speakers, now);
      BroadcastHeard(clients, name, exclude, f, x);
      NoteHeard(s, Remember(s, m1, now, f), Broadcast(clients, name, exclude, f), name, now, exclude, x);
    }
    ProbeHeard(s, Swept(m2, dropped), clients2, name, now, x);
  }

  lemma OtherHeard(s: Settings, r: Relay, e: Event, x: uint32)
    requires Possible(r, e) && x in r.clients && x in Step(s, r, e).clients && !e.Tick?
    requires !(e.Bind? && e.session == x) && !(e.Hello? && e.session == x)
    ensures Step(s, r, e).clients[x].heard == r.clients[x].heard
  {
    hide Step;
    if e.Voice? {
      VoiceStanding(s, r, e, x);
    } else {
      QuietHeard(s, r, e, x);
    }
  }

  lemma QuietHeard(s: Settings, r: Relay, e: Event, x: uint32)
    requires Possible(r, e) && x in r.clients && x in Step(s, r, e).clients && !e.Tick? && !e.Voice?
    requires !(e.Bind? && e.session == x) && !(e.Hello? && e.session == x)
    ensures Step(s, r, e).clients[x].heard == r.clients[x].heard
  {
    hide CatchUp, SyncMessages, RemoveParticipant;
  }

  lemma BindHeard(s: Settings, r: Relay, e: Event, x: uint32)
    requires Possible(r, e) && e.Bind? && e.session == x
    ensures x in r.clients && x in Step(s, r, e).clients
    ensures var f := CatchUp(s, AddParticipant(MixerAt(r, e.name), x), x, e.at);
            Step(s, r, e).clients[x].heard
            == r.clients[x].heard + if f.Some? && r.clients[x].hasUdp then [f.value] else []
  {
    hide CatchUp, SyncMessages, RemoveParticipant;
  }

  lemma HelloHeard(s: Settings, r: Relay, e: Event, x: uint32)
    requires x in r.clients && e.Hello? && e.session == x
    ensures x in Step(s, r, e).clients
    ensures var c := r.clients[x];
            var f := CatchUp(s, MixerAt(r, c.channel), x, e.at);
            Step(s, r, e).clients[x].heard == c.heard + if c.channel != "" && f.Some? then [f.value] else []
  {
    hide CatchUp;
  }

  lemma CatchUpIs(s: Settings, es: seq<Event>, name: string, m: Mixer, m1: Mixer, session: uint32, now: int)
    requires Remembers(s, es, name, m) && m1.latest == m.latest && session != 0
    ensures var f := CatchUp(s, m1, session, now);
            (if f.Some? then [f.value] else []) == Caught(s, es, name, session, now)
  {
    hide LoneTalk;
    var k := LastAired(es, name);
    if k.Some? {
      ExcludedIsKept(s, es[..k.value], es[k.value], session);
    }
  }

  /**
   On every run: whoever is connected hears exactly what the events say. A mixed frame reaches each client that is
   bound to the channel, has sent a datagram and does not repeat, except its only speaker, and in a tail the last
   one; a client that joins, or says hello, gets the channel's last frame if that is recent and was not kept
   from it; nothing else is heard.
   */
  lemma {:induction false} WhatIsHeard(s: Settings, es: seq<Event>, e: Event, x: uint32)
    requires PossibleRun(s, EMPTY, es + [e])
    requires PossibleRun(s, EMPTY, es) && x in Run(s, EMPTY, es).clients && x in Run(s, EMPTY, es + [e]).clients
    ensures Run(s, EMPTY, es + [e]).clients[x].heard == Run(s, EMPTY, es).clients[x].heard + Heard(s, es, e, x)
  {
    hide Step, Possible, Heard;
    RunSnoc(s, EMPTY, es, e);
    var r := Run(s, EMPTY, es);
    EveryRunIsSafe(s, es);
    assert ClientOk(r, x);
    match e {
      case Tick(_, _, _, _, _) => HeardOfTick(s, es, e, x);
      case Bind(session, _, _) =>
        if session == x {
          HeardOfBind(s, es, e, x);
        } else {
          HeardOfOther(s, es, e, x);
        }
      case Hello(session, _) =>
        if session == x {
          HeardOfHello(s, es, e, x);
        } else {
          HeardOfOther(s, es, e, x);
        }
      case _ => HeardOfOther(s, es, e, x);
    }
  }

  lemma HeardOfTick(s: Settings, es: seq<Event>, e: Event, x: uint32)
    requires PossibleRun(s, EMPTY, es) && Possible(Run(s, EMPTY, es), e) && e.Tick?
    requires x in Run(s, EMPTY, es).clients && x != 0 && x in Step(s, Run(s, EMPTY, es), e).clients
    ensures Step(s, Run(s, EMPTY, es), e).clients[x].heard == Run(s, EMPTY, es).clients[x].heard + Heard(s, es, e, x)
  {
    hide Step, Possible, MixTick, Remembers, Excluded, KeptFrom, StandingAfter;
    var r, name := Run(s, EMPTY, es), e.name;
    ClientStands(s, es, x);
    MixerRemembers(s, es, name);
    TickIsStep(s, r, e);
    TickHeard(s, r.channels[name], r.clients, name, e.at, e.frame, e.emits, e.dropped, x);
    Lone(s, es, name, r.channels[name]);
    ExcludedNow(s, es, e, r.channels[name]);
    ExcludedIsKept(s, es, e, x);
  }

  lemma HeardOfBind(s: Settings, es: seq<Event>, e: Event, x: uint32)
    requires PossibleRun(s, EMPTY, es) && Possible(Run(s, EMPTY, es), e) && e.Bind? && e.session == x
    requires x in Run(s, EMPTY, es).clients && x != 0 && x in Step(s, Run(s, EMPTY, es), e).clients
    ensures Step(s, Run(s, EMPTY, es), e).clients[x].heard == Run(s, EMPTY, es).clients[x].heard + Heard(s, es, e, x)
  {
    hide Step, Possible, Remembers, CatchUp, Caught, StandingAfter;
    var r := Run(s, EMPTY, es);
    ClientStands(s, es, x);
    MixerRemembers(s, es, e.name);
    BindHeard(s, r, e, x);
    CatchUpIs(s, es, e.name, MixerAt(r, e.name), AddParticipant(MixerAt(r, e.name), x), x, e.at);
  }

  lemma HeardOfHello(s: Settings, es: seq<Event>, e: Event, x: uint32)
    requires PossibleRun(s, EMPTY, es) && e.Hello? && e.session == x
    requires Possible(Run(s, EMPTY, es), e)
    requires x in Run(s, EMPTY, es).clients && x != 0 && x in Step(s, Run(s, EMPTY, es), e).clients
    ensures Step(s, Run(s, EMPTY, es), e).clients[x].heard == Run(s, EMPTY, es).clients[x].heard + Heard(s, es, e, x)
  {
    hide Step, Possible, Remembers, CatchUp, Caught, StandingAfter;
    var r := Run(s, EMPTY, es);
    var name := r.clients[x].channel;
    ClientStands(s, es, x);
    MixerRemembers(s, es, name);
    HelloHeard(s, r, e, x);
    CatchUpIs(s, es, name, MixerAt(r, name), MixerAt(r, name), x, e.at);
  }

  lemma HeardOfOther(s: Settings, es: seq<Event>, e: Event, x: uint32)
    requires PossibleRun(s, EMPTY, es) && Possible(Run(s, EMPTY, es), e)
    requires x in Run(s, EMPTY, es).clients && x in Step(s, Run(s, EMPTY, es), e).clients
    requires !e.Tick? && !(e.Bind? && e.session == x) && !(e.Hello? && e.session == x)
    ensures Step(s, Run(s, EMPTY, es), e).clients[x].heard == Run(s, EMPTY, es).clients[x].heard + Heard(s, es, e, x)
  {
    hide Step, Possible, StandingAfter, Caught;
    OtherHeard(s, Run(s, EMPTY, es), e, x);
  }

  lemma Lone(s: Settings, es: seq<Event>, name: string, m: Mixer)
    requires Remembers(s, es, name, m)
    ensures (m.lastSingle, m.lastSingleAt) == LoneTalk(es, name)
  {
  }

  // ---------- Datagrams ----------

  /**
   Of the datagrams of a session only the keepalive makes the relay send the last frame, only the end marker ends a
   transmission, only what is longer than a header is voice, and everything else makes the address known.
   */
  lemma DatagramIs(p: AudioPacket, at: int)
    ensures var e := Datagram(p, at);
            && (e == Hello(p.sessionId, at) <==> p.opus == [] && p.sequence == 0 && p.signal == 255)
            && (e == EndMark(p.sessionId, at) <==> p.opus == [] && p.sequence > 0 && p.signal == 0)
            && (e == Voice(p.sessionId, at) <==> p.opus != [])
            && (e.Hello? || e.EndMark? || e.Voice? || e == Punch(p.sessionId)) && IsDatagram(e, p.sessionId)
  {
  }
}
