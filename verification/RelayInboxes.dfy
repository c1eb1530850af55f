/** What every step of the relay tells each client, message by message. */
module RelayInboxes {
  import opened Packets
  import B = BusyArbiter
  import G = TxGate
  import opened RelayModel
  import opened RelaySafety
  import opened RelayRuns
  import opened RelayAudience
  import opened RelayBursts

  // ---------- What is to be told ----------

  /** The busy timeout in whole seconds. */
  function Seconds(s: Settings): int
  {
    if s.rules.busyTimeout > 0 then s.rules.busyTimeout / 1_000_000_000 else 0
  }

  function StartOfBurst(s: Settings): seq<Message>
  {
    if s.rules.busyMode then [RxStart(true), PttLock(Seconds(s))] else [RxStart(false)]
  }

  function EndOfBurst(s: Settings, locked: bool): seq<Message>
  {
    var delay := if s.eofTimeout > 0 then s.eofTimeout / 1_000_000 else 0;
    if locked then [RxEnd(delay), PttUnlock] else [RxEnd(delay)]
  }

  /** A tick: the burst may begin with its frame, and may end. */
  function TickTells(s: Settings, m: Mixer, m1: Mixer, emits: bool, kept: bool): seq<Message>
  {
    var opens := !m.rxActive && emits;
    (if opens && !kept then StartOfBurst(s) else [])
    + (if (m.rxActive || opens) && !m1.rxActive then EndOfBurst(s, if opens then s.rules.busyMode else m.locked) else [])
  }

  function Notices(ruling: G.Ruling): seq<Message>
  {
    if ruling.countdown && ruling.stopNotice then [TxCountdownStart, TxStop]
    else if ruling.countdown then [TxCountdownStart]
    else if ruling.stopNotice then [TxStop]
    else []
  }

  /** A voice packet: notices to its sender, and an unlock for the channel if parallel talk begins. */
  function VoiceTells(s: Settings, m: Mixer, m1: Mixer, own: bool, session: uint32, at: int): seq<Message>
  {
    (if own then Notices(G.Rule(s.transmitTimeout, m.gate, session, at).1) else [])
    + (if m.locked && TurnsParallel(m, m1) then [PttUnlock] else [])
  }

  function SyncTells(s: Settings, m: Mixer): seq<Message>
  {
    (if m.rxActive then [RxStart(s.rules.busyMode)] else []) + (if m.locked then [PttLock(Seconds(s))] else [])
  }

  /** What the event e after es, which takes the relay from r to r1, tells a client. */
  function Tells(s: Settings, es: seq<Event>, r: Relay, r1: Relay, e: Event, x: uint32): seq<Message>
    requires x in r.clients
  {
    var name := r.clients[x].channel;
    match e
    case Tick(n, _, _, emits, _) =>
      if n == name then TickTells(s, MixerAt(r, n), MixerAt(r1, n), emits, KeptFrom(s, es, e, x)) else []
    case Voice(session, at) =>
      if name != "" && Concerns(r, session, name)
      then VoiceTells(s, MixerAt(r, name), MixerAt(r1, name), session == x, session, at) else []
    case Bind(session, n, _) => if session == x then SyncTells(s, MixerAt(r, n)) else []
    case _ => []
  }

  // ---------- The parts of a step ----------

  lemma TellInbox(clients: map<uint32, Client>, to: set<uint32>, messages: seq<Message>, x: uint32)
    requires x in clients
    ensures x in Tell(clients, to, messages)
    ensures Tell(clients, to, messages)[x].inbox == clients[x].inbox + if x in to then messages else []
  {
    assert clients[x].inbox + [] == clients[x].inbox;
  }

  lemma BoundIff(clients: map<uint32, Client>, name: string, except: uint32, x: uint32)
    requires x in clients && x != 0
    ensures x in Bound(clients, name, except) <==> clients[x].channel == name && except != x
  {
  }

  lemma BroadcastInbox(clients: map<uint32, Client>, name: string, except: uint32, f: Frame, x: uint32)
    requires x in clients
    ensures var clients1 := Broadcast(clients, name, except, f);
            x in clients1 && clients1[x].inbox == clients[x].inbox && clients1[x].channel == clients[x].channel
  {
  }

  lemma BurstIs(s: Settings)
    ensures BurstMessages(s) == StartOfBurst(s) && DisplaySec(s) == Seconds(s)
  {
  }

  lemma EndIs(s: Settings, unlock: bool)
    ensures EndMessages(s, unlock) == EndOfBurst(s, unlock)
  {
  }

  lemma NoteTells(
    s: Settings, m: Mixer, clients: map<uint32, Client>, name: string, now: int, exclude: uint32, x: uint32)
    requires x in clients && x != 0
    ensures var (m1, clients1) := NoteOutbound(s, m, clients, name, now, exclude);
            var hears := !m.rxActive && clients[x].channel == name && exclude != x;
            && x in clients1 && clients1[x].channel == clients[x].channel
            && clients1[x].inbox == clients[x].inbox + (if hears then StartOfBurst(s) else [])
            && m1.rxActive && (m1.locked <==> if m.rxActive then m.locked else m.locked || s.rules.busyMode)
  {
    hide Bound;
    BurstIs(s);
    BoundIff(clients, name, exclude, x);
    TellInbox(clients, Bound(clients, name, exclude), BurstMessages(s), x);
    assert clients[x].inbox + [] == clients[x].inbox;
  }

  lemma ProbeTells(s: Settings, m: Mixer, clients: map<uint32, Client>, name: string, now: int, x: uint32)
    requires x in clients && x != 0
    ensures var (m1, clients1) := ProbeIdle(s, m, clients, name, now);
            var ends := m.rxActive && !m1.rxActive && clients[x].channel == name;
            && x in clients1
            && clients1[x].inbox
               == clients[x].inbox + (if ends then EndOfBurst(s, s.rules.busyMode && m.locked) else [])
  {
    hide Bound, Tell;
    EndIs(s, Unlocks(s, m));
    BoundIff(clients, name, 0, x);
    TellInbox(clients, Bound(clients, name, 0), EndMessages(s, Unlocks(s, m)), x);
    assert clients[x].inbox + [] == clients[x].inbox;
  }

  lemma Joins(a: seq<Message>, b: seq<Message>, c: seq<Message>)
    ensures a + b + c == a + (b + c) && a + [] == a && [] + a == a
  {
  }

  lemma TickTold(
    s: Settings, m: Mixer, clients: map<uint32, Client>, name: string, now: int, f: Frame, emits: bool,
    dropped: set<uint32>, x: uint32)
    requires x in clients && x != 0 && LockSound(s, m)
    ensures var (m1, clients1) := MixTick(s, m, clients, name, now, f, emits, dropped);
            var kept := Excluded(s, NoteSpeakers(m, f.speakers, now), f.speakers, now) == x;
            && x in clients1
            && clients1[x].inbox
               == clients[x].inbox + if clients[x].channel == name then TickTells(s, m, m1, emits, kept) else []
  {
    hide Excluded, NoteOutbound, ProbeIdle, Broadcast, StartOfBurst, EndOfBurst, G.Sweep;
    var m0, inbox := NoteSpeakers(m, f.speakers, now), clients[x].inbox;
    var (m2, clients2) := if emits then EmitFrame(s, m0, clients, name, now, f) else (m0, clients);
    var exclude := Excluded(s, m0, f.speakers, now);
    if emits {
      BroadcastInbox(clients, name, exclude, f, x);
      NoteTells(s, Remember(s, m0, now, f), Broadcast(clients, name, exclude, f), name, now, exclude, x);
    }
    ProbeTells(s, Swept(m2, dropped), clients2, name, now, x);
    var opens := !m.rxActive && emits && exclude != x;
    Joins(inbox, if opens && clients[x].channel == name then StartOfBurst(s) else [],
          if clients[x].channel == name && m2.rxActive && !ProbeIdle(s, Swept(m2, dropped), clients2, name, now).0.rxActive
          then EndOfBurst(s, s.rules.busyMode && m2.locked) else []);
  }

  lemma NoticesAre(ruling: G.Ruling)
    ensures NoticeMessages(ruling) == Notices(ruling)
  {
  }

  lemma ElapsedTells(s: Settings, m: Mixer, clients: map<uint32, Client>, x: uint32)
    requires x in clients && LockSound(s, m)
    ensures var (m1, clients1) := BusyElapsed(s, m, clients);
            && m1.hold == m.hold && x in clients1
            && clients1[x].inbox
               == clients[x].inbox
                  + if m.locked && s.rules.busyTimeout > 0 && x in m.participants then [PttUnlock] else []
  {
    hide Tell;
    TellInbox(clients, m.participants, [PttUnlock], x);
    assert clients[x].inbox + [] == clients[x].inbox;
  }

  lemma AdmitTold(s: Settings, r: Relay, name: string, session: uint32, now: int, x: uint32)
    requires Safe(s, r) && name in r.channels && Concerns(r, session, name)
    requires x in r.clients && x != 0
    ensures var m := r.channels[name];
            var (m1, clients1) := Admit(s, m, r.clients, session, now);
            && x in clients1
            && clients1[x].inbox
               == r.clients[x].inbox
                  + if r.clients[x].channel == name then VoiceTells(s, m, m1, session == x, session, now) else []
  {
    hide G.Rule, B.TryAccept, NoticeMessages, Notices, Tell, Bound, BusyElapsed, Safe;
    var m, inbox := r.channels[name], r.clients[x].inbox;
    MembersOf(s, r, name, x);
    var ruling := G.Rule(s.transmitTimeout, m.gate, session, now).1;
    NoticesAre(ruling);
    TellInbox(r.clients, {session}, NoticeMessages(ruling), x);
    var clients1 := Tell(r.clients, {session}, NoticeMessages(ruling));
    ParallelIsElapsed(s.rules, m.hold, m.participants, session, now);
    var m2 := m.(gate := G.Rule(s.transmitTimeout, m.gate, session, now).0,
                 hold := B.TryAccept(s.rules, m.hold, m.participants, session, now).0);
    ElapsedTells(s, m2, clients1, x);
    Joins(inbox, if session == x then Notices(ruling) else [], if x in m.participants then [PttUnlock] else []);
    Joins(inbox, if session == x then Notices(ruling) else [], []);
    Joins(inbox, [], []);
  }

  lemma MembersOf(s: Settings, r: Relay, name: string, x: uint32)
    requires Safe(s, r) && name in r.channels && x in r.clients && x != 0
    ensures LockSound(s, r.channels[name])
    ensures x in r.channels[name].participants <==> r.clients[x].channel == name
  {
    assert ChannelOk(s, r, name);
    BoundIff(r.clients, name, 0, x);
  }

  // ---------- Any step of any run ----------

  /** The seconds that go with a lock are the configured ones. */
  lemma {:induction false} LockSeconds(s: Settings, es: seq<Event>, name: string)
    requires PossibleRun(s, EMPTY, es)
    ensures var m := MixerAt(Run(s, EMPTY, es), name); m.locked ==> m.lockSec == Seconds(s)
    decreases es
  {
    hide Step, Possible;
    if es != [] {
      RunLast(s, es);
      LockSeconds(s, Before(es), name);
      LockSecondsStep(s, Run(s, EMPTY, Before(es)), Last(es), name);
    }
  }

  predicate SecondsKept(s: Settings, m: Mixer, m1: Mixer)
  {
    m1.locked ==> (m.locked && m1.lockSec == m.lockSec) || m1.lockSec == Seconds(s)
  }

  lemma TickSeconds(
    s: Settings, m: Mixer, clients: map<uint32, Client>, name: string, now: int, f: Frame, emits: bool,
    dropped: set<uint32>)
    ensures SecondsKept(s, m, MixTick(s, m, clients, name, now, f, emits, dropped).0)
  {
    hide Tell, Broadcast, Bound, Excluded;
  }

  lemma AdmitSeconds(s: Settings, m: Mixer, clients: map<uint32, Client>, session: uint32, now: int)
    ensures SecondsKept(s, m, Admit(s, m, clients, session, now).0)
  {
    hide G.Rule, B.TryAccept, NoticeMessages, Tell;
  }

  lemma OtherSeconds(s: Settings, r: Relay, e: Event, name: string)
    requires Possible(r, e) && !e.Tick? && !e.Voice?
    ensures SecondsKept(s, MixerAt(r, name), MixerAt(Step(s, r, e), name))
  {
    hide CatchUp, SyncMessages;
  }

  lemma LockSecondsStep(s: Settings, r: Relay, e: Event, name: string)
    requires Possible(r, e)
    ensures SecondsKept(s, MixerAt(r, name), MixerAt(Step(s, r, e), name))
  {
    hide Step, MixTick, Admit;
    if e.Tick? {
      TickIsStep(s, r, e);
      TickElsewhere(s, r, e, name);
      TickSeconds(s, MixerAt(r, name), r.clients, e.name, e.at, e.frame, e.emits, e.dropped);
    } else if e.Voice? {
      VoiceElsewhere(s, r, e, name);
      if Concerns(r, e.session, name) && name != "" {
        AdmitSeconds(s, MixerAt(r, name), Punched(r, e.session).clients, e.session, e.at);
      }
    } else {
      OtherSeconds(s, r, e, name);
    }
  }

  lemma OtherTold(s: Settings, r: Relay, e: Event, x: uint32)
    requires Possible(r, e) && x in r.clients && x in Step(s, r, e).clients && !e.Tick? && !e.Voice?
    requires !(e.Bind? && e.session == x)
    ensures Step(s, r, e).clients[x].inbox == r.clients[x].inbox
  {
    hide CatchUp, SyncMessages, RemoveParticipant;
  }

  lemma BindTold(s: Settings, r: Relay, e: Event, x: uint32)
    requires Possible(r, e) && e.Bind? && e.session == x
    ensures x in r.clients && x in Step(s, r, e).clients
    ensures Step(s, r, e).clients[x].inbox
            == r.clients[x].inbox + SyncMessages(s, AddParticipant(MixerAt(r, e.name), x))
  {
    hide CatchUp, SyncMessages;
  }

  lemma ToldOfTick(s: Settings, es: seq<Event>, e: Event, x: uint32)
    requires PossibleRun(s, EMPTY, es) && Possible(Run(s, EMPTY, es), e) && e.Tick?
    requires x in Run(s, EMPTY, es).clients && x != 0
    ensures var r := Run(s, EMPTY, es);
            var r1 := Step(s, r, e);
            x in r1.clients && r1.clients[x].inbox == r.clients[x].inbox + Tells(s, es, r, r1, e, x)
  {
    hide Step, Possible, MixTick, Remembers, Excluded, KeptFrom, TickTells, Safe;
    var r, name := Run(s, EMPTY, es), e.name;
    EveryRunIsSafe(s, es);
    SoundAt(s, r, name);
    MixerRemembers(s, es, name);
    TickIsStep(s, r, e);
    TickTold(s, r.channels[name], r.clients, name, e.at, e.frame, e.emits, e.dropped, x);
    Lone(s, es, name, r.channels[name]);
    ExcludedNow(s, es, e, r.channels[name]);
    ExcludedIsKept(s, es, e, x);
  }

  lemma PunchedClients(r: Relay, session: uint32, x: uint32)
    requires session in r.clients && x in r.clients
    ensures var r1 := Punched(r, session);
            x in r1.clients && r1.clients[x].inbox == r.clients[x].inbox && r1.clients[x].channel == r.clients[x].channel
            && r1.channels == r.channels
  {
  }

  lemma ToldOfVoice(s: Settings, es: seq<Event>, r: Relay, e: Event, x: uint32)
    requires Safe(s, r) && e.Voice? && x in r.clients && x != 0
    ensures var r1 := Step(s, r, e);
            x in r1.clients && r1.clients[x].inbox == r.clients[x].inbox + Tells(s, es, r, r1, e, x)
  {
    hide Step, Admit, Punched, VoiceTells, Safe;
    VoiceStep(s, r, e);
    Joins(r.clients[x].inbox, [], []);
    if e.session in r.clients {
      PunchedIsSafe(s, r, e.session);
      PunchedClients(r, e.session, x);
      PunchedClients(r, e.session, e.session);
      var name := r.clients[e.session].channel;
      if name != "" {
        AdmitTold(s, Punched(r, e.session), name, e.session, e.at, x);
      }
    }
  }

  lemma SyncIs(s: Settings, m: Mixer, x: uint32)
    requires m.locked ==> m.lockSec == Seconds(s)
    ensures SyncMessages(s, AddParticipant(m, x)) == SyncTells(s, m)
  {
  }

  /**
   On every run: what each event tells each client is appended to its inbox, and it is exactly this. A burst begins
   with the start, in busy mode followed by the lock, for everyone bound who gets the frame; it ends with the end,
   followed by an unlock if the lock was still set, for everyone bound; the packet with which parallel talk
   begins lifts the lock; a joiner is told what is in force; and a speaker gets his own notices, nobody else's.
   */
  lemma {:induction false} WhatIsTold(s: Settings, es: seq<Event>, e: Event, x: uint32)
    requires PossibleRun(s, EMPTY, es) && Possible(Run(s, EMPTY, es), e)
    requires x in Run(s, EMPTY, es).clients && x in Step(s, Run(s, EMPTY, es), e).clients
    ensures var r := Run(s, EMPTY, es);
            var r1 := Step(s, r, e);
            r1.clients[x].inbox == r.clients[x].inbox + Tells(s, es, r, r1, e, x)
  {
    hide Step, Possible, TickTells, VoiceTells, SyncTells, SyncMessages, KeptFrom;
    var r := Run(s, EMPTY, es);
    EveryRunIsSafe(s, es);
    assert ClientOk(r, x);
    Joins(r.clients[x].inbox, [], []);
    match e {
      case Tick(_, _, _, _, _) => ToldOfTick(s, es, e, x);
      case Voice(_, _) => ToldOfVoice(s, es, r, e, x);
      case Bind(session, name, _) =>
        if session == x {
          BindTold(s, r, e, x);
          LockSeconds(s, es, name);
          SyncIs(s, MixerAt(r, name), x);
        } else {
          OtherTold(s, r, e, x);
        }
      case _ => OtherTold(s, r, e, x);
    }
  }
}
