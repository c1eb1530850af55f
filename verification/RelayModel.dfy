/**
 The relay as one state: the hub's clients, the channels' mixers with their arbitration, and the control
 messages and mixed frames that every client has been sent. One step is one lock section together with
 the messages it sends. Channel names are taken as already normalised.
 */
module RelayModel {
  import opened Packets
  import B = BusyArbiter
  import G = TxGate
  import U = UdpCodec

  datatype Settings = Settings(rules: B.Rules, transmitTimeout: int, eofTimeout: int, tailGrace: int, frameMaxAge: int)

  /** The control messages that matter to the state of a client. */
  datatype Message =
    | RxStart(busyMode: bool)
    | RxEnd(delayMs: int)
    | PttLock(displaySec: int)
    | PttUnlock
    | TxStop
    | TxCountdownStart

  /** A mixed frame: whose audio is in it, and its number in the outgoing stream. */
  datatype Frame = Frame(speakers: seq<uint32>, number: nat)

  datatype Client = Client(channel: string, hasUdp: bool, repeater: bool, inbox: seq<Message>, heard: seq<Frame>)

  datatype Latest = Latest(frame: Option<Frame>, at: int, excluded: uint32)

  /**
   The control state of one channel's mixer. The last two fields are not in the source: they record, for the
   statements below, whom the current burst left out, and the channel-wide lock messages.
   */
  datatype Mixer = Mixer(
    participants: set<uint32>,
    hold: B.Hold,
    gate: G.Gate,
    rxActive: bool,
    rxLastAt: int,
    locked: bool,
    lockSec: int,
    lastSingle: uint32,
    lastSingleAt: int,
    latest: Latest,
    leftOut: uint32,
    lockLog: seq<Message>)

  const NEW_MIXER: Mixer :=
    Mixer({}, B.FREE, G.IDLE, false, 0, false, 0, 0, 0, Latest(None, 0, 0), 0, [])

  datatype Relay = Relay(clients: map<uint32, Client>, channels: map<string, Mixer>)

  const EMPTY: Relay := Relay(map[], map[])

  function MixerAt(r: Relay, name: string): Mixer
  {
    if name in r.channels then r.channels[name] else NEW_MIXER
  }

  function SetMixer(r: Relay, name: string, m: Mixer): Relay
  {
    r.(channels := r.channels[name := m])
  }

  /** What an operation of one channel changes: its mixer, and the clients it writes to. */
  type Local = (Mixer, map<uint32, Client>)

  function Put(r: Relay, name: string, local: Local): Relay
  {
    Relay(local.1, r.channels[name := local.0])
  }

  // ---------- Fan-out ----------

  /** The clients bound to a channel, except one session unless that is zero. */
  function Bound(clients: map<uint32, Client>, name: string, except: uint32): set<uint32>
  {
    set session | session in clients && clients[session].channel == name && !(except != 0 && session == except)
  }

  function Told(c: Client, messages: seq<Message>): Client
  {
    c.(inbox := c.inbox + messages)
  }

  function Tell(clients: map<uint32, Client>, to: set<uint32>, messages: seq<Message>): map<uint32, Client>
  {
    map session | session in clients ::
      if session in to then Told(clients[session], messages) else clients[session]
  }

  function Hears(c: Client, f: Frame): Client
  {
    c.(heard := c.heard + [f])
  }

  /** Mixed audio goes to the bound clients that have an address and do not repeat, but not to the excluded one. */
  function Broadcast(clients: map<uint32, Client>, name: string, except: uint32, f: Frame): map<uint32, Client>
  {
    map session | session in clients ::
      if session in Bound(clients, name, except) && clients[session].hasUdp && !clients[session].repeater
      then Hears(clients[session], f) else clients[session]
  }

  // ---------- The receive session and the lock ----------

  function DisplaySec(s: Settings): int
  {
    if s.rules.busyTimeout > 0 then s.rules.busyTimeout / G.SECOND else 0
  }

  function BurstMessages(s: Settings): seq<Message>
  {
    if s.rules.busyMode then [RxStart(true), PttLock(DisplaySec(s))] else [RxStart(false)]
  }

  function Opened(s: Settings, m: Mixer, now: int, exclude: uint32): Mixer
  {
    var out: uint32 := if exclude in m.participants then exclude else 0;
    var m1 := m.(rxActive := true, rxLastAt := now, leftOut := out);
    if s.rules.busyMode
    then m1.(locked := true, lockSec := DisplaySec(s), lockLog := m.lockLog + [PttLock(DisplaySec(s))])
    else m1
  }

  /** After each mixed frame: the first one of a burst opens the receive session, and locks in busy mode. */
  function NoteOutbound(
    s: Settings, m: Mixer, clients: map<uint32, Client>, name: string, now: int, exclude: uint32): Local
  {
    if m.rxActive then (m.(rxLastAt := now), clients)
    else (Opened(s, m, now, exclude), Tell(clients, Bound(clients, name, exclude), BurstMessages(s)))
  }

  /** The delay in milliseconds that goes with the end of a burst, and never a negative one. */
  function EndDelay(s: Settings): int
  {
    if s.eofTimeout < 0 then 0 else s.eofTimeout / 1_000_000
  }

  function EndMessages(s: Settings, unlock: bool): seq<Message>
  {
    [RxEnd(EndDelay(s))] + if unlock then [PttUnlock] else []
  }

  predicate Unlocks(s: Settings, m: Mixer)
  {
    s.rules.busyMode && m.locked
  }

  function Lifted(m: Mixer): Mixer
  {
    m.(locked := false, lockLog := m.lockLog + [PttUnlock])
  }

  /** The receive session ends for everyone in the channel, and the lock with it. */
  function FinishIdle(s: Settings, m: Mixer, clients: map<uint32, Client>, name: string): Local
  {
    if !m.rxActive then (m, clients)
    else
      var m1 := m.(rxActive := false, rxLastAt := 0);
      (if Unlocks(s, m) then Lifted(m1) else m1,
       Tell(clients, Bound(clients, name, 0), EndMessages(s, Unlocks(s, m))))
  }

  function ProbeIdle(s: Settings, m: Mixer, clients: map<uint32, Client>, name: string, now: int): Local
  {
    if !m.rxActive || m.rxLastAt == 0 || now - m.rxLastAt < s.eofTimeout then (m, clients)
    else FinishIdle(s, m, clients, name)
  }

  /** Parallel talk has just become allowed: the lock is lifted for the participants who are connected. */
  function BusyElapsed(s: Settings, m: Mixer, clients: map<uint32, Client>): Local
  {
    if Unlocks(s, m) && s.rules.busyTimeout > 0 then (Lifted(m), Tell(clients, m.participants, [PttUnlock]))
    else (m, clients)
  }

  function SyncMessages(s: Settings, m: Mixer): seq<Message>
  {
    (if m.rxActive then [RxStart(s.rules.busyMode)] else []) + (if m.locked then [PttLock(m.lockSec)] else [])
  }

  // ---------- Membership ----------

  function RemoveParticipant(m: Mixer, session: uint32): Mixer
  {
    m.(participants := m.participants - {session},
       gate := G.Forget(m.gate, session),
       hold := B.Release(m.hold, session),
       leftOut := if m.leftOut == session then 0 else m.leftOut)
  }

  function AddParticipant(m: Mixer, session: uint32): Mixer
  {
    m.(participants := m.participants + {session})
  }

  /** The last mixed frame, if it is recent and was not kept from this session. */
  function CatchUp(s: Settings, m: Mixer, session: uint32, now: int): Option<Frame>
  {
    if m.latest.frame.None? || now - m.latest.at > s.frameMaxAge then None
    else if m.latest.excluded != 0 && m.latest.excluded == session then None
    else m.latest.frame
  }

  function SendLatest(
    s: Settings, m: Mixer, clients: map<uint32, Client>, session: uint32, now: int): map<uint32, Client>
  {
    var f := CatchUp(s, m, session, now);
    if f.Some? && session in clients && clients[session].hasUdp
    then clients[session := Hears(clients[session], f.value)] else clients
  }

  /** Takes the session into a channel's set, and sends it the latest frame. */
  function Enter(s: Settings, r: Relay, session: uint32, name: string, now: int): Relay
  {
    var m := AddParticipant(MixerAt(r, name), session);
    Put(r, name, (m, SendLatest(s, m, r.clients, session, now)))
  }

  function Quit(r: Relay, session: uint32, name: string): Relay
  {
    if name == "" then r else SetMixer(r, name, RemoveParticipant(MixerAt(r, name), session))
  }

  /** Binds a client to a channel, or to another one; an empty name ends up in the default channel's set. */
  function SwitchChannel(s: Settings, r: Relay, session: uint32, name: string, now: int): Relay
    requires session in r.clients
  {
    var previous := r.clients[session].channel;
    if previous == name then
      if name == "" then r else Enter(s, r, session, name, now)
    else
      var r1 := Quit(r, session, previous);
      var r2 := r1.(clients := r1.clients[session := r1.clients[session].(channel := name)]);
      Enter(s, r2, session, if name == "" then "default" else name, now)
  }

  function Sync(s: Settings, r: Relay, session: uint32): Relay
    requires session in r.clients
  {
    var name := r.clients[session].channel;
    if name == "" || name !in r.channels then r
    else r.(clients := r.clients[session := Told(r.clients[session], SyncMessages(s, r.channels[name]))])
  }

  function RemoveClient(r: Relay, session: uint32): Relay
  {
    if session !in r.clients then r
    else Relay(r.clients - {session}, map name | name in r.channels :: RemoveParticipant(r.channels[name], session))
  }

  // ---------- Packets ----------

  function NoticeMessages(ruling: G.Ruling): seq<Message>
  {
    (if ruling.countdown then [TxCountdownStart] else []) + (if ruling.stopNotice then [TxStop] else [])
  }

  /** One voice packet for a channel: the timeout gate, its notices, and busy mode. */
  function Admit(s: Settings, m: Mixer, clients: map<uint32, Client>, session: uint32, now: int): Local
  {
    var (gate, ruling) := G.Rule(s.transmitTimeout, m.gate, session, now);
    var m1 := m.(gate := gate);
    var clients1 := Tell(clients, {session}, NoticeMessages(ruling));
    if !ruling.pass then (m1, clients1)
    else
      var (hold, verdict, elapsed) := B.TryAccept(s.rules, m1.hold, m1.participants, session, now);
      if elapsed then BusyElapsed(s, m1.(hold := hold), clients1) else (m1.(hold := hold), clients1)
  }

  predicate Admits(s: Settings, m: Mixer, session: uint32, now: int)
  {
    && G.Rule(s.transmitTimeout, m.gate, session, now).1.pass
    && B.Accepted(B.TryAccept(s.rules, m.hold, m.participants, session, now).1)
  }

  function Punched(r: Relay, session: uint32): Relay
    requires session in r.clients
  {
    r.(clients := r.clients[session := r.clients[session].(hasUdp := true)])
  }

  // ---------- A mixer tick ----------

  /** Who must not hear this tick's frame: the only speaker, or the last one while the tail lasts. */
  function Excluded(s: Settings, m: Mixer, speakers: seq<uint32>, now: int): uint32
  {
    if |speakers| == 1 then speakers[0]
    else if |speakers| == 0 && m.lastSingle != 0 && now - m.lastSingleAt <= s.tailGrace then m.lastSingle
    else 0
  }

  function NoteSpeakers(m: Mixer, speakers: seq<uint32>, now: int): Mixer
  {
    if |speakers| == 1 then m.(lastSingle := speakers[0], lastSingleAt := now)
    else if |speakers| > 1 then m.(lastSingle := 0)
    else m
  }

  function Remember(s: Settings, m: Mixer, now: int, f: Frame): Mixer
  {
    m.(latest := Latest(Some(f), now, Excluded(s, m, f.speakers, now)))
  }

  function EmitFrame(s: Settings, m: Mixer, clients: map<uint32, Client>, name: string, now: int, f: Frame): Local
  {
    var exclude := Excluded(s, m, f.speakers, now);
    NoteOutbound(s, Remember(s, m, now, f), Broadcast(clients, name, exclude, f), name, now, exclude)
  }

  function Swept(m: Mixer, sessions: set<uint32>): Mixer
  {
    m.(gate := G.Sweep(m.gate, sessions))
  }

  /** One tick of a channel: it may emit a frame, sweeps silent streams, and probes for the end of the burst. */
  function MixTick(
    s: Settings, m: Mixer, clients: map<uint32, Client>, name: string, now: int, f: Frame, emits: bool,
    dropped: set<uint32>): Local
  {
    var m1 := NoteSpeakers(m, f.speakers, now);
    var (m2, clients2) := if emits then EmitFrame(s, m1, clients, name, now, f) else (m1, clients);
    ProbeIdle(s, Swept(m2, dropped), clients2, name, now)
  }

  function MarkEof(s: Settings, m: Mixer, session: uint32, now: int): Mixer
  {
    m.(gate := G.Forget(m.gate, session), hold := B.MarkEof(s.rules, m.hold, session, now))
  }

  // ---------- Steps ----------

  datatype Event =
    | Connect(session: uint32)
    | Bind(session: uint32, name: string, at: int)
    | Disconnect(session: uint32)
    | SetRepeater(session: uint32, on: bool)
    | Punch(session: uint32)
    | Hello(session: uint32, at: int)
    | Voice(session: uint32, at: int)
    | EndMark(session: uint32, at: int)
    | Tick(name: string, at: int, frame: Frame, emits: bool, dropped: set<uint32>)

  /** What a datagram is to the relay; one without voice that is neither kind of signal only makes the address known. */
  function Datagram(p: AudioPacket, at: int): Event
  {
    match U.Route(p)
    case Eof => EndMark(p.sessionId, at)
    case Keepalive => Hello(p.sessionId, at)
    case Ignored => Punch(p.sessionId)
    case Audio => Voice(p.sessionId, at)
  }

  /** Sessions are fresh and not zero; a client binds once, to a name that is not empty; a tick is a channel's. */
  predicate Possible(r: Relay, e: Event)
  {
    match e
    case Connect(session) => session != 0 && session !in r.clients
    case Bind(session, name, _) => session in r.clients && r.clients[session].channel == "" && name != ""
    case Tick(name, _, _, _, _) => name in r.channels
    case _ => true
  }

  /** An address has become known: the latest frame is sent there. */
  function Greet(s: Settings, r: Relay, session: uint32, at: int): Relay
    requires session in r.clients
  {
    var name := r.clients[session].channel;
    if name == "" then r
    else Put(r, name, (MixerAt(r, name), SendLatest(s, MixerAt(r, name), r.clients, session, at)))
  }

  function Route(s: Settings, r: Relay, session: uint32, at: int): Relay
    requires session in r.clients
  {
    var name := r.clients[session].channel;
    if name == "" then r else Put(r, name, Admit(s, MixerAt(r, name), r.clients, session, at))
  }

  function RouteEof(s: Settings, r: Relay, session: uint32, at: int): Relay
    requires session in r.clients
  {
    var name := r.clients[session].channel;
    if name == "" then r else SetMixer(r, name, MarkEof(s, MixerAt(r, name), session, at))
  }

  function Added(r: Relay, session: uint32): Relay
  {
    r.(clients := r.clients[session := Client("", false, false, [], [])])
  }

  function Step(s: Settings, r: Relay, e: Event): Relay
    requires Possible(r, e)
  {
    match e
    case Connect(session) => Added(r, session)
    case Bind(session, name, at) => Sync(s, SwitchChannel(s, r, session, name, at), session)
    case Disconnect(session) => RemoveClient(r, session)
    case SetRepeater(session, on) =>
      if session !in r.clients then r
      else r.(clients := r.clients[session := r.clients[session].(repeater := on)])
    case Punch(session) => if session !in r.clients then r else Punched(r, session)
    case Hello(session, at) => if session !in r.clients then r else Greet(s, Punched(r, session), session, at)
    case Voice(session, at) => if session !in r.clients then r else Route(s, Punched(r, session), session, at)
    case EndMark(session, at) => if session !in r.clients then r else RouteEof(s, Punched(r, session), session, at)
    case Tick(name, at, frame, emits, dropped) =>
      Put(r, name, MixTick(s, r.channels[name], r.clients, name, at, frame, emits, dropped))
  }

  /** Every step of the run is possible in its turn. */
  predicate PossibleRun(s: Settings, r: Relay, es: seq<Event>)
    decreases es
  {
    es != [] ==> Possible(r, es[0]) && PossibleRun(s, Step(s, r, es[0]), es[1..])
  }

  function Run(s: Settings, r: Relay, es: seq<Event>): Relay
    requires PossibleRun(s, r, es)
    decreases es
  {
    if es == [] then r else Run(s, Step(s, r, es[0]), es[1..])
  }

  // ---------- What a client makes of its messages ----------

  datatype View = View(receiving: bool, locked: bool, lockSec: int)

  const UNAWARE: View := View(false, false, 0)

  function Apply(v: View, message: Message): View
  {
    match message
    case RxStart(_) => v.(receiving := true)
    case RxEnd(_) => v.(receiving := false)
    case PttLock(sec) => v.(locked := true, lockSec := sec)
    case PttUnlock => v.(locked := false, lockSec := 0)
    case TxStop => v
    case TxCountdownStart => v
  }

  /** The client's session state after the messages of its connection, in order. */
  function Fold(inbox: seq<Message>): View
  {
    if inbox == [] then UNAWARE else Apply(Fold(inbox[..|inbox| - 1]), inbox[|inbox| - 1])
  }

  function ApplyAll(v: View, messages: seq<Message>): View
    decreases messages
  {
    if messages == [] then v else ApplyAll(Apply(v, messages[0]), messages[1..])
  }

  lemma {:induction false} FoldAppend(inbox: seq<Message>, messages: seq<Message>)
    ensures Fold(inbox + messages) == ApplyAll(Fold(inbox), messages)
    decreases messages
  {
    if messages == [] {
      assert inbox + messages == inbox;
    } else {
      var first := inbox + [messages[0]];
      assert first[..|first| - 1] == inbox;
      assert first + messages[1..] == inbox + messages;
      FoldAppend(first, messages[1..]);
    }
  }
}
