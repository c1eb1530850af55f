/**
 The client library's session state: what each event of the transport and of the server's messages makes
 of it, and how it relates to the view that the relay keeps up with.
 */
module ClientSession {
  import opened Packets
  import opened RelayModel
  import RelaySafety

  datatype ClientEvent =
    | TransportConnected
    | Disconnected
    | ProtocolError
    | Welcome
    | Connected
    | RxBroadcastStart
    | RxBroadcastEnd
    | LocalTxStart
    | LocalTxEnd
    | PttLocked(displaySec: int)
    | PttUnlocked
    | UdpTransportReady
    | UdpTransportLost
    | ConnectionLost
    | Other

  datatype State = State(
    connected: bool,
    udpReady: bool,
    connectionLost: bool,
    hasWelcome: bool,
    receiving: bool,
    localTxActive: bool,
    pttServerLocked: bool,
    pttLockDisplaySec: int)

  const START: State := State(false, false, false, false, false, false, false, 0)

  function Next(c: State, e: ClientEvent): State
  {
    match e
    case TransportConnected => c.(connected := true)
    case Disconnected => c.(connected := false, udpReady := false, connectionLost := false)
    case ProtocolError => c.(connected := false, udpReady := false, connectionLost := false)
    case Welcome => c.(hasWelcome := true)
    case Connected => c.(hasWelcome := true, connected := true, udpReady := true, connectionLost := false)
    case RxBroadcastStart => c.(receiving := true)
    case RxBroadcastEnd => c.(receiving := false)
    case LocalTxStart => c.(localTxActive := true)
    case LocalTxEnd => c.(localTxActive := false)
    case PttLocked(sec) => c.(pttServerLocked := true, pttLockDisplaySec := sec)
    case PttUnlocked => c.(pttServerLocked := false, pttLockDisplaySec := 0)
    case UdpTransportReady => c.(udpReady := true)
    case UdpTransportLost => c.(udpReady := false)
    case ConnectionLost => c.(connected := false, udpReady := false, connectionLost := true, receiving := false)
    case Other => c
  }

  /** What the teardown before a reconnection leaves of the state. */
  function Torn(c: State): State
  {
    c.(receiving := false, localTxActive := false, connectionLost := false, connected := false, udpReady := false)
  }

  class SessionState {
    var connected: bool
    var udpReady: bool
    var connectionLost: bool
    var hasWelcome: bool
    var receiving: bool
    var localTxActive: bool
    var pttServerLocked: bool
    var pttLockDisplaySec: int

    ghost function View(): State
      reads this
    {
      State(connected, udpReady, connectionLost, hasWelcome,
            receiving, localTxActive, pttServerLocked, pttLockDisplaySec)
    }

    constructor ()
      ensures View() == START
    {
      connected, udpReady, connectionLost, hasWelcome := false, false, false, false;
      receiving, localTxActive, pttServerLocked, pttLockDisplaySec := false, false, false, 0;
    }

    method ApplyEventState(event: ClientEvent)
      modifies this
      ensures View() == Next(old(View()), event)
    {
      match event {
        case RxBroadcastStart =>
          receiving := true;
        case RxBroadcastEnd =>
          receiving := false;
        case LocalTxStart =>
          localTxActive := true;
        case LocalTxEnd =>
          localTxActive := false;
        case PttLocked(sec) =>
          pttServerLocked := true;
          pttLockDisplaySec := sec;
        case PttUnlocked =>
          pttServerLocked := false;
          pttLockDisplaySec := 0;
        case Other =>
        case _ =>
          ApplyTransportEvent(event);
      }
    }

    /** The part of the teardown before a reconnection that is about this state. */
    method ReconnectTeardown()
      modifies this
      ensures View() == Torn(old(View()))
    {
      receiving := false;
      localTxActive := false;
      connectionLost := false;
      connected := false;
      udpReady := false;
    }

    /** The events of the transport. */
    method ApplyTransportEvent(event: ClientEvent)
      requires !event.RxBroadcastStart? && !event.RxBroadcastEnd? && !event.LocalTxStart? && !event.LocalTxEnd?
      requires !event.PttLocked? && !event.PttUnlocked? && !event.Other?
      modifies this
      ensures View() == Next(old(View()), event)
    {
      match event {
        case TransportConnected =>
          connected := true;
        case Disconnected =>
          connected, udpReady, connectionLost := false, false, false;
        case ProtocolError =>
          connected, udpReady, connectionLost := false, false, false;
        case Welcome =>
          hasWelcome := true;
        case Connected =>
          hasWelcome, connected, udpReady, connectionLost := true, true, true, false;
        case UdpTransportReady =>
          udpReady := true;
        case UdpTransportLost =>
          udpReady := false;
        case ConnectionLost =>
          connected, udpReady, connectionLost, receiving := false, false, true, false;
      }
    }
  }

  /** The event that a message of the relay becomes; the two transmit notices do not touch this state. */
  function EventOf(message: Message): ClientEvent
  {
    match message
    case RxStart(_) => RxBroadcastStart
    case RxEnd(_) => RxBroadcastEnd
    case PttLock(sec) => PttLocked(sec)
    case PttUnlock => PttUnlocked
    case TxStop => Other
    case TxCountdownStart => Other
  }

  function ViewOf(c: State): View
  {
    View(c.receiving, c.pttServerLocked, c.pttLockDisplaySec)
  }

  /** What happens at a client: a message arrives, or something of its own. */
  datatype Happening = Arrived(message: Message) | Own(event: ClientEvent)

  function EventIn(h: Happening): ClientEvent
  {
    match h
    case Arrived(message) => EventOf(message)
    case Own(event) => event
  }

  function After(c: State, hs: seq<Happening>): State
    decreases hs
  {
    if hs == [] then c else After(Next(c, EventIn(hs[0])), hs[1..])
  }

  function Inbox(hs: seq<Happening>): seq<Message>
    decreases hs
  {
    if hs == [] then [] else (if hs[0].Arrived? then [hs[0].message] else []) + Inbox(hs[1..])
  }

  /** An event of the client itself, other than the loss of the connection. */
  predicate KeepsView(h: Happening)
  {
    h.Own? ==> !(h.event.RxBroadcastStart? || h.event.RxBroadcastEnd? || h.event.PttLocked? || h.event.PttUnlocked?)
               && !h.event.ConnectionLost?
  }

  lemma MessageFollows(c: State, message: Message)
    ensures ViewOf(Next(c, EventOf(message))) == Apply(ViewOf(c), message)
  {
    match message {
      case RxStart(_) =>
      case RxEnd(_) =>
      case PttLock(_) =>
      case PttUnlock =>
      case TxStop =>
      case TxCountdownStart =>
    }
  }

  lemma OwnEventKeepsView(c: State, e: ClientEvent)
    requires KeepsView(Own(e))
    ensures ViewOf(Next(c, e)) == ViewOf(c)
  {
    match e {
      case TransportConnected =>
      case Disconnected =>
      case ProtocolError =>
      case Welcome =>
      case Connected =>
      case LocalTxStart =>
      case LocalTxEnd =>
      case UdpTransportReady =>
      case UdpTransportLost =>
      case Other =>
      case _ =>
    }
  }

  lemma OneFollows(c: State, h: Happening)
    requires KeepsView(h)
    ensures ViewOf(Next(c, EventIn(h))) == if h.Arrived? then Apply(ViewOf(c), h.message) else ViewOf(c)
  {
    hide Next, Apply, ViewOf, KeepsView;
    match h {
      case Arrived(message) => MessageFollows(c, message);
      case Own(event) => OwnEventKeepsView(c, event);
    }
  }

  lemma {:induction false} ViewFollows(c: State, hs: seq<Happening>)
    requires forall h :: h in hs ==> KeepsView(h)
    ensures ViewOf(After(c, hs)) == ApplyAll(ViewOf(c), Inbox(hs))
    decreases hs
  {
    hide Next, Apply, ViewOf, EventIn, KeepsView;
    if hs == [] {
    } else {
      assert hs[0] in hs;
      OneFollows(c, hs[0]);
      ViewFollows(Next(c, EventIn(hs[0])), hs[1..]);
      if hs[0].Arrived? {
        assert Inbox(hs)[0] == hs[0].message && Inbox(hs)[1..] == Inbox(hs[1..]);
      } else {
        assert Inbox(hs) == Inbox(hs[1..]);
      }
    }
  }

  /**
   As long as the connection is not lost, the session state is the fold of the messages received, however
   they interleave with the client's own events: what the relay's agreement is about.
   */
  lemma StateIsFold(hs: seq<Happening>)
    requires forall h :: h in hs ==> KeepsView(h)
    ensures ViewOf(After(START, hs)) == Fold(Inbox(hs))
  {
    ViewFollows(START, hs);
    FoldAppend([], Inbox(hs));
    assert [] + Inbox(hs) == Inbox(hs);
  }

  /**
   From the server's state to the client library's: on every run of the relay, a client that has taken in the
   messages sent to it, in order and in between its own events, shows a lock or a receiving only if the server
   holds it, and, unless it was left out as the speaker, exactly if.
   */
  lemma LibraryAgrees(s: Settings, es: seq<Event>, session: uint32, hs: seq<Happening>)
    requires PossibleRun(s, EMPTY, es) && (forall h :: h in hs ==> KeepsView(h))
    requires var r := Run(s, EMPTY, es);
             session in r.clients && r.clients[session].channel != "" && Inbox(hs) == r.clients[session].inbox
    ensures var r := Run(s, EMPTY, es);
            var c := After(START, hs);
            && r.clients[session].channel in r.channels
            && var m := r.channels[r.clients[session].channel];
            && (c.pttServerLocked ==> m.locked) && (c.receiving ==> m.rxActive)
            && (session != m.leftOut ==> c.pttServerLocked == m.locked && c.receiving == m.rxActive)
  {
    hide Run;
    StateIsFold(hs);
    RelaySafety.ClientsAgree(s, es, session);
  }

  /**
   A lost connection ends the receiving but leaves the lock: a new connection starts from the view of a fresh
   client exactly when the lock was not set when the old one was lost.
   */
  lemma LostStartsFreshIff(hs: seq<Happening>)
    requires forall h :: h in hs ==> KeepsView(h)
    ensures ViewOf(Next(After(START, hs), ConnectionLost)) == UNAWARE <==> !Fold(Inbox(hs)).locked
  {
    StateIsFold(hs);
    UnlockedShowsNothing(Inbox(hs));
  }

  /**
   A disconnection or a protocol error ends neither the receiving nor the lock: the view is a fresh client's
   exactly when neither was set.
   */
  lemma EndedStartsFreshIff(hs: seq<Happening>, e: ClientEvent)
    requires forall h :: h in hs ==> KeepsView(h)
    requires e.Disconnected? || e.ProtocolError?
    ensures ViewOf(Next(After(START, hs), e)) == UNAWARE <==> !Fold(Inbox(hs)).locked && !Fold(Inbox(hs)).receiving
  {
    StateIsFold(hs);
    UnlockedShowsNothing(Inbox(hs));
  }

  /**
   However the connection has ended, a reconnection starts from the view of a fresh client exactly when the lock
   was not set: it clears the receiving, and not the lock.
   */
  lemma ReconnectStartsFreshIff(hs: seq<Happening>, e: ClientEvent)
    requires forall h :: h in hs ==> KeepsView(h)
    requires e.ConnectionLost? || e.Disconnected? || e.ProtocolError?
    ensures ViewOf(Torn(Next(After(START, hs), e))) == UNAWARE <==> !Fold(Inbox(hs)).locked
  {
    StateIsFold(hs);
    UnlockedShowsNothing(Inbox(hs));
  }

  lemma {:induction false} UnlockedShowsNothing(inbox: seq<Message>)
    ensures !Fold(inbox).locked ==> Fold(inbox).lockSec == 0
    decreases inbox
  {
    if inbox == [] {
    } else {
      UnlockedShowsNothing(inbox[..|inbox| - 1]);
    }
  }

  // ---------- The other flags ----------

  /** What an event says about a flag, if anything. */
  type Says = ClientEvent -> Option<bool>

  function Heeded(said: Option<bool>, was: bool): bool
  {
    if said.Some? then said.value else was
  }

  /** The last thing said about a flag, or what it was before. */
  function LastSaid(says: Says, was: bool, hs: seq<Happening>): bool
    decreases hs
  {
    if hs == [] then was else LastSaid(says, Heeded(says(EventIn(hs[0])), was), hs[1..])
  }

  function SaysConnected(e: ClientEvent): Option<bool>
  {
    match e
    case TransportConnected => Some(true)
    case Connected => Some(true)
    case Disconnected => Some(false)
    case ProtocolError => Some(false)
    case ConnectionLost => Some(false)
    case _ => None
  }

  function SaysUdpReady(e: ClientEvent): Option<bool>
  {
    match e
    case Connected => Some(true)
    case UdpTransportReady => Some(true)
    case Disconnected => Some(false)
    case ProtocolError => Some(false)
    case ConnectionLost => Some(false)
    case UdpTransportLost => Some(false)
    case _ => None
  }

  function SaysLost(e: ClientEvent): Option<bool>
  {
    match e
    case ConnectionLost => Some(true)
    case Connected => Some(false)
    case Disconnected => Some(false)
    case ProtocolError => Some(false)
    case _ => None
  }

  function SaysLocalTx(e: ClientEvent): Option<bool>
  {
    match e
    case LocalTxStart => Some(true)
    case LocalTxEnd => Some(false)
    case _ => None
  }

  /** However events interleave, each of these flags shows the last thing said about it. */
  lemma {:induction false} FlagsAreLastSaid(c: State, hs: seq<Happening>)
    ensures var c1 := After(c, hs);
            && c1.connected == LastSaid(SaysConnected, c.connected, hs)
            && c1.udpReady == LastSaid(SaysUdpReady, c.udpReady, hs)
            && c1.connectionLost == LastSaid(SaysLost, c.connectionLost, hs)
            && c1.localTxActive == LastSaid(SaysLocalTx, c.localTxActive, hs)
    decreases hs
  {
    hide Next, SaysConnected, SaysUdpReady, SaysLost, SaysLocalTx, EventIn;
    if hs != [] {
      var e := EventIn(hs[0]);
      ConnectedSaid(c, e);
      UdpReadySaid(c, e);
      LostSaid(c, e);
      LocalTxSaid(c, e);
      FlagsAreLastSaid(Next(c, EventIn(hs[0])), hs[1..]);
    }
  }

  lemma ConnectedSaid(c: State, e: ClientEvent)
    ensures Next(c, e).connected == Heeded(SaysConnected(e), c.connected)
  {
    match e {
      case TransportConnected =>
      case Disconnected =>
      case ProtocolError =>
      case Welcome =>
      case Connected =>
      case RxBroadcastStart =>
      case RxBroadcastEnd =>
      case LocalTxStart =>
      case LocalTxEnd =>
      case PttLocked(_) =>
      case PttUnlocked =>
      case UdpTransportReady =>
      case UdpTransportLost =>
      case ConnectionLost =>
      case Other =>
    }
  }

  lemma UdpReadySaid(c: State, e: ClientEvent)
    ensures Next(c, e).udpReady == Heeded(SaysUdpReady(e), c.udpReady)
  {
    match e {
      case TransportConnected =>
      case Disconnected =>
      case ProtocolError =>
      case Welcome =>
      case Connected =>
      case RxBroadcastStart =>
      case RxBroadcastEnd =>
      case LocalTxStart =>
      case LocalTxEnd =>
      case PttLocked(_) =>
      case PttUnlocked =>
      case UdpTransportReady =>
      case UdpTransportLost =>
      case ConnectionLost =>
      case Other =>
    }
  }

  lemma LostSaid(c: State, e: ClientEvent)
    ensures Next(c, e).connectionLost == Heeded(SaysLost(e), c.connectionLost)
  {
    match e {
      case TransportConnected =>
      case Disconnected =>
      case ProtocolError =>
      case Welcome =>
      case Connected =>
      case RxBroadcastStart =>
      case RxBroadcastEnd =>
      case LocalTxStart =>
      case LocalTxEnd =>
      case PttLocked(_) =>
      case PttUnlocked =>
      case UdpTransportReady =>
      case UdpTransportLost =>
      case ConnectionLost =>
      case Other =>
    }
  }

  lemma LocalTxSaid(c: State, e: ClientEvent)
    ensures Next(c, e).localTxActive == Heeded(SaysLocalTx(e), c.localTxActive)
  {
    match e {
      case TransportConnected =>
      case Disconnected =>
      case ProtocolError =>
      case Welcome =>
      case Connected =>
      case RxBroadcastStart =>
      case RxBroadcastEnd =>
      case LocalTxStart =>
      case LocalTxEnd =>
      case PttLocked(_) =>
      case PttUnlocked =>
      case UdpTransportReady =>
      case UdpTransportLost =>
      case ConnectionLost =>
      case Other =>
    }
  }

  /**
   So the library shows the datagram transport as ready only while it is connected, as long as no notice that it is
   ready comes before the connection stands or after it has ended.
   */
  lemma {:induction false} ReadyWhileConnected(hs: seq<Happening>)
    requires forall i :: 0 <= i < |hs| && EventIn(hs[i]) == UdpTransportReady ==> After(START, hs[..i]).connected
    ensures After(START, hs).udpReady ==> After(START, hs).connected
  {
    ReadyFrom(START, hs);
  }

  lemma {:induction false} ReadyFrom(c: State, hs: seq<Happening>)
    requires c.udpReady ==> c.connected
    requires forall i :: 0 <= i < |hs| && EventIn(hs[i]) == UdpTransportReady ==> After(c, hs[..i]).connected
    ensures After(c, hs).udpReady ==> After(c, hs).connected
    decreases hs
  {
    if hs != [] {
      var c1 := Next(c, EventIn(hs[0]));
      assert EventIn(hs[0]) == UdpTransportReady ==> After(c, hs[..0]).connected;
      forall i | 0 <= i < |hs| - 1 && EventIn(hs[1..][i]) == UdpTransportReady
        ensures After(c1, hs[1..][..i]).connected
      {
        assert hs[..i + 1][1..] == hs[1..][..i] && EventIn(hs[i + 1]) == UdpTransportReady;
      }
      ReadyFrom(c1, hs[1..]);
    }
  }
}
