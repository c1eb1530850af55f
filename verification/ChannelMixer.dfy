/**
 The hub and the channel mixers as the objects that the relay updates in place: the control state under
 the mixer's locks, and the loops over the clients that carry the messages.
 */
module ChannelMixers {
  import opened Packets
  import B = BusyArbiter
  import G = TxGate
  import opened RelayModel

  // ---------- Messages one after the other ----------

  lemma ToldTwice(c: Client, a: seq<Message>, b: seq<Message>)
    ensures Told(Told(c, a), b) == Told(c, a + b)
  {
    assert c.inbox + a + b == c.inbox + (a + b);
  }

  lemma TellTwice(clients: map<uint32, Client>, to: set<uint32>, a: seq<Message>, b: seq<Message>)
    ensures Tell(Tell(clients, to, a), to, b) == Tell(clients, to, a + b)
  {
    forall session | session in clients
      ensures Tell(Tell(clients, to, a), to, b)[session] == Tell(clients, to, a + b)[session]
    {
      ToldTwice(clients[session], a, b);
    }
  }

  lemma TellOneMore(clients: map<uint32, Client>, to: set<uint32>, session: uint32, messages: seq<Message>)
    requires session !in to
    ensures Tell(Tell(clients, to, messages), {session}, messages) == Tell(clients, to + {session}, messages)
  {
  }

  lemma TellNothing(clients: map<uint32, Client>, to: set<uint32>)
    ensures Tell(clients, to, []) == clients
  {
    forall session | session in clients ensures Told(clients[session], []) == clients[session] {
      assert clients[session].inbox + [] == clients[session].inbox;
    }
  }

  lemma TellNobody(clients: map<uint32, Client>, messages: seq<Message>)
    ensures Tell(clients, {}, messages) == clients
  {
  }

  lemma BoundStays(clients: map<uint32, Client>, to: set<uint32>, messages: seq<Message>, name: string, except: uint32)
    ensures Bound(Tell(clients, to, messages), name, except) == Bound(clients, name, except)
  {
  }

  lemma SweptNone(m: Mixer)
    ensures Swept(m, {}) == m
  {
    assert G.Sweep(m.gate, {}) == m.gate;
  }

  lemma SweptOneMore(m: Mixer, sessions: set<uint32>, session: uint32)
    ensures Swept(m, sessions).(gate := G.Sweep(Swept(m, sessions).gate, {session})) == Swept(m, sessions + {session})
  {
    var g := m.gate;
    assert g.startedAt - sessions - {session} == g.startedAt - (sessions + {session});
    assert g.stopped - sessions - {session} == g.stopped - (sessions + {session});
    assert g.lastNotice - sessions - {session} == g.lastNotice - (sessions + {session});
  }

  class RelayHub {
    var clients: map<uint32, Client>

    constructor ()
      ensures clients == map[]
    {
      clients := map[];
    }

    /** One message to one client, if it is connected. */
    method WriteTo(session: uint32, message: Message)
      modifies this
      ensures clients == Tell(old(clients), {session}, [message])
    {
      if session in clients {
        clients := clients[session := Told(clients[session], [message])];
      }
    }

    /** One message to every client in the channel but the excepted one, client by client. */
    method BroadcastExcept(name: string, except: uint32, message: Message)
      modifies this
      ensures clients == Tell(old(clients), Bound(old(clients), name, except), [message])
    {
      var rest := clients.Keys;
      while rest != {}
        invariant rest <= old(clients.Keys)
        invariant clients.Keys == old(clients.Keys)
        invariant forall x :: x in rest ==> clients[x] == old(clients)[x]
        invariant forall x :: x in clients && x !in rest ==>
                    clients[x] == Tell(old(clients), Bound(old(clients), name, except), [message])[x]
        decreases rest
      {
        var x :| x in rest;
        rest := rest - {x};
        if clients[x].channel != name {
          continue;
        }
        if except != 0 && x == except {
          continue;
        }
        clients := clients[x := Told(clients[x], [message])];
      }
    }

    /** A mixed frame to every client that can hear it. */
    method BroadcastMixed(name: string, except: uint32, f: Frame)
      modifies this
      ensures clients == Broadcast(old(clients), name, except, f)
    {
      var rest := clients.Keys;
      while rest != {}
        invariant rest <= old(clients.Keys)
        invariant clients.Keys == old(clients.Keys)
        invariant forall x :: x in rest ==> clients[x] == old(clients)[x]
        invariant forall x :: x in clients && x !in rest ==> clients[x] == Broadcast(old(clients), name, except, f)[x]
        decreases rest
      {
        var x :| x in rest;
        rest := rest - {x};
        if clients[x].channel != name {
          continue;
        }
        if except != 0 && x == except {
          continue;
        }
        if clients[x].repeater {
          continue;
        }
        if !clients[x].hasUdp {
          continue;
        }
        clients := clients[x := Hears(clients[x], f)];
      }
    }
  }

  class ChannelMixer {
    const name: string
    const hub: RelayHub
    const settings: Settings

    var participants: set<uint32>
    var busySession: uint32
    var busyLastPacketAt: int
    var busyExplicitEof: bool
    var busyStartedAt: int
    var busyParallel: bool
    var txStartedAt: map<uint32, int>
    var txForceStopped: map<uint32, bool>
    var txLastStopNoticeAt: map<uint32, int>
    var txCountdownNotified: map<uint32, bool>
    var rxActive: bool
    var rxLastAt: int
    var locked: bool
    var lockSec: int
    var lastSingle: uint32
    var lastSingleAt: int
    var latest: Latest
    ghost var leftOut: uint32
    ghost var lockLog: seq<Message>

    ghost function HoldView(): B.Hold
      reads this
    {
      B.Hold(busySession, busyLastPacketAt, busyExplicitEof, busyStartedAt, busyParallel)
    }

    ghost function GateView(): G.Gate
      reads this
    {
      G.Gate(txStartedAt, txForceStopped, txLastStopNoticeAt, txCountdownNotified)
    }

    ghost function View(): Mixer
      reads this
    {
      Mixer(participants, HoldView(), GateView(), rxActive, rxLastAt, locked, lockSec,
            lastSingle, lastSingleAt, latest, leftOut, lockLog)
    }

    constructor (channelName: string, relayHub: RelayHub, relaySettings: Settings)
      ensures View() == NEW_MIXER && name == channelName && hub == relayHub && settings == relaySettings
    {
      name, hub, settings := channelName, relayHub, relaySettings;
      participants := {};
      busySession, busyLastPacketAt, busyExplicitEof, busyStartedAt, busyParallel := 0, 0, false, 0, false;
      txStartedAt, txForceStopped, txLastStopNoticeAt, txCountdownNotified := map[], map[], map[], map[];
      rxActive, rxLastAt, locked, lockSec := false, 0, false, 0;
      lastSingle, lastSingleAt, latest := 0, 0, Latest(None, 0, 0);
      leftOut, lockLog := 0, [];
    }

    // ---------- The transmit-timeout gate ----------

    method ShouldNotifyTxStop(session: uint32, now: int) returns (notify: bool)
      modifies this`txLastStopNoticeAt
      ensures notify == G.NoticeDue(old(GateView()), session, now)
      ensures GateView() == if notify then old(GateView()).(lastNotice := old(txLastStopNoticeAt)[session := now])
                            else old(GateView())
    {
      if session in txLastStopNoticeAt && txLastStopNoticeAt[session] != 0
         && now - txLastStopNoticeAt[session] < G.SECOND {
        return false;
      }
      txLastStopNoticeAt := txLastStopNoticeAt[session := now];
      notify := true;
    }

    /** The gate's ruling on one packet, with its notices still to be sent. */
    method RuleTxPacket(session: uint32, now: int) returns (accept: bool, stopNotice: bool, countdown: bool)
      modifies this`txStartedAt, this`txForceStopped, this`txLastStopNoticeAt, this`txCountdownNotified
      ensures (GateView(), G.Ruling(accept, stopNotice, countdown))
              == G.Rule(settings.transmitTimeout, old(GateView()), session, now)
    {
      accept, stopNotice, countdown := true, false, false;
      if settings.transmitTimeout > 0 {
        if session !in txStartedAt {
          txStartedAt := txStartedAt[session := now];
          txCountdownNotified := txCountdownNotified[session := false];
        } else if session in txForceStopped && txForceStopped[session] {
          stopNotice := ShouldNotifyTxStop(session, now);
          accept := false;
        } else if now - txStartedAt[session] >= settings.transmitTimeout {
          txForceStopped := txForceStopped[session := true];
          stopNotice := ShouldNotifyTxStop(session, now);
          accept := false;
        } else {
          var lead := settings.transmitTimeout - 5 * G.SECOND;
          if lead < 0 {
            lead := 0;
          }
          if !(session in txCountdownNotified && txCountdownNotified[session]) && now - txStartedAt[session] >= lead {
            txCountdownNotified := txCountdownNotified[session := true];
            countdown := true;
          }
        }
      }
    }

    // ---------- Busy mode ----------

    method ResetBusyHold()
      modifies this`busySession, this`busyExplicitEof, this`busyStartedAt, this`busyParallel
      ensures HoldView() == B.ResetHold(old(HoldView()))
    {
      busySession := 0;
      busyExplicitEof := false;
      busyStartedAt := 0;
      busyParallel := false;
    }

    method BusyWindowExpired(now: int) returns (expired: bool)
      ensures expired == B.WindowExpired(settings.rules, HoldView(), now)
    {
      if busySession == 0 {
        return true;
      }
      var hold := settings.rules.hangover;
      if busyExplicitEof {
        hold := settings.rules.packetDur;
      }
      expired := now - busyLastPacketAt > hold;
    }

    /** The ruling of busy mode on one packet; elapsed says that the lock is to be lifted for it. */
    method TryAcceptPacket(session: uint32, now: int) returns (accept: bool, elapsed: bool)
      modifies this`busySession, this`busyLastPacketAt, this`busyExplicitEof, this`busyStartedAt, this`busyParallel
      ensures var (h, v, e) := B.TryAccept(settings.rules, old(HoldView()), participants, session, now);
              HoldView() == h && accept == B.Accepted(v) && elapsed == e
    {
      elapsed := false;
      if !settings.rules.busyMode {
        return true, false;
      }
      if busySession != 0 && busySession !in participants {
        ResetBusyHold();
      }
      var expired := BusyWindowExpired(now);
      if busySession == 0 || expired {
        busySession := session;
        busyLastPacketAt := now;
        busyExplicitEof := false;
        busyStartedAt := now;
        busyParallel := false;
        return true, false;
      }
      if settings.rules.busyTimeout > 0 && !busyParallel && busyStartedAt != 0
         && now - busyStartedAt >= settings.rules.busyTimeout {
        busyParallel := true;
        elapsed := true;
      }
      if busyParallel {
        busyLastPacketAt := now;
        busyExplicitEof := false;
        return true, elapsed;
      }
      if busySession == session {
        busyLastPacketAt := now;
        busyExplicitEof := false;
        return true, elapsed;
      }
      accept := false;
    }

    method MarkBusyEof(session: uint32, now: int)
      modifies this`busyExplicitEof, this`busyLastPacketAt
      ensures HoldView() == B.MarkEof(settings.rules, old(HoldView()), session, now)
    {
      if !settings.rules.busyMode {
        return;
      }
      if busySession != session {
        return;
      }
      busyExplicitEof := true;
      busyLastPacketAt := now;
    }

    // ---------- The receive session and the lock ----------

    method NotifyBusyTimeoutElapsed()
      modifies this`locked, this`lockLog, hub
      ensures (View(), hub.clients) == BusyElapsed(settings, old(View()), old(hub.clients))
    {
      hide Tell;
      if !(settings.rules.busyMode && settings.rules.busyTimeout > 0 && locked) {
        return;
      }
      Lift();
      WriteToParticipants(PttUnlock);
    }

    method Lift()
      modifies this`locked, this`lockLog
      ensures View() == Lifted(old(View()))
    {
      locked := false;
      lockLog := lockLog + [PttUnlock];
    }

    /** One message to every participant, one by one. */
    method WriteToParticipants(message: Message)
      modifies hub
      ensures hub.clients == Tell(old(hub.clients), participants, [message])
    {
      hide Tell;
      ghost var before := hub.clients;
      var rest := participants;
      ghost var told: set<uint32> := {};
      TellNobody(before, [message]);
      while rest != {}
        invariant told !! rest && told + rest == participants
        invariant hub.clients == Tell(before, told, [message])
        decreases rest
      {
        var session :| session in rest;
        rest := rest - {session};
        hub.WriteTo(session, message);
        TellOneMore(before, told, session, [message]);
        told := told + {session};
      }
      assert told == participants;
    }

    /** The first mixed frame after a silence opens the receive session, and locks in busy mode. */
    method NoteOutboundMixedUdp(now: int, exclude: uint32)
      modifies this`rxActive, this`rxLastAt, this`locked, this`lockSec, this`leftOut, this`lockLog, hub
      ensures (View(), hub.clients) == NoteOutbound(settings, old(View()), old(hub.clients), name, now, exclude)
    {
      hide Tell, Bound;
      if rxActive {
        rxLastAt := now;
        return;
      }
      Open(now, exclude);
      AnnounceBurst(exclude);
    }

    method Open(now: int, exclude: uint32)
      modifies this`rxActive, this`rxLastAt, this`locked, this`lockSec, this`leftOut, this`lockLog
      ensures View() == Opened(settings, old(View()), now, exclude)
    {
      hide DisplaySec;
      Begin(now, exclude);
      if settings.rules.busyMode {
        Lock(DisplaySec(settings));
      }
    }

    method Begin(now: int, exclude: uint32)
      modifies this`rxActive, this`rxLastAt, this`leftOut
      ensures var out: uint32 := if exclude in participants then exclude else 0;
              View() == old(View()).(rxActive := true, rxLastAt := now, leftOut := out)
    {
      rxActive, rxLastAt := true, now;
      leftOut := if exclude in participants then exclude else 0;
    }

    method Lock(sec: int)
      modifies this`locked, this`lockSec, this`lockLog
      ensures View() == old(View()).(locked := true, lockSec := sec, lockLog := old(lockLog) + [PttLock(sec)])
    {
      lockSec := sec;
      locked := true;
      lockLog := lockLog + [PttLock(lockSec)];
    }

    /** Tells the channel that a burst has begun, in two messages in busy mode. */
    method AnnounceBurst(exclude: uint32)
      modifies hub
      ensures hub.clients == Tell(old(hub.clients), Bound(old(hub.clients), name, exclude), BurstMessages(settings))
    {
      hide Tell, Bound;
      ghost var before := hub.clients;
      hub.BroadcastExcept(name, exclude, RxStart(settings.rules.busyMode));
      if settings.rules.busyMode {
        ghost var to := Bound(before, name, exclude);
        var lock := PttLock(DisplaySec(settings));
        BoundStays(before, to, [RxStart(true)], name, exclude);
        hub.BroadcastExcept(name, exclude, lock);
        TellTwice(before, to, [RxStart(true)], [lock]);
        assert [RxStart(true)] + [lock] == BurstMessages(settings);
      }
    }

    method FinishRxBroadcastIdle()
      modifies this`rxActive, this`rxLastAt, this`locked, this`lockLog, hub
      ensures (View(), hub.clients) == FinishIdle(settings, old(View()), old(hub.clients), name)
    {
      hide Tell, Bound;
      if !rxActive {
        return;
      }
      var unlock := settings.rules.busyMode && locked;
      rxActive := false;
      rxLastAt := 0;
      if unlock {
        Lift();
      }
      AnnounceEnd(unlock);
    }

    method AnnounceEnd(unlock: bool)
      modifies hub
      ensures hub.clients == Tell(old(hub.clients), Bound(old(hub.clients), name, 0), EndMessages(settings, unlock))
    {
      hide Tell, Bound;
      ghost var before := hub.clients;
      var delayMs := settings.eofTimeout / 1_000_000;
      if settings.eofTimeout < 0 {
        delayMs := 0;
      }
      var end := RxEnd(delayMs);
      ghost var to := Bound(before, name, 0);
      hub.BroadcastExcept(name, 0, end);
      if unlock {
        BoundStays(before, to, [end], name, 0);
        hub.BroadcastExcept(name, 0, PttUnlock);
        TellTwice(before, to, [end], [PttUnlock]);
      } else {
        assert [end] + [] == [end];
      }
    }

    method ProbeRxBroadcastIdle(now: int)
      modifies this`rxActive, this`rxLastAt, this`locked, this`lockLog, hub
      ensures (View(), hub.clients) == ProbeIdle(settings, old(View()), old(hub.clients), name, now)
    {
      if !rxActive || rxLastAt == 0 {
        return;
      }
      if now - rxLastAt < settings.eofTimeout {
        return;
      }
      FinishRxBroadcastIdle();
    }

    /** A client that has just joined is told what is going on. */
    method SyncSessionStateTo(session: uint32)
      modifies hub
      ensures hub.clients == Tell(old(hub.clients), {session}, SyncMessages(settings, View()))
    {
      ghost var before := hub.clients;
      TellNothing(before, {session});
      if rxActive {
        hub.WriteTo(session, RxStart(settings.rules.busyMode));
      }
      if locked {
        hub.WriteTo(session, PttLock(lockSec));
        TellTwice(before, {session}, if rxActive then [RxStart(settings.rules.busyMode)] else [], [PttLock(lockSec)]);
      } else {
        assert SyncMessages(settings, View()) == if rxActive then [RxStart(settings.rules.busyMode)] else [];
      }
    }

    // ---------- Admission, membership, frames ----------

    method SendNotices(session: uint32, ghost pass: bool, stopNotice: bool, countdown: bool)
      modifies hub
      ensures hub.clients == Tell(old(hub.clients), {session}, NoticeMessages(G.Ruling(pass, stopNotice, countdown)))
    {
      hide Tell;
      ghost var before := hub.clients;
      ghost var first := if countdown then [TxCountdownStart] else [];
      TellNothing(before, {session});
      if countdown {
        hub.WriteTo(session, TxCountdownStart);
      }
      if stopNotice {
        hub.WriteTo(session, TxStop);
        TellTwice(before, {session}, first, [TxStop]);
      } else {
        assert first + [] == first;
      }
    }

    /** The gate with its notices. */
    method Screen(session: uint32, now: int) returns (pass: bool)
      modifies this`txStartedAt, this`txForceStopped, this`txLastStopNoticeAt, this`txCountdownNotified, hub
      ensures var (gate, ruling) := G.Rule(settings.transmitTimeout, old(GateView()), session, now);
              && View() == old(View()).(gate := gate) && pass == ruling.pass
              && hub.clients == Tell(old(hub.clients), {session}, NoticeMessages(ruling))
    {
      hide G.Rule, Tell, NoticeMessages;
      var stopNotice, countdown;
      pass, stopNotice, countdown := RuleTxPacket(session, now);
      SendNotices(session, pass, stopNotice, countdown);
    }

    /** Busy mode, and the lock that it may lift. */
    method Arbitrate(session: uint32, now: int) returns (accept: bool)
      modifies this, hub
      ensures var (hold, verdict, elapsed) :=
                B.TryAccept(settings.rules, old(HoldView()), old(participants), session, now);
              var m := old(View()).(hold := hold);
              && accept == B.Accepted(verdict)
              && (View(), hub.clients)
                 == if elapsed then BusyElapsed(settings, m, old(hub.clients)) else (m, old(hub.clients))
    {
      hide B.TryAccept, BusyElapsed;
      var elapsed;
      accept, elapsed := TryAcceptPacket(session, now);
      if elapsed {
        NotifyBusyTimeoutElapsed();
      }
    }

    /** One voice packet: the gate, its notices, then busy mode and what it lifts. */
    method CanAcceptTxPacket(session: uint32, now: int) returns (accept: bool)
      modifies this, hub
      ensures (View(), hub.clients) == Admit(settings, old(View()), old(hub.clients), session, now)
      ensures accept == Admits(settings, old(View()), session, now)
    {
      hide G.Rule, B.TryAccept, BusyElapsed, Tell, NoticeMessages;
      var pass := Screen(session, now);
      if !pass {
        return false;
      }
      accept := Arbitrate(session, now);
    }

    method MarkEof(session: uint32, now: int)
      modifies this
      ensures View() == RelayModel.MarkEof(settings, old(View()), session, now)
    {
      ForgetTx(session);
      MarkBusyEof(session, now);
    }

    method ForgetTimes(session: uint32)
      modifies this`txStartedAt, this`txForceStopped, this`txLastStopNoticeAt
      ensures txStartedAt == old(txStartedAt) - {session} && txForceStopped == old(txForceStopped) - {session}
      ensures txLastStopNoticeAt == old(txLastStopNoticeAt) - {session}
    {
      txStartedAt := txStartedAt - {session};
      txForceStopped := txForceStopped - {session};
      txLastStopNoticeAt := txLastStopNoticeAt - {session};
    }

    method ForgetTx(session: uint32)
      modifies this`txStartedAt, this`txForceStopped, this`txLastStopNoticeAt, this`txCountdownNotified
      ensures View() == old(View()).(gate := G.Forget(old(GateView()), session))
    {
      ForgetTimes(session);
      txCountdownNotified := txCountdownNotified - {session};
    }

    method Add(session: uint32)
      modifies this`participants
      ensures View() == AddParticipant(old(View()), session)
    {
      participants := participants + {session};
    }

    method Remove(session: uint32)
      modifies this
      ensures View() == RemoveParticipant(old(View()), session)
    {
      hide G.Forget, B.Release;
      Drop(session);
      ForgetTx(session);
      ReleaseBusy(session);
    }

    method Drop(session: uint32)
      modifies this`participants, this`leftOut
      ensures View() == old(View()).(participants := old(participants) - {session},
                                     leftOut := if old(leftOut) == session then 0 else old(leftOut))
    {
      participants := participants - {session};
      leftOut := if leftOut == session then 0 else leftOut;
    }

    method ReleaseBusy(session: uint32)
      modifies this`busySession, this`busyExplicitEof, this`busyStartedAt, this`busyParallel
      ensures View() == old(View()).(hold := B.Release(old(HoldView()), session))
    {
      if busySession == session {
        ResetBusyHold();
      }
    }

    method SweepOne(session: uint32)
      modifies this`txStartedAt, this`txForceStopped, this`txLastStopNoticeAt
      ensures View() == old(View()).(gate := G.Sweep(old(GateView()), {session}))
    {
      ForgetTimes(session);
    }

    /** Forgets the transmissions of the streams that the clean-up drops, one by one. */
    method CleanupStreams(dropped: set<uint32>)
      modifies this`txStartedAt, this`txForceStopped, this`txLastStopNoticeAt
      ensures View() == Swept(old(View()), dropped)
    {
      hide Swept, G.Sweep;
      var rest := dropped;
      ghost var done: set<uint32> := {};
      SweptNone(View());
      while rest != {}
        invariant done + rest == dropped
        invariant View() == Swept(old(View()), done)
        decreases rest
      {
        var session :| session in rest;
        rest := rest - {session};
        SweepOne(session);
        SweptOneMore(old(View()), done, session);
        done := done + {session};
      }
      assert done == dropped;
    }

    /** The latest frame to a client that has just become reachable, unless it was kept from that client. */
    method SendLatestTo(session: uint32, now: int)
      modifies hub
      ensures hub.clients == SendLatest(settings, View(), old(hub.clients), session, now)
    {
      if latest.frame.None? {
        return;
      }
      if now - latest.at > settings.frameMaxAge {
        return;
      }
      if latest.excluded != 0 && latest.excluded == session {
        return;
      }
      if session in hub.clients && hub.clients[session].hasUdp {
        hub.clients := hub.clients[session := Hears(hub.clients[session], latest.frame.value)];
      }
    }

    /** Who must not hear the frame of this tick. */
    method ExcludedSession(speakers: seq<uint32>, now: int) returns (exclude: uint32)
      ensures exclude == Excluded(settings, View(), speakers, now)
    {
      exclude := 0;
      if |speakers| == 1 {
        exclude := speakers[0];
      } else if |speakers| == 0 && lastSingle != 0 {
        if now - lastSingleAt <= settings.tailGrace {
          exclude := lastSingle;
        }
      }
    }

    method Keep(f: Frame, now: int, exclude: uint32)
      requires exclude == Excluded(settings, View(), f.speakers, now)
      modifies this`latest
      ensures View() == Remember(settings, old(View()), now, f)
    {
      latest := Latest(Some(f), now, exclude);
    }

    /** The end of a mix: remembers the frame with its exclusion, broadcasts it and notes it. */
    method Emit(now: int, f: Frame)
      modifies this, hub
      ensures (View(), hub.clients) == EmitFrame(settings, old(View()), old(hub.clients), name, now, f)
    {
      hide NoteOutbound, Broadcast, Excluded, Remember;
      var exclude := ExcludedSession(f.speakers, now);
      Keep(f, now, exclude);
      hub.BroadcastMixed(name, exclude, f);
      NoteOutboundMixedUdp(now, exclude);
    }

    method RememberSpeakers(speakers: seq<uint32>, now: int)
      modifies this`lastSingle, this`lastSingleAt
      ensures View() == NoteSpeakers(old(View()), speakers, now)
    {
      if |speakers| == 1 {
        lastSingle := speakers[0];
        lastSingleAt := now;
      } else if |speakers| > 1 {
        lastSingle := 0;
      }
    }

    /** The control part of one tick. */
    method Tick(now: int, f: Frame, emits: bool, dropped: set<uint32>)
      modifies this, hub
      ensures (View(), hub.clients)
              == MixTick(settings, old(View()), old(hub.clients), name, now, f, emits, dropped)
    {
      hide EmitFrame, ProbeIdle, NoteSpeakers, Swept;
      RememberSpeakers(f.speakers, now);
      if emits {
        Emit(now, f);
      }
      CleanupStreams(dropped);
      ProbeRxBroadcastIdle(now);
    }
  }
}
