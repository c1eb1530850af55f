/**
 What every run of the relay keeps: membership is binding, clients agree with the server about the
 receive session and the lock, locks and unlocks alternate, and nobody hears his own voice alone.
 */
module RelaySafety {
  import opened Packets
  import B = BusyArbiter
  import G = TxGate
  import opened RelayModel

  // ---------- The invariant ----------

  /** What a client should believe, from the server's side; the one who was left out is told nothing. */
  function Expected(m: Mixer, session: uint32): View
  {
    if session == m.leftOut then UNAWARE
    else View(m.rxActive, m.locked, if m.locked then m.lockSec else 0)
  }

  /** Locks and unlocks alternate, a lock comes first, and the last one is the present state. */
  predicate Alternates(log: seq<Message>, locked: bool)
  {
    && (forall i :: 0 <= i < |log| ==> if i % 2 == 0 then log[i].PttLock? else log[i].PttUnlock?)
    && (locked <==> |log| % 2 == 1)
  }

  /** The server holds a lock only in busy mode and during a receive session; who is left out is a participant. */
  predicate LockSound(s: Settings, m: Mixer)
  {
    && (m.locked ==> s.rules.busyMode && m.rxActive)
    && (m.leftOut == 0 || m.leftOut in m.participants)
  }

  /** The frame kept for late comers is marked with its only speaker. */
  predicate LatestSound(m: Mixer)
  {
    m.latest.frame.Some? && |m.latest.frame.value.speakers| == 1 ==>
      m.latest.excluded == m.latest.frame.value.speakers[0]
  }

  predicate ChannelOk(s: Settings, r: Relay, name: string)
    requires name in r.channels
  {
    var m := r.channels[name];
    && name != ""
    && m.participants == Bound(r.clients, name, 0)
    && LockSound(s, m) && Alternates(m.lockLog, m.locked) && LatestSound(m)
  }

  predicate NoEcho(c: Client, session: uint32)
  {
    forall f :: f in c.heard ==> f.speakers != [session]
  }

  predicate ClientOk(r: Relay, session: uint32)
    requires session in r.clients
  {
    var c := r.clients[session];
    && session != 0
    && NoEcho(c, session)
    && (if c.channel == "" then Fold(c.inbox) == UNAWARE
        else c.channel in r.channels && Fold(c.inbox) == Expected(r.channels[c.channel], session))
  }

  ghost predicate Safe(s: Settings, r: Relay)
  {
    && (forall name :: name in r.channels ==> ChannelOk(s, r, name))
    && (forall session :: session in r.clients ==> ClientOk(r, session))
  }

  // ---------- One channel changes and tells its clients ----------

  /** The change of a mixer and the messages sent for it fit what the client session should then believe. */
  predicate Explains(m: Mixer, m1: Mixer, session: uint32, messages: seq<Message>)
  {
    ApplyAll(Expected(m, session), messages) == Expected(m1, session)
  }

  lemma BoundAfterTell(clients: map<uint32, Client>, to: set<uint32>, messages: seq<Message>, name: string)
    ensures Bound(Tell(clients, to, messages), name, 0) == Bound(clients, name, 0)
  {
  }

  lemma TellIsSafe(s: Settings, r: Relay, name: string, m1: Mixer, to: set<uint32>, messages: seq<Message>)
    requires Safe(s, r) && name in r.channels
    requires m1.participants == r.channels[name].participants
    requires LockSound(s, m1) && Alternates(m1.lockLog, m1.locked) && LatestSound(m1)
    requires to <= Bound(r.clients, name, 0)
    requires forall session :: session in Bound(r.clients, name, 0) ==>
               Explains(r.channels[name], m1, session, if session in to then messages else [])
    ensures Safe(s, Put(r, name, (m1, Tell(r.clients, to, messages))))
  {
    var r1 := Put(r, name, (m1, Tell(r.clients, to, messages)));
    forall n | n in r1.channels
      ensures ChannelOk(s, r1, n)
    {
      BoundAfterTell(r.clients, to, messages, n);
      assert ChannelOk(s, r, n);
    }
    forall session | session in r1.clients
      ensures ClientOk(r1, session)
    {
      assert ClientOk(r, session);
      if session in to {
        FoldAppend(r.clients[session].inbox, messages);
      }
      if r.clients[session].channel == name {
        assert session in Bound(r.clients, name, 0);
        assert Explains(r.channels[name], m1, session, if session in to then messages else []);
      }
    }
  }

  /** A change of a mixer that no client needs to hear of. */
  lemma SilentChangeIsSafe(s: Settings, r: Relay, name: string, m1: Mixer)
    requires Safe(s, r) && name in r.channels
    requires var m := r.channels[name];
             m1.participants == m.participants && m1.rxActive == m.rxActive && m1.locked == m.locked
             && m1.lockSec == m.lockSec && m1.leftOut == m.leftOut && m1.lockLog == m.lockLog
    requires LatestSound(m1)
    ensures Safe(s, Put(r, name, (m1, r.clients)))
  {
    var r1 := Put(r, name, (m1, r.clients));
    forall n | n in r1.channels
      ensures ChannelOk(s, r1, n)
    {
      assert ChannelOk(s, r, n);
      assert ChannelOk(s, r, name);
    }
    forall session | session in r1.clients
      ensures ClientOk(r1, session)
    {
      assert ClientOk(r, session);
    }
  }

  lemma ApplyTwo(v: View, a: Message, b: Message)
    ensures ApplyAll(v, [a, b]) == Apply(Apply(v, a), b)
    ensures ApplyAll(v, [a]) == Apply(v, a)
    ensures ApplyAll(v, []) == v
  {
    assert [a, b][1..] == [b] && [b][1..] == [] && [a][1..] == [];
    assert ApplyAll(Apply(v, a), [b]) == Apply(Apply(v, a), b);
    assert ApplyAll(v, [a]) == Apply(v, a);
  }

  lemma AlternatesNext(log: seq<Message>, locked: bool, message: Message)
    requires Alternates(log, locked) && (if locked then message.PttUnlock? else message.PttLock?)
    ensures Alternates(log + [message], !locked)
  {
  }

  /** Only the last change of a channel counts. */
  lemma PutPut(r: Relay, name: string, a: Local, b: Local)
    ensures Put(Put(r, name, a), name, b) == Put(r, name, b)
  {
  }

  lemma PutSame(r: Relay, name: string)
    requires name in r.channels
    ensures Put(r, name, (r.channels[name], r.clients)) == r
  {
    assert r.channels[name := r.channels[name]] == r.channels;
  }

  // ---------- The receive session ----------

  lemma NoteOutboundIsSafe(s: Settings, r: Relay, name: string, now: int, exclude: uint32)
    requires Safe(s, r) && name in r.channels
    ensures Safe(s, Put(r, name, NoteOutbound(s, r.channels[name], r.clients, name, now, exclude)))
  {
    var m := r.channels[name];
    assert ChannelOk(s, r, name);
    if m.rxActive {
      SilentChangeIsSafe(s, r, name, m.(rxLastAt := now));
    } else {
      var m1 := Opened(s, m, now, exclude);
      var to := Bound(r.clients, name, exclude);
      if s.rules.busyMode {
        AlternatesNext(m.lockLog, m.locked, PttLock(DisplaySec(s)));
      }
      forall session | session in Bound(r.clients, name, 0)
        ensures Explains(m, m1, session, if session in to then BurstMessages(s) else [])
      {
        assert ClientOk(r, session);
        ApplyTwo(Expected(m, session), RxStart(s.rules.busyMode), PttLock(DisplaySec(s)));
      }
      TellIsSafe(s, r, name, m1, to, BurstMessages(s));
    }
  }

  lemma FinishIdleIsSafe(s: Settings, r: Relay, name: string)
    requires Safe(s, r) && name in r.channels
    ensures Safe(s, Put(r, name, FinishIdle(s, r.channels[name], r.clients, name)))
  {
    var m := r.channels[name];
    assert ChannelOk(s, r, name);
    PutSame(r, name);
    if m.rxActive {
      var m1 := FinishIdle(s, m, r.clients, name).0;
      var to := Bound(r.clients, name, 0);
      var end := RxEnd(EndDelay(s));
      if m.locked {
        AlternatesNext(m.lockLog, m.locked, PttUnlock);
      }
      assert EndMessages(s, m.locked) == if m.locked then [end, PttUnlock] else [end];
      forall session | session in to
        ensures Explains(m, m1, session, EndMessages(s, m.locked))
      {
        ApplyTwo(Expected(m, session), end, PttUnlock);
      }
      TellIsSafe(s, r, name, m1, to, EndMessages(s, m.locked));
    }
  }

  lemma BusyElapsedIsSafe(s: Settings, r: Relay, name: string)
    requires Safe(s, r) && name in r.channels
    ensures Safe(s, Put(r, name, BusyElapsed(s, r.channels[name], r.clients)))
  {
    var m := r.channels[name];
    assert ChannelOk(s, r, name);
    PutSame(r, name);
    if Unlocks(s, m) && s.rules.busyTimeout > 0 {
      AlternatesNext(m.lockLog, m.locked, PttUnlock);
      forall session | session in Bound(r.clients, name, 0)
        ensures Explains(m, Lifted(m), session, if session in m.participants then [PttUnlock] else [])
      {
        ApplyTwo(Expected(m, session), PttUnlock, PttUnlock);
      }
      TellIsSafe(s, r, name, Lifted(m), m.participants, [PttUnlock]);
    }
  }

  lemma ProbeIdleIsSafe(s: Settings, r: Relay, name: string, now: int)
    requires Safe(s, r) && name in r.channels
    ensures Safe(s, Put(r, name, ProbeIdle(s, r.channels[name], r.clients, name, now)))
  {
    hide FinishIdle, Put, Safe;
    PutSame(r, name);
    FinishIdleIsSafe(s, r, name);
  }

  // ---------- Mixed frames ----------

  /** A client record changes in ways that its view and its binding do not depend on. */
  lemma TouchIsSafe(s: Settings, r: Relay, session: uint32, c: Client)
    requires Safe(s, r) && session in r.clients
    requires c.channel == r.clients[session].channel && c.inbox == r.clients[session].inbox && NoEcho(c, session)
    ensures Safe(s, r.(clients := r.clients[session := c]))
  {
    var r1 := r.(clients := r.clients[session := c]);
    forall n | n in r1.channels
      ensures ChannelOk(s, r1, n)
    {
      assert ChannelOk(s, r, n);
      assert Bound(r1.clients, n, 0) == Bound(r.clients, n, 0);
    }
    forall x | x in r1.clients
      ensures ClientOk(r1, x)
    {
      assert ClientOk(r, x);
      assert ClientOk(r, session);
    }
  }

  lemma HearsNoEcho(c: Client, session: uint32, f: Frame)
    requires NoEcho(c, session) && f.speakers != [session]
    ensures NoEcho(Hears(c, f), session)
  {
  }

  lemma BroadcastIsSafe(s: Settings, r: Relay, name: string, except: uint32, f: Frame)
    requires Safe(s, r) && (|f.speakers| == 1 ==> except == f.speakers[0])
    ensures Safe(s, r.(clients := Broadcast(r.clients, name, except, f)))
  {
    var r1 := r.(clients := Broadcast(r.clients, name, except, f));
    forall n | n in r1.channels
      ensures ChannelOk(s, r1, n)
    {
      assert ChannelOk(s, r, n);
      assert Bound(r1.clients, n, 0) == Bound(r.clients, n, 0);
    }
    forall x | x in r1.clients
      ensures ClientOk(r1, x)
    {
      assert ClientOk(r, x);
      if x in Bound(r.clients, name, except) {
        assert f.speakers == [x] ==> except == x;
        HearsNoEcho(r.clients[x], x, f);
      }
    }
  }

  lemma {:induction false} SendLatestIsSafe(s: Settings, r: Relay, name: string, session: uint32, now: int)
    requires Safe(s, r) && name in r.channels
    ensures Safe(s, Put(r, name, (r.channels[name], SendLatest(s, r.channels[name], r.clients, session, now))))
  {
    var m := r.channels[name];
    var f := CatchUp(s, m, session, now);
    PutSame(r, name);
    if f.Some? && session in r.clients && r.clients[session].hasUdp {
      assert ChannelOk(s, r, name) && ClientOk(r, session);
      assert f.value.speakers == [session] ==> m.latest.excluded == session;
      HearsNoEcho(r.clients[session], session, f.value);
      TouchIsSafe(s, r, session, Hears(r.clients[session], f.value));
      var r1 := r.(clients := r.clients[session := Hears(r.clients[session], f.value)]);
      PutSame(r1, name);
    }
  }

  lemma {:induction false} EmitFrameIsSafe(s: Settings, r: Relay, name: string, now: int, f: Frame)
    requires Safe(s, r) && name in r.channels
    ensures Safe(s, Put(r, name, EmitFrame(s, r.channels[name], r.clients, name, now, f)))
  {
    hide NoteOutbound, Broadcast, Safe;
    var m := r.channels[name];
    var exclude := Excluded(s, m, f.speakers, now);
    var m1 := Remember(s, m, now, f);
    SilentChangeIsSafe(s, r, name, m1);
    var r1 := Put(r, name, (m1, r.clients));
    BroadcastIsSafe(s, r1, name, exclude, f);
    var r2 := r1.(clients := Broadcast(r1.clients, name, exclude, f));
    NoteOutboundIsSafe(s, r2, name, now, exclude);
    PutPut(r, name, (m1, r2.clients), NoteOutbound(s, m1, r2.clients, name, now, exclude));
  }

  lemma {:induction false} MixTickIsSafe(
    s: Settings, r: Relay, name: string, now: int, f: Frame, emits: bool, dropped: set<uint32>)
    requires Safe(s, r) && name in r.channels
    ensures Safe(s, Put(r, name, MixTick(s, r.channels[name], r.clients, name, now, f, emits, dropped)))
  {
    hide EmitFrame, ProbeIdle, G.Sweep, Safe;
    var m1 := NoteSpeakers(r.channels[name], f.speakers, now);
    NoteSpeakersIsSafe(s, r, name, f.speakers, now);
    var r1 := Put(r, name, (m1, r.clients));
    var local := if emits then EmitFrame(s, m1, r.clients, name, now, f) else (m1, r.clients);
    if emits {
      EmitFrameIsSafe(s, r1, name, now, f);
      PutPut(r, name, (m1, r.clients), local);
    }
    var r2 := Put(r, name, local);
    SweptIsSafe(s, r2, name, dropped);
    var swept := (Swept(local.0, dropped), local.1);
    PutPut(r, name, local, swept);
    ProbeIdleIsSafe(s, Put(r, name, swept), name, now);
    PutPut(r, name, swept, ProbeIdle(s, swept.0, swept.1, name, now));
  }

  lemma NoteSpeakersIsSafe(s: Settings, r: Relay, name: string, speakers: seq<uint32>, now: int)
    requires Safe(s, r) && name in r.channels
    ensures Safe(s, Put(r, name, (NoteSpeakers(r.channels[name], speakers, now), r.clients)))
  {
    assert ChannelOk(s, r, name);
    SilentChangeIsSafe(s, r, name, NoteSpeakers(r.channels[name], speakers, now));
  }

  lemma SweptIsSafe(s: Settings, r: Relay, name: string, dropped: set<uint32>)
    requires Safe(s, r) && name in r.channels
    ensures Safe(s, Put(r, name, (Swept(r.channels[name], dropped), r.clients)))
  {
    assert ChannelOk(s, r, name);
    SilentChangeIsSafe(s, r, name, Swept(r.channels[name], dropped));
  }

  // ---------- Voice ----------

  lemma NoticesAreSilent(v: View, ruling: G.Ruling)
    ensures ApplyAll(v, NoticeMessages(ruling)) == v
  {
    ApplyTwo(v, TxCountdownStart, TxStop);
    ApplyTwo(v, TxStop, TxStop);
    assert [TxCountdownStart] + [TxStop] == [TxCountdownStart, TxStop];
    assert [TxCountdownStart] + [] == [TxCountdownStart];
    assert [] + [TxStop] == [TxStop];
  }

  lemma RuledIsSafe(s: Settings, r: Relay, name: string, session: uint32, gate: G.Gate, ruling: G.Ruling)
    requires Safe(s, r) && session in r.clients && r.clients[session].channel == name && name in r.channels
    ensures Safe(s, Put(r, name, (r.channels[name].(gate := gate), Tell(r.clients, {session}, NoticeMessages(ruling)))))
  {
    hide NoticeMessages;
    assert ChannelOk(s, r, name);
    var m := r.channels[name];
    forall x | x in Bound(r.clients, name, 0)
      ensures Explains(m, m.(gate := gate), x, if x in {session} then NoticeMessages(ruling) else [])
    {
      NoticesAreSilent(Expected(m, x), ruling);
    }
    TellIsSafe(s, r, name, m.(gate := gate), {session}, NoticeMessages(ruling));
  }

  lemma HeldIsSafe(s: Settings, r: Relay, name: string, hold: B.Hold)
    requires Safe(s, r) && name in r.channels
    ensures Safe(s, Put(r, name, (r.channels[name].(hold := hold), r.clients)))
  {
    assert ChannelOk(s, r, name);
    SilentChangeIsSafe(s, r, name, r.channels[name].(hold := hold));
  }

  lemma AdmitIsSafe(s: Settings, r: Relay, name: string, session: uint32, now: int)
    requires Safe(s, r) && session in r.clients && r.clients[session].channel == name && name in r.channels
    ensures Safe(s, Put(r, name, Admit(s, r.channels[name], r.clients, session, now)))
  {
    hide G.Rule, B.TryAccept, BusyElapsed, NoticeMessages, Tell, Safe;
    var m := r.channels[name];
    var (gate, ruling) := G.Rule(s.transmitTimeout, m.gate, session, now);
    var ruled := (m.(gate := gate), Tell(r.clients, {session}, NoticeMessages(ruling)));
    RuledIsSafe(s, r, name, session, gate, ruling);
    if ruling.pass {
      var (hold, verdict, elapsed) := B.TryAccept(s.rules, m.hold, m.participants, session, now);
      HeldIsSafe(s, Put(r, name, ruled), name, hold);
      var held := (ruled.0.(hold := hold), ruled.1);
      PutPut(r, name, ruled, held);
      BusyElapsedIsSafe(s, Put(r, name, held), name);
      PutPut(r, name, held, BusyElapsed(s, held.0, held.1));
    }
  }

  // ---------- Coming and going ----------

  lemma ConnectIsSafe(s: Settings, r: Relay, session: uint32)
    requires Safe(s, r) && session != 0 && session !in r.clients
    ensures Safe(s, r.(clients := r.clients[session := Client("", false, false, [], [])]))
  {
    var r1 := r.(clients := r.clients[session := Client("", false, false, [], [])]);
    forall n | n in r1.channels
      ensures ChannelOk(s, r1, n)
    {
      assert ChannelOk(s, r, n);
      assert Bound(r1.clients, n, 0) == Bound(r.clients, n, 0);
    }
    forall x | x in r1.clients
      ensures ClientOk(r1, x)
    {
      assert x in r.clients ==> ClientOk(r, x);
    }
  }

  lemma RemoveClientIsSafe(s: Settings, r: Relay, session: uint32)
    requires Safe(s, r)
    ensures Safe(s, RemoveClient(r, session))
  {
    if session in r.clients {
      var r1 := RemoveClient(r, session);
      assert ClientOk(r, session);
      forall n | n in r1.channels
        ensures ChannelOk(s, r1, n)
      {
        assert ChannelOk(s, r, n);
        assert Bound(r1.clients, n, 0) == Bound(r.clients, n, 0) - {session};
      }
      forall x | x in r1.clients
        ensures ClientOk(r1, x)
      {
        assert ClientOk(r, x);
      }
    }
  }

  /** A fresh client joins a channel and is told what is going on there, in one step. */
  ghost function Joined(s: Settings, r: Relay, session: uint32, name: string): Relay
    requires session in r.clients
  {
    var m := AddParticipant(MixerAt(r, name), session);
    var c := r.clients[session].(channel := name, inbox := r.clients[session].inbox + SyncMessages(s, m));
    SetMixer(r, name, m).(clients := r.clients[session := c])
  }

  lemma SyncExplains(s: Settings, m: Mixer, session: uint32)
    requires LockSound(s, m) && session != m.leftOut
    ensures ApplyAll(UNAWARE, SyncMessages(s, m)) == Expected(m, session)
  {
    var a, b := RxStart(s.rules.busyMode), PttLock(m.lockSec);
    ApplyTwo(UNAWARE, a, b);
    assert SyncMessages(s, m)
        == if m.locked then [a, b] else if m.rxActive then [a] else [];
  }

  lemma NewcomerIsOut(s: Settings, r: Relay, session: uint32, name: string)
    requires Safe(s, r) && session in r.clients && r.clients[session].channel == "" && name != ""
    ensures var m := MixerAt(r, name);
            && m.participants == Bound(r.clients, name, 0) && session !in m.participants && session != m.leftOut
            && LockSound(s, m) && Alternates(m.lockLog, m.locked) && LatestSound(m)
  {
    hide Bound, NoEcho, Expected, Fold;
    UnusedIsUnbound(s, r, name);
    UnboundIsOut(r.clients, session, name);
    assert ClientOk(r, session);
    assert name in r.channels ==> ChannelOk(s, r, name);
  }

  lemma UnboundIsOut(clients: map<uint32, Client>, session: uint32, name: string)
    requires session in clients && clients[session].channel != name
    ensures session !in Bound(clients, name, 0)
  {
  }

  lemma JoinedChannels(s: Settings, r: Relay, session: uint32, name: string, n: string)
    requires Safe(s, r) && session in r.clients && r.clients[session].channel == "" && name != ""
    requires n in Joined(s, r, session, name).channels
    ensures ChannelOk(s, Joined(s, r, session, name), n)
  {
    hide NoEcho, SyncMessages, Expected, Fold;
    var r1 := Joined(s, r, session, name);
    NewcomerIsOut(s, r, session, name);
    assert n in r.channels ==> ChannelOk(s, r, n);
    assert n != name ==> Bound(r1.clients, n, 0) == Bound(r.clients, n, 0);
    assert Bound(r1.clients, name, 0) == Bound(r.clients, name, 0) + {session};
  }

  lemma JoinedClients(s: Settings, r: Relay, session: uint32, name: string, x: uint32)
    requires Safe(s, r) && session in r.clients && r.clients[session].channel == "" && name != ""
    requires x in r.clients
    ensures ClientOk(Joined(s, r, session, name), x)
  {
    hide Fold, SyncMessages, LatestSound, Alternates, Bound;
    var m := Joined(s, r, session, name).channels[name];
    NewcomerIsOut(s, r, session, name);
    assert ClientOk(r, x) && ClientOk(r, session);
    if x == session {
      FoldAppend(r.clients[session].inbox, SyncMessages(s, m));
      SyncExplains(s, m, session);
    }
  }

  lemma JoinedIsSafe(s: Settings, r: Relay, session: uint32, name: string)
    requires Safe(s, r) && session in r.clients && r.clients[session].channel == "" && name != ""
    ensures Safe(s, Joined(s, r, session, name))
    ensures session != MixerAt(Joined(s, r, session, name), name).leftOut
  {
    hide ChannelOk, ClientOk;
    var r1 := Joined(s, r, session, name);
    NewcomerIsOut(s, r, session, name);
    forall n | n in r1.channels
      ensures ChannelOk(s, r1, n)
    {
      JoinedChannels(s, r, session, name, n);
    }
    forall x | x in r1.clients
      ensures ClientOk(r1, x)
    {
      JoinedClients(s, r, session, name, x);
    }
  }

  /** The client as the catch-up frame leaves it. */
  function Caught(s: Settings, m: Mixer, c: Client, session: uint32, now: int): Client
  {
    var f := CatchUp(s, m, session, now);
    if f.Some? && c.hasUdp then Hears(c, f.value) else c
  }

  lemma SendLatestIs(s: Settings, m: Mixer, clients: map<uint32, Client>, session: uint32, now: int)
    requires session in clients
    ensures SendLatest(s, m, clients, session, now)
            == clients[session := Caught(s, m, clients[session], session, now)]
  {
    hide CatchUp;
    assert clients[session := clients[session]] == clients;
  }

  /** A catch-up frame and messages may come in either order. */
  lemma CaughtThenTold(s: Settings, m: Mixer, c: Client, session: uint32, now: int, messages: seq<Message>)
    ensures Told(Caught(s, m, c, session, now), messages) == Caught(s, m, Told(c, messages), session, now)
    ensures Caught(s, m, c, session, now).channel == c.channel
  {
    hide CatchUp;
  }

  /** Binding, the catch-up frame and the sync messages amount to joining and then perhaps hearing one frame. */
  lemma BindIsJoin(s: Settings, r: Relay, session: uint32, name: string, now: int)
    requires session in r.clients && r.clients[session].channel == "" && name != ""
    ensures var r1 := Joined(s, r, session, name);
            Sync(s, SwitchChannel(s, r, session, name, now), session)
            == Put(r1, name, (r1.channels[name], SendLatest(s, r1.channels[name], r1.clients, session, now)))
  {
    hide SendLatest, Caught, SyncMessages, Told;
    var r1, m := Joined(s, r, session, name), AddParticipant(MixerAt(r, name), session);
    var c := r.clients[session].(channel := name);
    SendLatestIs(s, m, r.clients[session := c], session, now);
    var left := Sync(s, SwitchChannel(s, r, session, name, now), session);
    var right := Put(r1, name, (r1.channels[name], SendLatest(s, r1.channels[name], r1.clients, session, now)));
    SendLatestIs(s, m, r1.clients, session, now);
    CaughtThenTold(s, m, c, session, now, SyncMessages(s, m));
    ToldInbox(c, SyncMessages(s, m));
    assert left.channels == right.channels;
    assert left.clients[session] == right.clients[session];
    assert left.clients == right.clients;
  }

  lemma ToldInbox(c: Client, messages: seq<Message>)
    ensures Told(c, messages) == c.(inbox := c.inbox + messages)
  {
  }

  lemma BindIsSafe(s: Settings, r: Relay, session: uint32, name: string, now: int)
    requires Safe(s, r) && session in r.clients && r.clients[session].channel == "" && name != ""
    ensures Safe(s, Sync(s, SwitchChannel(s, r, session, name, now), session))
  {
    hide Safe, SendLatest, SwitchChannel, Sync;
    JoinedIsSafe(s, r, session, name);
    SendLatestIsSafe(s, Joined(s, r, session, name), name, session, now);
    BindIsJoin(s, r, session, name, now);
  }

  lemma MarkEofIsSafe(s: Settings, r: Relay, name: string, session: uint32, at: int)
    requires Safe(s, r) && name in r.channels
    ensures Safe(s, SetMixer(r, name, MarkEof(s, r.channels[name], session, at)))
  {
    hide G.Forget, B.MarkEof;
    assert ChannelOk(s, r, name);
    SilentChangeIsSafe(s, r, name, MarkEof(s, r.channels[name], session, at));
  }

  lemma PunchedIsSafe(s: Settings, r: Relay, session: uint32)
    requires Safe(s, r) && session in r.clients
    ensures var r1 := Punched(r, session);
            Safe(s, r1) && session in r1.clients
            && (r1.clients[session].channel != "" ==> r1.clients[session].channel in r1.channels)
  {
    assert ClientOk(r, session);
    TouchIsSafe(s, r, session, r.clients[session].(hasUdp := true));
  }

  // ---------- Every run ----------

  lemma {:induction false} StepIsSafe(s: Settings, r: Relay, e: Event)
    requires Safe(s, r) && Possible(r, e)
    ensures Safe(s, Step(s, r, e))
  {
    hide Safe, MixTick, Admit, SendLatest, SwitchChannel, Sync, RemoveClient, MarkEof, Punched;
    match e {
      case Connect(session) => ConnectIsSafe(s, r, session);
      case Bind(session, name, at) => BindIsSafe(s, r, session, name, at);
      case Disconnect(session) => RemoveClientIsSafe(s, r, session);
      case SetRepeater(session, on) =>
        if session in r.clients {
          SetRepeaterIsSafe(s, r, session, on);
        }
      case Punch(session) =>
        if session in r.clients {
          PunchedIsSafe(s, r, session);
        }
      case Hello(session, at) =>
        if session in r.clients {
          PunchedIsSafe(s, r, session);
          var r1 := Punched(r, session);
          if r1.clients[session].channel != "" {
            SendLatestIsSafe(s, r1, r1.clients[session].channel, session, at);
          }
        }
      case Voice(session, at) =>
        if session in r.clients {
          PunchedIsSafe(s, r, session);
          var r1 := Punched(r, session);
          if r1.clients[session].channel != "" {
            AdmitIsSafe(s, r1, r1.clients[session].channel, session, at);
          }
        }
      case EndMark(session, at) =>
        if session in r.clients {
          PunchedIsSafe(s, r, session);
          var r1 := Punched(r, session);
          if r1.clients[session].channel != "" {
            MarkEofIsSafe(s, r1, r1.clients[session].channel, session, at);
          }
        }
      case Tick(name, at, frame, emits, swept) => MixTickIsSafe(s, r, name, at, frame, emits, swept);
    }
  }

  lemma SetRepeaterIsSafe(s: Settings, r: Relay, session: uint32, on: bool)
    requires Safe(s, r) && session in r.clients
    ensures Safe(s, r.(clients := r.clients[session := r.clients[session].(repeater := on)]))
  {
    assert ClientOk(r, session);
    TouchIsSafe(s, r, session, r.clients[session].(repeater := on));
  }

  lemma {:induction false} RunIsSafe(s: Settings, r: Relay, es: seq<Event>)
    requires Safe(s, r) && PossibleRun(s, r, es)
    ensures Safe(s, Run(s, r, es))
    decreases es
  {
    hide Safe, Step;
    if es != [] {
      StepIsSafe(s, r, es[0]);
      RunIsSafe(s, Step(s, r, es[0]), es[1..]);
    }
  }

  lemma EveryRunIsSafe(s: Settings, es: seq<Event>)
    requires PossibleRun(s, EMPTY, es)
    ensures Safe(s, Run(s, EMPTY, es))
  {
    RunIsSafe(s, EMPTY, es);
  }

  /**
   Lock agreement on every run from an empty relay: a client that believes the channel locked, or the
   receive session open, is right; and everyone but the speaker left out at the start of the burst, late
   comers included, believes exactly what the server holds.
   */
  lemma ClientsAgree(s: Settings, es: seq<Event>, session: uint32)
    requires PossibleRun(s, EMPTY, es)
    requires session in Run(s, EMPTY, es).clients && Run(s, EMPTY, es).clients[session].channel != ""
    ensures var r := Run(s, EMPTY, es);
            var c := r.clients[session];
            && c.channel in r.channels
            && var v, m := Fold(c.inbox), r.channels[c.channel];
            && (v.locked ==> m.locked) && (v.receiving ==> m.rxActive)
            && (session != m.leftOut ==>
                  v.locked == m.locked && v.receiving == m.rxActive && v.lockSec == if m.locked then m.lockSec else 0)
  {
    RunIsSafe(s, EMPTY, es);
    assert ClientOk(Run(s, EMPTY, es), session);
  }

  /**
   On every run, the lock is held only in busy mode and while a receive session is open; the channel's locks
   and unlocks strictly alternate; so each lock is matched by one unlock, at the latest when the burst ends.
   */
  lemma LocksArePaired(s: Settings, es: seq<Event>, name: string)
    requires PossibleRun(s, EMPTY, es) && name in Run(s, EMPTY, es).channels
    ensures var m := Run(s, EMPTY, es).channels[name];
            && (m.locked ==> s.rules.busyMode && m.rxActive)
            && Alternates(m.lockLog, m.locked)
            && (!m.rxActive ==> |m.lockLog| % 2 == 0)
  {
    RunIsSafe(s, EMPTY, es);
    assert ChannelOk(s, Run(s, EMPTY, es), name);
  }

  /**
   On every run a channel's participants are the connected clients bound to its name; so the unlock that
   goes to the participants and the one that goes to the bound clients reach the same clients.
   */
  lemma ParticipantsAreBound(s: Settings, es: seq<Event>, name: string)
    requires PossibleRun(s, EMPTY, es) && name in Run(s, EMPTY, es).channels
    ensures var r := Run(s, EMPTY, es); r.channels[name].participants == Bound(r.clients, name, 0)
  {
    RunIsSafe(s, EMPTY, es);
    assert ChannelOk(s, Run(s, EMPTY, es), name);
  }

  /** On every run nobody is sent a frame that was mixed from him alone, neither live nor as a catch-up. */
  lemma NobodyHearsHimself(s: Settings, es: seq<Event>, session: uint32, f: Frame)
    requires PossibleRun(s, EMPTY, es) && session in Run(s, EMPTY, es).clients
    requires f in Run(s, EMPTY, es).clients[session].heard
    ensures f.speakers != [session]
  {
    RunIsSafe(s, EMPTY, es);
    assert ClientOk(Run(s, EMPTY, es), session);
  }

  /** The frames of a tail, mixed from nobody, are kept from the last lone speaker while the grace time lasts. */
  lemma {:induction false} TailSkipsItsSpeaker(
    s: Settings, m: Mixer, clients: map<uint32, Client>, name: string, now: int, f: Frame, emits: bool,
    dropped: set<uint32>, speaker: uint32)
    requires f.speakers == [] && speaker != 0 && m.lastSingle == speaker && now - m.lastSingleAt <= s.tailGrace
    requires speaker in clients
    ensures var clients1 := MixTick(s, m, clients, name, now, f, emits, dropped).1;
            speaker in clients1 && clients1[speaker].heard == clients[speaker].heard
  {
  }

  // ---------- Where it ends ----------

  /** The restart after a mixer panic forgets the receive session without telling anybody. */
  function Panic(r: Relay, name: string): Relay
  {
    SetMixer(r, name, MixerAt(r, name).(rxActive := false, rxLastAt := 0, locked := false, lockSec := 0,
                                        latest := Latest(None, 0, 0)))
  }

  predicate Agrees(r: Relay, name: string)
  {
    forall session :: session in Bound(r.clients, name, 0) ==>
      Fold(r.clients[session].inbox) == Expected(MixerAt(r, name), session)
  }

  /** A panic keeps the agreement exactly when no receive session is open, or nobody there was told of it. */
  lemma {:induction false} PanicAgreesIff(s: Settings, r: Relay, name: string)
    requires Safe(s, r) && name in r.channels
    ensures Agrees(Panic(r, name), name)
            <==> !r.channels[name].rxActive
                 || (forall session :: session in Bound(r.clients, name, 0) ==> session == r.channels[name].leftOut)
  {
    var r1, m := Panic(r, name), r.channels[name];
    assert ChannelOk(s, r, name);
    forall session | session in Bound(r.clients, name, 0)
      ensures Fold(r1.clients[session].inbox) == Expected(m, session)
    {
      assert ClientOk(r, session);
    }
    if m.rxActive {
      if session :| session in Bound(r.clients, name, 0) && session != m.leftOut {
        assert session in Bound(r1.clients, name, 0);
        assert Fold(r1.clients[session].inbox) != Expected(MixerAt(r1, name), session);
      }
    }
  }

  predicate MembersAreBound(r: Relay)
  {
    forall name :: name in r.channels ==> r.channels[name].participants == Bound(r.clients, name, 0)
  }

  lemma SendLatestKeepsBound(
    s: Settings, m: Mixer, clients: map<uint32, Client>, session: uint32, now: int, name: string)
    ensures Bound(SendLatest(s, m, clients, session, now), name, 0) == Bound(clients, name, 0)
  {
  }

  /** The catch-up frame does not matter to membership. */
  lemma EnterMembersIff(s: Settings, r: Relay, session: uint32, name: string, now: int)
    ensures MembersAreBound(Enter(s, r, session, name, now))
            <==> MembersAreBound(SetMixer(r, name, AddParticipant(MixerAt(r, name), session)))
  {
    hide SendLatest;
    var m := AddParticipant(MixerAt(r, name), session);
    forall n ensures Bound(SendLatest(s, m, r.clients, session, now), n, 0) == Bound(r.clients, n, 0) {
      SendLatestKeepsBound(s, m, r.clients, session, now, n);
    }
  }

  /** A switch without the catch-up frame. */
  ghost function Rebound(r: Relay, session: uint32, name: string): Relay
    requires session in r.clients
  {
    var r1 := Quit(r, session, r.clients[session].channel);
    var r2 := r1.(clients := r1.clients[session := r1.clients[session].(channel := name)]);
    var target := if name == "" then "default" else name;
    SetMixer(r2, target, AddParticipant(MixerAt(r2, target), session))
  }

  lemma UnusedIsUnbound(s: Settings, r: Relay, name: string)
    requires Safe(s, r) && name != ""
    ensures MixerAt(r, name).participants == Bound(r.clients, name, 0)
  {
    if name in r.channels {
      assert ChannelOk(s, r, name);
    } else {
      forall x | x in r.clients ensures r.clients[x].channel != name {
        assert ClientOk(r, x);
      }
      assert Bound(r.clients, name, 0) == {};
    }
  }

  lemma BoundAfterRebind(clients: map<uint32, Client>, session: uint32, name: string, n: string)
    requires session in clients
    ensures Bound(clients[session := clients[session].(channel := name)], n, 0)
            == if n == name then Bound(clients, n, 0) + {session} else Bound(clients, n, 0) - {session}
  {
  }

  lemma ReboundMembersIff(s: Settings, r: Relay, session: uint32, name: string)
    requires Safe(s, r) && session in r.clients && r.clients[session].channel != name
    ensures MembersAreBound(Rebound(r, session, name)) <==> name != ""
  {
    var r1, previous := Rebound(r, session, name), r.clients[session].channel;
    if name == "" {
      assert session in r1.channels["default"].participants;
      assert session !in Bound(r1.clients, "default", 0);
    } else {
      UnusedIsUnbound(s, r, name);
      forall n | n in r1.channels
        ensures r1.channels[n].participants == Bound(r1.clients, n, 0)
      {
        hide Bound;
        BoundAfterRebind(r.clients, session, name, n);
        if n == previous {
          UnusedIsUnbound(s, r, n);
        } else if n != name {
          assert ChannelOk(s, r, n);
          NotBoundElsewhere(r.clients, session, n);
        }
      }
    }
  }

  lemma NotBoundElsewhere(clients: map<uint32, Client>, session: uint32, n: string)
    requires session in clients && clients[session].channel != n
    ensures Bound(clients, n, 0) - {session} == Bound(clients, n, 0)
  {
  }

  /** Switching channels keeps membership binding exactly when it does not leave a channel for the empty name. */
  lemma {:induction false} SwitchKeepsMembersIff(s: Settings, r: Relay, session: uint32, name: string, now: int)
    requires Safe(s, r) && session in r.clients
    ensures MembersAreBound(SwitchChannel(s, r, session, name, now))
            <==> name != "" || r.clients[session].channel == ""
  {
    hide Enter;
    var previous := r.clients[session].channel;
    assert ClientOk(r, session);
    forall n | n in r.channels ensures r.channels[n].participants == Bound(r.clients, n, 0) {
      assert ChannelOk(s, r, n);
    }
    if previous == name {
      if name != "" {
        assert AddParticipant(r.channels[name], session) == r.channels[name];
        EnterMembersIff(s, r, session, name, now);
      }
    } else {
      ReboundMembersIff(s, r, session, name);
      var r1 := Quit(r, session, previous);
      var r2 := r1.(clients := r1.clients[session := r1.clients[session].(channel := name)]);
      EnterMembersIff(s, r2, session, if name == "" then "default" else name, now);
    }
  }

  /**
   Whatever the relay, a switch to a named channel binds the client there, takes it into that channel's set, also if it
   was bound there before, and out of the one that it leaves, and leaves everybody else where they are.
   */
  lemma {:induction false} SwitchMoves(
    s: Settings, r: Relay, session: uint32, name: string, now: int, x: uint32, n: string)
    requires session in r.clients && name != ""
    ensures var r1, previous := SwitchChannel(s, r, session, name, now), r.clients[session].channel;
            && session in r1.clients && r1.clients[session].channel == name
            && (x in r.clients && x != session ==> x in r1.clients && r1.clients[x] == r.clients[x])
            && (x in MixerAt(r1, n).participants
                <==> if x == session then n == name || (x in MixerAt(r, n).participants && (n != previous || n == ""))
                     else x in MixerAt(r, n).participants)
  {
    hide CatchUp, G.Forget, B.Release;
  }
}
