/**
 What each client is sent, message by message: no lock reaches a client that believes itself locked, and an
 unlock finds a client unlocked exactly if the burst that it ends has left that client out.
 */
module RelayMessages {
  import opened Packets
  import B = BusyArbiter
  import G = TxGate
  import opened RelayModel
  import opened RelaySafety

  /** The message fits what the client believes; out says that the burst has left it out. */
  predicate FitsOne(v: View, message: Message, out: bool)
  {
    (message.PttLock? ==> !v.locked) && (message.PttUnlock? ==> (!v.locked <==> out))
  }

  predicate Fits(v: View, messages: seq<Message>, out: bool)
    decreases messages
  {
    messages != [] ==> FitsOne(v, messages[0], out) && Fits(Apply(v, messages[0]), messages[1..], out)
  }

  lemma {:induction false} FitsAppend(v: View, a: seq<Message>, b: seq<Message>, out: bool)
    ensures Fits(v, a + b, out) <==> Fits(v, a, out) && Fits(ApplyAll(v, a), b, out)
    decreases a
  {
    if a == [] {
      assert a + b == b;
    } else {
      assert (a + b)[1..] == a[1..] + b;
      FitsAppend(Apply(v, a[0]), a[1..], b, out);
    }
  }

  lemma {:induction false} FitsAt(v: View, messages: seq<Message>, out: bool, i: nat)
    requires Fits(v, messages, out) && i < |messages|
    ensures FitsOne(ApplyAll(v, messages[..i]), messages[i], out)
    decreases messages
  {
    if i == 0 {
      assert messages[..0] == [];
    } else {
      FitsAt(Apply(v, messages[0]), messages[1..], out, i - 1);
      assert messages[..i][1..] == messages[1..][..i - 1];
    }
  }

  lemma FitsTwo(v: View, a: Message, b: Message, out: bool)
    ensures Fits(v, [], out) && (Fits(v, [a], out) <==> FitsOne(v, a, out))
    ensures Fits(v, [a, b], out) <==> FitsOne(v, a, out) && FitsOne(Apply(v, a), b, out)
  {
    assert [a, b][1..] == [b] && [b][1..] == [] && [a][1..] == [];
    assert Fits(Apply(v, a), [b], out) <==> FitsOne(Apply(v, a), b, out);
  }

  // ---------- What is new in an inbox ----------

  /** The client's inbox has only grown, by messages that fit. */
  predicate Grows(a: map<uint32, Client>, b: map<uint32, Client>, x: uint32, out: bool)
  {
    x in a && x in b ==>
      a[x].inbox <= b[x].inbox && Fits(Fold(a[x].inbox), b[x].inbox[|a[x].inbox|..], out)
  }

  lemma InboxGrows(inbox: seq<Message>, messages: seq<Message>, out: bool)
    requires Fits(Fold(inbox), messages, out)
    ensures inbox <= inbox + messages && Fits(Fold(inbox), (inbox + messages)[|inbox|..], out)
  {
    assert (inbox + messages)[|inbox|..] == messages;
  }

  lemma SameInbox(a: map<uint32, Client>, b: map<uint32, Client>, x: uint32, out: bool)
    requires x in a && x in b ==> a[x].inbox == b[x].inbox
    ensures Grows(a, b, x, out)
  {
    if x in a && x in b {
      assert b[x].inbox[|a[x].inbox|..] == [];
    }
  }

  lemma GrowsTwice(a: map<uint32, Client>, b: map<uint32, Client>, c: map<uint32, Client>, x: uint32, out: bool)
    requires Grows(a, b, x, out) && Grows(b, c, x, out) && (x in a ==> x in b)
    ensures Grows(a, c, x, out)
  {
    if x in a && x in c {
      var i, j, k := a[x].inbox, b[x].inbox, c[x].inbox;
      assert k[|i|..] == j[|i|..] + k[|j|..];
      assert j == i + j[|i|..];
      FoldAppend(i, j[|i|..]);
      FitsAppend(Fold(i), j[|i|..], k[|j|..], out);
    }
  }

  lemma TellGrows(clients: map<uint32, Client>, to: set<uint32>, messages: seq<Message>, x: uint32, out: bool)
    requires x in clients && x in to ==> Fits(Fold(clients[x].inbox), messages, out)
    ensures Grows(clients, Tell(clients, to, messages), x, out)
  {
    if x in clients && x in to {
      InboxGrows(clients[x].inbox, messages, out);
    } else {
      SameInbox(clients, Tell(clients, to, messages), x, out);
    }
  }

  // ---------- The receive session ----------

  /** What a safe relay's client believes. */
  lemma BoundBelieves(s: Settings, r: Relay, name: string, x: uint32)
    requires Safe(s, r) && name in r.channels && x in Bound(r.clients, name, 0)
    ensures Fold(r.clients[x].inbox) == Expected(r.channels[name], x) && LockSound(s, r.channels[name])
  {
    assert ChannelOk(s, r, name) && ClientOk(r, x);
  }

  lemma NoteOutboundGrows(s: Settings, r: Relay, name: string, now: int, exclude: uint32, x: uint32, out: bool)
    requires Safe(s, r) && name in r.channels
    ensures Grows(r.clients, NoteOutbound(s, r.channels[name], r.clients, name, now, exclude).1, x, out)
  {
    hide Tell, Safe;
    var m := r.channels[name];
    var to := Bound(r.clients, name, exclude);
    if m.rxActive {
      SameInbox(r.clients, r.clients, x, out);
    } else {
      if x in to {
        BoundBelieves(s, r, name, x);
        FitsTwo(Expected(m, x), RxStart(s.rules.busyMode), PttLock(DisplaySec(s)), out);
      }
      TellGrows(r.clients, to, BurstMessages(s), x, out);
    }
  }

  lemma FinishIdleGrows(s: Settings, r: Relay, name: string, x: uint32)
    requires Safe(s, r) && name in r.channels
    ensures var (m1, clients1) := FinishIdle(s, r.channels[name], r.clients, name);
            m1.leftOut == r.channels[name].leftOut
            && Grows(r.clients, clients1, x, x in Bound(r.clients, name, 0) && x == m1.leftOut)
  {
    hide Tell, Safe;
    var m := r.channels[name];
    var to, out := Bound(r.clients, name, 0), x in Bound(r.clients, name, 0) && x == m.leftOut;
    if !m.rxActive {
      SameInbox(r.clients, r.clients, x, out);
    } else {
      var messages := EndMessages(s, Unlocks(s, m));
      var end := RxEnd(EndDelay(s));
      if x in to {
        BoundBelieves(s, r, name, x);
        FitsTwo(Expected(m, x), end, PttUnlock, out);
        assert messages == if Unlocks(s, m) then [end, PttUnlock] else [end];
      }
      TellGrows(r.clients, to, messages, x, out);
    }
  }

  lemma BusyElapsedGrows(s: Settings, r: Relay, name: string, x: uint32)
    requires Safe(s, r) && name in r.channels
    ensures var (m1, clients1) := BusyElapsed(s, r.channels[name], r.clients);
            m1.leftOut == r.channels[name].leftOut
            && Grows(r.clients, clients1, x, x in Bound(r.clients, name, 0) && x == m1.leftOut)
  {
    var m := r.channels[name];
    var out := x in Bound(r.clients, name, 0) && x == m.leftOut;
    assert ChannelOk(s, r, name);
    hide Tell, Safe;
    if Unlocks(s, m) && s.rules.busyTimeout > 0 {
      if x in m.participants {
        BoundBelieves(s, r, name, x);
        FitsTwo(Expected(m, x), PttUnlock, PttUnlock, out);
      }
      TellGrows(r.clients, m.participants, [PttUnlock], x, out);
    } else {
      SameInbox(r.clients, r.clients, x, out);
    }
  }

  // ---------- A tick ----------

  lemma EmitFrameGrows(s: Settings, r: Relay, name: string, now: int, f: Frame, x: uint32, out: bool)
    requires Safe(s, r) && name in r.channels
    ensures Grows(r.clients, EmitFrame(s, r.channels[name], r.clients, name, now, f).1, x, out)
  {
    var m := r.channels[name];
    var exclude := Excluded(s, m, f.speakers, now);
    var m1 := Remember(s, m, now, f);
    SameInbox(r.clients, Broadcast(r.clients, name, exclude, f), x, out);
    hide NoteOutbound, Broadcast, Safe;
    RememberIsSafe(s, r, name, now, f);
    var r1 := Put(r, name, (m1, r.clients));
    BroadcastIsSafe(s, r1, name, exclude, f);
    var r2 := r1.(clients := Broadcast(r1.clients, name, exclude, f));
    NoteOutboundGrows(s, r2, name, now, exclude, x, out);
    BroadcastKeepsClients(r.clients, name, exclude, f);
    GrowsTwice(r.clients, r2.clients, NoteOutbound(s, m1, r2.clients, name, now, exclude).1, x, out);
  }

  lemma RememberIsSafe(s: Settings, r: Relay, name: string, now: int, f: Frame)
    requires Safe(s, r) && name in r.channels
    ensures Safe(s, Put(r, name, (Remember(s, r.channels[name], now, f), r.clients)))
    ensures |f.speakers| == 1 ==> Excluded(s, r.channels[name], f.speakers, now) == f.speakers[0]
  {
    SilentChangeIsSafe(s, r, name, Remember(s, r.channels[name], now, f));
  }

  lemma BroadcastKeepsClients(clients: map<uint32, Client>, name: string, except: uint32, f: Frame)
    ensures Broadcast(clients, name, except, f).Keys == clients.Keys
  {
  }

  lemma EmitKeepsBound(s: Settings, m: Mixer, clients: map<uint32, Client>, name: string, now: int, f: Frame)
    ensures var clients1 := EmitFrame(s, m, clients, name, now, f).1;
            clients1.Keys == clients.Keys && Bound(clients1, name, 0) == Bound(clients, name, 0)
  {
  }

  lemma ProbeIdleGrows(s: Settings, r: Relay, name: string, now: int, x: uint32)
    requires Safe(s, r) && name in r.channels
    ensures var (m1, clients1) := ProbeIdle(s, r.channels[name], r.clients, name, now);
            m1.leftOut == r.channels[name].leftOut
            && Grows(r.clients, clients1, x, x in Bound(r.clients, name, 0) && x == m1.leftOut)
  {
    hide FinishIdle, Safe;
    var m := r.channels[name];
    SameInbox(r.clients, r.clients, x, x in Bound(r.clients, name, 0) && x == m.leftOut);
    FinishIdleGrows(s, r, name, x);
  }

  lemma MixTickGrows(
    s: Settings, r: Relay, name: string, now: int, f: Frame, emits: bool, dropped: set<uint32>, x: uint32)
    requires Safe(s, r) && name in r.channels
    ensures var (m1, clients1) := MixTick(s, r.channels[name], r.clients, name, now, f, emits, dropped);
            Grows(r.clients, clients1, x, x in Bound(r.clients, name, 0) && x == m1.leftOut)
  {
    hide EmitFrame, ProbeIdle, G.Sweep, Safe, Grows;
    var m1 := NoteSpeakers(r.channels[name], f.speakers, now);
    NoteSpeakersIsSafe(s, r, name, f.speakers, now);
    var r1 := Put(r, name, (m1, r.clients));
    var local := if emits then EmitFrame(s, m1, r.clients, name, now, f) else (m1, r.clients);
    if emits {
      EmitFrameIsSafe(s, r1, name, now, f);
      PutPut(r, name, (m1, r.clients), local);
      EmitKeepsBound(s, m1, r.clients, name, now, f);
    }
    var r2 := Put(r, name, local);
    SweptIsSafe(s, r2, name, dropped);
    var swept := (Swept(local.0, dropped), local.1);
    PutPut(r, name, local, swept);
    var r3 := Put(r, name, swept);
    ProbeIdleGrows(s, r3, name, now, x);
    var last := ProbeIdle(s, swept.0, swept.1, name, now);
    var out := x in Bound(r.clients, name, 0) && x == last.0.leftOut;
    if emits {
      EmitFrameGrows(s, r1, name, now, f, x, out);
    } else {
      SameInbox(r.clients, r.clients, x, out);
    }
    GrowsTwice(r.clients, local.1, last.1, x, out);
  }

  // ---------- Voice ----------

  lemma NoticesFit(v: View, ruling: G.Ruling, out: bool)
    ensures Fits(v, NoticeMessages(ruling), out)
  {
    FitsTwo(v, TxCountdownStart, TxStop, out);
    FitsTwo(v, TxStop, TxStop, out);
    assert [TxCountdownStart] + [TxStop] == [TxCountdownStart, TxStop];
    assert [TxCountdownStart] + [] == [TxCountdownStart];
    assert [] + [TxStop] == [TxStop];
  }

  lemma TellKeepsBound(clients: map<uint32, Client>, to: set<uint32>, messages: seq<Message>, name: string)
    ensures Tell(clients, to, messages).Keys == clients.Keys
    ensures Bound(Tell(clients, to, messages), name, 0) == Bound(clients, name, 0)
  {
  }

  lemma AdmitGrows(s: Settings, r: Relay, name: string, session: uint32, now: int, x: uint32)
    requires Safe(s, r) && session in r.clients && r.clients[session].channel == name && name in r.channels
    ensures var (m1, clients1) := Admit(s, r.channels[name], r.clients, session, now);
            Grows(r.clients, clients1, x, x in Bound(r.clients, name, 0) && x == m1.leftOut)
  {
    hide G.Rule, B.TryAccept, BusyElapsed, NoticeMessages, Tell, Safe, Grows, Fits;
    var m := r.channels[name];
    var (gate, ruling) := G.Rule(s.transmitTimeout, m.gate, session, now);
    var clients1 := Tell(r.clients, {session}, NoticeMessages(ruling));
    var ruled := (m.(gate := gate), clients1);
    var out := x in Bound(r.clients, name, 0) && x == m.leftOut;
    RuledIsSafe(s, r, name, session, gate, ruling);
    TellKeepsBound(r.clients, {session}, NoticeMessages(ruling), name);
    if x in r.clients {
      NoticesFit(Fold(r.clients[x].inbox), ruling, out);
    }
    TellGrows(r.clients, {session}, NoticeMessages(ruling), x, out);
    if ruling.pass {
      var (hold, verdict, elapsed) := B.TryAccept(s.rules, m.hold, m.participants, session, now);
      HeldIsSafe(s, Put(r, name, ruled), name, hold);
      var held := (ruled.0.(hold := hold), ruled.1);
      PutPut(r, name, ruled, held);
      BusyElapsedGrows(s, Put(r, name, held), name, x);
      GrowsTwice(r.clients, clients1, BusyElapsed(s, held.0, clients1).1, x, out);
    }
  }

  // ---------- Joining ----------

  lemma JoinedGrows(s: Settings, r: Relay, session: uint32, name: string, x: uint32, out: bool)
    requires Safe(s, r) && session in r.clients && r.clients[session].channel == "" && name != ""
    ensures Grows(r.clients, Joined(s, r, session, name).clients, x, out)
  {
    hide Grows;
    var m := AddParticipant(MixerAt(r, name), session);
    var r1 := Joined(s, r, session, name);
    if x == session {
      assert ClientOk(r, session);
      FitsTwo(UNAWARE, RxStart(s.rules.busyMode), PttLock(m.lockSec), out);
      FitsTwo(UNAWARE, PttLock(m.lockSec), PttLock(m.lockSec), out);
      var a, b := RxStart(s.rules.busyMode), PttLock(m.lockSec);
      assert SyncMessages(s, m)
          == if m.rxActive then (if m.locked then [a, b] else [a]) else if m.locked then [b] else [];
      InboxGrows(r.clients[session].inbox, SyncMessages(s, m), out);
      GrowsBy(r.clients, r1.clients, x, SyncMessages(s, m), out);
    } else {
      SameInbox(r.clients, r1.clients, x, out);
    }
  }

  lemma GrowsBy(a: map<uint32, Client>, b: map<uint32, Client>, x: uint32, messages: seq<Message>, out: bool)
    requires x in a && x in b && b[x].inbox == a[x].inbox + messages && Fits(Fold(a[x].inbox), messages, out)
    ensures Grows(a, b, x, out)
  {
    InboxGrows(a[x].inbox, messages, out);
  }

  lemma BindGrows(s: Settings, r: Relay, session: uint32, name: string, now: int, x: uint32, out: bool)
    requires Safe(s, r) && session in r.clients && r.clients[session].channel == "" && name != ""
    ensures Grows(r.clients, Sync(s, SwitchChannel(s, r, session, name, now), session).clients, x, out)
  {
    hide SwitchChannel, Sync, Safe, Grows;
    BindIsJoin(s, r, session, name, now);
    JoinedGrows(s, r, session, name, x, out);
    var r1 := Joined(s, r, session, name);
    var clients2 := SendLatest(s, r1.channels[name], r1.clients, session, now);
    SameInbox(r1.clients, clients2, x, out);
    GrowsTwice(r.clients, r1.clients, clients2, x, out);
  }

  // ---------- Every step of every run ----------

  /** The one whom the last burst in the client's channel has left out, as its speaker. */
  predicate LeftOut(r: Relay, x: uint32)
    requires x in r.clients
  {
    x == MixerAt(r, r.clients[x].channel).leftOut
  }

  lemma QuietGrows(r: Relay, r1: Relay, x: uint32, out: bool)
    requires x in r.clients && x in r1.clients ==> r1.clients[x].inbox == r.clients[x].inbox
    ensures Grows(r.clients, r1.clients, x, out)
  {
    SameInbox(r.clients, r1.clients, x, out);
  }

  lemma VoiceGrows(s: Settings, r: Relay, session: uint32, at: int, x: uint32)
    requires Safe(s, r) && session in r.clients && x in r.clients
    ensures var r1 := Step(s, r, Voice(session, at));
            x in r1.clients && Grows(r.clients, r1.clients, x, LeftOut(r1, x))
  {
    hide Admit, Safe, Grows;
    var r1 := Punched(r, session);
    PunchedIsSafe(s, r, session);
    var name := r1.clients[session].channel;
    var r2 := Step(s, r, Voice(session, at));
    assert r1.clients[x].inbox == r.clients[x].inbox;
    if name == "" {
      QuietGrows(r, r2, x, LeftOut(r2, x));
    } else {
      AdmitGrows(s, r1, name, session, at, x);
      AdmitKeepsBound(s, r1, name, session, at);
      var out := x in Bound(r1.clients, name, 0) && x == r2.channels[name].leftOut;
      QuietGrows(r, r1, x, out);
      GrowsTwice(r.clients, r1.clients, r2.clients, x, out);
      if x !in Bound(r1.clients, name, 0) {
        UntouchedByAdmit(s, r1, name, session, at, x);
        QuietGrows(r, r2, x, LeftOut(r2, x));
      }
    }
  }

  lemma AdmitKeepsBound(s: Settings, r: Relay, name: string, session: uint32, now: int)
    requires Safe(s, r) && name in r.channels
    ensures var clients1 := Admit(s, r.channels[name], r.clients, session, now).1;
            clients1.Keys == r.clients.Keys
            && forall x :: x in clients1 ==> clients1[x].channel == r.clients[x].channel
  {
    hide Tell, NoticeMessages, G.Rule, B.TryAccept;
    var m := r.channels[name];
    var ruling := G.Rule(s.transmitTimeout, m.gate, session, now).1;
    var clients1 := Tell(r.clients, {session}, NoticeMessages(ruling));
    TellKeepsChannels(r.clients, {session}, NoticeMessages(ruling));
    TellKeepsChannels(clients1, m.participants, [PttUnlock]);
  }

  lemma TellKeepsChannels(clients: map<uint32, Client>, to: set<uint32>, messages: seq<Message>)
    ensures var clients1 := Tell(clients, to, messages);
            clients1.Keys == clients.Keys && forall x :: x in clients1 ==> clients1[x].channel == clients[x].channel
  {
  }

  lemma UntouchedByAdmit(s: Settings, r: Relay, name: string, session: uint32, now: int, x: uint32)
    requires Safe(s, r) && session in r.clients && r.clients[session].channel == name && name in r.channels
    requires x in r.clients && x !in Bound(r.clients, name, 0)
    ensures var clients1 := Admit(s, r.channels[name], r.clients, session, now).1;
            x in clients1 && clients1[x].inbox == r.clients[x].inbox
  {
    assert ChannelOk(s, r, name);
  }

  lemma UntouchedByTick(
    s: Settings, m: Mixer, clients: map<uint32, Client>, name: string, now: int, f: Frame, emits: bool,
    dropped: set<uint32>, x: uint32)
    requires x in clients
    ensures var clients1 := MixTick(s, m, clients, name, now, f, emits, dropped).1;
            && x in clients1 && clients1[x].channel == clients[x].channel
            && (x !in Bound(clients, name, 0) ==> clients1[x].inbox == clients[x].inbox)
  {
    hide EmitFrame, ProbeIdle;
    var m1 := NoteSpeakers(m, f.speakers, now);
    var (m2, clients2) := if emits then EmitFrame(s, m1, clients, name, now, f) else (m1, clients);
    UntouchedByEmit(s, m1, clients, name, now, f, x);
    UntouchedByProbe(s, Swept(m2, dropped), clients2, name, now, x);
  }

  lemma UntouchedByEmit(
    s: Settings, m: Mixer, clients: map<uint32, Client>, name: string, now: int, f: Frame, x: uint32)
    requires x in clients
    ensures var clients1 := EmitFrame(s, m, clients, name, now, f).1;
            && x in clients1 && clients1[x].channel == clients[x].channel
            && (x !in Bound(clients, name, 0) ==> clients1[x].inbox == clients[x].inbox)
  {
  }

  lemma UntouchedByProbe(s: Settings, m: Mixer, clients: map<uint32, Client>, name: string, now: int, x: uint32)
    requires x in clients
    ensures var clients1 := ProbeIdle(s, m, clients, name, now).1;
            && x in clients1 && clients1[x].channel == clients[x].channel
            && (x !in Bound(clients, name, 0) ==> clients1[x].inbox == clients[x].inbox)
  {
  }

  lemma TickGrows(s: Settings, r: Relay, e: Event, x: uint32)
    requires Safe(s, r) && e.Tick? && Possible(r, e) && x in r.clients
    ensures x in Step(s, r, e).clients && Grows(r.clients, Step(s, r, e).clients, x, LeftOut(Step(s, r, e), x))
  {
    hide MixTick, Safe, Grows;
    var r1 := Step(s, r, e);
    UntouchedByTick(s, r.channels[e.name], r.clients, e.name, e.at, e.frame, e.emits, e.dropped, x);
    if x in Bound(r.clients, e.name, 0) {
      MixTickGrows(s, r, e.name, e.at, e.frame, e.emits, e.dropped, x);
    } else {
      QuietGrows(r, r1, x, LeftOut(r1, x));
    }
  }

  lemma StepGrows(s: Settings, r: Relay, e: Event, x: uint32)
    requires Safe(s, r) && Possible(r, e) && x in r.clients && x in Step(s, r, e).clients
    ensures Grows(r.clients, Step(s, r, e).clients, x, LeftOut(Step(s, r, e), x))
  {
    hide MixTick, Admit, Safe, Sync, SwitchChannel, Grows;
    var r1 := Step(s, r, e);
    match e {
      case Bind(session, name, at) => BindGrows(s, r, session, name, at, x, LeftOut(r1, x));
      case Voice(session, at) =>
        if session in r.clients {
          VoiceGrows(s, r, session, at, x);
        } else {
          QuietGrows(r, r1, x, LeftOut(r1, x));
        }
      case Tick(_, _, _, _, _) => TickGrows(s, r, e, x);
      case _ => QuietGrows(r, r1, x, LeftOut(r1, x));
    }
  }

  /**
   Message by message, on every run: a step only appends to the inbox of a client that stays; no lock among the
   new messages finds the client locked; and an unlock finds it unlocked if and only if the burst that it ends, or
   whose lock it lifts, has left the client out as its speaker.
   */
  lemma {:induction false} InboxLocksArePaired(s: Settings, es: seq<Event>, e: Event, session: uint32, i: nat)
    requires PossibleRun(s, EMPTY, es) && Possible(Run(s, EMPTY, es), e)
    requires var r, r1 := Run(s, EMPTY, es), Step(s, Run(s, EMPTY, es), e);
             && session in r.clients && session in r1.clients
             && |r.clients[session].inbox| <= i < |r1.clients[session].inbox|
    ensures var r, r1 := Run(s, EMPTY, es), Step(s, Run(s, EMPTY, es), e);
            var inbox := r1.clients[session].inbox;
            var believed := Fold(inbox[..i]);
            && r.clients[session].inbox <= inbox
            && (inbox[i].PttLock? ==> !believed.locked)
            && (inbox[i].PttUnlock? ==> (!believed.locked <==> LeftOut(r1, session)))
  {
    hide Run, Step, Safe, Fits;
    EveryRunIsSafe(s, es);
    var r := Run(s, EMPTY, es);
    var r1 := Step(s, r, e);
    StepGrows(s, r, e, session);
    var before, inbox := r.clients[session].inbox, r1.clients[session].inbox;
    var news := inbox[|before|..];
    FitsAt(Fold(before), news, LeftOut(r1, session), i - |before|);
    assert inbox[..i] == before + news[..i - |before|];
    FoldAppend(before, news[..i - |before|]);
  }
}
