/**
 A reachable relay in which a mixer panic, or a lost connection, leaves a client locked that no lock is held for.
 */
module RelayTraps {
  import opened Packets
  import B = BusyArbiter
  import opened RelayModel
  import opened RelaySafety
  import C = ClientSession

  const ROOM: string := "a"

  /** Two clients join a channel, and the first one is heard. */
  const TALK: seq<Event> :=
    [Connect(1), Connect(2), Bind(1, ROOM, 10), Bind(2, ROOM, 11), Tick(ROOM, 20, Frame([1], 1), true, {})]

  function Fresh(name: string): Client
  {
    Client(name, false, false, [], [])
  }

  function Clients(first: string, second: string): map<uint32, Client>
  {
    map[1 := Fresh(first), 2 := Fresh(second)]
  }

  function Quiet(members: set<uint32>): Mixer
  {
    NEW_MIXER.(participants := members)
  }

  lemma TwoConnect(s: Settings)
    ensures Possible(EMPTY, Connect(1)) && Possible(Step(s, EMPTY, Connect(1)), Connect(2))
    ensures Step(s, Step(s, EMPTY, Connect(1)), Connect(2)) == Relay(Clients("", ""), map[])
  {
  }

  /** In a quiet channel nothing is caught up with and nothing is told. */
  lemma QuietJoin(s: Settings, r: Relay, session: uint32, at: int)
    requires session in r.clients && r.clients[session] == Fresh("")
    requires MixerAt(r, ROOM) == Quiet(MixerAt(r, ROOM).participants)
    ensures Sync(s, SwitchChannel(s, r, session, ROOM, at), session)
            == Relay(r.clients[session := Fresh(ROOM)],
                     r.channels[ROOM := Quiet(MixerAt(r, ROOM).participants + {session})])
  {
    var m := Quiet(MixerAt(r, ROOM).participants + {session});
    assert SyncMessages(s, m) == [];
    assert Told(Fresh(ROOM), []) == Fresh(ROOM);
    var left := Sync(s, SwitchChannel(s, r, session, ROOM, at), session);
    assert left.channels == r.channels[ROOM := m];
    assert left.clients == r.clients[session := Fresh(ROOM)];
  }

  function Joined(): Relay
  {
    Relay(Clients(ROOM, ROOM), map[ROOM := Quiet({1, 2})])
  }

  lemma TwoJoin(s: Settings)
    ensures var r2 := Relay(Clients("", ""), map[]);
            var r3 := Relay(Clients(ROOM, ""), map[ROOM := Quiet({1})]);
            && Possible(r2, TALK[2]) && Step(s, r2, TALK[2]) == r3
            && Possible(r3, TALK[3]) && Step(s, r3, TALK[3]) == Joined()
  {
    hide Sync, SwitchChannel;
    var r2, r3 := Relay(Clients("", ""), map[]), Relay(Clients(ROOM, ""), map[ROOM := Quiet({1})]);
    QuietJoin(s, r2, 1, 10);
    assert r2.clients[1 := Fresh(ROOM)] == r3.clients && {} + {1} == {1};
    assert r2.channels[ROOM := Quiet({1})] == r3.channels;
    QuietJoin(s, r3, 2, 11);
    assert r3.clients[2 := Fresh(ROOM)] == Joined().clients && {1} + {2} == {1, 2};
    assert r3.channels[ROOM := Quiet({1, 2})] == Joined().channels;
  }

  lemma FirstIsHeard(s: Settings)
    requires s.rules.busyMode && s.eofTimeout > 0
    ensures Possible(Joined(), TALK[4])
    ensures var r := Step(s, Joined(), TALK[4]);
            && ROOM in r.channels && r.channels[ROOM].locked && r.channels[ROOM].rxActive
            && r.channels[ROOM].leftOut == 1
            && 2 in r.clients && r.clients[2].channel == ROOM
  {
    hide Bound, BurstMessages, DisplaySec;
  }

  lemma {:induction false} Reached(s: Settings)
    requires s.rules.busyMode && s.eofTimeout > 0
    ensures PossibleRun(s, EMPTY, TALK) && Run(s, EMPTY, TALK) == Step(s, Joined(), TALK[4])
  {
    hide Step, Possible;
    TwoConnect(s);
    TwoJoin(s);
    FirstIsHeard(s);
    var r1 := Step(s, EMPTY, TALK[0]);
    var r2, r3 := Relay(Clients("", ""), map[]), Relay(Clients(ROOM, ""), map[ROOM := Quiet({1})]);
    var t1, t2, t3, t4 := TALK[1..], TALK[2..], TALK[3..], TALK[4..];
    assert t1[1..] == t2 && t2[1..] == t3 && t3[1..] == t4 && t4[1..] == [];
    assert PossibleRun(s, Joined(), t4) && Run(s, Joined(), t4) == Step(s, Joined(), TALK[4]);
    assert PossibleRun(s, r3, t3) && Run(s, r3, t3) == Run(s, Joined(), t4);
    assert PossibleRun(s, r2, t2) && Run(s, r2, t2) == Run(s, r3, t3);
    assert PossibleRun(s, r1, t1) && Run(s, r1, t1) == Run(s, r2, t2);
  }

  /** The second client then believes the channel locked, and rightly so. */
  lemma SecondIsLocked(s: Settings)
    requires s.rules.busyMode && s.eofTimeout > 0
    ensures PossibleRun(s, EMPTY, TALK)
    ensures var r := Run(s, EMPTY, TALK);
            && ROOM in r.channels && r.channels[ROOM].locked && 2 in r.clients && r.clients[2].channel == ROOM
            && Fold(r.clients[2].inbox).locked
  {
    hide Run, PossibleRun, Step;
    Reached(s);
    FirstIsHeard(s);
    ClientsAgree(s, TALK, 2);
  }

  /** A panic now clears the server's lock, and the client goes on believing in it. */
  lemma PanicMisleads(s: Settings)
    requires s.rules.busyMode && s.eofTimeout > 0
    ensures PossibleRun(s, EMPTY, TALK)
    ensures var r := Run(s, EMPTY, TALK);
            var r1 := Panic(r, ROOM);
            && ROOM in r1.channels && !r1.channels[ROOM].locked
            && 2 in r1.clients && r1.clients[2].channel == ROOM && Fold(r1.clients[2].inbox).locked
            && !Agrees(r1, ROOM)
  {
    hide Run, PossibleRun, Step;
    SecondIsLocked(s);
    var r1 := Panic(Run(s, EMPTY, TALK), ROOM);
    assert 2 in Bound(r1.clients, ROOM, 0);
    assert Fold(r1.clients[2].inbox).locked && !Expected(MixerAt(r1, ROOM), 2).locked;
  }

  function Taken(inbox: seq<Message>): seq<C.Happening>
    decreases inbox
  {
    if inbox == [] then [] else [C.Arrived(inbox[0])] + Taken(inbox[1..])
  }

  lemma {:induction false} TakenIsInbox(inbox: seq<Message>)
    ensures C.Inbox(Taken(inbox)) == inbox && forall h :: h in Taken(inbox) ==> C.KeepsView(h)
    decreases inbox
  {
    if inbox == [] {
    } else {
      TakenIsInbox(inbox[1..]);
      assert Taken(inbox)[1..] == Taken(inbox[1..]) && Taken(inbox)[0] == C.Arrived(inbox[0]);
      assert [inbox[0]] + inbox[1..] == inbox;
    }
  }

  lemma Reconnects(c: C.State)
    requires c.pttServerLocked
    ensures var c1 := C.Next(C.Next(C.Next(c, C.ConnectionLost), C.TransportConnected), C.Connected);
            c1.connected && !c1.receiving && c1.pttServerLocked
  {
  }

  /** If its connection is lost now, the client comes back connected and still shows the old connection's lock. */
  lemma LostStaysLocked(s: Settings)
    requires s.rules.busyMode && s.eofTimeout > 0
    ensures PossibleRun(s, EMPTY, TALK) && 2 in Run(s, EMPTY, TALK).clients
    ensures var c := C.After(C.START, Taken(Run(s, EMPTY, TALK).clients[2].inbox));
            var c1 := C.Next(C.Next(C.Next(c, C.ConnectionLost), C.TransportConnected), C.Connected);
            c1.connected && !c1.receiving && c1.pttServerLocked
  {
    hide Run, PossibleRun, Step, C.Next, C.After;
    SecondIsLocked(s);
    var inbox := Run(s, EMPTY, TALK).clients[2].inbox;
    TakenIsInbox(inbox);
    C.StateIsFold(Taken(inbox));
    Reconnects(C.After(C.START, Taken(inbox)));
  }
}
