/**
 From the client's queue to the relay's mixer: what a speaker plays is what the client sent, whatever the
 transmissions, the queues, the ticks and the forced starts.
 */
module EndToEnd {
  import opened Packets
  import opened UdpCodec
  import opened JitterModel
  import opened JitterOrder
  import opened JitterLedger
  import opened JitterInOrder
  import opened SpeakerModel
  import opened SpeakerFlow
  import opened SpeakerDrain
  import opened SpeakerLosses
  import T = TxModel
  import opened TxTheory
  import opened RelayPath

  // ---------- The numbers ----------

  lemma {:induction false} AudioIsNumbered(sessionId: uint32, sent: seq<T.Sent>, from: nat)
    requires Numbered(sent, from) && from + |sent| < TOP
    ensures FollowsOn(AudioOf(sessionId, sent), from)
    decreases |sent|
  {
    if sent != [] {
      var rest := sent[1..];
      assert forall i :: 0 <= i < |rest| ==> rest[i] == sent[i + 1];
      AudioIsNumbered(sessionId, rest, from + 1);
      if sent[0].Audio? {
        PrependLeast(ToPacket(sessionId, sent[0]), AudioOf(sessionId, rest));
      }
    }
  }

  // ---------- The whole path ----------

  lemma ItemDelivers(t: T.Tx, enc: T.Encoder, item: T.Item)
    requires Ready(t) && GoodEncoder(enc) && FitsDatagram(item)
    requires t.counter + |T.Process(t, enc, item).1| + T.EOF_BURST < TWO32
    ensures forall s :: s in T.Process(t, enc, item).1 ==> Deliverable(s)
  {
    ItemNumbers(t, enc, item);
    ItemFits(t, enc, item);
  }

  lemma {:induction false} FlushFits(t: T.Tx, enc: T.Encoder)
    requires Ready(t) && GoodEncoder(enc)
    ensures forall s :: s in T.Flush(t, enc).1 ==> s.Audio? && 1 <= |s.payload| <= MAX_FRAME
    decreases |t.buffer|
  {
    if t.buffer != [] {
      FlushStep(t, enc);
      var left := if |t.buffer| < t.frame then [] else t.buffer[t.frame..];
      var t2 := t.(buffer := left, counter := Add32(t.counter, 1));
      FlushFits(t2, enc);
    }
  }

  lemma {:induction false} MarksFit(t: T.Tx, n: nat)
    ensures forall s :: s in T.SendEofs(t, n).1 ==> s.EofMark?
    decreases n
  {
    if n > 0 && !t.stopRequested {
      MarksFit(T.SendEof(t).0, n - 1);
    }
  }

  lemma EndFits(t: T.Tx, enc: T.Encoder)
    requires Ready(t) && GoodEncoder(enc)
    ensures forall s :: s in T.TxEnd(t, enc).1 && s.Audio? ==> 1 <= |s.payload| <= MAX_FRAME
  {
    FlushFits(t, enc);
    var t1 := T.Flush(t, enc).0.(buffer := [], open := false);
    MarksFit(t1.(buffer := []), T.EOF_BURST);
  }

  lemma ItemFits(t: T.Tx, enc: T.Encoder, item: T.Item)
    requires Ready(t) && GoodEncoder(enc) && FitsDatagram(item)
    ensures forall s :: s in T.Process(t, enc, item).1 && s.Audio? ==> 1 <= |s.payload| <= RECEIVE_BUFFER - HEADER
  {
    EndFits(t, enc);
    FlushFits(t, enc);
  }

  lemma {:induction false} RunDelivers(t: T.Tx, enc: T.Encoder, items: seq<T.Item>)
    requires Ready(t) && GoodEncoder(enc) && (forall item :: item in items ==> FitsDatagram(item))
    requires t.counter + |T.ProcessAll(t, enc, items).1| + T.EOF_BURST < TWO32
    ensures forall s :: s in T.ProcessAll(t, enc, items).1 ==> Deliverable(s)
    decreases items
  {
    if items != [] {
      var (t1, out) := T.Process(t, enc, items[0]);
      assert items[0] in items;
      var rest := items[1..];
      ItemNumbers(t, enc, items[0]);
      ItemDelivers(t, enc, items[0]);
      RunDelivers(t1, enc, rest);
    }
  }

  /** A client that can send, fresh or after earlier transmissions, whose numbers stay below the last ones. */
  ghost predicate GoodRun(t: T.Tx, enc: T.Encoder, items: seq<T.Item>)
  {
    && Ready(t) && GoodEncoder(enc)
    && (forall item :: item in items ==> FitsDatagram(item))
    && t.counter + |T.ProcessAll(t, enc, items).1| + T.EOF_BURST < TOP
  }

  /** The audio that the client's queue items put on the wire. */
  ghost function SentAudio(t: T.Tx, enc: T.Encoder, items: seq<T.Item>): seq<AudioPacket>
  {
    AudioOf(t.sessionId, T.ProcessAll(t, enc, items).1)
  }

  /** Everything that the client sends is in flight, and the queues are empty. */
  ghost function Launched(t: T.Tx, enc: T.Encoder, items: seq<T.Item>): Path
    requires GoodRun(t, enc, items)
  {
    RunDelivers(t, enc, items);
    Path(Wire(t.sessionId, T.ProcessAll(t, enc, items).1), [], 0)
  }

  /** The events of the relay's speaker for a client run and a schedule of moves. */
  ghost function RelayEvents(t: T.Tx, enc: T.Encoder, items: seq<T.Item>, moves: seq<Move>): seq<Event>
    requires GoodRun(t, enc, items)
  {
    AllEvents(Launched(t, enc, items), moves)
  }

  lemma LaunchedHoldsAudio(t: T.Tx, enc: T.Encoder, items: seq<T.Item>)
    requires GoodRun(t, enc, items)
    ensures Pending(Launched(t, enc, items)) == SentAudio(t, enc, items)
    ensures FollowsOn(SentAudio(t, enc, items), t.counter) && FollowsOn(SentAudio(t, enc, items), -1)
  {
    var sent := T.ProcessAll(t, enc, items).1;
    RunDelivers(t, enc, items);
    RunNumbers(t, enc, items);
    AudioIsNumbered(t.sessionId, sent, t.counter);
    WireHoldsAudio(t.sessionId, sent);
    Ends(AudioOf(t.sessionId, sent));
  }

  /** In order in any case; and all of what is no longer on the way, if nothing was missed. */
  lemma RelayHears(t: T.Tx, enc: T.Encoder, items: seq<T.Item>, moves: seq<Move>)
    requires GoodRun(t, enc, items)
    ensures var q, arrived := Launched(t, enc, items), Arrivals(RelayEvents(t, enc, items, moves));
            && FollowsOn(arrived, -1)
            && (forall p :: p in arrived ==> p in SentAudio(t, enc, items))
            && (AllMissed(q, moves) == [] ==> arrived + Pending(PathAfter(q, moves)) == SentAudio(t, enc, items))
  {
    hide Pending, AllMissed, PathAfter, AllEvents, FollowsOn;
    var q := Launched(t, enc, items);
    LaunchedHoldsAudio(t, enc, items);
    PathInOrder(q, moves, -1);
    if AllMissed(q, moves) == [] {
      PathConserves(q, moves);
    }
  }

  /**
   End to end: any number of transmissions, and every schedule in which the mixer takes packets and markers from
   its queues, ticks, and is forced to start at any moment. If no audio is missed on the way, the mixer's ticks
   come in time and nothing is trimmed, the packets played so far are a prefix of the audio sent.
   */
  lemma {:induction false} PlayedIsPrefixOfSent(
    c: Timing, t: T.Tx, enc: T.Encoder, items: seq<T.Item>, moves: seq<Move>)
    requires ValidTiming(c) && GoodRun(t, enc, items) && AllMissed(Launched(t, enc, items), moves) == []
    requires Attended(c, RelayEvents(t, enc, items, moves))
    requires Untrimmed(c, SILENT, RelayEvents(t, enc, items, moves))
    ensures Popped(RunAll(c, SILENT, RelayEvents(t, enc, items, moves)).1) <= SentAudio(t, enc, items)
  {
    hide RelayEvents, Launched, AllMissed, SentAudio, Pending, FollowsOn, Attended, Untrimmed;
    RelayHears(t, enc, items, moves);
    PlayedIsPrefixOfArrived(c, RelayEvents(t, enc, items, moves));
  }

  /**
   Without a word about the ticks: if no audio is missed on the way and nothing is trimmed, what has been played,
   what waits and what is still on the way are the audio sent, in order, if and only if no packet came upon
   leftovers and no clean-up forgot a packet that waited.
   */
  lemma {:induction false} SentIsAccountedForIff(
    c: Timing, t: T.Tx, enc: T.Encoder, items: seq<T.Item>, moves: seq<Move>)
    requires ValidTiming(c) && GoodRun(t, enc, items) && AllMissed(Launched(t, enc, items), moves) == []
    requires Untrimmed(c, SILENT, RelayEvents(t, enc, items, moves))
    ensures var es := RelayEvents(t, enc, items, moves);
            var (s, outs) := RunAll(c, SILENT, es);
            && Keyed(JitterOf(c, s).packets)
            && (Popped(outs) + Sorted(JitterOf(c, s).packets) + Pending(PathAfter(Launched(t, enc, items), moves))
                == SentAudio(t, enc, items)
                <==> Undisturbed(c, SILENT, es))
  {
    hide RelayEvents, Launched, AllMissed, SentAudio, Pending, PathAfter, FollowsOn, Untrimmed, Undisturbed, RunAll;
    var es := RelayEvents(t, enc, items, moves);
    RelayHears(t, enc, items, moves);
    KeepsAllIff(c, es);
    var (s, outs) := RunAll(c, SILENT, es);
    SameBefore(Popped(outs) + Sorted(JitterOf(c, s).packets), Arrivals(es),
               Pending(PathAfter(Launched(t, enc, items), moves)));
  }

  lemma SameBefore<X>(a: seq<X>, b: seq<X>, c: seq<X>)
    ensures a + c == b + c <==> a == b
  {
    if a + c == b + c {
      assert |a + c| == |a| + |c| && |b + c| == |b| + |c|;
      assert a == (a + c)[..|a|] && b == (b + c)[..|b|];
    }
  }

  /** All datagrams have come in, and the mixer has taken all packets. */
  predicate Arrived(q: Path)
  {
    q.wire == [] && q.input == []
  }

  lemma AllHeard(t: T.Tx, enc: T.Encoder, items: seq<T.Item>, moves: seq<Move>)
    requires GoodRun(t, enc, items)
    requires AllMissed(Launched(t, enc, items), moves) == [] && Arrived(PathAfter(Launched(t, enc, items), moves))
    ensures FollowsOn(Arrivals(RelayEvents(t, enc, items, moves)), -1)
    ensures Arrivals(RelayEvents(t, enc, items, moves)) == SentAudio(t, enc, items)
  {
    hide RelayEvents, Launched, AllMissed, SentAudio, FollowsOn, PathAfter;
    RelayHears(t, enc, items, moves);
    var q := PathAfter(Launched(t, enc, items), moves);
    assert AudioIn(q.wire) == [] && Pending(q) == [] + [];
    Ends(Arrivals(RelayEvents(t, enc, items, moves)));
  }

  /**
   Once everything has arrived, a forced start and at least as many good ticks as packets wait complete it: the
   packets played are then exactly the audio sent, in order.
   */
  lemma {:induction false} AllSentIsPlayed(
    c: Timing, t: T.Tx, enc: T.Encoder, items: seq<T.Item>, moves: seq<Move>, at: int, ticks: seq<Event>)
    requires ValidTiming(c) && GoodRun(t, enc, items)
    requires AllMissed(Launched(t, enc, items), moves) == [] && Arrived(PathAfter(Launched(t, enc, items), moves))
    requires Attended(c, RelayEvents(t, enc, items, moves))
    requires Untrimmed(c, SILENT, RelayEvents(t, enc, items, moves))
    requires GoodTicks(ticks) && |ticks| >= Waiting(c, RelayEvents(t, enc, items, moves))
    ensures Popped(RunAll(c, SILENT, RelayEvents(t, enc, items, moves) + ([Marker(at)] + ticks)).1)
            == SentAudio(t, enc, items)
  {
    hide RelayEvents, Launched, AllMissed, SentAudio, FollowsOn, Arrived, Attended, Untrimmed;
    AllHeard(t, enc, items, moves);
    MarkerAndTicksPlayAll(c, RelayEvents(t, enc, items, moves), at, ticks);
  }

  /**
   No marker is needed at all when the ticks begin more than a packet time after the last packet, or when the
   buffer has started: enough of them complete it, as long as nothing is trimmed to the end.
   */
  lemma {:induction false} TicksAloneComplete(
    c: Timing, t: T.Tx, enc: T.Encoder, items: seq<T.Item>, moves: seq<Move>, ticks: seq<Event>)
    requires ValidTiming(c) && GoodRun(t, enc, items)
    requires AllMissed(Launched(t, enc, items), moves) == [] && Arrived(PathAfter(Launched(t, enc, items), moves))
    requires Attended(c, RelayEvents(t, enc, items, moves))
    requires Untrimmed(c, SILENT, RelayEvents(t, enc, items, moves) + ticks)
    requires GoodTicks(ticks) && |ticks| >= Waiting(c, RelayEvents(t, enc, items, moves))
    requires Drains(c, RunAll(c, SILENT, RelayEvents(t, enc, items, moves)).0, ticks)
    ensures Popped(RunAll(c, SILENT, RelayEvents(t, enc, items, moves) + ticks).1) == SentAudio(t, enc, items)
  {
    hide RelayEvents, Launched, AllMissed, SentAudio, FollowsOn, Arrived, Drains, Attended, Untrimmed;
    AllHeard(t, enc, items, moves);
    EnoughTicksPlayAll(c, RelayEvents(t, enc, items, moves), ticks);
  }

  /** Even with packets missed on the way and lost in the speaker, what is played was sent, and is in sending order. */
  lemma {:induction false} PlayedKeepsOrderAnyway(
    c: Timing, t: T.Tx, enc: T.Encoder, items: seq<T.Item>, moves: seq<Move>)
    requires ValidTiming(c) && GoodRun(t, enc, items)
    ensures Increasing(Popped(RunAll(c, SILENT, RelayEvents(t, enc, items, moves)).1))
    ensures forall p :: p in Popped(RunAll(c, SILENT, RelayEvents(t, enc, items, moves)).1)
                        ==> p in SentAudio(t, enc, items)
  {
    hide RelayEvents, SentAudio, FollowsOn, RunAll;
    var es := RelayEvents(t, enc, items, moves);
    RelayHears(t, enc, items, moves);
    var popped := Popped(RunAll(c, SILENT, es).1);
    PlayedIsOrderedAnyway(c, es, AudioPacket(0, 0, 0, []));
    forall p | p in popped ensures p in SentAudio(t, enc, items) {
      PlayedIsOrderedAnyway(c, es, p);
      assert multiset(popped)[p] > 0;
      assert p in Arrivals(es);
    }
  }

  // ---------- The client's own markers ----------

  /** Nothing is lost or dropped, and a marker is taken when no packet is queued before it: none is overtaken. */
  predicate Orderly(q: Path, m: Move)
  {
    && !(m.Lose? || m.DropPacket? || m.DropMark?)
    && (m.TakeMark? ==> q.input == [])
  }

  predicate AllOrderly(q: Path, moves: seq<Move>)
    decreases moves
  {
    moves != [] ==> Orderly(q, moves[0]) && AllOrderly(Advance(q, moves[0]), moves[1..])
  }

  /** A marker is still to come after all packets; or everything has come, and the buffer flows. */
  predicate Ending(c: Timing, q: Path, s: Speaker)
  {
    || (q.wire != [] && Received(q.wire[|q.wire| - 1]) == Mark)
    || (q.wire == [] && q.marks > 0)
    || (q.wire == [] && q.marks == 0 && q.input == [] && Flowing(JitterOf(c, s)))
  }

  lemma EndingStays(c: Timing, q: Path, m: Move, s: Speaker)
    requires Ending(c, q, s) && Orderly(q, m)
    ensures Ending(c, Advance(q, m), RunAll(c, s, Events(q, m)).0)
    ensures |Events(q, m)| <= 1
  {
    hide Received, JitterOf, Flowing, Next;
    var es := Events(q, m);
    OneOrNone(c, s, es);
    match m {
      case Deliver =>
        if |q.wire| > 1 {
          assert q.wire[1..][|q.wire| - 2] == q.wire[|q.wire| - 1];
        }
      case TakePacket(at) =>
      case TakeMark(at) =>
        if q.marks > 0 {
          MarkerLets(c, s, at);
        }
      case Force(at) => MarkerLets(c, s, at);
      case MixerTick(at, decoded, present) =>
        if Flowing(JitterOf(c, s)) {
          FlowStays(c, s, Tick(at, decoded, present));
        }
    }
  }

  lemma MarkerLets(c: Timing, s: Speaker, at: int)
    ensures Flowing(JitterOf(c, Next(c, s, Marker(at)).0))
  {
    MarkerFlows(c, s, at);
  }

  lemma OneOrNone(c: Timing, s: Speaker, es: seq<Event>)
    requires |es| <= 1
    ensures RunAll(c, s, es).0 == if es == [] then s else Next(c, s, es[0]).0
  {
    hide Next;
    if es != [] {
      assert es[1..] == [];
    }
  }

  lemma {:induction false} OrderlyRunEnds(c: Timing, q: Path, moves: seq<Move>, s: Speaker)
    requires Ending(c, q, s) && AllOrderly(q, moves)
    ensures Ending(c, PathAfter(q, moves), RunAll(c, s, AllEvents(q, moves)).0)
    ensures AllMissed(q, moves) == []
    decreases moves
  {
    hide Advance, Events, Ending, RunAll;
    if moves == [] {
      OneOrNone(c, s, []);
    } else {
      var q1, rest, es := Advance(q, moves[0]), moves[1..], Events(q, moves[0]);
      var s1 := RunAll(c, s, es).0;
      EndingStays(c, q, moves[0], s);
      OrderlyRunEnds(c, q1, rest, s1);
      RunAllAppend(c, s, es, AllEvents(q1, rest));
    }
  }

  // ---------- A closed transmission ends with markers ----------

  lemma {:induction false} ProcessKeepsStop(t: T.Tx, enc: T.Encoder, items: seq<T.Item>, last: T.Item)
    ensures T.ProcessAll(t, enc, items + [last])
            == (T.Process(T.ProcessAll(t, enc, items).0, enc, last).0,
                T.ProcessAll(t, enc, items).1 + T.Process(T.ProcessAll(t, enc, items).0, enc, last).1)
    decreases items
  {
    hide T.Process;
    if items == [] {
      assert items + [last] == [last] && [last][1..] == [];
      Ends(T.Process(t, enc, last).1);
    } else {
      assert (items + [last])[1..] == items[1..] + [last];
      var (t1, out) := T.Process(t, enc, items[0]);
      ProcessKeepsStop(t1, enc, items[1..], last);
      var (t2, outs) := T.ProcessAll(t1, enc, items[1..]);
      RelayPath.Regroup(out, outs, T.Process(t2, enc, last).1);
    }
  }

  /** The last datagram of a run that closes an open transmission, in a session that is not stopping, is a marker. */
  lemma CloseEndsWithMark(t: T.Tx, enc: T.Encoder, items: seq<T.Item>)
    requires GoodRun(t, enc, items + [T.Close])
    requires T.ProcessAll(t, enc, items).0.open && !T.ProcessAll(t, enc, items).0.stopRequested
    ensures var sent := T.ProcessAll(t, enc, items + [T.Close]).1; sent != [] && sent[|sent| - 1].EofMark?
  {
    hide T.ProcessAll, T.TxEnd, T.Flush;
    ProcessKeepsStop(t, enc, items, T.Close);
    var (t1, out) := T.ProcessAll(t, enc, items);
    assert forall item :: item in items ==> item in items + [T.Close];
    RunNumbers(t, enc, items);
    EndSends(t1, enc);
  }

  lemma MarkIsLast(t: T.Tx, enc: T.Encoder, items: seq<T.Item>)
    requires GoodRun(t, enc, items)
    requires var sent := T.ProcessAll(t, enc, items).1; sent != [] && sent[|sent| - 1].EofMark?
    ensures var wire := Launched(t, enc, items).wire; wire != [] && Received(wire[|wire| - 1]) == Mark
  {
    hide T.ProcessAll, Wire, Datagram, Received;
    var sent := T.ProcessAll(t, enc, items).1;
    RunDelivers(t, enc, items);
    WireLast(t.sessionId, sent);
    assert sent[|sent| - 1] in sent;
    ReceivedIs(t.sessionId, sent[|sent| - 1]);
  }

  /**
   The client's own markers suffice: when it has closed its last transmission without stopping, and the relay
   takes packets and markers in the order in which they came, enough good ticks after the last marker play
   exactly the audio sent, as long as the mixer ticks in time and nothing is trimmed.
   */
  lemma {:induction false} OwnMarkersComplete(
    c: Timing, t: T.Tx, enc: T.Encoder, items: seq<T.Item>, moves: seq<Move>, ticks: seq<Event>)
    requires ValidTiming(c) && GoodRun(t, enc, items + [T.Close])
    requires T.ProcessAll(t, enc, items).0.open && !T.ProcessAll(t, enc, items).0.stopRequested
    requires var q := Launched(t, enc, items + [T.Close]);
             AllOrderly(q, moves) && Arrived(PathAfter(q, moves)) && PathAfter(q, moves).marks == 0
    requires Attended(c, RelayEvents(t, enc, items + [T.Close], moves))
    requires Untrimmed(c, SILENT, RelayEvents(t, enc, items + [T.Close], moves) + ticks)
    requires GoodTicks(ticks) && |ticks| >= Waiting(c, RelayEvents(t, enc, items + [T.Close], moves))
    ensures Popped(RunAll(c, SILENT, RelayEvents(t, enc, items + [T.Close], moves) + ticks).1)
            == SentAudio(t, enc, items + [T.Close])
  {
    hide GoodRun, T.ProcessAll, AllOrderly, Attended, Untrimmed, Waiting, SentAudio;
    hide RunAll, PathAfter, AllMissed, AllEvents, Received;
    var all := items + [T.Close];
    var q := Launched(t, enc, all);
    CloseEndsWithMark(t, enc, items);
    MarkIsLast(t, enc, all);
    OrderlyRunEnds(c, q, moves, SILENT);
    TicksAloneComplete(c, t, enc, all, moves, ticks);
  }
}
