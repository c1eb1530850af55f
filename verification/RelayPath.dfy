/**
 The way of a client's datagrams into the relay's speaker: in order on the wire, then through the mixer's two
 queues, one for packets and one for end markers, which the mixer loop takes from as it likes.
 */
module RelayPath {
  import opened Packets
  import opened UdpCodec
  import opened JitterOrder
  import opened JitterInOrder
  import opened SpeakerModel
  import opened SpeakerFlow
  import T = TxModel

  const RECEIVE_BUFFER: nat := 1500

  // ---------- On the wire ----------

  function ToPacket(sessionId: uint32, s: T.Sent): AudioPacket
  {
    match s
    case Audio(n, signal, _, payload) => AudioPacket(sessionId, n, signal, payload)
    case EofMark(n) => AudioPacket(sessionId, n, 0, [])
  }

  /** A payload that is not empty and that the relay's receive buffer takes whole. */
  predicate Deliverable(s: T.Sent)
  {
    if s.Audio? then 1 <= |s.payload| <= RECEIVE_BUFFER - HEADER else 0 < s.sequence
  }

  function Datagram(sessionId: uint32, s: T.Sent): seq<byte>
    requires Deliverable(s)
  {
    Pack(ToPacket(sessionId, s)).value
  }

  /** The relay reads back what was sent, and tells audio from end markers. */
  lemma WireIsFaithful(sessionId: uint32, s: T.Sent)
    requires Deliverable(s)
    ensures var d := Datagram(sessionId, s);
            && |d| <= RECEIVE_BUFFER
            && ParseAudioPacket(d, |d|) == Some(ToPacket(sessionId, s))
            && Route(ToPacket(sessionId, s)) == (if s.Audio? then UdpCodec.Audio else UdpCodec.Eof)
  {
    var p := ToPacket(sessionId, s);
    UnpackPack(p);
    ParsersAgree(Pack(p).value, |Pack(p).value|);
    assert Pack(p).value[..|Pack(p).value|] == Pack(p).value;
  }

  // ---------- On the way ----------

  function Wire(sessionId: uint32, sent: seq<T.Sent>): seq<seq<byte>>
    requires forall s :: s in sent ==> Deliverable(s)
  {
    seq(|sent|, i requires 0 <= i < |sent| => Datagram(sessionId, sent[i]))
  }

  /** The audio packets among what was sent, in order; end markers are skipped. */
  function AudioOf(sessionId: uint32, sent: seq<T.Sent>): seq<AudioPacket>
  {
    if sent == [] then []
    else if sent[0].Audio? then [ToPacket(sessionId, sent[0])] + AudioOf(sessionId, sent[1..])
    else AudioOf(sessionId, sent[1..])
  }

  datatype Content = Voice(p: AudioPacket) | Mark | Neither

  function Received(d: seq<byte>): Content
  {
    var parsed := ParseAudioPacket(d, |d|);
    if parsed.None? then Neither
    else
      match Route(parsed.value)
      case Eof => Mark
      case Audio => Voice(parsed.value)
      case Keepalive => Neither
      case Ignored => Neither
  }

  /** The datagrams in flight, the packets in the input queue, and the end markers in the queue beside it. */
  datatype Path = Path(wire: seq<seq<byte>>, input: seq<AudioPacket>, marks: nat)

  /**
   What happens next. A datagram arrives in a queue of the mixer, or is lost on the way or refused by the gate
   or by busy mode. The mixer loop takes a packet or a marker from its queue, or ticks. A full queue drops its
   oldest entry. Force is a forced start, at any moment and for whatever reason.
   */
  datatype Move =
    | Deliver
    | Lose
    | DropPacket
    | DropMark
    | TakePacket(at: int)
    | TakeMark(at: int)
    | Force(at: int)
    | MixerTick(at: int, decoded: Option<seq<int>>, present: bool)

  function Less(marks: nat): nat
  {
    if marks == 0 then 0 else marks - 1
  }

  function Enqueued(q: Path, content: Content): Path
  {
    match content
    case Voice(p) => q.(input := q.input + [p])
    case Mark => q.(marks := q.marks + 1)
    case Neither => q
  }

  function Advance(q: Path, m: Move): Path
  {
    match m
    case Deliver => if q.wire == [] then q else Enqueued(q, Received(q.wire[0])).(wire := q.wire[1..])
    case Lose => if q.wire == [] then q else q.(wire := q.wire[1..])
    case DropPacket => if q.input == [] then q else q.(input := q.input[1..])
    case DropMark => q.(marks := Less(q.marks))
    case TakePacket(_) => if q.input == [] then q else q.(input := q.input[1..])
    case TakeMark(_) => q.(marks := Less(q.marks))
    case Force(_) => q
    case MixerTick(_, _, _) => q
  }

  /** What the move is to the speaker. */
  function Events(q: Path, m: Move): seq<Event>
  {
    match m
    case TakePacket(at) => if q.input == [] then [] else [Arrive(q.input[0], at)]
    case TakeMark(at) => if q.marks == 0 then [] else [Marker(at)]
    case Force(at) => [Marker(at)]
    case MixerTick(at, decoded, present) => [Tick(at, decoded, present)]
    case _ => []
  }

  function Voices(content: Content): seq<AudioPacket>
  {
    if content.Voice? then [content.p] else []
  }

  /** The audio packets that the move takes off the way without playing them. */
  function Missed(q: Path, m: Move): seq<AudioPacket>
  {
    match m
    case Lose => if q.wire == [] then [] else Voices(Received(q.wire[0]))
    case DropPacket => if q.input == [] then [] else [q.input[0]]
    case _ => []
  }

  function PathAfter(q: Path, moves: seq<Move>): Path
    decreases moves
  {
    if moves == [] then q else PathAfter(Advance(q, moves[0]), moves[1..])
  }

  function AllEvents(q: Path, moves: seq<Move>): seq<Event>
    decreases moves
  {
    if moves == [] then [] else Events(q, moves[0]) + AllEvents(Advance(q, moves[0]), moves[1..])
  }

  function AllMissed(q: Path, moves: seq<Move>): seq<AudioPacket>
    decreases moves
  {
    if moves == [] then [] else Missed(q, moves[0]) + AllMissed(Advance(q, moves[0]), moves[1..])
  }

  /** The audio packets in flight, in order. */
  function AudioIn(wire: seq<seq<byte>>): seq<AudioPacket>
    decreases wire
  {
    if wire == [] then [] else Voices(Received(wire[0])) + AudioIn(wire[1..])
  }

  /** The audio packets still on the way, in order. */
  function Pending(q: Path): seq<AudioPacket>
  {
    q.input + AudioIn(q.wire)
  }

  // ---------- Conservation ----------

  lemma {:induction false} ArrivalsAppend(a: seq<Event>, b: seq<Event>)
    ensures Arrivals(a + b) == Arrivals(a) + Arrivals(b)
    decreases a
  {
    if a == [] {
      assert a + b == b;
    } else {
      assert (a + b)[1..] == a[1..] + b;
      ArrivalsAppend(a[1..], b);
    }
  }

  lemma ArrivalsOne(e: Event)
    ensures Arrivals([e]) == (if e.Arrive? then [e.p] else []) && Arrivals([]) == []
  {
    assert [e][1..] == [];
  }

  lemma Regroup<X>(a: seq<X>, b: seq<X>, c: seq<X>)
    ensures a + b + c == a + (b + c)
  {
  }

  lemma Ends<X>(a: seq<X>)
    ensures a + [] == a && [] + a == a
  {
  }

  lemma FirstAndRest<X>(a: seq<X>)
    requires a != []
    ensures [a[0]] + a[1..] == a
  {
  }

  lemma DeliverKeepsPending(q: Path)
    requires q.wire != []
    ensures Pending(Advance(q, Deliver)) == Pending(q)
  {
    var content, rest := Received(q.wire[0]), AudioIn(q.wire[1..]);
    hide Received;
    Ends(rest);
    if content.Voice? {
      Regroup(q.input, [content.p], rest);
    }
  }

  lemma MoveConserves(q: Path, m: Move)
    requires Missed(q, m) == []
    ensures Arrivals(Events(q, m)) + Pending(Advance(q, m)) == Pending(q)
  {
    hide Received, Enqueued;
    Ends(Pending(q));
    if Events(q, m) != [] {
      ArrivalsOne(Events(q, m)[0]);
      assert Events(q, m) == [Events(q, m)[0]];
    }
    match m {
      case Deliver =>
        if q.wire != [] {
          DeliverKeepsPending(q);
        }
      case Lose =>
        Ends(if q.wire == [] then [] else AudioIn(q.wire[1..]));
      case TakePacket(at) =>
        if q.input != [] {
          FirstAndRest(q.input);
          Regroup([q.input[0]], q.input[1..], AudioIn(q.wire));
        }
      case _ =>
    }
  }

  /** As long as no audio packet is missed, what has arrived followed by what is on the way was on the way. */
  lemma {:induction false} PathConserves(q: Path, moves: seq<Move>)
    requires AllMissed(q, moves) == []
    ensures Arrivals(AllEvents(q, moves)) + Pending(PathAfter(q, moves)) == Pending(q)
    decreases moves
  {
    hide Advance, Events, Missed, Pending, Arrivals;
    if moves == [] {
      NoArrivals();
      Ends(Pending(q));
    } else {
      var q1, rest := Advance(q, moves[0]), moves[1..];
      MoveConserves(q, moves[0]);
      PathConserves(q1, rest);
      ArrivalsAppend(Events(q, moves[0]), AllEvents(q1, rest));
      Regroup(Arrivals(Events(q, moves[0])), Arrivals(AllEvents(q1, rest)), Pending(PathAfter(q1, rest)));
    }
  }

  lemma NoArrivals()
    ensures Arrivals([]) == []
  {
  }

  // ---------- Order, with whatever is missed ----------

  /** Leaving out a part keeps the order. */
  lemma FollowsOnWithout(a: seq<AudioPacket>, b: seq<AudioPacket>, c: seq<AudioPacket>, last: int)
    requires FollowsOn(a + b + c, last)
    ensures FollowsOn(a + c, last)
  {
    var all, some := a + b + c, a + c;
    forall i | 0 <= i < |some|
      ensures some[i] == all[if i < |a| then i else i + |b|]
    {
    }
    forall p | p in some ensures last < p.sequence < TOP {
      var i :| 0 <= i < |some| && some[i] == p;
      assert all[if i < |a| then i else i + |b|] in all;
    }
  }

  /** A move misses one packet of those on the way, or delivers the first, or leaves them as they are. */
  lemma MoveInOrder(q: Path, m: Move, last: int)
    requires FollowsOn(Pending(q), last)
    ensures var arrived, q1 := Arrivals(Events(q, m)), Advance(q, m);
            && |arrived| <= 1 && FollowsOn(arrived, last)
            && FollowsOn(Pending(q1), if arrived == [] then last else arrived[0].sequence)
            && (forall p :: p in arrived || p in Pending(q1) ==> p in Pending(q))
  {
    hide Received, Enqueued;
    if Events(q, m) != [] {
      ArrivalsOne(Events(q, m)[0]);
      assert Events(q, m) == [Events(q, m)[0]];
    }
    match m {
      case Deliver =>
        if q.wire != [] {
          DeliverKeepsPending(q);
        }
      case Lose =>
        if q.wire != [] {
          var voices, rest := Voices(Received(q.wire[0])), AudioIn(q.wire[1..]);
          Regroup(q.input, voices, rest);
          FollowsOnWithout(q.input, voices, rest, last);
          assert forall p :: p in q.input + rest ==> p in q.input + (voices + rest);
        }
      case DropPacket =>
        if q.input != [] {
          FirstMoves(q, last);
        }
      case TakePacket(at) =>
        if q.input != [] {
          FirstMoves(q, last);
        }
      case _ =>
    }
  }

  lemma FirstMoves(q: Path, last: int)
    requires q.input != [] && FollowsOn(Pending(q), last)
    ensures var rest := q.input[1..] + AudioIn(q.wire);
            && FollowsOn(rest, q.input[0].sequence) && FollowsOn(rest, last) && FollowsOn([q.input[0]], last)
            && q.input[0] in Pending(q) && (forall p :: p in rest ==> p in Pending(q))
  {
    FirstAndRest(q.input);
    Regroup([q.input[0]], q.input[1..], AudioIn(q.wire));
    var all, rest := Pending(q), q.input[1..] + AudioIn(q.wire);
    assert all[0] == q.input[0] && all[1..] == rest;
    FollowsOnTail(all, last);
    assert forall p :: p in rest ==> p in all[1..];
  }

  lemma FollowsOnFirst(a: seq<AudioPacket>, b: seq<AudioPacket>, last: int)
    requires |a| <= 1 && FollowsOn(a, last) && FollowsOn(b, if a == [] then last else a[0].sequence)
    ensures FollowsOn(a + b, last)
  {
    if a == [] {
      Ends(b);
    } else {
      assert a[0] in a && a == [a[0]];
      forall i, j | 0 <= i < j < |a + b|
        ensures (a + b)[i].sequence < (a + b)[j].sequence
      {
        assert (a + b)[j] == b[j - 1] && b[j - 1] in b;
      }
    }
  }

  /** Whatever is missed, packets arrive in the order in which they were on the way, and no others do. */
  lemma {:induction false} PathInOrder(q: Path, moves: seq<Move>, last: int)
    requires FollowsOn(Pending(q), last)
    ensures FollowsOn(Arrivals(AllEvents(q, moves)), last)
    ensures forall p :: p in Arrivals(AllEvents(q, moves)) ==> p in Pending(q)
    decreases moves
  {
    hide Advance, Events, Pending, FollowsOn, Arrivals;
    if moves == [] {
      NoArrivals();
      NothingFollows(last);
    } else {
      var q1, rest := Advance(q, moves[0]), moves[1..];
      var arrived := Arrivals(Events(q, moves[0]));
      MoveInOrder(q, moves[0], last);
      PathInOrder(q1, rest, if arrived == [] then last else arrived[0].sequence);
      ArrivalsAppend(Events(q, moves[0]), AllEvents(q1, rest));
      FollowsOnFirst(arrived, Arrivals(AllEvents(q1, rest)), last);
    }
  }

  lemma NothingFollows(last: int)
    ensures FollowsOn([], last)
  {
  }

  // ---------- What the client sent ----------

  lemma {:induction false} WireHoldsAudio(sessionId: uint32, sent: seq<T.Sent>)
    requires forall s :: s in sent ==> Deliverable(s)
    ensures AudioIn(Wire(sessionId, sent)) == AudioOf(sessionId, sent)
    decreases sent
  {
    if sent == [] {
    } else {
      var wire := Wire(sessionId, sent);
      assert wire[0] == Datagram(sessionId, sent[0]) && wire[1..] == Wire(sessionId, sent[1..]);
      ReceivedIs(sessionId, sent[0]);
      WireHoldsAudio(sessionId, sent[1..]);
      Ends(AudioOf(sessionId, sent[1..]));
    }
  }

  lemma WireLast(sessionId: uint32, sent: seq<T.Sent>)
    requires sent != [] && forall s :: s in sent ==> Deliverable(s)
    ensures var wire := Wire(sessionId, sent);
            |wire| == |sent| && wire[|wire| - 1] == Datagram(sessionId, sent[|sent| - 1])
  {
  }

  lemma ReceivedIs(sessionId: uint32, s: T.Sent)
    requires Deliverable(s)
    ensures Received(Datagram(sessionId, s)) == if s.Audio? then Voice(ToPacket(sessionId, s)) else Mark
  {
    WireIsFaithful(sessionId, s);
  }

  // ---------- End markers ----------

  function MarkersOf(es: seq<Event>): nat
    decreases es
  {
    if es == [] then 0 else (if es[0].Marker? then 1 else 0) + MarkersOf(es[1..])
  }

  function MarksIn(wire: seq<seq<byte>>): nat
    decreases wire
  {
    if wire == [] then 0 else (if Received(wire[0]).Mark? then 1 else 0) + MarksIn(wire[1..])
  }

  /** The end markers on the way, in flight or in their queue. */
  function Marks(q: Path): nat
  {
    q.marks + MarksIn(q.wire)
  }

  /** Whether the move takes a marker off the way without a word to the speaker. */
  predicate MissesMark(q: Path, m: Move)
  {
    (m.Lose? && q.wire != [] && Received(q.wire[0]).Mark?) || (m.DropMark? && q.marks > 0)
  }

  function MissedMarks(q: Path, moves: seq<Move>): nat
    decreases moves
  {
    if moves == [] then 0
    else (if MissesMark(q, moves[0]) then 1 else 0) + MissedMarks(Advance(q, moves[0]), moves[1..])
  }

  function Forces(moves: seq<Move>): nat
    decreases moves
  {
    if moves == [] then 0 else (if moves[0].Force? then 1 else 0) + Forces(moves[1..])
  }

  lemma MoveBalancesMarks(q: Path, m: Move)
    ensures MarkersOf(Events(q, m)) + Marks(Advance(q, m)) + (if MissesMark(q, m) then 1 else 0)
            == Marks(q) + if m.Force? then 1 else 0
  {
    hide Received;
    if Events(q, m) != [] {
      var e := Events(q, m)[0];
      assert Events(q, m) == [e] && [e][1..] == [];
    }
  }

  lemma {:induction false} MarkersAppend(a: seq<Event>, b: seq<Event>)
    ensures MarkersOf(a + b) == MarkersOf(a) + MarkersOf(b)
    decreases a
  {
    if a == [] {
      assert a + b == b;
    } else {
      assert (a + b)[1..] == a[1..] + b;
      MarkersAppend(a[1..], b);
    }
  }

  /** Every end marker that was on the way reaches the speaker, is still on the way, or was missed; a forced start adds one. */
  lemma {:induction false} MarkersBalance(q: Path, moves: seq<Move>)
    ensures MarkersOf(AllEvents(q, moves)) + Marks(PathAfter(q, moves)) + MissedMarks(q, moves)
            == Marks(q) + Forces(moves)
    decreases moves
  {
    hide Advance, Events, MissesMark, Marks;
    if moves != [] {
      MoveBalancesMarks(q, moves[0]);
      MarkersBalance(Advance(q, moves[0]), moves[1..]);
      MarkersAppend(Events(q, moves[0]), AllEvents(Advance(q, moves[0]), moves[1..]));
    }
  }
}
