/**
 When the transmit pipeline sends: each frame leaves with the item that completes it, and the whole run of the
 queue sends exactly the frames, payloads and end markers that its items ask for.
 */
module TxProgress {
  import opened Packets
  import opened TxModel
  import opened TxTheory

  // ---------- No frame waits ----------

  /** A frame goes out with the item that completes it; less than a frame stays unless the item brings two. */
  lemma FrameGoesIff(t: Tx, enc: Encoder, samples: seq<int>)
    requires Ready(t) && GoodEncoder(enc) && t.open && samples != []
    ensures var (t1, out) := Process(t, enc, Pcm(samples));
            && FrameCount(out) == |out| <= 1
            && (FrameCount(out) == 1 <==> |t.buffer| + |samples| >= t.frame)
            && (|t1.buffer| < t.frame <==> |t.buffer| + |samples| < 2 * t.frame)
            && Ready(t1) && t1.open && t1.frame == t.frame
            && FrameCount(out) * t.frame + |t1.buffer| == |t.buffer| + |samples|
  {
    if |t.buffer + samples| >= t.frame {
      SendFrameSends(t.(buffer := t.buffer + samples), enc);
      SentOne(Process(t, enc, Pcm(samples)).1[0]);
    }
  }

  /** Samples only, and none of the items longer than a frame. */
  predicate SmallPcm(items: seq<Item>, frame: int)
  {
    forall item :: item in items ==> item.Pcm? && |item.samples| <= frame
  }

  function Submitted(items: seq<Item>): nat
  {
    if items == [] then 0 else (if items[0].Pcm? then |items[0].samples| else 0) + Submitted(items[1..])
  }

  lemma EmptyItem(t: Tx, enc: Encoder)
    ensures Process(t, enc, Pcm([])) == (t, [])
  {
  }

  lemma {:induction false} NothingWaits(t: Tx, enc: Encoder, items: seq<Item>)
    requires Ready(t) && GoodEncoder(enc) && t.open && |t.buffer| < t.frame && SmallPcm(items, t.frame)
    ensures var (t1, out) := ProcessAll(t, enc, items);
            && |t1.buffer| < t.frame
            && FrameCount(out) * t.frame + |t1.buffer| == |t.buffer| + Submitted(items)
    decreases items
  {
    hide Process, FrameCount;
    if items == [] {
      NoFrames();
    } else {
      assert items[0] in items;
      var samples := items[0].samples;
      var (t1, out) := Process(t, enc, items[0]);
      if samples == [] {
        EmptyItem(t, enc);
        NoFrames();
      } else {
        FrameGoesIff(t, enc, samples);
      }
      NothingWaits(t1, enc, items[1..]);
      var outs := ProcessAll(t1, enc, items[1..]).1;
      SentAppend(out, outs);
      TimesSum(FrameCount(out), FrameCount(outs), t.frame);
    }
  }

  lemma NoFrames()
    ensures FrameCount([]) == 0
  {
  }

  lemma TimesSum(a: nat, b: nat, n: int)
    ensures (a + b) * n == a * n + b * n
  {
  }

  lemma QuotientIs(q: nat, rest: nat, n: int, total: nat)
    requires rest < n && q * n + rest == total
    ensures q == total / n
  {
    var d := total / n;
    assert total == d * n + total % n;
    if q < d {
      TimesSum(q + 1, d - q - 1, n);
      TimesSum(q, 1, n);
    } else if d < q {
      TimesSum(d + 1, q - d - 1, n);
      TimesSum(d, 1, n);
    }
  }

  /**
   Whatever samples are submitted, in items of at most a frame, as many frames have gone out after each of them
   as are complete, and less than a frame is still in hand.
   */
  lemma {:induction false} FramesKeepUp(t: Tx, enc: Encoder, items: seq<Item>)
    requires Ready(t) && GoodEncoder(enc) && t.open && |t.buffer| < t.frame && SmallPcm(items, t.frame)
    ensures var (t1, out) := ProcessAll(t, enc, items);
            && |t1.buffer| < t.frame
            && FrameCount(out) == (|t.buffer| + Submitted(items)) / t.frame
  {
    NothingWaits(t, enc, items);
    var (t1, out) := ProcessAll(t, enc, items);
    QuotientIs(FrameCount(out), |t1.buffer|, t.frame, |t.buffer| + Submitted(items));
  }

  // ---------- The whole queue ----------

  /** What a datagram is for, its number left aside. */
  datatype Parcel = Frame(samples: seq<int>) | Raw(data: seq<byte>) | Mark

  function ParcelOf(s: Sent): Parcel
  {
    match s
    case Audio(_, _, PcmFrame(samples), _) => Frame(samples)
    case Audio(_, _, RawOpus, payload) => Raw(payload)
    case EofMark(_) => Mark
  }

  function Parcels(out: seq<Sent>): seq<Parcel>
  {
    seq(|out|, i requires 0 <= i < |out| => ParcelOf(out[i]))
  }

  /** A frame that the encoder makes a payload of, if that is not empty and fits a datagram. */
  function Made(f: seq<int>, enc: Encoder): seq<Parcel>
  {
    if enc(f).Some? && 1 <= |enc(f).value| <= MAX_OPUS then [Frame(f)] else []
  }

  /** The first frame of the samples in hand, filled up with zeros, and what stays for the frames after it. */
  function FrameOf(b: seq<int>, n: nat): seq<int>
  {
    if |b| < n then b + Zeros(n - |b|) else b[..n]
  }

  function RestOf(b: seq<int>, n: nat): seq<int>
  {
    if |b| < n then [] else b[n..]
  }

  /** The samples in hand cut into frames; with a frame that cannot be encoded all the rest is given up. */
  function CutUp(b: seq<int>, n: nat, enc: Encoder): seq<Parcel>
    requires 0 < n
    decreases |b|
  {
    if b == [] || enc(FrameOf(b, n)).None? then []
    else Made(FrameOf(b, n), enc) + CutUp(RestOf(b, n), n, enc)
  }

  /** The rest of a transmission: the samples in hand, and three end markers unless the session is stopping. */
  function Ending(b: seq<int>, n: nat, enc: Encoder, stopping: bool): seq<Parcel>
    requires 0 < n
  {
    CutUp(b, n, enc) + if stopping then [] else [Mark, Mark, Mark]
  }

  /** Whether a transmission is open, and the samples in hand if it is. */
  datatype Talk = Talk(open: bool, pending: seq<int>)

  const SILENT: Talk := Talk(false, [])

  function TalkOf(t: Tx): Talk
  {
    if t.open then Talk(true, t.buffer) else SILENT
  }

  /** What samples ask to be sent once they are in hand: one frame if there is one. */
  function AskedOfSamples(all: seq<int>, n: nat, enc: Encoder): (seq<Parcel>, Talk)
    requires 0 < n
  {
    if |all| < n then ([], Talk(true, all))
    else if enc(all[..n]).None? then ([], Talk(true, []))
    else (Made(all[..n], enc), Talk(true, all[n..]))
  }

  /** What an item asks to be sent, and what it leaves in hand. */
  function Asked(k: Talk, item: Item, n: nat, enc: Encoder, stopping: bool): (seq<Parcel>, Talk)
    requires 0 < n
  {
    if !k.open then ([], Talk(item.Open?, []))
    else
      match item
      case Open => (Ending(k.pending, n, enc, stopping), Talk(true, []))
      case Pcm(samples) => if samples == [] then ([], k) else AskedOfSamples(k.pending + samples, n, enc)
      case Opus(data) => (if 1 <= |data| <= MAX_OPUS then [Raw(data)] else [], k)
      case VoiceEnd => (CutUp(k.pending, n, enc), Talk(true, []))
      case Close => (Ending(k.pending, n, enc, stopping), SILENT)
      case Abort => ([], SILENT)
      case Watchdog => (Ending(k.pending, n, enc, stopping), SILENT)
  }

  function AllAsked(k: Talk, items: seq<Item>, n: nat, enc: Encoder, stopping: bool): (seq<Parcel>, Talk)
    requires 0 < n
    decreases items
  {
    if items == [] then ([], k)
    else
      var (parcels, k1) := Asked(k, items[0], n, enc, stopping);
      var (rest, k2) := AllAsked(k1, items[1..], n, enc, stopping);
      (parcels + rest, k2)
  }

  lemma NoParcels()
    ensures Parcels([]) == []
  {
  }

  lemma OneParcel(s: Sent)
    ensures Parcels([s]) == [ParcelOf(s)]
  {
  }

  lemma Join(a: seq<Parcel>, b: seq<Parcel>, c: seq<Parcel>)
    ensures a + b + c == a + (b + c) && [] + a == a
  {
  }

  lemma ParcelsAppend(a: seq<Sent>, b: seq<Sent>)
    ensures Parcels(a + b) == Parcels(a) + Parcels(b)
  {
  }

  /** One whole frame off the buffer, or the end of the buffer. */
  lemma SendFrameParcels(t: Tx, enc: Encoder)
    requires Ready(t) && t.frame <= |t.buffer|
    ensures var (t1, out) := SendFrame(t, enc);
            var f := t.buffer[..t.frame];
            && t1 == t.(buffer := if enc(f).None? then [] else t.buffer[t.frame..], counter := t1.counter)
            && Parcels(out) == Made(f, enc)
  {
    NoParcels();
    var f := t.buffer[..t.frame];
    var out := SendFrame(t, enc).1;
    if out != [] {
      OneParcel(out[0]);
      assert out == [out[0]];
    }
  }

  lemma PaddedIs(t: Tx)
    requires 0 < t.frame
    ensures t.frame <= |Padded(t).buffer| && Padded(t).buffer[..t.frame] == FrameOf(t.buffer, t.frame)
    ensures Padded(t).buffer[t.frame..] == RestOf(t.buffer, t.frame)
    ensures Padded(t) == t.(buffer := Padded(t).buffer)
  {
  }

  lemma FlushIs(t: Tx, enc: Encoder)
    requires 0 < t.frame && t.buffer != [] && t.frame <= |Padded(t).buffer|
    ensures var (t2, out) := SendFrame(Padded(t), enc);
            Flush(t, enc) == (Flush(t2, enc).0, out + Flush(t2, enc).1)
  {
  }

  lemma CutUpIs(b: seq<int>, n: nat, enc: Encoder)
    requires 0 < n && b != []
    ensures CutUp(b, n, enc) == if enc(FrameOf(b, n)).None? then []
                                else Made(FrameOf(b, n), enc) + CutUp(RestOf(b, n), n, enc)
    ensures CutUp([], n, enc) == []
  {
  }

  lemma FlushNothing(t: Tx, enc: Encoder)
    requires t.buffer == []
    ensures Flush(t, enc) == (t, [])
  {
  }

  lemma {:induction false} FlushParcels(t: Tx, enc: Encoder)
    requires Ready(t)
    ensures var (t1, out) := Flush(t, enc);
            Parcels(out) == CutUp(t.buffer, t.frame, enc) && t1 == t.(buffer := [], counter := t1.counter)
    decreases |t.buffer|
  {
    NoParcels();
    if t.buffer != [] {
      hide Flush, CutUp, Padded, SendFrame, FrameOf, RestOf, Parcels, Made;
      NoneMade(FrameOf(t.buffer, t.frame), enc);
      PaddedIs(t);
      SendFrameParcels(Padded(t), enc);
      FlushIs(t, enc);
      CutUpIs(t.buffer, t.frame, enc);
      var (t2, out) := SendFrame(Padded(t), enc);
      RestIsShorter(t.buffer, t.frame);
      FlushParcels(t2, enc);
      ParcelsAppend(out, Flush(t2, enc).1);
      FlushNothing(t2.(buffer := []), enc);
    }
  }

  lemma NoneMade(f: seq<int>, enc: Encoder)
    ensures enc(f).None? ==> Made(f, enc) == []
  {
  }

  lemma RestIsShorter(b: seq<int>, n: nat)
    requires 0 < n && b != []
    ensures |RestOf(b, n)| < |b|
  {
  }

  lemma {:induction false} MarksParcels(t: Tx, n: nat)
    requires Ready(t)
    ensures Parcels(SendEofs(t, n).1) == if t.stopRequested then [] else seq(n, _ => Mark)
    decreases n
  {
    if n > 0 && !t.stopRequested {
      var (t1, out) := SendEof(t);
      MarksParcels(t1, n - 1);
      ParcelsAppend(out, SendEofs(t1, n - 1).1);
    }
  }

  lemma EndParcels(t: Tx, enc: Encoder)
    requires Ready(t) && t.open
    ensures var (t1, out) := TxEnd(t, enc);
            && Parcels(out) == Ending(t.buffer, t.frame, enc, t.stopRequested)
            && Ready(t1) && !t1.open && t1.frame == t.frame && t1.stopRequested == t.stopRequested
  {
    FlushParcels(t, enc);
    var (t1, audio) := Flush(t, enc);
    var t2 := t1.(buffer := [], open := false);
    hide Flush, SendEofs;
    MarksAreSilent(t2, EOF_BURST);
    MarksParcels(t2, EOF_BURST);
    ParcelsAppend(audio, EofBurst(t2).1);
  }

  lemma PcmParcels(t: Tx, enc: Encoder, samples: seq<int>)
    requires Ready(t) && t.open
    ensures var (t1, out) := Process(t, enc, Pcm(samples));
            (Parcels(out), TalkOf(t1)) == Asked(TalkOf(t), Pcm(samples), t.frame, enc, t.stopRequested)
            && Ready(t1) && t1.frame == t.frame && t1.stopRequested == t.stopRequested
  {
    NoParcels();
    hide SendFrame, Parcels, Made;
    NoneMade((t.buffer + samples)[..if t.frame <= |t.buffer + samples| then t.frame else 0], enc);
    if samples != [] && |t.buffer + samples| >= t.frame {
      SendFrameParcels(t.(buffer := t.buffer + samples), enc);
    }
  }

  lemma RawParcels(t: Tx, data: seq<byte>)
    requires Ready(t) && t.open
    ensures var (t1, out) := SendRaw(t, data);
            && Parcels(out) == (if 1 <= |data| <= MAX_OPUS then [Raw(data)] else [])
            && t1 == t.(counter := t1.counter)
  {
  }

  lemma ItemParcels(t: Tx, enc: Encoder, item: Item)
    requires Ready(t)
    ensures var (t1, out) := Process(t, enc, item);
            (Parcels(out), TalkOf(t1)) == Asked(TalkOf(t), item, t.frame, enc, t.stopRequested)
            && Ready(t1) && t1.frame == t.frame && t1.stopRequested == t.stopRequested
  {
    hide TxEnd, Flush, Feed, CutUp, Ending;
    NoParcels();
    if t.open {
      match item {
        case Open => EndParcels(t, enc);
        case Pcm(samples) => PcmParcels(t, enc, samples);
        case Opus(data) => RawParcels(t, data);
        case VoiceEnd => FlushParcels(t, enc);
        case Close => EndParcels(t, enc);
        case Abort =>
        case Watchdog => EndParcels(t, enc);
      }
    } else if item.Close? {
      EndClosed(t, enc);
    }
  }

  /**
   On every run of the queue, whatever opens, closes, aborts and watchdogs come, exactly what the items ask for is
   sent, in their order: whole frames as they are completed, padded ones at voice ends and closes, payloads that
   the application encoded, and the end markers; nothing for what comes while no transmission is open, and nothing
   of the samples in hand when the encoder fails on a frame of them. The encoder may be any.
   */
  lemma {:induction false} RunSendsWhatIsAsked(t: Tx, enc: Encoder, items: seq<Item>)
    requires Ready(t)
    ensures var (t1, out) := ProcessAll(t, enc, items);
            (Parcels(out), TalkOf(t1)) == AllAsked(TalkOf(t), items, t.frame, enc, t.stopRequested)
    decreases items
  {
    hide Process, Asked;
    if items == [] {
      NoParcels();
    } else {
      var (t1, out) := Process(t, enc, items[0]);
      ItemParcels(t, enc, items[0]);
      RunSendsWhatIsAsked(t1, enc, items[1..]);
      ParcelsAppend(out, ProcessAll(t1, enc, items[1..]).1);
    }
  }

  lemma {:induction false} BodyStaysOpen(pending: seq<int>, body: seq<Item>, n: nat, enc: Encoder, stopping: bool)
    requires 0 < n && Body(body)
    ensures AllAsked(Talk(true, pending), body, n, enc, stopping).1.open
    decreases body
  {
    if body != [] {
      BodyStaysOpen(Asked(Talk(true, pending), body[0], n, enc, stopping).1.pending, body[1..], n, enc, stopping);
    }
  }

  lemma {:induction false} AskedAppend(k: Talk, a: seq<Item>, b: seq<Item>, n: nat, enc: Encoder, stopping: bool)
    requires 0 < n
    ensures var (first, k1) := AllAsked(k, a, n, enc, stopping);
            var (rest, k2) := AllAsked(k1, b, n, enc, stopping);
            AllAsked(k, a + b, n, enc, stopping) == (first + rest, k2)
    decreases a
  {
    hide Asked;
    if a == [] {
      assert a + b == b;
      Join(AllAsked(k, b, n, enc, stopping).0, [], []);
    } else {
      assert (a + b)[1..] == a[1..] + b;
      var (parcels, k1) := Asked(k, a[0], n, enc, stopping);
      AskedAppend(k1, a[1..], b, n, enc, stopping);
      var (first, k2) := AllAsked(k1, a[1..], n, enc, stopping);
      Join(parcels, first, AllAsked(k2, b, n, enc, stopping).0);
    }
  }

  /**
   Whatever was submitted in the open transmission before it, an abort sends nothing more, neither samples in
   hand nor an end marker, while a close, the watchdog and a new opening end the transmission alike.
   */
  lemma {:induction false} EndsDiffer(t: Tx, enc: Encoder, body: seq<Item>, end: Item)
    requires Ready(t) && t.open && Body(body)
    requires end.Open? || end.Close? || end.Watchdog? || end.Abort?
    ensures var (t1, out) := ProcessAll(t, enc, body);
            var (t2, all) := ProcessAll(t, enc, body + [end]);
            && (t2.open <==> end.Open?)
            && Parcels(all)
               == Parcels(out) + if end.Abort? then [] else Ending(t1.buffer, t.frame, enc, t.stopRequested)
  {
    hide ProcessAll, Asked, Ending;
    var k := TalkOf(t);
    RunSendsWhatIsAsked(t, enc, body);
    RunSendsWhatIsAsked(t, enc, body + [end]);
    AskedAppend(k, body, [end], t.frame, enc, t.stopRequested);
    BodyStaysOpen(t.buffer, body, t.frame, enc, t.stopRequested);
    OneAsked(AllAsked(k, body, t.frame, enc, t.stopRequested).1, end, t.frame, enc, t.stopRequested);
  }

  lemma OneAsked(k: Talk, end: Item, n: nat, enc: Encoder, stopping: bool)
    requires 0 < n && k.open
    requires end.Open? || end.Close? || end.Watchdog? || end.Abort?
    ensures var (parcels, k1) := AllAsked(k, [end], n, enc, stopping);
            && parcels == (if end.Abort? then [] else Ending(k.pending, n, enc, stopping))
            && (k1.open <==> end.Open?)
  {
    hide Ending;
    assert [end][1..] == [];
    var parcels := Asked(k, end, n, enc, stopping).0;
    assert parcels + [] == parcels;
  }

  // ---------- The application's view ----------

  lemma {:induction false} FlushKeepsFlags(t: Tx, enc: Encoder)
    ensures var t1 := Flush(t, enc).0; t1 == t.(buffer := t1.buffer, counter := t1.counter)
    decreases |t.buffer|
  {
    if t.frame > 0 && t.buffer != [] {
      PaddedIs(t);
      hide SendFrame, Padded;
      FlushKeepsFlags(SendFrame(Padded(t), enc).0, enc);
    }
  }

  lemma EndClosesBoth(t: Tx, enc: Encoder)
    requires t.connected && t.open
    ensures var t1 := TxEnd(t, enc).0; !t1.open && !t1.localTx
  {
    FlushKeepsFlags(t, enc);
    hide Flush, SendEofs;
    MarksAreSilent(Flush(t, enc).0.(buffer := [], open := false), EOF_BURST);
  }

  lemma ItemKeepsBoth(t: Tx, enc: Encoder, item: Item)
    requires t.localTx <==> t.open
    ensures var t1 := Process(t, enc, item).0; t1.localTx <==> t1.open
  {
    hide TxEnd, Flush;
    if t.open {
      FlushKeepsFlags(t, enc);
    }
    if t.connected && t.open {
      EndClosesBoth(t, enc);
    } else {
      EndsNothing(t, enc);
    }
  }

  lemma EndsNothing(t: Tx, enc: Encoder)
    requires !t.connected || !t.open
    ensures TxEnd(t, enc) == (t, [])
  {
  }

  /** On every run, connected or not, the application is told that it transmits exactly while a transmission is open. */
  lemma {:induction false} ActiveWhileOpen(t: Tx, enc: Encoder, items: seq<Item>)
    requires t.localTx <==> t.open
    ensures var t1 := ProcessAll(t, enc, items).0; t1.localTx <==> t1.open
    decreases items
  {
    hide Process;
    if items != [] {
      ItemKeepsBoth(t, enc, items[0]);
      ActiveWhileOpen(Process(t, enc, items[0]).0, enc, items[1..]);
    }
  }

  // ---------- Without a link ----------

  /** Not connected, or without a session or a socket. */
  predicate Unlinked(t: Tx)
  {
    !t.connected || t.sessionId == 0 || !t.udpSocket
  }

  predicate SameLink(t: Tx, t1: Tx)
  {
    t1.connected == t.connected && t1.sessionId == t.sessionId && t1.udpSocket == t.udpSocket
  }

  lemma {:induction false} UnlinkedFlush(t: Tx, enc: Encoder)
    requires Unlinked(t)
    ensures Flush(t, enc).1 == [] && SameLink(t, Flush(t, enc).0)
    decreases |t.buffer|
  {
    if t.frame > 0 && t.buffer != [] {
      PaddedIs(t);
      hide Padded;
      UnlinkedFlush(SendFrame(Padded(t), enc).0, enc);
    }
  }

  lemma {:induction false} UnlinkedMarks(t: Tx, n: nat)
    requires Unlinked(t)
    ensures SendEofs(t, n).1 == [] && SameLink(t, SendEofs(t, n).0)
    decreases n
  {
    if n > 0 && !t.stopRequested {
      UnlinkedMarks(SendEof(t).0, n - 1);
    }
  }

  lemma UnlinkedEnd(t: Tx, enc: Encoder)
    requires Unlinked(t)
    ensures TxEnd(t, enc).1 == [] && SameLink(t, TxEnd(t, enc).0)
  {
    hide Flush, SendEofs;
    UnlinkedFlush(t, enc);
    UnlinkedMarks(Flush(t, enc).0.(buffer := [], open := false), EOF_BURST);
  }

  lemma UnlinkedItem(t: Tx, enc: Encoder, item: Item)
    requires Unlinked(t)
    ensures Process(t, enc, item).1 == [] && SameLink(t, Process(t, enc, item).0)
  {
    hide Flush, TxEnd;
    UnlinkedFlush(t, enc);
    UnlinkedEnd(t, enc);
  }

  /** Without a connection, a session or a socket no run of the queue sends anything. */
  lemma {:induction false} NothingWithoutLink(t: Tx, enc: Encoder, items: seq<Item>)
    requires Unlinked(t)
    ensures ProcessAll(t, enc, items).1 == []
    decreases items
  {
    hide Process;
    if items != [] {
      UnlinkedItem(t, enc, items[0]);
      NothingWithoutLink(Process(t, enc, items[0]).0, enc, items[1..]);
    }
  }

  /**
   A transmission is open after an opening exactly if there is a connection with a session, or if it was open before
   and there is no connection with which it could end.
   */
  lemma OpensIff(t: Tx, enc: Encoder)
    ensures Process(t, enc, Open).0.open
            <==> if t.connected then t.sessionId != 0 else t.open
  {
    if t.connected && t.open {
      FlushKeepsFlags(t, enc);
      hide Flush, SendEofs;
      MarksAreSilent(Flush(t, enc).0.(buffer := [], open := false), EOF_BURST);
    }
  }
}
