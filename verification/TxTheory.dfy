/** What the transmit pipeline guarantees: samples are conserved, frames counted, datagrams numbered. */
module TxTheory {
  import opened Packets
  import opened TxModel

  const MAX_FRAME: nat := 512

  /** A session that can send, with a frame size. */
  predicate Ready(t: Tx)
  {
    t.connected && t.udpSocket && t.sessionId != 0 && 0 < t.frame
  }

  /** The encoder never fails, and its payload is not empty and fits its buffer. */
  ghost predicate GoodEncoder(enc: Encoder)
  {
    forall f :: enc(f).Some? && 1 <= |enc(f).value| <= MAX_FRAME
  }

  /** A payload that the application encoded itself fits a datagram of the relay's receive buffer. */
  predicate FitsDatagram(item: Item)
  {
    item.Opus? ==> |item.data| <= 1491
  }

  /** The items that can come between opening and closing a transmission. */
  predicate Body(items: seq<Item>)
  {
    forall i :: 0 <= i < |items| ==> items[i].Pcm? || items[i].Opus? || items[i].VoiceEnd?
  }

  // ---------- What was sent ----------

  predicate IsFrame(s: Sent)
  {
    s.Audio? && s.source.PcmFrame?
  }

  /** The samples of all frames sent, in order. */
  function Samples(out: seq<Sent>): seq<int>
  {
    if out == [] then []
    else if IsFrame(out[0]) then out[0].source.samples + Samples(out[1..])
    else Samples(out[1..])
  }

  function FrameCount(out: seq<Sent>): nat
  {
    if out == [] then 0 else (if IsFrame(out[0]) then 1 else 0) + FrameCount(out[1..])
  }

  lemma {:induction false} SentAppend(a: seq<Sent>, b: seq<Sent>)
    ensures Samples(a + b) == Samples(a) + Samples(b)
    ensures FrameCount(a + b) == FrameCount(a) + FrameCount(b)
  {
    if a == [] {
      assert a + b == b;
    } else {
      assert (a + b)[1..] == a[1..] + b;
      SentAppend(a[1..], b);
      if IsFrame(a[0]) {
        Regroup(a[0].source.samples, Samples(a[1..]), Samples(b));
      }
    }
  }

  lemma SentOne(s: Sent)
    ensures Samples([s]) == if IsFrame(s) then s.source.samples else []
    ensures FrameCount([s]) == if IsFrame(s) then 1 else 0
  {
    assert [s][1..] == [];
  }

  // ---------- What should be sent ----------

  /** A segment padded with zeros to whole frames of n samples. */
  function PadUp(b: seq<int>, n: nat): seq<int>
    requires 0 < n
    decreases |b|
  {
    if b == [] then []
    else if |b| < n then b + Zeros(n - |b|)
    else b[..n] + PadUp(b[n..], n)
  }

  /** The number of frames of n samples that k samples need. */
  function FramesFor(k: nat, n: nat): nat
    requires 0 < n
    decreases k
  {
    if k == 0 then 0 else if k < n then 1 else 1 + FramesFor(k - n, n)
  }

  /** The padding is zeros only, and less than a frame of them. */
  lemma {:induction false} PadUpAddsZeros(b: seq<int>, n: nat)
    requires 0 < n
    ensures b <= PadUp(b, n) && |PadUp(b, n)| - |b| < n
    ensures forall i :: |b| <= i < |PadUp(b, n)| ==> PadUp(b, n)[i] == 0
    decreases |b|
  {
    if |b| >= n {
      PadUpAddsZeros(b[n..], n);
      assert b == b[..n] + b[n..];
    }
  }

  /** A padded segment fills FramesFor whole frames. */
  lemma {:induction false} PadUpLength(b: seq<int>, n: nat)
    requires 0 < n
    ensures |PadUp(b, n)| == FramesFor(|b|, n) * n
    decreases |b|
  {
    if |b| >= n {
      PadUpLength(b[n..], n);
      OneMore(FramesFor(|b| - n, n), n);
    }
  }

  lemma OneMore(q: nat, n: nat)
    ensures (1 + q) * n == n + q * n
  {
  }

  /** FramesFor is the quotient rounded up. */
  lemma {:induction false} FramesForRoundsUp(k: nat, n: nat)
    requires 0 < n
    ensures k <= FramesFor(k, n) * n < k + n
    decreases k
  {
    if k >= n {
      FramesForRoundsUp(k - n, n);
      OneMore(FramesFor(k - n, n), n);
    }
  }

  /** The samples that should come out for items, when pending samples of the current segment are in hand. */
  function Script(items: seq<Item>, pending: seq<int>, n: nat): seq<int>
    requires 0 < n
    decreases items
  {
    if items == [] then pending
    else
      match items[0]
      case Pcm(samples) => Script(items[1..], pending + samples, n)
      case VoiceEnd => PadUp(pending, n) + Script(items[1..], [], n)
      case _ => Script(items[1..], pending, n)
  }

  /** The frames needed for items, when k samples of the current segment are in hand; each segment rounds up. */
  function ScriptFrames(items: seq<Item>, k: nat, n: nat): nat
    requires 0 < n
    decreases items
  {
    if items == [] then FramesFor(k, n)
    else
      match items[0]
      case Pcm(samples) => ScriptFrames(items[1..], k + |samples|, n)
      case VoiceEnd => FramesFor(k, n) + ScriptFrames(items[1..], 0, n)
      case _ => ScriptFrames(items[1..], k, n)
  }

  lemma PadUpFrame(f: seq<int>, b: seq<int>, n: nat)
    requires 0 < n && |f| == n
    ensures PadUp(f + b, n) == f + PadUp(b, n)
  {
    assert (f + b)[..n] == f && (f + b)[n..] == b;
  }

  /** A whole frame in front of the pending samples comes out in front, and counts one. */
  lemma {:induction false} ScriptFrame(items: seq<Item>, f: seq<int>, b: seq<int>, n: nat)
    requires 0 < n && |f| == n
    ensures Script(items, f + b, n) == f + Script(items, b, n)
    ensures ScriptFrames(items, n + |b|, n) == 1 + ScriptFrames(items, |b|, n)
    decreases items
  {
    if items != [] {
      match items[0] {
        case Pcm(samples) =>
          assert f + b + samples == f + (b + samples);
          ScriptFrame(items[1..], f, b + samples, n);
        case VoiceEnd =>
          PadUpFrame(f, b, n);
          assert f + PadUp(b, n) + Script(items[1..], [], n) == f + (PadUp(b, n) + Script(items[1..], [], n));
        case Open => ScriptFrame(items[1..], f, b, n);
        case Opus(_) => ScriptFrame(items[1..], f, b, n);
        case Close => ScriptFrame(items[1..], f, b, n);
        case Abort => ScriptFrame(items[1..], f, b, n);
        case Watchdog => ScriptFrame(items[1..], f, b, n);
      }
    }
  }

  // ---------- Conservation ----------

  lemma SendFrameSends(t: Tx, enc: Encoder)
    requires Ready(t) && GoodEncoder(enc) && t.frame <= |t.buffer|
    ensures var (t1, out) := SendFrame(t, enc);
            && t1 == t.(buffer := t.buffer[t.frame..], counter := Add32(t.counter, 1))
            && out == [Audio(t1.counter, t.signal, PcmFrame(t.buffer[..t.frame]), enc(t.buffer[..t.frame]).value)]
  {
  }

  lemma FlushStep(t: Tx, enc: Encoder)
    requires Ready(t) && GoodEncoder(enc) && t.buffer != []
    ensures var f := if |t.buffer| < t.frame then t.buffer + Zeros(t.frame - |t.buffer|) else t.buffer[..t.frame];
            var left := if |t.buffer| < t.frame then [] else t.buffer[t.frame..];
            var t2 := t.(buffer := left, counter := Add32(t.counter, 1));
            && |f| == t.frame
            && Flush(t, enc)
               == (Flush(t2, enc).0, [Audio(t2.counter, t.signal, PcmFrame(f), enc(f).value)] + Flush(t2, enc).1)
  {
    var padded := Padded(t);
    SendFrameSends(padded, enc);
    assert |t.buffer| < t.frame ==> padded.buffer[..t.frame] == padded.buffer && padded.buffer[t.frame..] == [];
  }

  /** The frame that a flush sends next, and what it leaves for the frames after it. */
  function NextFrame(t: Tx): seq<int>
  {
    if 0 < t.frame && |t.buffer| < t.frame then t.buffer + Zeros(t.frame - |t.buffer|)
    else if 0 < t.frame then t.buffer[..t.frame] else []
  }

  function RestOfBuffer(t: Tx): seq<int>
  {
    if 0 <= t.frame <= |t.buffer| then t.buffer[t.frame..] else []
  }

  lemma PadUpStep(t: Tx)
    requires 0 < t.frame && t.buffer != []
    ensures PadUp(t.buffer, t.frame) == NextFrame(t) + PadUp(RestOfBuffer(t), t.frame)
    ensures FramesFor(|t.buffer|, t.frame) == 1 + FramesFor(|RestOfBuffer(t)|, t.frame)
  {
    if |t.buffer| < t.frame {
      assert NextFrame(t) + [] == NextFrame(t);
    }
  }

  /** Flushing sends the padded buffer and leaves it empty. */
  lemma {:induction false} FlushSends(t: Tx, enc: Encoder)
    requires Ready(t) && GoodEncoder(enc)
    ensures var (t1, out) := Flush(t, enc);
            && t1 == t.(buffer := [], counter := t1.counter)
            && Samples(out) == PadUp(t.buffer, t.frame)
            && FrameCount(out) == FramesFor(|t.buffer|, t.frame)
    decreases |t.buffer|
  {
    if t.buffer != [] {
      FlushStep(t, enc);
      PadUpStep(t);
      var t2 := t.(buffer := RestOfBuffer(t), counter := Add32(t.counter, 1));
      var first := Audio(t2.counter, t.signal, PcmFrame(NextFrame(t)), enc(NextFrame(t)).value);
      hide Flush, Samples, FrameCount, PadUp, FramesFor;
      FlushSends(t2, enc);
      SentOne(first);
      SentAppend([first], Flush(t2, enc).1);
    }
  }

  /** One body item keeps the account: frames sent, then the buffer, is the buffer, then the item. */
  lemma FeedConserves(t: Tx, enc: Encoder, samples: seq<int>)
    requires Ready(t) && GoodEncoder(enc) && t.open
    ensures var (t1, out) := Feed(t, enc, samples);
            && Ready(t1) && t1.open && t1.frame == t.frame
            && ((out == [] && t1.buffer == t.buffer + samples)
                || (|out| == 1 && IsFrame(out[0]) && |out[0].source.samples| == t.frame
                    && out[0].source.samples + t1.buffer == t.buffer + samples))
  {
    if samples != [] && |t.buffer + samples| >= t.frame {
      SendFrameSends(t.(buffer := t.buffer + samples), enc);
    }
  }

  lemma RawSends(t: Tx, data: seq<byte>)
    requires Ready(t) && t.open
    ensures var (t1, out) := SendRaw(t, data);
            && Ready(t1) && t1.open && t1.frame == t.frame && t1.buffer == t.buffer
            && Samples(out) == [] && FrameCount(out) == 0
  {
    var (t1, out) := SendRaw(t, data);
    if out != [] {
      SentOne(out[0]);
    }
  }

  /** Any open body item: the frames it sends, then the buffer, make up the account for that item. */
  lemma ItemConserves(t: Tx, enc: Encoder, item: Item, rest: seq<Item>)
    requires Ready(t) && GoodEncoder(enc) && t.open && Body([item])
    ensures var (t1, out) := Process(t, enc, item);
            && Ready(t1) && t1.open && t1.frame == t.frame
            && Samples(out) + Script(rest, t1.buffer, t.frame) == Script([item] + rest, t.buffer, t.frame)
            && FrameCount(out) + ScriptFrames(rest, |t1.buffer|, t.frame)
               == ScriptFrames([item] + rest, |t.buffer|, t.frame)
  {
    assert [item][0] == item && ([item] + rest)[1..] == rest;
    var (t1, out) := Process(t, enc, item);
    match item {
      case Pcm(samples) =>
        FeedConserves(t, enc, samples);
        if out != [] {
          SentOne(out[0]);
          assert out == [out[0]];
          ScriptFrame(rest, out[0].source.samples, t1.buffer, t.frame);
        }
      case Opus(data) => RawSends(t, data);
      case VoiceEnd => FlushSends(t, enc);
    }
  }

  /**
   Between opening and closing, the frames sent followed by the residual buffer are the submitted samples,
   with zero padding only where a voice end asks for it; and the frames are as many as the segments need.
   */
  lemma {:induction false} BodyConserves(t: Tx, enc: Encoder, items: seq<Item>)
    requires Ready(t) && GoodEncoder(enc) && t.open && Body(items)
    ensures var (t1, out) := ProcessAll(t, enc, items);
            && Ready(t1) && t1.open && t1.frame == t.frame
            && Samples(out) + t1.buffer == Script(items, t.buffer, t.frame)
            && FrameCount(out) + FramesFor(|t1.buffer|, t.frame) == ScriptFrames(items, |t.buffer|, t.frame)
    decreases items
  {
    if items == [] {
      assert [] + t.buffer == t.buffer;
    } else {
      hide Process, Script, ScriptFrames;
      var (t1, out) := Process(t, enc, items[0]);
      var rest := items[1..];
      assert [items[0]] + rest == items;
      ItemConserves(t, enc, items[0], rest);
      BodyConserves(t1, enc, rest);
      var (t2, outs) := ProcessAll(t1, enc, rest);
      hide Samples, FrameCount, FramesFor;
      SentAppend(out, outs);
      Regroup(Samples(out), Samples(outs), t2.buffer);
    }
  }

  lemma Regroup(a: seq<int>, b: seq<int>, c: seq<int>)
    ensures a + b + c == a + (b + c)
  {
  }

  // ---------- A whole transmission ----------

  predicate Numbered(out: seq<Sent>, from: nat)
  {
    forall i :: 0 <= i < |out| ==> out[i].sequence == from + 1 + i
  }

  lemma NumberedJoin(a: seq<Sent>, b: seq<Sent>, from: nat)
    requires Numbered(a, from) && Numbered(b, from + |a|)
    ensures Numbered(a + b, from)
  {
  }

  lemma {:induction false} FlushNumbers(t: Tx, enc: Encoder)
    requires Ready(t) && GoodEncoder(enc) && t.counter + |Flush(t, enc).1| < TWO32
    ensures var (t1, out) := Flush(t, enc);
            Numbered(out, t.counter) && t1.counter == t.counter + |out| && (forall s :: s in out ==> s.Audio?)
    decreases |t.buffer|
  {
    if t.buffer != [] {
      FlushStep(t, enc);
      var left := if |t.buffer| < t.frame then [] else t.buffer[t.frame..];
      var t2 := t.(buffer := left, counter := Add32(t.counter, 1));
      hide Flush;
      FlushNumbers(t2, enc);
    }
  }

  /** The three end markers after number from; a session that is stopping sends none. */
  function Marks(stopRequested: bool, from: nat): seq<Sent>
    requires from + EOF_BURST < TWO32
  {
    if stopRequested then [] else [EofMark(from + 1), EofMark(from + 2), EofMark(from + 3)]
  }

  lemma BurstNumbers(t: Tx)
    requires Ready(t) && t.counter + EOF_BURST < TWO32
    ensures var marks := Marks(t.stopRequested, t.counter);
            EofBurst(t) == (t.(buffer := [], localTx := false, counter := t.counter + |marks|), marks)
  {
    var t0 := t.(buffer := []);
    if !t.stopRequested {
      var t1, t2, t3 := t0.(counter := t.counter + 1), t0.(counter := t.counter + 2), t0.(counter := t.counter + 3);
      var m1, m2, m3 := EofMark(t.counter + 1), EofMark(t.counter + 2), EofMark(t.counter + 3);
      assert SendEofs(t2, 1) == (t3, [m3] + []);
      assert SendEofs(t1, 2) == (t3, [m2] + ([m3] + []));
      assert SendEofs(t0, 3) == (t3, [m1] + ([m2] + ([m3] + [])));
      assert [m1] + ([m2] + ([m3] + [])) == [m1, m2, m3];
    }
  }

  lemma FinishSends(t: Tx)
    requires Ready(t) && t.counter + EOF_BURST < TWO32
    ensures Finish(t).1 == Marks(t.stopRequested, t.counter)
    ensures Finish(t).0.counter == t.counter + |Finish(t).1|
    ensures Ready(Finish(t).0) && !Finish(t).0.open && Finish(t).0.buffer == []
  {
    BurstNumbers(t.(buffer := [], open := false));
  }

  lemma FlushCounts(t: Tx, enc: Encoder)
    requires Ready(t) && GoodEncoder(enc) && t.open
    requires t.counter + |TxEnd(t, enc).1| + EOF_BURST < TWO32
    ensures t.counter + |Flush(t, enc).1| + EOF_BURST < TWO32
    ensures Flush(t, enc).0 == t.(buffer := [], counter := t.counter + |Flush(t, enc).1|)
  {
    FlushSends(t, enc);
    FlushNumbers(t, enc);
  }

  /** Ending a transmission sends the rest of the audio and then the end markers. */
  lemma {:induction false} EndSends(t: Tx, enc: Encoder)
    requires Ready(t) && GoodEncoder(enc) && t.open
    requires t.counter + |TxEnd(t, enc).1| + EOF_BURST < TWO32
    ensures t.counter + |Flush(t, enc).1| + EOF_BURST < TWO32
    ensures TxEnd(t, enc).1 == Flush(t, enc).1 + Marks(t.stopRequested, t.counter + |Flush(t, enc).1|)
    ensures TxEnd(t, enc).0.counter == t.counter + |TxEnd(t, enc).1|
    ensures Ready(TxEnd(t, enc).0) && !TxEnd(t, enc).0.open && TxEnd(t, enc).0.buffer == []
  {
    hide Flush, Finish, Marks;
    FlushCounts(t, enc);
    FinishSends(Flush(t, enc).0);
  }

  /** The audio and the markers are numbered on from the counter; only the markers come after the audio. */
  lemma EndNumbers(t: Tx, enc: Encoder)
    requires Ready(t) && GoodEncoder(enc) && t.open
    requires t.counter + |TxEnd(t, enc).1| + EOF_BURST < TWO32
    ensures Numbered(TxEnd(t, enc).1, t.counter)
    ensures Ready(TxEnd(t, enc).0) && TxEnd(t, enc).0.counter == t.counter + |TxEnd(t, enc).1|
    ensures !TxEnd(t, enc).0.open && TxEnd(t, enc).0.buffer == []
  {
    EndSends(t, enc);
    FlushNumbers(t, enc);
    var audio := Flush(t, enc).1;
    hide Flush, TxEnd, Numbered;
    MarksNumbered(t.stopRequested, t.counter + |audio|);
    NumberedJoin(audio, Marks(t.stopRequested, t.counter + |audio|), t.counter);
  }

  lemma MarksNumbered(stopRequested: bool, from: nat)
    requires from + EOF_BURST < TWO32
    ensures Numbered(Marks(stopRequested, from), from)
  {
  }

  lemma {:induction false} MarksAreSilent(t: Tx, n: nat)
    ensures Samples(SendEofs(t, n).1) == [] && FrameCount(SendEofs(t, n).1) == 0
    ensures SendEofs(t, n).0 == t.(counter := SendEofs(t, n).0.counter)
    decreases n
  {
    if n > 0 && !t.stopRequested {
      var (t1, out) := SendEof(t);
      MarksAreSilent(t1, n - 1);
      if out != [] {
        SentOne(out[0]);
      }
      SentAppend(out, SendEofs(t1, n - 1).1);
    }
  }

  lemma EndConserves(t: Tx, enc: Encoder)
    requires Ready(t) && GoodEncoder(enc) && t.open
    ensures var (t1, out) := TxEnd(t, enc);
            && Ready(t1) && !t1.open && t1.buffer == []
            && Samples(out) == PadUp(t.buffer, t.frame)
            && FrameCount(out) == FramesFor(|t.buffer|, t.frame)
  {
    FlushSends(t, enc);
    var (t1, audio) := Flush(t, enc);
    hide Flush, SendEofs;
    MarksAreSilent(t1.(buffer := [], open := false), EOF_BURST);
    SentAppend(audio, EofBurst(t1.(buffer := [], open := false)).1);
  }

  /**
   A whole transmission: whatever body items come between opening and closing, the samples of the frames
   are those in hand and those submitted, zero-padded to whole frames at every voice end and at the close;
   so the number of frames is the sum over the segments of the rounded-up quotient.
   */
  lemma {:induction false} TransmissionConserves(t: Tx, enc: Encoder, body: seq<Item>)
    requires Ready(t) && GoodEncoder(enc) && t.open && Body(body)
    ensures var (t1, out) := ProcessAll(t, enc, body + [Close]);
            && Ready(t1) && !t1.open && t1.buffer == []
            && Samples(out) == Script(body + [VoiceEnd], t.buffer, t.frame)
            && FrameCount(out) == ScriptFrames(body + [VoiceEnd], |t.buffer|, t.frame)
    decreases body
  {
    if body == [] {
      assert body + [Close] == [Close] && body + [VoiceEnd] == [VoiceEnd];
      assert [Close][1..] == [] && [VoiceEnd][1..] == [];
      EndConserves(t, enc);
      hide TxEnd;
      var out := TxEnd(t, enc).1;
      assert ProcessAll(t, enc, [Close]).1 == out + [];
      assert out + [] == out;
      assert PadUp(t.buffer, t.frame) + [] == PadUp(t.buffer, t.frame);
    } else {
      hide Process, Script, ScriptFrames;
      var (t1, out) := Process(t, enc, body[0]);
      var rest := body[1..];
      assert (body + [Close])[1..] == rest + [Close] && body + [VoiceEnd] == [body[0]] + (rest + [VoiceEnd]);
      ItemConserves(t, enc, body[0], rest + [VoiceEnd]);
      TransmissionConserves(t1, enc, rest);
      SentAppend(out, ProcessAll(t1, enc, rest + [Close]).1);
    }
  }

  // ---------- Consecutive numbers over any run ----------

  lemma ItemNumbers(t: Tx, enc: Encoder, item: Item)
    requires Ready(t) && GoodEncoder(enc) && FitsDatagram(item)
    requires t.counter + |Process(t, enc, item).1| + EOF_BURST < TWO32
    ensures var (t1, out) := Process(t, enc, item);
            Ready(t1) && Numbered(out, t.counter) && t1.counter == t.counter + |out|
  {
    hide TxEnd, Flush;
    if t.open && (item.Open? || item.Close? || item.Watchdog?) {
      EndNumbers(t, enc);
    } else if t.open && item.VoiceEnd? {
      FlushSends(t, enc);
      FlushNumbers(t, enc);
    } else if item.Pcm? && t.open && item.samples != [] && |t.buffer + item.samples| >= t.frame {
      SendFrameSends(t.(buffer := t.buffer + item.samples), enc);
    } else if item.Close? {
      EndClosed(t, enc);
    }
  }

  lemma EndClosed(t: Tx, enc: Encoder)
    requires !t.open
    ensures TxEnd(t, enc) == (t, [])
  {
  }

  /**
   On every run of the queue, audio frames and end markers together carry consecutive numbers; so the
   markers of a transmission, which are sent last, lie above all its audio.
   */
  lemma {:induction false} RunNumbers(t: Tx, enc: Encoder, items: seq<Item>)
    requires Ready(t) && GoodEncoder(enc) && (forall item :: item in items ==> FitsDatagram(item))
    requires t.counter + |ProcessAll(t, enc, items).1| + EOF_BURST < TWO32
    ensures var (t1, out) := ProcessAll(t, enc, items);
            Ready(t1) && Numbered(out, t.counter) && t1.counter == t.counter + |out|
    decreases items
  {
    if items != [] {
      hide Process;
      var (t1, out) := Process(t, enc, items[0]);
      assert items[0] in items;
      var rest := items[1..];
      var outs := ProcessAll(t1, enc, rest).1;
      assert |ProcessAll(t, enc, items).1| == |out| + |outs|;
      ItemNumbers(t, enc, items[0]);
      RunNumbers(t1, enc, rest);
      NumberedJoin(out, outs, t.counter);
    }
  }

  // ---------- Payloads ----------

  /** Every frame that was sent carries the encoding of its samples, and is a whole frame. */
  predicate Encoded(out: seq<Sent>, enc: Encoder, n: int)
  {
    forall s :: s in out && IsFrame(s) ==>
      |s.source.samples| == n && enc(s.source.samples) == Some(s.payload)
  }

  lemma {:induction false} FlushEncodes(t: Tx, enc: Encoder)
    requires Ready(t) && GoodEncoder(enc)
    ensures Encoded(Flush(t, enc).1, enc, t.frame)
    decreases |t.buffer|
  {
    if t.buffer != [] {
      FlushStep(t, enc);
      var left := if |t.buffer| < t.frame then [] else t.buffer[t.frame..];
      FlushEncodes(t.(buffer := left, counter := Add32(t.counter, 1)), enc);
    }
  }

  lemma {:induction false} MarksEncode(t: Tx, enc: Encoder, n: nat)
    ensures Encoded(SendEofs(t, n).1, enc, t.frame)
    decreases n
  {
    if n > 0 && !t.stopRequested {
      MarksEncode(SendEof(t).0, enc, n - 1);
    }
  }

  lemma EndEncodes(t: Tx, enc: Encoder)
    requires Ready(t) && GoodEncoder(enc)
    ensures Encoded(TxEnd(t, enc).1, enc, t.frame)
    ensures Ready(TxEnd(t, enc).0) && TxEnd(t, enc).0.frame == t.frame
  {
    FlushSends(t, enc);
    FlushEncodes(t, enc);
    var t1 := Flush(t, enc).0.(buffer := [], open := false);
    MarksEncode(t1, enc, EOF_BURST);
    MarksAreSilent(t1, EOF_BURST);
  }

  lemma FrameEncodes(t: Tx, enc: Encoder)
    requires Ready(t) && GoodEncoder(enc) && t.frame <= |t.buffer|
    ensures var (t1, out) := SendFrame(t, enc); Encoded(out, enc, t.frame) && Ready(t1) && t1.frame == t.frame
  {
    SendFrameSends(t, enc);
  }

  lemma FeedEncodes(t: Tx, enc: Encoder, samples: seq<int>)
    requires Ready(t) && GoodEncoder(enc)
    ensures var (t1, out) := Feed(t, enc, samples); Encoded(out, enc, t.frame) && Ready(t1) && t1.frame == t.frame
  {
    hide SendFrame, Encoded;
    NothingEncodes(enc, t.frame);
    var t1 := t.(buffer := t.buffer + samples);
    if |t1.buffer| >= t.frame {
      FrameEncodes(t1, enc);
    }
  }

  lemma NothingEncodes(enc: Encoder, n: int)
    ensures Encoded([], enc, n)
  {
  }

  lemma RawEncodes(t: Tx, enc: Encoder, data: seq<byte>)
    requires Ready(t)
    ensures var (t1, out) := SendRaw(t, data); Encoded(out, enc, t.frame) && Ready(t1) && t1.frame == t.frame
  {
  }

  lemma FlushStaysReady(t: Tx, enc: Encoder)
    requires Ready(t) && GoodEncoder(enc)
    ensures Ready(Flush(t, enc).0) && Flush(t, enc).0.frame == t.frame
  {
    FlushSends(t, enc);
  }

  lemma ItemEncodes(t: Tx, enc: Encoder, item: Item)
    requires Ready(t) && GoodEncoder(enc)
    ensures Encoded(Process(t, enc, item).1, enc, t.frame)
    ensures Ready(Process(t, enc, item).0) && Process(t, enc, item).0.frame == t.frame
  {
    hide TxEnd, Flush, Feed, SendRaw, Encoded;
    NothingEncodes(enc, t.frame);
    match item {
      case Open => EndEncodes(t, enc);
      case Pcm(samples) => FeedEncodes(t, enc, samples);
      case Opus(data) => RawEncodes(t, enc, data);
      case VoiceEnd =>
        FlushEncodes(t, enc);
        FlushStaysReady(t, enc);
      case Close => EndEncodes(t, enc);
      case Abort =>
      case Watchdog => EndEncodes(t, enc);
    }
  }

  /** On every run, each frame on the wire is one whole frame of samples, encoded. */
  lemma {:induction false} RunEncodes(t: Tx, enc: Encoder, items: seq<Item>)
    requires Ready(t) && GoodEncoder(enc)
    ensures Encoded(ProcessAll(t, enc, items).1, enc, t.frame)
    decreases items
  {
    if items != [] {
      ItemEncodes(t, enc, items[0]);
      RunEncodes(Process(t, enc, items[0]).0, enc, items[1..]);
    }
  }
}
