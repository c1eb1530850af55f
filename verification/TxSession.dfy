/** The transmit side of a client session as the object its worker thread updates in place. */
module TxSession {
  import opened Packets
  import opened TxModel

  datatype Result = Ok | NotConnected | NotReady | InvalidArg

  class Session {
    var connected: bool
    var udpSocket: bool
    var sessionId: uint32
    var stopRequested: bool
    var frame: int
    var signal: byte
    var clientTxOpen: bool
    var localTxActive: bool
    var txPcmBuffer: seq<int>
    var counter: uint32
    /** What has been submitted and not yet taken by the worker. */
    var txQueue: seq<Item>
    /** What has gone out on the socket. */
    var log: seq<Sent>

    function View(): Tx
      reads this
    {
      Tx(connected, udpSocket, sessionId, stopRequested, frame, signal,
         clientTxOpen, localTxActive, txPcmBuffer, counter)
    }

    constructor (frameSamples: int)
      ensures !clientTxOpen && txPcmBuffer == [] && counter == 0 && txQueue == [] && log == []
    {
      connected, udpSocket, sessionId, stopRequested := false, false, 0, false;
      frame, signal := frameSamples, 255;
      clientTxOpen, localTxActive := false, false;
      txPcmBuffer, counter, txQueue, log := [], 0, [], [];
    }

    method SendOpusFrame(source: Source, payload: seq<byte>)
      modifies this`clientTxOpen, this`localTxActive, this`txPcmBuffer, this`counter, this`log
      ensures View() == SendOpus(old(View()), source, payload).0
      ensures log == old(log) + SendOpus(old(View()), source, payload).1
    {
      if |payload| == 0 {
        return;
      }
      counter := Add32(counter, 1);
      if |payload| > MAX_OPUS {
        return;
      }
      if !udpSocket || !connected || sessionId == 0 {
        return;
      }
      log := log + [Audio(counter, signal, source, payload)];
    }

    /** One trip around the flush loop, after the padding: encode a whole frame and send it. */
    method EncodeAndSend(enc: Encoder) returns (ok: bool)
      requires 0 < frame <= |txPcmBuffer|
      modifies this`clientTxOpen, this`localTxActive, this`txPcmBuffer, this`counter, this`log
      ensures View() == SendFrame(old(View()), enc).0
      ensures log == old(log) + SendFrame(old(View()), enc).1
      ensures ok <==> enc(old(txPcmBuffer)[..old(frame)]).Some?
    {
      var samples := txPcmBuffer[..frame];
      var encoded := enc(samples);
      if encoded.None? {
        txPcmBuffer := [];
        return false;
      }
      txPcmBuffer := txPcmBuffer[frame..];
      SendOpusFrame(PcmFrame(samples), encoded.value);
      ok := true;
    }

    /** Sends frame after frame until the buffer is empty, padding the last one with zeros. */
    method FlushTxPcmBuffer(enc: Encoder)
      modifies this`clientTxOpen, this`localTxActive, this`txPcmBuffer, this`counter, this`log
      ensures View() == Flush(old(View()), enc).0
      ensures log == old(log) + Flush(old(View()), enc).1
    {
      if frame <= 0 {
        return;
      }
      while |txPcmBuffer| > 0
        invariant frame == old(frame) > 0
        invariant Flush(View(), enc).0 == Flush(old(View()), enc).0
        invariant log + Flush(View(), enc).1 == old(log) + Flush(old(View()), enc).1
        decreases |txPcmBuffer|
      {
        ghost var t, before := View(), log;
        if |txPcmBuffer| < frame {
          txPcmBuffer := txPcmBuffer + Zeros(frame - |txPcmBuffer|);
        }
        var ok := EncodeAndSend(enc);
        FlushUnfolds(t, enc);
        Regroup(before, SendFrame(Padded(t), enc).1, Flush(View(), enc).1);
        if !ok {
          break;
        }
      }
    }

    method BeginTx() returns (r: Result)
      modifies this`clientTxOpen, this`localTxActive, this`txPcmBuffer, this`counter, this`log
      ensures View() == TxStart(old(View())) && log == old(log)
      ensures r == if old(connected) && old(sessionId) != 0 then Ok else NotConnected
    {
      if !connected || sessionId == 0 {
        return NotConnected;
      }
      txPcmBuffer := [];
      clientTxOpen := true;
      localTxActive := true;
      r := Ok;
    }

    method SendUdpTxEof()
      modifies this`clientTxOpen, this`localTxActive, this`txPcmBuffer, this`counter, this`log
      ensures View() == SendEof(old(View())).0
      ensures log == old(log) + SendEof(old(View())).1
    {
      if !udpSocket || sessionId == 0 {
        return;
      }
      counter := Add32(counter, 1);
      if connected {
        log := log + [EofMark(counter)];
      }
    }

    /** Three end markers, unless the session is told to stop. */
    method SendTxEofBurst() returns (r: Result)
      modifies this`clientTxOpen, this`localTxActive, this`txPcmBuffer, this`counter, this`log
      ensures View() == EofBurst(old(View())).0
      ensures log == old(log) + EofBurst(old(View())).1
      ensures r == if old(connected) then Ok else NotConnected
    {
      if !connected {
        return NotConnected;
      }
      txPcmBuffer := [];
      ghost var t0 := View();
      var i := 0;
      while i < EOF_BURST
        invariant 0 <= i <= EOF_BURST
        invariant SendEofs(View(), EOF_BURST - i).0 == SendEofs(t0, EOF_BURST).0
        invariant log + SendEofs(View(), EOF_BURST - i).1 == old(log) + SendEofs(t0, EOF_BURST).1
      {
        if stopRequested {
          break;
        }
        ghost var t, before := View(), log;
        SendUdpTxEof();
        Regroup(before, SendEof(t).1, SendEofs(View(), EOF_BURST - i - 1).1);
        i := i + 1;
      }
      assert log + [] == log;
      localTxActive := false;
      r := Ok;
    }

    method EndTx(enc: Encoder) returns (r: Result)
      modifies this`clientTxOpen, this`localTxActive, this`txPcmBuffer, this`counter, this`log
      ensures View() == TxEnd(old(View()), enc).0
      ensures log == old(log) + TxEnd(old(View()), enc).1
    {
      if !connected {
        return NotConnected;
      }
      if !clientTxOpen {
        return NotReady;
      }
      ghost var t, before := View(), log;
      FlushTxPcmBuffer(enc);
      txPcmBuffer := [];
      clientTxOpen := false;
      ghost var t1 := Flush(t, enc).0;
      FlushKeeps(t, enc);
      assert View() == t1.(buffer := [], open := false);
      hide Flush, EofBurst;
      r := SendTxEofBurst();
      Regroup(before, Flush(t, enc).1, Finish(t1).1);
    }

    method FeedTxPcm(enc: Encoder, samples: seq<int>) returns (r: Result)
      modifies this`clientTxOpen, this`localTxActive, this`txPcmBuffer, this`counter, this`log
      ensures View() == Feed(old(View()), enc, samples).0
      ensures log == old(log) + Feed(old(View()), enc, samples).1
    {
      if !connected || sessionId == 0 {
        return NotConnected;
      }
      if !clientTxOpen {
        return NotReady;
      }
      if |samples| == 0 {
        return InvalidArg;
      }
      if frame <= 0 {
        return NotReady;
      }
      txPcmBuffer := txPcmBuffer + samples;
      if |txPcmBuffer| < frame {
        return Ok;
      }
      var ok := EncodeAndSend(enc);
      r := if ok then Ok else NotReady;
    }

    /** Whatever has been submitted and whatever is in the buffer is thrown away. */
    method AbortTx()
      modifies this
      ensures log == old(log) && txQueue == []
      ensures forall enc: Encoder :: View() == Process(old(View()), enc, Abort).0
    {
      txQueue := [];
      txPcmBuffer := [];
      if clientTxOpen {
        clientTxOpen := false;
        localTxActive := false;
      }
    }

    /** The worker's dispatch on one queue item. */
    method ProcessTxItem(enc: Encoder, item: Item)
      modifies this
      ensures View() == Process(old(View()), enc, item).0
      ensures log == old(log) + Process(old(View()), enc, item).1
      ensures txQueue == if item.Abort? then [] else old(txQueue)
    {
      hide TxEnd, Flush, Feed;
      match item {
        case Open =>
          if clientTxOpen {
            var _ := EndTx(enc);
          }
          var _ := BeginTx();
        case Pcm(samples) =>
          if clientTxOpen {
            var _ := FeedTxPcm(enc, samples);
          }
        case Opus(data) =>
          if clientTxOpen && connected && sessionId != 0 && |data| > 0 {
            SendOpusFrame(RawOpus, data);
          }
        case VoiceEnd =>
          if clientTxOpen {
            FlushTxPcmBuffer(enc);
          }
        case Close =>
          var _ := EndTx(enc);
        case Abort =>
          AbortTx();
        case Watchdog =>
          if clientTxOpen {
            var _ := EndTx(enc);
          }
      }
    }

    /** The worker takes the oldest item; after an abort nothing that was submitted before is left to send. */
    method TakeTxItem(enc: Encoder)
      requires txQueue != []
      modifies this
      ensures var item := old(txQueue)[0];
              && View() == Process(old(View()), enc, item).0
              && log == old(log) + Process(old(View()), enc, item).1
              && txQueue == if item.Abort? then [] else old(txQueue)[1..]
    {
      var item := txQueue[0];
      txQueue := txQueue[1..];
      ProcessTxItem(enc, item);
    }
  }

  lemma FlushUnfolds(t: Tx, enc: Encoder)
    requires 0 < t.frame && t.buffer != []
    ensures var (t2, out) := SendFrame(Padded(t), enc);
            Flush(t, enc) == (Flush(t2, enc).0, out + Flush(t2, enc).1)
  {
  }

  lemma Regroup<X>(a: seq<X>, b: seq<X>, c: seq<X>)
    ensures a + b + c == a + (b + c)
  {
  }

  lemma {:induction false} FlushKeeps(t: Tx, enc: Encoder)
    ensures var t1 := Flush(t, enc).0; t1 == t.(buffer := t1.buffer, counter := t1.counter)
    decreases |t.buffer|
  {
    hide Flush, SendFrame;
    if 0 < t.frame && t.buffer != [] {
      FlushUnfolds(t, enc);
      FlushKeeps(SendFrame(Padded(t), enc).0, enc);
    } else {
      FlushOfNothing(t, enc);
    }
  }

  lemma FlushOfNothing(t: Tx, enc: Encoder)
    requires t.frame <= 0 || t.buffer == []
    ensures Flush(t, enc) == (t, [])
  {
  }
}
