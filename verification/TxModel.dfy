/**
 The client's transmit pipeline as a value: the buffer of samples, the sequence counter and what each
 queued item makes it send.
 */
module TxModel {
  import opened Packets

  const MAX_OPUS: nat := 65535
  const EOF_BURST: nat := 3

  /** The encoder: one frame in, a payload out, or a failure. */
  type Encoder = seq<int> -> Option<seq<byte>>

  datatype Source = PcmFrame(samples: seq<int>) | RawOpus

  /** What went out on the socket, in order. */
  datatype Sent =
    | Audio(sequence: uint32, signal: byte, source: Source, payload: seq<byte>)
    | EofMark(sequence: uint32)

  datatype Tx = Tx(
    connected: bool,
    udpSocket: bool,
    sessionId: uint32,
    stopRequested: bool,
    frame: int,
    signal: byte,
    open: bool,
    localTx: bool,
    buffer: seq<int>,
    counter: uint32)

  datatype Item =
    | Open
    | Pcm(samples: seq<int>)
    | Opus(data: seq<byte>)
    | VoiceEnd
    | Close
    | Abort
    | Watchdog

  function SendOpus(t: Tx, source: Source, payload: seq<byte>): (Tx, seq<Sent>)
  {
    if payload == [] then (t, [])
    else
      var t1 := t.(counter := Add32(t.counter, 1));
      if |payload| > MAX_OPUS || !t.udpSocket || !t.connected || t.sessionId == 0 then (t1, [])
      else (t1, [Audio(t1.counter, t.signal, source, payload)])
  }

  function Zeros(n: nat): (z: seq<int>)
    ensures |z| == n
  {
    seq(n, _ => 0)
  }

  /** One whole frame off the buffer, encoded and sent; a failing encoder empties the buffer. */
  function SendFrame(t: Tx, enc: Encoder): (r: (Tx, seq<Sent>))
    requires 0 < t.frame <= |t.buffer|
    ensures |r.0.buffer| <= |t.buffer| - t.frame
    ensures r.0 == t.(buffer := r.0.buffer, counter := r.0.counter)
  {
    var f := t.buffer[..t.frame];
    if enc(f).None? then (t.(buffer := []), [])
    else SendOpus(t.(buffer := t.buffer[t.frame..]), PcmFrame(f), enc(f).value)
  }

  /** A buffer shorter than a frame is filled up with zeros. */
  function Padded(t: Tx): Tx
  {
    if |t.buffer| < t.frame then t.(buffer := t.buffer + Zeros(t.frame - |t.buffer|)) else t
  }

  /** Sends everything in the buffer, the last frame padded with zeros. */
  function Flush(t: Tx, enc: Encoder): (Tx, seq<Sent>)
    decreases |t.buffer|
  {
    if t.frame <= 0 || t.buffer == [] then (t, [])
    else
      var (t2, out) := SendFrame(Padded(t), enc);
      var (t3, rest) := Flush(t2, enc);
      (t3, out + rest)
  }

  /** Samples of one queue item; at most one frame goes out for them. */
  function Feed(t: Tx, enc: Encoder, samples: seq<int>): (Tx, seq<Sent>)
  {
    if !t.connected || t.sessionId == 0 || !t.open || samples == [] || t.frame <= 0 then (t, [])
    else
      var t1 := t.(buffer := t.buffer + samples);
      if |t1.buffer| < t.frame then (t1, []) else SendFrame(t1, enc)
  }

  function SendRaw(t: Tx, data: seq<byte>): (Tx, seq<Sent>)
  {
    if !t.connected || t.sessionId == 0 || !t.open || data == [] then (t, [])
    else SendOpus(t, RawOpus, data)
  }

  function SendEof(t: Tx): (Tx, seq<Sent>)
  {
    if !t.udpSocket || t.sessionId == 0 then (t, [])
    else
      var t1 := t.(counter := Add32(t.counter, 1));
      (t1, if t.connected then [EofMark(t1.counter)] else [])
  }

  function SendEofs(t: Tx, n: nat): (Tx, seq<Sent>)
    decreases n
  {
    if n == 0 || t.stopRequested then (t, [])
    else
      var (t1, out) := SendEof(t);
      var (t2, rest) := SendEofs(t1, n - 1);
      (t2, out + rest)
  }

  function EofBurst(t: Tx): (Tx, seq<Sent>)
  {
    if !t.connected then (t, [])
    else
      var (t1, out) := SendEofs(t.(buffer := []), EOF_BURST);
      (t1.(localTx := false), out)
  }

  function TxStart(t: Tx): Tx
  {
    if !t.connected || t.sessionId == 0 then t else t.(buffer := [], open := true, localTx := true)
  }

  /** Closes the flushed transmission and sends the end markers. */
  function Finish(t: Tx): (Tx, seq<Sent>)
  {
    EofBurst(t.(buffer := [], open := false))
  }

  function TxEnd(t: Tx, enc: Encoder): (Tx, seq<Sent>)
  {
    if !t.connected || !t.open then (t, [])
    else
      var (t1, audio) := Flush(t, enc);
      (Finish(t1).0, audio + Finish(t1).1)
  }

  function Process(t: Tx, enc: Encoder, item: Item): (Tx, seq<Sent>)
  {
    match item
    case Open =>
      var (t1, out) := if t.open then TxEnd(t, enc) else (t, []);
      (TxStart(t1), out)
    case Pcm(samples) => if t.open then Feed(t, enc, samples) else (t, [])
    case Opus(data) => if t.open then SendRaw(t, data) else (t, [])
    case VoiceEnd => if t.open then Flush(t, enc) else (t, [])
    case Close => TxEnd(t, enc)
    case Abort => (t.(buffer := [], open := false, localTx := if t.open then false else t.localTx), [])
    case Watchdog => if t.open then TxEnd(t, enc) else (t, [])
  }

  function ProcessAll(t: Tx, enc: Encoder, items: seq<Item>): (Tx, seq<Sent>)
    decreases items
  {
    if items == [] then (t, [])
    else
      var (t1, out) := Process(t, enc, items[0]);
      var (t2, rest) := ProcessAll(t1, enc, items[1..]);
      (t2, out + rest)
  }
}
