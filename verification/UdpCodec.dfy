/** The nine-byte datagram header: packing, the two parsers, and the kinds of datagram. */
module UdpCodec {
  import opened Packets

  const HEADER: nat := 9
  const MAX_OPUS: nat := 65535
  const KEEPALIVE_SIGNAL: byte := 255
  const KEEPALIVE_ACK: byte := 254

  /** The low octet. */
  function Low(n: int): byte
  {
    n % 0x100
  }

  /** The four octets of a number, most significant first. */
  function Octets(n: uint32): seq<byte>
  {
    [Low(n / 0x100_0000), Low(n / 0x1_0000), Low(n / 0x100), Low(n)]
  }

  function Number(b: seq<byte>): (n: uint32)
    requires |b| == 4
  {
    b[0] as int * 0x100_0000 + b[1] as int * 0x1_0000 + b[2] as int * 0x100 + b[3]
  }

  lemma SplitLow(n: int)
    ensures n == n / 0x100 * 0x100 + Low(n)
    ensures n / 0x100 / 0x100 == n / 0x1_0000
  {
  }

  lemma NumberOfOctets(n: uint32)
    ensures Number(Octets(n)) == n
  {
    SplitLow(n);
    SplitLow(n / 0x100);
    SplitLow(n / 0x1_0000);
    assert n / 0x1_0000 / 0x100 == n / 0x100_0000 == Low(n / 0x100_0000);
  }

  lemma HighPart(a: int, b: byte)
    ensures (a * 0x100 + b) / 0x100 == a && Low(a * 0x100 + b) == b
  {
  }

  lemma {:induction false} OctetsOfNumber(b: seq<byte>)
    requires |b| == 4
    ensures Octets(Number(b)) == b
  {
    var n := Number(b);
    var n1: int := b[0] as int * 0x100 + b[1];
    var n2: int := n1 * 0x100 + b[2];
    assert n == n2 * 0x100 + b[3];
    HighPart(n2, b[3]);
    HighPart(n1, b[2]);
    HighPart(b[0], b[1]);
    assert n / 0x1_0000 == n1 && n / 0x100_0000 == b[0];
  }

  function Pack(p: AudioPacket): Option<seq<byte>>
  {
    if |p.opus| > MAX_OPUS then None
    else Some(Octets(p.sessionId) + Octets(p.sequence) + [p.signal] + p.opus)
  }

  /** The parser of the client library. */
  function Unpack(buf: seq<byte>): Option<AudioPacket>
  {
    if |buf| < HEADER then None
    else Some(AudioPacket(Number(buf[0..4]), Number(buf[4..8]), buf[8], buf[HEADER..]))
  }

  /** The parser of the relay: n bytes of a larger receive buffer were read. */
  function ParseAudioPacket(buf: seq<byte>, n: nat): Option<AudioPacket>
    requires n <= |buf|
  {
    if n < HEADER then None
    else Some(AudioPacket(Number(buf[0..4]), Number(buf[4..8]), buf[8], buf[HEADER..n]))
  }

  /** Unpacking what was packed gives the packet back, for every payload that can be packed. */
  lemma {:induction false} UnpackPack(p: AudioPacket)
    requires |p.opus| <= MAX_OPUS
    ensures Pack(p).Some? && Unpack(Pack(p).value) == Some(p)
  {
    var buf := Pack(p).value;
    assert buf[0..4] == Octets(p.sessionId) && buf[4..8] == Octets(p.sequence);
    assert buf[HEADER..] == p.opus;
    NumberOfOctets(p.sessionId);
    NumberOfOctets(p.sequence);
  }

  /** No two datagrams unpack to the same packet: packing what was unpacked gives the datagram back. */
  lemma PackUnpack(buf: seq<byte>)
    requires HEADER <= |buf| <= HEADER + MAX_OPUS
    ensures Unpack(buf).Some? && Pack(Unpack(buf).value) == Some(buf)
  {
    OctetsOfNumber(buf[0..4]);
    OctetsOfNumber(buf[4..8]);
    assert buf == buf[0..4] + buf[4..8] + [buf[8]] + buf[HEADER..];
  }

  /** Both parsers read every datagram the same way, whatever follows it in the relay's buffer. */
  lemma ParsersAgree(buf: seq<byte>, n: nat)
    requires n <= |buf|
    ensures ParseAudioPacket(buf, n) == Unpack(buf[..n])
  {
    if n >= HEADER {
      assert buf[..n][0..4] == buf[0..4] && buf[..n][4..8] == buf[4..8] && buf[..n][HEADER..] == buf[HEADER..n];
    }
  }

  // ---------- Kinds of datagram ----------

  predicate IsKeepaliveSignal(buf: seq<byte>)
  {
    |buf| == HEADER
    && var p := Unpack(buf).value; p.sequence == 0 && p.signal == KEEPALIVE_SIGNAL && p.opus == []
  }

  predicate IsKeepaliveAck(buf: seq<byte>, sessionId: uint32)
  {
    |buf| == HEADER
    && var p := Unpack(buf).value;
       p.sessionId == sessionId && p.sequence == 0 && p.signal == KEEPALIVE_ACK && p.opus == []
  }

  predicate IsTxEofMarker(buf: seq<byte>)
  {
    |buf| == HEADER
    && var p := Unpack(buf).value; p.sequence > 0 && p.signal == 0 && p.opus == []
  }

  /** How the relay routes a parsed packet. */
  datatype Kind = Eof | Keepalive | Ignored | Audio

  predicate IsUdpEofMarker(p: AudioPacket)
  {
    |p.opus| == 0 && p.signal == 0 && p.sequence > 0
  }

  function Route(p: AudioPacket): Kind
  {
    if IsUdpEofMarker(p) then Eof
    else if |p.opus| == 0 then
      if p.sequence == 0 && p.signal == KEEPALIVE_SIGNAL then Keepalive else Ignored
    else Audio
  }

  /**
   The client's three tests and the relay's routing tell the same kinds apart on every datagram; the
   kinds exclude each other, and audio is exactly what is longer than a header.
   */
  lemma KindsAgree(buf: seq<byte>, sessionId: uint32)
    requires HEADER <= |buf|
    ensures var kind := Route(ParseAudioPacket(buf, |buf|).value);
            && (IsTxEofMarker(buf) <==> kind == Eof)
            && (IsKeepaliveSignal(buf) <==> kind == Keepalive)
            && (IsKeepaliveAck(buf, sessionId) ==> kind == Ignored)
            && (|buf| > HEADER <==> kind == Audio)
  {
    ParsersAgree(buf, |buf|);
    assert buf[..|buf|] == buf;
  }

  // ---------- The packer as the loop over the output buffer ----------

  method PutNumber(out: array<byte>, at: nat, n: uint32)
    requires at + 4 <= out.Length
    modifies out
    ensures out[at..at + 4] == Octets(n)
    ensures forall i :: 0 <= i < out.Length && !(at <= i < at + 4) ==> out[i] == old(out[i])
  {
    hide Low;
    out[at], out[at + 1], out[at + 2], out[at + 3] :=
      Low(n / 0x100_0000), Low(n / 0x1_0000), Low(n / 0x100), Low(n);
  }

  method PutHeader(out: array<byte>, session: uint32, sequence: uint32, signal: byte)
    requires HEADER <= out.Length
    modifies out
    ensures out[..HEADER] == Octets(session) + Octets(sequence) + [signal]
  {
    hide Octets;
    PutNumber(out, 0, session);
    ghost var first := out[0..4];
    PutNumber(out, 4, sequence);
    assert out[0..4] == first;
    ghost var both := out[0..4] + out[4..8];
    out[8] := signal;
    assert out[..HEADER] == out[0..4] + out[4..8] + [out[8]];
    assert out[0..4] + out[4..8] == both;
  }

  method PutPayload(out: array<byte>, payload: seq<byte>)
    requires out.Length == HEADER + |payload|
    modifies out
    ensures out[..HEADER] == old(out[..HEADER]) && out[HEADER..] == payload
  {
    for i := 0 to |payload|
      invariant out[..HEADER] == old(out[..HEADER])
      invariant forall k :: 0 <= k < i ==> out[HEADER + k] == payload[k]
    {
      out[HEADER + i] := payload[i];
    }
  }

  method PackInto(p: AudioPacket) returns (ok: bool, out: array<byte>)
    ensures ok <==> Pack(p).Some?
    ensures ok ==> out[..] == Pack(p).value
  {
    hide Low, Octets;
    if |p.opus| > MAX_OPUS {
      ok, out := false, new byte[0];
      return;
    }
    out := new byte[HEADER + |p.opus|];
    PutHeader(out, p.sessionId, p.sequence, p.signal);
    PutPayload(out, p.opus);
    assert out[..] == out[..HEADER] + out[HEADER..];
    ok := true;
  }

  // ---------- Where the fields are ----------

  /** Session and number stand in the first eight octets, most significant first, then the signal, then the payload. */
  lemma FieldsInPlace(p: AudioPacket)
    requires |p.opus| <= MAX_OPUS
    ensures Pack(p).Some?
    ensures var d := Pack(p).value;
            && |d| == 9 + |p.opus|
            && d[0] as int * 16777216 + d[1] as int * 65536 + d[2] as int * 256 + d[3] == p.sessionId
            && d[4] as int * 16777216 + d[5] as int * 65536 + d[6] as int * 256 + d[7] == p.sequence
            && d[8] == p.signal && d[9..] == p.opus
  {
    UnpackPack(p);
  }
}
