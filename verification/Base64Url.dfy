/**
 Base64 with the alphabet for addresses and no padding, section 5 of RFC 4648, as the desktop client
 writes and reads it. A text is a string with one character for each octet.
 */
module Base64Url {
  import opened Packets
  import UdpCodec

  type sextet = v: int | 0 <= v < 64

  const PAD: char := '='

  /** The standard alphabet: capitals, small letters, digits, plus and slash. */
  function Letter(v: sextet): (c: char)
    ensures Value(c) == Some(v) && c != PAD && c != '-' && c != '_'
  {
    if v < 26 then 'A' + v as char
    else if v < 52 then 'a' + (v - 26) as char
    else if v < 62 then '0' + (v - 52) as char
    else if v == 62 then '+' else '/'
  }

  function Value(c: char): (v: Option<sextet>)
  {
    if 'A' <= c <= 'Z' then Some((c - 'A') as int)
    else if 'a' <= c <= 'z' then Some((c - 'a') as int + 26)
    else if '0' <= c <= '9' then Some((c - '0') as int + 52)
    else if c == '+' then Some(62)
    else if c == '/' then Some(63)
    else None
  }

  /** The alphabet for addresses and back. */
  function Url(c: char): char
  {
    if c == '+' then '-' else if c == '/' then '_' else c
  }

  function Plain(c: char): char
  {
    if c == '-' then '+' else if c == '_' then '/' else c
  }

  function Map(f: char -> char, s: string): (r: string)
    ensures |r| == |s| && forall i :: 0 <= i < |s| ==> r[i] == f(s[i])
  {
    seq(|s|, i requires 0 <= i < |s| => f(s[i]))
  }

  // ---------- Three octets and four sextets ----------

  function Number(a: byte, b: byte, c: byte): (n: int)
    ensures 0 <= n < 0x100_0000
  {
    a as int * 0x1_0000 + b as int * 0x100 + c
  }

  /** The low sextet. */
  function Low(n: nat): sextet
  {
    n % 64
  }

  function Sextets(n: int): (v: seq<sextet>)
    requires 0 <= n < 0x100_0000
    ensures |v| == 4
  {
    [n / 0x4_0000, Low(n / 0x1000), Low(n / 64), Low(n)]
  }

  function Joined(a: sextet, b: sextet, c: sextet, d: sextet): (n: int)
    ensures 0 <= n < 0x100_0000
  {
    a as int * 0x4_0000 + b as int * 0x1000 + c as int * 64 + d
  }

  function Octets(n: int): (o: seq<byte>)
    requires 0 <= n < 0x100_0000
    ensures |o| == 3
  {
    [n / 0x1_0000, n / 0x100 % 0x100, n % 0x100]
  }

  lemma SextetsJoin(n: int)
    requires 0 <= n < 0x100_0000
    ensures var s := Sextets(n); Joined(s[0], s[1], s[2], s[3]) == n
  {
    hide Low;
    SplitLow(n);
    SplitLow(n / 64);
    SplitLow(n / 0x1000);
    DivideAgain(n);
  }

  lemma SplitLow(n: nat)
    ensures n == n / 64 * 64 + Low(n)
  {
  }

  lemma DivideAgain(n: nat)
    ensures n / 64 / 64 == n / 0x1000 && n / 0x1000 / 64 == n / 0x4_0000
  {
  }

  lemma LowOfMultiple(k: nat)
    ensures 64 * k / 64 == k && Low(64 * k) == 0
  {
  }

  lemma {:induction false} NumberSplits(a: byte, b: byte, c: byte)
    ensures Octets(Number(a, b, c)) == [a, b, c]
  {
    var high: int := a as int * 0x100 + b;
    assert Number(a, b, c) == high * 0x100 + c;
    UdpCodec.HighPart(high, c);
    UdpCodec.HighPart(a, b);
    assert Number(a, b, c) / 0x1_0000 == high / 0x100;
  }

  // ---------- Encoding ----------

  /** Four letters of a number. */
  function Quad(n: int): (s: string)
    requires 0 <= n < 0x100_0000
    ensures |s| == 4
  {
    var v := Sextets(n);
    [Letter(v[0]), Letter(v[1]), Letter(v[2]), Letter(v[3])]
  }

  /** The last group, of no, one or two octets. */
  function Tail(data: seq<byte>): (s: string)
    requires |data| < 3
    ensures |s| == if data == [] then 0 else 4
  {
    if |data| == 1 then Quad(Number(data[0], 0, 0))[..2] + [PAD, PAD]
    else if |data| == 2 then Quad(Number(data[0], data[1], 0))[..3] + [PAD]
    else []
  }

  /** Standard base64 with padding. */
  function Standard(data: seq<byte>): (s: string)
    ensures |s| % 4 == 0
    decreases data
  {
    if |data| < 3 then Tail(data)
    else
      var q, rest := Quad(Number(data[0], data[1], data[2])), Standard(data[3..]);
      FourMore(q, rest);
      q + rest
  }

  lemma FourMore(q: string, rest: string)
    requires |q| == 4 && |rest| % 4 == 0
    ensures |q + rest| % 4 == 0
  {
  }

  function Stripped(s: string): string
    decreases s
  {
    if s != [] && s[|s| - 1] == PAD then Stripped(s[..|s| - 1]) else s
  }

  function Encode(data: seq<byte>): string
  {
    Stripped(Map(Url, Standard(data)))
  }

  method Base64UrlEncode(data: seq<byte>) returns (out: string)
    ensures out == Encode(data)
  {
    hide Standard, Map, Stripped;
    out := EncodeStandard(data);
    out := Replaced(out, Url);
    out := StripPadding(out);
  }

  method StripPadding(text: string) returns (out: string)
    ensures out == Stripped(text)
  {
    out := text;
    while out != [] && out[|out| - 1] == PAD
      invariant Stripped(out) == Stripped(text)
    {
      out := out[..|out| - 1];
    }
  }

  method EncodeStandard(data: seq<byte>) returns (out: string)
    ensures out == Standard(data)
  {
    hide Standard, Quad, Tail;
    out := "";
    var i := 0;
    assert data[0..] == data && "" + Standard(data) == Standard(data);
    while i + 3 <= |data|
      invariant 0 <= i <= |data|
      invariant out + Standard(data[i..]) == Standard(data)
    {
      ghost var rest := data[i..];
      assert rest[0] == data[i] && rest[1] == data[i + 1] && rest[2] == data[i + 2] && rest[3..] == data[i + 3..];
      StandardStep(rest);
      var quad := EncodeQuad(Number(data[i], data[i + 1], data[i + 2]));
      Regroup(out, quad, Standard(data[i + 3..]));
      out := out + quad;
      i := i + 3;
    }
    StandardStep(data[i..]);
    var tail := EncodeTail(data[i..]);
    out := out + tail;
  }

  method EncodeQuad(n: int) returns (out: string)
    requires 0 <= n < 0x100_0000
    ensures out == Quad(n)
  {
    var v := Sextets(n);
    out := [Letter(v[0])];
    out := out + [Letter(v[1])];
    out := out + [Letter(v[2])];
    out := out + [Letter(v[3])];
  }

  method EncodeTail(data: seq<byte>) returns (out: string)
    requires |data| < 3
    ensures out == Tail(data)
  {
    out := "";
    if |data| == 1 {
      var v := Sextets(Number(data[0], 0, 0));
      out := [Letter(v[0]), Letter(v[1]), PAD, PAD];
    } else if |data| == 2 {
      var v := Sextets(Number(data[0], data[1], 0));
      out := [Letter(v[0]), Letter(v[1]), Letter(v[2]), PAD];
    }
  }

  lemma StandardStep(data: seq<byte>)
    ensures Standard(data)
            == if |data| < 3 then Tail(data) else Quad(Number(data[0], data[1], data[2])) + Standard(data[3..])
  {
  }

  lemma Regroup(a: string, b: string, c: string)
    ensures a + b + c == a + (b + c)
  {
  }

  /** The loop over the characters of a text that replaces some of them. */
  method Replaced(text: string, f: char -> char) returns (out: string)
    ensures out == Map(f, text)
  {
    out := text;
    var i := 0;
    while i < |out|
      invariant 0 <= i <= |out| == |text|
      invariant forall k :: 0 <= k < |text| ==> out[k] == if k < i then f(text[k]) else text[k]
    {
      out := out[i := f(out[i])];
      i := i + 1;
    }
  }

  // ---------- Decoding ----------

  function Padded(s: string): (r: string)
    ensures |r| % 4 == 0
  {
    if |s| % 4 == 1 then s + [PAD, PAD, PAD]
    else if |s| % 4 == 2 then s + [PAD, PAD]
    else if |s| % 4 == 3 then s + [PAD]
    else s
  }

  function PadValue(c: char): Option<sextet>
  {
    if c == PAD then Some(0) else Value(c)
  }

  predicate GroupOk(c0: char, c1: char, c2: char, c3: char)
  {
    Value(c0).Some? && Value(c1).Some? && PadValue(c2).Some? && PadValue(c3).Some?
  }

  /** The octets of one group; padding leaves out the octet it stands for. */
  function Group(c0: char, c1: char, c2: char, c3: char): seq<byte>
    requires GroupOk(c0, c1, c2, c3)
  {
    var o := Octets(Joined(Value(c0).value, Value(c1).value, PadValue(c2).value, PadValue(c3).value));
    [o[0]] + (if c2 != PAD then [o[1]] else []) + (if c3 != PAD then [o[2]] else [])
  }

  lemma FourLess(n: nat)
    requires n % 4 == 0 && n > 0
    ensures n >= 4 && (n - 4) % 4 == 0
  {
  }

  /** What follows the first group. */
  function Rest(s: string): (r: string)
    requires |s| % 4 == 0 && s != []
    ensures |s| >= 4 && r == s[4..] && |r| % 4 == 0
  {
    FourLess(|s|);
    s[4..]
  }

  function DecodeGroups(s: string): Option<seq<byte>>
    requires |s| % 4 == 0
    decreases |s|
  {
    if s == [] then Some([])
    else
      var later := Rest(s);
      if !GroupOk(s[0], s[1], s[2], s[3]) then None
      else
        var rest := DecodeGroups(later);
        if rest.None? then None else Some(Group(s[0], s[1], s[2], s[3]) + rest.value)
  }

  function Decode(input: string): Option<seq<byte>>
  {
    DecodeGroups(Padded(Map(Plain, input)))
  }

  function Prepend(out: seq<byte>, rest: Option<seq<byte>>): Option<seq<byte>>
  {
    if rest.None? then None else Some(out + rest.value)
  }

  lemma PrependTwice(a: seq<byte>, b: seq<byte>, rest: Option<seq<byte>>)
    ensures Prepend(a, Prepend(b, rest)) == Prepend(a + b, rest)
  {
    if rest.Some? {
      assert a + (b + rest.value) == a + b + rest.value;
    }
  }

  method Base64UrlDecode(input: string) returns (ok: bool, out: seq<byte>)
    ensures ok <==> Decode(input).Some?
    ensures ok ==> out == Decode(input).value
  {
    hide Group, GroupOk, DecodeGroups, Padded, Map;
    var s := Replaced(input, Plain);
    s := PadToQuads(s);
    out := [];
    var i := 0;
    PrependNothing(DecodeGroups(s));
    assert s[0..] == s;
    while i < |s|
      invariant 0 <= i <= |s| && i % 4 == 0 && |s| % 4 == 0
      invariant DecodeGroups(s) == Prepend(out, DecodeGroups(s[i..]))
    {
      var c0, c1, c2, c3 := s[i], s[i + 1], s[i + 2], s[i + 3];
      GroupStep(s[i..]);
      assert s[i..][4..] == s[i + 4..];
      var bytes;
      ok, bytes := DecodeGroup(c0, c1, c2, c3);
      if !ok {
        return false, out;
      }
      PrependTwice(out, bytes, DecodeGroups(s[i + 4..]));
      out := out + bytes;
      i := i + 4;
    }
    GroupStep(s[i..]);
    assert out + [] == out;
    ok := true;
  }

  lemma PrependNothing(rest: Option<seq<byte>>)
    ensures Prepend([], rest) == rest
  {
    if rest.Some? {
      assert [] + rest.value == rest.value;
    }
  }

  lemma GroupStep(s: string)
    requires |s| % 4 == 0
    ensures s == [] ==> DecodeGroups(s) == Some([])
    ensures s != [] ==>
              var rest := Rest(s);
              DecodeGroups(s) == if GroupOk(s[0], s[1], s[2], s[3])
                                 then Prepend(Group(s[0], s[1], s[2], s[3]), DecodeGroups(rest)) else None
  {
  }

  method PadToQuads(text: string) returns (s: string)
    ensures s == Padded(text)
  {
    s := text;
    while |s| % 4 != 0
      invariant Padded(s) == Padded(text)
      decreases (4 - |s| % 4) % 4
    {
      PadOnce(s);
      s := s + [PAD];
    }
  }

  lemma PadOnce(s: string)
    requires |s| % 4 != 0
    ensures Padded(s + [PAD]) == Padded(s)
  {
    assert s + [PAD] + [PAD, PAD] == s + [PAD, PAD, PAD];
    assert s + [PAD] + [PAD] == s + [PAD, PAD];
  }

  /** One group of four characters: refused, or turned into its octets. */
  method DecodeGroup(c0: char, c1: char, c2: char, c3: char) returns (ok: bool, out: seq<byte>)
    ensures ok <==> GroupOk(c0, c1, c2, c3)
    ensures ok ==> out == Group(c0, c1, c2, c3)
  {
    out := [];
    if Value(c0).None? || Value(c1).None? {
      return false, out;
    }
    var v2 := if c2 == PAD then Some(0) else Value(c2);
    var v3 := if c3 == PAD then Some(0) else Value(c3);
    if (c2 != PAD && v2.None?) || (c3 != PAD && v3.None?) {
      return false, out;
    }
    var o := Octets(Joined(Value(c0).value, Value(c1).value, v2.value, v3.value));
    out := out + [o[0]];
    if c2 != PAD {
      out := out + [o[1]];
    }
    if c3 != PAD {
      out := out + [o[2]];
    }
    ok := true;
  }

  // ---------- One group, there and back ----------

  lemma {:induction false} QuadDecodes(a: byte, b: byte, c: byte)
    ensures var q := Quad(Number(a, b, c));
            GroupOk(q[0], q[1], q[2], q[3]) && Group(q[0], q[1], q[2], q[3]) == [a, b, c]
  {
    SextetsJoin(Number(a, b, c));
    NumberSplits(a, b, c);
  }

  /** Missing octets count as zero, and the letters that padding replaces are those of zero bits. */
  lemma {:induction false} TailDecodes(data: seq<byte>)
    requires 0 < |data| < 3
    ensures var q := Tail(data); GroupOk(q[0], q[1], q[2], q[3]) && Group(q[0], q[1], q[2], q[3]) == data
  {
    if |data| == 1 {
      OneDecodes(data[0]);
    } else {
      TwoDecode(data[0], data[1]);
    }
  }

  lemma OneDecodes(a: byte)
    ensures var q := Tail([a]); GroupOk(q[0], q[1], q[2], q[3]) && Group(q[0], q[1], q[2], q[3]) == [a]
  {
    hide Octets, Sextets, Joined;
    var n := Number(a, 0, 0);
    SextetsJoin(n);
    NumberSplits(a, 0, 0);
    LowBits(a);
  }

  lemma TwoDecode(a: byte, b: byte)
    ensures var q := Tail([a, b]); GroupOk(q[0], q[1], q[2], q[3]) && Group(q[0], q[1], q[2], q[3]) == [a, b]
  {
    hide Octets, Sextets, Joined;
    var n := Number(a, b, 0);
    SextetsJoin(n);
    NumberSplits(a, b, 0);
    LowBitsOfTwo(a, b);
  }

  lemma LowBits(a: byte)
    ensures Sextets(Number(a, 0, 0))[2] == 0 && Sextets(Number(a, 0, 0))[3] == 0
  {
    var k: nat := a as int * 0x10;
    NumberOfOne(a);
    LowOfMultiple(64 * k);
    LowOfMultiple(k);
    LastSextets(Number(a, 0, 0));
  }

  lemma LowBitsOfTwo(a: byte, b: byte)
    ensures Sextets(Number(a, b, 0))[3] == 0
  {
    hide Low, Number;
    var k: nat := a as int * 0x400 + b as int * 4;
    NumberOfTwo(a, b);
    LowOfMultiple(k);
    LastSextets(Number(a, b, 0));
  }

  lemma LastSextets(n: int)
    requires 0 <= n < 0x100_0000
    ensures Sextets(n)[2] == Low(n / 64) && Sextets(n)[3] == Low(n)
  {
    hide Low;
  }

  lemma NumberOfOne(a: byte)
    ensures Number(a, 0, 0) == 64 * (64 * (a as int * 0x10))
  {
  }

  lemma NumberOfTwo(a: byte, b: byte)
    ensures Number(a, b, 0) == 64 * (a as int * 0x400 + b as int * 4)
  {
  }

  lemma {:induction false} StandardDecodes(data: seq<byte>)
    ensures DecodeGroups(Standard(data)) == Some(data)
    decreases data
  {
    hide Group, GroupOk, Quad, Tail, Number, DecodeGroups, Standard;
    StandardStep(data);
    if data == [] {
      EmptyTail();
      GroupStep([]);
    } else if |data| < 3 {
      TailDecodes(data);
      LastGroup(Tail(data), data);
    } else {
      StandardDecodes(data[3..]);
      QuadDecodes(data[0], data[1], data[2]);
      var q, rest := Quad(Number(data[0], data[1], data[2])), Standard(data[3..]);
      FirstGroup(q, rest, [data[0], data[1], data[2]], data[3..]);
      assert [data[0], data[1], data[2]] + data[3..] == data;
    }
  }

  lemma FirstGroup(q: string, rest: string, first: seq<byte>, later: seq<byte>)
    requires |q| == 4 && |rest| % 4 == 0 && DecodeGroups(rest) == Some(later)
    requires GroupOk(q[0], q[1], q[2], q[3]) && Group(q[0], q[1], q[2], q[3]) == first
    ensures |q + rest| % 4 == 0 && DecodeGroups(q + rest) == Some(first + later)
  {
    hide Group, GroupOk;
    var s := q + rest;
    assert |s| == 4 + |rest|;
    assert s[0] == q[0] && s[1] == q[1] && s[2] == q[2] && s[3] == q[3] && s[4..] == rest;
  }

  lemma EmptyTail()
    ensures Tail([]) == []
  {
  }

  lemma LastGroup(q: string, data: seq<byte>)
    requires |q| == 4 && GroupOk(q[0], q[1], q[2], q[3]) && Group(q[0], q[1], q[2], q[3]) == data
    ensures DecodeGroups(q) == Some(data)
  {
    assert q[4..] == [];
    assert data + [] == data;
  }

  predicate AllLetters(s: string)
  {
    forall i :: 0 <= i < |s| ==> Value(s[i]).Some?
  }

  lemma QuadLetters(n: int)
    requires 0 <= n < 0x100_0000
    ensures AllLetters(Quad(n))
  {
  }

  /** How many of the characters of standard base64 are letters. */
  function Letters(data: seq<byte>): (k: nat)
    ensures k % 4 != 1 && (data != [] ==> k >= 2)
    decreases data
  {
    if data == [] then 0 else if |data| < 3 then |data| + 1 else 4 + Letters(data[3..])
  }

  lemma TailShape(data: seq<byte>)
    requires |data| < 3
    ensures var s, k := Tail(data), Letters(data);
            k <= |s| && AllLetters(s[..k]) && s == Padded(s[..k])
  {
    if |data| == 1 {
      QuadLetters(Number(data[0], 0, 0));
      var s := Tail(data);
      assert s[..2] == Quad(Number(data[0], 0, 0))[..2] && s == s[..2] + [PAD, PAD];
    } else if |data| == 2 {
      QuadLetters(Number(data[0], data[1], 0));
      var s := Tail(data);
      assert s[..3] == Quad(Number(data[0], data[1], 0))[..3] && s == s[..3] + [PAD];
    }
  }

  /** Standard base64 is letters and at most two signs of padding, which complete the last group. */
  lemma {:induction false} StandardShape(data: seq<byte>)
    ensures var s, k := Standard(data), Letters(data);
            k <= |s| && AllLetters(s[..k]) && s == Padded(s[..k])
    decreases data
  {
    hide Quad, Tail, Number;
    if |data| < 3 {
      TailShape(data);
    } else {
      StandardShape(data[3..]);
      QuadLetters(Number(data[0], data[1], data[2]));
      ShapeGrows(Quad(Number(data[0], data[1], data[2])), Standard(data[3..]), Letters(data[3..]));
    }
  }

  lemma ShapeGrows(q: string, rest: string, j: nat)
    requires |q| == 4 && AllLetters(q) && j <= |rest| && AllLetters(rest[..j]) && rest == Padded(rest[..j])
    ensures var s := q + rest; AllLetters(s[..4 + j]) && s == Padded(s[..4 + j])
  {
    hide Padded;
    assert (q + rest)[..4 + j] == q + rest[..j];
    PaddedGrows(q, rest[..j]);
  }

  lemma PaddedGrows(q: string, t: string)
    requires |q| == 4
    ensures Padded(q + t) == q + Padded(t)
  {
    assert |q + t| == |t| + 4;
    assert (|t| + 4) % 4 == |t| % 4;
    Regroup(q, t, [PAD]);
    Regroup(q, t, [PAD, PAD]);
    Regroup(q, t, [PAD, PAD, PAD]);
  }

  // ---------- Round trip ----------

  lemma {:induction false} StrippedDrops(s: string, k: nat)
    requires k <= |s| && (forall i :: k <= i < |s| ==> s[i] == PAD) && (k > 0 ==> s[k - 1] != PAD)
    ensures Stripped(s) == s[..k]
    decreases |s|
  {
    if |s| == k {
    } else {
      StrippedDrops(s[..|s| - 1], k);
      assert s[..|s| - 1][..k] == s[..k];
    }
  }

  lemma PaddedEnds(t: string)
    ensures t <= Padded(t)
    ensures forall i :: |t| <= i < |Padded(t)| ==> Padded(t)[i] == PAD
  {
  }

  /** What is sent are the letters of the standard form, in the alphabet for addresses. */
  lemma {:induction false} EncodeIsLetters(data: seq<byte>)
    ensures Letters(data) <= |Standard(data)|
    ensures Encode(data) == Map(Url, Standard(data)[..Letters(data)])
  {
    hide Padded, Stripped, Standard, Letters;
    StandardShape(data);
    var s, k := Standard(data), Letters(data);
    PaddedEnds(s[..k]);
    var u := Map(Url, s);
    assert k > 0 ==> s[..k][k - 1] == s[k - 1];
    StrippedDrops(u, k);
    assert u[..k] == Map(Url, s[..k]);
  }

  lemma PlainUndoesUrl(s: string)
    requires AllLetters(s)
    ensures Map(Plain, Map(Url, s)) == s
  {
    forall i | 0 <= i < |s| ensures Plain(Url(s[i])) == s[i] {
      assert Value(s[i]).Some?;
    }
  }

  /** Reading back what was written gives the same octets, whatever they are. */
  lemma {:induction false} RoundTrip(data: seq<byte>)
    ensures Decode(Encode(data)) == Some(data)
  {
    EncodeIsLetters(data);
    StandardShape(data);
    PlainUndoesUrl(Standard(data)[..Letters(data)]);
    StandardDecodes(data);
  }

  /** Nothing but letters, digits, minus and underline is written, and no octets give no text. */
  lemma {:induction false} EncodedAlphabet(data: seq<byte>)
    ensures forall i :: 0 <= i < |Encode(data)| ==> Value(Plain(Encode(data)[i])).Some? && Encode(data)[i] !in "+/="
    ensures data != [] ==> |Encode(data)| >= 2
  {
    EncodeIsLetters(data);
    StandardShape(data);
    var t := Standard(data)[..Letters(data)];
    PlainUndoesUrl(t);
    forall i | 0 <= i < |Encode(data)|
      ensures Value(Plain(Encode(data)[i])).Some? && Encode(data)[i] !in "+/="
    {
      assert Map(Plain, Map(Url, t))[i] == t[i] && Value(t[i]).Some?;
      UrlAvoids(t[i]);
    }
  }

  lemma UrlAvoids(c: char)
    requires Value(c).Some?
    ensures Url(c) !in "+/="
  {
  }

  // ---------- What is accepted ----------

  /** A character that may stand at a place of the text: a letter, or padding in the second half of a group. */
  predicate Admissible(c: char, i: nat)
  {
    Value(Plain(c)).Some? || (c == PAD && i % 4 >= 2)
  }

  /** The same of a character of the standard alphabet. */
  predicate Stands(c: char, i: nat)
  {
    Value(c).Some? || (c == PAD && i % 4 >= 2)
  }

  predicate GroupsOk(s: string)
    requires |s| % 4 == 0
  {
    forall i :: 0 <= i < |s| ==> Stands(s[i], i)
  }

  lemma {:induction false} GroupsAcceptedIff(s: string)
    requires |s| % 4 == 0
    ensures DecodeGroups(s).Some? <==> GroupsOk(s)
    decreases s
  {
    hide GroupOk, Group;
    if s == [] {
    } else {
      var rest := s[4..];
      GroupsAcceptedIff(rest);
      FirstGroupIff(s);
      GroupStep(s);
    }
  }

  lemma StandsLater(c: char, i: nat)
    ensures Stands(c, i + 4) <==> Stands(c, i)
  {
  }

  lemma GroupStandsIff(s: string)
    requires |s| >= 4
    ensures GroupOk(s[0], s[1], s[2], s[3])
            <==> Stands(s[0], 0) && Stands(s[1], 1) && Stands(s[2], 2) && Stands(s[3], 3)
  {
  }

  lemma FirstGroupIff(s: string)
    requires |s| % 4 == 0 && s != []
    ensures GroupsOk(s) <==> GroupOk(s[0], s[1], s[2], s[3]) && GroupsOk(s[4..])
  {
    GroupStandsIff(s);
    hide Stands, GroupOk;
    var rest := s[4..];
    forall i | 0 <= i < |rest| ensures rest[i] == s[i + 4] && (Stands(s[i + 4], i + 4) <==> Stands(rest[i], i)) {
      StandsLater(rest[i], i);
    }
    if GroupOk(s[0], s[1], s[2], s[3]) && GroupsOk(rest) {
      forall i | 0 <= i < |s| ensures Stands(s[i], i) {
        if i >= 4 {
          assert rest[i - 4] == s[i];
        }
      }
    }
    if GroupsOk(s) {
      forall i | 0 <= i < |rest| ensures Stands(rest[i], i) {
        assert rest[i] == s[i + 4];
      }
    }
  }

  lemma PlainStandsIff(c: char, i: nat)
    ensures Stands(Plain(c), i) <==> Admissible(c, i)
  {
  }

  /** A text one character too long is filled up with padding in the second place of a group. */
  lemma OddIsRefused(t: string)
    requires |t| % 4 == 1
    ensures !GroupsOk(Padded(t))
  {
    assert Padded(t)[|t|] == PAD && !Stands(PAD, |t|);
  }

  lemma PaddingStands(t: string)
    requires |t| % 4 != 1
    ensures GroupsOk(Padded(t)) <==> forall i :: 0 <= i < |t| ==> Stands(t[i], i)
  {
    var p := Padded(t);
    PaddedEnds(t);
    PadPlaces(t);
    hide Padded, Stands;
    if GroupsOk(p) {
      forall i | 0 <= i < |t| ensures Stands(t[i], i) {
        assert p[i] == t[i];
      }
    }
  }

  lemma PadPlaces(t: string)
    requires |t| % 4 != 1
    ensures forall i :: |t| <= i < |Padded(t)| ==> Stands(PAD, i)
  {
    PaddedLength(t);
    hide Padded;
    if |t| % 4 == 2 {
      NextPlace(|t|);
    }
    forall i | |t| <= i < |Padded(t)| ensures Stands(PAD, i) {
      assert i == |t| || i == |t| + 1;
    }
  }

  lemma PaddedLength(t: string)
    ensures |t| % 4 == 0 ==> |Padded(t)| == |t|
    ensures |t| % 4 == 2 ==> |Padded(t)| == |t| + 2
    ensures |t| % 4 == 3 ==> |Padded(t)| == |t| + 1
  {
  }

  lemma NextPlace(n: nat)
    requires n % 4 == 2
    ensures (n + 1) % 4 == 3
  {
  }

  /**
   A text is accepted exactly when its length is not one more than a multiple of four and every character is
   a letter of one of the two alphabets, or padding in the third or fourth place of a group.
   */
  lemma {:induction false} AcceptedIff(input: string)
    ensures Decode(input).Some?
            <==> |input| % 4 != 1 && forall i :: 0 <= i < |input| ==> Admissible(input[i], i)
  {
    hide Padded, GroupsOk, DecodeGroups, Stands, Admissible, Plain;
    var t := Map(Plain, input);
    GroupsAcceptedIff(Padded(t));
    if |input| % 4 == 1 {
      OddIsRefused(t);
    } else {
      PaddingStands(t);
      forall i | 0 <= i < |input| ensures Stands(t[i], i) <==> Admissible(input[i], i) {
        PlainStandsIff(input[i], i);
      }
    }
  }
}
