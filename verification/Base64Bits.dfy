/**
 What the connection links' base64 writes, bit by bit: each character stands for the next six bits of the octets,
 in the alphabet for addresses, as section 5 of RFC 4648 and its table 2 say.
 */
module Base64Bits {
  import opened Packets
  import opened Base64Url

  /** The code of the character for a value in the alphabet for addresses. */
  function Code(v: sextet): int
  {
    if v < 26 then 65 + v        // A to Z
    else if v < 52 then 71 + v   // a to z
    else if v < 62 then v - 4    // 0 to 9
    else if v == 62 then 45      // minus
    else 95                      // underline
  }

  /** An octet of the data, which goes on with zeros. */
  function OctetAt(data: seq<byte>, k: nat): byte
  {
    if k < |data| then data[k] else 0
  }

  /** The i-th group of six bits, the high bits of an octet first. */
  function SixBits(data: seq<byte>, i: nat): sextet
  {
    var k := i / 4 * 3;
    var a, b, c := OctetAt(data, k), OctetAt(data, k + 1), OctetAt(data, k + 2);
    match i % 4
    case 0 => a / 4
    case 1 => a % 4 * 16 + b / 16
    case 2 => b % 16 * 4 + c / 64
    case _ => c % 64
  }

  lemma CodeIs(v: sextet)
    ensures Url(Letter(v)) as int == Code(v)
  {
  }

  lemma Sixteenths(b: byte)
    ensures b == b / 16 * 16 + b % 16 && 0 <= b / 16 < 16 && 0 <= b % 16 < 16
  {
  }

  lemma SixtyFourths(c: byte)
    ensures c == c / 64 * 64 + c % 64 && 0 <= c / 64 < 4 && 0 <= c % 64 < 64
  {
  }

  lemma Fourths(a: byte)
    ensures a == a / 4 * 4 + a % 4 && 0 <= a / 4 < 64 && 0 <= a % 4 < 4
  {
  }

  lemma LowIs(high: nat, low: nat)
    requires low < 64
    ensures (high * 64 + low) / 64 == high && Low(high * 64 + low) == low
  {
  }

  /** A number of three octets as four groups of six bits. */
  lemma FourGroups(a: byte, b: byte, c: byte)
    ensures var v, w, x, y: int := a / 4, a % 4 * 16 + b / 16, b % 16 * 4 + c / 64, c % 64;
            && 0 <= v < 64 && 0 <= w < 64 && 0 <= x < 64 && 0 <= y < 64
            && Number(a, b, c) == ((v * 64 + w) * 64 + x) * 64 + y
  {
    Fourths(a);
    Sixteenths(b);
    SixtyFourths(c);
  }

  lemma GroupsOf(v: nat, w: nat, x: nat, y: nat)
    requires v < 64 && w < 64 && x < 64 && y < 64
    ensures var n := ((v * 64 + w) * 64 + x) * 64 + y;
            n / 0x4_0000 == v && Low(n / 0x1000) == w && Low(n / 64) == x && Low(n) == y
  {
    hide Low;
    var n := ((v * 64 + w) * 64 + x) * 64 + y;
    LowIs((v * 64 + w) * 64 + x, y);
    LowIs(v * 64 + w, x);
    LowIs(v, w);
    DivideAgain(n);
  }

  function Triple(a: byte, b: byte, c: byte): seq<byte>
  {
    [a, b, c]
  }

  lemma SixOf(a: byte, b: byte, c: byte, j: nat)
    requires j < 4
    ensures SixBits(Triple(a, b, c), j)
            == match j
               case 0 => a / 4
               case 1 => a % 4 * 16 + b / 16
               case 2 => b % 16 * 4 + c / 64
               case _ => c % 64
  {
  }

  lemma QuadBits(a: byte, b: byte, c: byte, j: nat)
    requires j < 4
    ensures Quad(Number(a, b, c))[j] == Letter(SixBits(Triple(a, b, c), j))
  {
    hide Low, Letter, Number, SixBits;
    FourGroups(a, b, c);
    GroupsOf(a / 4, a % 4 * 16 + b / 16, b % 16 * 4 + c / 64, c % 64);
    SixOf(a, b, c, j);
  }

  /** Zeros at the end and what comes after a group do not matter to the group. */
  lemma GroupBits(data: seq<byte>, j: nat)
    requires j < 4
    ensures SixBits(Triple(OctetAt(data, 0), OctetAt(data, 1), OctetAt(data, 2)), j) == SixBits(data, j)
  {
  }

  lemma LaterBits(data: seq<byte>, i: nat)
    requires |data| >= 3 && i >= 4
    ensures SixBits(data[3..], i - 4) == SixBits(data, i)
  {
    assert (i - 4) / 4 * 3 == i / 4 * 3 - 3 && (i - 4) % 4 == i % 4;
  }

  lemma {:induction false} StandardBits(data: seq<byte>, i: nat)
    requires i < Letters(data)
    ensures i < |Standard(data)| && Standard(data)[i] == Letter(SixBits(data, i))
    decreases data
  {
    hide Letter, SixBits, Number, Quad;
    StandardShape(data);
    if i < 4 {
      var a, b, c := OctetAt(data, 0), OctetAt(data, 1), OctetAt(data, 2);
      QuadBits(a, b, c, i);
      GroupBits(data, i);
    } else {
      LaterBits(data, i);
      StandardBits(data[3..], i - 4);
    }
  }

  lemma {:induction false} LettersCount(data: seq<byte>)
    ensures Letters(data) == (4 * |data| + 2) / 3
    decreases data
  {
    if |data| >= 3 {
      LettersCount(data[3..]);
      assert 4 * |data| + 2 == 4 * (|data| - 3) + 2 + 12;
    }
  }

  /**
   The text for n octets has 4 n / 3 characters, rounded up, and the i-th of them is the one for the i-th six bits
   of the octets, with zeros for the bits that are missing at the end.
   */
  lemma {:induction false} EncodesBits(data: seq<byte>, i: nat)
    ensures |Encode(data)| == (4 * |data| + 2) / 3
    ensures i < |Encode(data)| ==> Encode(data)[i] as int == Code(SixBits(data, i))
  {
    hide Encode, Standard, Letters, SixBits, Code;
    EncodeIsLetters(data);
    LettersCount(data);
    if i < |Encode(data)| {
      StandardBits(data, i);
      CodeIs(SixBits(data, i));
    }
  }
}
