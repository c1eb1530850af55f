/** The per-speaker uplink jitter buffer as a value: its fields and what each operation does to them. */
module JitterModel {
  import opened Packets

  datatype Jitter = Jitter(
    minStart: nat,
    maxKeep: nat,
    packets: map<uint32, AudioPacket>,
    head: uint32,
    started: bool)

  /** The fields are consistent: depth and capacity belong together and a packet sits at its own number. */
  ghost predicate WellFormed(b: Jitter)
  {
    && 1 <= b.minStart <= 0xFFFF
    && b.maxKeep == KeepFor(b.minStart)
    && |b.packets| <= b.maxKeep
    && Keyed(b.packets)
  }

  ghost predicate Keyed(m: map<uint32, AudioPacket>)
  {
    forall k :: k in m ==> m[k].sequence == k
  }

  function KeepFor(minStart: nat): nat
  {
    if minStart * 8 < 32 then 32 else minStart * 8
  }

  function Empty(minStart: nat): Jitter
  {
    var n := if minStart < 1 then 1 else minStart;
    Jitter(n, KeepFor(n), map[], 0, false)
  }

  // ---------- Least and greatest resident number ----------

  ghost predicate IsLeast(k: uint32, s: set<uint32>)
  {
    k in s && forall x :: x in s ==> k <= x
  }

  ghost predicate IsGreatest(k: uint32, s: set<uint32>)
  {
    k in s && forall x :: x in s ==> x <= k
  }

  lemma LeastExists(s: set<uint32>)
    requires s != {}
    ensures exists k :: IsLeast(k, s)
  {
    var e :| e in s;
    var rest := s - {e};
    assert s == rest + {e};
    if rest == {} {
      assert IsLeast(e, s);
    } else {
      LeastExists(rest);
      var k :| IsLeast(k, rest);
      assert IsLeast(if e < k then e else k, s);
    }
  }

  lemma GreatestExists(s: set<uint32>)
    requires s != {}
    ensures exists k :: IsGreatest(k, s)
  {
    var e :| e in s;
    var rest := s - {e};
    assert s == rest + {e};
    if rest == {} {
      assert IsGreatest(e, s);
    } else {
      GreatestExists(rest);
      var k :| IsGreatest(k, rest);
      assert IsGreatest(if k < e then e else k, s);
    }
  }

  ghost function MinKey(m: map<uint32, AudioPacket>): (k: uint32)
    requires |m| != 0
    ensures k in m && forall x :: x in m ==> k <= x
  {
    LeastExists(m.Keys);
    var k :| IsLeast(k, m.Keys);
    k
  }

  ghost function MaxKey(m: map<uint32, AudioPacket>): (k: uint32)
    requires |m| != 0
    ensures k in m && forall x :: x in m ==> x <= k
  {
    GreatestExists(m.Keys);
    var k :| IsGreatest(k, m.Keys);
    k
  }

  lemma MinKeyIs(m: map<uint32, AudioPacket>, k: uint32)
    requires IsLeast(k, m.Keys)
    ensures |m| != 0 && MinKey(m) == k
  {
    assert k in m.Keys;
  }

  lemma MaxKeyIs(m: map<uint32, AudioPacket>, k: uint32)
    requires IsGreatest(k, m.Keys)
    ensures |m| != 0 && MaxKey(m) == k
  {
    assert k in m.Keys;
  }

  // ---------- Operations ----------

  /** Drops the oldest packet; a started head that it was, or was past, moves behind it. */
  ghost function DropOldest(b: Jitter): (r: Jitter)
    requires |b.packets| != 0
    ensures |r.packets| == |b.packets| - 1
  {
    var k := MinKey(b.packets);
    assert (b.packets - {k}).Keys == b.packets.Keys - {k};
    b.(packets := b.packets - {k},
       head := if b.started && k >= b.head then Add32(k, 1) else b.head)
  }

  ghost function Trim(b: Jitter): Jitter
    decreases |b.packets|
  {
    if |b.packets| <= b.maxKeep then b else Trim(DropOldest(b))
  }

  ghost function Start(b: Jitter): Jitter
    requires |b.packets| != 0
  {
    b.(head := MinKey(b.packets), started := true)
  }

  /** The packet is put in; a buffer that is deep enough by now starts at its least number. */
  ghost function Insert(b: Jitter, p: AudioPacket): (r: Jitter)
    requires p.sequence !in b.packets
    ensures r.packets == b.packets[p.sequence := p]
  {
    var b1 := b.(packets := b.packets[p.sequence := p]);
    assert p.sequence in b1.packets.Keys;
    if !b1.started && |b1.packets| >= b1.minStart then Start(b1) else b1
  }

  ghost function Push(b: Jitter, p: AudioPacket): Jitter
  {
    if p.sequence in b.packets then b else Trim(Insert(b, p))
  }

  ghost function Take(b: Jitter): (Jitter, Option<AudioPacket>)
    requires b.head in b.packets
  {
    (b.(packets := b.packets - {b.head}, head := Add32(b.head, 1)), Some(b.packets[b.head]))
  }

  ghost function Pop(b: Jitter): (Jitter, Option<AudioPacket>)
  {
    if |b.packets| == 0 then (b.(started := false), None)
    else if !b.started && |b.packets| < b.minStart then (b, None)
    else
      var b1 := if b.started then b else Start(b);
      if b1.head in b1.packets then Take(b1)
      else if b1.head < MinKey(b1.packets)
              || Add32(b1.head, Truncate32(b1.maxKeep / 2)) < MaxKey(b1.packets) then
        Take(b1.(head := MinKey(b1.packets)))
      else (b1, None)
  }

  ghost function ForceStart(b: Jitter): Jitter
  {
    if |b.packets| == 0 then b else Start(b)
  }

  function Clamp(n: int, floor: int, ceil: int): int
  {
    var low := if n < floor then floor else n;
    if low > ceil then ceil else low
  }

  /** A new depth, clamped; the depths come from 16-bit settings and are at least one. */
  ghost function SetMinStart(b: Jitter, n: int, floor: nat, ceil: nat): Jitter
  {
    var depth := Clamp(n, floor, ceil);
    if depth == b.minStart then b else Trim(Deepen(b, depth))
  }

  ghost function Deepen(b: Jitter, depth: nat): Jitter
  {
    b.(minStart := depth, maxKeep := KeepFor(depth))
  }

  function Reset(b: Jitter): Jitter
  {
    b.(packets := map[], head := 0, started := false)
  }

  // ---------- What trimming keeps ----------

  /** Trimming keeps the newest maxKeep packets and touches nothing else but the head. */
  lemma {:induction false} TrimKeepsNewest(b: Jitter)
    ensures var t := Trim(b);
            && t == b.(packets := t.packets, head := t.head)
            && |t.packets| == (if |b.packets| <= b.maxKeep then |b.packets| else b.maxKeep)
            && (forall k :: k in t.packets ==> k in b.packets && t.packets[k] == b.packets[k])
            && (forall k, d :: k in t.packets && d in b.packets && d !in t.packets ==> d < k)
    ensures |b.packets| <= b.maxKeep ==> Trim(b) == b
    decreases |b.packets|
  {
    if |b.packets| > b.maxKeep {
      TrimKeepsNewest(DropOldest(b));
    }
  }
}
