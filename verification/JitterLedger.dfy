/**
 Draining, stalling and book-keeping of the jitter buffer: a forced start drains it in sorted order,
 it stalls in exactly one situation, and every packet is accounted for.
 */
module JitterLedger {
  import opened Packets
  import opened JitterModel
  import opened JitterOrder

  // ---------- The sorted listing of the resident packets ----------

  /** s lists the packets of m, each once, by increasing number. */
  ghost predicate Lists(s: seq<AudioPacket>, m: map<uint32, AudioPacket>)
  {
    && Increasing(s)
    && (forall p :: p in s ==> p.sequence in m && m[p.sequence] == p)
    && (forall k :: k in m ==> m[k] in s)
  }

  lemma ListingFrom(m: map<uint32, AudioPacket>, k: uint32, s: seq<AudioPacket>)
    requires Keyed(m) && k in m && (forall x :: x in m ==> k <= x) && Lists(s, m - {k})
    ensures Lists([m[k]] + s, m)
  {
    PrependLeast(m[k], s);
    forall x | x in m ensures m[x] in [m[k]] + s {
      if x != k {
        assert x in m - {k} && (m - {k})[x] in s;
      }
    }
  }

  lemma {:induction false} ListingExists(m: map<uint32, AudioPacket>)
    requires Keyed(m)
    ensures exists s :: Lists(s, m)
    decreases |m|
  {
    if |m| == 0 {
      assert Lists([], m);
    } else {
      var k: uint32 := MinKey(m);
      assert (m - {k}).Keys == m.Keys - {k};
      ListingExists(m - {k});
      var s :| Lists(s, m - {k});
      ListingFrom(m, k, s);
    }
  }

  ghost function Sorted(m: map<uint32, AudioPacket>): (s: seq<AudioPacket>)
    requires Keyed(m)
    ensures Lists(s, m)
  {
    ListingExists(m);
    var s :| Lists(s, m);
    s
  }

  lemma ListedAt(s: seq<AudioPacket>, m: map<uint32, AudioPacket>, x: uint32) returns (i: nat)
    requires Lists(s, m) && x in m
    ensures i < |s| && s[i] == m[x]
  {
    i :| 0 <= i < |s| && s[i] == m[x];
  }

  lemma FirstIsResident(s: seq<AudioPacket>, m: map<uint32, AudioPacket>)
    requires Lists(s, m) && s != []
    ensures s[0].sequence in m && m[s[0].sequence] == s[0]
  {
    assert s[0] in s;
  }

  lemma RestIsListed(s: seq<AudioPacket>, m: map<uint32, AudioPacket>)
    requires Lists(s, m) && s != [] && Keyed(m)
    ensures Lists(s[1..], m - {s[0].sequence})
  {
    FirstIsResident(s, m);
    var k, rest := s[0].sequence, s[1..];
    forall p | p in rest ensures p.sequence in m - {k} && (m - {k})[p.sequence] == p {
      var i :| 0 <= i < |rest| && rest[i] == p;
      assert s[i + 1] == p && p in s;
    }
    forall x | x in m - {k} ensures m[x] in rest {
      var i := ListedAt(s, m, x);
      assert rest[i - 1] == m[x];
    }
  }

  lemma FirstIsLeast(s: seq<AudioPacket>, m: map<uint32, AudioPacket>)
    requires Lists(s, m) && s != []
    ensures s[0].sequence in m && m[s[0].sequence] == s[0]
    ensures Keyed(m) ==> forall k :: k in m ==> s[0].sequence <= k
    ensures Keyed(m) ==> Lists(s[1..], m - {s[0].sequence})
  {
    FirstIsResident(s, m);
    if Keyed(m) {
      forall x | x in m ensures s[0].sequence <= x {
        var i := ListedAt(s, m, x);
      }
      RestIsListed(s, m);
    }
  }

  lemma ListingEmpty(s: seq<AudioPacket>, m: map<uint32, AudioPacket>)
    requires Lists(s, m)
    ensures s == [] <==> |m| == 0
  {
    if s != [] {
      assert s[0] in s;
      assert s[0].sequence in m.Keys;
    }
    if |m| != 0 {
      var k :| k in m.Keys;
      assert m[k] in s;
    }
  }

  lemma {:induction false} ListingUnique(s: seq<AudioPacket>, t: seq<AudioPacket>, m: map<uint32, AudioPacket>)
    requires Keyed(m) && Lists(s, m) && Lists(t, m)
    ensures s == t
    decreases |s|
  {
    hide Lists, Keyed;
    ListingEmpty(s, m);
    ListingEmpty(t, m);
    if s != [] {
      FirstIsLeast(s, m);
      FirstIsLeast(t, m);
      var k: uint32 := s[0].sequence;
      assert k <= t[0].sequence && t[0].sequence <= k;
      LessIsKeyed(m, k);
      ListingUnique(s[1..], t[1..], m - {k});
      HeadAndTail(s, t);
    }
  }

  lemma LessIsKeyed(m: map<uint32, AudioPacket>, k: uint32)
    requires Keyed(m)
    ensures Keyed(m - {k})
  {
  }

  lemma HeadAndTail<T>(s: seq<T>, t: seq<T>)
    requires s != [] && t != [] && s[0] == t[0] && s[1..] == t[1..]
    ensures s == t
  {
    assert s == [s[0]] + s[1..] && t == [t[0]] + t[1..];
  }

  lemma SortedFrom(m: map<uint32, AudioPacket>, k: uint32)
    requires Keyed(m) && k in m && forall x :: x in m ==> k <= x
    ensures Sorted(m) == [m[k]] + Sorted(m - {k})
  {
    ListingFrom(m, k, Sorted(m - {k}));
    ListingUnique(Sorted(m), [m[k]] + Sorted(m - {k}), m);
  }

  // ---------- Draining ----------

  function Pops(n: nat): seq<Op>
  {
    if n == 0 then [] else [PopOp] + Pops(n - 1)
  }

  lemma RunPop(b: Jitter, n: nat)
    requires n > 0
    ensures Run(b, Pops(n)) == (Run(Pop(b).0, Pops(n - 1)).0, Emit(Pop(b).1, Run(Pop(b).0, Pops(n - 1)).1))
  {
    assert Pops(n)[0] == PopOp && Pops(n)[1..] == Pops(n - 1);
  }

  lemma PopLeast(b: Jitter)
    requires WellFormed(b) && Ordered(b) && b.started && |b.packets| != 0
    ensures var k := MinKey(b.packets);
            && Pop(b).1 == Some(b.packets[k]) && Pop(b).0.packets == b.packets - {k}
            && |Pop(b).0.packets| == |b.packets| - 1 && Pop(b).0.started
            && Sorted(b.packets) == [b.packets[k]] + Sorted(b.packets - {k})
  {
    var k: uint32 := MinKey(b.packets);
    PopOrdered(b);
    SortedFrom(b.packets, k);
    assert (b.packets - {k}).Keys == b.packets.Keys - {k};
  }

  lemma {:induction false} DrainOrdered(b: Jitter, n: nat)
    requires WellFormed(b) && Ordered(b) && b.started && n == |b.packets|
    ensures |Run(b, Pops(n)).0.packets| == 0
    ensures Run(b, Pops(n)).1 == Sorted(b.packets)
    decreases n
  {
    if n == 0 {
      ListingEmpty(Sorted(b.packets), b.packets);
    } else {
      PopLeast(b);
      PopOrdered(b);
      PopWellFormed(b);
      var b1 := Pop(b).0;
      DrainOrdered(b1, n - 1);
      RunPop(b, n);
      assert Emit(Pop(b).1, Sorted(b1.packets)) == Sorted(b.packets);
    }
  }

  /**
   Whatever came before, a forced start followed by as many pops as there are packets empties the
   buffer: every resident packet comes out once, in sorted order, and nothing else does.
   */
  lemma {:induction false} ForcedStartDrains(b: Jitter)
    requires WellFormed(b)
    ensures var (r, out) := Run(ForceStart(b), Pops(|b.packets|));
            && |r.packets| == 0
            && Increasing(out)
            && (forall p :: p in out <==> p.sequence in b.packets && b.packets[p.sequence] == p)
  {
    if |b.packets| != 0 {
      DrainOrdered(ForceStart(b), |b.packets|);
    } else {
      assert b.packets == map[];
    }
  }

  // ---------- The stall ----------

  /** A set of numbers that all lie within n places above lo has at most n members. */
  lemma {:induction false} Pigeonhole(s: set<uint32>, lo: int, n: nat)
    requires forall k :: k in s ==> lo < k <= lo + n
    ensures |s| <= n
    decreases n
  {
    if n == 0 {
      assert s == {};
    } else {
      var top := lo + n;
      var rest := set k | k in s && k != top;
      assert rest == if top in s then s - {top} else s;
      Pigeonhole(rest, lo, n - 1);
    }
  }

  ghost function Ahead(b: Jitter): set<uint32>
  {
    set k | k in b.packets && b.head < k
  }

  /**
   A started, non-empty buffer answers nothing exactly when the head is missing, something waits
   behind it and nothing is further than half a capacity ahead; then at most half a capacity of
   packets is ahead of the head.
   */
  lemma StallIff(b: Jitter)
    requires WellFormed(b) && b.started && |b.packets| != 0
    ensures Pop(b).1.None?
            <==> && b.head !in b.packets
                 && (exists k :: k in b.packets && k < b.head)
                 && (forall k :: k in b.packets ==> k <= Add32(b.head, Truncate32(b.maxKeep / 2)))
    ensures Pop(b).1.None? ==> |Ahead(b)| <= b.maxKeep / 2
    ensures Pop(b).1.None? ==> Pop(b).0 == b
  {
    if Pop(b).1.None? {
      Pigeonhole(Ahead(b), b.head, b.maxKeep / 2);
    }
  }

  // ---------- Conservation ----------

  /** The packets dropped by trimming, oldest first. */
  ghost function Trimmed(b: Jitter): seq<AudioPacket>
    decreases |b.packets|
  {
    if |b.packets| <= b.maxKeep then []
    else [b.packets[MinKey(b.packets)]] + Trimmed(DropOldest(b))
  }

  /** The packets an operation loses: a duplicate, what is trimmed, what a reset throws away. */
  ghost function Lost(b: Jitter, op: Op): seq<AudioPacket>
    requires Keyed(b.packets)
  {
    match op
    case PushOp(p) => if p.sequence in b.packets then [p] else Trimmed(Insert(b, p))
    case ResizeOp(n, floor, ceil) =>
      var depth := Clamp(n, floor, ceil);
      if depth == b.minStart then [] else Trimmed(Deepen(b, depth))
    case ResetOp => Sorted(b.packets)
    case PopOp => []
    case ForceOp => []
  }

  lemma StepKeyed(b: Jitter, op: Op)
    requires Keyed(b.packets)
    ensures Keyed(Step(b, op).0.packets)
  {
    match op
    case PushOp(p) =>
      if p.sequence !in b.packets {
        TrimKeepsNewest(Insert(b, p));
      }
    case PopOp =>
      if Pop(b).1.Some? {
        PopTakesOne(b);
      }
    case ForceOp =>
    case ResizeOp(n, floor, ceil) => TrimKeepsNewest(Deepen(b, Clamp(n, floor, ceil)));
    case ResetOp =>
  }

  lemma PopTakesOne(b: Jitter)
    requires Pop(b).1.Some?
    ensures exists k :: k in b.packets && b.packets[k] == Pop(b).1.value && Pop(b).0.packets == b.packets - {k}
  {
    var b1 := if b.started then b else Start(b);
    var k := if b1.head in b1.packets then b1.head else MinKey(b1.packets);
    assert k in b.packets && b.packets[k] == Pop(b).1.value && Pop(b).0.packets == b.packets - {k};
  }

  ghost function LostOn(b: Jitter, ops: seq<Op>): seq<AudioPacket>
    requires Keyed(b.packets)
    decreases ops
  {
    if ops == [] then []
    else
      StepKeyed(b, ops[0]);
      Lost(b, ops[0]) + LostOn(Step(b, ops[0]).0, ops[1..])
  }

  function Pushed(ops: seq<Op>): seq<AudioPacket>
  {
    if ops == [] then []
    else if ops[0].PushOp? then [ops[0].p] + Pushed(ops[1..])
    else Pushed(ops[1..])
  }

  ghost function Resident(m: map<uint32, AudioPacket>): multiset<AudioPacket>
  {
    multiset(m.Values)
  }

  lemma RemoveResident(m: map<uint32, AudioPacket>, k: uint32)
    requires Keyed(m) && k in m
    ensures Resident(m) == Resident(m - {k}) + multiset{m[k]}
  {
    var rest := m - {k};
    assert m[k] !in rest.Values;
    forall v | v in m.Values
      ensures v == m[k] || v in rest.Values
    {
      var x :| x in m && m[x] == v;
      assert x == k || (x in rest && rest[x] == v);
    }
    forall v | v in rest.Values
      ensures v in m.Values
    {
      var x :| x in rest && rest[x] == v;
      assert x in m && m[x] == v;
    }
    assert m[k] in m.Values;
    assert m.Values == rest.Values + {m[k]};
  }

  lemma AddResident(m: map<uint32, AudioPacket>, p: AudioPacket)
    requires Keyed(m) && p.sequence !in m
    ensures Resident(m[p.sequence := p]) == Resident(m) + multiset{p}
  {
    var m1 := m[p.sequence := p];
    assert m1 - {p.sequence} == m;
    RemoveResident(m1, p.sequence);
  }

  lemma {:induction false} TrimBalances(b: Jitter)
    requires Keyed(b.packets)
    ensures Resident(b.packets) == Resident(Trim(b).packets) + multiset(Trimmed(b))
    decreases |b.packets|
  {
    if |b.packets| > b.maxKeep {
      var k: uint32 := MinKey(b.packets);
      RemoveResident(b.packets, k);
      TrimBalances(DropOldest(b));
      assert DropOldest(b).packets == b.packets - {k};
    }
  }

  lemma {:induction false} SortedBag(m: map<uint32, AudioPacket>)
    requires Keyed(m)
    ensures multiset(Sorted(m)) == Resident(m)
    decreases |m|
  {
    ListingEmpty(Sorted(m), m);
    if |m| == 0 {
      assert m == map[];
    } else {
      var k: uint32 := MinKey(m);
      assert (m - {k}).Keys == m.Keys - {k};
      SortedFrom(m, k);
      RemoveResident(m, k);
      SortedBag(m - {k});
    }
  }

  function Given(op: Op): multiset<AudioPacket>
  {
    if op.PushOp? then multiset{op.p} else multiset{}
  }

  function Bag<T>(o: Option<T>): multiset<T>
  {
    if o.Some? then multiset{o.value} else multiset{}
  }

  lemma PushBalances(b: Jitter, p: AudioPacket)
    requires Keyed(b.packets)
    ensures multiset{p} + Resident(b.packets)
            == multiset(Lost(b, PushOp(p))) + Resident(Push(b, p).packets)
  {
    if p.sequence in b.packets {
      assert Lost(b, PushOp(p)) == [p] && multiset([p]) == multiset{p};
    } else {
      AddResident(b.packets, p);
      var b1 := Insert(b, p);
      assert Keyed(b1.packets);
      TrimBalances(b1);
      Exchange(multiset{p}, Resident(b.packets), Resident(b1.packets),
               multiset(Trimmed(b1)), Resident(Trim(b1).packets));
    }
  }

  lemma Exchange<T>(a: multiset<T>, r0: multiset<T>, r1: multiset<T>, t: multiset<T>, r2: multiset<T>)
    requires r1 == r0 + a && r1 == r2 + t
    ensures a + r0 == t + r2
  {
    assert a + r0 == r0 + a && t + r2 == r2 + t;
  }

  lemma NoneResident(m: map<uint32, AudioPacket>)
    requires |m| == 0
    ensures Keyed(m) && Resident(m) == multiset{}
  {
    assert m == map[];
  }

  lemma PopBalances(b: Jitter)
    requires Keyed(b.packets)
    ensures Resident(b.packets) == Bag(Pop(b).1) + Resident(Pop(b).0.packets)
  {
    if Pop(b).1.Some? {
      PopTakesOne(b);
      var k :| k in b.packets && b.packets[k] == Pop(b).1.value && Pop(b).0.packets == b.packets - {k};
      RemoveResident(b.packets, k);
    }
  }

  lemma ResizeBalances(b: Jitter, n: int, floor: nat, ceil: nat)
    requires Keyed(b.packets)
    ensures Resident(b.packets)
            == multiset(Lost(b, ResizeOp(n, floor, ceil))) + Resident(SetMinStart(b, n, floor, ceil).packets)
  {
    TrimBalances(Deepen(b, Clamp(n, floor, ceil)));
  }

  /** One operation accounts for its packets: taken in plus resident is given out plus lost plus resident. */
  lemma StepBalances(b: Jitter, op: Op)
    requires Keyed(b.packets)
    ensures Given(op) + Resident(b.packets)
            == Bag(Step(b, op).1) + multiset(Lost(b, op)) + Resident(Step(b, op).0.packets)
  {
    hide Push, Pop, ForceStart, SetMinStart, Resident, Lost;
    NothingMoves(Resident(b.packets));
    match op
    case PushOp(p) => PushMoves(b, p);
    case PopOp => PopMoves(b);
    case ForceOp => ForceMoves(b);
    case ResizeOp(n, floor, ceil) => ResizeMoves(b, n, floor, ceil);
    case ResetOp => ResetMoves(b);
  }

  lemma NothingMoves(r: multiset<AudioPacket>)
    ensures multiset{} + r == r && r == multiset{} + multiset{} + r
  {
  }

  lemma PushMoves(b: Jitter, p: AudioPacket)
    requires Keyed(b.packets)
    ensures multiset{p} + Resident(b.packets)
            == multiset{} + multiset(Lost(b, PushOp(p))) + Resident(Push(b, p).packets)
  {
    hide Push, Resident, Lost;
    PushBalances(b, p);
    assert multiset{} + multiset(Lost(b, PushOp(p))) == multiset(Lost(b, PushOp(p)));
  }

  lemma PopMoves(b: Jitter)
    requires Keyed(b.packets)
    ensures multiset{} + Resident(b.packets)
            == Bag(Pop(b).1) + multiset(Lost(b, PopOp)) + Resident(Pop(b).0.packets)
  {
    hide Pop, Resident;
    PopBalances(b);
    assert multiset(Lost(b, PopOp)) == multiset{};
    assert Bag(Pop(b).1) + multiset{} == Bag(Pop(b).1);
    assert multiset{} + Resident(b.packets) == Resident(b.packets);
  }

  lemma ForceMoves(b: Jitter)
    requires Keyed(b.packets)
    ensures multiset{} + Resident(b.packets)
            == multiset{} + multiset(Lost(b, ForceOp)) + Resident(ForceStart(b).packets)
  {
    hide Resident;
    assert multiset(Lost(b, ForceOp)) == multiset{};
    NothingMoves(Resident(b.packets));
  }

  lemma ResizeMoves(b: Jitter, n: int, floor: nat, ceil: nat)
    requires Keyed(b.packets)
    ensures multiset{} + Resident(b.packets)
            == multiset{} + multiset(Lost(b, ResizeOp(n, floor, ceil)))
               + Resident(SetMinStart(b, n, floor, ceil).packets)
  {
    hide SetMinStart, Resident, Lost;
    ResizeBalances(b, n, floor, ceil);
    var lost := multiset(Lost(b, ResizeOp(n, floor, ceil)));
    assert multiset{} + lost == lost && multiset{} + Resident(b.packets) == Resident(b.packets);
  }

  lemma ResetMoves(b: Jitter)
    requires Keyed(b.packets)
    ensures multiset{} + Resident(b.packets)
            == multiset{} + multiset(Lost(b, ResetOp)) + Resident(Reset(b).packets)
  {
    SortedBag(b.packets);
    NoneResident(Reset(b).packets);
    hide Resident;
    var lost := multiset(Lost(b, ResetOp));
    assert multiset{} + lost == lost && lost + multiset{} == lost && multiset{} + Resident(b.packets) == lost;
  }

  /** Two balances in a row make one. */
  lemma ChainBalances<T>(
    in1: multiset<T>, in2: multiset<T>, r0: multiset<T>, r1: multiset<T>, r2: multiset<T>,
    out1: multiset<T>, out2: multiset<T>, lost1: multiset<T>, lost2: multiset<T>)
    requires in1 + r0 == out1 + lost1 + r1
    requires in2 + r1 == out2 + lost2 + r2
    ensures in1 + in2 + r0 == out1 + out2 + (lost1 + lost2) + r2
  {
    forall x: T ensures (in1 + in2 + r0)[x] == (out1 + out2 + (lost1 + lost2) + r2)[x] {
      assert (in1 + r0)[x] == (out1 + lost1 + r1)[x];
      assert (in2 + r1)[x] == (out2 + lost2 + r2)[x];
    }
  }

  /**
   Every packet is accounted for on every run, late or not: what was pushed or there at the start
   is what was popped, lost or still is there, with multiplicity.
   */
  lemma {:induction false} RunBalances(b: Jitter, ops: seq<Op>)
    requires Keyed(b.packets)
    ensures multiset(Pushed(ops)) + Resident(b.packets)
            == multiset(Run(b, ops).1) + multiset(LostOn(b, ops)) + Resident(Run(b, ops).0.packets)
    decreases ops
  {
    if ops != [] {
      var op, rest := ops[0], ops[1..];
      var (b1, out) := Step(b, op);
      StepKeyed(b, op);
      StepBalances(b, op);
      RunBalances(b1, rest);
      var (b2, outs) := Run(b1, rest);
      assert multiset(Emit(out, outs)) == Bag(out) + multiset(outs);
      assert multiset(Pushed(ops)) == Given(op) + multiset(Pushed(rest));
      assert multiset(LostOn(b, ops)) == multiset(Lost(b, op)) + multiset(LostOn(b1, rest));
      ChainBalances(Given(op), multiset(Pushed(rest)), Resident(b.packets), Resident(b1.packets), Resident(b2.packets),
                    Bag(out), multiset(outs), multiset(Lost(b, op)), multiset(LostOn(b1, rest)));
    }
  }

  /** From an empty buffer no packet comes out more often than it went in. */
  lemma NothingInvented(b: Jitter, ops: seq<Op>, p: AudioPacket)
    requires |b.packets| == 0
    ensures multiset(Run(b, ops).1)[p] <= multiset(Pushed(ops))[p]
  {
    NoneResident(b.packets);
    RunBalances(b, ops);
    var taken, given := multiset(Pushed(ops)), multiset(Run(b, ops).1);
    assert (taken + Resident(b.packets))[p] == taken[p];
  }

  /** A packet that went in at most once comes out at most once, whatever the run. */
  lemma NothingPoppedTwice(b: Jitter, ops: seq<Op>, p: AudioPacket)
    requires Keyed(b.packets)
    requires (multiset(Pushed(ops)) + Resident(b.packets))[p] <= 1
    ensures multiset(Run(b, ops).1)[p] <= 1
  {
    RunBalances(b, ops);
  }
}
