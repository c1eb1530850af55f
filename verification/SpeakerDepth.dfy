/** When the adaptive depth of a speaker's buffer moves: exactly which tick raises it, and which one lowers it. */
module SpeakerDepth {
  import opened Packets
  import opened JitterModel
  import opened SpeakerModel
  import opened SpeakerFlow
  import opened SpeakerTiming

  /** The speaker stays there throughout, and its end is not marked. */
  ghost predicate Steady(c: Timing, s: Speaker, es: seq<Event>)
    decreases es
  {
    s.stream.Some? && !s.eofMarked && (es != [] ==> Steady(c, Next(c, s, es[0]).0, es[1..]))
  }

  /** The concealed ticks since the last played one, when there were k before. */
  function ConcealRow(k: nat, outs: seq<Outcome>): nat
    decreases outs
  {
    if outs == [] then k
    else ConcealRow(if outs[0].played then 0 else if outs[0].conceal then k + 1 else k, outs[1..])
  }

  /** The played ticks since the last concealed one. */
  function PlayRow(k: nat, outs: seq<Outcome>): nat
    decreases outs
  {
    if outs == [] then k
    else PlayRow(if outs[0].conceal then 0 else if outs[0].played then k + 1 else k, outs[1..])
  }

  ghost function Depth(c: Timing, s: Speaker): nat
  {
    JitterOf(c, s).minStart
  }

  /** The counters of the stream stand at the rows so far, by fours and by eighties. */
  ghost predicate Counts(s: Speaker, k: nat, p: nat)
  {
    s.stream.Some? && s.stream.value.concealStreak == k % 4 && s.stream.value.stableTicks == p % 80
  }

  lemma Fourth(k: nat)
    ensures (k + 1) % 4 == if k % 4 + 1 >= 4 then 0 else k % 4 + 1
    ensures (k + 1) % 4 == 0 <==> k % 4 + 1 >= 4
    ensures (k + 1) / 4 == if k % 4 + 1 >= 4 then k / 4 + 1 else k / 4
  {
  }

  lemma Eightieth(k: nat)
    ensures (k + 1) % 80 == if k % 80 + 1 >= 80 then 0 else k % 80 + 1
    ensures (k + 1) % 80 == 0 <==> k % 80 + 1 >= 80
    ensures (k + 1) / 80 == if k % 80 + 1 >= 80 then k / 80 + 1 else k / 80
  {
  }

  lemma AdaptExactly(c: Timing, st: Stream, played: bool, conceal: bool, k: nat, p: nat)
    requires ValidTiming(c) && c.floor <= st.jitter.minStart <= c.ceil && !(played && conceal)
    requires st.concealStreak == k % 4 && st.stableTicks == p % 80
    ensures var st1 := Adapt(c, st, played, conceal);
            var depth := st.jitter.minStart;
            && st1.jitter.minStart
               == (if conceal && (k + 1) % 4 == 0 && depth < c.ceil then depth + 1
                   else if played && (p + 1) % 80 == 0 && depth > c.floor then depth - 1 else depth)
            && st1.concealStreak == (if played then 0 else if conceal then k + 1 else k) % 4
            && st1.stableTicks == (if conceal then 0 else if played then p + 1 else p) % 80
  {
    hide SetMinStart;
    Fourth(k);
    Eightieth(p);
    var depth := WantedDepth(c, st, played, conceal);
    if depth.Some? {
      ResizeDepth(c, st.jitter, depth.value);
    }
  }

  /** One event of a steady speaker: the depth it leaves, and the counters. */
  lemma EventMoves(c: Timing, s: Speaker, e: Event, k: nat, p: nat)
    requires ValidTiming(c) && c.adapt && DepthInBounds(c, s) && Counts(s, k, p)
    requires Next(c, s, e).0.stream.Some? && !Next(c, s, e).0.eofMarked
    ensures var (s1, out) := Next(c, s, e);
            && DepthInBounds(c, s1) && !(out.conceal && out.played)
            && Depth(c, s1)
               == (if out.conceal && (k + 1) % 4 == 0 && Depth(c, s) < c.ceil then Depth(c, s) + 1
                   else if out.played && (p + 1) % 80 == 0 && Depth(c, s) > c.floor then Depth(c, s) - 1
                   else Depth(c, s))
            && Counts(s1, if out.played then 0 else if out.conceal then k + 1 else k,
                      if out.conceal then 0 else if out.played then p + 1 else p)
  {
    hide Gain, Faded, Pop, SetMinStart, WellFormed, Push, ForceStart, Adapt, Primed, Play, WantedDepth;
    EventDepth(c, s, e);
    match e {
      case Arrive(packet, at) =>
        var st := StreamOf(c, s);
        PushKeepsDepth(if Leftover(c, st, at) then Reset(st.jitter) else st.jitter, packet);
      case Marker(at) =>
      case Tick(at, decoded, present) => TickMoves(c, s, at, decoded, k, p);
    }
  }

  lemma TickMoves(c: Timing, s: Speaker, at: int, decoded: Option<seq<int>>, k: nat, p: nat)
    requires ValidTiming(c) && c.adapt && DepthInBounds(c, s) && Counts(s, k, p)
    requires !MixTick(c, s, at, decoded).0.eofMarked
    ensures var (s1, out) := MixTick(c, s, at, decoded);
            && s1.stream.Some? && !(out.conceal && out.played)
            && Depth(c, s1)
               == (if out.conceal && (k + 1) % 4 == 0 && Depth(c, s) < c.ceil then Depth(c, s) + 1
                   else if out.played && (p + 1) % 80 == 0 && Depth(c, s) > c.floor then Depth(c, s) - 1
                   else Depth(c, s))
            && Counts(s1, if out.played then 0 else if out.conceal then k + 1 else k,
                      if out.conceal then 0 else if out.played then p + 1 else p)
  {
    hide Primed, Play, Adapt, WellFormed;
    var st := Primed(c, s.stream.value, at);
    PrimedKeepsDepth(c, s.stream.value, at);
    PlayKeepsDepth(c, st, s.eofMarked, at, decoded);
    var (s1, out) := Play(c, st, s.eofMarked, at, decoded);
    AdaptExactly(c, s1.stream.value, out.played, out.conceal, k, p);
  }

  // ---------- Every run ----------

  lemma {:induction false} RunCounts(c: Timing, s: Speaker, es: seq<Event>, k: nat, p: nat)
    requires ValidTiming(c) && c.adapt && DepthInBounds(c, s) && Counts(s, k, p) && Steady(c, s, es)
    ensures var (s1, outs) := RunAll(c, s, es);
            DepthInBounds(c, s1) && !s1.eofMarked && Counts(s1, ConcealRow(k, outs), PlayRow(p, outs))
    decreases es
  {
    hide Next, Counts, DepthInBounds;
    if es != [] {
      var (s1, out) := Next(c, s, es[0]);
      EventMoves(c, s, es[0], k, p);
      RunCounts(c, s1, es[1..], if out.played then 0 else if out.conceal then k + 1 else k,
                if out.conceal then 0 else if out.played then p + 1 else p);
      var outs := RunAll(c, s1, es[1..]).1;
      assert ([out] + outs)[1..] == outs;
    }
  }

  /**
   On every run of a speaker that stays, packets and ticks in any order: an event raises the depth, by one, exactly
   if it is a concealed tick whose place among those since the last played one is a multiple of four, and the depth
   is not at the ceiling; it lowers it, by one, exactly if it is a played tick whose place among those since
   the last concealed one is a multiple of eighty, and the depth is not at the floor.
   */
  lemma DepthMovesIff(c: Timing, s: Speaker, es: seq<Event>, e: Event)
    requires ValidTiming(c) && c.adapt && DepthInBounds(c, s) && Counts(s, 0, 0) && Steady(c, s, es)
    requires Steady(c, RunAll(c, s, es).0, [e])
    ensures var (s1, outs) := RunAll(c, s, es);
            var (s2, out) := Next(c, s1, e);
            && (Depth(c, s2) > Depth(c, s1)
                <==> out.conceal && (ConcealRow(0, outs) + 1) % 4 == 0 && Depth(c, s1) < c.ceil)
            && (Depth(c, s2) < Depth(c, s1)
                <==> out.played && (PlayRow(0, outs) + 1) % 80 == 0 && Depth(c, s1) > c.floor)
            && -1 <= Depth(c, s2) - Depth(c, s1) <= 1
  {
    hide Next, Counts, DepthInBounds, Depth;
    var (s1, outs) := RunAll(c, s, es);
    RunCounts(c, s, es, 0, 0);
    assert Steady(c, Next(c, s1, e).0, [e][1..]);
    EventMoves(c, s1, e, ConcealRow(0, outs), PlayRow(0, outs));
  }

  function Min(a: int, b: int): int
  {
    if a < b then a else b
  }

  /** The depth after n more concealed ticks when there were k in the row before. */
  function Deeper(c: Timing, depth: nat, k: nat, n: nat): int
  {
    depth + Min((k + n) / 4 - k / 4, c.ceil - depth)
  }

  lemma DeeperStep(c: Timing, depth: nat, k: nat, n: nat)
    requires depth <= c.ceil
    ensures var depth1 := if (k + 1) % 4 == 0 && depth < c.ceil then depth + 1 else depth;
            depth1 <= c.ceil && Deeper(c, depth1, k + 1, n) == Deeper(c, depth, k, 1 + n)
    ensures Deeper(c, depth, k, 0) == depth
  {
  }

  lemma DepthBelow(c: Timing, s: Speaker)
    requires DepthInBounds(c, s)
    ensures c.floor <= Depth(c, s) <= c.ceil
  {
  }

  lemma {:induction false} Deepens(c: Timing, s: Speaker, es: seq<Event>, k: nat, p: nat)
    requires ValidTiming(c) && c.adapt && DepthInBounds(c, s) && Counts(s, k, p) && Steady(c, s, es)
    requires PlayTicks(RunAll(c, s, es).1) == 0
    ensures Depth(c, RunAll(c, s, es).0) == Deeper(c, Depth(c, s), k, ConcealTicks(RunAll(c, s, es).1))
    decreases es
  {
    hide Next, Counts, DepthInBounds, Depth, Deeper;
    DepthBelow(c, s);
    DeeperStep(c, Depth(c, s), k, 0);
    if es != [] {
      var (s1, out) := Next(c, s, es[0]);
      EventMoves(c, s, es[0], k, p);
      var outs := RunAll(c, s1, es[1..]).1;
      assert ([out] + outs)[1..] == outs;
      Deepens(c, s1, es[1..], if out.conceal then k + 1 else k, if out.conceal then 0 else p);
      DeeperStep(c, Depth(c, s), k, ConcealTicks(outs));
    }
  }

  /** So n concealed ticks with no played one between them raise the depth by n / 4, but not above the ceiling. */
  lemma {:induction false} LossDeepens(c: Timing, s: Speaker, es: seq<Event>)
    requires ValidTiming(c) && c.adapt && DepthInBounds(c, s) && Counts(s, 0, 0) && Steady(c, s, es)
    requires PlayTicks(RunAll(c, s, es).1) == 0
    ensures Depth(c, RunAll(c, s, es).0)
            == Depth(c, s) + Min(ConcealTicks(RunAll(c, s, es).1) / 4, c.ceil - Depth(c, s))
  {
    hide RunAll, Steady, Counts, DepthInBounds, Depth;
    Deepens(c, s, es, 0, 0);
  }

  /** The depth after n more played ticks when there were p in the row before. */
  function Flatter(c: Timing, depth: nat, p: nat, n: nat): int
  {
    depth - Min((p + n) / 80 - p / 80, depth - c.floor)
  }

  lemma FlatterStep(c: Timing, depth: nat, p: nat, n: nat)
    requires c.floor <= depth
    ensures var depth1 := if (p + 1) % 80 == 0 && depth > c.floor then depth - 1 else depth;
            c.floor <= depth1 && Flatter(c, depth1, p + 1, n) == Flatter(c, depth, p, 1 + n)
    ensures Flatter(c, depth, p, 0) == depth
  {
  }

  lemma {:induction false} Flattens(c: Timing, s: Speaker, es: seq<Event>, k: nat, p: nat)
    requires ValidTiming(c) && c.adapt && DepthInBounds(c, s) && Counts(s, k, p) && Steady(c, s, es)
    requires ConcealTicks(RunAll(c, s, es).1) == 0
    ensures Depth(c, RunAll(c, s, es).0) == Flatter(c, Depth(c, s), p, PlayTicks(RunAll(c, s, es).1))
    decreases es
  {
    hide Next, Counts, DepthInBounds, Depth, Flatter;
    DepthBelow(c, s);
    FlatterStep(c, Depth(c, s), p, 0);
    if es != [] {
      var (s1, out) := Next(c, s, es[0]);
      EventMoves(c, s, es[0], k, p);
      var outs := RunAll(c, s1, es[1..]).1;
      assert ([out] + outs)[1..] == outs;
      Flattens(c, s1, es[1..], if out.played then 0 else k, if out.played then p + 1 else p);
      FlatterStep(c, Depth(c, s), p, PlayTicks(outs));
    }
  }

  /** And n played ticks with no concealed one between them lower it by n / 80, but not below the floor. */
  lemma {:induction false} CalmFlattens(c: Timing, s: Speaker, es: seq<Event>)
    requires ValidTiming(c) && c.adapt && DepthInBounds(c, s) && Counts(s, 0, 0) && Steady(c, s, es)
    requires ConcealTicks(RunAll(c, s, es).1) == 0
    ensures Depth(c, RunAll(c, s, es).0)
            == Depth(c, s) - Min(PlayTicks(RunAll(c, s, es).1) / 80, Depth(c, s) - c.floor)
  {
    hide RunAll, Steady, Counts, DepthInBounds, Depth;
    Flattens(c, s, es, 0, 0);
  }

  // ---------- Where it stands still ----------

  /** The speaker stays, and the mixer does not adapt it: by its settings, or since its end is marked. */
  ghost predicate Unadapted(c: Timing, s: Speaker, es: seq<Event>)
    decreases es
  {
    s.stream.Some? && (c.adapt ==> s.eofMarked) && (es != [] ==> Unadapted(c, Next(c, s, es[0]).0, es[1..]))
  }

  lemma EventKeeps(c: Timing, s: Speaker, e: Event)
    requires s.stream.Some? && Next(c, s, e).0.stream.Some? && (c.adapt ==> s.eofMarked)
    requires c.adapt ==> Next(c, s, e).0.eofMarked
    ensures Depth(c, Next(c, s, e).0) == Depth(c, s)
  {
    hide Pop, SetMinStart, Push, ForceStart, Primed, Play;
    match e {
      case Arrive(packet, at) =>
        var st := StreamOf(c, s);
        PushKeepsDepth(if Leftover(c, st, at) then Reset(st.jitter) else st.jitter, packet);
      case Marker(at) => StartKeepsDepth(s.stream.value.jitter);
      case Tick(at, decoded, present) =>
        PrimedKeepsDepth(c, s.stream.value, at);
        PlayKeepsDepth(c, Primed(c, s.stream.value, at), s.eofMarked, at, decoded);
    }
  }

  lemma StartKeepsDepth(b: Jitter)
    ensures ForceStart(b).minStart == b.minStart
  {
  }

  /** While the mixer does not adapt, or the end is marked, nothing moves the depth. */
  lemma {:induction false} UnadaptedStays(c: Timing, s: Speaker, es: seq<Event>)
    requires Unadapted(c, s, es)
    ensures Depth(c, RunAll(c, s, es).0) == Depth(c, s)
    decreases es
  {
    hide Next;
    if es != [] {
      EventKeeps(c, s, es[0]);
      UnadaptedStays(c, Next(c, s, es[0]).0, es[1..]);
    }
  }
}
