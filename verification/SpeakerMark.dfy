/**
 The end-of-transmission mark of a speaker: when it goes, and that nothing is concealed while it stands,
 through the drain of what still waits and through whatever arrives.
 */
module SpeakerMark {
  import opened Packets
  import opened JitterModel
  import opened SpeakerModel
  import opened SpeakerTiming

  // ---------- When the mark goes ----------

  /** The clean-up of a tick forgets the speaker: it has left, or was silent for longer than the timeout. */
  ghost predicate Forgotten(c: Timing, s: Speaker, e: Event)
  {
    e.Tick? && Expired(c, MixTick(c, s, e.at, e.decoded).0, e.at, e.present)
  }

  /** What takes the mark away: a packet after a long gap, or the clean-up. */
  ghost predicate Breaks(c: Timing, s: Speaker, e: Event)
  {
    || (e.Arrive? && s.stream.Some? && s.stream.value.lastPacketAt != 0
        && e.at - s.stream.value.lastPacketAt > 3 * c.packetDur)
    || Forgotten(c, s, e)
  }

  lemma TickMarks(c: Timing, s: Speaker, now: int, decoded: Option<seq<int>>)
    requires s.eofMarked
    ensures var (s1, out) := MixTick(c, s, now, decoded); s1.eofMarked && !out.conceal
    ensures s.stream.None? ==> MixTick(c, s, now, decoded).0 == s
  {
    hide Gain, Faded, Pop, Primed, Adapt;
  }

  /** One event keeps a mark exactly if it does not break it. */
  lemma MarkGoesIff(c: Timing, s: Speaker, e: Event)
    requires s.eofMarked
    ensures Next(c, s, e).0.eofMarked <==> !Breaks(c, s, e)
    ensures !Next(c, s, e).1.conceal
  {
    hide MixTick, Push, ForceStart;
    if e.Tick? {
      TickMarks(c, s, e.at, e.decoded);
    }
  }

  ghost predicate StaysMarked(c: Timing, s: Speaker, es: seq<Event>)
    decreases es
  {
    s.eofMarked && (es != [] ==> StaysMarked(c, Next(c, s, es[0]).0, es[1..]))
  }

  ghost predicate Unbroken(c: Timing, s: Speaker, es: seq<Event>)
    decreases es
  {
    es != [] ==> !Breaks(c, s, es[0]) && Unbroken(c, Next(c, s, es[0]).0, es[1..])
  }

  /** On every run a mark stands throughout exactly if no packet comes after a long gap and no clean-up forgets. */
  lemma {:induction false} StaysMarkedIff(c: Timing, s: Speaker, es: seq<Event>)
    requires s.eofMarked
    ensures StaysMarked(c, s, es) <==> Unbroken(c, s, es)
    decreases es
  {
    hide Next, Breaks;
    if es == [] {
    } else {
      MarkGoesIff(c, s, es[0]);
      if !Breaks(c, s, es[0]) {
        StaysMarkedIff(c, Next(c, s, es[0]).0, es[1..]);
      }
    }
  }

  // ---------- Nothing is concealed ----------

  /** Ticks and markers as they come; packets only while the mark stands, and none that takes it away. */
  ghost predicate Continues(c: Timing, s: Speaker, es: seq<Event>)
    decreases es
  {
    es != [] ==>
      && (es[0].Arrive? ==> s.eofMarked && !LongGap(c, StreamOf(c, s), es[0].at))
      && Continues(c, Next(c, s, es[0]).0, es[1..])
  }

  /** A speaker that the mixer has no reason to conceal. */
  predicate Muted(s: Speaker)
  {
    s.stream.None? || s.eofMarked
  }

  lemma MutedStep(c: Timing, s: Speaker, e: Event)
    requires Muted(s) && (e.Arrive? ==> s.eofMarked && !LongGap(c, StreamOf(c, s), e.at))
    ensures Muted(Next(c, s, e).0) && !Next(c, s, e).1.conceal
  {
    hide MixTick, Push, ForceStart;
    if s.eofMarked {
      MarkGoesIff(c, s, e);
      if e.Tick? {
        TickMarks(c, s, e.at, e.decoded);
      }
    } else if e.Tick? {
      NoStreamTick(c, s, e);
    }
  }

  lemma {:induction false} MutedRunIsSilent(c: Timing, s: Speaker, es: seq<Event>)
    requires Muted(s) && Continues(c, s, es)
    ensures Concealed(RunAll(c, s, es).1) == []
    decreases es
  {
    hide Next, Muted;
    if es == [] {
    } else {
      var (s1, out) := Next(c, s, es[0]);
      MutedStep(c, s, es[0]);
      MutedRunIsSilent(c, s1, es[1..]);
      assert ([out] + RunAll(c, s1, es[1..]).1)[1..] == RunAll(c, s1, es[1..]).1;
    }
  }

  /**
   Once the end is marked nothing is concealed: while the waiting packets drain, while more of them trail in,
   and in the silence after them, until a packet comes after a long gap or a forgotten speaker begins anew.
   */
  lemma {:induction false} NothingConcealedAfterEof(c: Timing, s: Speaker, at: int, es: seq<Event>)
    requires Continues(c, OnEof(s, at), es)
    ensures Concealed(RunAll(c, OnEof(s, at), es).1) == []
  {
    MutedRunIsSilent(c, OnEof(s, at), es);
  }

  lemma {:induction false} StaysMarkedContinues(c: Timing, s: Speaker, es: seq<Event>)
    requires StaysMarked(c, s, es)
    ensures Continues(c, s, es) && RunAll(c, s, es).0.eofMarked
    decreases es
  {
    hide Next;
    if es == [] {
    } else {
      MarkGoesIff(c, s, es[0]);
      StaysMarkedContinues(c, Next(c, s, es[0]).0, es[1..]);
    }
  }

  /**
   An end marker for a speaker without a stream is kept, and the transmission that begins later is marked from
   its first packet on, exactly until a packet comes after a long gap or a clean-up forgets the speaker; none
   of its gaps is concealed up to then.
   */
  lemma {:induction false} StaleMarkerSurvivesIff(c: Timing, t0: int, es: seq<Event>)
    ensures var s := OnEof(Speaker(None, false), t0);
            && (StaysMarked(c, s, es) <==> Unbroken(c, s, es))
            && (Unbroken(c, s, es) ==> Concealed(RunAll(c, s, es).1) == [])
  {
    var s := OnEof(Speaker(None, false), t0);
    StaysMarkedIff(c, s, es);
    if Unbroken(c, s, es) {
      StaysMarkedContinues(c, s, es);
      MutedRunIsSilent(c, s, es);
    }
  }

  // ---------- An instance ----------

  const QUICK: Timing := Timing(20, 40, 60, 1, 1, false, 0.5)

  const FIRST: AudioPacket := AudioPacket(1, 7, 255, [1])

  /** One packet, played at once, and a tick that finds nothing. */
  const TALK: seq<Event> := [Arrive(FIRST, 100), Tick(100, Some([1000]), true), Tick(120, None, true)]

  function TalkStream(j: Jitter, pcm: seq<int>): Stream
  {
    Stream(j, 100, pcm, 0, false, false, 0, 0, 0)
  }

  function Waits(): Jitter
  {
    Jitter(1, 32, map[FIRST.sequence := FIRST], FIRST.sequence, true)
  }

  function Played(): Jitter
  {
    Jitter(1, 32, map[], FIRST.sequence + 1, true)
  }

  lemma FirstComesAndGoes()
    ensures Push(Empty(1), FIRST) == Waits() && Pop(Waits()) == (Played(), Some(FIRST))
  {
    var m: map<uint32, AudioPacket> := map[FIRST.sequence := FIRST];
    assert IsLeast(FIRST.sequence, m.Keys);
    MinKeyIs(m, FIRST.sequence);
    assert map[][FIRST.sequence := FIRST] == m;
    assert m - {FIRST.sequence} == map[];
  }

  lemma TalkSteps(marked: bool)
    ensures Next(QUICK, Speaker(None, marked), TALK[0])
            == (Speaker(Some(TalkStream(Waits(), [])), marked), Outcome(None, None, false, false))
    ensures Next(QUICK, Speaker(Some(TalkStream(Waits(), [])), marked), TALK[1])
            == (Speaker(Some(TalkStream(Played(), [1000])), marked), Outcome(Some(FIRST), Some([1000]), true, false))
    ensures Next(QUICK, Speaker(Some(TalkStream(Played(), [1000])), marked), TALK[2]).1.conceal == !marked
    ensures !marked ==> Next(QUICK, Speaker(Some(TalkStream(Played(), [1000])), marked), TALK[2]).1.frame.Some?
  {
    hide Gain, Faded;
    FirstComesAndGoes();
  }

  lemma {:induction false} TalkConceals(marked: bool)
    ensures |Concealed(RunAll(QUICK, Speaker(None, marked), TALK).1)| == if marked then 0 else 1
  {
    hide Next;
    TalkSteps(marked);
    var s0 := Speaker(None, marked);
    var (s1, out1) := Next(QUICK, s0, TALK[0]);
    var (s2, out2) := Next(QUICK, s1, TALK[1]);
    var (s3, out3) := Next(QUICK, s2, TALK[2]);
    assert TALK[1..][1..] == [TALK[2]] && [TALK[2]][1..] == [];
    assert RunAll(QUICK, s2, [TALK[2]]).1 == [out3] + [];
    assert RunAll(QUICK, s1, TALK[1..]).1 == [out2] + ([out3] + []);
    var outs := RunAll(QUICK, s0, TALK).1;
    assert outs == [out1, out2, out3];
    assert outs[1..] == [out2, out3] && [out2, out3][1..] == [out3] && [out3][1..] == [];
    assert |Concealed([out3])| == if marked then 0 else 1;
    assert Concealed([out2, out3]) == Concealed([out3]);
  }

  /** The same talk has its gap concealed, but not if one marker too many came before it. */
  lemma {:induction false} StaleMarkerMutes()
    ensures |Concealed(RunAll(QUICK, Speaker(None, false), TALK).1)| == 1
    ensures Concealed(RunAll(QUICK, Speaker(None, false), [Marker(50)] + TALK).1) == []
  {
    hide Next;
    TalkConceals(false);
    TalkConceals(true);
    var s0, s1 := Speaker(None, false), Speaker(None, true);
    var first := Outcome(None, None, false, false);
    assert ([Marker(50)] + TALK)[1..] == TALK;
    assert Next(QUICK, s0, Marker(50)) == (s1, first) by {
      MarkerAlone();
    }
    var outs := RunAll(QUICK, s1, TALK).1;
    assert RunAll(QUICK, s0, [Marker(50)] + TALK).1 == [first] + outs;
    assert ([first] + outs)[1..] == outs;
    assert Concealed([first] + outs) == Concealed(outs);
    assert |Concealed(outs)| == 0;
  }

  lemma MarkerAlone()
    ensures Next(QUICK, Speaker(None, false), Marker(50)) == (Speaker(None, true), Outcome(None, None, false, false))
  {
  }

  // ---------- What the next tick sees ----------

  ghost predicate There(c: Timing, s: Speaker, es: seq<Event>)
    decreases es
  {
    s.stream.Some? && (es != [] ==> There(c, Next(c, s, es[0]).0, es[1..]))
  }

  /** Whether a marker has come since the last tick, or before if there was none. */
  function MarkedSinceTick(before: bool, es: seq<Event>): bool
    decreases es
  {
    if es == [] then before
    else MarkedSinceTick(if es[0].Marker? then true else if es[0].Tick? then false else before, es[1..])
  }

  lemma PendingAfter(c: Timing, s: Speaker, e: Event)
    requires s.stream.Some? && Next(c, s, e).0.stream.Some?
    ensures Next(c, s, e).0.stream.value.txEofPending
            == if e.Marker? then true else if e.Tick? then false else s.stream.value.txEofPending
  {
    hide Gain, Faded, Pop, Push, ForceStart, Resized, WantedDepth, FlushDecoder;
    if e.Tick? {
      FlushKeepsPending(c, s.stream.value.(txEofPending := false), e.at);
    }
  }

  lemma FlushKeepsPending(c: Timing, st: Stream, at: int)
    ensures FlushDecoder(c, st, at).txEofPending == st.txEofPending
  {
  }

  /** A tick sees the end of a speaker's transmission exactly if a marker has come since the tick before, and once. */
  lemma {:induction false} TickSeesMarkerIff(c: Timing, s: Speaker, es: seq<Event>)
    requires There(c, s, es)
    ensures There(c, RunAll(c, s, es).0, [])
    ensures RunAll(c, s, es).0.stream.value.txEofPending == MarkedSinceTick(s.stream.value.txEofPending, es)
    decreases es
  {
    hide Next;
    if es != [] {
      PendingAfter(c, s, es[0]);
      TickSeesMarkerIff(c, Next(c, s, es[0]).0, es[1..]);
    }
  }
}
