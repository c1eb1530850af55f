/**
 What the mixer loop keeps for one speaker, as a value: the jitter buffer, concealment, the end-of-transmission
 mark and the adaptive depth. Times are nanoseconds; zero is the unset time.
 */
module SpeakerModel {
  import opened Packets
  import opened JitterModel

  const CONCEAL_THRESHOLD: nat := 4
  const STABLE_TICKS: nat := 80

  /** The channel settings that matter here; floor and ceil bound the jitter depth. */
  datatype Timing = Timing(
    packetDur: int, hangover: int, eofTimeout: int, floor: nat, ceil: nat, adapt: bool, decay: real)

  predicate ValidTiming(c: Timing)
  {
    && 0 < c.packetDur && 2 * c.packetDur <= c.hangover && c.hangover + c.packetDur <= c.eofTimeout
    && 1 <= c.floor <= c.ceil <= 0xFFFF
    && 0.0 < c.decay <= 1.0
  }

  datatype Stream = Stream(
    jitter: Jitter,
    lastPacketAt: int,
    lastPCM: seq<int>,
    missCount: nat,
    txEofPending: bool,
    flushPending: bool,
    eofAt: int,
    concealStreak: nat,
    stableTicks: nat)

  /** One speaker: the stream state, if any, and the mark in the separate end-of-transmission map. */
  datatype Speaker = Speaker(stream: Option<Stream>, eofMarked: bool)

  function FreshStream(c: Timing): Stream
  {
    Stream(Empty(c.floor), 0, [], 0, false, false, 0, 0, 0)
  }

  // ---------- A packet and an end marker from the input queues ----------

  predicate LongGap(c: Timing, st: Stream, now: int)
  {
    st.lastPacketAt != 0 && now - st.lastPacketAt > 3 * c.packetDur
  }

  /** Leftovers of a burst too short to start the buffer, found when the next burst begins. */
  predicate Leftover(c: Timing, st: Stream, now: int)
  {
    LongGap(c, st, now) && !st.jitter.started && |st.jitter.packets| > 0
  }

  function StreamOf(c: Timing, s: Speaker): Stream
  {
    if s.stream.Some? then s.stream.value else FreshStream(c)
  }

  ghost function OnPacket(c: Timing, s: Speaker, p: AudioPacket, now: int): Speaker
  {
    var st := StreamOf(c, s);
    var st1 := if Leftover(c, st, now) then st.(jitter := Reset(st.jitter), lastPCM := [], missCount := 0) else st;
    Speaker(Some(st1.(jitter := Push(st1.jitter, p), lastPacketAt := now)),
            s.eofMarked && !LongGap(c, st, now))
  }

  ghost function OnEof(s: Speaker, now: int): Speaker
  {
    Speaker(
      if s.stream.None? then None
      else
        var st := s.stream.value;
        Some(st.(jitter := ForceStart(st.jitter), flushPending := true, eofAt := now, txEofPending := true)),
      true)
  }

  // ---------- One mixer tick ----------

  function FlushDecoder(c: Timing, st: Stream, now: int): Stream
  {
    if !st.flushPending || |st.jitter.packets| != 0 || (st.eofAt != 0 && now - st.eofAt < 5 * c.packetDur) then st
    else st.(lastPCM := [], missCount := 0, flushPending := false, eofAt := 0)
  }

  predicate Stuck(c: Timing, st: Stream, now: int)
  {
    |st.jitter.packets| > 0 && !st.jitter.started && now - st.lastPacketAt > c.packetDur
  }

  ghost function Kick(c: Timing, st: Stream, now: int): Stream
  {
    if Stuck(c, st, now) then st.(jitter := ForceStart(st.jitter)) else st
  }

  function Power(x: real, n: nat): real
  {
    if n == 0 then 1.0 else x * Power(x, n - 1)
  }

  function Unit(x: real): real
  {
    if x < 0.0 then 0.0 else if x > 1.0 then 1.0 else x
  }

  function DecayPower(c: Timing, miss: nat): real
  {
    Power(c.decay, miss + 1)
  }

  function FadePower(miss: nat): real
  {
    Power(0.80, miss + 1)
  }

  function Attenuate(gain: real, factor: real): real
  {
    gain * factor
  }

  /** The gain of the concealed frame after miss misses, faster once the hangover is over. */
  function Gain(c: Timing, miss: nat, late: bool): real
  {
    Unit(if late then Attenuate(DecayPower(c, miss), FadePower(miss)) else DecayPower(c, miss))
  }

  /** Conversion to an integer drops the fraction, towards zero. */
  function Cut(x: real): int
  {
    if x >= 0.0 then x.Floor else -(-x).Floor
  }

  function Scaled(x: int, gain: real): int
  {
    Cut(x as real * gain)
  }

  function Faded(pcm: seq<int>, gain: real): seq<int>
  {
    seq(|pcm|, i requires 0 <= i < |pcm| => Scaled(pcm[i], gain))
  }

  datatype Outcome = Outcome(popped: Option<AudioPacket>, frame: Option<seq<int>>, played: bool, conceal: bool)

  predicate Conceals(c: Timing, st: Stream, eofMarked: bool, now: int)
  {
    !eofMarked && now - st.lastPacketAt <= c.eofTimeout && st.lastPCM != []
  }

  /**
   Pops a packet and decodes it, or conceals the gap, or notes that the speaker has gone silent.
   decoded is what the decoder makes of the popped packet, nothing if it fails.
   */
  ghost function Play(c: Timing, st: Stream, eofMarked: bool, now: int, decoded: Option<seq<int>>): (Speaker, Outcome)
  {
    var (j, popped) := Pop(st.jitter);
    var st1 := st.(jitter := j);
    if popped.Some? && decoded.Some? then
      (Speaker(Some(st1.(lastPCM := decoded.value, missCount := 0, lastPacketAt := now)), eofMarked),
       Outcome(popped, decoded, true, false))
    else if Conceals(c, st1, eofMarked, now) then
      (Speaker(Some(st1.(missCount := st1.missCount + 1)), eofMarked),
       Outcome(popped,
               Some(Faded(st1.lastPCM, Gain(c, st1.missCount, now - st1.lastPacketAt > c.hangover))), false, true))
    else
      (Speaker(Some(st1), eofMarked || now - st1.lastPacketAt > c.eofTimeout), Outcome(popped, None, false, false))
  }

  /** The depth that a tick asks for, if it asks for another one. */
  function WantedDepth(c: Timing, st: Stream, played: bool, conceal: bool): Option<int>
  {
    if conceal then
      if st.concealStreak + 1 >= CONCEAL_THRESHOLD && st.jitter.minStart < c.ceil
      then Some(st.jitter.minStart + 1) else None
    else if played then
      if st.stableTicks + 1 >= STABLE_TICKS && st.jitter.minStart > c.floor then Some(st.jitter.minStart - 1) else None
    else None
  }

  ghost function Resized(c: Timing, j: Jitter, depth: Option<int>): Jitter
  {
    if depth.Some? then SetMinStart(j, depth.value, c.floor, c.ceil) else j
  }

  ghost function Adapt(c: Timing, st: Stream, played: bool, conceal: bool): Stream
  {
    var st1 := st.(jitter := Resized(c, st.jitter, WantedDepth(c, st, played, conceal)));
    if conceal then
      st1.(concealStreak := if st.concealStreak + 1 >= CONCEAL_THRESHOLD then 0 else st.concealStreak + 1,
           stableTicks := 0)
    else if played then
      st1.(concealStreak := 0, stableTicks := if st.stableTicks + 1 >= STABLE_TICKS then 0 else st.stableTicks + 1)
    else st1
  }

  /** The stream as it goes into the pop of a tick. */
  ghost function Primed(c: Timing, st: Stream, now: int): Stream
  {
    Kick(c, FlushDecoder(c, st.(txEofPending := false), now), now)
  }

  ghost function MixTick(c: Timing, s: Speaker, now: int, decoded: Option<seq<int>>): (Speaker, Outcome)
  {
    if s.stream.None? then (s, Outcome(None, None, false, false))
    else
      var (s1, out) := Play(c, Primed(c, s.stream.value, now), s.eofMarked, now, decoded);
      (if c.adapt && !s1.eofMarked then s1.(stream := Some(Adapt(c, s1.stream.value, out.played, out.conceal))) else s1,
       out)
  }

  predicate Expired(c: Timing, s: Speaker, now: int, present: bool)
  {
    s.stream.Some? && (!present || now - s.stream.value.lastPacketAt > c.eofTimeout)
  }

  /** Streams of departed or silent speakers are forgotten, with their mark. */
  function Cleanup(c: Timing, s: Speaker, now: int, present: bool): Speaker
  {
    if Expired(c, s, now, present) then Speaker(None, false) else s
  }

  ghost function OnTick(c: Timing, s: Speaker, now: int, decoded: Option<seq<int>>, present: bool): (Speaker, Outcome)
  {
    var (s1, out) := MixTick(c, s, now, decoded);
    (Cleanup(c, s1, now, present), out)
  }

  // ---------- Runs ----------

  datatype Event =
    | Arrive(p: AudioPacket, at: int)
    | Marker(at: int)
    | Tick(at: int, decoded: Option<seq<int>>, present: bool)

  ghost function Next(c: Timing, s: Speaker, e: Event): (Speaker, Outcome)
  {
    match e
    case Arrive(p, at) => (OnPacket(c, s, p, at), Outcome(None, None, false, false))
    case Marker(at) => (OnEof(s, at), Outcome(None, None, false, false))
    case Tick(at, decoded, present) => OnTick(c, s, at, decoded, present)
  }

  /** The final state and the outcome of every event. */
  ghost function RunAll(c: Timing, s: Speaker, es: seq<Event>): (Speaker, seq<Outcome>)
    decreases es
  {
    if es == [] then (s, [])
    else
      var (s1, out) := Next(c, s, es[0]);
      var (s2, rest) := RunAll(c, s1, es[1..]);
      (s2, [out] + rest)
  }
}
