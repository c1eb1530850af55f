/** The per-speaker state of the mixer loop as the object it updates in place. */
module SpeakerStream {
  import opened Packets
  import opened JitterModel
  import opened SpeakerModel
  import opened JitterBuffer

  class SpeakerStreamState {
    const jitter: SpeakerJitterBuffer
    var lastPacketAt: int
    var lastPCM: seq<int>
    var missCount: nat
    var txEofPending: bool
    var flushPending: bool
    var eofAt: int
    var concealStreak: nat
    var stableTicks: nat

    function View(): Stream
      reads this, jitter
    {
      Stream(jitter.View(), lastPacketAt, lastPCM, missCount,
             txEofPending, flushPending, eofAt, concealStreak, stableTicks)
    }

    constructor (c: Timing)
      requires c.floor <= 0xFFFF
      ensures View() == FreshStream(c) && fresh(jitter)
    {
      jitter := new SpeakerJitterBuffer(c.floor);
      lastPacketAt, lastPCM, missCount := 0, [], 0;
      txEofPending, flushPending, eofAt := false, false, 0;
      concealStreak, stableTicks := 0, 0;
    }

    /** A packet from the input queue; returns the mark that is left for the speaker. */
    method Receive(c: Timing, p: AudioPacket, now: int, eofMarked: bool) returns (marked: bool)
      modifies this, jitter
      ensures Speaker(Some(View()), marked) == OnPacket(c, Speaker(Some(old(View())), eofMarked), p, now)
    {
      var previous := lastPacketAt;
      if previous != 0 && now - previous > 3 * c.packetDur && !jitter.started && |jitter.packets| > 0 {
        jitter.ResetBuffer();
        lastPCM := [];
        missCount := 0;
      }
      jitter.Push(p);
      lastPacketAt := now;
      marked := eofMarked;
      if marked {
        if previous != 0 && now - previous > 3 * c.packetDur {
          marked := false;
        }
      } else {
        marked := false;
      }
    }

    /** An end-of-transmission marker from the queue. */
    method EndMarker(now: int)
      modifies this, jitter
      ensures Speaker(Some(View()), true) == OnEof(Speaker(Some(old(View())), false), now)
    {
      jitter.ForceStartFromMinSeq();
      flushPending := true;
      eofAt := now;
      txEofPending := true;
    }

    method MaybeFlushDecoder(c: Timing, now: int)
      modifies this
      ensures View() == FlushDecoder(c, old(View()), now)
    {
      if !flushPending {
        return;
      }
      if |jitter.packets| != 0 {
        return;
      }
      if eofAt != 0 && now - eofAt < 5 * c.packetDur {
        return;
      }
      lastPCM := [];
      missCount := 0;
      flushPending := false;
      eofAt := 0;
    }

    /** Widens the bounds that are the wrong way round, as the source does. */
    method AdaptJitterOnTick(c: Timing, played: bool, conceal: bool)
      modifies this, jitter
      ensures View() == Adapt(c.(ceil := if c.ceil < c.floor then c.floor else c.ceil), old(View()), played, conceal)
    {
      hide SetMinStart;
      var ceil := c.ceil;
      if ceil < c.floor {
        ceil := c.floor;
      }
      if conceal {
        concealStreak := concealStreak + 1;
        stableTicks := 0;
        if concealStreak >= CONCEAL_THRESHOLD {
          if jitter.minStart < ceil {
            jitter.SetMinStartClamped(jitter.minStart + 1, c.floor, ceil);
          }
          concealStreak := 0;
        }
        return;
      }
      if played {
        concealStreak := 0;
        stableTicks := stableTicks + 1;
        if stableTicks >= STABLE_TICKS {
          if jitter.minStart > c.floor {
            jitter.SetMinStartClamped(jitter.minStart - 1, c.floor, ceil);
          }
          stableTicks := 0;
        }
      }
    }

    /** The concealed frame, sample by sample. */
    method FadeFrame(gain: real) returns (frame: seq<int>)
      ensures frame == Faded(lastPCM, gain)
    {
      frame := [];
      for i := 0 to |lastPCM|
        invariant |frame| == i
        invariant forall k :: 0 <= k < i ==> frame[k] == Scaled(lastPCM[k], gain)
      {
        frame := frame + [Scaled(lastPCM[i], gain)];
      }
    }

    method ConcealGain(c: Timing, now: int) returns (gain: real)
      ensures gain == Gain(c, missCount, now - lastPacketAt > c.hangover)
    {
      gain := DecayPower(c, missCount);
      if now - lastPacketAt > c.hangover {
        gain := Attenuate(gain, FadePower(missCount));
      }
      gain := Unit(gain);
    }

    /** Pops and decodes a packet, conceals the gap, or notes the silence. */
    method PlayOrConceal(c: Timing, now: int, decoded: Option<seq<int>>, eofMarked: bool)
      returns (popped: Option<AudioPacket>, frame: Option<seq<int>>, played: bool, conceal: bool, marked: bool)
      modifies this, jitter
      ensures (Speaker(Some(View()), marked), Outcome(popped, frame, played, conceal))
              == Play(c, old(View()), eofMarked, now, decoded)
    {
      hide JitterModel.Pop, Gain, Faded;
      popped := jitter.Pop();
      frame, played, conceal, marked := None, false, false, eofMarked;
      if popped.Some? && decoded.Some? {
        lastPCM := decoded.value;
        missCount := 0;
        lastPacketAt := now;
        frame, played := decoded, true;
      }
      if !played && !eofMarked && now - lastPacketAt <= c.eofTimeout && |lastPCM| > 0 {
        var gain := ConcealGain(c, now);
        var faded := FadeFrame(gain);
        frame, conceal := Some(faded), true;
        missCount := missCount + 1;
      } else if !played && now - lastPacketAt > c.eofTimeout {
        marked := true;
      }
    }

    /** What precedes the pop: the decoder is flushed and a stuck buffer is started. */
    method Prime(c: Timing, now: int)
      modifies this, jitter
      ensures View() == Primed(c, old(View()), now)
    {
      txEofPending := false;
      MaybeFlushDecoder(c, now);
      if |jitter.packets| > 0 && !jitter.started && now - lastPacketAt > c.packetDur {
        jitter.ForceStartFromMinSeq();
      }
    }

    /** The speaker's share of one mixer tick; decoded is the decoder's answer for a popped packet. */
    method MixSpeaker(c: Timing, now: int, decoded: Option<seq<int>>, eofMarked: bool)
      returns (popped: Option<AudioPacket>, frame: Option<seq<int>>, played: bool, conceal: bool, marked: bool)
      requires c.floor <= c.ceil
      modifies this, jitter
      ensures (Speaker(Some(View()), marked), Outcome(popped, frame, played, conceal))
              == MixTick(c, Speaker(Some(old(View())), eofMarked), now, decoded)
    {
      hide Play, Primed, Adapt;
      Prime(c, now);
      popped, frame, played, conceal, marked := PlayOrConceal(c, now, decoded, eofMarked);
      if c.adapt && !marked {
        AdaptJitterOnTick(c, played, conceal);
      }
    }
  }
}
