/**
 The same in the form that the relay runs: the squelch as an object whose fields one call updates, and the
 mixer with its chain of stages and its count of silent frames.
 */
module TailMixers {
  import opened EndOfTx

  class SquelchDspModule {
    const frameDuration: int
    var squelchBurstRemain: int
    var squelchLatched: bool
    var lastActive: bool

    ghost function View(): Squelch
      reads this
    {
      Squelch(squelchBurstRemain, squelchLatched, lastActive)
    }

    constructor (frame: int)
      ensures View() == Squelch(0, false, false) && frameDuration == frame
    {
      frameDuration := frame;
      squelchBurstRemain, squelchLatched, lastActive := 0, false, false;
    }

    method Process(ctx: Context, chance: Chance) returns (c: Context)
      modifies this
      ensures (View(), c) == Squelched(frameDuration, old(View()), ctx, chance)
    {
      hide Hiss, Gating;
      if ctx.active {
        c := ProcessActive(ctx, chance);
      } else {
        c := ProcessTail(ctx, chance);
      }
    }

    method ProcessTail(ctx: Context, chance: Chance) returns (c: Context)
      requires !ctx.active
      modifies this
      ensures (View(), c) == Hiss(frameDuration, old(View()), ctx, chance)
    {
      c := ctx;
      var txEof := c.eof || lastActive;
      if txEof && squelchBurstRemain <= 0 {
        squelchBurstRemain := chance.tail;
      }
      lastActive := false;
      if squelchBurstRemain > 0 {
        var afterDec := squelchBurstRemain - frameDuration;
        squelchBurstRemain := afterDec;
        if afterDec <= 0 {
          squelchBurstRemain := 0;
          c := c.(queueSilence := true);
        }
        c := c.(emit := true);
        return;
      }
      squelchLatched := false;
      c := c.(emit := false);
    }

    method ProcessActive(ctx: Context, chance: Chance) returns (c: Context)
      requires ctx.active
      modifies this
      ensures (View(), c) == Gating(frameDuration, old(View()), ctx, chance)
    {
      c := ctx;
      lastActive := true;
      if chance.weak {
        if squelchLatched {
          c := c.(drop := true);
          return;
        }
        if squelchBurstRemain <= 0 {
          squelchBurstRemain := chance.burst;
        }
        squelchBurstRemain := squelchBurstRemain - frameDuration;
        if squelchBurstRemain <= 0 {
          squelchLatched := true;
          c := c.(drop := true);
        }
        return;
      }
      squelchLatched := false;
      squelchBurstRemain := 0;
    }
  }

  lemma Regroup(done: seq<Stage>, stage: Stage, rest: seq<Stage>)
    ensures done + ([stage] + rest) == (done + [stage]) + rest
  {
  }

  class TailMixer {
    const settings: Settings
    var dspMods: seq<Stage>
    var synthSilenceRemain: nat
    var lastTxActive: bool

    ghost function View(): Mixer
      reads this
    {
      Mixer(dspMods, synthSilenceRemain, lastTxActive)
    }

    constructor (chain: seq<Stage>, frame: int, jitterMin: nat, squelchEnabled: bool, configured: int)
      ensures View() == Mixer(chain, 0, false) && settings == Configured(frame, jitterMin, squelchEnabled, configured)
    {
      var n := SilenceTicks(jitterMin, squelchEnabled, configured);
      dspMods, synthSilenceRemain, lastTxActive, settings := chain, 0, false, Settings(frame, n);
    }

    static method SilenceTicks(jitterMinPackets: nat, squelchEnabled: bool, synthSilenceTailPackets: int)
      returns (n: nat)
      ensures n == SynthesizedBurstSilenceTicks(jitterMinPackets, squelchEnabled, synthSilenceTailPackets)
    {
      n := jitterMinPackets + 2;
      if n < 4 {
        n := 4;
      }
      if squelchEnabled && synthSilenceTailPackets > 0 {
        n := synthSilenceTailPackets;
      }
    }

    /** The stages one after the other, until one drops the frame. */
    method ProcessModuleChain(ctx: Context, chance: Chance) returns (c: Context, dropped: bool)
      requires !ctx.drop
      modifies this`dspMods
      ensures (dspMods, c) == Chain(settings.frame, old(dspMods), ctx, chance) && dropped == c.drop
    {
      hide Process;
      c, dropped := ctx, false;
      ghost var before := dspMods;
      ghost var whole := Chain(settings.frame, before, ctx, chance);
      var i := 0;
      assert before[0..] == before && dspMods[..0] + whole.0 == whole.0;
      while i < |dspMods|
        invariant 0 <= i <= |dspMods| == |before| && dspMods[i..] == before[i..] && !c.drop
        invariant whole.0 == dspMods[..i] + Chain(settings.frame, before[i..], c, chance).0
        invariant whole.1 == Chain(settings.frame, before[i..], c, chance).1
      {
        ghost var done, rest := dspMods[..i], before[i..];
        assert rest[0] == dspMods[i] && rest[1..] == before[i + 1..];
        var step := Process(settings.frame, dspMods[i], c, chance);
        ghost var tail := if step.1.drop then rest[1..] else Chain(settings.frame, rest[1..], step.1, chance).0;
        Regroup(done, step.0, tail);
        dspMods := dspMods[i := step.0];
        c := step.1;
        assert dspMods[..i + 1] == done + [step.0] && dspMods[i + 1..] == rest[1..];
        if c.drop {
          assert dspMods == dspMods[..i + 1] + dspMods[i + 1..];
          return c, true;
        }
        i := i + 1;
      }
      assert dspMods[..i] + [] == dspMods;
    }

    /** The end of a tick: due silence first, and otherwise what the chain lets through. */
    method MixAndBroadcast(active: bool, eof: bool, chance: Chance) returns (sent: Sent)
      modifies this
      ensures (View(), sent) == Tick(settings, old(View()), Input(active, eof, chance))
    {
      var txStart := active && !lastTxActive;
      var txEof := eof;
      if !txEof && !active && lastTxActive {
        txEof := true;
      }
      lastTxActive := active;
      if synthSilenceRemain > 0 {
        synthSilenceRemain := synthSilenceRemain - 1;
        return Silence;
      }
      var c, dropped := ProcessModuleChain(Context(active, txStart, txEof, active, false, false), chance);
      if dropped {
        return Nothing;
      }
      if c.queueSilence {
        synthSilenceRemain := synthSilenceRemain + settings.silenceTicks;
      }
      if !c.emit {
        return Nothing;
      }
      return Mixed;
    }
  }
}
