/**
 What the channel does when a transmission ends: the module chain with the squelch, and the silence that
 the mixer sends after the hiss. Only the control flags of the modules matter here, not their samples;
 durations are nanoseconds and random draws are inputs.
 */
module EndOfTx {

  datatype Squelch = Squelch(burstRemain: int, latched: bool, lastActive: bool)

  /** The stages of a chain; Shape stands for filter, dispersion, compressor and distortion. */
  datatype Stage =
    | Pops(lastActive: bool)
    | Clicks
    | Noise
    | Gate(squelch: Squelch)
    | Shape

  /** The flags that the stages of one tick share. */
  datatype Context = Context(active: bool, start: bool, eof: bool, emit: bool, drop: bool, queueSilence: bool)

  /** What chance and the signal decide in one tick: a weak line, a click, a tail and a burst duration. */
  datatype Chance = Chance(weak: bool, click: bool, tail: int, burst: int)

  // ---------- The squelch ----------

  /** The transmission is over, or has not begun: draw a tail at its end, and hiss while it lasts. */
  function Hiss(frame: int, q: Squelch, c: Context, chance: Chance): (Squelch, Context)
  {
    var ended := c.eof || q.lastActive;
    var remain := if ended && q.burstRemain <= 0 then chance.tail else q.burstRemain;
    if remain > 0 then
      var left := remain - frame;
      (Squelch(if left <= 0 then 0 else left, q.latched, false),
       c.(emit := true, queueSilence := c.queueSilence || left <= 0))
    else (Squelch(remain, false, false), c.(emit := false))
  }

  /** The transmission runs: a weak line hisses for a burst and is then gated until it is strong again. */
  function Gating(frame: int, q: Squelch, c: Context, chance: Chance): (Squelch, Context)
  {
    if !chance.weak then (Squelch(0, false, true), c)
    else if q.latched then (q.(lastActive := true), c.(drop := true))
    else
      var left := (if q.burstRemain <= 0 then chance.burst else q.burstRemain) - frame;
      (Squelch(left, left <= 0, true), c.(drop := c.drop || left <= 0))
  }

  function Squelched(frame: int, q: Squelch, c: Context, chance: Chance): (Squelch, Context)
  {
    if c.active then Gating(frame, q, c, chance) else Hiss(frame, q, c, chance)
  }

  // ---------- The chain ----------

  function Process(frame: int, stage: Stage, c: Context, chance: Chance): (Stage, Context)
  {
    match stage
    case Pops(lastActive) =>
      var pops := c.start || (c.active && !lastActive) || c.eof || (!c.active && lastActive);
      (Pops(c.active), c.(emit := c.emit || pops))
    case Clicks => (stage, c.(emit := c.emit || (c.active && chance.click)))
    case Noise => (stage, c.(emit := c.emit || c.active))
    case Gate(q) => var (q1, c1) := Squelched(frame, q, c, chance); (Gate(q1), c1)
    case Shape => (stage, c)
  }

  /** The stages in order; a stage that drops the frame ends the chain. */
  function Chain(frame: int, stages: seq<Stage>, c: Context, chance: Chance): (r: (seq<Stage>, Context))
    ensures |r.0| == |stages|
    decreases stages
  {
    if stages == [] then ([], c)
    else
      var (stage, c1) := Process(frame, stages[0], c, chance);
      if c1.drop then ([stage] + stages[1..], c1)
      else
        var (rest, c2) := Chain(frame, stages[1..], c1, chance);
        ([stage] + rest, c2)
  }

  // ---------- The mixer's tick ----------

  datatype Settings = Settings(frame: int, silenceTicks: nat)

  /** How many frames of silence follow a hiss; a configured number above zero overrides. */
  function SynthesizedBurstSilenceTicks(jitterMin: nat, squelchEnabled: bool, configured: int): (n: nat)
    ensures squelchEnabled && configured > 0 ==> n == configured
    ensures !squelchEnabled || configured <= 0 ==> n >= 4 && n >= jitterMin + 2 && (n == 4 || n == jitterMin + 2)
  {
    if squelchEnabled && configured > 0 then configured
    else if jitterMin + 2 < 4 then 4
    else jitterMin + 2
  }

  /** The settings of a mixer with that number of frames; they are the ones that its tail follows. */
  function Configured(frame: int, jitterMin: nat, squelchEnabled: bool, configured: int): Settings
  {
    Settings(frame, SynthesizedBurstSilenceTicks(jitterMin, squelchEnabled, configured))
  }

  datatype Mixer = Mixer(stages: seq<Stage>, silence: nat, lastTxActive: bool)

  /** One tick's input: whether somebody speaks, whether an end marker is pending, and chance. */
  datatype Input = Input(active: bool, eof: bool, chance: Chance)

  datatype Sent = Nothing | Mixed | Silence

  function Begin(t: Mixer, i: Input): Context
  {
    Context(i.active, i.active && !t.lastTxActive, i.eof || (!i.active && t.lastTxActive), i.active, false, false)
  }

  function Tick(s: Settings, t: Mixer, i: Input): (Mixer, Sent)
  {
    if t.silence > 0 then (Mixer(t.stages, t.silence - 1, i.active), Silence)
    else
      var (stages, c) := Chain(s.frame, t.stages, Begin(t, i), i.chance);
      if c.drop then (Mixer(stages, 0, i.active), Nothing)
      else (Mixer(stages, if c.queueSilence then s.silenceTicks else 0, i.active), if c.emit then Mixed else Nothing)
  }

  function After(s: Settings, t: Mixer, run: seq<Input>): Mixer
    decreases run
  {
    if run == [] then t else After(s, Tick(s, t, run[0]).0, run[1..])
  }

  /** What the ticks of a run send, one entry for each tick. */
  function Output(s: Settings, t: Mixer, run: seq<Input>): (sent: seq<Sent>)
    ensures |sent| == |run|
    decreases run
  {
    if run == [] then [] else [Tick(s, t, run[0]).1] + Output(s, Tick(s, t, run[0]).0, run[1..])
  }

  // ---------- A chain with one squelch ----------

  /** The squelch stands at position k, alone of its kind, and no pops stage comes after it. */
  predicate Gated(stages: seq<Stage>, k: nat)
  {
    && k < |stages| && stages[k].Gate?
    && (forall i :: 0 <= i < |stages| && i != k ==> !stages[i].Gate?)
    && (forall i :: k < i < |stages| ==> !stages[i].Pops?)
  }

  lemma {:induction false} QuietAfterGate(frame: int, stages: seq<Stage>, c: Context, chance: Chance)
    requires !c.active && !c.drop
    requires forall i :: 0 <= i < |stages| ==> !stages[i].Gate? && !stages[i].Pops?
    ensures Chain(frame, stages, c, chance) == (stages, c)
    decreases stages
  {
    if stages == [] {
    } else {
      QuietAfterGate(frame, stages[1..], c, chance);
      assert [stages[0]] + stages[1..] == stages;
    }
  }

  /** While nobody speaks, the chain does what the squelch does, whatever stands before it. */
  lemma {:induction false} QuietChain(frame: int, stages: seq<Stage>, k: nat, c: Context, chance: Chance)
    requires Gated(stages, k) && !c.active && !c.drop
    ensures var (stages1, c1) := Chain(frame, stages, c, chance);
            var (q1, h) := Hiss(frame, stages[k].squelch, c, chance);
            Gated(stages1, k) && stages1[k] == Gate(q1) && c1 == h
    decreases stages
  {
    var (stage, c1) := Process(frame, stages[0], c, chance);
    if k == 0 {
      QuietAfterGate(frame, stages[1..], c1, chance);
    } else {
      QuietChain(frame, stages[1..], k - 1, c1, chance);
      var rest := Chain(frame, stages[1..], c1, chance).0;
      var stages1 := [stage] + rest;
      assert forall i :: 0 < i < |stages1| ==> stages1[i] == rest[i - 1];
    }
  }

  // ---------- The tail, tick by tick ----------

  /** How many frames of hiss a remaining duration makes: the quotient rounded up. */
  function HissTicks(frame: int, remain: int): (n: nat)
    requires frame > 0
    ensures remain > 0 ==> (n - 1) * frame < remain <= n * frame
    ensures remain <= 0 ==> n == 0
    decreases if remain > 0 then remain else 0
  {
    if remain <= 0 then 0 else 1 + HissTicks(frame, remain - frame)
  }

  /** What is left to hiss at a tick in which nobody speaks, a fresh draw included. */
  function Remain(t: Mixer, k: nat, i: Input): int
    requires Gated(t.stages, k)
  {
    var q := t.stages[k].squelch;
    if (i.eof || t.lastTxActive || q.lastActive) && q.burstRemain <= 0 then i.chance.tail else q.burstRemain
  }

  /** Nothing of the last transmission is still to be noticed. */
  predicate Settled(t: Mixer, k: nat)
  {
    Gated(t.stages, k) && !t.lastTxActive && !t.stages[k].squelch.lastActive
  }

  function Left(frame: int, remain: int): int
  {
    if 0 < remain <= frame then 0 else if remain > 0 then remain - frame else remain
  }

  lemma QuietTick(s: Settings, t: Mixer, k: nat, i: Input)
    requires s.frame > 0 && Gated(t.stages, k) && t.silence == 0 && !i.active
    ensures var (t1, sent) := Tick(s, t, i);
            var remain := Remain(t, k, i);
            && Settled(t1, k) && t1.stages[k].squelch.burstRemain == Left(s.frame, remain)
            && sent == (if remain > 0 then Mixed else Nothing)
            && t1.silence == (if 0 < remain <= s.frame then s.silenceTicks else 0)
  {
    QuietChain(s.frame, t.stages, k, Begin(t, i), i.chance);
  }

  predicate Quiet(run: seq<Input>)
  {
    forall i :: 0 <= i < |run| ==> !run[i].active
  }

  /** The marker may come while the tail lasts, but not later. */
  predicate NoMarkerFrom(run: seq<Input>, n: nat)
  {
    forall i :: n <= i < |run| ==> !run[i].eof
  }

  /** Hiss up to h, silence up to n, nothing from then on. */
  predicate IsTail(sent: seq<Sent>, h: nat, n: nat)
  {
    forall i :: 0 <= i < |sent| ==> sent[i] == if i < h then Mixed else if i < n then Silence else Nothing
  }

  /** The frames still to come from a settled mixer: of hiss, and of hiss and silence. */
  function HissDue(s: Settings, t: Mixer, k: nat): nat
    requires s.frame > 0 && Gated(t.stages, k)
  {
    HissTicks(s.frame, t.stages[k].squelch.burstRemain)
  }

  function TailDue(s: Settings, t: Mixer, k: nat): nat
    requires s.frame > 0 && Gated(t.stages, k)
  {
    if t.stages[k].squelch.burstRemain > 0 then HissDue(s, t, k) + s.silenceTicks else t.silence
  }

  /** Hiss and silence do not run at the same time. */
  predicate OneAtATime(t: Mixer, k: nat)
    requires Gated(t.stages, k)
  {
    t.silence > 0 ==> t.stages[k].squelch.burstRemain <= 0
  }

  predicate Idle(t: Mixer, k: nat)
  {
    Settled(t, k) && t.silence == 0 && t.stages[k].squelch.burstRemain <= 0
  }

  /** From a settled mixer the due hiss and silence follow exactly, whatever markers arrive meanwhile. */
  lemma {:induction false} DueTailFollows(s: Settings, t: Mixer, k: nat, run: seq<Input>)
    requires s.frame > 0 && Settled(t, k) && OneAtATime(t, k)
    requires Quiet(run) && NoMarkerFrom(run, TailDue(s, t, k))
    ensures IsTail(Output(s, t, run), HissDue(s, t, k), TailDue(s, t, k))
    ensures |run| >= TailDue(s, t, k) ==> Idle(After(s, t, run), k)
    decreases run
  {
    hide Chain, Begin;
    if run == [] {
    } else {
      var (t1, sent) := Tick(s, t, run[0]);
      if t.silence == 0 {
        QuietTick(s, t, k, run[0]);
      }
      DueTailFollows(s, t1, k, run[1..]);
    }
  }

  /** So too from any moment without silence: a hiss that runs already is finished instead of a new one. */
  lemma {:induction false} TailFollows(s: Settings, t: Mixer, k: nat, run: seq<Input>)
    requires s.frame > 0 && Gated(t.stages, k) && t.silence == 0
    requires Quiet(run) && run != [] && Remain(t, k, run[0]) > 0
    requires NoMarkerFrom(run, HissTicks(s.frame, Remain(t, k, run[0])) + s.silenceTicks)
    ensures var h := HissTicks(s.frame, Remain(t, k, run[0]));
            var n := h + s.silenceTicks;
            IsTail(Output(s, t, run), h, n) && (|run| >= n ==> Idle(After(s, t, run), k))
  {
    hide Chain, Begin;
    QuietTick(s, t, k, run[0]);
    var t1 := Tick(s, t, run[0]).0;
    DueTailFollows(s, t1, k, run[1..]);
  }

  /**
   The end of a transmission, with no hiss or silence left over: at the first tick without a speaker a tail is
   drawn, and exactly its duration in frames, rounded up, is hissed, then the silence follows, then nothing;
   end markers that arrive on the way start nothing. The mixer is idle afterwards.
   */
  lemma {:induction false} TransmissionEndsExactly(s: Settings, t: Mixer, k: nat, run: seq<Input>)
    requires s.frame > 0 && Gated(t.stages, k)
    requires t.silence == 0 && t.stages[k].squelch.burstRemain <= 0
    requires Quiet(run) && run != [] && (t.lastTxActive || run[0].eof)
    requires var tail := run[0].chance.tail;
             tail > 0 && NoMarkerFrom(run, HissTicks(s.frame, tail) + s.silenceTicks)
    ensures var h := HissTicks(s.frame, run[0].chance.tail);
            var n := h + s.silenceTicks;
            IsTail(Output(s, t, run), h, n) && (|run| >= n ==> Idle(After(s, t, run), k))
  {
    TailFollows(s, t, k, run);
  }

  /**
   So with the configuration's own number, the hiss is followed by that many frames of silence, and otherwise by
   two more than a client's jitter buffer waits for, and four at least.
   */
  lemma {:induction false} ConfiguredTail(
    jitterMin: nat, configured: int, s: Settings, t: Mixer, k: nat, run: seq<Input>)
    requires s.frame > 0 && s.silenceTicks == SynthesizedBurstSilenceTicks(jitterMin, true, configured)
    requires Gated(t.stages, k) && t.silence == 0 && t.stages[k].squelch.burstRemain <= 0
    requires Quiet(run) && run != [] && (t.lastTxActive || run[0].eof)
    requires var tail := run[0].chance.tail;
             tail > 0 && NoMarkerFrom(run, HissTicks(s.frame, tail) + s.silenceTicks)
    ensures var h := HissTicks(s.frame, run[0].chance.tail);
            var silent := if configured > 0 then configured else if jitterMin <= 2 then 4 else jitterMin + 2;
            IsTail(Output(s, t, run), h, h + silent)
  {
    TransmissionEndsExactly(s, t, k, run);
  }

  /** From idle, a tick without a speaker sends a frame exactly when it consumes a marker and draws a tail. */
  lemma {:induction false} SecondTailIff(s: Settings, t: Mixer, k: nat, i: Input)
    requires s.frame > 0 && Idle(t, k) && !i.active
    ensures Tick(s, t, i).1 != Nothing <==> i.eof && i.chance.tail > 0
  {
    QuietTick(s, t, k, i);
  }

  /** While silence is due nothing else is sent, even if somebody speaks, and no marker is noticed by the chain. */
  lemma {:induction false} SilenceSwallowsSpeech(s: Settings, t: Mixer, run: seq<Input>)
    requires |run| <= t.silence
    ensures forall i :: 0 <= i < |run| ==> Output(s, t, run)[i] == Silence
    ensures After(s, t, run).stages == t.stages
    decreases run
  {
    if run == [] {
    } else {
      SilenceSwallowsSpeech(s, Tick(s, t, run[0]).0, run[1..]);
    }
  }

  // ---------- A weak line ----------

  lemma {:induction false} SpeechAfterGate(frame: int, stages: seq<Stage>, c: Context, chance: Chance)
    requires c.active && c.emit && !c.drop
    requires forall i :: 0 <= i < |stages| ==> !stages[i].Gate?
    ensures var (stages1, c1) := Chain(frame, stages, c, chance);
            && c1 == c
            && (forall i :: 0 <= i < |stages1| ==>
                  (stages1[i].Gate? <==> stages[i].Gate?) && (stages1[i].Pops? <==> stages[i].Pops?))
    decreases stages
  {
    if stages == [] {
    } else {
      SpeechAfterGate(frame, stages[1..], c, chance);
    }
  }

  /** While somebody speaks, the frame goes out unless the squelch drops it, whatever else is in the chain. */
  lemma {:induction false} SpeechChain(frame: int, stages: seq<Stage>, k: nat, c: Context, chance: Chance)
    requires Gated(stages, k) && c.active && c.emit && !c.drop
    ensures var (stages1, c1) := Chain(frame, stages, c, chance);
            var (q1, g) := Gating(frame, stages[k].squelch, c, chance);
            Gated(stages1, k) && stages1[k] == Gate(q1) && c1 == g
    decreases stages
  {
    var (stage, c1) := Process(frame, stages[0], c, chance);
    if k == 0 {
      if !c1.drop {
        SpeechAfterGate(frame, stages[1..], c1, chance);
      }
    } else {
      SpeechChain(frame, stages[1..], k - 1, c1, chance);
      var rest := Chain(frame, stages[1..], c1, chance).0;
      assert forall i :: 0 < i < |stages| ==> ([stage] + rest)[i] == rest[i - 1];
    }
  }

  lemma SpeechTick(s: Settings, t: Mixer, k: nat, i: Input)
    requires Gated(t.stages, k) && t.silence == 0 && i.active
    ensures var (t1, sent) := Tick(s, t, i);
            var (q1, c1) := Gating(s.frame, t.stages[k].squelch, Begin(t, i), i.chance);
            && Gated(t1.stages, k) && t1.stages[k] == Gate(q1) && t1.silence == 0
            && sent == if c1.drop then Nothing else Mixed
  {
    SpeechChain(s.frame, t.stages, k, Begin(t, i), i.chance);
  }

  predicate Weak(run: seq<Input>)
  {
    forall i :: 0 <= i < |run| ==> run[i].active && run[i].chance.weak
  }

  /** The burst of hiss that a weak line still makes, a fresh draw included; nothing once it is gated. */
  function BurstDue(frame: int, q: Squelch, run: seq<Input>): nat
    requires frame > 0 && run != []
  {
    if q.latched then 0 else HissTicks(frame, if q.burstRemain <= 0 then run[0].chance.burst else q.burstRemain)
  }

  /**
   A line that stays weak is hissed for the drawn burst, in frames rounded up but without the last, which is
   dropped, and is then gated for as long as it stays weak.
   */
  lemma {:induction false} WeakLineIsGated(s: Settings, t: Mixer, k: nat, run: seq<Input>)
    requires s.frame > 0 && Gated(t.stages, k) && t.silence == 0 && Weak(run) && run != []
    ensures forall i :: 0 <= i < |run| ==>
              Output(s, t, run)[i] == if i + 1 < BurstDue(s.frame, t.stages[k].squelch, run) then Mixed else Nothing
    decreases run
  {
    hide Chain;
    SpeechTick(s, t, k, run[0]);
    var t1 := Tick(s, t, run[0]).0;
    if |run| > 1 {
      WeakLineIsGated(s, t1, k, run[1..]);
    }
    var due, sent := BurstDue(s.frame, t.stages[k].squelch, run), Output(s, t, run);
    assert sent[0] == if 1 < due then Mixed else Nothing;
    forall i | 1 <= i < |run|
      ensures sent[i] == if i + 1 < due then Mixed else Nothing
    {
      assert sent[i] == Output(s, t1, run[1..])[i - 1];
    }
  }

  /** A strong line is always let through, and opens the gate. */
  lemma StrongLineOpens(s: Settings, t: Mixer, k: nat, i: Input)
    requires Gated(t.stages, k) && t.silence == 0 && i.active && !i.chance.weak
    ensures var (t1, sent) := Tick(s, t, i);
            sent == Mixed && Gated(t1.stages, k) && !t1.stages[k].squelch.latched
            && t1.stages[k].squelch.burstRemain == 0
  {
    SpeechTick(s, t, k, i);
  }

  // ---------- Every run ----------

  /** A mixer as it starts: nothing is due, and the chain has one squelch. */
  predicate Fresh(t: Mixer, k: nat)
  {
    Gated(t.stages, k) && t.silence == 0 && !t.lastTxActive && t.stages[k].squelch == Squelch(0, false, false)
  }

  /** Hiss and silence never run at the same time, on any run with any speech and markers. */
  lemma {:induction false} RunKeepsOneAtATime(s: Settings, t: Mixer, k: nat, run: seq<Input>)
    requires s.frame > 0 && Gated(t.stages, k) && OneAtATime(t, k)
    ensures var t1 := After(s, t, run); Gated(t1.stages, k) && OneAtATime(t1, k)
    decreases run
  {
    if run == [] {
    } else {
      var i := run[0];
      if t.silence > 0 {
      } else if i.active {
        SpeechTick(s, t, k, i);
      } else {
        QuietTick(s, t, k, i);
      }
      RunKeepsOneAtATime(s, Tick(s, t, i).0, k, run[1..]);
    }
  }

  /** So after any run the frames still due, and they alone, follow once the last speaker has been noticed to stop. */
  lemma {:induction false} EveryRunEndsSo(s: Settings, t: Mixer, k: nat, past: seq<Input>, run: seq<Input>)
    requires s.frame > 0 && Fresh(t, k) && Settled(After(s, t, past), k) && Quiet(run)
    requires NoMarkerFrom(run, TailDue(s, After(s, t, past), k))
    ensures var t1 := After(s, t, past);
            IsTail(Output(s, t1, run), HissDue(s, t1, k), TailDue(s, t1, k))
            && (|run| >= TailDue(s, t1, k) ==> Idle(After(s, t1, run), k))
  {
    RunKeepsOneAtATime(s, t, k, past);
    DueTailFollows(s, After(s, t, past), k, run);
  }

  function Count(sent: seq<Sent>, kind: Sent): nat
    decreases sent
  {
    if sent == [] then 0 else (if sent[0] == kind then 1 else 0) + Count(sent[1..], kind)
  }

  /** Whether a tick hisses for the last time. */
  predicate HissEnds(s: Settings, t: Mixer, k: nat, i: Input)
    requires Gated(t.stages, k)
  {
    t.silence == 0 && !i.active && 0 < Remain(t, k, i) <= s.frame
  }

  function HissEndings(s: Settings, t: Mixer, k: nat, run: seq<Input>): nat
    requires s.frame > 0 && Gated(t.stages, k) && OneAtATime(t, k)
    decreases run
  {
    if run == [] then 0
    else
      RunKeepsOneAtATime(s, t, k, [run[0]]);
      assert After(s, t, [run[0]]) == Tick(s, t, run[0]).0;
      (if HissEnds(s, t, k, run[0]) then 1 else 0) + HissEndings(s, Tick(s, t, run[0]).0, k, run[1..])
  }

  /** On every run each hiss that ends is paid with its silence: sent and still owed make up the due number. */
  lemma {:induction false} SilenceBalances(s: Settings, t: Mixer, k: nat, run: seq<Input>)
    requires s.frame > 0 && Gated(t.stages, k) && OneAtATime(t, k)
    ensures Count(Output(s, t, run), Silence) + After(s, t, run).silence
            == t.silence + s.silenceTicks * HissEndings(s, t, k, run)
    decreases run
  {
    if run == [] {
    } else {
      var i := run[0];
      var t1 := Tick(s, t, i).0;
      RunKeepsOneAtATime(s, t, k, [i]);
      assert After(s, t, [i]) == t1;
      if t.silence == 0 && i.active {
        SpeechTick(s, t, k, i);
      } else if t.silence == 0 {
        QuietTick(s, t, k, i);
      }
      SilenceBalances(s, t1, k, run[1..]);
    }
  }

  // ---------- A chain without a squelch ----------

  predicate Ungated(stages: seq<Stage>)
  {
    forall i :: 0 <= i < |stages| ==> !stages[i].Gate?
  }

  predicate HasPops(stages: seq<Stage>)
  {
    exists i :: 0 <= i < |stages| && stages[i].Pops?
  }

  /** Some pops stage has last seen somebody speak. */
  predicate PopsPending(stages: seq<Stage>)
  {
    exists i :: 0 <= i < |stages| && stages[i].Pops? && stages[i].lastActive
  }

  lemma QuietStage(frame: int, stage: Stage, c: Context, chance: Chance)
    requires !stage.Gate? && !c.active && !c.start
    ensures var (stage1, c1) := Process(frame, stage, c, chance);
            && !stage1.Gate? && (stage1.Pops? <==> stage.Pops?) && (stage1.Pops? ==> !stage1.lastActive)
            && c1 == c.(emit := c.emit || (stage.Pops? && (c.eof || stage.lastActive)))
  {
  }

  lemma {:induction false} QuietUngated(frame: int, stages: seq<Stage>, c: Context, chance: Chance)
    requires Ungated(stages) && !c.active && !c.start && !c.drop
    ensures var (stages1, c1) := Chain(frame, stages, c, chance);
            && Ungated(stages1) && (HasPops(stages1) <==> HasPops(stages)) && !PopsPending(stages1)
            && c1 == c.(emit := c.emit || (HasPops(stages) && c.eof) || PopsPending(stages))
    decreases stages
  {
    hide Process;
    if stages != [] {
      var rest := stages[1..];
      QuietStage(frame, stages[0], c, chance);
      var (stage, c1) := Process(frame, stages[0], c, chance);
      QuietUngated(frame, rest, c1, chance);
      FirstPops(stages[0], rest);
      assert stages == [stages[0]] + rest;
      FirstPops(stage, Chain(frame, rest, c1, chance).0);
    }
  }

  lemma FirstPops(stage: Stage, rest: seq<Stage>)
    ensures var all := [stage] + rest;
            && (HasPops(all) <==> stage.Pops? || HasPops(rest))
            && (PopsPending(all) <==> (stage.Pops? && stage.lastActive) || PopsPending(rest))
            && (Ungated(all) <==> !stage.Gate? && Ungated(rest))
  {
    var all := [stage] + rest;
    assert all[0] == stage;
    assert forall i :: 0 <= i < |rest| ==> all[i + 1] == rest[i];
  }

  lemma UngatedTick(s: Settings, t: Mixer, i: Input)
    requires Ungated(t.stages) && t.silence == 0 && !i.active
    ensures var (t1, sent) := Tick(s, t, i);
            var pops := (HasPops(t.stages) && (i.eof || t.lastTxActive)) || PopsPending(t.stages);
            && Ungated(t1.stages) && (HasPops(t1.stages) <==> HasPops(t.stages)) && !PopsPending(t1.stages)
            && t1.silence == 0 && !t1.lastTxActive && sent == if pops then Mixed else Nothing
  {
    hide Chain;
    QuietUngated(s.frame, t.stages, Begin(t, i), i.chance);
  }

  /**
   Without a squelch no hiss and no silence follow a transmission: only a chain with pops sends anything while nobody
   speaks, one frame when the speaker has just stopped and one for each end marker.
   */
  lemma {:induction false} PopsSoundIff(s: Settings, t: Mixer, run: seq<Input>, i: nat)
    requires Ungated(t.stages) && t.silence == 0 && Quiet(run) && i < |run| == |Output(s, t, run)|
    requires PopsPending(t.stages) ==> t.lastTxActive
    ensures Output(s, t, run)[i]
            == if HasPops(t.stages) && (run[i].eof || (i == 0 && t.lastTxActive)) then Mixed else Nothing
    decreases run
  {
    hide Tick, Ungated, HasPops, PopsPending;
    UngatedTick(s, t, run[0]);
    PendingIsPops(t.stages);
    var t1 := Tick(s, t, run[0]).0;
    if i > 0 {
      UngatedTick(s, t1, run[1]);
      PopsSoundIff(s, t1, run[1..], i - 1);
    }
  }

  lemma PendingIsPops(stages: seq<Stage>)
    ensures PopsPending(stages) ==> HasPops(stages)
  {
  }

  // ---------- What the next tick knows ----------

  /** Whether somebody spoke at the last tick of a run, or before it. */
  function SpokeLast(before: bool, run: seq<Input>): bool
    decreases run
  {
    if run == [] then before else SpokeLast(run[0].active, run[1..])
  }

  /** The same of the last tick that was not spent on silence. */
  function HeardLast(before: bool, run: seq<Input>, sent: seq<Sent>): bool
    requires |run| == |sent|
    decreases run
  {
    if run == [] then before
    else HeardLast(if sent[0] == Silence then before else run[0].active, run[1..], sent[1..])
  }

  lemma TickNotices(s: Settings, t: Mixer, k: nat, i: Input)
    requires s.frame > 0 && Gated(t.stages, k)
    ensures var (t1, sent) := Tick(s, t, i);
            && Gated(t1.stages, k) && t1.lastTxActive == i.active
            && t1.stages[k].squelch.lastActive
               == if sent == Silence then t.stages[k].squelch.lastActive else i.active
  {
    hide Chain;
    if t.silence == 0 && i.active {
      SpeechTick(s, t, k, i);
    } else if t.silence == 0 {
      QuietTick(s, t, k, i);
    }
  }

  /**
   On every run the mixer knows who spoke at the last tick, silence or not, while the squelch knows it of the last tick
   that was not spent on silence.
   */
  lemma {:induction false} SpeechIsNoticed(s: Settings, t: Mixer, k: nat, run: seq<Input>)
    requires s.frame > 0 && Gated(t.stages, k)
    ensures var t1 := After(s, t, run);
            && Gated(t1.stages, k) && t1.lastTxActive == SpokeLast(t.lastTxActive, run)
            && t1.stages[k].squelch.lastActive == HeardLast(t.stages[k].squelch.lastActive, run, Output(s, t, run))
    decreases run
  {
    hide Tick;
    if run != [] {
      TickNotices(s, t, k, run[0]);
      SpeechIsNoticed(s, Tick(s, t, run[0]).0, k, run[1..]);
    }
  }

  lemma LatchTick(s: Settings, t: Mixer, k: nat, i: Input)
    requires s.frame > 0 && Gated(t.stages, k) && !i.active
    ensures var (t1, sent) := Tick(s, t, i);
            Gated(t1.stages, k)
            && (t1.stages[k].squelch.latched <==> t.stages[k].squelch.latched && sent != Nothing)
  {
    if t.silence == 0 {
      QuietTick(s, t, k, i);
      QuietChain(s.frame, t.stages, k, Begin(t, i), i.chance);
    }
  }

  /** A gate that a weak line has closed stays closed through hiss and silence, and opens with the first idle tick. */
  lemma {:induction false} GateOutlivesTail(s: Settings, t: Mixer, k: nat, run: seq<Input>)
    requires s.frame > 0 && Gated(t.stages, k) && Quiet(run)
    ensures var t1 := After(s, t, run);
            Gated(t1.stages, k)
            && (t1.stages[k].squelch.latched <==> t.stages[k].squelch.latched && Nothing !in Output(s, t, run))
    decreases run
  {
    hide Tick;
    if run != [] {
      LatchTick(s, t, k, run[0]);
      GateOutlivesTail(s, Tick(s, t, run[0]).0, k, run[1..]);
    }
  }
}
