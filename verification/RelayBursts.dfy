/**
 When a channel's receive session and its lock begin and end, on every run of the relay: from the frames that the
 ticks send and the time that passes.
 */
module RelayBursts {
  import opened Packets
  import B = BusyArbiter
  import G = TxGate
  import opened RelayModel
  import opened RelaySafety
  import opened RelayRuns
  import opened RelayAudience

  // ---------- Time ----------

  lemma {:induction false} TimelyPrefix(es: seq<Event>, e: Event, now: int)
    requires TimelyRun(es + [e], now)
    ensures TimelyRun(es, now) && Until(es, now) <= At(e, Until(es, now))
    ensures Until(es + [e], now) == At(e, Until(es, now))
    decreases es
  {
    if es == [] {
      assert es + [e] == [e] && [e][1..] == [];
    } else {
      assert (es + [e])[1..] == es[1..] + [e];
      TimelyPrefix(es[1..], e, At(es[0], now));
    }
  }

  lemma TimelyLast(es: seq<Event>, now: int)
    requires es != [] && TimelyRun(es, now)
    ensures TimelyRun(Before(es), now) && Until(Before(es), now) <= At(Last(es), Until(Before(es), now))
    ensures Until(es, now) == At(Last(es), Until(Before(es), now))
  {
    assert es == Before(es) + [Last(es)];
    TimelyPrefix(Before(es), Last(es), now);
  }

  /** No tick lies outside the time of the run. */
  lemma {:induction false} TickInTime(es: seq<Event>, now: int, i: nat)
    requires TimelyRun(es, now) && i < |es| && es[i].Tick?
    ensures now <= es[i].at <= Until(es, now)
    decreases es
  {
    TimelyLast(es, now);
    if i < |es| - 1 {
      TickInTime(Before(es), now, i);
    } else {
      UntilGrows(Before(es), now);
    }
  }

  lemma {:induction false} UntilGrows(es: seq<Event>, now: int)
    requires TimelyRun(es, now)
    ensures now <= Until(es, now)
    decreases es
  {
    if es != [] {
      UntilGrows(es[1..], At(es[0], now));
    }
  }

  /** The time of the last tick of a channel. */
  function LastTick(es: seq<Event>, name: string): Option<int>
    decreases es
  {
    if es == [] then None else if IsTick(Last(es), name) then Some(Last(es).at) else LastTick(Before(es), name)
  }

  lemma {:induction false} LastTickInTime(es: seq<Event>, name: string, now: int)
    requires TimelyRun(es, now) && LastTick(es, name).Some?
    ensures LastTick(es, name).value <= Until(es, now)
    decreases es
  {
    TimelyLast(es, now);
    if !IsTick(Last(es), name) {
      LastTickInTime(Before(es), name, now);
    }
  }

  // ---------- The receive session ----------

  /** The receive session, as the last frame and the last tick of the channel tell. */
  predicate SessionIs(s: Settings, es: seq<Event>, name: string, m: Mixer)
  {
    var k, t := LastAired(es, name), LastTick(es, name);
    && (k.Some? ==> t.Some?)
    && (m.rxActive <==> k.Some? && t.value - es[k.value].at < s.eofTimeout)
    && (m.rxActive ==> m.rxLastAt == es[k.value].at)
  }

  lemma TickSession(
    s: Settings, m: Mixer, clients: map<uint32, Client>, name: string, now: int, f: Frame, emits: bool,
    dropped: set<uint32>)
    ensures var m1 := MixTick(s, m, clients, name, now, f, emits, dropped).0;
            var last := if emits then now else m.rxLastAt;
            && (m1.rxActive <==> (m.rxActive || emits) && (last == 0 || now - last < s.eofTimeout))
            && (m1.rxActive ==> m1.rxLastAt == last)
  {
    hide Tell, Broadcast, Bound, Excluded;
  }

  lemma OtherSession(s: Settings, r: Relay, e: Event, name: string)
    requires Possible(r, e) && !IsTick(e, name)
    ensures var m, m1 := MixerAt(r, name), MixerAt(Step(s, r, e), name);
            m1.rxActive == m.rxActive && m1.rxLastAt == m.rxLastAt
  {
    hide Step;
    OtherRemembers(s, r, e, name);
  }

  lemma {:induction false} SessionOnRun(s: Settings, es: seq<Event>, name: string)
    requires PossibleRun(s, EMPTY, es) && TimelyRun(es, 1)
    ensures SessionIs(s, es, name, MixerAt(Run(s, EMPTY, es), name))
    decreases es
  {
    hide Step, Possible;
    if es != [] {
      RunLast(s, es);
      TimelyLast(es, 1);
      var before, e := Before(es), Last(es);
      var r, k := Run(s, EMPTY, before), LastAired(before, name);
      SessionOnRun(s, before, name);
      SamePlace(es, name);
      if k.Some? {
        TickInTime(before, 1, k.value);
        LastTickInTime(before, name, 1);
      }
      if IsTick(e, name) {
        UntilGrows(before, 1);
        TickIsStep(s, r, e);
        TickSession(s, r.channels[name], r.clients, name, e.at, e.frame, e.emits, e.dropped);
      } else {
        OtherSession(s, r, e, name);
      }
    }
  }

  /** Some frame went out in the channel less than the timeout before now. */
  predicate RecentlyAired(s: Settings, es: seq<Event>, name: string, now: int)
  {
    exists i :: 0 <= i < |es| && IsTick(es[i], name) && es[i].emits && now - es[i].at < s.eofTimeout
  }

  lemma {:induction false} LastAiredIsLatest(es: seq<Event>, name: string, i: nat)
    requires TimelyRun(es, 1) && i < |es| && IsTick(es[i], name) && es[i].emits
    ensures var k := LastAired(es, name); k.Some? && i <= k.value && es[i].at <= es[k.value].at
    decreases es
  {
    TimelyLast(es, 1);
    SamePlace(es, name);
    if i < |es| - 1 {
      LastAiredIsLatest(Before(es), name, i);
      TickInTime(Before(es), 1, i);
    }
  }

  lemma {:induction false} LastAiredIsAired(es: seq<Event>, name: string)
    requires LastAired(es, name).Some?
    ensures var k := LastAired(es, name).value; IsTick(es[k], name) && es[k].emits
    decreases es
  {
    SamePlace(es, name);
    if !(IsTick(Last(es), name) && Last(es).emits) {
      LastAiredIsAired(Before(es), name);
    }
  }

  /**
   On every run, after a tick of a channel its receive session is open exactly if a frame has gone out there less than
   the timeout ago.
   */
  lemma {:induction false} SessionOpenIff(s: Settings, es: seq<Event>, name: string)
    requires PossibleRun(s, EMPTY, es) && TimelyRun(es, 1) && es != [] && IsTick(Last(es), name)
    ensures MixerAt(Run(s, EMPTY, es), name).rxActive <==> RecentlyAired(s, es, name, Last(es).at)
  {
    hide Run, PossibleRun;
    SessionOnRun(s, es, name);
    var k, now := LastAired(es, name), Last(es).at;
    if k.Some? {
      LastAiredIsAired(es, name);
    }
    if RecentlyAired(s, es, name, now) {
      var i :| 0 <= i < |es| && IsTick(es[i], name) && es[i].emits && now - es[i].at < s.eofTimeout;
      LastAiredIsLatest(es, name, i);
    }
  }

  /**
   So after any tick at least the timeout past the last frame, session and lock are over, and every client bound to
   the channel believes so, whoever was left out.
   */
  lemma {:induction false} SilenceEndsBurst(s: Settings, es: seq<Event>, name: string)
    requires PossibleRun(s, EMPTY, es) && TimelyRun(es, 1) && es != [] && IsTick(Last(es), name)
    requires !RecentlyAired(s, es, name, Last(es).at)
    ensures var r := Run(s, EMPTY, es);
            && !MixerAt(r, name).rxActive && !MixerAt(r, name).locked
            && (forall x :: x in r.clients && r.clients[x].channel == name ==> Fold(r.clients[x].inbox) == UNAWARE)
  {
    SessionOpenIff(s, es, name);
    EveryRunIsSafe(s, es);
    RunLast(s, es);
    TickIsStep(s, Run(s, EMPTY, Before(es)), Last(es));
    ClosedIsUnaware(s, Run(s, EMPTY, es), name);
  }

  lemma ClosedIsUnaware(s: Settings, r: Relay, name: string)
    requires Safe(s, r) && !MixerAt(r, name).rxActive
    ensures !MixerAt(r, name).locked
    ensures forall x :: x in r.clients && r.clients[x].channel == name ==> Fold(r.clients[x].inbox) == UNAWARE
  {
    if name in r.channels {
      assert ChannelOk(s, r, name);
    }
    forall x | x in r.clients && r.clients[x].channel == name ensures Fold(r.clients[x].inbox) == UNAWARE {
      assert ClientOk(r, x);
    }
  }

  /** And while frames go out, everybody bound to the channel but the one left out knows that it receives. */
  lemma {:induction false} AiringIsKnown(s: Settings, es: seq<Event>, name: string, x: uint32)
    requires PossibleRun(s, EMPTY, es) && TimelyRun(es, 1) && es != [] && IsTick(Last(es), name)
    requires RecentlyAired(s, es, name, Last(es).at) && name != ""
    requires var r := Run(s, EMPTY, es);
             x in r.clients && r.clients[x].channel == name && x != MixerAt(r, name).leftOut
    ensures Fold(Run(s, EMPTY, es).clients[x].inbox).receiving
  {
    SessionOpenIff(s, es, name);
    EveryRunIsSafe(s, es);
    assert ClientOk(Run(s, EMPTY, es), x);
  }

  // ---------- The lock ----------

  /** Parallel talk has just become allowed. */
  predicate TurnsParallel(m: Mixer, m1: Mixer)
  {
    !m.hold.parallel && m1.hold.parallel
  }

  predicate LockMoves(s: Settings, m: Mixer, m1: Mixer)
  {
    && (!m.locked && m1.locked <==> s.rules.busyMode && !m.rxActive && m1.rxActive)
    && (m.locked ==> (!m1.locked <==> !m1.rxActive || TurnsParallel(m, m1)))
  }

  lemma TickLock(
    s: Settings, m: Mixer, clients: map<uint32, Client>, name: string, now: int, f: Frame, emits: bool,
    dropped: set<uint32>)
    requires LockSound(s, m)
    ensures LockMoves(s, m, MixTick(s, m, clients, name, now, f, emits, dropped).0)
  {
    hide Tell, Broadcast, Bound, Excluded;
  }

  lemma ParallelIsElapsed(c: B.Rules, h: B.Hold, participants: set<uint32>, session: uint32, now: int)
    ensures var (h1, verdict, elapsed) := B.TryAccept(c, h, participants, session, now);
            (elapsed <==> !h.parallel && h1.parallel) && (elapsed ==> c.busyTimeout > 0)
  {
  }

  lemma AdmitLock(s: Settings, m: Mixer, clients: map<uint32, Client>, session: uint32, now: int)
    requires LockSound(s, m)
    ensures LockMoves(s, m, Admit(s, m, clients, session, now).0)
  {
    hide G.Rule, B.TryAccept, NoticeMessages, Tell;
    ParallelIsElapsed(s.rules, m.hold, m.participants, session, now);
  }

  lemma OtherLock(s: Settings, r: Relay, e: Event, name: string)
    requires Safe(s, r) && Possible(r, e) && !e.Tick? && !e.Voice?
    ensures LockMoves(s, MixerAt(r, name), MixerAt(Step(s, r, e), name))
  {
    hide CatchUp, SyncMessages, Tell, Safe;
    SoundAt(s, r, name);
  }

  lemma SoundAt(s: Settings, r: Relay, name: string)
    requires Safe(s, r)
    ensures LockSound(s, MixerAt(r, name))
  {
    if name in r.channels {
      assert ChannelOk(s, r, name);
    }
  }

  lemma StillLock(s: Settings, m: Mixer)
    requires LockSound(s, m)
    ensures LockMoves(s, m, m)
  {
  }

  /**
   Every step of every run: a channel is locked exactly when in busy mode its receive session opens, and unlocked
   exactly when the session ends or parallel talk has just become allowed.
   */
  lemma {:induction false} LockMovesIff(s: Settings, r: Relay, e: Event, name: string)
    requires Safe(s, r) && Possible(r, e)
    ensures LockMoves(s, MixerAt(r, name), MixerAt(Step(s, r, e), name))
  {
    hide LockMoves, Safe, MixTick, Admit, Step;
    SoundAt(s, r, name);
    StillLock(s, MixerAt(r, name));
    if e.Tick? {
      TickIsStep(s, r, e);
      TickElsewhere(s, r, e, name);
      TickLock(s, MixerAt(r, name), r.clients, e.name, e.at, e.frame, e.emits, e.dropped);
    } else if e.Voice? {
      VoiceElsewhere(s, r, e, name);
      if Concerns(r, e.session, name) && name != "" {
        AdmitLock(s, MixerAt(r, name), Punched(r, e.session).clients, e.session, e.at);
      }
    } else {
      OtherLock(s, r, e, name);
    }
  }

  lemma VoiceElsewhere(s: Settings, r: Relay, e: Event, name: string)
    requires e.Voice?
    ensures MixerAt(Step(s, r, e), name)
            == if Concerns(r, e.session, name) && name != ""
               then Admit(s, MixerAt(r, name), Punched(r, e.session).clients, e.session, e.at).0
               else MixerAt(r, name)
  {
    hide Admit;
  }

  /** So from the step on that allows parallel talk nobody bound to the channel believes it locked. */
  lemma {:induction false} ParallelTalkUnlocks(s: Settings, es: seq<Event>, e: Event, name: string, x: uint32)
    requires PossibleRun(s, EMPTY, es) && Possible(Run(s, EMPTY, es), e) && name != ""
    requires TurnsParallel(MixerAt(Run(s, EMPTY, es), name), MixerAt(Step(s, Run(s, EMPTY, es), e), name))
    requires var r1 := Step(s, Run(s, EMPTY, es), e); x in r1.clients && r1.clients[x].channel == name
    ensures var r1 := Step(s, Run(s, EMPTY, es), e);
            !MixerAt(r1, name).locked && !Fold(r1.clients[x].inbox).locked
  {
    hide Step;
    var r := Run(s, EMPTY, es);
    EveryRunIsSafe(s, es);
    LockMovesIff(s, r, e, name);
    StepIsSafe(s, r, e);
    ParallelOpens(s, r, e, name);
    assert ClientOk(Step(s, r, e), x);
  }

  lemma ParallelOpens(s: Settings, r: Relay, e: Event, name: string)
    requires Possible(r, e) && TurnsParallel(MixerAt(r, name), MixerAt(Step(s, r, e), name))
    ensures MixerAt(Step(s, r, e), name).rxActive == MixerAt(r, name).rxActive
  {
    hide MixTick;
    if e.Tick? {
      TickArbitration(s, r.channels[e.name], r.clients, e.name, e.at, e.frame, e.emits, e.dropped);
    }
    OtherSession(s, r, e, name);
  }
}
