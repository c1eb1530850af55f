/**
 The transmit-timeout gate: it times each session's transmission, warns it once, stops it for good and
 tells it so at most once a second.
 */
module TxGate {
  import opened Packets

  const SECOND: int := 1_000_000_000

  datatype Gate = Gate(
    startedAt: map<uint32, int>,
    stopped: map<uint32, bool>,
    lastNotice: map<uint32, int>,
    counted: map<uint32, bool>)

  const IDLE: Gate := Gate(map[], map[], map[], map[])

  /** Whether the packet passes, and which notices go to its sender. */
  datatype Ruling = Ruling(pass: bool, stopNotice: bool, countdown: bool)

  predicate Flag(m: map<uint32, bool>, session: uint32)
  {
    session in m && m[session]
  }

  function CountdownLead(timeout: int): int
  {
    if timeout - 5 * SECOND < 0 then 0 else timeout - 5 * SECOND
  }

  /** A stop notice is due unless one went out within the last second. */
  predicate NoticeDue(g: Gate, session: uint32, now: int)
  {
    !(session in g.lastNotice && g.lastNotice[session] != 0 && now - g.lastNotice[session] < SECOND)
  }

  function Stopped(g: Gate, session: uint32, now: int): (Gate, Ruling)
  {
    if NoticeDue(g, session, now) then
      (g.(lastNotice := g.lastNotice[session := now]), Ruling(false, true, false))
    else (g, Ruling(false, false, false))
  }

  function Rule(timeout: int, g: Gate, session: uint32, now: int): (Gate, Ruling)
  {
    if timeout <= 0 then (g, Ruling(true, false, false))
    else if session !in g.startedAt then
      (g.(startedAt := g.startedAt[session := now], counted := g.counted[session := false]), Ruling(true, false, false))
    else if Flag(g.stopped, session) then Stopped(g, session, now)
    else if now - g.startedAt[session] >= timeout then
      Stopped(g.(stopped := g.stopped[session := true]), session, now)
    else if !Flag(g.counted, session) && now - g.startedAt[session] >= CountdownLead(timeout) then
      (g.(counted := g.counted[session := true]), Ruling(true, false, true))
    else (g, Ruling(true, false, false))
  }

  /** An end marker or a departure forgets the session. */
  function Forget(g: Gate, session: uint32): Gate
  {
    Gate(g.startedAt - {session}, g.stopped - {session}, g.lastNotice - {session}, g.counted - {session})
  }

  /** The clean-up of silent streams forgets sessions too, but for the countdown marks. */
  function Sweep(g: Gate, sessions: set<uint32>): Gate
  {
    Gate(g.startedAt - sessions, g.stopped - sessions, g.lastNotice - sessions, g.counted)
  }

  // ---------- Runs ----------

  datatype Event =
    | Packet(session: uint32, at: int)
    | Ended(session: uint32)
    | Swept(sessions: set<uint32>)

  function Next(timeout: int, g: Gate, e: Event): (Gate, Ruling)
  {
    match e
    case Packet(session, at) => Rule(timeout, g, session, at)
    case Ended(session) => (Forget(g, session), Ruling(false, false, false))
    case Swept(sessions) => (Sweep(g, sessions), Ruling(false, false, false))
  }

  function After(timeout: int, g: Gate, es: seq<Event>): Gate
    decreases es
  {
    if es == [] then g else After(timeout, Next(timeout, g, es[0]).0, es[1..])
  }

  function Clock(e: Event, now: int): int
  {
    if e.Packet? then e.at else now
  }

  predicate Timely(es: seq<Event>, now: int)
    decreases es
  {
    es != [] ==> now <= Clock(es[0], now) && Timely(es[1..], Clock(es[0], now))
  }

  /** The times of the packets of a session with a given kind of ruling. */
  function PassTimes(timeout: int, g: Gate, es: seq<Event>, session: uint32): seq<int>
    decreases es
  {
    if es == [] then []
    else
      var (g1, r) := Next(timeout, g, es[0]);
      if es[0].Packet? && es[0].session == session && r.pass then
        [es[0].at] + PassTimes(timeout, g1, es[1..], session)
      else PassTimes(timeout, g1, es[1..], session)
  }

  function StopTimes(timeout: int, g: Gate, es: seq<Event>, session: uint32): seq<int>
    decreases es
  {
    if es == [] then []
    else
      var (g1, r) := Next(timeout, g, es[0]);
      if es[0].Packet? && es[0].session == session && r.stopNotice then
        [es[0].at] + StopTimes(timeout, g1, es[1..], session)
      else StopTimes(timeout, g1, es[1..], session)
  }

  function CountdownTimes(timeout: int, g: Gate, es: seq<Event>, session: uint32): seq<int>
    decreases es
  {
    if es == [] then []
    else
      var (g1, r) := Next(timeout, g, es[0]);
      if es[0].Packet? && es[0].session == session && r.countdown then
        [es[0].at] + CountdownTimes(timeout, g1, es[1..], session)
      else CountdownTimes(timeout, g1, es[1..], session)
  }

  /** Nothing makes the gate forget the session. */
  predicate Unforgotten(es: seq<Event>, session: uint32)
  {
    Ended(session) !in es && forall e :: e in es && e.Swept? ==> session !in e.sessions
  }

  // ---------- Invariants over any run ----------

  /** Whoever is stopped has a start time, and so has whoever was told so or warned of it. */
  predicate StoppedIsStarted(g: Gate)
  {
    forall session :: Flag(g.stopped, session) || session in g.lastNotice ==> session in g.startedAt
  }

  lemma {:induction false} StoppedAlwaysStarted(timeout: int, g: Gate, es: seq<Event>)
    requires StoppedIsStarted(g)
    ensures StoppedIsStarted(After(timeout, g, es))
    decreases es
  {
    if es != [] {
      StoppedAlwaysStarted(timeout, Next(timeout, g, es[0]).0, es[1..]);
    }
  }

  /** The last notice at time last is remembered, or forgotten together with the start that led to it. */
  predicate Remembers(g: Gate, session: uint32, last: int)
  {
    if session in g.lastNotice then g.lastNotice[session] == last
    else !Flag(g.stopped, session) && (session in g.startedAt ==> last <= g.startedAt[session])
  }

  predicate Spaced(times: seq<int>, gap: int)
  {
    forall i :: 0 <= i < |times| - 1 ==> times[i] + gap <= times[i + 1]
  }

  lemma PrependSpaced(t: int, times: seq<int>, gap: int)
    requires Spaced(times, gap) && (times != [] ==> t + gap <= times[0])
    ensures Spaced([t] + times, gap)
  {
    var all := [t] + times;
    forall i | 0 <= i < |all| - 1
      ensures all[i] + gap <= all[i + 1]
    {
      if i > 0 {
        assert all[i] == times[i - 1] && all[i + 1] == times[i];
      }
    }
  }

  lemma {:induction false} StopsFollow(timeout: int, g: Gate, es: seq<Event>, session: uint32, last: int, now: int)
    requires SECOND <= timeout && 0 < last <= now && Timely(es, now) && Remembers(g, session, last)
    ensures var times := StopTimes(timeout, g, es, session);
            Spaced(times, SECOND) && (times != [] ==> last + SECOND <= times[0])
    decreases es
  {
    hide Next, Remembers, Spaced;
    NoTimesSpaced(SECOND);
    if es != [] {
      var (g1, r) := Next(timeout, g, es[0]);
      var at := Clock(es[0], now);
      NoticeFollows(timeout, g, es[0], session, last, now);
      if es[0].Packet? && es[0].session == session && r.stopNotice {
        StopsFollow(timeout, g1, es[1..], session, at, at);
        PrependSpaced(at, StopTimes(timeout, g1, es[1..], session), SECOND);
      } else {
        StopsFollow(timeout, g1, es[1..], session, last, at);
      }
    }
  }

  lemma NoTimesSpaced(gap: int)
    ensures Spaced([], gap)
  {
  }

  /** One event remembers the last notice, or gives one that is late enough and remembers that. */
  lemma NoticeFollows(timeout: int, g: Gate, e: Event, session: uint32, last: int, now: int)
    requires SECOND <= timeout && 0 < last <= now <= Clock(e, now) && Remembers(g, session, last)
    ensures var (g1, r) := Next(timeout, g, e);
            if e.Packet? && e.session == session && r.stopNotice
            then last + SECOND <= e.at && Remembers(g1, session, e.at)
            else Remembers(g1, session, last)
  {
  }

  /**
   Stop notices to one session are at least a second apart on every run, across end markers, departures
   and clean-ups, since the timeout is a whole number of seconds.
   */
  lemma {:induction false} StopNoticesAreSpaced(timeout: int, g: Gate, es: seq<Event>, session: uint32, now: int)
    requires (timeout <= 0 || SECOND <= timeout) && 0 < now && Timely(es, now)
    requires session !in g.lastNotice
    ensures Spaced(StopTimes(timeout, g, es, session), SECOND)
    decreases es
  {
    if es != [] {
      var (g1, r) := Next(timeout, g, es[0]);
      var at := Clock(es[0], now);
      if es[0].Packet? && es[0].session == session && r.stopNotice {
        StopsFollow(timeout, g1, es[1..], session, at, at);
        PrependSpaced(at, StopTimes(timeout, g1, es[1..], session), SECOND);
      } else {
        StopNoticesAreSpaced(timeout, g1, es[1..], session, at);
      }
    }
  }

  // ---------- One transmission ----------

  lemma {:induction false} StoppedForGood(timeout: int, g: Gate, es: seq<Event>, session: uint32)
    requires 0 < timeout && Unforgotten(es, session) && session in g.startedAt && Flag(g.stopped, session)
    ensures PassTimes(timeout, g, es, session) == [] && CountdownTimes(timeout, g, es, session) == []
    decreases es
  {
    if es != [] {
      assert es[0] in es && Unforgotten(es[1..], session);
      StoppedForGood(timeout, Next(timeout, g, es[0]).0, es[1..], session);
    }
  }

  predicate Within(times: seq<int>, low: int, high: int)
  {
    forall t :: t in times ==> low <= t < high
  }

  lemma {:induction false} RunningTransmission(timeout: int, g: Gate, es: seq<Event>, session: uint32, now: int)
    requires 0 < timeout && Unforgotten(es, session) && Timely(es, now)
    requires session in g.startedAt && g.startedAt[session] <= now && !Flag(g.stopped, session)
    ensures var from := g.startedAt[session];
            && Within(PassTimes(timeout, g, es, session), now, from + timeout)
            && |CountdownTimes(timeout, g, es, session)| <= (if Flag(g.counted, session) then 0 else 1)
            && Within(CountdownTimes(timeout, g, es, session), from + CountdownLead(timeout), from + timeout)
    decreases es
  {
    hide Next, Within, CountdownLead;
    NoTimesWithin(now, g.startedAt[session] + timeout);
    NoTimesWithin(g.startedAt[session] + CountdownLead(timeout), g.startedAt[session] + timeout);
    if es != [] {
      assert es[0] in es && Unforgotten(es[1..], session);
      var (g1, r) := Next(timeout, g, es[0]);
      var at, from := Clock(es[0], now), g.startedAt[session];
      RunningStep(timeout, g, es[0], session, now);
      if Flag(g1.stopped, session) {
        StoppedForGood(timeout, g1, es[1..], session);
      } else {
        RunningTransmission(timeout, g1, es[1..], session, at);
        WithinWider(PassTimes(timeout, g1, es[1..], session), at, from + timeout, now);
        if es[0].Packet? && es[0].session == session && r.pass {
          PrependWithin(at, PassTimes(timeout, g1, es[1..], session), now, from + timeout);
        }
        if es[0].Packet? && es[0].session == session && r.countdown {
          PrependWithin(at, CountdownTimes(timeout, g1, es[1..], session),
                        from + CountdownLead(timeout), from + timeout);
        }
      }
    }
  }

  /** One event of a running transmission that the gate does not forget. */
  lemma RunningStep(timeout: int, g: Gate, e: Event, session: uint32, now: int)
    requires 0 < timeout && e != Ended(session) && (e.Swept? ==> session !in e.sessions)
    requires session in g.startedAt && g.startedAt[session] <= now <= Clock(e, now) && !Flag(g.stopped, session)
    ensures var (g1, r) := Next(timeout, g, e);
            var from := g.startedAt[session];
            && session in g1.startedAt && g1.startedAt[session] == from
            && (if e.Packet? && e.session == session
                then && (r.pass <==> e.at < from + timeout) && (Flag(g1.stopped, session) <==> !r.pass)
                     && (r.countdown ==> r.pass && !Flag(g.counted, session) && from + CountdownLead(timeout) <= e.at)
                     && (Flag(g1.counted, session) <==> Flag(g.counted, session) || r.countdown)
                else !Flag(g1.stopped, session) && (Flag(g1.counted, session) <==> Flag(g.counted, session)))
  {
  }

  lemma NoTimesWithin(low: int, high: int)
    ensures Within([], low, high)
  {
  }

  lemma WithinWider(times: seq<int>, low: int, high: int, lower: int)
    requires Within(times, low, high) && lower <= low
    ensures Within(times, lower, high)
  {
  }

  lemma PrependWithin(t: int, times: seq<int>, low: int, high: int)
    requires Within(times, low, high) && low <= t < high
    ensures Within([t] + times, low, high)
  {
  }

  /**
   One transmission, from its first packet until something makes the gate forget the session: everything
   that passes is younger than the timeout, at most one countdown notice goes out, and none of them
   earlier than five seconds before the end.
   */
  lemma TransmissionIsBounded(timeout: int, g: Gate, session: uint32, from: int, es: seq<Event>)
    requires 0 < timeout && session !in g.startedAt && !Flag(g.stopped, session)
    requires Unforgotten(es, session) && Timely(es, from)
    ensures var (g1, r) := Next(timeout, g, Packet(session, from));
            && r == Ruling(true, false, false)
            && Within(PassTimes(timeout, g1, es, session), from, from + timeout)
            && |CountdownTimes(timeout, g1, es, session)| <= 1
            && Within(CountdownTimes(timeout, g1, es, session), from + CountdownLead(timeout), from + timeout)
  {
    RunningTransmission(timeout, Next(timeout, g, Packet(session, from)).0, es, session, from);
  }

  /** The first refusal latches: after it nothing passes until something makes the gate forget the session. */
  lemma RefusalLatches(timeout: int, g: Gate, session: uint32, at: int, es: seq<Event>)
    requires 0 < timeout && Unforgotten(es, session)
    requires !Next(timeout, g, Packet(session, at)).1.pass
    ensures PassTimes(timeout, Next(timeout, g, Packet(session, at)).0, es, session) == []
  {
    StoppedForGood(timeout, Next(timeout, g, Packet(session, at)).0, es, session);
  }

  // ---------- What re-arms the gate ----------

  predicate Latched(g: Gate, session: uint32)
  {
    session in g.startedAt && Flag(g.stopped, session)
  }

  lemma {:induction false} LatchStays(timeout: int, g: Gate, es: seq<Event>, session: uint32)
    requires 0 < timeout && Latched(g, session) && Unforgotten(es, session)
    ensures Latched(After(timeout, g, es), session)
    decreases es
  {
    if es == [] {
    } else {
      assert es[0] in es && Unforgotten(es[1..], session);
      LatchStays(timeout, Next(timeout, g, es[0]).0, es[1..], session);
    }
  }

  lemma {:induction false} ForgottenStays(timeout: int, g: Gate, es: seq<Event>, session: uint32)
    requires 0 < timeout && session !in g.startedAt && PassTimes(timeout, g, es, session) == []
    ensures session !in After(timeout, g, es).startedAt
    decreases es
  {
    if es == [] {
    } else {
      ForgottenStays(timeout, Next(timeout, g, es[0]).0, es[1..], session);
    }
  }

  lemma {:induction false} ForgettingReleases(timeout: int, g: Gate, es: seq<Event>, session: uint32)
    requires 0 < timeout && Latched(g, session) && !Unforgotten(es, session)
    requires PassTimes(timeout, g, es, session) == []
    ensures session !in After(timeout, g, es).startedAt
    decreases es
  {
    var g1 := Next(timeout, g, es[0]).0;
    if session !in g1.startedAt {
      ForgottenStays(timeout, g1, es[1..], session);
    } else {
      ForgettingReleases(timeout, g1, es[1..], session);
    }
  }

  /**
   What re-arms the gate: after a refusal, and a stretch in which none of the session's packets passes, its next
   packet passes exactly if something in between made the gate forget the session.
   */
  lemma {:induction false} RearmedIff(timeout: int, g: Gate, session: uint32, at: int, es: seq<Event>, next: int)
    requires 0 < timeout && !Next(timeout, g, Packet(session, at)).1.pass
    requires PassTimes(timeout, Next(timeout, g, Packet(session, at)).0, es, session) == []
    ensures var g1 := Next(timeout, g, Packet(session, at)).0;
            Next(timeout, After(timeout, g1, es), Packet(session, next)).1.pass <==> !Unforgotten(es, session)
  {
    var g1 := Next(timeout, g, Packet(session, at)).0;
    if Unforgotten(es, session) {
      LatchStays(timeout, g1, es, session);
    } else {
      ForgettingReleases(timeout, g1, es, session);
    }
  }

  /** So the clean-up re-arms the timeout: a stopped talker who was swept passes again without any end marker. */
  lemma {:induction false} SweepRearms(
    timeout: int, g: Gate, session: uint32, at: int, sessions: set<uint32>, next: int)
    requires 0 < timeout && !Next(timeout, g, Packet(session, at)).1.pass && session in sessions
    ensures var g1 := Next(timeout, g, Packet(session, at)).0;
            Next(timeout, After(timeout, g1, [Swept(sessions)]), Packet(session, next)).1.pass
  {
    var es := [Swept(sessions)];
    assert es[0] in es && es[1..] == [];
    RearmedIff(timeout, g, session, at, es, next);
  }
}
