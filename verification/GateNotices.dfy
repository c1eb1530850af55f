/** Which packets of a transmission pass the timeout gate, and exactly which of them bring a notice. */
module GateNotices {
  import opened Packets
  import opened TxGate

  /** The times of a session's packets, whether they pass or not. */
  function PacketTimes(es: seq<Event>, session: uint32): seq<int>
    decreases es
  {
    if es == [] then []
    else if es[0].Packet? && es[0].session == session then [es[0].at] + PacketTimes(es[1..], session)
    else PacketTimes(es[1..], session)
  }

  /** The times before the limit, and those from it on. */
  function Until(times: seq<int>, limit: int): seq<int>
    decreases times
  {
    if times == [] then [] else if times[0] < limit then [times[0]] + Until(times[1..], limit) else Until(times[1..], limit)
  }

  function From(times: seq<int>, limit: int): seq<int>
    decreases times
  {
    if times == [] then [] else if times[0] >= limit then [times[0]] + From(times[1..], limit) else From(times[1..], limit)
  }

  function FirstOf(times: seq<int>): seq<int>
  {
    if times == [] then [] else [times[0]]
  }

  /** Every time that is a second or more after the last one taken. */
  function Thinned(last: Option<int>, times: seq<int>): seq<int>
    decreases times
  {
    if times == [] then []
    else if last.None? || times[0] - last.value >= SECOND then [times[0]] + Thinned(Some(times[0]), times[1..])
    else Thinned(last, times[1..])
  }

  function LastNotice(g: Gate, session: uint32): Option<int>
  {
    if session in g.lastNotice then Some(g.lastNotice[session]) else None
  }

  // ---------- After the first refusal ----------

  lemma StoppedStep(timeout: int, g: Gate, e: Event, session: uint32)
    requires 0 < timeout && e != Ended(session) && (e.Swept? ==> session !in e.sessions)
    requires Latched(g, session) && LastNotice(g, session) != Some(0)
    ensures var (g1, r) := Next(timeout, g, e);
            && Latched(g1, session)
            && (if e.Packet? && e.session == session
                then && !r.pass && !r.countdown
                     && (r.stopNotice <==> LastNotice(g, session).None?
                                           || e.at - LastNotice(g, session).value >= SECOND)
                     && LastNotice(g1, session) == if r.stopNotice then Some(e.at) else LastNotice(g, session)
                else LastNotice(g1, session) == LastNotice(g, session))
  {
  }

  /** A stopped session is told so by the first packet, and then by each that comes a second or more after the last notice. */
  lemma {:induction false} StoppedIsThinned(timeout: int, g: Gate, es: seq<Event>, session: uint32, now: int)
    requires 0 < timeout && 0 < now && Timely(es, now) && Unforgotten(es, session)
    requires Latched(g, session) && LastNotice(g, session) != Some(0)
    ensures StopTimes(timeout, g, es, session) == Thinned(LastNotice(g, session), PacketTimes(es, session))
    ensures PassTimes(timeout, g, es, session) == [] && CountdownTimes(timeout, g, es, session) == []
    decreases es
  {
    hide Next, Latched, LastNotice;
    if es != [] {
      assert es[0] in es && Unforgotten(es[1..], session);
      StoppedStep(timeout, g, es[0], session);
      StoppedIsThinned(timeout, Next(timeout, g, es[0]).0, es[1..], session, Clock(es[0], now));
    }
  }

  // ---------- While it runs ----------

  /** A transmission that began at from and has not been refused; nothing has been notified but perhaps the countdown. */
  predicate Running(g: Gate, session: uint32, from: int)
  {
    session in g.startedAt && g.startedAt[session] == from && !Flag(g.stopped, session) && session !in g.lastNotice
  }

  /** When the countdown is due: five seconds before the end, or at once if the timeout is no longer than that. */
  function CountdownFrom(timeout: int, from: int): int
  {
    if timeout <= 5_000_000_000 then from else from + timeout - 5_000_000_000
  }

  lemma RunningPacket(timeout: int, g: Gate, e: Event, session: uint32, from: int)
    requires e.Packet? && e.session == session && from <= e.at && 0 < e.at
    requires 0 < timeout && Running(g, session, from)
    ensures var (g1, r) := Next(timeout, g, e);
            if e.at < from + timeout then
              && r.pass && !r.stopNotice && Running(g1, session, from)
              && (r.countdown <==> !Flag(g.counted, session) && e.at >= CountdownFrom(timeout, from))
              && (Flag(g1.counted, session) <==> Flag(g.counted, session) || r.countdown)
            else !r.pass && r.stopNotice && !r.countdown && Latched(g1, session) && LastNotice(g1, session) == Some(e.at)
  {
  }

  lemma RunningOther(timeout: int, g: Gate, e: Event, session: uint32, from: int)
    requires 0 < timeout && e != Ended(session) && (e.Swept? ==> session !in e.sessions)
    requires Running(g, session, from) && !(e.Packet? && e.session == session)
    ensures var g1 := Next(timeout, g, e).0;
            Running(g1, session, from) && (Flag(g1.counted, session) <==> Flag(g.counted, session))
  {
  }

  lemma {:induction false} LateTimes(es: seq<Event>, session: uint32, now: int, limit: int)
    requires Timely(es, now) && limit <= now
    ensures Until(PacketTimes(es, session), limit) == []
    ensures From(PacketTimes(es, session), limit) == PacketTimes(es, session)
    decreases es
  {
    if es != [] {
      LateTimes(es[1..], session, Clock(es[0], now), limit);
    }
  }

  /** The countdown that a running transmission still gets. */
  function CountdownDue(timeout: int, counted: bool, from: int, times: seq<int>): seq<int>
  {
    if counted then [] else FirstOf(From(Until(times, from + timeout), CountdownFrom(timeout, from)))
  }

  lemma DueFirst(timeout: int, counted: bool, from: int, t: int, times: seq<int>)
    requires t < from + timeout
    ensures CountdownDue(timeout, counted, from, [t] + times)
            == if !counted && t >= CountdownFrom(timeout, from) then [t] else CountdownDue(timeout, counted, from, times)
    ensures Until([t] + times, from + timeout) == [t] + Until(times, from + timeout)
    ensures From([t] + times, from + timeout) == From(times, from + timeout)
  {
    assert ([t] + times)[1..] == times;
    assert ([t] + Until(times, from + timeout))[1..] == Until(times, from + timeout);
  }

  lemma LateFirst(timeout: int, counted: bool, from: int, t: int, times: seq<int>)
    requires t >= from + timeout && Until(times, from + timeout) == [] && From(times, from + timeout) == times
    ensures CountdownDue(timeout, counted, from, [t] + times) == [] && Until([t] + times, from + timeout) == []
    ensures Thinned(None, From([t] + times, from + timeout)) == [t] + Thinned(Some(t), times)
  {
    assert ([t] + times)[1..] == times;
    assert From([t] + times, from + timeout) == [t] + times;
  }

  lemma {:induction false} RunningIs(timeout: int, g: Gate, es: seq<Event>, session: uint32, from: int, now: int)
    requires 0 < timeout && 0 < now && from <= now && Timely(es, now) && Unforgotten(es, session)
    requires Running(g, session, from)
    ensures var times := PacketTimes(es, session);
            && PassTimes(timeout, g, es, session) == Until(times, from + timeout)
            && CountdownTimes(timeout, g, es, session)
               == CountdownDue(timeout, Flag(g.counted, session), from, times)
            && StopTimes(timeout, g, es, session) == Thinned(None, From(times, from + timeout))
    decreases es
  {
    hide Next, Running, Until, From, Thinned, CountdownDue, Flag, Latched;
    if es == [] {
      NoTimes(timeout, Flag(g.counted, session), from);
    } else {
      assert es[0] in es && Unforgotten(es[1..], session);
      var e, rest, g1 := es[0], es[1..], Next(timeout, g, es[0]).0;
      var times, counted := PacketTimes(rest, session), Flag(g.counted, session);
      if e.Packet? && e.session == session {
        RunningPacket(timeout, g, e, session, from);
        if e.at < from + timeout {
          RunningIs(timeout, g1, rest, session, from, e.at);
          DueFirst(timeout, counted, from, e.at, times);
          NoneCounted(timeout, from, times);
        } else {
          StoppedIsThinned(timeout, g1, rest, session, e.at);
          LateTimes(rest, session, e.at, from + timeout);
          LateFirst(timeout, counted, from, e.at, times);
        }
      } else {
        RunningOther(timeout, g, e, session, from);
        RunningIs(timeout, g1, rest, session, from, Clock(e, now));
      }
    }
  }

  lemma NoTimes(timeout: int, counted: bool, from: int)
    ensures Until([], from + timeout) == [] && CountdownDue(timeout, counted, from, []) == []
    ensures Thinned(None, From([], from + timeout)) == []
  {
  }

  lemma NoneCounted(timeout: int, from: int, times: seq<int>)
    ensures CountdownDue(timeout, true, from, times) == []
  {
  }

  /**
   One transmission, from its first packet until something makes the gate forget the session: exactly the packets
   younger than the timeout pass; exactly the first of them in the last five seconds brings the countdown
   notice; and of the refused ones exactly the first, and each that comes a second or more after the last
   notice, bring a stop notice.
   */
  lemma OneTransmission(timeout: int, g: Gate, session: uint32, from: int, es: seq<Event>)
    requires 0 < timeout && 0 < from && Timely(es, from) && Unforgotten(es, session)
    requires StoppedIsStarted(g) && session !in g.startedAt
    ensures var g1 := Next(timeout, g, Packet(session, from)).0;
            var times := PacketTimes(es, session);
            && Next(timeout, g, Packet(session, from)).1 == Ruling(true, false, false)
            && PassTimes(timeout, g1, es, session) == Until(times, from + timeout)
            && CountdownTimes(timeout, g1, es, session)
               == FirstOf(From(Until(times, from + timeout), CountdownFrom(timeout, from)))
            && StopTimes(timeout, g1, es, session) == Thinned(None, From(times, from + timeout))
  {
    assert !Flag(g.stopped, session) && session !in g.lastNotice;
    RunningIs(timeout, Next(timeout, g, Packet(session, from)).0, es, session, from, from);
  }

  // ---------- What is kept ----------

  /** Nothing is kept of sessions that are not timed. */
  predicate NothingLeftOver(g: Gate)
  {
    g.stopped.Keys <= g.startedAt.Keys && g.lastNotice.Keys <= g.startedAt.Keys && g.counted.Keys <= g.startedAt.Keys
  }

  /** Where no stream is swept, the gate keeps nothing of sessions whose transmission has ended. */
  lemma {:induction false} EndsLeaveNothing(timeout: int, g: Gate, es: seq<Event>)
    requires NothingLeftOver(g) && forall e :: e in es ==> !e.Swept?
    ensures NothingLeftOver(After(timeout, g, es))
    decreases es
  {
    if es != [] {
      assert es[0] in es;
      OneLeavesNothing(timeout, g, es[0]);
      EndsLeaveNothing(timeout, Next(timeout, g, es[0]).0, es[1..]);
    }
  }

  lemma OneLeavesNothing(timeout: int, g: Gate, e: Event)
    requires NothingLeftOver(g) && !e.Swept?
    ensures NothingLeftOver(Next(timeout, g, e).0)
  {
  }
}
