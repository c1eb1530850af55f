/**
 Busy mode: who holds the channel, when the hold ends, and when others may talk in parallel. Times are
 nanoseconds, zero is the unset time; session number zero means that nobody holds the channel.
 */
module BusyArbiter {
  import opened Packets

  datatype Rules = Rules(busyMode: bool, busyTimeout: int, hangover: int, packetDur: int)

  datatype Hold = Hold(session: uint32, lastPacketAt: int, explicitEof: bool, startedAt: int, parallel: bool)

  const FREE: Hold := Hold(0, 0, false, 0, false)

  function ResetHold(h: Hold): Hold
  {
    Hold(0, h.lastPacketAt, false, 0, false)
  }

  function Window(c: Rules, h: Hold): int
  {
    if h.explicitEof then c.packetDur else c.hangover
  }

  predicate WindowExpired(c: Rules, h: Hold, now: int)
  {
    h.session == 0 || now - h.lastPacketAt > Window(c, h)
  }

  /** How a packet fares: it takes the channel, passes in parallel, belongs to the holder, or is refused. */
  datatype Verdict = Took | Parallel | Own | Refused | Unruled

  predicate Accepted(v: Verdict)
  {
    v != Refused
  }

  predicate TimeoutElapses(c: Rules, h: Hold, now: int)
  {
    c.busyTimeout > 0 && !h.parallel && h.startedAt != 0 && now - h.startedAt >= c.busyTimeout
  }

  /** The hold as tryAcceptPacket finds it, after dropping a holder who has gone. */
  function Present(h: Hold, participants: set<uint32>): Hold
  {
    if h.session != 0 && h.session !in participants then ResetHold(h) else h
  }

  /** The new hold, the verdict, and whether the busy timeout has just elapsed. */
  function TryAccept(c: Rules, h: Hold, participants: set<uint32>, session: uint32, now: int): (Hold, Verdict, bool)
  {
    if !c.busyMode then (h, Unruled, false)
    else
      var h1 := Present(h, participants);
      if WindowExpired(c, h1, now) then (Hold(session, now, false, now, false), Took, false)
      else
        var elapses := TimeoutElapses(c, h1, now);
        var h2 := h1.(parallel := h1.parallel || elapses);
        if h2.parallel then (h2.(lastPacketAt := now, explicitEof := false), Parallel, elapses)
        else if h2.session == session then (h2.(lastPacketAt := now, explicitEof := false), Own, elapses)
        else (h2, Refused, elapses)
  }

  function MarkEof(c: Rules, h: Hold, session: uint32, now: int): Hold
  {
    if !c.busyMode || h.session != session then h else h.(explicitEof := true, lastPacketAt := now)
  }

  function Release(h: Hold, session: uint32): Hold
  {
    if h.session == session then ResetHold(h) else h
  }

  // ---------- Runs ----------

  datatype Event =
    | Packet(session: uint32, at: int)
    | EofFrom(session: uint32, at: int)
    | Join(session: uint32)
    | Leave(session: uint32)

  datatype Arena = Arena(hold: Hold, participants: set<uint32>)

  function Next(c: Rules, s: Arena, e: Event): Arena
  {
    match e
    case Packet(session, at) => s.(hold := TryAccept(c, s.hold, s.participants, session, at).0)
    case EofFrom(session, at) => s.(hold := MarkEof(c, s.hold, session, at))
    case Join(session) => s.(participants := s.participants + {session})
    case Leave(session) => Arena(Release(s.hold, session), s.participants - {session})
  }

  function After(c: Rules, s: Arena, es: seq<Event>): Arena
    decreases es
  {
    if es == [] then s else After(c, Next(c, s, es[0]), es[1..])
  }

  function VerdictOn(c: Rules, s: Arena, e: Event): Verdict
    requires e.Packet?
  {
    TryAccept(c, s.hold, s.participants, e.session, e.at).1
  }

  /** The time after an event; joining and leaving take no time. */
  function Clock(e: Event, now: int): int
  {
    if e.Packet? || e.EofFrom? then e.at else now
  }

  function ClockAfter(es: seq<Event>, now: int): int
    decreases es
  {
    if es == [] then now else ClockAfter(es[1..], Clock(es[0], now))
  }

  /** Sessions are numbered from one, and time goes on from now. */
  predicate Timely(es: seq<Event>, now: int)
    decreases es
  {
    es != [] ==>
      && es[0].session != 0 && now <= Clock(es[0], now)
      && Timely(es[1..], Clock(es[0], now))
  }

  /** No packet is accepted in the course of es. */
  predicate Quiet(c: Rules, s: Arena, es: seq<Event>)
    decreases es
  {
    es != [] ==>
      && (es[0].Packet? ==> !Accepted(VerdictOn(c, s, es[0])))
      && Quiet(c, Next(c, s, es[0]), es[1..])
  }

  predicate LeavesIn(es: seq<Event>, session: uint32)
  {
    Leave(session) in es
  }

  /** The time of the last explicit end of transmission of the session, if there is one. */
  function LastEof(es: seq<Event>, session: uint32): Option<int>
  {
    if es == [] then None
    else
      var later := LastEof(es[1..], session);
      if later.Some? then later
      else if es[0].EofFrom? && es[0].session == session then Some(es[0].at)
      else None
  }

  // ---------- Invariants ----------

  /** Parallel talk needs a holder and a busy timeout that had run out by the last packet. */
  ghost predicate HoldInvariant(c: Rules, h: Hold, now: int)
  {
    && h.lastPacketAt <= now
    && (h.session != 0 ==> 0 < h.startedAt <= h.lastPacketAt)
    && (h.parallel ==> h.session != 0 && c.busyTimeout > 0 && h.startedAt + c.busyTimeout <= h.lastPacketAt)
  }

  lemma {:induction false} RunKeepsHoldInvariant(c: Rules, s: Arena, es: seq<Event>, now: int)
    requires HoldInvariant(c, s.hold, now) && 0 < now && Timely(es, now)
    ensures HoldInvariant(c, After(c, s, es).hold, ClockAfter(es, now))
    decreases es
  {
    if es != [] {
      RunKeepsHoldInvariant(c, Next(c, s, es[0]), es[1..], Clock(es[0], now));
    }
  }

  // ---------- Exclusion ----------

  /** After an accepted packet somebody holds the channel, and the packet counts as the last one. */
  lemma AcceptedHolds(c: Rules, s: Arena, e: Event)
    requires c.busyMode && e.Packet? && e.session != 0 && Accepted(VerdictOn(c, s, e))
    ensures var h := Next(c, s, e).hold;
            && h.session != 0 && h.lastPacketAt == e.at && !h.explicitEof
            && (VerdictOn(c, s, e) == Parallel <==> h.parallel)
            && (VerdictOn(c, s, e) != Parallel ==> h.session == e.session)
  {
  }

  /** What becomes of a hold while nothing is accepted. */
  lemma {:induction false} QuietKeepsHold(c: Rules, s: Arena, es: seq<Event>, now: int)
    requires c.busyMode && s.hold.session != 0 && Quiet(c, s, es) && Timely(es, now)
    ensures var h, h1 := s.hold, After(c, s, es).hold;
            if LeavesIn(es, h.session) then h1.session == 0
            else h1 == (if LastEof(es, h.session).None? then h
                        else h.(explicitEof := true, lastPacketAt := LastEof(es, h.session).value))
    decreases es
  {
    if es != [] {
      var s1 := Next(c, s, es[0]);
      if es[0] == Leave(s.hold.session) {
        QuietStaysFree(c, s1, es[1..], now);
      } else {
        QuietKeepsHold(c, s1, es[1..], Clock(es[0], now));
        assert LeavesIn(es, s.hold.session) <==> LeavesIn(es[1..], s.hold.session);
      }
    }
  }

  lemma {:induction false} QuietStaysFree(c: Rules, s: Arena, es: seq<Event>, now: int)
    requires c.busyMode && s.hold.session == 0 && Quiet(c, s, es) && Timely(es, now)
    ensures After(c, s, es).hold.session == 0
    decreases es
  {
    if es != [] {
      QuietStaysFree(c, Next(c, s, es[0]), es[1..], Clock(es[0], now));
    }
  }

  /** The hold that began, or went on, with an accepted packet is over for the next packet, by what happened since. */
  predicate HoldIsOver(c: Rules, holder: uint32, since: int, es: seq<Event>, there: set<uint32>, now: int)
  {
    || LeavesIn(es, holder)
    || holder !in there
    || (LastEof(es, holder).None? && now - since > c.hangover)
    || (LastEof(es, holder).Some? && now - LastEof(es, holder).value > c.packetDur)
  }

  /**
   Exclusion over whole runs. Between two packets that nothing was accepted in between, the channel changes
   hands if and only if the holder has left, or said explicitly that it ended more than a packet time ago,
   or has been silent for more than the hangover. Another session than the first one's gets in this way
   or in parallel, and in no other way.
   */
  lemma Exclusion(c: Rules, s: Arena, first: Event, mid: seq<Event>, last: Event, now: int)
    requires c.busyMode && first.Packet? && last.Packet?
    requires Timely([first], now) && Timely(mid, first.at) && Timely([last], ClockAfter(mid, first.at))
    requires Accepted(VerdictOn(c, s, first)) && Quiet(c, Next(c, s, first), mid)
    ensures var s1 := Next(c, s, first);
            var s2 := After(c, s1, mid);
            var over := HoldIsOver(c, s1.hold.session, first.at, mid, s2.participants, last.at);
            && (VerdictOn(c, s2, last) == Took <==> over)
            && (VerdictOn(c, s2, last) == Parallel
                <==> !over && (s1.hold.parallel || TimeoutElapses(c, s1.hold, last.at)))
            && (first.session != last.session && Accepted(VerdictOn(c, s2, last)) ==>
                  VerdictOn(c, s2, last) == Took || VerdictOn(c, s2, last) == Parallel)
  {
    AcceptedHolds(c, s, first);
    QuietKeepsHold(c, Next(c, s, first), mid, first.at);
  }

  /** On a run from a free channel, parallel talk always has a holder, and the busy timeout has run out. */
  lemma ParallelNeedsTimeout(c: Rules, participants: set<uint32>, es: seq<Event>)
    requires Timely(es, 1)
    ensures var h := After(c, Arena(FREE, participants), es).hold;
            h.parallel ==> h.session != 0 && c.busyTimeout > 0 && h.lastPacketAt >= h.startedAt + c.busyTimeout
  {
    RunKeepsHoldInvariant(c, Arena(FREE, participants), es, 1);
  }

  // ---------- Parallel talk ----------

  /** No packet takes the channel, and its holder does not leave. */
  predicate NoneTakes(c: Rules, s: Arena, es: seq<Event>)
    decreases es
  {
    es != [] ==>
      && (es[0].Packet? ==> VerdictOn(c, s, es[0]) != Took)
      && es[0] != Leave(s.hold.session)
      && NoneTakes(c, Next(c, s, es[0]), es[1..])
  }

  lemma HoldLasts(c: Rules, s: Arena, e: Event, start: int, now: int)
    requires c.busyMode && s.hold.session != 0 && 0 < start == s.hold.startedAt <= now <= Clock(e, now)
    requires s.hold.parallel ==> 0 < c.busyTimeout <= now - start
    requires (e.Packet? ==> VerdictOn(c, s, e) != Took) && e != Leave(s.hold.session)
    ensures var h := Next(c, s, e).hold;
            && h.session == s.hold.session && h.startedAt == start
            && (h.parallel ==> 0 < c.busyTimeout <= Clock(e, now) - start)
    ensures e.Packet? ==>
              && (VerdictOn(c, s, e) == Parallel <==> 0 < c.busyTimeout <= e.at - start)
              && (Accepted(VerdictOn(c, s, e)) <==> e.session == s.hold.session || 0 < c.busyTimeout <= e.at - start)
  {
  }

  /**
   As long as a hold lasts, that is until a packet takes the channel anew or the holder leaves, a packet gets in
   exactly if it is the holder's or comes at least the busy timeout, if there is one, after the hold began: from then
   on all may talk, whatever was refused before.
   */
  lemma {:induction false} ParallelFromTimeout(
    c: Rules, s: Arena, es: seq<Event>, e: Event, start: int, now: int)
    requires c.busyMode && s.hold.session != 0 && 0 < start == s.hold.startedAt <= now && !s.hold.parallel
    requires Timely(es + [e], now) && e.Packet? && NoneTakes(c, s, es + [e])
    ensures var v := VerdictOn(c, After(c, s, es), e);
            && (Accepted(v) <==> e.session == s.hold.session || 0 < c.busyTimeout <= e.at - start)
            && (v == Parallel <==> 0 < c.busyTimeout <= e.at - start)
  {
    ParallelLater(c, s, es, e, start, now);
  }

  lemma {:induction false} ParallelLater(c: Rules, s: Arena, es: seq<Event>, e: Event, start: int, now: int)
    requires c.busyMode && s.hold.session != 0 && 0 < start == s.hold.startedAt <= now
    requires s.hold.parallel ==> 0 < c.busyTimeout <= now - start
    requires Timely(es + [e], now) && e.Packet? && NoneTakes(c, s, es + [e])
    ensures var v := VerdictOn(c, After(c, s, es), e);
            && (Accepted(v) <==> e.session == s.hold.session || 0 < c.busyTimeout <= e.at - start)
            && (v == Parallel <==> 0 < c.busyTimeout <= e.at - start)
    decreases es
  {
    hide Next, VerdictOn;
    var all := es + [e];
    HoldLasts(c, s, all[0], start, now);
    if es != [] {
      assert all[1..] == es[1..] + [e];
      ParallelLater(c, Next(c, s, es[0]), es[1..], e, start, Clock(es[0], now));
    }
  }
}
