/**
 The only one who talks in a channel: on every run of the relay busy mode never refuses him, and the gate does
 exactly when his transmission has lasted for the timeout.
 */
module LoneTalker {
  import opened Packets
  import B = BusyArbiter
  import G = TxGate
  import opened RelayModel
  import opened RelayRuns

  /** No voice of anybody else comes to the channel. */
  predicate TalksAlone(s: Settings, r: Relay, es: seq<Event>, name: string, session: uint32)
    requires PossibleRun(s, r, es)
    decreases es
  {
    es != [] ==>
      && (es[0].Voice? && Concerns(r, es[0].session, name) ==> es[0].session == session)
      && TalksAlone(s, Step(s, r, es[0]), es[1..], name, session)
  }

  predicate SpeaksTo(r: Relay, e: Event, name: string, session: uint32)
  {
    e.Voice? && e.session == session && Concerns(r, session, name)
  }

  /** The session's transmission began less than the timeout ago, or begins now, or is not timed. */
  predicate Young(s: Settings, m: Mixer, session: uint32, now: int)
  {
    || s.transmitTimeout <= 0
    || session !in m.gate.startedAt
    || now - m.gate.startedAt[session] < s.transmitTimeout
  }

  predicate AlwaysYoung(s: Settings, r: Relay, es: seq<Event>, name: string, session: uint32)
    requires PossibleRun(s, r, es)
    decreases es
  {
    es != [] ==>
      && (SpeaksTo(r, es[0], name, session) ==> Young(s, MixerAt(r, name), session, es[0].at))
      && AlwaysYoung(s, Step(s, r, es[0]), es[1..], name, session)
  }

  predicate AlwaysHeard(s: Settings, r: Relay, es: seq<Event>, name: string, session: uint32)
    requires PossibleRun(s, r, es)
    decreases es
  {
    es != [] ==>
      && (SpeaksTo(r, es[0], name, session) ==> Admits(s, MixerAt(r, name), session, es[0].at))
      && AlwaysHeard(s, Step(s, r, es[0]), es[1..], name, session)
  }

  /** Nobody else holds the channel, and the session has not been stopped. */
  predicate Clear(m: Mixer, session: uint32)
  {
    (m.hold.session == 0 || m.hold.session == session) && !G.Flag(m.gate.stopped, session)
  }

  lemma AdmittedIff(s: Settings, m: Mixer, session: uint32, now: int)
    requires Clear(m, session)
    ensures Admits(s, m, session, now) <==> Young(s, m, session, now)
  {
  }

  lemma HoldStaysClear(s: Settings, r: Relay, e: Event, name: string, session: uint32)
    requires Possible(r, e) && name != "" && Clear(MixerAt(r, name), session)
    requires e.Voice? && Concerns(r, e.session, name) ==> e.session == session
    ensures var h := MixerAt(Step(s, r, e), name).hold; h.session == 0 || h.session == session
  {
    hide Step, MixerAt, G.Rule;
    ArenaStep(s, r, e, name);
    var events := ArenaEvents(s, r, e, name);
    if events == [] {
      OneArenaEvent(s.rules, ArenaOf(r, name), B.Join(0));
    } else {
      OneArenaEvent(s.rules, ArenaOf(r, name), events[0]);
      assert events == [events[0]];
    }
  }

  lemma GateStaysClear(s: Settings, r: Relay, e: Event, name: string, session: uint32)
    requires Possible(r, e) && name != "" && Clear(MixerAt(r, name), session)
    requires SpeaksTo(r, e, name, session) ==> Young(s, MixerAt(r, name), session, e.at)
    ensures !G.Flag(MixerAt(Step(s, r, e), name).gate.stopped, session)
  {
    hide Step, MixerAt;
    GateStep(s, r, e, name);
    var events := GateEvents(r, e, name);
    if events == [] {
      OneGateEvent(s.transmitTimeout, MixerAt(r, name).gate, G.Ended(0));
    } else {
      OneGateEvent(s.transmitTimeout, MixerAt(r, name).gate, events[0]);
      assert events == [events[0]];
    }
  }

  /**
   On every run of the relay in which nobody else talks in the channel, whoever comes and goes and whatever else
   is sent, all of the session's packets are accepted there if and only if each comes less than the timeout after
   the beginning of its transmission.
   */
  lemma {:induction false} HeardIffYoung(s: Settings, r: Relay, es: seq<Event>, name: string, session: uint32)
    requires PossibleRun(s, r, es) && name != "" && Clear(MixerAt(r, name), session)
    requires TalksAlone(s, r, es, name, session)
    ensures AlwaysHeard(s, r, es, name, session) <==> AlwaysYoung(s, r, es, name, session)
    decreases es
  {
    hide Step, Admits, Young, Clear, MixerAt;
    if es != [] {
      var e := es[0];
      AdmittedIff(s, MixerAt(r, name), session, if e.Voice? then e.at else 0);
      if SpeaksTo(r, e, name, session) ==> Young(s, MixerAt(r, name), session, e.at) {
        StaysClear(s, r, e, name, session);
        HeardIffYoung(s, Step(s, r, e), es[1..], name, session);
      }
    }
  }

  lemma StaysClear(s: Settings, r: Relay, e: Event, name: string, session: uint32)
    requires Possible(r, e) && name != "" && Clear(MixerAt(r, name), session)
    requires e.Voice? && Concerns(r, e.session, name) ==> e.session == session
    requires SpeaksTo(r, e, name, session) ==> Young(s, MixerAt(r, name), session, e.at)
    ensures Clear(MixerAt(Step(s, r, e), name), session)
  {
    hide Step, MixerAt, Young;
    HoldStaysClear(s, r, e, name, session);
    GateStaysClear(s, r, e, name, session);
  }
}
