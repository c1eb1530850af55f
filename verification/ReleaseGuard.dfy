/**
 The desktop client's guard against quick releases of the talk button: three in a row block it, and a
 timer lifts the block after a quiet second. Old timers are told from the current one by tickets.
 */
module ReleaseGuard {

  const DECAY_MS: int := 1000
  const THRESHOLD: nat := 3

  /** A timer that sleeps: the ticket it was armed with, and when it may fire. */
  datatype Timer = Timer(ticket: nat, due: int)

  datatype Guard = Guard(ticket: nat, count: nat, blocked: bool, timers: seq<Timer>)

  const FRESH: Guard := Guard(0, 0, false, [])

  function Arm(g: Guard, at: int): Guard
  {
    g.(timers := g.timers + [Timer(g.ticket, at + DECAY_MS)])
  }

  function Released(g: Guard, at: int): Guard
  {
    var n := g.count + 1;
    Arm(g.(ticket := g.ticket + 1, count := n, blocked := g.blocked || n >= THRESHOLD), at)
  }

  /** A press while blocked is refused, and the block lasts a second from now. */
  function Pressed(g: Guard, at: int): Guard
  {
    if g.blocked then Arm(g.(ticket := g.ticket + 1), at) else g
  }

  function Cleared(g: Guard): Guard
  {
    g.(ticket := g.ticket + 1, count := 0, blocked := false)
  }

  /** What a timer's callback does: nothing, unless its ticket is the current one. */
  function Called(g: Guard, ticket: nat): Guard
  {
    if g.ticket != ticket then g else g.(count := 0, blocked := false)
  }

  function Without(timers: seq<Timer>, k: nat): seq<Timer>
    requires k < |timers|
  {
    timers[..k] + timers[k + 1..]
  }

  function Fired(g: Guard, k: nat): Guard
    requires k < |g.timers|
  {
    Called(g, g.timers[k].ticket).(timers := Without(g.timers, k))
  }

  // ---------- The guard as the window holds it ----------

  class PttReleaseGuard {
    var timerTicket: nat
    var burstCount: nat
    var burstBlocked: bool
    ghost var sleeping: seq<Timer>

    ghost function View(): Guard
      reads this
    {
      Guard(timerTicket, burstCount, burstBlocked, sleeping)
    }

    constructor ()
      ensures View() == FRESH
    {
      timerTicket, burstCount, burstBlocked, sleeping := 0, 0, false, [];
    }

    method ResetPttReleaseBurstGuard()
      modifies this
      ensures View() == Cleared(old(View()))
    {
      timerTicket := timerTicket + 1;
      burstCount := 0;
      burstBlocked := false;
    }

    /** A thread that sleeps for a second and then calls back with its ticket. */
    ghost method ArmPttReleaseBurstDecay(ticket: nat, now: int)
      modifies this`sleeping
      ensures sleeping == old(sleeping) + [Timer(ticket, now + DECAY_MS)]
    {
      sleeping := sleeping + [Timer(ticket, now + DECAY_MS)];
    }

    method RecordPttReleaseBurst(ghost now: int)
      modifies this
      ensures View() == Released(old(View()), now)
    {
      timerTicket := timerTicket + 1;
      burstCount := burstCount + 1;
      if burstCount >= THRESHOLD {
        burstBlocked := true;
      }
      ArmPttReleaseBurstDecay(timerTicket, now);
    }

    /** The start of a press, as far as the guard is concerned. */
    method BeginPttTx(ghost now: int) returns (allowed: bool)
      modifies this
      ensures View() == Pressed(old(View()), now) && allowed == !old(View()).blocked
    {
      if burstBlocked {
        timerTicket := timerTicket + 1;
        ArmPttReleaseBurstDecay(timerTicket, now);
        return false;
      }
      return true;
    }

    method OnTimer(scheduleTicket: nat)
      modifies this`burstCount, this`burstBlocked
      ensures View() == Called(old(View()), scheduleTicket)
    {
      if timerTicket != scheduleTicket {
        return;
      }
      burstCount := 0;
      burstBlocked := false;
    }
  }

  // ---------- Runs ----------

  datatype Event =
    | Release(at: int)
    | Press(at: int)
    | Reset(at: int)
    | Fire(timer: nat, at: int)

  /** Time does not run back, and a timer fires when it is due or later, in any order. */
  predicate Possible(g: Guard, now: int, e: Event)
  {
    now <= e.at && (e.Fire? ==> e.timer < |g.timers| && g.timers[e.timer].due <= e.at)
  }

  function Next(g: Guard, e: Event): Guard
    requires e.Fire? ==> e.timer < |g.timers|
  {
    match e
    case Release(at) => Released(g, at)
    case Press(at) => Pressed(g, at)
    case Reset(_) => Cleared(g)
    case Fire(k, _) => Fired(g, k)
  }

  predicate PossibleRun(g: Guard, now: int, es: seq<Event>)
    decreases es
  {
    es != [] ==> Possible(g, now, es[0]) && PossibleRun(Next(g, es[0]), es[0].at, es[1..])
  }

  function After(g: Guard, now: int, es: seq<Event>): Guard
    requires PossibleRun(g, now, es)
    decreases es
  {
    if es == [] then g else After(Next(g, es[0]), es[0].at, es[1..])
  }

  /** A release, a refused press or a reset: what makes the older timers idle. */
  predicate Disturbs(g: Guard, e: Event)
  {
    e.Release? || (e.Press? && g.blocked) || e.Reset?
  }

  function Disturbances(g: Guard, now: int, es: seq<Event>): nat
    requires PossibleRun(g, now, es)
    decreases es
  {
    if es == [] then 0
    else (if Disturbs(g, es[0]) then 1 else 0) + Disturbances(Next(g, es[0]), es[0].at, es[1..])
  }

  /** The time of the last disturbance, given the one before the run. */
  function LastDisturbed(g: Guard, now: int, es: seq<Event>, last: int): int
    requires PossibleRun(g, now, es)
    decreases es
  {
    if es == [] then last
    else LastDisturbed(Next(g, es[0]), es[0].at, es[1..], if Disturbs(g, es[0]) then es[0].at else last)
  }

  // ---------- What every run keeps ----------

  /** Some timer that sleeps holds the current ticket. */
  predicate Watched(g: Guard)
  {
    exists k :: 0 <= k < |g.timers| && g.timers[k].ticket == g.ticket
  }

  predicate Sound(g: Guard, last: int)
  {
    && (g.blocked <==> g.count >= THRESHOLD)
    && (g.count > 0 ==> Watched(g))
    && (forall k :: 0 <= k < |g.timers| ==> g.timers[k].ticket <= g.ticket)
    && (forall k :: 0 <= k < |g.timers| && g.timers[k].ticket == g.ticket ==> g.timers[k].due == last + DECAY_MS)
    && (forall j, k :: 0 <= j < k < |g.timers| ==> g.timers[j].ticket < g.timers[k].ticket)
  }

  lemma StepIsSound(g: Guard, now: int, last: int, e: Event)
    requires Sound(g, last) && Possible(g, now, e)
    ensures Sound(Next(g, e), if Disturbs(g, e) then e.at else last)
  {
    match e {
      case Release(at) => assert Next(g, e).timers[|g.timers|].ticket == g.ticket + 1;
      case Press(at) =>
        if g.blocked {
          assert Next(g, e).timers[|g.timers|].ticket == g.ticket + 1;
        }
      case Reset(_) =>
      case Fire(k, _) => FireIsSound(g, last, k);
    }
  }

  lemma FireIsSound(g: Guard, last: int, k: nat)
    requires Sound(g, last) && k < |g.timers|
    ensures Sound(Fired(g, k), last)
  {
    var g1 := Fired(g, k);
    forall j | 0 <= j < |g1.timers|
      ensures g1.timers[j] == g.timers[if j < k then j else j + 1]
    {
    }
    if g1.count > 0 {
      var j :| 0 <= j < |g.timers| && g.timers[j].ticket == g.ticket;
      assert g1.timers[if j < k then j else j - 1].ticket == g1.ticket;
    }
  }

  lemma {:induction false} RunIsSound(g: Guard, now: int, es: seq<Event>, last: int)
    requires Sound(g, last) && PossibleRun(g, now, es)
    ensures Sound(After(g, now, es), LastDisturbed(g, now, es, last))
    decreases es
  {
    hide Sound, Next, Disturbs;
    if es == [] {
    } else {
      StepIsSound(g, now, last, es[0]);
      RunIsSound(Next(g, es[0]), es[0].at, es[1..], if Disturbs(g, es[0]) then es[0].at else last);
    }
  }

  /** On every run, in whatever order the timers fire, the button is blocked exactly after three counted releases. */
  lemma BlockedIffThree(now: int, es: seq<Event>)
    requires PossibleRun(FRESH, now, es)
    ensures var g := After(FRESH, now, es); g.blocked <==> g.count >= THRESHOLD
  {
    RunIsSound(FRESH, now, es, now);
  }

  /**
   On every run, while releases are counted, one timer that sleeps holds the current ticket: it is due a
   second after the last disturbance, and its firing forgets the count and the block. So no block is permanent.
   */
  lemma NoBlockIsPermanent(now: int, es: seq<Event>) returns (k: nat)
    requires PossibleRun(FRESH, now, es) && After(FRESH, now, es).count > 0
    ensures var g := After(FRESH, now, es);
            && k < |g.timers| && g.timers[k].due == LastDisturbed(FRESH, now, es, now) + DECAY_MS
            && Fired(g, k).count == 0 && !Fired(g, k).blocked
  {
    RunIsSound(FRESH, now, es, now);
    var g := After(FRESH, now, es);
    k :| 0 <= k < |g.timers| && g.timers[k].ticket == g.ticket;
  }

  lemma {:induction false} TicketCounts(g: Guard, now: int, es: seq<Event>)
    requires PossibleRun(g, now, es)
    ensures After(g, now, es).ticket == g.ticket + Disturbances(g, now, es)
    decreases es
  {
    if es == [] {
    } else {
      TicketCounts(Next(g, es[0]), es[0].at, es[1..]);
    }
  }

  /**
   A timer that was armed last clears the guard exactly when nothing has disturbed since; otherwise its
   firing changes nothing but the list of timers.
   */
  lemma TimerClearsIff(g: Guard, now: int, es: seq<Event>, k: nat)
    requires PossibleRun(g, now, es)
    requires var g1 := After(g, now, es); k < |g1.timers| && g1.timers[k].ticket == g.ticket
    ensures var g1 := After(g, now, es);
            var g2 := Fired(g1, k);
            if Disturbances(g, now, es) == 0 then g2.count == 0 && !g2.blocked
            else g2 == g1.(timers := Without(g1.timers, k))
  {
    TicketCounts(g, now, es);
  }

  /** On every run, a firing that takes a count away comes a quiet second after the last disturbance, or later. */
  lemma ClearsAfterQuietSecond(now: int, es: seq<Event>, fire: Event)
    requires PossibleRun(FRESH, now, es)
    requires var g := After(FRESH, now, es);
             fire.Fire? && fire.timer < |g.timers| && g.timers[fire.timer].due <= fire.at
             && Next(g, fire).count < g.count
    ensures fire.at >= LastDisturbed(FRESH, now, es, now) + DECAY_MS
  {
    RunIsSound(FRESH, now, es, now);
  }

  // ---------- Quick releases ----------

  function Releases(es: seq<Event>): nat
  {
    if es == [] then 0 else (if es[0].Release? then 1 else 0) + Releases(es[1..])
  }

  /** Each event comes less than a second after the last disturbance before it, and none resets. */
  predicate Hurried(g: Guard, now: int, es: seq<Event>, last: int)
    requires PossibleRun(g, now, es)
    decreases es
  {
    es != [] ==>
      && es[0].at < last + 1000 && !es[0].Reset?
      && Hurried(Next(g, es[0]), es[0].at, es[1..], if Disturbs(g, es[0]) then es[0].at else last)
  }

  lemma HurriedStep(g: Guard, now: int, e: Event, last: int)
    requires Sound(g, last) && Possible(g, now, e) && e.at < last + 1000 && !e.Reset?
    ensures Next(g, e).count == g.count + if e.Release? then 1 else 0
  {
  }

  lemma {:induction false} HurriedCounts(g: Guard, now: int, es: seq<Event>, last: int)
    requires Sound(g, last) && PossibleRun(g, now, es) && Hurried(g, now, es, last)
    ensures After(g, now, es).count == g.count + Releases(es)
    decreases es
  {
    hide Sound, Next, Disturbs;
    if es != [] {
      HurriedStep(g, now, es[0], last);
      StepIsSound(g, now, last, es[0]);
      HurriedCounts(Next(g, es[0]), es[0].at, es[1..], if Disturbs(g, es[0]) then es[0].at else last);
    }
  }

  /**
   Releases that follow each other within a second are all counted, whatever timers fire and presses come between
   them: the button is then blocked, and refuses the next press, exactly from the third on.
   */
  lemma QuickReleasesBlock(now: int, es: seq<Event>, last: int, press: int)
    requires PossibleRun(FRESH, now, es) && Hurried(FRESH, now, es, last)
    ensures var g := After(FRESH, now, es);
            && g.count == Releases(es)
            && (g.blocked <==> Releases(es) >= 3)
            && (Disturbs(g, Press(press)) <==> Releases(es) >= 3)
  {
    HurriedCounts(FRESH, now, es, last);
    RunIsSound(FRESH, now, es, last);
  }
}
