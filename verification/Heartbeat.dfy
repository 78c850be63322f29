/** The heartbeat loop as a timed step machine
    (karo_x2_sdk/_internal/robot_impl.py:1337-1442).

    Time only passes up to the next deadline of the loop. Sends take no time and succeed; the loop runs
    while the session stays READY with an open socket. */
module Heartbeat {

  /** `Options` is what the loop reads from the connect options. Validation does not bound
      `max_missed_pings` from below; a negative value makes the source's loop spin without
      suspending, so it is not modelled. */
  datatype Options = Options(interval: real, pingTimeout: real, maxMissed: nat)

  /** `Idle` waits for the link to have been silent for the interval. `Window` is one ping waiting for an
      answer: `attempt` counts the pings sent by this call of `_send_and_wait_ping`, and `heard` is its
      wake-up event. */
  datatype Phase = Idle | Window(start: real, attempt: nat, heard: bool) | Dead

  /** `raced` records that the silence being counted began inside a window whose timeout was taken
      although a frame had just arrived. */
  datatype Monitor = Monitor(now: real, lastInbound: real, miss: nat, phase: Phase, raced: bool)

  datatype Event =
    | Inbound(at: real)       // a frame arrives: _reset_liveness_on_inbound
    | IdleExpired             // the link has been idle for the interval: first ping
    | WindowAnswered          // the waiting ping notices the frame
    | WindowExpired           // the ping's timeout is taken

  ghost predicate Sane(o: Options) {
    0.0 < o.interval && 0.0 < o.pingTimeout
  }

  function Max1(n: nat): nat {
    if n == 0 then 1 else n
  }

  function Start(now: real): Monitor {
    Monitor(now, now, 0, Idle, false)
  }

  /** The instant the loop is waiting for. */
  function Deadline(o: Options, m: Monitor): real
    requires !m.phase.Dead?
  {
    match m.phase
    case Idle => m.lastInbound + o.interval
    case Window(start, _, _) => start + o.pingTimeout
  }

  /** When an event can happen: never past the deadline, and a frame that was heard is noticed at once
      unless the timeout falls on the same instant. */
  ghost predicate Enabled(o: Options, m: Monitor, e: Event) {
    && !m.phase.Dead?
    && match e
       case Inbound(t) => m.now <= t <= Deadline(o, m) && (m.phase.Window? && m.phase.heard ==> t == m.now)
       case IdleExpired => m.phase.Idle?
       case WindowAnswered => m.phase.Window? && m.phase.heard
       case WindowExpired => m.phase.Window? && (m.phase.heard ==> m.now == Deadline(o, m))
  }

  function Step(o: Options, m: Monitor, e: Event): Monitor {
    if m.phase.Dead? then m
    else match e
    case Inbound(t) =>
      Monitor(t, t, 0, if m.phase.Window? then m.phase.(heard := true) else Idle, false)
    case IdleExpired =>
      m.(now := Deadline(o, m), phase := Window(Deadline(o, m), 0, false))
    case WindowAnswered =>
      m.(miss := 0, phase := Idle)
    case WindowExpired =>
      if !m.phase.Window? then m
      else
        var t := Deadline(o, m);
        var m' := m.(now := t, miss := m.miss + 1, raced := m.raced || m.phase.heard);
        if m'.miss >= o.maxMissed then m'.(phase := Dead)
        else if m.phase.attempt + 1 < o.maxMissed + 1
        then m'.(phase := Window(t, m.phase.attempt + 1, false))
        else if t - m.lastInbound < o.interval then m'.(phase := Idle)
        else m'.(phase := Window(t, 0, false))
  }

  /** The class whose fields the source updates; each method is one step of the machine. */
  class HeartbeatLoop {
    const opts: Options
    var now: real
    var lastInbound: real
    var missCount: nat
    var phase: Phase
    ghost var raced: bool

    ghost function View(): Monitor
      reads this
    {
      Monitor(now, lastInbound, missCount, phase, raced)
    }

    constructor (opts: Options, start: real)
      ensures this.opts == opts && View() == Start(start)
    {
      this.opts, now, lastInbound, missCount, phase, raced := opts, start, start, 0, Idle, false;
    }

    method OnInbound(at: real)
      requires Enabled(opts, View(), Inbound(at))
      modifies this
      ensures View() == Step(opts, old(View()), Inbound(at))
    {
      now := at;
      lastInbound := at;
      missCount := 0;
      raced := false;
      if phase.Window? {
        phase := phase.(heard := true);
      }
    }

    method OnIdleExpired()
      requires Enabled(opts, View(), IdleExpired)
      modifies this
      ensures View() == Step(opts, old(View()), IdleExpired)
    {
      now := lastInbound + opts.interval;
      phase := Window(now, 0, false);
    }

    method OnWindowAnswered()
      requires Enabled(opts, View(), WindowAnswered)
      modifies this
      ensures View() == Step(opts, old(View()), WindowAnswered)
    {
      missCount := 0;
      phase := Idle;
    }

    method OnWindowExpired()
      requires Enabled(opts, View(), WindowExpired)
      modifies this
      ensures View() == Step(opts, old(View()), WindowExpired)
    {
      var attempt := phase.attempt;
      now := phase.start + opts.pingTimeout;
      raced := raced || phase.heard;
      missCount := missCount + 1;
      if missCount >= opts.maxMissed {
        phase := Dead;
        return;
      }
      if attempt + 1 < opts.maxMissed + 1 {
        phase := Window(now, attempt + 1, false);
      } else if now - lastInbound < opts.interval {
        phase := Idle;
      } else {
        phase := Window(now, 0, false);
      }
    }
  }

  // ----- Runs -----

  ghost function Exec(o: Options, m: Monitor, events: seq<Event>): Monitor {
    if events == [] then m else Step(o, Exec(o, m, events[..|events| - 1]), events[|events| - 1])
  }

  ghost predicate Legal(o: Options, m: Monitor, events: seq<Event>) {
    events != [] ==>
      && Legal(o, m, events[..|events| - 1])
      && Enabled(o, Exec(o, m, events[..|events| - 1]), events[|events| - 1])
  }

  lemma OneMore(o: Options, m: Monitor, events: seq<Event>, e: Event)
    ensures Exec(o, m, events + [e]) == Step(o, Exec(o, m, events), e)
    ensures Legal(o, m, events + [e]) <==> Legal(o, m, events) && Enabled(o, Exec(o, m, events), e)
  {
    assert (events + [e])[..|events|] == events;
  }

  /** Silence counted so far, as a time. */
  ghost function Silence(o: Options, windows: int): real {
    windows as real * o.pingTimeout
  }

  lemma SilenceStep(o: Options, windows: int)
    ensures Silence(o, windows + 1) == Silence(o, windows) + o.pingTimeout
    ensures Silence(o, 0) == 0.0
  {}

  lemma SilenceMonotone(o: Options, m: int, n: int)
    requires Sane(o) && m <= n
    ensures Silence(o, m) <= Silence(o, n)
  {
    var d := (n - m) as real;
    assert 0.0 <= d * o.pingTimeout;
    assert n as real == m as real + d;
  }

  /** Bounds on how long the link had been silent when a window starts (or death is declared):
      exactly the interval plus the windows counted, unless the count began in a raced window. */
  ghost predicate SilentFor(o: Options, m: Monitor, at: real) {
    if m.raced
    then 1 <= m.miss
         && m.lastInbound + Silence(o, m.miss - 1) <= at <= m.lastInbound + o.interval + Silence(o, m.miss - 1)
    else at == m.lastInbound + o.interval + Silence(o, m.miss)
  }

  ghost predicate Inv(o: Options, m: Monitor) {
    && m.lastInbound <= m.now
    && match m.phase
       case Idle =>
         && m.now <= m.lastInbound + o.interval
         && (if m.raced then 1 <= m.miss < Max1(o.maxMissed) && Silence(o, m.miss - 1) <= o.interval
             else m.miss == 0)
       case Window(start, attempt, heard) =>
         && m.miss < Max1(o.maxMissed)
         && start <= m.now <= start + o.pingTimeout
         && attempt <= o.maxMissed
         && (if heard then m.miss == 0 && !m.raced && m.lastInbound == m.now
             else SilentFor(o, m, start) && (!m.raced ==> attempt == m.miss))
       case Dead =>
         && m.miss == Max1(o.maxMissed)
         && SilentFor(o, m, m.now)
  }

  lemma StepKeepsInv(o: Options, m: Monitor, e: Event)
    requires Sane(o) && Inv(o, m) && Enabled(o, m, e)
    ensures Inv(o, Step(o, m, e))
  {
    SilenceStep(o, m.miss);
    SilenceStep(o, m.miss - 1);
    if 1 <= m.miss {
      SilenceMonotone(o, 0, m.miss - 1);
    }
    SilenceMonotone(o, 0, m.miss);
  }

  lemma {:induction false} RunKeepsInv(o: Options, start: real, events: seq<Event>)
    requires Sane(o) && Legal(o, Start(start), events)
    ensures Inv(o, Exec(o, Start(start), events))
  {
    if events == [] {
      SilenceStep(o, 0);
    } else {
      RunKeepsInv(o, start, events[..|events| - 1]);
      StepKeepsInv(o, Exec(o, Start(start), events[..|events| - 1]), events[|events| - 1]);
    }
  }

  /** The events that close a run of ping timeouts with nothing in between. */
  ghost function TrailingTimeouts(events: seq<Event>): nat {
    if events == [] || !events[|events| - 1].WindowExpired? then 0
    else TrailingTimeouts(events[..|events| - 1]) + 1
  }

  /** Without a race, the misses counted are exactly the ping timeouts since the last frame, back to back. */
  lemma {:induction false} MissesAreConsecutive(o: Options, start: real, events: seq<Event>)
    requires Sane(o) && Legal(o, Start(start), events)
    ensures var m := Exec(o, Start(start), events);
            !m.raced ==> m.miss == 0 || m.miss == TrailingTimeouts(events)
  {
    if events != [] {
      var before := events[..|events| - 1];
      MissesAreConsecutive(o, start, before);
      RunKeepsInv(o, start, before);
      FirstMissAfterOtherEvent(o, start, before);
    }
  }

  /** A window that counts no miss yet was not opened by a timeout. */
  lemma {:induction false} FirstMissAfterOtherEvent(o: Options, start: real, events: seq<Event>)
    requires Sane(o) && Legal(o, Start(start), events)
    ensures var m := Exec(o, Start(start), events);
            m.miss == 0 ==> TrailingTimeouts(events) == 0
  {}

  /** A death is declared after max(1, max_missed_pings) ping windows in a row without a frame, at exactly
      the interval plus those windows after the last frame. Only when the first counted timeout raced
      with an arriving frame can it come earlier, and then by at most the interval and that one window. */
  lemma DeathIsJustified(o: Options, start: real, events: seq<Event>)
    requires Sane(o) && Legal(o, Start(start), events)
    requires Exec(o, Start(start), events).phase.Dead?
    ensures var m := Exec(o, Start(start), events);
            var n := Max1(o.maxMissed);
            if m.raced
            then m.lastInbound + Silence(o, n - 1) <= m.now <= m.lastInbound + o.interval + Silence(o, n - 1)
            else m.now == m.lastInbound + o.interval + Silence(o, n) && TrailingTimeouts(events) == n
  {
    RunKeepsInv(o, start, events);
    MissesAreConsecutive(o, start, events);
  }

  /** A silent link cannot outlive the interval plus max(1, max_missed_pings) ping windows. */
  lemma SilenceIsDetected(o: Options, start: real, events: seq<Event>)
    requires Sane(o) && Legal(o, Start(start), events)
    ensures var m := Exec(o, Start(start), events);
            m.now <= m.lastInbound + o.interval + Silence(o, Max1(o.maxMissed))
    ensures var m := Exec(o, Start(start), events);
            !m.phase.Dead? ==> Deadline(o, m) <= m.lastInbound + o.interval + Silence(o, Max1(o.maxMissed))
  {
    var m := Exec(o, Start(start), events);
    RunKeepsInv(o, start, events);
    SilenceStep(o, m.miss);
    SilenceStep(o, m.miss - 1);
    SilenceMonotone(o, 0, Max1(o.maxMissed));
    if m.miss < Max1(o.maxMissed) {
      SilenceMonotone(o, m.miss + 1, Max1(o.maxMissed));
    }
  }

  /** The loop is never stuck: until death some event is possible at the deadline. */
  lemma AlwaysMoves(o: Options, start: real, events: seq<Event>)
    requires Sane(o) && Legal(o, Start(start), events)
    ensures var m := Exec(o, Start(start), events);
            !m.phase.Dead? ==> Enabled(o, m, IdleExpired) || Enabled(o, m, WindowAnswered)
                               || Enabled(o, m, WindowExpired)
  {}

  /** The race is real: with one allowed miss, a link can be declared dead at the very instant a frame
      arrived. */
  lemma RaceKillsLiveLink(o: Options, start: real)
    requires Sane(o) && o.maxMissed == 1
    ensures var events := [IdleExpired, Inbound(start + o.interval + o.pingTimeout), WindowExpired];
            && Legal(o, Start(start), events)
            && var m := Exec(o, Start(start), events);
               m.phase.Dead? && m.now == m.lastInbound
  {
    var t := start + o.interval + o.pingTimeout;
    OneMore(o, Start(start), [], IdleExpired);
    OneMore(o, Start(start), [IdleExpired], Inbound(t));
    OneMore(o, Start(start), [IdleExpired, Inbound(t)], WindowExpired);
    assert [] + [IdleExpired] == [IdleExpired];
  }
}
