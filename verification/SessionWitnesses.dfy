/** Runs that show what the engine does not promise. */
module SessionWitnesses {
  import opened Flows
  import opened Chronicles
  import opened Streams
  import opened Sessions
  import opened SessionCounts
  import opened SessionRuns
  import opened SessionAttempts
  import opened SessionInvariant
  import opened SessionProgress
  import opened SessionTermination
  import opened SessionEndings

  const ConnectSucceeds := ConnectOver(true, TransientError, true, true)
  const ConnectFails := ConnectOver(false, TransientError, false, false)

  /** A session between connections with nobody subscribed, nothing awaited, and the given timers. */
  ghost predicate Waits(s: Session, opts: Opts, attempt: nat, timers: map<nat, nat>, nextTask: nat) {
    && s.state.TransientFailure? && s.opts == opts && s.attempt == attempt
    && s.table.inflight == map[] && s.subs == map[] && s.est.NoEst?
    && s.tasks.timers == timers && s.tasks.nextTask == nextTask && s.tasks.reconnectTask + 1 == nextTask && s.tasks.aborts == 0
    && !s.tasks.replayQueued
  }

  ghost predicate NeverReady(states: seq<Session>) {
    forall i :: 0 <= i < |states| ==> !states[i].state.Ready?
  }

  /** One more step. */
  lemma Longer(opts: Opts, states: seq<Session>, events: seq<Event>, e: Event)
    returns (states': seq<Session>, events': seq<Event>)
    requires Run(opts, states, events) && NeverReady(states)
    requires Enabled(states[|events|], e) && !Step(states[|events|], e).state.Ready?
    ensures Run(opts, states', events') && NeverReady(states') && |events'| == |events| + 1
    ensures states' == states + [Step(states[|events|], e)] && events' == events + [e]
    ensures MadeSince(states', events') == MadeSince(states, events) + (if Attempts(states[|events|], e) then 1 else 0)
  {
    hide Step, Enabled, MadeSince, Announced, Attempts;
    states', events' := states + [Step(states[|events|], e)], events + [e];
    MadeByOneMore(states, events, Step(states[|events|], e), e);
  }

  /** One more step that does not reach READY. */
  lemma MadeByOneMore(states: seq<Session>, events: seq<Event>, s: Session, e: Event)
    requires |states| == |events| + 1 && !s.state.Ready?
    ensures MadeSince(states + [s], events + [e]) == MadeSince(states, events) + (if Attempts(states[|events|], e) then 1 else 0)
  {
    assert (states + [s])[..|events| + 1] == states && (events + [e])[..|events|] == events;
  }

  /** The handshake is on its way. */
  lemma HandshakeOut(opts: Opts)
    ensures var s1 := Step(Init(opts), Connect);
            var s2 := Step(s1, ConnectOver(true, TransientError, true, true));
            && s1 == Init(opts).(state := Connecting, est := AtConnect(false, 0))
            && s2 == s1.(est := AtHandshake(false, 0, 1), open := true, wire := s2.wire,
                         table := Table(2, map[1 := Handshake], map[], {}, map[]))
  {}

  lemma {:induction false} NobodyLeaves(s: Session, calls: map<nat, Rpc>, n: nat)
    requires forall r :: r in calls ==> !calls[r].Unsubscribing?
    ensures LeaveUpTo(s, calls, n) == s
  {
    if n > 0 {
      NobodyLeaves(s, calls, n - 1);
    }
  }

  /** Both the close handler and the failing handshake set a timer, each for the first attempt. */
  lemma TimersTwice(s: Session)
    requires s.state.Connecting? && s.opts.maxAttempts >= 1 && s.attempt == 0 && s.est == AtHandshake(false, 0, 1)
    requires s.table == Table(2, map[1 := Handshake], map[], {}, map[])
    requires s.subs == map[] && s.tasks == Tasks(map[], 0, 1, false, 0)
    ensures Waits(OnTransportClose(s, TransientError), s.opts, 0, map[1 := 1, 2 := 1], 3)
  {
    assert !ReplayOut(s.table);
    NobodyLeaves(LoseConnection(s, TransientError), s.table.inflight, s.table.nextRid);
    hide LeaveUpTo;
  }

  const ConnectionLost := TransportClosed(TransientError)

  lemma Interrupted(opts: Opts) returns (states: seq<Session>, events: seq<Event>)
    requires opts.maxAttempts >= 1
    ensures Run(opts, states, events) && NeverReady(states) && MadeSince(states, events) == 0
    ensures events == [Connect, ConnectSucceeds, ConnectionLost]
    ensures Waits(states[3], opts, 0, map[1 := 1, 2 := 1], 3)
  {
    hide OnTransportClose, Connected;
    HandshakeOut(opts);
    states, events := [Init(opts)], [];
    states, events := Longer(opts, states, events, Connect);
    states, events := Longer(opts, states, events, ConnectSucceeds);
    TimersTwice(states[|events|]);
    states, events := Longer(opts, states, events, ConnectionLost);
  }

  /** A timer fires and the connect is refused. */
  lemma FailedRound(opts: Opts, states: seq<Session>, events: seq<Event>, attempt: nat, timers: map<nat, nat>, nextTask: nat, task: nat)
    returns (states': seq<Session>, events': seq<Event>)
    requires Run(opts, states, events) && NeverReady(states) && Waits(states[|events|], opts, attempt, timers, nextTask)
    requires task in timers && timers[task] < opts.maxAttempts
    ensures Run(opts, states', events') && NeverReady(states')
    ensures Waits(states'[|events'|], opts, timers[task], (timers - {task})[nextTask := timers[task] + 1], nextTask + 1)
    ensures MadeSince(states', events') == MadeSince(states, events) + 1
  {
    hide Step, Enabled, Attempts, MadeSince, Waits;
    RoundFails(states[|events|], opts, attempt, timers, nextTask, task);
    states', events' := Longer(opts, states, events, TimerFired(task));
    states', events' := Longer(opts, states', events', ConnectFails);
  }

  lemma RoundFails(s: Session, opts: Opts, attempt: nat, timers: map<nat, nat>, nextTask: nat, task: nat)
    requires Waits(s, opts, attempt, timers, nextTask) && task in timers && timers[task] < opts.maxAttempts
    ensures Enabled(s, TimerFired(task)) && Attempts(s, TimerFired(task))
    ensures var s1 := Step(s, TimerFired(task));
            && !s1.state.Ready? && Enabled(s1, ConnectFails) && !Attempts(s1, ConnectFails)
            && var s2 := Step(s1, ConnectFails);
               !s2.state.Ready? && Waits(s2, opts, timers[task], (timers - {task})[nextTask := timers[task] + 1], nextTask + 1)
  {
    hide Abort;
  }

  /** The latest timer fires, round after round, until no attempt is left. */
  lemma {:induction false} UpToTheLimit(opts: Opts, states: seq<Session>, events: seq<Event>, attempt: nat, timers: map<nat, nat>, nextTask: nat)
    returns (states': seq<Session>, events': seq<Event>)
    requires Run(opts, states, events) && NeverReady(states) && Waits(states[|events|], opts, attempt, timers, nextTask)
    requires nextTask > 0 && nextTask - 1 in timers && timers[nextTask - 1] == attempt + 1 <= opts.maxAttempts
    ensures Run(opts, states', events') && NeverReady(states')
    ensures MadeSince(states', events') == MadeSince(states, events) + opts.maxAttempts - attempt
    decreases opts.maxAttempts - attempt
  {
    hide Run, NeverReady, MadeSince;
    var task := nextTask - 1;
    if attempt + 1 < opts.maxAttempts {
      states', events' := FailedRound(opts, states, events, attempt, timers, nextTask, task);
      states', events' := UpToTheLimit(opts, states', events', attempt + 1, (timers - {task})[nextTask := attempt + 2], nextTask + 1);
    } else {
      states', events' := Longer(opts, states, events, TimerFired(task));
    }
  }

  lemma BothTimersFire(s: Session)
    requires Waits(s, s.opts, 0, map[1 := 1, 2 := 1], 3) && s.opts.maxAttempts == 1
    ensures var s1 := Step(s, TimerFired(2));
            && Enabled(s, TimerFired(2)) && Attempts(s, TimerFired(2)) && s1.state.Reconnecting? && s1.est.AtConnect?
            && var s2 := Step(s1, ConnectFails);
               && Enabled(s1, ConnectFails) && !Attempts(s1, ConnectFails) && s2.state.TransientFailure?
               && var s3 := Step(s2, TimerFired(1));
                  && Enabled(s2, TimerFired(1)) && Attempts(s2, TimerFired(1)) && s3.state.Reconnecting?
                  && s3.est == AtConnect(true, 1) && s3.tasks.reconnectTask == 2 && s3.tasks.aborts == 1
  {
    hide Abort;
  }

  /** With a limit of one: the only attempt allowed fails, and the other timer attempts again before the abort
      has run. */
  lemma OnceTooOften(opts: Opts) returns (states: seq<Session>, events: seq<Event>)
    requires opts.maxAttempts == 1
    ensures Run(opts, states, events) && NeverReady(states) && MadeSince(states, events) == 2
    ensures events == [Connect, ConnectSucceeds, ConnectionLost, TimerFired(2), ConnectFails, TimerFired(1)]
    ensures states[6].est == AtConnect(true, 1) && states[6].tasks.reconnectTask == 2 && states[6].tasks.aborts == 1
  {
    hide Step, Enabled, NeverReady, MadeSince;
    states, events := Interrupted(opts);
    BothTimersFire(states[3]);
    states, events := Longer(opts, states, events, TimerFired(2));
    states, events := Longer(opts, states, events, ConnectFails);
    states, events := Longer(opts, states, events, TimerFired(1));
  }

  /** Whatever the limit, if it allows any attempt at all, one attempt more than it allows can be made, and
      none of them reaches READY. */
  lemma MoreAttemptsThanAllowed(opts: Opts) returns (states: seq<Session>, events: seq<Event>)
    requires opts.maxAttempts >= 1
    ensures Run(opts, states, events) && NeverReady(states) && MadeSince(states, events) == opts.maxAttempts + 1
  {
    hide Run, NeverReady, MadeSince;
    if opts.maxAttempts == 1 {
      states, events := OnceTooOften(opts);
    } else {
      states, events := Interrupted(opts);
      states, events := FailedRound(opts, states, events, 0, map[1 := 1, 2 := 1], 3, 1);
      assert (map[1 := 1, 2 := 1] - {1})[3 := 2] == map[2 := 1, 3 := 2];
      states, events := FailedRound(opts, states, events, 1, map[2 := 1, 3 := 2], 4, 2);
      assert (map[2 := 1, 3 := 2] - {2})[4 := 2] == map[3 := 2, 4 := 2];
      states, events := UpToTheLimit(opts, states, events, 1, map[3 := 2, 4 := 2], 5);
    }
  }

  /** A limit of zero allows none. */
  lemma {:induction false} NoAttemptAtAll(opts: Opts, states: seq<Session>, events: seq<Event>)
    requires Run(opts, states, events) && opts.maxAttempts == 0
    ensures MadeSince(states, events) == 0
  {
    hide Step;
    if events != [] {
      var n := |events| - 1;
      Shorter(states, events);
      NoAttemptAtAll(opts, states[..n + 1], events[..n]);
      NeverPastTheLimit(opts, states, events, n);
      assert !Attempts(states[n], events[n]);
    }
  }

  /** So the limit can be exceeded exactly if it is not zero. */
  lemma LimitExceededIff(opts: Opts)
    requires 0 <= opts.maxAttempts
    ensures opts.maxAttempts >= 1 <==>
            exists states: seq<Session>, events: seq<Event> :: Run(opts, states, events) && MadeSince(states, events) > opts.maxAttempts
  {
    hide MadeSince, Step, Enabled;
    if opts.maxAttempts >= 1 {
      var states, events := MoreAttemptsThanAllowed(opts);
    }
    forall states: seq<Session>, events: seq<Event> | Run(opts, states, events) && MadeSince(states, events) > opts.maxAttempts
      ensures opts.maxAttempts >= 1
    {
      if opts.maxAttempts == 0 {
        NoAttemptAtAll(opts, states, events);
      }
    }
  }

  /** The first connect is refused; no attempt is left. */
  lemma RefusedAtOnce(opts: Opts)
    requires opts.maxAttempts == 0
    ensures var s1 := Step(Init(opts), Connect);
            && s1.est.AtConnect? && s1.state.Connecting?
            && var s2 := Step(s1, ConnectFails);
               s2 == s1.(est := NoEst, state := TransientFailure, tasks := s1.tasks.(aborts := 1))
               && s2.table == Init(opts).table
  {}

  lemma ClosedAndAborted(s: Session)
    requires s.state.TransientFailure? && s.est.NoEst? && s.tasks.aborts == 1 && s.table.inflight == map[]
    ensures var s1 := Step(s, Event.Closed);
            && s1.state.Shutdown? && s1.tasks.aborts == 1
            && Step(s1, AbortStarted).state.Fatal?
  {
    hide CloseBody, AbortBody, Wake, Flush;
    var s1 := CloseBody(s);
    BodiesEnd(s, LocalError);
    WakeTerminal(s1, s.table, LocalError);
    var s2 := UserClose(s);
    var s3 := s2.(tasks := s2.tasks.(aborts := 0));
    BodiesEnd(s3, TransientError);
    WakeTerminal(AbortBody(s3, TransientError), s3.table, TransientError);
  }

  /** With a limit of zero and no `_establish` suspended, `close()` is overtaken by the abort that the failed
      first connect had queued: SHUTDOWN is left for FATAL. */
  lemma ShutdownOvertaken(opts: Opts) returns (states: seq<Session>, events: seq<Event>)
    requires opts.maxAttempts == 0
    ensures Run(opts, states, events) && events == [Connect, ConnectFails, Event.Closed, AbortStarted]
    ensures states[2].est.NoEst? && states[3].state.Shutdown? && states[4].state.Fatal?
  {
    hide Step;
    RefusedAtOnce(opts);
    states, events := [Init(opts)], [];
    states, events := Longer(opts, states, events, Connect);
    states, events := Longer(opts, states, events, ConnectFails);
    ClosedAndAborted(states[2]);
    states, events := Longer(opts, states, events, Event.Closed);
    states, events := Longer(opts, states, events, AbortStarted);
  }

  // ----- A stalled round -----

  /** A session with one slot, never active and not asked, and no call in flight. */
  ghost predicate OneSlot(s: Session, t: Topic) {
    && s.subs.Keys == {t} && s.subs[t].state.Pending? && s.subs[t].inflightId == 0 && s.subs[t].semantics.Telemetry?
    && s.table.inflight == map[] && s.table.asked == map[] && s.table.nextRid == 1
    && !s.engaged && !s.tasks.replayQueued
  }

  lemma FirstSlot(opts: Opts, t: Topic)
    ensures var s := Step(Init(opts), Subscribed(t, SendOk));
            && OneSlot(s, t) && s.state.Idle? && s.tasks == Tasks(map[], 0, 1, false, 0) && s.attempt == 0 && s.opts == opts
  {}

  lemma FirstConnectFails(s: Session, t: Topic)
    requires OneSlot(s, t) && s.state.Idle? && s.tasks == Tasks(map[], 0, 1, false, 0) && s.attempt == 0 && s.opts.maxAttempts != 0
    ensures var s1 := Step(s, Connect);
            && s1.est.AtConnect? && s1.state.Connecting?
            && var s2 := Step(s1, ConnectFails);
               OneSlot(s2, t) && s2.state.TransientFailure? && s2.tasks.timers == map[1 := 1]
  {}

  lemma FirstTimer(s: Session, t: Topic)
    requires OneSlot(s, t) && s.state.TransientFailure? && s.tasks.timers == map[1 := 1]
    ensures var s' := Step(s, TimerFired(1));
            OneSlot(s', t) && s'.state.Reconnecting? && s'.est == AtConnect(true, 1)
  {}

  /** The first connect fails; a timer starts the reconnect. */
  lemma ReconnectWithOneSlot(opts: Opts, t: Topic) returns (states: seq<Session>, events: seq<Event>)
    requires opts.maxAttempts != 0
    ensures Run(opts, states, events) && NeverReady(states)
    ensures var s := states[|events|];
            OneSlot(s, t) && s.state.Reconnecting? && s.est == AtConnect(true, 1)
  {
    hide Step;
    states, events := [Init(opts)], [];
    FirstSlot(opts, t);
    states, events := Longer(opts, states, events, Subscribed(t, SendOk));
    FirstConnectFails(states[1], t);
    states, events := Longer(opts, states, events, Connect);
    states, events := Longer(opts, states, events, ConnectFails);
    FirstTimer(states[3], t);
    states, events := Longer(opts, states, events, TimerFired(1));
  }

  /** The connect succeeds and the handshake goes out. */
  lemma HandshakeWithOneSlot(s: Session, t: Topic)
    requires OneSlot(s, t) && s.state.Reconnecting? && s.est == AtConnect(true, 1)
    ensures var s' := Step(s, ConnectSucceeds);
            && s'.state.Reconnecting? && s'.est == AtHandshake(true, 1, 1) && s'.open && !s'.engaged && !s'.tasks.replayQueued
            && s'.subs == s.subs && s'.table.inflight == map[1 := Handshake] && s'.table.nextRid == 2
  {}

  function RoundOf(t: Topic): Event {
    RpcAnswered(1, true, LocalError, Plan(map[], [t], [SendOk]))
  }

  lemma AskOut(s: Session, t: Topic, since: nat)
    requires t in s.subs && s.open && s.state.Reconnecting? && s.table.nextRid > 0
    ensures var s' := SendSubscribe(s, t, since, SendOk);
            && s'.state == s.state && s'.est == s.est && s'.barrier == s.barrier && s'.tasks == s.tasks && s'.opts == s.opts
            && s'.subs.Keys == s.subs.Keys && s'.subs[t].inflightId != 0
  {
    hide OnTransportClose;
  }

  lemma AskOne(s: Session, t: Topic)
    requires t in s.subs && s.open && s.state.Reconnecting? && s.table.nextRid > 0
    ensures var s' := Resubscribe(s, [t], [SendOk]);
            && s'.state == s.state && s'.est == s.est && s'.barrier == s.barrier && s'.tasks == s.tasks && s'.opts == s.opts
            && s'.subs.Keys == s.subs.Keys && s'.subs[t].inflightId != 0
  {
    hide SendSubscribe, BeginRound;
    var slot := BeginRound(s.subs[t]);
    var s0 := s.(subs := s.subs[t := slot]);
    var since := SinceSeq(slot, s.opts.replayHistory);
    AskOut(s0, t, since);
    assert [t][1..] == [] && [SendOk][1..] == [];
    assert Resubscribe(s, [t], [SendOk]) == Resubscribe(SendSubscribe(s0, t, since, SendOk), [], []);
  }

  /** The handshake is accepted and the slot is asked. */
  lemma RoundOfOne(s: Session, t: Topic)
    requires s.state.Reconnecting? && s.est == AtHandshake(true, 1, 1) && s.open && !s.engaged
    requires s.subs.Keys == {t} && s.table.inflight == map[1 := Handshake] && s.table.nextRid == 2
    ensures Enabled(s, RoundOf(t))
    ensures var s' := Step(s, RoundOf(t));
            && Waiting(s') && s'.subs.Keys == {t} && s'.subs[t].inflightId != 0
            && s'.barrier.subsPending == 1 && !s'.barrier.estopPending && s'.opts == s.opts
  {
    var s0 := s.(table := Resolve(s.table, 1, Answered(1)));
    var s1 := SetBarrier(Learn(s0, map[]));
    var s2 := s1.(wire := s1.wire.(waited := true));
    assert s2.subs.Keys == {t} && |s2.subs| == |s2.subs.Keys| == 1;
    AskOne(s2, t);
    hide Resubscribe;
    assert Step(s, RoundOf(t)) == Established(s0, true, RoundOf(t).plan);
  }

  lemma WaitingForOne(opts: Opts, t: Topic) returns (states: seq<Session>, events: seq<Event>)
    requires opts.maxAttempts != 0
    ensures Run(opts, states, events) && NeverReady(states)
    ensures var s := states[|events|];
            && Waiting(s) && s.subs.Keys == {t} && s.subs[t].inflightId != 0
            && s.barrier.subsPending == 1 && !s.barrier.estopPending
  {
    hide Step;
    states, events := ReconnectWithOneSlot(opts, t);
    HandshakeWithOneSlot(states[|events|], t);
    states, events := Longer(opts, states, events, ConnectSucceeds);
    RoundOfOne(states[|events|], t);
    states, events := Longer(opts, states, events, RoundOf(t));
  }

  /** A reconnect can be stalled: its only slot is unsubscribed before it is answered, and no continuation
      of the round reaches READY. */
  lemma RoundStalled(opts: Opts, t: Topic) returns (states: seq<Session>, events: seq<Event>)
    requires opts.maxAttempts != 0
    ensures Run(opts, states, events) && Waiting(states[|events|])
    ensures !exists states': seq<Session>, events': seq<Event> ::
              WithinRound(states', events') && states'[0] == states[|events|] && states'[|events'|].state.Ready?
  {
    hide Inv, WithinRound, Step;
    states, events := WaitingForOne(opts, t);
    RunInv(opts, states, events, |events|);
    UnsubscribeStalls(states[|events|], t, true, true, true);
    states, events := Longer(opts, states, events, Unsubscribed(t, true, true, true));
  }
}
