/** Reconnect attempts over every run. */
module SessionAttempts {
  import opened Flows
  import opened Chronicles
  import opened Streams
  import opened Sessions
  import opened SessionInvariant
  import opened SessionSteps
  import opened SessionHistory
  import opened SessionCounts
  import opened SessionRuns

  // ----- The limit -----

  /** With a limit M the attempt counter never exceeds M, nor does any sleeping timer aim past it. */
  lemma NeverPastTheLimit(opts: Opts, states: seq<Session>, events: seq<Event>, k: nat)
    requires Run(opts, states, events) && k < |states| && 0 <= opts.maxAttempts
    ensures states[k].attempt <= opts.maxAttempts
    ensures forall i :: i in states[k].tasks.timers ==> 1 <= states[k].tasks.timers[i] <= opts.maxAttempts
  {
    RunInv(opts, states, events, k);
    SameOpts(opts, states, events, k);
    hide Books, Awaited, AllHeld, AllSettled, Phases, ReplayTracked, WireOk, BarrierOk;
  }

  lemma {:induction false} SameOpts(opts: Opts, states: seq<Session>, events: seq<Event>, k: nat)
    requires Run(opts, states, events) && k < |states|
    ensures states[k].opts == opts
  {
    hide Inv, Step, Enabled, Later;
    if k > 0 {
      SameOpts(opts, states, events, k - 1);
      RunInv(opts, states, events, k - 1);
      StepCounts(states[k - 1], events[k - 1]);
    }
  }

  /** Once the last attempt has been made, no step sets a timer: the only way on is READY or an end. */
  lemma NoTimerAfterTheLast(opts: Opts, states: seq<Session>, events: seq<Event>, k: nat)
    requires Run(opts, states, events) && k < |events| && states[k].attempt == opts.maxAttempts
    ensures forall i :: i in states[k + 1].tasks.timers ==> i in states[k].tasks.timers
  {
    hide Inv, Later, Enabled;
    RunInv(opts, states, events, k);
    NeverPastTheLimit(opts, states, events, k + 1);
    if !events[k].TimerFired? {
      StepTimed(states[k], events[k]);
    }
  }

  /** Losing the connection after the last attempt creates the task that aborts, and nothing else. */
  lemma LastLossAborts(s: Session, cat: Category)
    requires Inv(s) && !Terminal(s) && s.est.NoEst? && !ReplayOut(s.table)
    ensures var s' := OnTransportClose(s, cat);
            if s.attempt == s.opts.maxAttempts then s'.tasks == s.tasks.(aborts := s.tasks.aborts + 1)
            else |s'.tasks.timers| == |s.tasks.timers| + 1 && s'.tasks.aborts == s.tasks.aborts
  {
    hide Books, Awaited, AllHeld, AllSettled, Phases, ReplayTracked, WireOk, BarrierOk, LeaveUpTo, Flush, Pause, ReplayOut, Archived;
    assert s.tasks.nextTask !in s.tasks.timers;
    LeaveUpToKeeps(LoseConnection(s, cat), s.table.inflight, s.table.nextRid);
  }

  // ----- One failed round, one attempt -----

  /** No step ever leaves two timers sleeping, and the session has not ended. */
  ghost predicate OneTimerEach(states: seq<Session>) {
    forall i :: 0 <= i < |states| ==> |states[i].tasks.timers| <= 1 && !Terminal(states[i])
  }

  /** The timers sleep between connections and are for the attempt after the current one. */
  ghost predicate NextAttempt(s: Session) {
    && (forall i :: i in s.tasks.timers ==> s.tasks.timers[i] == s.attempt + 1)
    && (s.tasks.timers != map[] ==> s.state.TransientFailure?)
  }

  lemma OnlyOne(timers: map<nat, nat>, task: nat)
    requires |timers| <= 1 && task in timers
    ensures timers - {task} == map[]
  {
    assert |timers.Keys - {task}| == |timers.Keys| - 1;
    assert (timers - {task}).Keys == timers.Keys - {task};
  }

  /** Between connections nothing is awaited and nothing asked. */
  lemma NothingAwaited(s: Session)
    requires Inv(s) && s.state.TransientFailure?
    ensures s.table.inflight == map[] && s.table.asked == map[]
  {
    hide Books, Awaited, AllHeld, AllSettled, ReplayTracked, WireOk, BarrierOk, Limited, Archived;
  }

  /** TRANSIENT_FAILURE is left only when a timer attempts, or for good. */
  lemma OnlyTimersAttempt(s: Session, e: Event)
    requires Inv(s) && Enabled(s, e) && s.state.TransientFailure? && !Attempts(s, e)
    ensures GoneDown(Step(s, e))
  {
    hide Inv, Later, Timed;
    NothingAwaited(s);
    if Uneventful(e) {
      hide Step, Enabled;
      UneventfulQuiet(s, e);
    } else if e.Closed? {
      UserCloseCounts(s);
    }
  }

  lemma TimerNextAttempt(s: Session, task: nat)
    requires Enabled(s, TimerFired(task)) && NextAttempt(s) && |s.tasks.timers| <= 1 && !Terminal(s)
    ensures var s' := Step(s, TimerFired(task));
            NextAttempt(s') && s'.attempt == s.attempt + 1 && s'.tasks.timers == map[]
  {
    OnlyOne(s.tasks.timers, task);
  }

  lemma OtherNextAttempt(s: Session, s': Session)
    requires NextAttempt(s) && CountsRight(s, s') && !Terminal(s')
    requires Timed(s.attempt, s.tasks.timers, s'.tasks.timers, GoneDown(s'))
    requires s.state.TransientFailure? ==> GoneDown(s')
    ensures NextAttempt(s')
  {
    if s'.tasks.timers != map[] {
      var i :| i in s'.tasks.timers;
      assert s'.state.TransientFailure?;
    }
  }

  lemma NextAttemptKept(s: Session, e: Event)
    requires Inv(s) && Enabled(s, e) && NextAttempt(s)
    requires |s.tasks.timers| <= 1 && !Terminal(s) && !Terminal(Step(s, e))
    ensures NextAttempt(Step(s, e))
    ensures Attempts(s, e) ==> Step(s, e).attempt == s.attempt + 1 && Step(s, e).tasks.timers == map[]
  {
    hide Inv, Later, Step, Enabled, NextAttempt, Timed, CountsRight;
    if e.TimerFired? {
      TimerNextAttempt(s, e.task);
    } else {
      StepTimed(s, e);
      StepCounts(s, e);
      if s.state.TransientFailure? {
        OnlyTimersAttempt(s, e);
      }
      OtherNextAttempt(s, Step(s, e));
    }
  }

  /** In a run in which no two timers ever sleep together, every attempt raises the counter by exactly one:
      since the last READY it counts the failed rounds. */
  lemma {:induction false} AttemptsCountRounds(opts: Opts, states: seq<Session>, events: seq<Event>, k: nat)
    requires Run(opts, states, events) && k < |states| && OneTimerEach(states)
    ensures NextAttempt(states[k])
    ensures k < |events| && Attempts(states[k], events[k]) ==> states[k + 1].attempt == states[k].attempt + 1
  {
    hide Inv, Step, Enabled, NextAttempt;
    assert |states[k].tasks.timers| <= 1 && !Terminal(states[k]);
    if k > 0 {
      AttemptsCountRounds(opts, states, events, k - 1);
      RunInv(opts, states, events, k - 1);
      NextAttemptKept(states[k - 1], events[k - 1]);
    } else {
      NoTimersYet(opts);
    }
    if k < |events| {
      assert !Terminal(states[k + 1]);
      RunInv(opts, states, events, k);
      NextAttemptKept(states[k], events[k]);
    }
  }

  lemma NoTimersYet(opts: Opts)
    ensures NextAttempt(Init(opts)) && Init(opts).tasks.timers == map[]
  {}

  // ----- Stale timers -----

  /** The timer was set in step `j`, for the attempt after the one counted then, and has slept since. */
  ghost predicate SetAt(states: seq<Session>, task: nat, j: nat, k: nat) {
    && j < k < |states|
    && forall i :: j < i <= k ==> task in states[i].tasks.timers && states[i].tasks.timers[task] == states[j].attempt + 1
  }

  lemma TimersKept(s: Session, e: Event)
    requires Inv(s) && Enabled(s, e)
    ensures Timed(s.attempt, s.tasks.timers, Step(s, e).tasks.timers, true)
  {
    hide Inv, Later;
    if !e.TimerFired? {
      hide Step, Enabled;
      StepTimed(s, e);
    }
  }

  lemma {:induction false} EveryTimerWasSet(opts: Opts, states: seq<Session>, events: seq<Event>, k: nat, task: nat) returns (j: nat)
    requires Run(opts, states, events) && k < |states| && task in states[k].tasks.timers
    ensures SetAt(states, task, j, k)
  {
    hide Inv, Enabled, Step;
    if k == 0 {
      NoTimersYet(opts);
      assert false;
    }
    RunInv(opts, states, events, k - 1);
    TimersKept(states[k - 1], events[k - 1]);
    var before := states[k - 1].tasks.timers;
    if task in before && before[task] == states[k].tasks.timers[task] {
      j := EveryTimerWasSet(opts, states, events, k - 1, task);
    } else {
      j := k - 1;
    }
  }

  /** An attempt raises the counter by one exactly if the counter has not moved since its timer was set. */
  lemma RaisesByOneIff(opts: Opts, states: seq<Session>, events: seq<Event>, k: nat) returns (j: nat)
    requires Run(opts, states, events) && k < |events| && Attempts(states[k], events[k])
    ensures SetAt(states, events[k].task, j, k)
    ensures states[k + 1].attempt == states[k].attempt + 1 <==> states[j].attempt == states[k].attempt
  {
    j := EveryTimerWasSet(opts, states, events, k, events[k].task);
  }

  // ----- What the limit bounds -----

  /** The attempts made since the last announced reconnect, or since the start. */
  ghost function MadeSince(states: seq<Session>, events: seq<Event>): nat
    requires |states| == |events| + 1
  {
    if events == [] then 0
    else
      var n := |events| - 1;
      if Announced(states[n], states[n + 1]) then 0
      else MadeSince(states[..n + 1], events[..n]) + (if Attempts(states[n], events[n]) then 1 else 0)
  }

  /** A timer that attempts is the one for the next attempt, not a stale one. */
  predicate Current(s: Session, e: Event) {
    Attempts(s, e) ==> e.task in s.tasks.timers && s.tasks.timers[e.task] == s.attempt + 1
  }

  ghost predicate AllCurrent(states: seq<Session>, events: seq<Event>) {
    |states| == |events| + 1 && forall k :: 0 <= k < |events| ==> Current(states[k], events[k])
  }

  /** The counter is the number of attempts made, all along. */
  ghost predicate CountsAttempts(states: seq<Session>, events: seq<Event>) {
    |states| == |events| + 1 && forall k :: 0 <= k <= |events| ==> MadeSince(states[..k + 1], events[..k]) == states[k].attempt
  }

  lemma MadeOneMore(states: seq<Session>, events: seq<Event>, k: nat)
    requires |states| == |events| + 1 && k < |events|
    ensures MadeSince(states[..k + 2], events[..k + 1]) ==
              if Announced(states[k], states[k + 1]) then 0
              else MadeSince(states[..k + 1], events[..k]) + (if Attempts(states[k], events[k]) then 1 else 0)
  {
    assert states[..k + 2][..k + 1] == states[..k + 1] && events[..k + 1][..k] == events[..k];
  }

  /** One step: if the counter was right before it, it is right after it exactly if the timer was current. */
  lemma CountsOnExactlyIfCurrent(opts: Opts, states: seq<Session>, events: seq<Event>, k: nat)
    requires Run(opts, states, events) && k < |events|
    requires MadeSince(states[..k + 1], events[..k]) == states[k].attempt
    ensures MadeSince(states[..k + 2], events[..k + 1]) == states[k + 1].attempt <==> Current(states[k], events[k])
  {
    RunInv(opts, states, events, k);
    StepCounts(states[k], events[k]);
    MadeOneMore(states, events, k);
    if Attempts(states[k], events[k]) {
      assert Enabled(states[k], events[k]);
    }
    hide Inv, Step, Later, Rolls;
  }

  lemma {:induction false} CountsWhileCurrent(opts: Opts, states: seq<Session>, events: seq<Event>, k: nat)
    requires Run(opts, states, events) && AllCurrent(states, events) && k <= |events|
    ensures MadeSince(states[..k + 1], events[..k]) == states[k].attempt
  {
    hide Run, MadeSince, Current;
    if k > 0 {
      CountsWhileCurrent(opts, states, events, k - 1);
      CountsOnExactlyIfCurrent(opts, states, events, k - 1);
    } else {
      NothingMade(opts, states, events);
    }
  }

  lemma NothingMade(opts: Opts, states: seq<Session>, events: seq<Event>)
    requires Run(opts, states, events)
    ensures MadeSince(states[..1], events[..0]) == states[0].attempt
  {}

  /** All along a run the counter is the number of attempts made since the last announced reconnect if and
      only if no stale timer ever attempts. */
  lemma CountsAttemptsIff(opts: Opts, states: seq<Session>, events: seq<Event>)
    requires Run(opts, states, events)
    ensures CountsAttempts(states, events) <==> AllCurrent(states, events)
  {
    hide MadeSince, Current, Step, Enabled;
    if AllCurrent(states, events) {
      forall k | 0 <= k <= |events|
        ensures MadeSince(states[..k + 1], events[..k]) == states[k].attempt
      {
        CountsWhileCurrent(opts, states, events, k);
      }
    }
    if CountsAttempts(states, events) {
      forall k | 0 <= k < |events|
        ensures Current(states[k], events[k])
      {
        CountsOnExactlyIfCurrent(opts, states, events, k);
      }
    }
  }

  /** So with a limit M and no stale timer, at most M attempts follow each other without a reconnect. */
  lemma LimitBoundsAttempts(opts: Opts, states: seq<Session>, events: seq<Event>)
    requires Run(opts, states, events) && AllCurrent(states, events) && 0 <= opts.maxAttempts
    ensures MadeSince(states, events) == states[|events|].attempt <= opts.maxAttempts
  {
    hide MadeSince, Current, Step, Enabled;
    CountsWhileCurrent(opts, states, events, |events|);
    NeverPastTheLimit(opts, states, events, |events|);
    assert states[..|events| + 1] == states && events[..|events|] == events;
  }

  /** In particular where no two timers ever sleep together. */
  lemma OneTimerIsCurrent(opts: Opts, states: seq<Session>, events: seq<Event>)
    requires Run(opts, states, events) && OneTimerEach(states)
    ensures AllCurrent(states, events)
  {
    forall k | 0 <= k < |events|
      ensures Current(states[k], events[k])
    {
      AttemptsCountRounds(opts, states, events, k);
      if Attempts(states[k], events[k]) {
        assert Enabled(states[k], events[k]);
      }
      hide Step, Inv;
    }
  }
}
