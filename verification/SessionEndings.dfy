/** When SHUTDOWN and FATAL are final. */
module SessionEndings {
  import opened Flows
  import opened Chronicles
  import opened Streams
  import opened Sessions
  import opened SessionInvariant
  import opened SessionBarrier
  import opened SessionHistory
  import opened SessionCounts
  import opened SessionRuns
  import opened SessionAttempts

  /** A terminal session in which no coroutine is left that could take it anywhere. */
  ghost predicate Ended(s: Session) {
    && Terminal(s) && s.est.NoEst? && !s.open
    && s.table.inflight == map[] && s.table.asked == map[] && s.table.ackTimers == {}
    && !s.heartbeat
  }

  lemma DownEnded(s: Session)
    requires Down(s) && Terminal(s) && s.est.NoEst?
    ensures Ended(s)
  {
    hide AllHeld, AllSettled, WireLawful, Limited, Archived, NoneActive;
  }

  /** The only moves of an ended session. */
  ghost predicate EndMoves(s: Session, e: Event, s': Session) {
    || s'.state == s.state
    || (s.state.Fatal? && e.Closed? && s'.state.Shutdown?)
    || (s.state.Shutdown? && e.AbortStarted? && s'.state.Fatal? && s'.tasks.aborts < s.tasks.aborts)
  }

  /** A terminal session whose coroutines resume with an error: only a suspended handshake takes it anywhere. */
  lemma WakeTerminal(s: Session, before: Table, cat: Category)
    requires Terminal(s) && !cat.FatalError?
    requires s.est.AtHandshake? ==> s.est.rid in before.inflight
    ensures var s' := Wake(s, before, cat);
            if s.est.AtHandshake? then s'.state.TransientFailure?
            else && s'.state == s.state && s'.est == s.est && s'.open == s.open && s'.table == s.table
                 && s'.heartbeat == s.heartbeat && s'.tasks == s.tasks
  {
    hide LeaveUpTo, ReplayOut;
    LeaveUpToKeeps(s, before.inflight, before.nextRid);
  }

  lemma FlushEmpty(b: Table, cat: Category)
    ensures var b' := Flush(b, cat);
            b'.inflight == map[] && b'.asked == map[] && b'.ackTimers == {}
  {}

  /** What `close()` and the abort do before they wake anybody. */
  lemma BodiesEnd(s: Session, cat: Category)
    ensures var s1, s2 := AbortBody(s, cat), CloseBody(s);
            && s1.state.Fatal? && s2.state.Shutdown? && s1.est == s2.est
            && s1.est == (if EstSurvives(s) then s.est else NoEst)
            && !s1.open && !s2.open && !s1.heartbeat && !s2.heartbeat
            && s1.tasks.aborts == s.tasks.aborts && s2.tasks.aborts == s.tasks.aborts
            && s1.table == Flush(s.table, cat) && s2.table == Flush(s.table, LocalError)
  {
    hide Flush, RetireAll;
  }

  lemma AbortEnds(s: Session)
    requires Ended(s) && s.tasks.aborts > 0
    ensures var s' := Step(s, AbortStarted);
            Ended(s') && s'.state.Fatal? && s'.tasks.aborts == s.tasks.aborts - 1
  {
    hide Step, AbortBody, Wake, Flush;
    var s0 := s.(tasks := s.tasks.(aborts := s.tasks.aborts - 1));
    AbortIsStep(s);
    BodiesEnd(s0, TransientError);
    FlushEmpty(s.table, TransientError);
    WakeTerminal(AbortBody(s0, TransientError), s.table, TransientError);
  }

  lemma AbortIsStep(s: Session)
    requires s.tasks.aborts > 0
    ensures Step(s, AbortStarted) ==
              Wake(AbortBody(s.(tasks := s.tasks.(aborts := s.tasks.aborts - 1)), TransientError), s.table, TransientError)
  {
    hide AbortBody, Wake;
  }

  lemma CloseEnds(s: Session)
    requires Ended(s)
    ensures Ended(UserClose(s)) && UserClose(s).state.Shutdown? && UserClose(s).tasks.aborts == s.tasks.aborts
  {
    hide CloseBody, Wake, Flush;
    if !s.state.Shutdown? {
      BodiesEnd(s, LocalError);
      FlushEmpty(s.table, LocalError);
      WakeTerminal(CloseBody(s), s.table, LocalError);
    }
  }

  lemma ReplayEnds(s: Session, sendOk: bool)
    requires Ended(s)
    ensures var s' := StartReplay(s, sendOk);
            Ended(s') && s'.state == s.state && s'.tasks.aborts == s.tasks.aborts
  {}

  /** Timers, acknowledgements, replays and late closes that still fire change nothing: an ended session
      stays ended, FATAL is left only by `close()`, and SHUTDOWN only by an abort that was already queued. */
  lemma EndedStays(s: Session, e: Event)
    requires Ended(s) && Enabled(s, e)
    ensures Ended(Step(s, e)) && EndMoves(s, e, Step(s, e))
    ensures Step(s, e).tasks.aborts <= s.tasks.aborts
  {
    hide Abort, UserClose, StartReplay, Enumerates, Push, Work;
    match e {
      case AbortStarted => AbortEnds(s);
      case ReplayStarted(sendOk) => ReplayEnds(s, sendOk);
      case Closed => CloseEnds(s);
      case _ =>
    }
  }

  // ----- When `close()` is final -----

  /** A suspended `_establish` that cancelling `_reconnect_task` does not reach: the initial one, or one
      whose task has been replaced. */
  predicate EstSurvives(s: Session) {
    !s.est.NoEst? && !(s.est.reconnect && s.est.task == s.tasks.reconnectTask)
  }

  lemma HandshakeInFlight(s: Session)
    requires Inv(s) && s.est.AtHandshake?
    ensures s.est.rid in s.table.inflight
  {
    hide Books, AllHeld, AllSettled, WireOk, Limited, Archived, BarrierOk;
  }

  /** What `close()` leaves of a suspended `_establish`. */
  lemma CloseLeaves(s: Session)
    requires Inv(s) && !s.state.Shutdown?
    ensures var s' := UserClose(s);
            && (!EstSurvives(s) ==> s'.state.Shutdown? && Ended(s') && s'.tasks.aborts == s.tasks.aborts)
            && (EstSurvives(s) && s.est.AtConnect? ==> s'.state.Shutdown? && s'.est == s.est)
            && (EstSurvives(s) && s.est.AtHandshake? ==> s'.state.TransientFailure?)
  {
    hide Inv, CloseBody, Wake, Flush;
    if s.est.AtHandshake? {
      HandshakeInFlight(s);
    }
    BodiesEnd(s, LocalError);
    FlushEmpty(s.table, LocalError);
    WakeTerminal(CloseBody(s), s.table, LocalError);
  }

  /** What the abort leaves of it. */
  lemma AbortLeaves(s: Session)
    requires Inv(s) && s.tasks.aborts > 0
    ensures var s' := Step(s, AbortStarted);
            && (!EstSurvives(s) ==> s'.state.Fatal? && Ended(s'))
            && (EstSurvives(s) && s.est.AtConnect? ==> s'.state.Fatal? && s'.est == s.est)
            && (EstSurvives(s) && s.est.AtHandshake? ==> s'.state.TransientFailure?)
  {
    hide Inv, AbortBody, Wake, Flush;
    if s.est.AtHandshake? {
      HandshakeInFlight(s);
    }
    var s0 := s.(tasks := s.tasks.(aborts := s.tasks.aborts - 1));
    BodiesEnd(s0, TransientError);
    FlushEmpty(s.table, TransientError);
    WakeTerminal(AbortBody(s0, TransientError), s.table, TransientError);
  }

  /** Right after the abort the session is FATAL exactly if it did not interrupt a handshake that the
      cancellation does not reach; but see AbortIsFinalIff for what follows. */
  lemma AbortIsFatalIff(s: Session)
    requires Inv(s) && s.tasks.aborts > 0
    ensures var s' := Step(s, AbortStarted);
            && (s'.state.Fatal? <==> !(s.est.AtHandshake? && EstSurvives(s)))
            && (s.est.AtHandshake? && EstSurvives(s) ==> s'.state.TransientFailure?)
  {
    hide Inv, Step;
    AbortLeaves(s);
  }

  /** A path along which the session stays in SHUTDOWN. */
  ghost predicate StaysShutdown(states: seq<Session>) {
    forall i :: 0 <= i < |states| ==> states[i].state.Shutdown?
  }

  lemma {:induction false} EndedPath(states: seq<Session>, events: seq<Event>, k: nat)
    requires Path(states, events) && Ended(states[0]) && states[0].state.Shutdown? && states[0].tasks.aborts == 0
    requires k < |states|
    ensures Ended(states[k]) && states[k].state.Shutdown? && states[k].tasks.aborts == 0
  {
    hide Ended, Step, Enabled;
    if k > 0 {
      EndedPath(states, events, k - 1);
      EndedStays(states[k - 1], events[k - 1]);
    }
  }

  /** `close()` is final exactly if no abort is queued and it reaches the suspended `_establish`, if any. */
  lemma CloseIsFinalIff(s: Session)
    requires Inv(s) && !s.state.Shutdown?
    ensures (!EstSurvives(s) && s.tasks.aborts == 0)
            <==> (forall states: seq<Session>, events: seq<Event> ::
                    Path(states, events) && states[0] == UserClose(s) ==> StaysShutdown(states))
  {
    var s0 := UserClose(s);
    CloseLeaves(s);
    if !EstSurvives(s) && s.tasks.aborts == 0 {
      forall states: seq<Session>, events: seq<Event> | Path(states, events) && states[0] == s0
        ensures StaysShutdown(states)
      {
        forall k | 0 <= k < |states|
          ensures states[k].state.Shutdown?
        {
          EndedPath(states, events, k);
        }
      }
    } else {
      var states, events := WayOut(s);
      assert Path(states, events) && states[0] == UserClose(s) && !StaysShutdown(states);
    }
  }

  /** Otherwise there is a way out of SHUTDOWN. */
  lemma WayOut(s: Session) returns (states: seq<Session>, events: seq<Event>)
    requires Inv(s) && !s.state.Shutdown? && (EstSurvives(s) || s.tasks.aborts > 0)
    ensures Path(states, events) && states[0] == UserClose(s) && !StaysShutdown(states)
  {
    var s0 := UserClose(s);
    CloseLeaves(s);
    hide Inv, UserClose, Ended, EstSurvives;
    if EstSurvives(s) {
      if s.est.AtHandshake? {
        states, events := [s0], [];
        assert !states[0].state.Shutdown?;
      } else {
        SurvivorConnects(s);
        states, events := StepOut(s0, ConnectOver(false, TransientError, false, false));
      }
    } else {
      AbortEnds(s0);
      states, events := StepOut(s0, AbortStarted);
    }
  }

  lemma StepOut(s: Session, e: Event) returns (states: seq<Session>, events: seq<Event>)
    requires Enabled(s, e) && !Step(s, e).state.Shutdown?
    ensures Path(states, events) && states[0] == s && !StaysShutdown(states)
  {
    states, events := [s, Step(s, e)], [e];
    assert !states[1].state.Shutdown?;
  }

  /** The suspended connect fails: a closed session is on its way to reconnect. */
  lemma SurvivorConnects(s: Session)
    requires Inv(s) && !s.state.Shutdown? && EstSurvives(s) && s.est.AtConnect?
    ensures var e := ConnectOver(false, TransientError, false, false);
            Enabled(UserClose(s), e) && Step(UserClose(s), e).state.TransientFailure?
  {
    CloseLeaves(s);
    hide Inv, UserClose, Schedule, Ended;
    ScheduleState(UserClose(s).(est := NoEst, state := TransientFailure));
  }

  lemma ScheduleState(s: Session)
    ensures Schedule(s).state == s.state
  {}

  // ----- When the abort is final -----

  ghost predicate StaysTerminal(states: seq<Session>) {
    forall i :: 0 <= i < |states| ==> Terminal(states[i])
  }

  lemma {:induction false} EndedForGood(states: seq<Session>, events: seq<Event>, k: nat)
    requires Path(states, events) && Ended(states[0]) && k < |states|
    ensures Ended(states[k]) && Terminal(states[k])
  {
    hide Step, Enabled;
    if k > 0 {
      EndedForGood(states, events, k - 1);
      EndedStays(states[k - 1], events[k - 1]);
    }
  }

  /** The abort is final exactly if its cancellation reaches the suspended `_establish`, if any. */
  lemma AbortIsFinalIff(s: Session)
    requires Inv(s) && s.tasks.aborts > 0
    ensures !EstSurvives(s)
            <==> (forall states: seq<Session>, events: seq<Event> ::
                    Path(states, events) && states[0] == Step(s, AbortStarted) ==> StaysTerminal(states))
  {
    assert Enabled(s, AbortStarted);
    hide Inv, Step, Ended, EstSurvives;
    var s0 := Step(s, AbortStarted);
    AbortLeaves(s);
    if !EstSurvives(s) {
      forall states: seq<Session>, events: seq<Event> | Path(states, events) && states[0] == s0
        ensures StaysTerminal(states)
      {
        forall k | 0 <= k < |states|
          ensures Terminal(states[k])
        {
          EndedForGood(states, events, k);
        }
      }
    } else {
      var states, events := WayOutOfFatal(s);
      assert Path(states, events) && states[0] == s0 && !StaysTerminal(states);
    }
  }

  /** Otherwise the surviving `_establish` takes the session out of FATAL. */
  lemma WayOutOfFatal(s: Session) returns (states: seq<Session>, events: seq<Event>)
    requires Inv(s) && s.tasks.aborts > 0 && EstSurvives(s)
    ensures Path(states, events) && states[0] == Step(s, AbortStarted) && !StaysTerminal(states)
  {
    var s0 := Step(s, AbortStarted);
    AbortLeaves(s);
    if s.est.AtHandshake? {
      hide Step, Enabled, Inv;
      states, events := [s0], [];
      assert !Terminal(states[0]);
    } else {
      hide Inv, Abort, Schedule;
      var e := ConnectOver(false, TransientError, false, false);
      assert Enabled(s0, e);
      ScheduleState(s0.(est := NoEst, state := TransientFailure));
      states, events := [s0, Step(s0, e)], [e];
      assert !Terminal(states[1]);
    }
  }

  // ----- Runs in which nobody closes over a suspended `_establish` -----

  /** Neither `close()` nor an abort happens while an `_establish` is suspended that it does not reach. */
  ghost predicate Tidy(states: seq<Session>, events: seq<Event>) {
    |states| == |events| + 1
    && forall i :: 0 <= i < |events| && Closes(events[i]) ==> !EstSurvives(states[i])
  }

  lemma TidyStep(s: Session, e: Event)
    requires Inv(s) && Enabled(s, e) && (Closes(e) ==> !EstSurvives(s)) && (Terminal(s) ==> Ended(s))
    ensures Terminal(Step(s, e)) ==> Ended(Step(s, e))
    ensures Terminal(s) ==> Terminal(Step(s, e)) && EndMoves(s, e, Step(s, e))
  {
    if Terminal(s) {
      EndedStays(s, e);
    } else if e.Closed? {
      CloseLeaves(s);
    } else if e.AbortStarted? {
      AbortLeaves(s);
    } else {
      hide Inv, Step, Enabled, Ended, Down;
      StepConcluded(s, e);
      if Terminal(Step(s, e)) {
        DownEnded(Step(s, e));
      }
    }
  }

  /** In such a run a terminal state is never left but from FATAL by `close()`, and from SHUTDOWN by an abort
      queued before the close. */
  lemma {:induction false} TerminalIsTerminal(opts: Opts, states: seq<Session>, events: seq<Event>, k: nat)
    requires Run(opts, states, events) && Tidy(states, events) && k < |states|
    ensures Terminal(states[k]) ==> Ended(states[k])
    ensures k < |events| && Terminal(states[k]) ==>
              Terminal(states[k + 1]) && EndMoves(states[k], events[k], states[k + 1])
  {
    hide Inv, Step, Enabled, Ended, EndMoves, EstSurvives;
    if k > 0 {
      TerminalIsTerminal(opts, states, events, k - 1);
      RunInv(opts, states, events, k - 1);
      TidyStep(states[k - 1], events[k - 1]);
    }
    if k < |events| {
      RunInv(opts, states, events, k);
      TidyStep(states[k], events[k]);
    }
  }
}
