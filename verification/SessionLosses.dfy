/** What a lost connection leaves, whoever reports it: a socket that closes, a subscribe that is not answered, a
    heartbeat that has died, a send that fails. */
module SessionLosses {
  import opened Flows
  import opened Chronicles
  import opened Streams
  import opened StreamLaws
  import opened Sessions
  import opened SessionInvariant
  import opened SessionAnswers
  import opened SessionCalls
  import opened SessionSteps
  import opened SessionDisplaced

  // ----- What is left -----

  /** The slot is suspended, which it tells if it was not already; its buffer is thrown away and its subscribe
      no longer outstanding, and everything else is kept. */
  ghost predicate SetAside(x: Slot, y: Slot) {
    && y == x.(state := Paused, inflightId := 0, flow := y.flow, log := y.log)
    && y.flow == x.flow.(pending := [], cleared := x.flow.cleared + |x.flow.pending|)
    && y.log == if x.state.Paused? then x.log else x.log + [Status(Suspended, 0)]
  }

  /** The next attempt is planned: a timer sleeps for it, or, past the limit, an abort is on its way. */
  ghost predicate Planned(s: Session, s': Session) {
    && s'.attempt == s.attempt && s'.opts == s.opts
    && (forall i :: i in s.tasks.timers ==> i in s'.tasks.timers && s'.tasks.timers[i] == s.tasks.timers[i])
    && (if 0 <= s.opts.maxAttempts <= s.attempt then s'.tasks.aborts > s.tasks.aborts
        else s.tasks.nextTask !in s.tasks.timers && s.tasks.nextTask in s'.tasks.timers
             && s'.tasks.timers[s.tasks.nextTask] == s.attempt + 1)
  }

  /** The connection is gone: nothing is awaited or asked, every call has ended with the error, every slot that
      is still registered is set aside, and the next attempt is planned. */
  ghost predicate Gone(s: Session, s': Session, cat: Category) {
    && s'.state.TransientFailure? && !s'.open && !s'.heartbeat
    && s'.table.inflight == map[] && s'.table.asked == map[] && s'.table.ackTimers == {}
    && (forall r :: r in s.table.inflight ==> r in s'.table.ended && s'.table.ended[r] == Aborted(cat))
    && (forall t :: t in s'.subs ==> t in s.subs && SetAside(s.subs[t], s'.subs[t]))
    && Planned(s, s')
  }

  /** No slot has left but those whose unsubscribe was in flight. */
  ghost predicate OnlyLeavers(s: Session, s': Session) {
    forall t :: t in s'.subs <==> t in s.subs && !Leaving(s.table.inflight, t)
  }

  ghost predicate GivenUp(s: Session, s': Session, cat: Category) {
    Gone(s, s', cat) && OnlyLeavers(s, s') && s'.est.NoEst?
  }

  /** A session that can lose its connection; a suspended handshake is in flight. */
  ghost predicate Breakable(s: Session) {
    && !Terminal(s) && !s.est.AtConnect? && Books(s.table)
    && (s.est.AtHandshake? ==> s.est.rid in s.table.inflight)
    && Limited(s.opts.maxAttempts, s.attempt, s.tasks)
    && forall t :: t in s.subs ==> !s.subs[t].state.Closed?
  }

  // ----- How it comes about -----

  lemma SchedulePlans(s: Session)
    requires !Terminal(s) && Limited(s.opts.maxAttempts, s.attempt, s.tasks)
    ensures Planned(s, Schedule(s))
  {}

  lemma PlannedAgain(s: Session, s1: Session)
    requires Planned(s, s1) && !Terminal(s1) && Limited(s1.opts.maxAttempts, s1.attempt, s1.tasks)
    ensures Planned(s, Schedule(s1))
  {}

  lemma PauseSetsAside(x: Slot)
    requires !x.state.Closed?
    ensures SetAside(x, Pause(x))
  {}

  lemma PauseAgain(x: Slot, y: Slot)
    requires SetAside(x, y)
    ensures SetAside(x, Pause(y))
  {}

  lemma LoseConnectionGone(s: Session, cat: Category)
    requires Breakable(s)
    ensures Gone(s, LoseConnection(s, cat), cat) && LoseConnection(s, cat).subs.Keys == s.subs.Keys
    ensures var s' := LoseConnection(s, cat); Limited(s'.opts.maxAttempts, s'.attempt, s'.tasks)
  {
    hide Limited, Books, Pause, SetAside, Planned, Schedule, PlanReconnect;
    var s1 := s.(table := Flush(s.table, cat), subs := map t | t in s.subs :: Pause(s.subs[t]),
                 heartbeat := false, state := TransientFailure, open := false);
    forall t | t in s.subs
      ensures SetAside(s.subs[t], Pause(s.subs[t]))
    {
      PauseSetsAside(s.subs[t]);
    }
    SchedulePlans(s1);
    ScheduleFacts(s1);
    PlannedSame(s, s1, Schedule(s1));
  }

  lemma PlannedSame(s: Session, s1: Session, s': Session)
    requires Planned(s1, s') && s1.tasks == s.tasks && s1.attempt == s.attempt && s1.opts == s.opts
    ensures Planned(s, s')
  {}

  /** A replay that was in flight reports the loss again. */
  lemma GoneAgain(s: Session, s1: Session, cat: Category)
    requires Gone(s, s1, cat) && Limited(s1.opts.maxAttempts, s1.attempt, s1.tasks)
    ensures Gone(s, ReplayFailed(s1), cat) && ReplayFailed(s1).subs.Keys == s1.subs.Keys
  {
    hide Limited, Pause, SetAside, Planned, Schedule, PlanReconnect;
    var s2 := s1.(barrier := s1.barrier.(estopPending := false));
    var s3 := s2.(table := Flush(s2.table, TransientError), subs := map t | t in s2.subs :: Pause(s2.subs[t]),
                  heartbeat := false, state := TransientFailure, open := false);
    forall t | t in s1.subs
      ensures SetAside(s.subs[t], Pause(s1.subs[t]))
    {
      PauseAgain(s.subs[t], s1.subs[t]);
    }
    PlannedTasks(s, s1, s3);
    PlannedAgain(s, s3);
    ScheduleFacts(s3);
  }

  lemma PlannedTasks(s: Session, s1: Session, s2: Session)
    requires Planned(s, s1) && s2.tasks == s1.tasks && s2.attempt == s1.attempt && s2.opts == s1.opts
    ensures Planned(s, s2)
  {}

  lemma LeftGone(s: Session, s1: Session, s2: Session, cat: Category)
    requires Gone(s, s1, cat) && OnlyLeft(s1, s2)
    ensures Gone(s, s2, cat)
  {
    hide SetAside;
  }

  /** The topics that leave are those of the calls that resume. */
  lemma {:induction false} LeftTopics(s: Session, calls: map<nat, Rpc>, n: nat, t: Topic)
    ensures t in LeaveUpTo(s, calls, n).subs <==>
              t in s.subs && !exists r :: 0 <= r < n && r in calls && calls[r].Unsubscribing? && calls[r].key.topic == t
  {
    if n > 0 {
      LeftTopics(s, calls, n - 1, t);
      if n - 1 in calls && calls[n - 1].Unsubscribing? {
        LeaveKeeps(LeaveUpTo(s, calls, n - 1), calls[n - 1].key);
      }
    }
    hide Leave;
  }

  lemma LeftLeavers(s: Session, s1: Session)
    requires s1.subs.Keys == s.subs.Keys && Books(s.table)
    ensures OnlyLeavers(s, LeaveAll(s1, s.table))
  {
    forall t
      ensures t in LeaveAll(s1, s.table).subs <==> t in s.subs && !Leaving(s.table.inflight, t)
    {
      LeftTopics(s1, s.table.inflight, s.table.nextRid, t);
    }
  }

  lemma SameLeavers(s: Session, s1: Session, s2: Session)
    requires OnlyLeavers(s, s1) && s2.subs.Keys == s1.subs.Keys
    ensures OnlyLeavers(s, s2)
  {}

  lemma LeftLimited(s: Session, s': Session)
    requires OnlyLeft(s, s') && Limited(s.opts.maxAttempts, s.attempt, s.tasks)
    ensures Limited(s'.opts.maxAttempts, s'.attempt, s'.tasks) && s'.est == s.est
  {
    hide Limited;
  }

  /** The session after a loss, before its suspended handshake learns of it. */
  function Broken(s: Session, cat: Category): Session {
    var s2 := LeaveAll(LoseConnection(s, cat), s.table);
    if ReplayOut(s.table) then ReplayFailed(s2) else s2
  }

  lemma BrokenGone(s: Session, cat: Category)
    requires Breakable(s)
    ensures var s' := Broken(s, cat);
            && Gone(s, s', cat) && OnlyLeavers(s, s') && s'.est == s.est && Limited(s'.opts.maxAttempts, s'.attempt, s'.tasks)
  {
    hide Limited, Gone, OnlyLeavers, OnlyLeft, LoseConnection, LeaveUpTo, ReplayOut, ReplayFailed;
    var s1 := LoseConnection(s, cat);
    var s2 := LeaveAll(s1, s.table);
    LoseConnectionGone(s, cat);
    LoseConnectionEst(s, cat);
    LeaveUpToKeeps(s1, s.table.inflight, s.table.nextRid);
    LeftGone(s, s1, s2, cat);
    LeftLimited(s1, s2);
    LeftLeavers(s, s1);
    GoneAgain(s, s2, cat);
    ReplayFailedEst(s2);
    SameLeavers(s, s2, ReplayFailed(s2));
  }

  lemma LoseConnectionEst(s: Session, cat: Category)
    ensures LoseConnection(s, cat).est == s.est
  {}

  lemma ReplayFailedEst(s: Session)
    requires Limited(s.opts.maxAttempts, s.attempt, s.tasks)
    ensures var s' := ReplayFailed(s); s'.est == s.est && Limited(s'.opts.maxAttempts, s'.attempt, s'.tasks)
  {
    hide Limited, Flush, Pause, Schedule;
    var s1 := s.(barrier := s.barrier.(estopPending := false));
    ScheduleFacts(s1.(table := Flush(s1.table, TransientError), subs := map t | t in s1.subs :: Pause(s1.subs[t]),
                      heartbeat := false, state := TransientFailure, open := false));
  }

  /** The handshake fails with the connection: one more attempt is planned, or, for a fatal error, the session
      ends. */
  lemma HandshakeGivesUp(s: Session, s1: Session, cat: Category)
    requires Gone(s, s1, cat) && Limited(s1.opts.maxAttempts, s1.attempt, s1.tasks)
    ensures !cat.FatalError? ==> Gone(s, HandshakeFailed(s1, cat), cat) && HandshakeFailed(s1, cat).subs == s1.subs
    ensures cat.FatalError? ==> HandshakeFailed(s1, cat).state.Fatal? && HandshakeFailed(s1, cat).subs == map[]
    ensures HandshakeFailed(s1, cat).est.NoEst?
  {
    hide Limited, SetAside, Planned, Schedule, RetireAll, Flush;
    var s2 := s1.(est := NoEst, state := TransientFailure, open := false);
    PlannedTasks(s, s1, s2);
    PlannedAgain(s, s2);
    ScheduleFacts(s2);
  }

  /** However the loss is reported. */
  lemma LossGivesUp(s: Session, cat: Category)
    requires Breakable(s)
    ensures var s' := OnTransportClose(s, cat);
            if s.est.AtHandshake? && cat.FatalError? then s'.state.Fatal? && s'.subs == map[] && s'.est.NoEst?
            else GivenUp(s, s', cat)
  {
    hide Limited, Gone, OnlyLeavers, Broken, HandshakeFailed, Flush;
    BrokenGone(s, cat);
    HandshakeGivesUp(s, Broken(s, cat), cat);
    WokenIs(s, cat);
    if s.est.AtHandshake? && !cat.FatalError? {
      SameLeavers(s, Broken(s, cat), HandshakeFailed(Broken(s, cat), cat));
    }
  }

  lemma WokenIs(s: Session, cat: Category)
    requires Breakable(s)
    ensures OnTransportClose(s, cat) == if s.est.AtHandshake? then HandshakeFailed(Broken(s, cat), cat) else Broken(s, cat)
  {
    hide Limited, LoseConnection, LeaveUpTo, ReplayOut, ReplayFailed, HandshakeFailed, OnlyLeavers, Gone;
    BrokenGone(s, cat);
  }

  // ----- Steps -----

  lemma InvBreakable(s: Session)
    requires Inv(s) && !Terminal(s) && !s.est.AtConnect?
    ensures Breakable(s)
  {
    hide Lawful, ReplayTracked, WireOk, Limited, Archived, BarrierOk, AllSettled, Phases;
    forall t | t in s.subs
      ensures !s.subs[t].state.Closed?
    {
      assert Held(s.subs[t], t, s.table.asked);
    }
  }

  /** A socket that closes: nothing in a session that has ended; otherwise the connection is given up, and the
      session ends if that fails a handshake for good. */
  lemma CloseGivesUp(s: Session, cat: Category)
    requires Inv(s) && Enabled(s, TransportClosed(cat))
    ensures var s' := Step(s, TransportClosed(cat));
            if Terminal(s) then s' == s
            else if s.est.AtHandshake? && cat.FatalError? then s'.state.Fatal? && s'.subs == map[] && s'.est.NoEst?
            else GivenUp(s, s', cat)
  {
    hide Inv, GivenUp, Breakable;
    if !Terminal(s) {
      InvBreakable(s);
      LossGivesUp(s, cat);
    }
  }

  /** A subscribe that is not answered in time: the connection is given up. A timer that is no longer set does
      nothing. */
  lemma AckTimeoutGivesUp(s: Session, rid: nat)
    requires Inv(s)
    ensures var s' := Step(s, AckTimedOut(rid));
            if rid in s.table.ackTimers && !Terminal(s) then GivenUp(s, s', TransientError) else s' == s
  {
    if rid in s.table.ackTimers && !Terminal(s) {
      AskedNotConnecting(s, rid);
      hide Inv, GivenUp, Breakable;
      InvBreakable(s);
      LossGivesUp(s, TransientError);
    }
  }

  /** A heartbeat that has died: the connection is given up. */
  lemma DeathGivesUp(s: Session)
    requires Inv(s) && Enabled(s, HeartbeatDead)
    ensures GivenUp(s, Step(s, HeartbeatDead), TransientError)
  {
    HeartbeatReady(s);
    hide Inv, GivenUp, Breakable;
    InvBreakable(s);
    LossGivesUp(s, TransientError);
  }

  /** While the barrier waits, every subscribe it waits for runs against a timer that ends the round: a round
      that is not answered does not last. */
  lemma UnansweredTimesOut(s: Session, t: Topic)
    requires Inv(s) && Waiting(s) && t in Unanswered(s.subs)
    ensures var rid := s.subs[t].inflightId;
            var s' := Step(s, AckTimedOut(rid));
            && rid in s.table.ackTimers && GivenUp(s, s', TransientError)
            && t in s'.subs && s'.subs[t].state.Paused? && s'.subs[t].inflightId == 0
  {
    hide Inv, Step, GivenUp, Leaving;
    WaitedFor(s, t);
    TimesOut(s, t, s.subs[t].inflightId);
  }

  lemma TimesOut(s: Session, t: Topic, rid: nat)
    requires Inv(s) && t in s.subs && rid in s.table.ackTimers && !Leaving(s.table.inflight, t) && !Terminal(s)
    ensures var s' := Step(s, AckTimedOut(rid));
            GivenUp(s, s', TransientError) && t in s'.subs && s'.subs[t].state.Paused? && s'.subs[t].inflightId == 0
  {
    hide Inv, Step, GivenUp, Leaving;
    AckTimeoutGivesUp(s, rid);
    SetAsideStays(s, Step(s, AckTimedOut(rid)), t);
  }

  lemma WaitedFor(s: Session, t: Topic)
    requires Inv(s) && Waiting(s) && t in Unanswered(s.subs)
    ensures s.subs[t].inflightId in s.table.ackTimers && !Leaving(s.table.inflight, t)
  {
    hide Awaited, AllSettled, ReplayTracked, WireOk, Limited, Archived, BarrierOk, Lawful;
    assert Held(s.subs[t], t, s.table.asked);
  }

  lemma SetAsideStays(s: Session, s': Session, t: Topic)
    requires GivenUp(s, s', TransientError) && t in s.subs && !Leaving(s.table.inflight, t)
    ensures t in s'.subs && s'.subs[t].state.Paused? && s'.subs[t].inflightId == 0
  {
    hide Leaving, Planned;
  }
}
