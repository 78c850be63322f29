/** What each step does to the intent, the attempt counter and the count of reconnects. */
module SessionCounts {
  import opened Flows
  import opened Chronicles
  import opened Streams
  import opened Sessions
  import opened SessionInvariant
  import opened SessionHistory
  import opened SessionBarrier
  import opened SessionAnswers
  import opened SessionCalls
  import opened SessionLinks
  import opened SessionSteps

  /** A reconnect is announced: READY is reached, and not by a first connection. */
  predicate Announced(s: Session, s': Session) {
    !s.state.Ready? && s'.state.Ready? && !(s.est.AtHandshake? && !s.est.reconnect)
  }

  /** The attempts start over and the reconnects are counted exactly when one is announced. */
  ghost predicate CountsRight(s: Session, s': Session) {
    && s'.attempt == (if Announced(s, s') then 0 else s.attempt)
    && s'.totalCount == (if Announced(s, s') then s.totalCount + 1 else s.totalCount)
  }

  ghost predicate Steady(s: Session, s': Session) {
    && s'.opts == s.opts && s'.engaged == s.engaged && CountsRight(s, s') && Later(s.table, s'.table)
    && (s'.state.Reconnecting? ==> s.state.Reconnecting?)
    && Timed(s.attempt, s.tasks.timers, s'.tasks.timers, GoneDown(s'))
    && Rolls(s.subs, s.past, s'.subs, s'.past)
  }

  lemma QuietSteady(s: Session, s': Session)
    requires Quiet(s, s')
    ensures Steady(s, s')
  {
    hide Later, Rolls;
  }

  lemma FinishSteady(s: Session, s1: Session, phase: bool)
    requires Quiet(s, s1) && s1.state == s.state && s.est.NoEst? && phase == s.state.Reconnecting?
    ensures Steady(s, Finish(s1, phase))
  {
    hide Later, Rolls;
  }

  lemma RestartExtends(slot: Slot)
    ensures Extends(slot, Restart(slot)) && Restart(slot).state == slot.state
  {}

  lemma UnaskExtends(slot: Slot)
    ensures Extends(slot, Unask(slot)) && Unask(slot).state == slot.state
  {}

  lemma RestartedQuiet(s: Session, t: Topic, retry: SendResult)
    requires t in s.subs
    ensures Quiet(s, SendSubscribe(s.(subs := s.subs[t := Restart(s.subs[t])]), t, 0, retry))
  {
    hide Quiet, SendSubscribe, Restart, Extends;
    var s1 := s.(subs := s.subs[t := Restart(s.subs[t])]);
    RestartExtends(s.subs[t]);
    SlotQuiet(s, t, Restart(s.subs[t]));
    SendSubscribeQuiet(s1, t, 0, retry);
    QuietTrans(s, s1, SendSubscribe(s1, t, 0, retry));
  }

  /** A subscribe acknowledgement. */
  lemma AnswerSteady(s: Session, t: Topic, ack: Ack, retry: SendResult)
    requires t in s.subs && s.est.NoEst?
    ensures Steady(s, Answer(s, t, ack, retry))
  {
    hide Quiet, Finish, SendSubscribe, Abort, OnTransportClose, Activate, Restart, Announced, Steady, Unregister, Extends;
    var slot := s.subs[t];
    var phase := s.state.Reconnecting?;
    UnregisterQuiet(s, t);
    match ack {
      case Refused(cat) =>
        AbortQuiet(s, cat);
        OnTransportCloseQuiet(s, cat);
        QuietSteady(s, Abort(s, cat));
        QuietSteady(s, OnTransportClose(s, cat));
        QuietSteady(s, Unregister(s, t));
        FinishSteady(s, Unregister(s, t), phase);
      case Rejected(history) =>
        RestartedQuiet(s, t, retry);
        QuietSteady(s, SendSubscribe(s.(subs := s.subs[t := Restart(slot)]), t, 0, retry));
        FinishSteady(s, Unregister(s, t), phase);
      case Granted(next) =>
        ActivateExtends(slot, next);
        SlotQuiet(s, t, Activate(slot, next));
        FinishSteady(s, s.(subs := s.subs[t := Activate(slot, next)]), phase);
    }
  }

  lemma MatchedQuiet(s: Session, rid: nat)
    requires MatchesSlot(s, rid)
    ensures Quiet(s, Matched(s, rid)) && Matched(s, rid).state == s.state && Matched(s, rid).est == s.est
    ensures Matched(s, rid).tasks == s.tasks
    ensures s.table.asked[rid] in Matched(s, rid).subs
  {
    hide Later, Timed, Rolls, Unask, Extends;
    LaterUnasked(s.table, rid);
    TimedSame(s.attempt, s.tasks.timers, GoneDown(s));
    UnaskExtends(s.subs[s.table.asked[rid]]);
    RollsSlot(s.subs, s.past, s.table.asked[rid], Unask(s.subs[s.table.asked[rid]]));
  }

  /** Steadiness after a quiet beginning. */
  lemma QuietThenSteady(s: Session, s1: Session, s2: Session)
    requires Quiet(s, s1) && Steady(s1, s2) && s1.state == s.state && s1.est == s.est && s1.tasks == s.tasks
    ensures Steady(s, s2)
  {
    hide Later, Timed, Rolls;
    LaterTrans(s.table, s1.table, s2.table);
    RollsTrans(s.subs, s.past, s1.subs, s1.past, s2.subs, s2.past);
  }

  lemma HandleAckSteady(s: Session, rid: nat, ack: Ack, retry: SendResult)
    requires rid in s.table.asked ==> s.est.NoEst?
    ensures Steady(s, HandleAck(s, rid, ack, retry))
  {
    hide Later, Answer, Matched, Unasked, Quiet, Steady;
    if MatchesSlot(s, rid) {
      MatchedQuiet(s, rid);
      AnswerSteady(Matched(s, rid), s.table.asked[rid], ack, retry);
      QuietThenSteady(s, Matched(s, rid), HandleAck(s, rid, ack, retry));
    } else {
      StraySteady(s, rid);
    }
  }

  lemma StraySteady(s: Session, rid: nat)
    ensures Steady(s, s.(table := Unasked(s.table, rid))) && Steady(s, s)
  {
    hide Later, Rolls;
    RollsSame(s.subs, s.past);
    LaterNext(s.table, "");
    LaterUnasked(s.table, rid);
  }

  // ----- Establishing -----

  lemma LearnRolls(s: Session, catalog: map<Topic, Semantics>)
    ensures Rolls(s.subs, s.past, Learn(s, catalog).subs, s.past)
  {
    hide Rolls;
    RollsMap(s.subs, s.past, Learn(s, catalog).subs);
  }

  /** The handshake has been accepted, by a session that was not READY. */
  lemma EstablishedSteady(s: Session, plan: Plan)
    requires s.est.AtHandshake? && !s.state.Ready? && |plan.order| == |plan.sends|
    ensures Steady(s, Established(s, s.est.reconnect, plan))
  {
    hide Later, Resubscribe, SubscribeWaiting, Rolls, Learn;
    LaterNext(s.table, "");
    LearnRolls(s, plan.catalog);
    LearnKeeps(s, plan.catalog);
    var s1 := Learn(s, plan.catalog);
    var ready := s1.(state := Ready, heartbeat := s.opts.heartbeatOn);
    var s2 := SetBarrier(s1);
    var waiting := s2.(wire := s2.wire.(waited := true));
    SubscribeWaitingQuiet(ready, plan.order, plan.sends);
    ResubscribeQuiet(waiting, plan.order, plan.sends);
    var s3 := SubscribeWaiting(ready, plan.order, plan.sends);
    var s4 := Resubscribe(waiting, plan.order, plan.sends);
    RollsTrans(s.subs, s.past, s1.subs, s1.past, s3.subs, s3.past);
    RollsTrans(s.subs, s.past, s1.subs, s1.past, s4.subs, s4.past);
  }

  // ----- Answers -----

  /** The intent after an event: the last accepted emergency-stop call decides. */
  function IntentAfter(s: Session, e: Event): bool {
    if e.RpcAnswered? && e.ok && e.rid in s.table.inflight && s.table.inflight[e.rid].EStop?
    then s.table.inflight[e.rid].engage
    else s.engaged
  }

  /** A session in which a call has just ended. */
  lemma ResumeSteady(s: Session, s1: Session, kind: Rpc, ok: bool, cat: Category, plan: Plan)
    requires |plan.order| == |plan.sends| && s1 == s.(table := s1.table) && Later(s.table, s1.table)
    requires (kind.Handshake? && s.est.AtHandshake?) || kind.Replay? ==> !s.state.Ready?
    requires kind.Replay? ==> s.est.NoEst?
    requires !kind.EStop?
    ensures Steady(s, Resume(s1, kind, ok, cat, plan))
  {
    hide Later, Timed, Rolls, HandshakeFailed, Established, OnTransportClose, Leave;
    TableQuiet(s, s1.table);
    SelfQuiet(s1);
    QuietSteady(s1, s1);
    match kind {
      case Handshake =>
        if s1.est.AtHandshake? {
          HandshakeFailedQuiet(s1, cat);
          QuietSteady(s1, HandshakeFailed(s1, cat));
          EstablishedSteady(s1, plan);
        }
      case Replay =>
        ReplayResumed(s1, ok, cat, plan);
      case Unsubscribing(k) =>
        LeaveQuiet(s1, k);
        QuietSteady(s1, Leave(s1, k));
      case _ =>
    }
    QuietThenSteady(s, s1, Resume(s1, kind, ok, cat, plan));
  }

  lemma ReplayAcceptedSteady(s: Session)
    requires !s.state.Ready? && s.est.NoEst?
    ensures var s1 := Transmit(s.(barrier := s.barrier.(estopPending := false)), ReplayAccepted);
            Steady(s, s1) && Steady(s, ReachReady(s1))
  {
    hide Later, Timed, Rolls;
    LaterNext(s.table, "");
    RollsSame(s.subs, s.past);
    TimedSame(s.attempt, s.tasks.timers, false);
    TimedSame(s.attempt, s.tasks.timers, GoneDown(s));
  }

  lemma ReplayResumed(s: Session, ok: bool, cat: Category, plan: Plan)
    requires |plan.order| == |plan.sends| && !s.state.Ready? && s.est.NoEst?
    ensures Steady(s, Resume(s, Replay, ok, cat, plan))
  {
    hide Quiet, Steady, OnTransportClose, Transmit, ReachReady;
    if ok {
      ReplayAcceptedSteady(s);
    } else {
      var s1 := s.(barrier := s.barrier.(estopPending := false));
      BarrierQuiet(s, s1.barrier);
      OnTransportCloseQuiet(s1, cat);
      QuietTrans(s, s1, OnTransportClose(s1, cat));
      QuietSteady(s, OnTransportClose(s1, cat));
    }
  }

  lemma BarrierQuiet(s: Session, b: Barrier)
    ensures Quiet(s, s.(barrier := b))
  {
    hide Later, Timed, Rolls;
    LaterNext(s.table, "");
    RollsSame(s.subs, s.past);
    TimedSame(s.attempt, s.tasks.timers, GoneDown(s));
  }

  lemma AnsweredSteady(s: Session, rid: nat, o: Outcome, ok: bool, cat: Category, plan: Plan)
    requires Inv(s) && rid in s.table.inflight && |plan.order| == |plan.sends| && (o.Answered? ==> o.rid == rid)
    ensures var s' := Resume(s.(table := Resolve(s.table, rid, o)), s.table.inflight[rid], ok, cat, plan);
            Steady(s, s'.(engaged := s.engaged))
            && s'.engaged == (if ok && s.table.inflight[rid].EStop? then s.table.inflight[rid].engage else s.engaged)
  {
    hide Later, Timed, Rolls, HandshakeFailed, Established, OnTransportClose, Resolve, Core, BarrierOk, Leave;
    LaterResolved(s.table, rid, o);
    var kind := s.table.inflight[rid];
    var s1 := s.(table := Resolve(s.table, rid, o));
    TableQuiet(s, s1.table);
    if kind.Replay? {
      ReplayWaits(s, rid);
    }
    if kind.Handshake? && s.est.AtHandshake? {
      EstablishingNotReady(s);
    }
    if !kind.EStop? {
      ResumeSteady(s, s1, kind, ok, cat, plan);
    }
  }

  lemma EstablishingNotReady(s: Session)
    requires Inv(s) && !s.est.NoEst?
    ensures !s.state.Ready?
  {
    hide AllHeld, AllSettled, Books, Awaited, ReplayTracked, WireOk, Limited, Archived;
  }

  lemma AskedAlone(s: Session, rid: nat)
    requires Inv(s) && rid in s.table.asked
    ensures s.est.NoEst?
  {
    hide AllHeld, AllSettled, Books, Awaited, ReplayTracked, WireOk, Limited, Archived;
  }

  // ----- Every step -----

  /** The attempt a firing timer makes. */
  predicate Attempts(s: Session, e: Event) {
    e.TimerFired? && s.state.TransientFailure?
  }

  /** Events after which nothing is announced or counted, whoever runs. */
  predicate Uneventful(e: Event) {
    !e.Connect? && !e.RpcAnswered? && !e.RpcTimedOut? && !e.AckArrived? && !e.TimerFired? && !e.Closed?
  }

  lemma AbortStartedQuiet(s: Session)
    requires s.tasks.aborts > 0
    ensures Quiet(s, Step(s, AbortStarted))
  {
    hide Later, Timed, Rolls, Abort;
    AbortQuiet(s.(tasks := s.tasks.(aborts := s.tasks.aborts - 1)), TransientError);
  }

  lemma UneventfulQuiet(s: Session, e: Event)
    requires Enabled(s, e) && Uneventful(e)
    ensures Quiet(s, Step(s, e))
  {
    hide Quiet, Extends, OnTransportClose, Connected, Push, WorkOn, FireTimer, Abort, StartReplay, Beat, Subscribe, Unsubscribe, Call, NextRid;
    match e {
      case ConnectOver(ok, cat, encodeOk, sendOk) => ConnectedQuiet(s, ok, cat, encodeOk, sendOk);
      case AckTimedOut(rid) =>
        OnTransportCloseQuiet(s, TransientError);
        SelfQuiet(s);
      case Pushed(t, f) =>
        SelfQuiet(s);
        if t in s.subs {
          PushExtends(s.subs[t], f);
          SlotQuiet(s, t, Push(s.subs[t], f));
        }
      case Worked(k) => WorkOnQuiet(s, k);
      case TransportClosed(cat) => OnTransportCloseQuiet(s, cat);
      case AbortStarted => AbortStartedQuiet(s);
      case ReplayStarted(sendOk) => StartReplayQuiet(s, sendOk);
      case HeartbeatSent(live, sendOk) => BeatQuiet(s, live, sendOk);
      case HeartbeatDead => OnTransportCloseQuiet(s, TransientError);
      case Subscribed(t, send) => SubscribeQuiet(s, t, send);
      case Unsubscribed(t, syncWait, live, sendOk) => UnsubscribeQuiet(s, t, syncWait, live, sendOk);
      case Commanded(kind, sendOk) =>
        SelfQuiet(s);
        CallQuiet(s, kind, CmdBusiness(kind), sendOk);
    }
  }

  /** What a step does to the history of a session. */
  ghost predicate HistoryKept(s: Session, e: Event, s': Session) {
    && s'.opts == s.opts && Later(s.table, s'.table) && Rolls(s.subs, s.past, s'.subs, s'.past)
    && s'.engaged == IntentAfter(s, e)
    && (if Attempts(s, e)
        then e.task in s.tasks.timers && s'.attempt == s.tasks.timers[e.task] && s'.totalCount == s.totalCount && s'.state.Reconnecting?
        else CountsRight(s, s') && (s'.state.Reconnecting? ==> s.state.Reconnecting?))
  }

  lemma SteadyCounts(s: Session, e: Event, s': Session)
    requires Steady(s, s') && !e.TimerFired? && !e.RpcAnswered?
    ensures HistoryKept(s, e, s')
  {
    hide Later, Timed, CountsRight, Rolls;
  }

  lemma ConnectCounts(s: Session)
    ensures HistoryKept(s, Connect, Step(s, Connect))
  {
    hide Later, Rolls;
    LaterNext(s.table, "");
    RollsSame(s.subs, s.past);
  }

  lemma TimerCounts(s: Session, task: nat)
    requires Enabled(s, TimerFired(task))
    ensures HistoryKept(s, TimerFired(task), Step(s, TimerFired(task)))
  {
    hide Later, Rolls;
    LaterNext(s.table, "");
    RollsSame(s.subs, s.past);
  }

  lemma CloseCounts(s: Session)
    ensures HistoryKept(s, Event.Closed, Step(s, Event.Closed))
  {
    hide Later, UserClose, CountsRight, Rolls, Timed;
    UserCloseCounts(s);
  }

  lemma AckCounts(s: Session, e: Event)
    requires Inv(s) && e.AckArrived?
    ensures HistoryKept(s, e, Step(s, e))
  {
    hide Inv, Steady, HistoryKept, HandleAck;
    if e.rid in s.table.asked {
      AskedAlone(s, e.rid);
    }
    HandleAckSteady(s, e.rid, e.ack, e.retry);
    SteadyCounts(s, e, Step(s, e));
  }

  /** Every step: calls are kept or ended, the intent is the last accepted emergency stop, and the
      counters move only when a timer attempts or a reconnect is announced. */
  lemma StepCounts(s: Session, e: Event)
    requires Inv(s) && Enabled(s, e)
    ensures var s' := Step(s, e);
            && s'.opts == s.opts && Later(s.table, s'.table) && Rolls(s.subs, s.past, s'.subs, s'.past)
            && s'.engaged == IntentAfter(s, e)
            && (if Attempts(s, e) then s'.attempt == s.tasks.timers[e.task] && s'.totalCount == s.totalCount && s'.state.Reconnecting?
                else CountsRight(s, s') && (s'.state.Reconnecting? ==> s.state.Reconnecting?))
  {
    hide Inv, Later, Step, CountsRight, Quiet, Steady, Rolls;
    if Uneventful(e) {
      UneventfulQuiet(s, e);
      QuietSteady(s, Step(s, e));
      SteadyCounts(s, e, Step(s, e));
    } else if e.RpcAnswered? || e.RpcTimedOut? {
      AnswerCounts(s, e);
    } else if e.AckArrived? {
      AckCounts(s, e);
    } else if e.Closed? {
      CloseCounts(s);
    } else if e.Connect? {
      ConnectCounts(s);
    } else {
      TimerCounts(s, e.task);
    }
  }

  lemma AnswerCounts(s: Session, e: Event)
    requires Inv(s) && Enabled(s, e) && (e.RpcAnswered? || e.RpcTimedOut?)
    ensures var s' := Step(s, e);
            && s'.opts == s.opts && Later(s.table, s'.table) && s'.engaged == IntentAfter(s, e) && CountsRight(s, s')
            && (s'.state.Reconnecting? ==> s.state.Reconnecting?) && Rolls(s.subs, s.past, s'.subs, s'.past)
  {
    hide Inv, Later, Timed, Rolls, Resume, Resolve, Enumerates, Announced;
    LaterNext(s.table, "");
    RollsSame(s.subs, s.past);
    var s' := Step(s, e);
    if e.rid !in s.table.inflight {
      NotAnnounced(s, s');
    } else {
      match e {
        case RpcAnswered(rid, ok, cat, plan) => AnsweredSteady(s, rid, Answered(rid), ok, cat, plan);
        case RpcTimedOut(rid) => AnsweredSteady(s, rid, TimedOut, false, TransientError, NoPlan());
      }
      AnnouncedOnlyStates(s, s', s.engaged);
    }
  }

  lemma AnnouncedOnlyStates(s: Session, s': Session, engaged: bool)
    ensures Announced(s, s'.(engaged := engaged)) == Announced(s, s')
  {}

  lemma NotAnnounced(s: Session, s': Session)
    requires s'.state.Ready? ==> s.state.Ready?
    ensures !Announced(s, s')
  {}

  lemma CloseBodyKeeps(s: Session)
    ensures var s' := CloseBody(s);
            && s'.opts == s.opts && s'.engaged == s.engaged && s'.attempt == s.attempt && s'.totalCount == s.totalCount
            && s'.state.Shutdown? && Later(s.table, s'.table) && Rolls(s.subs, s.past, s'.subs, s'.past)
            && Timed(s.attempt, s.tasks.timers, s'.tasks.timers, true)
  {
    hide Later, Flush, Rolls, RetireAll;
    LaterFlushed(s.table, LocalError);
    RollsRetireAll(s.subs, s.past);
  }

  lemma UserCloseCounts(s: Session)
    ensures var s' := UserClose(s);
            && s'.opts == s.opts && s'.engaged == s.engaged && CountsRight(s, s') && Later(s.table, s'.table)
            && GoneDown(s') && Rolls(s.subs, s.past, s'.subs, s'.past)
            && Timed(s.attempt, s.tasks.timers, s'.tasks.timers, true)
  {
    hide Later, CloseBody, Wake, Rolls, Timed;
    LaterNext(s.table, "");
    RollsSame(s.subs, s.past);
    TimedSame(s.attempt, s.tasks.timers, true);
    if !s.state.Shutdown? {
      var s1, s2 := CloseBody(s), UserClose(s);
      CloseBodyKeeps(s);
      WakeQuiet(s1, s.table, LocalError);
      LaterTrans(s.table, s1.table, s2.table);
      RollsTrans(s.subs, s.past, s1.subs, s1.past, s2.subs, s2.past);
      TimedTrans(s.attempt, s.tasks.timers, s1.tasks.timers, s2.tasks.timers, true, GoneDown(s2));
    }
  }

  /** What `close()` and the abort do about a suspended `_establish` is another matter. */
  predicate Closes(e: Event) {
    e.Closed? || e.AbortStarted?
  }

  /** A step that ends a session leaves it down. */
  lemma UneventfulEnds(s: Session, e: Event)
    requires Inv(s) && Enabled(s, e) && Uneventful(e) && !Closes(e)
    ensures EndsDown(s, Step(s, e))
  {
    hide Inv, Later, Timed, Rolls, OnTransportClose, Connected, Push, WorkOn, StartReplay, Beat, Subscribe, Unsubscribe, Down;
    match e {
      case ConnectOver(ok, cat, encodeOk, sendOk) => ConnectedInv(s, ok, cat, encodeOk, sendOk);
      case AckTimedOut(rid) => OnTransportCloseQuiet(s, TransientError);
      case Worked(k) => WorkOnQuiet(s, k);
      case TransportClosed(cat) => CloseInv(s, cat);
      case ReplayStarted(sendOk) => StartReplayQuiet(s, sendOk);
      case HeartbeatSent(live, sendOk) => BeatQuiet(s, live, sendOk);
      case HeartbeatDead => OnTransportCloseQuiet(s, TransientError);
      case Subscribed(t, send) => SubscribeQuiet(s, t, send);
      case Unsubscribed(t, syncWait, live, sendOk) => UnsubscribeQuiet(s, t, syncWait, live, sendOk);
      case _ =>
    }
  }

  /** Whenever a step ends a reconnect, the round is over: everyone has answered and nobody is missing. */
  lemma StepConcluded(s: Session, e: Event)
    requires Inv(s) && Enabled(s, e)
    ensures WaitedForAll(s, Step(s, e)) && (Closes(e) || EndsDown(s, Step(s, e)))
  {
    hide Inv, Later, Timed, Rolls, HandleAck, Resume, Resolve, UserClose, Enumerates, Down;
    if Uneventful(e) {
      hide Step;
      UneventfulQuiet(s, e);
      if !Closes(e) {
        UneventfulEnds(s, e);
      }
    } else if e.RpcAnswered? {
      if e.rid in s.table.inflight {
        AnsweredInv(s, e.rid, Answered(e.rid), e.ok, e.cat, e.plan);
      }
    } else if e.RpcTimedOut? {
      if e.rid in s.table.inflight {
        AnsweredInv(s, e.rid, TimedOut, false, TransientError, NoPlan());
      }
    } else if e.AckArrived? {
      HandleAckInv(s, e.rid, e.ack, e.retry);
    } else if e.Closed? {
      UserCloseCounts(s);
    }
  }

  // ----- Timers -----

  /** A timer that a step leaves sleeping was sleeping before, or is for the next attempt and was set by a
      session that went down. */
  lemma StepTimed(s: Session, e: Event)
    requires Inv(s) && Enabled(s, e)
    ensures var s' := Step(s, e);
            e.TimerFired? || Timed(s.attempt, s.tasks.timers, s'.tasks.timers, GoneDown(s'))
  {
    hide Inv, Later, Rolls, HandleAck, Resume, Resolve, UserClose, Enumerates, Announced, CountsRight;
    if Uneventful(e) {
      hide Step, Timed;
      UneventfulQuiet(s, e);
    } else if e.RpcAnswered? && e.rid in s.table.inflight {
      hide Timed;
      AnsweredSteady(s, e.rid, Answered(e.rid), e.ok, e.cat, e.plan);
    } else if e.RpcTimedOut? && e.rid in s.table.inflight {
      hide Timed;
      AnsweredSteady(s, e.rid, TimedOut, false, TransientError, NoPlan());
    } else if e.AckArrived? {
      hide Timed;
      if e.rid in s.table.asked {
        AskedAlone(s, e.rid);
      }
      HandleAckSteady(s, e.rid, e.ack, e.retry);
    } else if e.Closed? {
      hide Timed;
      UserCloseCounts(s);
    }
  }
}
