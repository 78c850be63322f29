/** The reconnect barrier ends: every answer it waits for brings it closer, nothing takes it further away. */
module SessionProgress {
  import opened Flows
  import opened Chronicles
  import opened Streams
  import opened StreamLaws
  import opened Sessions
  import opened SessionInvariant
  import opened SessionAsking
  import opened SessionBarrier
  import opened SessionAnswers
  import opened SessionCalls
  import opened SessionSteps
  import opened SessionHistory
  import opened SessionCounts
  import opened SessionRuns

  // ----- The measure -----

  /** Asked slots that may still ask once more from scratch. */
  ghost function Unretried(subs: map<Topic, Slot>): set<Topic> {
    set t | t in subs && subs[t].inflightId != 0 && !subs[t].freshRetryDone
  }

  /** How many answers the barrier can still take. */
  ghost function AnswersLeft(subs: map<Topic, Slot>, estopPending: bool): nat {
    |Unanswered(subs)| + |Unretried(subs)| + (if estopPending then 1 else 0)
  }

  ghost function Left(s: Session): nat {
    AnswersLeft(s.subs, s.barrier.estopPending)
  }

  /** A slot is answered for good. */
  lemma AnsweredLess(subs: map<Topic, Slot>, t: Topic, subs': map<Topic, Slot>)
    requires t in subs && subs[t].inflightId != 0
    requires subs' == subs - {t} || (t in subs' && subs' == subs[t := subs'[t]] && subs'[t].inflightId == 0)
    ensures |Unanswered(subs')| + |Unretried(subs')| < |Unanswered(subs)| + |Unretried(subs)|
  {
    assert Unanswered(subs') == Unanswered(subs) - {t};
    assert Unretried(subs') == Unretried(subs) - {t};
  }

  /** A slot asks once more. */
  lemma RetriedLess(subs: map<Topic, Slot>, t: Topic, slot: Slot)
    requires t in subs && subs[t].inflightId != 0 && !subs[t].freshRetryDone
    requires slot.inflightId != 0 && slot.freshRetryDone
    ensures |Unanswered(subs[t := slot])| + |Unretried(subs[t := slot])| < |Unanswered(subs)| + |Unretried(subs)|
  {
    assert Unanswered(subs[t := slot]) == Unanswered(subs);
    assert Unretried(subs[t := slot]) == Unretried(subs) - {t};
  }

  /** A slot leaves, or one that is not asked comes or changes otherwise. */
  lemma OthersNoMore(subs: map<Topic, Slot>, t: Topic, subs': map<Topic, Slot>)
    requires subs' == subs - {t}
             || (t in subs' && subs' == subs[t := subs'[t]]
                 && (if t in subs then subs'[t].inflightId == subs[t].inflightId && subs'[t].freshRetryDone == subs[t].freshRetryDone
                     else subs'[t].inflightId == 0))
    ensures |Unanswered(subs')| + |Unretried(subs')| <= |Unanswered(subs)| + |Unretried(subs)|
  {
    if subs' == subs - {t} {
      assert Unanswered(subs') == Unanswered(subs) - {t};
      assert Unretried(subs') == Unretried(subs) - {t};
    } else {
      assert Unanswered(subs') == Unanswered(subs);
      assert Unretried(subs') == Unretried(subs);
    }
  }

  /** A round goes on, or has just ended READY. */
  predicate GoesOn(s: Session) {
    s.est.NoEst? && (s.state.Reconnecting? || s.state.Ready?)
  }

  // ----- Answers -----

  predicate MatchesReplay(s: Session, rid: nat) {
    rid in s.table.inflight && s.table.inflight[rid] == Replay
  }

  /** An answer the barrier waits for: an acknowledgement of an asked slot, or the end of the replay. */
  predicate Matching(s: Session, e: Event) {
    || (e.AckArrived? && MatchesSlot(s, e.rid))
    || ((e.RpcAnswered? || e.RpcTimedOut?) && MatchesReplay(s, e.rid))
  }

  /** Steps after which the barrier waits in vain for one more answer: an asked slot is unsubscribed, or
      its second request cannot be encoded. */
  predicate Forfeits(s: Session, e: Event) {
    || (e.Unsubscribed? && e.topic in s.subs && s.subs[e.topic].inflightId != 0)
    || (e.AckArrived? && MatchesSlot(s, e.rid) && RetryFails(s.subs[s.table.asked[e.rid]], e.ack, e.retry))
  }

  predicate RetryFails(slot: Slot, ack: Ack, retry: SendResult) {
    ack.Rejected? && ack.history && slot.semantics.EventStream? && !slot.freshRetryDone && retry.EncodeFails?
  }

  /** The round goes on with fewer answers left, and loses only forfeits. */
  ghost predicate Nearer(s: Session, s': Session, forfeit: bool) {
    && Left(s') < Left(s)
    && s'.barrier.lost == s.barrier.lost + (if forfeit then 1 else 0)
  }

  lemma FinishKeeps(s: Session, phase: bool)
    ensures var s' := Finish(s, phase);
            s'.subs == s.subs && s'.barrier.lost == s.barrier.lost && s'.barrier.estopPending == s.barrier.estopPending
  {}

  /** In `s1` the answered slot is no longer outstanding. */
  lemma AnswerNearer(s: Session, s1: Session, t: Topic, ack: Ack, retry: SendResult)
    requires Waiting(s) && t in s.subs && s.subs[t].inflightId != 0 && s1.table.nextRid >= 1
    requires s1 == s.(table := s1.table, subs := s.subs[t := Unask(s.subs[t])])
    ensures var s' := Answer(s1, t, ack, retry);
            GoesOn(s') ==> Nearer(s, s', RetryFails(s.subs[t], ack, retry))
  {
    hide Abort, OnTransportClose, Activate, Unanswered, Unretried, Finish, SendSubscribe;
    var slot := s.subs[t];
    assert s.subs[t := Unask(slot)] - {t} == s.subs - {t};
    FinishKeeps(Unregister(s1, t), true);
    match ack {
      case Refused(cat) =>
        AbortQuiet(s1, cat);
        OnTransportCloseQuiet(s1, cat);
        AnsweredLess(s.subs, t, s.subs - {t});
      case Rejected(history) =>
        if slot.semantics.EventStream? && history && !slot.freshRetryDone {
          RetryNearer(s, s1, t, retry);
        } else {
          AnsweredLess(s.subs, t, s.subs - {t});
        }
      case Granted(next) =>
        var active := Activate(Unask(slot), next);
        assert s1.subs[t := active] == s.subs[t := active] && s1.subs[t] == Unask(slot);
        AnsweredLess(s.subs, t, s.subs[t := active]);
        FinishKeeps(s1.(subs := s1.subs[t := active]), true);
    }
  }

  lemma RetryNearer(s: Session, s1: Session, t: Topic, retry: SendResult)
    requires Waiting(s) && t in s.subs && s.subs[t].inflightId != 0 && s1.table.nextRid >= 1
    requires s1 == s.(table := s1.table, subs := s.subs[t := Unask(s.subs[t])])
    requires !s.subs[t].freshRetryDone
    ensures var s' := SendSubscribe(s1.(subs := s1.subs[t := Restart(s1.subs[t])]), t, 0, retry);
            GoesOn(s') ==> Nearer(s, s', retry.EncodeFails?)
  {
    hide OnTransportClose, Unanswered, Unretried;
    var s2 := s1.(subs := s1.subs[t := Restart(s1.subs[t])]);
    var slot := Ask(s2.subs[t], s1.table.nextRid, 0, true);
    if retry.EncodeFails? {
      assert s2.subs - {t} == s.subs - {t};
      AnsweredLess(s.subs, t, s.subs - {t});
    } else if s.open && retry.SendOk? {
      assert s2.subs[t := slot] == s.subs[t := slot];
      RetriedLess(s.subs, t, slot);
    } else {
      OnTransportCloseQuiet(s2.(table := NextRid(s2.table), subs := s2.subs[t := Unask(slot)]), TransientError);
    }
  }

  lemma AckNearer(s: Session, rid: nat, ack: Ack, retry: SendResult)
    requires Inv(s) && Waiting(s) && MatchesSlot(s, rid)
    ensures var s' := HandleAck(s, rid, ack, retry);
            GoesOn(s') ==> Nearer(s, s', RetryFails(s.subs[s.table.asked[rid]], ack, retry))
  {
    hide Answer, Nearer, AllHeld, AllSettled, Awaited, Phases, ReplayTracked, WireOk, Limited, Archived, BarrierOk;
    AnswerNearer(s, Matched(s, rid), s.table.asked[rid], ack, retry);
  }

  lemma ReplayNearer(s: Session, rid: nat, o: Outcome, ok: bool, cat: Category, plan: Plan)
    requires Inv(s) && Waiting(s) && MatchesReplay(s, rid) && |plan.order| == |plan.sends|
    ensures var s' := Resume(s.(table := Resolve(s.table, rid, o)), Replay, ok, cat, plan);
            GoesOn(s') ==> Nearer(s, s', false)
  {
    hide OnTransportClose, Resolve, Core, BarrierOk;
    ReplayWaits(s, rid);
    OnTransportCloseQuiet(Replayed(s, rid, o), cat);
  }

  // ----- Everything else -----

  /** The round goes on with no more answers left than before, and loses only forfeits. */
  ghost predicate NoFurther(s: Session, s': Session, forfeit: bool) {
    && Left(s') <= Left(s)
    && s'.barrier.lost == s.barrier.lost + (if forfeit then 1 else 0)
  }

  lemma AbandonNoFurther(s: Session, t: Topic)
    requires t in s.subs
    ensures NoFurther(s, Abandon(s, t), s.subs[t].inflightId != 0)
  {
    OthersNoMore(s.subs, t, s.subs - {t});
  }

  lemma ReplayStartNoFurther(s: Session, sendOk: bool)
    requires Waiting(s)
    ensures var s' := StartReplay(s, sendOk);
            GoesOn(s') ==> NoFurther(s, s', false)
  {
    hide OnTransportClose, Register, Resolve;
    OnTransportCloseQuiet(Unreplayed(s), TransientError);
  }

  lemma SubscribedNoFurther(s: Session, t: Topic, send: SendResult)
    requires Waiting(s)
    ensures NoFurther(s, Subscribe(s, t, send), false)
  {
    if t !in s.subs {
      OthersNoMore(s.subs, t, s.subs[t := NewSlot(t, |s.past.born|, s.opts.conf, SemanticsOf(s.catalog, t))]);
    }
  }

  /** Outside READY with nobody establishing only a replay can be in flight. */
  lemma WaitingAlone(s: Session, rid: nat)
    requires Inv(s) && Waiting(s)
    ensures rid in s.table.inflight ==> MatchesReplay(s, rid)
    ensures !s.heartbeat
  {
    hide AllHeld, AllSettled, Books, ReplayTracked, Limited, Archived, BarrierOk;
  }

  lemma SelfNoFurther(s: Session, s': Session)
    requires s'.subs == s.subs && s'.barrier == s.barrier
    ensures NoFurther(s, s', false)
  {}

  lemma FramesNoFurther(s: Session, t: Topic, slot: Slot)
    requires t in s.subs && slot.inflightId == s.subs[t].inflightId && slot.freshRetryDone == s.subs[t].freshRetryDone
    ensures NoFurther(s, s.(subs := s.subs[t := slot]), false)
  {
    OthersNoMore(s.subs, t, s.subs[t := slot]);
  }

  lemma WorkOnNoFurther(s: Session, k: Key)
    ensures NoFurther(s, WorkOn(s, k), false)
  {
    hide NoFurther, Work;
    if Registered(s, k) {
      FramesNoFurther(s, k.topic, Work(s.subs[k.topic]));
    } else {
      SelfNoFurther(s, WorkOn(s, k));
    }
  }

  lemma StepNoFurther(s: Session, e: Event)
    requires Inv(s) && Enabled(s, e) && Waiting(s) && !Matching(s, e) && GoesOn(Step(s, e))
    ensures NoFurther(s, Step(s, e), Forfeits(s, e))
  {
    hide Inv, NoFurther, OnTransportClose, Push, WorkOn, Abort, StartReplay, UserClose, Subscribe, Abandon, Answer, Enumerates;
    match e {
      case ConnectOver(_, _, _, _) =>
      case RpcAnswered(rid, _, _, _) =>
        WaitingAlone(s, rid);
        SelfNoFurther(s, s);
      case RpcTimedOut(rid) =>
        WaitingAlone(s, rid);
        SelfNoFurther(s, s);
      case AckTimedOut(rid) =>
        OnTransportCloseQuiet(s, TransientError);
        SelfNoFurther(s, s);
      case Pushed(t, f) =>
        if t in s.subs {
          FramesNoFurther(s, t, Push(s.subs[t], f));
        } else {
          SelfNoFurther(s, s);
        }
      case Worked(k) => WorkOnNoFurther(s, k);
      case TransportClosed(cat) => OnTransportCloseQuiet(s, cat);
      case AbortStarted => AbortQuiet(s.(tasks := s.tasks.(aborts := s.tasks.aborts - 1)), TransientError);
      case ReplayStarted(sendOk) => ReplayStartNoFurther(s, sendOk);
      case HeartbeatSent(_, _) => WaitingAlone(s, 0);
      case HeartbeatDead => OnTransportCloseQuiet(s, TransientError);
      case Closed => UserCloseCounts(s);
      case Subscribed(t, send) => SubscribedNoFurther(s, t, send);
      case Unsubscribed(t, _, _, _) =>
        if t in s.subs {
          AbandonNoFurther(s, t);
        } else {
          SelfNoFurther(s, s);
        }
      case _ => SelfNoFurther(s, Step(s, e));
    }
  }

  lemma StepNearer(s: Session, e: Event)
    requires Inv(s) && Enabled(s, e) && Waiting(s) && Matching(s, e) && GoesOn(Step(s, e))
    ensures Nearer(s, Step(s, e), Forfeits(s, e))
  {
    hide Inv, HandleAck, Resume, Resolve, Nearer;
    match e {
      case AckArrived(rid, ack, retry) => AckNearer(s, rid, ack, retry);
      case RpcAnswered(rid, ok, cat, plan) => ReplayNearer(s, rid, Answered(rid), ok, cat, plan);
      case RpcTimedOut(rid) => ReplayNearer(s, rid, TimedOut, false, TransientError, NoPlan());
    }
  }
}
