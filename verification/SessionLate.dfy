/** What becomes of a slot that was subscribed while the reconnect barrier waited. */
module SessionLate {
  import opened Flows
  import opened Chronicles
  import opened Streams
  import opened StreamLaws
  import opened Sessions
  import opened SessionInvariant
  import opened SessionSteps
  import opened SessionHistory
  import opened SessionCounts
  import opened SessionRuns
  import opened SessionDisplaced

  // ----- Nobody new leaves -----

  lemma FewerLeaving(s: Session, s': Session, t: Topic)
    requires Fewer(s, s') && !Leaving(s.table.inflight, t)
    ensures !Leaving(s'.table.inflight, t)
  {}

  lemma SubscribeLeaving(s: Session, u: Topic, send: SendResult, t: Topic)
    requires !Leaving(s.table.inflight, t)
    ensures !Leaving(Subscribe(s, u, send).table.inflight, t)
  {
    hide SendSubscribe, Leaving;
    if u !in s.subs {
      var slot := NewSlot(u, |s.past.born|, s.opts.conf, SemanticsOf(s.catalog, u));
      var s1 := s.(subs := s.subs[u := slot], past := s.past.(born := s.past.born + [u]));
      AskCalm(s1, u, 0, send);
      if s.state.Ready? {
        FewerLeaving(s1, Subscribe(s, u, send), t);
      }
    }
  }

  lemma UnsubscribeLeaving(s: Session, u: Topic, syncWait: bool, live: bool, sendOk: bool, t: Topic)
    requires !Leaving(s.table.inflight, t) && (s.state.Ready? ==> u != t)
    ensures !Leaving(Unsubscribe(s, u, syncWait, live, sendOk).table.inflight, t)
  {
    hide Retire;
  }

  /** Only unsubscribing a topic in READY leaves an unsubscribe of it in flight. */
  lemma NobodyNewLeaves(s: Session, e: Event, t: Topic)
    requires Enabled(s, e) && !Leaving(s.table.inflight, t)
    requires e.Unsubscribed? && s.state.Ready? ==> e.topic != t
    ensures !Leaving(Step(s, e).table.inflight, t)
  {
    hide Subscribe, Unsubscribe;
    if e.Subscribed? {
      SubscribeLeaving(s, e.topic, e.send, t);
    } else if e.Unsubscribed? {
      UnsubscribeLeaving(s, e.topic, e.syncWait, e.live, e.sendOk, t);
    } else {
      hide Step, Enabled, Calm, Leaving;
      OtherSteps(s, e);
      CalmIsFewer(s, Step(s, e));
      FewerLeaving(s, Step(s, e), t);
    }
  }

  lemma CalmIsFewer(s: Session, s': Session)
    requires Calm(s, s')
    ensures Fewer(s, s')
  {}

  // ----- Nobody asks for it -----

  /** Nothing but the buffer of the slot has changed. */
  ghost predicate OnlyBuffered(x: Slot, y: Slot) {
    y == x.(flow := y.flow)
  }

  /** A registered slot that is neither asked nor live. */
  predicate Unheeded(s: Session, t: Topic) {
    t in s.subs && s.subs[t].state.Pending? && s.subs[t].inflightId == 0
  }

  /** Unless the connection is lost, a slot that is not heeded before is not heeded afterwards. */
  ghost predicate LeftAlone(s: Session, t: Topic, s': Session) {
    s'.state.Ready? && Unheeded(s, t) ==> Unheeded(s', t) && OnlyBuffered(s.subs[t], s'.subs[t])
  }

  lemma LossEnds(s: Session, cat: Category)
    requires s.state.Ready?
    ensures !OnTransportClose(s, cat).state.Ready? && !Abort(s, cat).state.Ready? && !UserClose(s).state.Ready?
  {
    hide OnTransportClose, Abort, UserClose;
    OnTransportCloseQuiet(s, cat);
    AbortQuiet(s, cat);
    UserCloseCounts(s);
  }

  /** The slot is as before, or the connection is lost. */
  lemma SameSlotAlone(s: Session, s': Session, t: Topic)
    requires s'.state.Ready? && t in s.subs ==> t in s'.subs && s'.subs[t] == s.subs[t]
    ensures LeftAlone(s, t, s')
  {}

  lemma AskLeavesAlone(s: Session, u: Topic, sinceSeq: nat, send: SendResult, t: Topic)
    requires u in s.subs && u != t && s.state.Ready?
    ensures LeftAlone(s, t, SendSubscribe(s, u, sinceSeq, send))
  {
    hide OnTransportClose, Retire, LeftAlone, Ask, Unask;
    if send.EncodeFails? || (s.open && send.SendOk?) {
      SameSlotAlone(s, SendSubscribe(s, u, sinceSeq, send), t);
    } else {
      var s1 := s.(table := NextRid(s.table), subs := s.subs[u := Unask(Ask(s.subs[u], s.table.nextRid, sinceSeq, false))]);
      assert SendSubscribe(s, u, sinceSeq, send) == OnTransportClose(s1, TransientError);
      hide SendSubscribe;
      LossEnds(s1, TransientError);
      EndedAlone(s, OnTransportClose(s1, TransientError), t);
    }
  }

  lemma AnswerLeavesAlone(s: Session, u: Topic, ack: Ack, retry: SendResult, t: Topic)
    requires u in s.subs && u != t && s.state.Ready?
    ensures LeftAlone(s, t, Answer(s, u, ack, retry))
  {
    hide OnTransportClose, Abort, SendSubscribe, Activate, Restart, Unregister, LeftAlone;
    UnregisteredAlone(s, u, t);
    match ack {
      case Refused(cat) =>
        LossEnds(s, cat);
        EndedAlone(s, OnTransportClose(s, cat), t);
        EndedAlone(s, Abort(s, cat), t);
      case Rejected(history) => RestartLeavesAlone(s, u, retry, t);
      case Granted(next) => SameSlotAlone(s, s.(subs := s.subs[u := Activate(s.subs[u], next)]), t);
    }
  }

  lemma EndedAlone(s: Session, s': Session, t: Topic)
    requires !s'.state.Ready?
    ensures LeftAlone(s, t, s')
  {}

  lemma UnregisteredAlone(s: Session, u: Topic, t: Topic)
    requires u != t
    ensures LeftAlone(s, t, Unregister(s, u))
  {
    hide Retire, LeftAlone;
    SameSlotAlone(s, Unregister(s, u), t);
  }

  lemma RestartLeavesAlone(s: Session, u: Topic, retry: SendResult, t: Topic)
    requires u in s.subs && u != t && s.state.Ready?
    ensures LeftAlone(s, t, SendSubscribe(s.(subs := s.subs[u := Restart(s.subs[u])]), u, 0, retry))
  {
    hide SendSubscribe, Restart;
    AskLeavesAlone(s.(subs := s.subs[u := Restart(s.subs[u])]), u, 0, retry, t);
  }

  lemma AckLeavesAlone(s: Session, rid: nat, ack: Ack, retry: SendResult, t: Topic)
    requires Books(s.table) && s.state.Ready?
    ensures LeftAlone(s, t, HandleAck(s, rid, ack, retry))
  {
    hide Answer;
    if MatchesSlot(s, rid) && s.table.asked[rid] != t {
      AnswerLeavesAlone(Matched(s, rid), s.table.asked[rid], ack, retry, t);
    }
  }

  lemma LeaveLeavesAlone(s: Session, k: Key, t: Topic)
    requires k.topic != t
    ensures LeftAlone(s, t, Leave(s, k))
  {
    hide Leave;
    LeaveKeeps(s, k);
  }

  lemma ResumeLeavesAlone(s: Session, s1: Session, kind: Rpc, ok: bool, cat: Category, plan: Plan, t: Topic)
    requires |plan.order| == |plan.sends| && s.est.NoEst? && s1 == s.(table := s1.table) && !kind.Replay?
    requires kind.Unsubscribing? ==> kind.key.topic != t
    ensures LeftAlone(s, t, Resume(s1, kind, ok, cat, plan))
  {
    hide OnTransportClose, HandshakeFailed, Established, Leave;
    if kind.Unsubscribing? {
      LeaveLeavesAlone(s1, kind.key, t);
    }
  }

  lemma SubscribeLeavesAlone(s: Session, u: Topic, send: SendResult, t: Topic)
    requires s.state.Ready?
    ensures LeftAlone(s, t, Subscribe(s, u, send))
  {
    hide SendSubscribe;
    if u !in s.subs && u != t {
      var slot := NewSlot(u, |s.past.born|, s.opts.conf, SemanticsOf(s.catalog, u));
      AskLeavesAlone(s.(subs := s.subs[u := slot], past := s.past.(born := s.past.born + [u])), u, 0, send, t);
    }
  }

  lemma BeatLeavesAlone(s: Session, live: bool, sendOk: bool, t: Topic)
    requires s.state.Ready?
    ensures LeftAlone(s, t, Beat(s, live, sendOk))
  {
    hide OnTransportClose;
    LossEnds(Call(s.(table := NextRid(s.table)), s.table.nextRid, Ping, CmdBusiness(Ping), sendOk), TransientError);
  }

  lemma FrameLeavesAlone(s: Session, u: Topic, f: Frame, t: Topic)
    requires u in s.subs
    ensures LeftAlone(s, t, s.(subs := s.subs[u := Push(s.subs[u], f)]))
  {
    hide Deliver;
  }

  lemma WorkLeavesAlone(s: Session, k: Key, t: Topic)
    ensures LeftAlone(s, t, WorkOn(s, k))
  {}

  lemma CallOfAnother(s: Session, rid: nat, t: Topic)
    requires !Leaving(s.table.inflight, t) && rid in s.table.inflight && s.table.inflight[rid].Unsubscribing?
    ensures s.table.inflight[rid].key.topic != t
  {}

  lemma StepLeavesAlone(s: Session, e: Event, t: Topic)
    requires Inv(s) && s.state.Ready? && Enabled(s, e) && !Leaving(s.table.inflight, t)
    requires e.Unsubscribed? ==> e.topic != t
    ensures LeftAlone(s, t, Step(s, e))
  {
    hide Inv, OnTransportClose, Connected, HandleAck, Resume, Push, WorkOn, Abort, StartReplay, Beat, UserClose, Subscribe, Close,
         Enumerates, Resolve, LeftAlone, Leaving;
    Alone(s);
    LossEnds(s, TransientError);
    SameSlotAlone(s, s, t);
    match e {
      case RpcAnswered(rid, ok, cat, plan) =>
        if rid in s.table.inflight {
          if s.table.inflight[rid].Unsubscribing? { CallOfAnother(s, rid, t); }
          ResumeLeavesAlone(s, s.(table := Resolve(s.table, rid, Answered(rid))), s.table.inflight[rid], ok, cat, plan, t);
        }
      case RpcTimedOut(rid) =>
        if rid in s.table.inflight {
          if s.table.inflight[rid].Unsubscribing? { CallOfAnother(s, rid, t); }
          ResumeLeavesAlone(s, s.(table := Resolve(s.table, rid, TimedOut)), s.table.inflight[rid], false, TransientError, NoPlan(), t);
        }
      case AckArrived(rid, ack, retry) => AckLeavesAlone(s, rid, ack, retry, t);
      case Pushed(u, f) => if u in s.subs { FrameLeavesAlone(s, u, f, t); }
      case Worked(k) => WorkLeavesAlone(s, k, t);
      case TransportClosed(cat) =>
        LossEnds(s, cat);
        SameSlotAlone(s, Step(s, e), t);
      case AbortStarted =>
        LossEnds(s.(tasks := s.tasks.(aborts := s.tasks.aborts - 1)), TransientError);
        SameSlotAlone(s, Step(s, e), t);
      case HeartbeatSent(live, sendOk) => BeatLeavesAlone(s, live, sendOk, t);
      case Subscribed(u, send) => SubscribeLeavesAlone(s, u, send, t);
      case Unsubscribed(u, syncWait, live, sendOk) => UnsubscribeLeavesAlone(s, u, syncWait, live, sendOk, t);
      case ConnectOver(_, _, _, _) =>
      case ReplayStarted(_) =>
      case _ => SameSlotAlone(s, Step(s, e), t);
    }
  }

  lemma UnsubscribeLeavesAlone(s: Session, u: Topic, syncWait: bool, live: bool, sendOk: bool, t: Topic)
    requires u != t
    ensures LeftAlone(s, t, Unsubscribe(s, u, syncWait, live, sendOk))
  {
    hide Close;
  }

  /** In READY `_establish` is not suspended and no replay is awaited. */
  lemma Alone(s: Session)
    requires Inv(s) && s.state.Ready?
    ensures Books(s.table) && s.est.NoEst? && !s.tasks.replayQueued
    ensures forall r :: r in s.table.inflight ==> !s.table.inflight[r].Replay?
  {
    hide Awaited, AllHeld, AllSettled, WireOk, Limited, Archived, BarrierOk;
    forall r | r in s.table.inflight
      ensures !s.table.inflight[r].Replay?
    {
      assert s.table.inflight[r] == Replay ==> ReplayOut(s.table);
    }
  }

  // ----- Runs -----

  /** The session is READY from `i` to `j`, and nobody unsubscribes the topic in between. */
  ghost predicate ReadyThroughout(states: seq<Session>, events: seq<Event>, i: nat, j: nat, t: Topic) {
    && i <= j < |states| == |events| + 1
    && (forall m :: i <= m <= j ==> states[m].state.Ready?)
    && (forall m :: i <= m < j && events[m].Unsubscribed? ==> events[m].topic != t)
  }

  lemma {:induction false} UnheededWhileReady(opts: Opts, states: seq<Session>, events: seq<Event>, i: nat, j: nat, t: Topic)
    requires Run(opts, states, events) && ReadyThroughout(states, events, i, j, t)
    requires Unheeded(states[i], t) && !Leaving(states[i].table.inflight, t)
    ensures Unheeded(states[j], t) && OnlyBuffered(states[i].subs[t], states[j].subs[t]) && !Leaving(states[j].table.inflight, t)
  {
    hide Inv, Step, Enabled, Leaving, Unheeded;
    if i < j {
      UnheededWhileReady(opts, states, events, i, j - 1, t);
      RunInv(opts, states, events, j - 1);
      StepLeavesAlone(states[j - 1], events[j - 1], t);
      NobodyNewLeaves(states[j - 1], events[j - 1], t);
    }
  }

  lemma NobodyLeavesYet(s: Session, t: Topic)
    requires Inv(s) && s.state.Reconnecting?
    ensures !Leaving(s.table.inflight, t)
  {
    hide Books, Awaited, AllHeld, AllSettled, ReplayTracked, WireOk, Limited, Archived, BarrierOk;
  }

  /** A slot left behind when a reconnect ends READY stays so, whatever else happens, until its topic is
      unsubscribed or the connection is lost: it is never asked for, announces nothing and admits nothing. */
  lemma LateSlotStaysLate(opts: Opts, states: seq<Session>, events: seq<Event>, i: nat, j: nat, t: Topic)
    requires Run(opts, states, events) && ReadyThroughout(states, events, i + 1, j, t)
    requires states[i].state.Reconnecting? && t in states[i + 1].subs && t !in states[i + 1].barrier.round
    ensures t in states[j].subs
    ensures var x, y := states[i + 1].subs[t], states[j].subs[t];
            && y.state.Pending? && y.inflightId == 0 && y.serial == x.serial
            && y.log == x.log && y.flow.admitted == x.flow.admitted
  {
    hide Inv, Step, Enabled, Leaving, Lawful;
    RunInv(opts, states, events, i);
    NobodyLeavesYet(states[i], t);
    NobodyNewLeaves(states[i], events[i], t);
    LateSlotsLeftBehind(opts, states, events, i, t);
    UnheededWhileReady(opts, states, events, i + 1, j, t);
    var x, y := states[i + 1].subs[t], states[j].subs[t];
    SlotLawful(opts, states, events, i + 1, Key(t, x.serial));
    SlotLawful(opts, states, events, j, Key(t, x.serial));
    SameRecord(x, y);
  }

  lemma SameRecord(x: Slot, y: Slot)
    requires Lawful(x) && Lawful(y) && x.log == y.log
    ensures x.flow.admitted == y.flow.admitted
  {}
}
