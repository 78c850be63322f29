/** The history of a connection says the truth about its heartbeat: only a loop that found its socket closed has quit. */
module SessionQuits {
  import opened Flows
  import opened Chronicles
  import opened Streams
  import opened Sessions
  import opened SessionInvariant
  import opened SessionRuns

  ghost predicate NoQuit(s: Session, s': Session) {
    s'.wire.quit ==> s.wire.quit
  }

  lemma HandshakeFailedNoQuit(s: Session, cat: Category)
    ensures HandshakeFailed(s, cat).wire == s.wire
  {
    hide Flush, RetireAll;
  }

  lemma WakeNoQuit(s: Session, before: Table, cat: Category)
    ensures Wake(s, before, cat).wire == s.wire
  {
    hide LeaveUpTo, ReplayOut, HandshakeFailed, Flush, Pause;
    LeaveUpToKeeps(s, before.inflight, before.nextRid);
    var s1 := LeaveAll(s, before);
    var s2 := if ReplayOut(before) then ReplayFailed(s1) else s1;
    HandshakeFailedNoQuit(s2, cat);
  }

  lemma LossNoQuit(s: Session, cat: Category)
    ensures OnTransportClose(s, cat).wire == s.wire && Abort(s, cat).wire == s.wire && UserClose(s).wire == s.wire
  {
    hide Wake, Flush, RetireAll, Pause;
    WakeNoQuit(LoseConnection(s, cat), s.table, cat);
    WakeNoQuit(AbortBody(s, cat), s.table, cat);
    WakeNoQuit(CloseBody(s), s.table, LocalError);
  }

  lemma AskNoQuit(s: Session, t: Topic, sinceSeq: nat, send: SendResult)
    requires t in s.subs
    ensures NoQuit(s, SendSubscribe(s, t, sinceSeq, send))
  {
    hide OnTransportClose, Ask, Unask, Retire;
    var slot := Ask(s.subs[t], s.table.nextRid, sinceSeq, s.state.Reconnecting?);
    LossNoQuit(s.(table := NextRid(s.table), subs := s.subs[t := Unask(slot)]), TransientError);
  }

  lemma {:induction false} RoundNoQuit(s: Session, order: seq<Topic>, sends: seq<SendResult>)
    requires |order| == |sends|
    ensures NoQuit(s, Resubscribe(s, order, sends)) && NoQuit(s, SubscribeWaiting(s, order, sends))
    decreases |order|
  {
    hide SendSubscribe, BeginRound;
    if order != [] {
      RoundNoQuit(s, order[1..], sends[1..]);
      if order[0] in s.subs {
        var slot := BeginRound(s.subs[order[0]]);
        var s1 := s.(subs := s.subs[order[0] := slot]);
        AskNoQuit(s1, order[0], SinceSeq(slot, s.opts.replayHistory), sends[0]);
        RoundNoQuit(SendSubscribe(s1, order[0], SinceSeq(slot, s.opts.replayHistory), sends[0]), order[1..], sends[1..]);
        AskNoQuit(s, order[0], 0, sends[0]);
        RoundNoQuit(SendSubscribe(s, order[0], 0, sends[0]), order[1..], sends[1..]);
      }
    }
  }

  lemma AnswerNoQuit(s: Session, t: Topic, ack: Ack, retry: SendResult)
    requires t in s.subs
    ensures NoQuit(s, Answer(s, t, ack, retry))
  {
    hide OnTransportClose, Abort, SendSubscribe, Activate, Restart, Retire;
    if ack.Refused? {
      LossNoQuit(s, ack.cat);
    }
    AskNoQuit(s.(subs := s.subs[t := Restart(s.subs[t])]), t, 0, retry);
  }

  lemma EstablishedNoQuit(s: Session, reconnect: bool, plan: Plan)
    requires |plan.order| == |plan.sends|
    ensures NoQuit(s, Established(s, reconnect, plan))
  {
    hide Resubscribe, SubscribeWaiting;
    var s1 := Learn(s, plan.catalog);
    RoundNoQuit(s1.(state := Ready, heartbeat := s.opts.heartbeatOn), plan.order, plan.sends);
    var s2 := SetBarrier(s1);
    RoundNoQuit(s2.(wire := s2.wire.(waited := true)), plan.order, plan.sends);
  }

  lemma ResumeNoQuit(s: Session, kind: Rpc, ok: bool, cat: Category, plan: Plan)
    requires |plan.order| == |plan.sends|
    ensures NoQuit(s, Resume(s, kind, ok, cat, plan))
  {
    hide OnTransportClose, Established, HandshakeFailed, Retire, Displace, CloseAgain;
    match kind {
      case Handshake =>
        HandshakeFailedNoQuit(s, cat);
        EstablishedNoQuit(s, s.est.AtHandshake? && s.est.reconnect, plan);
      case Replay => LossNoQuit(s.(barrier := s.barrier.(estopPending := false)), cat);
      case _ =>
    }
  }

  lemma ConnectedNoQuit(s: Session, ok: bool, cat: Category, encodeOk: bool, sendOk: bool)
    requires s.est.AtConnect?
    ensures NoQuit(s, Connected(s, ok, cat, encodeOk, sendOk))
  {
    hide Abort, HandshakeFailed;
    LossNoQuit(s.(est := NoEst), cat);
    var s1 := s.(table := NextRid(s.table), open := true, wire := Wire(s.est.reconnect, s.engaged, false, false, []));
    LossNoQuit(s1.(est := NoEst), cat);
    HandshakeFailedNoQuit(Call(s1, s.table.nextRid, Handshake, CmdHandshake, false), TransientError);
  }

  lemma CallsNoQuit(s: Session, sendOk: bool)
    ensures NoQuit(s, StartReplay(s, sendOk))
    ensures s.open ==> NoQuit(s, Beat(s, true, sendOk))
  {
    hide OnTransportClose;
    var s1 := Call(s.(table := NextRid(s.table), tasks := s.tasks.(replayQueued := false)), s.table.nextRid, Replay, CmdReplay, sendOk);
    LossNoQuit(s1.(barrier := s1.barrier.(estopPending := false)), TransientError);
    LossNoQuit(Call(s.(table := NextRid(s.table)), s.table.nextRid, Ping, CmdBusiness(Ping), sendOk), TransientError);
  }

  lemma SubscribersNoQuit(s: Session, t: Topic, send: SendResult, syncWait: bool, live: bool, sendOk: bool)
    ensures NoQuit(s, Subscribe(s, t, send)) && NoQuit(s, Unsubscribe(s, t, syncWait, live, sendOk))
  {
    hide SendSubscribe, Retire;
    if t !in s.subs {
      var slot := NewSlot(t, |s.past.born|, s.opts.conf, SemanticsOf(s.catalog, t));
      AskNoQuit(s.(subs := s.subs[t := slot], past := s.past.(born := s.past.born + [t])), t, 0, send);
    }
  }

  /** A heartbeat loop quits only when it is about to ping and finds its socket closed. */
  lemma OnlyClosedSocketQuits(s: Session, e: Event)
    requires Enabled(s, e) && Step(s, e).wire.quit && !s.wire.quit
    ensures e.HeartbeatSent? && (!s.open || !e.live)
  {
    hide OnTransportClose, Connected, Resume, Answer, Push, WorkOn, FireTimer, Abort, StartReplay, Beat, UserClose, Subscribe, Unsubscribe, Resolve, Enumerates;
    match e {
      case ConnectOver(ok, cat, encodeOk, sendOk) => ConnectedNoQuit(s, ok, cat, encodeOk, sendOk);
      case RpcAnswered(rid, ok, cat, plan) =>
        if rid in s.table.inflight {
          ResumeNoQuit(s.(table := Resolve(s.table, rid, Answered(rid))), s.table.inflight[rid], ok, cat, plan);
        }
      case RpcTimedOut(rid) =>
        if rid in s.table.inflight {
          ResumeNoQuit(s.(table := Resolve(s.table, rid, TimedOut)), s.table.inflight[rid], false, TransientError, NoPlan());
        }
      case AckArrived(rid, ack, retry) =>
        if MatchesSlot(s, rid) {
          AnswerNoQuit(Matched(s, rid), s.table.asked[rid], ack, retry);
        }
      case AckTimedOut(rid) => LossNoQuit(s, TransientError);
      case Worked(k) => WorkNoQuit(s, k);
      case TransportClosed(cat) => LossNoQuit(s, cat);
      case TimerFired(task) => TimerNoQuit(s, task);
      case AbortStarted => LossNoQuit(s.(tasks := s.tasks.(aborts := s.tasks.aborts - 1)), TransientError);
      case ReplayStarted(sendOk) => CallsNoQuit(s, sendOk);
      case HeartbeatSent(live, sendOk) => CallsNoQuit(s, sendOk);
      case HeartbeatDead => LossNoQuit(s, TransientError);
      case Closed => LossNoQuit(s, TransientError);
      case Subscribed(t, send) => SubscribersNoQuit(s, t, send, false, false, false);
      case Unsubscribed(t, syncWait, live, sendOk) => SubscribersNoQuit(s, t, SendOk, syncWait, live, sendOk);
      case _ =>
    }
  }

  lemma WorkNoQuit(s: Session, k: Key)
    ensures NoQuit(s, WorkOn(s, k))
  {
    hide Work;
  }

  lemma TimerNoQuit(s: Session, task: nat)
    requires task in s.tasks.timers
    ensures NoQuit(s, FireTimer(s, task))
  {}

  /** In a READY session with heartbeats on, whose connection did not have to wait, the heartbeat runs unless
      on this connection, at some earlier step, the loop found the socket closed. */
  lemma WatchedUnlessClosed(opts: Opts, states: seq<Session>, events: seq<Event>, k: nat)
    requires Run(opts, states, events) && k < |states|
    requires states[k].state.Ready? && states[k].opts.heartbeatOn && !states[k].wire.waited && !states[k].heartbeat
    ensures exists i :: 0 <= i < k && QuitAt(states, events, i) && forall j :: i < j <= k ==> states[j].wire.quit
  {
    HeartbeatRunsIff(opts, states, events, k);
    QuitSomewhere(opts, states, events, k);
  }

  ghost predicate QuitAt(states: seq<Session>, events: seq<Event>, i: nat)
    requires i < |events| && i < |states|
  {
    events[i].HeartbeatSent? && (!states[i].open || !events[i].live)
  }

  lemma {:induction false} QuitSomewhere(opts: Opts, states: seq<Session>, events: seq<Event>, k: nat)
    requires Run(opts, states, events) && k < |states| && states[k].wire.quit
    ensures exists i :: 0 <= i < k && QuitAt(states, events, i) && forall j :: i < j <= k ==> states[j].wire.quit
  {
    hide Step, Enabled;
    assert k > 0;
    if states[k - 1].wire.quit {
      QuitSomewhere(opts, states, events, k - 1);
      var i :| 0 <= i < k - 1 && QuitAt(states, events, i) && forall j :: i < j <= k - 1 ==> states[j].wire.quit;
      assert forall j :: i < j <= k ==> states[j].wire.quit;
    } else {
      OnlyClosedSocketQuits(states[k - 1], events[k - 1]);
      assert QuitAt(states, events, k - 1);
    }
  }
}
