/** When a subscription can leave the registry unclosed: exactly if it was made while an unsubscribe of its
    topic was still in flight. */
module SessionDisplaced {
  import opened Flows
  import opened Chronicles
  import opened Streams
  import opened Sessions
  import opened SessionInvariant
  import opened SessionHistory
  import opened SessionSteps
  import opened SessionCounts
  import opened SessionRuns

  // ----- Who is in danger -----

  /** Some call unsubscribes another subscription of the topic of `k`. */
  ghost predicate Stale(calls: map<nat, Rpc>, k: Key) {
    exists r :: r in calls && calls[r].Unsubscribing? && calls[r].key.topic == k.topic && calls[r].key != k
  }

  ghost predicate Threatened(s: Session, k: Key) {
    Registered(s, k) && Stale(s.table.inflight, k)
  }

  /** Nobody is registered and no unsubscribe is made. */
  ghost predicate Fewer(s: Session, s': Session) {
    && (forall t :: t in s'.subs ==> t in s.subs && s'.subs[t].serial == s.subs[t].serial)
    && (forall r :: r in s'.table.inflight && s'.table.inflight[r].Unsubscribing? ==>
          r in s.table.inflight && s.table.inflight[r] == s'.table.inflight[r])
  }

  ghost predicate Pushes(s: Session, s': Session) {
    forall k :: k in s'.past.displaced ==> k in s.past.displaced || Threatened(s, k)
  }

  /** Nobody new is in danger, and only those in danger are pushed out. */
  ghost predicate Calm(s: Session, s': Session) {
    Fewer(s, s') && Pushes(s, s')
  }

  lemma CalmTrans(s: Session, s1: Session, s2: Session)
    requires Calm(s, s1) && Calm(s1, s2)
    ensures Calm(s, s2)
  {
    forall k | Threatened(s1, k)
      ensures Threatened(s, k)
    {
      FewerThreatened(s, s1, k);
    }
  }

  lemma FewerThreatened(s: Session, s': Session, k: Key)
    requires Fewer(s, s') && Threatened(s', k)
    ensures Threatened(s, k)
  {
    var r :| r in s'.table.inflight && s'.table.inflight[r].Unsubscribing? && s'.table.inflight[r].key.topic == k.topic && s'.table.inflight[r].key != k;
    assert r in s.table.inflight;
  }

  /** Nothing about the registry or the calls changes but that some leave or end. */
  lemma SameDisplacedCalm(s: Session, s': Session)
    requires Fewer(s, s') && s'.past.displaced == s.past.displaced
    ensures Calm(s, s')
  {}

  // ----- Waking -----

  /** Slots leave on account of the unsubscribes in `calls`. */
  ghost predicate LeftFor(s: Session, s': Session, calls: map<nat, Rpc>) {
    && s' == s.(subs := s'.subs, barrier := s'.barrier, past := s'.past)
    && (forall t :: t in s'.subs ==> t in s.subs && s'.subs[t] == s.subs[t])
    && (forall k :: k in s'.past.displaced ==> k in s.past.displaced || (Registered(s, k) && Stale(calls, k)))
  }

  lemma LeaveFor(s: Session, s1: Session, calls: map<nat, Rpc>, r: nat)
    requires LeftFor(s, s1, calls) && r in calls && calls[r].Unsubscribing?
    ensures LeftFor(s, Leave(s1, calls[r].key), calls)
  {
    hide Close;
    var key := calls[r].key;
    var s2 := Leave(s1, key);
    forall k | k in s2.past.displaced && k !in s1.past.displaced
      ensures Registered(s, k) && Stale(calls, k)
    {
      assert Registered(s1, k) && k.topic == key.topic && k != key;
    }
  }

  lemma {:induction false} LeaveUpToFor(s: Session, calls: map<nat, Rpc>, n: nat)
    ensures LeftFor(s, LeaveUpTo(s, calls, n), calls)
  {
    hide Leave;
    if n > 0 {
      LeaveUpToFor(s, calls, n - 1);
      if n - 1 in calls && calls[n - 1].Unsubscribing? {
        LeaveFor(s, LeaveUpTo(s, calls, n - 1), calls, n - 1);
      }
    }
  }

  lemma HandshakeFailedCalm(s: Session, cat: Category)
    ensures Calm(s, HandshakeFailed(s, cat))
  {
    SameDisplacedCalm(s, HandshakeFailed(s, cat));
  }

  /** `s1` is `s` with its calls ended. */
  lemma WakeCalm(s: Session, s1: Session, cat: Category)
    requires s1.table.inflight == map[] && s1.past.displaced == s.past.displaced
    requires forall t :: t in s1.subs ==> t in s.subs && s1.subs[t].serial == s.subs[t].serial
    ensures Calm(s, Wake(s1, s.table, cat))
  {
    hide LeaveUpTo, ReplayOut, HandshakeFailed, Flush, Pause, Stale, Threatened, Calm;
    var calls := s.table.inflight;
    LeaveUpToFor(s1, calls, s.table.nextRid);
    var s2 := LeaveAll(s1, s.table);
    var s3 := if ReplayOut(s.table) then ReplayFailed(s2) else s2;
    LeftCalm(s, s1, s2);
    ReplayFailedCalm(s2);
    if ReplayOut(s.table) {
      CalmTrans(s, s2, s3);
    }
    HandshakeFailedCalm(s3, cat);
    if s3.est.AtHandshake? && s3.est.rid in calls {
      CalmTrans(s, s3, HandshakeFailed(s3, cat));
    }
  }

  lemma LeftCalm(s: Session, s1: Session, s2: Session)
    requires s1.table.inflight == map[] && s1.past.displaced == s.past.displaced
    requires forall t :: t in s1.subs ==> t in s.subs && s1.subs[t].serial == s.subs[t].serial
    requires LeftFor(s1, s2, s.table.inflight)
    ensures Calm(s, s2)
  {
    hide Stale;
  }

  lemma PauseSerial(slot: Slot)
    ensures Pause(slot).serial == slot.serial
  {}

  lemma ReplayFailedCalm(s: Session)
    ensures Calm(s, ReplayFailed(s))
  {
    hide Pause;
    forall t | t in s.subs
      ensures Pause(s.subs[t]).serial == s.subs[t].serial
    {
      PauseSerial(s.subs[t]);
    }
    SameDisplacedCalm(s, ReplayFailed(s));
  }

  lemma SelfCalm(s: Session)
    ensures Calm(s, s)
  {}

  lemma OnTransportCloseCalm(s: Session, cat: Category)
    ensures Calm(s, OnTransportClose(s, cat))
  {
    hide Pause, Wake, Calm;
    SelfCalm(s);
    forall t | t in s.subs
      ensures Pause(s.subs[t]).serial == s.subs[t].serial
    {
      PauseSerial(s.subs[t]);
    }
    WakeCalm(s, LoseConnection(s, cat), cat);
  }

  lemma AbortCalm(s: Session, cat: Category)
    ensures Calm(s, Abort(s, cat)) && Calm(s, UserClose(s))
  {
    hide Wake, Calm;
    SelfCalm(s);
    WakeCalm(s, AbortBody(s, cat), cat);
    WakeCalm(s, CloseBody(s), LocalError);
  }

  // ----- Handlers -----

  lemma SlotCalm(s: Session, t: Topic, slot: Slot)
    requires t in s.subs && slot.serial == s.subs[t].serial
    ensures Calm(s, s.(subs := s.subs[t := slot]))
  {}

  lemma UnregisterCalm(s: Session, t: Topic)
    ensures Calm(s, Unregister(s, t))
  {
    SameDisplacedCalm(s, Unregister(s, t));
  }

  lemma AskCalm(s: Session, t: Topic, sinceSeq: nat, send: SendResult)
    requires t in s.subs
    ensures Calm(s, SendSubscribe(s, t, sinceSeq, send))
  {
    hide OnTransportClose, Calm, Close;
    var slot := Unask(Ask(s.subs[t], s.table.nextRid, sinceSeq, s.state.Reconnecting?));
    var s1 := s.(table := NextRid(s.table), subs := s.subs[t := slot]);
    SameDisplacedCalm(s, s1);
    OnTransportCloseCalm(s1, TransientError);
    CalmTrans(s, s1, OnTransportClose(s1, TransientError));
    if send.EncodeFails? || (s.open && send.SendOk?) {
      SameDisplacedCalm(s, SendSubscribe(s, t, sinceSeq, send));
    }
  }

  lemma {:induction false} RoundCalm(s: Session, order: seq<Topic>, sends: seq<SendResult>)
    requires |order| == |sends|
    ensures Calm(s, Resubscribe(s, order, sends)) && Calm(s, SubscribeWaiting(s, order, sends))
    decreases |order|
  {
    hide SendSubscribe, Calm;
    SelfCalm(s);
    if order != [] {
      RoundCalm(s, order[1..], sends[1..]);
      if order[0] in s.subs {
        var slot := BeginRound(s.subs[order[0]]);
        var s1 := s.(subs := s.subs[order[0] := slot]);
        var since := SinceSeq(slot, s.opts.replayHistory);
        var s2 := SendSubscribe(s1, order[0], since, sends[0]);
        SlotCalm(s, order[0], slot);
        AskCalm(s1, order[0], since, sends[0]);
        CalmTrans(s, s1, s2);
        RoundCalm(s2, order[1..], sends[1..]);
        CalmTrans(s, s2, Resubscribe(s2, order[1..], sends[1..]));
        var s3 := SendSubscribe(s, order[0], 0, sends[0]);
        AskCalm(s, order[0], 0, sends[0]);
        RoundCalm(s3, order[1..], sends[1..]);
        CalmTrans(s, s3, SubscribeWaiting(s3, order[1..], sends[1..]));
      }
    }
  }

  lemma FinishCalm(s: Session, s1: Session, phase: bool)
    requires Calm(s, s1)
    ensures Calm(s, Finish(s1, phase))
  {
    SameDisplacedCalm(s1, Finish(s1, phase));
    CalmTrans(s, s1, Finish(s1, phase));
  }

  lemma AnswerCalm(s: Session, t: Topic, ack: Ack, retry: SendResult)
    requires t in s.subs
    ensures Calm(s, Answer(s, t, ack, retry))
  {
    hide OnTransportClose, Abort, SendSubscribe, Activate, Unregister, Finish, Calm;
    UnregisterCalm(s, t);
    match ack {
      case Refused(cat) =>
        OnTransportCloseCalm(s, cat);
        AbortCalm(s, cat);
        FinishCalm(s, Unregister(s, t), s.state.Reconnecting?);
      case Rejected(history) =>
        var s1 := s.(subs := s.subs[t := Restart(s.subs[t])]);
        SlotCalm(s, t, Restart(s.subs[t]));
        AskCalm(s1, t, 0, retry);
        CalmTrans(s, s1, SendSubscribe(s1, t, 0, retry));
        FinishCalm(s, Unregister(s, t), s.state.Reconnecting?);
      case Granted(next) =>
        ActivateExtends(s.subs[t], next);
        SlotCalm(s, t, Activate(s.subs[t], next));
        FinishCalm(s, s.(subs := s.subs[t := Activate(s.subs[t], next)]), s.state.Reconnecting?);
    }
  }

  lemma HandleAckCalm(s: Session, rid: nat, ack: Ack, retry: SendResult)
    ensures Calm(s, HandleAck(s, rid, ack, retry))
  {
    hide Answer, Calm;
    if MatchesSlot(s, rid) {
      SameDisplacedCalm(s, Matched(s, rid));
      AnswerCalm(Matched(s, rid), s.table.asked[rid], ack, retry);
      CalmTrans(s, Matched(s, rid), HandleAck(s, rid, ack, retry));
    } else {
      SameDisplacedCalm(s, HandleAck(s, rid, ack, retry));
    }
  }

  lemma EstablishedCalm(s: Session, reconnect: bool, plan: Plan)
    requires |plan.order| == |plan.sends|
    ensures Calm(s, Established(s, reconnect, plan))
  {
    hide Resubscribe, SubscribeWaiting, Calm;
    var s1 := Learn(s, plan.catalog);
    var ready := s1.(state := Ready, heartbeat := s.opts.heartbeatOn);
    var s2 := SetBarrier(s1);
    var waiting := s2.(wire := s2.wire.(waited := true));
    SameDisplacedCalm(s, ready);
    SameDisplacedCalm(s, waiting);
    SameDisplacedCalm(s, ReachReady(s2).(heartbeat := s.opts.heartbeatOn));
    RoundCalm(ready, plan.order, plan.sends);
    RoundCalm(waiting, plan.order, plan.sends);
    CalmTrans(s, ready, SubscribeWaiting(ready, plan.order, plan.sends));
    var s3 := Resubscribe(waiting, plan.order, plan.sends);
    CalmTrans(s, waiting, s3);
    SameDisplacedCalm(s3, s3.(tasks := s3.tasks.(replayQueued := s3.tasks.replayQueued || s3.barrier.estopPending)));
    CalmTrans(s, s3, s3.(tasks := s3.tasks.(replayQueued := s3.tasks.replayQueued || s3.barrier.estopPending)));
  }

  lemma ReplayResumeCalm(s: Session, ok: bool, cat: Category, plan: Plan)
    requires |plan.order| == |plan.sends|
    ensures Calm(s, Resume(s, Replay, ok, cat, plan))
  {
    hide OnTransportClose, Calm;
    var s1 := s.(barrier := s.barrier.(estopPending := false));
    SameDisplacedCalm(s, s1);
    if ok {
      SameDisplacedCalm(s, Resume(s, Replay, ok, cat, plan));
    } else {
      OnTransportCloseCalm(s1, cat);
      CalmTrans(s, s1, OnTransportClose(s1, cat));
    }
  }

  /** The coroutine awaiting call `rid` resumes. */
  lemma ResumeCalm(s: Session, rid: nat, o: Outcome, ok: bool, cat: Category, plan: Plan)
    requires rid in s.table.inflight && |plan.order| == |plan.sends|
    ensures Calm(s, Resume(s.(table := Resolve(s.table, rid, o)), s.table.inflight[rid], ok, cat, plan))
  {
    hide OnTransportClose, Established, HandshakeFailed, Calm;
    var s1 := s.(table := Resolve(s.table, rid, o));
    var kind := s.table.inflight[rid];
    var s' := Resume(s1, kind, ok, cat, plan);
    SameDisplacedCalm(s, s1);
    match kind {
      case Handshake =>
        if s1.est.AtHandshake? {
          HandshakeFailedCalm(s1, cat);
          EstablishedCalm(s1, s1.est.reconnect, plan);
          CalmTrans(s, s1, s');
        }
      case Replay =>
        ReplayResumeCalm(s1, ok, cat, plan);
        CalmTrans(s, s1, s');
      case Unsubscribing(k) => AnsweredUnsubscribeCalm(s, s1, rid, k);
      case _ => SameDisplacedCalm(s, s');
    }
  }

  lemma AnsweredUnsubscribeCalm(s: Session, s1: Session, rid: nat, k: Key)
    requires rid in s.table.inflight && s.table.inflight[rid] == Unsubscribing(k)
    requires s1 == s.(table := s1.table) && Fewer(s, s1)
    ensures Calm(s, Leave(s1, k))
  {
    hide Close;
    var s2 := Leave(s1, k);
    LeaveKeeps(s1, k);
    forall j | j in s2.past.displaced && j !in s.past.displaced
      ensures Threatened(s, j)
    {
      assert Registered(s, j) && j.topic == k.topic && j != k;
    }
  }

  lemma ConnectedCalm(s: Session, ok: bool, cat: Category, encodeOk: bool, sendOk: bool)
    requires s.est.AtConnect?
    ensures Calm(s, Connected(s, ok, cat, encodeOk, sendOk))
  {
    hide Abort, HandshakeFailed, Calm;
    var s' := Connected(s, ok, cat, encodeOk, sendOk);
    var s1 := s.(table := NextRid(s.table), open := true, wire := Wire(s.est.reconnect, s.engaged, false, false, []));
    var s2 := Call(s1, s.table.nextRid, Handshake, CmdHandshake, false);
    SameDisplacedCalm(s, s.(est := NoEst));
    AbortCalm(s.(est := NoEst), cat);
    CalmTrans(s, s.(est := NoEst), Abort(s.(est := NoEst), cat));
    SameDisplacedCalm(s, s1.(est := NoEst));
    AbortCalm(s1.(est := NoEst), cat);
    CalmTrans(s, s1.(est := NoEst), Abort(s1.(est := NoEst), cat));
    SameDisplacedCalm(s, s2);
    HandshakeFailedCalm(s2, TransientError);
    CalmTrans(s, s2, HandshakeFailed(s2, TransientError));
    if (!ok && !cat.FatalError?) || (ok && encodeOk && sendOk) {
      SameDisplacedCalm(s, s');
    }
  }

  lemma StartReplayCalm(s: Session, sendOk: bool)
    ensures Calm(s, StartReplay(s, sendOk))
  {
    hide OnTransportClose, Calm;
    var s1 := Call(s.(table := NextRid(s.table), tasks := s.tasks.(replayQueued := false)), s.table.nextRid, Replay, CmdReplay, sendOk);
    var s2 := s1.(barrier := s1.barrier.(estopPending := false));
    SameDisplacedCalm(s, s1);
    SameDisplacedCalm(s, s2);
    OnTransportCloseCalm(s2, TransientError);
    CalmTrans(s, s2, OnTransportClose(s2, TransientError));
  }

  lemma BeatCalm(s: Session, live: bool, sendOk: bool)
    ensures Calm(s, Beat(s, live, sendOk))
  {
    hide OnTransportClose, Calm;
    var s1 := Call(s.(table := NextRid(s.table)), s.table.nextRid, Ping, CmdBusiness(Ping), sendOk);
    SameDisplacedCalm(s, s1);
    SameDisplacedCalm(s, s.(heartbeat := false, wire := s.wire.(quit := true)));
    OnTransportCloseCalm(s1, TransientError);
    CalmTrans(s, s1, OnTransportClose(s1, TransientError));
  }

  // ----- Steps -----

  /** Some call unsubscribes the topic. */
  ghost predicate Leaving(calls: map<nat, Rpc>, t: Topic) {
    exists r :: r in calls && calls[r].Unsubscribing? && calls[r].key.topic == t
  }

  /** The slot `k` is subscribed, while an unsubscribe of its topic is in flight. */
  ghost predicate TooEarly(s: Session, e: Event, k: Key) {
    e.Subscribed? && e.topic !in s.subs && k == Key(e.topic, |s.past.born|) && Leaving(s.table.inflight, e.topic)
  }

  /** After a step a slot is in danger, or pushed out, only if it was in danger before or was subscribed too
      early. */
  ghost predicate StepsCalmly(s: Session, e: Event, s': Session) {
    forall k :: Threatened(s', k) || (k in s'.past.displaced && k !in s.past.displaced) ==> Threatened(s, k) || TooEarly(s, e, k)
  }

  lemma CalmSteps(s: Session, e: Event, s': Session)
    requires Calm(s, s')
    ensures StepsCalmly(s, e, s')
  {
    forall k | Threatened(s', k)
      ensures Threatened(s, k)
    {
      FewerThreatened(s, s', k);
    }
  }

  /** A new slot is in danger if it comes under the topic of an unsubscribe in flight. */
  lemma NewInDanger(s: Session, s1: Session, e: Event)
    requires e.Subscribed? && e.topic !in s.subs && s1.table == s.table && s1.past.displaced == s.past.displaced
    requires e.topic in s1.subs && s1.subs[e.topic].serial == |s.past.born|
    requires forall t :: t in s1.subs && t != e.topic ==> t in s.subs && s1.subs[t] == s.subs[t]
    ensures forall k :: Threatened(s1, k) ==> Threatened(s, k) || TooEarly(s, e, k)
  {}

  lemma AddedSteps(s: Session, s1: Session, e: Event, s': Session)
    requires Calm(s1, s') && s1.past.displaced == s.past.displaced
    requires forall k :: Threatened(s1, k) ==> Threatened(s, k) || TooEarly(s, e, k)
    ensures StepsCalmly(s, e, s')
  {
    CalmSteps(s1, e, s');
    forall k | Threatened(s', k) || (k in s'.past.displaced && k !in s.past.displaced)
      ensures Threatened(s, k) || TooEarly(s, e, k)
    {
      if Threatened(s', k) {
        FewerThreatened(s1, s', k);
      }
    }
  }

  lemma SubscribeSteps(s: Session, t: Topic, send: SendResult)
    ensures StepsCalmly(s, Subscribed(t, send), Subscribe(s, t, send))
  {
    hide SendSubscribe, Calm, StepsCalmly, TooEarly, Threatened;
    var e := Subscribed(t, send);
    var s' := Subscribe(s, t, send);
    SelfCalm(s);
    CalmSteps(s, e, s);
    if t !in s.subs {
      var slot := NewSlot(t, |s.past.born|, s.opts.conf, SemanticsOf(s.catalog, t));
      var s1 := s.(subs := s.subs[t := slot], past := s.past.(born := s.past.born + [t]));
      SelfCalm(s1);
      AskCalm(s1, t, 0, send);
      NewInDanger(s, s1, e);
      AddedSteps(s, s1, e, s');
    }
  }

  /** A new unsubscribe endangers nobody: it is for the slot registered now. */
  lemma OwnUnsubscribe(s: Session, t: Topic, s': Session, e: Event)
    requires t in s.subs && s'.subs == s.subs && s'.past == s.past
    requires s'.table.inflight == s.table.inflight[s.table.nextRid := Unsubscribing(Key(t, s.subs[t].serial))]
    ensures StepsCalmly(s, e, s')
  {
    forall k | Threatened(s', k)
      ensures Threatened(s, k)
    {
      var calls := s'.table.inflight;
      var r :| r in calls && calls[r].Unsubscribing? && calls[r].key.topic == k.topic && calls[r].key != k;
      assert r != s.table.nextRid;
      assert r in s.table.inflight;
    }
  }

  lemma UnsubscribeSteps(s: Session, t: Topic, syncWait: bool, live: bool, sendOk: bool)
    ensures StepsCalmly(s, Unsubscribed(t, syncWait, live, sendOk), Unsubscribe(s, t, syncWait, live, sendOk))
  {
    hide StepsCalmly, Calm, Close;
    var e := Unsubscribed(t, syncWait, live, sendOk);
    var s' := Unsubscribe(s, t, syncWait, live, sendOk);
    if t in s.subs && s.state.Ready? && s.open && live && syncWait && sendOk {
      OwnUnsubscribe(s, t, s', e);
    } else {
      SameDisplacedCalm(s, s');
      CalmSteps(s, e, s');
    }
  }

  lemma WorkOnCalm(s: Session, k: Key)
    ensures Calm(s, WorkOn(s, k))
  {
    SameDisplacedCalm(s, WorkOn(s, k));
  }

  lemma CallCalm(s: Session, s': Session, rid: nat, kind: Rpc)
    requires !kind.Unsubscribing? && s'.subs == s.subs && s'.past == s.past
    requires s'.table.inflight == s.table.inflight[rid := kind] || s'.table.inflight == s.table.inflight - {rid}
    ensures Calm(s, s')
  {
    hide Stale;
  }

  lemma OrderCalm(s: Session, kind: Rpc, sendOk: bool)
    requires !kind.Unsubscribing?
    ensures Calm(s, Order(s, kind, sendOk))
  {
    hide Calm;
    SelfCalm(s);
    if s.state.Ready? {
      CallCalm(s, Order(s, kind, sendOk), s.table.nextRid, kind);
    }
  }

  lemma TimerCalm(s: Session, task: nat)
    requires task in s.tasks.timers
    ensures Calm(s, FireTimer(s, task))
  {
    SameDisplacedCalm(s, FireTimer(s, task));
  }

  /** Steps that register nobody and make no unsubscribe. */
  lemma OtherSteps(s: Session, e: Event)
    requires Enabled(s, e) && !e.Subscribed? && !e.Unsubscribed?
    ensures Calm(s, Step(s, e))
  {
    hide Calm, OnTransportClose, Connected, HandleAck, Resume, Push, WorkOn, FireTimer, Abort, StartReplay, Beat, UserClose, Order, Resolve, Enumerates;
    SelfCalm(s);
    match e {
      case Connect => SameDisplacedCalm(s, Step(s, e));
      case ConnectOver(ok, cat, encodeOk, sendOk) => ConnectedCalm(s, ok, cat, encodeOk, sendOk);
      case RpcAnswered(rid, ok, cat, plan) =>
        if rid in s.table.inflight {
          ResumeCalm(s, rid, Answered(rid), ok, cat, plan);
        }
      case RpcTimedOut(rid) =>
        if rid in s.table.inflight {
          ResumeCalm(s, rid, TimedOut, false, TransientError, NoPlan());
        }
      case AckArrived(rid, ack, retry) => HandleAckCalm(s, rid, ack, retry);
      case AckTimedOut(rid) => OnTransportCloseCalm(s, TransientError);
      case Pushed(t, f) =>
        if t in s.subs {
          SlotCalm(s, t, Push(s.subs[t], f));
        }
      case Worked(k) => WorkOnCalm(s, k);
      case TransportClosed(cat) => OnTransportCloseCalm(s, cat);
      case TimerFired(task) => TimerCalm(s, task);
      case AbortStarted =>
        var s1 := s.(tasks := s.tasks.(aborts := s.tasks.aborts - 1));
        SameDisplacedCalm(s, s1);
        AbortCalm(s1, TransientError);
        CalmTrans(s, s1, Abort(s1, TransientError));
      case ReplayStarted(sendOk) => StartReplayCalm(s, sendOk);
      case HeartbeatSent(live, sendOk) => BeatCalm(s, live, sendOk);
      case HeartbeatDead => OnTransportCloseCalm(s, TransientError);
      case Closed => AbortCalm(s, TransientError);
      case Commanded(kind, sendOk) => OrderCalm(s, kind, sendOk);
    }
  }

  lemma StepCalmly(s: Session, e: Event)
    requires Enabled(s, e)
    ensures StepsCalmly(s, e, Step(s, e))
  {
    hide StepsCalmly, Calm, Subscribe, Unsubscribe;
    if e.Subscribed? {
      SubscribeSteps(s, e.topic, e.send);
    } else if e.Unsubscribed? {
      UnsubscribeSteps(s, e.topic, e.syncWait, e.live, e.sendOk);
    } else {
      hide Step, Enabled;
      OtherSteps(s, e);
      CalmSteps(s, e, Step(s, e));
    }
  }

  // ----- Runs -----

  lemma NobodyThreatened(opts: Opts)
    ensures Init(opts).past.displaced == {} && forall k :: !Threatened(Init(opts), k)
  {}

  lemma {:induction false} DangerHasCause(opts: Opts, states: seq<Session>, events: seq<Event>, n: nat, k: Key)
    requires Run(opts, states, events) && n < |states|
    requires Threatened(states[n], k) || k in states[n].past.displaced
    ensures exists i :: 0 <= i < n && TooEarly(states[i], events[i], k)
  {
    hide Step, Enabled, Threatened, TooEarly;
    if n == 0 {
      NobodyThreatened(opts);
      assert false;
    }
    StepCalmly(states[n - 1], events[n - 1]);
    if TooEarly(states[n - 1], events[n - 1], k) {
      assert 0 <= n - 1 < n;
    } else {
      DangerHasCause(opts, states, events, n - 1, k);
    }
  }

  /** A slot that was not subscribed while an unsubscribe of its topic was in flight is, once it has left the
      registry, closed, and has told so last. */
  lemma GoneIsClosed(opts: Opts, states: seq<Session>, events: seq<Event>, n: nat, k: Key)
    requires Run(opts, states, events) && n < |states| && k in states[n].past.retired
    requires forall i :: 0 <= i < n ==> !TooEarly(states[i], events[i], k)
    ensures states[n].past.retired[k].state.Closed? && Story(states[n].past.retired[k].log).Over?
  {
    hide Step, Enabled, Threatened, TooEarly;
    RunRolled(opts, states, events, n);
    if k in states[n].past.displaced {
      DangerHasCause(opts, states, events, n, k);
    }
    SlotLawful(opts, states, events, n, k);
  }

  // ----- Exactly when a subscription is safe -----

  /** The slot is never out of the registry without being closed. */
  ghost predicate NeverGoneUnclosed(states: seq<Session>, k: Key) {
    forall i :: 0 <= i < |states| && k in states[i].past.retired ==> states[i].past.retired[k].state.Closed?
  }

  /** A slot that has been registered and is not in danger. */
  ghost predicate Safe(s: Session, k: Key) {
    && Inv(s) && Rolled(s.subs, s.past) && k.serial < |s.past.born|
    && !Threatened(s, k) && k !in s.past.displaced
  }

  lemma SafeStep(s: Session, e: Event, k: Key)
    requires Safe(s, k) && Enabled(s, e)
    ensures Safe(Step(s, e), k)
  {
    hide Inv, Step, Enabled, Threatened, Later, Rolled, CountsRight;
    StepCalmly(s, e);
    StepInv(s, e);
    StepCounts(s, e);
  }

  lemma {:induction false} SafePath(states: seq<Session>, events: seq<Event>, k: Key, n: nat)
    requires Path(states, events) && Safe(states[0], k) && n < |states|
    ensures Safe(states[n], k)
  {
    hide Safe, Step, Enabled;
    if n > 0 {
      SafePath(states, events, k, n - 1);
      SafeStep(states[n - 1], events[n - 1], k);
    }
  }

  /** Every unsubscribe in flight is of a slot that has been registered. */
  ghost predicate KnownLeavers(s: Session) {
    forall r :: r in s.table.inflight && s.table.inflight[r].Unsubscribing? ==> s.table.inflight[r].key.serial < |s.past.born|
  }

  lemma FewerKnown(s: Session, s': Session)
    requires KnownLeavers(s) && Fewer(s, s') && |s.past.born| <= |s'.past.born|
    ensures KnownLeavers(s')
  {}

  lemma SubscribeFewer(s: Session, t: Topic, send: SendResult)
    requires KnownLeavers(s) && |s.past.born| <= |Subscribe(s, t, send).past.born|
    ensures KnownLeavers(Subscribe(s, t, send))
  {
    hide SendSubscribe;
    if t !in s.subs {
      var slot := NewSlot(t, |s.past.born|, s.opts.conf, SemanticsOf(s.catalog, t));
      AskCalm(s.(subs := s.subs[t := slot], past := s.past.(born := s.past.born + [t])), t, 0, send);
    }
  }

  lemma UnsubscribeKnown(s: Session, t: Topic, syncWait: bool, live: bool, sendOk: bool)
    requires KnownLeavers(s) && (t in s.subs ==> s.subs[t].serial < |s.past.born|)
    ensures KnownLeavers(Unsubscribe(s, t, syncWait, live, sendOk))
  {
    hide Close;
  }

  lemma KnownStep(s: Session, e: Event)
    requires Inv(s) && Rolled(s.subs, s.past) && KnownLeavers(s) && Enabled(s, e)
    ensures Rolled(Step(s, e).subs, Step(s, e).past) && KnownLeavers(Step(s, e))
  {
    StepCounts(s, e);
    hide Inv, KnownLeavers, Later, CountsRight, Subscribe, Unsubscribe, Fewer;
    if e.Subscribed? {
      SubscribeFewer(s, e.topic, e.send);
    } else if e.Unsubscribed? {
      UnsubscribeKnown(s, e.topic, e.syncWait, e.live, e.sendOk);
    } else {
      hide Step, Enabled;
      OtherSteps(s, e);
      FewerKnown(s, Step(s, e));
    }
  }

  lemma {:induction false} RunKnown(opts: Opts, states: seq<Session>, events: seq<Event>, n: nat)
    requires Run(opts, states, events) && n < |states|
    ensures KnownLeavers(states[n])
  {
    hide Step, Enabled, Rolled, Inv;
    if n > 0 {
      RunKnown(opts, states, events, n - 1);
      RunRolled(opts, states, events, n - 1);
      RunInv(opts, states, events, n - 1);
      KnownStep(states[n - 1], events[n - 1]);
    }
  }

  /** Until the first call that unsubscribes another slot of its topic resumes the slot is registered, and
      from then on it is out of the registry unclosed. */
  lemma {:induction false} PushedOutBy(s: Session, k: Key, calls: map<nat, Rpc>, n: nat)
    requires Registered(s, k)
    requires forall r :: r in calls && calls[r].Unsubscribing? ==> calls[r].key != k
    ensures var s' := LeaveUpTo(s, calls, n);
            if exists r :: 0 <= r < n && r in calls && calls[r].Unsubscribing? && calls[r].key.topic == k.topic
            then k in s'.past.displaced else Registered(s', k)
  {
    if n > 0 {
      PushedOutBy(s, k, calls, n - 1);
    }
    hide Close;
  }

  /** The slot's subscribe is lost with the connection, and the unsubscribes in flight resume. */
  lemma LostIsPushedOut(s: Session, k: Key)
    requires !Terminal(s) && Registered(s, k) && Books(s.table) && Leaving(s.table.inflight, k.topic)
    requires forall r :: r in s.table.inflight && s.table.inflight[r].Unsubscribing? ==> s.table.inflight[r].key != k
    ensures k in OnTransportClose(s, TransientError).past.displaced
  {
    var s1 := LoseConnection(s, TransientError);
    assert Registered(s1, k) && s1.past == s.past by {
      PauseSerial(s.subs[k.topic]);
      hide Flush;
    }
    PushedOutBy(s1, k, s.table.inflight, s.table.nextRid);
    hide LoseConnection, LeaveUpTo, ReplayOut;
    WokenStayOut(s1, s.table, TransientError, k);
  }

  lemma WokenStayOut(s: Session, before: Table, cat: Category, k: Key)
    requires k in LeaveAll(s, before).past.displaced
    ensures k in Wake(s, before, cat).past.displaced
  {
    hide LeaveAll, ReplayOut, ReplayFailed, HandshakeFailed;
    var s1 := LeaveAll(s, before);
    var s2 := if ReplayOut(before) then ReplayFailed(s1) else s1;
    FailuresKeepPast(s1, cat);
    FailuresKeepPast(s2, cat);
  }

  lemma FailuresKeepPast(s: Session, cat: Category)
    ensures ReplayFailed(s).past == s.past && HandshakeFailed(s, cat).past.displaced == s.past.displaced
  {
    hide Flush, Pause, Close, PlanReconnect;
  }

  lemma NewBorn(s: Session, t: Topic, send: SendResult)
    requires t !in s.subs && Rolled(s.subs, s.past)
    ensures |s.past.born| < |Subscribe(s, t, send).past.born|
  {
    hide SendSubscribe, Rolled, Later;
    var slot := NewSlot(t, |s.past.born|, s.opts.conf, SemanticsOf(s.catalog, t));
    var s1 := s.(subs := s.subs[t := slot], past := s.past.(born := s.past.born + [t]));
    RollsNew(s.subs, s.past, t, slot);
    SendSubscribeQuiet(s1, t, 0, send);
  }

  /** Outside READY nobody is unsubscribing. */
  lemma OnlyReadyLeaves(s: Session, t: Topic)
    requires Inv(s) && Leaving(s.table.inflight, t)
    ensures s.state.Ready? && s.est.NoEst? && Books(s.table)
  {
    hide Awaited, AllHeld, AllSettled, ReplayTracked, WireOk, Limited, Archived, BarrierOk;
  }

  /** A subscribe that cannot be encoded is closed at once. */
  lemma UnencodedIsGone(s: Session, t: Topic)
    requires t !in s.subs && s.state.Ready?
    ensures var s0 := Subscribe(s, t, EncodeFails);
            !Threatened(s0, Key(t, |s.past.born|)) && s0.past.displaced == s.past.displaced
  {
    hide Close, Stale;
  }

  lemma NewInNoDanger(s: Session, t: Topic, send: SendResult)
    requires t !in s.subs && Key(t, |s.past.born|) !in s.past.displaced && !Leaving(s.table.inflight, t)
    ensures var k, s0 := Key(t, |s.past.born|), Subscribe(s, t, send);
            !Threatened(s0, k) && k !in s0.past.displaced
  {
    hide Subscribe, Stale;
    SubscribeSteps(s, t, send);
  }

  lemma SubscribeIsStep(s: Session, t: Topic, send: SendResult)
    ensures Enabled(s, Subscribed(t, send)) && Step(s, Subscribed(t, send)) == Subscribe(s, t, send)
  {}

  lemma NotYetDisplaced(s: Session, t: Topic)
    requires Rolled(s.subs, s.past)
    ensures Key(t, |s.past.born|) !in s.past.displaced
  {}

  lemma NewIsSafe(s: Session, t: Topic, send: SendResult)
    requires Inv(s) && Rolled(s.subs, s.past) && t !in s.subs && (!Leaving(s.table.inflight, t) || send.EncodeFails?)
    ensures Safe(Subscribe(s, t, send), Key(t, |s.past.born|))
  {
    hide Step, Enabled, Inv, Rolled, Subscribe, Threatened, Leaving;
    var k, s0 := Key(t, |s.past.born|), Subscribe(s, t, send);
    SubscribeIsStep(s, t, send);
    NotYetDisplaced(s, t);
    StepInv(s, Subscribed(t, send));
    SubscribeRolled(s, t, send);
    NewBorn(s, t, send);
    if Leaving(s.table.inflight, t) {
      OnlyReadyLeaves(s, t);
      UnencodedIsGone(s, t);
    } else {
      NewInNoDanger(s, t, send);
    }
  }

  /** The state after a subscribe that went out, or was lost with the connection. */
  lemma NewInTrouble(s: Session, t: Topic, send: SendResult)
    requires Inv(s) && KnownLeavers(s) && t !in s.subs && Leaving(s.table.inflight, t) && !send.EncodeFails?
    ensures var k, s0 := Key(t, |s.past.born|), Subscribe(s, t, send);
            k in s0.past.displaced || (Registered(s0, k) && s0.table.inflight == s.table.inflight)
  {
    OnlyReadyLeaves(s, t);
    hide Inv;
    if s.open && send.SendOk? {
      NewGoesOut(s, t);
    } else {
      NewIsLost(s, t, send);
    }
  }

  lemma NewGoesOut(s: Session, t: Topic)
    requires s.state.Ready? && s.open && t !in s.subs
    ensures var s0 := Subscribe(s, t, SendOk);
            Registered(s0, Key(t, |s.past.born|)) && s0.table.inflight == s.table.inflight
  {
    hide OnTransportClose;
  }

  lemma NewIsLost(s: Session, t: Topic, send: SendResult)
    requires s.state.Ready? && t !in s.subs && !send.EncodeFails? && !(s.open && send.SendOk?)
    requires Books(s.table) && KnownLeavers(s) && Leaving(s.table.inflight, t)
    ensures Key(t, |s.past.born|) in Subscribe(s, t, send).past.displaced
  {
    var slot := NewSlot(t, |s.past.born|, s.opts.conf, SemanticsOf(s.catalog, t));
    var asked := Unask(Ask(slot, s.table.nextRid, 0, false));
    var s2 := s.(table := NextRid(s.table), subs := s.subs[t := slot][t := asked], past := s.past.(born := s.past.born + [t]));
    hide OnTransportClose, Books, Leaving;
    assert Subscribe(s, t, send) == OnTransportClose(s2, TransientError);
    hide Subscribe;
    BooksNext(s.table);
    LostIsPushedOut(s2, Key(t, |s.past.born|));
  }

  lemma BooksNext(b: Table)
    requires Books(b)
    ensures Books(NextRid(b))
  {}

  /** Then some continuation leaves it out of the registry unclosed. */
  lemma WayOutUnclosed(s: Session, t: Topic, send: SendResult) returns (states: seq<Session>, events: seq<Event>)
    requires Inv(s) && Rolled(s.subs, s.past) && KnownLeavers(s)
    requires t !in s.subs && Leaving(s.table.inflight, t) && !send.EncodeFails?
    ensures Path(states, events) && states[0] == Subscribe(s, t, send)
    ensures !NeverGoneUnclosed(states, Key(t, |s.past.born|))
  {
    var k, s0 := Key(t, |s.past.born|), Subscribe(s, t, send);
    NewInTrouble(s, t, send);
    SubscribeRolled(s, t, send);
    hide Subscribe, Path, NeverGoneUnclosed, Inv, Rolled, KnownLeavers, Leaving;
    if k in s0.past.displaced {
      states, events := OutAlready(s0, k);
    } else {
      var r := StaleCall(s, t);
      states, events := PushOut(s0, r, k);
    }
  }

  lemma OutAlready(s: Session, k: Key) returns (states: seq<Session>, events: seq<Event>)
    requires Rolled(s.subs, s.past) && k in s.past.displaced
    ensures Path(states, events) && states[0] == s && !NeverGoneUnclosed(states, k)
  {
    hide Step, Enabled, Rolled;
    DisplacedIsUnclosed(s, k);
    states, events := [s], [];
    assert k in states[0].past.retired;
  }

  lemma StaleCall(s: Session, t: Topic) returns (r: nat)
    requires KnownLeavers(s) && Leaving(s.table.inflight, t)
    ensures var calls := s.table.inflight;
            r in calls && calls[r].Unsubscribing? && calls[r].key.topic == t && calls[r].key != Key(t, |s.past.born|)
  {
    r :| r in s.table.inflight && s.table.inflight[r].Unsubscribing? && s.table.inflight[r].key.topic == t;
  }

  lemma PushOut(s: Session, r: nat, k: Key) returns (states: seq<Session>, events: seq<Event>)
    requires Rolled(s.subs, s.past) && Registered(s, k) && r in s.table.inflight && s.table.inflight[r].Unsubscribing?
    requires s.table.inflight[r].key.topic == k.topic && s.table.inflight[r].key != k
    ensures Path(states, events) && states[0] == s && !NeverGoneUnclosed(states, k)
  {
    hide Step, Enabled, Rolled;
    var e := RpcAnswered(r, true, TransientError, NoPlan());
    AnswerEnabled(s, r);
    TooEarlyIsPushedOut(s, r, true, NoPlan());
    states, events := [s, Step(s, e)], [e];
    assert k in states[1].past.retired;
  }

  lemma SubscribeRolled(s: Session, t: Topic, send: SendResult)
    requires Rolled(s.subs, s.past)
    ensures Rolled(Subscribe(s, t, send).subs, Subscribe(s, t, send).past)
  {
    hide Rolled, Later, Subscribe, Quiet;
    SubscribeQuiet(s, t, send);
    QuietRolled(s, Subscribe(s, t, send));
  }

  lemma QuietRolled(s: Session, s': Session)
    requires Quiet(s, s') && Rolled(s.subs, s.past)
    ensures Rolled(s'.subs, s'.past)
  {
    hide Later, Timed;
  }

  lemma DisplacedIsUnclosed(s: Session, k: Key)
    requires Rolled(s.subs, s.past) && k in s.past.displaced
    ensures k in s.past.retired && !s.past.retired[k].state.Closed?
  {}

  lemma AnswerEnabled(s: Session, r: nat)
    requires r in s.table.inflight && s.table.inflight[r].Unsubscribing?
    ensures Enabled(s, RpcAnswered(r, true, TransientError, NoPlan()))
  {}

  /** A slot registered while an unsubscribe of an earlier one of its topic is in flight is pushed out, as it
      is, when that unsubscribe is answered. */
  lemma TooEarlyIsPushedOut(s: Session, rid: nat, ok: bool, plan: Plan)
    requires rid in s.table.inflight && s.table.inflight[rid].Unsubscribing?
    requires var k := s.table.inflight[rid].key; k.topic in s.subs && s.subs[k.topic].serial != k.serial
    requires Enabled(s, RpcAnswered(rid, ok, TransientError, plan)) && Rolled(s.subs, s.past)
    ensures var t := s.table.inflight[rid].key.topic;
            var s' := Step(s, RpcAnswered(rid, ok, TransientError, plan));
            var lost := Key(t, s.subs[t].serial);
            t !in s'.subs && lost in s'.past.retired && s'.past.retired[lost] == s.subs[t] && !s.subs[t].state.Closed?
  {}

  /** A new subscription never leaves the registry unclosed, whatever happens to it, if and only if no
      unsubscribe of its topic is in flight when it is made, or it cannot be encoded (then it is closed at
      once). */
  lemma SubscribedSafelyIff(opts: Opts, states: seq<Session>, events: seq<Event>, t: Topic, send: SendResult)
    requires Run(opts, states, events) && t !in states[|events|].subs
    ensures var s := states[|events|];
            (!Leaving(s.table.inflight, t) || send.EncodeFails?)
            <==> (forall states': seq<Session>, events': seq<Event> ::
                    Path(states', events') && states'[0] == Step(s, Subscribed(t, send)) ==>
                      NeverGoneUnclosed(states', Key(t, |s.past.born|)))
  {
    var s := states[|events|];
    var k, s0 := Key(t, |s.past.born|), Subscribe(s, t, send);
    assert Step(s, Subscribed(t, send)) == s0;
    hide Step, Enabled, Inv, Rolled, KnownLeavers, Leaving, Subscribe;
    RunInv(opts, states, events, |events|);
    RunRolled(opts, states, events, |events|);
    RunKnown(opts, states, events, |events|);
    if !Leaving(s.table.inflight, t) || send.EncodeFails? {
      NewIsSafe(s, t, send);
      forall states': seq<Session>, events': seq<Event> | Path(states', events') && states'[0] == s0
        ensures NeverGoneUnclosed(states', k)
      {
        SafeForGood(states', events', k);
      }
    } else {
      var states', events' := WayOutUnclosed(s, t, send);
      assert Path(states', events') && states'[0] == s0 && !NeverGoneUnclosed(states', k);
    }
  }

  lemma SafeForGood(states: seq<Session>, events: seq<Event>, k: Key)
    requires Path(states, events) && Safe(states[0], k)
    ensures NeverGoneUnclosed(states, k)
  {
    hide Path, Inv, Threatened;
    forall i | 0 <= i < |states| && k in states[i].past.retired
      ensures states[i].past.retired[k].state.Closed?
    {
      SafePath(states, events, k, i);
    }
  }
}
