/** Every step of the session keeps its invariant. */
module SessionSteps {
  import opened Flows
  import opened Chronicles
  import opened Streams
  import opened StreamLaws
  import opened Sessions
  import opened SessionInvariant
  import opened SessionAsking
  import opened SessionBarrier
  import opened SessionRounds
  import opened SessionAnswers
  import opened SessionLinks
  import opened SessionCalls

  // ----- Calls going out -----

  lemma CalledTable(b: Table, est: Est, kind: Rpc)
    requires Books(b) && Awaited(b, est) && !Own(kind)
    ensures var b' := Register(NextRid(b), b.nextRid, kind);
            && Books(b') && Awaited(b', est) && (ReplayOut(b') ==> ReplayOut(b)) && b'.asked == b.asked
  {
    var b' := Register(NextRid(b), b.nextRid, kind);
    if ReplayOut(b') {
      var r :| r in b'.inflight && b'.inflight[r] == Replay;
      assert r in b.inflight && b.inflight[r] == Replay;
    }
  }

  lemma NotSentTable(b: Table, est: Est)
    requires Books(b) && Awaited(b, est)
    ensures var b' := Resolve(NextRid(b), b.nextRid, NotSent);
            && Books(b') && Awaited(b', est) && b'.inflight == b.inflight && b'.asked == b.asked
  {
    assert b.nextRid !in b.inflight;
  }

  /** A call of the user or a ping, in READY. */
  lemma CallInv(s: Session, kind: Rpc, sendOk: bool)
    requires Inv(s) && s.state.Ready? && !Own(kind)
    ensures var s' := Call(s.(table := NextRid(s.table)), s.table.nextRid, kind, CmdBusiness(kind), sendOk);
            && Inv(s') && s'.state.Ready? && s'.est.NoEst? && s'.subs == s.subs
  {
    hide AllHeld, AllSettled, NoneActive, Books, Awaited, ReplayOut, WireLawful, Limited, Archived, OnlyOwn, Own, Owes, Register, Resolve, NextRid;
    if s.open && sendOk {
      CalledTable(s.table, s.est, kind);
      LongerWire(s.wire, Sent(CmdBusiness(kind)));
      OwesLonger(s.wire, Sent(CmdBusiness(kind)));
    } else {
      NotSentTable(s.table, s.est);
      SameReplayOut(s.table, Resolve(NextRid(s.table), s.table.nextRid, NotSent));
    }
  }

  lemma SameReplayOut(b: Table, b': Table)
    requires b'.inflight == b.inflight
    ensures ReplayOut(b') == ReplayOut(b)
    ensures OnlyOwn(b') == OnlyOwn(b)
  {}

  lemma NextRidInv(s: Session)
    requires Inv(s)
    ensures Inv(s.(table := NextRid(s.table)))
  {
    hide AllHeld, AllSettled, NoneActive, Books, Awaited, ReplayOut, WireLawful, Limited, Archived, OnlyOwn, Owes, Counted;
    NextBooks(s.table);
    AskedAwaited(s.table, s.est, "");
    SameReplayOut(s.table, NextRid(s.table));
  }

  lemma CloseInv(s: Session, cat: Category)
    requires Inv(s) && (s.est.AtConnect? ==> Terminal(s))
    ensures Inv(OnTransportClose(s, cat)) && EndsDown(s, OnTransportClose(s, cat))
  {
    assert Losable(s) && Wakeable(s) by {
      hide AllHeld, AllSettled, NoneActive, Books, Awaited, ReplayOut, WireLawful, Limited, Archived, OnlyOwn, Owes, Counted;
    }
    hide Inv, Losable, Wakeable, OnTransportClose;
    OnTransportCloseInv(s, cat);
  }

  lemma BeatInv(s: Session, live: bool, sendOk: bool)
    requires Inv(s) && s.heartbeat
    ensures Inv(Beat(s, live, sendOk))
  {
    if !s.open || !live {
      assert Core(Beat(s, live, sendOk)) by {
        hide AllHeld, AllSettled, NoneActive, Books, Awaited, ReplayOut, Limited, Archived, OnlyOwn, Cautious;
      }
    } else {
      HeartbeatReady(s);
      hide Inv, Call, OnTransportClose;
      CallInv(s, Ping, sendOk);
      if !sendOk {
        CloseInv(Call(s.(table := NextRid(s.table)), s.table.nextRid, Ping, CmdBusiness(Ping), false), TransientError);
      }
    }
  }

  lemma HeartbeatReady(s: Session)
    requires Inv(s) && s.heartbeat
    ensures s.state.Ready?
  {
    hide AllHeld, AllSettled, Books, Awaited, Phases, ReplayTracked, Limited, Archived;
  }

  // ----- The replay task starts -----

  lemma ReplayTable(b: Table, est: Est)
    requires Books(b) && Awaited(b, est) && !ReplayOut(b)
    ensures var b' := Register(NextRid(b), b.nextRid, Replay);
            && Books(b') && Awaited(b', est) && ReplayOut(b') && b'.asked == b.asked
            && (OnlyOwn(b) ==> OnlyOwn(b'))
  {
    var b' := Register(NextRid(b), b.nextRid, Replay);
    assert b'.inflight[b.nextRid] == Replay;
    assert forall r :: r in b.inflight ==> b.inflight[r] != Replay;
  }

  lemma ReplayWire(w: Wire)
    requires WireLawful(w) && Owes(w)
    ensures var w' := w.(log := w.log + [Sent(CmdReplay)]);
            WireLawful(w') && Owes(w')
  {
    var log' := w.log + [Sent(CmdReplay)];
    assert forall i :: 0 <= i < |w.log| ==> log'[i] == w.log[i];
  }

  /** A queued replay means the session waits for it, and owes it. */
  lemma QueuedWaits(s: Session)
    requires Inv(s) && s.tasks.replayQueued
    ensures s.barrier.estopPending && s.est.NoEst? && !ReplayOut(s.table) && Owes(s.wire) && s.engaged
    ensures s.state.Reconnecting? || Terminal(s) || (s.state.TransientFailure? && !s.open)
  {
    hide AllHeld, AllSettled, Books, Awaited, Limited, Archived, NoneActive, Owes, ReplayOut;
  }

  lemma ReplayOutInv(s: Session)
    requires Inv(s) && s.tasks.replayQueued && s.open
    ensures Inv(StartReplay(s, true))
  {
    QueuedWaits(s);
    ReplayTable(s.table, s.est);
    ReplayWire(s.wire);
    QueuedLimited(s.opts.maxAttempts, s.attempt, s.tasks, false);
    hide AllHeld, AllSettled, NoneActive, Books, Awaited, ReplayOut, WireLawful, Limited, Archived, OnlyOwn, Owes, Register, NextRid;
  }

  /** The replay could not be sent. */
  function Unreplayed(s: Session): Session {
    s.(table := Resolve(NextRid(s.table), s.table.nextRid, NotSent), tasks := s.tasks.(replayQueued := false),
       barrier := s.barrier.(estopPending := false))
  }

  lemma UnreplayedLosable(s: Session)
    requires Inv(s) && s.tasks.replayQueued
    ensures Losable(Unreplayed(s)) && Wakeable(Unreplayed(s)) && Unreplayed(s).est.NoEst?
    ensures Terminal(s) ==> Inv(Unreplayed(s))
  {
    QueuedWaits(s);
    NotSentTable(s.table, s.est);
    SameReplayOut(s.table, Resolve(NextRid(s.table), s.table.nextRid, NotSent));
    QueuedLimited(s.opts.maxAttempts, s.attempt, s.tasks, false);
    hide AllHeld, AllSettled, NoneActive, Books, Awaited, ReplayOut, WireLawful, Limited, Archived, OnlyOwn, Owes, Resolve, NextRid, Counted;
  }

  lemma StartReplayInv(s: Session, sendOk: bool)
    requires Inv(s) && s.tasks.replayQueued
    ensures Inv(StartReplay(s, sendOk))
  {
    hide Inv, Losable, Wakeable, OnTransportClose;
    if s.open && sendOk {
      ReplayOutInv(s);
    } else {
      UnreplayedLosable(s);
      OnTransportCloseInv(Unreplayed(s), TransientError);
    }
  }

  // ----- Subscriptions come and go -----

  lemma NewHeld(t: Topic, serial: nat, conf: Conf, semantics: Semantics, asked: map<nat, Topic>)
    ensures Held(NewSlot(t, serial, conf, semantics), t, asked)
  {
    NewSlotLawful(t, serial, conf, semantics);
  }

  lemma NewSlotInv(s: Session, t: Topic, slot: Slot)
    requires Inv(s) && t !in s.subs
    requires Held(slot, t, s.table.asked) && slot.inflightId == 0 && slot.state.Pending? && !Resumes(slot)
    ensures Inv(s.(subs := s.subs[t := slot], past := s.past.(born := s.past.born + [t])))
  {
    OneHeld(s.subs, s.table.asked, t, slot);
    assert Archived(s.past.(born := s.past.born + [t])) by { hide Lawful; }
    assert OthersSettled(s.subs, s.state, t) by { LessSettled(s.subs, s.state, t); }
    OneSettled(s.subs, s.state, t, slot);
    if Waiting(s) {
      SameCounted(s.subs, s.barrier, [], t, slot);
    }
    assert NoneActive(s.subs) ==> NoneActive(s.subs[t := slot]);
    hide AllHeld, AllSettled, OthersSettled, NoneActive, Books, Awaited, ReplayOut, WireLawful, Limited, Archived, OnlyOwn, Owes, Counted, Held;
  }

  lemma SubscribeInv(s: Session, t: Topic, send: SendResult)
    requires Inv(s)
    ensures Inv(Subscribe(s, t, send))
  {
    if t !in s.subs {
      var slot := NewSlot(t, |s.past.born|, s.opts.conf, SemanticsOf(s.catalog, t));
      NewHeld(t, |s.past.born|, s.opts.conf, SemanticsOf(s.catalog, t), s.table.asked);
      var s1 := s.(subs := s.subs[t := slot], past := s.past.(born := s.past.born + [t]));
      NewSlotInv(s, t, slot);
      if s.state.Ready? {
        ReadyAlone(s);
        hide Inv, SendSubscribe;
        assert FirstRound(s1);
        AskWaiting(s1, t, send);
      }
    }
  }

  lemma ReadyAlone(s: Session)
    requires Inv(s) && s.state.Ready?
    ensures s.est.NoEst?
  {
    hide AllHeld, AllSettled, Books, Awaited, ReplayTracked, WireOk, Limited, Archived;
  }

  lemma LeaveCore(s: Session, t: Topic)
    requires Core(s)
    ensures Core(Unregister(s, t))
  {
    hide AllHeld, AllSettled, NoneActive, Books, Awaited, ReplayOut, WireLawful, Limited, Archived, OnlyOwn, Owes, Counted, Retire;
    UnregisterArchived(s, t);
    LessSubs(s.subs, s.state, s.table.asked, t);
  }

  lemma AbandonInv(s: Session, t: Topic)
    requires Inv(s) && t in s.subs
    ensures Inv(Abandon(s, t))
  {
    hide Core, Counted;
    LeaveCore(s, t);
    MoreLost(Unregister(s, t));
    if Waiting(s) {
      AbandonCounted(s.subs, s.barrier, t);
    }
  }

  /** An unsubscribe that nobody waits for. */
  lemma DropInv(s: Session, t: Topic, k: Key, sendOk: bool)
    requires Inv(s) && s.state.Ready?
    ensures var s1 := s.(table := NextRid(s.table));
            Inv(Unregister(if sendOk then Transmit(s1, Sent(CmdBusiness(Unsubscribing(k)))) else s1, t))
  {
    ReadyAlone(s);
    NextRidInv(s);
    var s1 := s.(table := NextRid(s.table));
    var s2 := if sendOk then Transmit(s1, Sent(CmdBusiness(Unsubscribing(k)))) else s1;
    assert Inv(s2) by {
      hide AllHeld, AllSettled, NoneActive, Books, Awaited, ReplayOut, WireLawful, Limited, Archived, OnlyOwn, Owes;
      LongerWire(s.wire, Sent(CmdBusiness(Unsubscribing(k))));
      OwesLonger(s.wire, Sent(CmdBusiness(Unsubscribing(k))));
    }
    hide Inv;
    UnregisteredInv(s2, t);
  }

  lemma UnsubscribeInv(s: Session, t: Topic, syncWait: bool, live: bool, sendOk: bool)
    requires Inv(s)
    ensures Inv(Unsubscribe(s, t, syncWait, live, sendOk))
  {
    hide Inv, Abandon, Unregister, Call, Transmit;
    if t in s.subs {
      var k := Key(t, s.subs[t].serial);
      if !s.state.Ready? || !s.open || !live {
        AbandonInv(s, t);
      } else if !syncWait {
        DropInv(s, t, k, sendOk);
      } else {
        CallInv(s, Unsubscribing(k), sendOk);
        if !sendOk {
          UnregisteredInv(Call(s.(table := NextRid(s.table)), s.table.nextRid, Unsubscribing(k), CmdBusiness(Unsubscribing(k)), false), t);
        }
      }
    }
  }

  // ----- Frames -----

  lemma FrameHeld(slot: Slot, slot': Slot, t: Topic, asked: map<nat, Topic>)
    requires Held(slot, t, asked) && Lawful(slot') && SameSubscription(slot, slot')
    ensures Held(slot', t, asked)
  {
    hide Lawful;
  }

  /** Frames move within one slot. */
  lemma FrameInv(s: Session, t: Topic, slot: Slot)
    requires Inv(s) && t in s.subs && Lawful(slot) && SameSubscription(s.subs[t], slot)
    requires !slot.state.Active? ==> slot.log == s.subs[t].log
    ensures Inv(s.(subs := s.subs[t := slot]))
  {
    hide Lawful;
    FrameHeld(s.subs[t], slot, t, s.table.asked);
    OneHeld(s.subs, s.table.asked, t, slot);
    FrameSettled(s.subs, s.state, t, slot);
    if Waiting(s) {
      SameCounted(s.subs, s.barrier, [], t, slot);
    }
    hide AllHeld, AllSettled, NoneActive, Books, Awaited, ReplayOut, WireLawful, Limited, Archived, OnlyOwn, Owes, Counted, Held;
  }

  /** Only an active slot tells anything of a frame. */
  lemma PushLog(slot: Slot, f: Frame)
    ensures Push(slot, f).state == slot.state && (!slot.state.Active? ==> Push(slot, f).log == slot.log)
  {
    hide Deliver;
  }

  lemma FrameSettled(subs: map<Topic, Slot>, state: ConnState, t: Topic, slot: Slot)
    requires AllSettled(subs, state) && t in subs && SameSubscription(subs[t], slot)
    requires !slot.state.Active? ==> slot.log == subs[t].log
    ensures AllSettled(subs[t := slot], state)
    ensures NoneActive(subs) ==> NoneActive(subs[t := slot])
  {}

  /** A slot that has left the registry unclosed may still hand on what it has queued. */
  lemma WorkOnInv(s: Session, k: Key)
    requires Inv(s)
    ensures Inv(WorkOn(s, k))
  {
    if Registered(s, k) {
      HeldLawful(s, k.topic);
      WorkLawful(s.subs[k.topic]);
      hide Inv, Lawful, Work;
      FrameInv(s, k.topic, Work(s.subs[k.topic]));
    } else if k in s.past.retired {
      hide Inv, Lawful, Work;
      InvHeld(s);
      WorkLawful(s.past.retired[k]);
      PastInv(s, s.past.(retired := s.past.retired[k := Work(s.past.retired[k])]));
    }
  }

  lemma PastInv(s: Session, p: Past)
    requires Inv(s) && Archived(p)
    ensures Inv(s.(past := p))
  {
    hide AllHeld, AllSettled, NoneActive, Books, Awaited, ReplayOut, WireLawful, Limited, Archived, OnlyOwn, Owes, Counted;
  }

  lemma HeldLawful(s: Session, t: Topic)
    requires Inv(s) && t in s.subs
    ensures Lawful(s.subs[t])
  {
    hide Lawful;
    assert Held(s.subs[t], t, s.table.asked);
  }

  // ----- The beginnings of a connection -----

  lemma TimerLimited(maxAttempts: int, attempt: nat, k: Tasks, task: nat)
    requires Limited(maxAttempts, attempt, k) && task in k.timers
    ensures var k' := k.(timers := k.timers - {task});
            Limited(maxAttempts, attempt, k') && Limited(maxAttempts, k.timers[task], k')
  {}

  lemma TimerInv(s: Session, task: nat)
    requires Inv(s) && Enabled(s, TimerFired(task))
    ensures Inv(Step(s, TimerFired(task)))
  {
    TimerLimited(s.opts.maxAttempts, s.attempt, s.tasks, task);
    hide AllHeld, AllSettled, NoneActive, Books, Awaited, ReplayOut, WireLawful, Limited, Archived, OnlyOwn, Owes, Counted, Enabled;
    if s.state.TransientFailure? {
      TransientAlone(s);
      EmptyAwaited(s.table, AtConnect(true, task));
    }
  }

  lemma TransientAlone(s: Session)
    requires Inv(s) && s.state.TransientFailure?
    ensures AllSettled(s.subs, Reconnecting) && s.table.inflight == map[] && !ReplayOut(s.table)
  {
    hide AllHeld, Books, Awaited, WireLawful, Limited, Archived, OnlyOwn, Owes, Counted;
  }

  lemma EmptyAwaited(b: Table, est: Est)
    requires b.inflight == map[] && est.AtConnect?
    ensures Awaited(b, est)
  {}

  lemma ConnectInv(s: Session)
    requires Inv(s)
    ensures Inv(Step(s, Connect))
  {
    if s.state.Idle? {
      EmptyAwaited(s.table, AtConnect(false, 0));
      assert AllSettled(s.subs, Connecting);
    }
    hide AllHeld, AllSettled, NoneActive, Books, Awaited, ReplayOut, WireLawful, Limited, Archived, OnlyOwn, Owes, Counted;
  }

  lemma AbortWakeable(s: Session)
    requires Inv(s) && s.tasks.aborts > 0
    ensures var s1 := s.(tasks := s.tasks.(aborts := s.tasks.aborts - 1));
            Losable(s1) && Wakeable(s1)
  {
    assert Limited(s.opts.maxAttempts, s.attempt, s.tasks.(aborts := s.tasks.aborts - 1));
    hide AllHeld, AllSettled, NoneActive, Books, Awaited, ReplayOut, WireLawful, Limited, Archived, OnlyOwn, Owes, Counted;
  }

  lemma AbortStartedInv(s: Session)
    requires Inv(s) && s.tasks.aborts > 0
    ensures Inv(Step(s, AbortStarted))
  {
    hide Inv, Losable, Wakeable, Abort;
    AbortWakeable(s);
    AbortInv(s.(tasks := s.tasks.(aborts := s.tasks.aborts - 1)), TransientError);
  }

  lemma AskedNotConnecting(s: Session, rid: nat)
    requires Inv(s) && rid in s.table.ackTimers
    ensures s.est.NoEst?
  {
    hide AllHeld, AllSettled, Awaited, ReplayTracked, WireOk, Limited, Archived;
  }

  // ----- Every step -----

  lemma StepInv(s: Session, e: Event)
    requires Inv(s) && Enabled(s, e)
    ensures Inv(Step(s, e))
  {
    hide Inv, OnTransportClose, Connected, HandleAck, Resume, Push, WorkOn, FireTimer, Abort, StartReplay, Beat, UserClose, Subscribe, Unsubscribe, Lawful, Resolve, Enumerates;
    match e {
      case Connect => ConnectInv(s);
      case ConnectOver(ok, cat, encodeOk, sendOk) => ConnectedInv(s, ok, cat, encodeOk, sendOk);
      case RpcAnswered(rid, ok, cat, plan) =>
        if rid in s.table.inflight {
          AnsweredInv(s, rid, Answered(rid), ok, cat, plan);
        }
      case RpcTimedOut(rid) =>
        if rid in s.table.inflight {
          AnsweredInv(s, rid, TimedOut, false, TransientError, NoPlan());
        }
      case AckArrived(rid, ack, retry) => HandleAckInv(s, rid, ack, retry);
      case AckTimedOut(rid) =>
        if rid in s.table.ackTimers {
          AskedNotConnecting(s, rid);
          CloseInv(s, TransientError);
        }
      case Pushed(t, f) =>
        if t in s.subs {
          HeldLawful(s, t);
          PushLawful(s.subs[t], f);
          PushLog(s.subs[t], f);
          FrameInv(s, t, Push(s.subs[t], f));
        }
      case Worked(k) => WorkOnInv(s, k);
      case TransportClosed(cat) => CloseInv(s, cat);
      case TimerFired(task) => TimerInv(s, task);
      case AbortStarted => AbortStartedInv(s);
      case ReplayStarted(sendOk) => StartReplayInv(s, sendOk);
      case HeartbeatSent(live, sendOk) => BeatInv(s, live, sendOk);
      case HeartbeatDead =>
        HeartbeatReady(s);
        ReadyAlone(s);
        CloseInv(s, TransientError);
      case Closed => UserCloseInv(s);
      case Subscribed(t, send) => SubscribeInv(s, t, send);
      case Unsubscribed(t, syncWait, live, sendOk) => UnsubscribeInv(s, t, syncWait, live, sendOk);
      case Commanded(kind, sendOk) =>
        if s.state.Ready? {
          CallInv(s, kind, sendOk);
        }
    }
  }
}
