/** What a request of the user does, and what becomes of a call. */
module SessionOrders {
  import opened Flows
  import opened Chronicles
  import opened Streams
  import opened StreamLaws
  import opened Sessions
  import opened SessionInvariant
  import opened SessionCalls
  import opened SessionSteps
  import opened SessionHistory
  import opened SessionEndings
  import opened SessionDisplaced
  import opened SessionSlots
  import opened SessionLosses
  import opened SessionVerdicts

  // ----- Calls -----

  /** The call is in flight under the next id and its request is the last thing sent; nothing else happens. */
  ghost predicate GoesOut(s: Session, s': Session, kind: Rpc, cmd: Command) {
    && s' == s.(table := s'.table, wire := s'.wire)
    && s'.table == s.table.(nextRid := s.table.nextRid + 1, inflight := s.table.inflight[s.table.nextRid := kind])
    && s'.wire == s.wire.(log := s.wire.log + [Sent(cmd)])
  }

  /** The call has ended under the next id without being sent; nothing else happens. */
  ghost predicate NeverSent(s: Session, s': Session) {
    && s' == s.(table := s'.table)
    && s'.table == s.table.(nextRid := s.table.nextRid + 1, inflight := s.table.inflight - {s.table.nextRid},
                            ended := s.table.ended[s.table.nextRid := NotSent])
  }

  lemma ReadyOpen(s: Session)
    requires Inv(s) && s.state.Ready?
    ensures s.open && s.est.NoEst? && Books(s.table)
  {
    hide Awaited, AllHeld, AllSettled, ReplayTracked, WireOk, Limited, Archived, BarrierOk, NoneActive;
  }

  /** A command goes out exactly in READY; otherwise nothing happens. */
  lemma CommandGoesOut(s: Session, kind: Rpc, sendOk: bool)
    requires Inv(s) && Enabled(s, Commanded(kind, sendOk))
    ensures var s' := Step(s, Commanded(kind, sendOk));
            if !s.state.Ready? then s' == s
            else if sendOk then GoesOut(s, s', kind, CmdBusiness(kind))
            else NeverSent(s, s')
  {
    if s.state.Ready? {
      ReadyOpen(s);
    }
    hide Inv;
  }

  /** A heartbeat goes out as a ping; one that cannot be sent gives the connection up; and the loop ends when it
      finds the socket closed. */
  lemma PingGoesOut(s: Session, live: bool, sendOk: bool)
    requires Inv(s) && Enabled(s, HeartbeatSent(live, sendOk))
    ensures var s' := Step(s, HeartbeatSent(live, sendOk));
            if !live then s' == s.(heartbeat := false, wire := s.wire.(quit := true))
            else if sendOk then GoesOut(s, s', Ping, CmdBusiness(Ping))
            else GivenUp(s, s', TransientError) && s.table.nextRid in s'.table.ended && s'.table.ended[s.table.nextRid] == NotSent
  {
    HeartbeatReady(s);
    ReadyOpen(s);
    InvBreakable(s);
    hide Inv, OnTransportClose, Breakable, GivenUp;
    if live && !sendOk {
      var s1 := Call(s.(table := NextRid(s.table)), s.table.nextRid, Ping, CmdBusiness(Ping), false);
      UnsentBreakable(s, s1);
      UnsentGivesUp(s, s1);
    }
  }

  lemma UnsentBreakable(s: Session, s1: Session)
    requires Breakable(s) && NeverSent(s, s1) && s.est.NoEst?
    ensures Breakable(s1) && s1.table.inflight == s.table.inflight
  {
    hide Limited;
  }

  /** A request that could not be sent, and then a loss. */
  lemma UnsentGivesUp(s: Session, s1: Session)
    requires NeverSent(s, s1) && Breakable(s1) && s.est.NoEst? && s1.table.inflight == s.table.inflight
    ensures var s' := OnTransportClose(s1, TransientError);
            GivenUp(s, s', TransientError) && s.table.nextRid in s'.table.ended && s'.table.ended[s.table.nextRid] == NotSent
  {
    hide OnTransportClose, GivenUp, Later, Timed, Rolls, Breakable;
    LossGivesUp(s1, TransientError);
    SameGivenUp(s, s1, OnTransportClose(s1, TransientError), TransientError);
    OnTransportCloseQuiet(s1, TransientError);
    EndedStay(s1, OnTransportClose(s1, TransientError), s.table.nextRid);
  }

  lemma EndedStay(s: Session, s': Session, rid: nat)
    requires Later(s.table, s'.table) && Breakable(s) && rid in s.table.ended
    ensures rid in s'.table.ended && s'.table.ended[rid] == s.table.ended[rid]
  {
    hide Limited;
  }

  /** A call of the user, other than an unsubscribe. */
  predicate OfTheUser(kind: Rpc) {
    !kind.Handshake? && !kind.Replay? && !kind.Unsubscribing?
  }

  /** An answer ends its own call as answered, a timeout as timed out, and neither does anything else but for an
      accepted emergency stop, which is remembered. */
  lemma CallEnds(s: Session, rid: nat, ok: bool, cat: Category, plan: Plan)
    requires Enabled(s, RpcAnswered(rid, ok, cat, plan)) && rid in s.table.inflight && OfTheUser(s.table.inflight[rid])
    ensures var kind := s.table.inflight[rid];
            && Step(s, RpcAnswered(rid, ok, cat, plan)) ==
                 s.(table := s.table.(inflight := s.table.inflight - {rid}, ended := s.table.ended[rid := Answered(rid)]),
                    engaged := if kind.EStop? && ok then kind.engage else s.engaged)
            && Step(s, RpcTimedOut(rid)) ==
                 s.(table := s.table.(inflight := s.table.inflight - {rid}, ended := s.table.ended[rid := TimedOut]))
  {}

  /** `close()` ends every call in flight with a local error, the abort with a transient one, and both cancel
      the current reconnect timer. */
  lemma ClosingEndsCalls(s: Session, e: Event, rid: nat)
    requires Inv(s) && Enabled(s, e) && (e.AbortStarted? || (e.Closed? && !s.state.Shutdown?))
    ensures var s' := Step(s, e);
            && (rid in s.table.inflight ==>
                  rid in s'.table.ended && s'.table.ended[rid] == Aborted(if e.Closed? then LocalError else TransientError))
            && s.tasks.reconnectTask !in s'.tasks.timers
  {
    InvLimits(s);
    InvTable(s);
    hide Inv, Wake, Flush, RetireAll, Later, Timed, Rolls, Limited;
    var cat := if e.Closed? then LocalError else TransientError;
    var s0 := if e.Closed? then s else s.(tasks := s.tasks.(aborts := s.tasks.aborts - 1));
    var s1 := if e.Closed? then CloseBody(s) else AbortBody(s0, cat);
    WakeQuiet(s1, s.table, cat);
    FlushedEnd(s.table, cat, rid);
    assert s1.table == Flush(s.table, cat) && Step(s, e) == Wake(s1, s.table, cat);
    if rid in s.table.inflight {
      KeptEnded(s1.table, Wake(s1, s.table, cat).table, rid);
    }
    CancelledStays(s1, s.table, cat, s.tasks.reconnectTask);
  }

  lemma InvTable(s: Session)
    requires Inv(s)
    ensures Books(s.table)
  {
    hide Books, Awaited, AllHeld, AllSettled, Phases, ReplayTracked, WireOk, Limited, Archived, BarrierOk;
  }

  lemma FlushedEnd(b: Table, cat: Category, rid: nat)
    requires Books(b)
    ensures Books(Flush(b, cat))
    ensures rid in b.inflight ==> rid in Flush(b, cat).ended && Flush(b, cat).ended[rid] == Aborted(cat)
  {}

  lemma KeptEnded(b: Table, b': Table, rid: nat)
    requires Books(b) && Later(b, b') && rid in b.ended
    ensures rid in b'.ended && b'.ended[rid] == b.ended[rid]
  {}

  lemma CancelledStays(s: Session, before: Table, cat: Category, task: nat)
    requires Terminal(s) && !cat.FatalError? && task < s.tasks.nextTask && task !in s.tasks.timers
    ensures task !in Wake(s, before, cat).tasks.timers
  {
    hide LeaveUpTo, ReplayOut, AbortBody;
    LeaveUpToKeeps(s, before.inflight, before.nextRid);
  }

  // ----- Subscriptions -----

  /** The slot registered under `t` is new and not asked. */
  ghost predicate NewlyRegistered(s: Session, s1: Session, t: Topic) {
    && t !in s.subs && t in s1.subs && s1.subs - {t} == s.subs - {t}
    && s1.past.born == s.past.born + [t] && s1.subs[t].serial == |s.past.born| && s1.subs[t].topic == t
    && s1.subs[t].state.Pending? && s1.subs[t].lastSeq == 0 && s1.subs[t].log == [] && s1.subs[t].flow == NoFlow()
  }

  /** A subscription is registered once; in READY it is asked for at once, from the present on; outside READY it
      waits. If it cannot be encoded it is closed, if it cannot be sent the connection is given up. */
  lemma SubscribeRegisters(s: Session, t: Topic, send: SendResult)
    requires Inv(s)
    ensures var s' := Step(s, Subscribed(t, send));
            if t in s.subs then s' == s
            else if !s.state.Ready? then
              && NewlyRegistered(s, s', t) && s'.subs[t].inflightId == 0
              && s' == s.(subs := s'.subs, past := s.past.(born := s.past.born + [t]))
            else if send.SendOk? then
              && NewlyRegistered(s, s', t) && s'.subs[t].inflightId == s.table.nextRid
              && s'.table == s.table.(nextRid := s.table.nextRid + 1, asked := s.table.asked[s.table.nextRid := t],
                                      ackTimers := s.table.ackTimers + {s.table.nextRid})
              && s'.wire == s.wire.(log := s.wire.log + [Sent(CmdSubscribe(s.table.nextRid, t, 0))])
              && s'.state == s.state && s'.barrier == s.barrier && SameLink(s, s')
            else if send.SendFails? then s'.state.TransientFailure? && (t in s'.subs ==> s'.subs[t].state.Paused?)
            else
              && s'.subs == s.subs && s'.state == s.state && SameLink(s, s') && s'.wire == s.wire
              && Key(t, |s.past.born|) in s'.past.retired && s'.past.retired[Key(t, |s.past.born|)].state.Closed?
  {
    hide Inv, SendSubscribe, Breakable;
    if t !in s.subs && !s.state.Ready? {
      NewWaits(s, t);
    }
    if t !in s.subs && s.state.Ready? {
      hide NewlyRegistered, SameLink;
      ReadyOpen(s);
      InvBreakable(s);
      var slot := NewSlot(t, |s.past.born|, s.opts.conf, SemanticsOf(s.catalog, t));
      var s1 := s.(subs := s.subs[t := slot], past := s.past.(born := s.past.born + [t]));
      match send {
        case SendOk => NewAsked(s, s1, t);
        case SendFails =>
          NewBreakable(s, s1, t);
          RetryLost(s1, t);
        case EncodeFails => NewClosed(s, s1, t);
      }
    }
  }

  lemma NewWaits(s: Session, t: Topic)
    requires t !in s.subs
    ensures var slot := NewSlot(t, |s.past.born|, s.opts.conf, SemanticsOf(s.catalog, t));
            NewlyRegistered(s, s.(subs := s.subs[t := slot], past := s.past.(born := s.past.born + [t])), t)
  {
    assert s.subs[t := NewSlot(t, |s.past.born|, s.opts.conf, SemanticsOf(s.catalog, t))] - {t} == s.subs - {t};
  }

  lemma NewBreakable(s: Session, s1: Session, t: Topic)
    requires Breakable(s) && s1 == s.(subs := s1.subs, past := s1.past) && t in s1.subs && s1.subs == s.subs[t := s1.subs[t]]
    requires s1.subs[t].state.Pending?
    ensures Breakable(s1)
  {
    hide Limited;
  }

  lemma NewAsked(s: Session, s1: Session, t: Topic)
    requires t !in s.subs && s.state.Ready? && s.open
    requires var slot := NewSlot(t, |s.past.born|, s.opts.conf, SemanticsOf(s.catalog, t));
             s1 == s.(subs := s.subs[t := slot], past := s.past.(born := s.past.born + [t]))
    ensures var s' := SendSubscribe(s1, t, 0, SendOk);
            && NewlyRegistered(s, s', t) && s'.subs[t].inflightId == s.table.nextRid
            && s'.table == s.table.(nextRid := s.table.nextRid + 1, asked := s.table.asked[s.table.nextRid := t],
                                    ackTimers := s.table.ackTimers + {s.table.nextRid})
            && s'.wire == s.wire.(log := s.wire.log + [Sent(CmdSubscribe(s.table.nextRid, t, 0))])
            && s'.state == s.state && s'.barrier == s.barrier && SameLink(s, s')
  {
    hide OnTransportClose;
    assert SendSubscribe(s1, t, 0, SendOk).subs - {t} == s.subs - {t};
  }

  lemma NewClosed(s: Session, s1: Session, t: Topic)
    requires t !in s.subs && s.state.Ready?
    requires var slot := NewSlot(t, |s.past.born|, s.opts.conf, SemanticsOf(s.catalog, t));
             s1 == s.(subs := s.subs[t := slot], past := s.past.(born := s.past.born + [t]))
    ensures var s' := SendSubscribe(s1, t, 0, EncodeFails);
            && s'.subs == s.subs && s'.state == s.state && SameLink(s, s') && s'.wire == s.wire
            && Key(t, |s.past.born|) in s'.past.retired && s'.past.retired[Key(t, |s.past.born|)].state.Closed?
  {
    hide OnTransportClose;
    assert s1.subs - {t} == s.subs;
  }

  /** An unsubscribe closes the slot at once where the robot cannot be told, or its answer is not waited for, or
      its request cannot be sent; otherwise the slot stays until the call ends. */
  lemma UnsubscribeCloses(s: Session, t: Topic, syncWait: bool, live: bool, sendOk: bool)
    requires Inv(s)
    ensures var s' := Step(s, Unsubscribed(t, syncWait, live, sendOk));
            if t !in s.subs then s' == s
            else
              var cmd := CmdBusiness(Unsubscribing(Key(t, s.subs[t].serial)));
              if !s.state.Ready? || !live then ClosedOut(s, s', t) && SameLink(s, s') && s'.state == s.state && s'.table == s.table && s'.wire == s.wire
              else if syncWait && sendOk then GoesOut(s, s', Unsubscribing(Key(t, s.subs[t].serial)), cmd)
              else
                && ClosedOut(s, s', t) && SameLink(s, s') && s'.state == s.state && s'.table.inflight == s.table.inflight
                && s'.wire.log == (if sendOk then s.wire.log + [Sent(cmd)] else s.wire.log)
                && (syncWait ==> s.table.nextRid in s'.table.ended && s'.table.ended[s.table.nextRid] == NotSent)
  {
    hide Inv, Unsubscribe, ClosedOut, SameLink, GoesOut;
    if s.state.Ready? {
      ReadyOpen(s);
    }
    SelfUnsubscribe(s, t, syncWait, live, sendOk);
    if t in s.subs {
      UnsubscribedNow(s, t, syncWait, live, sendOk);
    }
  }

  lemma SelfUnsubscribe(s: Session, t: Topic, syncWait: bool, live: bool, sendOk: bool)
    ensures t !in s.subs ==> Unsubscribe(s, t, syncWait, live, sendOk) == s
  {}

  lemma UnsubscribedNow(s: Session, t: Topic, syncWait: bool, live: bool, sendOk: bool)
    requires t in s.subs && (s.state.Ready? ==> s.open && Books(s.table))
    ensures var s' := Unsubscribe(s, t, syncWait, live, sendOk);
            var cmd := CmdBusiness(Unsubscribing(Key(t, s.subs[t].serial)));
            if !s.state.Ready? || !live then ClosedOut(s, s', t) && SameLink(s, s') && s'.state == s.state && s'.table == s.table && s'.wire == s.wire
            else if syncWait && sendOk then GoesOut(s, s', Unsubscribing(Key(t, s.subs[t].serial)), cmd)
            else
              && ClosedOut(s, s', t) && SameLink(s, s') && s'.state == s.state && s'.table.inflight == s.table.inflight
              && s'.wire.log == (if sendOk then s.wire.log + [Sent(cmd)] else s.wire.log)
              && (syncWait ==> s.table.nextRid in s'.table.ended && s'.table.ended[s.table.nextRid] == NotSent)
  {
    hide Unregister, ClosedOut, SameLink;
    var kind := Unsubscribing(Key(t, s.subs[t].serial));
    var s1 := s.(table := NextRid(s.table));
    if !s.state.Ready? || !live {
      OutOfRegistry(s, s, t);
      AbandonedOut(s, t);
    } else if !syncWait {
      OutOfRegistry(s, if sendOk then Transmit(s1, Sent(CmdBusiness(kind))) else s1, t);
    } else if !sendOk {
      OutOfRegistry(s, Call(s1, s.table.nextRid, kind, CmdBusiness(kind), false), t);
    }
  }

  lemma OutOfRegistry(s: Session, s1: Session, t: Topic)
    requires t in s.subs && s1 == s.(table := s1.table, wire := s1.wire)
    ensures var s' := Unregister(s1, t);
            ClosedOut(s, s', t) && SameLink(s, s') && s'.state == s.state && s'.table == s1.table && s'.wire == s1.wire
  {}

  lemma AbandonedOut(s: Session, t: Topic)
    requires t in s.subs && ClosedOut(s, Unregister(s, t), t) && SameLink(s, Unregister(s, t))
    ensures var s1, s' := Unregister(s, t), Abandon(s, t);
            ClosedOut(s, s', t) && SameLink(s, s') && s'.state == s1.state && s'.table == s1.table && s'.wire == s1.wire
  {
    hide Unregister;
  }

  /** However the call of an unsubscribe ends, its slot is closed and its topic free. */
  lemma UnsubscribeEnds(s: Session, rid: nat, ok: bool, cat: Category, plan: Plan)
    requires Enabled(s, RpcAnswered(rid, ok, cat, plan)) && rid in s.table.inflight && s.table.inflight[rid].Unsubscribing?
    ensures var key := s.table.inflight[rid].key;
            var s1, s2 := Step(s, RpcAnswered(rid, ok, cat, plan)), Step(s, RpcTimedOut(rid));
            && key.topic !in s1.subs && key.topic !in s2.subs
            && s1.subs == s.subs - {key.topic} && s2.subs == s.subs - {key.topic}
            && s1.table == s.table.(inflight := s.table.inflight - {rid}, ended := s.table.ended[rid := Answered(rid)])
            && s2.table == s.table.(inflight := s.table.inflight - {rid}, ended := s.table.ended[rid := TimedOut])
            && (Holds(s.subs, s.past, key) ==>
                  && key in s1.past.retired && s1.past.retired[key].state.Closed?
                  && key in s2.past.retired && s2.past.retired[key].state.Closed?)
  {
    hide Leave, Holds;
    var key := s.table.inflight[rid].key;
    LeaveCloses(s.(table := Resolve(s.table, rid, Answered(rid))), key);
    LeaveCloses(s.(table := Resolve(s.table, rid, TimedOut)), key);
  }

  lemma LeaveCloses(s: Session, k: Key)
    ensures var s' := Leave(s, k);
            && s'.subs == s.subs - {k.topic} && s'.table == s.table
            && (Holds(s.subs, s.past, k) ==> k in s'.past.retired && s'.past.retired[k].state.Closed?)
  {
    hide CloseAgain;
    LeaveKeeps(s, k);
    if !Registered(s, k) && k in s.past.retired {
      var p := if k.topic in s.subs then Displace(s.past, k.topic, s.subs[k.topic]) else s.past;
      ClosedAtLast(p, k);
    }
  }

  lemma ClosedAtLast(p: Past, k: Key)
    requires k in p.retired
    ensures k in CloseAgain(p, k).retired && CloseAgain(p, k).retired[k].state.Closed?
  {}

  /** What is not known changes nothing. */
  lemma UnknownDoesNothing(s: Session, rid: nat, ok: bool, cat: Category, plan: Plan, f: Frame, t: Topic)
    requires Enabled(s, RpcAnswered(rid, ok, cat, plan))
    ensures rid !in s.table.inflight ==> Step(s, RpcAnswered(rid, ok, cat, plan)) == s && Step(s, RpcTimedOut(rid)) == s
    ensures t !in s.subs ==> Step(s, Pushed(t, f)) == s
  {}

  // ----- The replay -----

  lemma ReplayOpen(s: Session)
    requires Inv(s) && (s.tasks.replayQueued || ReplayOut(s.table))
    ensures s.est.NoEst? && Books(s.table) && s.barrier.estopPending && (ReplayOut(s.table) ==> s.open && !s.tasks.replayQueued)
    ensures s.state.TransientFailure? || s.state.Reconnecting? || Terminal(s)
  {
    hide Awaited, AllHeld, AllSettled, WireOk, Limited, Archived, BarrierOk, NoneActive;
  }

  /** A replay that starts is sent over the connection, and waited for; one that cannot be is a loss. */
  lemma ReplayGoesOut(s: Session, sendOk: bool)
    requires Inv(s) && Enabled(s, ReplayStarted(sendOk))
    ensures var s' := Step(s, ReplayStarted(sendOk));
            if s.open && sendOk then
              && s'.table == s.table.(nextRid := s.table.nextRid + 1, inflight := s.table.inflight[s.table.nextRid := Replay])
              && s'.wire == s.wire.(log := s.wire.log + [Sent(CmdReplay)]) && !s'.tasks.replayQueued
              && s'.state == s.state && s'.subs == s.subs && s'.barrier == s.barrier
            else
              && !s'.tasks.replayQueued && !s'.barrier.estopPending
              && (if Terminal(s) then s'.state == s.state && s'.subs == s.subs else s'.state.TransientFailure?)
  {
    hide Inv, OnTransportClose, Breakable, GivenUp, ReplayOut;
    ReplayOpen(s);
    if !(s.open && sendOk) {
      var s1 := Call(s.(table := NextRid(s.table), tasks := s.tasks.(replayQueued := false)), s.table.nextRid, Replay, CmdReplay, sendOk);
      var s2 := s1.(barrier := s1.barrier.(estopPending := false));
      if !Terminal(s) {
        InvBreakable(s);
      }
      LossOfReplay(s, s2, TransientError);
      if !Terminal(s) {
        AllPaused(s2, OnTransportClose(s2, TransientError), TransientError);
      }
    }
  }

  lemma LossFlags(s: Session, cat: Category)
    requires !s.barrier.estopPending && s.est.NoEst?
    ensures var s' := OnTransportClose(s, cat);
            !s'.barrier.estopPending && s'.tasks.replayQueued == s.tasks.replayQueued
  {
    hide LeaveUpTo, ReplayOut, Flush, Pause;
    LeaveUpToKeeps(LoseConnection(s, cat), s.table.inflight, s.table.nextRid);
  }

  lemma LossOfReplay(s: Session, s1: Session, cat: Category)
    requires s1 == s.(table := s1.table, tasks := s.tasks.(replayQueued := false), barrier := s.barrier.(estopPending := false))
    requires s.est.NoEst? && (!Terminal(s) ==> Breakable(s)) && Books(s.table)
    requires s1.table.nextRid >= s.table.nextRid && (forall r :: r in s1.table.inflight ==> r in s.table.inflight)
    requires s1.table.asked == s.table.asked && s1.table.ackTimers == s.table.ackTimers
    requires forall r :: r in s1.table.ended ==> 1 <= r < s1.table.nextRid && r !in s1.table.inflight
    ensures var s' := OnTransportClose(s1, cat);
            && !s'.tasks.replayQueued && !s'.barrier.estopPending
            && (if Terminal(s) then s' == s1 else GivenUp(s1, s', cat))
  {
    LossFlags(s1, cat);
    if !Terminal(s) {
      StillBreakable(s, s1);
      hide OnTransportClose, Breakable, GivenUp, Books;
      LossGivesUp(s1, cat);
    }
  }

  lemma StillBreakable(s: Session, s1: Session)
    requires Breakable(s) && s.est.NoEst?
    requires s1 == s.(table := s1.table, tasks := s.tasks.(replayQueued := false), barrier := s.barrier.(estopPending := false))
    requires s1.table.nextRid >= s.table.nextRid && (forall r :: r in s1.table.inflight ==> r in s.table.inflight)
    requires s1.table.asked == s.table.asked && s1.table.ackTimers == s.table.ackTimers
    requires forall r :: r in s1.table.ended ==> 1 <= r < s1.table.nextRid && r !in s1.table.inflight
    ensures Breakable(s1)
  {}

  /** An accepted replay is on record, and READY follows at once if every slot has been answered; one that is
      refused, or not answered in time, is a loss. */
  lemma ReplayCallEnds(s: Session, rid: nat, ok: bool, cat: Category, plan: Plan)
    requires Inv(s) && rid in s.table.inflight && s.table.inflight[rid].Replay? && Enabled(s, RpcAnswered(rid, ok, cat, plan))
    ensures var s1, s2 := Step(s, RpcAnswered(rid, ok, cat, plan)), Step(s, RpcTimedOut(rid));
            && !s1.barrier.estopPending && !s2.barrier.estopPending
            && (ok ==>
                  && s1.wire.log == s.wire.log + [ReplayAccepted] && s1.subs == s.subs
                  && s1.table == s.table.(inflight := s.table.inflight - {rid}, ended := s.table.ended[rid := Answered(rid)])
                  && (if s.barrier.subsPending == 0 then s1.state.Ready? && s1.attempt == 0 && s1.totalCount == s.totalCount + 1
                      else s1.state == s.state && s1.attempt == s.attempt))
            && (!ok && !Terminal(s) ==> s1.state.TransientFailure? && forall t :: t in s1.subs ==> s1.subs[t].state.Paused?)
            && (!Terminal(s) ==> s2.state.TransientFailure? && forall t :: t in s2.subs ==> s2.subs[t].state.Paused?)
  {
    hide Inv, Step, Enabled;
    ReplaySteps(s, rid, ok, cat, plan);
    ReplayStops(s, rid, Answered(rid), cat, plan);
    ReplayStops(s, rid, TimedOut, TransientError, NoPlan());
    if ok {
      ReplayIsAccepted(s, rid, cat, plan);
    }
  }

  lemma ReplaySteps(s: Session, rid: nat, ok: bool, cat: Category, plan: Plan)
    requires rid in s.table.inflight && s.table.inflight[rid].Replay? && Enabled(s, RpcAnswered(rid, ok, cat, plan))
    ensures Step(s, RpcAnswered(rid, ok, cat, plan)) == Resume(s.(table := Resolve(s.table, rid, Answered(rid))), Replay, ok, cat, plan)
    ensures Step(s, RpcTimedOut(rid)) == Resume(s.(table := Resolve(s.table, rid, TimedOut)), Replay, false, TransientError, NoPlan())
    ensures |plan.order| == |plan.sends|
  {
    hide Resume;
  }

  lemma ReplayIsAccepted(s: Session, rid: nat, cat: Category, plan: Plan)
    requires |plan.order| == |plan.sends|
    ensures var s1 := Resume(s.(table := Resolve(s.table, rid, Answered(rid))), Replay, true, cat, plan);
            && !s1.barrier.estopPending && s1.wire.log == s.wire.log + [ReplayAccepted] && s1.subs == s.subs
            && s1.table == s.table.(inflight := s.table.inflight - {rid}, ended := s.table.ended[rid := Answered(rid)])
            && (if s.barrier.subsPending == 0 then s1.state.Ready? && s1.attempt == 0 && s1.totalCount == s.totalCount + 1
                else s1.state == s.state && s1.attempt == s.attempt)
  {
    hide OnTransportClose;
  }

  lemma ReplayStops(s: Session, rid: nat, o: Outcome, cat: Category, plan: Plan)
    requires Inv(s) && rid in s.table.inflight && s.table.inflight[rid].Replay? && |plan.order| == |plan.sends|
    ensures var s' := Resume(s.(table := Resolve(s.table, rid, o)), Replay, false, cat, plan);
            && !s'.barrier.estopPending
            && (!Terminal(s) ==> s'.state.TransientFailure? && forall t :: t in s'.subs ==> s'.subs[t].state.Paused?)
  {
    hide Inv, OnTransportClose, Breakable, GivenUp;
    assert ReplayOut(s.table);
    ReplayOpen(s);
    if !Terminal(s) {
      InvBreakable(s);
    }
    var s1 := s.(table := Resolve(s.table, rid, o), tasks := s.tasks.(replayQueued := false), barrier := s.barrier.(estopPending := false));
    assert s1.tasks == s.tasks;
    LossOfReplay(s, s1, cat);
    if !Terminal(s) {
      AllPaused(s1, OnTransportClose(s1, cat), cat);
    }
  }

  lemma AllPaused(s: Session, s': Session, cat: Category)
    requires GivenUp(s, s', cat)
    ensures s'.state.TransientFailure? && forall t :: t in s'.subs ==> s'.subs[t].state.Paused?
  {}
}
