/** Establishing a connection, first or again, keeps the invariant. */
module SessionLinks {
  import opened Flows
  import opened Chronicles
  import opened Streams
  import opened StreamLaws
  import opened Sessions
  import opened SessionInvariant
  import opened SessionAsking
  import opened SessionBarrier
  import opened SessionRounds

  // ----- The handshake is answered -----

  /** `_establish` resumes: the handshake is no longer in flight, and nothing else is. */
  ghost predicate Shaken(s: Session) {
    && s.est.AtHandshake? && s.open
    && Losable(s) && s.table.asked == map[] && s.table.inflight == map[]
    && NoneActive(s.subs) && AllSettled(s.subs, s.state)
    && !s.heartbeat && !s.barrier.estopPending && !s.tasks.replayQueued
    && (s.state.Connecting? || s.state.Reconnecting? || Terminal(s))
    && (s.state.Connecting? ==> !s.est.reconnect) && (s.state.Reconnecting? ==> s.est.reconnect)
    && s.wire.reconnect == s.est.reconnect && s.wire.engaged == s.engaged && !s.wire.waited && !s.wire.quit
  }

  lemma ResolvedBooks(b: Table, rid: nat, o: Outcome)
    requires Books(b) && rid in b.inflight
    ensures Books(Resolve(b, rid, o))
  {}

  /** Only the handshake can be in flight while it is. */
  lemma HandshakeAlone(s: Session, o: Outcome)
    requires Inv(s) && s.est.AtHandshake?
    ensures Resolve(s.table, s.est.rid, o).inflight == map[] && s.table.asked == map[]
    ensures !s.barrier.estopPending && !s.tasks.replayQueued && s.est.rid in s.table.inflight
    ensures NoneActive(s.subs) && (s.state.Connecting? || s.state.Reconnecting? || Terminal(s))
    ensures (s.state.Connecting? ==> !s.est.reconnect) && (s.state.Reconnecting? ==> s.est.reconnect) && s.open
  {
    hide AllHeld, AllSettled, WireOk, Limited, Archived, BarrierOk, NoneActive, Books;
    forall r | r in s.table.inflight
      ensures r == s.est.rid
    {
      assert s.table.inflight[r] == Replay ==> ReplayOut(s.table);
    }
  }

  lemma HandshakeResolved(s: Session, o: Outcome)
    requires Inv(s) && s.est.AtHandshake?
    ensures Shaken(s.(table := Resolve(s.table, s.est.rid, o)))
  {
    hide AllHeld, AllSettled, WireLawful, Limited, Archived, BarrierOk, NoneActive, Books, Phases, ReplayTracked, Awaited, Resolve;
    HandshakeAlone(s, o);
    ResolvedBooks(s.table, s.est.rid, o);
    assert Resolve(s.table, s.est.rid, o).asked == s.table.asked by { ResolveAsked(s.table, s.est.rid, o); }
  }

  lemma ResolveAsked(b: Table, rid: nat, o: Outcome)
    ensures Resolve(b, rid, o).asked == b.asked
  {}

  /** A failed handshake leaves the session down. */
  lemma ShakenFailedInv(s: Session, cat: Category)
    requires Shaken(s)
    ensures Inv(HandshakeFailed(s, cat)) && Concluded(s, HandshakeFailed(s, cat))
  {
    hide HandshakeFailed, Losable;
    assert AllSettled(s.subs, TransientFailure) by { ShakenSettled(s); }
    HandshakeFailedDown(s, cat);
    DownIsInv(HandshakeFailed(s, cat));
  }

  lemma ShakenSettled(s: Session)
    requires Shaken(s)
    ensures AllSettled(s.subs, TransientFailure)
  {
    hide Lawful, Books, WireLawful, Limited, Archived;
    forall t | t in s.subs
      ensures s.subs[t].inflightId == 0
    {
      assert Held(s.subs[t], t, s.table.asked);
    }
  }

  // ----- The handshake is accepted -----

  /** Every slot waits to be asked. */
  ghost predicate AllIdle(subs: map<Topic, Slot>) {
    forall t :: t in subs ==>
      subs[t].inflightId == 0
      && (subs[t].state.Paused? || (subs[t].state.Pending? && !Resumes(subs[t])))
  }

  /** A connection whose handshake was accepted and on which nothing has been asked yet. */
  ghost predicate Linked(s: Session) {
    && s.est.NoEst? && s.open
    && Losable(s) && s.table.asked == map[] && s.table.inflight == map[]
    && AllIdle(s.subs) && !s.heartbeat && !s.barrier.estopPending && !s.tasks.replayQueued
    && (Terminal(s) ==> AllSettled(s.subs, s.state))
    && s.wire.engaged == s.engaged && !s.wire.waited && !s.wire.quit
  }

  lemma SemanticsHeld(slot: Slot, semantics: Semantics, t: Topic, asked: map<nat, Topic>)
    requires Held(slot, t, asked) && !slot.state.Active?
    ensures Held(slot.(semantics := semantics), t, asked)
  {
    hide Sound, Position, InStep, Story, Frames, Refusals, UnderEvent, Told;
  }

  lemma LearnHeld(s: Session, catalog: map<Topic, Semantics>)
    requires AllHeld(s.subs, s.table.asked) && NoneActive(s.subs)
    ensures AllHeld(Learn(s, catalog).subs, s.table.asked)
  {
    hide Held;
    forall t | t in s.subs
      ensures Held(s.subs[t].(semantics := SemanticsOf(catalog, t)), t, s.table.asked)
    {
      SemanticsHeld(s.subs[t], SemanticsOf(catalog, t), t, s.table.asked);
    }
  }

  lemma ShakenIdle(s: Session)
    requires Shaken(s)
    ensures AllIdle(s.subs)
  {
    hide Lawful, Books, WireLawful, Limited, Archived;
    forall t | t in s.subs
      ensures s.subs[t].inflightId == 0 && !s.subs[t].state.Closed?
    {
      assert Held(s.subs[t], t, s.table.asked);
    }
  }

  lemma LearnIdle(s: Session, catalog: map<Topic, Semantics>)
    requires AllIdle(s.subs)
    ensures AllIdle(Learn(s, catalog).subs)
    ensures AllSettled(s.subs, s.state) ==> AllSettled(Learn(s, catalog).subs, s.state)
  {}

  lemma LearnLinked(s: Session, catalog: map<Topic, Semantics>)
    requires Shaken(s)
    ensures Linked(Learn(s, catalog))
  {
    ShakenIdle(s);
    LearnIdle(s, catalog);
    LearnHeld(s, catalog);
    hide AllHeld, AllSettled, AllIdle, NoneActive, Books, WireLawful, Limited, Archived;
  }

  lemma IdleSettled(subs: map<Topic, Slot>, state: ConnState)
    requires AllIdle(subs) && !state.Shutdown? && !state.Fatal?
    ensures AllSettled(subs, state)
  {}

  lemma IdleInactive(subs: map<Topic, Slot>)
    requires AllIdle(subs)
    ensures NoneActive(subs) && Unanswered(subs) == {}
  {}

  lemma EmptyTable(b: Table)
    requires Books(b) && b.asked == map[] && b.inflight == map[]
    ensures Awaited(b, NoEst) && OnlyOwn(b) && !ReplayOut(b)
  {}

  /** A first connection is READY at once. */
  lemma FirstReady(s: Session)
    requires Linked(s) && !s.wire.reconnect
    ensures FirstRound(s.(state := Ready, heartbeat := s.opts.heartbeatOn))
  {
    hide AllHeld, AllSettled, AllIdle, NoneActive, Books, Awaited, OnlyOwn, ReplayOut, WireLawful, Limited, Archived;
    IdleSettled(s.subs, Ready);
    IdleInactive(s.subs);
    EmptyTable(s.table);
  }

  /** The session with its barrier set up and the replay it may need. */
  function AtBarrier(s: Session): Session {
    var s2 := SetBarrier(s);
    s2.(wire := s2.wire.(waited := true), tasks := s2.tasks.(replayQueued := s.engaged))
  }

  lemma WaitedLawful(w: Wire)
    requires WireLawful(w)
    ensures WireLawful(w.(waited := true)) && Owes(w.(waited := true)) == Owes(w)
  {}

  lemma QueuedLimited(maxAttempts: int, attempt: nat, k: Tasks, queued: bool)
    requires Limited(maxAttempts, attempt, k)
    ensures Limited(maxAttempts, attempt, k.(replayQueued := queued))
  {}

  lemma AtBarrierCore(s: Session)
    requires Linked(s) && s.wire.reconnect && (s.state.Reconnecting? || Terminal(s))
    ensures Core(AtBarrier(s))
  {
    hide AllHeld, AllSettled, AllIdle, NoneActive, Books, Awaited, OnlyOwn, ReplayOut, WireLawful, Limited, Archived;
    if s.state.Reconnecting? {
      IdleSettled(s.subs, Reconnecting);
    }
    IdleInactive(s.subs);
    EmptyTable(s.table);
    WaitedLawful(s.wire);
    QueuedLimited(s.opts.maxAttempts, s.attempt, s.tasks, s.engaged);
  }

  /** An enumeration names every topic. */
  lemma {:induction false} EnumeratesAll(order: seq<Topic>, topics: set<Topic>)
    requires Enumerates(order, topics)
    ensures forall t :: t in topics ==> t in order
    decreases |order|
  {
    if order != [] {
      var rest := order[1..];
      assert forall i :: 0 <= i < |rest| ==> rest[i] == order[i + 1];
      EnumeratesAll(rest, topics - {order[0]});
      assert order == [order[0]] + rest;
    }
  }

  lemma AtBarrierRound(s: Session, order: seq<Topic>)
    requires Linked(s) && s.wire.reconnect && (s.state.Reconnecting? || Terminal(s))
    requires Enumerates(order, s.subs.Keys)
    ensures Round(AtBarrier(s), order)
  {
    AtBarrierCore(s);
    EnumeratesAll(order, s.subs.Keys);
    IdleInactive(s.subs);
    hide Core, Losable, AllSettled;
  }

  // ----- When the replay task is created does not matter to the round before it -----

  function Queued(s: Session): Session {
    s.(tasks := s.tasks.(replayQueued := true))
  }

  /** Nothing awaited can disturb a round. */
  predicate Undisturbed(s: Session) {
    s.est.NoEst? && !ReplayOut(s.table)
  }

  lemma LeaveCommutes(s: Session, k: Key)
    ensures Leave(Queued(s), k) == Queued(Leave(s, k))
  {
    hide Retire, Displace, CloseAgain;
  }

  lemma {:induction false} LeaveUpToCommutes(s: Session, calls: map<nat, Rpc>, n: nat)
    ensures LeaveUpTo(Queued(s), calls, n) == Queued(LeaveUpTo(s, calls, n))
  {
    hide Leave, Queued;
    if n > 0 {
      LeaveUpToCommutes(s, calls, n - 1);
      if n - 1 in calls && calls[n - 1].Unsubscribing? {
        LeaveCommutes(LeaveUpTo(s, calls, n - 1), calls[n - 1].key);
      }
    }
  }

  lemma LoseCommutes(s: Session)
    ensures LoseConnection(Queued(s), TransientError) == Queued(LoseConnection(s, TransientError))
    ensures LoseConnection(s, TransientError).est == s.est && LoseConnection(s, TransientError).barrier == s.barrier
    ensures !ReplayOut(LoseConnection(s, TransientError).table)
  {}

  lemma CloseCommutes(s: Session)
    requires Undisturbed(s)
    ensures var s' := OnTransportClose(s, TransientError);
            && OnTransportClose(Queued(s), TransientError) == Queued(s')
            && Undisturbed(s') && s'.barrier.estopPending == s.barrier.estopPending
  {
    hide LoseConnection, LeaveUpTo, ReplayOut;
    LoseCommutes(s);
    var s1 := LoseConnection(s, TransientError);
    LeaveUpToCommutes(s1, s.table.inflight, s.table.nextRid);
    LeaveUpToKeeps(s1, s.table.inflight, s.table.nextRid);
  }

  lemma AskCommutes(s: Session, t: Topic, sinceSeq: nat, send: SendResult)
    requires Undisturbed(s) && t in s.subs
    ensures var s' := SendSubscribe(s, t, sinceSeq, send);
            && SendSubscribe(Queued(s), t, sinceSeq, send) == Queued(s')
            && Undisturbed(s') && s'.barrier.estopPending == s.barrier.estopPending
  {
    hide OnTransportClose, Ask;
    var slot := Ask(s.subs[t], s.table.nextRid, sinceSeq, s.state.Reconnecting?);
    CloseCommutes(s.(table := NextRid(s.table), subs := s.subs[t := Unask(slot)]));
  }

  lemma {:induction false} RoundCommutes(s: Session, order: seq<Topic>, sends: seq<SendResult>)
    requires Undisturbed(s) && |order| == |sends|
    ensures var s' := Resubscribe(s, order, sends);
            && Resubscribe(Queued(s), order, sends) == Queued(s')
            && s'.barrier.estopPending == s.barrier.estopPending
    decreases |order|
  {
    hide SendSubscribe;
    if order == [] {
    } else if order[0] !in s.subs {
      RoundCommutes(s, order[1..], sends[1..]);
    } else {
      var slot := BeginRound(s.subs[order[0]]);
      var s1 := s.(subs := s.subs[order[0] := slot]);
      var since := SinceSeq(slot, s.opts.replayHistory);
      AskCommutes(s1, order[0], since, sends[0]);
      RoundCommutes(SendSubscribe(s1, order[0], since, sends[0]), order[1..], sends[1..]);
      assert Queued(s).(subs := s.subs[order[0] := slot]) == Queued(s1);
    }
  }

  /** A round after which the replay task is created is the round with the replay already queued. */
  lemma ReplayAfterRound(s: Session, order: seq<Topic>, sends: seq<SendResult>)
    requires Linked(s) && |order| == |sends|
    ensures var s2 := SetBarrier(s);
            var s3 := Resubscribe(s2.(wire := s2.wire.(waited := true)), order, sends);
            s3.(tasks := s3.tasks.(replayQueued := s3.tasks.replayQueued || s3.barrier.estopPending))
              == Resubscribe(AtBarrier(s), order, sends)
  {
    var s2 := SetBarrier(s);
    var waiting := s2.(wire := s2.wire.(waited := true));
    assert Undisturbed(waiting);
    RoundCommutes(waiting, order, sends);
    if s.engaged {
      assert AtBarrier(s) == Queued(waiting);
    } else {
      assert AtBarrier(s) == waiting;
    }
  }

  // ----- Established -----

  lemma RoundDone(s: Session)
    requires Round(s, [])
    requires s.state.Reconnecting? ==> s.barrier.subsPending > 0 || s.barrier.estopPending
    ensures Inv(s)
  {
    hide Core;
  }

  lemma NothingToWaitFor(s: Session)
    requires Linked(s) && s.wire.reconnect && (s.state.Reconnecting? || Terminal(s))
    requires s.subs == map[] && !s.engaged
    ensures Inv(ReachReady(SetBarrier(s)).(heartbeat := s.opts.heartbeatOn))
    ensures Concluded(s, ReachReady(SetBarrier(s)).(heartbeat := s.opts.heartbeatOn))
  {
    var ready := ReachReady(SetBarrier(s)).(heartbeat := s.opts.heartbeatOn);
    EmptyTable(s.table);
    assert Limited(s.opts.maxAttempts, 0, s.tasks);
    hide Books, Awaited, OnlyOwn, ReplayOut, WireLawful, Limited, Archived, Lawful;
  }

  lemma EstablishedInv(s: Session, plan: Plan)
    requires Shaken(s) && |plan.order| == |plan.sends| && Enumerates(plan.order, s.subs.Keys)
    ensures Inv(Established(s, s.est.reconnect, plan)) && Concluded(s, Established(s, s.est.reconnect, plan))
  {
    hide Linked, Inv, Losable, AllHeld, NoneActive, AllSettled, Round, Resubscribe, SubscribeWaiting, Learn, FirstRound, Enumerates;
    LearnLinked(s, plan.catalog);
    LearnKeeps(s, plan.catalog);
    var s1 := Learn(s, plan.catalog);
    if !s.est.reconnect {
      FirstReady(s1);
      SubscribeWaitingInv(s1.(state := Ready, heartbeat := s.opts.heartbeatOn), plan.order, plan.sends);
      FirstRoundInv(SubscribeWaiting(s1.(state := Ready, heartbeat := s.opts.heartbeatOn), plan.order, plan.sends));
      FirstRoundState(SubscribeWaiting(s1.(state := Ready, heartbeat := s.opts.heartbeatOn), plan.order, plan.sends));
    } else if |s1.subs| == 0 && !s1.engaged {
      NothingToWaitFor(s1);
    } else {
      AtBarrierRound(s1, plan.order);
      ResubscribeRound(AtBarrier(s1), plan.order, plan.sends);
      ReplayAfterRound(s1, plan.order, plan.sends);
      RoundDone(Resubscribe(AtBarrier(s1), plan.order, plan.sends));
    }
  }

  lemma FirstRoundInv(s: Session)
    requires FirstRound(s)
    ensures Inv(s)
  {}

  lemma FirstRoundState(s: Session)
    requires FirstRound(s)
    ensures s.state.Ready? || s.state.TransientFailure?
  {}

  lemma LearnKeeps(s: Session, catalog: map<Topic, Semantics>)
    ensures var s' := Learn(s, catalog);
            s' == s.(est := NoEst, catalog := catalog, subs := s'.subs) && s'.subs.Keys == s.subs.Keys
  {}

  // ----- The connect is over -----

  /** `_establish` is suspended in a connect: there is no connection to speak of. */
  lemma ConnectingDown(s: Session)
    requires Inv(s) && s.est.AtConnect?
    ensures Losable(s) && Wakeable(s) && s.table.asked == map[] && s.table.inflight == map[]
    ensures NoneActive(s.subs) && AllSettled(s.subs, TransientFailure) && !s.heartbeat && !s.open
    ensures !s.barrier.estopPending && !s.tasks.replayQueued
    ensures s.state.Connecting? || s.state.Reconnecting? || Terminal(s)
  {
    hide Lawful, WireLawful, Limited, Archived, Books;
    forall t | t in s.subs
      ensures s.subs[t].inflightId == 0
    {
      assert Held(s.subs[t], t, s.table.asked);
    }
  }

  lemma ConnectFailedInv(s: Session, cat: Category)
    requires Inv(s) && s.est.AtConnect?
    ensures Inv(Connected(s, false, cat, false, false)) && EndsDown(s, Connected(s, false, cat, false, false))
  {
    hide Inv, Losable, Wakeable, AllSettled, NoneActive, Abort, Schedule;
    ConnectingDown(s);
    if cat.FatalError? {
      GiveUp(s, cat);
    } else {
      ScheduledInv(s);
    }
  }

  lemma GiveUp(s: Session, cat: Category)
    requires Losable(s) && Wakeable(s) && s.table.inflight == map[]
    ensures var s' := Abort(s.(est := NoEst), cat);
            Inv(s') && Down(s') && s'.est.NoEst?
  {
    assert Wakeable(s.(est := NoEst)) && Losable(s.(est := NoEst)) by { hide AllHeld, Books, WireLawful, Limited, Archived; }
    hide Losable, Wakeable, Inv, Abort;
    AbortInv(s.(est := NoEst), cat);
  }

  lemma ScheduledInv(s: Session)
    requires Losable(s) && s.table.asked == map[] && s.table.inflight == map[]
    requires NoneActive(s.subs) && AllSettled(s.subs, TransientFailure) && !s.heartbeat && !s.open
    requires !s.barrier.estopPending && !s.tasks.replayQueued
    ensures Inv(Schedule(s.(est := NoEst, state := TransientFailure)))
    ensures Schedule(s.(est := NoEst, state := TransientFailure)).state.TransientFailure?
  {
    hide AllHeld, AllSettled, NoneActive, Books, WireLawful, Limited, Archived, Schedule;
    var s1 := s.(est := NoEst, state := TransientFailure);
    ScheduleFacts(s1);
    DownIsInv(Schedule(s1));
  }

  /** A connection has just been opened. */
  function Opened(s: Session): Session
    requires s.est.AtConnect?
  {
    s.(table := NextRid(s.table), open := true, wire := Wire(s.est.reconnect, s.engaged, false, false, []))
  }

  lemma NewWireLawful(reconnect: bool, engaged: bool)
    ensures WireLawful(Wire(reconnect, engaged, false, false, []))
    ensures WireLawful(Wire(reconnect, engaged, false, false, [Sent(CmdHandshake)]))
  {}

  lemma NextBooks(b: Table)
    requires Books(b)
    ensures Books(NextRid(b))
  {}

  lemma OpenedLosable(s: Session)
    requires Losable(s) && Wakeable(s) && s.est.AtConnect?
    ensures Losable(Opened(s)) && Wakeable(Opened(s))
  {
    hide AllHeld, WireLawful, Limited, Archived, Books;
    NewWireLawful(s.est.reconnect, s.engaged);
    NextBooks(s.table);
  }

  lemma HandshakeBooks(b: Table, est: Est)
    requires Books(b) && b.inflight == map[] && b.asked == map[] && est.AtHandshake? && est.rid == b.nextRid
    ensures var b' := Register(NextRid(b), b.nextRid, Handshake);
            Books(b') && Awaited(b', est) && OnlyOwn(b') && !ReplayOut(b') && b'.asked == map[]
  {}

  /** The handshake goes out. */
  lemma HandshakeOutInv(s: Session, cat: Category)
    requires Inv(s) && s.est.AtConnect?
    ensures Inv(Connected(s, true, cat, true, true)) && Connected(s, true, cat, true, true).state == s.state
  {
    hide AllHeld, AllSettled, NoneActive, Books, Awaited, OnlyOwn, ReplayOut, WireLawful, Limited, Archived, Register, NextRid;
    ConnectingDown(s);
    NewWireLawful(s.est.reconnect, s.engaged);
    HandshakeBooks(s.table, AtHandshake(s.est.reconnect, s.est.task, s.table.nextRid));
    assert [] + [Sent(CmdHandshake)] == [Sent(CmdHandshake)];
  }

  lemma NotSentBooks(b: Table, rid: nat)
    requires Books(b) && b.inflight == map[] && rid == b.nextRid
    ensures var b' := Resolve(NextRid(b), rid, NotSent);
            Books(b') && b'.inflight == map[] && b'.asked == b.asked
  {}

  /** The handshake does not go out. */
  lemma HandshakeNotOutInv(s: Session, cat: Category)
    requires Inv(s) && s.est.AtConnect?
    ensures Inv(Connected(s, true, cat, true, false)) && EndsDown(s, Connected(s, true, cat, true, false))
  {
    hide AllHeld, AllSettled, NoneActive, Books, WireLawful, Limited, Archived, HandshakeFailed, Resolve, NextRid, Phases, ReplayTracked;
    ConnectingDown(s);
    NewWireLawful(s.est.reconnect, s.engaged);
    NotSentBooks(s.table, s.table.nextRid);
    var s1 := Opened(s).(table := Resolve(NextRid(s.table), s.table.nextRid, NotSent));
    HandshakeFailedDown(s1, TransientError);
    DownIsInv(HandshakeFailed(s1, TransientError));
  }

  lemma ConnectedInv(s: Session, ok: bool, cat: Category, encodeOk: bool, sendOk: bool)
    requires Inv(s) && s.est.AtConnect?
    ensures Inv(Connected(s, ok, cat, encodeOk, sendOk)) && EndsDown(s, Connected(s, ok, cat, encodeOk, sendOk))
  {
    hide Inv, Losable, Wakeable, Abort, HandshakeFailed;
    if !ok {
      ConnectFailedInv(s, cat);
    } else if !encodeOk {
      ConnectingDown(s);
      OpenedLosable(s);
      GiveUp(Opened(s), cat);
    } else if sendOk {
      HandshakeOutInv(s, cat);
    } else {
      HandshakeNotOutInv(s, cat);
    }
  }
}
