/** The answers to calls, and the calls themselves, keep the invariant of the session. */
module SessionCalls {
  import opened Flows
  import opened Chronicles
  import opened Streams
  import opened StreamLaws
  import opened Sessions
  import opened SessionInvariant
  import opened SessionAsking
  import opened SessionBarrier
  import opened SessionRounds
  import opened SessionLinks

  // ----- Calls of the user and pings -----

  ghost predicate Own(kind: Rpc) {
    kind == Handshake || kind == Replay
  }

  lemma UserCallReady(s: Session, rid: nat)
    requires Inv(s) && rid in s.table.inflight && !Own(s.table.inflight[rid])
    ensures s.state.Ready? && s.est.NoEst? && !s.barrier.estopPending && !s.tasks.replayQueued && !ReplayOut(s.table)
  {
    hide AllHeld, AllSettled, Books, Awaited, WireOk, Limited, Archived, ReplayOut;
  }

  /** A call of the user ends. */
  lemma ResolvedTable(b: Table, est: Est, rid: nat, o: Outcome)
    requires Books(b) && Awaited(b, est) && rid in b.inflight && !Own(b.inflight[rid])
    ensures Books(Resolve(b, rid, o)) && Awaited(Resolve(b, rid, o), est)
    ensures ReplayOut(Resolve(b, rid, o)) ==> ReplayOut(b)
    ensures Resolve(b, rid, o).asked == b.asked
  {}

  lemma ResolvedInv(s: Session, rid: nat, o: Outcome)
    requires Inv(s) && rid in s.table.inflight && !Own(s.table.inflight[rid])
    ensures Inv(s.(table := Resolve(s.table, rid, o)))
  {
    UserCallReady(s, rid);
    ResolvedTable(s.table, s.est, rid, o);
    hide AllHeld, AllSettled, NoneActive, Books, Awaited, ReplayOut, WireLawful, Limited, Archived, Resolve, Own;
  }

  lemma EngagedInv(s: Session, engage: bool)
    requires Inv(s) && s.state.Ready? && s.est.NoEst?
    ensures Inv(s.(engaged := engage))
  {
    hide AllHeld, AllSettled, NoneActive, Books, Awaited, ReplayOut, WireLawful, Limited, Archived;
  }

  /** Taking one topic out of the registry, whatever is kept of its slot. */
  lemma RemovedInv(s: Session, t: Topic, p: Past)
    requires Inv(s) && s.state.Ready? && s.est.NoEst? && Archived(p)
    ensures Inv(Removed(s, t, p))
  {
    hide AllHeld, AllSettled, NoneActive, Books, Awaited, ReplayOut, WireLawful, Limited, Archived, OnlyOwn, Owes;
    LessSubs(s.subs, s.state, s.table.asked, t);
  }

  lemma LessSubs(subs: map<Topic, Slot>, state: ConnState, asked: map<nat, Topic>, t: Topic)
    requires AllHeld(subs, asked) && AllSettled(subs, state)
    ensures AllHeld(subs - {t}, asked) && AllSettled(subs - {t}, state)
    ensures NoneActive(subs) ==> NoneActive(subs - {t})
  {
    hide Held;
  }

  lemma InvHeld(s: Session)
    requires Inv(s)
    ensures AllHeld(s.subs, s.table.asked) && Archived(s.past)
  {
    hide AllHeld, AllSettled, NoneActive, Books, Awaited, ReplayOut, WireOk, Limited, Archived, Phases, ReplayTracked, BarrierOk;
  }

  lemma UnregisteredInv(s: Session, t: Topic)
    requires Inv(s) && s.state.Ready? && s.est.NoEst?
    ensures Inv(Unregister(s, t)) && Unregister(s, t).state == s.state
  {
    hide Inv, AllHeld, Archived, Retire;
    InvHeld(s);
    UnregisterArchived(s, t);
    RemovedInv(s, t, Unregister(s, t).past);
  }

  lemma LeftInv(s: Session, k: Key)
    requires Inv(s) && s.state.Ready? && s.est.NoEst?
    ensures Inv(Leave(s, k)) && Leave(s, k).state == s.state
  {
    hide Inv, AllHeld, Archived, Retire, Leave;
    InvHeld(s);
    LeaveKeeps(s, k);
    LeaveArchived(s, k);
    RemovedInv(s, k.topic, Leave(s, k).past);
  }

  // ----- The replay of the emergency stop -----

  /** While a replay is in flight the session waits for it. */
  lemma ReplayWaits(s: Session, rid: nat)
    requires Inv(s) && rid in s.table.inflight && s.table.inflight[rid] == Replay
    ensures s.barrier.estopPending && !s.tasks.replayQueued && s.est.NoEst? && s.wire.waited && s.open
    ensures s.state.Reconnecting? || Terminal(s)
  {
    hide AllHeld, AllSettled, Books, Awaited, Limited, Archived, WireLawful;
    assert ReplayOut(s.table);
  }

  lemma ReplayResolved(b: Table, est: Est, rid: nat, o: Outcome)
    requires Books(b) && Awaited(b, est) && rid in b.inflight && b.inflight[rid] == Replay
    ensures Books(Resolve(b, rid, o)) && Awaited(Resolve(b, rid, o), est) && !ReplayOut(Resolve(b, rid, o))
    ensures Resolve(b, rid, o).asked == b.asked
    ensures OnlyOwn(b) ==> OnlyOwn(Resolve(b, rid, o))
  {}

  /** The replay is answered: the barrier no longer waits for it. */
  function Replayed(s: Session, rid: nat, o: Outcome): Session {
    s.(table := Resolve(s.table, rid, o), barrier := s.barrier.(estopPending := false))
  }

  lemma ReplayedLosable(s: Session, rid: nat, o: Outcome)
    requires Inv(s) && rid in s.table.inflight && s.table.inflight[rid] == Replay
    ensures Losable(Replayed(s, rid, o)) && Wakeable(Replayed(s, rid, o))
    ensures Terminal(s) ==> Inv(Replayed(s, rid, o))
  {
    ReplayWaits(s, rid);
    ReplayResolved(s.table, s.est, rid, o);
    hide AllHeld, AllSettled, NoneActive, Books, Awaited, ReplayOut, WireLawful, Limited, Archived, Resolve, OnlyOwn, Owes, Counted;
  }

  /** An accepted replay is on record. */
  lemma ReplayAcceptedCore(s: Session, rid: nat, o: Outcome)
    requires Inv(s) && rid in s.table.inflight && s.table.inflight[rid] == Replay
    ensures var s' := Transmit(Replayed(s, rid, o), ReplayAccepted);
            Core(s') && ReplayAccepted in s'.wire.log
  {
    ReplayWaits(s, rid);
    ReplayResolved(s.table, s.est, rid, o);
    LongerWire(s.wire, ReplayAccepted);
    OwesLonger(s.wire, ReplayAccepted);
    assert ReplayAccepted in s.wire.log + [ReplayAccepted];
    hide AllHeld, AllSettled, NoneActive, Books, Awaited, ReplayOut, WireLawful, Limited, Archived, Resolve, OnlyOwn, Owes, Counted;
  }

  lemma ReplayRefusedInv(s: Session, rid: nat, o: Outcome, cat: Category, plan: Plan)
    requires Inv(s) && rid in s.table.inflight && s.table.inflight[rid] == Replay
    requires |plan.order| == |plan.sends|
    ensures var s' := Resume(s.(table := Resolve(s.table, rid, o)), Replay, false, cat, plan);
            Inv(s') && Concluded(s, s')
  {
    hide Inv, Core, Losable, Wakeable, OnTransportClose, Resolve;
    ReplayWaits(s, rid);
    ReplayedLosable(s, rid, o);
    OnTransportCloseInv(Replayed(s, rid, o), cat);
  }

  lemma ReplayGrantedInv(s: Session, rid: nat, o: Outcome, cat: Category, plan: Plan)
    requires Inv(s) && rid in s.table.inflight && s.table.inflight[rid] == Replay
    requires |plan.order| == |plan.sends|
    ensures var s' := Resume(s.(table := Resolve(s.table, rid, o)), Replay, true, cat, plan);
            Inv(s') && Concluded(s, s')
  {
    hide Core, Resolve, Down, Transmit;
    ReplayWaits(s, rid);
    ReplayAcceptedCore(s, rid, o);
    ReplayAcceptedKeeps(s, rid, o);
    if s.barrier.subsPending == 0 {
      ReachReadyInv(Transmit(Replayed(s, rid, o), ReplayAccepted));
    }
  }

  lemma ReplayAcceptedKeeps(s: Session, rid: nat, o: Outcome)
    ensures var s' := Transmit(Replayed(s, rid, o), ReplayAccepted);
            && s'.state == s.state && s'.est == s.est && s'.subs == s.subs && s'.barrier == s.barrier.(estopPending := false)
            && s'.wire.waited == s.wire.waited && s'.open == s.open
  {}

  lemma ReplayAnsweredInv(s: Session, rid: nat, o: Outcome, ok: bool, cat: Category, plan: Plan)
    requires Inv(s) && rid in s.table.inflight && s.table.inflight[rid] == Replay
    requires |plan.order| == |plan.sends|
    ensures var s' := Resume(s.(table := Resolve(s.table, rid, o)), Replay, ok, cat, plan);
            Inv(s') && Concluded(s, s')
  {
    hide Inv, Concluded, Resume, Resolve;
    if ok {
      ReplayGrantedInv(s, rid, o, cat, plan);
    } else {
      ReplayRefusedInv(s, rid, o, cat, plan);
    }
  }

  // ----- The handshake -----

  lemma HandshakeAnsweredInv(s: Session, rid: nat, o: Outcome, ok: bool, cat: Category, plan: Plan)
    requires Inv(s) && rid in s.table.inflight && s.table.inflight[rid] == Handshake
    requires |plan.order| == |plan.sends| && (ok ==> Enumerates(plan.order, s.subs.Keys))
    ensures var s' := Resume(s.(table := Resolve(s.table, rid, o)), Handshake, ok, cat, plan);
            Inv(s') && Concluded(s, s')
  {
    hide Losable, HandshakeFailed, Established, Resolve, Books, AllHeld, AllSettled, WireOk, Limited, Archived, Phases, ReplayTracked, BarrierOk;
    assert s.est.AtHandshake? && rid == s.est.rid;
    HandshakeResolved(s, o);
    var s1 := s.(table := Resolve(s.table, rid, o));
    hide Core;
    if ok {
      EstablishedInv(s1, plan);
    } else {
      ShakenFailedInv(s1, cat);
    }
  }

  // ----- Every answer -----

  lemma AnsweredInv(s: Session, rid: nat, o: Outcome, ok: bool, cat: Category, plan: Plan)
    requires Inv(s) && rid in s.table.inflight
    requires |plan.order| == |plan.sends| && (ok && s.table.inflight[rid] == Handshake ==> Enumerates(plan.order, s.subs.Keys))
    ensures var s' := Resume(s.(table := Resolve(s.table, rid, o)), s.table.inflight[rid], ok, cat, plan);
            Inv(s') && Concluded(s, s')
  {
    hide Inv, Resolve, HandshakeFailed, Established, OnTransportClose, Leave;
    var kind := s.table.inflight[rid];
    if kind == Handshake {
      HandshakeAnsweredInv(s, rid, o, ok, cat, plan);
    } else if kind == Replay {
      ReplayAnsweredInv(s, rid, o, ok, cat, plan);
    } else {
      var s1 := s.(table := Resolve(s.table, rid, o));
      UserCallReady(s, rid);
      ResolvedInv(s, rid, o);
      if kind.EStop? {
        EngagedInv(s1, kind.engage);
      } else if kind.Unsubscribing? {
        LeftInv(s1, kind.key);
      }
    }
  }
}
