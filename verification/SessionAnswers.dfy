/** Every subscribe acknowledgement keeps the invariant of the session. */
module SessionAnswers {
  import opened Flows
  import opened Chronicles
  import opened Streams
  import opened StreamLaws
  import opened Sessions
  import opened SessionInvariant
  import opened SessionAsking
  import opened SessionBarrier

  /** An acknowledgement has been matched to slot `t`, which was `asked` until now. */
  ghost predicate Answering(s: Session, t: Topic, asked: Slot) {
    && Working(s, t) && t in s.subs
    && Lawful(asked) && asked.state.Pending? && asked.inflightId != 0
    && s.subs[t] == Unask(asked)
    && (s.state.Ready? || s.state.Reconnecting? || Terminal(s))
    && (Resumes(asked) ==> s.state.Reconnecting?)
    && (s.state.Reconnecting? ==> Counted(s.subs, s.barrier, [t]) && t in s.barrier.round)
  }

  /** A handler puts slot `t` back in a settled shape. */
  lemma ReplacedCore(s: Session, t: Topic, slot: Slot)
    requires Working(s, t) && t in s.subs && Held(slot, t, s.table.asked)
    requires s.state.Ready? || s.state.Reconnecting? || Terminal(s)
    requires slot.state.Pending? && Resumes(slot) ==> slot.inflightId != 0 && s.state.Reconnecting?
    requires slot.state.Paused? ==> !Terminal(s)
    ensures Core(s.(subs := s.subs[t := slot]))
  {
    OneHeld(s.subs, s.table.asked, t, slot);
    OneSettled(s.subs, s.state, t, slot);
    hide AllHeld, AllSettled, OthersSettled, Books, Awaited, Limited, Archived, WireLawful, Owes, Held, NoneActive;
  }

  lemma WorkingLosable(s: Session, t: Topic)
    requires Working(s, t)
    ensures Losable(s) && Wakeable(s)
  {
    hide AllHeld, AllSettled, OthersSettled, Books, Awaited, Limited, Archived, WireLawful, Owes, Held, NoneActive;
  }

  lemma AnsweringAlone(s: Session, t: Topic, asked: Slot)
    requires Answering(s, t, asked)
    ensures s.est.NoEst? && t in s.subs && Working(s, t)
  {}

  lemma ClosedCounted(s: Session, t: Topic, asked: Slot)
    requires Answering(s, t, asked) && s.state.Reconnecting?
    ensures var s1 := Unregister(s, t);
            s1.barrier.subsPending > 0 && Counted(s1.subs, s1.barrier.(subsPending := s1.barrier.subsPending - 1), [])
  {
    hide Working, Lawful;
    DropCounted(s.subs, s.barrier, t, []);
  }

  /** The slot is closed and its answer counted. */
  lemma ClosedInv(s: Session, t: Topic, asked: Slot)
    requires Answering(s, t, asked)
    ensures Inv(Finish(Unregister(s, t), s.state.Reconnecting?))
    ensures Inv(Unregister(s, t)) || s.state.Reconnecting?
    ensures Concluded(s, Unregister(s, t)) || s.state.Reconnecting?
    ensures Concluded(s, Finish(Unregister(s, t), s.state.Reconnecting?))
  {
    hide Answering, Working, Core, Counted, Finish, Down;
    AnsweringAlone(s, t, asked);
    UnregisterCore(s, t);
    if s.state.Reconnecting? {
      ClosedCounted(s, t, asked);
    }
    FinishInv(Unregister(s, t), s.state.Reconnecting?);
  }

  /** The slot an accepted answer makes. */
  lemma GrantedHeld(s: Session, t: Topic, asked: Slot, next: nat)
    requires Answering(s, t, asked)
    ensures Held(Activate(s.subs[t], next), t, s.table.asked)
  {
    ActivateLawful(asked, next);
    assert Held(s.subs[t], t, s.table.asked);
    hide Lawful, Activate, Books, Awaited, Phases, ReplayTracked, WireOk, Limited, Archived, OthersSettled, Counted;
  }

  /** The slot becomes active and the barrier may count it. */
  lemma GrantedCore(s: Session, t: Topic, asked: Slot, next: nat)
    requires Answering(s, t, asked)
    ensures var slot := Activate(s.subs[t], next);
            && Core(s.(subs := s.subs[t := slot]))
            && (s.state.Reconnecting? ==>
                  s.barrier.subsPending > 0
                  && Counted(s.subs[t := slot], s.barrier.(subsPending := s.barrier.subsPending - 1), []))
  {
    hide Working, Core, Counted, Activate, Held;
    var slot := Activate(s.subs[t], next);
    GrantedHeld(s, t, asked, next);
    ReplacedCore(s, t, slot);
    if s.state.Reconnecting? {
      ActiveCounted(s.subs, s.barrier, t, slot);
    }
  }

  lemma GrantedInv(s: Session, t: Topic, asked: Slot, next: nat)
    requires Answering(s, t, asked)
    ensures var s' := Finish(s.(subs := s.subs[t := Activate(s.subs[t], next)]), s.state.Reconnecting?);
            Inv(s') && Concluded(s, s')
  {
    hide Answering, Working, Core, Counted, Activate, Finish, Inv;
    AnsweringAlone(s, t, asked);
    GrantedCore(s, t, asked, next);
    FinishInv(s.(subs := s.subs[t := Activate(s.subs[t], next)]), s.state.Reconnecting?);
  }

  /** Restarting the slot keeps the handler's view of it. */
  lemma RestartAnswering(s: Session, t: Topic, asked: Slot)
    requires Answering(s, t, asked)
    ensures var s1 := s.(subs := s.subs[t := Restart(s.subs[t])]);
            Working(s1, t) && Askable(s1, t, 0)
            && (s1.state.Ready? || s1.state.Reconnecting? || Terminal(s1))
            && (Resumes(s1.subs[t]) ==> s1.state.Reconnecting?)
            && (s1.state.Reconnecting? ==> Counted(s1.subs, s1.barrier, [t]) && t in s1.barrier.round)
  {
    var slot := Restart(s.subs[t]);
    assert Held(s.subs[t], t, s.table.asked);
    RestartLawful(s.subs[t]);
    assert Held(slot, t, s.table.asked) by { hide Lawful; }
    OneHeld(s.subs, s.table.asked, t, slot);
    if s.state.Reconnecting? {
      SameCounted(s.subs, s.barrier, [t], t, slot);
    }
    assert s.subs[t := slot] - {t} == s.subs - {t};
    if Terminal(s) {
      OneSettled(s.subs, s.state, t, slot);
    }
    hide AllHeld, AllSettled, Books, Awaited, Limited, Archived, WireLawful, Owes, Held, Counted, Restart;
  }

  /** A subscribe sent from within a round leaves the round's books balanced, however it goes. */
  lemma AskAgainInv(s: Session, t: Topic, sinceSeq: nat, send: SendResult)
    requires Working(s, t) && Askable(s, t, sinceSeq)
    requires s.state.Ready? || s.state.Reconnecting? || Terminal(s)
    requires s.subs[t].state.Pending? && Resumes(s.subs[t]) ==> s.state.Reconnecting?
    requires s.state.Reconnecting? ==> Counted(s.subs, s.barrier, [t]) && t in s.barrier.round
    ensures Inv(SendSubscribe(s, t, sinceSeq, send))
    ensures Concluded(s, SendSubscribe(s, t, sinceSeq, send))
  {
    hide Working, Core, SendSubscribe;
    var s' := SendSubscribe(s, t, sinceSeq, send);
    if send.EncodeFails? {
      AskNot(s, t, sinceSeq);
      if s.state.Reconnecting? {
        assert [t] + [] == [t];
        DropCounted(s.subs, s.barrier, t, []);
      }
    } else if s.open && send.SendOk? {
      AskOut(s, t, sinceSeq);
      if s.state.Reconnecting? {
        assert [t] + [] == [t];
        AskCounted(s.subs, s.barrier, t, [], s'.subs[t]);
        assert t in Unanswered(s'.subs);
      }
    } else {
      AskLost(s, t, sinceSeq, send);
    }
  }

  lemma AnsweringLosable(s: Session, t: Topic, asked: Slot)
    requires Answering(s, t, asked)
    ensures Losable(s) && Wakeable(s) && s.est.NoEst? && t in s.subs
  {
    WorkingLosable(s, t);
    hide AllHeld, AllSettled, OthersSettled, Books, Awaited, Limited, Archived, WireLawful, Owes, Lawful, NoneActive, Counted, Phases, ReplayTracked;
  }

  /** History is refused once: the slot asks again from scratch. */
  lemma RejectedInv(s: Session, t: Topic, asked: Slot, history: bool, retry: SendResult)
    requires Answering(s, t, asked)
    ensures Inv(Answer(s, t, Rejected(history), retry)) && Concluded(s, Answer(s, t, Rejected(history), retry))
  {
    hide Inv, Answering, Working, Finish, Unregister, SendSubscribe, Restart, Counted, Askable;
    AnsweringAlone(s, t, asked);
    ClosedInv(s, t, asked);
    var restarted := s.(subs := s.subs[t := Restart(s.subs[t])]);
    if s.subs[t].semantics.EventStream? && history && !s.subs[t].freshRetryDone {
      RestartAnswering(s, t, asked);
      AskAgainInv(restarted, t, 0, retry);
    }
  }

  lemma AnswerInv(s: Session, t: Topic, asked: Slot, ack: Ack, retry: SendResult)
    requires Answering(s, t, asked)
    ensures Inv(Answer(s, t, ack, retry)) && Concluded(s, Answer(s, t, ack, retry))
  {
    hide Inv, Answering, Working, Losable, Wakeable, Finish, Unregister, SendSubscribe, Abort, OnTransportClose, Activate;
    AnsweringAlone(s, t, asked);
    match ack {
      case Refused(cat) =>
        AnsweringLosable(s, t, asked);
        ClosedInv(s, t, asked);
        if cat.FatalError? {
          AbortInv(s, cat);
        } else if cat.TransientError? && s.state.Reconnecting? {
          OnTransportCloseInv(s, cat);
        }
      case Rejected(history) =>
        RejectedInv(s, t, asked, history, retry);
      case Granted(next) =>
        GrantedInv(s, t, asked, next);
    }
  }

  // ----- Matching the answer -----

  lemma UnaskedBooks(b: Table, est: Est, rid: nat)
    requires Books(b) && Awaited(b, est)
    ensures Books(Unasked(b, rid)) && Awaited(Unasked(b, rid), est)
  {}

  /** No other slot is asked under the same id. */
  lemma UnaskedHeld(subs: map<Topic, Slot>, asked: map<nat, Topic>, rid: nat)
    requires AllHeld(subs, asked) && rid in asked
    ensures var t := asked[rid];
            AllHeld(if t in subs && subs[t].inflightId == rid then subs[t := Unask(subs[t])] else subs, asked - {rid})
  {
    hide Sound, Position, InStep, Story, Frames, Refusals, UnderEvent, Told;
  }

  /** An answer nobody waits for is dropped. */
  lemma StrayAckInv(s: Session, rid: nat)
    requires Inv(s) && rid in s.table.asked
    requires var t := s.table.asked[rid]; t !in s.subs || s.subs[t].inflightId != rid
    ensures Inv(s.(table := Unasked(s.table, rid)))
  {
    UnaskedBooks(s.table, s.est, rid);
    UnaskedHeld(s.subs, s.table.asked, rid);
    hide AllHeld, AllSettled, Books, Awaited, Limited, Archived, WireLawful, Owes, Held, NoneActive, Counted;
  }

  /** While anything is asked, `_establish` is not suspended and there is, or has been, a connection. */
  lemma AskedPhases(s: Session, rid: nat)
    requires Phases(s) && rid in s.table.asked
    ensures s.est.NoEst? && (s.state.Ready? || s.state.Reconnecting? || Terminal(s))
    ensures Phases(s.(table := Unasked(s.table, rid)))
  {
    hide NoneActive;
  }

  lemma UnaskedSettled(subs: map<Topic, Slot>, state: ConnState, t: Topic)
    requires AllSettled(subs, state) && t in subs && subs[t].state.Pending? && subs[t].inflightId != 0
    ensures OthersSettled(subs[t := Unask(subs[t])], state, t)
    ensures Resumes(subs[t]) ==> state.Reconnecting?
    ensures !state.Reconnecting? ==> AllSettled(subs[t := Unask(subs[t])], state)
  {
    assert subs[t := Unask(subs[t])] - {t} == subs - {t};
  }

  /** A matched answer finds the session the way its handler expects it. */
  lemma MatchedWorking(s: Session, rid: nat)
    requires Inv(s) && MatchesSlot(s, rid) && s.subs[s.table.asked[rid]].state.Pending? && rid != 0
    ensures Working(Matched(s, rid), s.table.asked[rid])
  {
    hide AllHeld, AllSettled, OthersSettled, Books, Awaited, Limited, Archived, WireLawful, Owes, NoneActive, Lawful, BarrierOk, Held, OnlyOwn;
    AskedPhases(s, rid);
    UnaskedBooks(s.table, s.est, rid);
    UnaskedHeld(s.subs, s.table.asked, rid);
    UnaskedSettled(s.subs, s.state, s.table.asked[rid]);
  }

  lemma HeldAsked(s: Session, t: Topic)
    requires Inv(s) && t in s.subs && s.subs[t].inflightId in s.table.asked
    ensures s.subs[t].inflightId != 0 && Held(s.subs[t], t, s.table.asked) && Lawful(s.subs[t]) && s.subs[t].state.Pending?
  {
    hide Lawful;
  }

  lemma MatchedAnswering(s: Session, rid: nat)
    requires Inv(s) && MatchesSlot(s, rid)
    ensures var t := s.table.asked[rid];
            Answering(Matched(s, rid), t, s.subs[t])
  {
    hide Working, Lawful, AllHeld, AllSettled, OthersSettled, Books, Awaited, WireOk, Limited, Archived, Counted, Held, NoneActive;
    var t := s.table.asked[rid];
    HeldAsked(s, t);
    MatchedWorking(s, rid);
    AskedPhases(s, rid);
    UnaskedSettled(s.subs, s.state, t);
    if s.state.Reconnecting? {
      UnaskCounted(s.subs, s.barrier, t);
    }
  }

  lemma MatchedState(s: Session, rid: nat)
    requires MatchesSlot(s, rid)
    ensures Matched(s, rid).state == s.state
  {}

  lemma HandleAckInv(s: Session, rid: nat, ack: Ack, retry: SendResult)
    requires Inv(s)
    ensures Inv(HandleAck(s, rid, ack, retry)) && Concluded(s, HandleAck(s, rid, ack, retry))
  {
    hide Inv, Answering, Answer, Matched, Down, Counted;
    if MatchesSlot(s, rid) {
      MatchedAnswering(s, rid);
      MatchedState(s, rid);
      AnswerInv(Matched(s, rid), s.table.asked[rid], s.subs[s.table.asked[rid]], ack, retry);
    } else if rid in s.table.asked {
      StrayAckInv(s, rid);
    }
  }
}
