/** Rounds of subscribes, after the first handshake and after a reconnect, keep the invariant. */
module SessionRounds {
  import opened Flows
  import opened Chronicles
  import opened Streams
  import opened StreamLaws
  import opened Sessions
  import opened SessionInvariant
  import opened SessionAsking
  import opened SessionBarrier

  ghost predicate Distinct(order: seq<Topic>) {
    forall i, j :: 0 <= i < j < |order| ==> order[i] != order[j]
  }

  /** The slots a round has still to ask are idle. */
  ghost predicate Idling(subs: map<Topic, Slot>, order: seq<Topic>) {
    forall i :: 0 <= i < |order| && order[i] in subs ==>
      subs[order[i]].inflightId == 0 && (subs[order[i]].state.Pending? || subs[order[i]].state.Paused?)
  }

  /** In the middle of a round: `order` is what is left to ask. */
  ghost predicate Round(s: Session, order: seq<Topic>) {
    && Core(s) && s.est.NoEst? && Distinct(order) && Idling(s.subs, order)
    && (s.state.Reconnecting? || s.state.TransientFailure? || Terminal(s))
    && (s.state.Reconnecting? ==>
          Counted(s.subs, s.barrier, order) && forall i :: 0 <= i < |order| ==> order[i] in s.barrier.round)
  }

  /** What a round of subscribes leaves alone. */
  ghost predicate SameRound(s: Session, s': Session) {
    && s'.opts == s.opts && s'.engaged == s.engaged && s'.attempt == s.attempt && s'.totalCount == s.totalCount
    && s'.est == s.est
    && (s'.state == s.state || (s'.state.TransientFailure? && !Terminal(s)))
    && (s'.state.Reconnecting? ==> s'.barrier.subsPending == s.barrier.subsPending
                                   && s'.barrier.estopPending == s.barrier.estopPending)
  }

  // ----- Every idle slot may be asked -----

  lemma BeginRoundHeld(slot: Slot, t: Topic, asked: map<nat, Topic>)
    requires Held(slot, t, asked)
    ensures Held(BeginRound(slot), t, asked)
  {
    hide Sound, Position, InStep, Story, Frames, Refusals, UnderEvent, Told;
  }

  lemma BeginRoundSettled(subs: map<Topic, Slot>, state: ConnState, t: Topic)
    requires AllSettled(subs, state) && t in subs
    ensures AllSettled(subs[t := BeginRound(subs[t])], state)
  {}

  /** The round has slot `t` next: its fresh retry is restored. */
  lemma BeginRoundCore(s: Session, t: Topic)
    requires Core(s) && t in s.subs
    requires s.est.NoEst? && (s.state.Reconnecting? || s.state.TransientFailure? || Terminal(s))
    ensures Core(s.(subs := s.subs[t := BeginRound(s.subs[t])]))
  {
    hide Held, AllHeld, AllSettled, Books, Awaited, ReplayOut, WireLawful, Limited, Archived, Lawful, OnlyOwn, Owes;
    assert Held(s.subs[t], t, s.table.asked) by { HeldAt(s.subs, s.table.asked, t); }
    BeginRoundHeld(s.subs[t], t, s.table.asked);
    OneHeld(s.subs, s.table.asked, t, BeginRound(s.subs[t]));
    BeginRoundSettled(s.subs, s.state, t);
    assert NoneActive(s.subs) ==> NoneActive(s.subs[t := BeginRound(s.subs[t])]);
  }

  lemma CoreWorking(s: Session, t: Topic)
    requires Core(s) && s.est.NoEst?
    ensures Working(s, t)
  {
    hide AllHeld, Books, Awaited, ReplayTracked, WireOk, Limited, Archived, Phases, AllSettled, OthersSettled;
    LessSettled(s.subs, s.state, t);
  }

  /** An idle slot may be asked from where it stands. */
  lemma IdleAskable(s: Session, t: Topic, sinceSeq: nat)
    requires Core(s) && t in s.subs && s.subs[t].inflightId == 0
    requires s.subs[t].state.Pending? || (s.subs[t].state.Paused? && !s.state.Ready?)
    requires s.state.Ready? || s.state.Reconnecting? || s.state.TransientFailure? || Terminal(s)
    requires sinceSeq > 0 ==> 0 < s.subs[t].lastSeq == sinceSeq - 1
    ensures Askable(s, t, sinceSeq)
    ensures s.subs[t].state.Pending? && Resumes(s.subs[t]) ==> s.state.Reconnecting?
  {
    hide AllHeld, Books, Awaited, ReplayTracked, WireOk, Limited, Archived, OnlyOwn, NoneActive;
  }

  // ----- One more slot of the round is asked -----

  /** What a subscribe that did not go out leaves for the rest of the round. */
  lemma IdlingAfterLoss(s: Session, order: seq<Topic>)
    requires Core(s) && s.state.TransientFailure?
    ensures Idling(s.subs, order)
  {
    hide Lawful, Books, Awaited, ReplayTracked, WireOk, Limited, Archived, AllSettled;
    forall i | 0 <= i < |order| && order[i] in s.subs
      ensures s.subs[order[i]].inflightId == 0 && (s.subs[order[i]].state.Pending? || s.subs[order[i]].state.Paused?)
    {
      assert Held(s.subs[order[i]], order[i], s.table.asked);
    }
  }

  lemma IdlingElsewhere(subs: map<Topic, Slot>, subs': map<Topic, Slot>, order: seq<Topic>)
    requires Idling(subs, order) && Distinct(order) && order != []
    requires forall t :: t in subs' && t != order[0] ==> t in subs && subs'[t] == subs[t]
    ensures Idling(subs', order[1..]) && Distinct(order[1..])
  {}

  /** What a subscribe, however it goes, leaves of the round. */
  lemma AskInRound(s: Session, order: seq<Topic>, sinceSeq: nat, send: SendResult)
    requires Round(s, order) && order != [] && order[0] in s.subs
    requires sinceSeq > 0 ==> 0 < s.subs[order[0]].lastSeq == sinceSeq - 1
    ensures var s' := SendSubscribe(s, order[0], sinceSeq, send);
            Round(s', order[1..]) && SameRound(s, s')
  {
    hide Core, Working, SendSubscribe, Askable, Held, Lawful, OnTransportClose, Owes, Inv;
    var t := order[0];
    var s' := SendSubscribe(s, t, sinceSeq, send);
    CoreWorking(s, t);
    IdleAskable(s, t, sinceSeq);
    if send.EncodeFails? {
      AskNot(s, t, sinceSeq);
      IdlingElsewhere(s.subs, s'.subs, order);
      if s.state.Reconnecting? {
        assert [t] + order[1..] == order;
        DropCounted(s.subs, s.barrier, t, order[1..]);
      }
    } else if s.open && send.SendOk? {
      AskOut(s, t, sinceSeq);
      IdlingElsewhere(s.subs, s'.subs, order);
      if s.state.Reconnecting? {
        assert [t] + order[1..] == order;
        AskCounted(s.subs, s.barrier, t, order[1..], s'.subs[t]);
      }
    } else {
      AskLost(s, t, sinceSeq, send);
      InvCore(s');
      if s'.state.TransientFailure? {
        IdlingAfterLoss(s', order[1..]);
      } else {
        IdlingElsewhere(s.subs, s'.subs, order);
      }
    }
  }

  lemma InvCore(s: Session)
    requires Inv(s)
    ensures Core(s)
  {
    hide Core;
  }

  /** Restoring the fresh retry of the next slot keeps the round. */
  lemma BeginRoundRound(s: Session, order: seq<Topic>)
    requires Round(s, order) && order != [] && order[0] in s.subs
    ensures Round(s.(subs := s.subs[order[0] := BeginRound(s.subs[order[0]])]), order)
  {
    hide Core;
    BeginRoundCore(s, order[0]);
    if s.state.Reconnecting? {
      SameCounted(s.subs, s.barrier, order, order[0], BeginRound(s.subs[order[0]]));
    }
  }

  /** A slot that has left the registry is skipped. */
  lemma SkipInRound(s: Session, order: seq<Topic>)
    requires Round(s, order) && order != [] && order[0] !in s.subs
    ensures Round(s, order[1..])
  {
    hide Core;
  }

  /** A round, to its end. */
  lemma {:induction false} ResubscribeRound(s: Session, order: seq<Topic>, sends: seq<SendResult>)
    requires |order| == |sends| && Round(s, order)
    ensures Round(Resubscribe(s, order, sends), []) && SameRound(s, Resubscribe(s, order, sends))
    decreases |order|
  {
    hide Round, SendSubscribe;
    if order == [] {
      return;
    }
    if order[0] !in s.subs {
      SkipInRound(s, order);
      ResubscribeRound(s, order[1..], sends[1..]);
    } else {
      var slot := BeginRound(s.subs[order[0]]);
      var s1 := s.(subs := s.subs[order[0] := slot]);
      var since := SinceSeq(slot, s.opts.replayHistory);
      BeginRoundRound(s, order);
      AskInRound(s1, order, since, sends[0]);
      var s2 := SendSubscribe(s1, order[0], since, sends[0]);
      ResubscribeRound(s2, order[1..], sends[1..]);
      SameRoundTrans(s, s1, s2);
      SameRoundTrans(s, s2, Resubscribe(s2, order[1..], sends[1..]));
    }
  }

  lemma SameRoundTrans(s: Session, s1: Session, s2: Session)
    requires SameRound(s, s1) && SameRound(s1, s2)
    ensures SameRound(s, s2)
  {}

  // ----- The first connection -----

  /** Between the subscribes of a first connection. */
  ghost predicate FirstRound(s: Session) {
    Inv(s) && s.est.NoEst? && (s.state.Ready? || s.state.TransientFailure?)
  }

  lemma AskWaiting(s: Session, t: Topic, send: SendResult)
    requires FirstRound(s) && t in s.subs && s.subs[t].state.Pending? && s.subs[t].inflightId == 0
    ensures FirstRound(SendSubscribe(s, t, 0, send))
  {
    hide Core, Working, SendSubscribe, Askable, Held, Lawful, Owes;
    var s' := SendSubscribe(s, t, 0, send);
    CoreWorking(s, t);
    IdleAskable(s, t, 0);
    if send.EncodeFails? {
      AskNot(s, t, 0);
    } else if s.open && send.SendOk? {
      AskOut(s, t, 0);
    } else {
      AskLost(s, t, 0, send);
    }
  }

  lemma {:induction false} SubscribeWaitingInv(s: Session, order: seq<Topic>, sends: seq<SendResult>)
    requires |order| == |sends| && FirstRound(s)
    ensures FirstRound(SubscribeWaiting(s, order, sends))
    decreases |order|
  {
    hide FirstRound, SendSubscribe;
    if order == [] {
    } else if order[0] in s.subs && s.subs[order[0]].state.Pending? && s.subs[order[0]].inflightId == 0 {
      AskWaiting(s, order[0], sends[0]);
      SubscribeWaitingInv(SendSubscribe(s, order[0], 0, sends[0]), order[1..], sends[1..]);
    } else {
      SubscribeWaitingInv(s, order[1..], sends[1..]);
    }
  }
}
