/** What every registered slot is: of the semantics the catalogue gives its topic, asked to go on right after
    its position, and left alone while it is asked. */
module SessionSlots {
  import opened Flows
  import opened Chronicles
  import opened Streams
  import opened StreamLaws
  import opened Sessions
  import opened SessionInvariant
  import opened SessionRounds
  import opened SessionLinks

  /** Where a stream should go on: after the last number accounted for, if it has one and history is wanted;
      0 asks from the present on. */
  function ResumePoint(slot: Slot, replayHistory: bool): nat {
    if slot.semantics.EventStream? && replayHistory && slot.lastSeq > 0 then slot.lastSeq + 1 else 0
  }

  /** The slot is what the options and the catalogue say, and, if its subscribe is outstanding, that subscribe
      went out on this connection and asked for the resume point. */
  ghost predicate Fits(slot: Slot, t: Topic, s: Session) {
    && slot.conf == s.opts.conf
    && slot.semantics == SemanticsOf(s.catalog, t)
    && (slot.inflightId != 0 ==>
          && slot.expectedResumeSeq == ResumePoint(slot, s.opts.replayHistory)
          && Sent(CmdSubscribe(slot.inflightId, t, slot.expectedResumeSeq)) in s.wire.log)
  }

  ghost predicate AllFit(s: Session) {
    forall t :: t in s.subs ==> Fits(s.subs[t], t, s)
  }

  /** Nothing but the buffers and counters of the slot has changed, and whether it may still retry. */
  ghost predicate StillAsked(x: Slot, y: Slot) {
    y == x.(flow := y.flow, freshRetryDone := y.freshRetryDone)
  }

  /** A subscribe outstanding afterwards under an id already in use was outstanding before, its slot left
      alone. */
  ghost predicate Untouched(s: Session, s': Session) {
    forall t :: t in s'.subs && 0 < s'.subs[t].inflightId < s.table.nextRid ==>
      t in s.subs && s.subs[t].inflightId == s'.subs[t].inflightId && StillAsked(s.subs[t], s'.subs[t])
  }

  /** What every handler but an accepted handshake keeps. */
  ghost predicate Onward(s: Session, s': Session) {
    && s'.opts == s.opts && s'.catalog == s.catalog && s.table.nextRid <= s'.table.nextRid
    && (AllFit(s) ==> AllFit(s')) && Untouched(s, s')
  }

  lemma OnwardTrans(s: Session, s1: Session, s2: Session)
    requires Onward(s, s1) && Onward(s1, s2)
    ensures Onward(s, s2)
  {
    hide AllFit;
  }

  // ----- Small changes -----

  ghost predicate Prefix(a: seq<WireEvent>, b: seq<WireEvent>) {
    a <= b
  }

  lemma LongerFits(slot: Slot, t: Topic, s: Session, s': Session)
    requires Fits(slot, t, s) && s'.opts == s.opts && s'.catalog == s.catalog && Prefix(s.wire.log, s'.wire.log)
    ensures Fits(slot, t, s')
  {}

  /** Slots only leave, are no longer asked, or only buffer. */
  lemma LessOnward(s: Session, s': Session)
    requires s'.opts == s.opts && s'.catalog == s.catalog && s.table.nextRid <= s'.table.nextRid && Prefix(s.wire.log, s'.wire.log)
    requires forall t :: t in s'.subs ==>
               && t in s.subs && s'.subs[t].conf == s.subs[t].conf && s'.subs[t].semantics == s.subs[t].semantics
               && (s'.subs[t].inflightId == 0 || StillAsked(s.subs[t], s'.subs[t]))
    ensures Onward(s, s')
  {
    hide Prefix;
    if AllFit(s) {
      forall t | t in s'.subs
        ensures Fits(s'.subs[t], t, s')
      {
        LongerFits(s.subs[t], t, s, s');
      }
    }
  }

  lemma SamePrefix(log: seq<WireEvent>, e: WireEvent)
    ensures Prefix(log, log) && Prefix(log, log + [e])
  {}

  lemma SameOnward(s: Session, s': Session)
    requires s'.opts == s.opts && s'.catalog == s.catalog && s.table.nextRid <= s'.table.nextRid && Prefix(s.wire.log, s'.wire.log)
    requires s'.subs == s.subs
    ensures Onward(s, s')
  {
    hide Onward;
    LessOnward(s, s');
  }

  // ----- Losing the connection -----

  lemma LoseConnectionOnward(s: Session, cat: Category)
    ensures Onward(s, LoseConnection(s, cat))
  {
    hide Onward;
    SamePrefix(s.wire.log, ReplayAccepted);
    LessOnward(s, LoseConnection(s, cat));
  }

  lemma BodiesOnward(s: Session, cat: Category)
    ensures Onward(s, AbortBody(s, cat)) && Onward(s, CloseBody(s))
  {
    hide Onward, RetireAll;
    SamePrefix(s.wire.log, ReplayAccepted);
    LessOnward(s, AbortBody(s, cat));
    LessOnward(s, CloseBody(s));
  }

  lemma HandshakeFailedOnward(s: Session, cat: Category)
    ensures Onward(s, HandshakeFailed(s, cat))
  {
    hide Onward, AbortBody;
    var s1 := s.(est := NoEst);
    SamePrefix(s.wire.log, ReplayAccepted);
    SameOnward(s, s1);
    if cat.FatalError? {
      BodiesOnward(s1, cat);
      OnwardTrans(s, s1, AbortBody(s1, cat));
    } else {
      SameOnward(s, HandshakeFailed(s, cat));
    }
  }

  lemma ReplayFailedOnward(s: Session)
    ensures Onward(s, ReplayFailed(s))
  {
    hide Onward, LoseConnection;
    var s1 := s.(barrier := s.barrier.(estopPending := false));
    SamePrefix(s.wire.log, ReplayAccepted);
    SameOnward(s, s1);
    LoseConnectionOnward(s1, TransientError);
    OnwardTrans(s, s1, LoseConnection(s1, TransientError));
  }

  lemma LeftOnward(s: Session, s': Session)
    requires OnlyLeft(s, s')
    ensures Onward(s, s')
  {
    hide Onward;
    SamePrefix(s.wire.log, ReplayAccepted);
    LessOnward(s, s');
  }

  lemma WakeOnward(s: Session, before: Table, cat: Category)
    ensures Onward(s, Wake(s, before, cat))
  {
    hide Onward, OnlyLeft, LeaveUpTo, ReplayOut, ReplayFailed, HandshakeFailed;
    var s1 := LeaveAll(s, before);
    var s2 := if ReplayOut(before) then ReplayFailed(s1) else s1;
    LeaveUpToKeeps(s, before.inflight, before.nextRid);
    LeftOnward(s, s1);
    ReplayFailedOnward(s1);
    HandshakeFailedOnward(s2, cat);
    if ReplayOut(before) {
      OnwardTrans(s, s1, s2);
    }
    if s2.est.AtHandshake? && s2.est.rid in before.inflight {
      OnwardTrans(s, s2, HandshakeFailed(s2, cat));
    }
  }

  lemma SelfOnward(s: Session)
    ensures Onward(s, s)
  {
    hide Onward;
    SamePrefix(s.wire.log, ReplayAccepted);
    SameOnward(s, s);
  }

  lemma OnTransportCloseOnward(s: Session, cat: Category)
    ensures Onward(s, OnTransportClose(s, cat))
  {
    hide Onward, LoseConnection, Wake;
    SelfOnward(s);
    LoseConnectionOnward(s, cat);
    WakeOnward(LoseConnection(s, cat), s.table, cat);
    OnwardTrans(s, LoseConnection(s, cat), Wake(LoseConnection(s, cat), s.table, cat));
  }

  lemma AbortOnward(s: Session, cat: Category)
    ensures Onward(s, Abort(s, cat)) && Onward(s, UserClose(s))
  {
    hide Onward, AbortBody, CloseBody, Wake;
    SelfOnward(s);
    BodiesOnward(s, cat);
    WakeOnward(AbortBody(s, cat), s.table, cat);
    OnwardTrans(s, AbortBody(s, cat), Abort(s, cat));
    WakeOnward(CloseBody(s), s.table, LocalError);
    OnwardTrans(s, CloseBody(s), Wake(CloseBody(s), s.table, LocalError));
  }

  // ----- Subscribing -----

  lemma UnregisterOnward(s: Session, t: Topic)
    ensures Onward(s, Unregister(s, t))
  {
    hide Onward, Retire;
    SamePrefix(s.wire.log, ReplayAccepted);
    LessOnward(s, Unregister(s, t));
  }

  /** One slot changes that is not asked. */
  lemma OneOnward(s: Session, t: Topic, slot: Slot)
    requires t in s.subs && slot.conf == s.subs[t].conf && slot.semantics == s.subs[t].semantics
    requires slot.inflightId == 0 || StillAsked(s.subs[t], slot)
    ensures Onward(s, s.(subs := s.subs[t := slot]))
  {
    hide Onward;
    SamePrefix(s.wire.log, ReplayAccepted);
    LessOnward(s, s.(subs := s.subs[t := slot]));
  }

  /** The subscribe goes out and asks for the resume point. */
  lemma AskedOnward(s: Session, t: Topic, sinceSeq: nat)
    requires t in s.subs && s.open && 1 <= s.table.nextRid
    requires s.subs[t].semantics.EventStream? ==> sinceSeq == ResumePoint(s.subs[t], s.opts.replayHistory)
    ensures Onward(s, SendSubscribe(s, t, sinceSeq, SendOk))
  {
    hide OnTransportClose;
    var s' := SendSubscribe(s, t, sinceSeq, SendOk);
    var sent := Sent(CmdSubscribe(s.table.nextRid, t, s'.subs[t].expectedResumeSeq));
    assert s'.wire.log == s.wire.log + [sent];
    if AllFit(s) {
      forall u | u in s'.subs
        ensures Fits(s'.subs[u], u, s')
      {
        if u == t {
          assert s'.wire.log[|s.wire.log|] == sent;
          assert Fits(s.subs[t], t, s);
        } else {
          LongerFits(s.subs[u], u, s, s');
        }
      }
    }
  }

  /** A subscribe, however it goes, asks for the resume point. */
  lemma SendSubscribeOnward(s: Session, t: Topic, sinceSeq: nat, send: SendResult)
    requires t in s.subs && 1 <= s.table.nextRid
    requires s.subs[t].semantics.EventStream? ==> sinceSeq == ResumePoint(s.subs[t], s.opts.replayHistory)
    ensures Onward(s, SendSubscribe(s, t, sinceSeq, send))
  {
    hide Onward, OnTransportClose, Retire;
    var s0 := s.(table := NextRid(s.table));
    SamePrefix(s.wire.log, ReplayAccepted);
    SameOnward(s, s0);
    if send.EncodeFails? {
      var s' := SendSubscribe(s, t, sinceSeq, send);
      LessOnward(s, s');
    } else if s.open && send.SendOk? {
      AskedOnward(s, t, sinceSeq);
    } else {
      var slot := Unask(Ask(s.subs[t], s.table.nextRid, sinceSeq, s.state.Reconnecting?));
      var s1 := s0.(subs := s.subs[t := slot]);
      OneOnward(s0, t, slot);
      OnTransportCloseOnward(s1, TransientError);
      OnwardTrans(s0, s1, OnTransportClose(s1, TransientError));
      OnwardTrans(s, s0, OnTransportClose(s1, TransientError));
    }
  }

  lemma {:induction false} ResubscribeOnward(s: Session, order: seq<Topic>, sends: seq<SendResult>)
    requires |order| == |sends| && 1 <= s.table.nextRid
    ensures Onward(s, Resubscribe(s, order, sends))
    decreases |order|
  {
    hide SendSubscribe, AllFit, Untouched;
    SelfOnward(s);
    if order != [] {
      if order[0] !in s.subs {
        ResubscribeOnward(s, order[1..], sends[1..]);
      } else {
        var slot := BeginRound(s.subs[order[0]]);
        var s1 := s.(subs := s.subs[order[0] := slot]);
        var since := SinceSeq(slot, s.opts.replayHistory);
        var s2 := SendSubscribe(s1, order[0], since, sends[0]);
        OneOnward(s, order[0], slot);
        SendSubscribeOnward(s1, order[0], since, sends[0]);
        OnwardTrans(s, s1, s2);
        ResubscribeOnward(s2, order[1..], sends[1..]);
        OnwardTrans(s, s2, Resubscribe(s2, order[1..], sends[1..]));
      }
    }
  }

  /** A slot that was never asked has no position. */
  lemma NotBegun(s: Session, t: Topic)
    requires Inv(s) && t in s.subs && s.subs[t].state.Pending? && s.subs[t].inflightId == 0
    ensures s.subs[t].lastSeq == 0 && 1 <= s.table.nextRid
  {
    hide Awaited, Phases, ReplayTracked, WireOk, Limited, BarrierOk, Archived, Accounted, Tied, Gated, Narrated, Sound;
    assert Held(s.subs[t], t, s.table.asked);
  }

  lemma {:induction false} SubscribeWaitingOnward(s: Session, order: seq<Topic>, sends: seq<SendResult>)
    requires |order| == |sends| && FirstRound(s)
    ensures Onward(s, SubscribeWaiting(s, order, sends))
    decreases |order|
  {
    hide SendSubscribe, AllFit, Untouched, Inv;
    SelfOnward(s);
    if order == [] {
    } else if order[0] in s.subs && s.subs[order[0]].state.Pending? && s.subs[order[0]].inflightId == 0 {
      var s1 := SendSubscribe(s, order[0], 0, sends[0]);
      NotBegun(s, order[0]);
      SendSubscribeOnward(s, order[0], 0, sends[0]);
      AskWaiting(s, order[0], sends[0]);
      SubscribeWaitingOnward(s1, order[1..], sends[1..]);
      OnwardTrans(s, s1, SubscribeWaiting(s1, order[1..], sends[1..]));
    } else {
      SubscribeWaitingOnward(s, order[1..], sends[1..]);
    }
  }

  // ----- Acknowledgements -----

  lemma FinishOnward(s: Session, s1: Session, phase: bool)
    requires Onward(s, s1)
    ensures Onward(s, Finish(s1, phase))
  {
    hide Onward;
    SamePrefix(s1.wire.log, ReplayAccepted);
    SameOnward(s1, Finish(s1, phase));
    OnwardTrans(s, s1, Finish(s1, phase));
  }

  lemma AnswerOnward(s: Session, t: Topic, ack: Ack, retry: SendResult)
    requires t in s.subs && s.subs[t].inflightId == 0 && 1 <= s.table.nextRid
    ensures Onward(s, Answer(s, t, ack, retry))
  {
    hide Onward, Drain, Unregister, OnTransportClose, Abort, SendSubscribe, Finish;
    var phase := s.state.Reconnecting?;
    UnregisterOnward(s, t);
    FinishOnward(s, Unregister(s, t), phase);
    match ack {
      case Refused(cat) =>
        AbortOnward(s, cat);
        OnTransportCloseOnward(s, cat);
      case Rejected(history) =>
        var s1 := s.(subs := s.subs[t := Restart(s.subs[t])]);
        OneOnward(s, t, Restart(s.subs[t]));
        SendSubscribeOnward(s1, t, 0, retry);
        OnwardTrans(s, s1, SendSubscribe(s1, t, 0, retry));
      case Granted(next) =>
        OneOnward(s, t, Activate(s.subs[t], next));
        FinishOnward(s, s.(subs := s.subs[t := Activate(s.subs[t], next)]), phase);
    }
  }

  lemma HandleAckOnward(s: Session, rid: nat, ack: Ack, retry: SendResult)
    requires 1 <= s.table.nextRid
    ensures Onward(s, HandleAck(s, rid, ack, retry))
  {
    hide Onward, Answer;
    SamePrefix(s.wire.log, ReplayAccepted);
    SelfOnward(s);
    if MatchesSlot(s, rid) {
      var s1 := Matched(s, rid);
      LessOnward(s, s1);
      AnswerOnward(s1, s.table.asked[rid], ack, retry);
      OnwardTrans(s, s1, HandleAck(s, rid, ack, retry));
    } else if rid in s.table.asked {
      SameOnward(s, s.(table := Unasked(s.table, rid)));
    }
  }

  // ----- Establishing -----

  /** While `_establish` is suspended nothing is asked. */
  lemma NoneAsked(s: Session)
    requires Inv(s) && !s.est.NoEst?
    ensures 1 <= s.table.nextRid && forall t :: t in s.subs ==> s.subs[t].inflightId == 0
  {
    hide Awaited, ReplayTracked, WireOk, Limited, BarrierOk, Archived, Lawful, AllSettled;
    forall t | t in s.subs
      ensures s.subs[t].inflightId == 0
    {
      assert Held(s.subs[t], t, s.table.asked);
    }
  }

  /** With nothing asked a new connection changes nothing. */
  lemma NewWireOnward(s: Session, s': Session)
    requires s'.opts == s.opts && s'.catalog == s.catalog && s.table.nextRid <= s'.table.nextRid
    requires s'.subs == s.subs && forall t :: t in s.subs ==> s.subs[t].inflightId == 0
    ensures Onward(s, s')
  {
    if AllFit(s) {
      forall t | t in s'.subs
        ensures Fits(s'.subs[t], t, s')
      {
        assert Fits(s.subs[t], t, s);
      }
    }
  }

  lemma ConnectedOnward(s: Session, ok: bool, cat: Category, encodeOk: bool, sendOk: bool)
    requires Inv(s) && s.est.AtConnect?
    ensures Onward(s, Connected(s, ok, cat, encodeOk, sendOk))
  {
    hide Onward, Inv, Abort, HandshakeFailed;
    NoneAsked(s);
    var s' := Connected(s, ok, cat, encodeOk, sendOk);
    var s0, s1 := s.(est := NoEst), Opened(s);
    var s2 := Call(s1, s.table.nextRid, Handshake, CmdHandshake, false);
    SamePrefix(s.wire.log, ReplayAccepted);
    if !ok {
      SameOnward(s, s0);
      AbortOnward(s0, cat);
      OnwardTrans(s, s0, Abort(s0, cat));
      if !cat.FatalError? {
        SameOnward(s, s');
      }
    } else if !encodeOk {
      NewWireOnward(s, s1.(est := NoEst));
      AbortOnward(s1.(est := NoEst), cat);
      OnwardTrans(s, s1.(est := NoEst), Abort(s1.(est := NoEst), cat));
    } else if sendOk {
      NewWireOnward(s, s');
    } else {
      NewWireOnward(s, s2);
      HandshakeFailedOnward(s2, TransientError);
      OnwardTrans(s, s2, HandshakeFailed(s2, TransientError));
    }
  }

  /** The catalogue of an accepted handshake is taken in, by slots that are not asked. */
  lemma LearnFits(s: Session, catalog: map<Topic, Semantics>)
    requires forall t :: t in s.subs ==> s.subs[t].inflightId == 0
    ensures (forall t :: t in s.subs ==> s.subs[t].conf == s.opts.conf) ==> AllFit(Learn(s, catalog))
    ensures forall t :: t in Learn(s, catalog).subs ==> Learn(s, catalog).subs[t].inflightId == 0
  {}

  /** What follows asks every slot for its resume point. */
  lemma AfterLearning(s: Session, plan: Plan)
    requires Shaken(s) && |plan.order| == |plan.sends|
    ensures Onward(Learn(s, plan.catalog), Established(s, s.est.reconnect, plan))
  {
    hide Onward, Linked, FirstRound, AllHeld, NoneActive, AllSettled, Learn, SubscribeWaiting, Resubscribe;
    LearnLinked(s, plan.catalog);
    LearnKeeps(s, plan.catalog);
    var s1 := Learn(s, plan.catalog);
    SamePrefix(s1.wire.log, ReplayAccepted);
    var s' := Established(s, s.est.reconnect, plan);
    if !s.est.reconnect {
      var ready := s1.(state := Ready, heartbeat := s.opts.heartbeatOn);
      SameOnward(s1, ready);
      FirstReady(s1);
      SubscribeWaitingOnward(ready, plan.order, plan.sends);
      OnwardTrans(s1, ready, s');
    } else if |s1.subs| == 0 && !s1.engaged {
      SameOnward(s1, s');
    } else {
      var s2 := SetBarrier(s1);
      var waiting := s2.(wire := s2.wire.(waited := true));
      var s3 := Resubscribe(waiting, plan.order, plan.sends);
      SameOnward(s1, waiting);
      ResubscribeOnward(waiting, plan.order, plan.sends);
      OnwardTrans(s1, waiting, s3);
      SamePrefix(s3.wire.log, ReplayAccepted);
      SameOnward(s3, s');
      OnwardTrans(s1, s3, s');
    }
  }

  /** An accepted handshake gives every slot the semantics of its catalogue, and asks for the resume points. */
  lemma EstablishedFits(s: Session, plan: Plan)
    requires Shaken(s) && |plan.order| == |plan.sends| && AllFit(s)
    requires forall t :: t in s.subs ==> s.subs[t].inflightId == 0
    ensures var s' := Established(s, s.est.reconnect, plan);
            && AllFit(s') && s'.catalog == plan.catalog && s'.opts == s.opts && Untouched(s, s')
  {
    hide Shaken, Established;
    var s1 := Learn(s, plan.catalog);
    LearnFits(s, plan.catalog);
    LearnKeeps(s, plan.catalog);
    AfterLearning(s, plan);
    hide Learn;
    assert forall t :: t in s.subs ==> Fits(s.subs[t], t, s);
  }

  // ----- The other handlers -----

  lemma ReplayResumeOnward(s: Session, ok: bool, cat: Category, plan: Plan)
    requires |plan.order| == |plan.sends|
    ensures Onward(s, Resume(s, Replay, ok, cat, plan))
  {
    hide Onward, OnTransportClose;
    var s1 := s.(barrier := s.barrier.(estopPending := false));
    SamePrefix(s.wire.log, ReplayAccepted);
    SameOnward(s, s1);
    if ok {
      SameOnward(s, Resume(s, Replay, ok, cat, plan));
    } else {
      OnTransportCloseOnward(s1, cat);
      OnwardTrans(s, s1, OnTransportClose(s1, cat));
    }
  }

  /** A call has ended; an accepted handshake is another matter. */
  lemma ResumeOnward(s: Session, s1: Session, kind: Rpc, ok: bool, cat: Category, plan: Plan)
    requires |plan.order| == |plan.sends| && !(kind.Handshake? && ok) && s1 == s.(table := s1.table)
    requires s1.table.nextRid == s.table.nextRid
    ensures Onward(s, Resume(s1, kind, ok, cat, plan))
  {
    hide Onward, HandshakeFailed, OnTransportClose, Leave;
    var s' := Resume(s1, kind, ok, cat, plan);
    SamePrefix(s.wire.log, ReplayAccepted);
    SameOnward(s, s1);
    match kind {
      case Handshake =>
        HandshakeFailedOnward(s1, cat);
        OnwardTrans(s, s1, HandshakeFailed(s1, cat));
      case Replay =>
        ReplayResumeOnward(s1, ok, cat, plan);
        OnwardTrans(s, s1, s');
      case Unsubscribing(k) =>
        LeaveKeeps(s1, k);
        LeftOnward(s1, s');
        OnwardTrans(s, s1, s');
      case _ => SameOnward(s, s');
    }
  }

  lemma StartReplayOnward(s: Session, sendOk: bool)
    ensures Onward(s, StartReplay(s, sendOk))
  {
    hide Onward, OnTransportClose;
    var s1 := Call(s.(table := NextRid(s.table), tasks := s.tasks.(replayQueued := false)), s.table.nextRid, Replay, CmdReplay, sendOk);
    var s2 := s1.(barrier := s1.barrier.(estopPending := false));
    SamePrefix(s.wire.log, Sent(CmdReplay));
    SamePrefix(s.wire.log, ReplayAccepted);
    SameOnward(s, s1);
    SameOnward(s, s2);
    OnTransportCloseOnward(s2, TransientError);
    OnwardTrans(s, s2, OnTransportClose(s2, TransientError));
  }

  lemma CallOnward(s: Session, kind: Rpc, sendOk: bool)
    ensures Onward(s, Call(s.(table := NextRid(s.table)), s.table.nextRid, kind, CmdBusiness(kind), sendOk))
  {
    hide Onward;
    SamePrefix(s.wire.log, Sent(CmdBusiness(kind)));
    SameOnward(s, Call(s.(table := NextRid(s.table)), s.table.nextRid, kind, CmdBusiness(kind), sendOk));
  }

  lemma BeatOnward(s: Session, live: bool, sendOk: bool)
    ensures Onward(s, Beat(s, live, sendOk))
  {
    hide Onward, OnTransportClose, Call;
    var s1 := Call(s.(table := NextRid(s.table)), s.table.nextRid, Ping, CmdBusiness(Ping), sendOk);
    SamePrefix(s.wire.log, ReplayAccepted);
    SameOnward(s, s.(heartbeat := false, wire := s.wire.(quit := true)));
    CallOnward(s, Ping, sendOk);
    OnTransportCloseOnward(s1, TransientError);
    OnwardTrans(s, s1, OnTransportClose(s1, TransientError));
  }

  /** A new slot is of the semantics known for its topic, and has no position. */
  lemma NewOnward(s: Session, t: Topic)
    requires t !in s.subs
    ensures var slot := NewSlot(t, |s.past.born|, s.opts.conf, SemanticsOf(s.catalog, t));
            Onward(s, s.(subs := s.subs[t := slot], past := s.past.(born := s.past.born + [t])))
  {
    var slot := NewSlot(t, |s.past.born|, s.opts.conf, SemanticsOf(s.catalog, t));
    var s' := s.(subs := s.subs[t := slot], past := s.past.(born := s.past.born + [t]));
    if AllFit(s) {
      forall u | u in s'.subs
        ensures Fits(s'.subs[u], u, s')
      {
        assert u in s.subs ==> Fits(s.subs[u], u, s);
      }
    }
  }

  lemma SubscribeOnward(s: Session, t: Topic, send: SendResult)
    requires 1 <= s.table.nextRid
    ensures Onward(s, Subscribe(s, t, send))
  {
    hide Onward, SendSubscribe;
    SelfOnward(s);
    if t !in s.subs {
      var slot := NewSlot(t, |s.past.born|, s.opts.conf, SemanticsOf(s.catalog, t));
      var s1 := s.(subs := s.subs[t := slot], past := s.past.(born := s.past.born + [t]));
      NewOnward(s, t);
      SendSubscribeOnward(s1, t, 0, send);
      OnwardTrans(s, s1, SendSubscribe(s1, t, 0, send));
    }
  }

  /** An unsubscribe that does not wait for its answer. */
  lemma DropOnward(s: Session, t: Topic, kind: Rpc, sendOk: bool)
    ensures var s1 := s.(table := NextRid(s.table));
            Onward(s, Unregister(if sendOk then Transmit(s1, Sent(CmdBusiness(kind))) else s1, t))
  {
    hide Onward, Unregister;
    var s1 := s.(table := NextRid(s.table));
    var s2 := if sendOk then Transmit(s1, Sent(CmdBusiness(kind))) else s1;
    SamePrefix(s.wire.log, Sent(CmdBusiness(kind)));
    SameOnward(s, s2);
    UnregisterOnward(s2, t);
    OnwardTrans(s, s2, Unregister(s2, t));
  }

  lemma AbandonOnward(s: Session, t: Topic)
    requires t in s.subs
    ensures Onward(s, Abandon(s, t))
  {
    hide Onward, Unregister;
    var s1 := Unregister(s, t);
    UnregisterOnward(s, t);
    SamePrefix(s1.wire.log, ReplayAccepted);
    SameOnward(s1, Abandon(s, t));
    OnwardTrans(s, s1, Abandon(s, t));
  }

  lemma UnsubscribeOnward(s: Session, t: Topic, syncWait: bool, live: bool, sendOk: bool)
    ensures Onward(s, Unsubscribe(s, t, syncWait, live, sendOk))
  {
    hide Onward, Unregister, Abandon, Call, Transmit;
    SelfOnward(s);
    if t in s.subs {
      var kind := Unsubscribing(Key(t, s.subs[t].serial));
      var s1 := Call(s.(table := NextRid(s.table)), s.table.nextRid, kind, CmdBusiness(kind), sendOk);
      AbandonOnward(s, t);
      DropOnward(s, t, kind, sendOk);
      CallOnward(s, kind, sendOk);
      UnregisterOnward(s1, t);
      OnwardTrans(s, s1, Unregister(s1, t));
    }
  }

  lemma PushOnward(s: Session, t: Topic, f: Frame)
    requires t in s.subs && Held(s.subs[t], t, s.table.asked)
    ensures Onward(s, s.(subs := s.subs[t := Push(s.subs[t], f)]))
  {
    hide Onward, Lawful, Deliver;
    OneOnward(s, t, Push(s.subs[t], f));
  }

  lemma WorkOnward(s: Session, k: Key)
    ensures Onward(s, WorkOn(s, k))
  {
    hide Onward;
    SamePrefix(s.wire.log, ReplayAccepted);
    if Registered(s, k) {
      OneOnward(s, k.topic, Work(s.subs[k.topic]));
    } else {
      SameOnward(s, WorkOn(s, k));
    }
  }

  // ----- Steps -----

  /** The handshake of the connection being opened is accepted. */
  predicate Welcomed(s: Session, e: Event) {
    e.RpcAnswered? && e.ok && e.rid in s.table.inflight && s.table.inflight[e.rid].Handshake?
  }

  lemma AnswersOnward(s: Session, e: Event)
    requires Inv(s) && Enabled(s, e) && !Welcomed(s, e) && (e.ConnectOver? || e.RpcAnswered? || e.RpcTimedOut? || e.AckArrived?)
    ensures Onward(s, Step(s, e))
  {
    InvBooks(s);
    hide Onward, Inv, Connected, HandleAck, Resume, Enumerates;
    SelfOnward(s);
    match e {
      case ConnectOver(ok, cat, encodeOk, sendOk) => ConnectedOnward(s, ok, cat, encodeOk, sendOk);
      case RpcAnswered(rid, ok, cat, plan) =>
        if rid in s.table.inflight {
          ResumeOnward(s, s.(table := Resolve(s.table, rid, Answered(rid))), s.table.inflight[rid], ok, cat, plan);
        }
      case RpcTimedOut(rid) =>
        if rid in s.table.inflight {
          ResumeOnward(s, s.(table := Resolve(s.table, rid, TimedOut)), s.table.inflight[rid], false, TransientError, NoPlan());
        }
      case AckArrived(rid, ack, retry) => HandleAckOnward(s, rid, ack, retry);
    }
  }

  lemma LossesOnward(s: Session, e: Event)
    requires Enabled(s, e) && (e.AckTimedOut? || e.TransportClosed? || e.AbortStarted? || e.HeartbeatDead? || e.Closed?)
    ensures Onward(s, Step(s, e))
  {
    hide Onward, OnTransportClose, Abort, UserClose;
    SelfOnward(s);
    SamePrefix(s.wire.log, ReplayAccepted);
    OnTransportCloseOnward(s, TransientError);
    match e {
      case TransportClosed(cat) => OnTransportCloseOnward(s, cat);
      case AbortStarted =>
        var s1 := s.(tasks := s.tasks.(aborts := s.tasks.aborts - 1));
        SameOnward(s, s1);
        AbortOnward(s1, TransientError);
        OnwardTrans(s, s1, Abort(s1, TransientError));
      case Closed => AbortOnward(s, TransientError);
      case _ =>
    }
  }

  lemma SendsOnward(s: Session, e: Event)
    requires Inv(s) && Enabled(s, e) && (e.ReplayStarted? || e.HeartbeatSent? || e.Commanded?)
    ensures Onward(s, Step(s, e))
  {
    hide Onward, Inv, StartReplay, Beat, Call;
    SelfOnward(s);
    match e {
      case ReplayStarted(sendOk) => StartReplayOnward(s, sendOk);
      case HeartbeatSent(live, sendOk) => BeatOnward(s, live, sendOk);
      case Commanded(kind, sendOk) => CallOnward(s, kind, sendOk);
    }
  }

  lemma RequestsOnward(s: Session, e: Event)
    requires Inv(s) && Enabled(s, e) && (e.Subscribed? || e.Unsubscribed?)
    ensures Onward(s, Step(s, e))
  {
    hide Onward, Inv, Subscribe, Unsubscribe;
    InvBooks(s);
    match e {
      case Subscribed(t, send) => SubscribeOnward(s, t, send);
      case Unsubscribed(t, syncWait, live, sendOk) => UnsubscribeOnward(s, t, syncWait, live, sendOk);
    }
  }

  lemma TurnsOnward(s: Session, e: Event)
    requires Inv(s) && Enabled(s, e) && (e.Pushed? || e.Worked? || e.Connect? || e.TimerFired?)
    ensures Onward(s, Step(s, e))
  {
    hide Onward, Inv, Push, WorkOn;
    SelfOnward(s);
    SamePrefix(s.wire.log, ReplayAccepted);
    match e {
      case Pushed(t, f) =>
        if t in s.subs {
          InvHeldAt(s, t);
          PushOnward(s, t, f);
        }
      case Worked(k) => WorkOnward(s, k);
      case Connect => SameOnward(s, Step(s, e));
      case TimerFired(_) => SameOnward(s, Step(s, e));
    }
  }

  lemma OtherOnward(s: Session, e: Event)
    requires Inv(s) && Enabled(s, e) && !Welcomed(s, e)
    ensures Onward(s, Step(s, e))
  {
    hide Onward, Inv, Step, Enabled;
    if e.Pushed? || e.Worked? || e.Connect? || e.TimerFired? {
      TurnsOnward(s, e);
    } else if e.ReplayStarted? || e.HeartbeatSent? || e.Commanded? {
      SendsOnward(s, e);
    } else if e.Subscribed? || e.Unsubscribed? {
      RequestsOnward(s, e);
    } else if e.ConnectOver? || e.RpcAnswered? || e.RpcTimedOut? || e.AckArrived? {
      AnswersOnward(s, e);
    } else {
      LossesOnward(s, e);
    }
  }

  lemma InvBooks(s: Session)
    requires Inv(s)
    ensures 1 <= s.table.nextRid
  {
    hide Awaited, AllHeld, AllSettled, Phases, ReplayTracked, WireOk, Limited, BarrierOk, Archived;
  }

  lemma InvHeldAt(s: Session, t: Topic)
    requires Inv(s) && t in s.subs
    ensures Held(s.subs[t], t, s.table.asked) && Lawful(s.subs[t])
  {
    hide Books, Awaited, AllSettled, Phases, ReplayTracked, WireOk, Limited, BarrierOk, Archived, Lawful;
  }

  lemma WelcomedFits(s: Session, e: Event)
    requires Inv(s) && Enabled(s, e) && Welcomed(s, e) && AllFit(s)
    ensures var s' := Step(s, e);
            && AllFit(s') && s'.catalog == e.plan.catalog && s'.opts == s.opts && Untouched(s, s')
    ensures s.est.AtHandshake? && s.est.rid == e.rid
  {
    Handshaking(s, e.rid);
    NoneAsked(s);
    HandshakeResolved(s, Answered(e.rid));
    hide Inv, Established, Resolve, Enumerates, Shaken, AllFit, Untouched;
    var s1 := s.(table := Resolve(s.table, e.rid, Answered(e.rid)));
    SameFits(s, s1);
    EstablishedFits(s1, e.plan);
    SameUntouched(s, s1, Step(s, e));
  }

  lemma Handshaking(s: Session, rid: nat)
    requires Inv(s) && rid in s.table.inflight && s.table.inflight[rid].Handshake?
    ensures s.est.AtHandshake? && s.est.rid == rid
  {
    hide Books, AllHeld, AllSettled, Phases, ReplayTracked, WireOk, Limited, BarrierOk, Archived;
  }

  lemma SameFits(s: Session, s1: Session)
    requires s1 == s.(table := s1.table)
    ensures AllFit(s) ==> AllFit(s1)
  {}

  lemma SameUntouched(s: Session, s1: Session, s': Session)
    requires s1 == s.(table := s1.table) && s1.table.nextRid == s.table.nextRid && Untouched(s1, s')
    requires forall t :: t in s.subs ==> s.subs[t].inflightId == 0
    ensures Untouched(s, s')
  {}
}
