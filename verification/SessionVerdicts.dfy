/** What each answer of the robot to a subscribe or a handshake does to the session. */
module SessionVerdicts {
  import opened Flows
  import opened Chronicles
  import opened Streams
  import opened StreamLaws
  import opened Sessions
  import opened SessionInvariant
  import opened SessionAnswers
  import opened SessionLinks
  import opened SessionCalls
  import opened SessionSteps
  import opened SessionHistory
  import opened SessionRuns
  import opened SessionEndings
  import opened SessionDisplaced
  import opened SessionLosses

  // ----- Pieces -----

  /** The booking of the request is gone, and no other call or subscribe is touched. */
  ghost predicate OnlyUnbooked(b: Table, b': Table, rid: nat) {
    && b'.asked == b.asked - {rid} && b'.ackTimers == b.ackTimers - {rid}
    && b'.inflight == b.inflight && b'.ended == b.ended && b'.nextRid == b.nextRid
  }

  /** Slot `t` has told CLOSED and left the registry, where no other slot has changed. */
  ghost predicate ClosedOut(s: Session, s': Session, t: Topic) {
    && t in s.subs && s'.subs == s.subs - {t}
    && var key := Key(t, s.subs[t].serial);
       && key in s'.past.retired && s'.past.retired[key].state.Closed?
       && s'.past.retired[key].log == s.subs[t].log + [Status(StatusKind.Ended, 0)]
       && s'.past.retired[key].flow == s.subs[t].flow
       && (forall k :: k in s.past.retired && k != key ==> k in s'.past.retired && s'.past.retired[k] == s.past.retired[k])
  }

  /** What the session as a whole goes on with. */
  ghost predicate SameLink(s: Session, s': Session) {
    && s'.opts == s.opts && s'.open == s.open && s'.catalog == s.catalog && s'.engaged == s.engaged
    && s'.heartbeat == s.heartbeat && s'.est == s.est && s'.tasks == s.tasks
  }

  /** Nothing is counted. */
  ghost predicate NotCounted(s: Session, s': Session) {
    && s'.state == s.state && s'.attempt == s.attempt && s'.totalCount == s.totalCount
    && s'.barrier.subsPending == s.barrier.subsPending && s'.barrier.estopPending == s.barrier.estopPending
  }

  /** One of the answers the barrier waits for is counted: the last one makes the session READY. */
  ghost predicate CountedDown(s: Session, s': Session) {
    && s'.barrier.subsPending == s.barrier.subsPending - 1 && s'.barrier.estopPending == s.barrier.estopPending
    && s'.barrier.lost == s.barrier.lost
    && (if s.barrier.subsPending == 1 && !s.barrier.estopPending
        then s'.state.Ready? && s'.attempt == 0 && s'.totalCount == s.totalCount + 1
        else s'.state == s.state && s'.attempt == s.attempt && s'.totalCount == s.totalCount)
  }

  ghost predicate Settled(s: Session, s': Session) {
    if s.state.Reconnecting? then CountedDown(s, s') else NotCounted(s, s') && s'.barrier.lost == s.barrier.lost
  }

  /** FATAL: every slot closed, nothing left under way. */
  ghost predicate Over(s: Session, s': Session) {
    && s'.state.Fatal? && s'.subs == map[] && !s'.open && !s'.heartbeat && s'.est.NoEst?
    && s'.table.inflight == map[] && s'.table.asked == map[] && s'.table.ackTimers == {}
    && (forall t :: t in s.subs ==> Key(t, s.subs[t].serial) in s'.past.retired && s'.past.retired[Key(t, s.subs[t].serial)].state.Closed?)
  }

  /** And every call has ended with the error. */
  ghost predicate CutShort(s: Session, s': Session, cat: Category) {
    Over(s, s') && forall r :: r in s.table.inflight ==> r in s'.table.ended && s'.table.ended[r] == Aborted(cat)
  }

  // ----- The abort -----

  lemma LeaveStaysClosed(s: Session, j: Key, k: Key)
    requires k in s.past.retired && s.past.retired[k].state.Closed?
    ensures j.topic !in s.subs ==> k in Leave(s, j).past.retired && Leave(s, j).past.retired[k].state.Closed?
  {}

  /** A slot that is closed stays so whoever resumes. */
  lemma {:induction false} StaysClosed(s: Session, calls: map<nat, Rpc>, n: nat, k: Key)
    requires s.subs == map[] && k in s.past.retired && s.past.retired[k].state.Closed?
    ensures var s' := LeaveUpTo(s, calls, n);
            s'.subs == map[] && k in s'.past.retired && s'.past.retired[k].state.Closed?
  {
    hide Leave;
    if n > 0 {
      StaysClosed(s, calls, n - 1, k);
      if n - 1 in calls && calls[n - 1].Unsubscribing? {
        var s1 := LeaveUpTo(s, calls, n - 1);
        LeaveStaysClosed(s1, calls[n - 1].key, k);
        LeaveKeeps(s1, calls[n - 1].key);
      }
    }
  }

  lemma AbortBodyCuts(s: Session, cat: Category)
    requires s.est.NoEst?
    ensures CutShort(s, AbortBody(s, cat), cat)
  {
    hide RetireAll;
    RetiredAll(s.past, s.subs);
    forall t | t in s.subs
      ensures Close(s.subs[t]).state.Closed?
    {}
  }

  /** The abort with no `_establish` suspended. */
  lemma AbortCutsShort(s: Session, cat: Category)
    requires s.est.NoEst?
    ensures CutShort(s, Abort(s, cat), cat)
  {
    hide AbortBody, LeaveUpTo, ReplayOut;
    var s1 := AbortBody(s, cat);
    AbortBodyCuts(s, cat);
    LeaveUpToKeeps(s1, s.table.inflight, s.table.nextRid);
    forall t | t in s.subs
      ensures var k := Key(t, s.subs[t].serial);
              var s' := LeaveAll(s1, s.table);
              k in s'.past.retired && s'.past.retired[k].state.Closed?
    {
      StaysClosed(s1, s.table.inflight, s.table.nextRid, Key(t, s.subs[t].serial));
    }
  }

  // ----- Refused -----

  lemma MatchedFacts(s: Session, rid: nat)
    requires Inv(s) && MatchesSlot(s, rid)
    ensures var t := s.table.asked[rid];
            var x := s.subs[t];
            && rid != 0 && x.inflightId == rid && x.state.Pending? && x.topic == t && Lawful(x)
            && s.est.NoEst? && (s.state.Ready? || s.state.Reconnecting? || Terminal(s))
            && (s.state.Reconnecting? ==> s.barrier.subsPending > 0 && !Leaving(s.table.inflight, t))
            && (!Terminal(s) ==> s.open)
            && Matched(s, rid) == s.(table := Unasked(s.table, rid), subs := s.subs[t := Unask(x)])
            && OnlyUnbooked(s.table, Matched(s, rid).table, rid)
  {
    hide Lawful, Awaited, ReplayTracked, WireOk, Limited, Archived, AllSettled;
    var t := s.table.asked[rid];
    assert Held(s.subs[t], t, s.table.asked);
    if s.state.Reconnecting? {
      assert t in Unanswered(s.subs);
    }
  }

  lemma UnregisterCloses(s: Session, s1: Session, t: Topic)
    requires t in s.subs && s1 == s.(table := s1.table, subs := s.subs[t := Unask(s.subs[t])])
    ensures var s' := Unregister(s1, t);
            ClosedOut(s, s', t) && SameLink(s, s') && s'.table == s1.table && NotCounted(s, s') && s'.barrier.lost == s.barrier.lost
            && s'.wire == s.wire
  {
    assert s.subs[t := Unask(s.subs[t])] - {t} == s.subs - {t};
  }

  lemma FinishSettles(s: Session, s1: Session, t: Topic)
    requires ClosedOut(s, s1, t) && SameLink(s, s1) && NotCounted(s, s1) && s1.barrier.lost == s.barrier.lost
    requires s.state.Reconnecting? ==> s.barrier.subsPending > 0
    ensures var s' := Finish(s1, s.state.Reconnecting?);
            ClosedOut(s, s', t) && SameLink(s, s') && s'.table == s1.table && s'.wire == s1.wire && Settled(s, s')
  {}

  /** A refused subscribe. A fatal refusal ends the session; a transient one during a reconnect gives the
      connection up, and slot `t` is set aside; any other closes slot `t` and nothing else, and counts as its
      answer, but for a transient one outside a reconnect, which no barrier waits for. */
  lemma RefusedAck(s: Session, rid: nat, cat: Category, retry: SendResult)
    requires Inv(s) && MatchesSlot(s, rid)
    ensures var t := s.table.asked[rid];
            var s' := Step(s, AckArrived(rid, Ack.Refused(cat), retry));
            if cat.FatalError? then CutShort(s, s', cat)
            else if cat.TransientError? && s.state.Reconnecting? then
              GivenUp(s, s', cat) && t in s'.subs && s'.subs[t].state.Paused?
            else
              ClosedOut(s, s', t) && SameLink(s, s') && Settled(s, s') && s'.wire == s.wire && OnlyUnbooked(s.table, s'.table, rid)
  {
    hide Inv, Step, Settled, ClosedOut, SameLink, GivenUp, CutShort, OnlyUnbooked, Answer, MatchesSlot;
    AnswerIsStep(s, rid, Ack.Refused(cat), retry);
    if cat.FatalError? {
      FatalRefusal(s, rid, cat, retry);
    } else if cat.TransientError? && s.state.Reconnecting? {
      TransientRefusal(s, rid, cat, retry);
    } else {
      ClosingRefusal(s, rid, cat, retry);
    }
  }

  lemma AnswerIsStep(s: Session, rid: nat, ack: Ack, retry: SendResult)
    requires MatchesSlot(s, rid)
    ensures Step(s, AckArrived(rid, ack, retry)) == Answer(Matched(s, rid), s.table.asked[rid], ack, retry)
  {
    hide Answer, Matched;
  }

  lemma FatalRefusal(s: Session, rid: nat, cat: Category, retry: SendResult)
    requires Inv(s) && MatchesSlot(s, rid) && cat.FatalError?
    ensures CutShort(s, Answer(Matched(s, rid), s.table.asked[rid], Ack.Refused(cat), retry), cat)
  {
    MatchedFacts(s, rid);
    var s1 := Matched(s, rid);
    hide Inv, CutShort, Abort, OnTransportClose, Unregister, Finish, Lawful, Leaving;
    AbortCutsShort(s1, cat);
    CutShortBefore(s, s1, Abort(s1, cat), cat);
  }

  lemma TransientRefusal(s: Session, rid: nat, cat: Category, retry: SendResult)
    requires Inv(s) && MatchesSlot(s, rid) && cat.TransientError? && s.state.Reconnecting?
    ensures var t := s.table.asked[rid];
            var s' := Answer(Matched(s, rid), t, Ack.Refused(cat), retry);
            GivenUp(s, s', cat) && t in s'.subs && s'.subs[t].state.Paused?
  {
    hide Inv, GivenUp, Abort, OnTransportClose, Unregister, Finish;
    MatchedGivesUp(s, rid, cat);
    MatchedState(s, rid);
  }

  lemma ClosingRefusal(s: Session, rid: nat, cat: Category, retry: SendResult)
    requires Inv(s) && MatchesSlot(s, rid) && !cat.FatalError? && !(cat.TransientError? && s.state.Reconnecting?)
    ensures var t := s.table.asked[rid];
            var s' := Answer(Matched(s, rid), t, Ack.Refused(cat), retry);
            ClosedOut(s, s', t) && SameLink(s, s') && Settled(s, s') && s'.wire == s.wire && OnlyUnbooked(s.table, s'.table, rid)
  {
    MatchedFacts(s, rid);
    var t, s1 := s.table.asked[rid], Matched(s, rid);
    hide Inv, Lawful, Settled, ClosedOut, SameLink, NotCounted, Abort, OnTransportClose, Finish, Unregister, MatchesSlot, Leaving, OnlyUnbooked;
    UnregisterCloses(s, s1, t);
    FinishSettles(s, Unregister(s1, t), t);
    if !s.state.Reconnecting? {
      NotCountedSettles(s, Unregister(s1, t));
    }
  }

  lemma NotCountedSettles(s: Session, s': Session)
    requires NotCounted(s, s') && s'.barrier.lost == s.barrier.lost && !s.state.Reconnecting?
    ensures Settled(s, s')
  {}

  lemma CutShortBefore(s: Session, s1: Session, s': Session, cat: Category)
    requires CutShort(s1, s', cat) && s1.table.inflight == s.table.inflight && s1.subs.Keys == s.subs.Keys
    requires forall t :: t in s.subs ==> s1.subs[t].serial == s.subs[t].serial
    ensures CutShort(s, s', cat)
  {}

  lemma MatchedGivesUp(s: Session, rid: nat, cat: Category)
    requires Inv(s) && MatchesSlot(s, rid) && s.state.Reconnecting?
    ensures var t := s.table.asked[rid];
            var s' := OnTransportClose(Matched(s, rid), cat);
            GivenUp(s, s', cat) && t in s'.subs && s'.subs[t].state.Paused?
  {
    hide Inv, Breakable, OnTransportClose, Lawful, GivenUp, Leaving;
    MatchedFacts(s, rid);
    InvBreakable(s);
    MatchedBreakable(s, rid);
    var s1, t := Matched(s, rid), s.table.asked[rid];
    LossGivesUp(s1, cat);
    SameGivenUp(s, s1, OnTransportClose(s1, cat), cat);
    KeptAside(s, OnTransportClose(s1, cat), cat, t);
  }

  lemma KeptAside(s: Session, s': Session, cat: Category, t: Topic)
    requires GivenUp(s, s', cat) && t in s.subs && !Leaving(s.table.inflight, t)
    ensures t in s'.subs && s'.subs[t].state.Paused?
  {
    hide Leaving;
  }

  /** Whether a slot was still asked does not matter to what a loss leaves of it. */
  lemma SameGivenUp(s: Session, s1: Session, s': Session, cat: Category)
    requires GivenUp(s1, s', cat) && s1.table.inflight == s.table.inflight && s1.subs.Keys == s.subs.Keys
    requires forall t :: t in s.subs ==> s1.subs[t] == s.subs[t].(inflightId := s1.subs[t].inflightId)
    requires s1.tasks == s.tasks && s1.attempt == s.attempt && s1.opts == s.opts
    ensures GivenUp(s, s', cat)
  {
    hide Leaving;
  }

  lemma MatchedBreakable(s: Session, rid: nat)
    requires Breakable(s) && MatchesSlot(s, rid) && s.est.NoEst?
    ensures Breakable(Matched(s, rid))
  {
    hide Limited;
  }

  /** What a refusal decides. */
  lemma RefusalDecides(s: Session, rid: nat, cat: Category, retry: SendResult)
    requires Inv(s) && MatchesSlot(s, rid) && !Terminal(s)
    ensures var t := s.table.asked[rid];
            var s' := Step(s, AckArrived(rid, Ack.Refused(cat), retry));
            && (s'.state.Fatal? <==> cat.FatalError?)
            && (s'.state.TransientFailure? <==> cat.TransientError? && s.state.Reconnecting?)
            && (t in s'.subs <==> cat.TransientError? && s.state.Reconnecting?)
  {
    MatchedFacts(s, rid);
    RefusedAck(s, rid, cat, retry);
    hide Inv, Step, Planned, Lawful, MatchesSlot, OnlyUnbooked, SameLink;
  }

  // ----- Rejected -----

  /** Slot `t` asks again, from scratch and for the last time. */
  ghost predicate AskedAnew(s: Session, s': Session, t: Topic, rid: nat) {
    && t in s.subs && t in s'.subs && s'.subs - {t} == s.subs - {t}
    && (var x, y := s.subs[t], s'.subs[t];
        && y == x.(lastSeq := 0, freshRetryDone := true, expectedResumeSeq := 0, inflightId := s.table.nextRid,
                   isReconnectResume := y.isReconnectResume, log := x.log + [Restarted]))
    && s'.table.asked == (s.table.asked - {rid})[s.table.nextRid := t]
    && s'.table.ackTimers == s.table.ackTimers - {rid} + {s.table.nextRid}
    && s'.table.inflight == s.table.inflight && s'.table.ended == s.table.ended
    && s'.wire.log == s.wire.log + [Sent(CmdSubscribe(s.table.nextRid, t, 0))]
    && s'.past == s.past && s'.barrier == s.barrier && s'.state == s.state
  }

  /** A rejected subscribe. An EVENT stream whose history cannot be replayed asks again from scratch, once per
      round; any other slot is closed, and its answer counts. */
  lemma RejectedAck(s: Session, rid: nat, history: bool, retry: SendResult)
    requires Inv(s) && MatchesSlot(s, rid)
    ensures var t := s.table.asked[rid];
            var s' := Step(s, AckArrived(rid, Rejected(history), retry));
            if s.subs[t].semantics.EventStream? && history && !s.subs[t].freshRetryDone then
              !Terminal(s) ==>
                if retry.SendOk? then AskedAnew(s, s', t, rid) && SameLink(s, s')
                else if retry.SendFails? then s'.state.TransientFailure? && (t in s'.subs ==> s'.subs[t].state.Paused?)
                else t !in s'.subs && s'.subs == s.subs - {t} && SameLink(s, s') && NotCounted(s, s') && s'.barrier.lost == s.barrier.lost + 1
            else
              ClosedOut(s, s', t) && SameLink(s, s') && Settled(s, s') && s'.wire == s.wire && OnlyUnbooked(s.table, s'.table, rid)
  {
    var t := s.table.asked[rid];
    var slot := s.subs[t];
    AnswerIsStep(s, rid, Rejected(history), retry);
    hide Inv, Step, Settled, ClosedOut, SameLink, AskedAnew, OnlyUnbooked, Answer, MatchesSlot, NotCounted;
    if slot.semantics.EventStream? && history && !slot.freshRetryDone {
      if !Terminal(s) {
        RetriedAck(s, rid, retry);
      }
    } else {
      ClosingRejection(s, rid, history, retry);
    }
  }

  lemma ClosingRejection(s: Session, rid: nat, history: bool, retry: SendResult)
    requires Inv(s) && MatchesSlot(s, rid)
    requires !(s.subs[s.table.asked[rid]].semantics.EventStream? && history && !s.subs[s.table.asked[rid]].freshRetryDone)
    ensures var t := s.table.asked[rid];
            var s' := Answer(Matched(s, rid), t, Rejected(history), retry);
            ClosedOut(s, s', t) && SameLink(s, s') && Settled(s, s') && s'.wire == s.wire && OnlyUnbooked(s.table, s'.table, rid)
  {
    MatchedFacts(s, rid);
    var t, s1 := s.table.asked[rid], Matched(s, rid);
    hide Inv, Lawful, Settled, ClosedOut, SameLink, NotCounted, SendSubscribe, Finish, Unregister, MatchesSlot, Leaving, OnlyUnbooked;
    UnregisterCloses(s, s1, t);
    FinishSettles(s, Unregister(s1, t), t);
  }

  /** The session in which slot `t` has been told to start over. */
  lemma RetriedAck(s: Session, rid: nat, retry: SendResult)
    requires Inv(s) && MatchesSlot(s, rid) && !Terminal(s)
    requires s.subs[s.table.asked[rid]].semantics.EventStream? && !s.subs[s.table.asked[rid]].freshRetryDone
    ensures var t := s.table.asked[rid];
            var s' := Answer(Matched(s, rid), t, Rejected(true), retry);
            if retry.SendOk? then AskedAnew(s, s', t, rid) && SameLink(s, s')
            else if retry.SendFails? then s'.state.TransientFailure? && (t in s'.subs ==> s'.subs[t].state.Paused?)
            else t !in s'.subs && s'.subs == s.subs - {t} && SameLink(s, s') && NotCounted(s, s') && s'.barrier.lost == s.barrier.lost + 1
  {
    hide Inv, Breakable, AskedAnew, SameLink, NotCounted, Answer, SendSubscribe, Lawful, Leaving;
    var t, s2 := s.table.asked[rid], StartedAnew(s, rid);
    MatchedFacts(s, rid);
    RetryIsAsk(s, rid, retry);
    if retry.SendOk? {
      RetryGoesOut(s, rid);
    } else if retry.SendFails? {
      InvBreakable(s);
      RetryBreakable(s, s2);
      RetryLost(s2, t);
    } else {
      RetryNotEncoded(s, rid);
    }
  }

  /** Slot `t` has been told to start over. */
  function StartedAnew(s: Session, rid: nat): Session
    requires MatchesSlot(s, rid)
  {
    var t := s.table.asked[rid];
    var x := s.subs[t];
    s.(table := s.table.(asked := s.table.asked - {rid}, ackTimers := s.table.ackTimers - {rid}),
       subs := s.subs[t := x.(inflightId := 0, lastSeq := 0, freshRetryDone := true, log := x.log + [Restarted])])
  }

  lemma RetryIsAsk(s: Session, rid: nat, retry: SendResult)
    requires MatchesSlot(s, rid)
    requires s.subs[s.table.asked[rid]].semantics.EventStream? && !s.subs[s.table.asked[rid]].freshRetryDone
    ensures var t := s.table.asked[rid];
            Answer(Matched(s, rid), t, Rejected(true), retry) == SendSubscribe(StartedAnew(s, rid), t, 0, retry)
  {
    var t := s.table.asked[rid];
    var s1 := Matched(s, rid);
    assert s1.(subs := s1.subs[t := Restart(s1.subs[t])]).subs == StartedAnew(s, rid).subs;
    hide SendSubscribe;
  }

  lemma RetryGoesOut(s: Session, rid: nat)
    requires MatchesSlot(s, rid) && s.open && s.subs[s.table.asked[rid]].state.Pending?
    ensures var t := s.table.asked[rid];
            var s' := SendSubscribe(StartedAnew(s, rid), t, 0, SendOk);
            AskedAnew(s, s', t, rid) && SameLink(s, s')
  {
    hide OnTransportClose;
    var t := s.table.asked[rid];
    assert SendSubscribe(StartedAnew(s, rid), t, 0, SendOk).subs - {t} == s.subs - {t};
  }

  lemma RetryNotEncoded(s: Session, rid: nat)
    requires MatchesSlot(s, rid)
    ensures var t := s.table.asked[rid];
            var s' := SendSubscribe(StartedAnew(s, rid), t, 0, EncodeFails);
            s'.subs == s.subs - {t} && SameLink(s, s') && NotCounted(s, s') && s'.barrier.lost == s.barrier.lost + 1
  {
    hide OnTransportClose, Retire;
    var t := s.table.asked[rid];
    assert StartedAnew(s, rid).subs - {t} == s.subs - {t};
  }

  lemma RetryLost(s: Session, t: Topic)
    requires Breakable(s) && t in s.subs && s.est.NoEst?
    ensures var s' := SendSubscribe(s, t, 0, SendFails);
            s'.state.TransientFailure? && (t in s'.subs ==> s'.subs[t].state.Paused?)
  {
    var s1 := s.(table := NextRid(s.table), subs := s.subs[t := Unask(Ask(s.subs[t], s.table.nextRid, 0, s.state.Reconnecting?))]);
    NextBreakable(s, s1);
    hide Breakable, OnTransportClose, GivenUp;
    LossGivesUp(s1, TransientError);
    SetAsidePaused(s1, OnTransportClose(s1, TransientError), t);
  }

  lemma RetryBreakable(s: Session, s': Session)
    requires Breakable(s) && s' == s.(table := s'.table, subs := s'.subs) && s.est.NoEst?
    requires s'.table.nextRid == s.table.nextRid && s'.table.inflight == s.table.inflight && s'.table.ended == s.table.ended
    requires exists r :: s'.table.asked == s.table.asked - {r} && s'.table.ackTimers == s.table.ackTimers - {r}
    requires forall t :: t in s'.subs ==> t in s.subs && s'.subs[t].state == s.subs[t].state
    ensures Breakable(s')
  {
    hide Limited;
  }

  lemma NextBreakable(s: Session, s': Session)
    requires Breakable(s) && s' == s.(table := NextRid(s.table), subs := s'.subs)
    requires forall t :: t in s'.subs ==> t in s.subs && (s'.subs[t] == s.subs[t] || s'.subs[t].state.Pending?)
    ensures Breakable(s')
  {
    hide Limited;
  }

  lemma SetAsidePaused(s: Session, s': Session, t: Topic)
    requires GivenUp(s, s', TransientError)
    ensures s'.state.TransientFailure? && (t in s'.subs ==> s'.subs[t].state.Paused?)
  {}

  // ----- Granted -----

  /** What an accepted subscribe is told: RESUMED if the stream was live or cut off before, else STARTED, with
      what the robot skipped of a resume. */
  function Announcement(x: Slot, next: nat): Chronicle {
    var kind := if Story(x.log).Halted? || CutOff(x.log) then StatusKind.Resumed else StatusKind.Started;
    if x.semantics.Telemetry? then [AcceptedTelemetry, Status(kind, 0)]
    else
      [Accepted(x.expectedResumeSeq, next),
       Status(kind, if 0 < x.expectedResumeSeq < next then next - x.expectedResumeSeq else 0)]
  }

  /** Slot `t` is live, and has told so; its buffer is empty. */
  ghost predicate WentLive(s: Session, s': Session, t: Topic, next: nat) {
    && t in s.subs && t in s'.subs && s'.subs - {t} == s.subs - {t}
    && var x, y := s.subs[t], s'.subs[t];
       && y.state.Active? && y.inflightId == 0 && y.everActive && y.flow.pending == []
       && y.serial == x.serial && y.semantics == x.semantics && y.conf == x.conf
       && x.log + Announcement(x, next) <= y.log && x.flow.admitted <= y.flow.admitted
  }

  /** A granted subscribe: the slot is live, and its answer counts. */
  lemma GrantedAck(s: Session, rid: nat, next: nat, retry: SendResult)
    requires Inv(s) && MatchesSlot(s, rid)
    ensures var t := s.table.asked[rid];
            var s' := Step(s, AckArrived(rid, Granted(next), retry));
            && WentLive(s, s', t, next) && SameLink(s, s') && Settled(s, s')
            && s'.wire == s.wire && s'.past == s.past && OnlyUnbooked(s.table, s'.table, rid)
  {
    hide Inv, Step, Lawful, WentLive, SameLink, Settled, OnlyUnbooked, Answer, Leaving;
    MatchedFacts(s, rid);
    AnswerIsStep(s, rid, Granted(next), retry);
    GrantedAnswer(s, rid, next, retry);
  }

  lemma GrantedAnswer(s: Session, rid: nat, next: nat, retry: SendResult)
    requires MatchesSlot(s, rid) && (s.state.Reconnecting? ==> s.barrier.subsPending > 0)
    requires var x := s.subs[s.table.asked[rid]]; Lawful(x) && x.state.Pending? && x.inflightId != 0
    ensures var t := s.table.asked[rid];
            var s' := Answer(Matched(s, rid), t, Granted(next), retry);
            && WentLive(s, s', t, next) && SameLink(s, s') && Settled(s, s')
            && s'.wire == s.wire && s'.past == s.past && OnlyUnbooked(s.table, s'.table, rid)
  {
    var t := s.table.asked[rid];
    var x := s.subs[t];
    hide Lawful, Activate, Announcement, Settled, Finish;
    ActivatedSlot(x, next);
    var s1 := Matched(s, rid);
    var s2 := s1.(subs := s1.subs[t := Activate(Unask(x), next)]);
    assert s2.subs - {t} == s.subs - {t};
    FinishCounts(s, s2);
  }

  lemma FinishCounts(s: Session, s1: Session)
    requires SameLink(s, s1) && NotCounted(s, s1) && s1.barrier.lost == s.barrier.lost
    requires s.state.Reconnecting? ==> s.barrier.subsPending > 0
    ensures var s' := Finish(s1, s.state.Reconnecting?);
            SameLink(s, s') && s'.table == s1.table && s'.wire == s1.wire && s'.subs == s1.subs && s'.past == s1.past && Settled(s, s')
  {}

  lemma ActivatedSlot(x: Slot, next: nat)
    requires Lawful(x) && x.state.Pending? && x.inflightId != 0
    ensures var y := Activate(Unask(x), next);
            && y.state.Active? && y.inflightId == 0 && y.everActive && y.flow.pending == []
            && y.serial == x.serial && y.semantics == x.semantics && y.conf == x.conf
            && x.log + Announcement(x, next) <= y.log && x.flow.admitted <= y.flow.admitted
  {
    KindOfAnswer(x);
    var z := Unask(x);
    hide Lawful, Drain, Story, CutOff;
    DrainExtends(RestartTelemetry(z), 0);
    DrainExtends(Reposition(z, next), next);
    ActivateExtends(z, next);
    AcceptedLog(z, next);
    LogPrefixes(x, next);
  }

  lemma LogPrefixes(x: Slot, next: nat)
    ensures x.log + Announcement(x, next) == x.log + [Announcement(x, next)[0]] + [Announcement(x, next)[1]]
  {}

  /** A position is only asked for by a stream that was live. */
  lemma KindOfAnswer(x: Slot)
    requires Lawful(x) && x.state.Pending? && x.inflightId != 0
    ensures x.isReconnectResume <==> Story(x.log).Halted? || CutOff(x.log)
    ensures x.expectedResumeSeq > 0 ==> x.isReconnectResume
  {
    hide Sound, Accounted, Tied, Gated, Story, CutOff;
  }

  lemma AcceptedLog(z: Slot, next: nat)
    requires z.isReconnectResume <==> Story(z.log).Halted? || CutOff(z.log)
    requires z.expectedResumeSeq > 0 ==> z.isReconnectResume
    ensures (if z.semantics.Telemetry? then RestartTelemetry(z) else Reposition(z, next)).log
            == z.log + [Announcement(z, next)[0]] + [Announcement(z, next)[1]]
  {
    hide Story, CutOff;
  }

  /** An acknowledgement that finds no slot changes nothing but its own booking. */
  lemma StrayAck(s: Session, rid: nat, ack: Ack, retry: SendResult)
    requires Inv(s) && !MatchesSlot(s, rid)
    ensures Step(s, AckArrived(rid, ack, retry))
            == s.(table := s.table.(asked := s.table.asked - {rid}, ackTimers := s.table.ackTimers - {rid}))
  {
    hide Lawful, Awaited, AllHeld, AllSettled, Phases, ReplayTracked, WireOk, Limited, Archived, BarrierOk, MatchesSlot;
    assert rid !in s.table.asked ==> s.table.asked - {rid} == s.table.asked && s.table.ackTimers - {rid} == s.table.ackTimers;
  }

  // ----- Connects and handshakes -----

  /** The attempt has failed: the session waits for the next one, its slots as they were. */
  ghost predicate Retries(s: Session, s': Session) {
    && s'.state.TransientFailure? && !s'.open && s'.est.NoEst? && s'.heartbeat == s.heartbeat
    && s'.subs == s.subs && s'.past == s.past && s'.table.inflight == map[] && s'.table.asked == map[]
    && Planned(s, s')
  }

  lemma RetryPlanned(s: Session, s1: Session)
    requires Inv(s) && s1.opts == s.opts && s1.attempt == s.attempt && s1.tasks == s.tasks
    ensures Planned(s, Schedule(s1.(est := NoEst, state := TransientFailure, open := false)))
  {
    InvLimits(s);
    var s2 := s1.(est := NoEst, state := TransientFailure, open := false);
    hide Inv;
    SchedulePlans(s2);
    PlannedSame(s, s2, Schedule(s2));
  }

  lemma InvLimits(s: Session)
    requires Inv(s)
    ensures Limited(s.opts.maxAttempts, s.attempt, s.tasks)
  {
    hide Books, Awaited, AllHeld, AllSettled, Phases, ReplayTracked, WireOk, Limited, Archived, BarrierOk;
  }

  lemma FailedHandshake(s: Session, s1: Session, cat: Category)
    requires Inv(s) && s1 == s.(table := s1.table, open := s1.open, wire := s1.wire) && s1.table.inflight == map[] && s1.table.asked == map[]
    ensures var s' := HandshakeFailed(s1, cat);
            if cat.FatalError? then Over(s, s') else Retries(s, s')
  {
    hide Inv, Over, Retries;
    if cat.FatalError? {
      AbortBodyCuts(s1.(est := NoEst), cat);
      OverBefore(s, s1.(est := NoEst), AbortBody(s1.(est := NoEst), cat), cat);
    } else {
      HandshakeRetries(s, s1, cat);
    }
  }

  lemma HandshakeRetries(s: Session, s1: Session, cat: Category)
    requires Inv(s) && s1 == s.(table := s1.table, open := s1.open, wire := s1.wire) && s1.table.inflight == map[] && s1.table.asked == map[]
    requires !cat.FatalError?
    ensures Retries(s, HandshakeFailed(s1, cat))
  {
    RetryPlanned(s, s1);
    hide Inv, Schedule, Planned, Limited, AbortBody;
    var s2 := s1.(est := NoEst, state := TransientFailure, open := false);
    InvLimits(s);
    ScheduleFacts(s2);
  }

  /** A handshake that is refused, with category `cat`, or not answered in time. */
  lemma HandshakeRefused(s: Session, cat: Category, plan: Plan)
    requires Inv(s) && s.est.AtHandshake? && Enabled(s, RpcAnswered(s.est.rid, false, cat, plan))
    ensures var s' := Step(s, RpcAnswered(s.est.rid, false, cat, plan));
            && s'.table.ended == s.table.ended[s.est.rid := Answered(s.est.rid)]
            && if cat.FatalError? then Over(s, s') else Retries(s, s')
    ensures var s' := Step(s, RpcTimedOut(s.est.rid));
            Retries(s, s') && s'.table.ended == s.table.ended[s.est.rid := TimedOut]
  {
    hide Inv, HandshakeFailed, Over, Retries, NoneActive;
    HandshakeAlone(s, Answered(s.est.rid));
    HandshakeAlone(s, TimedOut);
    HandshakeKind(s);
    var s1, s2 := s.(table := Resolve(s.table, s.est.rid, Answered(s.est.rid))), s.(table := Resolve(s.table, s.est.rid, TimedOut));
    FailedHandshake(s, s1, cat);
    FailedHandshake(s, s2, TransientError);
    FailureEnds(s1, cat);
    FailureEnds(s2, TransientError);
  }

  lemma HandshakeKind(s: Session)
    requires Inv(s) && s.est.AtHandshake?
    ensures s.est.rid in s.table.inflight && s.table.inflight[s.est.rid] == Handshake
  {
    hide Books, AllHeld, AllSettled, Phases, ReplayTracked, WireOk, Limited, Archived, BarrierOk;
  }

  lemma FailureEnds(s: Session, cat: Category)
    requires s.table.inflight == map[]
    ensures HandshakeFailed(s, cat).table.ended == s.table.ended
  {
    hide RetireAll;
  }

  /** A connect that is over. It fails for good or for now; or the handshake cannot be encoded, or not be sent;
      or the handshake is the first thing that goes over the new connection, and is waited for. */
  lemma ConnectIsOver(s: Session, ok: bool, cat: Category, encodeOk: bool, sendOk: bool)
    requires Inv(s) && s.est.AtConnect?
    ensures var s' := Step(s, ConnectOver(ok, cat, encodeOk, sendOk));
            if !ok then (if cat.FatalError? then Over(s, s') else Retries(s, s'))
            else if !encodeOk then Over(s, s')
            else if !sendOk then Retries(s, s') && s'.table.ended == s.table.ended[s.table.nextRid := NotSent]
            else
              && s'.state == s.state && s'.open && s'.subs == s.subs && s'.est == AtHandshake(s.est.reconnect, s.est.task, s.table.nextRid)
              && s'.table.inflight == map[s.table.nextRid := Handshake]
              && s'.wire == Wire(s.est.reconnect, s.engaged, false, false, [Sent(CmdHandshake)])
  {
    hide Inv, Over, Retries, Connected, AllSettled, NoneActive, Losable, Wakeable;
    ConnectingDown(s);
    if ok && encodeOk && sendOk {
      ConnectGoesOn(s, cat);
    } else if ok && encodeOk {
      HandshakeNotSent(s, cat);
    } else if ok || cat.FatalError? {
      ConnectEnds(s, ok, cat, encodeOk, sendOk);
    } else {
      ConnectRetries(s, cat, encodeOk, sendOk);
    }
  }

  lemma ConnectGoesOn(s: Session, cat: Category)
    requires s.est.AtConnect? && s.table.inflight == map[]
    ensures var s' := Connected(s, true, cat, true, true);
            && s'.state == s.state && s'.open && s'.subs == s.subs && s'.est == AtHandshake(s.est.reconnect, s.est.task, s.table.nextRid)
            && s'.table.inflight == map[s.table.nextRid := Handshake]
            && s'.wire == Wire(s.est.reconnect, s.engaged, false, false, [Sent(CmdHandshake)])
  {
    hide Abort, HandshakeFailed;
  }

  lemma HandshakeNotSent(s: Session, cat: Category)
    requires Inv(s) && s.est.AtConnect? && s.table.inflight == map[] && s.table.asked == map[]
    ensures var s' := Connected(s, true, cat, true, false);
            Retries(s, s') && s'.table.ended == s.table.ended[s.table.nextRid := NotSent]
  {
    hide Inv, HandshakeFailed, Abort, Retries, Over;
    var s2 := Call(Opened(s), s.table.nextRid, Handshake, CmdHandshake, false);
    FailedHandshake(s, s2, TransientError);
    FailureEnds(s2, TransientError);
  }

  lemma ConnectEnds(s: Session, ok: bool, cat: Category, encodeOk: bool, sendOk: bool)
    requires s.est.AtConnect? && (if ok then !encodeOk else cat.FatalError?)
    ensures Over(s, Connected(s, ok, cat, encodeOk, sendOk))
  {
    hide HandshakeFailed, Abort, Over;
    var s1 := if ok then Opened(s).(est := NoEst) else s.(est := NoEst);
    AbortCutsShort(s1, cat);
    OverBefore(s, s1, Abort(s1, cat), cat);
  }

  lemma OverBefore(s: Session, s1: Session, s': Session, cat: Category)
    requires CutShort(s1, s', cat) && s1.subs == s.subs
    ensures Over(s, s')
  {}

  lemma ConnectRetries(s: Session, cat: Category, encodeOk: bool, sendOk: bool)
    requires Inv(s) && s.est.AtConnect? && !s.open && s.table.inflight == map[] && s.table.asked == map[] && !cat.FatalError?
    ensures Retries(s, Connected(s, false, cat, encodeOk, sendOk))
  {
    RetryPlanned(s, s);
    hide Inv, Schedule, Planned, Limited, Abort;
    var s2 := s.(est := NoEst, state := TransientFailure);
    assert s2 == s.(est := NoEst, state := TransientFailure, open := false);
    InvLimits(s);
    ScheduleFacts(s2);
  }
}
