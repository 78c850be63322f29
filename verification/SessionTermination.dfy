/** How a round of the reconnect barrier ends, over every path through it. */
module SessionTermination {
  import opened Flows
  import opened Chronicles
  import opened Streams
  import opened StreamLaws
  import opened Sessions
  import opened SessionInvariant
  import opened SessionBarrier
  import opened SessionRounds
  import opened SessionLinks
  import opened SessionSteps
  import opened SessionCalls
  import opened SessionCounts
  import opened SessionRuns
  import opened SessionProgress

  // ----- The round begins -----

  /** How many subscribes of a round cannot be encoded. */
  function Failures(sends: seq<SendResult>): nat {
    if sends == [] then 0 else Failures(sends[1..]) + (if sends[0].EncodeFails? then 1 else 0)
  }

  lemma AskLoses(s: Session, t: Topic, sinceSeq: nat, send: SendResult)
    requires t in s.subs && s.state.Reconnecting? && SendSubscribe(s, t, sinceSeq, send).state.Reconnecting?
    ensures SendSubscribe(s, t, sinceSeq, send).barrier.lost == s.barrier.lost + (if send.EncodeFails? then 1 else 0)
  {
    hide OnTransportClose;
    var slot := Ask(s.subs[t], s.table.nextRid, sinceSeq, true);
    SessionHistory.OnTransportCloseQuiet(s.(table := NextRid(s.table), subs := s.subs[t := Unask(slot)]), TransientError);
  }

  lemma {:induction false} RoundLoses(s: Session, order: seq<Topic>, sends: seq<SendResult>)
    requires |order| == |sends| && Round(s, order) && s.state.Reconnecting?
    ensures var s' := Resubscribe(s, order, sends);
            s'.state.Reconnecting? ==> s'.barrier.lost == s.barrier.lost + Failures(sends)
    decreases |order|
  {
    hide Core, SendSubscribe;
    if order != [] {
      var slot := BeginRound(s.subs[order[0]]);
      var s1 := s.(subs := s.subs[order[0] := slot]);
      var since := SinceSeq(slot, s.opts.replayHistory);
      BeginRoundRound(s, order);
      AskInRound(s1, order, since, sends[0]);
      var s2 := SendSubscribe(s1, order[0], since, sends[0]);
      ResubscribeRound(s2, order[1..], sends[1..]);
      if s2.state.Reconnecting? {
        AskLoses(s1, order[0], since, sends[0]);
        RoundLoses(s2, order[1..], sends[1..]);
      }
    }
  }

  lemma HandshakeBegins(s: Session, e: Event)
    requires Inv(s) && Enabled(s, e) && !Waiting(s) && Waiting(Step(s, e))
    requires e.RpcAnswered? && e.rid in s.table.inflight && s.table.inflight[e.rid] == Handshake
    ensures Step(s, e).barrier.subsPending == |s.subs| && Step(s, e).barrier.lost == Failures(e.plan.sends)
  {
    hide Inv, Established, Enumerates, Resolve;
    var s1 := s.(table := Resolve(s.table, e.rid, Answered(e.rid)));
    HandshakeRid(s, e.rid);
    HandshakeResolved(s, Answered(e.rid));
    SessionHistory.HandshakeFailedQuiet(s1, e.cat);
    ShakenFailedInv(s1, e.cat);
    EstablishedBegins(s1, e.plan);
  }

  /** A session only begins to wait when a handshake is accepted; then the barrier waits for every
      registered slot, and has already lost those whose subscribe could not be encoded. */
  lemma RoundBegins(s: Session, e: Event)
    requires Inv(s) && Enabled(s, e)
    ensures !Waiting(s) && Waiting(Step(s, e)) ==>
              && e.RpcAnswered? && e.rid in s.table.inflight && s.table.inflight[e.rid] == Handshake
              && Step(s, e).barrier.subsPending == |s.subs| && Step(s, e).barrier.lost == Failures(e.plan.sends)
  {
    hide Inv, Step, Enabled;
    if !Waiting(s) && Waiting(Step(s, e)) {
      RoundBeginsEvent(s, e);
      HandshakeBegins(s, e);
    }
  }

  lemma HandshakeRid(s: Session, rid: nat)
    requires Inv(s) && rid in s.table.inflight && s.table.inflight[rid] == Handshake
    ensures s.est.AtHandshake? && rid == s.est.rid
  {
    hide Books, AllHeld, AllSettled, Phases, ReplayTracked, WireOk, Limited, Archived, BarrierOk;
  }

  lemma EstablishedBegins(s: Session, plan: Plan)
    requires Shaken(s) && |plan.order| == |plan.sends| && Enumerates(plan.order, s.subs.Keys)
    ensures var s' := Established(s, s.est.reconnect, plan);
            Waiting(s') ==> s'.barrier.subsPending == |s.subs| && s'.barrier.lost == Failures(plan.sends)
  {
    hide Linked, Inv, Losable, AllHeld, NoneActive, AllSettled, Round, Resubscribe, SubscribeWaiting, Learn, FirstRound, Enumerates;
    LearnLinked(s, plan.catalog);
    LearnKeeps(s, plan.catalog);
    var s1 := Learn(s, plan.catalog);
    if !s.est.reconnect {
      FirstReady(s1);
      SubscribeWaitingInv(s1.(state := Ready, heartbeat := s.opts.heartbeatOn), plan.order, plan.sends);
      FirstRoundState(SubscribeWaiting(s1.(state := Ready, heartbeat := s.opts.heartbeatOn), plan.order, plan.sends));
    } else if !(|s1.subs| == 0 && !s1.engaged) {
      AtBarrierRound(s1, plan.order);
      ResubscribeRound(AtBarrier(s1), plan.order, plan.sends);
      ReplayAfterRound(s1, plan.order, plan.sends);
      if s1.state.Reconnecting? {
        RoundLoses(AtBarrier(s1), plan.order, plan.sends);
      }
      SameSize(s.subs, s1.subs);
    }
  }

  lemma SameSize(subs: map<Topic, Slot>, subs': map<Topic, Slot>)
    requires subs.Keys == subs'.Keys
    ensures |subs| == |subs'|
  {
    assert |subs| == |subs.Keys| && |subs'| == |subs'.Keys|;
  }

  /** While `_establish` is suspended in RECONNECTING nothing else is awaited or asked. */
  lemma EstablishingAlone(s: Session)
    requires Inv(s) && !s.est.NoEst?
    ensures s.table.asked == map[] && s.table.ackTimers == {} && !s.tasks.replayQueued && !s.heartbeat && !s.state.Ready?
    ensures forall r :: r in s.table.inflight ==> s.table.inflight[r] == Handshake
  {
    hide AllHeld, AllSettled, Awaited, Limited, Archived, BarrierOk;
    forall r | r in s.table.inflight
      ensures s.table.inflight[r] == Handshake
    {
      assert s.table.inflight[r] == Replay ==> ReplayOut(s.table);
    }
  }

  /** Only an answered handshake begins a round. */
  lemma RoundBeginsEvent(s: Session, e: Event)
    requires Inv(s) && Enabled(s, e) && !Waiting(s) && Waiting(Step(s, e))
    ensures e.RpcAnswered? && e.rid in s.table.inflight && s.table.inflight[e.rid] == Handshake
  {
    hide Inv, SessionHistory.Later, Enumerates, OnTransportClose, Established, HandshakeFailed, Resolve, Abort, UserClose, Connected,
         Push, Work, CountsRight, SessionHistory.Rolls, SessionHistory.Timed;
    StepCounts(s, e);
    assert s.state.Reconnecting? && !s.est.NoEst?;
    EstablishingAlone(s);
    match e {
      case ConnectOver(ok, cat, encodeOk, sendOk) => SessionHistory.ConnectedQuiet(s, ok, cat, encodeOk, sendOk);
      case RpcTimedOut(rid) =>
        SessionHistory.HandshakeFailedQuiet(s.(table := Resolve(s.table, rid, TimedOut)), TransientError);
      case TransportClosed(cat) => SessionHistory.OnTransportCloseQuiet(s, cat);
      case AbortStarted => SessionHistory.AbortQuiet(s.(tasks := s.tasks.(aborts := s.tasks.aborts - 1)), TransientError);
      case Closed => UserCloseCounts(s);
      case _ =>
    }
  }

  // ----- The round goes on -----

  /** How many answers the barrier waited for arrive along a path. */
  ghost function Answers(states: seq<Session>, events: seq<Event>): nat
    requires |states| == |events| + 1
  {
    if events == [] then 0
    else
      var n := |events| - 1;
      Answers(states[..n + 1], events[..n]) + (if Matching(states[n], events[n]) then 1 else 0)
  }

  ghost function Forfeited(states: seq<Session>, events: seq<Event>): nat
    requires |states| == |events| + 1
  {
    if events == [] then 0
    else
      var n := |events| - 1;
      Forfeited(states[..n + 1], events[..n]) + (if Forfeits(states[n], events[n]) then 1 else 0)
  }

  /** A path within one round: everywhere but at its end the session waits; there it waits or is READY. */
  ghost predicate WithinRound(states: seq<Session>, events: seq<Event>) {
    && Path(states, events) && Inv(states[0])
    && (forall i :: 0 <= i < |events| ==> Waiting(states[i]))
    && GoesOn(states[|events|])
  }

  /** Each answer uses up some of what the barrier can still take; what it has lost is what was forfeited. */
  lemma {:induction false} Countdown(states: seq<Session>, events: seq<Event>)
    requires WithinRound(states, events)
    ensures Left(states[|events|]) + Answers(states, events) <= Left(states[0])
    ensures states[|events|].barrier.lost == states[0].barrier.lost + Forfeited(states, events)
  {
    hide Inv, Step, Enabled, Left, Matching, Forfeits;
    if events != [] {
      var n := |events| - 1;
      Shorter(states, events);
      Countdown(states[..n + 1], events[..n]);
      PathInv(states, events, n);
      if Matching(states[n], events[n]) {
        StepNearer(states[n], events[n]);
      } else {
        StepNoFurther(states[n], events[n]);
      }
    }
  }

  /** A waiting barrier that lost nobody can still take an answer. */
  lemma WaitingHasLeft(s: Session)
    requires Inv(s) && Waiting(s) && s.barrier.lost == 0
    ensures Left(s) > 0
  {
    hide Core;
  }

  lemma LeftBounded(s: Session)
    requires Inv(s) && Waiting(s)
    ensures Left(s) <= 2 * s.barrier.subsPending + 1
  {
    hide Core;
    SubsetSize(Unretried(s.subs), Unanswered(s.subs));
  }

  lemma {:induction false} SubsetSize(a: set<Topic>, b: set<Topic>)
    requires a <= b
    ensures |a| <= |b|
  {
    if t :| t in a {
      SubsetSize(a - {t}, b - {t});
    }
  }

  /** Event `e` begins the round that `s` is in, and every subscribe of the round could be encoded. */
  ghost predicate BeginsRound(before: Session, e: Event, s: Session) {
    && !Waiting(before) && Waiting(s) && Enabled(before, e) && s == Step(before, e)
    && (e.RpcAnswered? ==> Failures(e.plan.sends) == 0)
  }

  /** The barrier terminates: from the accepted handshake of a reconnect with N slots registered, if every
      subscribe can be encoded and nobody unsubscribes, the session has left RECONNECTING once 2 N + 1
      answers have arrived; while it still waits, there have been at most 2 N. */
  lemma BarrierTerminates(before: Session, e: Event, states: seq<Session>, events: seq<Event>)
    requires Inv(before) && |states| == |events| + 1
    ensures BeginsRound(before, e, states[0]) && WithinRound(states, events) && Waiting(states[|events|])
            && Forfeited(states, events) == 0
            ==> Answers(states, events) <= 2 * |before.subs|
  {
    hide Inv, Left, Step, Enabled;
    if BeginsRound(before, e, states[0]) && WithinRound(states, events) && Waiting(states[|events|])
       && Forfeited(states, events) == 0 {
      RoundBegins(before, e);
      Countdown(states, events);
      PathInv(states, events, |events|);
      WaitingHasLeft(states[|events|]);
      LeftBounded(states[0]);
    }
  }

  /** Something that will answer, or fail, is always outstanding while nobody was lost: a subscribe with
      its acknowledgement timer, a queued replay, or a replay in flight. */
  lemma NeverStuck(s: Session)
    requires Inv(s) && Waiting(s) && s.barrier.lost == 0
    ensures s.tasks.replayQueued
            || (exists r :: MatchesReplay(s, r))
            || (exists r :: r in s.table.ackTimers && MatchesSlot(s, r))
  {
    hide Awaited, AllSettled, Phases, WireOk, Limited, Archived, Lawful;
    if !s.barrier.estopPending {
      assert Unanswered(s.subs) != {};
      var t :| t in Unanswered(s.subs);
      assert Held(s.subs[t], t, s.table.asked);
      assert MatchesSlot(s, s.subs[t].inflightId);
    } else if !s.tasks.replayQueued {
      var r :| r in s.table.inflight && s.table.inflight[r] == Replay;
      assert MatchesReplay(s, r);
    }
  }

  // ----- When a round can be completed -----

  /** The slot's subscribe is granted. */
  lemma GrantGoesOn(s: Session, t: Topic)
    requires Inv(s) && Waiting(s) && t in Unanswered(s.subs)
    ensures var e := AckArrived(s.subs[t].inflightId, Granted(0), SendOk);
            Matching(s, e) && !Forfeits(s, e) && GoesOn(Step(s, e))
  {
    hide Awaited, AllSettled, Phases, ReplayTracked, WireOk, Limited, Archived, BarrierOk, Lawful, Activate;
    assert Held(s.subs[t], t, s.table.asked);
  }

  /** The queued replay goes out. */
  lemma ReplayGoesOn(s: Session)
    requires Inv(s) && Waiting(s) && s.tasks.replayQueued
    ensures var e := ReplayStarted(true);
            Enabled(s, e) && !Matching(s, e) && !Forfeits(s, e) && Waiting(Step(s, e)) && !Step(s, e).tasks.replayQueued
  {
    hide Books, Awaited, AllHeld, AllSettled, ReplayTracked, WireOk, Limited, Archived, BarrierOk;
  }

  /** The replay is accepted. */
  lemma ReplayAcceptedGoesOn(s: Session, rid: nat)
    requires Inv(s) && Waiting(s) && MatchesReplay(s, rid)
    ensures var e := RpcAnswered(rid, true, LocalError, NoPlan());
            Enabled(s, e) && Matching(s, e) && !Forfeits(s, e) && GoesOn(Step(s, e))
  {
    hide Inv;
  }

  lemma Prepend(s: Session, e: Event, states: seq<Session>, events: seq<Event>)
    requires Inv(s) && Waiting(s) && Enabled(s, e)
    requires WithinRound(states, events) && states[0] == Step(s, e)
    ensures WithinRound([s] + states, [e] + events)
    ensures ([s] + states)[|events| + 1] == states[|events|]
  {
    hide Inv, Step, Enabled;
  }

  /** An event after which the round goes on, closer to its end. */
  lemma NextToFinish(s: Session) returns (e: Event)
    requires Inv(s) && Waiting(s) && s.barrier.lost == 0
    ensures Enabled(s, e) && GoesOn(Step(s, e)) && Inv(Step(s, e)) && Step(s, e).barrier.lost == 0
    ensures Left(Step(s, e)) < Left(s)
            || (Left(Step(s, e)) <= Left(s) && s.tasks.replayQueued && !Step(s, e).tasks.replayQueued)
  {
    hide Inv, Step, Enabled, Left, Matching, Forfeits;
    NeverStuck(s);
    if t :| t in Unanswered(s.subs) {
      e := AckArrived(s.subs[t].inflightId, Granted(0), SendOk);
      GrantGoesOn(s, t);
      EnabledAck(s, s.subs[t].inflightId);
      StepNearer(s, e);
    } else if s.tasks.replayQueued {
      e := ReplayStarted(true);
      ReplayGoesOn(s);
      StepNoFurther(s, e);
    } else {
      if r :| r in s.table.ackTimers && MatchesSlot(s, r) {
        StillUnanswered(s, r);
        assert false;
      }
      var r :| MatchesReplay(s, r);
      e := RpcAnswered(r, true, LocalError, NoPlan());
      ReplayAcceptedGoesOn(s, r);
      StepNearer(s, e);
    }
    StepInv(s, e);
  }

  lemma EnabledAck(s: Session, rid: nat)
    ensures Enabled(s, AckArrived(rid, Granted(0), SendOk))
  {}

  lemma StillUnanswered(s: Session, rid: nat)
    requires Inv(s) && MatchesSlot(s, rid)
    ensures s.table.asked[rid] in Unanswered(s.subs)
  {
    hide Awaited, AllHeld, AllSettled, Phases, ReplayTracked, WireOk, Limited, Archived, BarrierOk;
  }

  /** A round that has lost nobody can be completed. */
  lemma {:induction false} CanFinish(s: Session) returns (states: seq<Session>, events: seq<Event>)
    requires Inv(s) && Waiting(s) && s.barrier.lost == 0
    ensures WithinRound(states, events) && states[0] == s && states[|events|].state.Ready?
    decreases Left(s), s.tasks.replayQueued
  {
    hide Inv, Step, Enabled, Left;
    var e := NextToFinish(s);
    var s1 := Step(s, e);
    if s1.state.Ready? {
      states, events := [s, s1], [e];
    } else {
      var states1, events1 := CanFinish(s1);
      Prepend(s, e, states1, events1);
      states, events := [s] + states1, [e] + events1;
    }
  }

  /** A round that has lost somebody never ends READY. */
  lemma NotWithoutTheLost(states: seq<Session>, events: seq<Event>)
    requires WithinRound(states, events) && Waiting(states[0]) && states[|events|].state.Ready?
    ensures states[0].barrier.lost == 0 && Forfeited(states, events) == 0
  {
    hide Inv, Step, Enabled, Left;
    var n := |events| - 1;
    PathInv(states, events, n);
    StepConcluded(states[n], events[n]);
    Countdown(states, events);
  }

  /** READY can be reached within a round exactly if it has lost nobody: one slot that is unsubscribed or
      fails to encode while it is still to answer keeps the session in RECONNECTING until the connection
      is lost again. */
  lemma RoundCanFinishIff(s: Session)
    requires Inv(s) && Waiting(s)
    ensures s.barrier.lost == 0 <==>
            exists states: seq<Session>, events: seq<Event> :: WithinRound(states, events) && states[0] == s && states[|events|].state.Ready?
  {
    if s.barrier.lost == 0 {
      var states, events := CanFinish(s);
    }
    forall states: seq<Session>, events: seq<Event> | WithinRound(states, events) && states[0] == s && states[|events|].state.Ready?
      ensures s.barrier.lost == 0
    {
      NotWithoutTheLost(states, events);
    }
  }

  /** Unsubscribing a slot that is still to answer is such a loss: the round can no longer end READY. */
  lemma UnsubscribeStalls(s: Session, t: Topic, syncWait: bool, live: bool, sendOk: bool)
    requires Inv(s) && Waiting(s) && t in s.subs && s.subs[t].inflightId != 0
    ensures var s' := Step(s, Unsubscribed(t, syncWait, live, sendOk));
            && Waiting(s')
            && !exists states: seq<Session>, events: seq<Event> ::
                  WithinRound(states, events) && states[0] == s' && states[|events|].state.Ready?
  {
    hide Inv, WithinRound, Left;
    var e := Unsubscribed(t, syncWait, live, sendOk);
    StepInv(s, e);
    StepNoFurther(s, e);
    RoundCanFinishIff(Step(s, e));
  }
}
