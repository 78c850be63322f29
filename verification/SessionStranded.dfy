/** A session that is neither READY nor ended always has something under way that moves it on. */
module SessionStranded {
  import opened Flows
  import opened Streams
  import opened Sessions
  import opened SessionInvariant
  import opened SessionLinks
  import opened SessionSteps
  import opened SessionHistory
  import opened SessionCounts
  import opened SessionRuns
  import opened SessionAttempts
  import opened SessionProgress
  import opened SessionTermination
  import opened SessionEndings
  import opened SessionWitnesses

  /** Between connections a timer sleeps, or the last attempt has been made and the abort is on its way. */
  predicate Awake(s: Session) {
    s.state.TransientFailure? ==>
      s.tasks.timers != map[] || (s.tasks.aborts > 0 && 0 <= s.opts.maxAttempts <= s.attempt)
  }

  /** Awake afterwards if it was before. */
  predicate KeepsAwake(s: Session, s': Session) {
    Awake(s) ==> Awake(s')
  }

  // ----- Handlers that plan the next attempt -----

  lemma ScheduleWakes(s: Session)
    ensures Awake(Schedule(s))
  {
    if !(0 <= s.opts.maxAttempts < s.attempt + 1) {
      assert s.tasks.nextTask in PlanReconnect(s.tasks, s.attempt, s.opts.maxAttempts).timers;
    }
  }

  lemma LoseConnectionWakes(s: Session, cat: Category)
    ensures Awake(LoseConnection(s, cat))
  {
    hide Schedule, Flush, Pause, Awake;
    ScheduleWakes(s.(table := Flush(s.table, cat), subs := map t | t in s.subs :: Pause(s.subs[t]),
                     heartbeat := false, state := TransientFailure, open := false));
  }

  lemma HandshakeFailedWakes(s: Session, cat: Category)
    ensures Awake(HandshakeFailed(s, cat))
  {
    hide Schedule;
    ScheduleWakes(s.(est := NoEst, state := TransientFailure, open := false));
  }

  lemma WakeAwake(s: Session, before: Table, cat: Category)
    ensures KeepsAwake(s, Wake(s, before, cat))
  {
    hide LeaveUpTo, ReplayOut, HandshakeFailed, LoseConnection;
    LeaveUpToKeeps(s, before.inflight, before.nextRid);
    var s1 := LeaveAll(s, before);
    LoseConnectionWakes(s1.(barrier := s1.barrier.(estopPending := false)), TransientError);
    HandshakeFailedWakes(if ReplayOut(before) then ReplayFailed(s1) else s1, cat);
  }

  lemma OnTransportCloseAwake(s: Session, cat: Category)
    ensures Awake(OnTransportClose(s, cat))
  {
    hide LoseConnection, Wake;
    if !Terminal(s) {
      LoseConnectionWakes(s, cat);
      WakeAwake(LoseConnection(s, cat), s.table, cat);
    }
  }

  lemma AbortAwake(s: Session, cat: Category)
    ensures Awake(Abort(s, cat)) && Awake(UserClose(s))
  {
    hide Wake, RetireAll, Flush;
    WakeAwake(AbortBody(s, cat), s.table, cat);
    if !s.state.Shutdown? {
      WakeAwake(CloseBody(s), s.table, LocalError);
    }
  }

  // ----- The other handlers -----

  lemma SendSubscribeAwake(s: Session, t: Topic, sinceSeq: nat, send: SendResult)
    requires t in s.subs
    ensures KeepsAwake(s, SendSubscribe(s, t, sinceSeq, send))
  {
    hide OnTransportClose;
    var slot := Unask(Ask(s.subs[t], s.table.nextRid, sinceSeq, s.state.Reconnecting?));
    OnTransportCloseAwake(s.(table := NextRid(s.table), subs := s.subs[t := slot]), TransientError);
  }

  lemma {:induction false} RoundAwake(s: Session, order: seq<Topic>, sends: seq<SendResult>)
    requires |order| == |sends|
    ensures KeepsAwake(s, Resubscribe(s, order, sends)) && KeepsAwake(s, SubscribeWaiting(s, order, sends))
    decreases |order|
  {
    hide SendSubscribe;
    if order != [] {
      RoundAwake(s, order[1..], sends[1..]);
      if order[0] in s.subs {
        var slot := BeginRound(s.subs[order[0]]);
        var s1 := s.(subs := s.subs[order[0] := slot]);
        var since := SinceSeq(slot, s.opts.replayHistory);
        SendSubscribeAwake(s1, order[0], since, sends[0]);
        RoundAwake(SendSubscribe(s1, order[0], since, sends[0]), order[1..], sends[1..]);
        SendSubscribeAwake(s, order[0], 0, sends[0]);
        RoundAwake(SendSubscribe(s, order[0], 0, sends[0]), order[1..], sends[1..]);
      }
    }
  }

  lemma SlotsAwake(s: Session, subs: map<Topic, Slot>)
    ensures KeepsAwake(s, s.(subs := subs))
  {}

  lemma UnregisterAwake(s: Session, t: Topic)
    ensures KeepsAwake(s, Unregister(s, t))
  {
    hide Close;
  }

  lemma FinishAwake(s: Session, phase: bool)
    ensures KeepsAwake(s, Finish(s, phase))
  {}

  lemma AnswerAwake(s: Session, t: Topic, ack: Ack, retry: SendResult)
    requires t in s.subs
    ensures KeepsAwake(s, Answer(s, t, ack, retry))
  {
    hide OnTransportClose, Abort, SendSubscribe, Activate, Restart, Unregister, Finish, Awake;
    var phase := s.state.Reconnecting?;
    UnregisterAwake(s, t);
    FinishAwake(Unregister(s, t), phase);
    match ack {
      case Refused(cat) =>
        OnTransportCloseAwake(s, cat);
        AbortAwake(s, cat);
      case Rejected(history) =>
        var s1 := s.(subs := s.subs[t := Restart(s.subs[t])]);
        SlotsAwake(s, s1.subs);
        SendSubscribeAwake(s1, t, 0, retry);
      case Granted(next) =>
        var s1 := s.(subs := s.subs[t := Activate(s.subs[t], next)]);
        SlotsAwake(s, s1.subs);
        FinishAwake(s1, phase);
    }
  }

  lemma HandleAckAwake(s: Session, rid: nat, ack: Ack, retry: SendResult)
    ensures KeepsAwake(s, HandleAck(s, rid, ack, retry))
  {
    hide Answer;
    if MatchesSlot(s, rid) {
      AnswerAwake(Matched(s, rid), s.table.asked[rid], ack, retry);
    }
  }

  lemma EstablishedAwake(s: Session, reconnect: bool, plan: Plan)
    requires |plan.order| == |plan.sends|
    ensures KeepsAwake(s, Established(s, reconnect, plan))
  {
    hide Resubscribe, SubscribeWaiting, Learn;
    LearnState(s, plan.catalog);
    var s1 := Learn(s, plan.catalog);
    var s2 := SetBarrier(s1);
    RoundAwake(s1.(state := Ready, heartbeat := s.opts.heartbeatOn), plan.order, plan.sends);
    RoundAwake(s2.(wire := s2.wire.(waited := true)), plan.order, plan.sends);
  }

  lemma LearnState(s: Session, catalog: map<Topic, Semantics>)
    ensures var s' := Learn(s, catalog); s'.state == s.state && s'.tasks == s.tasks && s'.opts == s.opts && s'.attempt == s.attempt
  {}

  lemma ConnectedAwake(s: Session, ok: bool, cat: Category, encodeOk: bool, sendOk: bool)
    requires s.est.AtConnect?
    ensures KeepsAwake(s, Connected(s, ok, cat, encodeOk, sendOk))
  {
    hide Abort, Schedule, HandshakeFailed;
    var s1 := s.(table := NextRid(s.table), open := true, wire := Wire(s.est.reconnect, s.engaged, false, false, []));
    AbortAwake(s.(est := NoEst), cat);
    AbortAwake(s1.(est := NoEst), cat);
    ScheduleWakes(s.(est := NoEst, state := TransientFailure));
    HandshakeFailedWakes(Call(s1, s.table.nextRid, Handshake, CmdHandshake, false), TransientError);
  }

  lemma LeaveAwake(s: Session, k: Key)
    ensures KeepsAwake(s, Leave(s, k))
  {
    hide Leave;
    LeaveKeeps(s, k);
  }

  lemma ResumeAwake(s: Session, kind: Rpc, ok: bool, cat: Category, plan: Plan)
    requires |plan.order| == |plan.sends|
    ensures KeepsAwake(s, Resume(s, kind, ok, cat, plan))
  {
    hide OnTransportClose, HandshakeFailed, Established, Leave;
    match kind {
      case Handshake =>
        if s.est.AtHandshake? {
          HandshakeFailedWakes(s, cat);
          EstablishedAwake(s, s.est.reconnect, plan);
        }
      case Replay => OnTransportCloseAwake(s.(barrier := s.barrier.(estopPending := false)), cat);
      case Unsubscribing(k) => LeaveAwake(s, k);
      case _ =>
    }
  }

  lemma StartReplayAwake(s: Session, sendOk: bool)
    ensures KeepsAwake(s, StartReplay(s, sendOk))
  {
    hide OnTransportClose;
    var s1 := Call(s.(table := NextRid(s.table), tasks := s.tasks.(replayQueued := false)), s.table.nextRid, Replay, CmdReplay, sendOk);
    OnTransportCloseAwake(s1.(barrier := s1.barrier.(estopPending := false)), TransientError);
  }

  lemma BeatAwake(s: Session, live: bool, sendOk: bool)
    ensures KeepsAwake(s, Beat(s, live, sendOk))
  {
    hide OnTransportClose;
    OnTransportCloseAwake(Call(s.(table := NextRid(s.table)), s.table.nextRid, Ping, CmdBusiness(Ping), sendOk), TransientError);
  }

  lemma SubscribeAwake(s: Session, t: Topic, send: SendResult)
    ensures KeepsAwake(s, Subscribe(s, t, send))
  {
    hide SendSubscribe;
    if t !in s.subs {
      var slot := NewSlot(t, |s.past.born|, s.opts.conf, SemanticsOf(s.catalog, t));
      SendSubscribeAwake(s.(subs := s.subs[t := slot], past := s.past.(born := s.past.born + [t])), t, 0, send);
    }
  }

  lemma UnsubscribeAwake(s: Session, t: Topic, syncWait: bool, live: bool, sendOk: bool)
    ensures KeepsAwake(s, Unsubscribe(s, t, syncWait, live, sendOk))
  {
    hide Close;
  }

  /** A firing timer that is the last takes the session out of TRANSIENT_FAILURE. */
  lemma TimerAwake(s: Session, task: nat)
    requires task in s.tasks.timers
    ensures KeepsAwake(s, FireTimer(s, task))
  {}

  lemma StepAwake(s: Session, e: Event)
    requires Enabled(s, e)
    ensures KeepsAwake(s, Step(s, e))
  {
    hide OnTransportClose, Connected, HandleAck, Resume, Push, Abort, StartReplay, Beat, UserClose, Subscribe, Unsubscribe, FireTimer,
         Enumerates, Work, Resolve;
    match e {
      case ConnectOver(ok, cat, encodeOk, sendOk) => ConnectedAwake(s, ok, cat, encodeOk, sendOk);
      case RpcAnswered(rid, ok, cat, plan) =>
        if rid in s.table.inflight {
          ResumeAwake(s.(table := Resolve(s.table, rid, Answered(rid))), s.table.inflight[rid], ok, cat, plan);
        }
      case RpcTimedOut(rid) =>
        if rid in s.table.inflight {
          ResumeAwake(s.(table := Resolve(s.table, rid, TimedOut)), s.table.inflight[rid], false, TransientError, NoPlan());
        }
      case AckArrived(rid, ack, retry) => HandleAckAwake(s, rid, ack, retry);
      case AckTimedOut(rid) => OnTransportCloseAwake(s, TransientError);
      case TransportClosed(cat) => OnTransportCloseAwake(s, cat);
      case AbortStarted => AbortAwake(s.(tasks := s.tasks.(aborts := s.tasks.aborts - 1)), TransientError);
      case ReplayStarted(sendOk) => StartReplayAwake(s, sendOk);
      case HeartbeatSent(live, sendOk) => BeatAwake(s, live, sendOk);
      case HeartbeatDead => OnTransportCloseAwake(s, TransientError);
      case Closed => AbortAwake(s, TransientError);
      case Subscribed(t, send) => SubscribeAwake(s, t, send);
      case Unsubscribed(t, syncWait, live, sendOk) => UnsubscribeAwake(s, t, syncWait, live, sendOk);
      case TimerFired(task) => TimerAwake(s, task);
      case _ =>
    }
  }

  lemma {:induction false} RunAwake(opts: Opts, states: seq<Session>, events: seq<Event>, k: nat)
    requires Run(opts, states, events) && k < |states|
    ensures Awake(states[k])
  {
    hide Step, Enabled;
    if k > 0 {
      RunAwake(opts, states, events, k - 1);
      StepAwake(states[k - 1], events[k - 1]);
    }
  }

  // ----- Never stranded -----

  /** Something is outstanding that the barrier waits for and that will answer or fail. */
  ghost predicate Outstanding(s: Session) {
    || s.tasks.replayQueued
    || (exists r :: MatchesReplay(s, r))
    || (exists r :: r in s.table.ackTimers && MatchesSlot(s, r))
  }

  /** The engine is never left with nothing to do: in CONNECTING an `_establish` is suspended; in RECONNECTING
      one is, or the barrier waits for something outstanding, unless it has lost somebody; in
      TRANSIENT_FAILURE a timer sleeps, or the last attempt has been made and the abort is on its way. A
      suspended handshake is in flight. */
  lemma NeverStranded(opts: Opts, states: seq<Session>, events: seq<Event>, k: nat)
    requires Run(opts, states, events) && k < |states|
    ensures var s := states[k];
            && Awake(s)
            && (s.state.Connecting? ==> !s.est.NoEst?)
            && (s.state.Reconnecting? ==> !s.est.NoEst? || Outstanding(s) || s.barrier.lost > 0)
            && (s.est.AtHandshake? ==> s.est.rid in s.table.inflight && s.table.inflight[s.est.rid].Handshake?)
  {
    hide Step, Enabled, Awake, MatchesReplay, MatchesSlot;
    RunAwake(opts, states, events, k);
    RunInv(opts, states, events, k);
    var s := states[k];
    if Waiting(s) && s.barrier.lost == 0 {
      NeverStuck(s);
    }
    hide Books, AllHeld, AllSettled, ReplayTracked, WireOk, Limited, Archived, BarrierOk, OnlyOwn;
  }

  // ----- When READY is still within reach -----

  lemma Then(s: Session, e: Event, states: seq<Session>, events: seq<Event>)
    requires Enabled(s, e) && Path(states, events) && states[0] == Step(s, e)
    ensures Path([s] + states, [e] + events) && ([s] + states)[|events| + 1] == states[|events|]
  {
    hide Step, Enabled;
  }

  /** The registered topics in some order. */
  lemma {:induction false} SomeOrder(topics: set<Topic>) returns (order: seq<Topic>)
    ensures Enumerates(order, topics)
  {
    order := [];
    if t :| t in topics {
      var rest := SomeOrder(topics - {t});
      order := [t] + rest;
    }
  }

  function AllOut(n: nat): seq<SendResult> {
    seq(n, i => SendOk)
  }

  lemma {:induction false} NoneFails(sends: seq<SendResult>)
    requires forall i :: 0 <= i < |sends| ==> sends[i].SendOk?
    ensures Failures(sends) == 0
  {
    if sends != [] {
      NoneFails(sends[1..]);
    }
  }

  lemma OneGoesOut(s: Session, t: Topic, sinceSeq: nat)
    requires t in s.subs && s.open && s.state.Reconnecting?
    ensures var s' := SendSubscribe(s, t, sinceSeq, SendOk);
            s'.open && s'.state.Reconnecting? && s'.est == s.est
  {
    hide OnTransportClose;
  }

  lemma {:induction false} AllGoOut(s: Session, order: seq<Topic>, sends: seq<SendResult>)
    requires |order| == |sends| && (forall i :: 0 <= i < |sends| ==> sends[i].SendOk?)
    requires s.open && s.state.Reconnecting?
    ensures var s' := Resubscribe(s, order, sends);
            s'.state.Reconnecting? && s'.est == s.est
    decreases |order|
  {
    hide SendSubscribe, BeginRound;
    if order != [] {
      if order[0] in s.subs {
        var slot := BeginRound(s.subs[order[0]]);
        var s1 := s.(subs := s.subs[order[0] := slot]);
        var since := SinceSeq(slot, s.opts.replayHistory);
        OneGoesOut(s1, order[0], since);
        AllGoOut(SendSubscribe(s1, order[0], since, sends[0]), order[1..], sends[1..]);
      } else {
        AllGoOut(s, order[1..], sends[1..]);
      }
    }
  }

  /** An accepted handshake, with every subscribe sent. */
  lemma RoundStarts(s: Session, plan: Plan)
    requires |plan.order| == |plan.sends| && (forall i :: 0 <= i < |plan.sends| ==> plan.sends[i].SendOk?)
    requires s.open && s.state.Reconnecting?
    ensures var s' := Established(s, true, plan);
            s'.state.Ready? || Waiting(s')
  {
    hide Resubscribe, Learn;
    LearnKeeps(s, plan.catalog);
    LearnState(s, plan.catalog);
    var s2 := SetBarrier(Learn(s, plan.catalog));
    AllGoOut(s2.(wire := s2.wire.(waited := true)), plan.order, plan.sends);
  }

  /** From a suspended handshake of a reconnect. */
  lemma FromHandshake(s: Session) returns (states: seq<Session>, events: seq<Event>)
    requires Inv(s) && s.state.Reconnecting? && s.est.AtHandshake?
    ensures Path(states, events) && states[0] == s && states[|events|].state.Ready?
  {
    hide Inv;
    var order := SomeOrder(s.subs.Keys);
    var e := RpcAnswered(s.est.rid, true, LocalError, Plan(map[], order, AllOut(|order|)));
    HandshakeAccepted(s, e);
    hide Step, Enabled;
    StepInv(s, e);
    RoundBegins(s, e);
    NoneFails(e.plan.sends);
    var s1 := Step(s, e);
    if s1.state.Ready? {
      states, events := [s, s1], [e];
    } else {
      states, events := CanFinish(s1);
      Then(s, e, states, events);
      states, events := [s] + states, [e] + events;
    }
  }

  lemma HandshakeAccepted(s: Session, e: Event)
    requires Inv(s) && s.state.Reconnecting? && s.est.AtHandshake?
    requires e.RpcAnswered? && e.rid == s.est.rid && e.ok && Enumerates(e.plan.order, s.subs.Keys)
    requires e.plan.sends == AllOut(|e.plan.order|)
    ensures Enabled(s, e) && !Waiting(s) && (Step(s, e).state.Ready? || Waiting(Step(s, e)))
  {
    HandshakeTracked(s);
    hide Inv, Established, Enumerates;
    RoundStarts(s.(table := Resolve(s.table, e.rid, Answered(e.rid))), e.plan);
  }

  lemma HandshakeTracked(s: Session)
    requires Inv(s) && s.state.Reconnecting? && s.est.AtHandshake?
    ensures s.open && s.est.reconnect && s.est.rid in s.table.inflight && s.table.inflight[s.est.rid] == Handshake
  {
    hide Books, AllHeld, AllSettled, ReplayTracked, WireOk, Limited, Archived, BarrierOk;
  }

  lemma TimerConnects(s: Session, task: nat)
    requires s.state.TransientFailure? && task in s.tasks.timers && !s.tasks.replayQueued
    ensures Enabled(s, TimerFired(task))
    ensures var s1 := Step(s, TimerFired(task));
            && Enabled(s1, ConnectSucceeds)
            && var s2 := Step(s1, ConnectSucceeds);
               s2.state.Reconnecting? && s2.est.AtHandshake?
  {
    hide Abort, HandshakeFailed;
  }

  lemma FromTimer(s: Session, task: nat) returns (states: seq<Session>, events: seq<Event>)
    requires Inv(s) && s.state.TransientFailure? && task in s.tasks.timers && !s.tasks.replayQueued
    ensures Path(states, events) && states[0] == s && states[|events|].state.Ready?
  {
    hide Inv, Step, Enabled;
    TimerConnects(s, task);
    var s1 := Step(s, TimerFired(task));
    var s2 := Step(s1, ConnectSucceeds);
    StepInv(s, TimerFired(task));
    StepInv(s1, ConnectSucceeds);
    states, events := FromHandshake(s2);
    Then(s1, ConnectSucceeds, states, events);
    states, events := [s1] + states, [ConnectSucceeds] + events;
    Then(s, TimerFired(task), states, events);
    states, events := [s] + states, [TimerFired(task)] + events;
  }

  /** A replay that starts between connections fails at once. */
  lemma ReplayFailsAtOnce(s: Session)
    requires Inv(s) && s.state.TransientFailure? && s.tasks.replayQueued
    ensures var s' := Step(s, ReplayStarted(true));
            && Enabled(s, ReplayStarted(true)) && s'.state.TransientFailure? && !s'.tasks.replayQueued
            && forall i :: i in s.tasks.timers ==> i in s'.tasks.timers
  {
    TransientAlone(s);
    var s1 := Call(s.(table := NextRid(s.table), tasks := s.tasks.(replayQueued := false)), s.table.nextRid, Replay, CmdReplay, true);
    var s2 := s1.(barrier := s1.barrier.(estopPending := false));
    assert s2.table.inflight == map[] && !ReplayOut(s2.table);
    NobodyLeaves(LoseConnection(s2, TransientError), s2.table.inflight, s2.table.nextRid);
    hide Inv, LeaveUpTo, Flush, Pause;
  }

  /** As long as a timer sleeps READY can still be reached. */
  lemma CanReconnect(s: Session) returns (states: seq<Session>, events: seq<Event>)
    requires Inv(s) && s.state.TransientFailure? && s.tasks.timers != map[]
    ensures Path(states, events) && states[0] == s && states[|events|].state.Ready?
  {
    hide Inv, Step, Enabled;
    var task :| task in s.tasks.timers;
    if s.tasks.replayQueued {
      var e := ReplayStarted(true);
      ReplayFailsAtOnce(s);
      StepInv(s, e);
      states, events := FromTimer(Step(s, e), task);
      Then(s, e, states, events);
      states, events := [s] + states, [e] + events;
    } else {
      states, events := FromTimer(s, task);
    }
  }

  // ----- When it is not -----

  /** No timer sleeps, none will be set, and the session waits for its end or has reached it. */
  ghost predicate Doomed(s: Session) {
    && Inv(s) && s.tasks.timers == map[] && 0 <= s.opts.maxAttempts <= s.attempt
    && (s.state.TransientFailure? || Ended(s))
  }

  lemma NoTimerComes(s: Session, e: Event)
    requires Doomed(s) && Enabled(s, e)
    ensures var s' := Step(s, e);
            s'.tasks.timers == map[] && s'.opts == s.opts && (!s'.state.Ready? ==> s'.attempt == s.attempt)
  {
    hide Inv, Later, Rolls, Ended;
    assert !e.TimerFired?;
    hide Step, Enabled;
    StepTimed(s, e);
    StepCounts(s, e);
    StepInv(s, e);
    InvLimited(Step(s, e));
  }

  lemma InvLimited(s: Session)
    requires Inv(s)
    ensures Limited(s.opts.maxAttempts, s.attempt, s.tasks) && (s.state.TransientFailure? ==> s.est.NoEst?)
  {
    hide Books, Awaited, AllHeld, AllSettled, ReplayTracked, WireOk, Limited, Archived, BarrierOk;
  }

  lemma StaysDown(s: Session, e: Event)
    requires Doomed(s) && Enabled(s, e)
    ensures var s' := Step(s, e);
            s'.state.TransientFailure? || Ended(s')
  {
    InvLimited(s);
    hide Inv, Ended, Limited;
    if s.state.TransientFailure? {
      assert !e.TimerFired?;
      hide Step, Enabled;
      OnlyTimersAttempt(s, e);
      TidyStep(s, e);
    } else {
      EndedStays(s, e);
    }
  }

  lemma DoomedStep(s: Session, e: Event)
    requires Doomed(s) && Enabled(s, e)
    ensures Doomed(Step(s, e))
  {
    hide Inv, Step, Enabled;
    NoTimerComes(s, e);
    StaysDown(s, e);
    StepInv(s, e);
  }

  lemma {:induction false} DoomedPath(states: seq<Session>, events: seq<Event>, k: nat)
    requires Path(states, events) && Doomed(states[0]) && k < |states|
    ensures Doomed(states[k])
  {
    hide Step, Enabled, Doomed;
    if k > 0 {
      DoomedPath(states, events, k - 1);
      DoomedStep(states[k - 1], events[k - 1]);
    }
  }

  /** In TRANSIENT_FAILURE the session can still become READY if and only if a reconnect timer sleeps. If none
      does the last attempt has been made, the abort is on its way, and nothing but the end can follow. */
  lemma ReconnectsIff(opts: Opts, states: seq<Session>, events: seq<Event>)
    requires Run(opts, states, events) && states[|events|].state.TransientFailure?
    ensures var s := states[|events|];
            && (s.tasks.timers != map[] <==>
                  exists states': seq<Session>, events': seq<Event> ::
                    Path(states', events') && states'[0] == s && states'[|events'|].state.Ready?)
            && (s.tasks.timers == map[] ==>
                  && s.tasks.aborts > 0
                  && forall states': seq<Session>, events': seq<Event>, k: nat ::
                       Path(states', events') && states'[0] == s && k < |states'| ==> GoneDown(states'[k]))
  {
    hide Inv, Step, Enabled, Ended;
    var s := states[|events|];
    RunAwake(opts, states, events, |events|);
    RunInv(opts, states, events, |events|);
    if s.tasks.timers != map[] {
      var states', events' := CanReconnect(s);
    } else {
      forall states': seq<Session>, events': seq<Event>, k: nat | Path(states', events') && states'[0] == s && k < |states'|
        ensures GoneDown(states'[k])
      {
        DoomedPath(states', events', k);
        EndedIsTerminal(states'[k]);
      }
    }
  }

  lemma EndedIsTerminal(s: Session)
    ensures Ended(s) ==> Terminal(s)
  {}
}
