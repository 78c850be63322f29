/** More runs that show what the engine does not promise. */
module SessionDefects {
  import opened Flows
  import opened Chronicles
  import opened Streams
  import opened Sessions
  import opened SessionInvariant
  import opened SessionCounts
  import opened SessionRuns
  import opened SessionAttempts
  import opened SessionEndings
  import opened SessionWitnesses

  lemma OneMore(opts: Opts, states: seq<Session>, events: seq<Event>, e: Event)
    returns (states': seq<Session>, events': seq<Event>)
    requires Run(opts, states, events) && Enabled(states[|events|], e)
    ensures Run(opts, states', events') && states' == states + [Step(states[|events|], e)] && events' == events + [e]
  {
    hide Step, Enabled;
    states', events' := states + [Step(states[|events|], e)], events + [e];
  }

  // ----- Ready, but unwatched, and a slot left behind -----

  /** The last answer of a round of one is a grant. */
  lemma LastGrant(s: Session, t: Topic)
    requires Waiting(s) && t in s.subs && s.subs[t].inflightId != 0 && MatchesSlot(s, s.subs[t].inflightId)
    requires s.table.asked[s.subs[t].inflightId] == t && s.barrier.subsPending == 1 && !s.barrier.estopPending
    ensures var s' := HandleAck(s, s.subs[t].inflightId, Granted(0), SendOk);
            && s'.state.Ready? && s'.wire == s.wire && s'.opts == s.opts
            && forall u :: u in s.subs && u != t ==> u in s'.subs && s'.subs[u] == s.subs[u]
  {
    hide Activate;
  }

  lemma AskedIsMatched(s: Session, t: Topic)
    requires Inv(s) && t in s.subs && s.subs[t].inflightId != 0
    ensures MatchesSlot(s, s.subs[t].inflightId) && s.table.asked[s.subs[t].inflightId] == t
  {
    hide Books, Awaited, Phases, ReplayTracked, WireOk, Limited, BarrierOk, AllSettled, Archived;
    assert Held(s.subs[t], t, s.table.asked);
  }

  lemma WaitingWaited(s: Session)
    requires Inv(s) && Waiting(s)
    ensures s.wire.waited
  {
    hide Books, Awaited, AllHeld, AllSettled, Phases, ReplayTracked, Limited, BarrierOk, Archived;
  }

  /** With heartbeats on, a reconnect that waited for one answer is READY without a heartbeat. */
  lemma ReadyUnwatched(opts: Opts, t: Topic) returns (states: seq<Session>, events: seq<Event>)
    requires opts.maxAttempts != 0 && opts.heartbeatOn
    ensures Run(opts, states, events)
    ensures var s := states[|events|];
            s.state.Ready? && s.opts.heartbeatOn && !s.heartbeat
  {
    hide Step, Inv, HandleAck;
    states, events := WaitingForOne(opts, t);
    var s := states[|events|];
    RunInv(opts, states, events, |events|);
    SameOpts(opts, states, events, |events|);
    AskedIsMatched(s, t);
    WaitingWaited(s);
    LastGrant(s, t);
    states, events := OneMore(opts, states, events, AckArrived(s.subs[t].inflightId, Granted(0), SendOk));
    GrantIsHandled(s, s.subs[t].inflightId);
    HeartbeatRunsIff(opts, states, events, |events|);
  }

  lemma GrantIsHandled(s: Session, rid: nat)
    ensures Step(s, AckArrived(rid, Granted(0), SendOk)) == HandleAck(s, rid, Granted(0), SendOk)
  {}

  lemma SubscribedWaits(s: Session, u: Topic)
    requires Waiting(s) && u !in s.subs
    ensures var s' := Step(s, Subscribed(u, SendOk));
            && Waiting(s') && s'.barrier == s.barrier && s'.table == s.table && u in s'.subs
            && s'.subs[u].state.Pending? && s'.subs[u].inflightId == 0
            && forall t :: t in s.subs ==> t in s'.subs && s'.subs[t] == s.subs[t]
  {}

  /** A topic subscribed while the barrier waits is still PENDING and unasked when READY is reached. */
  lemma LateSlotWaits(opts: Opts, t: Topic, u: Topic) returns (states: seq<Session>, events: seq<Event>)
    requires opts.maxAttempts != 0 && t != u
    ensures Run(opts, states, events)
    ensures var s := states[|events|];
            s.state.Ready? && u in s.subs && s.subs[u].state.Pending? && s.subs[u].inflightId == 0
  {
    hide Step, Inv, HandleAck;
    states, events := WaitingForOne(opts, t);
    SubscribedWaits(states[|events|], u);
    states, events := OneMore(opts, states, events, Subscribed(u, SendOk));
    var s := states[|events|];
    RunInv(opts, states, events, |events|);
    AskedIsMatched(s, t);
    LastGrant(s, t);
    GrantIsHandled(s, s.subs[t].inflightId);
    states, events := OneMore(opts, states, events, AckArrived(s.subs[t].inflightId, Granted(0), SendOk));
  }

  // ----- A subscription pushed out unclosed -----

  const Welcome := RpcAnswered(1, true, LocalError, Plan(map[], [], []))

  /** READY on a first connection, nobody subscribed yet. */
  ghost predicate Fresh(s: Session) {
    && s.state.Ready? && s.open && s.est.NoEst? && s.table == Table(2, map[], map[], {}, s.table.ended)
    && s.subs == map[] && s.past == Past([], map[], {})
  }

  lemma WelcomeFresh(opts: Opts)
    ensures var s1 := Step(Init(opts), Connect);
            var s2 := Step(s1, ConnectSucceeds);
            s1.est.AtConnect? && Enabled(s2, Welcome) && Fresh(Step(s2, Welcome))
  {
    HandshakeOut(opts);
    var s2 := Step(Step(Init(opts), Connect), ConnectSucceeds);
    hide Connected;
    assert Step(s2, Welcome) == Established(s2.(table := Resolve(s2.table, 1, Answered(1))), false, Welcome.plan);
  }

  /** The subscription numbered `n` of the topic is registered and asked under request `rid`. */
  ghost predicate AskedAs(s: Session, t: Topic, n: nat, rid: nat) {
    && s.state.Ready? && s.open && s.est.NoEst? && s.table.nextRid == rid + 1
    && s.subs.Keys == {t} && s.subs[t].serial == n && s.subs[t].inflightId == rid && s.subs[t].state.Pending?
    && s.table.asked == map[rid := t]
  }

  lemma FirstAsked(s: Session, t: Topic)
    requires Fresh(s)
    ensures var s' := Step(s, Subscribed(t, SendOk));
            AskedAs(s', t, 0, 2) && s'.table.inflight == map[] && s'.past == Past([t], map[], {})
  {}

  /** Its unsubscribe is on its way ... */
  lemma UnsubscribeOut(s: Session, t: Topic)
    requires AskedAs(s, t, 0, 2) && s.table.inflight == map[] && s.past == Past([t], map[], {})
    ensures var s' := Step(s, Unsubscribed(t, true, true, true));
            && s'.table.inflight == map[3 := Unsubscribing(Key(t, 0))] && s'.table.nextRid == 4
            && s'.state == s.state && s'.open && s'.est == s.est && s'.subs == s.subs && s'.past == s.past
            && s'.table.asked == s.table.asked
  {}

  /** ... when its subscribe is rejected: it is closed. */
  lemma SubscribeRejected(s: Session, t: Topic)
    requires s.state.Ready? && s.open && s.est.NoEst? && s.subs.Keys == {t} && s.subs[t].inflightId == 2 && s.subs[t].serial == 0
    requires s.table.asked == map[2 := t] && s.past == Past([t], map[], {})
    ensures var s' := Step(s, AckArrived(2, Rejected(false), SendOk));
            && s'.subs == map[] && s'.table.inflight == s.table.inflight && s'.table.nextRid == s.table.nextRid
            && s'.table.asked == map[] && s'.state.Ready? && s'.open && s'.est.NoEst?
            && s'.past.born == [t] && s'.past.retired.Keys == {Key(t, 0)} && s'.past.displaced == {}
            && s'.past.retired[Key(t, 0)] == Close(Unask(s.subs[t]))
  {}

  /** The topic is subscribed again. */
  lemma SecondAsked(s: Session, t: Topic)
    requires s.state.Ready? && s.open && s.est.NoEst? && s.subs == map[] && s.table.nextRid == 4 && s.table.asked == map[]
    requires s.past.born == [t]
    ensures var s' := Step(s, Subscribed(t, SendOk));
            && AskedAs(s', t, 1, 4) && s'.table.inflight == s.table.inflight
            && s'.past == s.past.(born := [t, t])
  {
    assert [t] + [t] == [t, t];
  }

  /** The answer to the first unsubscribe closes the first subscription again and pushes the second one out. */
  lemma SecondPushedOut(s: Session, t: Topic)
    requires AskedAs(s, t, 1, 4) && s.table.inflight == map[3 := Unsubscribing(Key(t, 0))]
    requires s.past.retired.Keys == {Key(t, 0)}
    ensures var s' := Step(s, RpcAnswered(3, true, LocalError, NoPlan()));
            && t !in s'.subs && Key(t, 1) in s'.past.retired && s'.past.retired[Key(t, 1)].state.Pending?
            && Key(t, 0) in s'.past.retired && s'.past.retired[Key(t, 0)] == Close(s.past.retired[Key(t, 0)])
  {}

  ghost predicate ClosedTwice(log: Chronicle) {
    log != [] && log[|log| - 1] == Status(Ended, 0) && Status(Ended, 0) in log[..|log| - 1]
  }

  /** A subscription can disappear without a word: it is out of the registry, not closed and never announced
      as closed, while the one before it is announced as closed twice. */
  lemma PushedOutUnclosed(opts: Opts, t: Topic) returns (states: seq<Session>, events: seq<Event>)
    ensures Run(opts, states, events)
    ensures var p := states[|events|].past;
            && t !in states[|events|].subs
            && Key(t, 1) in p.retired && p.retired[Key(t, 1)].state.Pending?
            && Key(t, 0) in p.retired && ClosedTwice(p.retired[Key(t, 0)].log)
  {
    hide Step, Close;
    states, events := [Init(opts)], [];
    WelcomeFresh(opts);
    states, events := OneMore(opts, states, events, Connect);
    states, events := OneMore(opts, states, events, ConnectSucceeds);
    states, events := OneMore(opts, states, events, Welcome);
    FirstAsked(states[3], t);
    states, events := OneMore(opts, states, events, Subscribed(t, SendOk));
    UnsubscribeOut(states[4], t);
    states, events := OneMore(opts, states, events, Unsubscribed(t, true, true, true));
    SubscribeRejected(states[5], t);
    states, events := OneMore(opts, states, events, AckArrived(2, Rejected(false), SendOk));
    SecondAsked(states[6], t);
    states, events := OneMore(opts, states, events, Subscribed(t, SendOk));
    SecondPushedOut(states[7], t);
    states, events := OneMore(opts, states, events, RpcAnswered(3, true, LocalError, NoPlan()));
    SecondClosing(Unask(states[5].subs[t]));
  }

  lemma SecondClosing(slot: Slot)
    ensures ClosedTwice(Close(Close(slot)).log)
  {
    var once, log := Close(slot).log, Close(Close(slot)).log;
    assert log[..|log| - 1] == once && once[|once| - 1] == Status(Ended, 0);
  }

  // ----- Numbers nobody is told of -----

  /** The robot offers the topic as an EVENT stream. */
  function WelcomeTo(t: Topic): Event {
    RpcAnswered(1, true, LocalError, Plan(map[t := EventStream], [], []))
  }

  lemma WelcomeOffers(opts: Opts, t: Topic)
    ensures var s2 := Step(Step(Init(opts), Connect), ConnectSucceeds);
            Enabled(s2, WelcomeTo(t)) && Fresh(Step(s2, WelcomeTo(t))) && Step(s2, WelcomeTo(t)).catalog == map[t := EventStream]
  {
    HandshakeOut(opts);
    var s2 := Step(Step(Init(opts), Connect), ConnectSucceeds);
    hide Connected;
    assert Step(s2, WelcomeTo(t)) == Established(s2.(table := Resolve(s2.table, 1, Answered(1))), false, WelcomeTo(t).plan);
  }

  lemma EventAsked(s: Session, t: Topic)
    requires Fresh(s) && s.catalog == map[t := EventStream]
    ensures var s' := Step(s, Subscribed(t, SendOk));
            && s'.subs.Keys == {t} && s'.state.Ready? && s'.table.asked == map[2 := t]
            && s'.subs[t] == NewSlot(t, 0, s.opts.conf, EventStream).(inflightId := 2)
  {}

  /** The answer leaves no position ... */
  lemma GrantedWithoutPosition(s: Session, t: Topic, next: nat)
    requires next <= 1 && s.subs.Keys == {t} && s.state.Ready? && s.table.asked == map[2 := t]
    requires s.subs[t] == NewSlot(t, 0, s.subs[t].conf, EventStream).(inflightId := 2)
    ensures var s' := Step(s, AckArrived(2, Granted(next), SendOk));
            && t in s'.subs && s'.subs[t].state.Active? && s'.subs[t].semantics.EventStream? && s'.subs[t].lastSeq == 0
            && s'.subs[t].log == [Accepted(0, next), Status(Started, 0)]
  {}

  /** ... and the first frame is taken as it comes. */
  lemma FirstFrameTaken(s: Session, t: Topic, f: Frame)
    requires t in s.subs && s.subs[t].state.Active? && s.subs[t].semantics.EventStream? && s.subs[t].lastSeq == 0 && f.number > 0
    ensures var s' := Step(s, Pushed(t, f));
            t in s'.subs && s'.subs[t].lastSeq == f.number && s'.subs[t].log == s.subs[t].log + [Numbered(f)]
  {}

  lemma NothingCovered(next: nat, f: Frame)
    requires next <= 1 < f.number
    ensures !AllCovered([Accepted(0, next), Status(Started, 0), Numbered(f)], 0)
  {
    var log := [Accepted(0, next), Status(Started, 0), Numbered(f)];
    assert log[..2] == [Accepted(0, next), Status(Started, 0)] && log[..2][..1] == [Accepted(0, next)];
    assert Covered(log, 1) == 0 && Position(log) == f.number;
  }

  /** After a grant from 1 on (or from 0) a stream that begins with any later number reports nothing missing
      before it. */
  lemma NumbersUnreported(opts: Opts, t: Topic, next: nat, f: Frame) returns (states: seq<Session>, events: seq<Event>)
    requires next <= 1 < f.number
    ensures Run(opts, states, events)
    ensures events == [Connect, ConnectSucceeds, WelcomeTo(t), Subscribed(t, SendOk), AckArrived(2, Granted(next), SendOk), Pushed(t, f)]
    ensures var s := states[6];
            && t in s.subs && s.subs[t].lastSeq == f.number
            && s.subs[t].log == [Accepted(0, next), Status(Started, 0), Numbered(f)] && !AllCovered(s.subs[t].log, 0)
  {
    hide Step, AllCovered;
    states, events := [Init(opts)], [];
    WelcomeFresh(opts);
    states, events := OneMore(opts, states, events, Connect);
    states, events := OneMore(opts, states, events, ConnectSucceeds);
    WelcomeOffers(opts, t);
    states, events := OneMore(opts, states, events, WelcomeTo(t));
    EventAsked(states[3], t);
    states, events := OneMore(opts, states, events, Subscribed(t, SendOk));
    GrantedWithoutPosition(states[4], t, next);
    states, events := OneMore(opts, states, events, AckArrived(2, Granted(next), SendOk));
    FirstFrameTaken(states[5], t, f);
    states, events := OneMore(opts, states, events, Pushed(t, f));
    NothingCovered(next, f);
  }

  // ----- FATAL left again -----

  /** One loss has set two timers for the one attempt allowed. The abort after that attempt meets a connect
      that the stale one has begun, and does not reach it: FATAL is left when the connect fails. */
  lemma FatalLeft(opts: Opts) returns (states: seq<Session>, events: seq<Event>)
    requires opts.maxAttempts == 1
    ensures Run(opts, states, events)
    ensures events == [Connect, ConnectSucceeds, ConnectionLost, TimerFired(2), ConnectFails, TimerFired(1), AbortStarted, ConnectFails]
    ensures states[7].state.Fatal? && states[8].state.TransientFailure?
  {
    hide Step, Inv;
    states, events := OnceTooOften(opts);
    RunInv(opts, states, events, 6);
    AbortLeaves(states[6]);
    states, events := OneMore(opts, states, events, AbortStarted);
    ConnectFailing(states[7]);
    states, events := OneMore(opts, states, events, ConnectFails);
  }

  lemma ConnectFailing(s: Session)
    requires s.est.AtConnect?
    ensures Enabled(s, ConnectFails) && Step(s, ConnectFails).state.TransientFailure?
  {
    hide Abort;
  }
}
