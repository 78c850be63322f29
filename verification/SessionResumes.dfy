/** What a reconnect asks of the robot, and what a stream that is resumed accounts for. */
module SessionResumes {
  import opened Flows
  import opened Chronicles
  import opened Streams
  import opened StreamLaws
  import opened Sessions
  import opened SessionInvariant
  import opened SessionRounds
  import opened SessionLinks
  import opened SessionSteps
  import opened SessionHistory
  import opened SessionCounts
  import opened SessionRuns
  import opened SessionSlots

  // ----- The catalogue -----

  /** The catalogue of the last accepted handshake; empty before the first. */
  ghost function LastCatalogue(states: seq<Session>, events: seq<Event>): map<Topic, Semantics>
    requires |states| == |events| + 1
  {
    if events == [] then map[]
    else
      var n := |events| - 1;
      if Welcomed(states[n], events[n]) then events[n].plan.catalog else LastCatalogue(states[..n + 1], events[..n])
  }

  lemma NobodyYet(opts: Opts)
    ensures AllFit(Init(opts)) && Init(opts).catalog == map[] && Init(opts).opts == opts
  {}

  lemma StepFits(s: Session, e: Event)
    requires Inv(s) && Enabled(s, e) && AllFit(s)
    ensures var s' := Step(s, e);
            && AllFit(s') && Untouched(s, s') && s'.opts == s.opts
            && s'.catalog == if Welcomed(s, e) then e.plan.catalog else s.catalog
  {
    hide Inv, AllFit, Untouched, Step, Enabled;
    if Welcomed(s, e) {
      WelcomedFits(s, e);
    } else {
      OtherOnward(s, e);
    }
  }

  lemma {:induction false} RunFits(opts: Opts, states: seq<Session>, events: seq<Event>)
    requires Run(opts, states, events)
    ensures var s := states[|events|];
            AllFit(s) && s.opts == opts && s.catalog == LastCatalogue(states, events)
  {
    hide Inv, AllFit, Untouched, Step, Enabled, Welcomed;
    NobodyYet(opts);
    if events != [] {
      var n := |events| - 1;
      Shorter(states, events);
      RunFits(opts, states[..n + 1], events[..n]);
      RunInv(opts, states, events, n);
      StepFits(states[n], events[n]);
    }
  }

  lemma RunFitsAt(opts: Opts, states: seq<Session>, events: seq<Event>, k: nat)
    requires Run(opts, states, events) && k < |states|
    ensures AllFit(states[k]) && states[k].opts == opts && Run(opts, states[..k + 1], events[..k])
    ensures states[k].catalog == LastCatalogue(states[..k + 1], events[..k])
  {
    hide AllFit, Step, Enabled;
    RunFits(opts, states[..k + 1], events[..k]);
  }

  /** In every state every registered slot is of the semantics the catalogue of the last accepted handshake
      gives its topic: TELEMETRY if it names none. */
  lemma SemanticsFollowCatalogue(opts: Opts, states: seq<Session>, events: seq<Event>, t: Topic)
    requires Run(opts, states, events) && t in states[|events|].subs
    ensures var catalog := LastCatalogue(states, events);
            states[|events|].subs[t].semantics == if t in catalog then catalog[t] else Telemetry
  {
    RunFits(opts, states, events);
    hide Step, Enabled;
    assert Fits(states[|events|].subs[t], t, states[|events|]);
  }

  // ----- What is asked -----

  /** In every state every outstanding subscribe went out on the current connection and asks an EVENT stream to
      go on right after its position, if it has one and history is wanted, and any other stream from the
      present on. */
  lemma SubscribesAskForNext(opts: Opts, states: seq<Session>, events: seq<Event>, k: nat, t: Topic)
    requires Run(opts, states, events) && k < |states| && t in states[k].subs && states[k].subs[t].inflightId != 0
    ensures var slot := states[k].subs[t];
            var position := Position(slot.log);
            && slot.expectedResumeSeq == (if slot.semantics.EventStream? && opts.replayHistory && position > 0 then position + 1 else 0)
            && Sent(CmdSubscribe(slot.inflightId, t, slot.expectedResumeSeq)) in states[k].wire.log
  {
    RunFitsAt(opts, states, events, k);
    hide Lawful, Step, Enabled;
    assert Fits(states[k].subs[t], t, states[k]);
    SlotLawful(opts, states, events, k, Key(t, states[k].subs[t].serial));
    LawfulPosition(states[k].subs[t]);
  }

  lemma LawfulPosition(slot: Slot)
    requires Lawful(slot)
    ensures slot.lastSeq == Position(slot.log) && InStep(slot.log) && Told(slot.log)
  {}

  /** A subscribe that is outstanding under an id has been so, its slot left alone, since the id was given. */
  lemma {:induction false} LeftAloneWhileAsked(opts: Opts, states: seq<Session>, events: seq<Event>, i: nat, j: nat, t: Topic)
    requires Run(opts, states, events) && i <= j < |states| && t in states[j].subs
    requires 0 < states[j].subs[t].inflightId < states[i].table.nextRid
    ensures t in states[i].subs && states[i].subs[t].inflightId == states[j].subs[t].inflightId
    ensures StillAsked(states[i].subs[t], states[j].subs[t])
    decreases j - i
  {
    hide Inv, AllFit, Step, Enabled, Later;
    if i < j {
      RunInv(opts, states, events, j - 1);
      RunFitsAt(opts, states, events, j - 1);
      StepFits(states[j - 1], events[j - 1]);
      CallsKeptOver(opts, states, events, i, j - 1);
      RunInv(opts, states, events, i);
      LaterIds(states[i], states[j - 1]);
      LeftAloneWhileAsked(opts, states, events, i, j - 1, t);
    }
  }

  lemma LaterIds(s: Session, s': Session)
    requires Inv(s) && Later(s.table, s'.table)
    ensures s.table.nextRid <= s'.table.nextRid
  {
    hide Awaited, AllHeld, AllSettled, Phases, ReplayTracked, WireOk, Limited, Archived, BarrierOk;
  }

  // ----- A reconnect asks everybody -----

  /** The same stream as before, so far as anybody was told. */
  ghost predicate SameStory(x: Slot, y: Slot) {
    y.topic == x.topic && y.serial == x.serial && y.log == x.log && y.lastSeq == x.lastSeq && y.flow == x.flow
  }

  /** If the connection holds, the subscribe of slot `t` is out or the slot closed, and no other slot changes. */
  lemma AskedOrClosed(s: Session, t: Topic, sinceSeq: nat, send: SendResult)
    requires t in s.subs && (s.state.Reconnecting? || s.state.Ready?) && 1 <= s.table.nextRid
    ensures var s' := SendSubscribe(s, t, sinceSeq, send);
            s'.state == s.state ==>
              && (t in s'.subs ==>
                    s'.subs[t].inflightId != 0 && SameStory(s.subs[t], s'.subs[t]) && s'.subs[t].freshRetryDone == s.subs[t].freshRetryDone)
              && s'.subs - {t} == s.subs - {t} && 1 <= s'.table.nextRid
  {
    hide OnTransportClose, Retire;
    OnTransportCloseQuiet(s.(table := NextRid(s.table), subs := s.subs[t := Unask(Ask(s.subs[t], s.table.nextRid, sinceSeq, s.state.Reconnecting?))]), TransientError);
  }

  lemma OthersKept(subs: map<Topic, Slot>, subs': map<Topic, Slot>, t: Topic, u: Topic)
    requires subs' - {t} == subs - {t} && u != t
    ensures u in subs' <==> u in subs
    ensures u in subs ==> subs'[u] == subs[u]
  {
    assert u in subs <==> u in subs - {t};
    assert u in subs' <==> u in subs' - {t};
    if u in subs {
      assert (subs - {t})[u] == (subs' - {t})[u];
    }
  }

  lemma {:induction false} AllAskedOrClosed(s: Session, order: seq<Topic>, sends: seq<SendResult>)
    requires |order| == |sends| && 1 <= s.table.nextRid && s.state.Reconnecting?
    ensures var s' := Resubscribe(s, order, sends);
            s'.state.Reconnecting? ==>
              forall t :: t in s'.subs ==>
                && t in s.subs && SameStory(s.subs[t], s'.subs[t])
                && (if t in order then s'.subs[t].inflightId != 0 && !s'.subs[t].freshRetryDone else s'.subs[t] == s.subs[t])
    decreases |order|
  {
    hide SendSubscribe, BeginRound, SameStory;
    var s' := Resubscribe(s, order, sends);
    if order == [] || !s'.state.Reconnecting? {
      forall t | t in s.subs
        ensures SameStory(s.subs[t], s.subs[t])
      {
        SelfStory(s.subs[t]);
      }
    } else if order[0] !in s.subs {
      AllAskedOrClosed(s, order[1..], sends[1..]);
    } else {
      var t0, slot := order[0], BeginRound(s.subs[order[0]]);
      var s1 := s.(subs := s.subs[t0 := slot]);
      var since := SinceSeq(slot, s.opts.replayHistory);
      var s2 := SendSubscribe(s1, t0, since, sends[0]);
      ResubscribeQuiet(s2, order[1..], sends[1..]);
      AskedOrClosed(s1, t0, since, sends[0]);
      BegunStory(s.subs[t0]);
      assert s2.state.Reconnecting?;
      AllAskedOrClosed(s2, order[1..], sends[1..]);
      forall t | t in s'.subs
        ensures t in s.subs && SameStory(s.subs[t], s'.subs[t])
        ensures if t in order then s'.subs[t].inflightId != 0 && !s'.subs[t].freshRetryDone else s'.subs[t] == s.subs[t]
      {
        OneOfTheRound(s, s1, s2, s', order, t);
      }
    }
  }

  lemma OneOfTheRound(s: Session, s1: Session, s2: Session, s': Session, order: seq<Topic>, t: Topic)
    requires order != [] && order[0] in s.subs && order[0] in s1.subs && s1 == s.(subs := s.subs[order[0] := s1.subs[order[0]]])
    requires SameStory(s.subs[order[0]], s1.subs[order[0]]) && s2.subs - {order[0]} == s1.subs - {order[0]}
    requires order[0] in s2.subs ==>
               s2.subs[order[0]].inflightId != 0 && !s2.subs[order[0]].freshRetryDone && SameStory(s1.subs[order[0]], s2.subs[order[0]])
    requires t in s'.subs && t in s2.subs && SameStory(s2.subs[t], s'.subs[t])
    requires if t in order[1..] then s'.subs[t].inflightId != 0 && !s'.subs[t].freshRetryDone else s'.subs[t] == s2.subs[t]
    ensures t in s.subs && SameStory(s.subs[t], s'.subs[t])
    ensures if t in order then s'.subs[t].inflightId != 0 && !s'.subs[t].freshRetryDone else s'.subs[t] == s.subs[t]
  {
    assert order == [order[0]] + order[1..];
    if t != order[0] {
      OthersKept(s1.subs, s2.subs, order[0], t);
    }
  }

  lemma SelfStory(x: Slot)
    ensures SameStory(x, x)
  {}

  lemma BegunStory(x: Slot)
    ensures SameStory(x, BeginRound(x)) && !BeginRound(x).freshRetryDone
  {}

  lemma LearnedStory(s: Session, catalog: map<Topic, Semantics>)
    ensures var s' := Learn(s, catalog);
            && s'.subs.Keys == s.subs.Keys && s'.state == s.state && s'.table == s.table
            && forall t :: t in s.subs ==> SameStory(s.subs[t], s'.subs[t])
  {}

  lemma EstablishedAsks(s: Session, plan: Plan)
    requires |plan.order| == |plan.sends| && Enumerates(plan.order, s.subs.Keys) && 1 <= s.table.nextRid && s.state.Reconnecting?
    ensures var s' := Established(s, true, plan);
            s'.state.Reconnecting? ==>
              forall t :: t in s'.subs ==>
                t in s.subs && SameStory(s.subs[t], s'.subs[t]) && s'.subs[t].inflightId != 0 && !s'.subs[t].freshRetryDone
  {
    hide Resubscribe, Learn, SameStory, Enumerates;
    LearnedStory(s, plan.catalog);
    EnumeratesAll(plan.order, s.subs.Keys);
    var s2 := SetBarrier(Learn(s, plan.catalog));
    AllAskedOrClosed(s2.(wire := s2.wire.(waited := true)), plan.order, plan.sends);
    var s' := Established(s, true, plan);
    if s'.state.Reconnecting? {
      forall t | t in s'.subs
        ensures t in s.subs && SameStory(s.subs[t], s'.subs[t]) && s'.subs[t].inflightId != 0 && !s'.subs[t].freshRetryDone
      {
        StoryTrans(s.subs[t], s2.subs[t], s'.subs[t]);
      }
    }
  }

  lemma StoryTrans(x: Slot, y: Slot, z: Slot)
    requires SameStory(x, y) && SameStory(y, z)
    ensures SameStory(x, z)
  {}

  /** After the accepted handshake of a reconnect, unless the connection was lost while they were asked, every
      registered slot is asked, may ask once more from scratch, and has been told nothing yet. */
  lemma RoundAsksEverybody(opts: Opts, states: seq<Session>, events: seq<Event>, i: nat, t: Topic)
    requires Run(opts, states, events) && i < |events| && Welcomed(states[i], events[i])
    requires states[i].state.Reconnecting? && states[i + 1].state.Reconnecting? && t in states[i + 1].subs
    ensures t in states[i].subs && SameStory(states[i].subs[t], states[i + 1].subs[t])
    ensures states[i + 1].subs[t].inflightId != 0 && !states[i + 1].subs[t].freshRetryDone
  {
    hide Inv, Established, Resolve, Enumerates, SameStory;
    var s, e := states[i], events[i];
    RunInv(opts, states, events, i);
    Handshaking(s, e.rid);
    ReconnectingReconnects(s);
    InvBooks(s);
    var s1 := s.(table := Resolve(s.table, e.rid, Answered(e.rid)));
    ResolveId(s.table, e.rid);
    assert Enabled(s, e);
    EstablishedAsks(s1, e.plan);
  }

  lemma ResolveId(b: Table, rid: nat)
    ensures Resolve(b, rid, Answered(rid)).nextRid == b.nextRid
  {}

  // ----- A first connection asks everybody that waits -----

  /** Slot `t` waits to be asked. */
  predicate WaitsUnasked(s: Session, t: Topic) {
    t in s.subs && s.subs[t].state.Pending? && s.subs[t].inflightId == 0
  }

  lemma {:induction false} WaitingAreAsked(s: Session, order: seq<Topic>, sends: seq<SendResult>)
    requires |order| == |sends| && 1 <= s.table.nextRid && s.state.Ready?
    ensures var s' := SubscribeWaiting(s, order, sends);
            s'.state.Ready? ==>
              forall t :: t in s'.subs ==>
                && t in s.subs && SameStory(s.subs[t], s'.subs[t])
                && (if t in order && WaitsUnasked(s, t) then s'.subs[t].inflightId != 0 else s'.subs[t] == s.subs[t])
    decreases |order|
  {
    hide SendSubscribe, SameStory;
    var s' := SubscribeWaiting(s, order, sends);
    forall t | t in s.subs
      ensures SameStory(s.subs[t], s.subs[t])
    {
      SelfStory(s.subs[t]);
    }
    if order != [] && s'.state.Ready? {
      var t0 := order[0];
      assert order == [t0] + order[1..];
      if WaitsUnasked(s, t0) {
        var s1 := SendSubscribe(s, t0, 0, sends[0]);
        SubscribeWaitingQuiet(s1, order[1..], sends[1..]);
        AskedOrClosed(s, t0, 0, sends[0]);
        assert s1.state.Ready?;
        WaitingAreAsked(s1, order[1..], sends[1..]);
        forall t | t in s'.subs
          ensures t in s.subs && SameStory(s.subs[t], s'.subs[t])
          ensures if t in order && WaitsUnasked(s, t) then s'.subs[t].inflightId != 0 else s'.subs[t] == s.subs[t]
        {
          if t != t0 {
            OthersKept(s.subs, s1.subs, t0, t);
          }
        }
      } else {
        WaitingAreAsked(s, order[1..], sends[1..]);
      }
    }
  }

  lemma EstablishedFirst(s: Session, plan: Plan)
    requires |plan.order| == |plan.sends| && Enumerates(plan.order, s.subs.Keys) && 1 <= s.table.nextRid
    ensures var s' := Established(s, false, plan);
            s'.state.Ready? ==>
              forall t :: t in s'.subs ==>
                t in s.subs && SameStory(s.subs[t], s'.subs[t]) && (s.subs[t].state.Pending? ==> s'.subs[t].inflightId != 0)
  {
    hide SubscribeWaiting, SameStory, Enumerates;
    EnumeratesAll(plan.order, s.subs.Keys);
    LearnedStory(s, plan.catalog);
    LearnedIds(s, plan.catalog);
    var ready := Learn(s, plan.catalog).(state := Ready, heartbeat := s.opts.heartbeatOn);
    WaitingAreAsked(ready, plan.order, plan.sends);
    var s' := Established(s, false, plan);
    hide Learn;
    if s'.state.Ready? {
      forall t | t in s'.subs
        ensures t in s.subs && SameStory(s.subs[t], s'.subs[t]) && (s.subs[t].state.Pending? ==> s'.subs[t].inflightId != 0)
      {
        StoryTrans(s.subs[t], ready.subs[t], s'.subs[t]);
      }
    }
  }

  lemma LearnedIds(s: Session, catalog: map<Topic, Semantics>)
    ensures forall t :: t in s.subs ==>
              t in Learn(s, catalog).subs && Learn(s, catalog).subs[t].inflightId == s.subs[t].inflightId
              && Learn(s, catalog).subs[t].state == s.subs[t].state
  {}

  /** After the first accepted handshake, if the session is READY, every slot that waited is asked. */
  lemma FirstAsksEverybody(opts: Opts, states: seq<Session>, events: seq<Event>, i: nat, t: Topic)
    requires Run(opts, states, events) && i < |events| && Welcomed(states[i], events[i])
    requires states[i].state.Connecting? && states[i + 1].state.Ready? && t in states[i + 1].subs
    ensures t in states[i].subs && SameStory(states[i].subs[t], states[i + 1].subs[t])
    ensures states[i].subs[t].state.Pending? ==> states[i + 1].subs[t].inflightId != 0
  {
    hide Inv, Established, Resolve, Enumerates, SameStory;
    var s, e := states[i], events[i];
    RunInv(opts, states, events, i);
    Handshaking(s, e.rid);
    ConnectingFirst(s);
    InvBooks(s);
    var s1 := s.(table := Resolve(s.table, e.rid, Answered(e.rid)));
    ResolveId(s.table, e.rid);
    assert Enabled(s, e);
    EstablishedFirst(s1, e.plan);
  }

  lemma ConnectingFirst(s: Session)
    requires Inv(s) && s.state.Connecting?
    ensures !s.est.NoEst? && !s.est.reconnect
  {
    hide Books, Awaited, AllHeld, AllSettled, ReplayTracked, WireOk, Limited, Archived, BarrierOk;
  }

  // ----- What the answer accounts for -----

  /** A grant at or past the number asked for: what was skipped is told at once, and from then on, as long as
      nothing rebases the numbering, every number since the old base is accounted for exactly once. */
  lemma ResumedLedger(head: Chronicle, next: nat, tail: Chronicle)
    requires 0 < Position(head) < next && tail != [] && InStep(head + [Accepted(Position(head) + 1, next)] + tail)
    requires forall i :: 0 <= i < |tail| ==> !Rebases(tail[i])
    ensures tail[0].Status? && tail[0].gap == next - (Position(head) + 1)
    ensures var log := head + [Accepted(Position(head) + 1, next)] + tail;
            Base(log) == Base(head) && next - 1 <= Position(log) && AllCovered(log, Base(head))
  {
    hide InStep, Base, Position, Covered;
    var granted := Accepted(Position(head) + 1, next);
    var told := head + [granted] + [tail[0]];
    var log := head + [granted] + tail;
    assert log == told + tail[1..] && (told + tail[1..])[..|told|] == told;
    PrefixInStep(log, |told|);
    GrantTold(head, granted, tail[0]);
    ResumedBase(head, next, tail[0]);
    BaseKept(told, tail[1..]);
    forall n: nat | Base(head) < n <= Position(log)
      ensures Covered(log, n) == 1
    {
      ExactlyOnce(log, n);
    }
  }

  lemma ResumedBase(head: Chronicle, next: nat, told: Entry)
    requires 0 < Position(head) < next && InStep(head + [Accepted(Position(head) + 1, next)] + [told])
    ensures Base(head + [Accepted(Position(head) + 1, next)] + [told]) == Base(head)
    ensures told.Status? && told.gap == next - (Position(head) + 1)
  {
    var granted := Accepted(Position(head) + 1, next);
    var log := head + [granted];
    Appended(log, told);
    assert (log + [told])[..|log|] == log && log[..|head|] == head;
  }

  lemma ResumedSlot(x: Slot, y: Slot, next: nat)
    requires Lawful(x) && Lawful(y) && 0 < Position(x.log) < next && x.expectedResumeSeq == Position(x.log) + 1
    requires x.log + [Grant(x, next)] <= y.log
    ensures |x.log| + 1 < |y.log| && Base(x.log) <= Position(x.log)
    ensures NotRebased(y, |x.log| + 1) ==>
              && y.log[|x.log| + 1].Status? && y.log[|x.log| + 1].gap == next - (Position(x.log) + 1)
              && y.lastSeq >= next - 1 && AllCovered(y.log, Base(x.log))
  {
    hide Lawful, Position, Base, AllCovered, Rebases, InStep;
    LawfulPosition(x);
    LawfulPosition(y);
    assert y.log[|x.log|] == Grant(x, next);
    LedgerAdds(x.log);
    if NotRebased(y, |x.log| + 1) {
      var tail := y.log[|x.log| + 1..];
      assert y.log == x.log + [Grant(x, next)] + tail;
      ResumedLedger(x.log, next, tail);
    }
  }

  /** A reconnect loses nothing silently. Step `i` is the accepted handshake of a reconnect, after which slot
      `t`, of an EVENT stream with a position, is asked; step `k` is the answer, granted from the number asked
      for or later. Then the gap is reported at once, and at any later point of the run, as long as nothing
      rebases the numbering, every number past the position the slot had before the reconnect has been
      admitted or reported missing exactly once. */
  lemma ReconnectAccounts(opts: Opts, states: seq<Session>, events: seq<Event>, i: nat, k: nat, j: nat, t: Topic)
    requires Run(opts, states, events) && i < k < j < |states| && opts.replayHistory
    requires Welcomed(states[i], events[i]) && states[i].state.Reconnecting? && states[i + 1].state.Reconnecting?
    requires t in states[i + 1].subs && t in events[i].plan.catalog && events[i].plan.catalog[t].EventStream?
    requires events[k].AckArrived? && events[k].rid == states[i + 1].subs[t].inflightId
    requires MatchesSlot(states[k], events[k].rid) && states[k].table.asked[events[k].rid] == t
    ensures t in states[i].subs
    ensures var x := states[i].subs[t];
            var key, position := Key(t, x.serial), Position(x.log);
            && Holds(states[j].subs, states[j].past, key)
            && (position > 0 && events[k].ack.Granted? && events[k].ack.next > position ==>
                  var y, n := SlotOf(states[j].subs, states[j].past, key), |x.log|;
                  && x.log <= y.log && n + 1 < |y.log| && y.log[n] == Accepted(position + 1, events[k].ack.next)
                  && (NotRebased(y, n + 1) ==>
                        && y.log[n + 1].Status? && y.log[n + 1].gap == events[k].ack.next - (position + 1)
                        && y.lastSeq >= events[k].ack.next - 1 && AllCovered(y.log, position)))
  {
    hide Inv, Lawful, Step, Enabled, Position, AllFit, Fits, NotRebased, AllCovered, Base, StillAsked;
    var rid := events[k].rid;
    RoundAsksEverybody(opts, states, events, i, t);
    IdsInUse(opts, states, events, i + 1, t);
    LeftAloneWhileAsked(opts, states, events, i + 1, k, t);
    var x, z, w := states[i].subs[t], states[i + 1].subs[t], states[k].subs[t];
    StillSame(z, w);
    SlotsOnlyGrow(opts, states, events, i, j, Key(t, x.serial));
    SlotLawful(opts, states, events, i, Key(t, x.serial));
    if Position(x.log) > 0 && events[k].ack.Granted? && events[k].ack.next > Position(x.log) {
      EventSemantics(opts, states, events, i, t);
      SubscribesAskForNext(opts, states, events, k, t);
      GrantKept(opts, states, events, k, j);
      ResumedSlot(w, SlotOf(states[j].subs, states[j].past, Key(t, x.serial)), events[k].ack.next);
      CoveredPast(SlotOf(states[j].subs, states[j].past, Key(t, x.serial)).log, Base(w.log), Position(x.log));
    }
  }

  lemma CoveredPast(log: Chronicle, low: nat, position: nat)
    requires low <= position
    ensures AllCovered(log, low) ==> AllCovered(log, position)
  {}

  lemma StillSame(x: Slot, y: Slot)
    requires StillAsked(x, y)
    ensures y.log == x.log && y.serial == x.serial && y.semantics == x.semantics && y.inflightId == x.inflightId
  {}

  lemma EventSemantics(opts: Opts, states: seq<Session>, events: seq<Event>, i: nat, t: Topic)
    requires Run(opts, states, events) && i < |events| && Welcomed(states[i], events[i]) && t in states[i + 1].subs
    requires t in events[i].plan.catalog
    ensures states[i + 1].subs[t].semantics == events[i].plan.catalog[t]
  {
    hide Step, Enabled;
    var states', events' := states[..i + 2], events[..i + 1];
    SemanticsFollowCatalogue(opts, states', events', t);
  }

  lemma IdsInUse(opts: Opts, states: seq<Session>, events: seq<Event>, k: nat, t: Topic)
    requires Run(opts, states, events) && k < |states| && t in states[k].subs
    ensures states[k].subs[t].inflightId < states[k].table.nextRid
  {
    BookkeepingAgrees(opts, states, events, k);
    RunInv(opts, states, events, k);
    InvBooks(states[k]);
  }
}
