/** What holds over every run of the session, of any length. */
module SessionRuns {
  import opened Subsequences
  import opened Flows
  import opened Chronicles
  import opened Streams
  import opened StreamLaws
  import opened Sessions
  import opened SessionInvariant
  import opened SessionBarrier
  import opened SessionSteps
  import opened SessionHistory
  import opened SessionCounts

  /** Successive states and the events between them. */
  ghost predicate Path(states: seq<Session>, events: seq<Event>) {
    && |states| == |events| + 1
    && forall i :: 0 <= i < |events| ==> Enabled(states[i], events[i]) && states[i + 1] == Step(states[i], events[i])
  }

  /** A path from the state a new client is in. */
  ghost predicate Run(opts: Opts, states: seq<Session>, events: seq<Event>) {
    Path(states, events) && states[0] == Init(opts)
  }

  /** The path up to its `k`th state. */
  lemma Shorter(states: seq<Session>, events: seq<Event>)
    requires Path(states, events) && events != []
    ensures Path(states[..|events|], events[..|events| - 1])
  {}

  lemma {:induction false} PathInv(states: seq<Session>, events: seq<Event>, k: nat)
    requires Path(states, events) && Inv(states[0]) && k < |states|
    ensures Inv(states[k])
  {
    if k > 0 {
      PathInv(states, events, k - 1);
      StepInv(states[k - 1], events[k - 1]);
    }
  }

  lemma RunInv(opts: Opts, states: seq<Session>, events: seq<Event>, k: nat)
    requires Run(opts, states, events) && k < |states|
    ensures Inv(states[k])
  {
    InitInv(opts);
    PathInv(states, events, k);
  }

  // ----- Bookkeeping -----

  /** The tables agree with each other and with the slots in every state of every run. */
  lemma BookkeepingAgrees(opts: Opts, states: seq<Session>, events: seq<Event>, k: nat)
    requires Run(opts, states, events) && k < |states|
    ensures var b := states[k].table;
            && b.asked.Keys == b.ackTimers && b.asked.Keys !! b.inflight.Keys
            && (forall r :: r in b.asked ==> 1 <= r < b.nextRid) && (forall r :: r in b.inflight ==> 1 <= r < b.nextRid)
    ensures forall t :: t in states[k].subs ==>
              var slot := states[k].subs[t];
              && slot.topic == t && !slot.state.Closed?
              && (slot.inflightId != 0 ==> slot.state.Pending? && slot.inflightId in states[k].table.asked
                                           && states[k].table.asked[slot.inflightId] == t)
              && (slot.state.Active? ==> slot.inflightId == 0)
  {
    RunInv(opts, states, events, k);
    hide Awaited, Phases, ReplayTracked, WireOk, Limited, Archived, BarrierOk, AllSettled, Lawful;
    forall t | t in states[k].subs
      ensures Held(states[k].subs[t], t, states[k].table.asked)
    {}
  }

  // ----- Every slot ever registered -----

  lemma InitRolled(opts: Opts)
    ensures Rolled(Init(opts).subs, Init(opts).past)
  {}

  lemma {:induction false} RollsOver(opts: Opts, states: seq<Session>, events: seq<Event>, i: nat, j: nat)
    requires Run(opts, states, events) && i <= j < |states|
    ensures Rolls(states[i].subs, states[i].past, states[j].subs, states[j].past)
  {
    hide Rolls, Inv, Step, Enabled, Later;
    if i < j {
      RollsOver(opts, states, events, i, j - 1);
      RunInv(opts, states, events, j - 1);
      StepCounts(states[j - 1], events[j - 1]);
      RollsTrans(states[i].subs, states[i].past, states[j - 1].subs, states[j - 1].past, states[j].subs, states[j].past);
    } else {
      RollsSame(states[i].subs, states[i].past);
    }
  }

  lemma RunRolled(opts: Opts, states: seq<Session>, events: seq<Event>, k: nat)
    requires Run(opts, states, events) && k < |states|
    ensures Rolled(states[k].subs, states[k].past)
  {
    hide Rolled, Step, Enabled, Remembered;
    InitRolled(opts);
    RollsOver(opts, states, events, 0, k);
  }

  /** No slot is lost: the slot that was registered as the `n`th is either still registered, and open, or has
      left the registry; a slot that has left is closed unless another subscription of its topic, unsubscribed
      late, pushed it out. */
  lemma EverySlotAccountedFor(opts: Opts, states: seq<Session>, events: seq<Event>, k: nat, n: nat)
    requires Run(opts, states, events) && k < |states| && n < |states[k].past.born|
    ensures var s := states[k];
            var key := Key(s.past.born[n], n);
            && Registered(s, key) != (key in s.past.retired)
            && (Registered(s, key) ==> !s.subs[key.topic].state.Closed?)
            && (key in s.past.retired ==> (s.past.retired[key].state.Closed? <==> key !in s.past.displaced))
  {
    RunRolled(opts, states, events, k);
  }

  /** A slot keeps its identity, and what it has told and admitted, for the rest of the run. */
  lemma SlotsOnlyGrow(opts: Opts, states: seq<Session>, events: seq<Event>, i: nat, j: nat, key: Key)
    requires Run(opts, states, events) && i <= j < |states| && Holds(states[i].subs, states[i].past, key)
    ensures Holds(states[j].subs, states[j].past, key)
    ensures Extends(SlotOf(states[i].subs, states[i].past, key), SlotOf(states[j].subs, states[j].past, key))
  {
    hide Rolled, Step, Enabled, Holds, Extends;
    RunRolled(opts, states, events, i);
    RollsOver(opts, states, events, i, j);
  }

  lemma SlotLawful(opts: Opts, states: seq<Session>, events: seq<Event>, k: nat, key: Key)
    requires Run(opts, states, events) && k < |states| && Holds(states[k].subs, states[k].past, key)
    ensures Lawful(SlotOf(states[k].subs, states[k].past, key))
  {
    hide Lawful, Inv;
    RunInv(opts, states, events, k);
    InvLawful(states[k], key);
  }

  lemma InvLawful(s: Session, key: Key)
    requires Inv(s) && Holds(s.subs, s.past, key)
    ensures Lawful(SlotOf(s.subs, s.past, key))
  {
    hide Books, Awaited, Phases, ReplayTracked, WireOk, Limited, BarrierOk, AllSettled, Lawful;
    if Registered(s, key) {
      assert Held(s.subs[key.topic], key.topic, s.table.asked);
    }
  }

  // ----- Streams -----

  /** The event ledger: across any number of losses and resumes, the position of a slot is its base plus the
      numbered frames admitted since plus what was reported missing, and every number since the base was
      admitted once or reported missing once. What comes before the base is not accounted for: see
      NumbersFromGrantIff. */
  lemma LedgerBalances(opts: Opts, states: seq<Session>, events: seq<Event>, k: nat, key: Key, n: nat)
    requires Run(opts, states, events) && k < |states| && Holds(states[k].subs, states[k].past, key)
    ensures var slot := SlotOf(states[k].subs, states[k].past, key);
            && slot.lastSeq == Base(slot.log) + |Since(slot.log)| + MissedSince(slot.log)
            && Covered(slot.log, n) == (if Base(slot.log) < n <= slot.lastSeq then 1 else 0)
            && (UnderEvent(slot.log) ==>
                  && AdmittedBefore(slot.log) <= |slot.flow.admitted|
                  && Since(slot.log) == NumberedOnly(slot.flow.admitted[AdmittedBefore(slot.log)..]))
            && (slot.state.Active? ==> (UnderEvent(slot.log) <==> slot.semantics.EventStream?))
  {
    SlotLawful(opts, states, events, k, key);
    EveryNumberOnce(SlotOf(states[k].subs, states[k].past, key), n);
  }

  /** Every frame that arrived for a slot is accounted for, the buffers are bounded, the frames rejected are
      exactly the refusals on record, each a duplicate or a regression when it came, and what reached the
      callback and the queue comes in the order it came from the wire. */
  lemma FramesConserved(opts: Opts, states: seq<Session>, events: seq<Event>, k: nat, key: Key)
    requires Run(opts, states, events) && k < |states| && Holds(states[k].subs, states[k].past, key)
    ensures var slot := SlotOf(states[k].subs, states[k].past, key);
            var w := slot.flow;
            && |w.arrived| == |w.delivered| + |w.queue| + |w.pending| + w.dropCount + w.rejected + w.cleared
            && |w.pending| <= slot.conf.queueSize && |w.queue| <= slot.conf.queueSize
            && w.admitted == Frames(slot.log) && w.rejected == Refusals(slot.log)
            && (forall i :: 0 <= i < |slot.log| && slot.log[i].Refused? ==>
                  0 < slot.log[i].frame.number <= Position(slot.log[..i]))
            && Subsequence(w.delivered + w.queue, w.admitted) && Subsequence(w.delivered + w.queue, w.arrived)
  {
    SlotLawful(opts, states, events, k, key);
    var slot := SlotOf(states[k].subs, states[k].past, key);
    EndToEndOrder(slot.conf, slot.flow);
    forall i | 0 <= i < |slot.log| && slot.log[i].Refused?
      ensures 0 < slot.log[i].frame.number <= Position(slot.log[..i])
    {
      RefusedWereStale(slot.log, i);
    }
  }

  /** End to end: the frames at the callback and in the queue fall into those admitted before, during and
      after any stretch of the slot's history in which nothing rebased its numbering, and the numbers of
      those admitted during it strictly increase. */
  lemma HandedOnInOrder(opts: Opts, states: seq<Session>, events: seq<Event>, k: nat, key: Key,
                        head: Chronicle, tail: Chronicle, rest: Chronicle)
    returns (before: seq<Frame>, within: seq<Frame>, after: seq<Frame>)
    requires Run(opts, states, events) && k < |states| && Holds(states[k].subs, states[k].past, key)
    requires SlotOf(states[k].subs, states[k].past, key).log == head + tail + rest && UnderEvent(head)
    requires forall i :: 0 <= i < |tail| ==> !Rebases(tail[i])
    ensures var w := SlotOf(states[k].subs, states[k].past, key).flow;
            && w.delivered + w.queue == before + within + after
            && Frames(head) <= Frames(head + tail) <= w.admitted
            && Subsequence(before, Frames(head))
            && Subsequence(within, w.admitted[|Frames(head)|..|Frames(head + tail)|])
            && Subsequence(after, w.admitted[|Frames(head + tail)|..])
    ensures Ascending(Position(head), NumberedOnly(within), Position(head + tail))
  {
    SlotLawful(opts, states, events, k, key);
    var slot := SlotOf(states[k].subs, states[k].past, key);
    hide Lawful, Run, Subsequence, Frames, Position, NumberedOnly, Rebases;
    before, within, after := HandedInOrder(slot, head, tail, rest);
    assert Frames(head + tail)[|Frames(head)|..] == slot.flow.admitted[|Frames(head)|..|Frames(head + tail)|];
  }

  predicate GoesLive(e: Entry) {
    e.Status? && (e.kind.Started? || e.kind.Resumed?)
  }

  /** The announcements of a slot keep their order: while it is open they are PAUSED*, STARTED or RESUMED,
      GAP*, (PAUSED+ RESUMED GAP*)*; a slot that has left has told CLOSED, and nothing but CLOSED after, unless
      it was pushed out; and STARTED never recurs. */
  lemma StatusProtocol(opts: Opts, states: seq<Session>, events: seq<Event>, k: nat, key: Key)
    requires Run(opts, states, events) && k < |states| && Holds(states[k].subs, states[k].past, key)
    ensures var s := states[k];
            var slot := SlotOf(s.subs, s.past, key);
            && Story(slot.log) != Garbled
            && (Story(slot.log).Over? <==> key in s.past.retired && key !in s.past.displaced)
            && (Story(slot.log).Live? <==> slot.state.Active?)
            && forall i, j :: 0 <= i < j < |slot.log| && GoesLive(slot.log[i]) && slot.log[j].Status? ==> !slot.log[j].kind.Started?
  {
    SlotLawful(opts, states, events, k, key);
    RunRolled(opts, states, events, k);
    var log := SlotOf(states[k].subs, states[k].past, key).log;
    forall i, j | 0 <= i < j < |log| && GoesLive(log[i]) && log[j].Status?
      ensures !log[j].kind.Started?
    {
      StartedOnce(log, i, j);
    }
  }

  /** While a resume is outstanding the position is just before the point asked for; whatever the answer,
      an acceptance leaves it just before the server's next number, and the drain that follows admits exactly
      what the gate alone would. */
  lemma ResumeCursor(opts: Opts, states: seq<Session>, events: seq<Event>, k: nat, key: Key, next: nat)
    requires Run(opts, states, events) && k < |states| && Registered(states[k], key)
    requires states[k].subs[key.topic].inflightId != 0
    ensures var slot := states[k].subs[key.topic];
            && (slot.expectedResumeSeq > 0 ==> slot.lastSeq == slot.expectedResumeSeq - 1)
            && Reposition(Unask(slot), next).lastSeq == JustBefore(next)
            && SameButCounting(Drain(Reposition(Unask(slot), next), next), GateAll(Reposition(Unask(slot), next)))
  {
    SlotLawful(opts, states, events, k, key);
    RunInv(opts, states, events, k);
    hide Books, Awaited, Phases, ReplayTracked, WireOk, Limited, Archived, BarrierOk, AllSettled, Lawful;
    assert Held(states[k].subs[key.topic], key.topic, states[k].table.asked);
    DrainAfterAckRefinesGate(states[k].subs[key.topic], next);
  }

  /** The acceptance of an EVENT subscribe is the next entry of its slot's record. */
  lemma GrantOnRecord(s: Session, rid: nat, next: nat, retry: SendResult)
    requires MatchesSlot(s, rid) && s.subs[s.table.asked[rid]].semantics.EventStream?
    ensures var t := s.table.asked[rid];
            var s' := HandleAck(s, rid, Granted(next), retry);
            && t in s'.subs && s'.subs[t].serial == s.subs[t].serial
            && s.subs[t].log + [Accepted(s.subs[t].expectedResumeSeq, next)] <= s'.subs[t].log
  {
    var t := s.table.asked[rid];
    ActivateExtends(Unask(s.subs[t]), next);
    hide Activate;
  }

  /** Step `i` of a run grants an EVENT subscribe. */
  ghost predicate GrantsEvent(states: seq<Session>, events: seq<Event>, i: nat) {
    && i < |events| && i < |states| && events[i].AckArrived? && events[i].ack.Granted?
    && MatchesSlot(states[i], events[i].rid)
    && states[i].subs[states[i].table.asked[events[i].rid]].semantics.EventStream?
  }

  /** The slot whose subscribe it grants. */
  ghost function GrantedSlot(states: seq<Session>, events: seq<Event>, i: nat): Slot
    requires GrantsEvent(states, events, i)
  {
    states[i].subs[states[i].table.asked[events[i].rid]]
  }

  ghost function GrantedKey(states: seq<Session>, events: seq<Event>, i: nat): Key
    requires GrantsEvent(states, events, i)
  {
    Key(states[i].table.asked[events[i].rid], GrantedSlot(states, events, i).serial)
  }

  function Grant(x: Slot, next: nat): Entry {
    Accepted(x.expectedResumeSeq, next)
  }

  /** Later in the run the slot is still on record, its grant with it. */
  lemma GrantKept(opts: Opts, states: seq<Session>, events: seq<Event>, i: nat, j: nat)
    requires Run(opts, states, events) && i < j < |states| && GrantsEvent(states, events, i)
    ensures var x, key := GrantedSlot(states, events, i), GrantedKey(states, events, i);
            && Lawful(x) && Holds(states[j].subs, states[j].past, key)
            && var y := SlotOf(states[j].subs, states[j].past, key);
               && Lawful(y) && x.log + [Grant(x, events[i].ack.next)] <= y.log && x.flow.admitted <= y.flow.admitted
  {
    hide Lawful, Inv, Enabled, HandleAck;
    var key := GrantedKey(states, events, i);
    GrantOnRecord(states[i], events[i].rid, events[i].ack.next, events[i].retry);
    SlotsOnlyGrow(opts, states, events, i, j, key);
    SlotsOnlyGrow(opts, states, events, i + 1, j, key);
    SlotLawful(opts, states, events, i, key);
    SlotLawful(opts, states, events, j, key);
  }

  /** Nothing in the slot's record from position `from` on rebases its numbering. */
  ghost predicate NotRebased(y: Slot, from: nat) {
    forall m :: from <= m < |y.log| ==> !Rebases(y.log[m])
  }

  /** Nothing below: once an EVENT subscribe is granted from `next` on, whatever happens later in the run, no
      frame with a nonzero number below `next` is admitted before the numbering is rebased, and the numbers
      admitted strictly increase. */
  lemma NothingBelowNext(opts: Opts, states: seq<Session>, events: seq<Event>, i: nat, j: nat)
    requires Run(opts, states, events) && i < j < |states| && GrantsEvent(states, events, i)
    ensures var x, key, next := GrantedSlot(states, events, i), GrantedKey(states, events, i), events[i].ack.next;
            && Holds(states[j].subs, states[j].past, key)
            && var y := SlotOf(states[j].subs, states[j].past, key);
               && |x.log| < |y.log| && y.log[|x.log|] == Grant(x, next) && x.flow.admitted <= y.flow.admitted
               && (NotRebased(y, |x.log| + 1) ==> AscendingFrom(next, NumberedOnly(y.flow.admitted[|x.flow.admitted|..])))
  {
    hide Lawful, Run, MatchesSlot, GrantedSlot, GrantedKey, NumberedOnly, AscendingFrom, NotRebased;
    GrantKept(opts, states, events, i, j);
    var x, key := GrantedSlot(states, events, i), GrantedKey(states, events, i);
    LaterFromGrant(x, SlotOf(states[j].subs, states[j].past, key), Grant(x, events[i].ack.next));
  }

  /** Nothing unaccounted for: from a grant with next number K on, whatever happens later in the run, every
      number from K on up to the position is admitted or reported missing exactly once before the numbering is
      rebased, if and only if K is at least 2 or the first number admitted since is 1. */
  lemma NumbersFromGrantIff(opts: Opts, states: seq<Session>, events: seq<Event>, i: nat, j: nat)
    requires Run(opts, states, events) && i < j < |states| && GrantsEvent(states, events, i)
    ensures var x, key, next := GrantedSlot(states, events, i), GrantedKey(states, events, i), events[i].ack.next;
            && Holds(states[j].subs, states[j].past, key)
            && var y := SlotOf(states[j].subs, states[j].past, key);
               && |x.log| < |y.log| && y.lastSeq == Position(y.log)
               && (NotRebased(y, |x.log| + 1) ==>
                     (AllCovered(y.log, JustBefore(next)) <==> next >= 2 || FirstNumber(y.log[|x.log| + 1..]) <= 1)
                     && (next >= 2 && Rebases(Grant(x, next)) ==> Base(y.log) == next - 1))
  {
    hide Lawful, Run, MatchesSlot, GrantedSlot, GrantedKey, NotRebased, AllCovered, FirstNumber, Rebases, Base, Position;
    GrantKept(opts, states, events, i, j);
    var x, key := GrantedSlot(states, events, i), GrantedKey(states, events, i);
    CoveredFromGrant(x, SlotOf(states[j].subs, states[j].past, key), events[i].ack.next);
  }

  lemma CoveredFromGrant(x: Slot, y: Slot, next: nat)
    requires Lawful(y) && x.log + [Grant(x, next)] <= y.log
    ensures |x.log| < |y.log| && y.lastSeq == Position(y.log)
    ensures NotRebased(y, |x.log| + 1) ==>
              (AllCovered(y.log, JustBefore(next)) <==> next >= 2 || FirstNumber(y.log[|x.log| + 1..]) <= 1)
              && (next >= 2 && Rebases(Grant(x, next)) ==> Base(y.log) == next - 1)
  {
    hide InStep, Story, Position, UnderEvent, Rebases, Frames, AllCovered, FirstNumber, Base;
    var granted := Grant(x, next);
    assert y.log[|x.log|] == granted;
    assert Told(y.log);
    if NotRebased(y, |x.log| + 1) {
      var tail := y.log[|x.log| + 1..];
      assert y.log == x.log + [granted] + tail;
      CoveredFromGrantIff(x.log, granted, tail);
    }
  }

  lemma LaterFromGrant(x: Slot, y: Slot, granted: Entry)
    requires Lawful(x) && Lawful(y) && granted.Accepted? && x.log + [granted] <= y.log && x.flow.admitted <= y.flow.admitted
    ensures |x.log| < |y.log| && y.log[|x.log|] == granted
    ensures NotRebased(y, |x.log| + 1) ==> AscendingFrom(granted.next, NumberedOnly(y.flow.admitted[|x.flow.admitted|..]))
  {
    hide InStep, Story, Position, NumberedOnly, AscendingFrom, UnderEvent, Rebases, Frames, Lawful;
    assert y.log[|x.log|] == (x.log + [granted])[|x.log|];
    if NotRebased(y, |x.log| + 1) {
      var tail := y.log[|x.log| + 1..];
      assert y.log == x.log + [granted] + tail;
      LawfulFrames(x);
      NothingBelowGranted(y, x.log, granted, tail);
    }
  }

  // ----- The emergency stop -----

  /** The last emergency stop that the robot accepted was to engage. */
  ghost function LastIntent(states: seq<Session>, events: seq<Event>): bool
    requires |states| == |events| + 1
  {
    if events == [] then false
    else
      var n := |events| - 1;
      var s, e := states[n], events[n];
      if e.RpcAnswered? && e.ok && e.rid in s.table.inflight && s.table.inflight[e.rid].EStop?
      then s.table.inflight[e.rid].engage
      else LastIntent(states[..n + 1], events[..n])
  }

  lemma {:induction false} IntentRemembered(opts: Opts, states: seq<Session>, events: seq<Event>)
    requires Run(opts, states, events)
    ensures states[|events|].engaged == LastIntent(states, events)
  {
    if events != [] {
      var n := |events| - 1;
      Shorter(states, events);
      IntentRemembered(opts, states[..n + 1], events[..n]);
      RunInv(opts, states, events, n);
      StepCounts(states[n], events[n]);
    }
  }

  /** On a connection opened by a reconnect while the stop was engaged, no business command precedes the
      accepted replay, and the session is not READY before it; on any other connection no stop is replayed. */
  lemma StopReplayedFirst(opts: Opts, states: seq<Session>, events: seq<Event>, k: nat)
    requires Run(opts, states, events) && k < |states|
    ensures var w := states[k].wire;
            && (w.reconnect && w.engaged ==>
                  (states[k].state.Ready? ==> ReplayAccepted in w.log)
                  && forall i :: 0 <= i < |w.log| && w.log[i].Sent? && w.log[i].cmd.CmdBusiness? ==>
                       exists j :: 0 <= j < i && w.log[j] == ReplayAccepted)
            && (!(w.reconnect && w.engaged) ==> Sent(CmdReplay) !in w.log)
  {
    RunInv(opts, states, events, k);
    hide Books, Awaited, AllHeld, AllSettled, ReplayTracked, Limited, Archived, BarrierOk;
  }

  /** A stop is only ever replayed while the last accepted intent is to engage. */
  lemma ReleasedStopNotReplayed(opts: Opts, states: seq<Session>, events: seq<Event>, sendOk: bool)
    requires Run(opts, states, events)
    requires Enabled(states[|events|], ReplayStarted(sendOk))
    ensures LastIntent(states, events) && states[|events|].wire.reconnect && states[|events|].wire.engaged
  {
    IntentRemembered(opts, states, events);
    RunInv(opts, states, events, |events|);
    QueuedWaits(states[|events|]);
  }

  // ----- Reconnects -----

  /** How many reconnects a path announces. */
  ghost function Announcements(states: seq<Session>): nat {
    if |states| <= 1 then 0
    else Announcements(states[..|states| - 1]) + (if Announced(states[|states| - 2], states[|states| - 1]) then 1 else 0)
  }

  lemma {:induction false} ReconnectsCounted(opts: Opts, states: seq<Session>, events: seq<Event>)
    requires Run(opts, states, events)
    ensures states[|events|].totalCount == Announcements(states)
  {
    if events != [] {
      var n := |events| - 1;
      Shorter(states, events);
      ReconnectsCounted(opts, states[..n + 1], events[..n]);
      RunInv(opts, states, events, n);
      StepCounts(states[n], events[n]);
      assert states[..|states| - 1] == states[..n + 1];
    }
  }

  /** The counter of the barrier is the slots still asked plus those that left without being counted; it
      is never below the slots of the round that are registered and not yet active. */
  lemma BarrierCounts(opts: Opts, states: seq<Session>, events: seq<Event>, k: nat)
    requires Run(opts, states, events) && k < |states| && Waiting(states[k])
    ensures var s := states[k];
            && s.barrier.subsPending == |Unanswered(s.subs)| + s.barrier.lost
            && (forall t :: t in s.barrier.round ==> t in s.subs && (s.subs[t].state.Active? || t in Unanswered(s.subs)))
            && (s.barrier.subsPending > 0 || s.barrier.estopPending)
  {
    RunInv(opts, states, events, k);
    hide Core;
  }

  /** Each step from RECONNECTING to READY finds every slot of its round that is still registered active,
      nobody unanswered and nobody missing, and starts the attempts over. */
  lemma ReadyMeansEveryoneAnswered(opts: Opts, states: seq<Session>, events: seq<Event>, k: nat)
    requires Run(opts, states, events) && k < |events|
    ensures states[k].state.Reconnecting? && states[k + 1].state.Ready? ==>
              var s := states[k + 1];
              && (forall t :: t in s.barrier.round ==> t in s.subs && s.subs[t].state.Active?)
              && Unanswered(s.subs) == {} && s.barrier.lost == 0 && !s.barrier.estopPending
              && s.attempt == 0 && s.totalCount == states[k].totalCount + 1
  {
    hide Inv, Step, Enabled;
    if states[k].state.Reconnecting? && states[k + 1].state.Ready? {
      RunInv(opts, states, events, k);
      ReconnectingReconnects(states[k]);
      StepConcluded(states[k], events[k]);
      StepCounts(states[k], events[k]);
      EveryoneAnswered(states[k + 1]);
    }
  }

  lemma EveryoneAnswered(s: Session)
    requires Counted(s.subs, s.barrier, []) && s.barrier.subsPending == 0
    ensures Unanswered(s.subs) == {} && s.barrier.lost == 0
    ensures forall t :: t in s.barrier.round ==> t in s.subs && s.subs[t].state.Active?
  {
    assert Unanswered(s.subs) == {};
    forall t | t in s.barrier.round
      ensures t in s.subs && s.subs[t].state.Active?
    {
      assert t !in Unanswered(s.subs);
    }
  }

  lemma ReconnectingReconnects(s: Session)
    requires Inv(s) && s.state.Reconnecting?
    ensures s.est.NoEst? || s.est.reconnect
  {
    hide Books, Awaited, AllHeld, AllSettled, ReplayTracked, WireOk, Limited, Archived, BarrierOk;
  }

  /** READY is announced at most once per round: between two such steps a timer has attempted again. */
  lemma OncePerRound(opts: Opts, states: seq<Session>, events: seq<Event>, i: nat, j: nat)
    requires Run(opts, states, events) && i < j < |events|
    requires states[i + 1].state.Ready? && states[j].state.Reconnecting?
    ensures exists m :: i < m < j && Attempts(states[m], events[m])
  {
    AttemptBetween(opts, states, events, i + 1, j);
  }

  lemma {:induction false} AttemptBetween(opts: Opts, states: seq<Session>, events: seq<Event>, i: nat, j: nat)
    requires Run(opts, states, events) && i <= j < |states|
    requires !states[i].state.Reconnecting? && states[j].state.Reconnecting?
    ensures exists m :: i <= m < j && Attempts(states[m], events[m])
  {
    hide Inv, Step, Enabled, Later;
    NextReconnecting(opts, states, events, j - 1);
    if !Attempts(states[j - 1], events[j - 1]) {
      AttemptBetween(opts, states, events, i, j - 1);
    }
  }

  /** Only a firing timer enters RECONNECTING. */
  lemma NextReconnecting(opts: Opts, states: seq<Session>, events: seq<Event>, k: nat)
    requires Run(opts, states, events) && k < |events| && states[k + 1].state.Reconnecting?
    ensures states[k].state.Reconnecting? || Attempts(states[k], events[k])
  {
    hide Inv, Step, Enabled, Later;
    RunInv(opts, states, events, k);
    StepCounts(states[k], events[k]);
  }

  // ----- Calls -----

  lemma {:induction false} CallsKeptOver(opts: Opts, states: seq<Session>, events: seq<Event>, i: nat, j: nat)
    requires Run(opts, states, events) && i <= j < |states|
    ensures Later(states[i].table, states[j].table)
  {
    hide Later, Inv, Step, Enabled;
    if i < j {
      CallsKeptOver(opts, states, events, i, j - 1);
      RunInv(opts, states, events, j - 1);
      StepCounts(states[j - 1], events[j - 1]);
      LaterTrans(states[i].table, states[j - 1].table, states[j].table);
    } else {
      LaterNext(states[i].table, "");
    }
  }

  /** A call that has ended has ended for good, in one way; one that was in flight still is or has ended;
      and none is both. */
  lemma CallsEndOnce(opts: Opts, states: seq<Session>, events: seq<Event>, i: nat, j: nat, rid: nat)
    requires Run(opts, states, events) && i <= j < |states|
    ensures rid in states[i].table.ended ==>
              rid in states[j].table.ended && states[j].table.ended[rid] == states[i].table.ended[rid]
    ensures rid in states[i].table.inflight ==>
              (rid in states[j].table.inflight && states[j].table.inflight[rid] == states[i].table.inflight[rid])
              != (rid in states[j].table.ended)
    ensures rid in states[j].table.ended ==> rid !in states[j].table.inflight
    ensures rid in states[j].table.ended && states[j].table.ended[rid].Answered? ==> states[j].table.ended[rid].rid == rid
  {
    CallsKeptOver(opts, states, events, i, j);
    CallsKeptOver(opts, states, events, 0, j);
    InitInv(opts);
    RunInv(opts, states, events, i);
    RunInv(opts, states, events, j);
    hide Awaited, AllHeld, AllSettled, Phases, ReplayTracked, WireOk, Limited, Archived, BarrierOk;
  }

  /** `close()` and the abort after the last attempt leave no call unresolved, no acknowledgement timer and
      no slot registered. */
  lemma ClosingSettlesEverything(opts: Opts, states: seq<Session>, events: seq<Event>, k: nat, rid: nat)
    requires Run(opts, states, events) && k < |events|
    requires events[k].AbortStarted? || (events[k].Closed? && !states[k].state.Shutdown?)
    ensures var s := states[k + 1];
            && s.table.inflight == map[] && s.table.asked == map[] && s.table.ackTimers == {} && s.subs == map[]
            && (rid in states[k].table.inflight ==> rid in s.table.ended)
  {
    hide Inv, UserClose, Abort, Later;
    RunInv(opts, states, events, k);
    CallsKeptOver(opts, states, events, k, k + 1);
    AllSettledDown(states[k], events[k]);
    LaterSettles(states[k], states[k + 1], rid);
  }

  lemma AllSettledDown(s: Session, e: Event)
    requires Inv(s) && Enabled(s, e) && (e.AbortStarted? || (e.Closed? && !s.state.Shutdown?))
    ensures Down(Step(s, e)) && Step(s, e).subs == map[]
  {
    hide Inv, UserClose, Abort, Losable, Wakeable, Down;
    if e.Closed? {
      UserCloseInv(s);
    } else {
      AbortWakeable(s);
      AbortInv(s.(tasks := s.tasks.(aborts := s.tasks.aborts - 1)), TransientError);
    }
  }

  lemma LaterSettles(s: Session, s': Session, rid: nat)
    requires Inv(s) && Down(s') && Later(s.table, s'.table)
    ensures s'.table.inflight == map[] && s'.table.asked == map[] && s'.table.ackTimers == {}
    ensures rid in s.table.inflight ==> rid in s'.table.ended
  {
    hide Awaited, AllHeld, AllSettled, Phases, ReplayTracked, WireOk, Limited, Archived, BarrierOk;
  }

  // ----- Heartbeat -----

  /** A READY session has its heartbeat running exactly if heartbeats are on, its connection did not have to
      wait for answers (otherwise the loop started too early and ended at once), and the loop has not found
      the socket closed; no other session has one. */
  lemma HeartbeatRunsIff(opts: Opts, states: seq<Session>, events: seq<Event>, k: nat)
    requires Run(opts, states, events) && k < |states|
    ensures var s := states[k];
            && (s.state.Ready? ==> (s.heartbeat <==> s.opts.heartbeatOn && !s.wire.waited && !s.wire.quit))
            && (!s.state.Ready? ==> !s.heartbeat)
  {
    RunInv(opts, states, events, k);
    hide Books, Awaited, AllHeld, AllSettled, Phases, ReplayTracked, Limited, Archived, BarrierOk;
  }

  // ----- Subscribing late -----

  /** A slot subscribed while the barrier waits is left behind: of the slots registered when the reconnect
      ends READY, those not asked and not active are exactly those that are not of the round. */
  lemma LateSlotsLeftBehind(opts: Opts, states: seq<Session>, events: seq<Event>, k: nat, t: Topic)
    requires Run(opts, states, events) && k < |events|
    ensures states[k].state.Reconnecting? && states[k + 1].state.Ready? && t in states[k + 1].subs ==>
              var s := states[k + 1];
              s.subs[t].state.Pending? && s.subs[t].inflightId == 0 <==> t !in s.barrier.round
  {
    hide Inv, Step, Enabled;
    if states[k].state.Reconnecting? && states[k + 1].state.Ready? {
      RunInv(opts, states, events, k);
      StepConcluded(states[k], events[k]);
      EveryoneAnswered(states[k + 1]);
    }
  }
}
