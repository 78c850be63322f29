/** How frames that are queued reach the callback. */
module SessionDispatch {
  import opened Subsequences
  import opened Flows
  import opened Chronicles
  import opened Streams
  import opened StreamLaws
  import opened Sessions
  import opened SessionInvariant
  import opened SessionHistory
  import opened SessionRuns

  // ----- One turn -----

  /** The oldest queued frame has gone to the callback, and nothing else of the slot has changed. */
  ghost predicate HandedOne(x: Slot, y: Slot) {
    && y == x.(flow := x.flow.(queue := y.flow.queue, delivered := y.flow.delivered))
    && y.flow.delivered + y.flow.queue == x.flow.delivered + x.flow.queue
    && |y.flow.queue| == |x.flow.queue| - 1
  }

  ghost predicate OthersSame(s: Session, s': Session, key: Key) {
    && s' == s.(subs := s'.subs, past := s.past.(retired := s'.past.retired))
    && forall k :: k != key && Holds(s.subs, s.past, k) ==>
         Holds(s'.subs, s'.past, k) && SlotOf(s'.subs, s'.past, k) == SlotOf(s.subs, s.past, k)
  }

  /** A turn of the worker of a slot, registered or pushed out: it hands on one frame if the slot is not closed
      and has one queued; otherwise nothing happens. */
  lemma TurnHandsOn(s: Session, key: Key)
    requires Holds(s.subs, s.past, key)
    ensures var s' := Step(s, Worked(key));
            && Holds(s'.subs, s'.past, key) && OthersSame(s, s', key)
            && var x, y := SlotOf(s.subs, s.past, key), SlotOf(s'.subs, s'.past, key);
               if x.state.Closed? || x.flow.queue == [] then y == x && s' == s else HandedOne(x, y)
  {
    hide Work, HandedOne;
    var x := SlotOf(s.subs, s.past, key);
    WorkHandsOne(x);
    if Registered(s, key) {
      assert s.subs[key.topic := s.subs[key.topic]] == s.subs;
      RegisteredTurn(s, key, Work(x));
    } else {
      assert s.past.retired[key := s.past.retired[key]] == s.past.retired;
      RetiredTurn(s, key, Work(x));
    }
  }

  lemma WorkHandsOne(x: Slot)
    ensures if x.state.Closed? || x.flow.queue == [] then Work(x) == x else HandedOne(x, Work(x))
  {}

  lemma RegisteredTurn(s: Session, key: Key, y: Slot)
    requires Registered(s, key) && y.serial == s.subs[key.topic].serial
    ensures var s' := s.(subs := s.subs[key.topic := y]);
            Holds(s'.subs, s'.past, key) && SlotOf(s'.subs, s'.past, key) == y && OthersSame(s, s', key)
  {}

  lemma RetiredTurn(s: Session, key: Key, y: Slot)
    requires !Registered(s, key) && key in s.past.retired
    ensures var s' := s.(past := s.past.(retired := s.past.retired[key := y]));
            Holds(s'.subs, s'.past, key) && SlotOf(s'.subs, s'.past, key) == y && OthersSame(s, s', key)
  {}

  /** As many turns as frames are queued, and nothing in between, hand on exactly the queue, in its order. */
  lemma {:induction false} TurnsHandOn(states: seq<Session>, events: seq<Event>, key: Key, n: nat)
    requires Path(states, events) && Holds(states[0].subs, states[0].past, key)
    requires n <= |events| && forall i :: 0 <= i < n ==> events[i] == Worked(key)
    requires var x := SlotOf(states[0].subs, states[0].past, key); !x.state.Closed? && n <= |x.flow.queue|
    ensures Holds(states[n].subs, states[n].past, key)
    ensures var x, y := SlotOf(states[0].subs, states[0].past, key), SlotOf(states[n].subs, states[n].past, key);
            && !y.state.Closed?
            && y.flow.delivered == x.flow.delivered + x.flow.queue[..n] && y.flow.queue == x.flow.queue[n..]
  {
    hide Step, Enabled, Holds;
    if n > 0 {
      TurnsHandOn(states, events, key, n - 1);
      TurnHandsOn(states[n - 1], key);
      var x, w, y := SlotOf(states[0].subs, states[0].past, key), SlotOf(states[n - 1].subs, states[n - 1].past, key),
                     SlotOf(states[n].subs, states[n].past, key);
      assert HandedOne(w, y);
      OneMoreHanded(x.flow.delivered, x.flow.queue, n - 1, y.flow.delivered, y.flow.queue, w.flow.delivered);
    } else {
      assert SlotOf(states[0].subs, states[0].past, key).flow.queue[..0] == [];
    }
  }

  lemma OneMoreHanded(delivered: seq<Frame>, queue: seq<Frame>, n: nat, delivered': seq<Frame>, queue': seq<Frame>, before: seq<Frame>)
    requires n < |queue| && before == delivered + queue[..n]
    requires delivered' + queue' == before + queue[n..] && |queue'| == |queue[n..]| - 1
    ensures delivered' == delivered + queue[..n + 1] && queue' == queue[n + 1..]
  {
    var all := delivered + queue;
    assert before + queue[n..] == all;
    assert delivered' == all[..|delivered| + n + 1] && queue' == all[|delivered| + n + 1..];
  }

  // ----- Whatever happens in between -----

  /** The turns of the worker along a stretch of a run. */
  ghost function Turns(events: seq<Event>, key: Key): nat {
    if events == [] then 0
    else Turns(events[..|events| - 1], key) + (if events[|events| - 1] == Worked(key) then 1 else 0)
  }

  ghost predicate OpenThroughout(states: seq<Session>, i: nat, j: nat, key: Key) {
    && j < |states|
    && forall m :: i <= m <= j ==> Holds(states[m].subs, states[m].past, key) && !SlotOf(states[m].subs, states[m].past, key).state.Closed?
  }

  /** Under DROP_NEWEST every queued frame is handed on by the time the worker has had as many turns as were
      queued, whatever else happens in between, as long as the slot is not closed. */
  lemma {:induction false} QueueIsHandedOn(opts: Opts, states: seq<Session>, events: seq<Event>, i: nat, j: nat, key: Key)
    requires Run(opts, states, events) && i <= j && OpenThroughout(states, i, j, key)
    requires var c := SlotOf(states[i].subs, states[i].past, key).conf; c.mode.Dispatched? && c.policy.DropNewest?
    ensures var x, y := SlotOf(states[i].subs, states[i].past, key).flow, SlotOf(states[j].subs, states[j].past, key).flow;
            && x.delivered + x.queue <= y.delivered + y.queue
            && (Turns(events[i..j], key) >= |x.queue| ==> x.delivered + x.queue <= y.delivered)
            && |y.delivered| >= |x.delivered| + (if Turns(events[i..j], key) < |x.queue| then Turns(events[i..j], key) else |x.queue|)
    decreases j - i
  {
    hide Step, Enabled, Holds, Extends;
    SlotsOnlyGrow(opts, states, events, i, j, key);
    ExtendsFlow(SlotOf(states[i].subs, states[i].past, key), SlotOf(states[j].subs, states[j].past, key));
    if i < j {
      QueueIsHandedOn(opts, states, events, i, j - 1, key);
      SlotsOnlyGrow(opts, states, events, i, j - 1, key);
      SlotsOnlyGrow(opts, states, events, j - 1, j, key);
      ExtendsFlow(SlotOf(states[i].subs, states[i].past, key), SlotOf(states[j - 1].subs, states[j - 1].past, key));
      ExtendsFlow(SlotOf(states[j - 1].subs, states[j - 1].past, key), SlotOf(states[j].subs, states[j].past, key));
      assert events[i..j][..j - 1 - i] == events[i..j - 1];
      if events[j - 1] == Worked(key) {
        TurnHandsOn(states[j - 1], key);
      }
    }
  }

  lemma ExtendsFlow(x: Slot, y: Slot)
    requires Extends(x, y)
    ensures y.conf == x.conf && HandedOver(x.conf, x.flow, y.flow)
  {}

  // ----- What the buffers hold -----

  /** In every state: with INLINE callbacks what was admitted has been handed on; under DROP_OLDEST the queue
      holds the most recent frames admitted, and the buffer the most recent that arrived. */
  lemma MostRecentKept(opts: Opts, states: seq<Session>, events: seq<Event>, k: nat, key: Key)
    requires Run(opts, states, events) && k < |states| && Holds(states[k].subs, states[k].past, key)
    ensures var slot := SlotOf(states[k].subs, states[k].past, key);
            var w := slot.flow;
            && (slot.conf.mode.Inline? ==> w.delivered == w.admitted && w.queue == [])
            && (slot.conf.policy.DropOldest? ==> EndsWith(w.arrived, w.pending))
            && (slot.conf.policy.DropOldest? && slot.conf.mode.Dispatched? ==> EndsWith(w.admitted, w.queue))
  {
    SlotLawful(opts, states, events, k, key);
    hide Run, Holds, OutInOrder, InOrder, Accounted, Tied, Gated, Narrated, Positioned;
  }

  // ----- Every push reaches its slot -----

  lemma PushArrives(slot: Slot, f: Frame)
    requires Lawful(slot) && !slot.state.Closed?
    ensures var w, y := slot.flow, Push(slot, f);
            && y.flow.arrived == w.arrived + [f] && y.state == slot.state && y.serial == slot.serial
            && (slot.state.Pending? && |w.pending| < slot.conf.queueSize ==> y.flow.pending == w.pending + [f])
            && (slot.state.Active? && (slot.semantics.Telemetry? || f.number == 0 || slot.lastSeq == 0 || f.number > slot.lastSeq) ==>
                  y.flow.admitted == w.admitted + [f])
            && (slot.state.Active? && slot.semantics.EventStream? && f.number > 0 ==>
                  y.lastSeq == if f.number > slot.lastSeq then f.number else slot.lastSeq)
  {}

  /** A pushed frame arrives at the slot registered for its topic: a waiting one buffers it as long as there is
      room, an active one admits it unless it is a duplicate or a regression of an EVENT stream, whose position
      moves to it; no other slot, and nothing else of the session, changes. */
  lemma PushReachesSlot(s: Session, t: Topic, f: Frame)
    requires Inv(s)
    ensures var s' := Step(s, Pushed(t, f));
            if t !in s.subs then s' == s
            else
              && s' == s.(subs := s'.subs) && t in s'.subs && s'.subs - {t} == s.subs - {t}
              && var x, y := s.subs[t], s'.subs[t];
                 && y.flow.arrived == x.flow.arrived + [f] && y.state == x.state && y.serial == x.serial
                 && (x.state.Pending? && |x.flow.pending| < x.conf.queueSize ==> y.flow.pending == x.flow.pending + [f])
                 && (x.state.Active? && (x.semantics.Telemetry? || f.number == 0 || x.lastSeq == 0 || f.number > x.lastSeq) ==>
                       y.flow.admitted == x.flow.admitted + [f])
                 && (x.state.Active? && x.semantics.EventStream? && f.number > 0 ==>
                       y.lastSeq == if f.number > x.lastSeq then f.number else x.lastSeq)
  {
    hide Inv, Push, Lawful;
    if t in s.subs {
      HeldOpen(s, t);
      PushArrives(s.subs[t], f);
      assert s.subs[t := Push(s.subs[t], f)] - {t} == s.subs - {t};
    }
  }

  lemma HeldOpen(s: Session, t: Topic)
    requires Inv(s) && t in s.subs
    ensures Lawful(s.subs[t]) && !s.subs[t].state.Closed?
  {
    hide Books, Awaited, AllSettled, Phases, ReplayTracked, WireOk, Limited, BarrierOk, Archived, Lawful;
    assert Held(s.subs[t], t, s.table.asked);
  }
}
