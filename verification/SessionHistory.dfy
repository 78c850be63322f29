/** What no handler undoes: how calls ended, the options, the intent, the attempts, the announcements. */
module SessionHistory {
  import opened Flows
  import opened Chronicles
  import opened Streams
  import opened Sessions
  import opened SessionInvariant

  // ----- Calls -----

  /** From `b` on every call in flight stays in flight or has ended, for good, if answered then by the
      answer with its own id; and ids are never reused. */
  ghost predicate CallsKept(b: Table, b': Table) {
    && b.nextRid <= b'.nextRid
    && (forall r :: r in b.ended ==> r in b'.ended && b'.ended[r] == b.ended[r])
    && (forall r :: r in b.inflight ==> r in b'.ended || (r in b'.inflight && b'.inflight[r] == b.inflight[r]))
    && (forall r :: r in b'.inflight ==> r in b.inflight || b.nextRid <= r)
    && (forall r :: r in b'.ended ==> r in b.ended || r in b.inflight || b.nextRid <= r)
    && (forall r :: r in b'.ended && r !in b.ended && b'.ended[r].Answered? ==> b'.ended[r].rid == r)
  }

  ghost predicate Later(b: Table, b': Table) {
    Books(b) ==> Books(b') && CallsKept(b, b')
  }

  lemma LaterTrans(b: Table, b1: Table, b2: Table)
    requires Later(b, b1) && Later(b1, b2)
    ensures Later(b, b2)
  {}

  lemma LaterNext(b: Table, t: Topic)
    ensures Later(b, b) && Later(b, NextRid(b)) && Later(b, Asked(NextRid(b), b.nextRid, t))
  {}

  lemma LaterUnasked(b: Table, rid: nat)
    ensures Later(b, Unasked(b, rid))
  {}

  lemma LaterRegistered(b: Table, kind: Rpc)
    ensures Later(b, Register(NextRid(b), b.nextRid, kind))
  {}

  lemma LaterNotSent(b: Table)
    ensures Later(b, Resolve(NextRid(b), b.nextRid, NotSent))
  {}

  lemma LaterResolved(b: Table, rid: nat, o: Outcome)
    requires rid in b.inflight && (o.Answered? ==> o.rid == rid)
    ensures Later(b, Resolve(b, rid, o))
  {}

  lemma LaterFlushed(b: Table, cat: Category)
    ensures Later(b, Flush(b, cat))
  {}

  // ----- Timers -----

  /** Every timer was already sleeping, or was set for the attempt after `attempt` by a session that went down. */
  ghost predicate Timed(attempt: nat, timers: map<nat, nat>, timers': map<nat, nat>, down: bool) {
    forall i :: i in timers' ==> (i in timers && timers'[i] == timers[i]) || (timers'[i] == attempt + 1 && down)
  }

  predicate GoneDown(s: Session) {
    s.state.TransientFailure? || Terminal(s)
  }

  lemma TimedTrans(attempt: nat, k: map<nat, nat>, k1: map<nat, nat>, k2: map<nat, nat>, down1: bool, down2: bool)
    requires Timed(attempt, k, k1, down1) && Timed(attempt, k1, k2, down2) && (down1 ==> down2)
    ensures Timed(attempt, k, k2, down2)
  {}

  lemma TimedSame(attempt: nat, k: map<nat, nat>, down: bool)
    ensures Timed(attempt, k, k, down)
  {}

  // ----- Slots, registered or gone -----

  ghost predicate Holds(subs: map<Topic, Slot>, p: Past, k: Key) {
    (k.topic in subs && subs[k.topic].serial == k.serial) || k in p.retired
  }

  ghost function SlotOf(subs: map<Topic, Slot>, p: Past, k: Key): Slot
    requires Holds(subs, p, k)
  {
    if k.topic in subs && subs[k.topic].serial == k.serial then subs[k.topic] else p.retired[k]
  }

  /** The same slot later on: nothing it has told, admitted or handed to the callback is taken back, and under
      DROP_NEWEST nothing it has queued. */
  ghost predicate Extends(x: Slot, x': Slot) {
    && x'.topic == x.topic && x'.serial == x.serial && x'.conf == x.conf
    && x.log <= x'.log && x.flow.admitted <= x'.flow.admitted && HandedOver(x.conf, x.flow, x'.flow)
  }

  ghost predicate HandedOver(c: Conf, w: Flow, w': Flow) {
    && w.delivered <= w'.delivered
    && (c.mode.Dispatched? && c.policy.DropNewest? ==> w.delivered + w.queue <= w'.delivered + w'.queue)
  }

  /** The registry and its history: every slot ever registered is either still registered, and open, or has
      left, closed unless it was pushed out; its serial is its place in the order of registration. */
  ghost predicate Rolled(subs: map<Topic, Slot>, p: Past) {
    && (forall t :: t in subs ==>
          && subs[t].topic == t && !subs[t].state.Closed?
          && subs[t].serial < |p.born| && p.born[subs[t].serial] == t && Key(t, subs[t].serial) !in p.retired)
    && (forall k :: k in p.retired ==>
          && k.serial < |p.born| && p.born[k.serial] == k.topic
          && (p.retired[k].state.Closed? <==> k !in p.displaced))
    && (forall n :: 0 <= n < |p.born| ==> Holds(subs, p, Key(p.born[n], n)))
    && p.displaced <= p.retired.Keys
  }

  /** No slot is forgotten or rewritten. */
  ghost predicate Remembered(subs: map<Topic, Slot>, p: Past, subs': map<Topic, Slot>, p': Past) {
    && p.born <= p'.born
    && forall k :: Holds(subs, p, k) ==> Holds(subs', p', k) && Extends(SlotOf(subs, p, k), SlotOf(subs', p', k))
  }

  ghost predicate Rolls(subs: map<Topic, Slot>, p: Past, subs': map<Topic, Slot>, p': Past) {
    Rolled(subs, p) ==> Rolled(subs', p') && Remembered(subs, p, subs', p')
  }

  lemma RollsSame(subs: map<Topic, Slot>, p: Past)
    ensures Rolls(subs, p, subs, p)
  {}

  lemma RollsTrans(subs: map<Topic, Slot>, p: Past, subs1: map<Topic, Slot>, p1: Past, subs2: map<Topic, Slot>, p2: Past)
    requires Rolls(subs, p, subs1, p1) && Rolls(subs1, p1, subs2, p2)
    ensures Rolls(subs, p, subs2, p2)
  {
    if Rolled(subs, p) {
      hide Rolled, Holds;
      forall k | Holds(subs, p, k)
        ensures Holds(subs2, p2, k) && Extends(SlotOf(subs, p, k), SlotOf(subs2, p2, k))
      {
        ExtendsTrans(SlotOf(subs, p, k), SlotOf(subs1, p1, k), SlotOf(subs2, p2, k));
      }
    }
  }

  lemma ExtendsTrans(x: Slot, y: Slot, z: Slot)
    requires Extends(x, y) && Extends(y, z)
    ensures Extends(x, z)
  {}

  /** Every slot changes without leaving. */
  lemma RollsMap(subs: map<Topic, Slot>, p: Past, subs': map<Topic, Slot>)
    requires subs'.Keys == subs.Keys
    requires forall t :: t in subs ==> Extends(subs[t], subs'[t]) && (subs'[t].state.Closed? ==> subs[t].state.Closed?)
    ensures Rolls(subs, p, subs', p)
  {
    if Rolled(subs, p) {
      forall k
        ensures Holds(subs, p, k) <==> Holds(subs', p, k)
        ensures Holds(subs, p, k) ==> Extends(SlotOf(subs, p, k), SlotOf(subs', p, k))
      {}
    }
  }

  lemma RollsSlot(subs: map<Topic, Slot>, p: Past, t: Topic, slot: Slot)
    requires t in subs && Extends(subs[t], slot) && (slot.state.Closed? ==> subs[t].state.Closed?)
    ensures Rolls(subs, p, subs[t := slot], p)
  {
    hide Rolls;
    RollsMap(subs, p, subs[t := slot]);
  }

  lemma ClosedExtends(slot: Slot)
    ensures Extends(slot, Close(slot)) && Close(slot).state.Closed?
  {}

  lemma SelfExtends(x: Slot)
    ensures Extends(x, x)
  {}

  /** One entry of the history changes, without taking anything back. */
  lemma RollsPast(subs: map<Topic, Slot>, p: Past, k: Key, slot: Slot, displaced: set<Key>)
    requires k in p.retired && Extends(p.retired[k], slot)
    requires || (displaced == p.displaced - {k} && slot.state.Closed?)
             || (displaced == p.displaced && slot.state.Closed? == p.retired[k].state.Closed?)
    ensures Rolls(subs, p, subs, Past(p.born, p.retired[k := slot], displaced))
  {
    hide Extends;
    var p' := Past(p.born, p.retired[k := slot], displaced);
    forall j | Holds(subs, p, j)
      ensures Holds(subs, p', j) && (Rolled(subs, p) ==> Extends(SlotOf(subs, p, j), SlotOf(subs, p', j)))
    {
      SelfExtends(SlotOf(subs, p, j));
    }
  }

  /** One registered slot moves to the history. */
  lemma RollsOut(subs: map<Topic, Slot>, p: Past, t: Topic, slot: Slot, displaced: set<Key>)
    requires t in subs && Extends(subs[t], slot)
    requires displaced == if slot.state.Closed? then p.displaced else p.displaced + {Key(t, subs[t].serial)}
    ensures Rolls(subs, p, subs - {t}, Past(p.born, p.retired[Key(t, subs[t].serial) := slot], displaced))
  {
    hide Extends;
    var p' := Past(p.born, p.retired[Key(t, subs[t].serial) := slot], displaced);
    forall j | Holds(subs, p, j)
      ensures Holds(subs - {t}, p', j) && (Rolled(subs, p) ==> Extends(SlotOf(subs, p, j), SlotOf(subs - {t}, p', j)))
    {
      SelfExtends(SlotOf(subs, p, j));
    }
  }

  lemma RollsRetire(subs: map<Topic, Slot>, p: Past, t: Topic)
    requires t in subs
    ensures Rolls(subs, p, subs - {t}, Retire(p, t, subs[t]))
  {
    hide Extends, Close, Rolls;
    ClosedExtends(subs[t]);
    RollsOut(subs, p, t, Close(subs[t]), p.displaced);
  }

  lemma RollsDisplace(subs: map<Topic, Slot>, p: Past, t: Topic)
    requires t in subs
    ensures Rolls(subs, p, subs - {t}, Displace(p, t, subs[t]))
  {
    hide Extends;
    if Rolled(subs, p) {
      SelfExtends(subs[t]);
      RollsOut(subs, p, t, subs[t], p.displaced + {Key(t, subs[t].serial)});
    }
  }

  lemma RollsCloseAgain(subs: map<Topic, Slot>, p: Past, k: Key)
    ensures Rolls(subs, p, subs, CloseAgain(p, k))
  {
    hide Extends, Close, Rolls;
    if k in p.retired {
      ClosedExtends(p.retired[k]);
      RollsPast(subs, p, k, Close(p.retired[k]), p.displaced - {k});
    } else {
      RollsSame(subs, p);
    }
  }

  lemma RetiredAll(p: Past, subs: map<Topic, Slot>)
    ensures var p' := RetireAll(p, subs);
            && p'.born == p.born && p'.displaced == p.displaced
            && p.retired.Keys <= p'.retired.Keys
            && (forall t :: t in subs ==> Key(t, subs[t].serial) in p'.retired && p'.retired[Key(t, subs[t].serial)] == Close(subs[t]))
            && (forall k :: k in p'.retired ==>
                  (k.topic in subs && subs[k.topic].serial == k.serial) || (k in p.retired && p'.retired[k] == p.retired[k]))
  {
    hide Close;
  }

  lemma RollsRetireAll(subs: map<Topic, Slot>, p: Past)
    ensures Rolls(subs, p, map[], RetireAll(p, subs))
  {
    hide Extends, Close, RetireAll;
    var p' := RetireAll(p, subs);
    RetiredAll(p, subs);
    forall t | t in subs
      ensures Extends(subs[t], Close(subs[t])) && Close(subs[t]).state.Closed?
    {
      ClosedExtends(subs[t]);
    }
    if Rolled(subs, p) {
      forall j | Holds(subs, p, j)
        ensures Holds(map[], p', j) && Extends(SlotOf(subs, p, j), SlotOf(map[], p', j))
      {
        SelfExtends(SlotOf(subs, p, j));
      }
    }
  }

  lemma RollsNew(subs: map<Topic, Slot>, p: Past, t: Topic, slot: Slot)
    requires t !in subs && slot.topic == t && slot.serial == |p.born| && !slot.state.Closed?
    ensures Rolls(subs, p, subs[t := slot], p.(born := p.born + [t]))
  {}

  lemma WorkExtends(slot: Slot)
    ensures Extends(slot, Work(slot)) && Work(slot).state == slot.state
  {}

  lemma RollsWork(subs: map<Topic, Slot>, p: Past, k: Key)
    requires k in p.retired
    ensures Rolls(subs, p, subs, p.(retired := p.retired[k := Work(p.retired[k])]))
  {
    hide Extends, Work, Rolls;
    WorkExtends(p.retired[k]);
    RollsPast(subs, p, k, Work(p.retired[k]), p.displaced);
  }

  // ----- What the handlers do to a slot takes nothing back -----

  lemma DeliverExtends(s: Slot, f: Frame)
    ensures Extends(s, Deliver(s, f)) && Deliver(s, f).state == s.state
  {}

  lemma {:induction false} DrainExtends(s: Slot, next: nat)
    ensures Extends(s, Drain(s, next)) && Drain(s, next).state == s.state
    decreases |s.flow.pending|
  {
    hide Deliver, Extends;
    SelfExtends(s);
    if s.flow.pending != [] {
      var front, rest := s.flow.pending[0], s.(flow := s.flow.(pending := s.flow.pending[1..]));
      var s1 := if Stale(s, next, front) then rest.(flow := Drop(rest.flow)) else Deliver(rest, front);
      DeliverExtends(rest, front);
      PoppedExtends(s);
      ExtendsTrans(s, rest, s1);
      DrainExtends(s1, next);
      ExtendsTrans(s, s1, Drain(s1, next));
    }
  }

  lemma PoppedExtends(s: Slot)
    requires s.flow.pending != []
    ensures var rest := s.(flow := s.flow.(pending := s.flow.pending[1..]));
            Extends(s, rest) && Extends(rest, rest.(flow := Drop(rest.flow)))
  {}

  lemma ActivateExtends(s: Slot, next: nat)
    ensures Extends(s, Activate(s, next))
    ensures s.semantics.EventStream? ==> s.log + [Accepted(s.expectedResumeSeq, next)] <= Activate(s, next).log
  {
    hide Drain;
    DrainExtends(RestartTelemetry(s), 0);
    DrainExtends(Reposition(s, next), next);
  }

  lemma PushExtends(s: Slot, f: Frame)
    ensures Extends(s, Push(s, f)) && Push(s, f).state == s.state
  {
    hide Deliver;
    DeliverExtends(s.(flow := Arrive(s.flow, f)), f);
  }

  // ----- Handlers -----

  /** Nothing announced, nothing counted, nothing forgotten. */
  ghost predicate Quiet(s: Session, s': Session) {
    && s'.opts == s.opts && s'.engaged == s.engaged && s'.attempt == s.attempt && s'.totalCount == s.totalCount
    && (s'.state == s.state || s'.state.TransientFailure? || s'.state.Fatal?)
    && Later(s.table, s'.table)
    && Timed(s.attempt, s.tasks.timers, s'.tasks.timers, GoneDown(s'))
    && Rolls(s.subs, s.past, s'.subs, s'.past)
  }

  lemma QuietTrans(s: Session, s1: Session, s2: Session)
    requires Quiet(s, s1) && Quiet(s1, s2)
    ensures Quiet(s, s2)
  {
    hide Later, Timed, Rolls;
    LaterTrans(s.table, s1.table, s2.table);
    RollsTrans(s.subs, s.past, s1.subs, s1.past, s2.subs, s2.past);
    TimedTrans(s.attempt, s.tasks.timers, s1.tasks.timers, s2.tasks.timers, GoneDown(s1), GoneDown(s2));
  }

  lemma PauseExtends(slot: Slot)
    ensures Extends(slot, Pause(slot)) && (Pause(slot).state.Closed? ==> slot.state.Closed?)
  {}

  lemma LoseConnectionQuiet(s: Session, cat: Category)
    ensures Quiet(s, LoseConnection(s, cat))
  {
    hide Later, Flush, Rolls, Pause, Extends;
    LaterFlushed(s.table, cat);
    forall t | t in s.subs
      ensures Extends(s.subs[t], Pause(s.subs[t])) && (Pause(s.subs[t]).state.Closed? ==> s.subs[t].state.Closed?)
    {
      PauseExtends(s.subs[t]);
    }
    RollsMap(s.subs, s.past, map t | t in s.subs :: Pause(s.subs[t]));
  }

  lemma AbortBodyQuiet(s: Session, cat: Category)
    ensures Quiet(s, AbortBody(s, cat))
  {
    hide Later, Flush, Rolls, RetireAll;
    LaterFlushed(s.table, cat);
    RollsRetireAll(s.subs, s.past);
  }

  lemma HandshakeFailedQuiet(s: Session, cat: Category)
    ensures Quiet(s, HandshakeFailed(s, cat))
    ensures HandshakeFailed(s, cat).state.TransientFailure? || (HandshakeFailed(s, cat).state.Fatal? && cat.FatalError?)
  {
    hide Later, AbortBody, Rolls;
    LaterNext(s.table, "");
    RollsSame(s.subs, s.past);
    AbortBodyQuiet(s.(est := NoEst), cat);
    AbortBodyState(s.(est := NoEst), cat);
  }

  /** One unsubscribe resumes. */
  lemma LeaveQuiet(s: Session, k: Key)
    ensures Quiet(s, Leave(s, k))
  {
    hide Later, Timed, Rolls, Retire, Displace, CloseAgain;
    LaterNext(s.table, "");
    TimedSame(s.attempt, s.tasks.timers, GoneDown(s));
    var t := k.topic;
    if t in s.subs {
      if s.subs[t].serial == k.serial {
        RollsRetire(s.subs, s.past, t);
      } else {
        var p := Displace(s.past, t, s.subs[t]);
        RollsDisplace(s.subs, s.past, t);
        RollsCloseAgain(s.subs - {t}, p, k);
        RollsTrans(s.subs, s.past, s.subs - {t}, p, s.subs - {t}, CloseAgain(p, k));
      }
    } else {
      RollsCloseAgain(s.subs, s.past, k);
      assert s.subs - {t} == s.subs;
    }
  }

  lemma SelfQuiet(s: Session)
    ensures Quiet(s, s)
  {
    hide Rolls;
    RollsSame(s.subs, s.past);
    LaterNext(s.table, "");
  }

  lemma {:induction false} LeaveUpToQuiet(s: Session, calls: map<nat, Rpc>, n: nat)
    ensures Quiet(s, LeaveUpTo(s, calls, n))
  {
    hide Leave, Quiet;
    SelfQuiet(s);
    if n > 0 {
      LeaveUpToQuiet(s, calls, n - 1);
      var s1 := LeaveUpTo(s, calls, n - 1);
      if n - 1 in calls && calls[n - 1].Unsubscribing? {
        LeaveQuiet(s1, calls[n - 1].key);
        QuietTrans(s, s1, LeaveUpTo(s, calls, n));
      }
    }
  }

  lemma ReplayFailedQuiet(s: Session)
    ensures Quiet(s, ReplayFailed(s))
    ensures ReplayFailed(s).state == s.state || ReplayFailed(s).state.TransientFailure?
  {
    hide Later, Timed, Rolls, LoseConnection;
    SelfQuiet(s);
    var s1 := s.(barrier := s.barrier.(estopPending := false));
    LoseConnectionQuiet(s1, TransientError);
    LoseConnectionState(s1, TransientError);
  }

  lemma WakeQuiet(s: Session, before: Table, cat: Category)
    ensures Quiet(s, Wake(s, before, cat))
    ensures !cat.FatalError? && !Terminal(s) ==> !Terminal(Wake(s, before, cat))
  {
    hide Quiet, ReplayFailed, HandshakeFailed, ReplayOut, LeaveUpTo;
    var s1 := LeaveAll(s, before);
    LeaveUpToQuiet(s, before.inflight, before.nextRid);
    LeaveUpToKeeps(s, before.inflight, before.nextRid);
    ReplayFailedQuiet(s1);
    var s2 := if ReplayOut(before) then ReplayFailed(s1) else s1;
    if ReplayOut(before) {
      QuietTrans(s, s1, s2);
    }
    HandshakeFailedQuiet(s2, cat);
    if s2.est.AtHandshake? && s2.est.rid in before.inflight {
      QuietTrans(s, s2, HandshakeFailed(s2, cat));
    }
  }

  lemma OnTransportCloseQuiet(s: Session, cat: Category)
    ensures Quiet(s, OnTransportClose(s, cat))
    ensures var s' := OnTransportClose(s, cat);
            if Terminal(s) then s' == s else s'.state.TransientFailure? || (s'.state.Fatal? && cat.FatalError?)
  {
    LaterNext(s.table, "");
    RollsSame(s.subs, s.past);
    hide Later, Rolls, LoseConnection, Wake;
    if !Terminal(s) {
      LoseConnectionQuiet(s, cat);
      assert LoseConnection(s, cat).state.TransientFailure? by { LoseConnectionState(s, cat); }
      WakeQuiet(LoseConnection(s, cat), s.table, cat);
      QuietTrans(s, LoseConnection(s, cat), OnTransportClose(s, cat));
    }
  }

  lemma LoseConnectionState(s: Session, cat: Category)
    ensures LoseConnection(s, cat).state.TransientFailure?
  {}

  lemma AbortQuiet(s: Session, cat: Category)
    ensures Quiet(s, Abort(s, cat))
    ensures Abort(s, cat).state.TransientFailure? || Abort(s, cat).state.Fatal?
  {
    hide Later, Rolls, AbortBody, Wake;
    AbortBodyQuiet(s, cat);
    assert AbortBody(s, cat).state.Fatal? by { AbortBodyState(s, cat); }
    WakeQuiet(AbortBody(s, cat), s.table, cat);
    QuietTrans(s, AbortBody(s, cat), Abort(s, cat));
  }

  lemma AbortBodyState(s: Session, cat: Category)
    ensures AbortBody(s, cat).state.Fatal?
  {}

  lemma CallQuiet(s: Session, kind: Rpc, cmd: Command, sendOk: bool)
    ensures Quiet(s, Call(s.(table := NextRid(s.table)), s.table.nextRid, kind, cmd, sendOk))
  {
    hide Later, Rolls, NextRid, Register, Resolve;
    RollsSame(s.subs, s.past);
    LaterRegistered(s.table, kind);
    LaterNotSent(s.table);
  }

  /** One slot changes without taking anything back. */
  lemma SlotQuiet(s: Session, t: Topic, slot: Slot)
    requires t in s.subs && Extends(s.subs[t], slot) && (slot.state.Closed? ==> s.subs[t].state.Closed?)
    ensures Quiet(s, s.(subs := s.subs[t := slot]))
  {
    hide Later, Timed, Rolls, Extends;
    LaterNext(s.table, t);
    TimedSame(s.attempt, s.tasks.timers, GoneDown(s));
    RollsSlot(s.subs, s.past, t, slot);
  }

  lemma AskExtends(slot: Slot, rid: nat, sinceSeq: nat, reconnecting: bool)
    ensures var asked := Ask(slot, rid, sinceSeq, reconnecting);
            Extends(slot, asked) && Extends(slot, Unask(asked)) && asked.state.Pending? && Unask(asked).state.Pending?
  {}

  lemma UnregisterQuiet(s: Session, t: Topic)
    ensures Quiet(s, Unregister(s, t)) && Unregister(s, t).state == s.state
  {
    hide Later, Timed, Rolls, Retire;
    SelfQuiet(s);
    LaterNext(s.table, t);
    TimedSame(s.attempt, s.tasks.timers, GoneDown(s));
    if t in s.subs {
      RollsRetire(s.subs, s.past, t);
    } else {
      RollsSame(s.subs, s.past);
      assert s.subs - {t} == s.subs;
    }
  }

  lemma TableQuiet(s: Session, b: Table)
    requires Later(s.table, b)
    ensures Quiet(s, s.(table := b))
  {
    hide Later, Timed, Rolls;
    RollsSame(s.subs, s.past);
    TimedSame(s.attempt, s.tasks.timers, GoneDown(s));
  }

  lemma AskOutQuiet(s: Session, t: Topic, sinceSeq: nat)
    requires t in s.subs && s.open
    ensures Quiet(s, SendSubscribe(s, t, sinceSeq, SendOk)) && SendSubscribe(s, t, sinceSeq, SendOk).state == s.state
  {
    hide Later, Timed, Rolls, NextRid, Asked, OnTransportClose, Ask, Unask;
    LaterNext(s.table, t);
    TimedSame(s.attempt, s.tasks.timers, GoneDown(s));
    var slot := Ask(s.subs[t], s.table.nextRid, sinceSeq, s.state.Reconnecting?);
    AskExtends(s.subs[t], s.table.nextRid, sinceSeq, s.state.Reconnecting?);
    RollsSlot(s.subs, s.past, t, slot);
  }

  lemma AskNotQuiet(s: Session, t: Topic, sinceSeq: nat)
    requires t in s.subs
    ensures Quiet(s, SendSubscribe(s, t, sinceSeq, EncodeFails)) && SendSubscribe(s, t, sinceSeq, EncodeFails).state == s.state
  {
    hide Later, Rolls, NextRid, Unregister;
    LaterNext(s.table, t);
    var s1 := s.(table := NextRid(s.table));
    TableQuiet(s, NextRid(s.table));
    UnregisterQuiet(s1, t);
    QuietTrans(s, s1, Unregister(s1, t));
  }

  lemma AskLostQuiet(s: Session, t: Topic, sinceSeq: nat, send: SendResult)
    requires t in s.subs && !send.EncodeFails? && !(s.open && send.SendOk?)
    ensures Quiet(s, SendSubscribe(s, t, sinceSeq, send)) && (Terminal(SendSubscribe(s, t, sinceSeq, send)) ==> Terminal(s))
  {
    hide Later, Quiet, NextRid, OnTransportClose, Ask, Unask;
    LaterNext(s.table, t);
    var slot := Unask(Ask(s.subs[t], s.table.nextRid, sinceSeq, s.state.Reconnecting?));
    var s0 := s.(table := NextRid(s.table));
    var s1 := s0.(subs := s.subs[t := slot]);
    AskExtends(s.subs[t], s.table.nextRid, sinceSeq, s.state.Reconnecting?);
    TableQuiet(s, NextRid(s.table));
    SlotQuiet(s0, t, slot);
    QuietTrans(s, s0, s1);
    OnTransportCloseQuiet(s1, TransientError);
    QuietTrans(s, s1, OnTransportClose(s1, TransientError));
  }

  lemma SendSubscribeQuiet(s: Session, t: Topic, sinceSeq: nat, send: SendResult)
    requires t in s.subs
    ensures Quiet(s, SendSubscribe(s, t, sinceSeq, send)) && (Terminal(SendSubscribe(s, t, sinceSeq, send)) ==> Terminal(s))
  {
    hide Quiet, SendSubscribe;
    if send.EncodeFails? {
      AskNotQuiet(s, t, sinceSeq);
    } else if s.open && send.SendOk? {
      AskOutQuiet(s, t, sinceSeq);
    } else {
      AskLostQuiet(s, t, sinceSeq, send);
    }
  }

  lemma BeginRoundExtends(slot: Slot)
    ensures Extends(slot, BeginRound(slot)) && BeginRound(slot).state == slot.state
  {}

  lemma {:induction false} ResubscribeQuiet(s: Session, order: seq<Topic>, sends: seq<SendResult>)
    requires |order| == |sends|
    ensures Quiet(s, Resubscribe(s, order, sends))
    decreases |order|
  {
    hide Quiet, SendSubscribe, BeginRound;
    SelfQuiet(s);
    if order == [] {
    } else if order[0] !in s.subs {
      ResubscribeQuiet(s, order[1..], sends[1..]);
    } else {
      var slot := BeginRound(s.subs[order[0]]);
      var s1 := s.(subs := s.subs[order[0] := slot]);
      var since := SinceSeq(slot, s.opts.replayHistory);
      var s2 := SendSubscribe(s1, order[0], since, sends[0]);
      BeginRoundExtends(s.subs[order[0]]);
      SlotQuiet(s, order[0], slot);
      SendSubscribeQuiet(s1, order[0], since, sends[0]);
      QuietTrans(s, s1, s2);
      ResubscribeQuiet(s2, order[1..], sends[1..]);
      QuietTrans(s, s2, Resubscribe(s2, order[1..], sends[1..]));
    }
  }

  lemma {:induction false} SubscribeWaitingQuiet(s: Session, order: seq<Topic>, sends: seq<SendResult>)
    requires |order| == |sends|
    ensures Quiet(s, SubscribeWaiting(s, order, sends))
    decreases |order|
  {
    hide Later, Rolls, SendSubscribe;
    LaterNext(s.table, "");
    RollsSame(s.subs, s.past);
    if order == [] {
    } else if order[0] in s.subs && s.subs[order[0]].state.Pending? && s.subs[order[0]].inflightId == 0 {
      var s1 := SendSubscribe(s, order[0], 0, sends[0]);
      SendSubscribeQuiet(s, order[0], 0, sends[0]);
      SubscribeWaitingQuiet(s1, order[1..], sends[1..]);
      QuietTrans(s, s1, SubscribeWaiting(s1, order[1..], sends[1..]));
    } else {
      SubscribeWaitingQuiet(s, order[1..], sends[1..]);
    }
  }

  lemma RetryQuiet(s: Session)
    ensures var s' := Schedule(s.(est := NoEst, state := TransientFailure));
            Quiet(s, s') && s'.state.TransientFailure?
  {
    hide Later, Rolls;
    LaterNext(s.table, "");
    RollsSame(s.subs, s.past);
  }

  lemma ConnectFailedQuiet(s: Session, cat: Category)
    requires s.est.AtConnect?
    ensures var s' := Connected(s, false, cat, false, false);
            Quiet(s, s') && (s'.state.TransientFailure? || s'.state.Fatal?)
  {
    hide Later, Timed, Rolls, Abort, Schedule;
    RetryQuiet(s);
    AbortQuiet(s.(est := NoEst), cat);
  }

  lemma OpenedQuiet(s: Session, cat: Category, sendOk: bool)
    requires s.est.AtConnect?
    ensures var s' := Connected(s, true, cat, true, sendOk);
            Quiet(s, s') && (s'.est.AtHandshake? || s'.state.TransientFailure? || s'.state.Fatal?)
  {
    hide Later, Timed, Rolls, NextRid, Register, Resolve, HandshakeFailed;
    var s2 := s.(open := true, wire := Wire(s.est.reconnect, s.engaged, false, false, []));
    CallQuiet(s2, Handshake, CmdHandshake, sendOk);
    if !sendOk {
      var s3 := Call(s2.(table := NextRid(s.table)), s.table.nextRid, Handshake, CmdHandshake, false);
      HandshakeFailedQuiet(s3, TransientError);
      QuietTrans(s2, s3, HandshakeFailed(s3, TransientError));
    }
  }

  lemma ConnectedQuiet(s: Session, ok: bool, cat: Category, encodeOk: bool, sendOk: bool)
    requires s.est.AtConnect?
    ensures var s' := Connected(s, ok, cat, encodeOk, sendOk);
            Quiet(s, s') && (s'.est.AtHandshake? || s'.state.TransientFailure? || s'.state.Fatal?)
  {
    hide Quiet, Connected;
    if !ok {
      ConnectFailedQuiet(s, cat);
      ConnectOutcome(s, cat, encodeOk, sendOk);
    } else if encodeOk {
      OpenedQuiet(s, cat, sendOk);
    } else {
      UnencodedQuiet(s, cat, sendOk);
    }
  }

  /** A connect that has failed has no other outcome. */
  lemma ConnectOutcome(s: Session, cat: Category, encodeOk: bool, sendOk: bool)
    requires s.est.AtConnect?
    ensures Connected(s, false, cat, encodeOk, sendOk) == Connected(s, false, cat, false, false)
  {}

  lemma UnencodedQuiet(s: Session, cat: Category, sendOk: bool)
    requires s.est.AtConnect?
    ensures var s' := Connected(s, true, cat, false, sendOk);
            Quiet(s, s') && (s'.state.TransientFailure? || s'.state.Fatal?)
  {
    hide Later, Timed, Rolls, NextRid, Abort;
    LaterNext(s.table, "");
    RollsSame(s.subs, s.past);
    TimedSame(s.attempt, s.tasks.timers, GoneDown(s));
    var s1 := s.(table := NextRid(s.table), open := true, wire := Wire(s.est.reconnect, s.engaged, false, false, []), est := NoEst);
    AbortQuiet(s1, cat);
    QuietTrans(s, s1, Abort(s1, cat));
  }

  lemma StartReplayQuiet(s: Session, sendOk: bool)
    ensures Quiet(s, StartReplay(s, sendOk)) && (Terminal(StartReplay(s, sendOk)) ==> Terminal(s))
    ensures StartReplay(s, sendOk).state.Ready? ==> s.state.Ready?
  {
    hide Later, Rolls, NextRid, Register, Resolve, OnTransportClose;
    var s0 := s.(tasks := s.tasks.(replayQueued := false));
    var s1 := Call(s0.(table := NextRid(s.table)), s.table.nextRid, Replay, CmdReplay, sendOk);
    CallQuiet(s0, Replay, CmdReplay, sendOk);
    if !(s.open && sendOk) {
      var s2 := s1.(barrier := s1.barrier.(estopPending := false));
      OnTransportCloseQuiet(s2, TransientError);
      QuietTrans(s0, s2, StartReplay(s, sendOk));
    }
  }

  lemma BeatQuiet(s: Session, live: bool, sendOk: bool)
    ensures Quiet(s, Beat(s, live, sendOk)) && (Terminal(Beat(s, live, sendOk)) ==> Terminal(s))
  {
    hide Later, Rolls, NextRid, Register, Resolve, OnTransportClose;
    LaterNext(s.table, "");
    RollsSame(s.subs, s.past);
    CallQuiet(s, Ping, CmdBusiness(Ping), sendOk);
    var s1 := Call(s.(table := NextRid(s.table)), s.table.nextRid, Ping, CmdBusiness(Ping), sendOk);
    OnTransportCloseQuiet(s1, TransientError);
    if s.open && live && !sendOk {
      QuietTrans(s, s1, OnTransportClose(s1, TransientError));
    }
  }

  lemma NewSlotQuiet(s: Session, t: Topic, slot: Slot)
    requires t !in s.subs && slot.topic == t && slot.serial == |s.past.born| && !slot.state.Closed?
    ensures Quiet(s, s.(subs := s.subs[t := slot], past := s.past.(born := s.past.born + [t])))
  {
    hide Later, Timed, Rolls;
    LaterNext(s.table, t);
    TimedSame(s.attempt, s.tasks.timers, GoneDown(s));
    RollsNew(s.subs, s.past, t, slot);
  }

  lemma SubscribeQuiet(s: Session, t: Topic, send: SendResult)
    ensures Quiet(s, Subscribe(s, t, send)) && (Terminal(Subscribe(s, t, send)) ==> Terminal(s))
  {
    hide Quiet, SendSubscribe;
    SelfQuiet(s);
    if t !in s.subs {
      var slot := NewSlot(t, |s.past.born|, s.opts.conf, SemanticsOf(s.catalog, t));
      var s1 := s.(subs := s.subs[t := slot], past := s.past.(born := s.past.born + [t]));
      NewSlotQuiet(s, t, slot);
      SendSubscribeQuiet(s1, t, 0, send);
      if s.state.Ready? {
        QuietTrans(s, s1, SendSubscribe(s1, t, 0, send));
      }
    }
  }

  lemma AbandonQuiet(s: Session, t: Topic)
    requires t in s.subs
    ensures Quiet(s, Abandon(s, t)) && Abandon(s, t).state == s.state
  {
    hide Later, Timed, Rolls, Unregister;
    UnregisterQuiet(s, t);
  }

  lemma DropQuiet(s: Session, t: Topic, kind: Rpc, sendOk: bool)
    ensures var s1 := s.(table := NextRid(s.table));
            var s' := Unregister(if sendOk then Transmit(s1, Sent(CmdBusiness(kind))) else s1, t);
            Quiet(s, s') && s'.state == s.state
  {
    hide Later, Timed, Rolls, NextRid, Unregister;
    LaterNext(s.table, t);
    TableQuiet(s, NextRid(s.table));
    var s1 := s.(table := NextRid(s.table));
    var s2 := if sendOk then Transmit(s1, Sent(CmdBusiness(kind))) else s1;
    UnregisterQuiet(s2, t);
    QuietTrans(s, s2, Unregister(s2, t));
  }

  lemma CallState(s: Session, rid: nat, kind: Rpc, cmd: Command, sendOk: bool)
    ensures Call(s, rid, kind, cmd, sendOk).state == s.state
  {}

  lemma UnsubscribeQuiet(s: Session, t: Topic, syncWait: bool, live: bool, sendOk: bool)
    ensures Quiet(s, Unsubscribe(s, t, syncWait, live, sendOk)) && (Terminal(Unsubscribe(s, t, syncWait, live, sendOk)) ==> Terminal(s))
  {
    hide Quiet, Abandon, Unregister, Call, Transmit, NextRid;
    SelfQuiet(s);
    if t in s.subs {
      var kind := Unsubscribing(Key(t, s.subs[t].serial));
      if !s.state.Ready? || !s.open || !live {
        AbandonQuiet(s, t);
      } else if !syncWait {
        DropQuiet(s, t, kind, sendOk);
      } else {
        var s1 := Call(s.(table := NextRid(s.table)), s.table.nextRid, kind, CmdBusiness(kind), sendOk);
        CallQuiet(s, kind, CmdBusiness(kind), sendOk);
        CallState(s.(table := NextRid(s.table)), s.table.nextRid, kind, CmdBusiness(kind), sendOk);
        if !sendOk {
          UnregisterQuiet(s1, t);
          QuietTrans(s, s1, Unregister(s1, t));
        }
      }
    }
  }

  lemma WorkOnQuiet(s: Session, k: Key)
    ensures Quiet(s, WorkOn(s, k)) && WorkOn(s, k).state == s.state
  {
    hide Later, Timed, Rolls, Work;
    SelfQuiet(s);
    LaterNext(s.table, "");
    TimedSame(s.attempt, s.tasks.timers, GoneDown(s));
    if Registered(s, k) {
      WorkExtends(s.subs[k.topic]);
      SlotQuiet(s, k.topic, Work(s.subs[k.topic]));
    } else if k in s.past.retired {
      RollsWork(s.subs, s.past, k);
    }
  }
}
