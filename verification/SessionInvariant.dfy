/** What every reachable session state satisfies. */
module SessionInvariant {
  import opened Flows
  import opened Chronicles
  import opened Streams
  import opened StreamLaws
  import opened Sessions

  // ----- The tables -----

  /** Request ids and the four tables keyed by them. */
  ghost predicate Books(b: Table) {
    && b.asked.Keys == b.ackTimers
    && b.asked.Keys !! b.inflight.Keys
    && b.ended.Keys !! b.inflight.Keys
    && 1 <= b.nextRid
    && (forall r :: r in b.asked ==> 1 <= r < b.nextRid)
    && (forall r :: r in b.inflight ==> 1 <= r < b.nextRid)
    && (forall r :: r in b.ended ==> 1 <= r < b.nextRid)
  }

  /** The calls whose outcome the engine itself awaits: at most one replay, and a handshake exactly when
      `_establish` is suspended on it. */
  ghost predicate Awaited(b: Table, est: Est) {
    && (est.AtHandshake? ==> est.rid in b.inflight && b.inflight[est.rid] == Handshake)
    && (forall r :: r in b.inflight && b.inflight[r] == Handshake ==> est.AtHandshake? && r == est.rid)
    && (forall r, q :: r in b.inflight && q in b.inflight && b.inflight[r] == Replay && b.inflight[q] == Replay ==> r == q)
  }

  /** Outside READY nothing else is in flight. */
  ghost predicate OnlyOwn(b: Table) {
    forall r :: r in b.inflight ==> b.inflight[r] == Handshake || b.inflight[r] == Replay
  }

  // ----- The registry -----

  /** A registered slot: keyed by its own topic, open, lawful, and outstanding only under its own id. */
  ghost predicate Held(slot: Slot, t: Topic, asked: map<nat, Topic>) {
    && slot.topic == t
    && Lawful(slot)
    && !slot.state.Closed?
    && (slot.inflightId != 0 ==> slot.state.Pending? && slot.inflightId in asked && asked[slot.inflightId] == t)
  }

  ghost predicate AllHeld(subs: map<Topic, Slot>, asked: map<nat, Topic>) {
    forall t :: t in subs ==> Held(subs[t], t, asked)
  }

  /** A slot that has been active, or was cut off, is never left waiting: it is asked again, and only within
      a round. */
  ghost predicate AllSettled(subs: map<Topic, Slot>, state: ConnState) {
    && (forall t :: t in subs && subs[t].state.Pending? && Resumes(subs[t]) ==>
          subs[t].inflightId != 0 && state.Reconnecting?)
    && (forall t :: t in subs && subs[t].state.Paused? ==> !state.Shutdown? && !state.Fatal?)
  }

  ghost predicate NoneActive(subs: map<Topic, Slot>) {
    forall t :: t in subs ==> !subs[t].state.Active?
  }

  // ----- Which coroutines can be suspended in which state -----

  ghost predicate Phases(s: Session) {
    && (s.state.Idle? || s.state.TransientFailure? || s.state.Ready? ==> s.est.NoEst?)
    && (s.state.Connecting? ==> !s.est.NoEst? && !s.est.reconnect)
    && (s.state.Reconnecting? && !s.est.NoEst? ==> s.est.reconnect)
    && (!s.est.NoEst? || s.state.Idle? || s.state.TransientFailure? ==> s.table.asked == map[] && NoneActive(s.subs))
    && (s.est.AtConnect? || s.state.Idle? || s.state.TransientFailure? ==> s.table.inflight == map[])
    && (!s.est.NoEst? || s.state.Idle? || s.state.Ready? ==> !s.barrier.estopPending)
    && (!s.state.Ready? ==> OnlyOwn(s.table))
    && (s.est.AtConnect? || s.state.Idle? || s.state.TransientFailure? ==> !s.open)
    && (s.est.AtHandshake? || s.state.Ready? || (s.state.Reconnecting? && s.est.NoEst?) ==> s.open)
    && (s.table.inflight != map[] ==> s.open)
  }

  /** The barrier waits for a replay exactly while one is queued or in flight. */
  ghost predicate ReplayTracked(s: Session) {
    && (s.barrier.estopPending <==> s.tasks.replayQueued || ReplayOut(s.table))
    && !(s.tasks.replayQueued && ReplayOut(s.table))
  }

  // ----- The barrier -----

  ghost function Unanswered(subs: map<Topic, Slot>): set<Topic> {
    set t | t in subs && subs[t].inflightId != 0
  }

  /** A reconnect has passed its handshake and waits for its slots and its replay. */
  predicate Waiting(s: Session) {
    s.state.Reconnecting? && s.est.NoEst?
  }

  /** The counter is exactly the slots still asked plus those that left without being counted; `todo` are
      the slots the round has not asked yet. Every other slot of the round is answered or still asked, and a slot
      registered since the round began waits unasked. */
  ghost predicate Counted(subs: map<Topic, Slot>, b: Barrier, todo: seq<Topic>) {
    && b.subsPending == |Unanswered(subs)| + |todo| + b.lost
    && (forall t :: t in b.round ==> t in subs && (t in todo || subs[t].state.Active? || subs[t].inflightId != 0))
    && (forall t :: t in subs && t !in b.round ==> subs[t].state.Pending? && subs[t].inflightId == 0)
  }

  ghost predicate BarrierOk(s: Session) {
    Waiting(s) ==> Counted(s.subs, s.barrier, []) && (s.barrier.subsPending > 0 || s.barrier.estopPending)
  }

  // ----- The wire -----

  /** Anything but handshake, subscribe and replay. */
  predicate Business(e: WireEvent) {
    e.Sent? && e.cmd.CmdBusiness?
  }

  /** No business command precedes the accepted replay. */
  ghost predicate Cautious(log: seq<WireEvent>) {
    forall i :: 0 <= i < |log| && Business(log[i]) ==> exists j :: 0 <= j < i && log[j] == ReplayAccepted
  }

  /** A connection that owes a replay: opened by a reconnect while the stop was engaged. */
  predicate Owes(w: Wire) {
    w.reconnect && w.engaged
  }

  ghost predicate WireLawful(w: Wire) {
    && (Owes(w) ==> Cautious(w.log))
    && (!Owes(w) ==> Sent(CmdReplay) !in w.log)
  }

  ghost predicate WireOk(s: Session) {
    && WireLawful(s.wire)
    && (s.est.AtHandshake? ==> s.wire.reconnect == s.est.reconnect && s.wire.engaged == s.engaged && !s.wire.waited && !s.wire.quit)
    && (s.barrier.estopPending ==> Owes(s.wire) && s.engaged)
    && (Owes(s.wire) && (s.state.Ready? || Waiting(s)) ==> s.barrier.estopPending || ReplayAccepted in s.wire.log)
    && (s.heartbeat ==> s.state.Ready?)
    && (s.state.Ready? ==> (s.heartbeat <==> s.opts.heartbeatOn && !s.wire.waited && !s.wire.quit))
    && (Waiting(s) || s.barrier.estopPending ==> s.wire.waited)
  }

  // ----- Slots that have left -----

  /** Every slot that has left the registry kept its laws. */
  ghost predicate Archived(p: Past) {
    forall k :: k in p.retired ==> Lawful(p.retired[k])
  }

  // ----- Attempts -----

  ghost predicate Limited(maxAttempts: int, attempt: nat, k: Tasks) {
    && k.reconnectTask < k.nextTask
    && (forall i :: i in k.timers ==> i < k.nextTask && 1 <= k.timers[i])
    && (0 <= maxAttempts ==> attempt <= maxAttempts && forall i :: i in k.timers ==> k.timers[i] <= maxAttempts)
  }

  ghost predicate Core(s: Session) {
    && Books(s.table) && Awaited(s.table, s.est)
    && AllHeld(s.subs, s.table.asked) && AllSettled(s.subs, s.state)
    && Phases(s) && ReplayTracked(s) && WireOk(s)
    && Limited(s.opts.maxAttempts, s.attempt, s.tasks)
    && Archived(s.past)
  }

  ghost predicate Inv(s: Session) {
    Core(s) && BarrierOk(s)
  }

  lemma InitInv(opts: Opts)
    ensures Inv(Init(opts))
  {}

  // ----- Leaving -----

  lemma RetireArchived(p: Past, t: Topic, slot: Slot)
    requires Archived(p) && Lawful(slot)
    ensures Archived(Retire(p, t, slot)) && Archived(Displace(p, t, slot))
  {
    hide Lawful;
    CloseLawful(slot);
  }

  lemma CloseAgainArchived(p: Past, k: Key)
    requires Archived(p)
    ensures Archived(CloseAgain(p, k))
  {
    hide Lawful;
    if k in p.retired {
      CloseLawful(p.retired[k]);
    }
  }

  lemma RetireAllArchived(p: Past, subs: map<Topic, Slot>, asked: map<nat, Topic>)
    requires Archived(p) && AllHeld(subs, asked)
    ensures Archived(RetireAll(p, subs))
  {
    hide Lawful, Close;
    forall t | t in subs
      ensures Lawful(Close(subs[t]))
    {
      assert Held(subs[t], t, asked);
      CloseLawful(subs[t]);
    }
  }

  lemma HeldAt(subs: map<Topic, Slot>, asked: map<nat, Topic>, t: Topic)
    requires AllHeld(subs, asked) && t in subs
    ensures Held(subs[t], t, asked) && Lawful(subs[t])
  {
    hide Lawful;
  }

  lemma UnregisterArchived(s: Session, t: Topic)
    requires Archived(s.past) && AllHeld(s.subs, s.table.asked)
    ensures Archived(Unregister(s, t).past)
  {
    hide Lawful, Held, AllHeld, Archived, Retire;
    if t in s.subs {
      HeldAt(s.subs, s.table.asked, t);
      RetireArchived(s.past, t, s.subs[t]);
    }
  }

  lemma LeaveArchived(s: Session, k: Key)
    requires Archived(s.past) && AllHeld(s.subs, s.table.asked)
    ensures Archived(Leave(s, k).past)
  {
    hide Lawful, Held, AllHeld, Archived, Retire, Displace, CloseAgain, Unregister;
    UnregisterArchived(s, k.topic);
    if k.topic in s.subs {
      HeldAt(s.subs, s.table.asked, k.topic);
      RetireArchived(s.past, k.topic, s.subs[k.topic]);
      CloseAgainArchived(Displace(s.past, k.topic, s.subs[k.topic]), k);
    }
    CloseAgainArchived(s.past, k);
  }

  // ----- Timers -----

  lemma PlanLimited(k: Tasks, attempt: nat, maxAttempts: int)
    requires Limited(maxAttempts, attempt, k)
    ensures Limited(maxAttempts, attempt, PlanReconnect(k, attempt, maxAttempts))
  {}

  /** Scheduling touches nothing but the timers and the pending aborts. */
  lemma ScheduleFacts(s: Session)
    requires Limited(s.opts.maxAttempts, s.attempt, s.tasks)
    ensures var s' := Schedule(s);
            && s' == s.(tasks := s'.tasks)
            && s'.tasks.replayQueued == s.tasks.replayQueued
            && Limited(s.opts.maxAttempts, s.attempt, s'.tasks)
  {
    hide Limited;
    PlanLimited(s.tasks, s.attempt, s.opts.maxAttempts);
  }

  lemma CancelFacts(s: Session)
    requires Limited(s.opts.maxAttempts, s.attempt, s.tasks)
    ensures var s' := CancelReconnect(s);
            && s' == s.(tasks := s'.tasks, est := s'.est)
            && (s'.est == s.est || s'.est.NoEst?)
            && s'.tasks.replayQueued == s.tasks.replayQueued
            && Limited(s.opts.maxAttempts, s.attempt, s'.tasks)
  {}

  lemma FlushFacts(b: Table, cat: Category)
    requires Books(b)
    ensures var b' := Flush(b, cat);
            Books(b') && Awaited(b', NoEst) && OnlyOwn(b') && !ReplayOut(b')
  {}

  // ----- Losing the connection -----

  lemma PausedHeld(slot: Slot, t: Topic, asked: map<nat, Topic>)
    requires Held(slot, t, asked)
    ensures Held(Pause(slot), t, map[]) && Pause(slot).state.Paused?
  {
    PauseLawful(slot);
  }

  lemma AllPausedHeld(subs: map<Topic, Slot>, asked: map<nat, Topic>)
    requires AllHeld(subs, asked)
    ensures var subs' := map t | t in subs :: Pause(subs[t]);
            AllHeld(subs', map[]) && NoneActive(subs') && AllSettled(subs', TransientFailure)
  {
    hide Pause, Held;
    forall t | t in subs
      ensures Held(Pause(subs[t]), t, map[]) && Pause(subs[t]).state.Paused?
    {
      PausedHeld(subs[t], t, asked);
    }
  }

  /** What a handler that reports the loss of the connection has kept. */
  ghost predicate Losable(s: Session) {
    && Books(s.table) && AllHeld(s.subs, s.table.asked)
    && WireLawful(s.wire) && Limited(s.opts.maxAttempts, s.attempt, s.tasks)
    && Archived(s.past)
  }

  /** Between connections: everything asked or awaited is settled. */
  ghost predicate Down(s: Session) {
    && Losable(s)
    && s.table.asked == map[] && s.table.inflight == map[] && NoneActive(s.subs)
    && AllSettled(s.subs, s.state)
    && !s.heartbeat && !s.open
    && !s.state.Ready? && !s.state.Reconnecting? && !s.state.Connecting?
  }

  lemma LoseConnectionDown(s: Session, cat: Category)
    requires Losable(s)
    ensures var s' := LoseConnection(s, cat);
            && Down(s') && s'.state.TransientFailure?
            && s' == s.(state := s'.state, open := false, table := Flush(s.table, cat), subs := s'.subs, heartbeat := false, tasks := s'.tasks)
            && s'.tasks.replayQueued == s.tasks.replayQueued
  {
    hide AllHeld, AllSettled, NoneActive, Pause, Books, WireLawful, Limited, Archived, Schedule;
    FlushFacts(s.table, cat);
    AllPausedHeld(s.subs, s.table.asked);
    var s1 := s.(table := Flush(s.table, cat), subs := map t | t in s.subs :: Pause(s.subs[t]),
                 heartbeat := false, state := TransientFailure, open := false);
    ScheduleFacts(s1);
  }

  /** A session that is down, with nobody suspended but a queued replay or, once terminal, a connect in
      progress, satisfies the whole invariant. */
  lemma DownIsInv(s: Session)
    requires Down(s)
    requires s.est.NoEst? || (s.est.AtConnect? && Terminal(s) && !s.barrier.estopPending)
    requires s.state.TransientFailure? || Terminal(s)
    requires s.barrier.estopPending <==> s.tasks.replayQueued
    requires s.barrier.estopPending ==> Owes(s.wire) && s.engaged && s.wire.waited
    ensures Inv(s)
  {}

  lemma AbortBodyDown(s: Session, cat: Category)
    requires Losable(s)
    ensures var s' := AbortBody(s, cat);
            && Down(s') && s'.state.Fatal? && s'.subs == map[]
            && (s'.est == s.est || s'.est.NoEst?)
            && s'.barrier.estopPending == s.barrier.estopPending
            && s'.tasks.replayQueued == s.tasks.replayQueued
            && SameHistory(s, s')
  {
    hide Books, WireLawful, Limited, CancelReconnect, RetireAll, Archived;
    RetireAllArchived(s.past, s.subs, s.table.asked);
    FlushFacts(s.table, cat);
    CancelFacts(s.(table := Flush(s.table, cat), subs := map[], barrier := s.barrier.(round := {}),
                   heartbeat := false, state := Fatal, open := false, past := RetireAll(s.past, s.subs)));
  }

  /** `_establish` gives up: the session is down with no `_establish` suspended. */
  lemma HandshakeFailedDown(s: Session, cat: Category)
    requires Losable(s) && !s.heartbeat && s.table.asked == map[] && s.table.inflight == map[] && NoneActive(s.subs)
    requires AllSettled(s.subs, TransientFailure)
    ensures var s' := HandshakeFailed(s, cat);
            && Down(s') && s'.est.NoEst? && (s'.state.TransientFailure? || s'.state.Fatal?)
            && (s.subs == map[] ==> s'.subs == map[])
            && s'.barrier.estopPending == s.barrier.estopPending
            && s'.tasks.replayQueued == s.tasks.replayQueued
            && SameHistory(s, s')
  {
    hide Books, WireLawful, Limited, Archived, AbortBody, Schedule, AllHeld, AllSettled, NoneActive;
    AbortBodyDown(s.(est := NoEst), cat);
    ScheduleFacts(s.(est := NoEst, state := TransientFailure, open := false));
  }

  /** What the whole invariant says about the coroutines a loss of the connection wakes. */
  ghost predicate Wakeable(s: Session) {
    && Awaited(s.table, s.est) && ReplayTracked(s)
    && (!s.est.NoEst? ==> !s.barrier.estopPending)
    && (s.barrier.estopPending ==> Owes(s.wire) && s.engaged && s.wire.waited)
  }

  /** Unchanged by the loss of a connection. */
  ghost predicate SameHistory(s: Session, s': Session) {
    s'.wire == s.wire && s'.engaged == s.engaged && s'.opts == s.opts && s'.attempt == s.attempt && s'.totalCount == s.totalCount
  }

  /** What leaving slots keep: all but the registry and its history. */
  ghost predicate OnlyLeft(s: Session, s': Session) {
    && s' == s.(subs := s'.subs, barrier := s.barrier.(round := s'.barrier.round), past := s'.past)
    && s'.barrier.round <= s.barrier.round
    && forall t :: t in s'.subs ==> t in s.subs && s'.subs[t] == s.subs[t]
  }

  lemma LeaveKeeps(s: Session, k: Key)
    ensures Leave(s, k) == Removed(s, k.topic, Leave(s, k).past) && OnlyLeft(s, Leave(s, k))
  {
    hide Retire, Displace, CloseAgain, Registered;
  }

  lemma {:induction false} LeaveUpToKeeps(s: Session, calls: map<nat, Rpc>, n: nat)
    ensures OnlyLeft(s, LeaveUpTo(s, calls, n))
  {
    hide Leave, Removed;
    if n > 0 {
      LeaveUpToKeeps(s, calls, n - 1);
      if n - 1 in calls && calls[n - 1].Unsubscribing? {
        LeaveKeeps(LeaveUpTo(s, calls, n - 1), calls[n - 1].key);
      }
    }
  }

  lemma OnlyLeftDown(s: Session, s': Session)
    requires Down(s) && OnlyLeft(s, s') && Archived(s'.past)
    ensures Down(s')
  {
    hide Books, Held, WireLawful, Limited, Archived;
  }

  lemma {:induction false} LeaveUpToDown(s: Session, calls: map<nat, Rpc>, n: nat)
    requires Down(s)
    ensures Down(LeaveUpTo(s, calls, n))
  {
    hide Leave, Down, OnlyLeft;
    if n > 0 {
      LeaveUpToDown(s, calls, n - 1);
      var s1 := LeaveUpTo(s, calls, n - 1);
      if n - 1 in calls && calls[n - 1].Unsubscribing? {
        DownHeld(s1);
        LeaveKeeps(s1, calls[n - 1].key);
        LeaveArchived(s1, calls[n - 1].key);
        OnlyLeftDown(s1, Leave(s1, calls[n - 1].key));
      }
    }
  }

  lemma DownHeld(s: Session)
    requires Down(s)
    ensures Archived(s.past) && AllHeld(s.subs, s.table.asked)
  {}

  lemma LeaveAllDown(s: Session, b: Table)
    requires Down(s)
    ensures Down(LeaveAll(s, b)) && OnlyLeft(s, LeaveAll(s, b))
  {
    hide Down, OnlyLeft;
    LeaveUpToKeeps(s, b.inflight, b.nextRid);
    LeaveUpToDown(s, b.inflight, b.nextRid);
  }

  lemma ReplayFailedDown(s: Session)
    requires Down(s)
    ensures var s' := ReplayFailed(s);
            && Down(s') && SameHistory(s, s') && s'.est == s.est
            && (s.subs == map[] ==> s'.subs == map[])
            && !s'.barrier.estopPending && s'.tasks.replayQueued == s.tasks.replayQueued
            && (s'.state == s.state || (s'.state.TransientFailure? && !Terminal(s)))
  {
    var s1 := s.(barrier := s.barrier.(estopPending := false));
    LoseConnectionDown(s1, TransientError);
  }

  /** While the session is down its slots could wait for the next round. */
  lemma DownSettled(s: Session)
    requires Down(s)
    ensures AllSettled(s.subs, TransientFailure)
  {}

  /** The coroutines that a lost connection or a close wakes leave the session down and tidy. */
  lemma WakeDown(before: Session, s: Session, cat: Category)
    requires Down(s) && Wakeable(before)
    requires s.est == before.est || s.est.NoEst?
    requires s.barrier.estopPending == before.barrier.estopPending
    requires s.tasks.replayQueued == before.tasks.replayQueued
    requires SameHistory(before, s)
    ensures var s' := Wake(s, before.table, cat);
            && Down(s') && SameHistory(before, s')
            && (s'.barrier.estopPending <==> s'.tasks.replayQueued)
            && (s'.barrier.estopPending ==> before.barrier.estopPending)
            && (s'.est.NoEst? || (s'.est.AtConnect? && s'.est == s.est))
            && (s'.state == s.state || s'.state.TransientFailure? || (s'.state.Fatal? && s'.est.NoEst?))
            && (!s.est.AtHandshake? ==> s'.state == s.state || (s'.state.TransientFailure? && !Terminal(s)))
            && (s.subs == map[] ==> s'.subs == map[])
  {
    hide LoseConnection, HandshakeFailed, AllHeld, AllSettled, NoneActive, Books, WireLawful, Limited, Archived, LeaveAll;
    var s1 := LeaveAll(s, before.table);
    LeaveAllDown(s, before.table);
    ReplayFailedDown(s1);
    var s2 := if ReplayOut(before.table) then ReplayFailed(s1) else s1;
    DownSettled(s2);
    HandshakeFailedDown(s2, cat);
  }

  /** A reported loss of the connection keeps the invariant, whatever the handler had left unsettled. */
  lemma OnTransportCloseInv(s: Session, cat: Category)
    requires Losable(s) && Wakeable(s)
    requires Terminal(s) ==> Inv(s)
    requires s.est.AtConnect? ==> Terminal(s)
    ensures var s' := OnTransportClose(s, cat);
            && Inv(s') && SameHistory(s, s')
            && (Terminal(s) ==> s' == s)
            && (!Terminal(s) ==> Down(s') && s'.est.NoEst? && (s'.state.TransientFailure? || s'.state.Fatal?))
            && (!Terminal(s) && !s.est.AtHandshake? ==> s'.state.TransientFailure?)
  {
    if !Terminal(s) {
      hide LoseConnection, Wake, Losable;
      LoseConnectionDown(s, cat);
      WakeDown(s, LoseConnection(s, cat), cat);
      DownIsInv(OnTransportClose(s, cat));
    }
  }

  lemma AbortInv(s: Session, cat: Category)
    requires Losable(s) && Wakeable(s)
    ensures var s' := Abort(s, cat);
            && Inv(s') && SameHistory(s, s') && Down(s')
            && s'.subs == map[] && (s.est.NoEst? ==> s'.state.Fatal? && s'.est.NoEst?)
  {
    hide AbortBody, Wake, Losable;
    AbortBodyDown(s, cat);
    WakeDown(s, AbortBody(s, cat), cat);
    DownIsInv(Abort(s, cat));
  }

  lemma CloseBodyDown(s: Session)
    requires Losable(s)
    ensures var s' := CloseBody(s);
            && Down(s') && s'.state.Shutdown? && s'.subs == map[]
            && (s'.est == s.est || s'.est.NoEst?)
            && s'.barrier.estopPending == s.barrier.estopPending
            && s'.tasks.replayQueued == s.tasks.replayQueued
            && SameHistory(s, s')
  {
    hide Books, WireLawful, Limited, CancelReconnect, RetireAll, Archived;
    RetireAllArchived(s.past, s.subs, s.table.asked);
    FlushFacts(s.table, LocalError);
    CancelFacts(s.(table := Flush(s.table, LocalError), subs := map[], barrier := s.barrier.(round := {}),
                   heartbeat := false, state := Shutdown, open := false, past := RetireAll(s.past, s.subs)));
  }

  lemma InvLosable(s: Session)
    requires Inv(s)
    ensures Losable(s) && Wakeable(s)
  {
    hide AllHeld, AllSettled, NoneActive, Books, Awaited, ReplayOut, WireLawful, Limited, OnlyOwn, Owes, Counted, Archived;
  }

  lemma UserCloseInv(s: Session)
    requires Inv(s)
    ensures Inv(UserClose(s)) && SameHistory(s, UserClose(s))
    ensures !s.state.Shutdown? ==> Down(UserClose(s)) && UserClose(s).subs == map[]
  {
    if !s.state.Shutdown? {
      hide CloseBody, Wake, Losable;
      InvLosable(s);
      CloseBodyDown(s);
      WakeDown(s, CloseBody(s), LocalError);
      DownIsInv(UserClose(s));
    }
  }
}
