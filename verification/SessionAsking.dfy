/** Subscribes and their answers keep the invariant of the session. */
module SessionAsking {
  import opened Flows
  import opened Chronicles
  import opened Streams
  import opened StreamLaws
  import opened Sessions
  import opened SessionInvariant

  /** The settled slots besides `t`, which a handler is working on. */
  ghost predicate OthersSettled(subs: map<Topic, Slot>, state: ConnState, t: Topic) {
    AllSettled(subs - {t}, state)
  }

  /** Everything but the barrier and what a handler is about to do with slot `t`. */
  ghost predicate Working(s: Session, t: Topic) {
    && Books(s.table) && Awaited(s.table, s.est)
    && AllHeld(s.subs, s.table.asked) && OthersSettled(s.subs, s.state, t)
    && Phases(s) && ReplayTracked(s) && WireOk(s)
    && Limited(s.opts.maxAttempts, s.attempt, s.tasks) && Archived(s.past)
    && s.est.NoEst?
    && (Terminal(s) ==> AllSettled(s.subs, s.state))
  }

  /** Slot `t` may be asked from `sinceSeq` on. */
  ghost predicate Askable(s: Session, t: Topic, sinceSeq: nat) {
    && t in s.subs
    && s.subs[t].inflightId == 0
    && (s.subs[t].state.Pending? || s.subs[t].state.Paused?)
    && (sinceSeq > 0 ==> 0 < s.subs[t].lastSeq == sinceSeq - 1)
    && (Resumes(s.subs[t]) && s.open ==> s.state.Reconnecting?)
    && (s.subs[t].state.Pending? && Resumes(s.subs[t]) ==> s.subs[t].everActive)
    && (s.open ==> s.state.Ready? || s.state.Reconnecting? || Terminal(s))
  }

  // ----- Fresh ids -----

  lemma AskedBooks(b: Table, t: Topic)
    requires Books(b)
    ensures Books(NextRid(b)) && Books(Asked(NextRid(b), b.nextRid, t))
  {}

  lemma AskedAwaited(b: Table, est: Est, t: Topic)
    requires Awaited(b, est)
    ensures Awaited(NextRid(b), est) && Awaited(Asked(NextRid(b), b.nextRid, t), est)
  {}

  /** Asking one slot under a fresh id leaves the others held. */
  lemma AskedHeld(subs: map<Topic, Slot>, b: Table, t: Topic, slot: Slot)
    requires Books(b) && AllHeld(subs, b.asked)
    requires Held(slot, t, b.asked[b.nextRid := t])
    ensures AllHeld(subs[t := slot], b.asked[b.nextRid := t])
  {}

  /** Replacing one slot. */
  lemma OneHeld(subs: map<Topic, Slot>, asked: map<nat, Topic>, t: Topic, slot: Slot)
    requires AllHeld(subs, asked) && Held(slot, t, asked)
    ensures AllHeld(subs[t := slot], asked)
  {}

  lemma OneSettled(subs: map<Topic, Slot>, state: ConnState, t: Topic, slot: Slot)
    requires OthersSettled(subs, state, t)
    requires slot.state.Pending? && Resumes(slot) ==> slot.inflightId != 0 && state.Reconnecting?
    requires slot.state.Paused? ==> !state.Shutdown? && !state.Fatal?
    ensures AllSettled(subs[t := slot], state)
  {
    forall u | u in subs && u != t
      ensures u in subs - {t} && (subs - {t})[u] == subs[u]
    {}
  }

  lemma LessSettled(subs: map<Topic, Slot>, state: ConnState, t: Topic)
    requires AllSettled(subs, state)
    ensures OthersSettled(subs, state, t)
  {}

  lemma LongerWire(w: Wire, e: WireEvent)
    requires WireLawful(w) && e != Sent(CmdReplay)
    requires Business(e) && Owes(w) ==> ReplayAccepted in w.log
    ensures WireLawful(w.(log := w.log + [e]))
    ensures ReplayAccepted in w.log ==> ReplayAccepted in w.log + [e]
  {
    var log' := w.log + [e];
    assert forall i :: 0 <= i < |w.log| ==> log'[i] == w.log[i];
    if Business(e) && Owes(w) {
      var j :| 0 <= j < |w.log| && w.log[j] == ReplayAccepted;
      assert log'[j] == ReplayAccepted;
    }
  }

  /** Something other than a replay goes over the wire. */
  lemma TransmitCore(s: Session, e: WireEvent)
    requires Core(s) && s.est.NoEst? && e != Sent(CmdReplay)
    requires Business(e) && Owes(s.wire) ==> ReplayAccepted in s.wire.log
    ensures Core(Transmit(s, e))
  {
    hide AllHeld, AllSettled, NoneActive, Books, Awaited, OnlyOwn, Limited, Archived, WireLawful, ReplayOut, Business, Owes;
    LongerWire(s.wire, e);
    OwesLonger(s.wire, e);
  }

  lemma OwesLonger(w: Wire, e: WireEvent)
    ensures Owes(w.(log := w.log + [e])) == Owes(w)
  {}

  /** `_send_subscribe` books slot `t` as asked under a fresh id. */
  lemma AskedCore(s: Session, t: Topic, slot: Slot)
    requires Working(s, t) && t in s.subs && s.open
    requires s.state.Ready? || s.state.Reconnecting? || Terminal(s)
    requires slot.state.Pending? && slot.inflightId == s.table.nextRid && slot.topic == t && Lawful(slot)
    requires Resumes(slot) ==> s.state.Reconnecting?
    ensures Core(s.(table := Asked(NextRid(s.table), s.table.nextRid, t), subs := s.subs[t := slot]))
  {
    var rid := s.table.nextRid;
    assert Held(slot, t, s.table.asked[rid := t]) by { hide Lawful; }
    AskedBooks(s.table, t);
    AskedAwaited(s.table, s.est, t);
    AskedHeld(s.subs, s.table, t, slot);
    OneSettled(s.subs, s.state, t, slot);
    hide AllHeld, AllSettled, Books, Awaited, Limited, Archived, NoneActive, WireLawful, Owes, Held;
  }

  /** The slot `_send_subscribe` makes of slot `t`. */
  lemma AskedSlot(s: Session, t: Topic, sinceSeq: nat)
    requires Working(s, t) && Askable(s, t, sinceSeq)
    requires s.subs[t].state.Pending? && Resumes(s.subs[t]) ==> s.state.Reconnecting?
    ensures var slot := Ask(s.subs[t], s.table.nextRid, sinceSeq, s.state.Reconnecting?);
            && slot.state.Pending? && slot.inflightId == s.table.nextRid && slot.topic == t && Lawful(slot)
            && Resumes(slot) == Resumes(s.subs[t]) && Lawful(Unask(slot))
  {
    assert Held(s.subs[t], t, s.table.asked);
    AskLawful(s.subs[t], s.table.nextRid, sinceSeq, s.state.Reconnecting?);
  }

  /** `_send_subscribe` when the request goes out. */
  lemma AskOut(s: Session, t: Topic, sinceSeq: nat)
    requires Working(s, t) && Askable(s, t, sinceSeq) && s.open
    ensures var s' := SendSubscribe(s, t, sinceSeq, SendOk);
            && Core(s') && s'.state == s.state && s'.barrier == s.barrier && s'.est == s.est && s'.opts == s.opts
            && s'.engaged == s.engaged && s'.tasks == s.tasks && s'.attempt == s.attempt && s'.totalCount == s.totalCount
            && t in s'.subs && s'.subs == s.subs[t := s'.subs[t]] && s'.subs[t].inflightId != 0
            && Owes(s'.wire) == Owes(s.wire) && s'.wire.waited == s.wire.waited
  {
    AskedSlot(s, t, sinceSeq);
    assert s.table.nextRid >= 1;
    hide Core, Lawful, Working, Ask;
    var rid := s.table.nextRid;
    var slot := Ask(s.subs[t], rid, sinceSeq, s.state.Reconnecting?);
    AskedCore(s, t, slot);
    TransmitCore(s.(table := Asked(NextRid(s.table), rid, t), subs := s.subs[t := slot]), Sent(CmdSubscribe(rid, t, slot.expectedResumeSeq)));
  }

  /** `_send_subscribe` when the request does not go out: the connection is reported lost. */
  lemma AskLost(s: Session, t: Topic, sinceSeq: nat, send: SendResult)
    requires Working(s, t) && Askable(s, t, sinceSeq) && !send.EncodeFails? && !(s.open && send.SendOk?)
    requires s.subs[t].state.Pending? && Resumes(s.subs[t]) ==> s.state.Reconnecting?
    ensures var s' := SendSubscribe(s, t, sinceSeq, send);
            && Inv(s') && SameHistory(s, s') && s'.est.NoEst?
            && (if Terminal(s) then s'.state == s.state && s'.barrier == s.barrier && t in s'.subs && s'.subs == s.subs[t := s'.subs[t]]
                else s'.state.TransientFailure? && !s'.open)
  {
    hide Lawful, Held, AllHeld, Books, Awaited, Phases, ReplayTracked, WireOk, Limited, Archived, Inv, OnTransportClose;
    AskedSlot(s, t, sinceSeq);
    var slot := Unask(Ask(s.subs[t], s.table.nextRid, sinceSeq, s.state.Reconnecting?));
    ReportLost(s, t, slot);
  }

  lemma ReportLost(s: Session, t: Topic, slot: Slot)
    requires Working(s, t) && t in s.subs
    requires slot.topic == t && Lawful(slot) && slot.state.Pending? && slot.inflightId == 0
    requires Terminal(s) ==> !Resumes(slot)
    ensures var s1 := s.(table := NextRid(s.table), subs := s.subs[t := slot]);
            var s' := OnTransportClose(s1, TransientError);
            && Inv(s') && SameHistory(s, s') && s'.est.NoEst?
            && (if Terminal(s) then s'.state == s.state && s'.barrier == s.barrier && t in s'.subs && s'.subs == s.subs[t := s'.subs[t]]
                else s'.state.TransientFailure? && !s'.open)
  {
    hide Lawful, Held, AllHeld, AllSettled, Books, Awaited, Phases, ReplayTracked, WireOk, Limited, Archived, Losable, Wakeable, Inv, OnTransportClose;
    LostCore(s, t, slot);
    OnTransportCloseInv(s.(table := NextRid(s.table), subs := s.subs[t := slot]), TransientError);
  }

  lemma LostCore(s: Session, t: Topic, slot: Slot)
    requires Working(s, t) && t in s.subs
    requires slot.topic == t && Lawful(slot) && slot.state.Pending? && slot.inflightId == 0
    requires Terminal(s) ==> !Resumes(slot)
    ensures var s1 := s.(table := NextRid(s.table), subs := s.subs[t := slot]);
            Losable(s1) && Wakeable(s1) && (Terminal(s1) ==> Inv(s1))
  {
    assert Held(slot, t, s.table.asked) by { hide Lawful; }
    AskedBooks(s.table, t);
    AskedAwaited(s.table, s.est, t);
    OneHeld(s.subs, s.table.asked, t, slot);
    if Terminal(s) {
      LostTerminal(s, t, slot);
    }
    hide AllHeld, AllSettled, OthersSettled, Books, Awaited, Limited, Archived, WireLawful, Owes, Held, Inv, NoneActive;
  }

  lemma StillNoneActive(subs: map<Topic, Slot>, t: Topic, slot: Slot)
    requires !slot.state.Active?
    ensures NoneActive(subs) ==> NoneActive(subs[t := slot])
  {}

  lemma LostTerminal(s: Session, t: Topic, slot: Slot)
    requires Working(s, t) && t in s.subs && Terminal(s)
    requires Held(slot, t, s.table.asked) && slot.state.Pending? && !Resumes(slot)
    ensures Inv(s.(table := NextRid(s.table), subs := s.subs[t := slot]))
  {
    hide Resumes, Lawful, AllHeld, AllSettled, OthersSettled, Books, Awaited, Limited, Archived, WireLawful, Owes, Held, NoneActive;
    AskedBooks(s.table, t);
    AskedAwaited(s.table, s.est, t);
    OneHeld(s.subs, s.table.asked, t, slot);
    OneSettled(s.subs, s.state, t, slot);
    StillNoneActive(s.subs, t, slot);
  }

  // ----- Leaving the registry -----

  lemma LessHeld(subs: map<Topic, Slot>, asked: map<nat, Topic>, t: Topic)
    requires AllHeld(subs, asked)
    ensures AllHeld(subs - {t}, asked)
  {}

  lemma UnregisterCore(s: Session, t: Topic)
    requires Working(s, t)
    ensures Core(Unregister(s, t)) && Unregister(s, t) == Removed(s, t, Unregister(s, t).past)
  {
    LessHeld(s.subs, s.table.asked, t);
    UnregisterArchived(s, t);
    hide AllHeld, AllSettled, Books, Awaited, Limited, Archived, WireLawful, Owes, Held, Retire;
  }

  lemma FreshWorking(s: Session, t: Topic)
    requires Working(s, t)
    ensures Working(s.(table := NextRid(s.table)), t)
  {
    AskedBooks(s.table, t);
    AskedAwaited(s.table, s.est, t);
    hide AllHeld, OthersSettled, AllSettled, Books, Awaited, Limited, Archived, WireLawful, Owes, Held, NoneActive;
  }

  /** `_send_subscribe` when the request cannot be encoded: the slot is closed. */
  lemma AskNot(s: Session, t: Topic, sinceSeq: nat)
    requires Working(s, t) && t in s.subs
    ensures var s' := SendSubscribe(s, t, sinceSeq, EncodeFails);
            && Core(s') && s'.state == s.state && s'.est == s.est && s'.opts == s.opts && s'.open == s.open
            && s'.engaged == s.engaged && s'.tasks == s.tasks && s'.attempt == s.attempt && s'.totalCount == s.totalCount
            && s'.wire == s.wire
            && s'.subs == s.subs - {t}
            && s'.barrier == s.barrier.(round := s.barrier.round - {t}, lost := s.barrier.lost + 1)
  {
    var s1 := s.(table := NextRid(s.table));
    FreshWorking(s, t);
    hide Core, Working;
    UnregisterCore(s1, t);
    MoreLost(Unregister(s1, t));
  }

  /** The number of lost slots is only counted. */
  lemma MoreLost(s: Session)
    requires Core(s)
    ensures Core(s.(barrier := s.barrier.(lost := s.barrier.lost + 1)))
  {
    hide AllHeld, AllSettled, Books, Awaited, Limited, Archived, WireLawful, Owes, Held;
  }
}
