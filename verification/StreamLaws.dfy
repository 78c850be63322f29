/** What every stream keeps, whatever happens to it and in whatever order
    (karo_x2_sdk/_internal/robot_impl.py:591-691, 809-838, 863-1022). */
module StreamLaws {
  import opened Subsequences
  import opened Flows
  import opened Chronicles
  import opened Streams

  /** The position is what the ledger adds up to, and nothing was admitted out of step with it. */
  ghost predicate Accounted(s: Slot) {
    s.lastSeq == Position(s.log) && InStep(s.log) && Told(s.log)
  }

  /** The frames the chronicle tells of are the frames admitted, and its refusals are those counted. */
  ghost predicate Tied(s: Slot) {
    Frames(s.log) == s.flow.admitted && Refusals(s.log) == s.flow.rejected
  }

  /** While the slot is active the sequence gate is in force exactly for EVENT streams. */
  ghost predicate Gated(s: Slot) {
    s.state.Active? ==> (UnderEvent(s.log) <==> s.semantics.EventStream?)
  }

  /** The announcements so far fit the slot's state. */
  ghost predicate Narrated(s: Slot) {
    Story(s.log) ==
      match s.state
      case Active => Live
      case Closed => Over
      case _ => if s.everActive then Halted else Fresh
  }

  /** The stream was live before, or was suspended before it could be. */
  predicate Resumes(s: Slot) {
    s.everActive || CutOff(s.log)
  }

  /** While a resume is outstanding the position is just before the point asked for, and a stream will be
      announced as resumed exactly if it was live or cut off before; only a stream that was live has a
      position. */
  ghost predicate Positioned(s: Slot) {
    && (s.state.Pending? && s.expectedResumeSeq > 0 && s.inflightId != 0 ==> 0 < s.lastSeq == s.expectedResumeSeq - 1)
    && (s.inflightId != 0 && s.state.Pending? ==> (s.isReconnectResume <==> Resumes(s)))
    && (s.state.Paused? ==> CutOff(s.log))
    && (s.lastSeq > 0 ==> s.everActive)
    && (s.flow.pending != [] ==> s.state.Pending? || s.state.Closed?)
    && (s.state.Active? ==> s.everActive)
    && (s.inflightId != 0 ==> s.state.Pending? || s.state.Closed?)
  }

  ghost predicate Lawful(s: Slot) {
    && Sound(s.conf, s.flow) && Accounted(s) && Tied(s) && Gated(s) && Narrated(s)
    && Positioned(s)
  }

  /** An active EVENT or TELEMETRY stream in step with its ledger. */
  ghost predicate Open(s: Slot) {
    s.state.Active? && Accounted(s) && Tied(s) && Gated(s) && Story(s.log).Live?
  }

  lemma NewSlotLawful(topic: Topic, serial: nat, conf: Conf, semantics: Semantics)
    ensures Lawful(NewSlot(topic, serial, conf, semantics))
  {}

  /** The gate keeps a stream in step with its ledger; every jump is announced, and the frame is on record. */
  lemma GateKeepsStep(s: Slot, f: Frame)
    requires Open(s) && Passes(s, f)
    ensures var s' := Gate(s, f);
            && s' == s.(lastSeq := s'.lastSeq, log := s'.log)
            && Accounted(s') && Gated(s') && Story(s'.log).Live?
            && Frames(s'.log) == Frames(s.log) + [f] && Refusals(s'.log) == Refusals(s.log)
  {
    hide Position, InStep, Story, Frames, Refusals, UnderEvent, Told;
    if s.semantics.Telemetry? || f.number == 0 {
      LetThrough(s.log, f);
    } else if s.lastSeq == 0 || f.number <= s.lastSeq + 1 {
      Advanced(s.log, f);
    } else {
      Jumped(s.log, f);
    }
  }

  lemma DeliverKeepsOpen(s: Slot, f: Frame)
    requires Open(s)
    ensures Open(Deliver(s, f))
  {
    hide Position, InStep, Story, Frames, Refusals, UnderEvent, Told, Gate;
    if Passes(s, f) {
      GateKeepsStep(s, f);
    } else {
      TurnedAway(s.log, f);
    }
  }

  lemma DeliverSound(s: Slot, f: Frame)
    requires SoundHolding(s.conf, s.flow, f)
    ensures Sound(s.conf, Deliver(s, f).flow)
  {
    AdmitSound(s.conf, s.flow, f);
    RejectSound(s.conf, s.flow, f);
  }

  lemma {:induction false} DrainKeepsOpen(s: Slot, nextSeq: nat)
    requires Open(s)
    ensures Open(Drain(s, nextSeq))
    decreases |s.flow.pending|
  {
    if s.flow.pending != [] {
      var front, rest := s.flow.pending[0], s.(flow := s.flow.(pending := s.flow.pending[1..]));
      if Stale(s, nextSeq, front) {
        DrainKeepsOpen(rest.(flow := Drop(rest.flow)), nextSeq);
      } else {
        DeliverKeepsOpen(rest, front);
        DrainKeepsOpen(Deliver(rest, front), nextSeq);
      }
    }
  }

  lemma {:induction false} DrainSound(s: Slot, nextSeq: nat)
    requires Sound(s.conf, s.flow)
    ensures Sound(s.conf, Drain(s, nextSeq).flow)
    decreases |s.flow.pending|
  {
    if s.flow.pending != [] {
      var front, rest := s.flow.pending[0], s.(flow := s.flow.(pending := s.flow.pending[1..]));
      PopSound(s.conf, s.flow);
      if Stale(s, nextSeq, front) {
        RejectSound(s.conf, rest.flow, front);
        DrainSound(rest.(flow := Drop(rest.flow)), nextSeq);
      } else {
        DeliverSound(rest, front);
        DrainSound(Deliver(rest, front), nextSeq);
      }
    }
  }

  lemma PushLawful(s: Slot, f: Frame)
    requires Lawful(s)
    ensures Lawful(Push(s, f))
  {
    match s.state {
      case Closed =>
      case Pending => BufferSound(s.conf, s.flow, f);
      case Paused => IgnoreSound(s.conf, s.flow, f);
      case Active =>
        ArriveSound(s.conf, s.flow, f);
        DeliverSound(s.(flow := Arrive(s.flow, f)), f);
        DeliverKeepsOpen(s.(flow := Arrive(s.flow, f)), f);
    }
  }

  lemma WorkLawful(s: Slot)
    requires Lawful(s)
    ensures Lawful(Work(s))
  {
    if s.flow.queue != [] {
      TakeSound(s.conf, s.flow);
    }
  }

  lemma AskLawful(s: Slot, rid: nat, sinceSeq: nat, reconnecting: bool)
    requires Lawful(s) && (s.state.Paused? || s.state.Pending?)
    requires sinceSeq > 0 ==> 0 < s.lastSeq == sinceSeq - 1
    requires s.state.Pending? && Resumes(s) ==> s.everActive && reconnecting
    ensures Lawful(Ask(s, rid, sinceSeq, reconnecting))
  {}

  lemma RestartLawful(s: Slot)
    requires Lawful(s) && s.inflightId == 0 && s.state.Pending?
    ensures Lawful(Restart(s))
  {
    hide Position, InStep, Story, Frames, Refusals, UnderEvent, Told, Sound;
    StartedOver(s.log);
  }

  /** Every accepted EVENT acknowledgement leaves the position just before the point the server resumes
      from, whatever the client had asked for. */
  lemma RepositionLaws(s: Slot, next: nat)
    requires Lawful(s) && s.state.Pending?
    requires s.expectedResumeSeq > 0 ==> 0 < s.lastSeq == s.expectedResumeSeq - 1
    requires s.isReconnectResume <==> Resumes(s)
    ensures s.semantics.EventStream? ==> Open(Reposition(s, next))
    ensures Reposition(s, next).lastSeq == JustBefore(next)
  {
    hide Position, InStep, Story, Frames, Refusals, UnderEvent, Told, Sound;
    Acknowledged(s.log, s.expectedResumeSeq, next, AckKind(s));
  }

  lemma RestartTelemetryLaws(s: Slot)
    requires Lawful(s) && s.state.Pending?
    requires s.isReconnectResume <==> Resumes(s)
    ensures s.semantics.Telemetry? ==> Open(RestartTelemetry(s))
  {
    hide Position, InStep, Story, Frames, Refusals, UnderEvent, Told, Sound;
    AcknowledgedTelemetry(s.log, if s.isReconnectResume then Resumed else Started);
  }

  /** `asked` is the slot while its request is outstanding; the handler clears the id before anything else. */
  lemma ActivateLawful(asked: Slot, next: nat)
    requires Lawful(asked) && asked.state.Pending? && asked.inflightId != 0
    ensures Lawful(Activate(Unask(asked), next))
  {
    var s := Unask(asked);
    if s.semantics.Telemetry? {
      RestartTelemetryLaws(s);
      DrainKeepsOpen(RestartTelemetry(s), 0);
      DrainSound(RestartTelemetry(s), 0);
    } else {
      RepositionLaws(s, next);
      DrainKeepsOpen(Reposition(s, next), next);
      DrainSound(Reposition(s, next), next);
    }
  }

  lemma PauseLawful(s: Slot)
    requires Lawful(s) && !s.state.Closed?
    ensures Lawful(Pause(s))
  {
    hide Position, InStep, Story, Frames, Refusals, UnderEvent, Told, Sound;
    Reported(s.log, Suspended);
    ClearSound(s.conf, s.flow);
  }

  lemma CloseLawful(s: Slot)
    requires Lawful(s)
    ensures Lawful(Close(s))
  {
    hide Position, InStep, Story, Frames, Refusals, UnderEvent, Told, Sound;
    Reported(s.log, Ended);
  }

  // ----- The drain's filter is only a shortcut -----

  /** The drain without its filter: the gate alone decides. */
  function GateAll(s: Slot): (s': Slot)
    ensures SameSubscription(s, s') && s'.flow.pending == []
    decreases |s.flow.pending|
  {
    if s.flow.pending == [] then s
    else
      var front, rest := s.flow.pending[0], s.(flow := s.flow.(pending := s.flow.pending[1..]));
      GateAll(Deliver(rest, front))
  }

  /** The same but for where refused frames are counted. */
  ghost predicate SameButCounting(s: Slot, t: Slot) {
    && t == s.(flow := t.flow, log := t.log) && SameButCounters(s.flow, t.flow)
    && WithoutRefusals(t.log) == WithoutRefusals(s.log)
  }

  lemma GateSameButCounting(s: Slot, t: Slot, f: Frame)
    requires SameButCounting(s, t) && Passes(s, f)
    ensures Gate(t, f) == Gate(s, f).(flow := t.flow, log := Gate(t, f).log)
    ensures WithoutRefusals(Gate(t, f).log) == WithoutRefusals(Gate(s, f).log)
  {
    hide WithoutRefusals, Position, InStep, Story, Frames, Refusals, UnderEvent, CutOff;
    if s.semantics.Telemetry? || f.number == 0 {
      Appended(s.log, Plain(f));
      Appended(t.log, Plain(f));
    } else if s.lastSeq == 0 || f.number <= s.lastSeq + 1 {
      Appended(s.log, Numbered(f));
      Appended(t.log, Numbered(f));
    } else {
      var gap := Status(Gap, f.number - s.lastSeq - 1);
      Appended(s.log, gap);
      Appended(t.log, gap);
      Appended(s.log + [gap], Numbered(f));
      Appended(t.log + [gap], Numbered(f));
    }
  }

  lemma DeliverSameButCounting(s: Slot, t: Slot, f: Frame)
    requires SameButCounting(s, t)
    ensures SameButCounting(Deliver(s, f), Deliver(t, f))
  {
    hide WithoutRefusals, Gate, Admit, Position, InStep, Story, Frames, Refusals, UnderEvent;
    if Passes(s, f) {
      GateSameButCounting(s, t, f);
      AdmitSameButCounters(s.conf, s.flow, t.flow, f);
    } else {
      Appended(s.log, Refused(f));
      Appended(t.log, Refused(f));
    }
  }

  /** A frame the drain drops as stale, the gate would refuse. */
  lemma StaleSameButCounting(s: Slot, t: Slot, next: nat, f: Frame)
    requires SameButCounting(s, t) && next <= s.lastSeq + 1 && Stale(s, next, f)
    ensures SameButCounting(s.(flow := Drop(s.flow)), Deliver(t, f))
  {
    Appended(t.log, Refused(f));
  }

  /** The gate never lets the position fall back. */
  lemma DeliverForward(s: Slot, f: Frame)
    ensures s.lastSeq <= Deliver(s, f).lastSeq
  {}

  /** With the position at or past next - 1, the filtered drain admits, queues and announces exactly what
      the gate alone would; only the counter a refused frame lands in differs. */
  lemma {:induction false} FilterRefinesGate(s: Slot, t: Slot, next: nat)
    requires SameButCounting(s, t) && next <= s.lastSeq + 1
    ensures SameButCounting(Drain(s, next), GateAll(t))
    decreases |s.flow.pending|
  {
    if s.flow.pending != [] {
      var front := s.flow.pending[0];
      var s1 := s.(flow := s.flow.(pending := s.flow.pending[1..]));
      var t1 := t.(flow := t.flow.(pending := t.flow.pending[1..]));
      if Stale(s, next, front) {
        StaleSameButCounting(s1, t1, next, front);
        FilterRefinesGate(s1.(flow := Drop(s1.flow)), Deliver(t1, front), next);
      } else {
        DeliverSameButCounting(s1, t1, front);
        DeliverForward(s1, front);
        FilterRefinesGate(Deliver(s1, front), Deliver(t1, front), next);
      }
    }
  }

  /** So it is after every accepted EVENT acknowledgement. */
  lemma DrainAfterAckRefinesGate(asked: Slot, next: nat)
    requires Lawful(asked) && asked.state.Pending? && asked.inflightId != 0
    ensures var s := Reposition(Unask(asked), next);
            s.lastSeq == JustBefore(next) && SameButCounting(Drain(s, next), GateAll(s))
  {
    RepositionLaws(Unask(asked), next);
    var s := Reposition(Unask(asked), next);
    FilterRefinesGate(s, s, next);
  }

  // ----- Consequences, for any lawful slot -----

  /** Every number since the base is admitted once or reported missing once, and while the gate is in force
      those admitted are the numbered ones of the frames admitted since. */
  lemma EveryNumberOnce(s: Slot, n: nat)
    requires Lawful(s)
    ensures s.lastSeq == Base(s.log) + |Since(s.log)| + MissedSince(s.log)
    ensures Covered(s.log, n) == if Base(s.log) < n <= s.lastSeq then 1 else 0
    ensures UnderEvent(s.log) ==>
              AdmittedBefore(s.log) <= |s.flow.admitted| && Since(s.log) == NumberedOnly(s.flow.admitted[AdmittedBefore(s.log)..])
  {
    LedgerAdds(s.log);
    ExactlyOnce(s.log, n);
    if UnderEvent(s.log) {
      SinceIsAdmitted(s.log);
    }
  }

  /** End to end: of the frames at the callback and in the queue, those admitted during a stretch that
      nothing rebased come together, and their numbers strictly increase from the position at its start. */
  lemma HandedInOrder(s: Slot, head: Chronicle, tail: Chronicle, rest: Chronicle)
    returns (before: seq<Frame>, within: seq<Frame>, after: seq<Frame>)
    requires Lawful(s) && s.log == head + tail + rest && UnderEvent(head)
    requires forall i :: 0 <= i < |tail| ==> !Rebases(tail[i])
    ensures s.flow.delivered + s.flow.queue == before + within + after
    ensures Frames(head) <= Frames(head + tail) <= s.flow.admitted
    ensures Subsequence(before, Frames(head))
    ensures Subsequence(within, Frames(head + tail)[|Frames(head)|..])
    ensures Subsequence(after, s.flow.admitted[|Frames(head + tail)|..])
    ensures Ascending(Position(head), NumberedOnly(within), Position(head + tail))
  {
    hide Lawful, InStep, Position, Frames, UnderEvent, NumberedOnly, Rebases, Subsequence;
    var log, w := head + tail, s.flow;
    LawfulFrames(s);
    FramesGrow(head, tail);
    FramesGrow(log, rest);
    var first, second, third := Frames(head), Frames(log)[|Frames(head)|..], w.admitted[|Frames(log)|..];
    assert s.log[..|log|] == log;
    PrefixInStep(s.log, |log|);
    Increasing(head, tail);
    assert w.admitted == first + second + third;
    var handed;
    handed, after := Split(w.delivered + w.queue, first + second, third);
    before, within := Split(handed, first, second);
    NumberedSubsequence(within, second);
    AscendingSubsequence(Position(head), NumberedOnly(within), NumberedOnly(second), Position(log));
  }

  lemma LawfulFrames(s: Slot)
    requires Lawful(s)
    ensures InStep(s.log) && Frames(s.log) == s.flow.admitted
    ensures Subsequence(s.flow.delivered + s.flow.queue, s.flow.admitted)
  {}

  /** After an answer granted from `next` on, nothing below `next` is admitted before the next rebasing. */
  lemma NothingBelowGranted(s: Slot, head: Chronicle, granted: Entry, tail: Chronicle)
    requires Lawful(s) && s.log == head + [granted] + tail && granted.Accepted?
    requires forall i :: 0 <= i < |tail| ==> !Rebases(tail[i])
    ensures Frames(head) <= s.flow.admitted
    ensures AscendingFrom(granted.next, NumberedOnly(s.flow.admitted[|Frames(head)|..]))
  {
    NothingBelow(head, granted, tail);
  }

  // ----- What becomes of a frame that is not handed on -----

  lemma DeliverOnlyAdds(s: Slot, f: Frame)
    requires s.conf.policy.DropNewest? && (s.conf.mode.Inline? ==> s.flow.queue == [])
    ensures OnlyAdded(s.flow, Deliver(s, f).flow)
  {
    hide Gate, Admit;
    AdmitOnlyAdds(s.conf, s.flow, f);
  }

  /** Under DROP_NEWEST a push evicts nothing: what was handed on or queued or buffered still is, in its place.
      Under DROP_OLDEST it leaves in the buffer, or in the queue, the most recent frames (see Recent). */
  lemma PushEvictsNothing(s: Slot, f: Frame)
    requires Lawful(s) && s.conf.policy.DropNewest?
    ensures OnlyAdded(s.flow, Push(s, f).flow)
  {
    match s.state {
      case Closed =>
      case Pending => BufferOnlyAdds(s.conf, s.flow, f);
      case Paused =>
      case Active => DeliverOnlyAdds(s.(flow := Arrive(s.flow, f)), f);
    }
  }

  /** A push is counted as dropped exactly if the slot is paused, or a bounded buffer it was meant for is full
      (then one frame goes, by the policy: this one or the oldest); it is counted as refused exactly if the
      gate turns it away. */
  lemma DropsAreForced(s: Slot, f: Frame)
    ensures var w, w' := s.flow, Push(s, f).flow;
            && (w'.dropCount == w.dropCount + 1 <==>
                  || s.state.Paused?
                  || (s.state.Pending? && |w.pending| >= s.conf.queueSize)
                  || (s.state.Active? && Passes(s, f) && s.conf.mode.Dispatched? && |w.queue| >= s.conf.queueSize))
            && (w'.dropCount != w.dropCount + 1 ==> w'.dropCount == w.dropCount)
            && (w'.rejected == w.rejected + 1 <==> s.state.Active? && !Passes(s, f))
            && (w'.rejected != w.rejected + 1 ==> w'.rejected == w.rejected)
  {}
}
