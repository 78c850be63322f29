/** The record `SubSlot` updated in place (karo_x2_sdk/_internal/subscription_impl.py:23-58), with the parts
    of `RobotImpl`'s handlers that touch one slot only
    (karo_x2_sdk/_internal/robot_impl.py:538-545, 591-691, 809-838, 863-871, 928-1022).
    Every method is proved to do to the slot exactly what the function of the same name in Streams says. */
module SubSlots {
  import opened Flows
  import opened Chronicles
  import opened Streams
  import opened StreamLaws

  class SubSlot {
    const topic: Topic
    const conf: Conf
    var semantics: Semantics
    var state: SlotState
    var lastSeq: nat
    var dropCount: nat
    var pendingBuffer: seq<Frame>
    var inflightSubscribeRequestId: nat
    var freshRetryDone: bool
    var expectedResumeSeq: nat
    var everActive: bool
    var isReconnectResume: bool
    var messagesReceived: nat
    var dispatchQueue: seq<Frame>

    // The identity of the record, and the history the client never reads.
    const serial: nat
    ghost var arrived: seq<Frame>
    ghost var admitted: seq<Frame>
    ghost var delivered: seq<Frame>
    ghost var rejected: nat
    ghost var cleared: nat
    ghost var log: Chronicle

    ghost function FlowView(): Flow
      reads this
    {
      Flow(pendingBuffer, dispatchQueue, dropCount, messagesReceived,
                arrived, admitted, delivered, rejected, cleared)
    }

    ghost function View(): Slot
      reads this
    {
      Slot(topic, serial, conf, semantics, state, lastSeq, inflightSubscribeRequestId, freshRetryDone,
           expectedResumeSeq, everActive, isReconnectResume, FlowView(), log)
    }

    constructor (topic: Topic, serial: nat, conf: Conf, semantics: Semantics)
      ensures this.topic == topic && this.serial == serial && View() == NewSlot(topic, serial, conf, semantics)
      ensures Lawful(View())
    {
      this.topic, this.conf, this.semantics := topic, conf, semantics;
      state, lastSeq, dropCount, pendingBuffer, inflightSubscribeRequestId := Pending, 0, 0, [], 0;
      freshRetryDone, expectedResumeSeq, everActive, isReconnectResume := false, 0, false, false;
      messagesReceived, dispatchQueue := 0, [];
      this.serial := serial;
      arrived, admitted, delivered, rejected, cleared, log := [], [], [], 0, 0, [];
      new;
      NewSlotLawful(topic, serial, conf, semantics);
    }

    ghost method FireStatus(kind: StatusKind, gap: nat)
      modifies this`log
      ensures log == old(log) + [Status(kind, gap)]
    {
      log := log + [Status(kind, gap)];
    }

    /** Hands an admitted frame to the callback, or to the bounded queue of the worker. */
    method Dispatch(f: Frame)
      modifies this`dispatchQueue, this`dropCount, this`delivered
      ensures FlowView() == Flows.Dispatch(conf, old(FlowView()), f)
    {
      if conf.mode == Inline {
        delivered := delivered + [f];
        return;
      }
      if |dispatchQueue| >= conf.queueSize {
        if conf.policy == DropOldest {
          dispatchQueue := dispatchQueue[1..];
          dropCount := dropCount + 1;
          dispatchQueue := dispatchQueue + [f];
        } else {
          dropCount := dropCount + 1;
          return;
        }
      } else {
        dispatchQueue := dispatchQueue + [f];
      }
    }

    /** The sequence gate of EVENT streams. */
    method PassGate(f: Frame) returns (pass: bool)
      modifies this`lastSeq, this`log
      ensures pass == Passes(old(View()), f)
      ensures View() == if pass then Gate(old(View()), f) else Note(old(View()), Refused(f))
    {
      if semantics == Telemetry || f.number == 0 {
        log := log + [Plain(f)];
        return true;
      }
      var last := lastSeq;
      if last == 0 {
        lastSeq := f.number;
      } else if f.number == last + 1 {
        lastSeq := f.number;
      } else if f.number > last + 1 {
        var gap := f.number - last - 1;
        lastSeq := f.number;
        FireStatus(Gap, gap);
      } else {
        log := log + [Refused(f)];
        return false;
      }
      log := log + [Numbered(f)];
      return true;
    }

    method AdmitFrame(f: Frame)
      modifies this`messagesReceived, this`dispatchQueue, this`dropCount, this`admitted, this`delivered
      ensures FlowView() == Admit(conf, old(FlowView()), f)
    {
      messagesReceived := messagesReceived + 1;
      admitted := admitted + [f];
      Dispatch(f);
    }

    method Deliver(f: Frame)
      modifies this`lastSeq, this`messagesReceived, this`dispatchQueue, this`dropCount,
               this`admitted, this`delivered, this`rejected, this`log
      ensures View() == Streams.Deliver(old(View()), f)
    {
      hide Admit, Gate;
      var pass := PassGate(f);
      if !pass {
        rejected := rejected + 1;
        return;
      }
      AdmitFrame(f);
    }

    method HandlePush(f: Frame)
      modifies this
      ensures View() == Streams.Push(old(View()), f)
    {
      if state == Closed {
        return;
      }
      arrived := arrived + [f];
      if state == Pending {
        if |pendingBuffer| >= conf.queueSize {
          if conf.policy == DropNewest {
            dropCount := dropCount + 1;
            return;
          }
          pendingBuffer := pendingBuffer[1..];
          dropCount := dropCount + 1;
        }
        pendingBuffer := pendingBuffer + [f];
        return;
      }
      if state == Paused {
        dropCount := dropCount + 1;
        return;
      }
      Deliver(f);
    }

    method DrainPendingBuffer(nextSeq: nat)
      modifies this
      ensures View() == Drain(old(View()), nextSeq)
    {
      hide Gate, Admit, Flows.Reject, Passes;
      while pendingBuffer != []
        invariant Drain(View(), nextSeq) == Drain(old(View()), nextSeq)
        decreases |pendingBuffer|
      {
        DrainOne(nextSeq);
      }
    }

    /** One turn of the drain. */
    method DrainOne(nextSeq: nat)
      requires pendingBuffer != []
      modifies this
      ensures Drain(View(), nextSeq) == Drain(old(View()), nextSeq)
      ensures |pendingBuffer| < old(|pendingBuffer|)
    {
      hide Gate, Admit, Flows.Reject, Passes;
      var front := pendingBuffer[0];
      pendingBuffer := pendingBuffer[1..];
      if semantics == EventStream && nextSeq > 0 && front.number != 0 && front.number < nextSeq {
        dropCount := dropCount + 1;
      } else {
        Deliver(front);
      }
    }

    /** One turn of the dispatch worker. */
    method WorkerTurn()
      modifies this`dispatchQueue, this`delivered
      ensures View() == Work(old(View()))
    {
      if state == Closed || dispatchQueue == [] {
        return;
      }
      var push := dispatchQueue[0];
      dispatchQueue := dispatchQueue[1..];
      delivered := delivered + [push];
    }

    /** The slot's side of `_send_subscribe`. */
    method MarkAsked(rid: nat, sinceSeq: nat, reconnecting: bool)
      modifies this`expectedResumeSeq, this`isReconnectResume, this`state, this`inflightSubscribeRequestId
      ensures View() == Ask(old(View()), rid, sinceSeq, reconnecting)
    {
      var effectiveSince := sinceSeq;
      if semantics == Telemetry {
        effectiveSince := 0;
      }
      expectedResumeSeq := effectiveSince;
      var oldState := state;
      isReconnectResume := oldState == Paused || (everActive && reconnecting);
      state := Pending;
      inflightSubscribeRequestId := rid;
    }

    method ClearAsked()
      modifies this`inflightSubscribeRequestId
      ensures View() == Unask(old(View()))
    {
      inflightSubscribeRequestId := 0;
    }

    method MarkRound()
      modifies this`freshRetryDone
      ensures View() == BeginRound(old(View()))
    {
      freshRetryDone := false;
    }

    method MarkRestart()
      modifies this`lastSeq, this`freshRetryDone, this`log
      ensures View() == Restart(old(View()))
    {
      lastSeq := 0;
      freshRetryDone := true;
      log := log + [Restarted];
    }

    /** An accepted TELEMETRY acknowledgement, up to the drain. */
    method AcceptTelemetry()
      modifies this`lastSeq, this`state, this`log
      ensures View() == RestartTelemetry(old(View()))
    {
      lastSeq := 0;
      state := Active;
      log := log + [AcceptedTelemetry];
      if isReconnectResume {
        FireStatus(Resumed, 0);
      } else {
        FireStatus(Started, 0);
      }
    }

    /** An accepted EVENT acknowledgement, up to the drain. */
    method AcceptEvent(next: nat)
      modifies this`lastSeq, this`state, this`log
      ensures View() == Reposition(old(View()), next)
    {
      var expected := expectedResumeSeq;
      var kind, gap := Started, 0;
      if expected == 0 {
        lastSeq := if next >= 1 then next - 1 else 0;
        kind := if isReconnectResume then Resumed else Started;
      } else if next == expected {
        kind := Resumed;
      } else if next > expected {
        gap := next - expected;
        lastSeq := next - 1;
        kind := Resumed;
      } else {
        lastSeq := if next >= 1 then next - 1 else 0;
        kind := Resumed;
      }
      log := log + [Accepted(expected, next)];
      state := Active;
      FireStatus(kind, gap);
    }

    /** The accepted branches of `_handle_subscribe_ack`. */
    method MarkAccepted(next: nat)
      modifies this
      ensures View() == Activate(old(View()), next)
    {
      hide Drain, Reposition, RestartTelemetry;
      if semantics == Telemetry {
        AcceptTelemetry();
        DrainPendingBuffer(0);
      } else {
        AcceptEvent(next);
        DrainPendingBuffer(next);
      }
      everActive := true;
      isReconnectResume := false;
    }

    method ClearBuffer()
      modifies this`cleared, this`pendingBuffer
      ensures FlowView() == Clear(old(FlowView()))
    {
      cleared := cleared + |pendingBuffer|;
      pendingBuffer := [];
    }

    /** The slot's side of `_on_transport_close`. */
    method MarkPaused()
      modifies this`state, this`log, this`cleared, this`pendingBuffer, this`inflightSubscribeRequestId
      ensures View() == Pause(old(View()))
    {
      hide Clear;
      var prev := state;
      if prev == Active || prev == Pending {
        state := Paused;
        FireStatus(Suspended, 0);
      }
      ClearBuffer();
      inflightSubscribeRequestId := 0;
    }

    method MarkClosed()
      modifies this`state, this`log
      ensures View() == Close(old(View()))
    {
      state := Closed;
      FireStatus(Ended, 0);
    }

    method SetSemantics(s: Semantics)
      modifies this`semantics
      ensures View() == old(View()).(semantics := s)
    {
      semantics := s;
    }
  }
}
