/** One topic's stream as the client keeps it: the record `SubSlot`
    (karo_x2_sdk/_internal/subscription_impl.py:23-58) and what the handlers of `RobotImpl` do to it,
    as functions on its value. The class that updates it in place is in SubSlot.dfy. */
module Streams {
  import opened Flows
  import opened Chronicles

  type Topic = string

  datatype SlotState = Pending | Active | Paused | Closed
  datatype Semantics = Telemetry | EventStream

  /** The fields of `SubSlot` the protocol uses. `serial` stands for the identity of the object; `log` is the
      observable history. The client reads neither. */
  datatype Slot = Slot(
    topic: Topic,
    serial: nat,
    conf: Conf,
    semantics: Semantics,
    state: SlotState,
    lastSeq: nat,
    inflightId: nat,
    freshRetryDone: bool,
    expectedResumeSeq: nat,
    everActive: bool,
    isReconnectResume: bool,
    flow: Flow,
    log: Chronicle
  )

  function NewSlot(topic: Topic, serial: nat, conf: Conf, semantics: Semantics): Slot {
    Slot(topic, serial, conf, semantics, Pending, 0, 0, false, 0, false, false, NoFlow(), [])
  }

  function Note(s: Slot, e: Entry): Slot {
    s.(log := s.log + [e])
  }

  // ----- Frames -----

  /** Only frames moved: the subscription itself is as before. */
  ghost predicate SameSubscription(s: Slot, s': Slot) {
    s' == s.(lastSeq := s'.lastSeq, flow := s'.flow, log := s'.log)
  }

  /** Whether the sequence gate of an EVENT stream lets a frame through: not a duplicate, not a regression. */
  predicate Passes(s: Slot, f: Frame) {
    s.semantics.Telemetry? || f.number == 0 || s.lastSeq == 0 || f.number > s.lastSeq
  }

  /** What a frame that passes does to the position: a jump is announced as a gap first. */
  function Gate(s: Slot, f: Frame): (s': Slot)
    ensures s'.flow == s.flow
  {
    if s.semantics.Telemetry? || f.number == 0 then Note(s, Plain(f))
    else if s.lastSeq == 0 || f.number <= s.lastSeq + 1 then
      Note(s.(lastSeq := f.number), Numbered(f))
    else
      Note(Note(s.(lastSeq := f.number), Status(Gap, f.number - s.lastSeq - 1)), Numbered(f))
  }

  /** `_deliver_push_to_sub`: the sequence gate of EVENT streams, then dispatch. */
  function Deliver(s: Slot, f: Frame): (s': Slot)
    ensures SameSubscription(s, s') && s'.flow.pending == s.flow.pending
  {
    if Passes(s, f) then Gate(s, f).(flow := Admit(s.conf, s.flow, f))
    else Note(s, Refused(f)).(flow := Reject(s.flow))
  }

  /** `_handle_sdk_topic_push` for a registered slot. */
  function Push(s: Slot, f: Frame): (s': Slot)
    ensures SameSubscription(s, s')
  {
    match s.state
    case Closed => s
    case Pending => s.(flow := Buffer(s.conf, Arrive(s.flow, f), f))
    case Paused => s.(flow := Drop(Arrive(s.flow, f)))
    case Active => Deliver(s.(flow := Arrive(s.flow, f)), f)
  }

  /** The frames `_drain_pending_buffer` discards before the gate sees them. */
  predicate Stale(s: Slot, nextSeq: nat, f: Frame) {
    s.semantics.EventStream? && nextSeq > 0 && f.number != 0 && f.number < nextSeq
  }

  /** `_drain_pending_buffer`. */
  function Drain(s: Slot, nextSeq: nat): (s': Slot)
    ensures SameSubscription(s, s') && s'.flow.pending == []
    decreases |s.flow.pending|
  {
    if s.flow.pending == [] then s
    else
      var front, rest := s.flow.pending[0], s.(flow := s.flow.(pending := s.flow.pending[1..]));
      if Stale(s, nextSeq, front)
      then Drain(rest.(flow := Drop(rest.flow)), nextSeq)
      else Drain(Deliver(rest, front), nextSeq)
  }

  /** One turn of `_sub_dispatch_worker`: take one frame and hand it to the callback. */
  function Work(s: Slot): (s': Slot)
    ensures SameSubscription(s, s')
  {
    if s.state.Closed? || s.flow.queue == [] then s else s.(flow := Take(s.flow))
  }

  // ----- Subscribing -----

  /** The resume point a reconnect asks for (`_resubscribe_all_after_reconnect`). */
  function SinceSeq(s: Slot, replayHistory: bool): nat {
    if s.semantics.EventStream? && replayHistory && s.lastSeq > 0 then s.lastSeq + 1 else 0
  }

  /** `_send_subscribe` up to the send. */
  function Ask(s: Slot, rid: nat, sinceSeq: nat, reconnecting: bool): Slot {
    s.(expectedResumeSeq := if s.semantics.Telemetry? then 0 else sinceSeq,
       isReconnectResume := s.state.Paused? || (s.everActive && reconnecting),
       state := Pending,
       inflightId := rid)
  }

  /** The request is no longer outstanding: its send failed, or its answer is being handled. */
  function Unask(s: Slot): Slot {
    s.(inflightId := 0)
  }

  /** A reconnect round gives every slot one fresh retry. */
  function BeginRound(s: Slot): Slot {
    s.(freshRetryDone := false)
  }

  /** History was refused: forget the position. */
  function Restart(s: Slot): Slot {
    Note(s.(lastSeq := 0, freshRetryDone := true), Restarted)
  }

  /** An accepted acknowledgement of a TELEMETRY subscribe, before the drain. */
  function RestartTelemetry(s: Slot): Slot {
    Note(Note(s.(lastSeq := 0, state := Active), AcceptedTelemetry),
         Status(if s.isReconnectResume then Resumed else Started, 0))
  }

  /** STARTED only for a fresh request that does not resume anything. */
  function AckKind(s: Slot): StatusKind {
    if s.expectedResumeSeq == 0 && !s.isReconnectResume then Started else Resumed
  }

  /** The gap an accepted acknowledgement reports: what the server skipped past the point asked for. */
  function AckGap(s: Slot, next: nat): nat {
    if s.expectedResumeSeq != 0 && next > s.expectedResumeSeq then next - s.expectedResumeSeq else 0
  }

  /** The position it leaves. A resume exactly where asked keeps it. */
  function AckPosition(s: Slot, next: nat): nat {
    if s.expectedResumeSeq != 0 && next == s.expectedResumeSeq then s.lastSeq
    else if next >= 1 then next - 1
    else 0
  }

  /** An accepted acknowledgement of an EVENT subscribe, before the drain. */
  function Reposition(s: Slot, next: nat): Slot {
    Note(Note(s.(lastSeq := AckPosition(s, next), state := Active), Accepted(s.expectedResumeSeq, next)),
         Status(AckKind(s), AckGap(s, next)))
  }

  /** The accepted branches of `_handle_subscribe_ack`. */
  function Activate(s: Slot, next: nat): (s': Slot)
    ensures s'.state.Active? && s'.everActive && s'.topic == s.topic && s'.inflightId == s.inflightId
    ensures s'.freshRetryDone == s.freshRetryDone
  {
    (if s.semantics.Telemetry? then Drain(RestartTelemetry(s), 0) else Drain(Reposition(s, next), next))
      .(everActive := true, isReconnectResume := false)
  }

  // ----- Losing the stream -----

  /** What `_on_transport_close` does to each slot. */
  function Pause(s: Slot): Slot {
    var s1 := if s.state.Active? || s.state.Pending? then Note(s.(state := Paused), Status(Suspended, 0)) else s;
    s1.(flow := Clear(s.flow), inflightId := 0)
  }

  /** Every way of closing announces CLOSED. */
  function Close(s: Slot): Slot {
    Note(s.(state := Closed), Status(Ended, 0))
  }
}
