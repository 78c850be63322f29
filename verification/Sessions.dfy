/** The client session engine `RobotImpl` as a step machine
    (karo_x2_sdk/_internal/robot_impl.py:210-588, 747-774, 809-978, 1041-1105, 1115-1207, 1314-1416, 1461-1515).

    One step is what runs between two suspensions of the event loop: a handler, followed by the awaiting
    coroutines whose futures it completed. Sends and closes are atomic with an outcome chosen by the event.
    Error codes are represented by their category. */
module Sessions {
  import opened Flows
  import opened Chronicles
  import opened Streams

  datatype ConnState = Idle | Connecting | Ready | TransientFailure | Reconnecting | Shutdown | Fatal

  /** `classify` of an error code. */
  datatype Category = TransientError | ApplicationError | FatalError | LocalError

  /** The connect options the engine reads; maxAttempts < 0 means no limit. */
  datatype Opts = Opts(maxAttempts: int, replayHistory: bool, heartbeatOn: bool, conf: Conf)

  /** Who awaits an entry of `_inflight`. */
  datatype Rpc = Handshake | Replay | EStop(engage: bool) | Unsubscribing(key: Key) | CmdVel | Ping | Other

  /** A slot, as the coroutine that unsubscribes it holds it. */
  datatype Key = Key(topic: Topic, serial: nat)

  /** How a call through `_send_rpc_and_wait` ended. */
  datatype Outcome = Answered(rid: nat) | TimedOut | NotSent | Aborted(cat: Category)

  /** The suspended `_establish`, if any, with the reconnect task it runs in. */
  datatype Est =
    | NoEst
    | AtConnect(reconnect: bool, task: nat)
    | AtHandshake(reconnect: bool, task: nat, rid: nat)

  /** What went over the current connection. */
  datatype WireEvent = Sent(cmd: Command) | ReplayAccepted
  datatype Command = CmdHandshake | CmdSubscribe(rid: nat, topic: Topic, since: nat) | CmdReplay | CmdBusiness(kind: Rpc)

  /** History of the current connection: whether it was opened by a reconnect, whether the emergency stop
      was engaged when it was opened, whether its barrier had to wait, whether its heartbeat loop found the
      socket closed and quit, and its traffic. */
  datatype Wire = Wire(reconnect: bool, engaged: bool, waited: bool, quit: bool, log: seq<WireEvent>)

  /** Tasks of the event loop the engine has created: sleeping reconnect timers with the attempt each will
      make, the one `_reconnect_task` refers to, a replay and aborts created but not yet started. */
  datatype Tasks = Tasks(timers: map<nat, nat>, reconnectTask: nat, nextTask: nat, replayQueued: bool, aborts: nat)

  /** The reconnect barrier, with its history: the slots registered since the round began, and the slots
      that left the registry without their answer being counted. */
  datatype Barrier = Barrier(subsPending: nat, estopPending: bool, round: set<Topic>, lost: nat)

  /** History of the registry: the topics in the order they were registered (a slot's serial is its place),
      the slots that have left it, and those among them that were pushed out unclosed. */
  datatype Past = Past(born: seq<Topic>, retired: map<Key, Slot>, displaced: set<Key>)

  /** The request counter, the calls in flight, the subscribes asked with their acknowledgement timers,
      and, as history, how each call ended. */
  datatype Table = Table(
    nextRid: nat, inflight: map<nat, Rpc>, asked: map<nat, Topic>, ackTimers: set<nat>, ended: map<nat, Outcome>)

  datatype Session = Session(
    opts: Opts,
    state: ConnState,
    open: bool,                     // `_ws` is set
    table: Table,
    subs: map<Topic, Slot>,
    catalog: map<Topic, Semantics>,
    attempt: nat,
    totalCount: nat,                // `_reconnect_total_count`
    engaged: bool,                  // `_last_estop_intent` is "engaged"
    heartbeat: bool,                // a heartbeat loop is running
    est: Est,
    barrier: Barrier,
    tasks: Tasks,
    wire: Wire,
    past: Past
  )

  function Init(opts: Opts): Session {
    Session(opts, Idle, false, Table(1, map[], map[], {}, map[]), map[], map[], 0, 0, false, false, NoEst,
            Barrier(0, false, {}, 0), Tasks(map[], 0, 1, false, 0), Wire(false, false, false, false, []), Past([], map[], {}))
  }

  predicate Terminal(s: Session) {
    s.state.Shutdown? || s.state.Fatal?
  }

  // ----- Small pieces -----

  function Transmit(s: Session, e: WireEvent): Session {
    s.(wire := s.wire.(log := s.wire.log + [e]))
  }

  /** A reconnect timer for the next attempt, or, past the limit, a task that will abort. */
  function PlanReconnect(k: Tasks, attempt: nat, maxAttempts: int): Tasks {
    if 0 <= maxAttempts < attempt + 1 then k.(aborts := k.aborts + 1)
    else k.(timers := k.timers[k.nextTask := attempt + 1], reconnectTask := k.nextTask, nextTask := k.nextTask + 1)
  }

  /** `_schedule_reconnect(self._reconnect_attempt + 1)`. */
  function Schedule(s: Session): Session {
    if Terminal(s) then s else s.(tasks := PlanReconnect(s.tasks, s.attempt, s.opts.maxAttempts))
  }

  /** `_reconnect_task.cancel()` from another task: a sleeping timer or a suspended `_establish` dies. */
  function CancelReconnect(s: Session): Session {
    s.(tasks := s.tasks.(timers := s.tasks.timers - {s.tasks.reconnectTask}),
       est := if !s.est.NoEst? && s.est.reconnect && s.est.task == s.tasks.reconnectTask then NoEst else s.est)
  }

  // ----- The tables -----

  /** `_next_rid`. */
  function NextRid(b: Table): Table {
    b.(nextRid := b.nextRid + 1)
  }

  function Register(b: Table, rid: nat, kind: Rpc): Table {
    b.(inflight := b.inflight[rid := kind])
  }

  /** One call ends. */
  function Resolve(b: Table, rid: nat, o: Outcome): Table {
    b.(inflight := b.inflight - {rid}, ended := b.ended[rid := o])
  }

  /** Every registered future gets the error, every acknowledgement timer is cancelled. */
  function Flush(b: Table, cat: Category): Table {
    Table(b.nextRid, map[], map[], {}, b.ended + (map r | r in b.inflight :: Aborted(cat)))
  }

  function Asked(b: Table, rid: nat, t: Topic): Table {
    b.(asked := b.asked[rid := t], ackTimers := b.ackTimers + {rid})
  }

  function Unasked(b: Table, rid: nat): Table {
    b.(asked := b.asked - {rid}, ackTimers := b.ackTimers - {rid})
  }

  predicate ReplayOut(b: Table) {
    exists r :: r in b.inflight && b.inflight[r] == Replay
  }

  // ----- Slots -----

  function Retire(p: Past, t: Topic, slot: Slot): Past {
    p.(retired := p.retired[Key(t, slot.serial) := Close(slot)])
  }

  function RetireAll(p: Past, subs: map<Topic, Slot>): Past {
    p.(retired := p.retired + map t | t in subs :: Key(t, subs[t].serial) := Close(subs[t]))
  }

  /** Topic `t` is taken out of the registry. */
  function Removed(s: Session, t: Topic, p: Past): Session {
    s.(subs := s.subs - {t}, barrier := s.barrier.(round := s.barrier.round - {t}), past := p)
  }

  /** A slot is closed and leaves the registry. */
  function Unregister(s: Session, t: Topic): Session {
    Removed(s, t, if t in s.subs then Retire(s.past, t, s.subs[t]) else s.past)
  }

  /** A slot that has left already is closed, again or at last. */
  function CloseAgain(p: Past, k: Key): Past {
    if k in p.retired then p.(retired := p.retired[k := Close(p.retired[k])], displaced := p.displaced - {k}) else p
  }

  /** Another subscription of the same topic is pushed out of the registry as it is. */
  function Displace(p: Past, t: Topic, slot: Slot): Past {
    var k := Key(t, slot.serial);
    p.(retired := p.retired[k := slot], displaced := p.displaced + {k})
  }

  predicate Registered(s: Session, k: Key) {
    k.topic in s.subs && s.subs[k.topic].serial == k.serial
  }

  /** `unsubscribe_request` resumes: its slot is closed, whether or not it was closed before, and its topic
      is taken out of the registry, whichever slot holds it now. */
  function Leave(s: Session, k: Key): Session {
    if Registered(s, k) then Unregister(s, k.topic)
    else
      Removed(s, k.topic, CloseAgain(if k.topic in s.subs then Displace(s.past, k.topic, s.subs[k.topic]) else s.past, k))
  }

  /** A slot leaves the registry and, if its answer was outstanding, the barrier keeps waiting for it. */
  function Abandon(s: Session, t: Topic): Session
    requires t in s.subs
  {
    var s1 := Unregister(s, t);
    if s.subs[t].inflightId == 0 then s1 else s1.(barrier := s1.barrier.(lost := s1.barrier.lost + 1))
  }

  /** `_transition(READY)` at the end of a reconnect. */
  function ReachReady(s: Session): Session {
    s.(attempt := 0, totalCount := s.totalCount + 1, state := Ready)
  }

  /** `_send_rpc_and_wait` up to the await: registered and sent, or ended at once. */
  function Call(s: Session, rid: nat, kind: Rpc, cmd: Command, sendOk: bool): Session {
    if s.open && sendOk
    then Transmit(s.(table := Register(s.table, rid, kind)), Sent(cmd))
    else s.(table := Resolve(s.table, rid, NotSent))
  }

  // ----- Losing the connection -----

  /** The body of `_on_transport_close` past its terminal check. */
  function LoseConnection(s: Session, cat: Category): Session {
    Schedule(s.(table := Flush(s.table, cat), subs := map t | t in s.subs :: Pause(s.subs[t]),
                heartbeat := false, state := TransientFailure, open := false))
  }

  /** `_abort_to_fatal` without the coroutines it wakes. */
  function AbortBody(s: Session, cat: Category): Session {
    CancelReconnect(s.(table := Flush(s.table, cat), subs := map[], barrier := s.barrier.(round := {}),
                       heartbeat := false, state := Fatal, open := false, past := RetireAll(s.past, s.subs)))
  }

  /** `_establish` resumes with an error of its handshake. */
  function HandshakeFailed(s: Session, cat: Category): Session {
    if cat.FatalError? then AbortBody(s.(est := NoEst), cat)
    else Schedule(s.(est := NoEst, state := TransientFailure, open := false))
  }

  /** `_do_estop_replay` resumes with an error. */
  function ReplayFailed(s: Session): Session {
    var s1 := s.(barrier := s.barrier.(estopPending := false));
    if Terminal(s1) then s1 else LoseConnection(s1, TransientError)
  }

  /** The unsubscribe calls below id `n` resume with an error, in the order they were made. */
  function LeaveUpTo(s: Session, calls: map<nat, Rpc>, n: nat): Session {
    if n == 0 then s
    else
      var s1 := LeaveUpTo(s, calls, n - 1);
      if n - 1 in calls && calls[n - 1].Unsubscribing? then Leave(s1, calls[n - 1].key) else s1
  }

  function LeaveAll(s: Session, b: Table): Session {
    LeaveUpTo(s, b.inflight, b.nextRid)
  }

  /** The coroutines whose calls were in flight in `before` resume with the error, in `s`. */
  function Wake(s: Session, before: Table, cat: Category): Session {
    var s1 := LeaveAll(s, before);
    var s2 := if ReplayOut(before) then ReplayFailed(s1) else s1;
    if s2.est.AtHandshake? && s2.est.rid in before.inflight then HandshakeFailed(s2, cat) else s2
  }

  /** `_on_transport_close` and the coroutines it wakes. */
  function OnTransportClose(s: Session, cat: Category): Session {
    if Terminal(s) then s else Wake(LoseConnection(s, cat), s.table, cat)
  }

  /** `_abort_to_fatal` and the coroutines it wakes. */
  function Abort(s: Session, cat: Category): Session {
    Wake(AbortBody(s, cat), s.table, cat)
  }

  /** `close()` without the coroutines it wakes. */
  function CloseBody(s: Session): Session {
    CancelReconnect(s.(table := Flush(s.table, LocalError), subs := map[], barrier := s.barrier.(round := {}),
                       heartbeat := false, state := Shutdown, open := false, past := RetireAll(s.past, s.subs)))
  }

  /** `close()` and the coroutines it wakes. */
  function UserClose(s: Session): Session {
    if s.state.Shutdown? then s else Wake(CloseBody(s), s.table, LocalError)
  }

  // ----- Subscribing -----

  datatype SendResult = EncodeFails | SendFails | SendOk

  /** `_send_subscribe`. */
  function SendSubscribe(s: Session, t: Topic, sinceSeq: nat, send: SendResult): Session
    requires t in s.subs
  {
    var rid := s.table.nextRid;
    var s1 := s.(table := NextRid(s.table));
    if send.EncodeFails? then
      var s2 := Unregister(s1, t);
      s2.(barrier := s2.barrier.(lost := s2.barrier.lost + 1))
    else
      var slot := Ask(s.subs[t], rid, sinceSeq, s.state.Reconnecting?);
      if s.open && send.SendOk? then
        Transmit(s1.(subs := s1.subs[t := slot], table := Asked(s1.table, rid, t)), Sent(CmdSubscribe(rid, t, slot.expectedResumeSeq)))
      else
        OnTransportClose(s1.(subs := s1.subs[t := Unask(slot)]), TransientError)
  }

  /** `_maybe_finish_reconnect`. */
  function Finish(s: Session, phase: bool): Session {
    if phase && s.barrier.subsPending > 0 then
      var s1 := s.(barrier := s.barrier.(subsPending := s.barrier.subsPending - 1));
      if s1.barrier.subsPending == 0 && !s1.barrier.estopPending then ReachReady(s1) else s1
    else s
  }

  /** A subscribe acknowledgement: refused with an error code, rejected (because the history asked for
      cannot be replayed, or otherwise), or granted with the next sequence number. */
  datatype Ack = Refused(cat: Category) | Rejected(history: bool) | Granted(next: nat)

  /** `_handle_subscribe_ack` once the answer has been matched to its slot; `retry` is the outcome of the
      fresh subscribe it may send. */
  function Answer(s: Session, t: Topic, ack: Ack, retry: SendResult): Session
    requires t in s.subs
  {
    var slot := s.subs[t];
    var phase := s.state.Reconnecting?;
    match ack
    case Refused(cat) =>
      if cat.FatalError? then Abort(s, cat)
      else if cat.TransientError? then
        if phase then OnTransportClose(s, cat) else Unregister(s, t)
      else Finish(Unregister(s, t), phase)
    case Rejected(history) =>
      if slot.semantics.EventStream? && history && !slot.freshRetryDone
      then SendSubscribe(s.(subs := s.subs[t := Restart(slot)]), t, 0, retry)
      else Finish(Unregister(s, t), phase)
    case Granted(next) =>
      Finish(s.(subs := s.subs[t := Activate(slot, next)]), phase)
  }

  /** An acknowledgement that finds its slot, which is no longer outstanding while it is handled. */
  predicate MatchesSlot(s: Session, rid: nat) {
    rid in s.table.asked && s.table.asked[rid] in s.subs && s.subs[s.table.asked[rid]].inflightId == rid
  }

  function Matched(s: Session, rid: nat): Session
    requires MatchesSlot(s, rid)
  {
    var t := s.table.asked[rid];
    s.(table := Unasked(s.table, rid), subs := s.subs[t := Unask(s.subs[t])])
  }

  /** `_handle_subscribe_ack`. */
  function HandleAck(s: Session, rid: nat, ack: Ack, retry: SendResult): Session {
    if MatchesSlot(s, rid) then Answer(Matched(s, rid), s.table.asked[rid], ack, retry)
    else if rid in s.table.asked then s.(table := Unasked(s.table, rid))
    else s
  }

  /** `_resubscribe_all_after_reconnect` over the slots in registration order. */
  function Resubscribe(s: Session, order: seq<Topic>, sends: seq<SendResult>): Session
    requires |order| == |sends|
    decreases |order|
  {
    if order == [] then s
    else if order[0] !in s.subs then Resubscribe(s, order[1..], sends[1..])
    else
      var slot := BeginRound(s.subs[order[0]]);
      Resubscribe(SendSubscribe(s.(subs := s.subs[order[0] := slot]), order[0],
                                SinceSeq(slot, s.opts.replayHistory), sends[0]),
                  order[1..], sends[1..])
  }

  /** The subscribes `_establish` sends when the first connection is READY. */
  function SubscribeWaiting(s: Session, order: seq<Topic>, sends: seq<SendResult>): Session
    requires |order| == |sends|
    decreases |order|
  {
    if order == [] then s
    else if order[0] in s.subs && s.subs[order[0]].state.Pending? && s.subs[order[0]].inflightId == 0
    then SubscribeWaiting(SendSubscribe(s, order[0], 0, sends[0]), order[1..], sends[1..])
    else SubscribeWaiting(s, order[1..], sends[1..])
  }

  // ----- Establishing -----

  /** The topics the robot offers, the registration order of the slots, and the fate of each subscribe. */
  datatype Plan = Plan(catalog: map<Topic, Semantics>, order: seq<Topic>, sends: seq<SendResult>)

  /** `order` lists the registered topics, each once. */
  ghost predicate Enumerates(order: seq<Topic>, topics: set<Topic>) {
    && |order| == |topics|
    && (forall i :: 0 <= i < |order| ==> order[i] in topics)
    && (forall i, j :: 0 <= i < j < |order| ==> order[i] != order[j])
  }

  function SemanticsOf(catalog: map<Topic, Semantics>, t: Topic): Semantics {
    if t in catalog then catalog[t] else Telemetry
  }

  /** The handshake's answer is taken in: the catalogue decides the semantics of every slot. */
  function Learn(s: Session, catalog: map<Topic, Semantics>): Session {
    s.(est := NoEst, catalog := catalog,
       subs := map t | t in s.subs :: s.subs[t].(semantics := SemanticsOf(catalog, t)))
  }

  /** The reconnect barrier is set up. */
  function SetBarrier(s: Session): Session {
    s.(barrier := Barrier(|s.subs|, s.engaged, s.subs.Keys, 0))
  }

  /** `_establish` from an accepted handshake on. The heartbeat task it creates looks at the state when it
      starts: it only runs if that is READY already. */
  function Established(s: Session, reconnect: bool, plan: Plan): Session
    requires |plan.order| == |plan.sends|
  {
    var s1 := Learn(s, plan.catalog);
    if !reconnect then
      SubscribeWaiting(s1.(state := Ready, heartbeat := s.opts.heartbeatOn), plan.order, plan.sends)
    else
      var s2 := SetBarrier(s1);
      if s2.barrier.subsPending == 0 && !s2.barrier.estopPending then
        ReachReady(s2).(heartbeat := s.opts.heartbeatOn)
      else
        var s3 := Resubscribe(s2.(wire := s2.wire.(waited := true)), plan.order, plan.sends);
        s3.(tasks := s3.tasks.(replayQueued := s3.tasks.replayQueued || s3.barrier.estopPending))
  }

  /** `_establish` resumes when the connect is over. */
  function Connected(s: Session, ok: bool, cat: Category, encodeOk: bool, sendOk: bool): Session
    requires s.est.AtConnect?
  {
    if !ok then
      if cat.FatalError? then Abort(s.(est := NoEst), cat)
      else Schedule(s.(est := NoEst, state := TransientFailure))
    else
      var rid := s.table.nextRid;
      var s1 := s.(table := NextRid(s.table), open := true, wire := Wire(s.est.reconnect, s.engaged, false, false, []));
      if !encodeOk then Abort(s1.(est := NoEst), cat)
      else if sendOk then
        Call(s1, rid, Handshake, CmdHandshake, true).(est := AtHandshake(s.est.reconnect, s.est.task, rid))
      else HandshakeFailed(Call(s1, rid, Handshake, CmdHandshake, false), TransientError)
  }

  // ----- Calls -----

  /** The coroutine awaiting a call of kind `kind` resumes: with an accepted answer (`ok`), a refusal of
      category `cat`, or a timeout (then `ok` is false and `cat` transient). */
  function Resume(s: Session, kind: Rpc, ok: bool, cat: Category, plan: Plan): Session
    requires |plan.order| == |plan.sends|
  {
    match kind
    case Handshake =>
      if !s.est.AtHandshake? then s
      else if ok then Established(s, s.est.reconnect, plan)
      else HandshakeFailed(s, cat)
    case Replay =>
      var s1 := s.(barrier := s.barrier.(estopPending := false));
      if !ok then OnTransportClose(s1, cat)
      else
        var s2 := Transmit(s1, ReplayAccepted);
        if s2.barrier.subsPending == 0 then ReachReady(s2) else s2
    case EStop(engage) => if ok then s.(engaged := engage) else s
    case Unsubscribing(k) => Leave(s, k)
    case _ => s
  }

  /** `_do_estop_replay` starts. */
  function StartReplay(s: Session, sendOk: bool): Session {
    var rid := s.table.nextRid;
    var s1 := Call(s.(table := NextRid(s.table), tasks := s.tasks.(replayQueued := false)), rid, Replay, CmdReplay, sendOk);
    if s.open && sendOk then s1 else OnTransportClose(s1.(barrier := s1.barrier.(estopPending := false)), TransientError)
  }

  /** `cmd_vel`, `emergency_stop_rpc`, `ping` and the task calls. */
  function Order(s: Session, kind: Rpc, sendOk: bool): Session {
    if !s.state.Ready? then s else Call(s.(table := NextRid(s.table)), s.table.nextRid, kind, CmdBusiness(kind), sendOk)
  }

  /** `_subscribe_internal`. */
  function Subscribe(s: Session, t: Topic, send: SendResult): Session {
    if t in s.subs then s
    else
      var slot := NewSlot(t, |s.past.born|, s.opts.conf, SemanticsOf(s.catalog, t));
      var s1 := s.(subs := s.subs[t := slot], past := s.past.(born := s.past.born + [t]));
      if s.state.Ready? then SendSubscribe(s1, t, 0, send) else s1
  }

  /** `unsubscribe_request`; `live` is whether the socket reports itself open. */
  function Unsubscribe(s: Session, t: Topic, syncWait: bool, live: bool, sendOk: bool): Session {
    if t !in s.subs then s
    else if !s.state.Ready? || !s.open || !live then Abandon(s, t)
    else
      var s1 := s.(table := NextRid(s.table));
      var kind := Unsubscribing(Key(t, s.subs[t].serial));
      if !syncWait then Unregister(if sendOk then Transmit(s1, Sent(CmdBusiness(kind))) else s1, t)
      else if sendOk then Call(s1, s.table.nextRid, kind, CmdBusiness(kind), true)
      else Unregister(Call(s1, s.table.nextRid, kind, CmdBusiness(kind), false), t)
  }

  /** The heartbeat loop sends a ping, or ends when the socket is no longer open. */
  function Beat(s: Session, live: bool, sendOk: bool): Session {
    if !s.open || !live then s.(heartbeat := false, wire := s.wire.(quit := true))
    else
      var s1 := Call(s.(table := NextRid(s.table)), s.table.nextRid, Ping, CmdBusiness(Ping), sendOk);
      if sendOk then s1 else OnTransportClose(s1, TransientError)
  }

  // ----- Workers and timers -----

  /** One turn of the dispatch worker of a slot, which runs on when its slot is pushed out unclosed. */
  function WorkOn(s: Session, k: Key): Session {
    if Registered(s, k) then s.(subs := s.subs[k.topic := Work(s.subs[k.topic])])
    else if k in s.past.retired then s.(past := s.past.(retired := s.past.retired[k := Work(s.past.retired[k])]))
    else s
  }

  /** A reconnect timer has slept. */
  function FireTimer(s: Session, task: nat): Session
    requires task in s.tasks.timers
  {
    var s1 := s.(tasks := s.tasks.(timers := s.tasks.timers - {task}));
    if s.state.TransientFailure?
    then s1.(attempt := s.tasks.timers[task], state := Reconnecting, est := AtConnect(true, task))
    else s1
  }

  // ----- Steps -----

  datatype Event =
    | Connect
    | ConnectOver(ok: bool, cat: Category, encodeOk: bool, sendOk: bool)
    | RpcAnswered(rid: nat, ok: bool, cat: Category, plan: Plan)
    | RpcTimedOut(rid: nat)
    | AckArrived(rid: nat, ack: Ack, retry: SendResult)
    | AckTimedOut(rid: nat)
    | Pushed(topic: Topic, frame: Frame)
    | Worked(key: Key)
    | TransportClosed(cat: Category)
    | TimerFired(task: nat)
    | AbortStarted
    | ReplayStarted(sendOk: bool)
    | HeartbeatSent(live: bool, sendOk: bool)
    | HeartbeatDead
    | Closed
    | Subscribed(topic: Topic, send: SendResult)
    | Unsubscribed(topic: Topic, syncWait: bool, live: bool, sendOk: bool)
    | Commanded(kind: Rpc, sendOk: bool)

  function NoPlan(): Plan {
    Plan(map[], [], [])
  }

  /** When an event can happen. A transport that is being replaced does not report its close while the next
      connect is in progress (`WsClient.close` waits for its read loop), and no reconnect timer attempts between
      the creation of a replay task and its start, which is the next turn of the event loop: otherwise that
      replay would fail, and report another loss, while the attempt is suspended in its connect. */
  ghost predicate Enabled(s: Session, e: Event) {
    match e
    case ConnectOver(_, _, _, _) => s.est.AtConnect?
    case RpcAnswered(rid, ok, _, plan) =>
      |plan.order| == |plan.sends| && (rid in s.table.inflight && s.table.inflight[rid].Handshake? ==> Enumerates(plan.order, s.subs.Keys))
    case TransportClosed(_) => !s.state.Idle? && !s.est.AtConnect?
    case TimerFired(task) => task in s.tasks.timers && !(s.state.TransientFailure? && s.tasks.replayQueued)
    case AbortStarted => s.tasks.aborts > 0
    case ReplayStarted(_) => s.tasks.replayQueued
    case HeartbeatSent(_, _) => s.heartbeat
    case HeartbeatDead => s.heartbeat
    case Commanded(kind, _) => !kind.Handshake? && !kind.Replay? && !kind.Unsubscribing?
    case _ => true
  }

  function Step(s: Session, e: Event): Session
    requires Enabled(s, e)
  {
    match e
    case Connect => if s.state.Idle? then s.(state := Connecting, est := AtConnect(false, 0)) else s
    case ConnectOver(ok, cat, encodeOk, sendOk) => Connected(s, ok, cat, encodeOk, sendOk)
    case RpcAnswered(rid, ok, cat, plan) =>
      if rid in s.table.inflight
      then Resume(s.(table := Resolve(s.table, rid, Answered(rid))), s.table.inflight[rid], ok, cat, plan)
      else s
    case RpcTimedOut(rid) =>
      if rid in s.table.inflight
      then Resume(s.(table := Resolve(s.table, rid, TimedOut)), s.table.inflight[rid], false, TransientError, NoPlan())
      else s
    case AckArrived(rid, ack, retry) => HandleAck(s, rid, ack, retry)
    case AckTimedOut(rid) => if rid in s.table.ackTimers then OnTransportClose(s, TransientError) else s
    case Pushed(t, f) => if t in s.subs then s.(subs := s.subs[t := Push(s.subs[t], f)]) else s
    case Worked(k) => WorkOn(s, k)
    case TransportClosed(cat) => OnTransportClose(s, cat)
    case TimerFired(task) => FireTimer(s, task)
    case AbortStarted => Abort(s.(tasks := s.tasks.(aborts := s.tasks.aborts - 1)), TransientError)
    case ReplayStarted(sendOk) => StartReplay(s, sendOk)
    case HeartbeatSent(live, sendOk) => Beat(s, live, sendOk)
    case HeartbeatDead => OnTransportClose(s, TransientError)
    case Closed => UserClose(s)
    case Subscribed(t, send) => Subscribe(s, t, send)
    case Unsubscribed(t, syncWait, live, sendOk) => Unsubscribe(s, t, syncWait, live, sendOk)
    case Commanded(kind, sendOk) => Order(s, kind, sendOk)
  }
}
