/** The frames of one stream: the pending buffer, the bounded dispatch queue and what became of every push
    (karo_x2_sdk/_internal/robot_impl.py:591-613, 640-691, 1015-1022). */
module Flows {
  import opened Subsequences

  datatype DropPolicy = DropOldest | DropNewest
  datatype CallbackMode = Dispatched | Inline

  /** Validation keeps subscription_queue_size at 1 or more. */
  type QueueSize = n: int | 1 <= n witness 1

  datatype Conf = Conf(mode: CallbackMode, policy: DropPolicy, queueSize: QueueSize)

  /** A push: its sequence number on the wire (0 when unnumbered) and the identity of its payload. */
  datatype Frame = Frame(number: nat, payload: nat)

  /** The two buffers and the counters of a slot, followed by a history the client never reads:
      what arrived, what passed the sequence gate, what reached the callback, how many duplicates and
      regressions were rejected, and how many frames a closing transport threw away. */
  datatype Flow = Flow(
    pending: seq<Frame>, queue: seq<Frame>, dropCount: nat, messagesReceived: nat,
    arrived: seq<Frame>, admitted: seq<Frame>, delivered: seq<Frame>, rejected: nat, cleared: nat)

  function NoFlow(): Flow {
    Flow([], [], 0, 0, [], [], [], 0, 0)
  }

  function Arrive(w: Flow, f: Frame): Flow {
    w.(arrived := w.arrived + [f])
  }

  function Drop(w: Flow): Flow {
    w.(dropCount := w.dropCount + 1)
  }

  function Reject(w: Flow): Flow {
    w.(rejected := w.rejected + 1)
  }

  /** A push to a PENDING slot. */
  function Buffer(c: Conf, w: Flow, f: Frame): Flow {
    if |w.pending| >= c.queueSize then
      if c.policy.DropNewest? then Drop(w)
      else Drop(w.(pending := w.pending[1..] + [f]))
    else w.(pending := w.pending + [f])
  }

  /** The tail of `_deliver_push_to_sub`: the callback at once, or the bounded dispatch queue. */
  function Dispatch(c: Conf, w: Flow, f: Frame): Flow {
    if c.mode.Inline? then w.(delivered := w.delivered + [f])
    else if |w.queue| >= c.queueSize then
      if c.policy.DropOldest? then Drop(w.(queue := w.queue[1..] + [f]))
      else Drop(w)
    else w.(queue := w.queue + [f])
  }

  /** A frame that passed the gate. */
  function Admit(c: Conf, w: Flow, f: Frame): Flow {
    Dispatch(c, w.(messagesReceived := w.messagesReceived + 1, admitted := w.admitted + [f]), f)
  }

  /** `_sub_dispatch_worker` hands the oldest queued frame to the callback. */
  function Take(w: Flow): Flow
    requires w.queue != []
  {
    w.(queue := w.queue[1..], delivered := w.delivered + [w.queue[0]])
  }

  function Clear(w: Flow): Flow {
    w.(pending := [], cleared := w.cleared + |w.pending|)
  }

  // ----- Where every frame is -----

  /** Every frame that arrived is somewhere; `inHand` counts the frame a handler is working on, if any. */
  ghost predicate Conserved(c: Conf, w: Flow, inHand: nat) {
    && |w.arrived| == |w.delivered| + |w.queue| + |w.pending| + inHand + w.dropCount + w.rejected + w.cleared
    && |w.pending| <= c.queueSize
    && |w.queue| <= c.queueSize
    && w.messagesReceived == |w.admitted|
    && (c.mode.Inline? ==> w.queue == [])
  }

  /** Callback frames followed by queued ones come in admission order. */
  ghost predicate OutInOrder(w: Flow) {
    Subsequence(w.delivered + w.queue, w.admitted)
  }

  /** Admitted frames followed by buffered ones come in arrival order. */
  ghost predicate InOrder(w: Flow) {
    Subsequence(w.admitted + w.pending, w.arrived)
  }

  /** The same while a handler holds `f`: its place is between the admitted and the buffered frames. */
  ghost predicate InPlace(w: Flow, f: Frame) {
    Subsequence(w.admitted + ([f] + w.pending), w.arrived)
  }

  ghost predicate EndsWith(all: seq<Frame>, tail: seq<Frame>) {
    |tail| <= |all| && tail == all[|all| - |tail|..]
  }

  /** With INLINE callbacks what is admitted is handed on at once. Under DROP_OLDEST the buffers hold the most
      recent frames: those that have arrived, and those that were admitted, without a break. */
  ghost predicate Recent(c: Conf, w: Flow) {
    && (c.mode.Inline? ==> w.delivered == w.admitted)
    && (c.policy.DropOldest? ==> EndsWith(w.arrived, w.pending) && (c.mode.Dispatched? ==> EndsWith(w.admitted, w.queue)))
  }

  /** What a flow keeps between handlers ... */
  ghost predicate Sound(c: Conf, w: Flow) {
    Conserved(c, w, 0) && OutInOrder(w) && InOrder(w) && Recent(c, w)
  }

  /** ... and while a handler holds a frame. */
  ghost predicate SoundHolding(c: Conf, w: Flow, f: Frame) {
    Conserved(c, w, 1) && OutInOrder(w) && InPlace(w, f) && Recent(c, w)
  }

  /** A push routed to an ACTIVE slot, whose pending buffer is empty. */
  lemma ArriveSound(c: Conf, w: Flow, f: Frame)
    requires Sound(c, w) && w.pending == []
    ensures SoundHolding(c, Arrive(w, f), f)
  {
    AppendBoth(w.admitted + w.pending, w.arrived, f);
    assert w.admitted + w.pending + [f] == w.admitted + ([f] + w.pending);
  }

  /** A frame in hand may be let go. */
  lemma LetGo(w: Flow, f: Frame)
    requires InPlace(w, f)
    ensures InOrder(w)
  {
    Omit(w.admitted, f, w.pending, w.arrived);
  }

  /** A push dropped on arrival. */
  lemma IgnoreSound(c: Conf, w: Flow, f: Frame)
    requires Sound(c, w) && w.pending == []
    ensures Sound(c, Drop(Arrive(w, f)))
  {
    AppendRight(w.admitted + w.pending, w.arrived, f);
  }

  lemma BufferConserves(c: Conf, w: Flow, f: Frame)
    requires Conserved(c, w, 0)
    ensures Conserved(c, Buffer(c, Arrive(w, f), f), 0)
  {}

  lemma BufferInOrder(c: Conf, w: Flow, f: Frame)
    requires InOrder(w)
    ensures InOrder(Buffer(c, Arrive(w, f), f))
  {
    var a, p := w.admitted, w.pending;
    AppendBoth(a + p, w.arrived, f);
    if |p| < c.queueSize {
      assert a + p + [f] == a + (p + [f]);
    } else if c.policy.DropNewest? {
      AppendRight(a + p, w.arrived, f);
    } else {
      assert a + p + [f] == a + ([p[0]] + (p[1..] + [f]));
      Omit(a, p[0], p[1..] + [f], w.arrived + [f]);
    }
  }

  /** One more at the end, whether or not the first goes. */
  lemma EndsWithMore(all: seq<Frame>, tail: seq<Frame>, f: Frame)
    requires EndsWith(all, tail)
    ensures EndsWith(all + [f], tail + [f])
    ensures tail != [] ==> EndsWith(all, tail[1..]) && EndsWith(all + [f], tail[1..] + [f])
  {}

  lemma BufferSound(c: Conf, w: Flow, f: Frame)
    requires Sound(c, w)
    ensures Sound(c, Buffer(c, Arrive(w, f), f))
  {
    BufferConserves(c, w, f);
    BufferInOrder(c, w, f);
    if c.policy.DropOldest? {
      EndsWithMore(w.arrived, w.pending, f);
    }
  }

  lemma DispatchConserves(c: Conf, w: Flow, f: Frame)
    requires Conserved(c, w, 1)
    ensures Conserved(c, Dispatch(c, w, f), 0)
  {}

  lemma DispatchInOrder(c: Conf, w: Flow, f: Frame)
    requires c.mode.Inline? ==> w.queue == []
    requires |w.queue| <= c.queueSize
    requires Subsequence(w.delivered + w.queue + [f], w.admitted)
    ensures OutInOrder(Dispatch(c, w, f))
  {
    var d, q := w.delivered, w.queue;
    if c.mode.Inline? {
      assert d + q + [f] == (d + [f]) + q;
    } else if |q| < c.queueSize {
      assert d + q + [f] == d + (q + [f]);
    } else if c.policy.DropOldest? {
      assert d + q + [f] == d + ([q[0]] + (q[1..] + [f]));
      Omit(d, q[0], q[1..] + [f], w.admitted);
    } else {
      PrefixOf(d + q, [f], w.admitted);
    }
  }

  lemma AdmitRecent(c: Conf, w: Flow, f: Frame)
    requires Recent(c, w) && |w.queue| <= c.queueSize
    ensures Recent(c, Admit(c, w, f)) && Admit(c, w, f).pending == w.pending
    ensures Admit(c, w, f).arrived == w.arrived && Admit(c, w, f).admitted == w.admitted + [f]
  {
    if c.policy.DropOldest? && c.mode.Dispatched? {
      EndsWithMore(w.admitted, w.queue, f);
    }
  }

  lemma AdmitSound(c: Conf, w: Flow, f: Frame)
    requires SoundHolding(c, w, f)
    ensures Sound(c, Admit(c, w, f)) && Admit(c, w, f).pending == w.pending
  {
    var w1 := w.(messagesReceived := w.messagesReceived + 1, admitted := w.admitted + [f]);
    AppendBoth(w.delivered + w.queue, w.admitted, f);
    DispatchConserves(c, w1, f);
    DispatchInOrder(c, w1, f);
    AdmitRecent(c, w, f);
    hide Recent, Dispatch;
    assert w.admitted + ([f] + w.pending) == w1.admitted + w.pending;
  }

  lemma RejectSound(c: Conf, w: Flow, f: Frame)
    requires SoundHolding(c, w, f)
    ensures Sound(c, Reject(w)) && Sound(c, Drop(w))
  {
    LetGo(w, f);
  }

  /** A buffered frame taken up by the drain keeps its place. */
  lemma PopSound(c: Conf, w: Flow)
    requires Sound(c, w) && w.pending != []
    ensures SoundHolding(c, w.(pending := w.pending[1..]), w.pending[0])
  {
    assert w.pending == [w.pending[0]] + w.pending[1..];
  }

  lemma TakeSound(c: Conf, w: Flow)
    requires Sound(c, w) && w.queue != []
    ensures Sound(c, Take(w))
  {
    assert w.delivered + w.queue == (w.delivered + [w.queue[0]]) + w.queue[1..];
  }

  lemma ClearSound(c: Conf, w: Flow)
    requires Sound(c, w)
    ensures Sound(c, Clear(w))
  {
    PrefixOf(w.admitted, w.pending, w.arrived);
    assert w.admitted + [] == w.admitted;
  }

  /** The frames at the callback and in the queue come in the order they arrived from the wire. */
  lemma EndToEndOrder(c: Conf, w: Flow)
    requires Sound(c, w)
    ensures Subsequence(w.delivered + w.queue, w.arrived)
  {
    PrefixOf(w.admitted, w.pending, w.arrived);
    Transitive(w.delivered + w.queue, w.admitted, w.arrived);
  }

  // ----- Under DROP_NEWEST nothing goes but the frame in hand -----

  /** What has been handed on or queued, and what is buffered, is only added to. */
  ghost predicate OnlyAdded(w: Flow, w': Flow) {
    w.delivered + w.queue <= w'.delivered + w'.queue && w.pending <= w'.pending
  }

  lemma BufferOnlyAdds(c: Conf, w: Flow, f: Frame)
    requires c.policy.DropNewest?
    ensures OnlyAdded(w, Buffer(c, Arrive(w, f), f))
  {}

  lemma AdmitOnlyAdds(c: Conf, w: Flow, f: Frame)
    requires c.policy.DropNewest? && (c.mode.Inline? ==> w.queue == [])
    ensures OnlyAdded(w, Admit(c, w, f))
  {}

  // ----- Flows that differ only in where refused frames were counted -----

  ghost predicate SameButCounters(v: Flow, w: Flow) {
    && w == v.(dropCount := w.dropCount, rejected := w.rejected)
    && v.dropCount + v.rejected == w.dropCount + w.rejected
  }

  lemma AdmitSameButCounters(c: Conf, v: Flow, w: Flow, f: Frame)
    requires SameButCounters(v, w)
    ensures SameButCounters(Admit(c, v, f), Admit(c, w, f))
  {}
}
