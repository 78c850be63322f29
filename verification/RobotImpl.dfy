/** The client session engine updated in place (karo_x2_sdk/_internal/robot_impl.py:107-180, 246-588, 747-774,
    809-978, 1041-1105, 1314-1335, 1461-1515). Every method is proved to do to the session exactly what the
    function of the same name in Sessions says, so that what is proved about runs holds of these fields.

    A method runs up to the next suspension and includes the awaiting coroutines it wakes: `est` is the
    suspended `_establish`, an entry of `inflight` the coroutine awaiting its answer. */
module RobotImpls {
  import opened Flows
  import opened Chronicles
  import opened Streams
  import opened SubSlots
  import opened Sessions
  import SessionInvariant
  import SessionSteps
  import SessionHistory

  /** The values of the registered slots. */
  ghost function Slots(subs: map<Topic, SubSlot>): map<Topic, Slot>
    reads subs.Values
  {
    map t | t in subs :: subs[t].View()
  }

  /** The values of the slots that have left the registry. */
  ghost function Gone(retired: map<Key, SubSlot>): map<Key, Slot>
    reads retired.Values
  {
    map k | k in retired :: retired[k].View()
  }

  predicate IsFor(slot: SubSlot, k: Key) {
    slot.topic == k.topic && slot.serial == k.serial
  }

  /** Slots are keyed by their own identity: the registered ones by their topic, the others by topic and serial. */
  ghost predicate Placed(subs: map<Topic, SubSlot>, retired: map<Key, SubSlot>, n: nat) {
    && (forall t :: t in subs ==> subs[t].topic == t && subs[t].serial < n && Key(t, subs[t].serial) !in retired)
    && (forall k :: k in retired ==> IsFor(retired[k], k) && k.serial < n)
  }

  ghost predicate IdsBelow(inflight: map<nat, Rpc>, asked: map<nat, Topic>, timers: set<nat>, next: nat) {
    forall r :: r in inflight || r in asked || r in timers ==> r < next
  }

  /** The slots the unsubscribes among `calls` hold. */
  ghost predicate Holding(calls: map<nat, Rpc>, held: map<nat, SubSlot>, records: set<SubSlot>) {
    forall r :: r in calls && calls[r].Unsubscribing? ==> r in held && IsFor(held[r], calls[r].key) && held[r] in records
  }

  class RobotImpl {
    const opts: Opts
    var state: ConnState
    var open: bool
    var nextRequestId: nat
    var inflight: map<nat, Rpc>
    var inflightSub: map<nat, Topic>
    var subAckTimers: set<nat>
    var outcomes: map<nat, Outcome>        // the futures that are done
    var subs: map<Topic, SubSlot>
    var catalog: map<Topic, Semantics>
    var reconnectAttempt: nat
    var reconnectTotalCount: nat
    var engaged: bool
    var heartbeat: bool
    var est: Est
    var reconnectSubsPending: nat
    var reconnectEstopPending: bool
    var tasks: Tasks
    var unsubscribing: map<nat, SubSlot>   // the slot each suspended unsubscribe holds
    var retired: map<Key, SubSlot>         // slots out of the registry, which handles and workers still hold

    var born: seq<Topic>                   // a slot's place among them is its identity

    // The history the client never reads.
    ghost var displaced: set<Key>
    ghost var round: set<Topic>
    ghost var lost: nat
    ghost var wire: Wire

    /** Every slot the engine has ever registered. */
    ghost function Records(): set<SubSlot>
      reads this
    {
      subs.Values + retired.Values
    }

    /** Slots are keyed by their own identity, and ids in use are below the next one. */
    ghost predicate Valid()
      reads this, Records()
    {
      && Placed(subs, retired, |born|)
      && IdsBelow(inflight, inflightSub, subAckTimers, nextRequestId)
      && Holding(inflight, unsubscribing, Records())
    }

    function TableView(): Table
      reads this
    {
      Table(nextRequestId, inflight, inflightSub, subAckTimers, outcomes)
    }

    ghost function BarrierView(): Barrier
      reads this
    {
      Barrier(reconnectSubsPending, reconnectEstopPending, round, lost)
    }

    /** The session these fields represent. */
    ghost function View(): Session
      reads this, Records()
    {
      Session(opts, state, open, TableView(), Slots(subs), catalog, reconnectAttempt, reconnectTotalCount, engaged,
              heartbeat, est, BarrierView(), tasks, wire, Past(born, Gone(retired), displaced))
    }

    constructor (opts: Opts)
      ensures Valid() && View() == Init(opts)
    {
      this.opts := opts;
      state, open, nextRequestId, inflight, inflightSub, subAckTimers, outcomes := Idle, false, 1, map[], map[], {}, map[];
      subs, catalog, reconnectAttempt, reconnectTotalCount, engaged, heartbeat := map[], map[], 0, 0, false, false;
      est, reconnectSubsPending, reconnectEstopPending, tasks := NoEst, 0, false, Tasks(map[], 0, 1, false, 0);
      unsubscribing, retired, born, displaced := map[], map[], [], {};
      round, lost, wire := {}, 0, Wire(false, false, false, false, []);
    }

    /** What a handler can see of the session in its fields. */
    lemma Seen()
      ensures var s := View();
              && s.opts == opts && s.state == state && s.open == open && s.attempt == reconnectAttempt && s.engaged == engaged
              && s.heartbeat == heartbeat && s.est == est && s.tasks == tasks && s.catalog == catalog
              && s.table == TableView() && s.table.nextRid == nextRequestId && s.table.inflight == inflight
              && s.table.asked == inflightSub && s.table.ackTimers == subAckTimers
              && s.barrier.subsPending == reconnectSubsPending && s.barrier.estopPending == reconnectEstopPending
              && s.barrier.round == round && s.barrier.lost == lost && s.wire == wire && s.barrier == BarrierView()
              && s.subs.Keys == subs.Keys && s.past.born == born && s.past.displaced == displaced && s.past.retired.Keys == retired.Keys
    {}

    lemma Apart()
      requires Valid()
      ensures subs.Values !! retired.Values
      ensures Holding(inflight, unsubscribing, Records())
    {
      forall t, k | t in subs && k in retired
        ensures subs[t] != retired[k]
      {
        assert IsFor(retired[k], k);
      }
    }

    lemma ApartNow()
      requires Valid()
      ensures subs.Values !! retired.Values
      ensures forall t, u :: t in subs && u in subs && t != u ==> subs[t] != subs[u]
    {
      hide IdsBelow, Holding;
      Apart();
    }

    /** Every slot that was registered is out of the registry now, and not forgotten. */
    twostate predicate AllRetired()
      reads this
    {
      subs == map[]
      && forall t :: t in old(subs) ==> var k := Key(t, old(subs[t]).serial); k in retired && retired[k] == old(subs[t])
    }

    /** No slot that has left is forgotten. */
    twostate predicate RetiredGrows()
      reads this
    {
      forall k :: k in old(retired) ==> k in retired && retired[k] == old(retired[k])
    }

    lemma SeenTopics()
      ensures View().subs.Keys == subs.Keys
    {}

    lemma SeenSize()
      ensures |View().subs| == |subs|
    {
      assert Slots(subs).Keys == subs.Keys;
      assert |Slots(subs)| == |Slots(subs).Keys| && |subs| == |subs.Keys|;
    }

    // ----- The tables -----

    method TakeRid() returns (rid: nat)
      requires Valid()
      modifies this`nextRequestId
      ensures Valid() && rid == old(nextRequestId) < nextRequestId && rid !in inflight && rid !in inflightSub && rid !in subAckTimers
      ensures View() == old(View()).(table := NextRid(old(View()).table))
    {
      hide Slots, Gone, Placed, Holding;
      rid := nextRequestId;
      nextRequestId := nextRequestId + 1;
    }

    method FailFutures(cat: Category)
      requires Valid()
      modifies this`outcomes
      ensures Valid() && View() == old(View()).(table := old(View()).table.(
                ended := old(View()).table.ended + (map r | r in old(View()).table.inflight :: Aborted(cat))))
    {
      hide Slots, Gone, Placed, IdsBelow, Holding;
      var todo := inflight.Keys;
      while todo != {}
        invariant todo <= inflight.Keys
        invariant outcomes.Keys == old(outcomes).Keys + (inflight.Keys - todo)
        invariant forall r :: r in outcomes ==>
          outcomes[r] == if r in inflight && r !in todo then Aborted(cat) else old(outcomes)[r]
        decreases todo
      {
        var rid :| rid in todo;
        outcomes := outcomes[rid := Aborted(cat)];
        todo := todo - {rid};
      }
      assert outcomes == old(outcomes) + (map r | r in inflight :: Aborted(cat));
    }

    method ForgetCalls()
      requires Valid()
      modifies this`inflight
      ensures Valid() && View() == old(View()).(table := old(View()).table.(inflight := map[]))
    {
      hide Slots, Gone, Placed;
      inflight := map[];
    }

    method ForgetAsked()
      requires Valid()
      modifies this`inflightSub, this`subAckTimers
      ensures Valid() && View() == old(View()).(table := old(View()).table.(asked := map[], ackTimers := {}))
    {
      hide Slots, Gone, Placed, Holding;
      subAckTimers := {};
      inflightSub := map[];
    }

    /** Every registered future gets the error, every acknowledgement timer is cancelled. */
    method FailEverything(cat: Category)
      requires Valid()
      modifies this`inflight, this`outcomes, this`inflightSub, this`subAckTimers
      ensures Valid() && View() == old(View()).(table := Flush(old(View()).table, cat))
    {
      hide View, Valid;
      FailFutures(cat);
      ForgetCalls();
      ForgetAsked();
    }

    method Register(rid: nat, kind: Rpc)
      requires Valid() && rid < nextRequestId
      requires kind.Unsubscribing? ==> rid in unsubscribing && IsFor(unsubscribing[rid], kind.key) && unsubscribing[rid] in Records()
      modifies this`inflight
      ensures Valid() && View() == old(View()).(table := Sessions.Register(old(View()).table, rid, kind))
    {
      hide Slots, Gone, Placed;
      inflight := inflight[rid := kind];
    }

    method Resolve(rid: nat, o: Outcome)
      requires Valid()
      modifies this`inflight, this`outcomes
      ensures Valid() && View() == old(View()).(table := Sessions.Resolve(old(View()).table, rid, o))
    {
      hide Slots, Gone, Placed;
      inflight, outcomes := inflight - {rid}, outcomes[rid := o];
    }

    ghost method Transmit(e: WireEvent)
      requires Valid()
      modifies this`wire
      ensures Valid() && View() == Sessions.Transmit(old(View()), e)
    {
      hide Slots, Gone, Placed, IdsBelow, Holding;
      wire := wire.(log := wire.log + [e]);
    }

    /** A call that was registered and not sent leaves no trace but its end. */
    static lemma NeverRegistered(b: Table, rid: nat, kind: Rpc)
      requires rid !in b.inflight
      ensures Sessions.Resolve(Sessions.Register(b, rid, kind), rid, NotSent) == Sessions.Resolve(b, rid, NotSent)
    {}

    /** `_send_rpc_and_wait` up to the await. */
    method SendRpc(rid: nat, kind: Rpc, cmd: Command, sendOk: bool) returns (sent: bool)
      requires Valid() && rid < nextRequestId && rid !in inflight
      requires kind.Unsubscribing? ==> rid in unsubscribing && IsFor(unsubscribing[rid], kind.key) && unsubscribing[rid] in Records()
      modifies this`inflight, this`outcomes, this`wire
      ensures Valid() && sent == (open && sendOk) && View() == Call(old(View()), rid, kind, cmd, sendOk)
    {
      hide Valid, View, Sessions.Register, Sessions.Resolve, Sessions.Transmit;
      Seen();
      if !open {
        Resolve(rid, NotSent);
        return false;
      }
      NeverRegistered(TableView(), rid, kind);
      Register(rid, kind);
      if !sendOk {
        Resolve(rid, NotSent);
        return false;
      }
      Transmit(Sent(cmd));
      return true;
    }

    // ----- Timers -----

    method AddTimer(attempt: nat)
      requires Valid()
      modifies this`tasks
      ensures Valid()
      ensures var k := old(tasks);
              View() == old(View()).(tasks := k.(timers := k.timers[k.nextTask := attempt], reconnectTask := k.nextTask, nextTask := k.nextTask + 1))
    {
      hide Slots, Gone, Placed, IdsBelow, Holding;
      var task := tasks.nextTask;
      tasks := tasks.(timers := tasks.timers[task := attempt], reconnectTask := task, nextTask := task + 1);
    }

    /** `_schedule_reconnect`. */
    method ScheduleReconnect()
      requires Valid()
      modifies this`tasks
      ensures Valid() && View() == Schedule(old(View()))
    {
      hide View, Valid;
      Seen();
      ScheduleIs(View());
      hide Schedule;
      if state == Fatal || state == Shutdown {
        return;
      }
      var attempt := reconnectAttempt + 1;
      if opts.maxAttempts >= 0 && attempt > opts.maxAttempts {
        SetTasks(tasks.(aborts := tasks.aborts + 1));
      } else {
        AddTimer(attempt);
      }
    }

    method CancelReconnectTask()
      requires Valid()
      modifies this`tasks, this`est
      ensures Valid() && View() == CancelReconnect(old(View()))
    {
      hide Slots, Gone, Placed, IdsBelow, Holding;
      var task := tasks.reconnectTask;
      tasks := tasks.(timers := tasks.timers - {task});
      if !est.NoEst? && est.reconnect && est.task == task {
        est := NoEst;
      }
    }

    // ----- Single fields -----

    /** `_transition`. */
    method Transition(to: ConnState)
      requires Valid()
      modifies this`state
      ensures Valid() && View() == old(View()).(state := to)
    {
      hide Slots, Gone, Placed, IdsBelow, Holding;
      if state == to {
        return;
      }
      state := to;
    }

    method SetOpen(on: bool)
      requires Valid()
      modifies this`open
      ensures Valid() && open == on && View() == old(View()).(open := on)
    {
      hide Slots, Gone, Placed, IdsBelow, Holding;
      open := on;
    }

    method SetTasks(k: Tasks)
      requires Valid()
      modifies this`tasks
      ensures Valid() && tasks == k && View() == old(View()).(tasks := k)
    {
      hide Slots, Gone, Placed, IdsBelow, Holding;
      tasks := k;
    }

    method SetEst(e: Est)
      requires Valid()
      modifies this`est
      ensures Valid() && est == e && View() == old(View()).(est := e)
    {
      hide Slots, Gone, Placed, IdsBelow, Holding;
      est := e;
    }

    method SetEstopPending(on: bool)
      requires Valid()
      modifies this`reconnectEstopPending
      ensures Valid() && reconnectEstopPending == on && View() == old(View()).(barrier := old(View()).barrier.(estopPending := on))
    {
      hide Slots, Gone, Placed, IdsBelow, Holding;
      reconnectEstopPending := on;
    }

    ghost method SetWire(w: Wire)
      requires Valid()
      modifies this`wire
      ensures Valid() && wire == w && View() == old(View()).(wire := w)
    {
      hide Slots, Gone, Placed, IdsBelow, Holding;
      wire := w;
    }

    ghost method SetRound(topics: set<Topic>)
      requires Valid()
      modifies this`round
      ensures Valid() && round == topics && View() == old(View()).(barrier := old(View()).barrier.(round := topics))
    {
      hide Slots, Gone, Placed, IdsBelow, Holding;
      round := topics;
    }

    ghost method SetLost(n: nat)
      requires Valid()
      modifies this`lost
      ensures Valid() && lost == n && View() == old(View()).(barrier := old(View()).barrier.(lost := n))
    {
      hide Slots, Gone, Placed, IdsBelow, Holding;
      lost := n;
    }

    method SetHeartbeat(on: bool)
      requires Valid()
      modifies this`heartbeat
      ensures Valid() && View() == old(View()).(heartbeat := on)
    {
      hide Slots, Gone, Placed, IdsBelow, Holding;
      heartbeat := on;
    }

    // ----- Slots changing -----

    /** Registered slots have changed, and nothing else. */
    twostate lemma SlotsChanged()
      requires unchanged(this) && old(Valid())
      requires forall o :: o in retired.Values ==> unchanged(o)
      ensures Valid() && View() == old(View()).(subs := Slots(subs))
    {
      hide SubSlot.View, Slots, Placed, IdsBelow, Holding;
      forall k | k in retired
        ensures retired[k].View() == old(retired[k].View())
      {
        assert retired[k] in retired.Values;
      }
      assert Gone(retired) == old(Gone(retired));
    }

    /** One registered slot has changed, and nothing else. */
    twostate lemma SlotChanged(t: Topic)
      requires t in subs && unchanged(this) && old(Valid())
      requires forall o :: o in Records() && o != subs[t] ==> unchanged(o)
      ensures Valid() && View() == old(View()).(subs := old(View()).subs[t := subs[t].View()])
      ensures old(View()).subs[t] == old(subs[t].View())
    {
      hide SubSlot.View, Gone;
      Apart();
      assert forall u :: u in subs && u != t ==> subs[u] in subs.Values && subs[u] != subs[t];
      SlotsChanged();
      assert Slots(subs) == old(Slots(subs))[t := subs[t].View()];
    }

    /** One slot that has left the registry has changed, and nothing else. */
    twostate lemma GoneChanged(k: Key)
      requires k in retired && unchanged(this) && old(Valid())
      requires forall o :: o in Records() && o != retired[k] ==> unchanged(o)
      ensures Valid()
      ensures View() == old(View()).(past := old(View()).past.(retired := old(View()).past.retired[k := retired[k].View()]))
      ensures old(View()).past.retired[k] == old(retired[k].View())
    {
      hide SubSlot.View, IdsBelow, Holding;
      Apart();
      forall j | j in retired && j != k
        ensures retired[j].View() == old(retired[j].View())
      {
        assert IsFor(retired[j], j) && IsFor(retired[k], k);
        assert retired[j] in Records();
      }
      forall t | t in subs
        ensures subs[t].View() == old(subs[t].View())
      {
        assert subs[t] in Records();
      }
      assert Gone(retired) == old(Gone(retired))[k := retired[k].View()];
      assert Slots(subs) == old(Slots(subs));
    }

    // ----- Slots leaving -----

    lemma Placement()
      requires Valid()
      ensures Placed(subs, retired, |born|)
    {}

    method MoveRecord(t: Topic)
      requires Valid() && t in subs
      modifies this`subs, this`retired
      ensures Valid() && Records() == old(Records()) && subs == old(subs) - {t}
      ensures var k := Key(t, old(subs[t]).serial);
              && k !in old(retired) && retired == old(retired)[k := old(subs[t])]
              && Gone(retired) == old(Gone(retired))[k := old(subs[t].View())]
      ensures Slots(subs) == old(Slots(subs)) - {t}
    {
      hide SubSlot.View, IdsBelow, Slots, Gone, Holding, Placed, View, IsFor;
      var k, slot := Key(t, subs[t].serial), subs[t];
      var fewer, more := subs - {t}, retired[k := slot];
      Placement();
      MovedPlaced(subs, retired, |born|, t, fewer, more);
      MovedRecords(subs, retired, t, fewer, more);
      MovedViews(subs, retired, t, fewer, more);
      subs, retired := fewer, more;
    }

    /** A slot leaves the registry as it is. */
    method MoveOut(t: Topic)
      requires Valid() && t in subs
      modifies this`subs, this`retired
      ensures Valid() && Records() == old(Records()) && RetiredGrows() && subs == old(subs) - {t}
      ensures Key(t, old(subs[t]).serial) in retired && retired[Key(t, old(subs[t]).serial)] == old(subs[t])
      ensures var s := old(View());
              View() == s.(subs := s.subs - {t}, past := s.past.(retired := s.past.retired[Key(t, s.subs[t].serial) := s.subs[t]]))
    {
      hide SubSlot.View, Valid, Slots, Gone;
      SeenSerial(t);
      MoveRecord(t);
    }

    lemma SeenSerial(t: Topic)
      requires t in subs
      ensures subs[t].View().serial == subs[t].serial && t in View().subs && View().subs[t] == subs[t].View()
    {}

    ghost method SetDisplaced(keys: set<Key>)
      requires Valid()
      modifies this`displaced
      ensures Valid() && displaced == keys && View() == old(View()).(past := old(View()).past.(displaced := keys))
    {
      hide Slots, Gone, Placed, IdsBelow, Holding;
      displaced := keys;
    }

    /** A registered slot is closed and leaves the registry. */
    method CloseRegistered(t: Topic)
      requires Valid() && t in subs
      modifies this`subs, this`retired, subs.Values
      ensures Valid() && Records() == old(Records()) && RetiredGrows() && subs == old(subs) - {t}
      ensures Key(t, old(subs[t]).serial) in retired && retired[Key(t, old(subs[t]).serial)] == old(subs[t])
      ensures var s := old(View());
              t in s.subs && View() == s.(subs := s.subs - {t}, past := Retire(s.past, t, s.subs[t]))
    {
      hide View, Valid, SubSlot.View, Streams.Close;
      SeenSerial(t);
      label Closing:
      subs[t].MarkClosed();
      SlotChanged@Closing(t);
      CloseKeepsSerial(old(View()).subs[t]);
      MoveOut(t);
    }

    /** A slot is closed and leaves the registry. */
    method CloseSlot(t: Topic)
      requires Valid()
      modifies this`subs, this`round, this`retired, subs.Values
      ensures Valid() && Records() == old(Records()) && RetiredGrows() && subs == old(subs) - {t}
      ensures t in old(subs) ==> Key(t, old(subs[t]).serial) in retired && retired[Key(t, old(subs[t]).serial)] == old(subs[t])
      ensures View() == Unregister(old(View()), t)
    {
      hide View, Valid, SubSlot.View, Retire;
      Seen();
      if t in subs {
        CloseRegistered(t);
      } else {
        assert subs - {t} == subs && View().subs - {t} == View().subs;
      }
      Seen();
      SetRound(round - {t});
    }

    /** Whatever slot holds the topic is pushed out as it is. */
    method PushOut(t: Topic)
      requires Valid()
      modifies this`subs, this`retired, this`displaced
      ensures Valid() && Records() == old(Records()) && RetiredGrows() && subs == old(subs) - {t}
      ensures var s := old(View());
              View() == s.(subs := s.subs - {t}, past := if t in s.subs then Displace(s.past, t, s.subs[t]) else s.past)
    {
      hide View, Valid, SubSlot.View;
      Seen();
      if t in subs {
        SeenSerial(t);
        var pushed := Key(t, subs[t].serial);
        MoveOut(t);
        Seen();
        SetDisplaced(displaced + {pushed});
      } else {
        assert subs - {t} == subs && View().subs - {t} == View().subs;
      }
    }

    /** A slot that has left is closed, again or at last. */
    method CloseGone(k: Key)
      requires Valid() && k in retired
      modifies this`displaced, retired.Values
      ensures Valid() && View() == old(View()).(past := CloseAgain(old(View()).past, k))
    {
      hide View, Valid, SubSlot.View, Streams.Close;
      Seen();
      label Late:
      retired[k].MarkClosed();
      GoneChanged@Late(k);
      Seen();
      SetDisplaced(displaced - {k});
    }

    /** An unsubscribe resumes whose slot has left already: it is closed again, and whatever slot holds the
        topic now is pushed out. */
    method CloseLate(k: Key)
      requires Valid() && k in retired
      modifies this`subs, this`round, this`retired, this`displaced, Records()
      ensures Valid() && Records() == old(Records()) && RetiredGrows() && subs.Keys <= old(subs.Keys)
      ensures !Registered(old(View()), k) ==> View() == Leave(old(View()), k)
    {
      hide View, Valid, SubSlot.View, CloseAgain, Displace;
      Seen();
      PushOut(k.topic);
      CloseGone(k);
      Seen();
      SetRound(round - {k.topic});
    }

    /** `unsubscribe_request` resumes, holding `slot`. */
    method LeaveSlot(k: Key, slot: SubSlot)
      requires Valid() && slot in Records() && IsFor(slot, k)
      modifies this`subs, this`round, this`retired, this`displaced, Records()
      ensures Valid() && Records() == old(Records()) && RetiredGrows() && subs.Keys <= old(subs.Keys)
      ensures View() == Leave(old(View()), k)
    {
      hide View, Valid;
      WhereIs(k, slot);
      if k.topic in subs && subs[k.topic] == slot {
        CloseSlot(k.topic);
      } else {
        CloseLate(k);
      }
    }

    lemma WhereIs(k: Key, slot: SubSlot)
      requires Valid() && slot in Records() && IsFor(slot, k)
      ensures k.topic in subs && subs[k.topic] == slot <==> Registered(View(), k)
      ensures !Registered(View(), k) ==> k in retired && retired[k] == slot
    {
      if slot in subs.Values {
        var t :| t in subs && subs[t] == slot;
      } else {
        var j :| j in retired && retired[j] == slot;
        assert IsFor(retired[j], j);
      }
    }

    method CloseNext(ghost s: Session, ghost done: set<Topic>) returns (ghost t: Topic)
      requires Valid() && subs != map[] && Emptied(s, View(), done) && View().subs.Keys == subs.Keys
      modifies this`subs, this`round, this`retired, subs.Values
      ensures Valid() && Records() == old(Records()) && RetiredGrows()
      ensures t in old(subs) && t !in done && subs == old(subs) - {t}
      ensures Key(t, old(subs[t]).serial) in retired && retired[Key(t, old(subs[t]).serial)] == old(subs[t])
      ensures Emptied(s, View(), done + {t}) && View().subs.Keys == subs.Keys
    {
      hide View, Valid, SubSlot.View, Emptied, Unregister;
      assert subs.Keys != {};
      var next :| next in subs;
      t := next;
      StillThere(s, View(), done, next);
      OneMoreEmptied(s, View(), done, next);
      CloseSlot(next);
      SeenTopics();
    }

    method EmptyRegistry()
      requires Valid()
      modifies this`subs, this`round, this`retired, Records()
      ensures Valid() && Records() == old(Records()) && RetiredGrows() && AllRetired()
      ensures Emptied(old(View()), View(), old(View()).subs.Keys)
    {
      hide View, Valid, SubSlot.View, Emptied, Passed;
      SeenTopics();
      ghost var s, done := View(), {};
      NothingEmptied(s);
      NobodyPassed(subs, retired);
      while |subs| != 0
        invariant Valid() && Records() == old(Records())
        invariant Passed(old(subs), old(retired), done, subs, retired)
        invariant Emptied(s, View(), done) && View().subs.Keys == subs.Keys
        decreases |subs|
      {
        ghost var subs0, retired0 := subs, retired;
        ghost var t := CloseNext(s, done);
        OneMorePassed(old(subs), old(retired), done, subs0, retired0, t, subs, retired);
        OneFewer(subs0, t, subs);
        done := done + {t};
      }
      EverybodyPassed(old(subs), old(retired), done, subs, retired);
    }

    method CloseAllSlots()
      requires Valid()
      modifies this`subs, this`round, this`retired, Records()
      ensures Valid() && Records() == old(Records()) && RetiredGrows() && AllRetired()
      ensures View() == old(View()).(subs := map[], barrier := old(View()).barrier.(round := {}),
                                     past := RetireAll(old(View()).past, old(View()).subs))
    {
      hide View, Valid, Emptied, RetireAll;
      EmptyRegistry();
      AllEmptied(old(View()), View());
      SetRound({});
    }

    /** The unsubscribes among the calls below id `n` resume, in the order they were made. */
    method LeaveSlots(calls: map<nat, Rpc>, held: map<nat, SubSlot>, n: nat)
      requires Valid() && Holding(calls, held, Records())
      modifies this`subs, this`round, this`retired, this`displaced, Records()
      ensures Valid() && Records() == old(Records()) && RetiredGrows() && subs.Keys <= old(subs.Keys)
      ensures View() == LeaveUpTo(old(View()), calls, n)
    {
      hide View, Valid, Leave;
      for rid := 0 to n
        invariant Valid() && Records() == old(Records()) && RetiredGrows() && subs.Keys <= old(subs.Keys)
        invariant View() == LeaveUpTo(old(View()), calls, rid)
      {
        if rid in calls && calls[rid].Unsubscribing? {
          LeaveSlot(calls[rid].key, held[rid]);
        }
      }
    }

    // ----- Losing the connection -----

    method PauseAllSlots()
      requires Valid()
      modifies subs.Values
      ensures Valid() && View() == old(View()).(subs := map t | t in old(View()).subs :: Pause(old(View()).subs[t]))
    {
      hide SubSlot.View, Pause, Gone, Placed, IdsBelow, Holding;
      ApartNow();
      var todo := subs.Keys;
      while todo != {}
        invariant todo <= subs.Keys
        invariant forall t :: t in subs ==>
          subs[t].View() == if t in todo then old(subs[t].View()) else Pause(old(subs[t].View()))
        decreases todo
      {
        var t :| t in todo;
        subs[t].MarkPaused();
        todo := todo - {t};
      }
      SlotsChanged();
    }

    /** The heartbeat ends and the socket is gone. */
    method Disconnect()
      requires Valid()
      modifies this`heartbeat, this`open
      ensures Valid() && View() == old(View()).(heartbeat := false, open := false)
    {
      hide Slots, Gone, Placed, IdsBelow, Holding;
      heartbeat, open := false, false;
    }

    /** The heartbeat ends, the session is between connections, the socket is gone. */
    method GoDown()
      requires Valid()
      modifies this`heartbeat, this`state, this`open
      ensures Valid() && View() == old(View()).(heartbeat := false, state := TransientFailure, open := false)
    {
      hide View, Valid;
      Disconnect();
      Transition(TransientFailure);
    }

    /** `_on_transport_close` past its terminal check, without the coroutines it wakes. */
    method DropConnection(cat: Category)
      requires Valid()
      modifies this, Records()
      ensures Valid() && subs == old(subs) && retired == old(retired) && View() == LoseConnection(old(View()), cat)
    {
      hide View, Valid, Flush, Pause, Schedule;
      PauseAllSlots();
      FailEverything(cat);
      GoDown();
      ScheduleReconnect();
    }

    /** `_abort_to_fatal` without the coroutines it wakes. */
    method GoFatal(cat: Category)
      requires Valid()
      modifies this, Records()
      ensures Valid() && Records() == old(Records()) && AllRetired() && RetiredGrows()
      ensures View() == AbortBody(old(View()), cat)
    {
      hide View, Valid, Flush, RetireAll;
      CloseAllSlots();
      FailEverything(cat);
      SetHeartbeat(false);
      CancelReconnectTask();
      SetOpen(false);
      Transition(Fatal);
    }

    // ----- The coroutines a lost connection wakes -----

    /** `_establish` resumes with an error of its handshake. */
    method FailHandshake(cat: Category)
      requires Valid()
      modifies this, Records()
      ensures Valid() && Records() == old(Records()) && RetiredGrows() && subs.Keys <= old(subs.Keys)
      ensures View() == HandshakeFailed(old(View()), cat)
    {
      hide View, Valid, Schedule, AbortBody;
      SetEst(NoEst);
      if cat == FatalError {
        GoFatal(cat);
        return;
      }
      Transition(TransientFailure);
      SetOpen(false);
      ScheduleReconnect();
    }

    /** `_do_estop_replay` resumes with an error. */
    method FailReplay()
      requires Valid()
      modifies this, Records()
      ensures Valid() && Records() == old(Records()) && RetiredGrows() && subs.Keys <= old(subs.Keys)
      ensures View() == ReplayFailed(old(View()))
    {
      hide View, Valid, LoseConnection;
      SetEstopPending(false);
      Seen();
      if state == Shutdown || state == Fatal {
        return;
      }
      DropConnection(TransientError);
    }

    /** The coroutines awaiting the calls in `before` resume with the error; `held` are the slots they hold. */
    method WakeAll(before: Table, held: map<nat, SubSlot>, cat: Category)
      requires Valid() && Holding(before.inflight, held, Records())
      modifies this, Records()
      ensures Valid() && Records() == old(Records()) && RetiredGrows() && subs.Keys <= old(subs.Keys)
      ensures View() == Wake(old(View()), before, cat)
    {
      hide View, Valid, HandshakeFailed, ReplayFailed, LeaveUpTo, ReplayOut;
      LeaveSlots(before.inflight, held, before.nextRid);
      if ReplayOut(before) {
        FailReplay();
      }
      Seen();
      if est.AtHandshake? && est.rid in before.inflight {
        FailHandshake(cat);
      }
    }

    /** `_on_transport_close`. */
    method OnTransportClose(cat: Category)
      requires Valid()
      modifies this, Records()
      ensures Valid() && Records() == old(Records()) && View() == Sessions.OnTransportClose(old(View()), cat)
    {
      hide View, Valid, LoseConnection, Wake;
      Apart();
      Seen();
      if state == Shutdown || state == Fatal {
        return;
      }
      var before, held := TableView(), unsubscribing;
      DropConnection(cat);
      WakeAll(before, held, cat);
    }

    /** `_abort_to_fatal`: every registered slot is closed. */
    method AbortToFatal(cat: Category)
      requires Valid()
      modifies this, Records()
      ensures Valid() && Records() == old(Records()) && AllRetired() && View() == Abort(old(View()), cat)
    {
      hide View, Valid, AbortBody, Wake;
      Apart();
      Seen();
      var before, held := TableView(), unsubscribing;
      GoFatal(cat);
      WakeAll(before, held, cat);
    }

    /** `close()` without the coroutines it wakes. */
    method GoShutdown()
      requires Valid()
      modifies this, Records()
      ensures Valid() && Records() == old(Records()) && AllRetired() && RetiredGrows() && View() == Closing(old(View()))
    {
      hide View, Valid, Flush, RetireAll;
      Transition(Shutdown);
      CancelReconnectTask();
      SetHeartbeat(false);
      FailEverything(LocalError);
      CloseAllSlots();
      SetOpen(false);
    }

    /** `close()`: every registered slot is closed. */
    method Close()
      requires Valid()
      modifies this, Records()
      ensures Valid() && Records() == old(Records()) && View() == UserClose(old(View()))
      ensures old(state) != Shutdown ==> AllRetired()
    {
      hide View, Valid, Closing, Wake;
      Apart();
      Seen();
      if state == Shutdown {
        return;
      }
      var before, held := TableView(), unsubscribing;
      ClosingIs(View());
      GoShutdown();
      WakeAll(before, held, LocalError);
    }

    // ----- Subscribing -----

    method Book(rid: nat, t: Topic)
      requires Valid() && rid < nextRequestId
      modifies this`inflightSub, this`subAckTimers
      ensures Valid() && View() == old(View()).(table := Asked(old(View()).table, rid, t))
    {
      hide Slots, Gone, Placed, Holding;
      inflightSub := inflightSub[rid := t];
      subAckTimers := subAckTimers + {rid};
    }

    method Unbook(rid: nat)
      requires Valid()
      modifies this`inflightSub, this`subAckTimers
      ensures Valid() && View() == old(View()).(table := Unasked(old(View()).table, rid))
    {
      hide Slots, Gone, Placed, Holding;
      subAckTimers := subAckTimers - {rid};
      inflightSub := inflightSub - {rid};
    }

    /** The request is on its way: the slot is outstanding under `rid`. */
    method AskSlot(t: Topic, rid: nat, sinceSeq: nat) returns (since: nat)
      requires Valid() && t in subs && rid < nextRequestId
      modifies this`inflightSub, this`subAckTimers, subs.Values
      ensures Valid() && since == Ask(old(View()).subs[t], rid, sinceSeq, old(View()).state.Reconnecting?).expectedResumeSeq
      ensures var s := old(View());
              View() == s.(subs := s.subs[t := Ask(s.subs[t], rid, sinceSeq, s.state.Reconnecting?)], table := Asked(s.table, rid, t))
    {
      hide View, Valid, SubSlot.View, Ask, Asked;
      Seen();
      label Asking:
      subs[t].MarkAsked(rid, sinceSeq, state.Reconnecting?);
      SlotChanged@Asking(t);
      SlotFields(t);
      since := subs[t].expectedResumeSeq;
      Book(rid, t);
    }

    /** The request did not go out: the slot is as unasked as before, and the connection is lost. */
    method LoseAsked(t: Topic, rid: nat)
      requires Valid() && t in subs
      modifies this, Records()
      ensures Valid() && Records() == old(Records())
      ensures var s := old(View());
              View() == Sessions.OnTransportClose(s.(subs := s.subs[t := Unask(s.subs[t])], table := Unasked(s.table, rid)), TransientError)
    {
      hide View, Valid, SubSlot.View, Unask, Sessions.OnTransportClose, Unasked;
      Unbook(rid);
      label Lost:
      subs[t].ClearAsked();
      SlotChanged@Lost(t);
      OnTransportClose(TransientError);
    }

    method CloseUnencodable(t: Topic)
      requires Valid()
      modifies this, Records()
      ensures Valid() && Records() == old(Records())
      ensures var s1 := Unregister(old(View()), t);
              View() == s1.(barrier := s1.barrier.(lost := s1.barrier.lost + 1))
    {
      hide View, Valid, Unregister;
      CloseSlot(t);
      Seen();
      SetLost(lost + 1);
    }

    /** The request has been encoded: the slot is asked, or, where the send fails, the connection is lost. */
    method SendEncoded(t: Topic, rid: nat, sinceSeq: nat, send: SendResult)
      requires Valid() && t in subs && rid < nextRequestId
      modifies this, Records()
      ensures Valid() && Records() == old(Records())
      ensures var s := old(View());
              var slot := Ask(s.subs[t], rid, sinceSeq, s.state.Reconnecting?);
              var subs := s.subs[t := slot];
              View() == if s.open && send.SendOk?
                        then Sessions.Transmit(s.(subs := subs, table := Asked(s.table, rid, t)), Sent(CmdSubscribe(rid, t, slot.expectedResumeSeq)))
                        else Sessions.OnTransportClose(s.(subs := subs[t := Unask(subs[t])], table := Unasked(Asked(s.table, rid, t), rid)), TransientError)
    {
      hide View, Valid, SubSlot.View, Ask, Unask, Sessions.OnTransportClose, Sessions.Transmit, Asked, Unasked;
      Seen();
      var since := AskSlot(t, rid, sinceSeq);
      if open && send.SendOk? {
        Transmit(Sent(CmdSubscribe(rid, t, since)));
      } else {
        LoseAsked(t, rid);
      }
    }

    /** `_send_subscribe`. */
    method SendSubscribe(t: Topic, sinceSeq: nat, send: SendResult)
      requires Valid() && t in subs
      modifies this, Records()
      ensures Valid() && Records() == old(Records()) && View() == Sessions.SendSubscribe(old(View()), t, sinceSeq, send)
    {
      hide View, Valid, SubSlot.View, Ask, Unask, Sessions.OnTransportClose, Sessions.SendSubscribe, Sessions.Transmit, Asked, Unasked, NextRid,
           Unregister;
      Seen();
      var rid := TakeRid();
      if send.EncodeFails? {
        NotEncoded(old(View()), t, sinceSeq);
        CloseUnencodable(t);
        return;
      }
      if open && send.SendOk? {
        WentOut(old(View()), t, sinceSeq, rid);
      } else {
        NotOut(old(View()), t, sinceSeq, send, rid);
      }
      Seen();
      SendEncoded(t, rid, sinceSeq, send);
    }

    lemma SlotFields(t: Topic)
      requires t in subs
      ensures var slot := subs[t].View();
              && t in View().subs && View().subs[t] == slot
              && slot.inflightId == subs[t].inflightSubscribeRequestId && slot.semantics == subs[t].semantics
              && slot.freshRetryDone == subs[t].freshRetryDone && slot.state == subs[t].state && slot.lastSeq == subs[t].lastSeq
              && slot.expectedResumeSeq == subs[t].expectedResumeSeq
    {}

    /** The attempts start over, and one more reconnect is counted. */
    method CountReconnect()
      requires Valid()
      modifies this`reconnectAttempt, this`reconnectTotalCount
      ensures Valid() && View() == old(View()).(attempt := 0, totalCount := old(View()).totalCount + 1)
    {
      hide Slots, Gone, Placed, IdsBelow, Holding;
      reconnectAttempt, reconnectTotalCount := 0, reconnectTotalCount + 1;
    }

    /** The reconnect is over. */
    method AnnounceReady()
      requires Valid()
      modifies this`reconnectAttempt, this`reconnectTotalCount, this`state
      ensures Valid() && View() == ReachReady(old(View()))
    {
      hide View, Valid;
      CountReconnect();
      Transition(Ready);
    }

    /** One of the slots asked has settled. */
    method CountDown()
      requires Valid() && reconnectSubsPending > 0
      modifies this`reconnectSubsPending
      ensures Valid() && reconnectSubsPending == old(reconnectSubsPending) - 1
      ensures View() == old(View()).(barrier := old(View()).barrier.(subsPending := reconnectSubsPending))
    {
      hide Slots, Gone, Placed, IdsBelow, Holding;
      reconnectSubsPending := reconnectSubsPending - 1;
    }

    /** `_maybe_finish_reconnect`. */
    method MaybeFinishReconnect(phase: bool)
      requires Valid()
      modifies this`reconnectSubsPending, this`reconnectAttempt, this`reconnectTotalCount, this`state
      ensures Valid() && View() == Finish(old(View()), phase)
    {
      hide View, Valid;
      Seen();
      if phase && reconnectSubsPending > 0 {
        CountDown();
        if reconnectSubsPending == 0 && !reconnectEstopPending {
          AnnounceReady();
        }
      }
    }

    method CloseAnswered(t: Topic, phase: bool)
      requires Valid()
      modifies this, Records()
      ensures Valid() && Records() == old(Records()) && View() == Finish(Unregister(old(View()), t), phase)
    {
      hide View, Valid, SubSlot.View, Finish, Unregister;
      CloseSlot(t);
      MaybeFinishReconnect(phase);
    }

    /** The acknowledgement carries an error code. */
    method RefuseSubscribe(t: Topic, cat: Category)
      requires Valid() && t in subs
      modifies this, Records()
      ensures Valid() && Records() == old(Records()) && View() == Answer(old(View()), t, Ack.Refused(cat), SendOk)
    {
      hide View, Valid, SubSlot.View, Sessions.OnTransportClose, Abort, Finish, Unregister;
      Seen();
      var phase := state.Reconnecting?;
      if cat.FatalError? {
        AbortToFatal(cat);
      } else if cat.TransientError? {
        if phase {
          OnTransportClose(cat);
        } else {
          CloseSlot(t);
        }
      } else {
        CloseAnswered(t, phase);
      }
    }

    /** The server does not accept the subscribe: once, an EVENT slot asks again from scratch. */
    method RejectSubscribe(t: Topic, history: bool, retry: SendResult)
      requires Valid() && t in subs
      modifies this, Records()
      ensures Valid() && Records() == old(Records()) && View() == Answer(old(View()), t, Rejected(history), retry)
    {
      hide View, Valid, SubSlot.View, Restart, Sessions.SendSubscribe, Finish, Unregister;
      Seen();
      SlotFields(t);
      var slot := subs[t];
      label Matched:
      if slot.semantics == EventStream && history && !slot.freshRetryDone {
        slot.MarkRestart();
        SlotChanged@Matched(t);
        SendSubscribe(t, 0, retry);
      } else {
        CloseAnswered(t, state.Reconnecting?);
      }
    }

    method AcceptSubscribe(t: Topic, next: nat)
      requires Valid() && t in subs
      modifies this, Records()
      ensures Valid() && Records() == old(Records()) && View() == Answer(old(View()), t, Granted(next), SendOk)
    {
      hide View, Valid, SubSlot.View, Activate, Finish;
      Seen();
      SlotFields(t);
      var phase := state.Reconnecting?;
      label Matched:
      subs[t].MarkAccepted(next);
      SlotChanged@Matched(t);
      MaybeFinishReconnect(phase);
    }

    /** `_handle_subscribe_ack` once the answer has been matched to its slot. */
    method AnswerSubscribe(t: Topic, ack: Ack, retry: SendResult)
      requires Valid() && t in subs
      modifies this, Records()
      ensures Valid() && Records() == old(Records()) && View() == Answer(old(View()), t, ack, retry)
    {
      hide View, Valid, Restart, Activate, Sessions.SendSubscribe, Sessions.OnTransportClose, Abort, Finish, Unregister;
      Seen();
      match ack {
        case Refused(cat) => RefuseSubscribe(t, cat);
        case Rejected(history) => RejectSubscribe(t, history, retry);
        case Granted(next) => AcceptSubscribe(t, next);
      }
    }

    /** The slot has its answer: it is no longer outstanding. */
    method AnswerOutstanding(t: Topic, ack: Ack, retry: SendResult)
      requires Valid() && t in subs
      modifies this, Records()
      ensures Valid() && Records() == old(Records())
      ensures var s := old(View());
              View() == Answer(s.(subs := s.subs[t := Unask(s.subs[t])]), t, ack, retry)
    {
      hide View, Valid, SubSlot.View, Unask, Answer;
      Seen();
      label Found:
      subs[t].ClearAsked();
      SlotChanged@Found(t);
      AnswerSubscribe(t, ack, retry);
    }

    /** `_handle_subscribe_ack`. */
    method HandleSubscribeAck(rid: nat, ack: Ack, retry: SendResult)
      requires Valid()
      modifies this, Records()
      ensures Valid() && Records() == old(Records()) && View() == HandleAck(old(View()), rid, ack, retry)
    {
      hide View, Valid, SubSlot.View, Unask, Answer, Unasked;
      Seen();
      if rid !in inflightSub {
        return;
      }
      var t := inflightSub[rid];
      Unbook(rid);
      Seen();
      if t !in subs {
        return;
      }
      SlotFields(t);
      if subs[t].inflightSubscribeRequestId != rid {
        return;
      }
      AnswerOutstanding(t, ack, retry);
    }

    /** The body of the loop of `_resubscribe_all_after_reconnect`. */
    method ResubscribeOne(t: Topic, send: SendResult)
      requires Valid() && t in subs
      modifies this, Records()
      ensures Valid() && Records() == old(Records())
      ensures var s := old(View());
              var slot := Streams.BeginRound(s.subs[t]);
              View() == Sessions.SendSubscribe(s.(subs := s.subs[t := slot]), t, SinceSeq(slot, s.opts.replayHistory), send)
    {
      hide View, Valid, SubSlot.View, Sessions.SendSubscribe, Streams.BeginRound;
      Seen();
      var slot := subs[t];
      label Round:
      slot.MarkRound();
      SlotChanged@Round(t);
      Seen();
      SlotFields(t);
      var since := 0;
      if slot.semantics == EventStream && opts.replayHistory && slot.lastSeq > 0 {
        since := slot.lastSeq + 1;
      }
      SendSubscribe(t, since, send);
    }

    /** `_resubscribe_all_after_reconnect`. */
    method ResubscribeAll(order: seq<Topic>, sends: seq<SendResult>)
      requires Valid() && |order| == |sends|
      modifies this, Records()
      ensures Valid() && Records() == old(Records()) && View() == Resubscribe(old(View()), order, sends)
    {
      hide View, Valid, Sessions.SendSubscribe, Streams.BeginRound, SinceSeq;
      var i := 0;
      assert order[i..] == order && sends[i..] == sends;
      while i < |order|
        invariant 0 <= i <= |order| && Valid() && Records() == old(Records())
        invariant Resubscribe(View(), order[i..], sends[i..]) == Resubscribe(old(View()), order, sends)
      {
        assert order[i..][0] == order[i] && order[i..][1..] == order[i + 1..];
        assert sends[i..][0] == sends[i] && sends[i..][1..] == sends[i + 1..];
        Seen();
        if order[i] in subs {
          ResubscribeOne(order[i], sends[i]);
        }
        i := i + 1;
      }
    }

    /** The subscribes `_establish` sends when the first connection is READY. */
    method SubscribeWaitingSlots(order: seq<Topic>, sends: seq<SendResult>)
      requires Valid() && |order| == |sends|
      modifies this, Records()
      ensures Valid() && Records() == old(Records()) && View() == SubscribeWaiting(old(View()), order, sends)
    {
      hide View, Valid, Sessions.SendSubscribe, SubSlot.View;
      var i := 0;
      assert order[i..] == order && sends[i..] == sends;
      while i < |order|
        invariant 0 <= i <= |order| && Valid() && Records() == old(Records())
        invariant SubscribeWaiting(View(), order[i..], sends[i..]) == SubscribeWaiting(old(View()), order, sends)
      {
        assert order[i..][0] == order[i] && order[i..][1..] == order[i + 1..];
        assert sends[i..][0] == sends[i] && sends[i..][1..] == sends[i + 1..];
        Seen();
        var t := order[i];
        if t in subs {
          SlotFields(t);
          if subs[t].state == Pending && subs[t].inflightSubscribeRequestId == 0 {
            SendSubscribe(t, 0, sends[i]);
          }
        }
        i := i + 1;
      }
    }

    // ----- Establishing -----

    /** `_establish` is no longer suspended, and knows the catalogue. */
    method TakeCatalog(available: map<Topic, Semantics>)
      requires Valid()
      modifies this`catalog, this`est
      ensures Valid() && catalog == available && View() == old(View()).(est := NoEst, catalog := available)
    {
      hide Slots, Gone, Placed, IdsBelow, Holding;
      est, catalog := NoEst, available;
    }

    /** Every slot takes its semantics from the catalogue. */
    method ResolveSemantics()
      requires Valid()
      modifies subs.Values
      ensures Valid() && View() == old(View()).(
                subs := map t | t in old(View()).subs :: old(View()).subs[t].(semantics := SemanticsOf(catalog, t)))
    {
      hide SubSlot.View, Gone, Placed, IdsBelow, Holding;
      ApartNow();
      var todo := subs.Keys;
      while todo != {}
        invariant todo <= subs.Keys
        invariant forall t :: t in subs ==>
          subs[t].View() == if t in todo then old(subs[t].View()) else old(subs[t].View()).(semantics := SemanticsOf(catalog, t))
        decreases todo
      {
        var t :| t in todo;
        subs[t].SetSemantics(SemanticsOf(catalog, t));
        todo := todo - {t};
      }
      SlotsChanged();
    }

    /** The answer of the handshake is taken in. */
    method TakeHandshake(available: map<Topic, Semantics>)
      requires Valid()
      modifies this`catalog, this`est, subs.Values
      ensures Valid() && subs == old(subs) && View() == Learn(old(View()), available)
    {
      hide View, Valid;
      TakeCatalog(available);
      ResolveSemantics();
    }

    method AwaitAll()
      requires Valid()
      modifies this`reconnectSubsPending, this`reconnectEstopPending
      ensures Valid() && View() == old(View()).(barrier := old(View()).barrier.(subsPending := |subs|, estopPending := engaged))
    {
      hide Slots, Gone, Placed, IdsBelow, Holding;
      reconnectSubsPending, reconnectEstopPending := |subs|, engaged;
    }

    ghost method BeginRound()
      requires Valid()
      modifies this`round, this`lost
      ensures Valid() && View() == old(View()).(barrier := old(View()).barrier.(round := subs.Keys, lost := 0))
    {
      hide Slots, Gone, Placed, IdsBelow, Holding;
      round, lost := subs.Keys, 0;
    }

    method RaiseBarrier()
      requires Valid()
      modifies this`reconnectSubsPending, this`reconnectEstopPending, this`round, this`lost
      ensures Valid() && View() == SetBarrier(old(View()))
    {
      hide View, Valid;
      Seen();
      SeenSize();
      AwaitAll();
      BeginRound();
    }

    /** `_establish` after an accepted handshake, on the first connection. */
    method EstablishFirst(plan: Plan)
      requires Valid() && |plan.order| == |plan.sends|
      modifies this, Records()
      ensures Valid() && Records() == old(Records()) && View() == Established(old(View()), false, plan)
    {
      hide View, Valid, SubscribeWaiting, Learn;
      Seen();
      TakeHandshake(plan.catalog);
      SetHeartbeat(opts.heartbeatOn);
      Transition(Ready);
      SubscribeWaitingSlots(plan.order, plan.sends);
    }

    /** The round of a reconnect, and the task of its replay. */
    method StartRound(plan: Plan)
      requires Valid() && |plan.order| == |plan.sends|
      modifies this, Records()
      ensures Valid() && Records() == old(Records())
      ensures var s := old(View());
              var s3 := Resubscribe(s.(wire := s.wire.(waited := true)), plan.order, plan.sends);
              View() == s3.(tasks := s3.tasks.(replayQueued := s3.tasks.replayQueued || s3.barrier.estopPending))
    {
      hide View, Valid, Resubscribe;
      Seen();
      SetWire(wire.(waited := true));
      ResubscribeAll(plan.order, plan.sends);
      Seen();
      SetTasks(tasks.(replayQueued := tasks.replayQueued || reconnectEstopPending));
    }

    method ReadyAtOnce()
      requires Valid()
      modifies this`reconnectAttempt, this`reconnectTotalCount, this`state, this`heartbeat
      ensures Valid() && View() == ReachReady(old(View())).(heartbeat := opts.heartbeatOn)
    {
      hide View, Valid, ReachReady;
      AnnounceReady();
      SetHeartbeat(opts.heartbeatOn);
    }

    method AfterBarrier(plan: Plan)
      requires Valid() && |plan.order| == |plan.sends|
      modifies this, Records()
      ensures Valid() && Records() == old(Records())
      ensures var s := old(View());
              var s3 := Resubscribe(s.(wire := s.wire.(waited := true)), plan.order, plan.sends);
              View() == if s.barrier.subsPending == 0 && !s.barrier.estopPending then ReachReady(s).(heartbeat := s.opts.heartbeatOn)
                        else s3.(tasks := s3.tasks.(replayQueued := s3.tasks.replayQueued || s3.barrier.estopPending))
    {
      hide View, Valid, Resubscribe, ReachReady;
      Seen();
      if reconnectSubsPending == 0 && !reconnectEstopPending {
        ReadyAtOnce();
      } else {
        StartRound(plan);
      }
    }

    /** `_establish` after an accepted handshake, on a reconnect. */
    method EstablishAgain(plan: Plan)
      requires Valid() && |plan.order| == |plan.sends|
      modifies this, Records()
      ensures Valid() && Records() == old(Records()) && View() == Established(old(View()), true, plan)
    {
      hide View, Valid, Resubscribe, ReachReady, Learn, SetBarrier, Established;
      EstablishedAgain(View(), plan);
      TakeHandshake(plan.catalog);
      RaiseBarrier();
      AfterBarrier(plan);
    }

    method OpenSocket()
      requires Valid() && est.AtConnect?
      modifies this`open, this`wire
      ensures Valid() && open && View() == old(View()).(open := true, wire := Wire(est.reconnect, engaged, false, false, []))
    {
      hide Slots, Gone, Placed, IdsBelow, Holding;
      open, wire := true, Wire(est.reconnect, engaged, false, false, []);
    }

    /** The connect failed. */
    method ConnectFailed(cat: Category)
      requires Valid() && est.AtConnect?
      modifies this, Records()
      ensures Valid() && Records() == old(Records()) && View() == Connected(old(View()), false, cat, false, false)
    {
      hide View, Valid, Abort, Schedule;
      Seen();
      SetEst(NoEst);
      if cat.FatalError? {
        AbortToFatal(cat);
      } else {
        Transition(TransientFailure);
        ScheduleReconnect();
      }
    }

    method SendHandshake(rid: nat, sendOk: bool)
      requires Valid() && est.AtConnect? && open && rid < nextRequestId && rid !in inflight
      modifies this, Records()
      ensures Valid() && Records() == old(Records())
      ensures var s := old(View());
              View() == if sendOk then Call(s, rid, Handshake, CmdHandshake, true).(est := AtHandshake(s.est.reconnect, s.est.task, rid))
                        else HandshakeFailed(Call(s, rid, Handshake, CmdHandshake, false), TransientError)
    {
      hide View, Valid, HandshakeFailed, Call;
      Seen();
      var sent := SendRpc(rid, Handshake, CmdHandshake, sendOk);
      Seen();
      if sent {
        SetEst(AtHandshake(est.reconnect, est.task, rid));
      } else {
        FailHandshake(TransientError);
      }
    }

    /** `_establish` resumes when the connect is over. */
    method OnConnected(ok: bool, cat: Category, encodeOk: bool, sendOk: bool)
      requires Valid() && est.AtConnect?
      modifies this, Records()
      ensures Valid() && Records() == old(Records()) && View() == Connected(old(View()), ok, cat, encodeOk, sendOk)
    {
      hide View, Valid, Abort, Schedule, HandshakeFailed, NextRid, Call;
      Seen();
      if !ok {
        ConnectFailed(cat);
        return;
      }
      OpenSocket();
      var rid := TakeRid();
      if encodeOk {
        SendHandshake(rid, sendOk);
      } else {
        SetEst(NoEst);
        AbortToFatal(cat);
      }
    }

    // ----- Calls -----

    method SetIntent(engage: bool)
      requires Valid()
      modifies this`engaged
      ensures Valid() && View() == old(View()).(engaged := engage)
    {
      hide Slots, Gone, Placed, IdsBelow, Holding;
      engaged := engage;
    }

    method ResumeHandshake(ok: bool, cat: Category, plan: Plan)
      requires Valid() && |plan.order| == |plan.sends|
      modifies this, Records()
      ensures Valid() && Records() == old(Records()) && View() == Resume(old(View()), Handshake, ok, cat, plan)
    {
      hide View, Valid, Established, HandshakeFailed;
      Seen();
      if !est.AtHandshake? {
        return;
      }
      if !ok {
        FailHandshake(cat);
      } else if est.reconnect {
        EstablishAgain(plan);
      } else {
        EstablishFirst(plan);
      }
    }

    /** `_do_estop_replay` resumes with an answer. */
    method ResumeReplay(ok: bool, cat: Category, plan: Plan)
      requires Valid() && |plan.order| == |plan.sends|
      modifies this, Records()
      ensures Valid() && Records() == old(Records()) && View() == Resume(old(View()), Replay, ok, cat, plan)
    {
      hide View, Valid, Sessions.OnTransportClose, ReachReady;
      SetEstopPending(false);
      if !ok {
        OnTransportClose(cat);
        return;
      }
      Transmit(ReplayAccepted);
      Seen();
      if reconnectSubsPending == 0 {
        AnnounceReady();
      }
    }

    /** The coroutine awaiting a call that is no unsubscribe resumes. */
    method ResumeCall(kind: Rpc, ok: bool, cat: Category, plan: Plan)
      requires Valid() && |plan.order| == |plan.sends| && !kind.Unsubscribing?
      modifies this, Records()
      ensures Valid() && Records() == old(Records()) && View() == Resume(old(View()), kind, ok, cat, plan)
    {
      hide View, Valid, Established, HandshakeFailed, Sessions.OnTransportClose, ReachReady;
      match kind {
        case Handshake => ResumeHandshake(ok, cat, plan);
        case Replay => ResumeReplay(ok, cat, plan);
        case EStop(engage) =>
          if ok {
            SetIntent(engage);
          }
        case _ =>
      }
    }

    method EndUnsubscribe(rid: nat, o: Outcome)
      requires Valid() && rid in inflight && inflight[rid].Unsubscribing?
      modifies this, Records()
      ensures Valid() && Records() == old(Records())
      ensures var s := old(View());
              View() == Leave(s.(table := Sessions.Resolve(s.table, rid, o)), old(inflight)[rid].key)
    {
      hide View, Valid, Sessions.Resolve, Leave, Placed, IdsBelow;
      Apart();
      var k, slot := inflight[rid].key, unsubscribing[rid];
      Resolve(rid, o);
      LeaveSlot(k, slot);
    }

    /** A call ends, and its coroutine resumes; an unsubscribe closes the slot it holds. */
    method EndCall(rid: nat, o: Outcome, ok: bool, cat: Category, plan: Plan)
      requires Valid() && rid in inflight && |plan.order| == |plan.sends|
      modifies this, Records()
      ensures Valid() && Records() == old(Records())
      ensures var s := old(View());
              View() == Resume(s.(table := Sessions.Resolve(s.table, rid, o)), old(inflight)[rid], ok, cat, plan)
    {
      hide View, Valid, Sessions.Resolve, Resume, Leave;
      var kind := inflight[rid];
      if kind.Unsubscribing? {
        LeaveResumes(View(), rid, o, kind.key, ok, cat, plan);
        EndUnsubscribe(rid, o);
      } else {
        Resolve(rid, o);
        ResumeCall(kind, ok, cat, plan);
      }
    }

    /** `_handle_sdk_response` for anything but a subscribe. */
    method HandleResponse(rid: nat, ok: bool, cat: Category, plan: Plan)
      requires Valid() && |plan.order| == |plan.sends|
      modifies this, Records()
      ensures Valid() && Records() == old(Records())
      ensures var s := old(View());
              View() == if rid in s.table.inflight
                        then Resume(s.(table := Sessions.Resolve(s.table, rid, Answered(rid))), s.table.inflight[rid], ok, cat, plan)
                        else s
    {
      hide View, Valid, Resume, Sessions.Resolve;
      Seen();
      if rid in inflight {
        EndCall(rid, Answered(rid), ok, cat, plan);
      }
    }

    /** The timeout of a call. */
    method OnTimeout(rid: nat)
      requires Valid()
      modifies this, Records()
      ensures Valid() && Records() == old(Records())
      ensures var s := old(View());
              View() == if rid in s.table.inflight
                        then Resume(s.(table := Sessions.Resolve(s.table, rid, TimedOut)), s.table.inflight[rid], false, TransientError, NoPlan())
                        else s
    {
      hide View, Valid, Resume, Sessions.Resolve;
      Seen();
      if rid in inflight {
        EndCall(rid, TimedOut, false, TransientError, NoPlan());
      }
    }

    /** `_do_estop_replay` starts. */
    method DoEstopReplay(sendOk: bool)
      requires Valid()
      modifies this, Records()
      ensures Valid() && Records() == old(Records()) && View() == StartReplay(old(View()), sendOk)
    {
      hide View, Valid, Call, Sessions.OnTransportClose;
      Seen();
      SetTasks(tasks.(replayQueued := false));
      var rid := TakeRid();
      var sent := SendRpc(rid, Replay, CmdReplay, sendOk);
      if !sent {
        SetEstopPending(false);
        OnTransportClose(TransientError);
      }
    }

    /** `cmd_vel`, `emergency_stop_rpc`, `ping` and the task calls. */
    method Command(kind: Rpc, sendOk: bool)
      requires Valid() && !kind.Unsubscribing?
      modifies this
      ensures Valid() && subs == old(subs) && retired == old(retired) && View() == Order(old(View()), kind, sendOk)
    {
      hide View, Valid, Call, NextRid;
      Seen();
      if state != Ready {
        return;
      }
      var rid := TakeRid();
      var sent := SendRpc(rid, kind, CmdBusiness(kind), sendOk);
    }

    method QuitHeartbeat()
      requires Valid()
      modifies this`heartbeat, this`wire
      ensures Valid() && View() == old(View()).(heartbeat := false, wire := old(View()).wire.(quit := true))
    {
      hide Slots, Gone, Placed, IdsBelow, Holding;
      heartbeat, wire := false, wire.(quit := true);
    }

    /** The heartbeat loop sends a ping, or ends when the socket is no longer open. */
    method HeartbeatTurn(live: bool, sendOk: bool)
      requires Valid()
      modifies this, Records()
      ensures Valid() && Records() == old(Records()) && View() == Beat(old(View()), live, sendOk)
    {
      hide View, Valid, Call, NextRid, Sessions.OnTransportClose;
      Seen();
      if !open || !live {
        QuitHeartbeat();
        return;
      }
      var rid := TakeRid();
      var sent := SendRpc(rid, Ping, CmdBusiness(Ping), sendOk);
      if !sendOk {
        OnTransportClose(TransientError);
      }
    }

    // ----- Subscriptions -----

    /** A new record takes its place. */
    method Enroll(t: Topic, slot: SubSlot)
      requires Valid() && t !in subs && slot !in Records() && slot.topic == t && slot.serial == |born|
      modifies this`subs, this`born
      ensures Valid() && Records() == old(Records()) + {slot} && t in subs
      ensures View() == old(View()).(subs := old(View()).subs[t := slot.View()],
                                     past := old(View()).past.(born := old(View()).past.born + [t]))
    {
      hide SubSlot.View, Gone, Slots, IdsBelow;
      EnrolledViews(subs, t, slot);
      EnrolledValues(subs, t, slot);
      born := born + [t];
      subs := subs[t := slot];
    }

    method AddSlot(t: Topic)
      requires Valid() && t !in subs
      modifies this`subs, this`born
      ensures Valid() && t in subs && fresh(Records() - old(Records()))
      ensures var s := old(View());
              View() == s.(subs := s.subs[t := NewSlot(t, |s.past.born|, s.opts.conf, SemanticsOf(s.catalog, t))],
                           past := s.past.(born := s.past.born + [t]))
    {
      hide SubSlot.View, View, Valid, NewSlot, SemanticsOf;
      Seen();
      ghost var known := Records();
      var slot := new SubSlot(t, |born|, opts.conf, SemanticsOf(catalog, t));
      assert slot !in known;
      Enroll(t, slot);
    }

    /** `_subscribe_internal`. */
    method SubscribeInternal(t: Topic, send: SendResult)
      requires Valid()
      modifies this, Records()
      ensures Valid() && fresh(Records() - old(Records())) && View() == Subscribe(old(View()), t, send)
    {
      hide View, Valid, NewSlot, SemanticsOf, Sessions.SendSubscribe;
      Seen();
      if t in subs {
        return;
      }
      AddSlot(t);
      if state == Ready {
        SendSubscribe(t, 0, send);
      }
    }

    method AbandonSlot(t: Topic)
      requires Valid() && t in subs
      modifies this, Records()
      ensures Valid() && Records() == old(Records()) && View() == Abandon(old(View()), t)
    {
      hide View, Valid, Unregister, SubSlot.View;
      Seen();
      SlotFields(t);
      var outstanding := subs[t].inflightSubscribeRequestId != 0;
      CloseSlot(t);
      if outstanding {
        Seen();
        SetLost(lost + 1);
      }
    }

    /** An unsubscribe that waits for its answer holds its slot meanwhile. */
    method Hold(rid: nat, slot: SubSlot)
      requires Valid() && rid !in inflight && slot in Records()
      modifies this`unsubscribing
      ensures Valid() && unsubscribing == old(unsubscribing)[rid := slot] && View() == old(View())
    {
      hide Slots, Gone, Placed;
      unsubscribing := unsubscribing[rid := slot];
    }

    lemma OwnKey(t: Topic)
      requires Valid() && t in subs
      ensures IsFor(subs[t], Key(t, subs[t].serial)) && subs[t] in Records()
      ensures t in View().subs && View().subs[t].serial == subs[t].serial
    {}

    method DropSlot(t: Topic, kind: Rpc, sendOk: bool)
      requires Valid() && t in subs
      modifies this, Records()
      ensures Valid() && Records() == old(Records())
      ensures View() == Unregister(if sendOk then Sessions.Transmit(old(View()), Sent(CmdBusiness(kind))) else old(View()), t)
    {
      hide View, Valid, Unregister, Sessions.Transmit;
      if sendOk {
        Transmit(Sent(CmdBusiness(kind)));
      }
      CloseSlot(t);
    }

    method AskToLeave(t: Topic, rid: nat, sendOk: bool)
      requires Valid() && t in subs && rid < nextRequestId && rid !in inflight
      modifies this, Records()
      ensures Valid() && Records() == old(Records())
      ensures var kind := Unsubscribing(Key(t, old(subs[t]).serial));
              var called := Call(old(View()), rid, kind, CmdBusiness(kind), sendOk);
              View() == if old(open) && sendOk then called else Unregister(called, t)
    {
      hide View, Valid, Unregister, Call;
      OwnKey(t);
      var kind := Unsubscribing(Key(t, subs[t].serial));
      Hold(rid, subs[t]);
      var sent := SendRpc(rid, kind, CmdBusiness(kind), sendOk);
      if !sent {
        CloseSlot(t);
      }
    }

    /** `unsubscribe_request` on a READY connection. */
    method UnsubscribeReady(t: Topic, syncWait: bool, sendOk: bool)
      requires Valid() && t in subs && state == Ready && open
      modifies this, Records()
      ensures Valid() && Records() == old(Records())
      ensures View() == Sessions.Unsubscribe(old(View()), t, syncWait, true, sendOk)
    {
      hide View, Valid, Unregister, SubSlot.View, NextRid, Call, Sessions.Transmit;
      OwnKey(t);
      Seen();
      var rid := TakeRid();
      if syncWait {
        AskToLeave(t, rid, sendOk);
      } else {
        DropSlot(t, Unsubscribing(Key(t, subs[t].serial)), sendOk);
      }
    }

    /** `unsubscribe_request`. */
    method UnsubscribeRequest(t: Topic, syncWait: bool, live: bool, sendOk: bool)
      requires Valid()
      modifies this, Records()
      ensures Valid() && Records() == old(Records())
      ensures View() == Sessions.Unsubscribe(old(View()), t, syncWait, live, sendOk)
    {
      hide View, Valid, Abandon, Unregister, SubSlot.View, NextRid, Call, Sessions.Transmit;
      Seen();
      if t !in subs {
        return;
      }
      if state != Ready || !open || !live {
        AbandonSlot(t);
        return;
      }
      UnsubscribeReady(t, syncWait, sendOk);
    }

    /** `_handle_sdk_topic_push`. */
    method HandleTopicPush(t: Topic, f: Frame)
      requires Valid()
      modifies subs.Values
      ensures Valid()
      ensures var s := old(View());
              View() == if t in s.subs then s.(subs := s.subs[t := Push(s.subs[t], f)]) else s
    {
      hide View, Valid, SubSlot.View, Push;
      Seen();
      if t !in subs {
        return;
      }
      label Pushing:
      subs[t].HandlePush(f);
      SlotChanged@Pushing(t);
    }

    /** One turn of the dispatch worker of a registered slot ... */
    method WorkRegistered(t: Topic)
      requires Valid() && t in subs
      modifies subs.Values
      ensures Valid() && View() == old(View()).(subs := old(View()).subs[t := Work(old(View()).subs[t])])
    {
      hide View, Valid, SubSlot.View, Work;
      label Working:
      subs[t].WorkerTurn();
      SlotChanged@Working(t);
    }

    /** ... and of one that has left the registry. */
    method WorkGone(k: Key)
      requires Valid() && k in retired
      modifies retired.Values
      ensures Valid()
      ensures View() == old(View()).(past := old(View()).past.(retired := old(View()).past.retired[k := Work(old(View()).past.retired[k])]))
    {
      hide SubSlot.View, View, Valid, Work;
      label Working:
      retired[k].WorkerTurn();
      GoneChanged@Working(k);
    }

    /** One turn of the dispatch worker of a slot, which runs on when its slot is pushed out unclosed. */
    method WorkerTurn(k: Key)
      requires Valid()
      modifies Records()
      ensures Valid() && View() == WorkOn(old(View()), k)
    {
      hide View, Valid, SubSlot.View, Work;
      SeenKey(k);
      if k.topic in subs && subs[k.topic].serial == k.serial {
        WorkRegistered(k.topic);
      } else if k in retired {
        WorkGone(k);
      }
    }

    lemma SeenKey(k: Key)
      ensures k.topic in subs && subs[k.topic].serial == k.serial <==> Registered(View(), k)
      ensures k in retired <==> k in View().past.retired
    {}

    // ----- Tasks -----

    /** `connect()`. */
    method Connect()
      requires Valid()
      modifies this`state, this`est
      ensures Valid() && View() == Step(old(View()), Event.Connect)
    {
      hide Slots, Gone, Placed, IdsBelow, Holding;
      if state == Idle {
        state, est := Connecting, AtConnect(false, 0);
      }
    }

    method BeginAttempt(attempt: nat, task: nat)
      requires Valid()
      modifies this`reconnectAttempt, this`est
      ensures Valid() && View() == old(View()).(attempt := attempt, est := AtConnect(true, task))
    {
      hide Slots, Gone, Placed, IdsBelow, Holding;
      reconnectAttempt, est := attempt, AtConnect(true, task);
    }

    /** A reconnect timer has slept. */
    method DoReconnect(task: nat)
      requires Valid() && task in tasks.timers
      modifies this`tasks, this`reconnectAttempt, this`state, this`est
      ensures Valid() && View() == FireTimer(old(View()), task)
    {
      hide View, Valid;
      Seen();
      var attempt := tasks.timers[task];
      SetTasks(tasks.(timers := tasks.timers - {task}));
      if state != TransientFailure {
        return;
      }
      Transition(Reconnecting);
      BeginAttempt(attempt, task);
    }

    method StartAbort()
      requires Valid() && tasks.aborts > 0
      modifies this, Records()
      ensures Valid() && Records() == old(Records()) && AllRetired() && View() == Step(old(View()), AbortStarted)
    {
      hide View, Valid, Abort;
      Seen();
      SetTasks(tasks.(aborts := tasks.aborts - 1));
      AbortToFatal(TransientError);
    }

    /** `_handle_subscribe_ack_timeout`. */
    method OnAckTimeout(rid: nat)
      requires Valid()
      modifies this, Records()
      ensures Valid() && Records() == old(Records()) && View() == Step(old(View()), AckTimedOut(rid))
    {
      hide View, Valid, Sessions.OnTransportClose;
      Seen();
      if rid in subAckTimers {
        OnTransportClose(TransientError);
      }
    }

    /** Whatever the event loop runs next, the fields keep the invariant of the session. */
    method Serve(e: Event)
      requires Valid() && SessionInvariant.Inv(View()) && Enabled(View(), e)
      modifies this, Records()
      ensures Valid() && SessionInvariant.Inv(View()) && View() == Step(old(View()), e)
      ensures fresh(Records() - old(Records()))
    {
      hide View, Valid, SessionInvariant.Inv, Enabled, Step;
      SessionSteps.StepInv(View(), e);
      Handle(e);
    }

    /** Whatever the event loop runs next, the fields move as the session steps. */
    method Handle(e: Event)
      requires Valid() && Enabled(View(), e)
      modifies this, Records()
      ensures Valid() && fresh(Records() - old(Records())) && View() == Step(old(View()), e)
    {
      hide View, Valid, SubSlot.View, Step;
      match e {
        case Connect => Connect();
        case TimerFired(task) => HandleTimer(task);
        case AbortStarted => HandleAbort();
        case Closed => HandleRequest(e);
        case Subscribed(t, send) => HandleRequest(e);
        case Unsubscribed(t, syncWait, live, sendOk) => HandleRequest(e);
        case Commanded(kind, sendOk) => HandleRequest(e);
        case _ => HandleNetwork(e);
      }
    }

    method HandleTimer(task: nat)
      requires Valid() && Enabled(View(), TimerFired(task))
      modifies this, Records()
      ensures Valid() && Records() == old(Records()) && View() == Step(old(View()), TimerFired(task))
    {
      hide View, Valid, Step;
      TimerFires(View(), task);
      Seen();
      DoReconnect(task);
    }

    method HandleAbort()
      requires Valid() && Enabled(View(), AbortStarted)
      modifies this, Records()
      ensures Valid() && Records() == old(Records()) && View() == Step(old(View()), AbortStarted)
    {
      hide View, Valid, Step;
      Seen();
      StartAbort();
    }

    method HandleRequest(e: Event)
      requires Valid() && (e.Closed? || e.Subscribed? || e.Unsubscribed? || e.Commanded?) && Enabled(View(), e)
      modifies this, Records()
      ensures Valid() && fresh(Records() - old(Records())) && View() == Step(old(View()), e)
    {
      hide View, Valid, SubSlot.View, Enumerates, UserClose, Subscribe, Sessions.Unsubscribe, Order;
      match e {
        case Closed => Close();
        case Subscribed(t, send) => SubscribeInternal(t, send);
        case Unsubscribed(t, syncWait, live, sendOk) => UnsubscribeRequest(t, syncWait, live, sendOk);
        case Commanded(kind, sendOk) => Command(kind, sendOk);
      }
    }

    method HandleNetwork(e: Event)
      requires Valid() && Enabled(View(), e)
      requires !e.Connect? && !e.TimerFired? && !e.AbortStarted?
      requires !e.Closed? && !e.Subscribed? && !e.Unsubscribed? && !e.Commanded?
      modifies this, Records()
      ensures Valid() && Records() == old(Records()) && View() == Step(old(View()), e)
    {
      hide View, Valid, SubSlot.View, Enumerates, Connected, Resume, Sessions.Resolve, HandleAck, Push, WorkOn,
           Sessions.OnTransportClose, StartReplay, Beat;
      Seen();
      match e {
        case ConnectOver(ok, cat, encodeOk, sendOk) => OnConnected(ok, cat, encodeOk, sendOk);
        case RpcAnswered(rid, ok, cat, plan) => HandleResponse(rid, ok, cat, plan);
        case RpcTimedOut(rid) => OnTimeout(rid);
        case AckArrived(rid, ack, retry) => HandleSubscribeAck(rid, ack, retry);
        case AckTimedOut(rid) => OnAckTimeout(rid);
        case Pushed(t, f) => HandleTopicPush(t, f);
        case Worked(k) => WorkerTurn(k);
        case TransportClosed(cat) => OnTransportClose(cat);
        case ReplayStarted(sendOk) => DoEstopReplay(sendOk);
        case HeartbeatSent(live, sendOk) => HeartbeatTurn(live, sendOk);
        case HeartbeatDead => OnTransportClose(TransientError);
      }
    }
  }

  /** `_send_subscribe` of a request that goes out, and of one that cannot be encoded. */
  lemma WentOut(s: Session, t: Topic, sinceSeq: nat, rid: nat)
    requires t in s.subs && s.open && rid == s.table.nextRid
    ensures var slot := Ask(s.subs[t], rid, sinceSeq, s.state.Reconnecting?);
            Sessions.SendSubscribe(s, t, sinceSeq, SendOk) ==
              Sessions.Transmit(s.(subs := s.subs[t := slot], table := Asked(NextRid(s.table), rid, t)),
                                Sent(CmdSubscribe(rid, t, slot.expectedResumeSeq)))
  {
    hide Sessions.OnTransportClose, Ask;
  }

  lemma NotEncoded(s: Session, t: Topic, sinceSeq: nat)
    requires t in s.subs
    ensures var s1 := Unregister(s.(table := NextRid(s.table)), t);
            Sessions.SendSubscribe(s, t, sinceSeq, EncodeFails) == s1.(barrier := s1.barrier.(lost := s1.barrier.lost + 1))
  {
    hide Sessions.OnTransportClose, Unregister, Ask;
  }

  /** `_send_subscribe` reports the loss of the connection, with its books as they were but for the id. */
  lemma NotOut(s: Session, t: Topic, sinceSeq: nat, send: SendResult, rid: nat)
    requires t in s.subs && !send.EncodeFails? && !(s.open && send.SendOk?)
    requires rid == s.table.nextRid && rid !in s.table.asked && rid !in s.table.ackTimers
    ensures var slot := Ask(s.subs[t], rid, sinceSeq, s.state.Reconnecting?);
            var asked := Asked(NextRid(s.table), rid, t);
            var subs := s.subs[t := slot];
            Sessions.SendSubscribe(s, t, sinceSeq, send) ==
              Sessions.OnTransportClose(s.(subs := subs[t := Unask(subs[t])], table := Unasked(asked, rid)), TransientError)
  {
    hide Sessions.OnTransportClose, Ask, Unask;
    UnaskedAsked(NextRid(s.table), rid, t);
    var slot := Ask(s.subs[t], rid, sinceSeq, s.state.Reconnecting?);
    assert s.subs[t := slot][t := Unask(slot)] == s.subs[t := Unask(slot)];
  }

  lemma UnaskedAsked(b: Table, rid: nat, t: Topic)
    requires rid !in b.asked && rid !in b.ackTimers
    ensures Unasked(Asked(b, rid, t), rid) == b
  {}

  lemma CloseKeepsSerial(slot: Slot)
    ensures Close(slot).serial == slot.serial
  {}

  /** The slots of the topics `done` have been retired. */
  ghost predicate RetiredFor(p: Past, subs: map<Topic, Slot>, done: set<Topic>, p': Past) {
    && p'.born == p.born && p'.displaced == p.displaced
    && (forall k :: k in p'.retired <==> k in p.retired || (k.topic in done && k.topic in subs && subs[k.topic].serial == k.serial))
    && (forall k :: k in p'.retired ==>
          p'.retired[k] == if k.topic in done && k.topic in subs && subs[k.topic].serial == k.serial then Close(subs[k.topic]) else p.retired[k])
  }

  lemma NobodyRetired(p: Past, subs: map<Topic, Slot>)
    ensures RetiredFor(p, subs, {}, p)
  {
    hide Close;
  }

  lemma OneMoreRetired(p: Past, subs: map<Topic, Slot>, done: set<Topic>, p': Past, t: Topic)
    requires RetiredFor(p, subs, done, p') && t in subs
    ensures RetiredFor(p, subs, done + {t}, Retire(p', t, subs[t]))
  {
    hide Close;
  }

  lemma AllRetiredFor(p: Past, subs: map<Topic, Slot>, p': Past)
    requires RetiredFor(p, subs, subs.Keys, p')
    ensures p' == RetireAll(p, subs)
  {
    hide Close, RetireAll;
    var all := RetireAll(p, subs);
    SessionHistory.RetiredAll(p, subs);
    assert p'.retired.Keys == all.retired.Keys;
    assert p'.retired == all.retired;
  }

  /** The slots of the topics `done` have been closed and have left. */
  ghost predicate Emptied(s: Session, s': Session, done: set<Topic>) {
    && s' == s.(subs := s'.subs, barrier := s.barrier.(round := s'.barrier.round), past := s'.past)
    && s'.subs == s.subs - done && RetiredFor(s.past, s.subs, done, s'.past)
  }

  lemma NothingEmptied(s: Session)
    ensures Emptied(s, s, {})
  {
    hide RetiredFor;
    NobodyRetired(s.past, s.subs);
  }

  lemma OneMoreEmptied(s: Session, s': Session, done: set<Topic>, t: Topic)
    requires Emptied(s, s', done) && t in s.subs && t !in done
    ensures Emptied(s, Unregister(s', t), done + {t})
  {
    hide RetiredFor, Retire;
    OneMoreRetired(s.past, s.subs, done, s'.past, t);
    assert s.subs - done - {t} == s.subs - (done + {t});
  }

  /** From `subs` and `retired`, the records of the topics `done` have been moved over. */
  ghost predicate Passed(subs: map<Topic, SubSlot>, retired: map<Key, SubSlot>, done: set<Topic>,
                         subs': map<Topic, SubSlot>, retired': map<Key, SubSlot>) {
    && done <= subs.Keys && subs' == subs - done
    && (forall k :: k in retired ==> k in retired' && retired'[k] == retired[k])
    && (forall t :: t in done ==> var k := Key(t, subs[t].serial); k in retired' && retired'[k] == subs[t])
  }

  lemma NobodyPassed(subs: map<Topic, SubSlot>, retired: map<Key, SubSlot>)
    ensures Passed(subs, retired, {}, subs, retired)
  {}

  lemma OneMorePassed(subs: map<Topic, SubSlot>, retired: map<Key, SubSlot>, done: set<Topic>,
                      subs0: map<Topic, SubSlot>, retired0: map<Key, SubSlot>, t: Topic,
                      subs1: map<Topic, SubSlot>, retired1: map<Key, SubSlot>)
    requires Passed(subs, retired, done, subs0, retired0) && t in subs0 && subs1 == subs0 - {t}
    requires forall k :: k in retired0 ==> k in retired1 && retired1[k] == retired0[k]
    requires Key(t, subs0[t].serial) in retired1 && retired1[Key(t, subs0[t].serial)] == subs0[t]
    ensures Passed(subs, retired, done + {t}, subs1, retired1)
  {
    assert subs1 == subs - (done + {t});
    assert subs0[t] == subs[t];
  }

  lemma OneFewer(subs: map<Topic, SubSlot>, t: Topic, fewer: map<Topic, SubSlot>)
    requires t in subs && fewer == subs - {t}
    ensures |fewer| < |subs|
  {
    assert subs.Keys == fewer.Keys + {t} && t !in fewer;
    assert |subs.Keys| == |fewer.Keys| + 1;
  }

  lemma EverybodyPassed(subs: map<Topic, SubSlot>, retired: map<Key, SubSlot>, done: set<Topic>,
                        subs': map<Topic, SubSlot>, retired': map<Key, SubSlot>)
    requires Passed(subs, retired, done, subs', retired') && |subs'| == 0
    ensures done == subs.Keys && subs' == map[]
    ensures forall k :: k in retired ==> k in retired' && retired'[k] == retired[k]
    ensures forall t :: t in subs ==> var k := Key(t, subs[t].serial); k in retired' && retired'[k] == subs[t]
  {
    assert subs'.Keys == {};
  }

  lemma StillThere(s: Session, s': Session, done: set<Topic>, t: Topic)
    requires Emptied(s, s', done) && t in s'.subs
    ensures t in s.subs && t !in done
  {
    hide RetiredFor;
  }

  lemma AllEmptied(s: Session, s': Session)
    requires Emptied(s, s', s.subs.Keys)
    ensures s' == s.(subs := map[], barrier := s.barrier.(round := s'.barrier.round), past := RetireAll(s.past, s.subs))
  {
    hide RetiredFor, RetireAll;
    AllRetiredFor(s.past, s.subs, s'.past);
  }

  // ----- Moving records about -----

  lemma MovedPlaced(subs: map<Topic, SubSlot>, retired: map<Key, SubSlot>, n: nat, t: Topic,
                    fewer: map<Topic, SubSlot>, more: map<Key, SubSlot>)
    requires Placed(subs, retired, n) && t in subs
    requires fewer == subs - {t} && more == retired[Key(t, subs[t].serial) := subs[t]]
    ensures Placed(fewer, more, n) && Key(t, subs[t].serial) !in retired
  {}

  lemma MovedRecords(subs: map<Topic, SubSlot>, retired: map<Key, SubSlot>, t: Topic,
                     fewer: map<Topic, SubSlot>, more: map<Key, SubSlot>)
    requires t in subs && Key(t, subs[t].serial) !in retired
    requires fewer == subs - {t} && more == retired[Key(t, subs[t].serial) := subs[t]]
    ensures fewer.Values + more.Values == subs.Values + retired.Values
  {
    forall o | o in subs.Values + retired.Values
      ensures o in fewer.Values + more.Values
    {
      if o in retired.Values {
        var j :| j in retired && retired[j] == o;
        assert more[j] == o;
      } else {
        var u :| u in subs && subs[u] == o;
        if u == t {
          assert more[Key(t, subs[t].serial)] == o;
        } else {
          assert fewer[u] == o;
        }
      }
    }
  }

  lemma MovedViews(subs: map<Topic, SubSlot>, retired: map<Key, SubSlot>, t: Topic,
                   fewer: map<Topic, SubSlot>, more: map<Key, SubSlot>)
    requires t in subs && fewer == subs - {t} && more == retired[Key(t, subs[t].serial) := subs[t]]
    ensures Slots(fewer) == Slots(subs) - {t}
    ensures Gone(more) == Gone(retired)[Key(t, subs[t].serial) := subs[t].View()]
  {
    hide SubSlot.View;
  }

  lemma EnrolledViews(subs: map<Topic, SubSlot>, t: Topic, slot: SubSlot)
    ensures Slots(subs[t := slot]) == Slots(subs)[t := slot.View()]
  {
    hide SubSlot.View;
  }

  lemma EnrolledValues(subs: map<Topic, SubSlot>, t: Topic, slot: SubSlot)
    requires t !in subs
    ensures (subs[t := slot]).Values == subs.Values + {slot}
  {
    var subs' := subs[t := slot];
    forall o | o in subs.Values + {slot}
      ensures o in subs'.Values
    {
      if o == slot {
        assert subs'[t] == o;
      } else {
        var u :| u in subs && subs[u] == o;
        assert subs'[u] == o;
      }
    }
  }

  // ----- Statements in another order -----

  lemma ScheduleIs(s: Session)
    ensures Schedule(s) ==
              if s.state.Shutdown? || s.state.Fatal? then s
              else if 0 <= s.opts.maxAttempts < s.attempt + 1 then s.(tasks := s.tasks.(aborts := s.tasks.aborts + 1))
              else s.(tasks := s.tasks.(timers := s.tasks.timers[s.tasks.nextTask := s.attempt + 1], reconnectTask := s.tasks.nextTask,
                                        nextTask := s.tasks.nextTask + 1))
  {}

  lemma TimerFires(s: Session, task: nat)
    requires Enabled(s, TimerFired(task))
    ensures Step(s, TimerFired(task)) == FireTimer(s, task)
  {}

  lemma LeaveResumes(s: Session, rid: nat, o: Outcome, k: Key, ok: bool, cat: Category, plan: Plan)
    requires |plan.order| == |plan.sends|
    ensures Resume(s.(table := Resolve(s.table, rid, o)), Unsubscribing(k), ok, cat, plan) == Leave(s.(table := Resolve(s.table, rid, o)), k)
  {
    hide Resolve, Leave;
  }

  lemma EstablishedAgain(s: Session, plan: Plan)
    requires |plan.order| == |plan.sends|
    ensures var s2 := SetBarrier(Learn(s, plan.catalog));
            var s3 := Resubscribe(s2.(wire := s2.wire.(waited := true)), plan.order, plan.sends);
            Established(s, true, plan) == if s2.barrier.subsPending == 0 && !s2.barrier.estopPending then ReachReady(s2).(heartbeat := s2.opts.heartbeatOn)
                        else s3.(tasks := s3.tasks.(replayQueued := s3.tasks.replayQueued || s3.barrier.estopPending))
  {
    hide Resubscribe;
  }

  /** `close()` in the order its statements come. */
  function Closing(s: Session): Session {
    CancelReconnect(s.(state := Shutdown))
      .(heartbeat := false, table := Flush(s.table, LocalError), subs := map[], barrier := s.barrier.(round := {}), open := false,
        past := RetireAll(s.past, s.subs))
  }

  lemma ClosingIs(s: Session)
    ensures UserClose(s) == if s.state.Shutdown? then s else Wake(Closing(s), s.table, LocalError)
  {
    hide Flush, Wake, RetireAll;
  }
}
