/** The reconnect barrier counts right: answers, retries and losses keep its books. */
module SessionBarrier {
  import opened Flows
  import opened Chronicles
  import opened Streams
  import opened StreamLaws
  import opened Sessions
  import opened SessionInvariant
  import opened SessionAsking

  // ----- The counter -----

  /** An answer arrives: the slot is no longer asked, and the round has it to do. */
  lemma UnaskCounted(subs: map<Topic, Slot>, b: Barrier, t: Topic)
    requires Counted(subs, b, []) && t in subs && subs[t].inflightId != 0
    ensures Counted(subs[t := Unask(subs[t])], b, [t]) && t in b.round
  {
    assert Unanswered(subs[t := Unask(subs[t])]) == Unanswered(subs) - {t};
  }

  /** The next slot of the round is asked. */
  lemma AskCounted(subs: map<Topic, Slot>, b: Barrier, t: Topic, rest: seq<Topic>, slot: Slot)
    requires Counted(subs, b, [t] + rest) && t in subs && subs[t].inflightId == 0 && t in b.round
    requires slot.inflightId != 0
    ensures Counted(subs[t := slot], b, rest)
  {
    assert Unanswered(subs[t := slot]) == Unanswered(subs) + {t};
  }

  /** The next slot of the round is closed without its answer being counted, or with it. */
  lemma DropCounted(subs: map<Topic, Slot>, b: Barrier, t: Topic, rest: seq<Topic>)
    requires Counted(subs, b, [t] + rest) && t in subs && subs[t].inflightId == 0
    ensures Counted(subs - {t}, b.(round := b.round - {t}, lost := b.lost + 1), rest)
    ensures b.subsPending > 0
    ensures Counted(subs - {t}, b.(round := b.round - {t}, subsPending := b.subsPending - 1), rest)
  {
    assert Unanswered(subs - {t}) == Unanswered(subs);
  }

  /** The next slot of the round becomes active. */
  lemma ActiveCounted(subs: map<Topic, Slot>, b: Barrier, t: Topic, slot: Slot)
    requires Counted(subs, b, [t]) && t in subs && subs[t].inflightId == 0
    requires t in b.round
    requires slot.state.Active? && slot.inflightId == 0
    ensures b.subsPending > 0
    ensures Counted(subs[t := slot], b.(subsPending := b.subsPending - 1), [])
  {
    assert Unanswered(subs[t := slot]) == Unanswered(subs);
  }

  /** A slot changes in ways the barrier does not look at. */
  lemma SameCounted(subs: map<Topic, Slot>, b: Barrier, todo: seq<Topic>, t: Topic, slot: Slot)
    requires Counted(subs, b, todo)
    requires t in subs ==> slot.inflightId == subs[t].inflightId && (subs[t].state.Active? ==> slot.state.Active?)
                           && (subs[t].state.Pending? ==> slot.state.Pending?)
    requires t !in subs ==> slot.inflightId == 0 && slot.state.Pending?
    ensures Counted(subs[t := slot], b, todo)
  {
    assert Unanswered(subs[t := slot]) == Unanswered(subs);
  }

  /** A slot is unsubscribed: if it was still asked, the barrier loses it. */
  lemma AbandonCounted(subs: map<Topic, Slot>, b: Barrier, t: Topic)
    requires Counted(subs, b, []) && t in subs
    ensures var b' := b.(round := b.round - {t});
            Counted(subs - {t}, if subs[t].inflightId == 0 then b' else b'.(lost := b.lost + 1), [])
  {
    assert Unanswered(subs - {t}) == Unanswered(subs) - {t};
  }

  // ----- Finishing -----

  /** A reconnect that ends READY waited for everyone; a session that ends is down, with nobody suspended. */
  ghost predicate Concluded(s: Session, s': Session) {
    WaitedForAll(s, s') && EndsDown(s, s')
  }

  ghost predicate WaitedForAll(s: Session, s': Session) {
    s.state.Reconnecting? && s'.state.Ready? ==>
      Counted(s'.subs, s'.barrier, []) && s'.barrier.subsPending == 0 && !s'.barrier.estopPending
  }

  ghost predicate EndsDown(s: Session, s': Session) {
    !Terminal(s) && Terminal(s') ==> Down(s') && s'.est.NoEst?
  }

  /** The last answer makes the session READY; by then every slot of the round is active. */
  lemma ReachReadyInv(s: Session)
    requires Core(s) && s.est.NoEst? && (s.state.Reconnecting? || Terminal(s)) && !s.barrier.estopPending
    requires s.state.Reconnecting? ==> Counted(s.subs, s.barrier, []) && s.barrier.subsPending == 0
    requires s.wire.waited && (Owes(s.wire) ==> ReplayAccepted in s.wire.log) && s.open
    ensures Inv(ReachReady(s))
    ensures s.state.Reconnecting? ==> forall t :: t in s.barrier.round ==> t in s.subs && s.subs[t].state.Active?
  {
    if s.state.Reconnecting? {
      assert Unanswered(s.subs) == {};
      assert forall t :: t in s.subs ==> t !in Unanswered(s.subs);
    }
    assert AllSettled(s.subs, Ready);
    assert Limited(s.opts.maxAttempts, 0, s.tasks);
    hide AllHeld, AllSettled, Books, Awaited, Limited, Archived, WireLawful, Owes, NoneActive, ReplayOut;
  }

  /** `_maybe_finish_reconnect` after one more slot of the round was settled. */
  lemma FinishInv(s: Session, phase: bool)
    requires Core(s) && s.est.NoEst? && phase == s.state.Reconnecting?
    requires phase ==> s.barrier.subsPending > 0
                       && Counted(s.subs, s.barrier.(subsPending := s.barrier.subsPending - 1), [])
    ensures Inv(Finish(s, phase))
    ensures Finish(s, phase).state.Ready? || Finish(s, phase).state == s.state
    ensures Concluded(s, Finish(s, phase))
  {
    if phase {
      var s1 := s.(barrier := s.barrier.(subsPending := s.barrier.subsPending - 1));
      assert Core(s1) by {
        hide AllHeld, AllSettled, Books, Awaited, Limited, Archived, WireLawful, Owes, NoneActive, ReplayOut;
      }
      if s1.barrier.subsPending == 0 && !s1.barrier.estopPending {
        ReachReadyInv(s1);
      }
    }
  }
}
