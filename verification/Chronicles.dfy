/** What an observer of one stream sees: its status announcements, the frames that passed the sequence gate
    or were refused by it, and the acknowledgements. Two readings of it do not look at the client's own
    counters: the ledger of sequence numbers and the order of status announcements. */
module Chronicles {
  import opened Subsequences
  import opened Flows

  datatype StatusKind = Started | Suspended | Resumed | Gap | Ended

  /** `gap` is the reported gap count, 0 when absent. */
  datatype Entry =
    | Status(kind: StatusKind, gap: nat)
    | Numbered(frame: Frame)                 // a numbered EVENT frame passed the gate
    | Plain(frame: Frame)                    // any other frame was let through
    | Refused(frame: Frame)                  // the gate refused a frame
    | Accepted(expected: nat, next: nat)     // an accepted acknowledgement of an EVENT subscribe
    | AcceptedTelemetry                      // an accepted acknowledgement of a TELEMETRY subscribe
    | Restarted                              // history refused: the client asks again from scratch

  type Chronicle = seq<Entry>

  // ----- The frames -----

  /** The frames admitted, in order. */
  function Frames(log: Chronicle): seq<Frame> {
    if log == [] then []
    else
      var before, e := log[..|log| - 1], log[|log| - 1];
      if e.Numbered? || e.Plain? then Frames(before) + [e.frame] else Frames(before)
  }

  /** How many frames the gate refused. */
  function Refusals(log: Chronicle): nat {
    if log == [] then 0
    else Refusals(log[..|log| - 1]) + (if log[|log| - 1].Refused? then 1 else 0)
  }

  /** The last accepted acknowledgement was of an EVENT subscribe: the gate is in force. */
  predicate UnderEvent(log: Chronicle) {
    log != []
    && (var e := log[|log| - 1];
        e.Accepted? || (!e.AcceptedTelemetry? && UnderEvent(log[..|log| - 1])))
  }

  /** The stream has been suspended, and not asked for from scratch since. */
  predicate CutOff(log: Chronicle) {
    log != []
    && (var e := log[|log| - 1];
        (e.Status? && e.kind.Suspended?) || (!e.Restarted? && CutOff(log[..|log| - 1])))
  }

  /** What a subscriber can tell: everything but the refusals. */
  function WithoutRefusals(log: Chronicle): Chronicle {
    if log == [] then []
    else
      var before, e := WithoutRefusals(log[..|log| - 1]), log[|log| - 1];
      if e.Refused? then before else before + [e]
  }

  function NumberedOnly(frames: seq<Frame>): seq<Frame> {
    if frames == [] then []
    else
      var before, f := NumberedOnly(frames[..|frames| - 1]), frames[|frames| - 1];
      if f.number != 0 then before + [f] else before
  }

  // ----- The ledger -----

  function JustBefore(number: nat): nat {
    if number >= 1 then number - 1 else 0
  }

  /** The entries that base the numbering anew: an acknowledgement that was not a resume or that went
      back, a TELEMETRY acknowledgement, and a refused history. */
  predicate Rebases(e: Entry) {
    match e
    case Accepted(expected, next) => expected == 0 || next < expected
    case AcceptedTelemetry => true
    case Restarted => true
    case _ => false
  }

  function BaseOf(e: Entry): nat {
    if e.Accepted? then JustBefore(e.next) else 0
  }

  /** The position after one more entry: a reported gap and an admitted number both move it on. */
  function Moved(position: nat, e: Entry): nat {
    if Rebases(e) then BaseOf(e)
    else match e
         case Status(_, gap) => position + gap
         case Numbered(f) => if position == 0 then f.number else position + 1
         case _ => position
  }

  /** The last number accounted for; 0 when there is no position. */
  function Position(log: Chronicle): nat {
    if log == [] then 0 else Moved(Position(log[..|log| - 1]), log[|log| - 1])
  }

  /** Where the numbering was last based: at a rebasing entry, or just before the first number seen
      without a position. */
  function Base(log: Chronicle): nat {
    if log == [] then 0
    else
      var before, e := log[..|log| - 1], log[|log| - 1];
      if Rebases(e) then BaseOf(e)
      else if e.Numbered? && Position(before) == 0 then JustBefore(e.frame.number)
      else Base(before)
  }

  /** How many frames had been admitted when the numbering was last based. */
  function AdmittedBefore(log: Chronicle): nat {
    if log == [] then 0
    else
      var before, e := log[..|log| - 1], log[|log| - 1];
      if Rebases(e) || (e.Numbered? && Position(before) == 0) then |Frames(before)| else AdmittedBefore(before)
  }

  /** The numbered frames admitted since. */
  function Since(log: Chronicle): seq<Frame> {
    if log == [] then []
    else
      var before, e := log[..|log| - 1], log[|log| - 1];
      if Rebases(e) then []
      else if !e.Numbered? then Since(before)
      else if Position(before) == 0 then [e.frame]
      else Since(before) + [e.frame]
  }

  /** How many numbers were reported missing since. */
  function MissedSince(log: Chronicle): nat {
    if log == [] then 0
    else
      var before, e := log[..|log| - 1], log[|log| - 1];
      if Rebases(e) then 0
      else if e.Status? then MissedSince(before) + e.gap
      else if e.Numbered? && Position(before) == 0 then 0
      else MissedSince(before)
  }

  /** How often the number `n` was admitted or reported missing since the numbering was last based. */
  function Covered(log: Chronicle, n: nat): nat {
    if log == [] then 0
    else
      var before, e := log[..|log| - 1], log[|log| - 1];
      var last := Position(before);
      if Rebases(e) then 0
      else match e
           case Status(_, gap) => Covered(before, n) + (if last < n <= last + gap then 1 else 0)
           case Numbered(f) => (if last == 0 then 0 else Covered(before, n)) + (if n == f.number then 1 else 0)
           case _ => Covered(before, n)
  }

  /** What the server skipped of a resume it accepted. */
  function Skipped(e: Entry): nat {
    if e.Accepted? && 0 < e.expected < e.next then e.next - e.expected else 0
  }

  /** Whether an entry fits what came before it. */
  predicate Due(before: Chronicle, e: Entry) {
    var position := Position(before);
    && (before != [] && before[|before| - 1].Accepted? ==> e.Status? && e.gap == Skipped(before[|before| - 1]))
    && match e
       case Numbered(f) => UnderEvent(before) && f.number > 0 && (position == 0 || f.number == position + 1)
       case Plain(f) => UnderEvent(before) ==> f.number == 0
       case Refused(f) => UnderEvent(before) && 0 < f.number <= position
       case Status(_, gap) => gap > 0 ==> position > 0
       case Accepted(expected, _) => expected > 0 ==> 0 < position == expected - 1
       case _ => true
  }

  /** Every admitted number is the one the ledger says is due, once the gaps reported before it are counted;
      only duplicates and regressions are refused; a gap is only reported against a position, and what a
      resume skipped is reported at once. */
  ghost predicate InStep(log: Chronicle) {
    log == [] || (InStep(log[..|log| - 1]) && Due(log[..|log| - 1], log[|log| - 1]))
  }

  /** One more entry, as every reading sees it. */
  lemma Appended(log: Chronicle, e: Entry)
    ensures Position(log + [e]) == Moved(Position(log), e)
    ensures InStep(log + [e]) <==> InStep(log) && Due(log, e)
    ensures Story(log + [e]) == Hear(Story(log), e)
    ensures Frames(log + [e]) == if e.Numbered? || e.Plain? then Frames(log) + [e.frame] else Frames(log)
    ensures Refusals(log + [e]) == Refusals(log) + (if e.Refused? then 1 else 0)
    ensures UnderEvent(log + [e]) <==> e.Accepted? || (!e.AcceptedTelemetry? && UnderEvent(log))
    ensures CutOff(log + [e]) <==> (e.Status? && e.kind.Suspended?) || (!e.Restarted? && CutOff(log))
    ensures WithoutRefusals(log + [e]) == if e.Refused? then WithoutRefusals(log) else WithoutRefusals(log) + [e]
  {
    assert (log + [e])[..|log|] == log;
  }

  /** The position is the base plus what was admitted plus what was reported missing. */
  lemma {:induction false} LedgerAdds(log: Chronicle)
    requires InStep(log)
    ensures Position(log) == Base(log) + |Since(log)| + MissedSince(log)
  {
    if log != [] {
      LedgerAdds(log[..|log| - 1]);
    }
  }

  /** Each number after the base up to the position is accounted for exactly once, and no other number is. */
  lemma {:induction false} ExactlyOnce(log: Chronicle, n: nat)
    requires InStep(log)
    ensures Covered(log, n) == if Base(log) < n <= Position(log) then 1 else 0
  {
    if log != [] {
      LedgerAdds(log[..|log| - 1]);
      ExactlyOnce(log[..|log| - 1], n);
    }
  }

  /** Outside EVENT streams there is no position. */
  lemma {:induction false} NoPosition(log: Chronicle)
    requires InStep(log) && !UnderEvent(log)
    ensures Position(log) == 0
  {
    if log != [] && !log[|log| - 1].AcceptedTelemetry? {
      NoPosition(log[..|log| - 1]);
    }
  }

  lemma OneMoreNumbered(frames: seq<Frame>, f: Frame)
    ensures NumberedOnly(frames + [f]) == if f.number != 0 then NumberedOnly(frames) + [f] else NumberedOnly(frames)
  {
    assert (frames + [f])[..|frames|] == frames;
  }

  /** One more frame after the first `n`. */
  lemma TailGrows(frames: seq<Frame>, n: nat, f: Frame)
    requires n <= |frames|
    ensures var numbered := NumberedOnly(frames[n..]);
            NumberedOnly((frames + [f])[n..]) == if f.number != 0 then numbered + [f] else numbered
  {
    assert (frames + [f])[n..] == frames[n..] + [f];
    OneMoreNumbered(frames[n..], f);
  }

  /** What the ledger counts as admitted are the numbered ones among the frames admitted since the base. */
  lemma {:induction false} SinceIsAdmitted(log: Chronicle)
    requires InStep(log) && UnderEvent(log)
    ensures AdmittedBefore(log) <= |Frames(log)|
    ensures Since(log) == NumberedOnly(Frames(log)[AdmittedBefore(log)..])
  {
    var before, e := log[..|log| - 1], log[|log| - 1];
    if UnderEvent(before) {
      SinceIsAdmitted(before);
    } else {
      NoPosition(before);
    }
    NoNumbers(Frames(before));
    if e.Numbered? || e.Plain? {
      hide NumberedOnly, InStep;
      TailGrows(Frames(before), AdmittedBefore(log), e.frame);
    }
  }

  // ----- Within one baseline -----

  /** The numbers of `frames` strictly increase within (low, high]. */
  ghost predicate Ascending(low: nat, frames: seq<Frame>, high: nat) {
    && (forall i :: 0 <= i < |frames| ==> low < frames[i].number <= high)
    && (forall i, j :: 0 <= i < j < |frames| ==> frames[i].number < frames[j].number)
  }

  ghost predicate AscendingFrom(least: nat, frames: seq<Frame>) {
    && (forall i :: 0 <= i < |frames| ==> least <= frames[i].number)
    && (forall i, j :: 0 <= i < j < |frames| ==> frames[i].number < frames[j].number)
  }

  /** What holds of a stretch of a chronicle that nothing rebases. */
  ghost predicate Stretch(head: Chronicle, log: Chronicle) {
    && UnderEvent(log) && Frames(head) <= Frames(log) && Position(head) <= Position(log)
    && Ascending(Position(head), NumberedOnly(Frames(log)[|Frames(head)|..]), Position(log))
  }

  lemma AscendingGrows(low: nat, frames: seq<Frame>, high: nat, f: Frame)
    requires Ascending(low, frames, high) && low <= high < f.number
    ensures Ascending(low, frames + [f], f.number)
  {}

  lemma StretchGrows(head: Chronicle, log: Chronicle, e: Entry)
    requires Stretch(head, log) && Due(log, e) && !Rebases(e)
    ensures Stretch(head, log + [e])
  {
    hide InStep, Frames, Position, UnderEvent, NumberedOnly, Ascending;
    Appended(log, e);
    var n, low, high := |Frames(head)|, Position(head), Position(log);
    var frames := NumberedOnly(Frames(log)[n..]);
    if e.Numbered? || e.Plain? {
      TailGrows(Frames(log), n, e.frame);
    }
    if e.Numbered? {
      assert e.frame.number > high;
      AscendingGrows(low, frames, high, e.frame);
    } else {
      AscendingRises(low, frames, high, Position(log + [e]));
    }
  }

  lemma AscendingRises(low: nat, frames: seq<Frame>, high: nat, higher: nat)
    requires Ascending(low, frames, high) && high <= higher
    ensures Ascending(low, frames, higher)
  {}

  /** As long as nothing rebases the numbering the position never falls, and the numbered frames admitted
      strictly increase from the position on. */
  lemma {:induction false} Increasing(head: Chronicle, tail: Chronicle)
    requires InStep(head + tail) && UnderEvent(head)
    requires forall i :: 0 <= i < |tail| ==> !Rebases(tail[i])
    ensures Stretch(head, head + tail)
    decreases |tail|
  {
    if tail == [] {
      assert head + tail == head;
      NoNumbers(Frames(head));
    } else {
      var tail0, e := tail[..|tail| - 1], tail[|tail| - 1];
      hide Frames, Position, UnderEvent, NumberedOnly, Rebases, Due, Stretch;
      assert (head + tail)[..|head + tail| - 1] == head + tail0 && head + tail == head + tail0 + [e];
      Increasing(head, tail0);
      StretchGrows(head, head + tail0, e);
    }
  }

  lemma {:induction false} PrefixInStep(log: Chronicle, k: nat)
    requires InStep(log) && k <= |log|
    ensures InStep(log[..k])
  {
    if k < |log| {
      PrefixInStep(log[..|log| - 1], k);
      assert log[..|log| - 1][..k] == log[..k];
    } else {
      assert log[..k] == log;
    }
  }

  /** The announcement that follows a grant leaves the position just before the number granted. */
  lemma GrantTold(head: Chronicle, granted: Entry, told: Entry)
    requires InStep(head + [granted] + [told]) && granted.Accepted?
    ensures var log := head + [granted] + [told];
            Position(log) == JustBefore(granted.next) && UnderEvent(log) && Frames(log) == Frames(head)
  {
    Appended(head, granted);
    Appended(head + [granted], told);
    assert (head + [granted])[|head|] == granted;
  }

  /** After an acknowledgement granted from number `next` on, no number below it is admitted before the
      numbering is rebased. */
  lemma NothingBelow(head: Chronicle, granted: Entry, tail: Chronicle)
    requires InStep(head + [granted] + tail) && granted.Accepted?
    requires forall i :: 0 <= i < |tail| ==> !Rebases(tail[i])
    ensures var log := head + [granted] + tail;
            && Frames(head) <= Frames(log)
            && AscendingFrom(granted.next, NumberedOnly(Frames(log)[|Frames(head)|..]))
  {
    hide InStep, Frames, Position, UnderEvent, NumberedOnly, Rebases;
    if tail == [] {
      assert head + [granted] + tail == head + [granted];
      Appended(head, granted);
      NoNumbers(Frames(head));
    } else {
      var told := head + [granted] + [tail[0]];
      assert head + [granted] + tail == told + tail[1..];
      assert (told + tail[1..])[..|told|] == told;
      PrefixInStep(told + tail[1..], |told|);
      GrantTold(head, granted, tail[0]);
      Increasing(told, tail[1..]);
    }
  }

  // ----- What is counted from a grant on -----

  /** The number of the first frame a stretch admits under the gate; 0 if there is none. */
  function FirstNumber(tail: Chronicle): nat {
    if tail == [] then 0
    else
      var before, e := FirstNumber(tail[..|tail| - 1]), tail[|tail| - 1];
      if before == 0 && e.Numbered? then e.frame.number else before
  }

  /** Every number past `low` up to the position was admitted or reported missing, once. */
  ghost predicate AllCovered(log: Chronicle, low: nat) {
    forall n: nat :: low < n <= Position(log) ==> Covered(log, n) == 1
  }

  /** Where a stretch that nothing rebases stands after an acknowledgement granted from `low + 1` on: its base,
      its position, and the first number it has admitted. */
  ghost predicate Continues(log: Chronicle, low: nat, first: nat) {
    if low > 0 then Base(log) <= low && Position(log) > 0
    else if first == 0 then Base(log) == Position(log) == 0
    else Base(log) == first - 1 && first <= Position(log)
  }

  lemma ContinuesOn(log: Chronicle, low: nat, first: nat, e: Entry)
    requires InStep(log + [e]) && Continues(log, low, first) && !Rebases(e)
    ensures Continues(log + [e], low, if first == 0 && e.Numbered? then e.frame.number else first)
    ensures Position(log) > 0 ==> Base(log + [e]) == Base(log)
  {
    assert (log + [e])[..|log|] == log;
  }

  /** The announcement that follows the grant. */
  lemma GrantContinues(head: Chronicle, granted: Entry, told: Entry)
    requires InStep(head + [granted] + [told]) && granted.Accepted?
    ensures var log := head + [granted] + [told];
            && Continues(log, JustBefore(granted.next), 0) && told.Status?
            && (Rebases(granted) ==> Base(log) == JustBefore(granted.next))
  {
    var log := head + [granted];
    GrantTold(head, granted, told);
    assert log[..|head|] == head && (log + [told])[..|log|] == log;
    Appended(log, told);
    Appended(head, granted);
    LedgerAdds(head);
  }

  lemma {:induction false} GrantGoesOn(head: Chronicle, granted: Entry, tail: Chronicle)
    requires InStep(head + [granted] + tail) && granted.Accepted? && tail != []
    requires forall i :: 0 <= i < |tail| ==> !Rebases(tail[i])
    ensures var log := head + [granted] + tail;
            && Continues(log, JustBefore(granted.next), FirstNumber(tail))
            && (Rebases(granted) && granted.next >= 2 ==> Base(log) == JustBefore(granted.next))
    decreases |tail|
  {
    var tail0, e := tail[..|tail| - 1], tail[|tail| - 1];
    var log := head + [granted] + tail0;
    assert head + [granted] + tail == log + [e] && (log + [e])[..|log|] == log;
    hide Base, Position, Due, Rebases;
    if tail0 == [] {
      assert log == head + [granted] && tail == [e];
      GrantContinues(head, granted, e);
    } else {
      GrantGoesOn(head, granted, tail0);
      ContinuesOn(log, JustBefore(granted.next), FirstNumber(tail0), e);
    }
  }

  /** From an acknowledgement granted from number K on, as long as nothing rebases the numbering, every number
      from K on up to the position is admitted or reported missing exactly once, if and only if K is at least
      2 (then it left a position, and stays the base if it was one) or the first number admitted is 1: a
      client without a position takes the first number it sees, and reports nothing before it missing. */
  lemma CoveredFromGrantIff(head: Chronicle, granted: Entry, tail: Chronicle)
    requires InStep(head + [granted] + tail) && granted.Accepted? && tail != []
    requires forall i :: 0 <= i < |tail| ==> !Rebases(tail[i])
    ensures var log := head + [granted] + tail;
            && (AllCovered(log, JustBefore(granted.next)) <==> granted.next >= 2 || FirstNumber(tail) <= 1)
            && (granted.next >= 2 && Rebases(granted) ==> Base(log) == granted.next - 1)
  {
    var log, low := head + [granted] + tail, JustBefore(granted.next);
    hide InStep, Base, Position, Rebases, FirstNumber, Covered;
    GrantGoesOn(head, granted, tail);
    forall n: nat
      ensures Covered(log, n) == if Base(log) < n <= Position(log) then 1 else 0
    {
      ExactlyOnce(log, n);
    }
    if low == 0 && FirstNumber(tail) > 1 {
      assert Covered(log, 1) == 0;
    }
  }

  /** As long as nothing rebases the numbering, a position, and the base it counts from, are kept. */
  lemma {:induction false} BaseKept(head: Chronicle, tail: Chronicle)
    requires InStep(head + tail) && Position(head) > 0
    requires forall i :: 0 <= i < |tail| ==> !Rebases(tail[i])
    ensures Base(head + tail) == Base(head) && Position(head) <= Position(head + tail)
    decreases |tail|
  {
    if tail == [] {
      assert head + tail == head;
    } else {
      var tail0, e := tail[..|tail| - 1], tail[|tail| - 1];
      hide Base, Due;
      assert (head + tail)[..|head + tail| - 1] == head + tail0 && head + tail == head + tail0 + [e];
      BaseKept(head, tail0);
      LedgerAdds(head + tail0);
      ContinuesOn(head + tail0, Position(head + tail0), 0, e);
      Appended(head + tail0, e);
    }
  }

  lemma NoNumbers(frames: seq<Frame>)
    ensures NumberedOnly(frames[|frames|..]) == []
  {}

  // ----- Subsequences of the frames admitted -----

  lemma {:induction false} FramesGrow(log: Chronicle, more: Chronicle)
    ensures Frames(log) <= Frames(log + more)
    decreases |more|
  {
    if more == [] {
      assert log + more == log;
    } else {
      assert (log + more)[..|log + more| - 1] == log + more[..|more| - 1];
      FramesGrow(log, more[..|more| - 1]);
    }
  }

  lemma {:induction false} NumberedSubsequence(a: seq<Frame>, b: seq<Frame>)
    requires Subsequence(a, b)
    ensures Subsequence(NumberedOnly(a), NumberedOnly(b))
    decreases |b|
  {
    if a != [] {
      var a0, b0, x := a[..|a| - 1], b[..|b| - 1], b[|b| - 1];
      if a[|a| - 1] == x && Subsequence(a0, b0) {
        NumberedSubsequence(a0, b0);
        AppendBoth(NumberedOnly(a0), NumberedOnly(b0), x);
      } else {
        NumberedSubsequence(a, b0);
        AppendRight(NumberedOnly(a), NumberedOnly(b0), x);
      }
    }
  }

  lemma {:induction false} AscendingSubsequence(low: nat, a: seq<Frame>, b: seq<Frame>, high: nat)
    requires Subsequence(a, b) && Ascending(low, b, high)
    ensures Ascending(low, a, high)
    decreases |b|
  {
    if a != [] {
      var a0, b0, x := a[..|a| - 1], b[..|b| - 1], b[|b| - 1];
      if a[|a| - 1] == x && Subsequence(a0, b0) {
        AscendingSubsequence(low, a0, b0, x.number - 1);
        assert a == a0 + [x];
      } else {
        AscendingSubsequence(low, a, b0, high);
      }
    }
  }

  /** Every frame refused was a duplicate or a regression when it came. */
  lemma RefusedWereStale(log: Chronicle, i: nat)
    requires InStep(log) && i < |log| && log[i].Refused?
    ensures 0 < log[i].frame.number <= Position(log[..i])
  {
    PrefixInStep(log, i + 1);
    assert log[..i + 1][..i] == log[..i];
  }

  // ----- The order of status announcements -----

  /** `Fresh`: nothing or only suspensions so far. `Live`: started or resumed. `Halted`: suspended after
      having been live. `Over`: closed. */
  datatype Chapter = Fresh | Live | Halted | Over | Garbled

  /** The announcements a subscriber may see: PAUSED*, then STARTED or RESUMED, then GAP*, then any number
      of rounds PAUSED+ RESUMED GAP*, with only CLOSED after CLOSED. */
  function Tell(c: Chapter, kind: StatusKind): Chapter {
    match (c, kind)
    case (Garbled, _) => Garbled
    case (_, Ended) => Over
    case (Fresh, Suspended) => Fresh
    case (Fresh, Started) => Live
    case (Fresh, Resumed) => Live
    case (Live, Gap) => Live
    case (Live, Suspended) => Halted
    case (Halted, Suspended) => Halted
    case (Halted, Resumed) => Live
    case _ => Garbled
  }

  function Hear(c: Chapter, e: Entry): Chapter {
    if e.Status? then Tell(c, e.kind) else c
  }

  function Story(log: Chronicle): Chapter {
    if log == [] then Fresh else Hear(Story(log[..|log| - 1]), log[|log| - 1])
  }

  /** A well-told story never starts twice: after the stream has been live, STARTED does not recur. */
  lemma {:induction false} StartedOnce(log: Chronicle, i: nat, j: nat)
    requires Story(log) != Garbled && i < j < |log|
    requires log[i].Status? && (log[i].kind.Started? || log[i].kind.Resumed?)
    requires log[j].Status?
    ensures !log[j].kind.Started?
  {
    UngarbledPrefix(log, j + 1);
    var upTo := log[..j + 1];
    assert upTo[..j] == log[..j] && upTo[j] == log[j];
    OnceLive(log, i, j);
  }

  lemma {:induction false} UngarbledPrefix(log: Chronicle, k: nat)
    requires Story(log) != Garbled && k <= |log|
    ensures Story(log[..k]) != Garbled
  {
    if k < |log| {
      UngarbledPrefix(log[..|log| - 1], k);
      assert log[..|log| - 1][..k] == log[..k];
    } else {
      assert log[..k] == log;
    }
  }

  lemma {:induction false} OnceLive(log: Chronicle, i: nat, j: nat)
    requires Story(log) != Garbled && i < j <= |log|
    requires log[i].Status? && (log[i].kind.Started? || log[i].kind.Resumed?)
    ensures Story(log[..j]) in {Live, Halted, Over}
  {
    UngarbledPrefix(log, j);
    var upTo := log[..j];
    assert upTo[..j - 1] == log[..j - 1] && upTo[j - 1] == log[j - 1];
    if i < j - 1 {
      OnceLive(log, i, j - 1);
    }
  }

  // ----- The handlers' additions to a chronicle -----

  /** A stream that is live has told what its acknowledgement skipped. */
  ghost predicate Told(log: Chronicle) {
    log != [] ==> !log[|log| - 1].Accepted?
  }

  /** What an entry leaves alone: the frames, the refusals and the kind of stream. */
  ghost predicate SameFrames(log: Chronicle, log': Chronicle) {
    Frames(log') == Frames(log) && Refusals(log') == Refusals(log) && UnderEvent(log') == UnderEvent(log)
  }

  /** The next number, or the first one seen without a position. */
  lemma Advanced(log: Chronicle, f: Frame)
    requires InStep(log) && Told(log) && UnderEvent(log) && f.number > 0
    requires Position(log) == 0 || f.number == Position(log) + 1
    ensures var log' := log + [Numbered(f)];
            && InStep(log') && Told(log') && Position(log') == f.number && Story(log') == Story(log)
            && Frames(log') == Frames(log) + [f] && Refusals(log') == Refusals(log) && UnderEvent(log')
  {
    Appended(log, Numbered(f));
  }

  /** A number further on, with its gap announced first. */
  lemma Jumped(log: Chronicle, f: Frame)
    requires InStep(log) && Told(log) && UnderEvent(log) && Story(log).Live? && 0 < Position(log) && Position(log) + 1 < f.number
    ensures var log' := log + [Status(Gap, f.number - Position(log) - 1)] + [Numbered(f)];
            && InStep(log') && Told(log') && Position(log') == f.number && Story(log').Live?
            && Frames(log') == Frames(log) + [f] && Refusals(log') == Refusals(log) && UnderEvent(log')
  {
    hide Frames, Position, InStep, UnderEvent, Story, Refusals, WithoutRefusals;
    Appended(log, Status(Gap, f.number - Position(log) - 1));
    Advanced(log + [Status(Gap, f.number - Position(log) - 1)], f);
  }

  /** A frame that is not numbered, or not of an EVENT stream. */
  lemma LetThrough(log: Chronicle, f: Frame)
    requires InStep(log) && Told(log) && (UnderEvent(log) ==> f.number == 0)
    ensures var log' := log + [Plain(f)];
            && InStep(log') && Told(log') && Position(log') == Position(log) && Story(log') == Story(log)
            && Frames(log') == Frames(log) + [f] && Refusals(log') == Refusals(log) && UnderEvent(log') == UnderEvent(log)
  {
    Appended(log, Plain(f));
  }

  /** A duplicate or a regression. */
  lemma TurnedAway(log: Chronicle, f: Frame)
    requires InStep(log) && Told(log) && UnderEvent(log) && 0 < f.number <= Position(log)
    ensures var log' := log + [Refused(f)];
            && InStep(log') && Told(log') && Position(log') == Position(log) && Story(log') == Story(log)
            && Frames(log') == Frames(log) && Refusals(log') == Refusals(log) + 1 && UnderEvent(log')
  {
    Appended(log, Refused(f));
  }

  /** An announcement that reports no gap. */
  lemma Reported(log: Chronicle, kind: StatusKind)
    requires InStep(log) && Told(log)
    ensures var log' := log + [Status(kind, 0)];
            && InStep(log') && Told(log') && Position(log') == Position(log) && Story(log') == Tell(Story(log), kind)
            && SameFrames(log, log')
  {
    Appended(log, Status(kind, 0));
  }

  /** The numbering starts over. */
  lemma StartedOver(log: Chronicle)
    requires InStep(log) && Told(log)
    ensures var log' := log + [Restarted];
            && InStep(log') && Told(log') && Position(log') == 0 && Story(log') == Story(log) && SameFrames(log, log')
  {
    Appended(log, Restarted);
  }

  /** An accepted acknowledgement and its announcement. */
  lemma Acknowledged(log: Chronicle, expected: nat, next: nat, kind: StatusKind)
    requires InStep(log) && Told(log) && (expected > 0 ==> 0 < Position(log) == expected - 1)
    requires kind.Resumed? || (kind.Started? && Story(log).Fresh? && expected == 0)
    requires Story(log).Fresh? || Story(log).Halted?
    ensures var log' := log + [Accepted(expected, next)] + [Status(kind, Skipped(Accepted(expected, next)))];
            && InStep(log') && Told(log') && Position(log') == JustBefore(next) && Story(log').Live?
            && Frames(log') == Frames(log) && Refusals(log') == Refusals(log) && UnderEvent(log')
  {
    hide Frames, Position, InStep, UnderEvent, Story, Refusals, WithoutRefusals;
    Appended(log, Accepted(expected, next));
    Appended(log + [Accepted(expected, next)], Status(kind, Skipped(Accepted(expected, next))));
  }

  lemma AcknowledgedTelemetry(log: Chronicle, kind: StatusKind)
    requires InStep(log) && Told(log)
    requires kind.Resumed? || (kind.Started? && Story(log).Fresh?)
    requires Story(log).Fresh? || Story(log).Halted?
    ensures var log' := log + [AcceptedTelemetry] + [Status(kind, 0)];
            && InStep(log') && Told(log') && Position(log') == 0 && Story(log').Live?
            && Frames(log') == Frames(log) && Refusals(log') == Refusals(log) && !UnderEvent(log')
  {
    hide Frames, Position, InStep, UnderEvent, Story, Refusals, WithoutRefusals;
    Appended(log, AcceptedTelemetry);
    Appended(log + [AcceptedTelemetry], Status(kind, 0));
  }
}
