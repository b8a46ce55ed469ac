/** What becomes of every steer, over every run the code lets happen. */
module SteerTheorems {
  import opened Common
  import opened SessionState
  import opened TurnMachine
  import opened TurnInvariant
  import opened TurnSteers
  import opened SteerEnds
  import opened TurnTheorems
  import opened AnyRun

  // ---- one recorded outcome each ----

  ghost predicate OnRecord(i: Inner, t: Turn) {
    t in i.turns || i.current == Some(t)
  }

  /** No steer has two outcomes, on one turn or on two. */
  lemma OneOutcomeEach(s: Session, t: Turn, j: nat, u: Turn, k: nat)
    requires Reachable(s) && OnRecord(s.inner, t) && OnRecord(s.inner, u)
    requires j < |t.steers| && k < |u.steers| && t.steers[j].id == u.steers[k].id
    ensures t.n == u.n && j == k && t.steers[j].id in s.targets && s.targets[t.steers[j].id] == t.n
  {
    ReachableBase(s);
    assert EndsIn(t, s.targets) && EndsIn(u, s.targets);
    SameNumberSameTurn(s.inner, t, u);
  }

  /** A steer listed as pending has no outcome on any turn: its view lists it once. */
  lemma PendingHasNoOutcome(s: Session, x: Steer, t: Turn)
    requires Reachable(s) && x in s.inner.steerPending && OnRecord(s.inner, t)
    ensures !HasEnd(t, x.id)
  {
    ReachableBase(s);
  }

  lemma SameNumberSameTurn(i: Inner, t: Turn, u: Turn)
    requires Numbered(i) && OnRecord(i, t) && OnRecord(i, u) && t.n == u.n
    ensures t == u
  {
  }

  /** The outcome a resolution records: an error is a rejection, an answer to the
      steer that owns the open turn is that turn, any other answer a fold. */
  function OutcomeOf(i: Inner, id: nat, answer: PromptOutcome): SteerOutcome {
    match answer
    case Errored(error) => Rejected(error)
    case LimitHit(_, error) => Rejected(error)
    case Stopped(_) => if i.steerOwner == Some(id) && i.current.Some? then RanAs(i.current.value.n) else Folded
  }

  lemma ResolveRecords(i: Inner, id: nat, target: nat, answer: PromptOutcome, superseded: bool, now: int)
    returns (left: Inner)
    ensures left == i.(steerPending := WithoutSteer(i.steerPending, id), steerFolded := WithoutId(i.steerFolded, id),
                       steerOwner := left.steerOwner)
    ensures var j := RecordSteerEnd(left, id, target, OutcomeOf(i, id, answer));
      var r := ResolveSteer(i, id, target, answer, superseded, now).inner;
      r.turns == j.turns && r.current == j.current && r.turnOffset == j.turnOffset && r.steerPending == j.steerPending
  {
    left := i.(steerPending := WithoutSteer(i.steerPending, id), steerFolded := WithoutId(i.steerFolded, id));
    if i.steerOwner == Some(id) {
      left := left.(steerOwner := if answer.IsErr() && OldestSteer(left).Some? then OldestSteer(left) else None);
    }
  }

  /** What a resolution does to the lists: the outcome joins the target turn's, unless
      the steer already has one there; no other turn changes. */
  lemma ResolutionLands(s: Session, id: nat, answer: PromptOutcome, now: int)
    requires Reachable(s) && id in s.waiters && TurnOf(s.inner, s.waiters[id]).Some?
    ensures var t := StepSteerResolved(s, id, answer, now);
      var was := TurnOf(s.inner, s.waiters[id]).value;
      && TurnOf(t.inner, s.waiters[id]).Some?
      && Landed(was, TurnOf(t.inner, s.waiters[id]).value, SteerEnd(id, OutcomeOf(s.inner, id, answer)))
      && (forall n: nat :: n != s.waiters[id] ==> TurnOf(t.inner, n) == TurnOf(s.inner, n))
      && id !in Outstanding(t.inner)
  {
    ReachableBase(s);
    var target := s.waiters[id];
    var end := OutcomeOf(s.inner, id, answer);
    var left := ResolveRecords(s.inner, id, target, answer, s.superseded, now);
    forall n: nat { LandsThere(s.inner, left, StepSteerResolved(s, id, answer, now).inner, id, target, end, n); }
    LandsThere(s.inner, left, StepSteerResolved(s, id, answer, now).inner, id, target, end, target);
    ResolveKeepsSteerLine(s, id, answer, now);
  }

  lemma SameTurns(i: Inner, j: Inner, n: nat)
    requires i.turns == j.turns && i.current == j.current
    ensures TurnOf(i, n) == TurnOf(j, n)
  {
  }

  lemma LandsOn(i: Inner, id: nat, target: nat, end: SteerOutcome, n: nat)
    ensures var j := RecordSteerEnd(i, id, target, end);
      if n == target && TurnOf(i, n).Some?
      then TurnOf(j, n).Some? && Landed(TurnOf(i, n).value, TurnOf(j, n).value, SteerEnd(id, end))
      else TurnOf(j, n) == TurnOf(i, n)
  {
    RecordFrame(i, id, target, end);
    SameNumbersSameFind(i.turns, RecordSteerEnd(i, id, target, end).turns, n);
  }

  lemma LandsThere(i: Inner, left: Inner, j: Inner, id: nat, target: nat, end: SteerOutcome, n: nat)
    requires left.turns == i.turns && left.current == i.current
    requires var recorded := RecordSteerEnd(left, id, target, end);
      j.turns == recorded.turns && j.current == recorded.current
    ensures if n == target && TurnOf(i, n).Some?
            then TurnOf(j, n).Some? && Landed(TurnOf(i, n).value, TurnOf(j, n).value, SteerEnd(id, end))
            else TurnOf(j, n) == TurnOf(i, n)
  {
    LandsOn(left, id, target, end, n);
    SameTurns(left, i, n);
    SameTurns(RecordSteerEnd(left, id, target, end), j, n);
  }

  // ---- folds at a turn's end ----

  /** The outcomes a turn's end gives the pending steers aimed at turn `n`. */
  function FoldsOn(steers: seq<Steer>, n: nat): seq<SteerEnd> {
    if steers == [] then []
    else (if steers[0].target == n then [SteerEnd(steers[0].id, Folded)] else []) + FoldsOn(steers[1..], n)
  }

  ghost predicate NoEndsYet(i: Inner, steers: seq<Steer>) {
    && (forall j, k :: 0 <= j < k < |steers| ==> steers[j].id != steers[k].id)
    && (forall k, n: nat :: 0 <= k < |steers| && TurnOf(i, n).Some? ==> !HasEnd(TurnOf(i, n).value, steers[k].id))
  }

  lemma {:induction false} FoldsLandOn(i: Inner, steers: seq<Steer>, n: nat)
    requires NoEndsYet(i, steers)
    ensures var j := RecordFolds(i, steers);
      if TurnOf(i, n).None? then TurnOf(j, n).None?
      else TurnOf(j, n).Some?
           && TurnOf(j, n).value == TurnOf(i, n).value.(steers := TurnOf(i, n).value.steers + FoldsOn(steers, n))
    decreases |steers|
  {
    if steers != [] {
      var x := steers[0];
      var first := RecordSteerEnd(i, x.id, x.target, Folded);
      LandsOn(i, x.id, x.target, Folded, n);
      forall k, m: nat | 0 <= k < |steers[1..]| && TurnOf(first, m).Some?
        ensures !HasEnd(TurnOf(first, m).value, steers[1..][k].id)
      {
        LandsOn(i, x.id, x.target, Folded, m);
        LandedBesides(TurnOf(i, m), TurnOf(first, m).value, SteerEnd(x.id, Folded), steers[k + 1].id);
      }
      FoldsLandOn(first, steers[1..], n);
    }
  }

  lemma LandedBesides(was: Option<Turn>, will: Turn, end: SteerEnd, id: nat)
    requires was.Some? && !HasEnd(was.value, id) && end.id != id
    requires was == Some(will) || Landed(was.value, will, end)
    ensures !HasEnd(will, id)
  {
  }

  /** A turn's end gives each pending steer of a folding agent its fold, on the turn it
      was aimed at, in order, and adds nothing else to any list. */
  lemma EndFolds(s: Session, now: int, n: nat)
    requires Reachable(s) && s.wire.Finishing? && TurnOf(s.inner, n).Some?
    ensures TurnOf(StepSettle(s, now).inner, n).Some?
    ensures TurnOf(StepSettle(s, now).inner, n).value.steers ==
      TurnOf(s.inner, n).value.steers + if s.sem.Answered? then [] else FoldsOn(s.inner.steerPending, n)
  {
    ReachableBase(s);
    var pushed, folds := EndIsFolds(s.inner, s.sem, s.wire.outcome, s.superseded, now);
    PushKeepsEnds(s.inner, pushed, s.targets);
    PushedNumbers(s.inner, pushed);
    PushedList(s.inner, pushed, n);
    PendingHaveNoEnds(s, pushed);
    FoldsLandOn(pushed, folds, n);
    SameTurns(RecordFolds(pushed, folds), StepSettle(s, now).inner, n);
  }

  lemma PendingHaveNoEnds(s: Session, pushed: Inner)
    requires SteerLine(s) && Unanswered(pushed) && pushed.steerPending == s.inner.steerPending
    ensures NoEndsYet(pushed, s.inner.steerPending)
  {
    var i := s.inner;
    forall j, k | 0 <= j < k < |i.steerPending| ensures i.steerPending[j].id != i.steerPending[k].id {
      assert Outstanding(i)[|i.steerFolded| + j] < Outstanding(i)[|i.steerFolded| + k];
    }
    forall k, n: nat | 0 <= k < |i.steerPending| && TurnOf(pushed, n).Some?
      ensures !HasEnd(TurnOf(pushed, n).value, i.steerPending[k].id)
    {
      assert i.steerPending[k] in pushed.steerPending;
    }
  }

  lemma PushedList(i: Inner, pushed: Inner, n: nat)
    requires Numbered(i) && TurnOf(i, n).Some?
    requires pushed == i.(turns := pushed.turns, current := None, recording := pushed.recording)
    requires i.current.None? ==> pushed.turns == i.turns
    requires i.current.Some? ==>
      |pushed.turns| == |i.turns| + 1 && pushed.turns[..|i.turns|] == i.turns
      && pushed.turns[|i.turns|].n == i.current.value.n && pushed.turns[|i.turns|].steers == i.current.value.steers
    ensures TurnOf(pushed, n).Some? && TurnOf(pushed, n).value.steers == TurnOf(i, n).value.steers
  {
    PushedNumbers(i, pushed);
    if i.current.Some? && i.current.value.n == n {
      FoundAt(pushed, |i.turns|);
    } else {
      var k := FindTurn(i.turns, n).value;
      assert i.current.Some? ==> pushed.turns[..|i.turns|][k] == pushed.turns[k];
      assert pushed.turns[k] == i.turns[k];
      FoundAt(pushed, k);
    }
  }

  // ---- a pending steer leaves with its outcome ----

  /** But for the session's end, a steer stops pending only in the step that puts
      its outcome on its target turn, which had none before. */
  lemma PendingLeavesAnswered(s: Session, e: Event, x: Steer)
    requires Reachable(s) && Enabled(s, e) && !EndsSession(e)
    requires x in s.inner.steerPending && x !in Step(s, e).inner.steerPending
    requires TurnOf(s.inner, x.target).Some?
    ensures !HasEnd(TurnOf(s.inner, x.target).value, x.id) && AnsweredOn(Step(s, e).inner, x)
    ensures (e.Steering? && e.steering.SteerResolved? && e.steering.id == x.id)
      || (e.End? && e.end.Settle? && s.sem.FoldedSilently?)
  {
    ReachableBase(s);
    match e
    case Steering(x0) => ResolveAnswers(s, x0, x);
    case End(e0) => EndAnswers(s, e0, x);
    case _ => OthersKeepPending(s, e, x);
  }

  /** The steer's target turn is on record with its outcome. */
  ghost predicate AnsweredOn(i: Inner, x: Steer) {
    TurnOf(i, x.target).Some? && HasEnd(TurnOf(i, x.target).value, x.id)
  }

  lemma OthersKeepPending(s: Session, e: Event, x: Steer)
    requires Enabled(s, e) && !MovesSteers(e) && !EndsSession(e) && x in s.inner.steerPending
    ensures x in Step(s, e).inner.steerPending
  {
    OtherKeepsSteers(s, e);
  }

  lemma EndAnswers(s: Session, e: EndEvent, x: Steer)
    requires Base(s) && EndEnabled(s, e) && x in s.inner.steerPending && x !in EndStep(s, e).inner.steerPending
    requires TurnOf(s.inner, x.target).Some?
    ensures e.Settle? && s.sem.FoldedSilently? && AnsweredOn(EndStep(s, e).inner, x)
  {
    if e.Settle? { SettleAnswers(s, e.now, x); } else { EndKeepsSteers(s, e); }
  }

  lemma ResolveAnswers(s: Session, e: SteerEvent, x: Steer)
    requires Reachable(s) && Base(s) && SteerEnabled(s, e)
    requires x in s.inner.steerPending && x !in SteerStep(s, e).inner.steerPending
    requires TurnOf(s.inner, x.target).Some?
    ensures e.SteerResolved? && e.id == x.id
    ensures AnsweredOn(SteerStep(s, e).inner, x)
  {
    if e.SteerResolved? {
      ResolveSteers(s.inner, e.id, s.waiters[e.id], e.answer, s.superseded, e.now);
      assert e.id == x.id && s.waiters[e.id] == x.target;
      ResolutionLands(s, e.id, e.answer, e.now);
      LandedIsEnd(TurnOf(s.inner, x.target).value, TurnOf(SteerStep(s, e).inner, x.target).value,
                  SteerEnd(x.id, OutcomeOf(s.inner, e.id, e.answer)));
    }
  }

  lemma LandedIsEnd(was: Turn, will: Turn, end: SteerEnd)
    requires Landed(was, will, end)
    ensures HasEnd(will, end.id)
  {
    if !HasEnd(was, end.id) { assert will.steers[|was.steers|] == end; }
  }

  lemma SettleAnswers(s: Session, now: int, x: Steer)
    requires Base(s) && s.wire.Finishing? && x in s.inner.steerPending && x !in StepSettle(s, now).inner.steerPending
    requires TurnOf(s.inner, x.target).Some?
    ensures s.sem.FoldedSilently?
    ensures AnsweredOn(StepSettle(s, now).inner, x)
  {
    EndSteers(s.inner, s.sem, s.wire.outcome, s.superseded, now);
    var pushed, folds := EndIsFolds(s.inner, s.sem, s.wire.outcome, s.superseded, now);
    PushedNumbers(s.inner, pushed);
    PushedStaysOnRecord(s.inner, pushed, x.target);
    var k :| 0 <= k < |folds| && folds[k] == x;
    FoldsAreRecorded(pushed, folds, s.targets, k);
    SameTurns(RecordFolds(pushed, folds), StepSettle(s, now).inner, x.target);
  }

  lemma PushedNumbers(i: Inner, pushed: Inner)
    requires Numbered(i)
    requires pushed == i.(turns := pushed.turns, current := None, recording := pushed.recording)
    requires i.current.None? ==> pushed.turns == i.turns
    requires i.current.Some? ==>
      |pushed.turns| == |i.turns| + 1 && pushed.turns[..|i.turns|] == i.turns
      && pushed.turns[|i.turns|].n == i.current.value.n
    ensures Numbered(pushed)
  {
    forall k | 0 <= k < |i.turns| ensures pushed.turns[k] == i.turns[k] {
      assert pushed.turns[..|i.turns|][k] == pushed.turns[k];
    }
  }

  lemma PushedStaysOnRecord(i: Inner, pushed: Inner, n: nat)
    requires pushed == i.(turns := pushed.turns, current := None, recording := pushed.recording)
    requires i.current.None? ==> pushed.turns == i.turns
    requires i.current.Some? ==>
      |pushed.turns| == |i.turns| + 1 && pushed.turns[..|i.turns|] == i.turns
      && pushed.turns[|i.turns|].n == i.current.value.n
    ensures TurnOf(i, n).Some? ==> TurnOf(pushed, n).Some?
  {
    if !(i.current.Some? && i.current.value.n == n) && TurnOf(i, n).Some? {
      var k := FindTurn(i.turns, n).value;
      assert pushed.turns[..|i.turns|][k] == pushed.turns[k] || i.current.None?;
      assert pushed.turns[k].n == n;
    }
  }

  // ---- settled turns ----

  /** One step leaves every settled turn settled in place, its outcomes a prefix. */
  lemma StepGrowsTurns(s: Session, e: Event)
    requires Base(s) && Enabled(s, e)
    ensures TurnsGrew(s.inner, Step(s, e).inner)
  {
    if MovesSteers(e) {
      match e
      case Steering(x) => SteerGrowsTurns(s, x);
      case End(x) => SettleGrowsTurns(s, x.now);
    } else {
      OtherStands(s, e);
    }
  }

  lemma SteerGrowsTurns(s: Session, e: SteerEvent)
    requires Base(s) && SteerEnabled(s, e)
    ensures TurnsGrew(s.inner, SteerStep(s, e).inner)
  {
    if e.SteerResolved? {
      var left, end := ResolveIsRecord(s.inner, e.id, s.waiters[e.id], e.answer, s.superseded, e.now);
      RecordEffect(left, e.id, s.waiters[e.id], end, s.targets);
    }
  }

  lemma SettleGrowsTurns(s: Session, now: int)
    requires Base(s) && s.wire.Finishing?
    ensures TurnsGrew(s.inner, StepSettle(s, now).inner)
  {
    var pushed, folds := EndIsFolds(s.inner, s.sem, s.wire.outcome, s.superseded, now);
    RecordFoldsEffect(pushed, folds, s.targets);
    EndFrame(s.inner, s.sem, s.wire.outcome, s.superseded, now);
    var t := StepSettle(s, now).inner;
    forall k | 0 <= k < |s.inner.turns| ensures Grew(s.inner.turns[k], t.turns[k]) {
      assert pushed.turns[..|s.inner.turns|][k] == pushed.turns[k];
    }
  }

  /** Over a whole run, a settled turn's recorded outcomes stand. */
  lemma {:induction false} SettledOutcomesStand(s: Session, es: seq<Event>)
    requires Base(s) && Possible(s, es)
    ensures TurnsGrew(s.inner, Run(s, es).inner)
    decreases |es|
  {
    if es != [] {
      var t := Step(s, es[0]);
      StepKeepsBase(s, es[0]);
      StepGrowsTurns(s, es[0]);
      SettledOutcomesStand(t, es[1..]);
      var u := Run(s, es);
      forall k | 0 <= k < |s.inner.turns| ensures Grew(s.inner.turns[k], u.inner.turns[k]) {
        GrewTwice(s.inner.turns[k], t.inner.turns[k], u.inner.turns[k]);
      }
    }
  }

  ghost predicate NonePending(i: Inner, n: nat) {
    forall x :: x in i.steerPending ==> x.target != n
  }

  /** A steer is never aimed at a turn already settled. */
  lemma StepAimsPast(s: Session, e: Event, n: nat)
    requires Base(s) && Enabled(s, e) && n <= SettledCount(s.inner) && NonePending(s.inner, n)
    ensures NonePending(Step(s, e).inner, n)
  {
    if MovesSteers(e) {
      match e
      case Steering(x) => SteerAimsPast(s, x, n);
      case End(x) => EndSteers(s.inner, s.sem, s.wire.outcome, s.superseded, x.now);
    } else {
      OtherKeepsSteers(s, e);
    }
  }

  lemma SteerAimsPast(s: Session, e: SteerEvent, n: nat)
    requires Numbered(s.inner) && SteerEnabled(s, e) && n <= SettledCount(s.inner) && NonePending(s.inner, n)
    ensures NonePending(SteerStep(s, e).inner, n)
  {
    if e.SteerResolved? {
      ResolveSteers(s.inner, e.id, s.waiters[e.id], e.answer, s.superseded, e.now);
    }
  }

  /** Once a settled turn has no steer pending against it, it never has one again. */
  lemma {:induction false} SettledGainsNoSteer(s: Session, es: seq<Event>, n: nat)
    requires Base(s) && Possible(s, es) && n <= SettledCount(s.inner) && NonePending(s.inner, n)
    ensures NonePending(Run(s, es).inner, n)
    decreases |es|
  {
    if es != [] {
      StepKeepsBase(s, es[0]);
      StepAimsPast(s, es[0], n);
      StepGrowsTurns(s, es[0]);
      SettledGainsNoSteer(Step(s, es[0]), es[1..], n);
    }
  }

  // ---- order and ownership ----

  /** The outstanding steers stand in sending order, the oldest leads, and the owner
      of the open turn is one of them. */
  lemma OutstandingInOrder(s: Session)
    requires Reachable(s)
    ensures Increasing(Outstanding(s.inner)) && forall id :: id in Outstanding(s.inner) ==> id < s.nextSteer
    ensures s.inner.steerOwner.Some? ==> s.inner.steerOwner.value in Outstanding(s.inner)
    ensures OldestSteer(s.inner).Some? <==> Outstanding(s.inner) != []
    ensures OldestSteer(s.inner).Some? ==> forall id :: id in Outstanding(s.inner) ==> OldestSteer(s.inner).value <= id
  {
    ReachableBase(s);
    OldestIsLeast(s);
  }

  /** An answering agent owes nothing in a reserved slot, so its traffic opens no
      turn there, whatever is assumed of it. */
  lemma AnsweredGapIsQuiet(s: Session, now: int)
    requires Scoped(s) && s.sem.Answered? && ChainedGate(s.inner)
    ensures OldestSteer(s.inner).None? && Materialize(s.inner, now) == s.inner
  {
    ScopedInv(s);
  }
}
