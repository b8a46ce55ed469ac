/** Steer accounting: a steer's one outcome, on the turn it targeted. */
module SteerEnds {
  import opened Common
  import opened SessionState
  import opened TurnMachine
  import opened TurnInvariant
  import opened TurnSteers

  /** The turn on record under number `n`: the open one, else a settled one. */
  function TurnOf(i: Inner, n: nat): Option<Turn> {
    if i.current.Some? && i.current.value.n == n then i.current
    else
      var found := FindTurn(i.turns, n);
      if found.None? then None else Some(i.turns[found.value])
  }

  /** A turn's list names steers that targeted it, each once. */
  ghost predicate EndsIn(t: Turn, targets: map<nat, nat>) {
    && (forall k :: 0 <= k < |t.steers| ==> t.steers[k].id in targets && targets[t.steers[k].id] == t.n)
    && (forall j, k :: 0 <= j < k < |t.steers| ==> t.steers[j].id != t.steers[k].id)
  }

  ghost predicate EndsOk(i: Inner, targets: map<nat, nat>) {
    && (forall k :: 0 <= k < |i.turns| ==> EndsIn(i.turns[k], targets))
    && (i.current.Some? ==> EndsIn(i.current.value, targets))
  }

  /** A pending steer has no outcome yet. */
  ghost predicate Unanswered(i: Inner) {
    forall x :: x in i.steerPending ==>
      && (forall k :: 0 <= k < |i.turns| ==> !HasEnd(i.turns[k], x.id))
      && (i.current.Some? ==> !HasEnd(i.current.value, x.id))
  }

  ghost predicate Ledger(s: Session) {
    EndsOk(s.inner, s.targets) && Unanswered(s.inner)
  }

  /** `t` is `u`'s turn, its steer list a prefix of `u`'s. */
  ghost predicate Grew(t: Turn, u: Turn) {
    t.n == u.n && |t.steers| <= |u.steers| && u.steers[..|t.steers|] == t.steers
  }

  /** Turns settle in place, under their numbers, and lists only grow. */
  ghost predicate TurnsGrew(i: Inner, j: Inner) {
    && i.turnOffset == j.turnOffset && |i.turns| <= |j.turns|
    && (forall k :: 0 <= k < |i.turns| ==> Grew(i.turns[k], j.turns[k]))
  }

  // ---- recording one end ----

  lemma NoteEndEffect(t: Turn, id: nat, outcome: SteerOutcome)
    ensures var u := NoteEnd(t, id, outcome);
      && Grew(t, u) && HasEnd(u, id)
      && (forall x :: x != id && HasEnd(u, x) ==> HasEnd(t, x))
      && (forall targets: map<nat, nat> ::
            EndsIn(t, targets) && id in targets && targets[id] == t.n ==> EndsIn(u, targets))
  {
    var u := NoteEnd(t, id, outcome);
    if !HasEnd(t, id) {
      assert u.steers[|t.steers|].id == id;
      forall x | x != id && HasEnd(u, x) ensures HasEnd(t, x) {
        var k :| 0 <= k < |u.steers| && u.steers[k].id == x;
        assert t.steers[k].id == x;
      }
    }
  }

  /** What one recorded outcome does to the ledger. */
  lemma RecordEffect(i: Inner, id: nat, target: nat, outcome: SteerOutcome, targets: map<nat, nat>)
    requires id in targets && targets[id] == target
    ensures var j := RecordSteerEnd(i, id, target, outcome);
      && TurnsGrew(i, j) && |j.turns| == |i.turns|
      && (i.current.Some? <==> j.current.Some?) && (i.current.Some? ==> Grew(i.current.value, j.current.value))
      && (EndsOk(i, targets) ==> EndsOk(j, targets))
      && (TurnOf(i, target).Some? ==> TurnOf(j, target).Some? && HasEnd(TurnOf(j, target).value, id))
      && (Unanswered(i) && (forall x :: x in i.steerPending ==> x.id != id) ==> Unanswered(j))
  {
    var j := RecordSteerEnd(i, id, target, outcome);
    RecordFrame(i, id, target, outcome);
    if i.current.Some? && i.current.value.n == target {
      NoteEndEffect(i.current.value, id, outcome);
    } else {
      var found := FindTurn(i.turns, target);
      if found.Some? {
        NoteEndEffect(i.turns[found.value], id, outcome);
        SameNumbersSameFind(i.turns, j.turns, target);
      }
    }
  }

  lemma {:induction false} SameNumbersSameFind(a: seq<Turn>, b: seq<Turn>, n: nat)
    requires |a| == |b| && forall k :: 0 <= k < |a| ==> a[k].n == b[k].n
    ensures FindTurn(a, n) == FindTurn(b, n)
  {
    if a != [] {
      SameNumbersSameFind(a[1..], b[1..], n);
    }
  }

  /** A settled turn is found under its number. */
  lemma FoundAt(i: Inner, k: nat)
    requires Ascending(i) && k < |i.turns|
    ensures FindTurn(i.turns, i.turns[k].n) == Some(k)
  {
    var found := FindTurn(i.turns, i.turns[k].n).value;
    assert i.turns[found].n == i.turns[k].n;
  }

  /** Lists that grew keep every turn on record, with its list's prefix. */
  lemma GrewStaysOnRecord(i: Inner, j: Inner, n: nat)
    requires Numbered(i) && Numbered(j) && TurnsGrew(i, j)
    requires i.current.Some? ==>
      || (j.current.Some? && |i.turns| == |j.turns| && Grew(i.current.value, j.current.value))
      || (j.current.None? && |j.turns| == |i.turns| + 1 && Grew(i.current.value, j.turns[|i.turns|]))
    ensures TurnOf(i, n).Some? ==> TurnOf(j, n).Some? && Grew(TurnOf(i, n).value, TurnOf(j, n).value)
  {
    if i.current.Some? && i.current.value.n == n {
      if j.current.None? { FoundAt(j, |i.turns|); }
    } else {
      var found := FindTurn(i.turns, n);
      if found.Some? {
        assert Grew(i.turns[found.value], j.turns[found.value]);
        FoundAt(j, found.value);
      }
    }
  }

  lemma {:induction false} RecordFoldsEffect(i: Inner, steers: seq<Steer>, targets: map<nat, nat>)
    requires forall k :: 0 <= k < |steers| ==> steers[k].id in targets && targets[steers[k].id] == steers[k].target
    ensures var j := RecordFolds(i, steers);
      && TurnsGrew(i, j) && |j.turns| == |i.turns|
      && (i.current.Some? <==> j.current.Some?) && (i.current.Some? ==> Grew(i.current.value, j.current.value))
      && (EndsOk(i, targets) ==> EndsOk(j, targets))
    decreases |steers|
  {
    if steers != [] {
      var first := RecordSteerEnd(i, steers[0].id, steers[0].target, Folded);
      RecordEffect(i, steers[0].id, steers[0].target, Folded, targets);
      RecordFoldsEffect(first, steers[1..], targets);
      var j := RecordFolds(i, steers);
      forall k | 0 <= k < |i.turns| ensures Grew(i.turns[k], j.turns[k]) {
        GrewTwice(i.turns[k], first.turns[k], j.turns[k]);
      }
      if i.current.Some? {
        GrewTwice(i.current.value, first.current.value, j.current.value);
      }
    }
  }

  lemma GrewTwice(a: Turn, b: Turn, c: Turn)
    requires Grew(a, b) && Grew(b, c)
    ensures Grew(a, c)
    ensures forall id :: HasEnd(a, id) ==> HasEnd(c, id)
  {
    assert c.steers[..|a.steers|] == b.steers[..|a.steers|];
    forall id | HasEnd(a, id) ensures HasEnd(c, id) {
      var k :| 0 <= k < |a.steers| && a.steers[k].id == id;
      assert c.steers[k] == a.steers[k];
    }
  }

  lemma RecordStays(i: Inner, id: nat, target: nat, outcome: SteerOutcome, targets: map<nat, nat>, n: nat)
    requires id in targets && targets[id] == target && Numbered(i)
    ensures var j := RecordSteerEnd(i, id, target, outcome);
      && Numbered(j)
      && (TurnOf(i, n).Some? ==> TurnOf(j, n).Some? && Grew(TurnOf(i, n).value, TurnOf(j, n).value))
  {
    RecordEffect(i, id, target, outcome, targets);
    RecordFrame(i, id, target, outcome);
    GrewStaysOnRecord(i, RecordSteerEnd(i, id, target, outcome), n);
  }

  lemma RecordFoldsStay(i: Inner, steers: seq<Steer>, targets: map<nat, nat>, n: nat)
    requires forall m :: 0 <= m < |steers| ==> steers[m].id in targets && targets[steers[m].id] == steers[m].target
    requires Numbered(i)
    ensures var j := RecordFolds(i, steers);
      && Numbered(j)
      && (TurnOf(i, n).Some? ==> TurnOf(j, n).Some? && Grew(TurnOf(i, n).value, TurnOf(j, n).value))
  {
    RecordFoldsEffect(i, steers, targets);
    RecordFoldsFrame(i, steers);
    GrewStaysOnRecord(i, RecordFolds(i, steers), n);
  }

  /** Every fold is on its target's record. */
  lemma {:induction false} FoldsAreRecorded(i: Inner, steers: seq<Steer>, targets: map<nat, nat>, k: nat)
    requires forall m :: 0 <= m < |steers| ==> steers[m].id in targets && targets[steers[m].id] == steers[m].target
    requires Numbered(i) && k < |steers| && TurnOf(i, steers[k].target).Some?
    ensures var j := RecordFolds(i, steers);
      TurnOf(j, steers[k].target).Some? && HasEnd(TurnOf(j, steers[k].target).value, steers[k].id)
    decreases |steers|
  {
    var first := RecordSteerEnd(i, steers[0].id, steers[0].target, Folded);
    RecordStays(i, steers[0].id, steers[0].target, Folded, targets, steers[k].target);
    if k == 0 {
      RecordEffect(i, steers[0].id, steers[0].target, Folded, targets);
      RecordFoldsStay(first, steers[1..], targets, steers[0].target);
      var j := RecordFolds(first, steers[1..]);
      var found := TurnOf(first, steers[0].target).value;
      GrewTwice(found, found, TurnOf(j, steers[0].target).value);
    } else {
      FoldsAreRecorded(first, steers[1..], targets, k - 1);
    }
  }

  // ---- the ledger is kept ----

  /** What a step that answers no steer does to the turns. */
  ghost predicate LedgerStands(s: Session, t: Session) {
    && t.targets == s.targets && t.inner.turns == s.inner.turns && t.inner.turnOffset == s.inner.turnOffset
    && (t.inner.current.None?
        || (s.inner.current.Some? && t.inner.current.value.n == s.inner.current.value.n
            && t.inner.current.value.steers == s.inner.current.value.steers)
        || t.inner.current.value.steers == [])
  }

  /** A step that may discard the open turn. */
  predicate Discards(e: Event) {
    (e.Start? && e.start.BeginAbort?) || (e.Life? && e.life.AgentExit?)
  }

  lemma PopStands(s: Session, e: StartEvent)
    requires StartEnabled(s, e) && (e.ChainStart? || e.ResumeStart?)
    ensures LedgerStands(s, StartStep(s, e))
    ensures s.inner.current.Some? ==> StartStep(s, e).inner.current.Some?
  {
    if ChainedGate(s.inner) {
      assert LedgerStands(s, StepBegin(s, e.now));
    }
  }

  lemma StartStands(s: Session, e: StartEvent)
    requires StartEnabled(s, e)
    ensures LedgerStands(s, StartStep(s, e))
    ensures !e.BeginAbort? && s.inner.current.Some? ==> StartStep(s, e).inner.current.Some?
  {
    if e.ChainStart? || e.ResumeStart? {
      PopStands(s, e);
    }
  }

  lemma SlotStands(s: Session, e: SlotEvent)
    requires SlotEnabled(s, e)
    ensures LedgerStands(s, SlotStep(s, e)) && SlotStep(s, e).inner.current == s.inner.current
  {
  }

  lemma TrafficStands(s: Session, e: TrafficEvent)
    requires TrafficEnabled(s, e)
    ensures LedgerStands(s, TrafficStep(s, e))
    ensures s.inner.current.Some? ==> TrafficStep(s, e).inner.current.Some?
  {
  }

  lemma LifeStands(s: Session, e: LifeEvent)
    requires LifeEnabled(s, e)
    ensures LedgerStands(s, LifeStep(s, e))
    ensures !e.AgentExit? ==> LifeStep(s, e).inner.current == s.inner.current
  {
    match e
    case AgentExit(noticed) => ExitStands(s, noticed);
    case _ =>
  }

  lemma ExitStands(s: Session, noticed: bool)
    requires LifeEnabled(s, AgentExit(noticed))
    ensures LedgerStands(s, LifeStep(s, AgentExit(noticed)))
  {
  }

  lemma EndStands(s: Session, e: EndEvent)
    requires EndEnabled(s, e) && !e.Settle?
    ensures LedgerStands(s, EndStep(s, e)) && EndStep(s, e).inner.current == s.inner.current
  {
  }

  lemma OtherStands(s: Session, e: Event)
    requires Enabled(s, e) && !MovesSteers(e)
    ensures LedgerStands(s, Step(s, e))
    ensures !Discards(e) && s.inner.current.Some? ==> Step(s, e).inner.current.Some?
  {
    match e
    case Start(x) => StartStands(s, x);
    case Slot(x) => SlotStands(s, x);
    case Traffic(x) => TrafficStands(s, x);
    case Life(x) => LifeStands(s, x);
    case End(x) => EndStands(s, x);
    case Steering(_) =>
  }

  lemma StandingLedger(s: Session, t: Session)
    requires Ledger(s) && LedgerStands(s, t) && (SteersStand(s, t) || SteersGone(s, t))
    ensures Ledger(t)
  {
  }

  lemma PushKeepsLedger(s: Session)
    requires Ledger(s) && SteerLine(s)
    ensures Ledger(StepSteerPush(s))
  {
    var t := StepSteerPush(s);
    forall k | 0 <= k < |s.inner.turns| ensures !HasEnd(s.inner.turns[k], s.nextSteer) {
      assert EndsIn(s.inner.turns[k], s.targets);
    }
  }

  /** The section of `steer_resolved` up to its kick, as one recorded end. */
  lemma ResolveIsRecord(i: Inner, id: nat, target: nat, outcome: PromptOutcome, superseded: bool, now: int)
    returns (left: Inner, end: SteerOutcome)
    ensures left ==
      i.(steerPending := left.steerPending, steerFolded := left.steerFolded, steerOwner := left.steerOwner)
    ensures left.steerPending == WithoutSteer(i.steerPending, id)
    ensures var r := ResolveSteer(i, id, target, outcome, superseded, now);
      var j := RecordSteerEnd(left, id, target, end);
      && r.inner == j.(status := r.inner.status, pendingStart := r.inner.pendingStart, queue := r.inner.queue)
      && (r.mine ==> i.current.Some? && outcome.Stopped? ==> end == RanAs(i.current.value.n))
      && (outcome.Errored? ==> end == Rejected(outcome.error))
  {
    left := i.(steerPending := WithoutSteer(i.steerPending, id), steerFolded := WithoutId(i.steerFolded, id));
    var owned := i.steerOwner == Some(id);
    var passedOn := owned && outcome.IsErr() && OldestSteer(left).Some?;
    if owned {
      left := left.(steerOwner := if passedOn then OldestSteer(left) else None);
    }
    end :=
      match outcome
      case Stopped(_) => if owned && !passedOn && left.current.Some? then RanAs(left.current.value.n) else Folded
      case Errored(error) => Rejected(error)
      case LimitHit(_, error) => Rejected(error);
  }

  lemma ResolveKeepsLedger(s: Session, id: nat, answer: PromptOutcome, now: int)
    requires Ledger(s) && SteerLine(s) && id in s.waiters
    ensures Ledger(StepSteerResolved(s, id, answer, now))
  {
    var left, end := ResolveIsRecord(s.inner, id, s.waiters[id], answer, s.superseded, now);
    RecordEffect(left, id, s.waiters[id], end, s.targets);
    RecordFrame(left, id, s.waiters[id], end);
  }

  lemma SettleKeepsLedger(s: Session, now: int)
    requires Ledger(s) && SteerLine(s) && s.wire.Finishing?
    ensures Ledger(StepSettle(s, now))
  {
    EndKeepsEnds(s.inner, s.sem, s.wire.outcome, s.superseded, now, s.targets);
  }

  lemma EndKeepsEnds(
    i: Inner, sem: SteerSemantics, outcome: PromptOutcome, superseded: bool, now: int, targets: map<nat, nat>)
    requires EndsOk(i, targets) && Unanswered(i)
    requires forall k :: 0 <= k < |i.steerPending| ==>
      i.steerPending[k].id in targets && targets[i.steerPending[k].id] == i.steerPending[k].target
    ensures var j := EndTurnWith(i, sem, outcome, superseded, now).inner; EndsOk(j, targets) && Unanswered(j)
  {
    var pushed, folds := EndIsFolds(i, sem, outcome, superseded, now);
    PushKeepsEnds(i, pushed, targets);
    RecordFoldsEffect(pushed, folds, targets);
    EndSteers(i, sem, outcome, superseded, now);
    FoldedLedger(i, pushed, EndTurnWith(i, sem, outcome, superseded, now).inner, folds, targets);
  }

  lemma FoldedLedger(i: Inner, pushed: Inner, j: Inner, folds: seq<Steer>, targets: map<nat, nat>)
    requires EndsOk(RecordFolds(pushed, folds), targets) && Unanswered(pushed)
    requires j.turns == RecordFolds(pushed, folds).turns && j.current.None? && pushed.steerPending == i.steerPending
    requires j.steerPending == [] || (folds == [] && j.steerPending == i.steerPending)
    ensures EndsOk(j, targets) && Unanswered(j)
  {
  }

  lemma PushKeepsEnds(i: Inner, pushed: Inner, targets: map<nat, nat>)
    requires EndsOk(i, targets) && Unanswered(i)
    requires pushed == i.(turns := pushed.turns, current := None, recording := pushed.recording)
    requires i.current.None? ==> pushed.turns == i.turns
    requires i.current.Some? ==>
      && |pushed.turns| == |i.turns| + 1 && pushed.turns[..|i.turns|] == i.turns
      && pushed.turns[|i.turns|].n == i.current.value.n && pushed.turns[|i.turns|].steers == i.current.value.steers
    ensures EndsOk(pushed, targets) && Unanswered(pushed)
  {
    forall k | 0 <= k < |pushed.turns|
      ensures EndsIn(pushed.turns[k], targets) && forall x :: x in i.steerPending ==> !HasEnd(pushed.turns[k], x.id)
    {
      if k < |i.turns| { assert pushed.turns[k] == i.turns[k]; }
    }
  }

  /** A turn's end: the open turn pushed, then the folds recorded. */
  lemma EndIsFolds(i: Inner, sem: SteerSemantics, outcome: PromptOutcome, superseded: bool, now: int)
    returns (pushed: Inner, folds: seq<Steer>)
    ensures folds == if sem.Answered? then [] else i.steerPending
    ensures pushed == i.(turns := pushed.turns, current := None, recording := pushed.recording)
    ensures i.current.None? ==> pushed.turns == i.turns
    ensures i.current.Some? ==>
      && |pushed.turns| == |i.turns| + 1 && pushed.turns[..|i.turns|] == i.turns
      && pushed.turns[|i.turns|].n == i.current.value.n && pushed.turns[|i.turns|].steers == i.current.value.steers
    ensures var j := EndTurnWith(i, sem, outcome, superseded, now).inner;
      j.turns == RecordFolds(pushed, folds).turns && j.current.None? && RecordFolds(pushed, folds).current.None?
  {
    var stop := if outcome.Stopped? then Some(outcome.stop) else None;
    pushed := PushCurrent(i, stop, outcome.LimitHit?);
    folds := if sem.Answered? then [] else i.steerPending;
    RecordFoldsFrame(pushed, folds);
  }

  lemma KeepsLedger(s: Session, e: Event)
    requires SteerLine(s) && Ledger(s) && Enabled(s, e)
    ensures Ledger(Step(s, e))
  {
    if MovesSteers(e) {
      match e
      case Steering(SteerResolved(id, answer, now)) => ResolveKeepsLedger(s, id, answer, now);
      case Steering(SteerPush) => PushKeepsLedger(s);
      case End(Settle(now)) => SettleKeepsLedger(s, now);
    } else {
      OtherKeepsSteers(s, e);
      OtherStands(s, e);
      StandingLedger(s, Step(s, e));
    }
  }
}
