/** Steers: their order, the owner of a materialized turn, and one recorded
    outcome each. */
module TurnSteers {
  import opened Common
  import opened SessionState
  import opened TurnMachine
  import opened TurnInvariant

  // ---- order and ownership ----

  ghost predicate Increasing(xs: seq<nat>) {
    forall j, k :: 0 <= j < k < |xs| ==> xs[j] < xs[k]
  }

  /** Every steer that may still produce turn traffic, oldest first. */
  function Outstanding(i: Inner): seq<nat> {
    i.steerFolded + Ids(i.steerPending)
  }

  ghost predicate SteerLine(s: Session) {
    var i := s.inner;
    && Increasing(Outstanding(i))
    && (forall id :: id in Outstanding(i) ==> id in s.waiters)
    && (forall id :: id in s.waiters ==> id in s.targets && s.targets[id] == s.waiters[id])
    && (forall id :: id in s.targets ==> id < s.nextSteer)
    && (forall k :: 0 <= k < |i.steerPending| ==>
          i.steerPending[k].id in s.targets && s.targets[i.steerPending[k].id] == i.steerPending[k].target)
    && (i.steerOwner.Some? ==> i.steerOwner.value in Outstanding(i))
    && (s.sem.Answered? ==> i.steerFolded == [])
  }

  lemma {:induction false} WithoutIdSplits(a: seq<nat>, b: seq<nat>, id: nat)
    ensures WithoutId(a + b, id) == WithoutId(a, id) + WithoutId(b, id)
  {
    if a == [] {
      assert a + b == b;
    } else {
      assert (a + b)[1..] == a[1..] + b;
      WithoutIdSplits(a[1..], b, id);
    }
  }

  lemma {:induction false} WithoutSteerIds(steers: seq<Steer>, id: nat)
    ensures Ids(WithoutSteer(steers, id)) == WithoutId(Ids(steers), id)
  {
    if steers != [] {
      WithoutSteerIds(steers[1..], id);
      assert Ids(steers)[1..] == Ids(steers[1..]);
      assert Ids([steers[0]] + WithoutSteer(steers[1..], id)) == [steers[0].id] + Ids(WithoutSteer(steers[1..], id));
    }
  }

  lemma {:induction false} WithoutIdIncreasing(xs: seq<nat>, id: nat)
    requires Increasing(xs)
    ensures Increasing(WithoutId(xs, id))
  {
    if xs != [] {
      WithoutIdIncreasing(xs[1..], id);
      var rest := WithoutId(xs[1..], id);
      forall k | 0 <= k < |rest| ensures xs[0] < rest[k] { assert rest[k] in xs[1..]; }
    }
  }

  /** A resolved steer leaves the line; the rest keep their places. */
  lemma ResolvedLeavesLine(i: Inner, id: nat)
    ensures WithoutId(i.steerFolded, id) + Ids(WithoutSteer(i.steerPending, id)) == WithoutId(Outstanding(i), id)
  {
    WithoutSteerIds(i.steerPending, id);
    WithoutIdSplits(i.steerFolded, Ids(i.steerPending), id);
  }

  /** The steer traffic is attributed to is the oldest outstanding one. */
  lemma OldestIsLeast(s: Session)
    requires SteerLine(s)
    ensures OldestSteer(s.inner).None? <==> Outstanding(s.inner) == []
    ensures OldestSteer(s.inner).Some? ==>
      && OldestSteer(s.inner).value == Outstanding(s.inner)[0]
      && forall id :: id in Outstanding(s.inner) ==> OldestSteer(s.inner).value <= id
  {
  }

  lemma ResolveKeepsSteerLine(s: Session, id: nat, answer: PromptOutcome, now: int)
    requires SteerLine(s) && id in s.waiters
    ensures SteerLine(StepSteerResolved(s, id, answer, now))
    ensures Outstanding(StepSteerResolved(s, id, answer, now).inner) == WithoutId(Outstanding(s.inner), id)
  {
    var r := ResolveSteer(s.inner, id, s.waiters[id], answer, s.superseded, now);
    ResolveSteers(s.inner, id, s.waiters[id], answer, s.superseded, now);
    ResolvedLeavesLine(s.inner, id);
    WithoutIdIncreasing(Outstanding(s.inner), id);
    assert Outstanding(r.inner) == WithoutId(Outstanding(s.inner), id);
    PendingStaysAimed(s.inner.steerPending, r.inner.steerPending, s.targets);
  }

  lemma PendingStaysAimed(all: seq<Steer>, rest: seq<Steer>, targets: map<nat, nat>)
    requires forall x :: x in rest ==> x in all
    requires forall k :: 0 <= k < |all| ==> all[k].id in targets && targets[all[k].id] == all[k].target
    ensures forall k :: 0 <= k < |rest| ==> rest[k].id in targets && targets[rest[k].id] == rest[k].target
  {
    forall k | 0 <= k < |rest| ensures rest[k].id in targets && targets[rest[k].id] == rest[k].target {
      assert rest[k] in all;
    }
  }

  lemma ResolveSteers(i: Inner, id: nat, target: nat, outcome: PromptOutcome, superseded: bool, now: int)
    ensures var r := ResolveSteer(i, id, target, outcome, superseded, now);
      var left := i.(steerPending := WithoutSteer(i.steerPending, id), steerFolded := WithoutId(i.steerFolded, id));
      && r.inner.steerPending == left.steerPending
      && r.inner.steerFolded == left.steerFolded
      && r.inner.steerOwner ==
           if i.steerOwner != Some(id) then i.steerOwner
           else if outcome.IsErr() then OldestSteer(left)
           else None
  {
    ResolveFrame(i, id, target, outcome, superseded, now);
    var i1 := i.(steerPending := WithoutSteer(i.steerPending, id), steerFolded := WithoutId(i.steerFolded, id));
    var owned := i.steerOwner == Some(id);
    var passedOn := owned && outcome.IsErr() && OldestSteer(i1).Some?;
    var i2 := if owned then i1.(steerOwner := if passedOn then OldestSteer(i1) else None) else i1;
    var end :=
      match outcome
      case Stopped(_) => if owned && !passedOn && i2.current.Some? then RanAs(i2.current.value.n) else Folded
      case Errored(error) => Rejected(error)
      case LimitHit(_, error) => Rejected(error);
    RecordFrame(i2, id, target, end);
  }

  lemma EndSteers(i: Inner, sem: SteerSemantics, outcome: PromptOutcome, superseded: bool, now: int)
    ensures var j := EndTurnWith(i, sem, outcome, superseded, now).inner;
      && j.steerPending == (if sem.Answered? then i.steerPending else [])
      && j.steerFolded == (if sem.Answered? then i.steerFolded else Outstanding(i))
      && j.steerOwner == i.steerOwner
  {
    match outcome
    case Stopped(reason) => FoldFrame(PushCurrent(i, Some(reason), false), sem);
    case Errored(_) => FoldFrame(PushCurrent(i, None, false), sem);
    case LimitHit(_, _) => FoldFrame(PushCurrent(i, None, true), sem);
  }

  lemma SettleKeepsSteerLine(s: Session, now: int)
    requires SteerLine(s) && s.wire.Finishing?
    ensures SteerLine(StepSettle(s, now))
    ensures Outstanding(StepSettle(s, now).inner) == Outstanding(s.inner)
  {
    EndSteers(s.inner, s.sem, s.wire.outcome, s.superseded, now);
    assert Outstanding(StepSettle(s, now).inner) == Outstanding(s.inner);
  }

  lemma PushKeepsSteerLine(s: Session)
    requires SteerLine(s)
    ensures SteerLine(StepSteerPush(s))
  {
    var t := StepSteerPush(s);
    var line := Outstanding(s.inner);
    assert Outstanding(t.inner) == line + [s.nextSteer];
    forall k | 0 <= k < |line| ensures line[k] < s.nextSteer { assert line[k] in line; }
  }

  /** The steers untouched, but for a materialized turn's owner. */
  ghost predicate SteersStand(s: Session, t: Session) {
    && t.sem == s.sem && t.waiters == s.waiters && t.targets == s.targets && t.nextSteer == s.nextSteer
    && t.inner.steerPending == s.inner.steerPending && t.inner.steerFolded == s.inner.steerFolded
    && (t.inner.steerOwner == s.inner.steerOwner || t.inner.steerOwner == OldestSteer(s.inner))
  }

  ghost predicate SteersGone(s: Session, t: Session) {
    && t.sem == s.sem && t.waiters == s.waiters && t.targets == s.targets && t.nextSteer == s.nextSteer
    && t.inner.steerPending == [] && t.inner.steerFolded == [] && t.inner.steerOwner.None?
  }

  lemma GatedStartKeepsSteers(s: Session, e: StartEvent)
    requires StartEnabled(s, e) && (e.ChainStart? || e.ResumeStart?)
    ensures SteersStand(s, StartStep(s, e))
  {
    if ChainedGate(s.inner) {
      var t := StepBegin(s, e.now);
      assert t.inner.steerPending == s.inner.steerPending;
    }
  }

  lemma StartKeepsSteers(s: Session, e: StartEvent)
    requires StartEnabled(s, e)
    ensures SteersStand(s, StartStep(s, e))
  {
    if e.ChainStart? || e.ResumeStart? {
      GatedStartKeepsSteers(s, e);
    }
  }

  lemma SlotKeepsSteers(s: Session, e: SlotEvent)
    requires SlotEnabled(s, e)
    ensures SteersStand(s, SlotStep(s, e))
  {
  }

  lemma TrafficKeepsSteers(s: Session, e: TrafficEvent)
    requires TrafficEnabled(s, e)
    ensures SteersStand(s, TrafficStep(s, e))
  {
  }

  lemma LifeKeepsSteers(s: Session, e: LifeEvent)
    requires LifeEnabled(s, e)
    ensures SteersStand(s, LifeStep(s, e)) || ((e.AgentExit? || e.CloseSection?) && SteersGone(s, LifeStep(s, e)))
  {
  }

  lemma EndKeepsSteers(s: Session, e: EndEvent)
    requires EndEnabled(s, e) && !e.Settle?
    ensures SteersStand(s, EndStep(s, e))
  {
  }

  predicate MovesSteers(e: Event) {
    (e.Steering? && !e.steering.SteerLock?) || (e.End? && e.end.Settle?)
  }

  predicate EndsSession(e: Event) {
    e.Life? && (e.life.AgentExit? || e.life.CloseSection?)
  }

  /** Every other step leaves the steers alone, or ends them with the session. */
  lemma OtherKeepsSteers(s: Session, e: Event)
    requires Enabled(s, e) && !MovesSteers(e)
    ensures SteersStand(s, Step(s, e)) || (EndsSession(e) && SteersGone(s, Step(s, e)))
  {
    match e
    case Start(x) => StartKeepsSteers(s, x);
    case Slot(x) => SlotKeepsSteers(s, x);
    case Traffic(x) => TrafficKeepsSteers(s, x);
    case Life(x) => LifeKeepsSteers(s, x);
    case End(x) => EndKeepsSteers(s, x);
    case Steering(_) =>
  }

  lemma StandingLine(s: Session, t: Session)
    requires SteerLine(s) && (SteersStand(s, t) || SteersGone(s, t))
    ensures SteerLine(t)
  {
    OldestIsLeast(s);
    assert SteersStand(s, t) ==> Outstanding(t.inner) == Outstanding(s.inner);
  }

  lemma KeepsSteerLine(s: Session, e: Event)
    requires SteerLine(s) && Enabled(s, e)
    ensures SteerLine(Step(s, e))
  {
    if MovesSteers(e) {
      match e
      case Steering(SteerResolved(id, answer, now)) => ResolveKeepsSteerLine(s, id, answer, now);
      case Steering(SteerPush) => PushKeepsSteerLine(s);
      case End(Settle(now)) => SettleKeepsSteerLine(s, now);
    } else {
      OtherKeepsSteers(s, e);
      StandingLine(s, Step(s, e));
    }
  }
}
