/** A turn a steer ran as ends under the answer that steer was given. */
module SteerAnswers {
  import opened Common
  import opened SessionState
  import opened TurnMachine
  import opened TurnInvariant
  import opened TurnTheorems
  import SteerEnds

  /** The settled turn of that number ended with that stop reason. */
  ghost predicate EndedWith(i: Inner, n: nat, stop: StopReason) {
    exists k :: 0 <= k < |i.turns| && i.turns[k].n == n && i.turns[k].stopReason == Some(stop)
  }

  /** The open turn of that number has a claim under that answer, waiting for the wire
      or on it. */
  ghost predicate Claimed(s: Session, n: nat, stop: StopReason) {
    && s.inner.current.Some? && s.inner.current.value.n == n
    && (s.wire == Finishing(n, Stopped(stop)) || ClaimsOn(s, n) == [Stopped(stop)])
  }

  /** The agent died with the turn, and no task is left to start another. */
  ghost predicate Lost(s: Session, n: nat) {
    && s.inner.current.None? && s.inner.status.Exited? && !s.connected && Reservations(s) == 0
    && SettledCount(s.inner) < n
  }

  ghost predicate EndsUnder(s: Session, n: nat, stop: StopReason) {
    EndedWith(s.inner, n, stop) || Claimed(s, n, stop) || Lost(s, n)
  }

  // ---- settled turns stand ----

  lemma EndedStays(s: Session, e: Event, n: nat, stop: StopReason)
    requires Core(s) && EndedWith(s.inner, n, stop) && Enabled(s, e)
    ensures EndedWith(Step(s, e).inner, n, stop)
  {
    match e
    case Steering(x) => SteerKeepsEnds(s, x, n, stop);
    case End(x) => EndKeepsEnds(s, x, n, stop);
    case _ => SteerEnds.OtherStands(s, e);
  }

  lemma SteerKeepsEnds(s: Session, e: SteerEvent, n: nat, stop: StopReason)
    requires EndedWith(s.inner, n, stop) && SteerEnabled(s, e)
    ensures EndedWith(SteerStep(s, e).inner, n, stop)
  {
    if e.SteerResolved? {
      var left, end := SteerEnds.ResolveIsRecord(s.inner, e.id, s.waiters[e.id], e.answer, s.superseded, e.now);
      RecordFrame(left, e.id, s.waiters[e.id], end);
    }
  }

  lemma EndKeepsEnds(s: Session, e: EndEvent, n: nat, stop: StopReason)
    requires Numbered(s.inner) && EndedWith(s.inner, n, stop) && EndEnabled(s, e)
    ensures EndedWith(EndStep(s, e).inner, n, stop)
  {
    if e.Settle? {
      EndSettlesUnder(s.inner, s.sem, s.wire.outcome, s.superseded, e.now);
      EndFrame(s.inner, s.sem, s.wire.outcome, s.superseded, e.now);
    }
  }

  // ---- a claim stands until it ends its turn ----

  /** The claim is the turn's one finisher. */
  lemma ClaimIsAlone(s: Session, n: nat, stop: StopReason)
    requires Core(s) && Claimed(s, n, stop)
    ensures Finishers(s, n) == 1 && n == NextTurnNumber(s.inner) && s.inner.steerOwner.None? && Reservations(s) == 0
    ensures forall m: nat :: m != n ==> Finishers(s, m) == 0
    ensures !s.wire.Starting? && (s.wire.Finishing? ==> s.wire == Finishing(n, Stopped(stop)))
    ensures forall m: nat :: m !in s.turnTasks
  {
    assert Finishers(s, n) > 0;
    assert WireTurn(s.wire).Some? ==> Finishers(s, WireTurn(s.wire).value) > 0;
    forall m: nat ensures m !in s.turnTasks { assert Finishers(s, m) > 0 ==> m == n; }
  }

  lemma StartKeepsClaim(s: Session, e: StartEvent, n: nat, stop: StopReason)
    requires Core(s) && Claimed(s, n, stop)
    ensures !StartEnabled(s, e)
  {
    ClaimIsAlone(s, n, stop);
    if s.wire.Free? && CheckGate(s) { CheckBeginKeepsCore(s, 0); }
  }

  lemma SlotKeepsClaim(s: Session, e: SlotEvent, n: nat, stop: StopReason)
    requires Claimed(s, n, stop) && SlotEnabled(s, e) && Core(s)
    ensures Claimed(SlotStep(s, e), n, stop)
  {
    ClaimIsAlone(s, n, stop);
  }

  lemma SteerKeepsClaim(s: Session, e: SteerEvent, n: nat, stop: StopReason)
    requires Core(s) && Claimed(s, n, stop) && SteerEnabled(s, e)
    ensures Claimed(SteerStep(s, e), n, stop)
  {
    ClaimIsAlone(s, n, stop);
    if e.SteerResolved? {
      ResolveFrame(s.inner, e.id, s.waiters[e.id], e.answer, s.superseded, e.now);
    }
  }

  lemma EndKeepsClaim(s: Session, e: EndEvent, n: nat, stop: StopReason)
    requires Core(s) && Claimed(s, n, stop) && EndEnabled(s, e)
    ensures Claimed(EndStep(s, e), n, stop) || EndedWith(EndStep(s, e).inner, n, stop)
  {
    ClaimIsAlone(s, n, stop);
    match e
    case Settle(now) =>
      EndSettlesUnder(s.inner, s.sem, s.wire.outcome, s.superseded, now);
      EndFrame(s.inner, s.sem, s.wire.outcome, s.superseded, now);
    case FinishLock(m, _, _) => assert Finishers(s, m) > 0;
    case _ =>
  }

  lemma TrafficKeepsClaim(s: Session, e: TrafficEvent, n: nat, stop: StopReason)
    requires Claimed(s, n, stop) && TrafficEnabled(s, e)
    ensures Claimed(TrafficStep(s, e), n, stop)
  {
  }

  lemma LifeKeepsClaim(s: Session, e: LifeEvent, n: nat, stop: StopReason)
    requires Core(s) && Claimed(s, n, stop) && LifeEnabled(s, e)
    ensures Claimed(LifeStep(s, e), n, stop) || Lost(LifeStep(s, e), n)
  {
    match e
    case AgentExit(noticed) => ExitKeepsClaim(s, noticed, n, stop);
    case NoteLimit(at) => assert Claimed(StepNoteLimit(s, at), n, stop);
    case _ =>
  }

  lemma ExitKeepsClaim(s: Session, noticed: bool, n: nat, stop: StopReason)
    requires Core(s) && Claimed(s, n, stop) && LifeEnabled(s, AgentExit(noticed))
    ensures var t := LifeStep(s, AgentExit(noticed)); if noticed then Claimed(t, n, stop) else Lost(t, n)
  {
    ClaimIsAlone(s, n, stop);
  }

  lemma ClaimStays(s: Session, e: Event, n: nat, stop: StopReason)
    requires Core(s) && Claimed(s, n, stop) && Enabled(s, e)
    ensures EndsUnder(Step(s, e), n, stop)
  {
    match e
    case Start(x) => StartKeepsClaim(s, x, n, stop);
    case Slot(x) => SlotKeepsClaim(s, x, n, stop);
    case Steering(x) => SteerKeepsClaim(s, x, n, stop);
    case End(x) => EndKeepsClaim(s, x, n, stop);
    case Traffic(x) => TrafficKeepsClaim(s, x, n, stop);
    case Life(x) => LifeKeepsClaim(s, x, n, stop);
  }

  // ---- a lost turn is not followed by another ----

  lemma LostStays(s: Session, e: Event, n: nat)
    requires Core(s) && Lost(s, n) && Enabled(s, e) && InScope(s, e)
    ensures Lost(Step(s, e), n)
  {
    match e
    case Start(x) => LostStart(s, x, n);
    case Slot(x) => LostSlot(s, x, n);
    case Steering(x) => LostSteer(s, x, n);
    case End(x) => LostEnd(s, x, n);
    case Traffic(x) => LostTraffic(s, x, n);
    case Life(x) => LostLife(s, x, n);
  }

  lemma LostStart(s: Session, e: StartEvent, n: nat)
    requires Lost(s, n) && StartEnabled(s, e)
    ensures Lost(StartStep(s, e), n)
  {
  }

  lemma LostSlot(s: Session, e: SlotEvent, n: nat)
    requires Lost(s, n) && SlotEnabled(s, e)
    ensures Lost(SlotStep(s, e), n)
  {
  }

  lemma LostSteer(s: Session, e: SteerEvent, n: nat)
    requires Lost(s, n) && SteerEnabled(s, e)
    ensures Lost(SteerStep(s, e), n)
  {
    if e.SteerResolved? {
      ResolveFrame(s.inner, e.id, s.waiters[e.id], e.answer, s.superseded, e.now);
    }
  }

  lemma LostEnd(s: Session, e: EndEvent, n: nat)
    requires Lost(s, n) && EndEnabled(s, e)
    ensures Lost(EndStep(s, e), n)
  {
    if e.Settle? { EndFrame(s.inner, s.sem, s.wire.outcome, s.superseded, e.now); }
  }

  lemma LostTraffic(s: Session, e: TrafficEvent, n: nat)
    requires Lost(s, n) && TrafficEnabled(s, e)
    ensures Lost(TrafficStep(s, e), n)
  {
  }

  lemma LostLife(s: Session, e: LifeEvent, n: nat)
    requires Lost(s, n) && LifeEnabled(s, e)
    ensures Lost(LifeStep(s, e), n)
  {
  }

  // ---- whole runs ----

  lemma {:induction false} RunEndsUnder(s: Session, es: seq<Event>, n: nat, stop: StopReason)
    requires Inv(s) && EndsUnder(s, n, stop) && Allowed(s, es)
    ensures EndsUnder(Run(s, es), n, stop)
    decreases |es|
  {
    if es != [] {
      StepKeepsInv(s, es[0]);
      if EndedWith(s.inner, n, stop) {
        EndedStays(s, es[0], n, stop);
      } else if Claimed(s, n, stop) {
        ClaimStays(s, es[0], n, stop);
      } else {
        LostStays(s, es[0], n);
      }
      RunEndsUnder(Step(s, es[0]), es[1..], n, stop);
    }
  }

  lemma AnswerClaims(s: Session, id: nat, stop: StopReason, now: int)
    requires Core(s) && id in s.waiters && s.inner.current.Some? && s.inner.steerOwner == Some(id)
    ensures Claimed(StepSteerResolved(s, id, Stopped(stop), now), s.inner.current.value.n, stop)
  {
    var n := s.inner.current.value.n;
    ResolveFrame(s.inner, id, s.waiters[id], Stopped(stop), s.superseded, now);
    assert Finishers(s, n) == 0;
    assert [] + [Stopped(stop)] == [Stopped(stop)];
  }

  /** A turn recorded as the one a steer ran as settles, in every run, under the stop
      reason that steer's prompt was answered with. */
  lemma RanAsEndsUnderItsAnswer(s: Session, id: nat, stop: StopReason, now: int, es: seq<Event>)
    requires Scoped(s) && id in s.waiters && s.inner.current.Some? && s.inner.steerOwner == Some(id)
    requires Allowed(StepSteerResolved(s, id, Stopped(stop), now), es)
    ensures var n := s.inner.current.value.n;
      var t := Run(StepSteerResolved(s, id, Stopped(stop), now), es);
      n <= SettledCount(t.inner) ==> EndedWith(t.inner, n, stop)
  {
    ScopedInv(s);
    var e := Steering(SteerResolved(id, Stopped(stop), now));
    assert Step(s, e) == StepSteerResolved(s, id, Stopped(stop), now);
    StepKeepsInv(s, e);
    AnswerClaims(s, id, stop, now);
    RunEndsUnder(Step(s, e), es, s.inner.current.value.n, stop);
    RunKeepsInv(Step(s, e), es);
  }
}
