/** What a wait relies on: every turn it may measure has a start, and every pending
    steer aims at a turn on record while the agent lives. */
module WaitInvariant {
  import opened Common
  import opened SessionState
  import opened TurnMachine
  import opened TurnInvariant
  import opened TurnSteers
  import opened SteerEnds
  import opened TurnRecords
  import opened TurnTheorems
  import TurnData

  /** The turn being recorded is the last one settled, and it and every turn a steer
      was sent into have a start. */
  ghost predicate Clocked(s: Session) {
    var i := s.inner;
    && (i.recording.Some? ==>
          && EndPhase(s.wire)
          && i.turns != [] && i.recording.value == i.turns[|i.turns| - 1].n == SettledCount(i)
          && i.turns[|i.turns| - 1].startedAt.Some?)
    && (forall id, k :: id in s.targets && 0 <= k < |i.turns| && i.turns[k].n == s.targets[id] ==>
          i.turns[k].startedAt.Some?)
  }

  /** Steers aim at turns on record, and never into a reserved slot. */
  ghost predicate Aimed(s: Session) {
    var i := s.inner;
    && (s.wire.SteerSend? ==> i.current.Some? || i.status.Exited?)
    && (ChainedGate(i) || s.wire.Starting? || Reservations(s) == 1 ==> i.steerPending == [])
    && (forall x :: x in i.steerPending ==> i.status.Exited? || InView(i, x.target))
    // A turn end on its way to the registry is marked, or the session is dead.
    && (EndPhase(s.wire) ==> i.recording.Some? || i.status.Exited? || s.closed)
  }

  /** A turn of that number is on record. */
  ghost predicate InView(i: Inner, n: nat) {
    HasSettled(i, n) || (i.current.Some? && i.current.value.n == n)
  }

  // ---- starts ----

  lemma ClockStands(s: Session, t: Session)
    requires Clocked(s) && CountStands(s, t) && t.targets == s.targets && t.inner.turns == s.inner.turns
    ensures Clocked(t)
  {
  }

  lemma SettleKeepsClock(s: Session, now: int)
    requires Core(s) && Clocked(s) && s.wire.Finishing?
    ensures Clocked(StepSettle(s, now))
  {
    EndSettlesUnder(s.inner, s.sem, s.wire.outcome, s.superseded, now);
    EndFrame(s.inner, s.sem, s.wire.outcome, s.superseded, now);
  }

  lemma SteerKeepsClock(s: Session, e: SteerEvent)
    requires Core(s) && Clocked(s) && SteerEnabled(s, e)
    ensures Clocked(SteerStep(s, e))
  {
    match e
    case SteerResolved(id, answer, now) =>
      var left, end := ResolveIsRecord(s.inner, id, s.waiters[id], answer, s.superseded, now);
      RecordFrame(left, id, s.waiters[id], end);
    case _ =>
  }

  lemma EndKeepsClock(s: Session, e: EndEvent)
    requires Core(s) && Clocked(s) && EndEnabled(s, e)
    ensures Clocked(EndStep(s, e))
  {
    if e.Settle? { SettleKeepsClock(s, e.now); }
  }

  lemma KeepsClock(s: Session, e: Event)
    requires Core(s) && Clocked(s) && Enabled(s, e)
    ensures Clocked(Step(s, e))
  {
    match e
    case Steering(x) => SteerKeepsClock(s, x);
    case End(x) => EndKeepsClock(s, x);
    case Start(x) => StartCounts(s, x); OtherStands(s, e); ClockStands(s, Step(s, e));
    case Slot(x) => SlotCounts(s, x); SlotStands(s, x); ClockStands(s, Step(s, e));
    case Traffic(x) => TrafficCounts(s, x); TrafficStands(s, x); ClockStands(s, Step(s, e));
    case Life(x) => LifeCounts(s, x); LifeStands(s, x); ClockStands(s, Step(s, e));
  }

  // ---- aims ----

  lemma FormKeepsAim(s: Session, e: StartEvent, t: Session)
    requires Core(s) && Aimed(s) && StartEnabled(s, e) && !e.BeginWire? && !e.BeginAbort? && StartedOrRefused(s, e, t)
    ensures Aimed(t)
  {
  }

  lemma StartKeepsAim(s: Session, e: StartEvent)
    requires Core(s) && Aimed(s) && StartEnabled(s, e)
    ensures Aimed(StartStep(s, e))
  {
    StartForms(s, e);
    if !e.BeginWire? && !e.BeginAbort? { FormKeepsAim(s, e, StartStep(s, e)); }
  }

  lemma SlotKeepsAim(s: Session, e: SlotEvent)
    requires Core(s) && Aimed(s) && SlotEnabled(s, e) && (e.ReserveSlot? ==> OldestSteer(s.inner).None?)
    ensures Aimed(SlotStep(s, e))
  {
    match e
    case HandLock(k) => HandLockKeepsCore(s, k);
    case _ =>
  }

  lemma SteerKeepsAim(s: Session, e: SteerEvent)
    requires Core(s) && Aimed(s) && SteerEnabled(s, e) && (e.SteerLock? ==> !ChainedGate(s.inner))
    ensures Aimed(SteerStep(s, e))
  {
    match e
    case SteerResolved(id, answer, now) => ResolveKeepsAim(s, id, answer, now);
    case _ =>
  }

  lemma ResolveKeepsAim(s: Session, id: nat, answer: PromptOutcome, now: int)
    requires Core(s) && Aimed(s) && id in s.waiters
    ensures Aimed(StepSteerResolved(s, id, answer, now))
  {
    ResolveFrame(s.inner, id, s.waiters[id], answer, s.superseded, now);
    ResolveSteers(s.inner, id, s.waiters[id], answer, s.superseded, now);
    ResolveKick(s.inner, id, s.waiters[id], answer, s.superseded, now);
  }

  lemma SettleKeepsAim(s: Session, now: int)
    requires Core(s) && Aimed(s) && s.wire.Finishing? && !s.inner.status.NeedsPermission?
    ensures Aimed(StepSettle(s, now))
  {
    assert Finishers(s, s.wire.n) > 0;
    EndFrame(s.inner, s.sem, s.wire.outcome, s.superseded, now);
    EndSteers(s.inner, s.sem, s.wire.outcome, s.superseded, now);
    EndChains(s.inner, s.sem, s.wire.outcome, s.superseded, now);
  }

  lemma EndKeepsAim(s: Session, e: EndEvent)
    requires Core(s) && Aimed(s) && EndEnabled(s, e) && (e.Settle? ==> !s.inner.status.NeedsPermission?)
    ensures Aimed(EndStep(s, e))
  {
    match e
    case Settle(now) => SettleKeepsAim(s, now);
    case _ =>
  }

  lemma TrafficKeepsAim(s: Session, e: TrafficEvent)
    requires Core(s) && Aimed(s) && TrafficEnabled(s, e)
    ensures Aimed(TrafficStep(s, e))
  {
    match e
    case See(u, now) => SeeKeepsAim(s, u, now);
    case CancelCall => CancelKeepsAim(s);
    case _ =>
  }

  lemma SeeKeepsAim(s: Session, u: TurnData.Update, now: int)
    requires Core(s) && Aimed(s) && s.connected
    ensures Aimed(StepSee(s, u, now))
  {
    if s.wire.Starting? { assert Finishers(s, s.wire.n) > 0; }
  }

  lemma CancelKeepsAim(s: Session)
    requires Core(s) && Aimed(s) && Busy(s.inner.status)
    ensures Aimed(TrafficStep(s, CancelCall))
  {
  }

  lemma LifeKeepsAim(s: Session, e: LifeEvent)
    requires Core(s) && Aimed(s) && LifeEnabled(s, e)
    ensures Aimed(LifeStep(s, e))
  {
    match e
    case AgentExit(noticed) => ExitKeepsAim(s, noticed);
    case CloseSection => CloseKeepsAim(s);
    case _ => LifeStandsAimed(s, LifeStep(s, e));
  }

  lemma LifeStandsAimed(s: Session, t: Session)
    requires Aimed(s) && t.wire == s.wire && t.hands == s.hands && t.closed == s.closed
    requires t.inner == s.inner.(status := t.inner.status)
    requires t.inner.status == s.inner.status || (t.inner.status.RateLimited? && s.inner.status.RateLimited?)
    ensures Aimed(t)
  {
  }

  lemma ExitKeepsAim(s: Session, noticed: bool)
    requires Aimed(s) && LifeEnabled(s, AgentExit(noticed))
    ensures Aimed(LifeStep(s, AgentExit(noticed)))
  {
  }

  lemma CloseKeepsAim(s: Session)
    requires Core(s) && Aimed(s) && LifeEnabled(s, CloseSection)
    ensures Aimed(LifeStep(s, CloseSection))
  {
  }

  lemma KeepsAim(s: Session, e: Event)
    requires Core(s) && Aimed(s) && Enabled(s, e) && InScope(s, e)
    ensures Aimed(Step(s, e))
  {
    match e
    case Start(x) => StartKeepsAim(s, x);
    case Slot(x) => SlotKeepsAim(s, x);
    case Steering(x) => SteerKeepsAim(s, x);
    case End(x) => EndKeepsAim(s, x);
    case Traffic(x) => TrafficKeepsAim(s, x);
    case Life(x) => LifeKeepsAim(s, x);
  }

  ghost predicate Full(s: Session) {
    Inv(s) && Clocked(s) && Aimed(s)
  }

  lemma StepKeepsFull(s: Session, e: Event)
    requires Full(s) && Enabled(s, e) && InScope(s, e)
    ensures Full(Step(s, e))
  {
    StepKeepsInv(s, e);
    KeepsClock(s, e);
    KeepsAim(s, e);
  }

  lemma {:induction false} RunKeepsFull(s: Session, es: seq<Event>)
    requires Full(s) && Allowed(s, es)
    ensures Full(Run(s, es))
    decreases |es|
  {
    if es != [] {
      StepKeepsFull(s, es[0]);
      RunKeepsFull(Step(s, es[0]), es[1..]);
    }
  }

  lemma LaunchedFull(s: Session)
    requires Launched(s)
    ensures Full(s)
  {
    LaunchedHolds(s);
  }

  lemma ScopedWaits(s: Session)
    requires Scoped(s)
    ensures Full(s)
  {
    var s0, es :| Launched(s0) && Allowed(s0, es) && Run(s0, es) == s;
    LaunchedFull(s0);
    RunKeepsFull(s0, es);
  }
}
