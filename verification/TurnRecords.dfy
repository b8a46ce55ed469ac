/** The registry's side of a session: the turn count that trails its turns, and
    the parked flag that carries its queue. */
module TurnRecords {
  import opened Common
  import opened SessionState
  import opened TurnMachine
  import opened TurnInvariant

  // ---- the turn count ----

  /** The registry counts every turn but the one whose end is being recorded. */
  ghost predicate Durable(s: Session) {
    var i := s.inner;
    && (i.recording.Some? ==>
          && (s.wire.Settled? || s.wire.Snapped? || s.wire.Written?)
          && i.turns != [] && i.recording.value == i.turns[|i.turns| - 1].n == SettledCount(i))
    && (s.wire.Snapped? ==> s.wire.count == SettledCount(i))
    && (s.entry.Some? ==>
          s.entry.value.turns + (if i.recording.Some? && !s.wire.Written? then 1 else 0) == SettledCount(i))
  }

  /** A step that neither ends a turn nor records an end. */
  ghost predicate CountStands(s: Session, t: Session) {
    && t.inner.recording == s.inner.recording && |t.inner.turns| == |s.inner.turns|
    && t.inner.turnOffset == s.inner.turnOffset
    && (forall k :: 0 <= k < |s.inner.turns| ==> t.inner.turns[k].n == s.inner.turns[k].n)
    && (t.entry.Some? ==> s.entry.Some? && t.entry.value.turns == s.entry.value.turns)
    && (t.wire == s.wire || (!EndPhase(s.wire) && !EndPhase(t.wire)))
  }

  predicate EndPhase(w: Wire) {
    w.Settled? || w.Snapped? || w.Written?
  }

  lemma FormCounts(s: Session, e: StartEvent, t: Session)
    requires StartEnabled(s, e) && !e.BeginWire? && !e.BeginAbort? && StartedOrRefused(s, e, t)
    ensures CountStands(s, t)
  {
  }

  lemma StartCounts(s: Session, e: StartEvent)
    requires StartEnabled(s, e)
    ensures CountStands(s, StartStep(s, e))
  {
    StartForms(s, e);
    if !e.BeginWire? && !e.BeginAbort? { FormCounts(s, e, StartStep(s, e)); }
  }

  lemma SlotCounts(s: Session, e: SlotEvent)
    requires SlotEnabled(s, e)
    ensures CountStands(s, SlotStep(s, e))
  {
  }

  lemma TrafficCounts(s: Session, e: TrafficEvent)
    requires TrafficEnabled(s, e)
    ensures CountStands(s, TrafficStep(s, e))
  {
  }

  lemma LifeCounts(s: Session, e: LifeEvent)
    requires LifeEnabled(s, e)
    ensures CountStands(s, LifeStep(s, e))
  {
  }

  lemma SteerCounts(s: Session, e: SteerEvent)
    requires SteerEnabled(s, e)
    ensures CountStands(s, SteerStep(s, e))
  {
    if e.SteerResolved? {
      ResolveFrame(s.inner, e.id, s.waiters[e.id], e.answer, s.superseded, e.now);
    }
  }

  lemma EndKeepsDurable(s: Session, e: EndEvent)
    requires Numbered(s.inner) && Durable(s) && EndEnabled(s, e)
    ensures Durable(EndStep(s, e))
  {
    if e.Settle? {
      EndFrame(s.inner, s.sem, s.wire.outcome, s.superseded, e.now);
    }
  }

  lemma StandsDurable(s: Session, t: Session)
    requires Durable(s) && CountStands(s, t)
    ensures Durable(t)
  {
  }

  lemma KeepsDurable(s: Session, e: Event)
    requires Numbered(s.inner) && Durable(s) && Enabled(s, e)
    ensures Durable(Step(s, e))
  {
    match e
    case Start(x) => StartCounts(s, x); StandsDurable(s, StartStep(s, x));
    case Slot(x) => SlotCounts(s, x); StandsDurable(s, SlotStep(s, x));
    case Steering(x) => SteerCounts(s, x); StandsDurable(s, SteerStep(s, x));
    case End(x) => EndKeepsDurable(s, x);
    case Traffic(x) => TrafficCounts(s, x); StandsDurable(s, TrafficStep(s, x));
    case Life(x) => LifeCounts(s, x); StandsDurable(s, LifeStep(s, x));
  }

  // ---- parked sessions ----

  ghost predicate ParkOk(p: Park) {
    p.plan.Queue? ==> p.queued != []
  }

  /** A session parked for its queue has one, and so has its record. */
  ghost predicate Parked(s: Session) {
    && (s.inner.status.RateLimited? && s.inner.status.plan.Queue? ==> s.inner.queue != [])
    && (s.entry.Some? && s.entry.value.parked.Some? ==> ParkOk(s.entry.value.parked.value))
    && (s.wire.Parking? ==> ParkOk(s.wire.park))
  }

  lemma SlotKeepsParked(s: Session, e: SlotEvent)
    requires Parked(s) && SlotEnabled(s, e)
    ensures Parked(SlotStep(s, e))
  {
  }

  lemma FormParked(s: Session, e: StartEvent, t: Session)
    requires Parked(s) && !e.BeginWire? && !e.BeginAbort? && StartedOrRefused(s, e, t)
    ensures Parked(t)
  {
  }

  lemma StartKeepsParked(s: Session, e: StartEvent)
    requires Parked(s) && StartEnabled(s, e)
    ensures Parked(StartStep(s, e))
  {
    StartForms(s, e);
    if !e.BeginWire? && !e.BeginAbort? { FormParked(s, e, StartStep(s, e)); }
  }

  lemma EndKeepsParked(s: Session, e: EndEvent)
    requires Core(s) && Parked(s) && EndEnabled(s, e)
    ensures Parked(EndStep(s, e))
  {
    if e.Settle? {
      assert Finishers(s, s.wire.n) > 0;
      EndFrame(s.inner, s.sem, s.wire.outcome, s.superseded, e.now);
      LimitParksToContinue(s.inner, s.sem, s.wire.outcome, s.superseded, e.now);
    }
  }

  lemma LimitParksToContinue(i: Inner, sem: SteerSemantics, outcome: PromptOutcome, superseded: bool, now: int)
    ensures var j := EndTurnWith(i, sem, outcome, superseded, now).inner;
      j.status.RateLimited? ==> j.status == i.status || j.status.plan.Continue?
  {
    match outcome
    case Stopped(reason) => FoldFrame(PushCurrent(i, Some(reason), false), sem);
    case Errored(_) => FoldFrame(PushCurrent(i, None, false), sem);
    case LimitHit(_, _) => FoldFrame(PushCurrent(i, None, true), sem);
  }

  lemma SteerKeepsParked(s: Session, e: SteerEvent)
    requires Parked(s) && SteerEnabled(s, e)
    ensures Parked(SteerStep(s, e))
  {
    if e.SteerResolved? {
      ResolveFrame(s.inner, e.id, s.waiters[e.id], e.answer, s.superseded, e.now);
    }
  }

  lemma TrafficKeepsParked(s: Session, e: TrafficEvent)
    requires Parked(s) && TrafficEnabled(s, e)
    ensures Parked(TrafficStep(s, e))
  {
  }

  lemma LifeKeepsParked(s: Session, e: LifeEvent)
    requires Parked(s) && LifeEnabled(s, e)
    ensures Parked(LifeStep(s, e))
  {
    match e
    case NoteLimit(at) => LimitKeepsParked(s, at);
    case CloseSection => EndedKeepsParked(s, LifeStep(s, e));
    case AgentExit(_) => EndedKeepsParked(s, LifeStep(s, e));
    case _ => RestKeepsParked(s, LifeStep(s, e));
  }

  lemma EndedKeepsParked(s: Session, t: Session)
    requires Parked(s) && t.entry == s.entry && t.wire == s.wire
    requires t.inner.status.RateLimited? ==> t.inner.status == s.inner.status && t.inner.queue == s.inner.queue
    ensures Parked(t)
  {
  }

  lemma RestKeepsParked(s: Session, t: Session)
    requires Parked(s) && t.inner == s.inner && t.wire == s.wire
    requires t.entry.Some? && t.entry.value.parked.Some? ==> t.entry == s.entry
    ensures Parked(t)
  {
  }

  lemma LimitKeepsParked(s: Session, at: int)
    requires Parked(s)
    ensures Parked(StepNoteLimit(s, at))
  {
  }

  lemma KeepsParked(s: Session, e: Event)
    requires Core(s) && Parked(s) && Enabled(s, e)
    ensures Parked(Step(s, e))
  {
    match e
    case Start(x) => StartKeepsParked(s, x);
    case Slot(x) => SlotKeepsParked(s, x);
    case Steering(x) => SteerKeepsParked(s, x);
    case End(x) => EndKeepsParked(s, x);
    case Traffic(x) => TrafficKeepsParked(s, x);
    case Life(x) => LifeKeepsParked(s, x);
  }

  // ---- the parked flag ----

  predicate MayBeArmed(status: Status) {
    status.RateLimited? || status.Exited? || Busy(status)
  }

  /** A settled session that is not parked has no armed flag: while the session is
      open, the flag is armed only for a parked, dead or running session, or one
      whose turn end is about to disarm it. */
  ghost predicate Armed(s: Session) {
    !s.closed ==>
      && (!s.writeFailed && s.entry.Some? && s.entry.value.parked.Some? ==>
            MayBeArmed(s.inner.status) || s.wire.Settled? || s.wire.Snapped?)
      && (s.wire.Parking? || LimitSettled(s.wire) ==> MayBeArmed(s.inner.status))
  }

  /** A limit's park, settled and not yet in the registry. */
  predicate LimitSettled(w: Wire) {
    (w.Settled? || w.Snapped?) && w.outcome.LimitHit?
  }

  lemma FormArmed(s: Session, e: StartEvent, t: Session)
    requires Core(s) && Armed(s) && StartEnabled(s, e)
    requires !e.BeginWire? && !e.BeginAbort? && StartedOrRefused(s, e, t)
    ensures Armed(t)
  {
  }

  lemma StartKeepsArmed(s: Session, e: StartEvent)
    requires Core(s) && Armed(s) && StartEnabled(s, e)
    ensures Armed(StartStep(s, e))
  {
    StartForms(s, e);
    if !e.BeginWire? && !e.BeginAbort? { FormArmed(s, e, StartStep(s, e)); }
  }

  lemma SlotKeepsArmed(s: Session, e: SlotEvent)
    requires Armed(s) && SlotEnabled(s, e)
    ensures Armed(SlotStep(s, e))
  {
  }

  lemma EndKeepsArmed(s: Session, e: EndEvent)
    requires Armed(s) && EndEnabled(s, e)
    ensures Armed(EndStep(s, e))
  {
    if e.Settle? {
      LimitParks(s.inner, s.sem, s.wire.outcome, s.superseded, e.now);
    }
  }

  lemma LimitParks(i: Inner, sem: SteerSemantics, outcome: PromptOutcome, superseded: bool, now: int)
    ensures outcome.LimitHit? ==>
      MayBeArmed(EndTurnWith(i, sem, outcome, superseded, now).inner.status)
  {
  }

  lemma SteerKeepsArmed(s: Session, e: SteerEvent)
    requires Armed(s) && SteerEnabled(s, e)
    ensures Armed(SteerStep(s, e))
  {
    if e.SteerResolved? {
      ResolveFrame(s.inner, e.id, s.waiters[e.id], e.answer, s.superseded, e.now);
    }
  }

  lemma TrafficKeepsArmed(s: Session, e: TrafficEvent)
    requires Armed(s) && TrafficEnabled(s, e)
    ensures Armed(TrafficStep(s, e))
  {
  }

  lemma LifeKeepsArmed(s: Session, e: LifeEvent)
    requires Armed(s) && LifeEnabled(s, e)
    ensures Armed(LifeStep(s, e))
  {
  }

  lemma KeepsArmed(s: Session, e: Event)
    requires Core(s) && Armed(s) && Enabled(s, e)
    ensures Armed(Step(s, e))
  {
    match e
    case Start(x) => StartKeepsArmed(s, x);
    case Slot(x) => SlotKeepsArmed(s, x);
    case Steering(x) => SteerKeepsArmed(s, x);
    case End(x) => EndKeepsArmed(s, x);
    case Traffic(x) => TrafficKeepsArmed(s, x);
    case Life(x) => LifeKeepsArmed(s, x);
  }

  // ---- the parked record ----

  /** The record of a parked session: its plan and reason, its time or an earlier one,
      and its queue but for what was accepted since. */
  ghost predicate RecordOf(p: Park, i: Inner) {
    && i.status.RateLimited?
    && p.plan == i.status.plan && p.reason == i.status.limitReason && p.resumeAt <= i.status.resumeAt
    && p.queued <= i.queue
  }

  /** The record on its way to the registry, if any. */
  function Awaited(w: Wire): Option<Park> {
    match w
    case Parking(park) => Some(park)
    case Settled(_, LimitHit(at, error), _) => Some(Park(at, error, Continue, []))
    case Snapped(_, LimitHit(at, error), _, _, queued) => Some(Park(at, error, Continue, queued))
    case _ => None
  }

  /** An open parked session's record is its own, in the registry or on the way. */
  ghost predicate InSync(s: Session) {
    s.closing.None? && s.inner.status.RateLimited? ==>
      if Awaited(s.wire).Some? then RecordOf(Awaited(s.wire).value, s.inner)
      else s.entry.Some? && s.entry.value.parked.Some? ==> RecordOf(s.entry.value.parked.value, s.inner)
  }

  lemma FormSync(s: Session, e: StartEvent, t: Session)
    requires InSync(s) && StartEnabled(s, e) && !e.BeginWire? && !e.BeginAbort? && StartedOrRefused(s, e, t)
    ensures InSync(t)
  {
  }

  lemma StartKeepsSync(s: Session, e: StartEvent)
    requires InSync(s) && StartEnabled(s, e)
    ensures InSync(StartStep(s, e))
  {
    StartForms(s, e);
    if !e.BeginWire? && !e.BeginAbort? { FormSync(s, e, StartStep(s, e)); }
  }

  lemma SlotKeepsSync(s: Session, e: SlotEvent)
    requires Core(s) && Armed(s) && InSync(s) && SlotEnabled(s, e)
    ensures InSync(SlotStep(s, e))
  {
  }

  lemma SteerKeepsSync(s: Session, e: SteerEvent)
    requires InSync(s) && SteerEnabled(s, e)
    ensures InSync(SteerStep(s, e))
  {
    if e.SteerResolved? {
      ResolveFrame(s.inner, e.id, s.waiters[e.id], e.answer, s.superseded, e.now);
    }
  }

  lemma SettleKeepsSync(s: Session, now: int)
    requires Core(s) && InSync(s) && s.wire.Finishing?
    ensures InSync(StepSettle(s, now))
  {
    assert Finishers(s, s.wire.n) > 0;
    EndFrame(s.inner, s.sem, s.wire.outcome, s.superseded, now);
    LimitParksAs(s.inner, s.sem, s.wire.outcome, s.superseded, now);
  }

  lemma LimitParksAs(i: Inner, sem: SteerSemantics, outcome: PromptOutcome, superseded: bool, now: int)
    ensures var j := EndTurnWith(i, sem, outcome, superseded, now).inner;
      outcome.LimitHit? && j.status.RateLimited? ==> j.status == RateLimited(outcome.resumeAt, outcome.error, Continue)
  {
    if outcome.LimitHit? { FoldFrame(PushCurrent(i, None, true), sem); }
  }

  lemma EndKeepsSync(s: Session, e: EndEvent)
    requires Core(s) && InSync(s) && EndEnabled(s, e)
    ensures InSync(EndStep(s, e))
  {
    match e
    case Settle(now) => SettleKeepsSync(s, now);
    case _ =>
  }

  lemma TrafficKeepsSync(s: Session, e: TrafficEvent)
    requires InSync(s) && TrafficEnabled(s, e)
    ensures InSync(TrafficStep(s, e))
  {
  }

  lemma LifeKeepsSync(s: Session, e: LifeEvent)
    requires Core(s) && InSync(s) && LifeEnabled(s, e)
    ensures InSync(LifeStep(s, e))
  {
  }

  lemma KeepsSync(s: Session, e: Event)
    requires Core(s) && Armed(s) && InSync(s) && Enabled(s, e)
    ensures InSync(Step(s, e))
  {
    match e
    case Start(x) => StartKeepsSync(s, x);
    case Slot(x) => SlotKeepsSync(s, x);
    case Steering(x) => SteerKeepsSync(s, x);
    case End(x) => EndKeepsSync(s, x);
    case Traffic(x) => TrafficKeepsSync(s, x);
    case Life(x) => LifeKeepsSync(s, x);
  }

  // ---- a record for every park ----

  predicate OpenParked(s: Session) {
    s.closing.None? && s.inner.status.RateLimited? && s.entry.Some?
  }

  /** A registered, open, parked session has a record, in the registry or on its way. */
  predicate Recorded(s: Session) {
    OpenParked(s) ==> Awaited(s.wire).Some? || s.entry.value.parked.Some?
  }

  /** The flag of a parked session is cleared as if it were stale, with no other on
      its way. */
  predicate ClearsFresh(s: Session, e: Event) {
    e == Life(Unschedule) && OpenParked(s) && Awaited(s.wire).None?
  }

  lemma FormRecorded(s: Session, e: StartEvent, t: Session)
    requires Recorded(s) && StartEnabled(s, e) && !e.BeginWire? && !e.BeginAbort? && StartedOrRefused(s, e, t)
    ensures Recorded(t)
  {
  }

  lemma StartKeepsRecorded(s: Session, e: StartEvent)
    requires Recorded(s) && StartEnabled(s, e)
    ensures Recorded(StartStep(s, e))
  {
    StartForms(s, e);
    if !e.BeginWire? && !e.BeginAbort? { FormRecorded(s, e, StartStep(s, e)); }
  }

  lemma SlotKeepsRecorded(s: Session, e: SlotEvent)
    requires Core(s) && Recorded(s) && SlotEnabled(s, e)
    ensures Recorded(SlotStep(s, e))
  {
  }

  lemma SteerKeepsRecorded(s: Session, e: SteerEvent)
    requires Recorded(s) && SteerEnabled(s, e)
    ensures Recorded(SteerStep(s, e))
  {
    if e.SteerResolved? {
      ResolveFrame(s.inner, e.id, s.waiters[e.id], e.answer, s.superseded, e.now);
    }
  }

  lemma EndKeepsRecorded(s: Session, e: EndEvent)
    requires Core(s) && Recorded(s) && EndEnabled(s, e)
    ensures Recorded(EndStep(s, e))
  {
    if e.Settle? {
      assert Finishers(s, s.wire.n) > 0;
      EndFrame(s.inner, s.sem, s.wire.outcome, s.superseded, e.now);
    }
  }

  lemma TrafficKeepsRecorded(s: Session, e: TrafficEvent)
    requires Recorded(s) && TrafficEnabled(s, e)
    ensures Recorded(TrafficStep(s, e))
  {
  }

  lemma LifeKeepsRecordedIff(s: Session, e: LifeEvent)
    requires Recorded(s) && LifeEnabled(s, e)
    ensures Recorded(LifeStep(s, e)) <==> !ClearsFresh(s, Life(e))
  {
  }

  /** A step keeps a record for every park, if and only if it does not clear a parked
      session's flag. */
  lemma KeepsRecordedIff(s: Session, e: Event)
    requires Core(s) && Recorded(s) && Enabled(s, e)
    ensures Recorded(Step(s, e)) <==> !ClearsFresh(s, e)
  {
    match e
    case Start(x) => StartKeepsRecorded(s, x);
    case Slot(x) => SlotKeepsRecorded(s, x);
    case Steering(x) => SteerKeepsRecorded(s, x);
    case End(x) => EndKeepsRecorded(s, x);
    case Traffic(x) => TrafficKeepsRecorded(s, x);
    case Life(x) => LifeKeepsRecordedIff(s, x);
  }

  // ---- a record word for word ----

  predicate SameAs(p: Park, i: Inner) {
    && i.status.RateLimited? && p.queued == i.queue
    && RateLimited(p.resumeAt, p.reason, p.plan) == i.status
  }

  /** An open parked session's record, there or on its way, is its status and its queue;
      a limit's, before its end is snapped, its status alone. */
  ghost predicate Exact(s: Session) {
    s.closing.None? && s.inner.status.RateLimited? ==>
      match s.wire
      case Settled(_, LimitHit(at, error), _) => s.inner.status == RateLimited(at, error, Continue)
      case _ =>
        if Awaited(s.wire).Some? then SameAs(Awaited(s.wire).value, s.inner)
        else s.entry.Some? && s.entry.value.parked.Some? ==> SameAs(s.entry.value.parked.value, s.inner)
  }

  /** A prompt queued behind a park, or a limit reported while the record is on its way. */
  predicate Outdates(s: Session, e: Event) {
    || (e.Traffic? && e.traffic.AcceptQueued?)
    || (e.Life? && e.life.NoteLimit? && Awaited(s.wire).Some?)
  }

  lemma FormExact(s: Session, e: StartEvent, t: Session)
    requires Exact(s) && StartEnabled(s, e) && !e.BeginWire? && !e.BeginAbort? && StartedOrRefused(s, e, t)
    ensures Exact(t)
  {
  }

  lemma StartKeepsExact(s: Session, e: StartEvent)
    requires Exact(s) && StartEnabled(s, e)
    ensures Exact(StartStep(s, e))
  {
    StartForms(s, e);
    if !e.BeginWire? && !e.BeginAbort? { FormExact(s, e, StartStep(s, e)); }
  }

  lemma SlotKeepsExact(s: Session, e: SlotEvent)
    requires Core(s) && Armed(s) && Exact(s) && SlotEnabled(s, e)
    ensures Exact(SlotStep(s, e))
  {
    match e
    case ChainRepark(at, limit) => assert Exact(StepChainRepark(s, at, limit));
    case KickRepark(at, limit) => assert Exact(StepKickRepark(s, at, limit));
    case ReserveSlot(now) => assert StepReserve(s, now).inner.status.Running?;
    case ParkWrite => assert Exact(StepParkWrite(s));
    case _ =>
  }

  lemma SteerKeepsExact(s: Session, e: SteerEvent)
    requires Exact(s) && SteerEnabled(s, e)
    ensures Exact(SteerStep(s, e))
  {
    if e.SteerResolved? {
      ResolveFrame(s.inner, e.id, s.waiters[e.id], e.answer, s.superseded, e.now);
    }
  }

  lemma SettleKeepsExact(s: Session, now: int)
    requires Core(s) && Exact(s) && s.wire.Finishing?
    ensures Exact(StepSettle(s, now))
  {
    assert Finishers(s, s.wire.n) > 0;
    EndFrame(s.inner, s.sem, s.wire.outcome, s.superseded, now);
    LimitParksAs(s.inner, s.sem, s.wire.outcome, s.superseded, now);
  }

  lemma EndKeepsExact(s: Session, e: EndEvent)
    requires Core(s) && Exact(s) && EndEnabled(s, e)
    ensures Exact(EndStep(s, e))
  {
    match e
    case Settle(now) => SettleKeepsExact(s, now);
    case _ =>
  }

  lemma TrafficKeepsExact(s: Session, e: TrafficEvent)
    requires Exact(s) && TrafficEnabled(s, e) && !e.AcceptQueued?
    ensures Exact(TrafficStep(s, e))
  {
  }

  lemma LifeKeepsExact(s: Session, e: LifeEvent)
    requires Exact(s) && LifeEnabled(s, e) && !Outdates(s, Life(e))
    ensures Exact(LifeStep(s, e))
  {
    match e
    case NoteLimit(at) => assert Exact(StepNoteLimit(s, at));
    case _ =>
  }

  /** A step keeps the record word for word, but for a prompt queued behind the park and a
      limit reported while the record is on its way. */
  lemma KeepsExact(s: Session, e: Event)
    requires Core(s) && Armed(s) && Exact(s) && Enabled(s, e) && !Outdates(s, e)
    ensures Exact(Step(s, e))
  {
    match e
    case Start(x) => StartKeepsExact(s, x);
    case Slot(x) => SlotKeepsExact(s, x);
    case Steering(x) => SteerKeepsExact(s, x);
    case End(x) => EndKeepsExact(s, x);
    case Traffic(x) => TrafficKeepsExact(s, x);
    case Life(x) => LifeKeepsExact(s, x);
  }

  // ---- schedules that must not come back, and must not go ----

  predicate Unscheduled(s: Session) {
    s.entry.None? || s.entry.value.parked.None?
  }

  lemma StartSchedulesNothing(s: Session, e: StartEvent)
    requires StartEnabled(s, e)
    ensures StartStep(s, e).entry == s.entry && StartStep(s, e).closing == s.closing
  {
    StartForms(s, e);
    if !e.BeginWire? && !e.BeginAbort? { FormSchedulesNothing(s, e, StartStep(s, e)); }
  }

  lemma FormSchedulesNothing(s: Session, e: StartEvent, t: Session)
    requires !e.BeginWire? && !e.BeginAbort? && StartedOrRefused(s, e, t)
    ensures t.entry == s.entry && t.closing == s.closing
  {
  }

  lemma SlotSchedulesNothing(s: Session, e: SlotEvent)
    requires s.closing.Some? && SlotEnabled(s, e)
    ensures SlotStep(s, e).closing == s.closing
    ensures SlotStep(s, e).entry == if e.HandClear? then WithParked(s.entry, None) else s.entry
  {
    match e
    case HandLock(k) => assert StepHandLock(s, k).entry == s.entry;
    case _ =>
  }

  lemma EndSchedulesNothing(s: Session, e: EndEvent)
    requires s.closing.Some? && EndEnabled(s, e)
    ensures EndStep(s, e).closing == s.closing && (Unscheduled(s) ==> Unscheduled(EndStep(s, e)))
  {
    match e
    case Settle(now) => assert StepSettle(s, now).entry == s.entry;
    case _ =>
  }

  lemma TrafficSchedulesNothing(s: Session, e: TrafficEvent)
    requires TrafficEnabled(s, e)
    ensures TrafficStep(s, e).entry == s.entry && TrafficStep(s, e).closing == s.closing
  {
    match e
    case AcceptQueued(text) => assert StepAccept(s, text).entry == s.entry;
    case See(u, now) => assert StepSee(s, u, now).entry == s.entry;
    case Fold => assert StepFold(s).entry == s.entry;
    case _ =>
  }

  lemma LifeSchedulesNothing(s: Session, e: LifeEvent)
    requires s.closing.Some? && Unscheduled(s) && LifeEnabled(s, e)
    ensures LifeStep(s, e).closing.Some? && Unscheduled(LifeStep(s, e))
  {
    match e
    case NoteLimit(at) => assert Unscheduled(StepNoteLimit(s, at));
    case _ =>
  }

  /** A session being ended or handed over is not scheduled again: once its record is gone,
      no run the code lets happen writes one. */
  lemma {:induction false} EndedStaysUnscheduled(s: Session, es: seq<Event>)
    requires s.closing.Some? && Unscheduled(s) && Possible(s, es)
    ensures Run(s, es).closing.Some? && Unscheduled(Run(s, es))
    decreases |es|
  {
    if es != [] {
      match es[0] {
        case Start(x) => StartSchedulesNothing(s, x);
        case Slot(x) => SlotSchedulesNothing(s, x);
        case Steering(x) => SteerSchedulesNothing(s, x);
        case End(x) => EndSchedulesNothing(s, x);
        case Traffic(x) => TrafficSchedulesNothing(s, x);
        case Life(x) => LifeSchedulesNothing(s, x);
      }
      EndedStaysUnscheduled(Step(s, es[0]), es[1..]);
    }
  }

  lemma SteerSchedulesNothing(s: Session, e: SteerEvent)
    requires SteerEnabled(s, e)
    ensures SteerStep(s, e).entry == s.entry && SteerStep(s, e).closing == s.closing
  {
  }

  /** A clearing of the flag, or of the whole entry. */
  predicate Consumes(e: Event) {
    (e.Slot? && e.slot.HandClear?) || e == Life(Unschedule) || e == Life(Forget)
  }

  lemma DeadSlot(s: Session, e: SlotEvent)
    requires s.inner.status.Exited? && !Unscheduled(s) && SlotEnabled(s, e)
    ensures Unscheduled(SlotStep(s, e)) <==> e.HandClear?
  {
    match e
    case HandLock(k) => assert StepHandLock(s, k).entry == s.entry;
    case ParkWrite => assert !Unscheduled(StepParkWrite(s));
    case _ =>
  }

  lemma DeadEnd(s: Session, e: EndEvent)
    requires s.inner.status.Exited? && !Unscheduled(s) && EndEnabled(s, e)
    ensures !Unscheduled(EndStep(s, e))
  {
    match e
    case Settle(now) => assert StepSettle(s, now).entry == s.entry;
    case _ =>
  }

  lemma DeadLife(s: Session, e: LifeEvent)
    requires !Unscheduled(s) && LifeEnabled(s, e)
    ensures Unscheduled(LifeStep(s, e)) <==> Consumes(Life(e))
  {
    match e
    case NoteLimit(at) => assert !Unscheduled(StepNoteLimit(s, at));
    case _ =>
  }

  /** A parked session whose agent died keeps its record, for the resume on a fresh agent,
      until something consumes it. */
  lemma DeadKeepsRecordIff(s: Session, e: Event)
    requires s.inner.status.Exited? && !Unscheduled(s) && Enabled(s, e)
    ensures Unscheduled(Step(s, e)) <==> Consumes(e)
  {
    match e
    case Start(x) => StartSchedulesNothing(s, x);
    case Slot(x) => DeadSlot(s, x);
    case Steering(x) => SteerSchedulesNothing(s, x);
    case End(x) => DeadEnd(s, x);
    case Traffic(x) => TrafficSchedulesNothing(s, x);
    case Life(x) => DeadLife(s, x);
  }
}
