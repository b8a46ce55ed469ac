/** The turn machine's promises, over every run in scope. */
module TurnTheorems {
  import opened Common
  import opened SessionState
  import opened TurnMachine
  import opened TurnInvariant
  import opened TurnSteers
  import opened SteerEnds
  import opened TurnRecords
  import opened QueueOrder

  ghost predicate Inv(s: Session) {
    Core(s) && SteerLine(s) && Ledger(s) && Parked(s) && Armed(s) && InSync(s) && QueueLine(s) && QuietGap(s)
  }

  // ---- the quiet gap is kept ----

  lemma SlotKeepsGap(s: Session, e: SlotEvent)
    requires QuietGap(s) && SlotEnabled(s, e) && (e.ReserveSlot? ==> OldestSteer(s.inner).None?)
    ensures QuietGap(SlotStep(s, e))
  {
  }

  lemma StartKeepsGap(s: Session, e: StartEvent)
    requires QuietGap(s) && StartEnabled(s, e)
    ensures QuietGap(StartStep(s, e))
  {
    StartForms(s, e);
    StartKeepsSteers(s, e);
    if !e.BeginWire? && !e.BeginAbort? { FormKeepsGate(s, e, StartStep(s, e)); }
  }

  lemma FormKeepsGate(s: Session, e: StartEvent, t: Session)
    requires !e.BeginWire? && !e.BeginAbort? && StartedOrRefused(s, e, t)
    ensures ChainedGate(t.inner) ==> ChainedGate(s.inner)
  {
  }

  lemma SteerKeepsGap(s: Session, e: SteerEvent)
    requires Core(s) && SteerLine(s) && QuietGap(s) && SteerEnabled(s, e) && (e.SteerLock? ==> !ChainedGate(s.inner))
    ensures QuietGap(SteerStep(s, e))
  {
    match e
    case SteerResolved(id, answer, now) =>
      ResolveFrame(s.inner, id, s.waiters[id], answer, s.superseded, now);
      ResolveSteers(s.inner, id, s.waiters[id], answer, s.superseded, now);
      ResolveKick(s.inner, id, s.waiters[id], answer, s.superseded, now);
    case _ =>
  }

  lemma ResolveKick(i: Inner, id: nat, target: nat, outcome: PromptOutcome, superseded: bool, now: int)
    ensures var r := ResolveSteer(i, id, target, outcome, superseded, now);
      r.kick.Some? ==> r.inner.steerPending == []
  {
  }

  lemma EndKeepsGap(s: Session, e: EndEvent)
    requires Core(s) && QuietGap(s) && SteerLine(s) && EndEnabled(s, e)
    requires e.Settle? ==> !s.inner.status.NeedsPermission?
    ensures QuietGap(EndStep(s, e))
  {
    if e.Settle? {
      EndFrame(s.inner, s.sem, s.wire.outcome, s.superseded, e.now);
      EndSteers(s.inner, s.sem, s.wire.outcome, s.superseded, e.now);
      EndChains(s.inner, s.sem, s.wire.outcome, s.superseded, e.now);
      SettleKeepsSteerLine(s, e.now);
    } else {
      EndKeepsSteers(s, e);
    }
  }

  lemma EndChains(i: Inner, sem: SteerSemantics, outcome: PromptOutcome, superseded: bool, now: int)
    ensures var e := EndTurnWith(i, sem, outcome, superseded, now);
      e.next.Some? ==> e.inner.steerPending == []
  {
  }

  lemma TrafficKeepsGap(s: Session, e: TrafficEvent)
    requires Core(s) && QuietGap(s) && TrafficEnabled(s, e)
    ensures QuietGap(TrafficStep(s, e))
  {
    TrafficKeepsSteers(s, e);
  }

  lemma LifeKeepsGap(s: Session, e: LifeEvent)
    requires QuietGap(s) && LifeEnabled(s, e)
    ensures QuietGap(LifeStep(s, e))
  {
    LifeKeepsSteers(s, e);
  }

  lemma KeepsGap(s: Session, e: Event)
    requires Core(s) && SteerLine(s) && QuietGap(s) && Enabled(s, e) && InScope(s, e)
    ensures QuietGap(Step(s, e))
  {
    match e
    case Start(x) => StartKeepsGap(s, x);
    case Slot(x) => SlotKeepsGap(s, x);
    case Steering(x) => SteerKeepsGap(s, x);
    case End(x) => EndKeepsGap(s, x);
    case Traffic(x) => TrafficKeepsGap(s, x);
    case Life(x) => LifeKeepsGap(s, x);
  }

  // ---- whole runs ----

  lemma LaunchedHolds(s: Session)
    requires Launched(s)
    ensures Inv(s)
  {
    assert Line(s) == s.inner.queue;
    forall t: nat | t < s.accepted ensures t in Tickets(Line(s)) {
      assert s.inner.queue[t].ticket == t;
    }
  }

  lemma StepKeepsInv(s: Session, e: Event)
    requires Inv(s) && Enabled(s, e) && InScope(s, e)
    ensures Inv(Step(s, e))
  {
    KeepsCore(s, e);
    KeepsSteerLine(s, e);
    KeepsLedger(s, e);
    KeepsParked(s, e);
    KeepsArmed(s, e);
    KeepsSync(s, e);
    KeepsLine(s, e);
    KeepsGap(s, e);
  }

  lemma {:induction false} RunKeepsInv(s: Session, es: seq<Event>)
    requires Inv(s) && Allowed(s, es)
    ensures Inv(Run(s, es))
    decreases |es|
  {
    if es != [] {
      StepKeepsInv(s, es[0]);
      RunKeepsInv(Step(s, es[0]), es[1..]);
    }
  }

  lemma ScopedInv(s: Session)
    requires Scoped(s)
    ensures Inv(s)
  {
    var s0, es :| Launched(s0) && Allowed(s0, es) && Run(s0, es) == s;
    LaunchedHolds(s0);
    RunKeepsInv(s0, es);
  }

  // ---- single finisher ----

  /** An open turn has exactly one thing that will close it: its own prompt's task,
      its owning steer's claimed end, or the owning steer, still unanswered; on a
      closed session it may have none, and then it is stranded. */
  lemma OpenTurnHasOneCloser(s: Session)
    requires Scoped(s) && s.inner.current.Some?
    ensures var n := s.inner.current.value.n;
      || (s.inner.steerOwner.Some? && s.inner.steerOwner.value in Outstanding(s.inner)
          && s.inner.steerOwner.value in s.waiters && NoFinisher(s))
      || (s.inner.steerOwner.None? && Finishers(s, n) == 1 && forall m: nat :: m != n ==> Finishers(s, m) == 0)
      || Stranded(s, n)
  {
    ScopedInv(s);
    var n := s.inner.current.value.n;
    if !NoFinisher(s) {
      var m: nat :| Finishers(s, m) != 0;
      assert m == n;
    }
  }

  /** The settled turn as its end leaves it. */
  ghost predicate EndedAs(open: Turn, settled: Turn, outcome: PromptOutcome) {
    && settled == open.(stopReason := settled.stopReason, rateLimited := settled.rateLimited, steers := settled.steers)
    && settled.stopReason == (if outcome.Stopped? then Some(outcome.stop) else None)
    && settled.rateLimited == outcome.LimitHit?
  }

  /** A turn's end leaves every settled turn as it was, steer outcomes aside, and
      settles the open one, if any, under the outcome it was given. */
  ghost predicate SettledUnder(i: Inner, j: Inner, outcome: PromptOutcome) {
    && j.current.None?
    && |j.turns| == |i.turns| + (if i.current.Some? then 1 else 0)
    && (forall k :: 0 <= k < |i.turns| ==> j.turns[k] == i.turns[k].(steers := j.turns[k].steers))
    && (i.current.Some? ==>
          && EndedAs(i.current.value, j.turns[|i.turns|], outcome)
          && j.recording == Some(i.current.value.n))
  }

  lemma EndSettlesUnder(i: Inner, sem: SteerSemantics, outcome: PromptOutcome, superseded: bool, now: int)
    requires Numbered(i)
    ensures SettledUnder(i, EndTurnWith(i, sem, outcome, superseded, now).inner, outcome)
  {
    var stop := if outcome.Stopped? then Some(outcome.stop) else None;
    var pushed := PushCurrent(i, stop, outcome.LimitHit?);
    assert SettledUnder(i, pushed, outcome);
    FoldFrame(pushed, sem);
    var j := FoldPendingSteers(pushed, sem);
    assert SettledUnder(i, j, outcome);
    var e := EndTurnWith(i, sem, outcome, superseded, now).inner;
    assert e.turns == j.turns && e.current == j.current && e.recording == j.recording;
  }

  /** `finish_turn(n)` settles turn `n`, with its own stop record, and no other; on
      a session whose agent is gone it may find nothing left to settle. */
  lemma FinishEndsItsOwnTurn(s: Session, now: int)
    requires Scoped(s) && s.wire.Finishing?
    ensures SettledUnder(s.inner, StepSettle(s, now).inner, s.wire.outcome)
    ensures if s.inner.current.Some? then s.inner.current.value.n == s.wire.n else !s.connected
  {
    ScopedInv(s);
    assert Finishers(s, s.wire.n) > 0;
    EndSettlesUnder(s.inner, s.sem, s.wire.outcome, s.superseded, now);
  }

  // ---- status ----

  /** A running session has a start to measure from. */
  lemma RunningHasStart(s: Session)
    requires Scoped(s) && Busy(s.inner.status)
    ensures s.inner.current.Some? || (s.inner.status.Running? && s.inner.pendingStart.Some?)
  {
    ScopedInv(s);
  }

  // ---- the queue ----

  /** Every accepted prompt is in exactly one of: started, holding the slot, queued,
      dropped; and the started ones started in acceptance order, before every
      prompt still waiting. */
  lemma QueuedExactlyOnce(s: Session)
    requires Scoped(s)
    ensures forall t: nat :: t < s.accepted <==>
      t in Tickets(s.started) + Tickets(SlotPrompts(s)) + Tickets(s.inner.queue) + s.dropped
    ensures Tickets(s.started) !! Tickets(SlotPrompts(s)) !! Tickets(s.inner.queue) !! s.dropped
    ensures |SlotPrompts(s)| <= 1
    ensures InOrder(s.started + SlotPrompts(s) + s.inner.queue)
  {
    ScopedInv(s);
    SplitOrder(s.started, SlotPrompts(s), s.inner.queue);
    SlotIsSmall(s);
  }

  /** The tickets the steps of a run give up. */
  ghost function GivenUpOver(s: Session, es: seq<Event>): set<nat>
    requires Possible(s, es)
    decreases |es|
  {
    if es == [] then {} else Tickets(GivenUp(s, es[0])) + GivenUpOver(Step(s, es[0]), es[1..])
  }

  /** No prompt is lost: over every run in scope, the dropped prompts are exactly the
      ones its steps gave up. */
  lemma DroppedWasGivenUp(s0: Session, es: seq<Event>)
    requires Launched(s0) && Allowed(s0, es)
    ensures Run(s0, es).dropped == GivenUpOver(s0, es)
  {
    LaunchedHolds(s0);
    RunDropsGivenUp(s0, es);
  }

  lemma {:induction false} RunDropsGivenUp(s: Session, es: seq<Event>)
    requires Inv(s) && Allowed(s, es)
    ensures Run(s, es).dropped == s.dropped + GivenUpOver(s, es)
    decreases |es|
  {
    if es != [] {
      StepKeepsInv(s, es[0]);
      DropsOnlyGivenUp(s, es[0]);
      RunDropsGivenUp(Step(s, es[0]), es[1..]);
    }
  }

  /** The parts of an ordered line share no ticket. */
  lemma SplitOrder(a: seq<Prompt>, b: seq<Prompt>, c: seq<Prompt>)
    requires InOrder(a + b + c)
    ensures Tickets(a + b + c) == Tickets(a) + Tickets(b) + Tickets(c)
    ensures Tickets(a) !! Tickets(b) !! Tickets(c)
  {
    TicketsOf(a + b, c);
    TicketsOf(a, b);
    assert a + b + c + [] == a + b + c;
    CutOrder(a + b, c, []);
    CutOrder(a, b, c);
    TicketsOf(a, c);
    assert a + b + [] == a + b;
    CutOrder(a, b, []);
  }

  lemma SlotIsSmall(s: Session)
    requires Reservations(s) <= 1
    ensures |SlotPrompts(s)| <= 1
  {
    if s.hands != [] {
      assert s.hands == [s.hands[0]];
      OneHand(s.hands[0]);
    }
  }

  /** While a popped prompt or a resume holds the slot, the chained gate stays open:
      only the agent's exit or a close can shut it. */
  lemma ReservedGateStands(s: Session, e: Event)
    requires Scoped(s) && Reservations(s) == 1 && ChainedGate(s.inner)
    requires Enabled(s, e) && InScope(s, e) && !EndsSession(e)
    ensures Reservations(Step(s, e)) == 1 ==> ChainedGate(Step(s, e).inner)
  {
    ScopedInv(s);
    KeepsCore(s, e);
    StaysUp(s, e);
  }

  /** Only its end exits or closes a session. */
  lemma StaysUp(s: Session, e: Event)
    requires !s.inner.status.Exited? && Enabled(s, e) && !EndsSession(e)
    ensures Up(s, Step(s, e))
  {
    match e
    case Start(x) => StartStaysUp(s, x);
    case Slot(x) => SlotStaysUp(s, x);
    case Steering(x) => SteerStaysUp(s, x);
    case End(x) => EndStaysUp(s, x);
    case Traffic(x) => TrafficStaysUp(s, x);
    case Life(x) => LifeStaysUp(s, x);
  }

  ghost predicate Up(s: Session, t: Session) {
    t.closed == s.closed && !t.inner.status.Exited?
  }

  lemma StartStaysUp(s: Session, e: StartEvent)
    requires !s.inner.status.Exited? && StartEnabled(s, e)
    ensures Up(s, StartStep(s, e))
  {
    StartForms(s, e);
    if !e.BeginWire? && !e.BeginAbort? { FormStaysUp(s, e, StartStep(s, e)); }
  }

  lemma FormStaysUp(s: Session, e: StartEvent, t: Session)
    requires !s.inner.status.Exited? && !e.BeginWire? && !e.BeginAbort? && StartedOrRefused(s, e, t)
    ensures Up(s, t)
  {
  }

  lemma SlotStaysUp(s: Session, e: SlotEvent)
    requires !s.inner.status.Exited? && SlotEnabled(s, e)
    ensures Up(s, SlotStep(s, e))
  {
  }

  lemma SteerStaysUp(s: Session, e: SteerEvent)
    requires !s.inner.status.Exited? && SteerEnabled(s, e)
    ensures Up(s, SteerStep(s, e))
  {
    if e.SteerResolved? { ResolveFrame(s.inner, e.id, s.waiters[e.id], e.answer, s.superseded, e.now); }
  }

  lemma EndStaysUp(s: Session, e: EndEvent)
    requires !s.inner.status.Exited? && EndEnabled(s, e)
    ensures Up(s, EndStep(s, e))
  {
    if e.Settle? { EndFrame(s.inner, s.sem, s.wire.outcome, s.superseded, e.now); }
  }

  lemma TrafficStaysUp(s: Session, e: TrafficEvent)
    requires !s.inner.status.Exited? && TrafficEnabled(s, e)
    ensures Up(s, TrafficStep(s, e))
  {
  }

  lemma LifeStaysUp(s: Session, e: LifeEvent)
    requires !s.inner.status.Exited? && LifeEnabled(s, e) && !e.AgentExit? && !e.CloseSection?
    ensures Up(s, LifeStep(s, e))
  {
  }

  /** A reserved slot opens onto the turn: the prompt it holds starts. */
  lemma ReservedPromptStarts(s: Session, now: int)
    requires Scoped(s) && s.wire.Chained? && s.live && !s.closed && !s.inner.status.Exited?
    ensures var t := StepChainStart(s, now);
      t.started == s.started + [s.wire.prompt] && t.wire == Starting(NextTurnNumber(s.inner))
      && t.inner.current == Some(NewTurn(NextTurnNumber(s.inner), now))
  {
    ScopedInv(s);
  }

  // ---- parked sessions ----

  /** The resume of a parked, open session never meets an empty queue. */
  lemma ParkedIsRunnable(s: Session, now: int)
    requires Scoped(s)
    ensures s.inner.status.RateLimited? && s.closing.None? ==> SlotEnabled(s, ReserveSlot(now))
    ensures s.entry.Some? && s.entry.value.parked.Some? && s.entry.value.parked.value.plan.Queue? ==>
      s.entry.value.parked.value.queued != []
  {
    ScopedInv(s);
  }

  /** Over every run in scope that clears no parked session's flag, every open parked
      session in the registry has its record, there or on its way. */
  lemma {:induction false} ParkedIsRecorded(s: Session, es: seq<Event>)
    requires Inv(s) && Recorded(s) && Allowed(s, es)
    requires forall k :: 0 <= k < |es| ==> es[k] != Life(Unschedule)
    ensures Recorded(Run(s, es)) && InSync(Run(s, es))
    decreases |es|
  {
    if es != [] {
      StepKeepsInv(s, es[0]);
      KeepsRecordedIff(s, es[0]);
      ParkedIsRecorded(Step(s, es[0]), es[1..]);
    }
  }

  // ---- the closer of a closed session's turn ----

  /** A close leaves an open turn something that will close it if and only if no steer
      owned it. */
  lemma CloseKeepsCloserIff(s: Session)
    requires Scoped(s) && !s.closed && s.closing == Some(Ending) && s.inner.current.Some?
    ensures !NoFinisher(LifeStep(s, CloseSection)) <==> s.inner.steerOwner.None?
    ensures LifeStep(s, CloseSection).inner.current == s.inner.current
  {
    ScopedInv(s);
    SameFinishers(s, LifeStep(s, CloseSection));
  }

  /** An open turn of a closed session that nothing will close. */
  ghost predicate Stranded(s: Session, n: nat) {
    s.closed && s.inner.current.Some? && s.inner.current.value.n == n && NoFinisher(s) && s.inner.steerOwner.None?
  }

  /** Nothing is under way that could start or end a turn of it. */
  lemma StrandedIsIdle(s: Session, n: nat)
    requires Core(s) && Stranded(s, n)
    ensures !s.wire.Starting? && !s.wire.Finishing? && !s.wire.Chained? && !s.wire.Resuming? && s.closing.Some?
    ensures forall m: nat :: m !in s.turnTasks && ClaimsOn(s, m) == []
  {
    assert WireTurn(s.wire).Some? ==> Finishers(s, WireTurn(s.wire).value) > 0;
    forall m: nat ensures m !in s.turnTasks && ClaimsOn(s, m) == [] { assert Finishers(s, m) == 0; }
  }

  /** A step keeps a stranded turn as it is, unless the agent dies with it. */
  lemma StrandedStep(s: Session, e: Event, n: nat)
    requires Core(s) && Stranded(s, n) && Enabled(s, e) && e != Life(AgentExit(false))
    ensures Stranded(Step(s, e), n)
  {
    match e
    case Start(x) => StrandedStart(s, x, n);
    case Slot(x) => StrandedSlot(s, x, n);
    case Steering(x) => StrandedSteer(s, x, n);
    case End(x) => StrandedEnd(s, x, n);
    case Traffic(x) => StrandedTraffic(s, x, n);
    case Life(x) => StrandedLife(s, x, n);
  }

  lemma StrandedStart(s: Session, e: StartEvent, n: nat)
    requires Core(s) && Stranded(s, n)
    ensures !StartEnabled(s, e)
  {
    StrandedIsIdle(s, n);
  }

  lemma StrandedSlot(s: Session, e: SlotEvent, n: nat)
    requires Core(s) && Stranded(s, n) && SlotEnabled(s, e)
    ensures Stranded(SlotStep(s, e), n)
  {
    StrandedIsIdle(s, n);
    SameFinishers(s, SlotStep(s, e));
  }

  lemma StrandedEnd(s: Session, e: EndEvent, n: nat)
    requires Core(s) && Stranded(s, n) && EndEnabled(s, e)
    ensures Stranded(EndStep(s, e), n)
  {
    StrandedIsIdle(s, n);
    SameFinishers(s, EndStep(s, e));
  }

  lemma StrandedLife(s: Session, e: LifeEvent, n: nat)
    requires Stranded(s, n) && LifeEnabled(s, e) && e != AgentExit(false)
    ensures Stranded(LifeStep(s, e), n)
  {
    SameFinishers(s, LifeStep(s, e));
  }

  lemma StrandedSteer(s: Session, e: SteerEvent, n: nat)
    requires Core(s) && Stranded(s, n) && SteerEnabled(s, e)
    ensures Stranded(SteerStep(s, e), n)
  {
    if e.SteerResolved? {
      ResolveFrame(s.inner, e.id, s.waiters[e.id], e.answer, s.superseded, e.now);
    }
    SameFinishers(s, SteerStep(s, e));
  }

  lemma StrandedTraffic(s: Session, e: TrafficEvent, n: nat)
    requires Core(s) && Stranded(s, n) && TrafficEnabled(s, e)
    ensures Stranded(TrafficStep(s, e), n)
  {
    SameFinishers(s, TrafficStep(s, e));
  }

  /** A stranded turn never ends: over every run it stays open as it is, until its
      agent's death discards it. */
  lemma {:induction false} StrandedForGood(s: Session, es: seq<Event>, n: nat)
    requires Inv(s) && Stranded(s, n) && Allowed(s, es)
    requires forall k :: 0 <= k < |es| ==> es[k] != Life(AgentExit(false))
    ensures Stranded(Run(s, es), n)
    decreases |es|
  {
    if es != [] {
      StepKeepsInv(s, es[0]);
      StrandedStep(s, es[0], n);
      StrandedForGood(Step(s, es[0]), es[1..], n);
    }
  }
}
