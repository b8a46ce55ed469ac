/** What every run the code lets happen keeps, whatever the agent and the clients do:
    turn numbers, steer order and outcomes, and the registry's count. */
module AnyRun {
  import opened Common
  import opened SessionState
  import opened TurnMachine
  import opened TurnInvariant
  import opened TurnSteers
  import opened SteerEnds
  import opened TurnRecords

  ghost predicate Base(s: Session) {
    Numbered(s.inner) && SteerLine(s) && Ledger(s)
  }

  // ---- numbers ----

  lemma NumbersStand(i: Inner, j: Inner)
    requires Numbered(i) && j.turns == i.turns && j.turnOffset == i.turnOffset
    requires j.current.Some? ==>
      && i.current.Some? && j.current.value.n == i.current.value.n && j.current.value.startedAt.Some?
      && j.current.value.stopReason.None? && !j.current.value.rateLimited
    ensures Numbered(j)
  {
  }

  lemma FormKeepsNumbers(s: Session, e: StartEvent, t: Session)
    requires Numbered(s.inner) && !e.BeginWire? && !e.BeginAbort? && StartedOrRefused(s, e, t)
    ensures Numbered(t.inner)
  {
  }

  lemma StartKeepsNumbers(s: Session, e: StartEvent)
    requires Numbered(s.inner) && StartEnabled(s, e)
    ensures Numbered(StartStep(s, e).inner)
  {
    StartForms(s, e);
    if !e.BeginWire? && !e.BeginAbort? { FormKeepsNumbers(s, e, StartStep(s, e)); }
  }

  lemma SlotKeepsNumbers(s: Session, e: SlotEvent)
    requires Numbered(s.inner) && SlotEnabled(s, e)
    ensures Numbered(SlotStep(s, e).inner)
  {
    match e
    case ReserveSlot(now) => NumbersStand(s.inner, StepReserve(s, now).inner);
    case HandLock(k) => NumbersStand(s.inner, StepHandLock(s, k).inner);
    case _ =>
  }

  lemma SteerKeepsNumbers(s: Session, e: SteerEvent)
    requires Numbered(s.inner) && SteerEnabled(s, e)
    ensures Numbered(SteerStep(s, e).inner)
  {
    if e.SteerResolved? {
      ResolveFrame(s.inner, e.id, s.waiters[e.id], e.answer, s.superseded, e.now);
    }
  }

  lemma EndKeepsNumbers(s: Session, e: EndEvent)
    requires Numbered(s.inner) && EndEnabled(s, e)
    ensures Numbered(EndStep(s, e).inner)
  {
    if e.Settle? { EndFrame(s.inner, s.sem, s.wire.outcome, s.superseded, e.now); }
  }

  lemma TrafficKeepsNumbers(s: Session, e: TrafficEvent)
    requires Numbered(s.inner) && TrafficEnabled(s, e)
    ensures Numbered(TrafficStep(s, e).inner)
  {
    match e
    case See(u, now) =>
    case _ => NumbersStand(s.inner, TrafficStep(s, e).inner);
  }

  lemma LifeKeepsNumbers(s: Session, e: LifeEvent)
    requires Numbered(s.inner) && LifeEnabled(s, e)
    ensures Numbered(LifeStep(s, e).inner)
  {
    match e
    case CloseSection => NumbersStand(s.inner, CloseSub(s.inner));
    case AgentExit(_) => NumbersStand(s.inner, Disconnect(s.inner));
    case _ =>
  }

  lemma KeepsNumbers(s: Session, e: Event)
    requires Numbered(s.inner) && Enabled(s, e)
    ensures Numbered(Step(s, e).inner)
  {
    match e
    case Start(x) => StartKeepsNumbers(s, x);
    case Slot(x) => SlotKeepsNumbers(s, x);
    case Steering(x) => SteerKeepsNumbers(s, x);
    case End(x) => EndKeepsNumbers(s, x);
    case Traffic(x) => TrafficKeepsNumbers(s, x);
    case Life(x) => LifeKeepsNumbers(s, x);
  }

  // ---- whole runs ----

  lemma StepKeepsBase(s: Session, e: Event)
    requires Base(s) && Enabled(s, e)
    ensures Base(Step(s, e))
  {
    KeepsNumbers(s, e);
    KeepsSteerLine(s, e);
    KeepsLedger(s, e);
  }

  lemma {:induction false} RunKeepsBase(s: Session, es: seq<Event>)
    requires Base(s) && Possible(s, es)
    ensures Base(Run(s, es)) && (Durable(s) ==> Durable(Run(s, es)))
    decreases |es|
  {
    if es != [] {
      if Durable(s) { KeepsDurable(s, es[0]); }
      StepKeepsBase(s, es[0]);
      RunKeepsBase(Step(s, es[0]), es[1..]);
    }
  }

  lemma LaunchedBase(s: Session)
    requires Launched(s)
    ensures Base(s) && (Counted(s) <==> Durable(s))
  {
  }

  lemma ReachableBase(s: Session)
    requires Reachable(s)
    ensures Base(s)
  {
    var s0, es :| Launched(s0) && Possible(s0, es) && Run(s0, es) == s;
    LaunchedBase(s0);
    RunKeepsBase(s0, es);
  }

  lemma CountedIsDurable(s: Session)
    requires ReachableCounted(s)
    ensures Base(s) && Durable(s)
  {
    var s0, es :| Launched(s0) && Counted(s0) && Possible(s0, es) && Run(s0, es) == s;
    LaunchedBase(s0);
    RunKeepsBase(s0, es);
  }

  // ---- turn numbers ----

  /** From the `m`-th on, settled turns stand where their numbers put them. */
  ghost predicate InPlaceFrom(i: Inner, m: nat) {
    forall k :: m <= k < |i.turns| ==> i.turns[k].n == i.turnOffset + k + 1
  }

  /** Settled turns keep their places and numbers; at most one settles, the open one. */
  ghost predicate KeepsPlaces(i: Inner, j: Inner) {
    && j.turnOffset == i.turnOffset && |i.turns| <= |j.turns| <= |i.turns| + 1
    && (forall k :: 0 <= k < |i.turns| ==> j.turns[k].n == i.turns[k].n)
    && (|j.turns| > |i.turns| ==> i.current.Some? && j.turns[|i.turns|].n == i.current.value.n)
  }

  lemma StepKeepsPlaces(s: Session, e: Event)
    requires Enabled(s, e)
    ensures KeepsPlaces(s.inner, Step(s, e).inner)
  {
    match e
    case Start(x) => StartCounts(s, x);
    case Slot(x) => SlotCounts(s, x);
    case Steering(x) => SteerCounts(s, x);
    case End(x) => EndKeepsPlaces(s, x);
    case Traffic(x) => TrafficCounts(s, x);
    case Life(x) => LifeCounts(s, x);
  }

  lemma EndKeepsPlaces(s: Session, e: EndEvent)
    requires EndEnabled(s, e)
    ensures KeepsPlaces(s.inner, EndStep(s, e).inner)
  {
    if e.Settle? { EndFrame(s.inner, s.sem, s.wire.outcome, s.superseded, e.now); }
  }

  /** The same over many steps, the later turns in place. */
  ghost predicate GrewInPlace(i: Inner, j: Inner, m: nat) {
    && j.turnOffset == i.turnOffset && |i.turns| <= |j.turns| && InPlaceFrom(j, m)
    && (forall k :: 0 <= k < |i.turns| ==> j.turns[k].n == i.turns[k].n)
  }

  lemma OneStepInPlace(i: Inner, j: Inner, m: nat)
    requires Numbered(i) && m <= |i.turns| && InPlaceFrom(i, m) && KeepsPlaces(i, j)
    ensures GrewInPlace(i, j, m)
  {
  }

  lemma StepsInPlace(i: Inner, j: Inner, l: Inner, m: nat)
    requires GrewInPlace(i, j, m) && GrewInPlace(j, l, m)
    ensures GrewInPlace(i, l, m)
  {
    forall k | 0 <= k < |i.turns| ensures l.turns[k].n == i.turns[k].n { assert j.turns[k].n == i.turns[k].n; }
  }

  lemma {:induction false} RunKeepsPlaces(s: Session, es: seq<Event>, m: nat)
    requires Base(s) && Possible(s, es) && m <= |s.inner.turns| && InPlaceFrom(s.inner, m)
    ensures GrewInPlace(s.inner, Run(s, es).inner, m)
    decreases |es|
  {
    if es != [] {
      var t := Step(s, es[0]);
      StepKeepsBase(s, es[0]);
      StepKeepsPlaces(s, es[0]);
      OneStepInPlace(s.inner, t.inner, m);
      RunKeepsPlaces(t, es[1..], m);
      StepsInPlace(s.inner, t.inner, Run(t, es[1..]).inner, m);
    }
  }

  /** Over every run, restored turns keep their numbers, those settled since are
      numbered without gaps from the count at launch, and whatever path stamps it, a
      turn takes the number predicted for it. */
  lemma NumbersAreContiguous(s0: Session, es: seq<Event>)
    requires Launched(s0) && Possible(s0, es)
    ensures var i, restored := Run(s0, es).inner, s0.inner.turns;
      && |restored| <= |i.turns| && (forall k :: 0 <= k < |restored| ==> i.turns[k].n == restored[k].n)
      && forall k :: |restored| <= k < |i.turns| ==> i.turns[k].n == SettledCount(s0.inner) + (k - |restored|) + 1
    ensures var s := Run(s0, es);
      && (s.inner.current.Some? ==> s.inner.current.value.n == NextTurnNumber(s.inner))
      && forall e :: Enabled(s, e) && s.inner.current.None? && Step(s, e).inner.current.Some? ==>
           Step(s, e).inner.current.value.n == NextTurnNumber(s.inner)
  {
    LaunchedBase(s0);
    RunKeepsBase(s0, es);
    RunKeepsPlaces(s0, es, |s0.inner.turns|);
    var s := Run(s0, es);
    forall e | Enabled(s, e) && s.inner.current.None? && Step(s, e).inner.current.Some?
      ensures Step(s, e).inner.current.value.n == NextTurnNumber(s.inner)
    {
      OpensAsPredicted(s, e);
    }
  }

  lemma OpensAsPredicted(s: Session, e: Event)
    requires Numbered(s.inner) && Enabled(s, e) && Step(s, e).inner.current.Some?
    ensures Step(s, e).inner.current.value.n == NextTurnNumber(s.inner)
  {
    KeepsNumbers(s, e);
    OpeningSettlesNothing(s, e);
  }

  lemma OpeningSettlesNothing(s: Session, e: Event)
    requires Enabled(s, e) && Step(s, e).inner.current.Some?
    ensures SettledCount(Step(s, e).inner) == SettledCount(s.inner)
  {
    match e
    case Start(x) => StartCounts(s, x);
    case Slot(x) => SlotCounts(s, x);
    case Steering(x) => SteerCounts(s, x);
    case End(x) => OpenThroughEnd(s, x);
    case Traffic(x) => TrafficCounts(s, x);
    case Life(x) => LifeCounts(s, x);
  }

  lemma OpenThroughEnd(s: Session, e: EndEvent)
    requires EndEnabled(s, e) && EndStep(s, e).inner.current.Some?
    ensures SettledCount(EndStep(s, e).inner) == SettledCount(s.inner)
  {
    if e.Settle? { EndFrame(s.inner, s.sem, s.wire.outcome, s.superseded, e.now); }
  }

  // ---- durable ends ----

  /** The registry count trails the settled turns by exactly the one turn whose end
      is settled and not yet written. */
  lemma RegistryTrailsByTheRecording(s: Session)
    requires ReachableCounted(s) && s.entry.Some?
    ensures s.inner.recording.None? ==> s.entry.value.turns == SettledCount(s.inner)
    ensures s.inner.recording.Some? ==>
      && s.inner.recording == Some(SettledCount(s.inner))
      && SettledCount(s.inner) - 1 <= s.entry.value.turns <= SettledCount(s.inner)
  {
    CountedIsDurable(s);
  }

  /** The offset a launch gives the turns its transcript gave back. */
  function LaunchOffset(registered: nat, restored: nat): nat {
    if restored <= registered then registered - restored else 0
  }

  /** A transcript holding turns 1 to m restores turns no later than the count; in
      place if and only if the registry counts at most m turns, and all counted if and
      only if it counts at least m. */
  lemma RestoredTurnsIff(registered: nat, turns: seq<Turn>)
    requires turns != [] && forall k :: 0 <= k < |turns| ==> turns[k].n == k + 1
    ensures var offset := LaunchOffset(registered, |turns|);
      && (forall k :: 0 <= k < |turns| ==> turns[k].n <= offset + |turns|)
      && ((forall k :: 0 <= k < |turns| ==> turns[k].n == offset + k + 1) <==> registered <= |turns|)
      && (offset + |turns| == registered <==> |turns| <= registered)
  {
    if |turns| < registered {
      assert turns[0].n == 1;
    }
  }
}
