/** What a step leaves of the record: the status, the queue, the starts and the flags
    a caller reads, stated of the machine's steps. */
module StepEffects {
  import opened Common
  import opened SessionState
  import opened TurnMachine
  import opened TurnInvariant
  import opened TurnSteers
  import opened QueueOrder
  import opened TurnTheorems
  import SteerEnds
  import TurnData

  /** The clock a step reads. */
  function NowOf(e: Event): int {
    match e
    case Start(BeginCheck(now)) => now
    case Start(ChainStart(now)) => now
    case Start(ResumeStart(now, _)) => now
    case Start(KickQueue(now)) => now
    case Slot(ReserveSlot(now)) => now
    case Steering(SteerResolved(_, _, now)) => now
    case End(Settle(now)) => now
    case Traffic(See(_, now)) => now
    case _ => 0
  }

  // ---- a turn's end ----

  /** The queue chains: the turn stopped uncancelled, the daemon is not superseded, and
      no steer is left to answer. */
  predicate Chains(i: Inner, sem: SteerSemantics, outcome: PromptOutcome, superseded: bool) {
    && outcome.Stopped? && !outcome.stop.StopCancelled? && !i.status.Exited?
    && !superseded && i.queue != [] && (sem.FoldedSilently? || i.steerPending == [])
  }

  /** What a session reads after its turn's end. */
  function EndStatus(i: Inner, outcome: PromptOutcome, chains: bool): Status {
    if i.status.Exited? then i.status
    else
      match outcome
      case Errored(error) => Failed(error)
      case LimitHit(at, error) => RateLimited(at, error, Continue)
      case Stopped(StopCancelled) => Cancelled
      case Stopped(reason) => if chains then i.status else Done(reason)
  }

  /** The turn failed, or was cancelled with its agent alive. */
  predicate EndDropsQueue(i: Inner, outcome: PromptOutcome) {
    outcome.Errored? || (outcome == Stopped(StopCancelled) && !i.status.Exited?)
  }

  lemma EndTable(i: Inner, sem: SteerSemantics, outcome: PromptOutcome, superseded: bool, now: int)
    ensures var e, chains := EndTurnWith(i, sem, outcome, superseded, now), Chains(i, sem, outcome, superseded);
      && e.inner.status == EndStatus(i, outcome, chains)
      && e.next == (if chains then Some(i.queue[0]) else None)
      && e.inner.queue == (if chains then i.queue[1..] else if EndDropsQueue(i, outcome) then [] else i.queue)
      && e.inner.pendingStart ==
           (if chains then Some(now) else if outcome.LimitHit? then None else i.pendingStart)
  {
    match outcome
    case Stopped(reason) => StopLeaves(i, sem, reason, superseded, now);
    case Errored(_) => PushFrame(i, sem, None, false);
    case LimitHit(_, _) => PushFrame(i, sem, None, true);
  }

  /** What a turn's end leaves: the status its outcome names, and the queue chained,
      dropped or kept. */
  lemma EndLeaves(s: Session, now: int)
    requires s.wire.Finishing?
    ensures var t, chains := StepSettle(s, now), Chains(s.inner, s.sem, s.wire.outcome, s.superseded);
      && t.inner.status == EndStatus(s.inner, s.wire.outcome, chains)
      && t.wire == Settled(s.wire.n, s.wire.outcome, if chains then Some(s.inner.queue[0]) else None)
      && t.inner.queue ==
           (if chains then s.inner.queue[1..] else if EndDropsQueue(s.inner, s.wire.outcome) then [] else s.inner.queue)
      && t.inner.pendingStart ==
           (if chains then Some(now) else if s.wire.outcome.LimitHit? then None else s.inner.pendingStart)
  {
    EndTable(s.inner, s.sem, s.wire.outcome, s.superseded, now);
  }

  lemma StopLeaves(i: Inner, sem: SteerSemantics, reason: StopReason, superseded: bool, now: int)
    ensures var e := SettleTurn(i, sem, reason, superseded, now);
      var chains := !reason.StopCancelled? && !i.status.Exited? && !superseded && i.queue != []
                    && (sem.FoldedSilently? || i.steerPending == []);
      && e.inner.status == (if i.status.Exited? || chains then i.status
                            else if reason.StopCancelled? then Cancelled else Done(reason))
      && e.next == (if chains then Some(i.queue[0]) else None)
      && e.inner.queue == (if chains then i.queue[1..]
                           else if reason.StopCancelled? && !i.status.Exited? then [] else i.queue)
      && e.inner.pendingStart == (if chains then Some(now) else i.pendingStart)
  {
    PushFrame(i, sem, Some(reason), false);
    EndSteers(i, sem, Stopped(reason), superseded, now);
  }

  // ---- a steer's answer ----

  /** The answered steer owned the open turn and nobody takes it over. */
  predicate EndsTurn(s: Session, id: nat, answer: PromptOutcome, left: Inner) {
    s.inner.steerOwner == Some(id) && (answer.Stopped? || Outstanding(left) == [])
  }

  /** It was the last one the queue was held for. */
  predicate Kicks(s: Session, id: nat, answer: PromptOutcome, left: Inner) {
    && !EndsTurn(s, id, answer, left) && left.steerPending == []
    && s.inner.current.None? && AcceptsPrompt(s.inner.status) && !s.superseded && s.inner.queue != []
  }

  lemma AnswerLeaves(s: Session, id: nat, answer: PromptOutcome, now: int)
    requires id in s.waiters
    ensures var t := StepSteerResolved(s, id, answer, now);
      && t.waiters == s.waiters - {id}
      && t.inner.steerOwner == (if s.inner.steerOwner != Some(id) then s.inner.steerOwner
                                else if answer.Stopped? then None else OldestSteer(t.inner))
      && t.hands == s.hands + (if Kicks(s, id, answer, t.inner) then [Kick(s.inner.queue[0])] else [])
      && t.inner.queue == (if Kicks(s, id, answer, t.inner) then s.inner.queue[1..] else s.inner.queue)
      && t.inner.status == (if Kicks(s, id, answer, t.inner) then Running else s.inner.status)
      && t.inner.pendingStart == (if Kicks(s, id, answer, t.inner) then Some(now) else s.inner.pendingStart)
    ensures var t := StepSteerResolved(s, id, answer, now);
      var n := if s.inner.current.Some? then s.inner.current.value.n else s.waiters[id];
      forall m: nat ::
        ClaimsOn(t, m) == ClaimsOn(s, m) + if EndsTurn(s, id, answer, t.inner) && m == n then [answer] else []
  {
    ResolveFrame(s.inner, id, s.waiters[id], answer, s.superseded, now);
    ResolveSteers(s.inner, id, s.waiters[id], answer, s.superseded, now);
  }

  // ---- a turn's start ----

  /** A turn just opened: the next number, started at that time, empty, its prompt not on
      the wire; the session runs, with no start left pending. */
  ghost predicate OpenedAt(i: Inner, j: Inner, now: int) {
    && j.current == Some(Turn(NextTurnNumber(i), Some(now), TurnData.Data("", map[], None, [], None),
                              None, false, [], false, false))
    && j.status.Running? && j.pendingStart.None?
  }

  /** A turn opens on a prompt's stamp, or on traffic as the oldest outstanding steer's. */
  lemma OpensFresh(s: Session, e: Event)
    requires Enabled(s, e) && s.inner.current.None? && Step(s, e).inner.current.Some?
    ensures OpenedAt(s.inner, Step(s, e).inner, NowOf(e))
    ensures e.Start? || (e.Traffic? && e.traffic.See?)
    ensures Step(s, e).inner.steerOwner == if e.Start? then s.inner.steerOwner else OldestSteer(s.inner)
  {
    match e
    case Start(x) => StartOpens(s, x);
    case Slot(x) => SteerEnds.SlotStands(s, x);
    case Steering(x) => SteerOpensNothing(s, x);
    case End(x) => EndOpensNothing(s, x);
    case Traffic(x) => TrafficOpens(s, x);
    case Life(x) => LifeOpensNothing(s, x);
  }

  lemma StartOpens(s: Session, e: StartEvent)
    requires StartEnabled(s, e) && s.inner.current.None? && StartStep(s, e).inner.current.Some?
    ensures OpenedAt(s.inner, StartStep(s, e).inner, NowOf(Start(e)))
    ensures StartStep(s, e).inner.steerOwner == s.inner.steerOwner
  {
    StartForms(s, e);
    if !e.BeginWire? && !e.BeginAbort? { StampOpens(s, e, StartStep(s, e)); }
  }

  lemma StampOpens(s: Session, e: StartEvent, t: Session)
    requires !e.BeginWire? && !e.BeginAbort? && StartedOrRefused(s, e, t)
    requires s.inner.current.None? && t.inner.current.Some?
    ensures OpenedAt(s.inner, t.inner, e.now) && t.inner.steerOwner == s.inner.steerOwner
  {
  }

  lemma SteerOpensNothing(s: Session, e: SteerEvent)
    requires SteerEnabled(s, e) && s.inner.current.None?
    ensures SteerStep(s, e).inner.current.None?
  {
    if e.SteerResolved? {
      ResolveFrame(s.inner, e.id, s.waiters[e.id], e.answer, s.superseded, e.now);
    }
  }

  lemma EndOpensNothing(s: Session, e: EndEvent)
    requires EndEnabled(s, e) && s.inner.current.None?
    ensures EndStep(s, e).inner.current.None?
  {
    if e.Settle? { EndFrame(s.inner, s.sem, s.wire.outcome, s.superseded, e.now); }
  }

  lemma TrafficOpens(s: Session, e: TrafficEvent)
    requires TrafficEnabled(s, e) && s.inner.current.None? && TrafficStep(s, e).inner.current.Some?
    ensures e.See? && OpenedAt(s.inner, TrafficStep(s, e).inner, e.now)
    ensures TrafficStep(s, e).inner.steerOwner == OldestSteer(s.inner)
  {
  }

  lemma LifeOpensNothing(s: Session, e: LifeEvent)
    requires LifeEnabled(s, e) && s.inner.current.None?
    ensures LifeStep(s, e).inner.current.None?
  {
    match e
    case AgentExit(noticed) =>
    case _ => SteerEnds.LifeStands(s, e);
  }

  // ---- a slot reserved, and given back ----

  /** A slot is reserved with its start at that time, which a wait measures from. */
  lemma ReservesNow(s: Session, e: Event)
    requires Scoped(s) && Enabled(s, e) && InScope(s, e)
    requires Reservations(s) == 0 && Reservations(Step(s, e)) > 0
    ensures Step(s, e).inner.pendingStart == Some(NowOf(e)) && ChainedGate(Step(s, e).inner)
    ensures (e.Slot? && e.slot.ReserveSlot?) || (e.Steering? && e.steering.SteerResolved?) || (e.End? && e.end.Settle?)
  {
    ScopedInv(s);
    match e
    case Start(x) => StartReservesNothing(s, x);
    case Slot(x) => SlotReserves(s, x);
    case Steering(x) => AnswerReserves(s, x);
    case End(x) => EndReserves(s, x);
    case Traffic(x) => TrafficReservesNothing(s, x);
    case Life(x) => LifeReservesNothing(s, x);
  }

  lemma TrafficReservesNothing(s: Session, e: TrafficEvent)
    requires TrafficEnabled(s, e)
    ensures Reservations(TrafficStep(s, e)) == Reservations(s)
  {
  }

  lemma LifeReservesNothing(s: Session, e: LifeEvent)
    requires LifeEnabled(s, e)
    ensures Reservations(LifeStep(s, e)) == Reservations(s)
  {
  }

  lemma SlotReserves(s: Session, e: SlotEvent)
    requires Core(s) && SlotEnabled(s, e) && Reservations(s) == 0 && Reservations(SlotStep(s, e)) > 0
    ensures e.ReserveSlot? && SlotStep(s, e).inner.pendingStart == Some(e.now) && ChainedGate(SlotStep(s, e).inner)
  {
    match e
    case ReserveSlot(now) => ReserveKeepsCore(s, now);
    case _ =>
  }

  lemma AnswerReserves(s: Session, e: SteerEvent)
    requires SteerEnabled(s, e) && Reservations(s) == 0 && Reservations(SteerStep(s, e)) > 0
    ensures e.SteerResolved? && SteerStep(s, e).inner.pendingStart == Some(e.now) && ChainedGate(SteerStep(s, e).inner)
  {
    if e.SteerResolved? {
      AnswerLeaves(s, e.id, e.answer, e.now);
      ResolveFrame(s.inner, e.id, s.waiters[e.id], e.answer, s.superseded, e.now);
    }
  }

  lemma EndReserves(s: Session, e: EndEvent)
    requires Core(s) && EndEnabled(s, e) && (e.Settle? ==> !s.inner.status.NeedsPermission?)
    requires Reservations(s) == 0 && Reservations(EndStep(s, e)) > 0
    ensures e.Settle? && EndStep(s, e).inner.pendingStart == Some(e.now) && ChainedGate(EndStep(s, e).inner)
  {
    if e.Settle? {
      EndLeaves(s, e.now);
      EndKeepsCore(s, e);
      assert Finishers(s, s.wire.n) > 0;
      EndFrame(s.inner, s.sem, s.wire.outcome, s.superseded, e.now);
    }
  }

  lemma StartReservesNothing(s: Session, e: StartEvent)
    requires StartEnabled(s, e) && Reservations(s) == 0
    ensures Reservations(StartStep(s, e)) == 0
  {
    StartForms(s, e);
    if !e.BeginWire? && !e.BeginAbort? { FormReservesNothing(s, e, StartStep(s, e)); }
  }

  lemma FormReservesNothing(s: Session, e: StartEvent, t: Session)
    requires !e.BeginWire? && !e.BeginAbort? && StartedOrRefused(s, e, t) && Reservations(s) == 0
    ensures Reservations(t) == 0
  {
  }

  // ---- parks and refused starts ----

  /** A prompt that met a limit goes back to the queue's front, and the session parks for
      its queue, with a record that says so. */
  lemma ReparkLeaves(s: Session, at: int, limit: string)
    requires s.wire.Chained?
    ensures var t := StepChainRepark(s, at, limit);
      && t.inner.status == RateLimited(at, limit, Queue) && t.inner.pendingStart.None?
      && t.inner.queue == [s.wire.prompt] + s.inner.queue
      && t.wire == Parking(Park(at, limit, Queue, t.inner.queue))
  {
  }

  lemma KickReparkLeaves(s: Session, at: int, limit: string)
    requires s.inner.queue != []
    ensures var t := StepKickRepark(s, at, limit);
      && t.inner == s.inner.(status := RateLimited(at, limit, Queue), pendingStart := None)
      && (s.entry.Some? ==> t.entry == Some(s.entry.value.(parked := Some(Park(at, limit, Queue, s.inner.queue)))))
  {
    assert [s.inner.queue[0]] + s.inner.queue[1..] == s.inner.queue;
  }

  /** A start that fails leaves no open turn, and a living session failed with the reason. */
  lemma FailedStartLeaves(s: Session, reason: string)
    requires s.wire.Starting?
    ensures var t := StepBeginAbort(s, reason);
      && t.inner == s.inner.(current := None, status := t.inner.status) && t.wire.Free?
      && t.inner.status == if s.inner.status.Exited? then s.inner.status else Failed(reason)
  {
  }

  /** A resume whose gate is shut leaves the session failed with the refusal, unless it is
      over already. */
  lemma RefusedResumeLeaves(s: Session, now: int, refusal: string)
    requires s.wire.Resuming? && !ChainedGate(s.inner)
    ensures var t := StepResumeStart(s, now, refusal);
      && t.inner == s.inner.(pendingStart := None, status := t.inner.status) && t.wire.Free?
      && t.inner.status == if s.inner.status.Exited? || s.closing.Some? then s.inner.status else Failed(refusal)
  {
  }

  // ---- the session's end ----

  /** A close settles a busy or parked session as cancelled; the open turn stands. */
  lemma CloseLeaves(s: Session)
    requires LifeEnabled(s, CloseSection)
    ensures var t := LifeStep(s, CloseSection);
      && t.inner == s.inner.(status := t.inner.status, pending := [], queue := [],
                             steerPending := [], steerFolded := [], steerOwner := None)
      && t.inner.status ==
           match s.inner.status
           case Running => Cancelled
           case NeedsPermission => Cancelled
           case RateLimited(_, _, _) => Cancelled
           case _ => s.inner.status
  {
  }

  ghost predicate Contains(text: string, part: string) {
    exists k :: 0 <= k <= |text| && part <= text[k..]
  }

  /** An agent's death discards the open turn and all that waits; the exit names an earlier
      failure. */
  lemma DeathLeaves(s: Session)
    requires LifeEnabled(s, AgentExit(false))
    ensures var t := LifeStep(s, AgentExit(false));
      && t.inner == s.inner.(status := t.inner.status, pending := [], queue := [], current := None,
                             steerPending := [], steerFolded := [], steerOwner := None)
      && !t.connected && t.inner.status.Exited?
      && (s.inner.status.Failed? ==> Contains(t.inner.status.exitReason, s.inner.status.reason))
  {
    if s.inner.status.Failed? {
      var head, reason := EXIT_REASON + " (earlier failure: ", s.inner.status.reason;
      assert (head + reason + ")")[|head|..] == reason + ")";
      assert reason <= reason + ")";
    }
  }

  // ---- permission requests ----

  lemma RequestLeaves(s: Session, request: string)
    requires s.connected
    ensures TrafficStep(s, PermissionAsk(request)).inner ==
      s.inner.(pending := s.inner.pending + [request], status := NeedsPermission)
  {
  }

  /** The answered request leaves; the session goes on waiting while another stands, and
      runs on when none does. */
  lemma PermitLeaves(s: Session, k: nat)
    requires k < |s.inner.pending|
    ensures var j := TrafficStep(s, Permit(k)).inner;
      && j == s.inner.(pending := j.pending, status := j.status)
      && j.pending == s.inner.pending[..k] + s.inner.pending[k + 1..]
      && j.status == if s.inner.status.NeedsPermission? && |s.inner.pending| == 1 then Running else s.inner.status
  {
  }

  lemma WakeLeaves(s: Session)
    ensures TrafficStep(s, PermissionWake).inner ==
      if s.inner.status.NeedsPermission? && |s.inner.pending| == 0 then s.inner.(status := Running) else s.inner
  {
  }

  /** While a request stands, the session waits for it, unless a start failed to be logged
      over it. */
  ghost predicate Waits(s: Session) {
    !s.writeFailed && s.inner.pending != [] ==> s.inner.status.NeedsPermission?
  }

  lemma FormWaits(s: Session, e: StartEvent, t: Session)
    requires Core(s) && Waits(s) && StartEnabled(s, e)
    requires !e.BeginWire? && !e.BeginAbort? && StartedOrRefused(s, e, t)
    ensures Waits(t)
  {
  }

  lemma StartKeepsWaits(s: Session, e: StartEvent)
    requires Core(s) && Waits(s) && StartEnabled(s, e)
    ensures Waits(StartStep(s, e))
  {
    StartForms(s, e);
    if !e.BeginWire? && !e.BeginAbort? { FormWaits(s, e, StartStep(s, e)); }
  }

  lemma SlotKeepsWaits(s: Session, e: SlotEvent)
    requires Core(s) && Waits(s) && SlotEnabled(s, e)
    ensures Waits(SlotStep(s, e))
  {
  }

  lemma SteerKeepsWaits(s: Session, e: SteerEvent)
    requires Waits(s) && SteerEnabled(s, e)
    ensures Waits(SteerStep(s, e))
  {
    if e.SteerResolved? {
      var left, end := SteerEnds.ResolveIsRecord(s.inner, e.id, s.waiters[e.id], e.answer, s.superseded, e.now);
      RecordFrame(left, e.id, s.waiters[e.id], end);
      ResolveFrame(s.inner, e.id, s.waiters[e.id], e.answer, s.superseded, e.now);
    }
  }

  lemma EndKeepsWaits(s: Session, e: EndEvent)
    requires Waits(s) && EndEnabled(s, e) && (e.Settle? ==> !s.inner.status.NeedsPermission?)
    ensures Waits(EndStep(s, e))
  {
    if e.Settle? { EndKeepsRequests(s.inner, s.sem, s.wire.outcome, s.superseded, e.now); }
  }

  lemma EndKeepsRequests(i: Inner, sem: SteerSemantics, outcome: PromptOutcome, superseded: bool, now: int)
    ensures EndTurnWith(i, sem, outcome, superseded, now).inner.pending == i.pending
  {
    var stop := if outcome.Stopped? then Some(outcome.stop) else None;
    FoldFrame(PushCurrent(i, stop, outcome.LimitHit?), sem);
  }

  lemma TrafficKeepsWaits(s: Session, e: TrafficEvent)
    requires Core(s) && Waits(s) && TrafficEnabled(s, e)
    ensures Waits(TrafficStep(s, e))
  {
  }

  lemma LifeKeepsWaits(s: Session, e: LifeEvent)
    requires Waits(s) && LifeEnabled(s, e)
    ensures Waits(LifeStep(s, e))
  {
  }

  /** Over every run in scope, a session with a request standing waits for it. */
  lemma {:induction false} RequestsAreWaitedFor(s: Session, es: seq<Event>)
    requires Inv(s) && Waits(s) && Allowed(s, es)
    ensures Waits(Run(s, es))
    decreases |es|
  {
    if es != [] {
      StepKeepsInv(s, es[0]);
      match es[0] {
        case Start(x) => StartKeepsWaits(s, x);
        case Slot(x) => SlotKeepsWaits(s, x);
        case Steering(x) => SteerKeepsWaits(s, x);
        case End(x) => EndKeepsWaits(s, x);
        case Traffic(x) => TrafficKeepsWaits(s, x);
        case Life(x) => LifeKeepsWaits(s, x);
      }
      RequestsAreWaitedFor(Step(s, es[0]), es[1..]);
    }
  }

  // ---- cancels ----

  /** A cancel drops the requests and the queue; of a turn whose prompt is not on the wire
      it is noted, to follow the prompt. */
  lemma CancelLeaves(s: Session)
    requires Busy(s.inner.status)
    ensures var j := TrafficStep(s, CancelCall).inner;
      && j == s.inner.(pending := [], queue := [], current := j.current)
      && (j.current.None? <==> s.inner.current.None?)
      && (j.current.Some? ==>
            var was := s.inner.current.value;
            j.current.value == was.(cancelRequested := was.cancelRequested || !was.onWire))
  {
  }

  lemma OnWireLeaves(s: Session)
    requires s.wire.Starting?
    ensures var t := StepBeginWire(s);
      && t.inner == s.inner.(current := t.inner.current)
      && (s.inner.current.Some? && s.inner.current.value.n == s.wire.n ==>
            t.inner.current == Some(s.inner.current.value.(onWire := true, cancelRequested := false)))
      && (!(s.inner.current.Some? && s.inner.current.value.n == s.wire.n) ==> t.inner.current == s.inner.current)
  {
  }

  // ---- who may act when ----

  /** A steer may be sent into any turn in flight, one waiting for a permission too. */
  lemma SteerGate(s: Session)
    ensures SteerEnabled(s, SteerLock) <==> s.wire.Free? && (s.inner.status.Running? || s.inner.status.NeedsPermission?)
  {
  }

  /** A resume consumes the flag it fires on. */
  lemma ResumeConsumesItsFlag(s: Session, k: nat)
    requires SlotEnabled(s, HandClear(k))
    ensures SlotStep(s, HandClear(k)).entry.Some? ==> SlotStep(s, HandClear(k)).entry.value.parked.None?
    ensures SlotStep(s, HandClear(k)).hands == s.hands[k := Resume(s.hands[k].first, true)]
  {
  }
}
