/** The send queue: every accepted prompt is in exactly one place, in acceptance
    order. */
module QueueOrder {
  import opened Common
  import opened SessionState
  import opened TurnMachine
  import opened TurnInvariant

  function HandPrompts(hands: seq<Hand>): seq<Prompt> {
    if hands == [] then []
    else (if hands[0].Kick? then [hands[0].prompt] else OptSeq(hands[0].first)) + HandPrompts(hands[1..])
  }

  /** The prompt that holds the reserved slot, in its task's hands. */
  function SlotPrompts(s: Session): seq<Prompt> {
    HandPrompts(s.hands) + OptSeq(WireNext(s.wire))
  }

  /** Started, holding the slot, still queued: all accepted prompts but the dropped. */
  function Line(s: Session): seq<Prompt> {
    s.started + SlotPrompts(s) + s.inner.queue
  }

  ghost predicate InOrder(ps: seq<Prompt>) {
    forall j, k :: 0 <= j < k < |ps| ==> ps[j].ticket < ps[k].ticket
  }

  /** Exactly once, and first come first served. */
  ghost predicate QueueLine(s: Session) {
    && InOrder(Line(s))
    && Tickets(Line(s)) !! s.dropped
    && (forall t: nat :: t < s.accepted <==> t in Tickets(Line(s)) || t in s.dropped)
  }

  /** The prompts a step gives up: the queue, when the session ends, the turn is
      cancelled or fails; the slot's, when the session is over before it starts. */
  function GivenUp(s: Session, e: Event): seq<Prompt>
    requires Enabled(s, e)
  {
    match e
    case Life(CloseSection) => s.inner.queue
    case Life(AgentExit(noticed)) => if noticed then [] else s.inner.queue
    case Traffic(CancelCall) => s.inner.queue
    case End(Settle(_)) => if EndsForQueue(s) then s.inner.queue else []
    case Start(ChainStart(_)) => if Over(s) || !s.live then [s.wire.prompt] else []
    case Start(ResumeStart(_, _)) => if Over(s) then OptSeq(s.wire.first) else []
    case _ => []
  }

  predicate Over(s: Session) {
    s.closed || s.inner.status.Exited?
  }

  /** The turn ends in an error, or cancelled with its agent alive. */
  predicate EndsForQueue(s: Session)
    requires s.wire.Finishing?
  {
    s.wire.outcome.Errored? || (s.wire.outcome == Stopped(StopCancelled) && !s.inner.status.Exited?)
  }

  // ---- moves within the line ----

  lemma TicketsOf(a: seq<Prompt>, b: seq<Prompt>)
    ensures Tickets(a + b) == Tickets(a) + Tickets(b)
  {
  }

  lemma SameLine(s: Session, t: Session)
    requires QueueLine(s) && Line(t) == Line(s) && t.dropped == s.dropped && t.accepted == s.accepted
    ensures QueueLine(t)
  {
  }

  /** What is left of an ordered line after a stretch is cut out. */
  lemma CutOrder(a: seq<Prompt>, gone: seq<Prompt>, b: seq<Prompt>)
    requires InOrder(a + gone + b)
    ensures InOrder(a + b) && Tickets(a + b) !! Tickets(gone)
    ensures Tickets(a + gone + b) == Tickets(a + b) + Tickets(gone)
  {
    var l, r := a + gone + b, a + b;
    forall k | 0 <= k < |r| ensures r[k] == l[if k < |a| then k else k + |gone|] {}
    forall m, k | 0 <= m < |gone| && 0 <= k < |r| ensures gone[m].ticket != r[k].ticket {
      assert l[|a| + m] == gone[m];
    }
    TicketsOf(a + gone, b);
    TicketsOf(a, gone);
    TicketsOf(a, b);
  }

  /** A stretch leaves the line for good. */
  lemma CutLine(s: Session, t: Session, a: seq<Prompt>, gone: seq<Prompt>, b: seq<Prompt>)
    requires QueueLine(s) && Line(s) == a + gone + b && Line(t) == a + b
    requires t.dropped == s.dropped + Tickets(gone) && t.accepted == s.accepted
    ensures QueueLine(t)
  {
    CutOrder(a, gone, b);
  }

  lemma OneHand(h: Hand)
    ensures HandPrompts([h]) == if h.Kick? then [h.prompt] else OptSeq(h.first)
  {
    assert [h][1..] == [];
  }

  lemma DropQueue(s: Session, t: Session)
    requires QueueLine(s) && t.started == s.started && SlotPrompts(t) == SlotPrompts(s) && t.inner.queue == []
    requires t.dropped == s.dropped + Tickets(s.inner.queue) && t.accepted == s.accepted
    ensures QueueLine(t)
  {
    var kept := s.started + SlotPrompts(s);
    assert Line(s) == kept + s.inner.queue + [] && Line(t) == kept + [];
    CutLine(s, t, kept, s.inner.queue, []);
  }

  lemma DropSlot(s: Session, t: Session, gone: seq<Prompt>)
    requires QueueLine(s) && t.started == s.started && SlotPrompts(s) == gone && SlotPrompts(t) == []
    requires t.inner.queue == s.inner.queue
    requires t.dropped == s.dropped + Tickets(gone) && t.accepted == s.accepted
    ensures QueueLine(t)
  {
    assert Line(s) == s.started + gone + s.inner.queue && Line(t) == s.started + s.inner.queue;
    CutLine(s, t, s.started, gone, s.inner.queue);
  }

  // ---- the three parts of the line ----

  lemma SlotStarts(a: seq<Prompt>, b: seq<Prompt>, c: seq<Prompt>)
    ensures (a + b) + [] + c == a + b + c
  {
  }

  lemma FrontMoves(a: seq<Prompt>, q: seq<Prompt>)
    requires q != []
    ensures a + [q[0]] + q[1..] == a + [] + q
  {
    assert q == [q[0]] + q[1..];
  }

  lemma FrontReturns(a: seq<Prompt>, p: Prompt, q: seq<Prompt>)
    ensures a + [] + ([p] + q) == a + [p] + q
  {
  }

  /** The queue's front takes the empty slot. */
  lemma PoppedLine(s: Session, t: Session)
    requires QueueLine(s) && t.started == s.started && t.dropped == s.dropped && t.accepted == s.accepted
    requires s.inner.queue != [] && SlotPrompts(s) == []
    requires SlotPrompts(t) == [s.inner.queue[0]] && t.inner.queue == s.inner.queue[1..]
    ensures QueueLine(t)
  {
    FrontMoves(s.started, s.inner.queue);
    SameLine(s, t);
  }

  // ---- the steps ----

  lemma AcceptKeepsLine(s: Session, text: string)
    requires QueueLine(s)
    ensures QueueLine(StepAccept(s, text))
  {
    var t := StepAccept(s, text);
    var l := Line(s);
    assert Line(t) == l + [Prompt(s.accepted, text)];
    TicketsOf(l, [Prompt(s.accepted, text)]);
    forall k | 0 <= k < |l| ensures l[k].ticket < s.accepted { assert l[k].ticket in Tickets(l); }
    assert s.accepted !in s.dropped;
  }

  /** A popped prompt on the wire has the slot to itself, and an open gate until the
      session is over. */
  lemma HeldSlot(s: Session)
    requires Core(s) && (s.wire.Chained? || s.wire.Resuming?)
    ensures s.hands == [] && (ChainedGate(s.inner) <==> !Over(s))
  {
    assert Reservations(s) == 1;
  }

  lemma ChainKeepsLine(s: Session, now: int)
    requires QueueLine(s) && s.wire.Chained? && s.hands == []
    ensures QueueLine(StepChainStart(s, now))
  {
    if s.live && ChainedGate(s.inner) {
      StampedSlot(s, StepChainStart(s, now), [s.wire.prompt]);
    } else {
      DropSlot(s, StepChainStart(s, now), [s.wire.prompt]);
    }
  }

  lemma ResumeKeepsLine(s: Session, now: int, refusal: string)
    requires QueueLine(s) && s.wire.Resuming? && s.hands == []
    ensures QueueLine(StepResumeStart(s, now, refusal))
  {
    if ChainedGate(s.inner) {
      StampedSlot(s, StepResumeStart(s, now, refusal), OptSeq(s.wire.first));
    } else {
      DropSlot(s, StepResumeRefused(s, refusal), OptSeq(s.wire.first));
    }
  }

  /** The slot's prompt starts. */
  lemma StampedSlot(s: Session, t: Session, slot: seq<Prompt>)
    requires QueueLine(s) && SlotPrompts(s) == slot && SlotPrompts(t) == []
    requires t.started == s.started + slot && t.inner.queue == s.inner.queue
    requires t.dropped == s.dropped && t.accepted == s.accepted
    ensures QueueLine(t)
  {
    SlotStarts(s.started, slot, s.inner.queue);
    SameLine(s, t);
  }

  lemma KickQueueKeepsLine(s: Session, now: int)
    requires QueueLine(s) && s.wire.Free? && s.hands == [] && s.inner.queue != []
    ensures QueueLine(StepKickQueue(s, now))
  {
    var t := StepKickQueue(s, now);
    assert SlotPrompts(s) == [] && SlotPrompts(t) == [];
    FrontMoves(s.started, s.inner.queue);
    SlotStarts(s.started, [s.inner.queue[0]], s.inner.queue[1..]);
    SameLine(s, t);
  }

  lemma StartKeepsLine(s: Session, e: StartEvent)
    requires Core(s) && QueueLine(s) && StartEnabled(s, e)
    ensures QueueLine(StartStep(s, e))
  {
    match e
    case ChainStart(now) => HeldSlot(s); ChainKeepsLine(s, now);
    case ResumeStart(now, refusal) => HeldSlot(s); ResumeKeepsLine(s, now, refusal);
    case KickQueue(now) =>
      CheckBeginKeepsCore(s, now);
      assert s.hands == [];
      KickQueueKeepsLine(s, now);
    case _ => SameLine(s, StartStep(s, e));
  }

  lemma ChainReparkKeepsLine(s: Session, at: int, limit: string)
    requires Core(s) && QueueLine(s) && s.wire.Chained?
    ensures QueueLine(StepChainRepark(s, at, limit))
  {
    var t := StepChainRepark(s, at, limit);
    assert s.hands == [];
    assert SlotPrompts(s) == [s.wire.prompt] && SlotPrompts(t) == [];
    FrontReturns(s.started, s.wire.prompt, s.inner.queue);
    SameLine(s, t);
  }

  lemma ReserveKeepsLine(s: Session, now: int)
    requires Core(s) && QueueLine(s) && SlotEnabled(s, ReserveSlot(now))
    ensures QueueLine(StepReserve(s, now))
  {
    var t := StepReserve(s, now);
    ReserveKeepsCore(s, now);
    assert s.hands == [] && t.hands == [t.hands[0]];
    OneHand(t.hands[0]);
    assert SlotPrompts(s) == [] && SlotPrompts(t) == OptSeq(t.hands[0].first);
    if t.hands[0].first.Some? { PoppedLine(s, t); } else { SameLine(s, t); }
  }

  lemma HandClearKeepsLine(s: Session, k: nat)
    requires Core(s) && QueueLine(s) && k < |s.hands| && s.hands[k].Resume?
    ensures QueueLine(StepHandClear(s, k))
  {
    var t := StepHandClear(s, k);
    assert s.hands == [s.hands[k]] && t.hands == [t.hands[k]];
    OneHand(s.hands[k]);
    OneHand(t.hands[k]);
    SameLine(s, t);
  }

  lemma HandLockKeepsLine(s: Session, k: nat)
    requires Core(s) && QueueLine(s) && k < |s.hands| && s.wire.Free?
    ensures QueueLine(StepHandLock(s, k))
  {
    var t := StepHandLock(s, k);
    assert s.hands == [s.hands[k]] && t.hands == [];
    OneHand(s.hands[k]);
    assert SlotPrompts(t) == SlotPrompts(s);
    SameLine(s, t);
  }

  lemma SlotKeepsLine(s: Session, e: SlotEvent)
    requires Core(s) && QueueLine(s) && SlotEnabled(s, e)
    ensures QueueLine(SlotStep(s, e))
  {
    match e
    case ChainRepark(at, limit) => ChainReparkKeepsLine(s, at, limit);
    case KickRepark(at, limit) =>
      assert StepKickRepark(s, at, limit).inner.queue == s.inner.queue;
      SameLine(s, StepKickRepark(s, at, limit));
    case ReserveSlot(now) => ReserveKeepsLine(s, now);
    case HandClear(k) => HandClearKeepsLine(s, k);
    case HandLock(k) => HandLockKeepsLine(s, k);
    case ParkWrite => SameLine(s, StepParkWrite(s));
  }

  lemma ResolveKeepsLine(s: Session, id: nat, answer: PromptOutcome, now: int)
    requires Core(s) && QueueLine(s) && id in s.waiters
    ensures QueueLine(StepSteerResolved(s, id, answer, now))
  {
    var t := StepSteerResolved(s, id, answer, now);
    ResolveFrame(s.inner, id, s.waiters[id], answer, s.superseded, now);
    ResolveKeepsCore(s, id, answer, now);
    if t.hands != s.hands {
      assert s.hands == [] && t.hands == [t.hands[0]];
      OneHand(t.hands[0]);
      assert SlotPrompts(s) == [] && SlotPrompts(t) == [s.inner.queue[0]];
      PoppedLine(s, t);
    } else {
      SameLine(s, t);
    }
  }

  lemma SteerKeepsLine(s: Session, e: SteerEvent)
    requires Core(s) && QueueLine(s) && SteerEnabled(s, e)
    ensures QueueLine(SteerStep(s, e))
  {
    match e
    case SteerResolved(id, answer, now) => ResolveKeepsLine(s, id, answer, now);
    case _ => SameLine(s, SteerStep(s, e));
  }

  lemma EndKeepsLine(s: Session, e: EndEvent)
    requires Core(s) && QueueLine(s) && EndEnabled(s, e)
    ensures QueueLine(EndStep(s, e))
  {
    var t := EndStep(s, e);
    if e.Settle? {
      SettleKeepsLine(s, e.now);
    } else {
      assert SlotPrompts(t) == SlotPrompts(s);
      SameLine(s, t);
    }
  }

  lemma SettleKeepsLine(s: Session, now: int)
    requires Core(s) && QueueLine(s) && s.wire.Finishing?
    ensures QueueLine(StepSettle(s, now))
  {
    var e := EndTurnWith(s.inner, s.sem, s.wire.outcome, s.superseded, now);
    EndFrame(s.inner, s.sem, s.wire.outcome, s.superseded, now);
    assert Finishers(s, s.wire.n) > 0;
    EndedKeepsLine(s, StepSettle(s, now), e);
  }

  lemma EndedKeepsLine(s: Session, t: Session, e: TurnEnding)
    requires Core(s) && QueueLine(s) && s.wire.Finishing? && Finishers(s, s.wire.n) > 0
    requires EndForm(s.inner, s.wire.outcome, s.superseded, e)
    requires t == s.(inner := e.inner, wire := Settled(s.wire.n, s.wire.outcome, e.next),
                     dropped := s.dropped + Tickets(e.dropped))
    ensures QueueLine(t)
  {
    assert SlotPrompts(t) == SlotPrompts(s) + OptSeq(e.next);
    if e.next.Some? {
      assert s.hands == [];
      PoppedLine(s, t);
    } else if e.dropped == [] {
      SameLine(s, t);
    } else {
      DropQueue(s, t);
    }
  }

  lemma TrafficKeepsLine(s: Session, e: TrafficEvent)
    requires QueueLine(s) && TrafficEnabled(s, e)
    ensures QueueLine(TrafficStep(s, e))
  {
    match e
    case AcceptQueued(text) => AcceptKeepsLine(s, text);
    case CancelCall => DropQueue(s, TrafficStep(s, e));
    case _ => SameLine(s, TrafficStep(s, e));
  }

  lemma ExitKeepsLine(s: Session, noticed: bool)
    requires QueueLine(s) && LifeEnabled(s, AgentExit(noticed))
    ensures QueueLine(LifeStep(s, AgentExit(noticed)))
  {
    var t := LifeStep(s, AgentExit(noticed));
    if noticed { SameLine(s, t); } else { DropQueue(s, t); }
  }

  lemma LifeKeepsLine(s: Session, e: LifeEvent)
    requires QueueLine(s) && LifeEnabled(s, e)
    ensures QueueLine(LifeStep(s, e))
  {
    match e
    case CloseSection => DropQueue(s, LifeStep(s, e));
    case AgentExit(noticed) => ExitKeepsLine(s, noticed);
    case _ => SameLine(s, LifeStep(s, e));
  }

  // ---- what is dropped ----

  lemma NoTickets(dropped: set<nat>)
    ensures dropped + Tickets([]) == dropped
  {
  }

  lemma StartDrops(s: Session, e: StartEvent)
    requires Core(s) && StartEnabled(s, e)
    ensures StartStep(s, e).dropped == s.dropped + Tickets(GivenUp(s, Start(e)))
  {
    match e
    case ChainStart(now) => HeldSlot(s); ChainDrops(s, now);
    case ResumeStart(now, refusal) => HeldSlot(s); ResumeDrops(s, now, refusal);
    case _ =>
  }

  lemma ChainDrops(s: Session, now: int)
    requires s.wire.Chained? && (ChainedGate(s.inner) <==> !Over(s))
    ensures StepChainStart(s, now).dropped == s.dropped + Tickets(if Over(s) || !s.live then [s.wire.prompt] else [])
  {
    NoTickets(s.dropped);
  }

  lemma ResumeDrops(s: Session, now: int, refusal: string)
    requires s.wire.Resuming? && (ChainedGate(s.inner) <==> !Over(s))
    ensures StepResumeStart(s, now, refusal).dropped ==
      s.dropped + Tickets(if Over(s) then OptSeq(s.wire.first) else [])
  {
    NoTickets(s.dropped);
  }

  lemma EndDrops(s: Session, e: EndEvent)
    requires EndEnabled(s, e)
    ensures EndStep(s, e).dropped == s.dropped + Tickets(GivenUp(s, End(e)))
  {
    if e.Settle? { SettleDrops(s.inner, s.sem, s.wire.outcome, s.superseded, e.now); }
  }

  lemma SettleDrops(i: Inner, sem: SteerSemantics, outcome: PromptOutcome, superseded: bool, now: int)
    ensures EndTurnWith(i, sem, outcome, superseded, now).dropped ==
      if outcome.Errored? || (outcome == Stopped(StopCancelled) && !i.status.Exited?) then i.queue else []
  {
    match outcome
    case Stopped(reason) => PushFrame(i, sem, Some(reason), false);
    case Errored(_) => PushFrame(i, sem, None, false);
    case LimitHit(_, _) =>
  }

  lemma SlotDropsNothing(s: Session, e: SlotEvent)
    requires SlotEnabled(s, e)
    ensures SlotStep(s, e).dropped == s.dropped
  {
    match e
    case ReserveSlot(now) => assert StepReserve(s, now).dropped == s.dropped;
    case HandLock(k) => assert StepHandLock(s, k).dropped == s.dropped;
    case _ =>
  }

  lemma SteerDropsNothing(s: Session, e: SteerEvent)
    requires SteerEnabled(s, e)
    ensures SteerStep(s, e).dropped == s.dropped
  {
  }

  lemma TrafficDrops(s: Session, e: TrafficEvent)
    requires TrafficEnabled(s, e)
    ensures TrafficStep(s, e).dropped == s.dropped + Tickets(GivenUp(s, Traffic(e)))
  {
    NoTickets(s.dropped);
    match e
    case CancelCall =>
    case _ => assert TrafficStep(s, e).dropped == s.dropped;
  }

  lemma ExitDrops(s: Session, noticed: bool)
    requires LifeEnabled(s, AgentExit(noticed))
    ensures LifeStep(s, AgentExit(noticed)).dropped == s.dropped + Tickets(if noticed then [] else s.inner.queue)
  {
    NoTickets(s.dropped);
  }

  lemma LifeDrops(s: Session, e: LifeEvent)
    requires LifeEnabled(s, e)
    ensures LifeStep(s, e).dropped == s.dropped + Tickets(GivenUp(s, Life(e)))
  {
    NoTickets(s.dropped);
    match e
    case NoteLimit(at) => assert StepNoteLimit(s, at).dropped == s.dropped;
    case AgentExit(noticed) => ExitDrops(s, noticed);
    case _ =>
  }

  /** A step drops exactly the prompts it gives up. */
  lemma DropsOnlyGivenUp(s: Session, e: Event)
    requires Core(s) && Enabled(s, e)
    ensures Step(s, e).dropped == s.dropped + Tickets(GivenUp(s, e))
  {
    match e
    case Start(x) => StartDrops(s, x);
    case Slot(x) => SlotDropsNothing(s, x); NoTickets(s.dropped);
    case Steering(x) => SteerDropsNothing(s, x); NoTickets(s.dropped);
    case End(x) => EndDrops(s, x);
    case Traffic(x) => TrafficDrops(s, x);
    case Life(x) => LifeDrops(s, x);
  }

  // ---- every step ----

  /** Every step keeps every accepted prompt in its one place, in order, and drops
      exactly the prompts it gives up. */
  lemma KeepsLine(s: Session, e: Event)
    requires Core(s) && QueueLine(s) && Enabled(s, e)
    ensures QueueLine(Step(s, e))
    ensures Step(s, e).dropped == s.dropped + Tickets(GivenUp(s, e))
  {
    DropsOnlyGivenUp(s, e);
    match e
    case Start(x) => StartKeepsLine(s, x);
    case Slot(x) => SlotKeepsLine(s, x);
    case Steering(x) => SteerKeepsLine(s, x);
    case End(x) => EndKeepsLine(s, x);
    case Traffic(x) => TrafficKeepsLine(s, x);
    case Life(x) => LifeKeepsLine(s, x);
  }
}
