/** What becomes of a cancel: one that comes before its turn's prompt is on the wire
    waits for it; of a turn no prompt opened, it waits for good. */
module Cancels {
  import opened Common
  import opened SessionState
  import opened TurnMachine
  import opened TurnInvariant
  import opened StepEffects
  import opened TurnTheorems
  import SteerEnds

  const CANCEL := Traffic(CancelCall)

  /** The open turn's prompt is not on the wire; `asked` says whether a cancel waits for
      it. */
  ghost predicate Pends(s: Session, n: nat, asked: bool) {
    && s.inner.current.Some? && s.inner.current.value.n == n
    && !s.inner.current.value.onWire && s.inner.current.value.cancelRequested == asked
  }

  lemma SlotPends(s: Session, e: SlotEvent, n: nat, asked: bool)
    requires Pends(s, n, asked) && SlotEnabled(s, e)
    ensures Pends(SlotStep(s, e), n, asked)
  {
    SteerEnds.SlotStands(s, e);
  }

  lemma SteerPends(s: Session, e: SteerEvent, n: nat, asked: bool)
    requires Pends(s, n, asked) && SteerEnabled(s, e)
    ensures Pends(SteerStep(s, e), n, asked)
  {
    if e.SteerResolved? {
      ResolveFrame(s.inner, e.id, s.waiters[e.id], e.answer, s.superseded, e.now);
    }
  }

  lemma EndPends(s: Session, e: EndEvent, n: nat, asked: bool)
    requires Pends(s, n, asked) && EndEnabled(s, e) && !e.Settle?
    ensures Pends(EndStep(s, e), n, asked)
  {
    SteerEnds.EndStands(s, e);
  }

  lemma TrafficPends(s: Session, e: TrafficEvent, n: nat, asked: bool)
    requires Pends(s, n, asked) && TrafficEnabled(s, e)
    ensures Pends(TrafficStep(s, e), n, asked || e.CancelCall?)
  {
  }

  lemma LifePends(s: Session, e: LifeEvent, n: nat, asked: bool)
    requires Pends(s, n, asked) && LifeEnabled(s, e) && e != AgentExit(false)
    ensures Pends(LifeStep(s, e), n, asked)
  {
    match e
    case AgentExit(_) =>
    case _ => SteerEnds.LifeStands(s, e);
  }

  /** A step that starts, ends and discards no turn leaves the cancel waiting. */
  lemma StillPends(s: Session, e: Event, n: nat, asked: bool)
    requires Pends(s, n, asked) && Enabled(s, e) && !e.Start? && !Ends(e)
    ensures Pends(Step(s, e), n, asked || e == CANCEL)
  {
    match e
    case Slot(x) => SlotPends(s, x, n, asked);
    case Steering(x) => SteerPends(s, x, n, asked);
    case End(x) => EndPends(s, x, n, asked);
    case Traffic(x) => TrafficPends(s, x, n, asked);
    case Life(x) => LifePends(s, x, n, asked);
  }

  /** The step ends the open turn, or its agent. */
  predicate Ends(e: Event) {
    (e.End? && e.end.Settle?) || e == Life(AgentExit(false))
  }

  lemma CameFirstOrLater(es: seq<Event>)
    requires es != []
    ensures CANCEL in es <==> es[0] == CANCEL || CANCEL in es[1..]
  {
  }

  // ---- a prompt's own turn ----

  lemma {:induction false} PendsOver(s: Session, es: seq<Event>, n: nat, asked: bool)
    requires Pends(s, n, asked) && Possible(s, es) && forall k :: 0 <= k < |es| ==> !es[k].Start? && !Ends(es[k])
    ensures Pends(Run(s, es), n, asked || CANCEL in es)
    decreases |es|
  {
    if es != [] {
      StillPends(s, es[0], n, asked);
      CameFirstOrLater(es);
      PendsOver(Step(s, es[0]), es[1..], n, asked || es[0] == CANCEL);
    }
  }

  /** From a prompt's stamp on: the prompt goes on the wire with a cancel waiting behind it
      if and only if one came since, and none waits after. */
  lemma DeferredCancelFollows(s: Session, e: StartEvent, es: seq<Event>)
    requires Enabled(s, Start(e)) && s.inner.current.None? && StartStep(s, e).inner.current.Some?
    requires Possible(StartStep(s, e), es) && forall k :: 0 <= k < |es| ==> !es[k].Start? && !Ends(es[k])
    requires Run(StartStep(s, e), es).wire == StartStep(s, e).wire
    ensures var n := NextTurnNumber(s.inner);
      var t := Run(StartStep(s, e), es);
      && t.wire == Starting(n) && Pends(t, n, CANCEL in es)
      && StepBeginWire(t).inner.current == Some(t.inner.current.value.(onWire := true, cancelRequested := false))
  {
    OpensFresh(s, Start(e));
    StampsItsNumber(s, e);
    PendsOver(StartStep(s, e), es, NextTurnNumber(s.inner), false);
    OnWireLeaves(Run(StartStep(s, e), es));
  }

  lemma StampsItsNumber(s: Session, e: StartEvent)
    requires StartEnabled(s, e) && s.inner.current.None? && StartStep(s, e).inner.current.Some?
    ensures StartStep(s, e).wire == Starting(NextTurnNumber(s.inner))
  {
    StartForms(s, e);
    if !e.BeginWire? && !e.BeginAbort? { FormStampsItsNumber(s, e, StartStep(s, e)); }
  }

  lemma FormStampsItsNumber(s: Session, e: StartEvent, t: Session)
    requires !e.BeginWire? && !e.BeginAbort? && StartedOrRefused(s, e, t)
    requires s.inner.current.None? && t.inner.current.Some?
    ensures t.wire == Starting(NextTurnNumber(s.inner))
  {
  }

  // ---- a steer's own turn ----

  /** No task has a prompt for the open turn. */
  ghost predicate Unprompted(s: Session, n: nat, asked: bool) {
    Pends(s, n, asked) && s.wire != Starting(n)
  }

  /** Nothing starts over an open turn, so nothing puts a prompt on the wire for it. */
  lemma NothingStarts(s: Session, e: StartEvent, n: nat, asked: bool)
    requires Core(s) && Unprompted(s, n, asked)
    ensures !StartEnabled(s, e)
  {
    assert s.wire.Starting? ==> Finishers(s, s.wire.n) > 0;
    if s.wire.Free? && CheckGate(s) { CheckBeginKeepsCore(s, 0); }
  }

  /** Only a start has a prompt on its way to the wire. */
  lemma OnlyStartsStart(s: Session, e: Event)
    requires Enabled(s, e) && !e.Start? && Step(s, e).wire.Starting?
    ensures Step(s, e).wire == s.wire
  {
    match e
    case Slot(x) => SlotStartsNone(s, x);
    case Steering(x) => SteerStartsNone(s, x);
    case End(x) => EndStartsNone(s, x);
    case Traffic(x) => TrafficStartsNone(s, x);
    case Life(x) => LifeStartsNone(s, x);
  }

  lemma SlotStartsNone(s: Session, e: SlotEvent)
    requires SlotEnabled(s, e) && SlotStep(s, e).wire.Starting?
    ensures SlotStep(s, e).wire == s.wire
  {
    match e
    case ReserveSlot(now) => assert StepReserve(s, now).wire == s.wire;
    case _ =>
  }

  lemma SteerStartsNone(s: Session, e: SteerEvent)
    requires SteerEnabled(s, e) && SteerStep(s, e).wire.Starting?
    ensures SteerStep(s, e).wire == s.wire
  {
  }

  lemma EndStartsNone(s: Session, e: EndEvent)
    requires EndEnabled(s, e)
    ensures !EndStep(s, e).wire.Starting?
  {
    match e
    case Settle(now) => assert StepSettle(s, now).wire.Settled?;
    case _ =>
  }

  lemma TrafficStartsNone(s: Session, e: TrafficEvent)
    requires TrafficEnabled(s, e)
    ensures TrafficStep(s, e).wire == s.wire
  {
  }

  lemma LifeStartsNone(s: Session, e: LifeEvent)
    requires LifeEnabled(s, e)
    ensures LifeStep(s, e).wire == s.wire
  {
    match e
    case NoteLimit(at) => assert StepNoteLimit(s, at).wire == s.wire;
    case AgentExit(noticed) => ExitStartsNone(s, noticed);
    case _ =>
  }

  lemma ExitStartsNone(s: Session, noticed: bool)
    requires LifeEnabled(s, AgentExit(noticed))
    ensures LifeStep(s, AgentExit(noticed)).wire == s.wire
  {
  }

  lemma StaysUnprompted(s: Session, e: Event, n: nat, asked: bool)
    requires Core(s) && Unprompted(s, n, asked) && Enabled(s, e) && !Ends(e)
    ensures Unprompted(Step(s, e), n, asked || e == CANCEL)
  {
    if e.Start? { NothingStarts(s, e.start, n, asked); }
    StillPends(s, e, n, asked);
    if Step(s, e).wire.Starting? { OnlyStartsStart(s, e); }
  }

  lemma {:induction false} UnpromptedOver(s: Session, es: seq<Event>, n: nat, asked: bool)
    requires Inv(s) && Unprompted(s, n, asked) && Allowed(s, es) && forall k :: 0 <= k < |es| ==> !Ends(es[k])
    ensures Unprompted(Run(s, es), n, asked || CANCEL in es)
    decreases |es|
  {
    if es != [] {
      StaysUnprompted(s, es[0], n, asked);
      StepKeepsInv(s, es[0]);
      CameFirstOrLater(es);
      UnpromptedOver(Step(s, es[0]), es[1..], n, asked || es[0] == CANCEL);
    }
  }

  lemma OpensUnprompted(s: Session, e: TrafficEvent)
    requires Core(s) && TrafficEnabled(s, e) && s.inner.current.None? && TrafficStep(s, e).inner.current.Some?
    ensures Unprompted(TrafficStep(s, e), NextTurnNumber(s.inner), false)
  {
    OpensFresh(s, Traffic(e));
    TrafficStartsNone(s, e);
    assert s.wire.Starting? ==> Finishers(s, s.wire.n) > 0;
  }

  /** Of a turn a steer's traffic opened, a cancel is never sent: over every run in scope
      until that turn ends, it waits for a prompt none has. */
  lemma SteersTurnIsNeverCancelled(s: Session, e: TrafficEvent, t: Session, es: seq<Event>)
    requires Scoped(s) && OpensByTraffic(s, e, t)
    requires Allowed(t, es) && forall k :: 0 <= k < |es| ==> !Ends(es[k])
    ensures Unprompted(Run(t, es), NextTurnNumber(s.inner), CANCEL in es)
  {
    OpensInScope(s, e, t);
    UnpromptedOver(t, es, NextTurnNumber(s.inner), false);
  }

  /** Traffic in scope opens a turn. */
  ghost predicate OpensByTraffic(s: Session, e: TrafficEvent, t: Session) {
    && Enabled(s, Traffic(e)) && InScope(s, Traffic(e)) && t == Step(s, Traffic(e))
    && s.inner.current.None? && t.inner.current.Some?
  }

  lemma OpensInScope(s: Session, e: TrafficEvent, t: Session)
    requires Scoped(s) && OpensByTraffic(s, e, t)
    ensures Inv(t) && Unprompted(t, NextTurnNumber(s.inner), false)
  {
    ScopedInv(s);
    OpensUnprompted(s, e);
    StepKeepsInv(s, Traffic(e));
  }
}
