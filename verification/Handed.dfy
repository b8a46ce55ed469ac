/** A session `partition` hands over: whether its old daemon can still open a turn
    on it. */
module Handed {
  import opened Common
  import opened SessionState
  import opened TurnMachine
  import opened TurnInvariant
  import opened TurnSteers
  import opened TurnTheorems
  import opened WaitInvariant
  import TurnData

  /** No turn is open, and no task left can open one. */
  ghost predicate Shut(s: Session) {
    && s.closing.Some? && s.superseded
    && s.inner.current.None? && !Busy(s.inner.status)
    && (s.connected ==> OldestSteer(s.inner).None? && !s.wire.SteerSend?)
  }

  lemma StartKeepsShut(s: Session, e: StartEvent)
    requires Shut(s) && StartEnabled(s, e)
    ensures Shut(StartStep(s, e))
  {
    match e
    case ChainStart(now) => ChainForms(s, now); ShutRefuses(s, e);
    case ResumeStart(now, refusal) => ResumeForms(s, now, refusal); ShutRefuses(s, e);
    case BeginWire =>
    case BeginAbort(_) =>
    case BeginCheck(_) =>
    case KickQueue(_) =>
  }

  lemma ShutRefuses(s: Session, e: StartEvent)
    requires Shut(s) && StartEnabled(s, e) && Refused(s, StartStep(s, e))
    ensures Shut(StartStep(s, e))
  {
  }

  lemma SlotKeepsShut(s: Session, e: SlotEvent)
    requires Shut(s) && SlotEnabled(s, e)
    ensures Shut(SlotStep(s, e))
  {
  }

  lemma SteerKeepsShut(s: Session, e: SteerEvent)
    requires Shut(s) && SteerEnabled(s, e)
    ensures Shut(SteerStep(s, e))
  {
    if e.SteerResolved? {
      ResolveFrame(s.inner, e.id, s.waiters[e.id], e.answer, s.superseded, e.now);
    }
  }

  lemma EndKeepsShut(s: Session, e: EndEvent)
    requires Shut(s) && EndEnabled(s, e)
    ensures Shut(EndStep(s, e))
  {
    if e.Settle? {
      EndFrame(s.inner, s.sem, s.wire.outcome, s.superseded, e.now);
    }
  }

  lemma TrafficKeepsShut(s: Session, e: TrafficEvent)
    requires Shut(s) && TrafficEnabled(s, e) && InScope(s, Traffic(e))
    ensures Shut(TrafficStep(s, e))
  {
  }

  lemma LifeKeepsShut(s: Session, e: LifeEvent)
    requires Shut(s) && LifeEnabled(s, e)
    ensures Shut(LifeStep(s, e))
  {
  }

  lemma KeepsShut(s: Session, e: Event)
    requires Shut(s) && Enabled(s, e) && InScope(s, e)
    ensures Shut(Step(s, e))
  {
    match e
    case Start(x) => StartKeepsShut(s, x);
    case Slot(x) => SlotKeepsShut(s, x);
    case Steering(x) => SteerKeepsShut(s, x);
    case End(x) => EndKeepsShut(s, x);
    case Traffic(x) => TrafficKeepsShut(s, x);
    case Life(x) => LifeKeepsShut(s, x);
  }

  lemma {:induction false} ShutForGood(s: Session, es: seq<Event>)
    requires Shut(s) && Allowed(s, es)
    ensures Shut(Run(s, es))
    decreases |es|
  {
    if es != [] {
      KeepsShut(s, es[0]);
      ShutForGood(Step(s, es[0]), es[1..]);
    }
  }

  /** No later step on the old daemon opens a turn. */
  ghost predicate OpensNothing(s: Session) {
    forall es :: Allowed(s, es) ==> Run(s, es).inner.current.None?
  }

  /** A handed session stays shut on the old daemon if and only if its agent is gone
      or has no steer left to answer. */
  lemma HandedStaysShutIff(s: Session)
    requires Scoped(s) && LifeEnabled(s, PartitionMark)
    ensures OpensNothing(LifeStep(s, PartitionMark)) <==> (s.connected ==> OldestSteer(s.inner).None?)
  {
    ScopedWaits(s);
    var h := LifeStep(s, PartitionMark);
    if s.connected && OldestSteer(s.inner).Some? {
      if s.seen.None? {
        LateTraffic(h);
      } else {
        LateTrafficAfterFold(h);
      }
    } else {
      forall es | Allowed(h, es) ensures Run(h, es).inner.current.None? {
        ShutForGood(h, es);
      }
    }
  }

  lemma LateTraffic(h: Session)
    requires h.connected && h.seen.None? && OldestSteer(h.inner).Some? && !Busy(h.inner.status) && h.inner.current.None?
    ensures !OpensNothing(h)
  {
    var e := Traffic(See(TurnData.OtherUpdate, 0));
    assert Enabled(h, e) && InScope(h, e);
    RunOne(h, e);
    assert Run(h, [e]).inner.current.Some?;
  }

  lemma LateTrafficAfterFold(h: Session)
    requires h.connected && h.seen.Some? && OldestSteer(h.inner).Some? && !Busy(h.inner.status) && h.inner.current.None?
    ensures !OpensNothing(h)
  {
    var fold := Traffic(Fold);
    var g := Step(h, fold);
    LateTraffic(g);
    var es :| Allowed(g, es) && Run(g, es).inner.current.Some?;
    assert ([fold] + es)[1..] == es;
    assert Allowed(h, [fold] + es) && Run(h, [fold] + es) == Run(g, es);
  }

  lemma RunOne(s: Session, e: Event)
    requires Enabled(s, e) && InScope(s, e)
    ensures Allowed(s, [e]) && Run(s, [e]) == Step(s, e)
  {
    assert [e][1..] == [];
    assert Allowed(Step(s, e), []);
  }

  /** An answering agent's handed session always stays shut. */
  lemma AnsweredHandedStaysShut(s: Session, es: seq<Event>)
    requires Scoped(s) && s.sem.Answered? && LifeEnabled(s, PartitionMark)
    requires Allowed(LifeStep(s, PartitionMark), es)
    ensures Run(LifeStep(s, PartitionMark), es).inner.current.None?
  {
    ScopedInv(s);
    HandedStaysShutIff(s);
  }
}
