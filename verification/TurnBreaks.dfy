/** What each assumption on a run keeps out: for each, the states from which a run
    without it breaks a promise of the turn machine, and that run. */
module TurnBreaks {
  import opened Common
  import opened SessionState
  import opened TurnMachine
  import opened TurnInvariant
  import opened QueueOrder
  import opened TurnTheorems
  import TurnData
  import Waiting

  /** A run the code allows, in scope or not, leads from one state to the other. */
  ghost predicate CanReach(s: Session, t: Session) {
    exists es :: Possible(s, es) && Run(s, es) == t
  }

  lemma Stay(s: Session)
    ensures CanReach(s, s)
  {
    assert Possible(s, []) && Run(s, []) == s;
  }

  lemma Before(s: Session, e: Event, t: Session)
    requires Enabled(s, e) && CanReach(Step(s, e), t)
    ensures CanReach(s, t)
  {
    var rest :| Possible(Step(s, e), rest) && Run(Step(s, e), rest) == t;
    assert ([e] + rest)[1..] == rest;
    assert Possible(s, [e] + rest) && Run(s, [e] + rest) == t;
  }

  predicate Alive(s: Session) {
    s.connected && s.live && s.closing.None? && !s.closed && !s.inner.status.Exited?
  }

  /** The step drops a prompt of a living session that it does not give up. */
  ghost predicate LosesPrompt(s: Session, e: Event, ticket: nat) {
    Alive(s) && Enabled(s, e) && GivenUp(s, e) == [] && ticket !in s.dropped && ticket in Step(s, e).dropped
  }

  // ---- late traffic in a reserved slot ----

  /** A turn opened under a popped prompt loses the prompt: its gate is shut. */
  lemma ShutGateLosesPrompt(s: Session, p: Prompt, now: int)
    requires s.wire == Chained(p) && Alive(s) && !ChainedGate(s.inner) && p.ticket !in s.dropped
    ensures LosesPrompt(s, Start(ChainStart(now)), p.ticket)
  {
    assert p in [p];
    assert Step(s, Start(ChainStart(now))).dropped == s.dropped + Tickets([p]);
  }

  /** A folding agent whose folded steer lands in the chained gap: the popped prompt
      is lost on a living session. */
  lemma LateFoldLosesPrompt(s: Session, p: Prompt, u: TurnData.Update, now: int) returns (t: Session)
    requires s.wire == Chained(p) && Alive(s) && ChainedGate(s.inner) && s.seen.None? && p.ticket !in s.dropped
    requires s.sem.FoldedSilently? && s.inner.steerFolded != []
    ensures CanReach(s, t) && LosesPrompt(t, Start(ChainStart(now)), p.ticket)
  {
    t := Step(s, Traffic(See(u, now)));
    ShutGateLosesPrompt(t, p, now);
    Stay(t);
    Before(s, Traffic(See(u, now)), t);
  }

  /** A steer sent into the slot a kick reserved, whose traffic comes before the
      kicked prompt has the wire: the prompt is lost on a living session. */
  lemma SteerIntoKickLosesPrompt(s: Session, p: Prompt, u: TurnData.Update, now: int) returns (t: Session)
    requires s.wire.Free? && s.hands == [Kick(p)] && Alive(s) && ChainedGate(s.inner) && s.seen.None?
    requires p.ticket !in s.dropped
    ensures CanReach(s, t) && LosesPrompt(t, Start(ChainStart(now)), p.ticket)
  {
    var locked := Step(s, Steering(SteerLock));
    var sent := Step(locked, Steering(SteerPush));
    assert OldestSteer(sent.inner).Some?;
    var late := Step(sent, Traffic(See(u, now)));
    t := KickBehindOpenTurn(late, p, now);
    Before(sent, Traffic(See(u, now)), t);
    Before(locked, Steering(SteerPush), t);
    Before(s, Steering(SteerLock), t);
  }

  lemma KickBehindOpenTurn(s: Session, p: Prompt, now: int) returns (t: Session)
    requires s.wire.Free? && s.hands == [Kick(p)] && Alive(s) && s.inner.current.Some? && p.ticket !in s.dropped
    ensures CanReach(s, t) && LosesPrompt(t, Start(ChainStart(now)), p.ticket)
  {
    t := Step(s, Slot(HandLock(0)));
    ShutGateLosesPrompt(t, p, now);
    Stay(t);
    Before(s, Slot(HandLock(0)), t);
  }

  // ---- a resume with a steer outstanding ----

  /** A turn stands open in a resume's slot: the resume is refused, and the session
      reads failed while that turn runs. */
  lemma TakenSlotFailsResume(s: Session, now: int, refusal: string) returns (t: Session)
    requires s.wire.Free? && |s.hands| == 1 && s.hands[0].Resume? && !s.hands[0].cleared && Alive(s)
    requires s.inner.current.Some? && s.inner.status.Running?
    ensures CanReach(s, t) && Alive(t) && t.wire.Free? && t.waiters == s.waiters
    ensures t.inner == s.inner.(status := Failed(refusal), pendingStart := None)
  {
    var cleared := Step(s, Slot(HandClear(0)));
    var held := Step(cleared, Slot(HandLock(0)));
    t := Step(held, Start(ResumeStart(now, refusal)));
    Stay(t);
    Before(held, Start(ResumeStart(now, refusal)), t);
    Before(cleared, Slot(HandLock(0)), t);
    Before(s, Slot(HandClear(0)), t);
  }

  /** A session that resumes with a steer outstanding can come to read failed with
      the steer's turn open. */
  lemma ResumeOverSteerFails(s: Session, x: Steer, u: TurnData.Update, now: int, refusal: string) returns (t: Session)
    requires s.wire.Free? && s.hands == [] && Alive(s) && s.seen.None?
    requires s.inner.status.RateLimited? && s.inner.status.plan.Continue?
    requires s.inner.current.None? && s.inner.steerFolded == [] && s.inner.steerPending == [x]
    ensures CanReach(s, t) && Alive(t) && t.wire.Free?
    ensures t.inner.status == Failed(refusal) && t.inner.steerPending == [x] && t.inner.steerOwner == Some(x.id)
    ensures t.inner.current == Some(NewTurn(NextTurnNumber(t.inner), now)) && t.inner.steerFolded == []
    ensures t.waiters == s.waiters
  {
    var reserved := Step(s, Slot(ReserveSlot(now)));
    var late := SteerTurnOpens(reserved, x, u, now);
    t := TakenSlotFailsResume(late, now, refusal);
    Before(reserved, Traffic(See(u, now)), t);
    Before(s, Slot(ReserveSlot(now)), t);
  }

  /** Untracked traffic in a reserved slot opens the pending steer's turn. */
  lemma SteerTurnOpens(s: Session, x: Steer, u: TurnData.Update, now: int) returns (late: Session)
    requires s.connected && s.seen.None? && ChainedGate(s.inner)
    requires s.inner.steerFolded == [] && s.inner.steerPending == [x]
    ensures Enabled(s, Traffic(See(u, now))) && late == Step(s, Traffic(See(u, now)))
    ensures late.inner == OpenTurn(s.inner, now).(steerOwner := Some(x.id))
    ensures late == s.(inner := late.inner, seen := late.seen)
  {
    late := Step(s, Traffic(See(u, now)));
  }

  /** A fresh prompt then takes the open turn's number: two tasks will finish it,
      one under the other's stop record. */
  lemma FreshPromptDoublesFinisher(s: Session, now: int) returns (t: Session)
    requires s.wire.Free? && CheckGate(s) && ClaimsOn(s, NextTurnNumber(s.inner)) != []
    ensures CanReach(s, t) && t.inner.current.Some? && Finishers(t, t.inner.current.value.n) >= 2
  {
    var begun := Step(s, Start(BeginCheck(now)));
    t := Step(begun, Start(BeginWire));
    Stay(t);
    Before(begun, Start(BeginWire), t);
    Before(s, Start(BeginCheck(now)), t);
  }

  /** From a failed session with a steer's turn open, the steer's answer and a fresh
      prompt lead there. */
  lemma FailedOverOpenTurnBreaks(s: Session, x: Steer, now: int, stop: StopReason) returns (t: Session)
    requires s.wire.Free? && Alive(s) && s.inner.status.Failed? && x.id in s.waiters
    requires s.inner.steerFolded == [] && s.inner.steerPending == [x] && s.inner.steerOwner == Some(x.id)
    requires s.inner.current.Some? && s.inner.current.value.n == NextTurnNumber(s.inner)
    ensures CanReach(s, t) && t.inner.current.Some? && Finishers(t, t.inner.current.value.n) >= 2
  {
    var answered := Step(s, Steering(SteerResolved(x.id, Stopped(stop), now)));
    ResolveFrame(s.inner, x.id, s.waiters[x.id], Stopped(stop), s.superseded, now);
    assert WithoutSteer([x], x.id) == [];
    t := FreshPromptDoublesFinisher(answered, now);
    Before(s, Steering(SteerResolved(x.id, Stopped(stop), now)), t);
  }

  lemma Through(s: Session, m: Session, t: Session)
    requires CanReach(s, m) && CanReach(m, t)
    ensures CanReach(s, t)
  {
    var es :| Possible(s, es) && Run(s, es) == m;
    RunThrough(s, es, m, t);
  }

  lemma {:induction false} RunThrough(s: Session, es: seq<Event>, m: Session, t: Session)
    requires Possible(s, es) && Run(s, es) == m && CanReach(m, t)
    ensures CanReach(s, t)
    decreases |es|
  {
    if es != [] {
      RunThrough(Step(s, es[0]), es[1..], m, t);
      Before(s, es[0], t);
    }
  }

  /** So a session that resumes with a steer outstanding can come to have two tasks
      that will finish its open turn. */
  lemma ResumeOverSteerBreaks(s: Session, x: Steer, u: TurnData.Update, now: int) returns (t: Session)
    requires s.wire.Free? && s.hands == [] && Alive(s) && s.seen.None? && x.id in s.waiters
    requires s.inner.status.RateLimited? && s.inner.status.plan.Continue?
    requires s.inner.current.None? && s.inner.steerFolded == [] && s.inner.steerPending == [x]
    ensures CanReach(s, t) && t.inner.current.Some? && Finishers(t, t.inner.current.value.n) >= 2
  {
    var failed := ResumeOverSteerFails(s, x, u, now, "");
    t := FailedOverOpenTurnBreaks(failed, x, now, EndTurn);
    Through(s, failed, t);
  }

  // ---- a close over a steer's own turn ----

  /** `close` forgets the owner of a turn a steer opened: even the owner's answer leaves
      nothing to settle it. */
  lemma CloseStrandsSteeredTurn(s: Session, id: nat, answer: PromptOutcome, now: int)
    requires Alive(s) && s.inner.current.Some? && s.inner.steerOwner == Some(id) && NoFinisher(s)
    requires id in s.waiters
    ensures var closed := LifeStep(s.(closing := Some(Ending)), CloseSection);
      && id in closed.waiters && Stranded(closed, s.inner.current.value.n)
      && Stranded(StepSteerResolved(closed, id, answer, now), s.inner.current.value.n)
  {
    var closed := LifeStep(s.(closing := Some(Ending)), CloseSection);
    SameFinishers(s, closed);
    ResolveFrame(closed.inner, id, closed.waiters[id], answer, closed.superseded, now);
    SameFinishers(s, StepSteerResolved(closed, id, answer, now));
  }

  // ---- permission requests out of place ----

  /** A turn that ends with a request pending chains into a shut gate: the popped
      prompt is lost on a living session. */
  lemma EndInPermissionLosesPrompt(s: Session, p: Prompt, stop: StopReason, now: int) returns (t: Session)
    requires s.wire.Finishing? && s.wire.outcome == Stopped(stop) && !stop.StopCancelled? && Alive(s)
    requires s.sem.Answered? && s.inner.status.NeedsPermission?
    requires !s.superseded && s.inner.steerPending == [] && s.inner.queue != [] && s.inner.queue[0] == p
    requires p.ticket !in s.dropped
    ensures CanReach(s, t) && LosesPrompt(t, Start(ChainStart(now)), p.ticket)
  {
    var settled := Step(s, End(Settle(now)));
    assert settled.wire == Settled(s.wire.n, s.wire.outcome, Some(p)) && settled.inner.status.NeedsPermission?;
    assert Alive(settled) && settled.dropped == s.dropped by { NoTickets(s.dropped); }
    t := RecordedChain(settled, p);
    ShutGateLosesPrompt(t, p, now);
    Stay(t);
    Before(s, End(Settle(now)), t);
  }

  /** The end is recorded; the popped prompt's task has the wire. */
  lemma RecordedChain(s: Session, p: Prompt) returns (c: Session)
    requires s.wire.Settled? && s.wire.next == Some(p)
    ensures c == s.(wire := Chained(p), inner := s.inner.(recording := None), entry := c.entry)
    ensures forall t :: CanReach(c, t) ==> CanReach(s, t)
  {
    var a := Step(s, End(Snap));
    var b := Step(a, End(WriteEnd));
    c := Step(b, End(ClearRecording));
    forall t | CanReach(c, t) ensures CanReach(s, t) {
      Before(b, End(ClearRecording), t);
      Before(a, End(WriteEnd), t);
      Before(s, End(Snap), t);
    }
  }

  /** A request that comes while no turn is open, once answered, leaves a running
      session without a start: the wait's internal error. */
  lemma IdleRequestBreaksWait(s: Session, request: string) returns (t: Session)
    requires Alive(s) && s.inner.current.None? && s.inner.pendingStart.None? && s.inner.recording.None?
    requires s.inner.pending == []
    ensures CanReach(s, t) && Waiting.AwaitedTurn(t.inner) == Err(Waiting.NoStartRecorded)
  {
    var asked := Step(s, Traffic(PermissionAsk(request)));
    t := Step(asked, Traffic(Permit(0)));
    Stay(t);
    Before(asked, Traffic(Permit(0)), t);
    Before(s, Traffic(PermissionAsk(request)), t);
  }
}
