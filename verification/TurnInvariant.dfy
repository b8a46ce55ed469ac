/** What every step of the turn machine keeps. */
module TurnInvariant {
  import opened Common
  import opened SessionState
  import opened TurnMachine
  import TurnData

  // ---- the invariant ----

  /** Turn numbers increase, and none is past the count; the open turn has the next
      one, has started and has no end yet. */
  ghost predicate Numbered(i: Inner) {
    && Ascending(i)
    && (i.current.Some? ==>
          && i.current.value.n == NextTurnNumber(i)
          && i.current.value.startedAt.Some? && i.current.value.stopReason.None? && !i.current.value.rateLimited)
  }

  function WireTurn(w: Wire): Option<nat> {
    match w
    case Starting(n) => Some(n)
    case Finishing(n, _) => Some(n)
    case _ => None
  }

  /** How many tasks will run `finish_turn` for turn `n`. */
  function Finishers(s: Session, n: nat): nat {
    s.turnTasks[n] + |ClaimsOn(s, n)| + if WireTurn(s.wire) == Some(n) then 1 else 0
  }

  ghost predicate NoFinisher(s: Session) {
    forall n: nat :: Finishers(s, n) == 0
  }

  function WireNext(w: Wire): Option<Prompt> {
    match w
    case Settled(_, _, next) => next
    case Snapped(_, _, next, _, _) => next
    case Written(_, _, next) => next
    case Chained(prompt) => Some(prompt)
    case Resuming(first) => first
    case _ => None
  }

  function Reservations(s: Session): nat {
    |s.hands| + if s.wire.Resuming? || WireNext(s.wire).Some? then 1 else 0
  }

  /** An open turn has exactly one thing that will close it. */
  ghost predicate OneFinisher(s: Session) {
    && (forall n: nat :: Finishers(s, n) <= 1)
    && (forall m: nat, n: nat :: Finishers(s, m) > 0 && Finishers(s, n) > 0 ==> m == n)
    && (forall n: nat :: Finishers(s, n) > 0 ==>
          || (s.inner.current.Some? && s.inner.current.value.n == n)
          || (s.inner.current.None? && !s.connected && (s.inner.status.Exited? || s.closed)))
    && (s.inner.steerOwner.Some? ==> s.inner.current.Some? && NoFinisher(s))
    && (s.inner.current.Some? && NoFinisher(s) && !s.closed ==> s.inner.steerOwner.Some?)
  }

  /** A closed session a reserved prompt outlived: nothing opens on it again. */
  ghost predicate Dead(s: Session) {
    && s.inner.current.None? && s.inner.steerOwner.None? && OldestSteer(s.inner).None?
    && !s.wire.SteerSend? && NoFinisher(s)
    && !Busy(s.inner.status)
    && (s.inner.queue != [] ==> s.inner.status.RateLimited?)
  }

  ghost predicate Slots(s: Session) {
    && (s.inner.status.Running? ==> s.inner.current.Some? || s.inner.pendingStart.Some?)
    && (s.inner.status.NeedsPermission? ==> s.inner.current.Some?)
    && (s.inner.current.Some? && !s.closed ==> Busy(s.inner.status))
    && (s.inner.status.Exited? ==> !s.connected)
    && (s.closed ==> s.closing == Some(Ending))
    && (s.wire.SteerSend? && !s.closed ==> s.inner.current.Some? || s.inner.status.Exited?)
    && Reservations(s) <= 1
    && (!s.closed && Reservations(s) == 1 ==>
          && s.inner.current.None? && NoFinisher(s) && !s.wire.SteerSend?
          && (s.inner.status.Running? || s.inner.status.Exited?))
    && (!s.closed && ChainedGate(s.inner) && s.live ==> Reservations(s) == 1)
    && (s.closed ==>
          || (Reservations(s) == 0 && s.inner.queue == [] && (s.inner.status.Running? ==> s.inner.current.Some?))
          || Dead(s))
  }

  ghost predicate Core(s: Session) {
    Numbered(s.inner) && OneFinisher(s) && Slots(s)
  }

  /** In a reserved slot an answering agent has nothing left to answer. */
  ghost predicate QuietGap(s: Session) {
    s.sem.Answered? && ChainedGate(s.inner) ==> OldestSteer(s.inner).None?
  }

  // ---- frames of the helper functions ----

  /** Recording steer ends changes nothing but turns' steer lists. */
  ghost predicate SameButSteerEnds(i: Inner, j: Inner) {
    && j == i.(turns := j.turns, current := j.current)
    && |j.turns| == |i.turns|
    && (forall k :: 0 <= k < |i.turns| ==> j.turns[k] == i.turns[k].(steers := j.turns[k].steers))
    && (i.current.None? <==> j.current.None?)
    && (i.current.Some? ==> j.current.value == i.current.value.(steers := j.current.value.steers))
  }

  lemma RecordFrame(i: Inner, id: nat, target: nat, outcome: SteerOutcome)
    ensures SameButSteerEnds(i, RecordSteerEnd(i, id, target, outcome))
  {
    if i.current.Some? && i.current.value.n == target {
      NoteFrame(i.current.value, id, outcome);
    } else {
      var found := FindTurn(i.turns, target);
      if found.Some? { NoteFrame(i.turns[found.value], id, outcome); }
    }
  }

  lemma NoteFrame(t: Turn, id: nat, outcome: SteerOutcome)
    ensures NoteEnd(t, id, outcome) == t.(steers := NoteEnd(t, id, outcome).steers)
  {
  }

  lemma {:induction false} RecordFoldsFrame(i: Inner, steers: seq<Steer>)
    ensures SameButSteerEnds(i, RecordFolds(i, steers))
    decreases |steers|
  {
    if steers != [] {
      RecordFrame(i, steers[0].id, steers[0].target, Folded);
      RecordFoldsFrame(RecordSteerEnd(i, steers[0].id, steers[0].target, Folded), steers[1..]);
    }
  }

  lemma FoldFrame(i: Inner, sem: SteerSemantics)
    ensures var j := FoldPendingSteers(i, sem);
            SameButSteerEnds(i.(steerPending := j.steerPending, steerFolded := j.steerFolded), j)
    ensures sem.Answered? ==> FoldPendingSteers(i, sem) == i
  {
    RecordFoldsFrame(i, i.steerPending);
  }

  /** All but the record, the wire and the queue's history. */
  ghost predicate SameTasks(s: Session, t: Session) {
    && t.sem == s.sem && t.hands == s.hands && t.turnTasks == s.turnTasks && t.claims == s.claims
    && t.waiters == s.waiters && t.nextSteer == s.nextSteer && t.targets == s.targets && t.seen == s.seen
    && t.entry == s.entry && t.closing == s.closing && t.closed == s.closed && t.live == s.live
    && t.connected == s.connected && t.superseded == s.superseded && t.writeFailed == s.writeFailed
    && t.accepted == s.accepted
  }

  /** A turn was stamped; at most the queue's front went with it. */
  ghost predicate Stamped(s: Session, t: Session, now: int) {
    && SameTasks(s, t)
    && t.wire == Starting(NextTurnNumber(s.inner)) && t.dropped == s.dropped
    && t.inner == OpenTurn(s.inner.(queue := t.inner.queue), now)
  }

  /** A reserved prompt's start was refused. */
  ghost predicate Refused(s: Session, t: Session) {
    && SameTasks(s, t)
    && t.wire == Free && t.started == s.started
    && t.inner == s.inner.(status := t.inner.status, pendingStart := t.inner.pendingStart)
    && (t.inner.status == s.inner.status
        || (!ChainedGate(s.inner) && !s.inner.status.Exited? && s.closing.None? && t.inner.status.Failed?))
    && !(s.live && ChainedGate(s.inner))
  }

  lemma ChainForms(s: Session, now: int)
    requires s.wire.Chained?
    ensures (Stamped(s, StepChainStart(s, now), now) && ChainedGate(s.inner)) || Refused(s, StepChainStart(s, now))
  {
    if s.live && ChainedGate(s.inner) {
      StampForms(s, now);
    } else {
      assert Refused(s, Drop(s, [s.wire.prompt]).(wire := Free));
    }
  }

  lemma ResumeForms(s: Session, now: int, refusal: string)
    requires s.wire.Resuming?
    ensures var t := StepResumeStart(s, now, refusal);
      (Stamped(s, t, now) && ChainedGate(s.inner)) || Refused(s, t)
  {
    if ChainedGate(s.inner) {
      StampForms(s, now);
    } else {
      assert Refused(s, StepResumeRefused(s, refusal));
    }
  }

  lemma StampForms(s: Session, now: int)
    ensures Stamped(s, StepBegin(s, now), now)
  {
  }

  lemma KickForms(s: Session, now: int)
    requires s.inner.queue != []
    ensures Stamped(s, StepKickQueue(s, now), now)
  {
  }

  /** What becomes of a turn start: stamped, refused, or one of `begin_turn`'s tails. */
  ghost predicate StartedOrRefused(s: Session, e: StartEvent, t: Session) {
    || e.BeginWire? || e.BeginAbort?
    || Stamped(s, t, e.now)
    || ((e.ChainStart? || e.ResumeStart?) && Refused(s, t))
  }

  lemma StartForms(s: Session, e: StartEvent)
    requires StartEnabled(s, e)
    ensures StartedOrRefused(s, e, StartStep(s, e))
  {
    match e
    case ChainStart(now) => ChainForms(s, now);
    case ResumeStart(now, refusal) => ResumeForms(s, now, refusal);
    case BeginCheck(now) => StampForms(s, now);
    case KickQueue(now) => KickForms(s, now);
    case _ =>
  }

  // ---- the core is kept ----

  /** `steer_resolved`'s section, as the core sees it. */
  lemma ResolveFrame(i: Inner, id: nat, target: nat, outcome: PromptOutcome, superseded: bool, now: int)
    ensures var r := ResolveSteer(i, id, target, outcome, superseded, now);
      var j := r.inner;
      && j.turnOffset == i.turnOffset && |j.turns| == |i.turns|
      && (forall k :: 0 <= k < |i.turns| ==> j.turns[k].n == i.turns[k].n)
      && (i.current.None? <==> j.current.None?)
      && (i.current.Some? ==> j.current.value == i.current.value.(steers := j.current.value.steers)
                              && r.turn == i.current.value.n)
      && (r.mine ==> i.steerOwner == Some(id) && j.steerOwner.None?)
      && (i.steerOwner.None? ==> j.steerOwner.None? && !r.mine)
      && (i.steerOwner.Some? && !r.mine ==> j.steerOwner.Some?)
      && (r.kick.None? ==> j.status == i.status && j.queue == i.queue && j.pendingStart == i.pendingStart)
      && (r.kick.Some? ==>
            && !r.mine && i.current.None? && AcceptsPrompt(i.status) && !superseded && i.queue != []
            && r.kick == Some(i.queue[0]) && j.queue == i.queue[1..]
            && j.status.Running? && j.pendingStart.Some?)
      && j.recording == i.recording
      && (OldestSteer(i).None? ==> OldestSteer(j).None?)
  {
    var i1 := i.(steerPending := WithoutSteer(i.steerPending, id), steerFolded := WithoutId(i.steerFolded, id));
    var owned := i.steerOwner == Some(id);
    var passedOn := owned && outcome.IsErr() && OldestSteer(i1).Some?;
    var i2 := if owned then i1.(steerOwner := if passedOn then OldestSteer(i1) else None) else i1;
    var mine := owned && !passedOn;
    var end :=
      match outcome
      case Stopped(_) => if mine && i2.current.Some? then RanAs(i2.current.value.n) else Folded
      case Errored(error) => Rejected(error)
      case LimitHit(_, error) => Rejected(error);
    RecordFrame(i2, id, target, end);
  }

  /** The open turn pushed and the pending steers folded. */
  ghost predicate Pushed(i: Inner, j: Inner) {
    && j.turnOffset == i.turnOffset && j.current.None? && j.steerOwner == i.steerOwner
    && |j.turns| == |i.turns| + (if i.current.Some? then 1 else 0)
    && (forall k :: 0 <= k < |i.turns| ==> j.turns[k].n == i.turns[k].n)
    && (i.current.Some? ==> j.turns[|i.turns|].n == i.current.value.n && j.recording == Some(i.current.value.n))
    && (i.current.None? ==> j.recording == i.recording)
    && (OldestSteer(i).None? ==> OldestSteer(j).None?)
  }

  /** A turn's end, as the core sees it. */
  ghost predicate EndForm(i: Inner, outcome: PromptOutcome, superseded: bool, e: TurnEnding) {
    var j := e.inner;
    && Pushed(i, j)
    && (e.next.Some? ==> i.queue != [] && e.next == Some(i.queue[0]) && j.queue == i.queue[1..] && e.dropped == []
                         && j.status == i.status && !i.status.Exited? && j.pendingStart.Some? && !superseded)
    && (e.next.None? ==> (j.queue == i.queue && e.dropped == []) || (j.queue == [] && e.dropped == i.queue))
    && (e.next.None? && !i.status.Exited? ==> AcceptsPrompt(j.status) || j.status.RateLimited?)
    && (i.status.Exited? ==> j.status == i.status)
    && (outcome.LimitHit? ==> e.next.None?)
    && (j.status.RateLimited? ==> e.next.Some? || outcome.LimitHit?)
  }

  lemma PushFrame(i: Inner, sem: SteerSemantics, stop: Option<StopReason>, limited: bool)
    ensures var j := FoldPendingSteers(PushCurrent(i, stop, limited), sem);
      Pushed(i, j) && j.status == i.status && j.queue == i.queue && j.pendingStart == i.pendingStart
  {
    FoldFrame(PushCurrent(i, stop, limited), sem);
  }

  lemma EndFrame(i: Inner, sem: SteerSemantics, outcome: PromptOutcome, superseded: bool, now: int)
    ensures EndForm(i, outcome, superseded, EndTurnWith(i, sem, outcome, superseded, now))
  {
    match outcome
    case Stopped(reason) => SettleFrame(i, sem, reason, superseded, now);
    case Errored(error) => FailFrame(i, sem, error, superseded);
    case LimitHit(at, error) => ParkFrame(i, sem, at, error, superseded);
  }

  lemma SettleFrame(i: Inner, sem: SteerSemantics, reason: StopReason, superseded: bool, now: int)
    ensures EndForm(i, Stopped(reason), superseded, SettleTurn(i, sem, reason, superseded, now))
  {
    PushFrame(i, sem, Some(reason), false);
    FollowUpFrame(i, FoldPendingSteers(PushCurrent(i, Some(reason), false), sem), reason, superseded, now);
  }

  lemma FollowUpFrame(i: Inner, j: Inner, reason: StopReason, superseded: bool, now: int)
    requires Pushed(i, j) && j.status == i.status && j.queue == i.queue && j.pendingStart == i.pendingStart
    ensures EndForm(i, Stopped(reason), superseded, FollowUp(j, reason, superseded, now))
  {
  }

  lemma FailFrame(i: Inner, sem: SteerSemantics, error: string, superseded: bool)
    ensures EndForm(i, Errored(error), superseded, FailTurn(i, sem, error))
  {
    PushFrame(i, sem, None, false);
  }

  lemma ParkFrame(i: Inner, sem: SteerSemantics, at: int, error: string, superseded: bool)
    ensures EndForm(i, LimitHit(at, error), superseded, ParkTurn(i, sem, at, error))
  {
    PushFrame(i, sem, None, true);
  }

  /** Core, for a step that moves no finisher. */
  lemma SameFinishers(s: Session, t: Session)
    requires t.turnTasks == s.turnTasks && t.claims == s.claims && WireTurn(t.wire) == WireTurn(s.wire)
    ensures forall n: nat :: Finishers(t, n) == Finishers(s, n)
    ensures NoFinisher(t) <==> NoFinisher(s)
  {
    if NoFinisher(s) {
      forall n: nat ensures Finishers(t, n) == 0 { assert Finishers(s, n) == 0; }
    }
    if NoFinisher(t) {
      forall n: nat ensures Finishers(s, n) == 0 { assert Finishers(t, n) == 0; }
    }
  }

  /** A turn opens where none was open and nobody was left to end one. */
  lemma BeginKeepsCore(s: Session, now: int)
    requires Numbered(s.inner) && s.inner.current.None? && s.inner.steerOwner.None?
    requires (forall n: nat :: s.turnTasks[n] == 0 && ClaimsOn(s, n) == []) && !s.closed && s.hands == []
    ensures Core(StepBegin(s, now))
  {
    var t := StepBegin(s, now);
    assert Finishers(t, NextTurnNumber(s.inner)) == 1;
  }

  lemma CheckBeginKeepsCore(s: Session, now: int)
    requires Core(s) && s.wire.Free? && CheckGate(s)
    ensures s.inner.current.None?
    ensures Core(StepBegin(s, now))
    ensures s.inner.queue != [] ==> Core(StepKickQueue(s, now))
  {
    forall n: nat ensures s.turnTasks[n] == 0 && ClaimsOn(s, n) == [] { assert Finishers(s, n) == 0; }
    BeginKeepsCore(s, now);
    if s.inner.queue != [] {
      var popped := s.(inner := s.inner.(queue := s.inner.queue[1..]));
      BeginKeepsCore(popped, now);
      SameFinishers(StepBegin(popped, now), StepKickQueue(s, now));
    }
  }

  lemma BeginWireKeepsCore(s: Session)
    requires Core(s) && s.wire.Starting?
    ensures Core(StepBeginWire(s))
  {
    var t := StepBeginWire(s);
    forall n: nat ensures Finishers(t, n) == Finishers(s, n) {}
    assert Finishers(t, s.wire.n) > 0;
  }

  lemma AbortKeepsCore(s: Session, reason: string)
    requires Core(s) && s.wire.Starting?
    ensures Core(StepBeginAbort(s, reason))
  {
    var t := StepBeginAbort(s, reason);
    assert Finishers(s, s.wire.n) > 0;
    forall n: nat ensures Finishers(t, n) == 0 { assert Finishers(s, n) > 0 ==> n == s.wire.n; }
  }

  lemma ReservedBegin(s: Session, now: int)
    requires Core(s) && (s.wire.Chained? || s.wire.Resuming?) && ChainedGate(s.inner)
    ensures Core(StepBegin(s, now))
  {
    forall n: nat ensures s.turnTasks[n] == 0 && ClaimsOn(s, n) == [] { assert Finishers(s, n) == 0; }
    BeginKeepsCore(s, now);
  }

  lemma ReservedRefused(s: Session, t: Session)
    requires Core(s) && (s.wire.Chained? || s.wire.Resuming?) && !(s.live && ChainedGate(s.inner))
    requires t == s.(wire := Free, dropped := t.dropped, inner := s.inner.(pendingStart := t.inner.pendingStart))
    requires t.inner.pendingStart == s.inner.pendingStart || !ChainedGate(s.inner)
    ensures Core(t)
  {
    SameFinishers(s, t);
  }

  lemma ChainKeepsCore(s: Session, now: int)
    requires Core(s) && s.wire.Chained?
    ensures Core(StepChainStart(s, now))
  {
    if s.live && ChainedGate(s.inner) {
      ReservedBegin(s, now);
      SameFinishers(StepBegin(s, now), StepChainStart(s, now));
    } else {
      ReservedRefused(s, StepChainStart(s, now));
    }
  }

  lemma ResumeKeepsCore(s: Session, now: int, refusal: string)
    requires Core(s) && s.wire.Resuming?
    ensures Core(StepResumeStart(s, now, refusal))
  {
    if ChainedGate(s.inner) {
      ReservedBegin(s, now);
      SameFinishers(StepBegin(s, now), StepResumeStart(s, now, refusal));
    } else {
      assert s.inner.status.Exited? || s.closing.Some?;
      ReservedRefused(s, StepResumeStart(s, now, refusal));
    }
  }

  lemma ChainReparkKeepsCore(s: Session, at: int, limit: string)
    requires Core(s) && s.wire.Chained?
    ensures Core(StepChainRepark(s, at, limit))
  {
    SameFinishers(s, StepChainRepark(s, at, limit));
  }

  lemma KickReparkKeepsCore(s: Session, at: int, limit: string)
    requires Core(s) && CheckGate(s) && s.inner.current.None? && s.inner.queue != []
    ensures Core(StepKickRepark(s, at, limit))
  {
    SameFinishers(s, StepKickRepark(s, at, limit));
  }

  lemma ReserveKeepsCore(s: Session, now: int)
    requires Core(s) && SlotEnabled(s, ReserveSlot(now))
    ensures Core(StepReserve(s, now))
  {
    SameFinishers(s, StepReserve(s, now));
    assert Reservations(s) == 0;
  }

  lemma HandClearKeepsCore(s: Session, k: nat)
    requires Core(s) && k < |s.hands| && s.hands[k].Resume?
    ensures Core(StepHandClear(s, k))
  {
    SameFinishers(s, StepHandClear(s, k));
  }

  lemma HandLockKeepsCore(s: Session, k: nat)
    requires Core(s) && k < |s.hands| && s.wire.Free?
    ensures Core(StepHandLock(s, k))
  {
    SameFinishers(s, StepHandLock(s, k));
    assert Reservations(StepHandLock(s, k)) == 1;
  }

  lemma ResolveKeepsCore(s: Session, id: nat, answer: PromptOutcome, now: int)
    requires Core(s) && id in s.waiters
    ensures Core(StepSteerResolved(s, id, answer, now))
  {
    var r := ResolveSteer(s.inner, id, s.waiters[id], answer, s.superseded, now);
    var t := StepSteerResolved(s, id, answer, now);
    ResolveFrame(s.inner, id, s.waiters[id], answer, s.superseded, now);
    if r.mine {
      ClaimKeepsCore(s, t, r.turn, answer);
    } else {
      SameFinishers(s, t);
    }
  }

  /** The owning steer's answer becomes the open turn's one finisher. */
  lemma ClaimKeepsCore(s: Session, t: Session, n: nat, answer: PromptOutcome)
    requires Core(s) && s.inner.steerOwner.Some? && t.inner.steerOwner.None? && n == s.inner.current.value.n
    requires t == s.(inner := t.inner, waiters := t.waiters, claims := s.claims[n := ClaimsOn(s, n) + [answer]])
    requires Numbered(t.inner) && t.inner.current.Some? && t.inner.current.value.n == n
    requires t.inner.status == s.inner.status && t.inner.queue == s.inner.queue
    requires t.inner.pendingStart == s.inner.pendingStart
    requires OldestSteer(s.inner).None? ==> OldestSteer(t.inner).None?
    ensures Core(t)
  {
    forall m: nat ensures Finishers(t, m) == if m == n then 1 else 0 { assert Finishers(s, m) == 0; }
    assert Finishers(t, n) == 1;
  }

  lemma FinishLockKeepsCore(s: Session, n: nat, claim: Option<nat>, outcome: PromptOutcome)
    requires Core(s) && EndEnabled(s, FinishLock(n, claim, outcome))
    ensures Core(StepFinishLock(s, n, claim, outcome))
  {
    var t := StepFinishLock(s, n, claim, outcome);
    assert Finishers(s, n) > 0 && Finishers(t, n) > 0;
    forall m: nat ensures Finishers(t, m) == Finishers(s, m) {}
    assert Reservations(t) == Reservations(s);
  }

  lemma SettleKeepsCore(s: Session, now: int)
    requires Core(s) && s.wire.Finishing? && !s.inner.status.NeedsPermission?
    ensures Core(StepSettle(s, now))
  {
    var t := StepSettle(s, now);
    var e := EndTurnWith(s.inner, s.sem, s.wire.outcome, s.superseded, now);
    EndFrame(s.inner, s.sem, s.wire.outcome, s.superseded, now);
    NoneLeftToFinish(s, t);
    EndedCore(s, t, e);
  }

  lemma EndedCore(s: Session, t: Session, e: TurnEnding)
    requires Core(s) && s.wire.Finishing? && !s.inner.status.NeedsPermission? && s.inner.steerOwner.None?
    requires EndForm(s.inner, s.wire.outcome, s.superseded, e) && NoFinisher(t) && Finishers(s, s.wire.n) == 1
    requires t == s.(inner := e.inner, wire := Settled(s.wire.n, s.wire.outcome, e.next), dropped := t.dropped)
    ensures Core(t)
  {
    assert s.hands == [];
  }

  /** The one finisher of the open turn has run. */
  lemma NoneLeftToFinish(s: Session, t: Session)
    requires OneFinisher(s) && s.wire.Finishing? && t.wire.Settled?
    requires t.turnTasks == s.turnTasks && t.claims == s.claims
    ensures NoFinisher(t) && Finishers(s, s.wire.n) == 1 && s.inner.steerOwner.None?
  {
    assert Finishers(s, s.wire.n) > 0;
    forall n: nat ensures Finishers(t, n) == 0 { assert Finishers(s, n) > 0 ==> n == s.wire.n; }
  }

  lemma SeeKeepsCore(s: Session, u: TurnData.Update, now: int)
    requires Core(s) && s.connected && (ChainedGate(s.inner) ==> OldestSteer(s.inner).None?)
    ensures Core(StepSee(s, u, now))
  {
    SameFinishers(s, StepSee(s, u, now));
    if s.inner.current.None? {
      forall n: nat ensures Finishers(s, n) == 0 {}
    }
  }

  /** A step that touches only what the core does not look at. */
  lemma QuietKeepsCore(s: Session, t: Session)
    requires Core(s)
    requires t.turnTasks == s.turnTasks && t.claims == s.claims && t.hands == s.hands
    requires WireTurn(t.wire) == WireTurn(s.wire) && t.wire.SteerSend? == s.wire.SteerSend?
    requires (t.wire.Resuming? || WireNext(t.wire).Some?) == (s.wire.Resuming? || WireNext(s.wire).Some?)
    requires t.connected == s.connected && t.closed == s.closed && (t.live ==> s.live)
    requires t.closed ==> t.closing == Some(Ending)
    requires t.inner == s.inner.(status := t.inner.status, recording := t.inner.recording, current := t.inner.current)
    requires t.inner.status == s.inner.status || (t.inner.status.RateLimited? && s.inner.status.RateLimited?)
    requires t.inner.current.Some? == s.inner.current.Some?
    requires t.inner.current.Some? ==>
      t.inner.current.value == s.inner.current.value.(data := t.inner.current.value.data)
    ensures Core(t)
  {
    SameFinishers(s, t);
    assert Reservations(t) == Reservations(s);
  }

  lemma StartKeepsCore(s: Session, e: StartEvent)
    requires Core(s) && StartEnabled(s, e)
    ensures Core(StartStep(s, e))
  {
    match e
    case BeginCheck(now) => CheckBeginKeepsCore(s, now);
    case KickQueue(now) => CheckBeginKeepsCore(s, now);
    case BeginWire => BeginWireKeepsCore(s);
    case BeginAbort(reason) => AbortKeepsCore(s, reason);
    case ChainStart(now) => ChainKeepsCore(s, now);
    case ResumeStart(now, refusal) => ResumeKeepsCore(s, now, refusal);
  }

  lemma SlotKeepsCore(s: Session, e: SlotEvent)
    requires Core(s) && SlotEnabled(s, e)
    ensures Core(SlotStep(s, e))
  {
    match e
    case ChainRepark(at, limit) => ChainReparkKeepsCore(s, at, limit);
    case KickRepark(at, limit) => KickReparkKeepsCore(s, at, limit);
    case ReserveSlot(now) => ReserveKeepsCore(s, now);
    case HandClear(k) => HandClearKeepsCore(s, k);
    case HandLock(k) => HandLockKeepsCore(s, k);
    case ParkWrite => QuietKeepsCore(s, StepParkWrite(s));
  }

  lemma SteerKeepsCore(s: Session, e: SteerEvent)
    requires Core(s) && SteerEnabled(s, e) && (e.SteerLock? ==> !ChainedGate(s.inner))
    ensures Core(SteerStep(s, e))
  {
    match e
    case SteerResolved(id, answer, now) => ResolveKeepsCore(s, id, answer, now);
    case _ => SameFinishers(s, SteerStep(s, e));
  }

  lemma EndKeepsCore(s: Session, e: EndEvent)
    requires Core(s) && EndEnabled(s, e) && (e.Settle? ==> !s.inner.status.NeedsPermission?)
    ensures Core(EndStep(s, e))
  {
    match e
    case FinishLock(n, claim, outcome) => FinishLockKeepsCore(s, n, claim, outcome);
    case Settle(now) => SettleKeepsCore(s, now);
    case _ => QuietKeepsCore(s, EndStep(s, e));
  }

  lemma AcceptKeepsCore(s: Session, text: string)
    requires Core(s) && s.closing.None?
    ensures Core(StepAccept(s, text))
  {
    SameFinishers(s, StepAccept(s, text));
  }

  lemma CancelKeepsCore(s: Session)
    requires Core(s) && Busy(s.inner.status)
    ensures Core(TrafficStep(s, CancelCall))
  {
    SameFinishers(s, TrafficStep(s, CancelCall));
  }

  lemma PermissionKeepsCore(s: Session, e: TrafficEvent)
    requires e.PermissionAsk? || e.Permit? || e.PermissionWake?
    requires Core(s) && TrafficEnabled(s, e) && (e.PermissionAsk? ==> s.inner.current.Some?)
    ensures Core(TrafficStep(s, e))
  {
    match e
    case PermissionAsk(_) => SameFinishers(s, TrafficStep(s, e));
    case Permit(k) =>
      AnsweredKeepsCore(s, s.(inner := s.inner.(pending := s.inner.pending[..k] + s.inner.pending[k + 1..])),
                        TrafficStep(s, e));
    case PermissionWake => AnsweredKeepsCore(s, s, TrafficStep(s, e));
  }

  lemma AnsweredKeepsCore(s: Session, asked: Session, t: Session)
    requires Core(s) && asked == s.(inner := s.inner.(pending := asked.inner.pending))
    requires t == asked.(inner := PermissionsAnswered(asked.inner))
    ensures Core(t)
  {
    SameFinishers(s, t);
  }

  lemma TrafficKeepsCore(s: Session, e: TrafficEvent)
    requires Core(s) && QuietGap(s) && TrafficEnabled(s, e) && InScope(s, Traffic(e))
    ensures Core(TrafficStep(s, e))
  {
    match e
    case See(u, now) => SeeKeepsCore(s, u, now);
    case Fold => QuietKeepsCore(s, StepFold(s));
    case AcceptQueued(text) => AcceptKeepsCore(s, text);
    case CancelCall => CancelKeepsCore(s);
    case _ => PermissionKeepsCore(s, e);
  }

  lemma CloseKeepsCore(s: Session)
    requires Core(s) && s.closing == Some(Ending)
    ensures Core(LifeStep(s, CloseSection))
  {
    SameFinishers(s, LifeStep(s, CloseSection));
  }

  lemma ExitKeepsCore(s: Session, noticed: bool)
    requires Core(s) && s.connected && (noticed ==> s.closing.Some?)
    ensures Core(LifeStep(s, AgentExit(noticed)))
  {
    SameFinishers(s, LifeStep(s, AgentExit(noticed)));
  }

  lemma LifeKeepsCore(s: Session, e: LifeEvent)
    requires Core(s) && LifeEnabled(s, e)
    ensures Core(LifeStep(s, e))
  {
    match e
    case CloseSection => CloseKeepsCore(s);
    case AgentExit(noticed) => ExitKeepsCore(s, noticed);
    case _ => QuietKeepsCore(s, LifeStep(s, e));
  }

  /** Every step of a run in scope keeps the core. */
  lemma KeepsCore(s: Session, e: Event)
    requires Core(s) && QuietGap(s) && Enabled(s, e) && InScope(s, e)
    ensures Core(Step(s, e))
  {
    match e
    case Start(x) => StartKeepsCore(s, x);
    case Slot(x) => SlotKeepsCore(s, x);
    case Steering(x) => SteerKeepsCore(s, x);
    case End(x) => EndKeepsCore(s, x);
    case Traffic(x) => TrafficKeepsCore(s, x);
    case Life(x) => LifeKeepsCore(s, x);
  }
}
