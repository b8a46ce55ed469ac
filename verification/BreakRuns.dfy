/** Runs from a plain launch to the states the turn machine breaks from: each stays
    inside the assumptions up to the one step that leaves them. */
module BreakRuns {
  import opened Common
  import opened SessionState
  import opened TurnMachine
  import opened TurnInvariant
  import opened TurnBreaks
  import TurnData
  import opened WaitInvariant
  import opened QueueOrder
  import opened Replay
  import opened TurnTheorems
  import Handed
  import Waiting

  // ---- building a run ----

  /** A session just launched, with nothing queued. */
  ghost predicate Plain(s: Session) {
    Launched(s) && s.inner.status.Idle? && s.inner.queue == []
  }

  lemma OneMore(s: Session, e: Event, t: Session)
    requires Scoped(s) && Enabled(s, e) && InScope(s, e) && t == Step(s, e)
    ensures Scoped(t)
  {
    var s0, es :| Launched(s0) && Allowed(s0, es) && Run(s0, es) == s;
    RunExtends(s0, es, e);
    assert Allowed(s0, es + [e]) && Run(s0, es + [e]) == t;
  }

  lemma {:induction false} RunExtends(s: Session, es: seq<Event>, e: Event)
    requires Allowed(s, es) && Enabled(Run(s, es), e) && InScope(Run(s, es), e)
    ensures Allowed(s, es + [e]) && Run(s, es + [e]) == Step(Run(s, es), e)
    decreases |es|
  {
    if es == [] {
      assert [e][1..] == [];
      assert Allowed(Step(s, e), []);
    } else {
      assert (es + [e])[1..] == es[1..] + [e];
      RunExtends(Step(s, es[0]), es[1..], e);
    }
  }

  /** Nothing but a turn in flight, its own prompt unanswered. */
  ghost predicate OneTurn(s: Session) {
    && Alive(s) && s.wire.Free? && s.hands == [] && s.seen.None? && !s.superseded
    && s.inner.status.Running? && s.inner.steerFolded == [] && s.inner.steerOwner.None?
    && s.inner.current.Some? && s.turnTasks == multiset{s.inner.current.value.n} && s.claims == map[]
  }

  lemma FirstTurn(s: Session, now: int) returns (t: Session)
    requires Plain(s)
    ensures Scoped(t) && OneTurn(t) && t.inner.recording.None? && t.sem == s.sem && t.inner.pending == []
    ensures t.inner.steerPending == [] && t.inner.queue == [] && t.accepted == 0
  {
    assert Allowed(s, []) && Run(s, []) == s && Scoped(s);
    var a := Step(s, Start(BeginCheck(now)));
    OneMore(s, Start(BeginCheck(now)), a);
    t := Step(a, Start(BeginWire));
    OneMore(a, Start(BeginWire), t);
  }

  /** A sender of a steer holds the wire. */
  lemma SteerSenderIsReachable(s: Session) returns (t: Session)
    requires Scoped(s) && OneTurn(s)
    ensures Scoped(t) && t == s.(wire := SteerSend)
  {
    t := Step(s, Steering(SteerLock));
    OneMore(s, Steering(SteerLock), t);
  }

  /** A steer sent into the turn. */
  lemma SteeredTurn(s: Session) returns (t: Session)
    requires Scoped(s) && OneTurn(s) && s.inner.steerPending == []
    ensures Scoped(t) && OneTurn(t) && t.inner.steerPending == [Steer(s.nextSteer, s.inner.current.value.n)]
    ensures s.nextSteer in t.waiters && t.sem == s.sem
    ensures t.inner == s.inner.(steerPending := t.inner.steerPending) && t.accepted == s.accepted
  {
    var a := SteerSenderIsReachable(s);
    t := Step(a, Steering(SteerPush));
    OneMore(a, Steering(SteerPush), t);
  }

  lemma QueueBehind(s: Session, text: string) returns (t: Session)
    requires Scoped(s) && s.closing.None? && s.inner.status.Running?
    ensures Scoped(t)
    ensures t == s.(inner := s.inner.(queue := s.inner.queue + [Prompt(s.accepted, text)]), accepted := s.accepted + 1)
  {
    t := Step(s, Traffic(AcceptQueued(text)));
    OneMore(s, Traffic(AcceptQueued(text)), t);
  }

  /** The turn's prompt is answered; its task has the wire. */
  lemma AnsweredTurn(s: Session, outcome: PromptOutcome) returns (t: Session)
    requires Scoped(s) && OneTurn(s)
    ensures Scoped(t) && t == s.(wire := Finishing(s.inner.current.value.n, outcome), turnTasks := multiset{})
  {
    var e := End(FinishLock(s.inner.current.value.n, None, outcome));
    t := Step(s, e);
    OneMore(s, e, t);
  }

  lemma SettledTurn(s: Session, now: int) returns (t: Session)
    requires Scoped(s) && s.wire.Finishing? && !s.inner.status.NeedsPermission?
    ensures Scoped(t) && t == StepSettle(s, now)
  {
    t := Step(s, End(Settle(now)));
    OneMore(s, End(Settle(now)), t);
  }

  lemma RecordedEnd(s: Session) returns (t: Session)
    requires Scoped(s) && s.wire.Settled?
    ensures Scoped(t) && t == s.(wire := t.wire, inner := s.inner.(recording := None), entry := t.entry)
    ensures t.wire == if s.wire.next.Some? then Chained(s.wire.next.value) else Free
  {
    var a := Step(s, End(Snap));
    OneMore(s, End(Snap), a);
    var b := Step(a, End(WriteEnd));
    OneMore(a, End(WriteEnd), b);
    t := Step(b, End(ClearRecording));
    OneMore(b, End(ClearRecording), t);
  }

  /** A prompt on its way is not dropped. */
  lemma HeldIsNotDropped(s: Session, p: Prompt)
    requires Scoped(s) && (p in SlotPrompts(s) || p in s.inner.queue)
    ensures p.ticket !in s.dropped
  {
    QueuedExactlyOnce(s);
    assert p.ticket in Tickets(SlotPrompts(s)) || p.ticket in Tickets(s.inner.queue);
  }

  // ---- a kicked slot ----

  /** The turn ends; the queue is held for the steer still out. */
  lemma EndWithSteerOut(s: Session, now: int) returns (t: Session)
    requires Scoped(s) && OneTurn(s) && s.sem.Answered? && s.inner.steerPending != []
    ensures Scoped(t) && t.wire.Free?
    ensures t.inner.status == Done(EndTurn) && t.inner.current.None? && t.inner.queue == s.inner.queue
    ensures t.inner.steerPending == s.inner.steerPending && t.inner.steerFolded == [] && t.inner.steerOwner.None?
    ensures t == s.(inner := t.inner, wire := Free, turnTasks := t.turnTasks, dropped := t.dropped, entry := t.entry)
    ensures NoFinisher(t)
  {
    var a := AnsweredTurn(s, Stopped(EndTurn));
    var b := SettledTurn(a, now);
    assert b.wire == Settled(a.wire.n, a.wire.outcome, None) && b.inner.status == Done(EndTurn);
    t := RecordedEnd(b);
    assert t.turnTasks == multiset{} && t.claims == map[];
  }

  /** The steer's answer kicks the held prompt: the slot is reserved, its task not yet
      on the wire. */
  lemma KickedSlotIsReachable(s: Session, now: int, text: string) returns (t: Session)
    requires Plain(s) && s.sem.Answered?
    ensures Scoped(t) && t.wire.Free? && t.hands == [Kick(Prompt(0, text))] && Alive(t)
    ensures ChainedGate(t.inner) && t.seen.None?
  {
    var a := FirstTurn(s, now);
    var b := SteeredTurn(a);
    var c := QueueBehind(b, text);
    var d := EndWithSteerOut(c, now);
    t := AnswerKicks(d, d.inner.steerPending[0], now);
  }

  lemma AnswerKicks(s: Session, x: Steer, now: int) returns (t: Session)
    requires Scoped(s) && s.wire.Free? && s.hands == [] && Alive(s) && !s.superseded && x.id in s.waiters
    requires AcceptsPrompt(s.inner.status) && s.inner.current.None? && s.inner.queue != []
    requires s.inner.steerPending == [x] && s.inner.steerOwner.None?
    ensures Scoped(t) && t.wire.Free? && t.hands == [Kick(s.inner.queue[0])] && Alive(t)
    ensures ChainedGate(t.inner) && t.seen == s.seen
  {
    var e := Steering(SteerResolved(x.id, Stopped(EndTurn), now));
    t := Step(s, e);
    ResolveFrame(s.inner, x.id, s.waiters[x.id], Stopped(EndTurn), s.superseded, now);
    assert WithoutSteer([x], x.id) == [];
    OneMore(s, e, t);
  }

  /** From any plain launch, a steer sent into a kicked slot can lose the queued prompt
      while the session lives. */
  lemma QueuedPromptCanBeLost(s: Session, u: TurnData.Update, now: int, text: string) returns (mid: Session, t: Session)
    requires Plain(s) && s.sem.Answered?
    ensures Scoped(mid) && CanReach(mid, t) && LosesPrompt(t, Start(ChainStart(now)), 0)
  {
    mid := KickedSlotIsReachable(s, now, text);
    OneHand(Kick(Prompt(0, text)));
    HeldIsNotDropped(mid, Prompt(0, text));
    t := SteerIntoKickLosesPrompt(mid, Prompt(0, text), u, now);
  }

  // ---- a parked session with a steer outstanding ----

  /** A limit ends the turn while an answering agent owes a steer. */
  lemma ParkedOverSteer(s: Session, now: int, at: int, limit: string) returns (t: Session)
    requires Scoped(s) && OneTurn(s) && s.sem.Answered? && |s.inner.steerPending| == 1
    ensures Scoped(t) && Alive(t) && t.wire.Free? && t.hands == [] && t.seen.None? && t.waiters == s.waiters
    ensures t.inner.status == RateLimited(at, limit, Continue) && t.inner.current.None?
    ensures t.inner.steerFolded == [] && t.inner.steerPending == s.inner.steerPending
  {
    var a := AnsweredTurn(s, LimitHit(at, limit));
    var b := SettledTurn(a, now);
    assert b.inner.status == RateLimited(at, limit, Continue) && b.wire.next.None?;
    t := RecordedEnd(b);
  }

  /** From any plain launch, resuming with a steer outstanding can leave one turn with
      two tasks that will finish it. */
  lemma ResumeCanDoubleFinisher(s: Session, u: TurnData.Update, now: int, at: int, limit: string)
    returns (mid: Session, t: Session)
    requires Plain(s) && s.sem.Answered?
    ensures Scoped(mid) && CanReach(mid, t) && t.inner.current.Some? && Finishers(t, t.inner.current.value.n) >= 2
  {
    var a := FirstTurn(s, now);
    var b := SteeredTurn(a);
    mid := ParkedOverSteer(b, now, at, limit);
    t := ResumeOverSteerBreaks(mid, mid.inner.steerPending[0], u, now);
  }

  // ---- a folded steer in the chained gap ----

  /** A folding agent's turn ends with a steer pending and a prompt queued: the steer
      folds and the prompt chains. */
  lemma ChainedOverFold(s: Session, now: int, p: Prompt) returns (t: Session)
    requires Scoped(s) && OneTurn(s) && s.sem.FoldedSilently? && s.inner.steerPending != [] && s.inner.queue == [p]
    ensures Scoped(t) && Alive(t) && t.wire == Chained(p) && t.seen.None? && t.sem.FoldedSilently?
    ensures ChainedGate(t.inner) && t.inner.steerFolded != []
  {
    var a := AnsweredTurn(s, Stopped(EndTurn));
    var b := SettledTurn(a, now);
    FoldsAndChains(a.inner, now);
    t := RecordedEnd(b);
  }

  lemma FoldsAndChains(i: Inner, now: int)
    requires i.status.Running? && i.steerPending != [] && i.queue != []
    ensures var e := SettleTurn(i, FoldedSilently, EndTurn, false, now);
      && e.next == Some(i.queue[0]) && ChainedGate(e.inner) && e.inner.steerFolded != []
  {
    PushFrame(i, FoldedSilently, Some(EndTurn), false);
    FoldFrame(PushCurrent(i, Some(EndTurn), false), FoldedSilently);
  }

  lemma FoldedSlotIsReachable(s: Session, now: int, text: string) returns (t: Session)
    requires Plain(s) && s.sem.FoldedSilently?
    ensures Scoped(t) && Alive(t) && t.wire == Chained(Prompt(0, text)) && t.seen.None? && t.sem.FoldedSilently?
    ensures ChainedGate(t.inner) && t.inner.steerFolded != []
  {
    var a := FirstTurn(s, now);
    var b := SteeredTurn(a);
    var c := QueueBehind(b, text);
    t := ChainedOverFold(c, now, Prompt(0, text));
  }

  /** From any plain launch of a folding agent, a folded steer can lose the queued
      prompt while the session lives. */
  lemma LateFoldCanLosePrompt(s: Session, u: TurnData.Update, now: int, text: string) returns (mid: Session, t: Session)
    requires Plain(s) && s.sem.FoldedSilently?
    ensures Scoped(mid) && CanReach(mid, t) && LosesPrompt(t, Start(ChainStart(now)), 0)
  {
    mid := FoldedSlotIsReachable(s, now, text);
    HeldIsNotDropped(mid, Prompt(0, text));
    t := LateFoldLosesPrompt(mid, Prompt(0, text), u, now);
  }

  // ---- permission requests out of place ----

  /** From any plain launch, a request outside a turn can make a wait fail. */
  lemma IdleRequestCanBreakWait(s: Session, request: string) returns (t: Session)
    requires Plain(s)
    ensures Scoped(s) && CanReach(s, t) && Waiting.AwaitedTurn(t.inner) == Err(Waiting.NoStartRecorded)
  {
    assert Allowed(s, []) && Run(s, []) == s;
    t := IdleRequestBreaksWait(s, request);
  }

  /** From any plain launch, a turn that ends waiting for a permission can lose the
      queued prompt while the session lives. */
  lemma EndInPermissionCanLosePrompt(s: Session, now: int, text: string, request: string)
    returns (mid: Session, t: Session)
    requires Plain(s) && s.sem.Answered?
    ensures Scoped(mid) && CanReach(mid, t) && LosesPrompt(t, Start(ChainStart(now)), 0)
  {
    var a := FirstTurn(s, now);
    var b := QueueBehind(a, text);
    mid := AskedAndAnswered(b, request);
    HeldIsNotDropped(mid, Prompt(0, text));
    t := EndInPermissionLosesPrompt(mid, Prompt(0, text), EndTurn, now);
  }

  lemma AskedAndAnswered(s: Session, request: string) returns (t: Session)
    requires Scoped(s) && OneTurn(s)
    ensures Scoped(t) && t.inner == AskPermission(s.inner, request)
    ensures t == s.(inner := t.inner, wire := t.wire, turnTasks := t.turnTasks)
    ensures t.wire == Finishing(s.inner.current.value.n, Stopped(EndTurn))
  {
    var a := Step(s, Traffic(PermissionAsk(request)));
    OneMore(s, Traffic(PermissionAsk(request)), a);
    var e := End(FinishLock(s.inner.current.value.n, None, Stopped(EndTurn)));
    t := Step(a, e);
    OneMore(a, e, t);
  }

  /** From any plain launch, a start that fails to be logged leaves the request asked over
      it standing on a session that reports a failure. */
  lemma RequestCanOutliveItsTurn(s: Session, now: int, request: string, reason: string) returns (t: Session)
    requires Plain(s)
    ensures Scoped(t) && Alive(t) && t.inner.pending == [request] && t.inner.status == Failed(reason)
  {
    assert Allowed(s, []) && Run(s, []) == s && Scoped(s);
    var a := Step(s, Start(BeginCheck(now)));
    OneMore(s, Start(BeginCheck(now)), a);
    var b := AskedWhileStarting(a, request);
    t := Step(b, Start(BeginAbort(reason)));
    OneMore(b, Start(BeginAbort(reason)), t);
  }

  lemma AskedWhileStarting(s: Session, request: string) returns (t: Session)
    requires Scoped(s) && Alive(s) && s.wire.Starting? && s.inner.current.Some? && s.inner.pending == []
    ensures Scoped(t) && Alive(t) && t.wire == s.wire && t.inner == AskPermission(s.inner, request)
    ensures t.inner.pending == [request]
  {
    t := Step(s, Traffic(PermissionAsk(request)));
    OneMore(s, Traffic(PermissionAsk(request)), t);
  }

  // ---- a handover ----

  /** From any plain launch a takeover hands the session over, and no later step opens a
      turn on it. */
  lemma HandedIsReachable(s: Session) returns (t: Session)
    requires Plain(s)
    ensures Scoped(t) && t.closing == Some(HandingOff) && Handed.OpensNothing(t)
  {
    assert Allowed(s, []) && Run(s, []) == s && Scoped(s);
    var a := Step(s, Life(Supersede));
    OneMore(s, Life(Supersede), a);
    Handed.HandedStaysShutIff(a);
    t := Step(a, Life(PartitionMark));
    OneMore(a, Life(PartitionMark), t);
  }

  // ---- a close over a steer's own turn ----

  /** A steer's traffic after its target's end opens a turn of its own. */
  lemma SteersOwnTurn(s: Session, x: Steer, u: TurnData.Update, now: int) returns (t: Session)
    requires Scoped(s) && s.connected && s.seen.None? && s.inner.status.Done? && s.inner.current.None?
    requires s.inner.steerFolded == [] && s.inner.steerPending == [x]
    ensures Scoped(t) && t == s.(inner := OpenTurn(s.inner, now).(steerOwner := Some(x.id)), seen := t.seen)
  {
    t := Step(s, Traffic(See(u, now)));
    OneMore(s, Traffic(See(u, now)), t);
  }

  /** The session is closed, and the steer that owned its turn answers. */
  lemma ClosedAndAnswered(s: Session, id: nat, now: int) returns (t: Session)
    requires Scoped(s) && Alive(s) && s.inner.current.Some? && s.inner.steerOwner == Some(id) && NoFinisher(s)
    requires id in s.waiters
    ensures Scoped(t) && CanReach(s, t) && Stranded(t, s.inner.current.value.n) && t.waiters == s.waiters - {id}
  {
    var marked := Step(s, Life(MarkClosing));
    OneMore(s, Life(MarkClosing), marked);
    var closed := Step(marked, Life(CloseSection));
    OneMore(marked, Life(CloseSection), closed);
    CloseStrandsSteeredTurn(s, id, Stopped(EndTurn), now);
    var e := Steering(SteerResolved(id, Stopped(EndTurn), now));
    t := Step(closed, e);
    OneMore(closed, e, t);
    Stay(t);
    Before(closed, e, t);
    Before(marked, Life(CloseSection), t);
    Before(s, Life(MarkClosing), t);
  }

  /** From any plain launch, a run inside the assumptions closes over a steer's own
      turn: once that steer has answered, nothing is left that will settle it. */
  lemma CloseCanStrandTurn(s: Session, u: TurnData.Update, now: int) returns (mid: Session, t: Session)
    requires Plain(s) && s.sem.Answered?
    ensures Scoped(mid) && Alive(mid) && mid.inner.steerOwner.Some? && mid.inner.steerOwner.value in mid.waiters
    ensures mid.inner.current.Some? && CanReach(mid, t) && Scoped(t) && Stranded(t, mid.inner.current.value.n)
    ensures t.waiters == mid.waiters - {mid.inner.steerOwner.value}
  {
    var a := FirstTurn(s, now);
    var b := SteeredTurn(a);
    var c := EndWithSteerOut(b, now);
    mid := SteersOwnTurn(c, c.inner.steerPending[0], u, now);
    SameFinishers(c, mid);
    t := ClosedAndAnswered(mid, c.inner.steerPending[0].id, now);
  }

  // ---- the lost target, in scope ----

  lemma LostTargetFails(i: Inner, n: nat)
    requires i.status.Exited? && i.recording.None? && i.current.None? && n == NextTurnNumber(i)
    requires |i.steerPending| == 1 && i.steerPending[0].target == n
    requires forall k :: 0 <= k < |i.turns| ==> i.turns[k].n < n
    ensures Waiting.TargetLost(i, n) && Waiting.AwaitedElapsed(i, n) == Err(Waiting.NoStartRecorded)
  {
    assert i.steerPending[0] in i.steerPending;
  }

  /** A steer whose sender already held the wire when the agent died is pushed into
      the dead session. */
  lemma DeadSteer(s: Session) returns (t: Session)
    requires Scoped(s) && s.wire.SteerSend? && s.connected && s.closing.None? && s.inner.recording.None?
    ensures Scoped(t) && t.inner.status.Exited? && t.inner.current.None? && t.inner.recording.None?
    ensures t.inner.turns == s.inner.turns && t.inner.turnOffset == s.inner.turnOffset
    ensures |t.inner.steerPending| == 1 && t.inner.steerPending[0].target == NextTurnNumber(s.inner)
  {
    var dead := AgentDies(s);
    t := Step(dead, Steering(SteerPush));
    OneMore(dead, Steering(SteerPush), t);
  }

  lemma AgentDies(s: Session) returns (t: Session)
    requires Scoped(s) && s.connected && s.closing.None?
    ensures Scoped(t) && t.wire == s.wire && t.inner == Disconnect(s.inner)
  {
    t := Step(s, Life(AgentExit(false)));
    OneMore(s, Life(AgentExit(false)), t);
  }

  /** From any plain launch, a run in scope can make a wait on its first turn fail. */
  lemma WaitCanFail(s: Session, now: int) returns (t: Session, n: nat)
    requires Plain(s)
    ensures Scoped(t) && Waiting.AwaitedElapsed(t.inner, n) == Err(Waiting.NoStartRecorded)
  {
    var a := FirstTurn(s, now);
    var b := SteerSenderIsReachable(a);
    t := DeadSteer(b);
    n := NextTurnNumber(t.inner);
    NumbersBelowNext(t);
    LostTargetFails(t.inner, n);
  }

  lemma NumbersBelowNext(s: Session)
    requires Scoped(s)
    ensures forall k :: 0 <= k < |s.inner.turns| ==> s.inner.turns[k].n < NextTurnNumber(s.inner)
  {
    ScopedWaits(s);
  }

  // ---- a replay that differs ----

  /** A run in scope reaches the state and writes the log, from a launch whose turns
      the log it found gives back. */
  ghost predicate Logs(s: Session, log: seq<LogRecord>) {
    exists s0, es, log0 :: LogsFrom(s0, es, log0, s, log)
  }

  ghost predicate LogsFrom(s0: Session, es: seq<Event>, log0: seq<LogRecord>, s: Session, log: seq<LogRecord>) {
    && Launched(s0) && Rebuilds(ReplayAll(log0), s0.inner) && Allowed(s0, es)
    && Run(s0, es) == s && log == log0 + LogRun(s0, es)
  }

  lemma {:induction false} LogExtends(s: Session, es: seq<Event>, e: Event)
    requires Allowed(s, es) && Enabled(Run(s, es), e) && InScope(Run(s, es), e)
    ensures Allowed(s, es + [e]) && LogRun(s, es + [e]) == LogRun(s, es) + LogOf(Run(s, es), e)
    decreases |es|
  {
    RunExtends(s, es, e);
    if es == [] {
      assert [] + [e] == [e] && [e][1..] == [];
      LogsJoin([], LogOf(s, e), []);
      assert LogRun(s, [e]) == LogOf(s, e) + LogRun(Step(s, e), []);
    } else {
      assert (es + [e])[1..] == es[1..] + [e];
      var t := Step(s, es[0]);
      LogExtends(t, es[1..], e);
      LogsJoin(LogOf(s, es[0]), LogRun(t, es[1..]), LogOf(Run(s, es), e));
    }
  }

  lemma LogsStep(s: Session, log: seq<LogRecord>, e: Event)
    requires Logs(s, log) && Enabled(s, e) && InScope(s, e)
    ensures Logs(Step(s, e), log + LogOf(s, e))
  {
    var s0, es, log0 :| LogsFrom(s0, es, log0, s, log);
    RunExtends(s0, es, e);
    LogExtends(s0, es, e);
    LogsJoin(log0, LogRun(s0, es), LogOf(s, e));
    assert LogsFrom(s0, es + [e], log0, Step(s, e), log + LogOf(s, e));
  }

  /** The same over harmless steps alone. */
  ghost predicate Tracked(s: Session, log: seq<LogRecord>) {
    exists s0, es, log0 :: LogsFrom(s0, es, log0, s, log) && HarmlessRun(s0, es, log0)
  }

  lemma TrackedAgrees(s: Session, log: seq<LogRecord>)
    requires Tracked(s, log)
    ensures Full(s) && Faithful(s, log) && Logs(s, log)
  {
    var s0, es, log0 :| LogsFrom(s0, es, log0, s, log) && HarmlessRun(s0, es, log0);
    LaunchedFull(s0);
    LaunchedFaithful(s0, log0);
    RunKeepsFull(s0, es);
    RunStaysFaithful(s0, es, log0);
  }

  lemma {:induction false} HarmlessExtends(s: Session, es: seq<Event>, log: seq<LogRecord>, e: Event)
    requires Allowed(s, es) && HarmlessRun(s, es, log) && Allowed(s, es + [e])
    requires Enabled(Run(s, es), e) && InScope(Run(s, es), e) && Harmless(Run(s, es), e, log + LogRun(s, es))
    ensures HarmlessRun(s, es + [e], log)
    decreases |es|
  {
    if es == [] {
      assert [] + [e] == [e] && [e][1..] == [] && log + LogRun(s, []) == log;
      assert Allowed(Step(s, e), []) && HarmlessRun(Step(s, e), [], log + LogOf(s, e));
    } else {
      assert (es + [e])[1..] == es[1..] + [e];
      var t := Step(s, es[0]);
      LogsJoin(log, LogOf(s, es[0]), LogRun(t, es[1..]));
      HarmlessExtends(t, es[1..], log + LogOf(s, es[0]), e);
    }
  }

  lemma TrackedStep(s: Session, log: seq<LogRecord>, e: Event)
    requires Tracked(s, log) && Enabled(s, e) && InScope(s, e) && Harmless(s, e, log)
    ensures Tracked(Step(s, e), log + LogOf(s, e))
  {
    var s0, es, log0 :| LogsFrom(s0, es, log0, s, log) && HarmlessRun(s0, es, log0);
    RunExtends(s0, es, e);
    LogExtends(s0, es, e);
    LogsJoin(log0, LogRun(s0, es), LogOf(s, e));
    HarmlessExtends(s0, es, log0, e);
    assert LogsFrom(s0, es + [e], log0, Step(s, e), log + LogOf(s, e));
  }

  /** The state is reached by harmless steps; the next one is harmful, and leaves a
      quiet session the log does not give back. */
  ghost predicate PartsAt(s: Session, log: seq<LogRecord>, e: Event) {
    && Tracked(s, log) && Enabled(s, e) && InScope(s, e) && !Harmless(s, e, log)
    && Quiet(Step(s, e)) && Logs(Step(s, e), log + LogOf(s, e))
    && !Rebuilds(ReplayAll(log + LogOf(s, e)), Step(s, e).inner)
  }

  lemma HarmfulStep(s: Session, log: seq<LogRecord>, e: Event)
    requires Tracked(s, log) && Enabled(s, e) && InScope(s, e) && !Harmless(s, e, log) && Quiet(Step(s, e))
    ensures PartsAt(s, log, e)
  {
    TrackedAgrees(s, log);
    LogsStep(s, log, e);
    StepKeepsFull(s, e);
    StepAgreesIff(s, e, log);
    QuietRebuilds(ReplayAll(log + LogOf(s, e)), Step(s, e));
  }

  lemma PlainTracked(s: Session, log: seq<LogRecord>)
    requires Plain(s) && Rebuilds(ReplayAll(log), s.inner)
    ensures Tracked(s, log)
    ensures s.wire.Free? && CheckGate(s) && s.connected && s.seen.None? && OldestSteer(s.inner).None?
  {
    assert log + LogRun(s, []) == log;
    assert LogsFrom(s, [], log, s, log);
  }

  const HELLO := TurnData.MessageChunk(TurnData.Text("hello"))

  lemma HelloIsNews(d: TurnData.Data)
    ensures TurnData.Apply(d, HELLO) != d
  {
    assert |d.reply + "hello"| > |d.reply|;
  }

  lemma LoggedPrompt(s: Session, log: seq<LogRecord>) returns (t: Session, log': seq<LogRecord>)
    requires Tracked(s, log) && s.wire.Starting? && s.inner.current.Some?
    ensures Tracked(t, log') && t == StepBeginWire(s)
  {
    var e := Start(BeginWire);
    TrackedStep(s, log, e);
    t, log' := Step(s, e), log + LogOf(s, e);
  }

  /** A fresh prompt starts a turn and goes on the wire. */
  lemma LoggedStart(s: Session, log: seq<LogRecord>, now: int) returns (t: Session, log': seq<LogRecord>)
    requires Tracked(s, log) && s.wire.Free? && CheckGate(s)
    ensures Tracked(t, log') && t.wire.Free? && t.inner.current.Some? && t.seen == s.seen
    ensures t.inner.current.value.n == NextTurnNumber(s.inner) && t.inner.current.value.n in t.turnTasks
    ensures t.inner.status.Running? && t.connected == s.connected && OldestSteer(t.inner) == OldestSteer(s.inner)
  {
    var a, log1 := LoggedStamp(s, log, now);
    t, log' := LoggedPrompt(a, log1);
  }

  lemma LoggedStamp(s: Session, log: seq<LogRecord>, now: int) returns (t: Session, log': seq<LogRecord>)
    requires Tracked(s, log) && s.wire.Free? && CheckGate(s)
    ensures Tracked(t, log') && t == StepBegin(s, now) && log' == log
  {
    var e := Start(BeginCheck(now));
    TrackedStep(s, log, e);
    t, log' := Step(s, e), log + LogOf(s, e);
  }

  lemma LoggedSee(s: Session, log: seq<LogRecord>, now: int) returns (t: Session, log': seq<LogRecord>)
    requires Tracked(s, log) && s.connected && s.seen.None? && OldestSteer(s.inner).None?
    ensures Tracked(t, log') && t == s.(seen := t.seen)
    ensures t.seen == Some(Seen(if s.inner.current.Some? then s.inner.current.value.n else 0, HELLO))
  {
    var e := Traffic(See(HELLO, now));
    TrackedStep(s, log, e);
    t, log' := Step(s, e), log + LogOf(s, e);
  }

  /** From any plain launch, an update logged before a turn begins and folded into it
      makes the replay differ from memory. */
  lemma UpdateBeforeTurnDiffers(s: Session, log: seq<LogRecord>, now: int) returns (t: Session, log': seq<LogRecord>)
    requires Plain(s) && Rebuilds(ReplayAll(log), s.inner)
    ensures PartsAt(t, log', Traffic(Fold)) && t.inner.current.Some? && t.seen.value.turn == 0
  {
    PlainTracked(s, log);
    var a, log1 := LoggedSee(s, log, now);
    t, log' := LoggedStart(a, log1, now);
    FoldHarms(t, log');
  }

  lemma FoldHarms(s: Session, log: seq<LogRecord>)
    requires Tracked(s, log) && s.seen == Some(Seen(0, HELLO)) && s.inner.current.Some? && s.wire.Free?
    requires s.inner.current.value.n > 0
    ensures PartsAt(s, log, Traffic(Fold))
  {
    HelloIsNews(s.inner.current.value.data);
    HarmfulStep(s, log, Traffic(Fold));
  }

  lemma LoggedStop(s: Session, log: seq<LogRecord>) returns (t: Session, log': seq<LogRecord>)
    requires Tracked(s, log) && s.wire.Free? && s.inner.current.Some? && s.inner.current.value.n in s.turnTasks
    ensures Tracked(t, log') && t.wire == Finishing(s.inner.current.value.n, Stopped(EndTurn))
    ensures t.inner == s.inner && t.seen == s.seen
  {
    var e := End(FinishLock(s.inner.current.value.n, None, Stopped(EndTurn)));
    TrackedStep(s, log, e);
    t, log' := Step(s, e), log + LogOf(s, e);
  }

  /** From any plain launch, a turn that ends between an update's logging and its
      folding in makes the replay differ from memory. */
  lemma EndBeforeFoldDiffers(s: Session, log: seq<LogRecord>, now: int) returns (t: Session, log': seq<LogRecord>)
    requires Plain(s) && Rebuilds(ReplayAll(log), s.inner)
    ensures PartsAt(t, log', End(Settle(now))) && SeenOnOpen(t)
  {
    PlainTracked(s, log);
    var a, log1 := LoggedStart(s, log, now);
    var b, log2 := LoggedSee(a, log1, now);
    t, log' := LoggedStop(b, log2);
    SettleHarms(t, log', now);
  }

  lemma SettleHarms(s: Session, log: seq<LogRecord>, now: int)
    requires Tracked(s, log) && s.wire.Finishing? && s.inner.current.Some? && s.inner.status.Running?
    requires s.seen == Some(Seen(s.inner.current.value.n, HELLO))
    ensures PartsAt(s, log, End(Settle(now)))
  {
    HelloIsNews(s.inner.current.value.data);
    EndFrame(s.inner, s.sem, s.wire.outcome, s.superseded, now);
    HarmfulStep(s, log, End(Settle(now)));
  }

  /** From any plain launch, an agent that dies with its turn's prompt logged makes the
      replay differ from memory. */
  lemma DiscardedTurnDiffers(s: Session, log: seq<LogRecord>, now: int) returns (t: Session, log': seq<LogRecord>)
    requires Plain(s) && Rebuilds(ReplayAll(log), s.inner)
    ensures PartsAt(t, log', Life(AgentExit(false)))
    ensures t.inner.current.Some? && t.inner.current.value.n in ReplayAll(log')
  {
    PlainTracked(s, log);
    t, log' := LoggedStart(s, log, now);
    ExitHarms(t, log');
  }

  lemma ExitHarms(s: Session, log: seq<LogRecord>)
    requires Tracked(s, log) && s.wire.Free? && s.inner.current.Some? && s.connected
    ensures s.inner.current.value.n in ReplayAll(log) && PartsAt(s, log, Life(AgentExit(false)))
  {
    OpenIsLogged(s, log);
    HarmfulStep(s, log, Life(AgentExit(false)));
  }

  lemma OpenIsLogged(s: Session, log: seq<LogRecord>)
    requires Tracked(s, log) && s.wire.Free? && s.inner.current.Some?
    ensures s.inner.current.value.n in ReplayAll(log)
  {
    TrackedAgrees(s, log);
  }

  lemma NextIsUnlogged(s: Session, log: seq<LogRecord>)
    requires Tracked(s, log) && s.inner.current.None?
    ensures NextTurnNumber(s.inner) !in ReplayAll(log)
  {
    TrackedAgrees(s, log);
    assert !InView(s.inner, NextTurnNumber(s.inner));
  }

  /** From any plain launch, a prompt logged after its agent died with the turn makes
      the replay differ from memory. */
  lemma LatePromptDiffers(s: Session, log: seq<LogRecord>, now: int) returns (t: Session, log': seq<LogRecord>)
    requires Plain(s) && Rebuilds(ReplayAll(log), s.inner)
    ensures PartsAt(t, log', Start(BeginWire)) && t.inner.current.None?
  {
    PlainTracked(s, log);
    t, log' := DiesStamped(s, log, now);
    PromptHarms(t, log');
  }

  lemma DiesStamped(s: Session, log: seq<LogRecord>, now: int) returns (t: Session, log': seq<LogRecord>)
    requires Tracked(s, log) && s.wire.Free? && CheckGate(s) && s.inner.current.None? && s.connected
    ensures Tracked(t, log') && t.wire.Starting? && t.inner.current.None?
  {
    NextIsUnlogged(s, log);
    var a, log1 := LoggedStamp(s, log, now);
    t, log' := DiesUnlogged(a, log1);
  }

  lemma PromptHarms(s: Session, log: seq<LogRecord>)
    requires Tracked(s, log) && s.wire.Starting? && s.inner.current.None?
    ensures PartsAt(s, log, Start(BeginWire))
  {
    HarmfulStep(s, log, Start(BeginWire));
  }

  lemma DiesUnlogged(s: Session, log: seq<LogRecord>) returns (t: Session, log': seq<LogRecord>)
    requires Tracked(s, log) && Unlogged(s, log) && s.connected
    ensures Tracked(t, log') && t.wire == s.wire && t.inner.current.None?
  {
    var e := Life(AgentExit(false));
    TrackedStep(s, log, e);
    t, log' := Step(s, e), log + LogOf(s, e);
  }
}
