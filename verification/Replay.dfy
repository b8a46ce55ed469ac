/** The transcript as a log: the records the turn machine's steps write, and the
    replay that rebuilds a session's turns from them. */
module Replay {
  import opened Common
  import opened SessionState
  import opened TurnMachine
  import opened TurnInvariant
  import opened TurnSteers
  import opened TurnTheorems
  import opened WaitInvariant
  import QueueOrder
  import SteerEnds
  import TurnData

  /** A record, as far as the replay reads it: every kind names its turn (0: none). */
  datatype LogRecord =
    | PromptRecord(turn: nat)
    | UpdateRecord(turn: nat, update: TurnData.Update)
    | StopRecord(turn: nat, outcome: PromptOutcome)
    | OtherRecord(turn: nat)   // steer, steer_end, queue_dropped, park

  /** What the replay restores of a turn: all but its times and its steers. */
  datatype View = View(n: nat, data: TurnData.Data, stopReason: Option<StopReason>, rateLimited: bool)

  function ViewOf(t: Turn): View {
    View(t.n, t.data, t.stopReason, t.rateLimited)
  }

  function Blank(n: nat): View {
    View(n, TurnData.NO_DATA, None, false)
  }

  /** A turn's stop record marks it limited, names its stop reason, or (an error)
      neither. */
  function Stop(v: View, outcome: PromptOutcome): View {
    match outcome
    case Stopped(reason) => v.(stopReason := Some(reason))
    case LimitHit(_, _) => v.(rateLimited := true)
    case Errored(_) => v
  }

  function ReplayRecord(turns: map<nat, View>, r: LogRecord): map<nat, View> {
    if r.turn == 0 then turns
    else
      var turn := if r.turn in turns then turns[r.turn] else Blank(r.turn);
      turns[r.turn :=
        match r
        case UpdateRecord(_, u) => turn.(data := TurnData.Apply(turn.data, u))
        case StopRecord(_, outcome) => Stop(turn, outcome)
        case _ => turn]
  }

  function ReplayAll(log: seq<LogRecord>): map<nat, View> {
    if log == [] then map[] else ReplayRecord(ReplayAll(log[..|log| - 1]), log[|log| - 1])
  }

  /** `replay_transcript`'s pass: the turns by number. */
  method ReplayTranscript(log: seq<LogRecord>) returns (turns: map<nat, View>)
    ensures turns == ReplayAll(log)
  {
    turns := map[];
    var k := 0;
    while k < |log|
      invariant 0 <= k <= |log| && turns == ReplayAll(log[..k])
    {
      var r := log[k];
      if r.turn > 0 {
        var turn := if r.turn in turns then turns[r.turn] else Blank(r.turn);
        match r {
          case UpdateRecord(_, u) => turn := turn.(data := TurnData.Apply(turn.data, u));
          case StopRecord(_, LimitHit(_, _)) => turn := turn.(rateLimited := true);
          case StopRecord(_, Stopped(reason)) => turn := turn.(stopReason := Some(reason));
          case _ =>
        }
        turns := turns[r.turn := turn];
      }
      assert log[..k + 1][..k] == log[..k];
      k := k + 1;
    }
    assert log[..k] == log;
  }

  // ---- what the replay gives back of each turn ----

  ghost predicate Mentions(log: seq<LogRecord>, n: nat) {
    exists k :: 0 <= k < |log| && log[k].turn == n
  }

  ghost predicate LimitUnder(log: seq<LogRecord>, n: nat) {
    exists k :: 0 <= k < |log| && log[k].turn == n && log[k].StopRecord? && log[k].outcome.LimitHit?
  }

  /** The updates logged under a turn, in order. */
  function UpdatesUnder(log: seq<LogRecord>, n: nat): seq<TurnData.Update> {
    if log == [] then []
    else
      var last := log[|log| - 1];
      UpdatesUnder(log[..|log| - 1], n) + if last.UpdateRecord? && last.turn == n then [last.update] else []
  }

  /** The last stop reason recorded for a turn. */
  function ReasonUnder(log: seq<LogRecord>, n: nat): Option<StopReason> {
    if log == [] then None
    else
      var last := log[|log| - 1];
      if last.StopRecord? && last.turn == n && last.outcome.Stopped? then Some(last.outcome.stop)
      else ReasonUnder(log[..|log| - 1], n)
  }

  /** The replay gives back exactly the turns the records name, but for number 0: each
      with what its logged updates add up to, the last stop reason recorded for it, and
      a limit's mark if one was. */
  lemma {:induction false} ReplayedTurn(log: seq<LogRecord>, n: nat)
    ensures n in ReplayAll(log) <==> n > 0 && Mentions(log, n)
    ensures n in ReplayAll(log) ==>
      && ReplayAll(log)[n].n == n && ReplayAll(log)[n].data == TurnData.ApplyAll(UpdatesUnder(log, n))
      && ReplayAll(log)[n].stopReason == ReasonUnder(log, n)
      && (ReplayAll(log)[n].rateLimited <==> LimitUnder(log, n))
    ensures !Mentions(log, n) ==> UpdatesUnder(log, n) == [] && ReasonUnder(log, n).None? && !LimitUnder(log, n)
  {
    if log != [] {
      var rest, last := log[..|log| - 1], log[|log| - 1];
      ReplayedTurn(rest, n);
      LastMentions(rest, last, n);
      assert log == rest + [last];
      UpdatesExtend(rest, last, n);
    }
  }

  lemma LastMentions(rest: seq<LogRecord>, last: LogRecord, n: nat)
    ensures Mentions(rest + [last], n) <==> Mentions(rest, n) || last.turn == n
    ensures LimitUnder(rest + [last], n) <==>
      LimitUnder(rest, n) || (last.turn == n && last.StopRecord? && last.outcome.LimitHit?)
  {
    var log := rest + [last];
    assert log[|rest|] == last && forall k :: 0 <= k < |rest| ==> log[k] == rest[k];
    if Mentions(rest, n) {
      var k :| 0 <= k < |rest| && rest[k].turn == n;
      assert log[k].turn == n;
    }
    if LimitUnder(rest, n) {
      var k :| 0 <= k < |rest| && rest[k].turn == n && rest[k].StopRecord? && rest[k].outcome.LimitHit?;
      assert log[k].turn == n;
    }
  }

  lemma UpdatesExtend(rest: seq<LogRecord>, last: LogRecord, n: nat)
    ensures TurnData.ApplyAll(UpdatesUnder(rest + [last], n)) ==
      if last.UpdateRecord? && last.turn == n
      then TurnData.Apply(TurnData.ApplyAll(UpdatesUnder(rest, n)), last.update)
      else TurnData.ApplyAll(UpdatesUnder(rest, n))
  {
    var us := UpdatesUnder(rest, n);
    assert (rest + [last])[..|rest|] == rest;
    if last.UpdateRecord? && last.turn == n {
      assert (us + [last.update])[..|us|] == us;
    } else {
      assert us + [] == us;
    }
  }

  /** So the reply it gives back is the text of the chunks logged under the turn. */
  lemma ReplayedReply(log: seq<LogRecord>, n: nat)
    requires n > 0 && Mentions(log, n)
    ensures n in ReplayAll(log) && ReplayAll(log)[n].data.reply == TurnData.ChunkTexts(UpdatesUnder(log, n))
  {
    ReplayedTurn(log, n);
    TurnData.ReplyIsChunkTexts(UpdatesUnder(log, n));
  }

  // ---- what each step writes ----

  function TurnTouched(n: nat, wrote: bool): seq<LogRecord> {
    if wrote then [OtherRecord(n)] else []
  }

  /** The `prompt` record is written between a turn's stamp and its way onto the wire;
      a start that fails to write it is aborted. */
  function StartLog(s: Session, e: StartEvent): seq<LogRecord>
    requires StartEnabled(s, e)
  {
    if e.BeginWire? then [PromptRecord(s.wire.n)] else []
  }

  function SteerLog(s: Session, e: SteerEvent): seq<LogRecord>
    requires SteerEnabled(s, e)
  {
    match e
    case SteerLock => []
    case SteerPush => [OtherRecord(PushSteer(s.inner, s.nextSteer).1)]
    case SteerResolved(id, answer, now) =>
      [OtherRecord(ResolveSteer(s.inner, id, s.waiters[id], answer, s.superseded, now).turn)]
  }

  function EndLog(s: Session, e: EndEvent): seq<LogRecord>
    requires EndEnabled(s, e)
  {
    match e
    case FinishLock(n, _, outcome) => [StopRecord(n, outcome)]
    case Settle(now) =>
      var end := EndTurnWith(s.inner, s.sem, s.wire.outcome, s.superseded, now);
      TurnTouched(s.wire.n, end.dropped != [] || end.inner.steerPending != s.inner.steerPending)
    case _ => []
  }

  function TrafficLog(s: Session, e: TrafficEvent): seq<LogRecord>
    requires TrafficEnabled(s, e)
  {
    match e
    case See(u, now) =>
      var i := Materialize(s.inner, now);
      [UpdateRecord(if i.current.Some? then i.current.value.n else 0, u)]
    case CancelCall => TurnTouched(if s.inner.current.Some? then s.inner.current.value.n else 0, s.inner.queue != [])
    case _ => []
  }

  function LogOf(s: Session, e: Event): seq<LogRecord>
    requires Enabled(s, e)
  {
    match e
    case Start(x) => StartLog(s, x)
    case Steering(x) => SteerLog(s, x)
    case End(x) => EndLog(s, x)
    case Traffic(x) => TrafficLog(s, x)
    case _ => []
  }

  /** A steer, its resolution, and a cancel or a turn's end that gives up prompts each
      leave a record under their turn. */
  lemma SteersAndDropsAreLogged(s: Session, e: Event)
    requires Enabled(s, e)
    ensures e == Steering(SteerPush) ==> LogOf(s, e) == [OtherRecord(Step(s, e).targets[s.nextSteer])]
    ensures e.Steering? && e.steering.SteerResolved? ==>
      LogOf(s, e) == [OtherRecord(if s.inner.current.Some? then s.inner.current.value.n else s.waiters[e.steering.id])]
    ensures e.End? && e.end.Settle? && QueueOrder.GivenUp(s, e) != [] ==> LogOf(s, e) == [OtherRecord(s.wire.n)]
    ensures e == Traffic(CancelCall) && QueueOrder.GivenUp(s, e) != [] ==>
      LogOf(s, e) == [OtherRecord(if s.inner.current.Some? then s.inner.current.value.n else 0)]
  {
    match e
    case Steering(SteerResolved(id, answer, now)) =>
      ResolveFrame(s.inner, id, s.waiters[id], answer, s.superseded, now);
    case End(Settle(now)) => QueueOrder.SettleDrops(s.inner, s.sem, s.wire.outcome, s.superseded, now);
    case _ =>
  }

  // ---- log and memory agree ----

  /** A turn as the log gives it back. */
  function Logged(turns: map<nat, View>, n: nat): View {
    if n in turns then turns[n] else Blank(n)
  }

  /** An update between its logging and its folding in was logged under the open turn. */
  predicate SeenOnOpen(s: Session) {
    s.seen.Some? && s.inner.current.Some? && s.seen.value.turn == s.inner.current.value.n
  }

  function Fed(d: TurnData.Data, s: Session): TurnData.Data {
    if s.seen.Some? then TurnData.Apply(d, s.seen.value.update) else d
  }

  /** The open turn as the log has it: an update seen and not yet folded in, a stop
      recorded and not yet settled. */
  function AheadView(s: Session): View
    requires s.inner.current.Some?
  {
    var v := ViewOf(s.inner.current.value);
    var fed := if SeenOnOpen(s) then v.(data := Fed(v.data, s)) else v;
    if s.wire.Finishing? then Stop(fed, s.wire.outcome) else fed
  }

  /** The log gives back the settled turns and the open one, and no other; the open
      one may be unlogged until its prompt is. */
  ghost predicate Agrees(turns: map<nat, View>, s: Session) {
    var i := s.inner;
    && (forall n: nat :: n in turns ==> InView(i, n))
    && (forall k :: 0 <= k < |i.turns| ==> i.turns[k].n in turns && turns[i.turns[k].n] == ViewOf(i.turns[k]))
    && (i.current.Some? ==>
          && Logged(turns, i.current.value.n) == AheadView(s)
          && (i.current.value.n in turns || s.wire == Starting(i.current.value.n)))
  }

  /** No task is left to end a turn, but for one that has just begun. */
  ghost predicate NoEnds(s: Session) {
    (forall n: nat :: s.turnTasks[n] == 0 && ClaimsOn(s, n) == []) && !s.wire.Finishing?
  }

  ghost predicate Faithful(s: Session, log: seq<LogRecord>) {
    var turns := ReplayAll(log);
    && Agrees(turns, s)
    && (s.inner.current.None? ==> NoEnds(s) && !s.wire.SteerSend?)
    && (s.seen.Some? && s.seen.value.turn != 0 ==> s.seen.value.turn in turns)
    && (forall id :: id in s.targets ==> s.targets[id] in turns)
    && (s.wire.Starting? ==> s.wire.n == NextTurnNumber(s.inner))
  }

  /** The steps that leave log and memory agreeing. A turn may end with an update
      logged and not yet folded in, and an update be folded into another turn than it
      was logged under, only where the update changes nothing; an open turn may be
      discarded, by its agent's death or a failed prompt record, only where nothing
      is logged under it; and a discarded turn's prompt must not be logged after all. */
  ghost predicate Harmless(s: Session, e: Event, log: seq<LogRecord>) {
    match e
    case Start(BeginWire) => s.inner.current.Some?
    case Start(BeginAbort(_)) => Unlogged(s, log)
    case Life(AgentExit(noticed)) => noticed || Unlogged(s, log)
    case End(Settle(_)) => SeenOnOpen(s) ==> Idle(s)
    case Traffic(Fold) => s.inner.current.Some? && !SeenOnOpen(s) ==> Idle(s)
    case _ => true
  }

  ghost predicate Unlogged(s: Session, log: seq<LogRecord>) {
    s.inner.current.Some? ==> s.inner.current.value.n !in ReplayAll(log)
  }

  /** The update seen changes nothing of the open turn. */
  predicate Idle(s: Session)
    requires s.inner.current.Some?
  {
    Fed(s.inner.current.value.data, s) == s.inner.current.value.data
  }

  // ---- records and views ----

  lemma OneRecord(log: seq<LogRecord>, r: LogRecord)
    ensures ReplayAll(log + [r]) == ReplayRecord(ReplayAll(log), r)
    ensures log + [] == log
  {
    assert (log + [r])[..|log|] == log;
  }

  /** A step that leaves every view as it was. */
  ghost predicate ViewsStand(s: Session, t: Session) {
    && t.inner.turnOffset == s.inner.turnOffset && |t.inner.turns| == |s.inner.turns|
    && (forall k :: 0 <= k < |s.inner.turns| ==> ViewOf(t.inner.turns[k]) == ViewOf(s.inner.turns[k]))
    && (t.inner.current.None? <==> s.inner.current.None?)
    && (s.inner.current.Some? ==> ViewOf(t.inner.current.value) == ViewOf(s.inner.current.value))
    && t.seen == s.seen && EndOn(t.wire) == EndOn(s.wire)
    && (s.wire.Starting? || t.wire.Starting? ==> t.wire == s.wire)
  }

  /** The outcome of a turn end logged and not yet settled. */
  function EndOn(w: Wire): Option<PromptOutcome> {
    if w.Finishing? then Some(w.outcome) else None
  }

  lemma StandingViews(s: Session, t: Session, turns: map<nat, View>)
    requires Agrees(turns, s) && ViewsStand(s, t)
    ensures Agrees(turns, t)
  {
    forall k | 0 <= k < |t.inner.turns|
      ensures t.inner.turns[k].n in turns && turns[t.inner.turns[k].n] == ViewOf(t.inner.turns[k])
    {
      assert ViewOf(t.inner.turns[k]).n == s.inner.turns[k].n;
    }
    if s.inner.current.Some? {
      assert ViewOf(t.inner.current.value).n == s.inner.current.value.n;
      assert ViewOf(t.inner.current.value).data == s.inner.current.value.data;
    }
  }

  lemma StandsFaithful(s: Session, t: Session, log: seq<LogRecord>)
    requires Faithful(s, log) && ViewsStand(s, t)
    requires t.targets == s.targets
    requires s.inner.current.None? ==> t.turnTasks == s.turnTasks && t.claims == s.claims
    requires t.wire.SteerSend? ==> s.wire.SteerSend? || s.inner.current.Some?
    ensures Faithful(t, log)
  {
    StandingViews(s, t, ReplayAll(log));
  }

  /** A record that only names a turn in view restores nothing new. */
  lemma TouchStaysFaithful(s: Session, log: seq<LogRecord>, n: nat)
    requires Numbered(s.inner) && Faithful(s, log) && (n == 0 || InView(s.inner, n))
    ensures Faithful(s, log + [OtherRecord(n)])
  {
    OneRecord(log, OtherRecord(n));
  }

  // ---- each step ----

  lemma SlotStaysFaithful(s: Session, e: SlotEvent, log: seq<LogRecord>)
    requires Faithful(s, log) && SlotEnabled(s, e)
    ensures Faithful(SlotStep(s, e), log)
  {
    StandsFaithful(s, SlotStep(s, e), log);
  }

  /** An open turn is discarded: the log has it, or it does not. */
  lemma DiscardIff(s: Session, t: Session, log: seq<LogRecord>)
    requires Core(s) && Faithful(s, log) && t.inner.current.None?
    requires t.inner.turns == s.inner.turns && t.inner.turnOffset == s.inner.turnOffset
    requires t.wire == s.wire || (s.wire.Starting? && t.wire.Free?)
    requires t.targets == s.targets && t.turnTasks == s.turnTasks && t.claims == s.claims && t.seen == s.seen
    ensures Agrees(ReplayAll(log), t) <==> Unlogged(s, log)
    ensures Unlogged(s, log) ==> Faithful(t, log)
  {
    DiscardAgrees(s, t, ReplayAll(log));
    if s.inner.current.Some? && Unlogged(s, log) { UnloggedIsStarting(s); }
  }

  lemma DiscardAgrees(s: Session, t: Session, turns: map<nat, View>)
    requires Numbered(s.inner) && Agrees(turns, s) && t.inner.current.None?
    requires t.inner.turns == s.inner.turns && t.inner.turnOffset == s.inner.turnOffset
    ensures Agrees(turns, t) <==> (s.inner.current.Some? ==> s.inner.current.value.n !in turns)
  {
    forall n: nat | HasSettled(t.inner, n) ensures HasSettled(s.inner, n) {}
    forall n: nat | HasSettled(s.inner, n) ensures HasSettled(t.inner, n) {}
  }

  /** A turn that has just begun has no other task to end it. */
  lemma UnloggedIsStarting(s: Session)
    requires Core(s) && s.inner.current.Some? && s.wire == Starting(s.inner.current.value.n)
    ensures forall m: nat :: s.turnTasks[m] == 0 && ClaimsOn(s, m) == []
  {
    var n := s.inner.current.value.n;
    assert Finishers(s, n) == 1;
    forall m: nat ensures s.turnTasks[m] == 0 && ClaimsOn(s, m) == [] { assert Finishers(s, m) > 0 ==> m == n; }
  }

  lemma LifeStepIff(s: Session, e: LifeEvent, log: seq<LogRecord>)
    requires Core(s) && Faithful(s, log) && LifeEnabled(s, e)
    ensures Agrees(ReplayAll(log), LifeStep(s, e)) <==> Harmless(s, Life(e), log)
    ensures Harmless(s, Life(e), log) ==> Faithful(LifeStep(s, e), log)
  {
    if e == AgentExit(false) {
      ExitIff(s, log);
    } else {
      OtherLifeStaysFaithful(s, e, log);
    }
  }

  lemma ExitIff(s: Session, log: seq<LogRecord>)
    requires Core(s) && Faithful(s, log) && s.connected
    ensures Agrees(ReplayAll(log), LifeStep(s, AgentExit(false))) <==> Unlogged(s, log)
    ensures Unlogged(s, log) ==> Faithful(LifeStep(s, AgentExit(false)), log)
  {
    DiscardIff(s, LifeStep(s, AgentExit(false)), log);
  }

  lemma OtherLifeStaysFaithful(s: Session, e: LifeEvent, log: seq<LogRecord>)
    requires Faithful(s, log) && LifeEnabled(s, e) && e != AgentExit(false)
    ensures Faithful(LifeStep(s, e), log)
  {
    StandsFaithful(s, LifeStep(s, e), log);
  }

  /** A stamped turn stands unlogged until its prompt is written. */
  lemma StampStaysFaithful(s: Session, t: Session, now: int, log: seq<LogRecord>)
    requires Numbered(s.inner) && Faithful(s, log) && s.inner.current.None? && Stamped(s, t, now)
    ensures Faithful(t, log)
  {
    assert !InView(s.inner, NextTurnNumber(s.inner));
    assert NextTurnNumber(s.inner) !in ReplayAll(log);
  }

  lemma StartStepIff(s: Session, e: StartEvent, log: seq<LogRecord>)
    requires Core(s) && Faithful(s, log) && StartEnabled(s, e)
    ensures Agrees(ReplayAll(log + StartLog(s, e)), StartStep(s, e)) <==> Harmless(s, Start(e), log)
    ensures Harmless(s, Start(e), log) ==> Faithful(StartStep(s, e), log + StartLog(s, e))
  {
    var t := StartStep(s, e);
    OneRecord(log, OtherRecord(0));
    match e
    case BeginWire => WireIff(s, log);
    case BeginAbort(_) => DiscardIff(s, t, log);
    case BeginCheck(now) =>
      CheckBeginKeepsCore(s, now);
      StampForms(s, now);
      StampStaysFaithful(s, t, now, log);
    case KickQueue(now) =>
      KickForms(s, now);
      StampStaysFaithful(s, t, now, log);
    case ChainStart(now) =>
      ChainForms(s, now);
      PopStaysFaithful(s, t, now, log);
    case ResumeStart(now, refusal) =>
      ResumeForms(s, now, refusal);
      PopStaysFaithful(s, t, now, log);
  }

  lemma PopStaysFaithful(s: Session, t: Session, now: int, log: seq<LogRecord>)
    requires Core(s) && Faithful(s, log) && (s.wire.Chained? || s.wire.Resuming?)
    requires (Stamped(s, t, now) && ChainedGate(s.inner)) || Refused(s, t)
    ensures Faithful(t, log)
  {
    if Refused(s, t) { StandsFaithful(s, t, log); } else { StampStaysFaithful(s, t, now, log); }
  }

  /** The prompt's record opens the turn in the log, unless the turn is gone. */
  lemma WireIff(s: Session, log: seq<LogRecord>)
    requires Core(s) && Faithful(s, log) && s.wire.Starting?
    ensures Agrees(ReplayAll(log + [PromptRecord(s.wire.n)]), StepBeginWire(s)) <==> s.inner.current.Some?
    ensures s.inner.current.Some? ==> Faithful(StepBeginWire(s), log + [PromptRecord(s.wire.n)])
  {
    if s.inner.current.None? {
      GonePromptIsLogged(s, StepBeginWire(s), log);
    } else {
      assert Finishers(s, s.wire.n) > 0;
      PromptStaysFaithful(s, StepBeginWire(s), log);
    }
  }

  lemma GonePromptIsLogged(s: Session, t: Session, log: seq<LogRecord>)
    requires Numbered(s.inner) && Faithful(s, log) && s.wire.Starting? && s.inner.current.None? && t.inner == s.inner
    ensures !Agrees(ReplayAll(log + [PromptRecord(s.wire.n)]), t)
  {
    OneRecord(log, PromptRecord(s.wire.n));
    assert s.wire.n in ReplayAll(log + [PromptRecord(s.wire.n)]) && !InView(t.inner, s.wire.n);
  }

  lemma PromptStaysFaithful(s: Session, t: Session, log: seq<LogRecord>)
    requires Faithful(s, log) && s.wire.Starting? && s.inner.current.Some? && s.inner.current.value.n == s.wire.n
    requires t.wire.Free? && t.seen == s.seen && t.targets == s.targets
    requires t.inner == s.inner.(current := t.inner.current) && t.inner.current.Some?
    requires ViewOf(t.inner.current.value) == ViewOf(s.inner.current.value)
    ensures Faithful(t, log + [PromptRecord(s.wire.n)])
  {
    OneRecord(log, PromptRecord(s.wire.n));
    assert ViewOf(t.inner.current.value).n == s.wire.n;
    assert AheadView(t) == AheadView(s) by {
      assert ViewOf(t.inner.current.value).data == s.inner.current.value.data;
    }
  }

  lemma PushStaysFaithful(s: Session, log: seq<LogRecord>)
    requires Core(s) && Faithful(s, log) && s.wire.SteerSend?
    ensures Faithful(StepSteerPush(s), log + SteerLog(s, SteerPush))
  {
    var n := s.inner.current.value.n;
    TouchStaysFaithful(s, log, n);
    OneRecord(log, OtherRecord(n));
    StandingViews(s, StepSteerPush(s), ReplayAll(log + [OtherRecord(n)]));
  }

  lemma ResolveStaysFaithful(s: Session, id: nat, answer: PromptOutcome, now: int, log: seq<LogRecord>)
    requires Core(s) && SteerLine(s) && Faithful(s, log) && id in s.waiters
    ensures Faithful(StepSteerResolved(s, id, answer, now),
                     log + [OtherRecord(ResolveSteer(s.inner, id, s.waiters[id], answer, s.superseded, now).turn)])
  {
    ResolvedTurn(s, id, answer, now, log);
    ResolvedViews(s, id, answer, now);
    TouchThenStand(s, StepSteerResolved(s, id, answer, now), log,
                   ResolveSteer(s.inner, id, s.waiters[id], answer, s.superseded, now).turn);
  }

  lemma TouchThenStand(s: Session, t: Session, log: seq<LogRecord>, n: nat)
    requires Numbered(s.inner) && Faithful(s, log) && InView(s.inner, n) && ViewsStand(s, t)
    requires t.targets == s.targets && t.wire == s.wire
    requires s.inner.current.None? ==> t.turnTasks == s.turnTasks && t.claims == s.claims
    ensures Faithful(t, log + [OtherRecord(n)])
  {
    TouchStaysFaithful(s, log, n);
    StandsFaithful(s, t, log + [OtherRecord(n)]);
  }

  /** The record a resolution writes names a turn in view. */
  lemma ResolvedTurn(s: Session, id: nat, answer: PromptOutcome, now: int, log: seq<LogRecord>)
    requires SteerLine(s) && Faithful(s, log) && id in s.waiters
    ensures InView(s.inner, ResolveSteer(s.inner, id, s.waiters[id], answer, s.superseded, now).turn)
  {
    ResolveFrame(s.inner, id, s.waiters[id], answer, s.superseded, now);
    assert s.targets[id] in ReplayAll(log);
  }

  lemma ResolvedViews(s: Session, id: nat, answer: PromptOutcome, now: int)
    requires Core(s) && id in s.waiters
    ensures var t := StepSteerResolved(s, id, answer, now);
      ViewsStand(s, t) && (s.inner.current.None? ==> t.turnTasks == s.turnTasks && t.claims == s.claims)
  {
    ResolveFrame(s.inner, id, s.waiters[id], answer, s.superseded, now);
    var left, end := SteerEnds.ResolveIsRecord(s.inner, id, s.waiters[id], answer, s.superseded, now);
    RecordFrame(left, id, s.waiters[id], end);
  }

  lemma SteerStaysFaithful(s: Session, e: SteerEvent, log: seq<LogRecord>)
    requires Core(s) && SteerLine(s) && Faithful(s, log) && SteerEnabled(s, e)
    requires e.SteerLock? ==> !ChainedGate(s.inner)
    ensures Faithful(SteerStep(s, e), log + SteerLog(s, e))
  {
    match e
    case SteerLock => StandsFaithful(s, SteerStep(s, e), log); OneRecord(log, OtherRecord(0));
    case SteerPush => PushStaysFaithful(s, log);
    case SteerResolved(id, answer, now) => ResolveStaysFaithful(s, id, answer, now, log);
  }

  /** The stop record lands on the open turn it ends. */
  lemma StopStaysFaithful(s: Session, n: nat, claim: Option<nat>, outcome: PromptOutcome, log: seq<LogRecord>)
    requires Core(s) && Faithful(s, log) && EndEnabled(s, FinishLock(n, claim, outcome))
    ensures Faithful(StepFinishLock(s, n, claim, outcome), log + [StopRecord(n, outcome)])
  {
    assert Finishers(s, n) > 0;
    OneRecord(log, StopRecord(n, outcome));
  }

  /** A turn ends with an update seen and not yet folded in: its record in memory has
      lost the update the log keeps. */
  lemma SettleIff(s: Session, now: int, log: seq<LogRecord>)
    requires Core(s) && Faithful(s, log) && s.wire.Finishing? && !s.inner.status.NeedsPermission?
    ensures Agrees(ReplayAll(log), StepSettle(s, now)) <==> (SeenOnOpen(s) ==> Idle(s))
    ensures (SeenOnOpen(s) ==> Idle(s)) ==> Faithful(StepSettle(s, now), log)
  {
    var t := StepSettle(s, now);
    assert Finishers(s, s.wire.n) > 0;
    EndSettlesUnder(s.inner, s.sem, s.wire.outcome, s.superseded, now);
    EndFrame(s.inner, s.sem, s.wire.outcome, s.superseded, now);
    SettledAgrees(s, t, ReplayAll(log));
    NoEndsLeft(s, t);
  }

  lemma NoEndsLeft(s: Session, t: Session)
    requires OneFinisher(s) && s.wire.Finishing? && t.wire.Settled?
    requires t.turnTasks == s.turnTasks && t.claims == s.claims
    ensures NoEnds(t)
  {
    NoneLeftToFinish(s, t);
    forall n: nat ensures t.turnTasks[n] == 0 && ClaimsOn(t, n) == [] { assert Finishers(t, n) == 0; }
  }

  lemma SettledAgrees(s: Session, t: Session, turns: map<nat, View>)
    requires Numbered(s.inner) && Agrees(turns, s) && s.wire.Finishing? && s.inner.current.Some?
    requires SettledUnder(s.inner, t.inner, s.wire.outcome) && t.inner.turnOffset == s.inner.turnOffset
    requires t.inner.turns[|s.inner.turns|].n == s.inner.current.value.n
    ensures Agrees(turns, t) <==> (SeenOnOpen(s) ==> Idle(s))
  {
    var m := |s.inner.turns|;
    var open := s.inner.current.value;
    assert ViewOf(t.inner.turns[m]) == Stop(ViewOf(open), s.wire.outcome);
    assert turns[open.n] == AheadView(s);
    assert AheadView(s).data == if SeenOnOpen(s) then Fed(open.data, s) else open.data;
    forall k | 0 <= k < m ensures ViewOf(t.inner.turns[k]) == ViewOf(s.inner.turns[k]) {}
  }

  lemma EndStepIff(s: Session, e: EndEvent, log: seq<LogRecord>)
    requires Core(s) && Faithful(s, log) && EndEnabled(s, e)
    requires e.Settle? ==> !s.inner.status.NeedsPermission?
    ensures Agrees(ReplayAll(log + EndLog(s, e)), EndStep(s, e)) <==> Harmless(s, End(e), log)
    ensures Harmless(s, End(e), log) ==> Faithful(EndStep(s, e), log + EndLog(s, e))
  {
    OneRecord(log, OtherRecord(0));
    match e
    case FinishLock(n, claim, outcome) => StopStaysFaithful(s, n, claim, outcome, log);
    case Settle(now) =>
      TouchSettled(s, log);
      SettleIff(s, now, log);
    case _ => RecordingStaysFaithful(s, e, log);
  }

  lemma RecordingStaysFaithful(s: Session, e: EndEvent, log: seq<LogRecord>)
    requires Faithful(s, log) && EndEnabled(s, e) && (e.Snap? || e.WriteEnd? || e.ClearRecording?)
    ensures Faithful(EndStep(s, e), log)
  {
    StandsFaithful(s, EndStep(s, e), log);
  }

  /** The records a settled turn's end adds name the turn, which is on the log. */
  lemma TouchSettled(s: Session, log: seq<LogRecord>)
    requires Core(s) && Faithful(s, log) && s.wire.Finishing?
    ensures ReplayAll(log + [OtherRecord(s.wire.n)]) == ReplayAll(log)
  {
    assert Finishers(s, s.wire.n) > 0;
    OneRecord(log, OtherRecord(s.wire.n));
  }

  /** An update is logged under the turn open when it comes. */
  lemma SeeStaysFaithful(s: Session, u: TurnData.Update, now: int, log: seq<LogRecord>)
    requires Core(s) && Faithful(s, log) && s.connected && s.seen.None?
    ensures Faithful(StepSee(s, u, now), log + TrafficLog(s, See(u, now)))
  {
    var t := StepSee(s, u, now);
    if s.inner.current.None? && OldestSteer(s.inner).Some? {
      SeeOpensFaithful(s, t, u, now, log);
    } else {
      SeeStandsFaithful(s, t, u, log);
    }
  }

  lemma SeeOpensFaithful(s: Session, t: Session, u: TurnData.Update, now: int, log: seq<LogRecord>)
    requires Numbered(s.inner) && Faithful(s, log) && s.inner.current.None? && s.seen.None?
    requires t == s.(inner := OpenTurn(s.inner, now).(steerOwner := t.inner.steerOwner), seen := t.seen)
    requires t.seen == Some(Seen(NextTurnNumber(s.inner), u))
    ensures Faithful(t, log + [UpdateRecord(NextTurnNumber(s.inner), u)])
  {
    OneRecord(log, UpdateRecord(NextTurnNumber(s.inner), u));
    assert !InView(s.inner, NextTurnNumber(s.inner));
  }

  lemma SeeStandsFaithful(s: Session, t: Session, u: TurnData.Update, log: seq<LogRecord>)
    requires Numbered(s.inner) && Faithful(s, log) && s.seen.None? && t == s.(seen := t.seen)
    requires t.seen == Some(Seen(if s.inner.current.Some? then s.inner.current.value.n else 0, u))
    ensures Faithful(t, log + [UpdateRecord(t.seen.value.turn, u)])
  {
    OneRecord(log, UpdateRecord(t.seen.value.turn, u));
  }

  /** An update is folded into a turn it was not logged under: the turn has what the
      log does not. */
  lemma FoldIff(s: Session, log: seq<LogRecord>)
    requires Faithful(s, log) && s.seen.Some?
    ensures Agrees(ReplayAll(log), StepFold(s)) <==> (s.inner.current.Some? && !SeenOnOpen(s) ==> Idle(s))
    ensures (s.inner.current.Some? && !SeenOnOpen(s) ==> Idle(s)) ==> Faithful(StepFold(s), log)
  {
    if s.inner.current.Some? {
      var t := StepFold(s);
      assert AheadView(t).data == Fed(s.inner.current.value.data, s);
      assert AheadView(s).data ==
        if SeenOnOpen(s) then Fed(s.inner.current.value.data, s) else s.inner.current.value.data;
    }
  }

  lemma TrafficStepIff(s: Session, e: TrafficEvent, log: seq<LogRecord>)
    requires Core(s) && Faithful(s, log) && TrafficEnabled(s, e)
    ensures Agrees(ReplayAll(log + TrafficLog(s, e)), TrafficStep(s, e)) <==> Harmless(s, Traffic(e), log)
    ensures Harmless(s, Traffic(e), log) ==> Faithful(TrafficStep(s, e), log + TrafficLog(s, e))
  {
    OneRecord(log, OtherRecord(0));
    match e
    case See(u, now) => SeeStaysFaithful(s, u, now, log);
    case Fold => FoldIff(s, log);
    case CancelCall => CancelStaysFaithful(s, log);
    case _ => OtherTrafficStaysFaithful(s, e, log);
  }

  lemma CancelStaysFaithful(s: Session, log: seq<LogRecord>)
    requires Core(s) && Faithful(s, log) && Busy(s.inner.status)
    ensures Faithful(TrafficStep(s, CancelCall), log + TrafficLog(s, CancelCall))
  {
    var t := TrafficStep(s, CancelCall);
    OneRecord(log, OtherRecord(0));
    StandsFaithful(s, t, log);
    CancelKeepsCore(s);
    TouchStaysFaithful(t, log, if s.inner.current.Some? then s.inner.current.value.n else 0);
  }

  lemma OtherTrafficStaysFaithful(s: Session, e: TrafficEvent, log: seq<LogRecord>)
    requires Faithful(s, log) && TrafficEnabled(s, e) && !e.See? && !e.Fold? && !e.CancelCall?
    ensures Faithful(TrafficStep(s, e), log)
  {
    StandsFaithful(s, TrafficStep(s, e), log);
  }

  /** Each step of a run, taken from a log and a memory that agree, leaves them
      agreeing if and only if it is harmless. */
  lemma StepAgreesIff(s: Session, e: Event, log: seq<LogRecord>)
    requires Full(s) && Faithful(s, log) && Enabled(s, e) && InScope(s, e)
    ensures Agrees(ReplayAll(log + LogOf(s, e)), Step(s, e)) <==> Harmless(s, e, log)
    ensures Harmless(s, e, log) ==> Faithful(Step(s, e), log + LogOf(s, e))
  {
    OneRecord(log, OtherRecord(0));
    match e
    case Start(x) => StartStepIff(s, x, log);
    case Slot(x) => SlotStaysFaithful(s, x, log);
    case Steering(x) => SteerStaysFaithful(s, x, log);
    case End(x) => EndStepIff(s, x, log);
    case Traffic(x) => TrafficStepIff(s, x, log);
    case Life(x) => LifeStepIff(s, x, log);
  }

  // ---- whole runs ----

  ghost predicate HarmlessRun(s: Session, es: seq<Event>, log: seq<LogRecord>)
    requires Allowed(s, es)
    decreases |es|
  {
    es == [] || (Harmless(s, es[0], log) && HarmlessRun(Step(s, es[0]), es[1..], log + LogOf(s, es[0])))
  }

  ghost function LogRun(s: Session, es: seq<Event>): seq<LogRecord>
    requires Possible(s, es)
    decreases |es|
  {
    if es == [] then [] else LogOf(s, es[0]) + LogRun(Step(s, es[0]), es[1..])
  }

  lemma {:induction false} RunStaysFaithful(s: Session, es: seq<Event>, log: seq<LogRecord>)
    requires Full(s) && Faithful(s, log) && Allowed(s, es) && HarmlessRun(s, es, log)
    ensures Faithful(Run(s, es), log + LogRun(s, es))
    decreases |es|
  {
    if es == [] {
      assert log + LogRun(s, es) == log;
    } else {
      StepKeepsFull(s, es[0]);
      StepAgreesIff(s, es[0], log);
      var t, first := Step(s, es[0]), LogOf(s, es[0]);
      RunStaysFaithful(t, es[1..], log + first);
      LogsJoin(log, first, LogRun(t, es[1..]));
    }
  }

  lemma LogsJoin(a: seq<LogRecord>, b: seq<LogRecord>, c: seq<LogRecord>)
    ensures a + b + c == a + (b + c)
  {
  }

  /** The turns in memory are the turns of a replay. */
  ghost predicate Rebuilds(turns: map<nat, View>, i: Inner) {
    && (forall n: nat :: n in turns <==> InView(i, n))
    && (forall k :: 0 <= k < |i.turns| ==> i.turns[k].n in turns && turns[i.turns[k].n] == ViewOf(i.turns[k]))
    && (i.current.Some? ==> i.current.value.n in turns && turns[i.current.value.n] == ViewOf(i.current.value))
  }

  lemma LaunchedFaithful(s: Session, log: seq<LogRecord>)
    requires Launched(s) && Rebuilds(ReplayAll(log), s.inner)
    ensures Faithful(s, log)
  {
  }

  /** Nothing is logged and still to be taken in, and no prompt still to be logged. */
  predicate Quiet(s: Session) {
    !SeenOnOpen(s) && !s.wire.Finishing? && !s.wire.Starting?
  }

  lemma QuietRebuilds(turns: map<nat, View>, s: Session)
    requires Numbered(s.inner) && Quiet(s)
    ensures Agrees(turns, s) <==> Rebuilds(turns, s.inner)
  {
  }

  /** Replay undoes logging: over every run of harmless steps from a launch whose turns
      the log already gives back, the log gives back exactly the turns in memory,
      whenever nothing logged is still to be taken in. */
  lemma ReplayUndoesLogging(s0: Session, es: seq<Event>, log0: seq<LogRecord>)
    requires Launched(s0) && Rebuilds(ReplayAll(log0), s0.inner)
    requires Allowed(s0, es) && HarmlessRun(s0, es, log0) && Quiet(Run(s0, es))
    ensures Rebuilds(ReplayAll(log0 + LogRun(s0, es)), Run(s0, es).inner)
  {
    LaunchedFull(s0);
    LaunchedFaithful(s0, log0);
    RunStaysFaithful(s0, es, log0);
    RunKeepsFull(s0, es);
    QuietRebuilds(ReplayAll(log0 + LogRun(s0, es)), Run(s0, es));
  }

  /** A map's values by increasing number: what the replay returns. */
  function InKeyOrder(turns: map<nat, View>, upTo: nat): seq<View> {
    (if upTo == 0 then [] else InKeyOrder(turns, upTo - 1)) + (if upTo in turns then [turns[upTo]] else [])
  }

  function Views(turns: seq<Turn>): (views: seq<View>)
    ensures |views| == |turns| && forall k :: 0 <= k < |turns| ==> views[k] == ViewOf(turns[k])
  {
    seq(|turns|, k requires 0 <= k < |turns| => ViewOf(turns[k]))
  }

  /** A map's values, listed under increasing numbers. */
  ghost predicate Lists(turns: map<nat, View>, values: seq<View>) {
    && (forall n: nat :: n in turns <==> exists k :: 0 <= k < |values| && values[k].n == n)
    && (forall k :: 0 <= k < |values| ==> values[k].n in turns && turns[values[k].n] == values[k])
    && (forall j, k :: 0 <= j < k < |values| ==> values[j].n < values[k].n)
  }

  lemma LastOfThem(turns: map<nat, View>, values: seq<View>, n: nat, c: nat)
    requires Lists(turns, values) && n in turns && c <= |values|
    requires forall k :: 0 <= k < |values| ==> (k < c <==> values[k].n <= n)
    ensures c > 0 && values[c - 1].n == n && turns[n] == values[c - 1]
    ensures n > 0 ==> forall k :: 0 <= k < |values| ==> (k < c - 1 <==> values[k].n <= n - 1)
    ensures n == 0 ==> c == 1
  {
    var k :| 0 <= k < |values| && values[k].n == n;
    assert k + 1 < |values| ==> values[k].n < values[k + 1].n;
    assert c == k + 1;
  }

  /** They come out in that order: up to a number, the ones up to it. */
  lemma {:induction false} ListedInOrder(turns: map<nat, View>, values: seq<View>, upTo: nat, c: nat)
    requires Lists(turns, values) && c <= |values|
    requires forall k :: 0 <= k < |values| ==> (k < c <==> values[k].n <= upTo)
    ensures InKeyOrder(turns, upTo) == values[..c]
  {
    if upTo in turns {
      LastOfThem(turns, values, upTo, c);
      assert values[..c] == values[..c - 1] + [values[c - 1]];
      if upTo > 0 { ListedInOrder(turns, values, upTo - 1, c - 1); }
    } else if upTo > 0 {
      ListedInOrder(turns, values, upTo - 1, c);
    } else {
      assert |values| > 0 ==> values[0].n > 0;
    }
  }

  /** The list the replay returns is the settled turns, in order, with the open one
      last if there is one. */
  lemma ReplayListsTurns(turns: map<nat, View>, i: Inner)
    requires Numbered(i) && Rebuilds(turns, i)
    ensures InKeyOrder(turns, NextTurnNumber(i)) ==
      Views(i.turns) + if i.current.Some? then [ViewOf(i.current.value)] else []
  {
    var values := Views(i.turns) + if i.current.Some? then [ViewOf(i.current.value)] else [];
    ViewsListTurns(turns, i, values);
    ListedInOrder(turns, values, NextTurnNumber(i), |values|);
    assert values[..|values|] == values;
  }

  lemma ViewsListTurns(turns: map<nat, View>, i: Inner, values: seq<View>)
    requires Numbered(i) && Rebuilds(turns, i)
    requires values == Views(i.turns) + if i.current.Some? then [ViewOf(i.current.value)] else []
    ensures Lists(turns, values) && forall k :: 0 <= k < |values| ==> values[k].n <= NextTurnNumber(i)
  {
    forall k | 0 <= k < |values|
      ensures values[k].n in turns && turns[values[k].n] == values[k] && values[k].n <= NextTurnNumber(i)
    {
      if k < |i.turns| { assert values[k] == ViewOf(i.turns[k]); }
    }
    forall n: nat | n in turns ensures exists k :: 0 <= k < |values| && values[k].n == n {
      if HasSettled(i, n) {
        var k :| 0 <= k < |i.turns| && i.turns[k].n == n;
        assert values[k].n == n;
      } else {
        assert values[|i.turns|].n == n;
      }
    }
    forall j, k | 0 <= j < k < |values| ensures values[j].n < values[k].n {
      assert values[j] == ViewOf(i.turns[j]);
      if k < |i.turns| { assert values[k] == ViewOf(i.turns[k]); }
    }
  }
}
