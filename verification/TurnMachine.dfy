/** The per-session turn machine: every task that touches one session, interleaved.
    One event is one `inner` critical section (or one registry write, or one
    acquisition of `prompt_send`) of the task that performs it. */
module TurnMachine {
  import opened Common
  import opened SessionState
  import TurnData

  datatype Closing = Ending | HandingOff

  /** The registry's parked flag, with the send-queue as parked. */
  datatype Park = Park(resumeAt: int, reason: string, plan: Plan, queued: seq<Prompt>)

  datatype Entry = Entry(turns: nat, parked: Option<Park>)

  /** A popped prompt whose task waits for `prompt_send`: a steer resolution's kick,
      or a resume (`None`: the continuation) with its parked flag cleared or not yet. */
  datatype Hand = Kick(prompt: Prompt) | Resume(first: Option<Prompt>, cleared: bool)

  /** Who holds `prompt_send`, and how far that task has come. */
  datatype Wire =
    | Free
    | Starting(n: nat)
    | SteerSend
    | Finishing(n: nat, outcome: PromptOutcome)
    | Settled(n: nat, outcome: PromptOutcome, next: Option<Prompt>)
    | Snapped(n: nat, outcome: PromptOutcome, next: Option<Prompt>, count: nat, queued: seq<Prompt>)
    | Written(n: nat, outcome: PromptOutcome, next: Option<Prompt>)
    | Chained(prompt: Prompt)
    | Resuming(first: Option<Prompt>)
    | Parking(park: Park)

  /** A `session/update` between its two critical sections. */
  datatype Seen = Seen(turn: nat, update: TurnData.Update)

  datatype Session = Session(
    inner: Inner,
    sem: SteerSemantics,
    wire: Wire,
    hands: seq<Hand>,
    turnTasks: multiset<nat>,      // turn_task futures outstanding, by turn
    claims: map<nat, seq<PromptOutcome>>,  // finish_turn calls of answered owning steers, not yet on the wire lock
    waiters: map<nat, nat>,        // steered prompts still unanswered: id -> target turn
    nextSteer: nat,
    seen: Option<Seen>,
    entry: Option<Entry>,          // the session's registry entry
    closing: Option<Closing>,
    closed: bool,                  // close_sub's section ran
    live: bool,                    // still in the live map
    connected: bool,               // the agent process has not exited
    superseded: bool,
    writeFailed: bool,             // some transcript write of a turn start failed
    accepted: nat,                 // tickets given out so far
    started: seq<Prompt>,          // queued prompts whose turn was stamped, in order
    dropped: set<nat>,             // tickets dropped or ended with the session
    targets: map<nat, nat>)        // every steer ever sent: id -> target turn

  /** A task stamps a turn, or takes it onto the wire. */
  datatype StartEvent =
    | BeginCheck(now: int)
    | BeginWire
    | BeginAbort(abortReason: string)
    | ChainStart(now: int)
    | ResumeStart(now: int, refusal: string)
    | KickQueue(now: int)

  /** A popped prompt is reparked, or a parked session's slot is reserved. */
  datatype SlotEvent =
    | ChainRepark(at: int, limit: string)
    | ParkWrite
    | ReserveSlot(now: int)
    | HandClear(hand: nat)
    | HandLock(hand: nat)
    | KickRepark(at: int, limit: string)

  datatype SteerEvent =
    | SteerLock
    | SteerPush
    | SteerResolved(id: nat, answer: PromptOutcome, now: int)

  /** `finish_turn`, section by section. */
  datatype EndEvent =
    | FinishLock(n: nat, claim: Option<nat>, outcome: PromptOutcome)
    | Settle(now: int)
    | Snap
    | WriteEnd
    | ClearRecording

  /** What the agent sends, and what clients ask of the open turn. */
  datatype TrafficEvent =
    | AcceptQueued(text: string)
    | See(update: TurnData.Update, now: int)
    | Fold
    | PermissionAsk(request: string)
    | Permit(answered: nat)
    | PermissionWake
    | CancelCall

  /** What befalls the session: limits, its end, its handover. */
  datatype LifeEvent =
    | NoteLimit(at: int)
    | Unschedule
    | Forget
    | Unlist
    | MarkClosing
    | CloseSection
    | AgentExit(noticed: bool)
    | Supersede
    | PartitionMark

  datatype Event =
    | Start(start: StartEvent)
    | Slot(slot: SlotEvent)
    | Steering(steering: SteerEvent)
    | End(end: EndEvent)
    | Traffic(traffic: TrafficEvent)
    | Life(life: LifeEvent)

  function Tickets(prompts: seq<Prompt>): set<nat> {
    set p | p in prompts :: p.ticket
  }

  function Drop(s: Session, prompts: seq<Prompt>): Session {
    s.(dropped := s.dropped + Tickets(prompts))
  }

  function OptSeq<T>(o: Option<T>): seq<T> {
    if o.Some? then [o.value] else []
  }

  function WithParked(entry: Option<Entry>, parked: Option<Park>): Option<Entry> {
    if entry.None? then None else Some(entry.value.(parked := parked))
  }

  /** The answers of the steers that claimed the end of turn `n`. */
  function ClaimsOn(s: Session, n: nat): seq<PromptOutcome> {
    if n in s.claims then s.claims[n] else []
  }

  function WithoutHand(hands: seq<Hand>, k: nat): seq<Hand>
    requires k < |hands|
  {
    hands[..k] + hands[k + 1..]
  }

  // ---- starting turns ----

  /** `send queued`, when the slot is not free for a fresh turn. */
  function StepAccept(s: Session, text: string): Session {
    s.(inner := s.inner.(queue := s.inner.queue + [Prompt(s.accepted, text)]), accepted := s.accepted + 1)
  }

  predicate CheckGate(s: Session) {
    PromptSlotFree(s.inner) && s.closing.None?
  }

  function StepBegin(s: Session, now: int): Session {
    s.(inner := OpenTurn(s.inner, now), wire := Starting(NextTurnNumber(s.inner)))
  }

  function StepBeginWire(s: Session): Session
    requires s.wire.Starting?
  {
    s.(inner := MarkOnWire(s.inner, s.wire.n), turnTasks := s.turnTasks + multiset{s.wire.n}, wire := Free)
  }

  function StepBeginAbort(s: Session, reason: string): Session {
    s.(inner := AbortTurn(s.inner, reason), wire := Free, writeFailed := true)
  }

  /** `spawn_chained`'s turn start: the gate passes, or the prompt is lost. */
  function StepChainStart(s: Session, now: int): Session
    requires s.wire.Chained?
  {
    if s.live && ChainedGate(s.inner)
    then StepBegin(s, now).(started := s.started + [s.wire.prompt])
    else Drop(s, [s.wire.prompt]).(wire := Free)
  }

  function StepChainRepark(s: Session, at: int, limit: string): Session
    requires s.wire.Chained?
  {
    var inner := Repark(s.inner, s.wire.prompt, at, limit);
    s.(inner := inner, wire := Parking(Park(at, limit, Queue, inner.queue)))
  }

  function StepParkWrite(s: Session): Session
    requires s.wire.Parking?
  {
    s.(entry := if s.closing.None? then WithParked(s.entry, Some(s.wire.park)) else s.entry, wire := Free)
  }

  function StepReserve(s: Session, now: int): Session
    requires s.inner.status.RateLimited?
    requires s.inner.status.plan.Queue? ==> s.inner.queue != []
  {
    var (inner, prompt) := ReserveResume(s.inner, now);
    s.(inner := inner, hands := s.hands + [Resume(prompt, false)])
  }

  function StepHandClear(s: Session, k: nat): Session
    requires k < |s.hands| && s.hands[k].Resume?
  {
    s.(entry := WithParked(s.entry, None), hands := s.hands[k := s.hands[k].(cleared := true)])
  }

  function StepHandLock(s: Session, k: nat): Session
    requires k < |s.hands|
  {
    s.(hands := WithoutHand(s.hands, k),
       wire := if s.hands[k].Kick? then Chained(s.hands[k].prompt) else Resuming(s.hands[k].first))
  }

  function StepResumeStart(s: Session, now: int, refusal: string): Session
    requires s.wire.Resuming?
  {
    if ChainedGate(s.inner)
    then StepBegin(s, now).(started := s.started + OptSeq(s.wire.first))
    else StepResumeRefused(s, refusal)
  }

  function StepResumeRefused(s: Session, refusal: string): Session
    requires s.wire.Resuming?
  {
    s.(inner := ResumeRefused(s.inner, s.closing.Some?, refusal),
       dropped := s.dropped + Tickets(OptSeq(s.wire.first)),
       wire := Free)
  }

  /** `kick_queue` on a session just resumed: pop and start in one step. */
  function StepKickQueue(s: Session, now: int): Session
    requires s.inner.queue != []
  {
    StepBegin(s.(inner := s.inner.(queue := s.inner.queue[1..])), now)
      .(started := s.started + [s.inner.queue[0]])
  }

  /** `kick_queue` against an active limit: pop, repark and record in one step. */
  function StepKickRepark(s: Session, at: int, limit: string): Session
    requires s.inner.queue != []
  {
    var inner := Repark(s.inner.(queue := s.inner.queue[1..]), s.inner.queue[0], at, limit);
    s.(inner := inner, entry := WithParked(s.entry, Some(Park(at, limit, Queue, inner.queue))))
  }

  // ---- steers ----

  function StepSteerPush(s: Session): Session {
    var (inner, target) := PushSteer(s.inner, s.nextSteer);
    s.(inner := inner, wire := Free, nextSteer := s.nextSteer + 1,
       waiters := s.waiters[s.nextSteer := target], targets := s.targets[s.nextSteer := target])
  }

  function StepSteerResolved(s: Session, id: nat, answer: PromptOutcome, now: int): Session
    requires id in s.waiters
  {
    var r := ResolveSteer(s.inner, id, s.waiters[id], answer, s.superseded, now);
    s.(inner := r.inner,
       waiters := s.waiters - {id},
       claims := if r.mine then s.claims[r.turn := ClaimsOn(s, r.turn) + [answer]] else s.claims,
       hands := if r.kick.Some? then s.hands + [Kick(r.kick.value)] else s.hands)
  }

  // ---- finish_turn ----

  /** A turn's own prompt resolved, or an owning steer's claim takes its turn's wire. */
  function StepFinishLock(s: Session, n: nat, claim: Option<nat>, outcome: PromptOutcome): Session
    requires claim.Some? ==> claim.value < |ClaimsOn(s, n)|
  {
    s.(wire := Finishing(n, outcome),
       claims := if claim.Some?
                 then s.claims[n := ClaimsOn(s, n)[..claim.value] + ClaimsOn(s, n)[claim.value + 1..]] else s.claims,
       turnTasks := if claim.Some? then s.turnTasks else s.turnTasks - multiset{n})
  }

  function StepSettle(s: Session, now: int): Session
    requires s.wire.Finishing?
  {
    var e := EndTurnWith(s.inner, s.sem, s.wire.outcome, s.superseded, now);
    Drop(s, e.dropped).(inner := e.inner, wire := Settled(s.wire.n, s.wire.outcome, e.next))
  }

  function StepSnap(s: Session): Session
    requires s.wire.Settled?
  {
    s.(wire := Snapped(s.wire.n, s.wire.outcome, s.wire.next, SettledCount(s.inner), s.inner.queue))
  }

  /** `record_turn_end`'s registry write: the count, and the parked flag armed by a
      limit, disarmed by any other end of an unparked, living session. */
  function StepWriteEnd(s: Session): Session
    requires s.wire.Snapped?
  {
    var entry :=
      if s.entry.None? then None
      else
        var counted := s.entry.value.(turns := s.wire.count);
        if s.wire.outcome.LimitHit? && s.closing.None? then
          Some(counted.(parked := Some(Park(s.wire.outcome.resumeAt, s.wire.outcome.error, Continue, s.wire.queued))))
        else if s.inner.status.RateLimited? || s.inner.status.Exited? then Some(counted)
        else Some(counted.(parked := None));
    s.(entry := entry, wire := Written(s.wire.n, s.wire.outcome, s.wire.next))
  }

  function StepClearRecording(s: Session): Session
    requires s.wire.Written?
  {
    s.(inner := s.inner.(recording := None),
       wire := if s.wire.next.Some? then Chained(s.wire.next.value) else Free)
  }

  // ---- the agent's traffic ----

  function StepSee(s: Session, u: TurnData.Update, now: int): Session {
    var inner := Materialize(s.inner, now);
    s.(inner := inner, seen := Some(Seen(if inner.current.Some? then inner.current.value.n else 0, u)))
  }

  function StepFold(s: Session): Session
    requires s.seen.Some?
  {
    s.(seen := None,
       inner := if s.inner.current.None? then s.inner
                else
                  var turn := s.inner.current.value;
                  s.inner.(current := Some(turn.(data := TurnData.Apply(turn.data, s.seen.value.update)))))
  }

  // ---- limits, ends, handover ----

  function LaterPark(parked: Option<Park>, at: int): Option<Park> {
    if parked.Some? then Some(parked.value.(resumeAt := Max(parked.value.resumeAt, at))) else None
  }

  function StepNoteLimit(s: Session, at: int): Session {
    var status := if s.inner.status.RateLimited?
                  then s.inner.status.(resumeAt := Max(s.inner.status.resumeAt, at)) else s.inner.status;
    s.(inner := s.inner.(status := status),
       entry := if s.entry.None? then None
                else WithParked(s.entry, LaterPark(s.entry.value.parked, at)))
  }

  // ---- what the code lets happen next ----

  predicate StartEnabled(s: Session, e: StartEvent) {
    match e
    case BeginCheck(_) => s.wire.Free? && CheckGate(s)
    case BeginWire => s.wire.Starting?
    case BeginAbort(_) => s.wire.Starting?
    case ChainStart(_) => s.wire.Chained?
    case ResumeStart(_, _) => s.wire.Resuming?
    case KickQueue(_) => s.wire.Free? && CheckGate(s) && s.inner.current.None? && s.inner.queue != []
  }

  function StartStep(s: Session, e: StartEvent): Session
    requires StartEnabled(s, e)
  {
    match e
    case BeginCheck(now) => StepBegin(s, now)
    case BeginWire => StepBeginWire(s)
    case BeginAbort(reason) => StepBeginAbort(s, reason)
    case ChainStart(now) => StepChainStart(s, now)
    case ResumeStart(now, refusal) => StepResumeStart(s, now, refusal)
    case KickQueue(now) => StepKickQueue(s, now)
  }

  predicate SlotEnabled(s: Session, e: SlotEvent) {
    match e
    case ChainRepark(_, _) => s.wire.Chained? && s.live
    case ParkWrite => s.wire.Parking?
    case ReserveSlot(_) =>
      s.inner.status.RateLimited? && s.closing.None? && (s.inner.status.plan.Queue? ==> s.inner.queue != [])
    case HandClear(k) => k < |s.hands| && s.hands[k].Resume? && !s.hands[k].cleared
    case HandLock(k) => s.wire.Free? && k < |s.hands| && (s.hands[k].Resume? ==> s.hands[k].cleared)
    case KickRepark(_, _) => CheckGate(s) && s.inner.current.None? && s.inner.queue != []
  }

  function SlotStep(s: Session, e: SlotEvent): Session
    requires SlotEnabled(s, e)
  {
    match e
    case ChainRepark(at, limit) => StepChainRepark(s, at, limit)
    case ParkWrite => StepParkWrite(s)
    case ReserveSlot(now) => StepReserve(s, now)
    case HandClear(k) => StepHandClear(s, k)
    case HandLock(k) => StepHandLock(s, k)
    case KickRepark(at, limit) => StepKickRepark(s, at, limit)
  }

  predicate SteerEnabled(s: Session, e: SteerEvent) {
    match e
    case SteerLock => s.wire.Free? && Busy(s.inner.status)
    case SteerPush => s.wire.SteerSend?
    case SteerResolved(id, _, _) => id in s.waiters
  }

  function SteerStep(s: Session, e: SteerEvent): Session
    requires SteerEnabled(s, e)
  {
    match e
    case SteerLock => s.(wire := SteerSend)
    case SteerPush => StepSteerPush(s)
    case SteerResolved(id, answer, now) => StepSteerResolved(s, id, answer, now)
  }

  predicate EndEnabled(s: Session, e: EndEvent) {
    match e
    case FinishLock(n, claim, outcome) =>
      s.wire.Free?
      && (if claim.Some? then claim.value < |ClaimsOn(s, n)| && outcome == ClaimsOn(s, n)[claim.value]
          else n in s.turnTasks)
    case Settle(_) => s.wire.Finishing?
    case Snap => s.wire.Settled?
    case WriteEnd => s.wire.Snapped?
    case ClearRecording => s.wire.Written?
  }

  function EndStep(s: Session, e: EndEvent): Session
    requires EndEnabled(s, e)
  {
    match e
    case FinishLock(n, claim, outcome) => StepFinishLock(s, n, claim, outcome)
    case Settle(now) => StepSettle(s, now)
    case Snap => StepSnap(s)
    case WriteEnd => StepWriteEnd(s)
    case ClearRecording => StepClearRecording(s)
  }

  predicate TrafficEnabled(s: Session, e: TrafficEvent) {
    match e
    case AcceptQueued(_) =>
      s.closing.None? && !(PromptSlotFree(s.inner) && s.inner.queue == []) && !s.inner.status.Exited?
    case See(_, _) => s.connected && s.seen.None?
    case Fold => s.seen.Some?
    case PermissionAsk(_) => s.connected
    case Permit(k) => k < |s.inner.pending|
    case PermissionWake => true
    case CancelCall => Busy(s.inner.status)
  }

  function TrafficStep(s: Session, e: TrafficEvent): Session
    requires TrafficEnabled(s, e)
  {
    match e
    case AcceptQueued(text) => StepAccept(s, text)
    case See(u, now) => StepSee(s, u, now)
    case Fold => StepFold(s)
    case PermissionAsk(request) => s.(inner := AskPermission(s.inner, request))
    case Permit(k) =>
      s.(inner := PermissionsAnswered(s.inner.(pending := s.inner.pending[..k] + s.inner.pending[k + 1..])))
    case PermissionWake => s.(inner := PermissionsAnswered(s.inner))
    case CancelCall => Drop(s, s.inner.queue).(inner := CancelTurn(s.inner))
  }

  predicate LifeEnabled(s: Session, e: LifeEvent) {
    match e
    case CloseSection => s.closing == Some(Ending)
    // `on_disconnect` reads the closing mark before it takes the lock.
    case AgentExit(noticed) => s.connected && (noticed ==> s.closing.Some?)
    case PartitionMark => s.superseded && !InFlight(s.inner) && s.closing.None?
    case _ => true
  }

  function LifeStep(s: Session, e: LifeEvent): Session
    requires LifeEnabled(s, e)
  {
    match e
    case NoteLimit(at) => StepNoteLimit(s, at)
    case Unschedule => s.(entry := WithParked(s.entry, None))
    case Forget => s.(entry := None)
    case Unlist => s.(live := false)
    case MarkClosing => s.(closing := Some(Ending))
    case CloseSection => Drop(s, s.inner.queue).(inner := CloseSub(s.inner), closed := true)
    case AgentExit(noticed) =>
      if noticed then s.(connected := false)
      else Drop(s, s.inner.queue).(inner := Disconnect(s.inner), connected := false)
    case Supersede => s.(superseded := true)
    case PartitionMark => s.(closing := Some(HandingOff))
  }

  predicate Enabled(s: Session, e: Event) {
    match e
    case Start(x) => StartEnabled(s, x)
    case Slot(x) => SlotEnabled(s, x)
    case Steering(x) => SteerEnabled(s, x)
    case End(x) => EndEnabled(s, x)
    case Traffic(x) => TrafficEnabled(s, x)
    case Life(x) => LifeEnabled(s, x)
  }

  function Step(s: Session, e: Event): Session
    requires Enabled(s, e)
  {
    match e
    case Start(x) => StartStep(s, x)
    case Slot(x) => SlotStep(s, x)
    case Steering(x) => SteerStep(s, x)
    case End(x) => EndStep(s, x)
    case Traffic(x) => TrafficStep(s, x)
    case Life(x) => LifeStep(s, x)
  }

  /** What the theorems on finishers, starts, the queue and parking assume of the
      agent, the host and the clients. */
  predicate InScope(s: Session, e: Event) {
    // No steer is sent into a slot a kick or a resume reserved.
    && (e == Steering(SteerLock) ==> !ChainedGate(s.inner))
    // None is outstanding when a parked session resumes.
    && (e.Slot? && e.slot.ReserveSlot? ==> OldestSteer(s.inner).None?)
    // A folding agent starts no late steer in a reserved slot.
    && (s.sem.FoldedSilently? && e.Traffic? && e.traffic.See? && ChainedGate(s.inner) ==> OldestSteer(s.inner).None?)
    // Permission requests belong to an open turn, and are over when it ends.
    && (e.Traffic? && e.traffic.PermissionAsk? ==> s.inner.current.Some?)
    && (e.End? && e.end.Settle? ==> !s.inner.status.NeedsPermission?)
  }

  // ---- runs ----

  /** The session `launch` hands out: restored turns, under whichever numbers the
      transcript gave them, a restored queue, a status from the resume mark or the
      parked record. */
  predicate Launched(s: Session) {
    var i := s.inner;
    && (AcceptsPrompt(i.status) || i.status.RateLimited?)
    && (i.status.RateLimited? && i.status.plan.Queue? ==> i.queue != [])
    && Ascending(i) && (forall k :: 0 <= k < |i.turns| ==> i.turns[k].steers == [])
    && i.current.None? && i.pendingStart.None? && i.pending == []
    && i.steerPending == [] && i.steerFolded == [] && i.steerOwner.None? && i.recording.None?
    && s.accepted == |i.queue|
    && (forall k :: 0 <= k < |i.queue| ==> i.queue[k].ticket == k)
    && s.wire.Free? && s.hands == [] && s.turnTasks == multiset{} && s.claims == map[]
    && s.waiters == map[] && s.targets == map[] && s.seen.None?
    && s.closing.None? && !s.closed && s.live && s.connected && !s.superseded && !s.writeFailed
    && s.started == [] && s.dropped == {}
    && (s.entry.Some? && s.entry.value.parked.Some? ==>
          var park := s.entry.value.parked.value;
          i.status == RateLimited(park.resumeAt, park.reason, park.plan) && i.queue == park.queued)
  }

  /** The registry already counts the restored turns. */
  predicate Counted(s: Session) {
    s.entry.Some? ==> s.entry.value.turns == SettledCount(s.inner)
  }

  /** A run the code lets happen. */
  ghost predicate Possible(s: Session, es: seq<Event>)
    decreases |es|
  {
    es == [] || (Enabled(s, es[0]) && Possible(Step(s, es[0]), es[1..]))
  }

  ghost function Run(s: Session, es: seq<Event>): Session
    requires Possible(s, es)
    decreases |es|
  {
    if es == [] then s else Run(Step(s, es[0]), es[1..])
  }

  /** A run inside the assumptions. */
  ghost predicate Allowed(s: Session, es: seq<Event>): (ok: bool)
    ensures ok ==> Possible(s, es)
    decreases |es|
  {
    es == [] || (Enabled(s, es[0]) && InScope(s, es[0]) && Allowed(Step(s, es[0]), es[1..]))
  }

  /** The states some run reaches, and those one inside the assumptions does. */
  ghost predicate Reachable(s: Session) {
    exists s0, es :: Launched(s0) && Possible(s0, es) && Run(s0, es) == s
  }

  ghost predicate Scoped(s: Session) {
    exists s0, es :: Launched(s0) && Allowed(s0, es) && Run(s0, es) == s
  }

  /** The same from a launch whose restored turns the registry counts. */
  ghost predicate ReachableCounted(s: Session) {
    exists s0, es :: Launched(s0) && Counted(s0) && Possible(s0, es) && Run(s0, es) == s
  }

  ghost predicate ScopedCounted(s: Session) {
    exists s0, es :: Launched(s0) && Counted(s0) && Allowed(s0, es) && Run(s0, es) == s
  }
}
