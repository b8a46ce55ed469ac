/** One session's shared record (`Inner`) and its critical sections, as functions
    on values: each takes the record as a section finds it and gives the record
    it leaves behind. `SubRuntime` runs them in place; `TurnMachine` interleaves
    them. */
module SessionState {
  import opened Common
  import TurnData

  datatype StopReason = EndTurn | MaxTokens | MaxTurnRequests | Refusal | StopCancelled

  /** What a parked session's resume sends first. */
  datatype Plan = Continue | Queue

  datatype Status =
    | Idle
    | Running
    | NeedsPermission
    | Done(stop: StopReason)
    | Cancelled
    | Failed(reason: string)
    | RateLimited(resumeAt: int, limitReason: string, plan: Plan)
    | Exited(exitReason: string)

  /** How a session's last turn ended, carried across a handoff. */
  datatype LastTurn = LastDone(stop: StopReason) | LastCancelled | LastFailed(reason: string)

  /** A prompt `send` accepted into the queue. The ticket is the model's own: it
      counts acceptances, so that equal texts stay distinguishable. */
  datatype Prompt = Prompt(ticket: nat, text: string)

  datatype Steer = Steer(id: nat, target: nat)

  datatype SteerOutcome = Folded | Rejected(error: string) | RanAs(turn: nat)

  datatype SteerEnd = SteerEnd(id: nat, outcome: SteerOutcome)

  datatype SteerSemantics = Answered | FoldedSilently

  /** How a `session/prompt` call resolved. */
  datatype PromptOutcome =
    | Stopped(stop: StopReason)
    | Errored(error: string)
    | LimitHit(resumeAt: int, error: string)
  {
    predicate IsErr() { !Stopped? }
  }

  datatype Turn = Turn(
    n: nat,
    startedAt: Option<int>,
    data: TurnData.Data,
    stopReason: Option<StopReason>,
    rateLimited: bool,
    steers: seq<SteerEnd>,
    onWire: bool,
    cancelRequested: bool)

  datatype Inner = Inner(
    status: Status,
    turnOffset: nat,
    turns: seq<Turn>,
    current: Option<Turn>,
    pendingStart: Option<int>,
    pending: seq<string>,
    queue: seq<Prompt>,
    steerPending: seq<Steer>,
    steerFolded: seq<nat>,
    steerOwner: Option<nat>,
    recording: Option<nat>)

  // ---- reads ----

  predicate AcceptsPrompt(status: Status) {
    status.Idle? || status.Done? || status.Cancelled? || status.Failed?
  }

  predicate Busy(status: Status) {
    status.Running? || status.NeedsPermission?
  }

  function LastTurnOf(status: Status): Option<LastTurn> {
    match status
    case Done(stop) => Some(LastDone(stop))
    case Cancelled => Some(LastCancelled)
    case Failed(reason) => Some(LastFailed(reason))
    case _ => None
  }

  function StatusFrom(last: LastTurn): Status {
    match last
    case LastDone(stop) => Done(stop)
    case LastCancelled => Cancelled
    case LastFailed(reason) => Failed(reason)
  }

  predicate InFlight(i: Inner) {
    Busy(i.status) || i.steerPending != [] || i.recording.Some?
  }

  predicate PromptSlotFree(i: Inner) {
    AcceptsPrompt(i.status) && i.steerPending == []
  }

  /** The gate of a turn whose slot a queue pop or a resume reserved. */
  predicate ChainedGate(i: Inner) {
    i.status.Running? && i.current.None?
  }

  function OldestSteer(i: Inner): Option<nat> {
    if i.steerFolded != [] then Some(i.steerFolded[0])
    else if i.steerPending != [] then Some(i.steerPending[0].id)
    else None
  }

  function SettledCount(i: Inner): nat {
    i.turnOffset + |i.turns|
  }

  function NextTurnNumber(i: Inner): nat {
    SettledCount(i) + 1
  }

  /** Settled turns are numbered in increasing order, none past their count. */
  predicate Ascending(i: Inner) {
    && (forall j, k :: 0 <= j < k < |i.turns| ==> i.turns[j].n < i.turns[k].n)
    && (forall k :: 0 <= k < |i.turns| ==> i.turns[k].n <= SettledCount(i))
  }

  ghost predicate HasSettled(i: Inner, n: nat) {
    exists k :: 0 <= k < |i.turns| && i.turns[k].n == n
  }

  /** The first settled turn numbered `n`, by index. */
  function FindTurn(turns: seq<Turn>, n: nat): (found: Option<nat>)
    ensures found.Some? ==> found.value < |turns| && turns[found.value].n == n
    ensures found.None? ==> forall k :: 0 <= k < |turns| ==> turns[k].n != n
  {
    if turns == [] then None
    else if turns[0].n == n then Some(0)
    else
      var rest := FindTurn(turns[1..], n);
      if rest.None? then None else Some(rest.value + 1)
  }

  // ---- opening a turn ----

  function NewTurn(n: nat, now: int): Turn {
    Turn(n, Some(now), TurnData.NO_DATA, None, false, [], false, false)
  }

  function OpenTurn(i: Inner, now: int): Inner {
    i.(current := Some(NewTurn(NextTurnNumber(i), now)), pendingStart := None, status := Running)
  }

  /** The prompt is on the wire: a cancel that came before it may follow now. */
  function MarkOnWire(i: Inner, n: nat): Inner {
    if i.current.Some? && i.current.value.n == n
    then i.(current := Some(i.current.value.(onWire := true, cancelRequested := false)))
    else i
  }

  /** The turn's `prompt` record could not be written. */
  function AbortTurn(i: Inner, reason: string): Inner {
    i.(current := None, status := if i.status.Exited? then i.status else Failed(reason))
  }

  /** Untracked `session/update` traffic opens a turn for the oldest steer. */
  function Materialize(i: Inner, now: int): Inner {
    if i.current.None? && OldestSteer(i).Some?
    then OpenTurn(i, now).(steerOwner := OldestSteer(i))
    else i
  }

  // ---- steers ----

  function PushSteer(i: Inner, id: nat): (r: (Inner, nat)) {
    var target := if i.current.Some? then i.current.value.n else NextTurnNumber(i);
    (i.(steerPending := i.steerPending + [Steer(id, target)]), target)
  }

  ghost predicate HasEnd(t: Turn, id: nat) {
    exists k :: 0 <= k < |t.steers| && t.steers[k].id == id
  }

  /** The outcome joined the turn's list, unless the steer had one there: the first
      stands. */
  ghost predicate Landed(was: Turn, will: Turn, end: SteerEnd) {
    && will == was.(steers := will.steers)
    && will.steers == if HasEnd(was, end.id) then was.steers else was.steers + [end]
  }

  function NoteEnd(turn: Turn, id: nat, outcome: SteerOutcome): Turn {
    if exists k :: 0 <= k < |turn.steers| && turn.steers[k].id == id
    then turn
    else turn.(steers := turn.steers + [SteerEnd(id, outcome)])
  }

  function RecordSteerEnd(i: Inner, id: nat, target: nat, outcome: SteerOutcome): Inner {
    if i.current.Some? && i.current.value.n == target then
      i.(current := Some(NoteEnd(i.current.value, id, outcome)))
    else
      var found := FindTurn(i.turns, target);
      if found.None? then i
      else i.(turns := i.turns[found.value := NoteEnd(i.turns[found.value], id, outcome)])
  }

  function Ids(steers: seq<Steer>): (ids: seq<nat>)
    ensures |ids| == |steers|
    ensures forall k :: 0 <= k < |ids| ==> ids[k] == steers[k].id
  {
    seq(|steers|, k requires 0 <= k < |steers| => steers[k].id)
  }

  function RecordFolds(i: Inner, steers: seq<Steer>): Inner
    decreases |steers|
  {
    if steers == [] then i
    else RecordFolds(RecordSteerEnd(i, steers[0].id, steers[0].target, Folded), steers[1..])
  }

  /** At a turn's end a silently folding agent's pending steers settle as folded. */
  function FoldPendingSteers(i: Inner, sem: SteerSemantics): Inner {
    if sem.Answered? then i
    else
      RecordFolds(i, i.steerPending).(
        steerPending := [],
        steerFolded := i.steerFolded + Ids(i.steerPending))
  }

  function WithoutSteer(steers: seq<Steer>, id: nat): (rest: seq<Steer>)
    ensures forall x :: x in rest <==> x in steers && x.id != id
  {
    if steers == [] then []
    else if steers[0].id == id then WithoutSteer(steers[1..], id)
    else [steers[0]] + WithoutSteer(steers[1..], id)
  }

  function WithoutId(ids: seq<nat>, id: nat): (rest: seq<nat>)
    ensures forall x :: x in rest <==> x in ids && x != id
  {
    if ids == [] then []
    else if ids[0] == id then WithoutId(ids[1..], id)
    else [ids[0]] + WithoutId(ids[1..], id)
  }

  datatype Resolution = Resolution(inner: Inner, mine: bool, kick: Option<Prompt>, turn: nat)

  /** A steered prompt resolved: it ended the turn it owns, handed that turn to
      the next steer, or left; a queue held for the last steer is kicked. */
  function ResolveSteer(i: Inner, id: nat, target: nat, outcome: PromptOutcome, superseded: bool, now: int)
    : Resolution
  {
    var i1 := i.(steerPending := WithoutSteer(i.steerPending, id), steerFolded := WithoutId(i.steerFolded, id));
    var owned := i.steerOwner == Some(id);
    var passedOn := owned && outcome.IsErr() && OldestSteer(i1).Some?;
    var mine := owned && !passedOn;
    var i2 := if owned then i1.(steerOwner := if passedOn then OldestSteer(i1) else None) else i1;
    var end :=
      match outcome
      case Stopped(_) => if mine && i2.current.Some? then RanAs(i2.current.value.n) else Folded
      case Errored(error) => Rejected(error)
      case LimitHit(_, error) => Rejected(error);
    var i3 := RecordSteerEnd(i2, id, target, end);
    var kick := !mine && i3.steerPending == [] && i3.current.None? && AcceptsPrompt(i3.status)
                && !superseded && i3.queue != [];
    var turn := if i3.current.Some? then i3.current.value.n else target;
    if kick
    then Resolution(i3.(status := Running, pendingStart := Some(now), queue := i3.queue[1..]),
                    mine, Some(i3.queue[0]), turn)
    else Resolution(i3, mine, None, turn)
  }

  // ---- ending a turn ----

  /** Push the open turn, if any, onto the settled ones and mark its end unrecorded. */
  function PushCurrent(i: Inner, stop: Option<StopReason>, limited: bool): Inner {
    if i.current.None? then i
    else
      var turn := i.current.value;
      i.(current := None,
         recording := Some(turn.n),
         turns := i.turns + [turn.(stopReason := if stop.Some? then stop else turn.stopReason,
                                   rateLimited := turn.rateLimited || limited)])
  }

  /** What a turn's end leaves: the record, the prompt to chain, the prompts dropped. */
  datatype TurnEnding = TurnEnding(inner: Inner, next: Option<Prompt>, dropped: seq<Prompt>)

  function SettleTurn(i: Inner, sem: SteerSemantics, reason: StopReason, superseded: bool, now: int): TurnEnding {
    FollowUp(FoldPendingSteers(PushCurrent(i, Some(reason), false), sem), reason, superseded, now)
  }

  /** With the turn pushed: keep a dead session's state, drop the queue of a cancelled
      turn, chain the queue's front, or settle. */
  function FollowUp(j: Inner, reason: StopReason, superseded: bool, now: int): TurnEnding {
    if j.status.Exited? then TurnEnding(j, None, [])
    else if reason.StopCancelled? then TurnEnding(j.(status := Cancelled, queue := []), None, j.queue)
    else if !superseded && j.steerPending == [] && j.queue != [] then
      TurnEnding(j.(pendingStart := Some(now), queue := j.queue[1..]), Some(j.queue[0]), [])
    else TurnEnding(j.(status := Done(reason)), None, [])
  }

  function FailTurn(i: Inner, sem: SteerSemantics, reason: string): TurnEnding {
    var j := FoldPendingSteers(PushCurrent(i, None, false), sem);
    TurnEnding(j.(status := if j.status.Exited? then j.status else Failed(reason), queue := []), None, j.queue)
  }

  function ParkTurn(i: Inner, sem: SteerSemantics, resumeAt: int, reason: string): TurnEnding {
    var j := FoldPendingSteers(PushCurrent(i, None, true), sem);
    TurnEnding(j.(pendingStart := None,
              status := if j.status.Exited? then j.status else RateLimited(resumeAt, reason, Continue)),
           None, [])
  }

  function EndTurnWith(i: Inner, sem: SteerSemantics, outcome: PromptOutcome, superseded: bool, now: int): TurnEnding {
    match outcome
    case Stopped(reason) => SettleTurn(i, sem, reason, superseded, now)
    case Errored(error) => FailTurn(i, sem, error)
    case LimitHit(at, error) => ParkTurn(i, sem, at, error)
  }

  // ---- parking ----

  /** A reserved prompt met an active limit: it goes back to the queue's front. */
  function Repark(i: Inner, prompt: Prompt, resumeAt: int, reason: string): Inner {
    i.(pendingStart := None,
       status := RateLimited(resumeAt, reason, Queue),
       queue := [prompt] + i.queue)
  }

  /** The slot of a parked session's resume, and the queued prompt it takes
      (`None`: the fixed continuation). */
  function ReserveResume(i: Inner, now: int): (Inner, Option<Prompt>)
    requires i.status.RateLimited?
    requires i.status.plan.Queue? ==> i.queue != []
  {
    var j := i.(status := Running, pendingStart := Some(now));
    if i.status.plan.Queue? then (j.(queue := i.queue[1..]), Some(i.queue[0])) else (j, None)
  }

  /** A resume whose gate refused it. */
  function ResumeRefused(i: Inner, closing: bool, reason: string): Inner {
    i.(pendingStart := None,
       status := if i.status.Exited? || closing then i.status else Failed(reason))
  }

  // ---- cancel, permissions, the end of the session ----

  function CancelTurn(i: Inner): Inner {
    i.(pending := [],
       queue := [],
       current := if i.current.Some? && !i.current.value.onWire
                  then Some(i.current.value.(cancelRequested := true)) else i.current)
  }

  function AskPermission(i: Inner, request: string): Inner {
    i.(pending := i.pending + [request], status := NeedsPermission)
  }

  function PermissionsAnswered(i: Inner): Inner {
    if i.pending == [] && i.status.NeedsPermission? then i.(status := Running) else i
  }

  const EXIT_REASON := "agent process exited"

  function Disconnect(i: Inner): Inner {
    var reason := if i.status.Failed?
                  then EXIT_REASON + " (earlier failure: " + i.status.reason + ")"
                  else EXIT_REASON;
    i.(status := Exited(reason), pending := [], queue := [], steerPending := [], steerFolded := [],
       steerOwner := None, current := None)
  }

  function CloseSub(i: Inner): Inner {
    i.(pending := [], queue := [], steerPending := [], steerFolded := [], steerOwner := None,
       status := if Busy(i.status) || i.status.RateLimited? then Cancelled else i.status)
  }
}
