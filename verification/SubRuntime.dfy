/** The shared record as the code keeps it: fields updated in place, one method for
    each `inner` critical section. Each is proved to leave what the section's
    function on values says, so what the turn machine's theorems say of runs of
    those functions holds of runs of these methods. */
module SubRuntime {
  import opened Common
  import opened SessionState
  import TurnMachine
  import TurnData

  type Closing = TurnMachine.Closing

  datatype Gate = Check | Chained

  datatype PendingPermission = PendingPermission(requestId: string, options: seq<string>)

  /** Why a prompt was not started. */
  datatype StartError = HoldHandoff | NotPromptable(status: string)

  datatype PermitError =
    | NoSuchPermission(request: string)
    | BadOption(option: string, offered: seq<string>)

  /** What `send queued` does with its prompt. */
  datatype SendAction = Fresh | Queued(position: nat) | HoldSend | RefusedSend(status: string)

  function StatusName(status: Status): string {
    match status
    case Idle => "idle"
    case Running => "running"
    case NeedsPermission => "needs_permission"
    case Done(_) => "done"
    case Cancelled => "cancelled"
    case Failed(_) => "failed"
    case RateLimited(_, _, _) => "rate_limited"
    case Exited(_) => "exited"
  }

  /** A refusal's status name tells the statuses apart. */
  lemma StatusNamesTell(a: Status, b: Status)
    requires StatusName(a) == StatusName(b)
    ensures (a.Idle? <==> b.Idle?) && (a.Running? <==> b.Running?) && (a.NeedsPermission? <==> b.NeedsPermission?)
    ensures (a.Done? <==> b.Done?) && (a.Cancelled? <==> b.Cancelled?) && (a.Failed? <==> b.Failed?)
    ensures (a.RateLimited? <==> b.RateLimited?) && (a.Exited? <==> b.Exited?)
  {
    assert |"idle"| == 4 && |"done"| == 4 && "idle"[0] != "done"[0];
    assert |"running"| == 7 && |"cancelled"| == 9;
    assert |"failed"| == 6 && |"exited"| == 6 && "failed"[0] != "exited"[0];
    assert |"needs_permission"| == 16 && |"rate_limited"| == 12;
  }

  function ClosingName(closing: Closing): string {
    if closing.Ending? then "closing" else "handing off"
  }

  function RequestIds(pending: seq<PendingPermission>): (ids: seq<string>)
    ensures |ids| == |pending| && forall k :: 0 <= k < |ids| ==> ids[k] == pending[k].requestId
  {
    seq(|pending|, k requires 0 <= k < |pending| => pending[k].requestId)
  }

  // ---- facts the loops use ----

  /** Recording an outcome reads neither steer list. */
  lemma RecordIgnoresLines(i: Inner, pending: seq<Steer>, folded: seq<nat>, id: nat, target: nat, outcome: SteerOutcome)
    ensures RecordSteerEnd(i.(steerPending := pending, steerFolded := folded), id, target, outcome)
      == RecordSteerEnd(i, id, target, outcome).(steerPending := pending, steerFolded := folded)
  {
  }

  lemma {:induction false} RecordFoldsLast(i: Inner, steers: seq<Steer>, x: Steer)
    ensures RecordFolds(i, steers + [x]) == RecordSteerEnd(RecordFolds(i, steers), x.id, x.target, Folded)
    decreases |steers|
  {
    if steers == [] {
      assert [x][1..] == [];
      assert RecordFolds(i, [x]) == RecordFolds(RecordSteerEnd(i, x.id, x.target, Folded), []);
    } else {
      assert (steers + [x])[1..] == steers[1..] + [x];
      RecordFoldsLast(RecordSteerEnd(i, steers[0].id, steers[0].target, Folded), steers[1..], x);
    }
  }

  lemma {:induction false} FindFirst(turns: seq<Turn>, n: nat, k: nat)
    requires k < |turns| && turns[k].n == n && forall j :: 0 <= j < k ==> turns[j].n != n
    ensures FindTurn(turns, n) == Some(k)
  {
    if k > 0 { FindFirst(turns[1..], n, k - 1); }
  }

  class SubRuntime {
    var status: Status
    var turnOffset: nat
    var turns: seq<Turn>
    var current: Option<Turn>
    var pendingStart: Option<int>
    var pending: seq<PendingPermission>
    var queue: seq<Prompt>
    var steerPending: seq<Steer>
    var steerFolded: seq<nat>
    var steerOwner: Option<nat>
    var recording: Option<nat>
    var closing: Option<Closing>
    var nextSteer: nat
    var accepted: nat
    const steer: SteerSemantics

    ghost function Abs(): Inner
      reads this
    {
      Inner(status, turnOffset, turns, current, pendingStart, RequestIds(pending), queue,
            steerPending, steerFolded, steerOwner, recording)
    }

    /** What a section on `inner` never touches. */
    twostate predicate OnlyInner()
      reads this
    {
      closing == old(closing) && nextSteer == old(nextSteer) && accepted == old(accepted)
    }

    // ---- starting a turn ----

    /** `begin_turn`'s gate and stamp. */
    method BeginTurn(gate: Gate, now: int) returns (r: Result<nat, StartError>)
      modifies this
      ensures OnlyInner()
      ensures r.Ok? <==>
        if gate.Check? then PromptSlotFree(old(Abs())) && closing.None? else ChainedGate(old(Abs()))
      ensures r.Ok? ==> r.value == NextTurnNumber(old(Abs())) && Abs() == OpenTurn(old(Abs()), now)
      ensures r.Err? ==> Abs() == old(Abs())
      ensures r == Err(HoldHandoff) <==> gate.Check? && closing == Some(TurnMachine.HandingOff)
      ensures r.Err? && r.error.NotPromptable? ==>
        r.error.status == if closing.Some? then ClosingName(closing.value)
                          else if AcceptsPrompt(status) then "steer in flight" else StatusName(status)
    {
      var ready := if gate.Check?
                   then AcceptsPrompt(status) && steerPending == [] && closing.None?
                   else status.Running? && current.None?;
      if ready {
        var n := turnOffset + |turns| + 1;
        current := Some(NewTurn(n, now));
        pendingStart := None;
        status := Running;
        r := Ok(n);
      } else if gate.Check? && closing == Some(TurnMachine.HandingOff) {
        r := Err(HoldHandoff);
      } else if closing.Some? {
        r := Err(NotPromptable(ClosingName(closing.value)));
      } else if AcceptsPrompt(status) {
        r := Err(NotPromptable("steer in flight"));
      } else {
        r := Err(NotPromptable(StatusName(status)));
      }
    }

    /** The prompt is on the wire; answers whether a cancel follows it now. */
    method PromptOnWire(n: nat) returns (cancelNow: bool)
      modifies this
      ensures OnlyInner() && Abs() == MarkOnWire(old(Abs()), n)
      ensures cancelNow <==>
        old(current).Some? && old(current).value.n == n && old(current).value.cancelRequested
    {
      cancelNow := false;
      if current.Some? && current.value.n == n {
        cancelNow := current.value.cancelRequested;
        current := Some(current.value.(onWire := true, cancelRequested := false));
      }
    }

    /** `send queued`: start, queue, hold or refuse. */
    method SendQueued(text: string) returns (action: SendAction)
      modifies this
      ensures closing == old(closing) && nextSteer == old(nextSteer)
      ensures action.Queued? <==>
        closing.None? && !(PromptSlotFree(old(Abs())) && old(queue) == []) && !old(status).Exited?
      ensures action.Queued? ==>
        && Abs() == old(Abs()).(queue := old(queue) + [Prompt(old(accepted), text)])
        && accepted == old(accepted) + 1 && action.position == |queue|
      ensures !action.Queued? ==> Abs() == old(Abs()) && accepted == old(accepted)
      ensures action.Fresh? <==> closing.None? && PromptSlotFree(old(Abs())) && old(queue) == []
      ensures action.HoldSend? <==> closing == Some(TurnMachine.HandingOff)
    {
      match closing {
        case Some(HandingOff) => action := HoldSend;
        case Some(Ending) => action := RefusedSend("closing");
        case None =>
          if AcceptsPrompt(status) && steerPending == [] && queue == [] {
            action := Fresh;
          } else if status.Exited? {
            action := RefusedSend(StatusName(status));
          } else {
            queue := queue + [Prompt(accepted, text)];
            accepted := accepted + 1;
            action := Queued(|queue|);
          }
      }
    }

    // ---- steers ----

    method SteerTurn() returns (id: nat, target: nat)
      modifies this
      ensures closing == old(closing) && accepted == old(accepted)
      ensures id == old(nextSteer) && nextSteer == id + 1
      ensures (Abs(), target) == PushSteer(old(Abs()), id)
    {
      id := nextSteer;
      nextSteer := nextSteer + 1;
      target := if current.Some? then current.value.n else turnOffset + |turns| + 1;
      steerPending := steerPending + [Steer(id, target)];
    }

    /** The first resolution on a turn stands. */
    method NoteOutcome(turn: Turn, id: nat, outcome: SteerOutcome) returns (noted: Turn)
      ensures noted == NoteEnd(turn, id, outcome) && Landed(turn, noted, SteerEnd(id, outcome))
    {
      var k := 0;
      while k < |turn.steers|
        invariant 0 <= k <= |turn.steers|
        invariant forall j :: 0 <= j < k ==> turn.steers[j].id != id
      {
        if turn.steers[k].id == id { return turn; }
        k := k + 1;
      }
      noted := turn.(steers := turn.steers + [SteerEnd(id, outcome)]);
    }

    method RecordEnd(id: nat, target: nat, outcome: SteerOutcome)
      modifies this
      ensures OnlyInner() && Abs() == RecordSteerEnd(old(Abs()), id, target, outcome)
      // On the open turn, else on the first settled one of that number, else nowhere.
      ensures old(current).Some? && old(current).value.n == target ==>
        && turns == old(turns) && current.Some?
        && Landed(old(current).value, current.value, SteerEnd(id, outcome))
      ensures !(old(current).Some? && old(current).value.n == target) ==>
        && current == old(current) && |turns| == |old(turns)|
        && forall k :: 0 <= k < |turns| ==>
             if turns[k].n == target && (forall j :: 0 <= j < k ==> turns[j].n != target)
             then Landed(old(turns)[k], turns[k], SteerEnd(id, outcome)) else turns[k] == old(turns)[k]
    {
      if current.Some? && current.value.n == target {
        var noted := NoteOutcome(current.value, id, outcome);
        current := Some(noted);
        return;
      }
      var k := 0;
      while k < |turns|
        invariant 0 <= k <= |turns| && Abs() == old(Abs()) && OnlyInner()
        invariant forall j :: 0 <= j < k ==> turns[j].n != target
      {
        if turns[k].n == target {
          FindFirst(turns, target, k);
          var noted := NoteOutcome(turns[k], id, outcome);
          turns := turns[k := noted];
          return;
        }
        k := k + 1;
      }
    }

    /** A steered prompt resolved. */
    method SteerResolved(id: nat, target: nat, outcome: PromptOutcome, superseded: bool, now: int)
      returns (mine: bool, kick: Option<Prompt>, turn: nat)
      modifies this
      ensures OnlyInner()
      ensures Resolution(Abs(), mine, kick, turn) == ResolveSteer(old(Abs()), id, target, outcome, superseded, now)
    {
      mine := ReleaseSteer(id, outcome.IsErr());
      var end :=
        match outcome
        case Errored(error) => Rejected(error)
        case LimitHit(_, error) => Rejected(error)
        case Stopped(_) => if mine && current.Some? then RanAs(current.value.n) else Folded;
      RecordEnd(id, target, end);
      kick := None;
      if !mine && steerPending == [] && current.None? && AcceptsPrompt(status) && !superseded && queue != [] {
        status := Running;
        pendingStart := Some(now);
        kick := Some(queue[0]);
        queue := queue[1..];
      }
      turn := if current.Some? then current.value.n else target;
    }

    /** The steer leaves the line; a rejected owner's turn passes to the next steer. */
    method ReleaseSteer(id: nat, rejected: bool) returns (mine: bool)
      modifies this
      ensures OnlyInner()
      ensures var left := old(Abs()).(steerPending := WithoutSteer(old(steerPending), id),
                                      steerFolded := WithoutId(old(steerFolded), id));
        var passedOn := rejected && OldestSteer(left).Some?;
        && mine == (old(steerOwner) == Some(id) && !passedOn)
        && Abs() == if old(steerOwner) != Some(id) then left
                    else left.(steerOwner := if passedOn then OldestSteer(left) else None)
    {
      steerPending := WithoutSteer(steerPending, id);
      steerFolded := WithoutId(steerFolded, id);
      mine := false;
      if steerOwner == Some(id) {
        steerOwner := None;
        var oldest := if steerFolded != [] then Some(steerFolded[0])
                      else if steerPending != [] then Some(steerPending[0].id) else None;
        if rejected && oldest.Some? {
          steerOwner := oldest;
        } else {
          mine := true;
        }
      }
    }

    // ---- ending a turn ----

    /** Push the open turn, marked as it ended. */
    method PushOpenTurn(stop: Option<StopReason>, limited: bool)
      modifies this
      ensures OnlyInner() && Abs() == PushCurrent(old(Abs()), stop, limited)
    {
      if current.Some? {
        var turn := current.value;
        if stop.Some? { turn := turn.(stopReason := stop); }
        if limited { turn := turn.(rateLimited := true); }
        current := None;
        recording := Some(turn.n);
        turns := turns + [turn];
      }
    }

    method FoldPending() returns (folded: seq<nat>)
      modifies this
      ensures OnlyInner() && Abs() == FoldPendingSteers(old(Abs()), steer)
      ensures folded == if steer.Answered? then [] else Ids(old(steerPending))
    {
      if steer.Answered? { return []; }
      var drained := steerPending;
      steerPending := [];
      var k := 0;
      while k < |drained|
        invariant 0 <= k <= |drained| && OnlyInner()
        invariant Abs() == RecordFolds(old(Abs()), drained[..k]).(steerPending := [])
        invariant steerFolded == old(steerFolded)
      {
        ghost var done := RecordFolds(old(Abs()), drained[..k]);
        RecordEnd(drained[k].id, drained[k].target, Folded);
        RecordIgnoresLines(done, [], done.steerFolded, drained[k].id, drained[k].target, Folded);
        assert drained[..k + 1] == drained[..k] + [drained[k]];
        RecordFoldsLast(old(Abs()), drained[..k], drained[k]);
        k := k + 1;
      }
      assert drained[..k] == drained;
      folded := Ids(drained);
      steerFolded := steerFolded + folded;
    }

    method SettleTurn(reason: StopReason, superseded: bool, now: int)
      returns (next: Option<Prompt>, dropped: seq<Prompt>, folded: seq<nat>)
      modifies this
      ensures OnlyInner()
      ensures TurnEnding(Abs(), next, dropped) == SessionState.SettleTurn(old(Abs()), steer, reason, superseded, now)
    {
      PushOpenTurn(Some(reason), false);
      folded := FoldPending();
      next, dropped := None, [];
      if status.Exited? {
      } else if reason.StopCancelled? {
        status := Cancelled;
        dropped := queue;
        queue := [];
      } else if !superseded && steerPending == [] && queue != [] {
        next := Some(queue[0]);
        queue := queue[1..];
        pendingStart := Some(now);
      } else {
        status := Done(reason);
      }
    }

    method FailTurn(reason: string) returns (dropped: seq<Prompt>, folded: seq<nat>)
      modifies this
      ensures OnlyInner()
      ensures TurnEnding(Abs(), None, dropped) == SessionState.FailTurn(old(Abs()), steer, reason)
    {
      PushOpenTurn(None, false);
      folded := FoldPending();
      if !status.Exited? { status := Failed(reason); }
      dropped := queue;
      queue := [];
    }

    method ParkTurn(resumeAt: int, reason: string) returns (folded: seq<nat>)
      modifies this
      ensures OnlyInner()
      ensures TurnEnding(Abs(), None, []) == SessionState.ParkTurn(old(Abs()), steer, resumeAt, reason)
    {
      PushOpenTurn(None, true);
      folded := FoldPending();
      pendingStart := None;
      if !status.Exited? { status := RateLimited(resumeAt, reason, Continue); }
    }

    // ---- the agent's traffic ----

    /** The first section of a `session/update`: the turn it is logged under. */
    method SeeUpdate(now: int) returns (n: nat)
      modifies this
      ensures OnlyInner() && Abs() == Materialize(old(Abs()), now)
      ensures n == if current.Some? then current.value.n else 0
    {
      var oldest := if steerFolded != [] then Some(steerFolded[0])
                    else if steerPending != [] then Some(steerPending[0].id) else None;
      if current.None? && oldest.Some? {
        current := Some(NewTurn(turnOffset + |turns| + 1, now));
        pendingStart := None;
        steerOwner := oldest;
        status := Running;
      }
      n := if current.Some? then current.value.n else 0;
    }

    /** The second section: the open turn, if any, takes the update in. */
    method FoldUpdate(u: TurnData.Update)
      modifies this
      ensures OnlyInner()
      ensures Abs() == old(Abs()).(current :=
        if old(current).None? then None
        else Some(old(current).value.(data := TurnData.Apply(old(current).value.data, u))))
    {
      if current.None? { return; }
      var d := current.value.data;
      match u {
        case MessageChunk(Text(text)) => d := d.(reply := d.reply + text);
        case ToolCallSeen(call) =>
          d := d.(latestToolCall := Some(call.id));
          d := d.(toolCalls := d.toolCalls[call.id := call]);
        case ToolCallChanged(id, newStatus, newTitle, newKind, newLocations) =>
          d := d.(latestToolCall := Some(id));
          var entry := if id in d.toolCalls then d.toolCalls[id] else TurnData.ToolCall(id, "", None, None, []);
          if newStatus.Some? { entry := entry.(status := newStatus); }
          if newTitle.Some? { entry := entry.(title := newTitle.value); }
          if newKind.Some? { entry := entry.(kind := newKind); }
          if newLocations.Some? { entry := entry.(locations := newLocations.value); }
          d := d.(toolCalls := d.toolCalls[id := entry]);
        case PlanChanged(entries) => d := d.(plan := entries);
        case ModeChanged(mode) => d := d.(mode := Some(mode));
        case _ =>
      }
      current := Some(current.value.(data := d));
    }

    // ---- permissions ----

    method QueueForPermit(request: PendingPermission)
      modifies this
      ensures OnlyInner() && Abs() == AskPermission(old(Abs()), request.requestId)
    {
      pending := pending + [request];
      status := NeedsPermission;
    }

    /** `permit`: the first request of that id, if it offers the option. */
    method Permit(requestId: string, option: string) returns (r: Result<nat, PermitError>)
      modifies this
      ensures OnlyInner()
      ensures r == Err(NoSuchPermission(requestId)) <==> requestId !in RequestIds(old(pending))
      ensures r.Ok? ==>
        && r.value < |old(pending)| && old(pending)[r.value].requestId == requestId
        && option in old(pending)[r.value].options
        && requestId !in RequestIds(old(pending)[..r.value])
        && Abs() == PermissionsAnswered(old(Abs()).(
             pending := old(Abs()).pending[..r.value] + old(Abs()).pending[r.value + 1..]))
      ensures r.Err? ==> Abs() == old(Abs())
      ensures r.Err? && r.error.BadOption? ==>
        r.error.option == option && option !in r.error.offered
        && exists k :: 0 <= k < |old(pending)| && old(pending)[k].requestId == requestId
                       && old(pending)[k].options == r.error.offered
    {
      var k := 0;
      while k < |pending| && pending[k].requestId != requestId
        invariant 0 <= k <= |pending|
        invariant forall j :: 0 <= j < k ==> pending[j].requestId != requestId
      {
        k := k + 1;
      }
      if k == |pending| { return Err(NoSuchPermission(requestId)); }
      assert RequestIds(pending)[k] == requestId;
      if option !in pending[k].options { return Err(BadOption(option, pending[k].options)); }
      ghost var ids := RequestIds(pending);
      pending := pending[..k] + pending[k + 1..];
      assert RequestIds(pending) == ids[..k] + ids[k + 1..];
      if pending == [] && status.NeedsPermission? { status := Running; }
      r := Ok(k);
    }

    /** `cancel`: answers whether the agent is told now, or behind the prompt. */
    method CancelTurn() returns (r: Result<bool, string>, dropped: seq<Prompt>)
      modifies this
      ensures OnlyInner()
      ensures r.Ok? <==> Busy(old(status))
      ensures r.Ok? ==>
        && Abs() == SessionState.CancelTurn(old(Abs())) && dropped == old(queue)
        && (r.value <==> old(current).None? || old(current).value.onWire)
      ensures r.Err? ==> Abs() == old(Abs()) && dropped == []
    {
      if !Busy(status) { return Err("no turn is running"), []; }
      pending := [];
      var deferred := false;
      if current.Some? && !current.value.onWire {
        deferred := true;
        current := Some(current.value.(cancelRequested := true));
      }
      dropped := queue;
      queue := [];
      r := Ok(!deferred);
    }

    // ---- parking ----

    method ReparkPrompt(prompt: Prompt, resumeAt: int, reason: string) returns (queued: seq<Prompt>)
      modifies this
      ensures OnlyInner() && Abs() == Repark(old(Abs()), prompt, resumeAt, reason) && queued == queue
    {
      pendingStart := None;
      status := RateLimited(resumeAt, reason, Queue);
      queue := [prompt] + queue;
      queued := queue;
    }

    /** The slot of a parked session's resume. The queue of one parked for its queue
        is never empty (`TurnTheorems.ParkedIsRunnable`); the code panics otherwise. */
    method ReserveResumeTurn(now: int) returns (r: Option<(Option<Prompt>, bool)>)
      requires status.RateLimited? && closing.None? && status.plan.Queue? ==> queue != []
      modifies this
      ensures OnlyInner()
      ensures r.Some? <==> old(status).RateLimited? && closing.None?
      ensures r.Some? ==>
        && (Abs(), r.value.0) == ReserveResume(old(Abs()), now)
        && (r.value.1 <==> old(status).plan.Queue?)
      ensures r.None? ==> Abs() == old(Abs())
    {
      if !status.RateLimited? || closing.Some? { return None; }
      var first := None;
      var queued := status.plan.Queue?;
      if queued {
        first := Some(queue[0]);
        queue := queue[1..];
      }
      status := Running;
      pendingStart := Some(now);
      r := Some((first, queued));
    }

    // ---- the session's end ----

    /** The connection task's epilogue: a session already closing keeps its state. */
    method OnDisconnect()
      modifies this
      ensures OnlyInner()
      ensures Abs() == if closing.Some? then old(Abs()) else Disconnect(old(Abs()))
    {
      if closing.Some? { return; }
      var reason := if status.Failed? then EXIT_REASON + " (earlier failure: " + status.reason + ")" else EXIT_REASON;
      status := Exited(reason);
      pending := [];
      queue := [];
      steerPending := [];
      steerFolded := [];
      steerOwner := None;
      current := None;
    }

    method CloseSub()
      modifies this
      ensures nextSteer == old(nextSteer) && accepted == old(accepted)
      ensures closing == Some(TurnMachine.Ending) && Abs() == SessionState.CloseSub(old(Abs()))
    {
      closing := Some(TurnMachine.Ending);
      pending := [];
      queue := [];
      steerPending := [];
      steerFolded := [];
      steerOwner := None;
      if Busy(status) || status.RateLimited? { status := Cancelled; }
    }
  }
}
