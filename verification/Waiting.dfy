/** What `wait` and `result` read off a session: the turn a wait binds to, what
    that turn is doing, and the two lookups of a numbered turn. */
module Waiting {
  import opened Common
  import opened SessionState
  import opened TurnMachine
  import opened TurnInvariant
  import opened TurnTheorems
  import opened AnyRun
  import opened SteerTheorems
  import opened WaitInvariant
  import SteerEnds

  datatype WaitError = NoStartRecorded

  /** What the awaited turn is doing; a running or held turn is measured from `since`. */
  datatype Awaited = AwaitRunning(since: int) | AwaitRateLimited | AwaitPaused | AwaitSteers(since: int) | AwaitEnded

  /** The turn a wait binds to at call time, if any. */
  function AwaitedTurn(i: Inner): Result<Option<nat>, WaitError> {
    if i.recording.Some? then Ok(Some(if i.current.Some? then i.current.value.n else i.recording.value))
    else
      match i.status
      case NeedsPermission => Ok(None)
      case Exited(_) => Ok(None)
      case RateLimited(_, _, _) => Ok(Some(NextTurnNumber(i)))
      case Running =>
        if i.current.Some? then Ok(Some(i.current.value.n))
        else if i.pendingStart.Some? then Ok(Some(NextTurnNumber(i)))
        else Err(NoStartRecorded)
      case _ =>
        Ok(if i.steerPending == [] then None else Some(i.steerPending[|i.steerPending| - 1].target))
  }

  function FromStart(start: Option<int>): Result<Awaited, WaitError> {
    if start.Some? then Ok(AwaitRunning(start.value)) else Err(NoStartRecorded)
  }

  function StartOf(i: Inner, n: nat): Option<int> {
    var found := FindTurn(i.turns, n);
    if found.Some? then i.turns[found.value].startedAt else None
  }

  function AwaitedElapsed(i: Inner, n: nat): Result<Awaited, WaitError> {
    if i.recording == Some(n) then FromStart(StartOf(i, n))
    else if i.current.Some? && i.current.value.n == n then
      if !i.status.Running? then Ok(AwaitEnded)
      else FromStart(if i.current.value.startedAt.Some? then i.current.value.startedAt else i.pendingStart)
    else if exists k :: 0 <= k < |i.turns| && i.turns[k].n == n && i.turns[k].rateLimited then Ok(AwaitRateLimited)
    else if ChainedGate(i) && NextTurnNumber(i) == n then FromStart(i.pendingStart)
    else if i.status.RateLimited? then Ok(AwaitPaused)
    else if exists x :: x in i.steerPending && x.target == n then
      if StartOf(i, n).Some? then Ok(AwaitSteers(StartOf(i, n).value)) else Err(NoStartRecorded)
    else Ok(AwaitEnded)
  }

  // ---- the lookups ----

  /** `result`: an index computed from the number. */
  function ResultLookup(i: Inner, n: nat): Option<Turn> {
    var k := n - (i.turnOffset + 1);
    if 0 <= k < |i.turns| then Some(i.turns[k])
    else if i.current.Some? && i.current.value.n == n then i.current
    else None
  }

  /** `wait`: a search. */
  function SnapshotLookup(i: Inner, n: nat): Option<Turn> {
    var found := FindTurn(i.turns, n);
    if found.Some? then Some(i.turns[found.value])
    else if i.current.Some? && i.current.value.n == n then i.current
    else None
  }

  /** The one turn of that number, where there is one. */
  ghost predicate SameLookup(i: Inner, n: nat) {
    && ResultLookup(i, n) == SnapshotLookup(i, n)
    && (ResultLookup(i, n).Some? <==> InView(i, n))
    && (ResultLookup(i, n).Some? ==> ResultLookup(i, n).value.n == n)
  }

  lemma AgreeInPlace(i: Inner, m: nat, n: nat)
    requires Numbered(i) && m <= |i.turns| && InPlaceFrom(i, m) && (m == 0 || i.turnOffset + m < n)
    ensures SameLookup(i, n)
  {
    if i.turnOffset < n <= SettledCount(i) {
      SteerEnds.FoundAt(i, n - i.turnOffset - 1);
    }
  }

  lemma DifferOutOfPlace(i: Inner, k: nat)
    requires Numbered(i) && k < |i.turns| && i.turns[k].n != i.turnOffset + k + 1
    ensures ResultLookup(i, i.turns[k].n) != SnapshotLookup(i, i.turns[k].n)
  {
    var n := i.turns[k].n;
    SteerEnds.FoundAt(i, k);
    var at := n - (i.turnOffset + 1);
    if 0 <= at < |i.turns| { assert i.turns[at].n != n; }
  }

  lemma NewLookupsAgree(restored: Inner, i: Inner, n: nat)
    requires Numbered(i) && GrewInPlace(restored, i, |restored.turns|) && SettledCount(restored) < n
    ensures SameLookup(i, n)
  {
    AgreeInPlace(i, |restored.turns|, n);
  }

  lemma AllLookupsAgreeIff(restored: Inner, i: Inner)
    requires Numbered(i) && GrewInPlace(restored, i, |restored.turns|)
    ensures (forall n: nat :: SameLookup(i, n)) <==> InPlaceFrom(restored, 0)
  {
    if InPlaceFrom(restored, 0) {
      forall k | 0 <= k < |i.turns| ensures i.turns[k].n == i.turnOffset + k + 1 {
        if k < |restored.turns| { assert i.turns[k].n == restored.turns[k].n; }
      }
      forall n: nat ensures SameLookup(i, n) { AgreeInPlace(i, 0, n); }
    } else {
      var k :| 0 <= k < |restored.turns| && restored.turns[k].n != restored.turnOffset + k + 1;
      DifferOutOfPlace(i, k);
      assert !SameLookup(i, i.turns[k].n);
    }
  }

  /** Over every run, `result` and `wait` see the same turn under each number given
      since the launch, and one exists for exactly the numbers on record; they see the
      same under every number if and only if the restored turns are in place. */
  lemma LookupsAgreeIff(s0: Session, es: seq<Event>)
    requires Launched(s0) && Possible(s0, es)
    ensures forall n: nat :: SettledCount(s0.inner) < n ==> SameLookup(Run(s0, es).inner, n)
    ensures (forall n: nat :: SameLookup(Run(s0, es).inner, n)) <==> InPlaceFrom(s0.inner, 0)
  {
    LaunchedBase(s0);
    RunKeepsBase(s0, es);
    RunKeepsPlaces(s0, es, |s0.inner.turns|);
    var i := Run(s0, es).inner;
    forall n: nat | SettledCount(s0.inner) < n ensures SameLookup(i, n) { NewLookupsAgree(s0.inner, i, n); }
    AllLookupsAgreeIff(s0.inner, i);
  }

  /** On a session just restored from a transcript of turns 1 to m, `result` and
      `wait` see the same turns if and only if the registry counts at most m. */
  lemma RestoredLookupsAgreeIff(i: Inner, registered: nat)
    requires i.turns != [] && i.current.None? && forall k :: 0 <= k < |i.turns| ==> i.turns[k].n == k + 1
    requires i.turnOffset == LaunchOffset(registered, |i.turns|)
    ensures (forall n: nat :: ResultLookup(i, n) == SnapshotLookup(i, n)) <==> registered <= |i.turns|
  {
    RestoredTurnsIff(registered, i.turns);
    if registered <= |i.turns| {
      forall n: nat ensures ResultLookup(i, n) == SnapshotLookup(i, n) { AgreeInPlace(i, 0, n); }
    } else {
      DifferOutOfPlace(i, 0);
    }
  }

  // ---- what reachable states offer a wait ----

  /** The invariants, as far as a wait reads them. */
  ghost predicate Waitable(i: Inner) {
    && Numbered(i)
    && (i.status.Running? ==> i.current.Some? || i.pendingStart.Some?)
    && (i.recording.Some? ==>
          && i.turns != [] && i.recording.value == i.turns[|i.turns| - 1].n == SettledCount(i)
          && i.turns[|i.turns| - 1].startedAt.Some?)
    && (forall x :: x in i.steerPending ==>
          && (i.status.Exited? || InView(i, x.target))
          && (HasSettled(i, x.target) ==> StartOf(i, x.target).Some?))
  }

  lemma PendingHasStart(s: Session, x: Steer)
    requires Inv(s) && Clocked(s) && x in s.inner.steerPending
    requires HasSettled(s.inner, x.target)
    ensures StartOf(s.inner, x.target).Some?
  {
    var k :| 0 <= k < |s.inner.steerPending| && s.inner.steerPending[k] == x;
    assert s.inner.steerPending[k].id in s.targets;
  }

  lemma ScopedWaitable(s: Session)
    requires Scoped(s)
    ensures Waitable(s.inner)
    ensures s.inner.current.Some? && !s.closed ==> Busy(s.inner.status)
  {
    ScopedWaits(s);
    forall x | x in s.inner.steerPending && HasSettled(s.inner, x.target)
      ensures StartOf(s.inner, x.target).Some?
    {
      PendingHasStart(s, x);
    }
  }

  // ---- binding ----

  /** The wait's broken-invariant error is out of reach: it always binds. */
  lemma WaitAlwaysBinds(s: Session)
    requires Scoped(s)
    ensures AwaitedTurn(s.inner).Ok?
  {
    ScopedWaitable(s);
  }

  /** A wait binds nothing if and only if no end awaits its record and the session waits
      for a permission, is dead, or is settled with no steer out. */
  lemma BindsNothingIff(s: Session)
    requires Scoped(s)
    ensures AwaitedTurn(s.inner) == Ok(None) <==>
      && s.inner.recording.None?
      && (s.inner.status.NeedsPermission? || s.inner.status.Exited?
          || (AcceptsPrompt(s.inner.status) && s.inner.steerPending == []))
  {
    ScopedWaitable(s);
  }

  /** Else it binds the open turn, if one runs or the one before awaits its record; with
      none open, the turn that awaits it, the one about to start of a running or parked
      session, or the one the newest steer was sent into. */
  lemma BindsTheTurn(s: Session, n: nat)
    requires Scoped(s) && AwaitedTurn(s.inner) == Ok(Some(n))
    ensures s.inner.current.Some? && (s.inner.recording.Some? || s.inner.status.Running?) ==>
      n == s.inner.current.value.n
    ensures s.inner.current.None? && s.inner.recording.Some? ==> s.inner.recording == Some(n)
    ensures s.inner.recording.None? && (ChainedGate(s.inner) || s.inner.status.RateLimited?) ==>
      n == NextTurnNumber(s.inner)
    ensures s.inner.recording.None? && AcceptsPrompt(s.inner.status) ==>
      s.inner.steerPending != [] && s.inner.steerPending[|s.inner.steerPending| - 1].target == n
  {
  }

  ghost predicate SettledLimited(i: Inner, n: nat) {
    exists k :: 0 <= k < |i.turns| && i.turns[k].n == n && i.turns[k].rateLimited
  }

  /** A wait that binds to a turn has something to wait for: the turn runs, is
      parked, or has steers out, or settled under a limit. Only a permission
      request already asked, or a close, ends it at once. */
  lemma BoundWaitHolds(s: Session)
    requires Scoped(s) && !s.closed && !s.inner.status.NeedsPermission?
    requires AwaitedTurn(s.inner).Ok? && AwaitedTurn(s.inner).value.Some?
    ensures var n := AwaitedTurn(s.inner).value.value;
      var a := AwaitedElapsed(s.inner, n);
      a.Ok? && !a.value.AwaitEnded? && (a.value.AwaitRateLimited? ==> SettledLimited(s.inner, n))
  {
    ScopedWaitable(s);
    BoundHolds(s.inner);
  }

  lemma BoundHolds(i: Inner)
    requires Waitable(i) && (i.current.Some? ==> Busy(i.status)) && !i.status.NeedsPermission?
    requires AwaitedTurn(i).Ok? && AwaitedTurn(i).value.Some?
    ensures AwaitedElapsed(i, AwaitedTurn(i).value.value).Ok?
    ensures !AwaitedElapsed(i, AwaitedTurn(i).value.value).value.AwaitEnded?
  {
    var n := AwaitedTurn(i).value.value;
    if i.recording.Some? { SteerEnds.FoundAt(i, |i.turns| - 1); }
    if i.recording.None? && AcceptsPrompt(i.status) {
      var x := i.steerPending[|i.steerPending| - 1];
      assert x in i.steerPending && x.target == n;
    }
  }

  // ---- what the answers mean ----

  /** The turn runs, or its end awaits its record, or its slot is reserved. */
  predicate Flies(i: Inner, n: nat) {
    || i.recording == Some(n)
    || (i.status.Running? && n == if i.current.Some? then i.current.value.n else NextTurnNumber(i))
  }

  predicate IsOpen(i: Inner, n: nat) {
    i.current.Some? && i.current.value.n == n
  }

  ghost predicate Steered(i: Inner, n: nat) {
    exists x :: x in i.steerPending && x.target == n
  }

  /** When the turn of that number started: its own start, or its slot's. */
  ghost predicate StartedAt(i: Inner, n: nat, at: int) {
    || (exists k :: 0 <= k < |i.turns| && i.turns[k].n == n && i.turns[k].startedAt == Some(at))
    || (IsOpen(i, n) && i.current.value.startedAt == Some(at))
    || (i.current.None? && n == NextTurnNumber(i) && i.pendingStart == Some(at))
  }

  /** Each answer of a wait is given in exactly one case, and a time is the turn's own. */
  lemma AnswersMean(s: Session, n: nat)
    requires Scoped(s)
    ensures var a := AwaitedElapsed(s.inner, n);
      && (a.Ok? && a.value.AwaitRunning? <==> Flies(s.inner, n))
      && (a == Ok(AwaitRateLimited) <==> !Flies(s.inner, n) && SettledLimited(s.inner, n))
      && (a == Ok(AwaitPaused) <==>
            && !Flies(s.inner, n) && !IsOpen(s.inner, n) && !SettledLimited(s.inner, n)
            && s.inner.status.RateLimited?)
      && (a == Ok(AwaitEnded) <==>
            && !Flies(s.inner, n)
            && (IsOpen(s.inner, n)
                || (!SettledLimited(s.inner, n) && !s.inner.status.RateLimited? && !Steered(s.inner, n))))
      && (a.Ok? && a.value.AwaitRunning? ==> StartedAt(s.inner, n, a.value.since))
      && (a.Ok? && a.value.AwaitSteers? ==> HasSettled(s.inner, n) && StartedAt(s.inner, n, a.value.since))
  {
    ScopedWaitable(s);
    AnswersMeanOf(s.inner, n);
  }

  lemma AnswersMeanOf(i: Inner, n: nat)
    requires Waitable(i)
    ensures var a := AwaitedElapsed(i, n);
      && (a.Ok? && a.value.AwaitRunning? <==> Flies(i, n))
      && (a == Ok(AwaitRateLimited) <==> !Flies(i, n) && SettledLimited(i, n))
      && (a == Ok(AwaitPaused) <==>
            !Flies(i, n) && !IsOpen(i, n) && !SettledLimited(i, n) && i.status.RateLimited?)
      && (a == Ok(AwaitEnded) <==>
            && !Flies(i, n)
            && (IsOpen(i, n) || (!SettledLimited(i, n) && !i.status.RateLimited? && !Steered(i, n))))
      && (a.Ok? && a.value.AwaitRunning? ==> StartedAt(i, n, a.value.since))
      && (a.Ok? && a.value.AwaitSteers? ==> HasSettled(i, n) && StartedAt(i, n, a.value.since))
  {
    if i.recording.Some? { SteerEnds.FoundAt(i, |i.turns| - 1); }
  }

  /** So a wait on a settled, recorded, unlimited turn of a session that is not parked ends
      once no steer is pending against it. */
  lemma SettledTurnEnds(s: Session, k: nat)
    requires Scoped(s) && k < |s.inner.turns| && !s.inner.turns[k].rateLimited
    requires s.inner.recording != Some(s.inner.turns[k].n) && !s.inner.status.RateLimited?
    requires NonePending(s.inner, s.inner.turns[k].n)
    ensures AwaitedElapsed(s.inner, s.inner.turns[k].n) == Ok(AwaitEnded)
  {
    ScopedWaitable(s);
    AnswersMean(s, s.inner.turns[k].n);
  }

  // ---- measuring ----

  ghost predicate TargetLost(i: Inner, n: nat) {
    i.status.Exited? && !InView(i, n) && exists x :: x in i.steerPending && x.target == n
  }

  /** Measuring an awaited turn fails exactly when the agent died with it and a
      steer was pushed into the dead session. */
  lemma MeasureFailsIff(s: Session, n: nat)
    requires Scoped(s)
    ensures AwaitedElapsed(s.inner, n).Err? <==> TargetLost(s.inner, n)
  {
    ScopedWaitable(s);
    MeasureFails(s.inner, n);
  }

  lemma MeasureFails(i: Inner, n: nat)
    requires Waitable(i)
    ensures AwaitedElapsed(i, n).Err? <==> TargetLost(i, n)
  {
    if i.recording.Some? { SteerEnds.FoundAt(i, |i.turns| - 1); }
  }

  /** What `wait` reports as ended is in the registry. */
  lemma ReportedEndIsDurable(s: Session, n: nat)
    requires ReachableCounted(s) && s.entry.Some? && n <= SettledCount(s.inner)
    requires AwaitedElapsed(s.inner, n).Ok? && AwaitedElapsed(s.inner, n).value in {AwaitEnded, AwaitRateLimited}
    ensures n <= s.entry.value.turns
  {
    RegistryTrailsByTheRecording(s);
  }

  /** What `read_recorded` may read as settled (no end awaits its record) is in the
      registry. */
  lemma RecordedReadIsDurable(s: Session, n: nat)
    requires ReachableCounted(s) && s.entry.Some? && s.inner.recording.None? && n <= SettledCount(s.inner)
    ensures n <= s.entry.value.turns
  {
    RegistryTrailsByTheRecording(s);
  }

  /** Once a wait on a settled turn has ended, no run brings back a steer pending
      against that turn. */
  lemma EndedWaitListsNoPending(s: Session, es: seq<Event>, n: nat)
    requires Reachable(s) && Possible(s, es) && n <= SettledCount(s.inner)
    requires AwaitedElapsed(s.inner, n) == Ok(AwaitEnded)
    ensures NonePending(Run(s, es).inner, n)
  {
    ReachableBase(s);
    EndedListsNone(s.inner, n);
    SettledGainsNoSteer(s, es, n);
  }

  lemma EndedListsNone(i: Inner, n: nat)
    requires Numbered(i) && n <= SettledCount(i) && AwaitedElapsed(i, n) == Ok(AwaitEnded)
    ensures NonePending(i, n)
  {
  }
}
