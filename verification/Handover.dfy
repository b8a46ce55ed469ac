/** Handing sessions to the next daemon generation: the takeover's partition, the
    entry a session travels in, and its resume on the other side. */
module Handover {
  import opened Common
  import opened SessionState
  import opened SubRuntime
  import TurnMachine
  import TurnTheorems
  import WaitInvariant
  import AnyRun
  import TurnRecords

  type Park = TurnMachine.Park

  /** The resume mark: the queued sends, and how the last turn ended. */
  datatype Mark = Mark(queued: seq<Prompt>, lastTurn: Option<LastTurn>)

  datatype Entry = Entry(turns: nat, parked: Option<Park>, resume: Option<Mark>)

  /** A live subagent: its record and its closing mark. */
  datatype Sub = Sub(inner: Inner, closing: Option<TurnMachine.Closing>)

  datatype Kept = Kept(id: string, socket: nat, entry: Option<Entry>)

  datatype Handed = Handed(id: string, entry: Entry)

  function ResumeMark(i: Inner): Mark {
    Mark(i.queue, LastTurnOf(i.status))
  }

  /** The entry a handed session ships in: its mark, and its queue as it stands in
      the record of a session parked right now. */
  function HandedEntry(e: Entry, i: Inner): Entry {
    e.(resume := Some(ResumeMark(i)),
       parked := if i.status.RateLimited? && e.parked.Some?
                 then Some(e.parked.value.(queued := i.queue)) else e.parked)
  }

  /** Nothing in flight, and nobody is ending it. */
  predicate Settled(sub: Sub) {
    !InFlight(sub.inner) && sub.closing.None?
  }

  function Lookup<K, V>(m: map<K, V>, k: K): Option<V> {
    if k in m then Some(m[k]) else None
  }

  /** What the takeover must report of a daemon's maps. */
  ghost predicate IsPartition(
    live: map<string, Sub>, reserved: set<string>, foreign: map<string, nat>, registry: map<string, Entry>,
    own: nat, kept: seq<Kept>, handed: seq<Handed>)
  {
    && (forall h :: h in handed <==>
          && h.id in live && Settled(live[h.id])
          && h.id in registry && h.entry == HandedEntry(registry[h.id], live[h.id].inner))
    && (forall k :: k in kept <==>
          k.entry == Lookup(registry, k.id)
          && ((k.socket == own && ((k.id in live && !Settled(live[k.id])) || k.id in reserved))
              || (k.id in foreign && k.socket == foreign[k.id])))
  }

  lemma SettledAreHanded(
    live: map<string, Sub>, registry: map<string, Entry>, own: nat, kept: seq<Kept>, handed: seq<Handed>)
    requires IsPartition(live, {}, map[], registry, own, kept, handed)
    requires forall id :: id in live && Settled(live[id]) ==> id in registry
    ensures forall id :: InHanded(handed, id) <==> id in live && Settled(live[id])
  {
    forall id ensures InHanded(handed, id) <==> id in live && Settled(live[id]) {
      if id in live && Settled(live[id]) {
        assert Handed(id, HandedEntry(registry[id], live[id].inner)) in handed;
      }
    }
  }

  class Daemon {
    var live: map<string, Sub>
    var reserved: set<string>
    var foreign: map<string, nat>
    var registry: map<string, Entry>
    var shipped: set<string>

    /** The pass over the live sessions: the settled ones are marked and handed. */
    method SplitLive(own: nat) returns (r: Result<(seq<Kept>, seq<Handed>), string>)
      modifies this`live
      ensures live.Keys == old(live).Keys
      ensures forall id :: id in live ==> live[id].inner == old(live)[id].inner
      ensures r.Ok? ==> forall id :: id in live && Settled(old(live)[id]) ==> id in registry
      ensures r.Ok? ==> forall id :: id in live ==>
        live[id] == if Settled(old(live)[id])
                    then old(live)[id].(closing := Some(TurnMachine.HandingOff)) else old(live)[id]
      ensures r.Ok? ==> IsPartition(old(live), {}, map[], registry, own, r.value.0, r.value.1)
      ensures r.Err? ==> r.error in old(live) && Settled(old(live)[r.error]) && r.error !in registry
    {
      var kept: seq<Kept> := [];
      var handed: seq<Handed> := [];
      ghost var live0 := live;
      var todo := live.Keys;
      while todo != {}
        invariant todo <= live0.Keys && live.Keys == live0.Keys
        invariant forall id :: id in live ==>
          live[id] == if id !in todo && Settled(live0[id])
                      then live0[id].(closing := Some(TurnMachine.HandingOff)) else live0[id]
        invariant forall id :: id in live0 && id !in todo && Settled(live0[id]) ==> id in registry
        invariant forall h :: h in handed <==>
          && h.id in live0 && h.id !in todo && Settled(live0[h.id])
          && h.id in registry && h.entry == HandedEntry(registry[h.id], live0[h.id].inner)
        invariant forall k :: k in kept <==>
          k.entry == Lookup(registry, k.id) && k.socket == own
          && k.id in live0 && k.id !in todo && !Settled(live0[k.id])
      {
        var id :| id in todo;
        todo := todo - {id};
        var sub := live[id];
        if InFlight(sub.inner) || sub.closing.Some? {
          kept := kept + [Kept(id, own, Lookup(registry, id))];
        } else {
          live := live[id := sub.(closing := Some(TurnMachine.HandingOff))];
          if id !in registry { return Err(id); }
          handed := handed + [Handed(id, HandedEntry(registry[id], sub.inner))];
        }
      }
      r := Ok((kept, handed));
    }

    /** Split the sessions at takeover: the settled ones are marked, handed over and
        leave `live`; the rest stay owned. */
    method Partition(own: nat) returns (r: Result<(seq<Kept>, seq<Handed>), string>)
      modifies this
      ensures reserved == old(reserved) && foreign == old(foreign) && registry == old(registry)
      ensures r.Ok? <==> forall id :: id in old(live) && Settled(old(live)[id]) ==> id in registry
      ensures r.Ok? ==> IsPartition(old(live), reserved, foreign, registry, own, r.value.0, r.value.1)
      ensures r.Ok? ==> live == map id | id in old(live) && !Settled(old(live)[id]) :: old(live)[id]
      ensures r.Ok? ==> forall id ::
        id in shipped <==> id in old(shipped) || (id in old(live) && Settled(old(live)[id]))
      ensures r.Err? ==> shipped == old(shipped) && live.Keys == old(live).Keys
      ensures r.Err? ==> r.error in old(live) && Settled(old(live)[r.error]) && r.error !in registry
    {
      var split := SplitLive(own);
      if split.Err? { return Err(split.error); }
      var (kept, handed) := split.value;
      var claimed := ReportAll(map id | id in reserved :: own);
      var relayed := ReportAll(foreign);
      var ids := set h | h in handed :: h.id;
      SettledAreHanded(old(live), registry, own, kept, handed);
      assert forall id :: id in ids <==> InHanded(handed, id);
      shipped := shipped + ids;
      live := live - ids;
      r := Ok((kept + claimed + relayed, handed));
    }

    /** Every id of a map, kept under its socket. */
    method ReportAll(owners: map<string, nat>) returns (kept: seq<Kept>)
      ensures forall k :: k in kept <==>
        k.id in owners && k.socket == owners[k.id] && k.entry == Lookup(registry, k.id)
    {
      kept := [];
      var todo := owners.Keys;
      while todo != {}
        invariant todo <= owners.Keys
        invariant forall k :: k in kept <==>
          k.id in owners && k.id !in todo && k.socket == owners[k.id] && k.entry == Lookup(registry, k.id)
      {
        var id :| id in todo;
        todo := todo - {id};
        kept := kept + [Kept(id, owners[id], Lookup(registry, id))];
      }
    }
  }

  // ---- the report ----

  ghost predicate InHanded(handed: seq<Handed>, id: string) {
    exists h :: h in handed && h.id == id
  }

  ghost predicate InKept(kept: seq<Kept>, id: string) {
    exists k :: k in kept && k.id == id
  }

  /** Every id is reported, and a live one is handed over if and only if nothing of
      it is in flight and nobody is ending it. */
  lemma EverySessionIsReported(
    live: map<string, Sub>, reserved: set<string>, foreign: map<string, nat>, registry: map<string, Entry>,
    own: nat, kept: seq<Kept>, handed: seq<Handed>, id: string)
    requires IsPartition(live, reserved, foreign, registry, own, kept, handed)
    requires forall x :: x in live && Settled(live[x]) ==> x in registry
    ensures InHanded(handed, id) || InKept(kept, id) <==> id in live || id in reserved || id in foreign
    ensures InHanded(handed, id) <==> id in live && Settled(live[id])
  {
    if id in live && Settled(live[id]) {
      assert Handed(id, HandedEntry(registry[id], live[id].inner)) in handed;
    }
    if (id in live && !Settled(live[id])) || id in reserved {
      assert Kept(id, own, Lookup(registry, id)) in kept;
    }
    if id in foreign {
      assert Kept(id, foreign[id], Lookup(registry, id)) in kept;
    }
  }

  /** An id is both handed over and kept exactly when a settled live session is still
      claimed or forwarded: a launch between going live and its release is such. */
  lemma HandedAndKeptIff(
    live: map<string, Sub>, reserved: set<string>, foreign: map<string, nat>, registry: map<string, Entry>,
    own: nat, kept: seq<Kept>, handed: seq<Handed>, id: string)
    requires IsPartition(live, reserved, foreign, registry, own, kept, handed)
    requires forall x :: x in live && Settled(live[x]) ==> x in registry
    ensures InHanded(handed, id) && InKept(kept, id) <==>
      id in live && Settled(live[id]) && (id in reserved || id in foreign)
  {
    EverySessionIsReported(live, reserved, foreign, registry, own, kept, handed, id);
    if id in reserved { assert Kept(id, own, Lookup(registry, id)) in kept; }
    if id in foreign { assert Kept(id, foreign[id], Lookup(registry, id)) in kept; }
  }

  // ---- what travels ----

  /** The queue a resume restores: the parked record's, else the mark's. */
  function RestoredQueue(e: Entry): seq<Prompt> {
    if e.parked.Some? then e.parked.value.queued
    else if e.resume.Some? then e.resume.value.queued
    else []
  }

  /** The registry entry of a machine session, with an earlier resume mark or none. */
  function EntryOf(e: TurnMachine.Entry, resume: Option<Mark>): Entry {
    Entry(e.turns, e.parked, resume)
  }

  /** A session handed over travels whole: its settled turns' count, how its last
      turn ended, and its accepted queue in order. The queue is hidden if and only if
      a parked record of another queue stands beside a session not parked: one that
      is dead, or had a turn start that failed to be logged. */
  lemma HandedEntryConserves(s: TurnMachine.Session, resume: Option<Mark>)
    requires TurnMachine.ScopedCounted(s) && s.entry.Some? && Settled(Sub(s.inner, s.closing))
    ensures var h := HandedEntry(EntryOf(s.entry.value, resume), s.inner);
      var parked := s.entry.value.parked;
      && h.turns == SettledCount(s.inner)
      && h.resume == Some(Mark(s.inner.queue, LastTurnOf(s.inner.status)))
      && (RestoredQueue(h) == s.inner.queue <==>
            parked.None? || s.inner.status.RateLimited? || parked.value.queued == s.inner.queue)
      && (parked.Some? && !s.inner.status.RateLimited? ==> s.inner.status.Exited? || s.writeFailed)
  {
    AnyRun.RegistryTrailsByTheRecording(s);
    ParkedFlagIsTrue(s);
  }

  /** With nothing in flight, only a parked or dead session's flag is armed, and the
      record of a parked one is its own or on its way. */
  lemma ParkedFlagIsTrue(s: TurnMachine.Session)
    requires TurnMachine.Scoped(s) && Settled(Sub(s.inner, s.closing))
    ensures !s.writeFailed && s.entry.Some? && s.entry.value.parked.Some? ==>
      s.inner.status.RateLimited? || s.inner.status.Exited?
    ensures s.inner.status.RateLimited? && !s.wire.Parking? && s.entry.Some? && s.entry.value.parked.Some? ==>
      TurnRecords.RecordOf(s.entry.value.parked.value, s.inner)
  {
    WaitInvariant.ScopedWaits(s);
  }

  /** The sessions a superseded daemon marks are those its partition hands over. */
  lemma MarksWhatItHands(s: TurnMachine.Session)
    requires s.superseded
    ensures TurnMachine.LifeEnabled(s, TurnMachine.PartitionMark) <==>
      && s.closing.None? && s.inner.recording.None? && s.inner.steerPending == []
      && !s.inner.status.Running? && !s.inner.status.NeedsPermission?
    ensures TurnMachine.LifeEnabled(s, TurnMachine.PartitionMark) <==> Settled(Sub(s.inner, s.closing))
  {
  }

  // ---- the resume ----

  ghost predicate Kickable(sub: SubRuntime)
    reads sub
  {
    PromptSlotFree(sub.Abs()) && sub.current.None? && sub.closing.None? && sub.queue != []
  }

  /** Start the first queued send of a settled session, or park it again in order. */
  method KickQueue(sub: SubRuntime, limit: Option<(int, string)>, now: int) returns (started: seq<Prompt>)
    modifies sub
    ensures started + sub.queue == old(sub.queue) && |started| <= 1
    ensures started != [] <==>
      old(Kickable(sub)) && limit.None?
    ensures started != [] ==>
      sub.Abs() == OpenTurn(old(sub.Abs()).(queue := sub.queue), now)
    ensures started == [] ==>
      sub.Abs() == if old(Kickable(sub))
                   then old(sub.Abs()).(pendingStart := None,
                                        status := RateLimited(limit.value.0, limit.value.1, Queue))
                   else old(sub.Abs())
    ensures sub.closing == old(sub.closing)
  {
    started := [];
    if AcceptsPrompt(sub.status) && sub.current.None? && sub.steerPending == []
       && sub.closing.None? && sub.queue != [] {
      var first := sub.queue[0];
      sub.queue := sub.queue[1..];
      if limit.Some? {
        var _ := sub.ReparkPrompt(first, limit.value.0, limit.value.1);
      } else {
        var begun := sub.BeginTurn(Check, now);
        if begun.Ok? { started := [first]; }
      }
    }
  }

  /** The session `launch` hands back for a load: settled, with nothing queued. */
  ghost predicate Fresh(i: Inner) {
    i.status.Idle? && i.current.None? && i.queue == [] && i.steerPending == [] && i.steerFolded == []
    && i.steerOwner.None? && i.recording.None?
  }

  function RestoredStatus(e: Entry): Status {
    if e.parked.Some? then RateLimited(e.parked.value.resumeAt, e.parked.value.reason, e.parked.value.plan)
    else if e.resume.Some? && e.resume.value.lastTurn.Some? then StatusFrom(e.resume.value.lastTurn.value)
    else Idle
  }

  /** Re-adopt a marked session: the last turn's outcome, the parked schedule, the
      queue, and its first turn. */
  method ResumeOne(sub: SubRuntime, e: Entry, limit: Option<(int, string)>, now: int)
    returns (started: seq<Prompt>)
    requires Fresh(sub.Abs()) && sub.closing.None?
    modifies sub
    ensures started + sub.queue == RestoredQueue(e)
    ensures started != [] <==> e.parked.None? && RestoredQueue(e) != [] && limit.None?
    ensures started == [] && (e.parked.Some? || RestoredQueue(e) == []) ==> sub.status == RestoredStatus(e)
    ensures started == [] && e.parked.None? && RestoredQueue(e) != [] ==>
      sub.status == RateLimited(limit.value.0, limit.value.1, Queue)
    ensures started != [] ==> sub.current == Some(NewTurn(NextTurnNumber(old(sub.Abs())), now))
    ensures started == [] ==> sub.current.None?
    ensures sub.turnOffset == old(sub.turnOffset) && sub.turns == old(sub.turns)
  {
    var queued := if e.parked.Some? then e.parked.value.queued
                  else if e.resume.Some? then e.resume.value.queued else [];
    if e.resume.Some? && e.resume.value.lastTurn.Some? {
      sub.status := StatusFrom(e.resume.value.lastTurn.value);
    }
    if e.parked.Some? {
      sub.status := RateLimited(e.parked.value.resumeAt, e.parked.value.reason, e.parked.value.plan);
    }
    assert old(sub.Abs()).queue == [] && old(sub.Abs()).steerPending == [];
    sub.queue := sub.queue + queued;
    assert sub.queue == queued;
    started := KickQueue(sub, limit, now);
  }

  /** Across the handover: what the successor restores from the entry of a handed,
      living session is that session's queue, count and status; a parked one's status
      survives if and only if its record stands, with the record's time, which may be
      the earlier, and else the session is restored idle. */
  lemma HandoverConserves(s: TurnMachine.Session, resume: Option<Mark>)
    requires TurnMachine.ScopedCounted(s) && s.entry.Some? && !s.writeFailed
    requires Settled(Sub(s.inner, s.closing)) && !s.inner.status.Exited?
    ensures var h := HandedEntry(EntryOf(s.entry.value, resume), s.inner);
      var parked := s.entry.value.parked;
      && RestoredQueue(h) == s.inner.queue && h.turns == SettledCount(s.inner)
      && (AcceptsPrompt(s.inner.status) ==> RestoredStatus(h) == s.inner.status)
      && (s.inner.status.RateLimited? ==> (RestoredStatus(h).RateLimited? <==> parked.Some?))
      && (s.inner.status.RateLimited? && parked.None? ==> RestoredStatus(h).Idle?)
      && (s.inner.status.RateLimited? && !s.wire.Parking? && parked.Some? ==>
            && RestoredStatus(h) == s.inner.status.(resumeAt := parked.value.resumeAt)
            && parked.value.resumeAt <= s.inner.status.resumeAt)
  {
    HandedEntryConserves(s, resume);
    ParkedFlagIsTrue(s);
  }

  // ---- the two resumes of a parked session ----

  /** What a resume sends, then runs: `None` is the fixed continuation. */
  function LiveResume(i: Inner, now: int): (Option<Prompt>, seq<Prompt>)
    requires i.status.RateLimited? && (i.status.plan.Queue? ==> i.queue != [])
  {
    var (j, first) := ReserveResume(i, now);
    (first, j.queue)
  }

  function LoadedResume(park: Park): (Option<Prompt>, seq<Prompt>)
    requires park.plan.Queue? ==> park.queued != []
  {
    if park.plan.Queue? then (Some(park.queued[0]), park.queued[1..]) else (None, park.queued)
  }

  /** The two run the same prompts in the same order, if and only if the record has
      the session's plan and queue. */
  lemma ResumesAgreeIff(i: Inner, park: Park, now: int)
    requires i.status.RateLimited? && (i.status.plan.Queue? ==> i.queue != [])
    requires park.plan.Queue? ==> park.queued != []
    ensures LiveResume(i, now) == LoadedResume(park) <==> park.plan == i.status.plan && park.queued == i.queue
  {
    if LiveResume(i, now) == LoadedResume(park) && i.status.plan.Queue? && park.plan.Queue? {
      assert i.queue == [i.queue[0]] + i.queue[1..];
      assert park.queued == [park.queued[0]] + park.queued[1..];
    }
  }

  /** In every run, once its park is recorded, a parked session's resume through
      `session/load` sends what its living process would and runs the same prompts
      after it, but for those accepted since the park; with none, they agree. */
  lemma ParkedResumesAgree(s: TurnMachine.Session, now: int)
    requires TurnMachine.Scoped(s) && s.closing.None? && s.inner.status.RateLimited?
    requires TurnRecords.Awaited(s.wire).None? && s.entry.Some? && s.entry.value.parked.Some?
    ensures s.inner.status.plan.Queue? ==> s.inner.queue != []
    ensures s.entry.value.parked.value.plan.Queue? ==> s.entry.value.parked.value.queued != []
    ensures var park := s.entry.value.parked.value;
      var live, loaded := LiveResume(s.inner, now), LoadedResume(park);
      && live.0 == loaded.0 && loaded.1 <= live.1
      && (live == loaded <==> |park.queued| == |s.inner.queue|)
  {
    TurnTheorems.ScopedInv(s);
    var park := s.entry.value.parked.value;
    assert TurnRecords.RecordOf(park, s.inner);
    ResumesAgreeIff(s.inner, park, now);
  }
}
