/** Quota gates: each scope's limit as reports and reads move it, the parked
    sessions it moves with it, and the gates a restart restores. */
module RateLimits {
  import opened Common
  import opened SessionState

  datatype Limit = Limit(resumeAt: int, reason: string)

  /** A parked flag in the registry; `resumeAt` is `None` where the stamp is unreadable. */
  datatype Parked = Parked(resumeAt: Option<int>, reason: string)

  datatype RegEntry = RegEntry(agent: string, parked: Option<Parked>)

  datatype LiveSession = LiveSession(agent: string, status: Status)

  type Gates = map<string, Limit>

  // ---- gates, on values ----

  datatype Op = Report(agent: string, at: int, reason: string) | Read(agent: string, now: int)

  function GateOf(gates: Gates, agent: string): Option<Limit> {
    if agent in gates then Some(gates[agent]) else None
  }

  function Reported(gates: Gates, agent: string, at: int, reason: string): Gates {
    var at' := if agent in gates then Max(gates[agent].resumeAt, at) else at;
    gates[agent := Limit(at', reason)]
  }

  /** The gate as a prompt finds it; an expired one is dropped on read. */
  function Active(gates: Gates, agent: string, now: int): Option<Limit> {
    if agent in gates && gates[agent].resumeAt > now then Some(gates[agent]) else None
  }

  function AfterRead(gates: Gates, agent: string, now: int): Gates {
    if Active(gates, agent, now).Some? then gates else gates - {agent}
  }

  function Apply(gates: Gates, op: Op): Gates {
    match op
    case Report(agent, at, reason) => Reported(gates, agent, at, reason)
    case Read(agent, now) => AfterRead(gates, agent, now)
  }

  function ApplyAll(gates: Gates, ops: seq<Op>): Gates {
    if ops == [] then gates else Apply(ApplyAll(gates, ops[..|ops| - 1]), ops[|ops| - 1])
  }

  // ---- the sections in place ----

  function LaterStatus(status: Status, at: int): Status {
    if status.RateLimited? then status.(resumeAt := Max(status.resumeAt, at)) else status
  }

  function LaterParked(parked: Option<Parked>, at: int): Option<Parked> {
    if parked.Some? && parked.value.resumeAt.Some?
    then Some(parked.value.(resumeAt := Some(Max(parked.value.resumeAt.value, at)))) else parked
  }

  /** A parked flag moved to a gate's time: a readable time is the later of the two, the
      reason stands, and nothing else changes. */
  predicate MovedTo(was: Option<Parked>, now: Option<Parked>, gate: int) {
    if was.None? || was.value.resumeAt.None? then now == was
    else
      && now.Some? && now.value.resumeAt.Some? && now.value.reason == was.value.reason
      && gate <= now.value.resumeAt.value && was.value.resumeAt.value <= now.value.resumeAt.value
      && (now.value.resumeAt.value == gate || now.value.resumeAt == was.value.resumeAt)
  }

  class Scopes {
    var gates: Gates
    var live: map<string, LiveSession>
    var registry: map<string, RegEntry>

    /** Every parked live session of the agent moves to the gate's time. */
    method MoveLive(agent: string, resumeAt: int)
      modifies this`live
      ensures live == map id | id in old(live) ::
        if old(live)[id].agent == agent
        then old(live)[id].(status := LaterStatus(old(live)[id].status, resumeAt)) else old(live)[id]
    {
      ghost var live0 := live;
      var todo := live.Keys;
      while todo != {}
        invariant todo <= live.Keys && live.Keys == live0.Keys
        invariant forall id :: id in live ==>
          live[id] == if id !in todo && live0[id].agent == agent
                      then live0[id].(status := LaterStatus(live0[id].status, resumeAt)) else live0[id]
      {
        var id :| id in todo;
        todo := todo - {id};
        var session := live[id];
        if session.agent == agent && session.status.RateLimited? {
          live := live[id := session.(status := session.status.(resumeAt := Max(session.status.resumeAt, resumeAt)))];
        }
      }
    }

    /** So does every parked flag in the registry with a readable time. */
    method MoveRegistered(agent: string, resumeAt: int)
      modifies this`registry
      ensures registry == map id | id in old(registry) ::
        if old(registry)[id].agent == agent
        then old(registry)[id].(parked := LaterParked(old(registry)[id].parked, resumeAt)) else old(registry)[id]
    {
      ghost var registry0 := registry;
      var todo := registry.Keys;
      while todo != {}
        invariant todo <= registry.Keys && registry.Keys == registry0.Keys
        invariant forall id :: id in registry ==>
          registry[id] == if id !in todo && registry0[id].agent == agent
                          then registry0[id].(parked := LaterParked(registry0[id].parked, resumeAt)) else registry0[id]
      {
        var id :| id in todo;
        todo := todo - {id};
        var entry := registry[id];
        if entry.agent == agent && entry.parked.Some? && entry.parked.value.resumeAt.Some?
           && resumeAt > entry.parked.value.resumeAt.value {
          registry := registry[id := entry.(parked := Some(entry.parked.value.(resumeAt := Some(resumeAt))))];
        }
      }
    }

    /** Register a report: the gate only moves later, the last reason stands, and right
        after it no parked session of the agent, live or registered, is due before
        the gate. */
    method NoteLimit(agent: string, at: int, reason: string)
      modifies this
      ensures gates == Reported(old(gates), agent, at, reason)
      ensures live.Keys == old(live).Keys && registry.Keys == old(registry).Keys
      ensures forall id :: id in live && live[id].agent == agent && live[id].status.RateLimited? ==>
        old(live)[id].status.RateLimited?
        && live[id].status.resumeAt == Max(old(live)[id].status.resumeAt, gates[agent].resumeAt)
        && live[id] == old(live)[id].(status := old(live)[id].status.(resumeAt := live[id].status.resumeAt))
      ensures forall id :: id in live && !old(live)[id].status.RateLimited? ==> live[id] == old(live)[id]
      // No parked flag of the agent with a readable time is due before the gate.
      ensures forall id :: id in registry && registry[id].agent == agent ==>
        registry[id] == old(registry)[id].(parked := registry[id].parked)
        && MovedTo(old(registry)[id].parked, registry[id].parked, gates[agent].resumeAt)
      ensures forall id :: id in live && live[id].agent != agent ==> live[id] == old(live)[id]
      ensures forall id :: id in registry && registry[id].agent != agent ==> registry[id] == old(registry)[id]
    {
      var limit := if agent in gates then gates[agent] else Limit(at, reason);
      if at > limit.resumeAt { limit := limit.(resumeAt := at); }
      limit := limit.(reason := reason);
      gates := gates[agent := limit];
      MoveLive(agent, limit.resumeAt);
      MoveRegistered(agent, limit.resumeAt);
    }

    method ActiveLimit(agent: string, now: int) returns (limit: Option<Limit>)
      modifies this`gates
      ensures limit == Active(old(gates), agent, now)
      ensures gates == AfterRead(old(gates), agent, now)
    {
      if agent in gates && gates[agent].resumeAt > now { return Some(gates[agent]); }
      if agent in gates {
        gates := gates - {agent};
      } else {
        assert gates - {agent} == gates;
      }
      limit := None;
    }
  }

  // ---- the gate is the running maximum ----

  /** The latest time the reports on a scope ever named. */
  function Latest(ops: seq<Op>, agent: string): Option<int> {
    if ops == [] then None
    else
      var before := Latest(ops[..|ops| - 1], agent);
      var op := ops[|ops| - 1];
      if op.Report? && op.agent == agent
      then Some(if before.Some? then Max(before.value, op.at) else op.at) else before
  }

  /** The reason the last report on a scope gave. */
  function LastReason(ops: seq<Op>, agent: string): Option<string> {
    if ops == [] then None
    else
      var op := ops[|ops| - 1];
      if op.Report? && op.agent == agent then Some(op.reason) else LastReason(ops[..|ops| - 1], agent)
  }

  ghost predicate ReadBy(ops: seq<Op>, now: int) {
    forall k :: 0 <= k < |ops| && ops[k].Read? ==> ops[k].now <= now
  }

  lemma {:induction false} GateTracks(ops: seq<Op>, agent: string, now: int)
    requires ReadBy(ops, now)
    ensures var gate := GateOf(ApplyAll(map[], ops), agent);
      && (gate.Some? ==> Latest(ops, agent).Some? && LastReason(ops, agent) == Some(gate.value.reason)
                         && gate.value.resumeAt <= Latest(ops, agent).value)
      && (Latest(ops, agent).Some? && Latest(ops, agent).value > now ==>
            gate.Some? && gate.value.resumeAt == Latest(ops, agent).value)
  {
    if ops != [] {
      var before := ops[..|ops| - 1];
      GateTracks(before, agent, now);
      assert ops[|ops| - 1].Read? ==> ops[|ops| - 1].now <= now;
    }
  }

  /** However many expired gates were dropped on read on the way, the limit in effect
      is the latest time ever reported, with the last reason given, for as long as
      that time is ahead. */
  lemma ActiveIsLatest(ops: seq<Op>, agent: string, now: int)
    requires ReadBy(ops, now)
    ensures Active(ApplyAll(map[], ops), agent, now) ==
      if Latest(ops, agent).Some? && Latest(ops, agent).value > now
      then Some(Limit(Latest(ops, agent).value, LastReason(ops, agent).GetOr(""))) else None
  {
    GateTracks(ops, agent, now);
  }

  /** Reports alone never move a gate earlier. */
  lemma {:induction false} ReportsOnlyPush(gates: Gates, ops: seq<Op>, agent: string)
    requires agent in gates && forall k :: 0 <= k < |ops| ==> ops[k].Report?
    ensures agent in ApplyAll(gates, ops) && gates[agent].resumeAt <= ApplyAll(gates, ops)[agent].resumeAt
  {
    if ops != [] {
      ReportsOnlyPush(gates, ops[..|ops| - 1], agent);
    }
  }

  // ---- restoring gates ----

  predicate Gating(e: RegEntry, agent: string, now: int) {
    e.agent == agent && e.parked.Some? && e.parked.value.resumeAt.Some? && e.parked.value.resumeAt.value > now
  }

  /** The scope's gate is the latest unexpired parked time, with the reason of the
      first entry that has it. */
  ghost predicate RestoredFrom(entries: seq<RegEntry>, agent: string, now: int, limit: Limit, k: nat) {
    && k < |entries| && Gating(entries[k], agent, now)
    && entries[k].parked.value == Parked(Some(limit.resumeAt), limit.reason)
    && (forall j :: 0 <= j < |entries| && Gating(entries[j], agent, now) ==>
          && entries[j].parked.value.resumeAt.value <= limit.resumeAt
          && (j < k ==> entries[j].parked.value.resumeAt.value < limit.resumeAt))
  }

  ghost predicate AnyGating(entries: seq<RegEntry>, agent: string, now: int) {
    exists k :: 0 <= k < |entries| && Gating(entries[k], agent, now)
  }

  ghost predicate Restored(entries: seq<RegEntry>, agent: string, now: int, limit: Limit) {
    exists k: nat :: RestoredFrom(entries, agent, now, limit, k)
  }

  ghost predicate Restores(entries: seq<RegEntry>, now: int, gates: Gates) {
    && (forall agent :: agent in gates <==> AnyGating(entries, agent, now))
    && (forall agent :: agent in gates ==> Restored(entries, agent, now, gates[agent]))
  }

  /** One entry's effect on the gates so far. */
  function AfterEntry(gates: Gates, e: RegEntry, now: int): Gates {
    if !Gating(e, e.agent, now) then gates
    else
      var limit := Limit(e.parked.value.resumeAt.value, e.parked.value.reason);
      gates[e.agent := if e.agent in gates && gates[e.agent].resumeAt >= limit.resumeAt then gates[e.agent] else limit]
  }

  method RestoreEntry(gates: Gates, entry: RegEntry, now: int) returns (limits: Gates)
    ensures limits == AfterEntry(gates, entry, now)
  {
    limits := gates;
    if entry.parked.Some? && entry.parked.value.resumeAt.Some? && entry.parked.value.resumeAt.value > now {
      var resumeAt := entry.parked.value.resumeAt.value;
      var limit := if entry.agent in limits then limits[entry.agent] else Limit(resumeAt, entry.parked.value.reason);
      if resumeAt > limit.resumeAt {
        limit := Limit(resumeAt, entry.parked.value.reason);
      }
      limits := limits[entry.agent := limit];
    }
  }

  method RestoredLimits(entries: seq<RegEntry>, now: int) returns (limits: Gates)
    ensures Restores(entries, now, limits)
  {
    limits := map[];
    var n := 0;
    while n < |entries|
      invariant 0 <= n <= |entries|
      invariant Restores(entries[..n], now, limits)
    {
      var entry := entries[n];
      RestoreOne(entries[..n], entry, now, limits);
      assert entries[..n + 1] == entries[..n] + [entry];
      limits := RestoreEntry(limits, entry, now);
      n := n + 1;
    }
    assert entries[..n] == entries;
  }

  lemma RestoreOne(done: seq<RegEntry>, e: RegEntry, now: int, gates: Gates)
    requires Restores(done, now, gates)
    ensures Restores(done + [e], now, AfterEntry(gates, e, now))
  {
    var all, after := done + [e], AfterEntry(gates, e, now);
    forall agent
      ensures agent in after <==> AnyGating(all, agent, now)
      ensures agent in after ==> Restored(all, agent, now, after[agent])
    {
      RestoreAgent(done, e, now, gates, agent);
    }
  }

  lemma RestoreAgent(done: seq<RegEntry>, e: RegEntry, now: int, gates: Gates, agent: string)
    requires agent in gates <==> AnyGating(done, agent, now)
    requires agent in gates ==> Restored(done, agent, now, gates[agent])
    ensures var after := AfterEntry(gates, e, now);
      && (agent in after <==> AnyGating(done + [e], agent, now))
      && (agent in after ==> Restored(done + [e], agent, now, after[agent]))
  {
    var all, after := done + [e], AfterEntry(gates, e, now);
    assert all[|done|] == e;
    assert forall j :: 0 <= j < |done| ==> all[j] == done[j];
    if agent in gates {
      var k: nat :| RestoredFrom(done, agent, now, gates[agent], k);
      assert Gating(all[k], agent, now);
      assert RestoredFrom(all, agent, now, after[agent], if after[agent] == gates[agent] then k else |done|);
    } else {
      assert forall j :: 0 <= j < |done| ==> !Gating(done[j], agent, now);
      if Gating(e, agent, now) {
        assert RestoredFrom(all, agent, now, after[agent], |done|);
      }
    }
  }
}
