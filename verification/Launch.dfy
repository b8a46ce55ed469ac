/** Launching a session under a reservation while others close or forget it: the
    live and reserved maps, and every interleaving of one `session/load` launch
    with any number of ends. */
module Launch {
  import opened Common

  datatype Reservation = Reservation(closed: bool, forgotten: bool)

  const FRESH := Reservation(false, false)

  /** Live subagents by session id (each with a number of its own), and the ids
      claimed by launches in flight. */
  datatype Maps = Maps(live: map<string, nat>, reserved: map<string, Reservation>)

  datatype SessionEnd = EndLive(sub: nat) | EndLaunching | EndMissing

  /** What a launch's release found. */
  datatype Released = Clean | Marked | Taken

  // ---- the critical sections, on values ----

  /** The claim: refused while the id is live (a dead husk aside) or claimed;
      answers the husk to reap. */
  function Claim(m: Maps, id: string, husk: bool): Result<(Maps, Option<nat>), string> {
    if id in m.live && !husk then Err("live")
    else if id in m.reserved then Err("live")
    else
      var reap := if id in m.live then Some(m.live[id]) else None;
      Ok((Maps(m.live - {id}, m.reserved[id := FRESH]), reap))
  }

  function GoLive(m: Maps, id: string, sub: nat): Result<Maps, string> {
    if id in m.live then Err("live") else Ok(m.(live := m.live[id := sub]))
  }

  function EndTarget(m: Maps, id: string, forgotten: bool): (Maps, SessionEnd) {
    if id in m.live then (m.(live := m.live - {id}), EndLive(m.live[id]))
    else if id in m.reserved then
      (m.(reserved := m.reserved[id := Reservation(true, m.reserved[id].forgotten || forgotten)]), EndLaunching)
    else (m, EndMissing)
  }

  function Release(m: Maps, id: string): (Maps, Released, bool)
    requires id in m.reserved
  {
    var r := m.reserved[id];
    var unclaimed := m.(reserved := m.reserved - {id});
    if r.closed && id in m.live then (unclaimed.(live := m.live - {id}), Marked, r.forgotten)
    else if r.closed || id !in m.live then (unclaimed, Taken, r.forgotten)
    else (unclaimed, Clean, r.forgotten)
  }

  // ---- the same sections in place ----

  class Daemon {
    var live: map<string, nat>
    var reserved: map<string, Reservation>

    ghost function Held(): Maps
      reads this
    {
      Maps(live, reserved)
    }

    method ClaimLoad(id: string, exited: set<nat>) returns (r: Result<Option<nat>, string>)
      modifies this
      ensures var spec := Claim(old(Held()), id, id in old(live) && old(live)[id] in exited);
        && (r.Ok? <==> spec.Ok?)
        && (r.Ok? ==> spec.value == (Held(), r.value))
        && (r.Err? ==> Held() == old(Held()))
      // A live session is claimed only as a husk, which is the caller's to reap.
      ensures r.Ok? <==> id !in old(reserved) && (id in old(live) ==> old(live)[id] in exited)
      ensures r.Ok? ==> r.value == if id in old(live) then Some(old(live)[id]) else None
      // Nobody else's session is touched, and the claim is the caller's alone.
      ensures forall other :: other != id ==>
        && (other in live <==> other in old(live)) && (other in live ==> live[other] == old(live)[other])
      ensures r.Ok? ==> id !in live && id in reserved && id !in old(reserved)
    {
      var husk := id in live && live[id] in exited;
      if id in live && !husk { return Err("live"); }
      if id in reserved { return Err("live"); }
      reserved := reserved[id := FRESH];
      r := Ok(None);
      if husk {
        r := Ok(Some(live[id]));
        live := live - {id};
      } else {
        assert live - {id} == live;
      }
    }

    method PutLive(id: string, sub: nat) returns (collision: bool)
      modifies this`live
      ensures collision <==> id in old(live)
      ensures collision ==> Held() == old(Held())
      ensures !collision ==> GoLive(old(Held()), id, sub) == Ok(Held())
    {
      collision := id in live;
      if !collision { live := live[id := sub]; }
    }

    method ReleaseReservation(id: string) returns (released: Released, forgotten: bool)
      requires id in reserved
      modifies this
      ensures (Held(), released, forgotten) == Release(old(Held()), id)
    {
      var reservation := reserved[id];
      reserved := reserved - {id};
      forgotten := reservation.forgotten;
      if reservation.closed {
        if id in live {
          live := live - {id};
          released := Marked;
        } else {
          released := Taken;
        }
      } else if id in live {
        released := Clean;
      } else {
        released := Taken;
      }
    }

    method End(id: string, forgotten: bool) returns (end: SessionEnd)
      modifies this
      ensures (Held(), end) == EndTarget(old(Held()), id, forgotten)
      // A live session is the caller's to tear down; a launch in flight is marked.
      ensures id in old(live) ==> end == EndLive(old(live)[id]) && live == old(live) - {id} && reserved == old(reserved)
      ensures id !in old(live) && id in old(reserved) ==>
        && end.EndLaunching? && live == old(live)
        && reserved == old(reserved)[id := Reservation(true, old(reserved)[id].forgotten || forgotten)]
      ensures id !in old(live) && id !in old(reserved) ==> end.EndMissing? && Held() == old(Held())
    {
      if id in live {
        end := EndLive(live[id]);
        live := live - {id};
      } else if id in reserved {
        reserved := reserved[id := Reservation(true, reserved[id].forgotten || forgotten)];
        end := EndLaunching;
      } else {
        end := EndMissing;
      }
    }
  }

  // ---- one launch, any number of ends ----

  /** How far the launch has come. */
  datatype Phase =
    | Preflight
    | Claimed
    | Registered
    | WentLive
    | TearingDown(forgotten: bool)
    | Dropping
    | LaunchedOk
    | ClosedWhileLaunching
    | LaunchFailed

  datatype World = World(
    maps: Maps,
    registered: bool,      // the registry holds an entry for the session
    phase: Phase,
    removals: nat,         // forgets whose own registry removal is still to come
    taken: multiset<nat>,  // subagents taken for teardown
    ended: bool,           // an end landed while the reservation was held
    forgotten: bool)       // a forget did

  /** The one session id, the launch's subagent, and the one it may find live: exited,
      or running. */
  const ID := "session"
  const OWN: nat := 1
  const HUSK: nat := 0
  const RUNNING: nat := 2

  predicate FindsHusk(m: Maps) {
    ID in m.live && m.live[ID] == HUSK
  }

  datatype Event =
    | TakeClaim
    | Register            // the handshake upserts the registry entry
    | FailEarly           // spawn, handshake or transcript error
    | PutOwnLive
    | ReleaseClaim
    | Torn                // the launch's own teardown of the marked session
    | DropEntry
    | EndIt(forget: bool)
    | RemoveEntry         // a forget's own registry removal

  predicate Held(p: Phase) {
    p.Claimed? || p.Registered? || p.WentLive?
  }

  predicate Enabled(w: World, e: Event) {
    match e
    case TakeClaim => w.phase.Preflight? && Claim(w.maps, ID, FindsHusk(w.maps)).Ok?
    case Register => w.phase.Claimed?
    case FailEarly => w.phase.Claimed? || w.phase.Registered?
    case PutOwnLive => w.phase.Registered? && GoLive(w.maps, ID, OWN).Ok?
    case ReleaseClaim => w.phase.WentLive? && ID in w.maps.reserved
    case Torn => w.phase.TearingDown?
    case DropEntry => w.phase.Dropping?
    case EndIt(_) => true
    case RemoveEntry => w.removals > 0
  }

  function AfterRelease(released: Released, forgotten: bool): Phase {
    match released
    case Clean => LaunchedOk
    case Marked => TearingDown(forgotten)
    case Taken => if forgotten then Dropping else ClosedWhileLaunching
  }

  function Take(w: World, end: SessionEnd): World {
    if end.EndLive? then w.(taken := w.taken + multiset{end.sub}) else w
  }

  function Step(w: World, e: Event): World
    requires Enabled(w, e)
  {
    match e
    case TakeClaim =>
      var (maps, reap) := Claim(w.maps, ID, FindsHusk(w.maps)).value;
      w.(maps := maps, phase := Claimed,
         taken := if reap.Some? then w.taken + multiset{reap.value} else w.taken)
    case Register => w.(registered := true, phase := Registered)
    case FailEarly => w.(maps := w.maps.(reserved := w.maps.reserved - {ID}), phase := LaunchFailed)
    case PutOwnLive => w.(maps := GoLive(w.maps, ID, OWN).value, phase := WentLive)
    case ReleaseClaim =>
      var (maps, released, forgotten) := Release(w.maps, ID);
      w.(maps := maps, phase := AfterRelease(released, forgotten),
         taken := if released.Marked? then w.taken + multiset{OWN} else w.taken)
    case Torn => w.(phase := if w.phase.forgotten then Dropping else ClosedWhileLaunching)
    case DropEntry => w.(registered := false, phase := ClosedWhileLaunching)
    case EndIt(forget) =>
      var (maps, end) := EndTarget(w.maps, ID, forget);
      Take(w, end).(maps := maps, removals := if forget then w.removals + 1 else w.removals,
                    ended := w.ended || Held(w.phase), forgotten := w.forgotten || (forget && Held(w.phase)))
    case RemoveEntry => w.(registered := false, removals := w.removals - 1)
  }

  predicate Init(w: World) {
    && w.phase.Preflight? && w.removals == 0 && w.taken == multiset{} && !w.ended && !w.forgotten
    && ID !in w.maps.reserved && (ID in w.maps.live ==> w.maps.live[ID] == HUSK || w.maps.live[ID] == RUNNING)
  }

  predicate IsLive(m: Maps, sub: nat) {
    ID in m.live && m.live[ID] == sub
  }

  // ---- what every interleaving keeps ----

  ghost predicate Agreed(w: World) {
    var m := w.maps;
    && (ID in m.reserved <==> Held(w.phase))
    && (ID in m.live ==>
          if m.live[ID] == OWN then w.phase.WentLive? || w.phase.LaunchedOk?
          else (m.live[ID] == HUSK || m.live[ID] == RUNNING) && w.phase.Preflight?)
  }

  /** Each subagent that was live, found so or put there, and is live no more was taken,
      once. */
  ghost predicate TakenOnce(w: World, found: Maps) {
    && w.taken[OWN] + (if IsLive(w.maps, OWN) then 1 else 0)
         == (if w.phase.Preflight? || w.phase.Claimed? || w.phase.Registered? || w.phase.LaunchFailed? then 0 else 1)
    && w.taken[HUSK] + (if IsLive(w.maps, HUSK) then 1 else 0) == (if IsLive(found, HUSK) then 1 else 0)
    && w.taken[RUNNING] + (if IsLive(w.maps, RUNNING) then 1 else 0) == (if IsLive(found, RUNNING) then 1 else 0)
  }

  /** An end that landed in the launch stays in force. */
  ghost predicate EndStands(w: World) {
    var m := w.maps;
    && (w.ended && Held(w.phase) ==>
          ID in m.reserved && (m.reserved[ID].closed || (w.phase.WentLive? && ID !in m.live)))
    && (w.ended ==> !w.phase.LaunchedOk? && !w.phase.Preflight?)
    && (w.phase.LaunchedOk? || w.phase.WentLive? || ID !in m.live || w.phase.Preflight?)
  }

  /** A forget that landed in it will have its entry removed. */
  ghost predicate ForgetStands(w: World) {
    var m := w.maps;
    && (w.forgotten ==> w.ended)
    && (w.forgotten && Held(w.phase) ==>
          ID in m.reserved
          && (m.reserved[ID].forgotten || (w.phase.WentLive? && ID !in m.live && (w.removals > 0 || !w.registered))))
    && (w.forgotten && (w.phase.ClosedWhileLaunching? || (w.phase.TearingDown? && !w.phase.forgotten)) ==>
          w.removals > 0 || !w.registered)
  }

  ghost predicate Inv(w: World, found: Maps) {
    Agreed(w) && TakenOnce(w, found) && EndStands(w) && ForgetStands(w)
  }

  lemma StepKeepsInv(w: World, e: Event, found: Maps)
    requires Inv(w, found) && Enabled(w, e)
    ensures Inv(Step(w, e), found)
  {
    StepKeepsCounts(w, e, found);
    StepKeepsEnds(w, e);
  }

  lemma StepKeepsCounts(w: World, e: Event, found: Maps)
    requires Agreed(w) && TakenOnce(w, found) && Enabled(w, e)
    ensures Agreed(Step(w, e)) && TakenOnce(Step(w, e), found)
  {
  }

  lemma StepKeepsEnds(w: World, e: Event)
    requires Agreed(w) && EndStands(w) && ForgetStands(w) && Enabled(w, e)
    ensures EndStands(Step(w, e)) && ForgetStands(Step(w, e))
  {
  }

  ghost predicate Allowed(w: World, es: seq<Event>)
    decreases |es|
  {
    es == [] || (Enabled(w, es[0]) && Allowed(Step(w, es[0]), es[1..]))
  }

  ghost function Run(w: World, es: seq<Event>): World
    requires Allowed(w, es)
    decreases |es|
  {
    if es == [] then w else Run(Step(w, es[0]), es[1..])
  }

  lemma {:induction false} RunKeepsInv(w: World, es: seq<Event>, found: Maps)
    requires Inv(w, found) && Allowed(w, es)
    ensures Inv(Run(w, es), found)
    decreases |es|
  {
    if es != [] {
      StepKeepsInv(w, es[0], found);
      RunKeepsInv(Step(w, es[0]), es[1..], found);
    }
  }

  // ---- the guarantees ----

  /** Close always wins: an end that lands while the reservation is held keeps the
      launch from succeeding and the session from staying live. */
  lemma CloseWins(w0: World, es: seq<Event>)
    requires Init(w0) && Allowed(w0, es) && Run(w0, es).ended
    ensures !Run(w0, es).phase.LaunchedOk?
    ensures !Held(Run(w0, es).phase) ==> ID !in Run(w0, es).maps.live
  {
    RunKeepsInv(w0, es, w0.maps);
  }

  /** Each subagent is torn down by exactly one party once it is live no more, and
      by none while it is live: the launch's own, and the one it found. */
  lemma OneTeardownEach(w0: World, es: seq<Event>)
    requires Init(w0) && Allowed(w0, es)
    ensures var w := Run(w0, es);
      && w.taken[OWN] <= 1 && (IsLive(w.maps, OWN) ==> w.taken[OWN] == 0)
      && (w.phase.LaunchedOk? || w.phase.ClosedWhileLaunching? ==>
            (w.taken[OWN] == 1 <==> ID !in w.maps.live))
    ensures forall sub :: sub == HUSK || sub == RUNNING ==>
      Run(w0, es).taken[sub] == if IsLive(w0.maps, sub) && !IsLive(Run(w0, es).maps, sub) then 1 else 0
  {
    RunKeepsInv(w0, es, w0.maps);
  }

  /** A launch takes no running session over: where nobody ends it, it stays live and the
      claim is refused. */
  lemma {:induction false} RunningSessionStands(w: World, es: seq<Event>)
    requires w.phase.Preflight? && IsLive(w.maps, RUNNING) && Allowed(w, es)
    requires forall k :: 0 <= k < |es| ==> !es[k].EndIt?
    ensures Run(w, es).phase.Preflight? && Run(w, es).maps == w.maps && Run(w, es).taken == w.taken
    decreases |es|
  {
    if es != [] {
      RunningSessionStands(Step(w, es[0]), es[1..]);
    }
  }

  /** A forget that lands in a launch leaves no registry entry, once the launch has
      been through its release and the forgets have done their own removal. */
  lemma ForgetLeavesNoEntry(w0: World, es: seq<Event>)
    requires Init(w0) && Allowed(w0, es)
    requires Run(w0, es).forgotten && Run(w0, es).phase.ClosedWhileLaunching? && Run(w0, es).removals == 0
    ensures !Run(w0, es).registered
  {
    RunKeepsInv(w0, es, w0.maps);
  }

  /** The last write of the registry entry in a run: made, or removed. */
  function LastWrite(es: seq<Event>): Option<bool>
  {
    if es == [] then None
    else
      var rest := LastWrite(es[1..]);
      if rest.Some? then rest
      else match es[0]
        case Register => Some(true)
        case DropEntry => Some(false)
        case RemoveEntry => Some(false)
        case _ => None
  }

  lemma {:induction false} EntryFollowsWrites(w: World, es: seq<Event>)
    requires Allowed(w, es)
    ensures Run(w, es).registered == LastWrite(es).GetOr(w.registered)
    decreases |es|
  {
    if es != [] {
      EntryFollowsWrites(Step(w, es[0]), es[1..]);
    }
  }

  /** A launch is over, and every forget has done its own removal. */
  predicate Finished(w: World) {
    w.removals == 0 && (w.phase.LaunchedOk? || w.phase.ClosedWhileLaunching? || w.phase.LaunchFailed?)
  }

  /** When all is over, the entry of a session forgotten in its launch stands if and
      only if the launch failed before its release and registered after the forgets'
      own removals. */
  lemma ForgottenEntryStandsIff(w0: World, es: seq<Event>)
    requires Init(w0) && Allowed(w0, es) && Run(w0, es).forgotten && Finished(Run(w0, es))
    ensures Run(w0, es).registered <==> Run(w0, es).phase.LaunchFailed? && LastWrite(es) == Some(true)
  {
    RunKeepsInv(w0, es, w0.maps);
    EntryFollowsWrites(w0, es);
    ForgetsWrite(w0, es);
  }

  /** A forget's removals, once all done, have been written. */
  lemma {:induction false} ForgetsWrite(w: World, es: seq<Event>)
    requires Allowed(w, es)
    ensures LastWrite(es).None? ==> Run(w, es).removals >= w.removals
    ensures LastWrite(es).None? && !w.forgotten && Run(w, es).forgotten ==> Run(w, es).removals > w.removals
    decreases |es|
  {
    if es != [] {
      ForgetsWrite(Step(w, es[0]), es[1..]);
    }
  }

  /** A launch that fails after registering never reaches its release: the forget's
      entry stays. */
  lemma FailedLaunchKeepsForgottenEntry(w: World) returns (es: seq<Event>)
    requires Init(w) && ID !in w.maps.live
    ensures Allowed(w, es) && Run(w, es).forgotten && Run(w, es).phase.LaunchFailed?
    ensures Run(w, es).removals == 0 && Run(w, es).registered
  {
    var a := Step(w, TakeClaim);
    var b := Step(a, EndIt(true));
    var c := Step(b, RemoveEntry);
    var d := Step(c, Register);
    var e := Step(d, FailEarly);
    es := [TakeClaim, EndIt(true), RemoveEntry, Register, FailEarly];
    assert es[1..] == [EndIt(true), RemoveEntry, Register, FailEarly];
    assert es[1..][1..] == [RemoveEntry, Register, FailEarly];
    assert es[1..][1..][1..] == [Register, FailEarly];
    assert es[1..][1..][1..][1..] == [FailEarly];
    assert Run(e, []) == e && Run(d, [FailEarly]) == e && Run(c, [Register, FailEarly]) == e;
    assert Run(b, [RemoveEntry, Register, FailEarly]) == e;
  }
}
