/** Routing a call for a session that is being handed over: the reads of `route`,
    each under its own lock, interleaved with the handoff's ordered writes and the
    resume that follows them. */
module Routing {
  import opened Common

  datatype Route = Local | Resuming | Owner(socket: nat)

  /** The successor's maps, for the one session id: the owner is alive throughout. */
  datatype Maps = Maps(
    prev: Option<nat>,
    live: bool,
    reserved: bool,
    registered: bool,
    foreign: Option<nat>,
    resuming: bool)

  /** How far the handoff and the resume it starts have come. */
  datatype Handoff =
    | Owned | ClaimedAsResuming | Entered | Unforwarded
    | Launching | Landing | Launched | LoadFailed | Settled

  /** A call being routed: the read it makes next, with what it has read. */
  datatype Call =
    | AtPrev
    | AtLive(prev: Option<nat>)
    | AtReserved(prev: Option<nat>)
    | AtRegistry(prev: Option<nat>)
    | AtForward(prev: Option<nat>, unknown: bool)
    | Routed(route: Route)

  datatype World = World(maps: Maps, handoff: Handoff, call: Call)

  datatype Event = Write | FailLoad | Read

  /** The last read holds `foreign` and `resuming` together. */
  function Answer(m: Maps, prev: Option<nat>, unknown: bool): Route {
    if m.foreign.Some? then Owner(m.foreign.value)
    else if m.resuming then Resuming
    else if prev.Some? && unknown then Owner(prev.value)
    else Local
  }

  predicate Enabled(w: World, e: Event) {
    match e
    case Write => !w.handoff.Settled?
    case FailLoad => w.handoff.Launching?
    case Read => !w.call.Routed?
  }

  /** The handoff's writes in their order, then the launch and the resume's last step. */
  function Advance(m: Maps, h: Handoff): (Maps, Handoff)
    requires !h.Settled?
  {
    match h
    case Owned => (m.(resuming := true), ClaimedAsResuming)
    case ClaimedAsResuming => (m.(registered := true), Entered)
    case Entered => (m.(foreign := None), Unforwarded)
    case Unforwarded => (m.(reserved := true), Launching)
    case Launching => (m.(live := true), Landing)
    case Landing => (m.(reserved := false), Launched)
    case Launched => (m.(resuming := false), Settled)
    case LoadFailed => (m.(resuming := false), Settled)
  }

  function ReadNext(m: Maps, call: Call): Call
    requires !call.Routed?
  {
    match call
    case AtPrev => if m.prev.Some? then AtLive(m.prev) else AtForward(m.prev, false)
    case AtLive(prev) => if m.live then AtForward(prev, false) else AtReserved(prev)
    case AtReserved(prev) => if m.reserved then AtForward(prev, false) else AtRegistry(prev)
    case AtRegistry(prev) => AtForward(prev, !m.registered)
    case AtForward(prev, unknown) => Routed(Answer(m, prev, unknown))
  }

  function Step(w: World, e: Event): World
    requires Enabled(w, e)
  {
    match e
    case Write =>
      var (maps, handoff) := Advance(w.maps, w.handoff);
      w.(maps := maps, handoff := handoff)
    case FailLoad => w.(maps := w.maps.(reserved := false), handoff := LoadFailed)
    case Read => w.(call := ReadNext(w.maps, w.call))
  }

  /** The old daemon owns the session, live there; the call has read nothing yet. */
  predicate Init(w: World) {
    && w.handoff.Owned? && w.call.AtPrev?
    && w.maps.prev.Some? && !w.maps.live && !w.maps.reserved && !w.maps.resuming
  }

  ghost predicate Allowed(w: World, es: seq<Event>)
    decreases |es|
  {
    es == [] || (Enabled(w, es[0]) && Allowed(Step(w, es[0]), es[1..]))
  }

  ghost function Run(w: World, es: seq<Event>): World
    requires Allowed(w, es)
    decreases |es|
  {
    if es == [] then w else Run(Step(w, es[0]), es[1..])
  }

  // ---- no gap ----

  predicate Forwarding(h: Handoff) {
    h.Owned? || h.ClaimedAsResuming? || h.Entered?
  }

  /** Listed sessions stay forwarded until the resume has claimed them; an unlisted
      one stays unknown until then. */
  ghost predicate NoGap(w: World, listed: bool) {
    var m := w.maps;
    && m.prev.Some?
    && (m.resuming <==> !w.handoff.Owned? && !w.handoff.Settled?)
    && (listed && Forwarding(w.handoff) ==> m.foreign.Some?)
    && (!listed && w.handoff.Owned? ==> !m.live && !m.reserved && !m.registered)
    && (!w.call.AtPrev? && !w.call.Routed? ==> w.call.prev.Some?)
    && (!listed && w.handoff.Owned? && w.call.AtForward? ==> w.call.unknown)
    && (w.call.Routed? && w.call.route.Local? ==> w.handoff.Settled?)
  }

  lemma StepKeepsNoGap(w: World, e: Event, listed: bool)
    requires NoGap(w, listed) && Enabled(w, e)
    ensures NoGap(Step(w, e), listed)
  {
  }

  lemma {:induction false} RunKeepsNoGap(w: World, es: seq<Event>, listed: bool)
    requires NoGap(w, listed) && Allowed(w, es)
    ensures NoGap(Run(w, es), listed)
    decreases |es|
  {
    if es != [] {
      StepKeepsNoGap(w, es[0], listed);
      RunKeepsNoGap(Step(w, es[0]), es[1..], listed);
    }
  }

  ghost predicate NeverLocalEarly(w: World) {
    forall es :: Allowed(w, es) && Run(w, es).call == Routed(Local) ==> Run(w, es).handoff.Settled?
  }

  /** No interleaving routes the call to a daemon where the session is not yet
      resumed, if and only if the session was listed as forwarded or the successor
      had no entry for it. */
  lemma NoGapIff(w: World)
    requires Init(w)
    ensures NeverLocalEarly(w) <==> w.maps.foreign.Some? || !w.maps.registered
  {
    if w.maps.foreign.Some? || !w.maps.registered {
      forall es | Allowed(w, es) && Run(w, es).call == Routed(Local) ensures Run(w, es).handoff.Settled? {
        RunKeepsNoGap(w, es, w.maps.foreign.Some?);
      }
    } else {
      KnownSessionFallsThrough(w);
    }
  }

  /** An unlisted session that the successor has an entry for is known and neither
      forwarded nor resuming: its calls run locally. */
  lemma KnownSessionFallsThrough(w: World)
    requires Init(w) && w.maps.foreign.None? && w.maps.registered
    ensures !NeverLocalEarly(w)
  {
    var es := [Read, Read, Read, Read, Read];
    assert es[1..] == [Read, Read, Read, Read] && [Read, Read, Read, Read][1..] == [Read, Read, Read];
    assert [Read, Read, Read][1..] == [Read, Read] && [Read, Read][1..] == [Read] && [Read][1..] == [];
    var a := Step(w, Read);
    var b := Step(a, Read);
    var c := Step(b, Read);
    var d := Step(c, Read);
    var e := Step(d, Read);
    assert Allowed(e, []) && Run(e, []) == e;
    assert Allowed(d, [Read]) && Run(d, [Read]) == e;
    assert Allowed(c, [Read, Read]) && Run(c, [Read, Read]) == e;
    assert Allowed(b, [Read, Read, Read]) && Run(b, [Read, Read, Read]) == e;
    assert Allowed(w, es) && Run(w, es) == e;
  }

  // ---- which owner ----

  /** What the maps and the reads made so far say of the one the call began with. */
  ghost predicate Traced(w0: Maps, w: World) {
    && w.maps.prev == w0.prev
    && (w.maps.resuming <==> !w.handoff.Owned? && !w.handoff.Settled?)
    && (Forwarding(w.handoff) ==> w.maps.foreign == w0.foreign)
    && (!Forwarding(w.handoff) ==> w.maps.foreign.None?)
    && (w0.registered ==> w.maps.registered)
    && (!w.call.AtPrev? && !w.call.Routed? ==> w.call.prev == w0.prev)
    && (w.call.AtForward? && w.call.unknown ==> !w0.registered)
    && (w.call.Routed? && w.call.route.Resuming? ==> !w.handoff.Owned?)
    && (w.call.Routed? && w.call.route.Owner? ==> IsOwner(w0, w, w.call.route.socket))
  }

  /** The daemon the session was listed under; or, once that listing is gone or of one not
      listed, the previous one, for a session this daemon had no entry for. */
  ghost predicate IsOwner(w0: Maps, w: World, socket: nat) {
    || w0.foreign == Some(socket)
    || (w0.prev == Some(socket) && !w0.registered && (w0.foreign.None? || !Forwarding(w.handoff)))
  }

  lemma StepKeepsTraced(w0: Maps, w: World, e: Event)
    requires Traced(w0, w) && Enabled(w, e)
    ensures Traced(w0, Step(w, e))
  {
  }

  lemma {:induction false} RunKeepsTraced(w0: Maps, w: World, es: seq<Event>)
    requires Traced(w0, w) && Allowed(w, es)
    ensures Traced(w0, Run(w, es))
    decreases |es|
  {
    if es != [] {
      StepKeepsTraced(w0, w, es[0]);
      RunKeepsTraced(w0, Step(w, es[0]), es[1..]);
    }
  }

  /** In every interleaving a forwarded call goes to the daemon the session is listed
      under while it is listed, and else only to the previous one, for a session this
      daemon had no entry for; it waits for a resume only once the handoff has landed. */
  lemma ForwardsToTheOwner(w: World, es: seq<Event>)
    requires Init(w) && Allowed(w, es) && Run(w, es).call.Routed?
    ensures Run(w, es).call.route.Owner? ==> IsOwner(w.maps, Run(w, es), Run(w, es).call.route.socket)
    ensures Run(w, es).call.route.Resuming? ==> !Run(w, es).handoff.Owned?
  {
    RunKeepsTraced(w.maps, w, es);
  }
}
