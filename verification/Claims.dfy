/** Any number of `session/load` launches of one session id, one after another or at
    once: whether a launch's release always finds the reservation it claimed. */
module Claims {
  import opened Common
  import opened Launch

  /** How far a launch has come. A failed one removes the id's reservation once more
      on its way out, whether its release already has or not. */
  datatype Stage = Holding | Landed | Failing | Cleared | Released | Done

  /** `sub` numbers are launch numbers; `broken` records a release that found none. */
  datatype Host = Host(maps: Maps, stages: map<nat, Stage>, broken: bool)

  datatype Act =
    | Enter(k: nat)      // the claim
    | Land(k: nat)       // the subagent goes live
    | Fail(k: nat)       // an error before the release
    | Let(k: nat)        // the release
    | Prompt(k: nat, started: bool)  // the first turn of a launch released clean
    | Leave(k: nat)      // a failed launch's own removal of the reservation
    | Finish(forget: bool)  // a close or a forget of the session

  predicate At(h: Host, k: nat, stage: Stage) {
    k in h.stages && h.stages[k] == stage
  }

  /** A launch that claimed the id and has not given the claim back. */
  predicate Holds(h: Host, k: nat) {
    At(h, k, Holding) || At(h, k, Landed) || At(h, k, Failing)
  }

  predicate Can(h: Host, a: Act) {
    match a
    case Enter(k) => k !in h.stages && Claim(h.maps, ID, false).Ok?
    case Land(k) => At(h, k, Holding) && GoLive(h.maps, ID, k).Ok?
    case Fail(k) => At(h, k, Holding)
    case Let(k) => At(h, k, Landed)
    case Prompt(k, _) => At(h, k, Cleared)
    case Leave(k) => At(h, k, Failing) || At(h, k, Released)
    case Finish(_) => true
  }

  function Do(h: Host, a: Act): Host
    requires Can(h, a)
  {
    match a
    case Enter(k) => h.(maps := Claim(h.maps, ID, false).value.0, stages := h.stages[k := Holding])
    case Land(k) => h.(maps := GoLive(h.maps, ID, k).value, stages := h.stages[k := Landed])
    case Fail(k) => h.(stages := h.stages[k := Failing])
    case Let(k) =>
      if ID !in h.maps.reserved then h.(broken := true, stages := h.stages[k := Done])
      else
        var (maps, found, _) := Release(h.maps, ID);
        h.(maps := maps, stages := h.stages[k := if found.Clean? then Cleared else Released])
    case Prompt(k, started) =>
      if started then h.(stages := h.stages[k := Done])
      else h.(maps := h.maps.(live := h.maps.live - {ID}), stages := h.stages[k := Released])
    case Leave(k) => h.(maps := h.maps.(reserved := h.maps.reserved - {ID}), stages := h.stages[k := Done])
    case Finish(forget) => h.(maps := EndTarget(h.maps, ID, forget).0)
  }

  /** The reservation is there for exactly the one launch that holds it. */
  ghost predicate Exclusive(h: Host) {
    && !h.broken
    && (forall j, k :: Holds(h, j) && Holds(h, k) ==> j == k)
    && (ID in h.maps.reserved <==> exists k :: Holds(h, k))
  }

  /** A failed launch whose release already gave its claim back removes another's. */
  predicate Stray(h: Host, a: Act) {
    a.Leave? && At(h, a.k, Released) && ID in h.maps.reserved
  }

  /** Every act keeps each reservation with its one launch, if and only if it is not a
      released launch's second removal while another launch holds the id. */
  lemma ActKeepsExclusiveIff(h: Host, a: Act)
    requires Exclusive(h) && Can(h, a)
    ensures Exclusive(Do(h, a)) <==> !Stray(h, a)
  {
    var g := Do(h, a);
    if a.Finish? {
      SameHolders(h, g, 0, false);
    } else {
      SameHolders(h, g, a.k, true);
      var held := Holds(h, a.k);
      if a.Enter? || a.Land? || a.Fail? { assert Holds(g, a.k); }
    }
    if k :| Holds(h, k) {
      var still := Holds(g, k);
    }
  }

  /** Only the acting launch's hold can change. */
  lemma SameHolders(h: Host, g: Host, k: nat, acts: bool)
    requires forall j :: (acts ==> j != k) ==>
      (j in g.stages <==> j in h.stages) && (j in h.stages ==> g.stages[j] == h.stages[j])
    ensures forall j :: (acts ==> j != k) ==> (Holds(g, j) <==> Holds(h, j))
  {
  }

  /** The launch an act belongs to. */
  function LaunchOf(a: Act): Option<nat> {
    match a
    case Enter(k) => Some(k)
    case Land(k) => Some(k)
    case Fail(k) => Some(k)
    case Let(k) => Some(k)
    case Prompt(k, _) => Some(k)
    case Leave(k) => Some(k)
    case Finish(_) => None
  }

  /** A launch whose first prompt started is over: it changed nothing then and does nothing
      more. */
  lemma StartedLaunchIsOver(h: Host, k: nat, a: Act)
    requires Can(h, Prompt(k, true)) && LaunchOf(a) == Some(k)
    ensures Do(h, Prompt(k, true)).maps == h.maps && !Can(Do(h, Prompt(k, true)), a)
  {
  }

  /** The acts that take a live subagent out: a close or a forget, the release of a launch
      marked closed, and a first prompt that fails. */
  predicate TakesOut(h: Host, a: Act) {
    || a.Finish?
    || (a.Let? && ID in h.maps.reserved && h.maps.reserved[ID].closed)
    || (a.Prompt? && !a.started)
  }

  /** A live subagent leaves with exactly those acts; no act puts another in its place, and
      only a launch's landing puts one in. */
  lemma LiveStandsIff(h: Host, a: Act)
    requires Can(h, a)
    ensures ID in h.maps.live ==> (ID in Do(h, a).maps.live <==> !TakesOut(h, a))
    ensures ID in h.maps.live && ID in Do(h, a).maps.live ==> Do(h, a).maps.live[ID] == h.maps.live[ID]
    ensures ID !in h.maps.live && ID in Do(h, a).maps.live ==> a.Land? && Do(h, a).maps.live[ID] == a.k
  {
  }

  ghost predicate NoneTakesOut(h: Host, acts: seq<Act>)
    requires CanAll(h, acts)
    decreases |acts|
  {
    acts == [] || (!TakesOut(h, acts[0]) && NoneTakesOut(Do(h, acts[0]), acts[1..]))
  }

  /** Over any run of launches without such an act, a live session stays live under its
      own subagent. */
  lemma {:induction false} LiveSessionStands(h: Host, acts: seq<Act>)
    requires ID in h.maps.live && CanAll(h, acts) && NoneTakesOut(h, acts)
    ensures ID in DoAll(h, acts).maps.live && DoAll(h, acts).maps.live[ID] == h.maps.live[ID]
    decreases |acts|
  {
    if acts != [] {
      LiveStandsIff(h, acts[0]);
      LiveSessionStands(Do(h, acts[0]), acts[1..]);
    }
  }

  ghost predicate CanAll(h: Host, acts: seq<Act>)
    decreases |acts|
  {
    acts == [] || (Can(h, acts[0]) && CanAll(Do(h, acts[0]), acts[1..]))
  }

  ghost function DoAll(h: Host, acts: seq<Act>): Host
    requires CanAll(h, acts)
    decreases |acts|
  {
    if acts == [] then h else DoAll(Do(h, acts[0]), acts[1..])
  }

  ghost predicate NoStray(h: Host, acts: seq<Act>)
    requires CanAll(h, acts)
    decreases |acts|
  {
    acts == [] || (!Stray(h, acts[0]) && NoStray(Do(h, acts[0]), acts[1..]))
  }

  predicate Fresh(h: Host) {
    h.stages == map[] && !h.broken && ID !in h.maps.live && ID !in h.maps.reserved
  }

  /** Over every run without such a removal, each release finds its reservation, and
      no two launches hold the id. */
  lemma {:induction false} ReleasesFindTheirClaims(h: Host, acts: seq<Act>)
    requires Exclusive(h) && CanAll(h, acts) && NoStray(h, acts)
    ensures Exclusive(DoAll(h, acts))
    decreases |acts|
  {
    if acts != [] {
      ActKeepsExclusiveIff(h, acts[0]);
      ReleasesFindTheirClaims(Do(h, acts[0]), acts[1..]);
    }
  }

  lemma FreshIsExclusive(h: Host)
    requires Fresh(h)
    ensures Exclusive(h)
  {
  }

  lemma Next(h: Host, a: Act, rest: seq<Act>)
    requires Can(h, a) && CanAll(Do(h, a), rest)
    ensures CanAll(h, [a] + rest) && DoAll(h, [a] + rest) == DoAll(Do(h, a), rest)
  {
    assert ([a] + rest)[1..] == rest;
  }

  /** The release's expectation can fail: a close ends the first launch, whose second
      removal comes after another launch has claimed the id. */
  lemma ReleaseCanFindNone(h: Host) returns (acts: seq<Act>)
    requires Fresh(h)
    ensures Exclusive(h) && CanAll(h, acts) && DoAll(h, acts).broken
  {
    FreshIsExclusive(h);
    var a := Do(h, Enter(1));
    var b := Do(a, Finish(false));
    var c := Do(b, Land(1));
    var d := Do(c, Let(1));
    var e := Do(d, Enter(2));
    var f := Do(e, Leave(1));
    var g := Do(f, Land(2));
    var broken := Do(g, Let(2));
    assert CanAll(broken, []) && DoAll(broken, []) == broken;
    Next(g, Let(2), []);
    Next(f, Land(2), [Let(2)] + []);
    Next(e, Leave(1), [Land(2)] + ([Let(2)] + []));
    Next(d, Enter(2), [Leave(1)] + ([Land(2)] + ([Let(2)] + [])));
    acts := [Enter(2)] + ([Leave(1)] + ([Land(2)] + ([Let(2)] + [])));
    Next(c, Let(1), acts);
    acts := [Let(1)] + acts;
    Next(b, Land(1), acts);
    acts := [Land(1)] + acts;
    Next(a, Finish(false), acts);
    acts := [Finish(false)] + acts;
    Next(h, Enter(1), acts);
    acts := [Enter(1)] + acts;
  }
}
