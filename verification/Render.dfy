/** Rendering a transcript: consecutive chunks of one kind merge into one section,
    every other visible record is a section, and `from`/`tail` slice the sections. */
module Render {
  import opened Common

  datatype Kind = Assistant | Thinking | User

  /** A parsed record: a chunk with its text, a session-state update, or any other;
      `body` is the section the record renders to. */
  datatype Record = Chunk(kind: Kind, text: string) | SessionInfo(body: string) | Other(body: string)

  datatype Options = Options(from: nat, tail: Option<nat>, full: bool, thinking: bool, meta: bool)

  datatype Hidden = Boundary | Transparent

  const CLIP: nat := 400

  function HiddenAs(r: Record, options: Options): Option<Hidden> {
    if r.Chunk? && r.kind.Thinking? && !options.thinking then Some(Boundary)
    else if r.SessionInfo? && !options.meta then Some(Transparent)
    else None
  }

  function LabelLine(kind: Kind): string {
    match kind
    case Assistant => "--- ASSISTANT"
    case Thinking => "--- THINKING"
    case User => "--- USER"
  }

  function Decimal(n: nat): string {
    (if n < 10 then "" else Decimal(n / 10)) + ['0' + (n % 10) as char]
  }

  function Clip(text: string, full: bool): string {
    if full || |text| <= CLIP then text
    else text[..CLIP] + "\n\U{2026} (" + Decimal(|text| - CLIP) + " more chars)"
  }

  // ---- the grouping, declared ----

  /** What merging sees of a record: a chunk's text, a wall between runs, or a section
      of its own. */
  datatype Mark = Piece(kind: Kind, text: string) | Wall | Whole(body: string)

  function MarkOf(r: Record, options: Options): seq<Mark> {
    match HiddenAs(r, options)
    case Some(Boundary) => [Wall]
    case Some(Transparent) => []
    case None => if r.Chunk? then [Piece(r.kind, r.text)] else [Whole(r.body)]
  }

  /** The visible records: transparent ones erased, hidden thoughts left as walls. */
  function Marks(records: seq<Record>, options: Options): seq<Mark> {
    if records == [] then [] else MarkOf(records[0], options) + Marks(records[1..], options)
  }

  /** How many chunks of one kind the marks begin with. */
  function RunLength(kind: Kind, marks: seq<Mark>): (n: nat)
    ensures n <= |marks|
    ensures forall k :: 0 <= k < n ==> marks[k].Piece? && marks[k].kind == kind
    ensures n < |marks| ==> !(marks[n].Piece? && marks[n].kind == kind)
  {
    if marks != [] && marks[0].Piece? && marks[0].kind == kind then 1 + RunLength(kind, marks[1..]) else 0
  }

  function Join(marks: seq<Mark>): string {
    if marks == [] then "" else (if marks[0].Piece? then marks[0].text else "") + Join(marks[1..])
  }

  datatype Item = Run(kind: Kind, text: string) | Single(body: string)

  /** The sections: each maximal run of chunks of one kind, and every other record. */
  function Group(marks: seq<Mark>): seq<Item>
    decreases |marks|
  {
    if marks == [] then []
    else
      match marks[0]
      case Wall => Group(marks[1..])
      case Whole(body) => [Single(body)] + Group(marks[1..])
      case Piece(kind, _) =>
        var n := RunLength(kind, marks);
        [Run(kind, Join(marks[..n]))] + Group(marks[n..])
  }

  function SectionOf(item: Item, full: bool): string {
    match item
    case Run(kind, text) => LabelLine(kind) + "\n" + Clip(text, full) + "\n"
    case Single(body) => body
  }

  function Sections(items: seq<Item>, full: bool): (s: seq<string>)
    ensures |s| == |items| && forall k :: 0 <= k < |s| ==> s[k] == SectionOf(items[k], full)
  {
    seq(|items|, k requires 0 <= k < |items| => SectionOf(items[k], full))
  }

  function AllSections(records: seq<Record>, options: Options): seq<string> {
    Sections(Group(Marks(records, options)), options.full)
  }

  // ---- the merge loop ----

  type Pending = Option<(Kind, string)>

  /** What is still to come: the pending run takes in the chunks that follow it. */
  function GroupFrom(pending: Pending, marks: seq<Mark>): seq<Item> {
    if pending.None? then Group(marks)
    else
      var n := RunLength(pending.value.0, marks);
      [Run(pending.value.0, pending.value.1 + Join(marks[..n]))] + Group(marks[n..])
  }

  function Flushed(pending: Pending): seq<Item> {
    if pending.Some? then [Run(pending.value.0, pending.value.1)] else []
  }

  lemma TakeAfter(m: Mark, rest: seq<Mark>, n: nat)
    requires n <= |rest|
    ensures ([m] + rest)[1..] == rest
    ensures ([m] + rest)[..n + 1][1..] == rest[..n] && ([m] + rest)[n + 1..] == rest[n..]
  {
  }

  /** A chunk of the pending kind joins its run. */
  lemma MergeJoins(kind: Kind, buf: string, text: string, rest: seq<Mark>)
    ensures GroupFrom(Some((kind, buf)), [Piece(kind, text)] + rest) == GroupFrom(Some((kind, buf + text)), rest)
  {
    var marks := [Piece(kind, text)] + rest;
    var n := RunLength(kind, rest);
    TakeAfter(Piece(kind, text), rest, n);
    assert RunLength(kind, marks) == n + 1;
    assert buf + (text + Join(rest[..n])) == buf + text + Join(rest[..n]);
  }

  /** Any other mark ends it. */
  lemma OthersFlush(pending: Pending, m: Mark, rest: seq<Mark>)
    requires pending.Some? ==> !(m.Piece? && m.kind == pending.value.0)
    ensures GroupFrom(pending, [m] + rest) == Flushed(pending) + Group([m] + rest)
  {
    var marks := [m] + rest;
    if pending.Some? {
      assert RunLength(pending.value.0, marks) == 0;
      assert marks[..0] == [] && marks[0..] == marks;
      assert pending.value.1 + "" == pending.value.1;
    }
  }

  lemma FirstMark(m: Mark, rest: seq<Mark>)
    ensures m.Piece? ==> Group([m] + rest) == GroupFrom(Some((m.kind, m.text)), rest)
    ensures m.Wall? ==> Group([m] + rest) == Group(rest)
    ensures m.Whole? ==> Group([m] + rest) == [Single(m.body)] + Group(rest)
  {
    TakeAfter(m, rest, if m.Piece? then RunLength(m.kind, rest) else 0);
  }

  /** Emit the pending section, if any. */
  method Flush(pending: Pending, sections: seq<string>, full: bool) returns (emitted: seq<string>)
    ensures emitted == sections + Sections(Flushed(pending), full)
  {
    emitted := sections;
    if pending.Some? {
      emitted := emitted + [LabelLine(pending.value.0) + "\n" + Clip(pending.value.1, full) + "\n"];
    }
  }

  /** What a mark does to the pending run: the items it completes, and what pends. */
  function Absorb(pending: Pending, m: Mark): (seq<Item>, Pending) {
    match m
    case Piece(kind, text) =>
      if pending.Some? && pending.value.0 == kind then ([], Some((kind, pending.value.1 + text)))
      else (Flushed(pending), Some((kind, text)))
    case Wall => (Flushed(pending), None)
    case Whole(body) => (Flushed(pending) + [Single(body)], None)
  }

  lemma AbsorbGroups(pending: Pending, m: Mark, rest: seq<Mark>)
    ensures var (done, next) := Absorb(pending, m);
      GroupFrom(pending, [m] + rest) == done + GroupFrom(next, rest)
  {
    if m.Piece? && pending.Some? && pending.value.0 == m.kind {
      MergeJoins(m.kind, pending.value.1, m.text, rest);
    } else {
      OthersFlush(pending, m, rest);
      FirstMark(m, rest);
    }
  }

  method MergeChunk(kind: Kind, text: string, pending: Pending, sections: seq<string>, full: bool)
    returns (pending': Pending, sections': seq<string>)
    ensures var (done, next) := Absorb(pending, Piece(kind, text));
      pending' == next && sections' == sections + Sections(done, full)
  {
    if pending.Some? && pending.value.0 == kind {
      pending', sections' := Some((kind, pending.value.1 + text)), sections;
    } else {
      sections' := Flush(pending, sections, full);
      pending' := Some((kind, text));
    }
  }

  /** The slice of the sections that is shown. */
  function Shown(sections: seq<string>, from: nat, tail: Option<nat>): seq<string> {
    var start := Max(Min(from, |sections|), if tail.Some? then |sections| - tail.value else 0);
    sections[start..]
  }

  /** What a record does to the pending run. */
  function AbsorbRecord(pending: Pending, r: Record, options: Options): (seq<Item>, Pending) {
    var marks := MarkOf(r, options);
    if marks == [] then ([], pending) else Absorb(pending, marks[0])
  }

  method MergeRecord(r: Record, pending: Pending, sections: seq<string>, options: Options)
    returns (pending': Pending, sections': seq<string>)
    ensures var (done, next) := AbsorbRecord(pending, r, options);
      pending' == next && sections' == sections + Sections(done, options.full)
  {
    pending', sections' := pending, sections;
    match HiddenAs(r, options) {
      case Some(Boundary) =>
        sections' := Flush(pending, sections, options.full);
        pending' := None;
      case Some(Transparent) =>
      case None =>
        if r.Chunk? {
          pending', sections' := MergeChunk(r.kind, r.text, pending, sections, options.full);
        } else {
          sections' := Flush(pending, sections, options.full);
          pending' := None;
          sections' := sections' + [r.body];
        }
    }
  }

  /** The items done, the run pending and the records to come make up the grouping. */
  ghost predicate Merged(items: seq<Item>, pending: Pending, rest: seq<Record>, options: Options, goal: seq<Item>) {
    items + GroupFrom(pending, Marks(rest, options)) == goal
  }

  lemma Glue(a: seq<Item>, b: seq<Item>, c: seq<Item>)
    ensures a + (b + c) == a + b + c
  {
  }

  lemma NextMark(pending: Pending, rest: seq<Record>, options: Options)
    requires rest != []
    ensures var (done, next) := AbsorbRecord(pending, rest[0], options);
      GroupFrom(pending, Marks(rest, options)) == done + GroupFrom(next, Marks(rest[1..], options))
  {
    var now, marks := MarkOf(rest[0], options), Marks(rest[1..], options);
    if now == [] {
      NoMark(marks);
    } else {
      assert now == [now[0]];
      AbsorbGroups(pending, now[0], marks);
    }
  }

  lemma NoMark(marks: seq<Mark>)
    ensures [] + marks == marks
  {
  }

  lemma MergedStep(items: seq<Item>, pending: Pending, rest: seq<Record>, options: Options, goal: seq<Item>)
    requires rest != [] && Merged(items, pending, rest, options, goal)
    ensures var (done, next) := AbsorbRecord(pending, rest[0], options);
      Merged(items + done, next, rest[1..], options, goal)
  {
    var (done, next) := AbsorbRecord(pending, rest[0], options);
    NextMark(pending, rest, options);
    Glue(items, done, GroupFrom(next, Marks(rest[1..], options)));
  }

  lemma MergedEnd(items: seq<Item>, pending: Pending, options: Options, goal: seq<Item>)
    requires Merged(items, pending, [], options, goal)
    ensures items + Flushed(pending) == goal
  {
    if pending.Some? {
      assert RunLength(pending.value.0, []) == 0;
      assert pending.value.1 + Join([]) == pending.value.1;
    }
  }

  lemma SectionsSplit(a: seq<Item>, b: seq<Item>, full: bool)
    ensures Sections(a + b, full) == Sections(a, full) + Sections(b, full)
  {
  }

  /** The merge loop: its sections are those of the declared grouping. */
  method MergeAll(records: seq<Record>, options: Options) returns (sections: seq<string>)
    ensures sections == AllSections(records, options)
  {
    sections := [];
    var pending: Pending := None;
    ghost var items: seq<Item> := [];
    ghost var goal := Group(Marks(records, options));
    var k := 0;
    assert records[0..] == records && items + goal == goal;
    while k < |records|
      invariant 0 <= k <= |records|
      invariant sections == Sections(items, options.full)
      invariant Merged(items, pending, records[k..], options, goal)
    {
      ghost var done := AbsorbRecord(pending, records[k], options).0;
      MergedStep(items, pending, records[k..], options, goal);
      assert records[k..][1..] == records[k + 1..];
      SectionsSplit(items, done, options.full);
      pending, sections := MergeRecord(records[k], pending, sections, options);
      items := items + done;
      k := k + 1;
    }
    assert records[k..] == [];
    MergedEnd(items, pending, options, goal);
    SectionsSplit(items, Flushed(pending), options.full);
    sections := Flush(pending, sections, options.full);
  }

  method RenderSections(records: seq<Record>, options: Options) returns (shown: seq<string>)
    ensures shown == Shown(AllSections(records, options), options.from, options.tail)
  {
    var sections := MergeAll(records, options);
    var skipped := sections[Min(options.from, |sections|)..];
    shown := match options.tail
      case Some(tail) => skipped[if tail <= |skipped| then |skipped| - tail else 0..]
      case None => skipped;
  }

  // ---- nothing is lost ----

  /** The text of the runs under some kinds, in order. */
  function RunText(items: seq<Item>, kinds: set<Kind>): string {
    if items == [] then ""
    else (if items[0].Run? && items[0].kind in kinds then items[0].text else "") + RunText(items[1..], kinds)
  }

  /** The text of the chunks under some kinds, in order. */
  function PieceText(marks: seq<Mark>, kinds: set<Kind>): string {
    if marks == [] then ""
    else (if marks[0].Piece? && marks[0].kind in kinds then marks[0].text else "") + PieceText(marks[1..], kinds)
  }

  lemma {:induction false} PieceTextSplits(a: seq<Mark>, b: seq<Mark>, kinds: set<Kind>)
    ensures PieceText(a + b, kinds) == PieceText(a, kinds) + PieceText(b, kinds)
  {
    if a == [] {
      assert a + b == b;
    } else {
      assert (a + b)[1..] == a[1..] + b;
      PieceTextSplits(a[1..], b, kinds);
    }
  }

  lemma {:induction false} OneKindText(kind: Kind, marks: seq<Mark>, kinds: set<Kind>)
    requires forall k :: 0 <= k < |marks| ==> marks[k].Piece? && marks[k].kind == kind
    ensures PieceText(marks, kinds) == if kind in kinds then Join(marks) else ""
  {
    if marks != [] { OneKindText(kind, marks[1..], kinds); }
  }

  /** The first item of a grouping, and the grouping of the rest. */
  lemma GroupHead(marks: seq<Mark>)
    requires marks != []
    ensures var n := HeadLength(marks);
      Group(marks) == Head(marks[0], marks[..n]) + Group(marks[n..])
  {
  }

  function HeadLength(marks: seq<Mark>): (n: nat)
    requires marks != []
    ensures 1 <= n <= |marks|
  {
    if marks[0].Piece? then RunLength(marks[0].kind, marks) else 1
  }

  function Head(m: Mark, run: seq<Mark>): seq<Item> {
    match m
    case Wall => []
    case Whole(body) => [Single(body)]
    case Piece(kind, _) => [Run(kind, Join(run))]
  }

  /** Grouping loses and reorders no chunk text, whichever kinds one reads. */
  lemma {:induction false} GroupKeepsText(marks: seq<Mark>, kinds: set<Kind>)
    ensures RunText(Group(marks), kinds) == PieceText(marks, kinds)
    decreases |marks|
  {
    if marks != [] {
      var n := HeadLength(marks);
      GroupHead(marks);
      GroupKeepsText(marks[n..], kinds);
      assert marks == marks[..n] + marks[n..];
      PieceTextSplits(marks[..n], marks[n..], kinds);
      HeadKeepsText(marks[..n], Group(marks[n..]), kinds);
    }
  }

  lemma HeadKeepsText(run: seq<Mark>, rest: seq<Item>, kinds: set<Kind>)
    requires run != []
    requires if run[0].Piece? then forall k :: 0 <= k < |run| ==> run[k].Piece? && run[k].kind == run[0].kind
             else |run| == 1
    ensures RunText(Head(run[0], run) + rest, kinds) == PieceText(run, kinds) + RunText(rest, kinds)
  {
    var items := Head(run[0], run) + rest;
    match run[0]
    case Wall => assert items == rest; assert run[1..] == [];
    case Whole(_) => assert items[1..] == rest; assert run[1..] == [];
    case Piece(kind, _) =>
      assert items[1..] == rest;
      OneKindText(kind, run, kinds);
  }

  lemma {:induction false} RunStopsAtWall(kind: Kind, a: seq<Mark>, b: seq<Mark>)
    ensures RunLength(kind, a + [Wall] + b) == RunLength(kind, a)
  {
    if a == [] {
      assert a + [Wall] + b == [Wall] + b;
    } else {
      assert (a + [Wall] + b)[1..] == a[1..] + [Wall] + b;
      RunStopsAtWall(kind, a[1..], b);
    }
  }

  lemma CutBeforeWall(a: seq<Mark>, b: seq<Mark>, n: nat)
    requires n <= |a|
    ensures (a + [Wall] + b)[..n] == a[..n] && (a + [Wall] + b)[n..] == a[n..] + [Wall] + b
  {
  }

  /** A wall (a hidden thought) splits the grouping: no run reaches across it. */
  lemma {:induction false} WallsSplit(a: seq<Mark>, b: seq<Mark>)
    ensures Group(a + [Wall] + b) == Group(a) + Group(b)
    decreases |a|
  {
    var all := a + [Wall] + b;
    if a == [] {
      assert all[1..] == b;
    } else {
      var n := HeadLength(a);
      if a[0].Piece? { RunStopsAtWall(a[0].kind, a, b); }
      GroupHead(a);
      GroupHead(all);
      CutBeforeWall(a, b, n);
      WallsSplit(a[n..], b);
      Glue(Head(a[0], a[..n]), Group(a[n..]), Group(b));
    }
  }

  /** Runs are maximal: where no wall stands, no two neighbouring runs are of one kind. */
  lemma {:induction false} RunsAreMaximal(marks: seq<Mark>, k: nat)
    requires (forall j :: 0 <= j < |marks| ==> !marks[j].Wall?) && k + 1 < |Group(marks)|
    ensures Group(marks)[k].Run? && Group(marks)[k + 1].Run? ==> Group(marks)[k].kind != Group(marks)[k + 1].kind
    decreases |marks|
  {
    match marks[0]
    case Whole(body) =>
      if k > 0 { RunsAreMaximal(marks[1..], k - 1); }
    case Piece(kind, _) =>
      var n := RunLength(kind, marks);
      if k > 0 { RunsAreMaximal(marks[n..], k - 1); }
  }

  /** The text between a run section's label line and its end. */
  function SectionText(kind: Kind, section: string): string
    requires |section| >= |LabelLine(kind)| + 2
  {
    section[|LabelLine(kind)| + 1..|section| - 1]
  }

  /** The text a rendering shows under some kinds, section by section. */
  function ShownText(items: seq<Item>, sections: seq<string>, kinds: set<Kind>): string
    requires |sections| == |items|
    requires forall k :: 0 <= k < |items| && items[k].Run? ==> |sections[k]| >= |LabelLine(items[k].kind)| + 2
  {
    if items == [] then ""
    else
      (if items[0].Run? && items[0].kind in kinds then SectionText(items[0].kind, sections[0]) else "")
      + ShownText(items[1..], sections[1..], kinds)
  }

  lemma SectionShowsText(kind: Kind, text: string)
    ensures var section := SectionOf(Run(kind, text), true);
      |section| >= |LabelLine(kind)| + 2 && SectionText(kind, section) == text
  {
  }

  lemma {:induction false} SectionsShowText(items: seq<Item>, kinds: set<Kind>)
    ensures forall k :: 0 <= k < |items| && items[k].Run? ==>
      |Sections(items, true)[k]| >= |LabelLine(items[k].kind)| + 2
    ensures ShownText(items, Sections(items, true), kinds) == RunText(items, kinds)
  {
    forall k | 0 <= k < |items| && items[k].Run?
      ensures |Sections(items, true)[k]| >= |LabelLine(items[k].kind)| + 2
    {
      SectionShowsText(items[k].kind, items[k].text);
    }
    if items != [] {
      SectionsShowText(items[1..], kinds);
      assert Sections(items, true)[1..] == Sections(items[1..], true);
      if items[0].Run? { SectionShowsText(items[0].kind, items[0].text); }
    }
  }

  // ---- what a reader of the transcript sees ----

  /** The text of a transcript's chunks under some kinds, in order. */
  function ChunkText(records: seq<Record>, kinds: set<Kind>): string {
    if records == [] then ""
    else (if records[0].Chunk? && records[0].kind in kinds then records[0].text else "")
         + ChunkText(records[1..], kinds)
  }

  /** The kinds shown: thoughts only when asked for. */
  function ShownKinds(options: Options): set<Kind> {
    if options.thinking then {Assistant, Thinking, User} else {Assistant, User}
  }

  lemma {:induction false} MarksKeepText(records: seq<Record>, options: Options, kinds: set<Kind>)
    ensures PieceText(Marks(records, options), kinds) == ChunkText(records, kinds * ShownKinds(options))
  {
    if records != [] {
      var first, rest := MarkOf(records[0], options), Marks(records[1..], options);
      MarksKeepText(records[1..], options, kinds);
      PieceTextSplits(first, rest, kinds);
      OneMarkText(first, kinds);
      ShownIff(records[0], options);
    }
  }

  lemma ShownIff(r: Record, options: Options)
    ensures r.Chunk? && r.kind in ShownKinds(options) ==> MarkOf(r, options) == [Piece(r.kind, r.text)]
    ensures !(r.Chunk? && r.kind in ShownKinds(options)) ==>
      MarkOf(r, options) == [] || (|MarkOf(r, options)| == 1 && !MarkOf(r, options)[0].Piece?)
  {
    match r
    case Chunk(Assistant, _) =>
    case Chunk(Thinking, _) =>
    case Chunk(User, _) =>
    case _ =>
  }

  lemma OneMarkText(marks: seq<Mark>, kinds: set<Kind>)
    requires |marks| <= 1
    ensures PieceText(marks, kinds) ==
      if marks != [] && marks[0].Piece? && marks[0].kind in kinds then marks[0].text else ""
  {
    if marks != [] { assert marks[1..] == []; }
  }

  /** With `full` the rendering shows the text of every chunk, whole and in order,
      whichever kinds one reads; thoughts if and only if they are asked for. */
  lemma FullShowsAllText(records: seq<Record>, options: Options, kinds: set<Kind>)
    requires options.full
    ensures var items := Group(Marks(records, options));
      && (forall k :: 0 <= k < |items| && items[k].Run? ==>
            |AllSections(records, options)[k]| >= |LabelLine(items[k].kind)| + 2)
      && ShownText(items, AllSections(records, options), kinds)
           == ChunkText(records, kinds * ShownKinds(options))
  {
    var marks := Marks(records, options);
    SectionsShowText(Group(marks), kinds);
    GroupKeepsText(marks, kinds);
    MarksKeepText(records, options, kinds);
  }

  /** The bodies of the other records; session state only when asked for. */
  function OtherBodies(records: seq<Record>, meta: bool): seq<string> {
    if records == [] then []
    else
      (match records[0]
       case Chunk(_, _) => []
       case SessionInfo(body) => if meta then [body] else []
       case Other(body) => [body])
      + OtherBodies(records[1..], meta)
  }

  function SingleBodies(items: seq<Item>): seq<string> {
    if items == [] then [] else (if items[0].Single? then [items[0].body] else []) + SingleBodies(items[1..])
  }

  function WholeBodies(marks: seq<Mark>): seq<string> {
    if marks == [] then [] else (if marks[0].Whole? then [marks[0].body] else []) + WholeBodies(marks[1..])
  }

  lemma {:induction false} WholeBodiesSplit(a: seq<Mark>, b: seq<Mark>)
    ensures WholeBodies(a + b) == WholeBodies(a) + WholeBodies(b)
  {
    if a == [] {
      assert a + b == b;
    } else {
      assert (a + b)[1..] == a[1..] + b;
      WholeBodiesSplit(a[1..], b);
    }
  }

  lemma {:induction false} NoWholes(marks: seq<Mark>)
    requires forall k :: 0 <= k < |marks| ==> !marks[k].Whole?
    ensures WholeBodies(marks) == []
  {
    if marks != [] { NoWholes(marks[1..]); }
  }

  lemma {:induction false} GroupKeepsBodies(marks: seq<Mark>)
    ensures SingleBodies(Group(marks)) == WholeBodies(marks)
    decreases |marks|
  {
    if marks != [] {
      var n := HeadLength(marks);
      GroupHead(marks);
      GroupKeepsBodies(marks[n..]);
      assert marks == marks[..n] + marks[n..];
      WholeBodiesSplit(marks[..n], marks[n..]);
      HeadKeepsBodies(marks[..n], Group(marks[n..]));
    }
  }

  lemma HeadKeepsBodies(run: seq<Mark>, rest: seq<Item>)
    requires run != []
    requires if run[0].Piece? then forall k :: 0 <= k < |run| ==> run[k].Piece? else |run| == 1
    ensures SingleBodies(Head(run[0], run) + rest) == WholeBodies(run) + SingleBodies(rest)
  {
    var items := Head(run[0], run) + rest;
    match run[0]
    case Wall => assert items == rest; assert run[1..] == [];
    case Whole(_) => assert items[1..] == rest; assert run[1..] == [];
    case Piece(_, _) =>
      assert items[1..] == rest;
      NoWholes(run);
  }

  lemma {:induction false} MarksKeepBodies(records: seq<Record>, options: Options)
    ensures WholeBodies(Marks(records, options)) == OtherBodies(records, options.meta)
  {
    if records != [] {
      var first := MarkOf(records[0], options);
      MarksKeepBodies(records[1..], options);
      WholeBodiesSplit(first, Marks(records[1..], options));
      if first != [] { assert first[1..] == []; }
    }
  }

  /** Every other record is a section of its own, in order; session state if and only if
      it is asked for. */
  lemma OtherRecordsAreSections(records: seq<Record>, options: Options)
    ensures SingleBodies(Group(Marks(records, options))) == OtherBodies(records, options.meta)
  {
    GroupKeepsBodies(Marks(records, options));
    MarksKeepBodies(records, options);
  }

  lemma {:induction false} MarksSplit(a: seq<Record>, b: seq<Record>, options: Options)
    ensures Marks(a + b, options) == Marks(a, options) + Marks(b, options)
  {
    if a == [] {
      assert a + b == b;
    } else {
      assert (a + b)[1..] == a[1..] + b;
      MarksSplit(a[1..], b, options);
    }
  }

  /** A hidden thought ends the section before it; hidden session state leaves none. */
  lemma HiddenRecords(a: seq<Record>, text: string, body: string, b: seq<Record>, options: Options)
    ensures !options.thinking ==>
      AllSections(a + [Chunk(Thinking, text)] + b, options) == AllSections(a, options) + AllSections(b, options)
    ensures !options.meta ==> AllSections(a + [SessionInfo(body)] + b, options) == AllSections(a + b, options)
  {
    if !options.thinking { HiddenThought(a, text, b, options); }
    if !options.meta { HiddenState(a, body, b, options); }
  }

  lemma HiddenThought(a: seq<Record>, text: string, b: seq<Record>, options: Options)
    requires !options.thinking
    ensures AllSections(a + [Chunk(Thinking, text)] + b, options) == AllSections(a, options) + AllSections(b, options)
  {
    var before, after := Marks(a, options), Marks(b, options);
    HiddenMarks(a, Chunk(Thinking, text), b, options);
    WallsSplit(before, after);
    SectionsSplit(Group(before), Group(after), options.full);
  }

  lemma HiddenState(a: seq<Record>, body: string, b: seq<Record>, options: Options)
    requires !options.meta
    ensures AllSections(a + [SessionInfo(body)] + b, options) == AllSections(a + b, options)
  {
    HiddenMarks(a, SessionInfo(body), b, options);
    MarksSplit(a, b, options);
    assert Marks(a, options) + [] + Marks(b, options) == Marks(a, options) + Marks(b, options);
  }

  lemma HiddenMarks(a: seq<Record>, r: Record, b: seq<Record>, options: Options)
    ensures Marks(a + [r] + b, options) == Marks(a, options) + MarkOf(r, options) + Marks(b, options)
  {
    MarksSplit(a + [r], b, options);
    MarksSplit(a, [r], options);
    assert [r][1..] == [];
    assert MarkOf(r, options) + [] == MarkOf(r, options);
  }

  // ---- a run section, read back ----

  /** The kind a section's first line names. */
  function KindNamed(section: string): Option<Kind> {
    if "--- ASSISTANT\n" <= section then Some(Assistant)
    else if "--- THINKING\n" <= section then Some(Thinking)
    else if "--- USER\n" <= section then Some(User)
    else None
  }

  function DecimalValue(digits: string): int {
    if digits == [] then 0
    else DecimalValue(digits[..|digits| - 1]) * 10 + (digits[|digits| - 1] as int - '0' as int)
  }

  lemma {:induction false} DecimalReadsBack(n: nat)
    ensures DecimalValue(Decimal(n)) == n
  {
    var digits := Decimal(n);
    if n >= 10 {
      DecimalReadsBack(n / 10);
      assert digits[..|digits| - 1] == Decimal(n / 10);
    } else {
      assert digits[..|digits| - 1] == [];
    }
  }

  /** A run's section names its kind on its first line and shows its text; clipped, the
      front of it and a note of how much is left out. */
  lemma RunSectionReadsBack(kind: Kind, text: string, full: bool)
    ensures var section := SectionOf(Run(kind, text), full);
      && KindNamed(section) == Some(kind)
      && |section| >= |LabelLine(kind)| + 2
      && (if full || |text| <= 400 then SectionText(kind, section) == text
          else SectionText(kind, section) == text[..400] + "\n\U{2026} (" + Decimal(|text| - 400) + " more chars)")
    ensures DecimalValue(Decimal(|text|)) == |text|
  {
    HeadingReadsBack(kind, Clip(text, full) + "\n");
    assert SectionOf(Run(kind, text), full) == LabelLine(kind) + "\n" + (Clip(text, full) + "\n");
    DecimalReadsBack(|text|);
  }

  lemma HeadingReadsBack(kind: Kind, rest: string)
    ensures KindNamed(LabelLine(kind) + "\n" + rest) == Some(kind)
  {
    var section := LabelLine(kind) + "\n" + rest;
    match kind
    case Assistant => assert section == "--- ASSISTANT\n" + rest;
    case Thinking =>
      assert section == "--- THINKING\n" + rest;
      assert section[4] != "--- ASSISTANT\n"[4];
    case User =>
      assert section == "--- USER\n" + rest;
      assert section[4] != "--- ASSISTANT\n"[4] && section[4] != "--- THINKING\n"[4];
  }
}
