/** What the agent's traffic accumulates on one turn, and the summarizers that
    fold a `session/update` into it. The live handler and the transcript replay
    share them. */
module TurnData {
  import opened Common

  datatype ToolStatus = Pending | InProgress | Completed | Failed

  datatype ToolCall = ToolCall(
    id: string,
    title: string,
    kind: Option<string>,
    status: Option<ToolStatus>,
    locations: seq<string>)

  datatype Content = Text(text: string) | OtherContent

  datatype Update =
    | MessageChunk(content: Content)
    | ToolCallSeen(call: ToolCall)
    | ToolCallChanged(
        id: string,
        newStatus: Option<ToolStatus>,
        newTitle: Option<string>,
        newKind: Option<string>,
        newLocations: Option<seq<string>>)
    | PlanChanged(entries: seq<string>)
    | ModeChanged(mode: string)
    | OtherUpdate

  datatype Data = Data(
    reply: string,
    toolCalls: map<string, ToolCall>,
    latestToolCall: Option<string>,
    plan: seq<string>,
    mode: Option<string>)

  const NO_DATA := Data("", map[], None, [], None)

  function NoteToolCall(d: Data, call: ToolCall): Data {
    d.(latestToolCall := Some(call.id), toolCalls := d.toolCalls[call.id := call])
  }

  function NoteToolCallUpdate(d: Data, u: Update): Data
    requires u.ToolCallChanged?
  {
    var before := if u.id in d.toolCalls then d.toolCalls[u.id] else ToolCall(u.id, "", None, None, []);
    var after := before.(
      status := if u.newStatus.Some? then u.newStatus else before.status,
      title := u.newTitle.GetOr(before.title),
      kind := if u.newKind.Some? then u.newKind else before.kind,
      locations := u.newLocations.GetOr(before.locations));
    d.(latestToolCall := Some(u.id), toolCalls := d.toolCalls[u.id := after])
  }

  /** Fold one update into a turn's data. */
  function Apply(d: Data, u: Update): Data {
    match u
    case MessageChunk(Text(text)) => d.(reply := d.reply + text)
    case ToolCallSeen(call) => NoteToolCall(d, call)
    case ToolCallChanged(_, _, _, _, _) => NoteToolCallUpdate(d, u)
    case PlanChanged(entries) => d.(plan := entries)
    case ModeChanged(mode) => d.(mode := Some(mode))
    case _ => d
  }

  // ---- what a turn's updates add up to ----

  /** A turn's data after its updates, in order. */
  function ApplyAll(us: seq<Update>): Data {
    if us == [] then NO_DATA else Apply(ApplyAll(us[..|us| - 1]), us[|us| - 1])
  }

  /** The text of the message chunks, joined in order. */
  function ChunkTexts(us: seq<Update>): string {
    if us == [] then ""
    else
      (if us[0].MessageChunk? && us[0].content.Text? then us[0].content.text else "") + ChunkTexts(us[1..])
  }

  /** The tool call an update is about. */
  function Named(u: Update): Option<string> {
    match u
    case ToolCallSeen(call) => Some(call.id)
    case ToolCallChanged(id, _, _, _, _) => Some(id)
    case _ => None
  }

  /** The last value the updates give, each giving one or none. */
  function LastGiven<T>(us: seq<Update>, give: Update -> Option<T>): Option<T> {
    if us == [] then None
    else if give(us[|us| - 1]).Some? then give(us[|us| - 1])
    else LastGiven(us[..|us| - 1], give)
  }

  /** What an update gives of one call: announced, a field's value afresh; changed, the
      value it carries, if any. */
  function Giving<T>(u: Update, id: string, announced: ToolCall -> T, changed: Update -> Option<T>): Option<T> {
    if Named(u) != Some(id) then None
    else if u.ToolCallSeen? then Some(announced(u.call))
    else changed(u)
  }

  function TitleOf(us: seq<Update>, id: string): string {
    LastGiven(us, u => Giving(u, id, (call: ToolCall) => call.title,
                              (v: Update) => if v.ToolCallChanged? then v.newTitle else None)).GetOr("")
  }

  function KindOf(us: seq<Update>, id: string): Option<string> {
    LastGiven(us, u => Giving(u, id, (call: ToolCall) => call.kind,
                              (v: Update) => if v.ToolCallChanged? && v.newKind.Some? then Some(v.newKind) else None))
      .GetOr(None)
  }

  function StatusOf(us: seq<Update>, id: string): Option<ToolStatus> {
    LastGiven(us, u => Giving(u, id, (call: ToolCall) => call.status,
                              (v: Update) =>
                                if v.ToolCallChanged? && v.newStatus.Some? then Some(v.newStatus) else None))
      .GetOr(None)
  }

  function LocationsOf(us: seq<Update>, id: string): seq<string> {
    LastGiven(us, u => Giving(u, id, (call: ToolCall) => call.locations,
                              (v: Update) => if v.ToolCallChanged? then v.newLocations else None)).GetOr([])
  }

  ghost predicate IsNamed(us: seq<Update>, id: string) {
    exists k :: 0 <= k < |us| && Named(us[k]) == Some(id)
  }

  /** The reply is the chunks' text, joined in order. */
  lemma {:induction false} ReplyIsChunkTexts(us: seq<Update>)
    ensures ApplyAll(us).reply == ChunkTexts(us)
  {
    if us != [] {
      var rest, last := us[..|us| - 1], us[|us| - 1];
      ReplyIsChunkTexts(rest);
      assert us == rest + [last];
      ChunkTextsLast(rest, last);
    }
  }

  lemma {:induction false} ChunkTextsLast(us: seq<Update>, u: Update)
    ensures ChunkTexts(us + [u]) ==
      ChunkTexts(us) + if u.MessageChunk? && u.content.Text? then u.content.text else ""
  {
    if us == [] {
      assert [u][1..] == [];
    } else {
      assert (us + [u])[1..] == us[1..] + [u];
      ChunkTextsLast(us[1..], u);
    }
  }

  /** The latest call is the last one named; the plan and the mode are the last given. */
  lemma {:induction false} LatestAreLast(us: seq<Update>)
    ensures var d := ApplyAll(us);
      && d.latestToolCall == LastGiven(us, Named)
      && d.plan == LastGiven(us, (u: Update) => if u.PlanChanged? then Some(u.entries) else None).GetOr([])
      && d.mode == LastGiven(us, (u: Update) => if u.ModeChanged? then Some(u.mode) else None)
  {
    if us != [] { LatestAreLast(us[..|us| - 1]); }
  }

  /** A call as the updates leave it. */
  function CallOf(us: seq<Update>, id: string): ToolCall {
    ToolCall(id, TitleOf(us, id), KindOf(us, id), StatusOf(us, id), LocationsOf(us, id))
  }

  lemma CallAfter(us: seq<Update>, u: Update, id: string)
    ensures CallOf(us + [u], id) ==
      var was := CallOf(us, id);
      if Named(u) != Some(id) then was
      else
        match u
        case ToolCallSeen(call) => call
        case ToolCallChanged(_, newStatus, newTitle, newKind, newLocations) =>
          ToolCall(id, newTitle.GetOr(was.title), if newKind.Some? then newKind else was.kind,
                   if newStatus.Some? then newStatus else was.status, newLocations.GetOr(was.locations))
        case _ => was
  {
    assert (us + [u])[..|us|] == us;
  }

  lemma NamedAfter(us: seq<Update>, u: Update, id: string)
    ensures IsNamed(us + [u], id) <==> IsNamed(us, id) || Named(u) == Some(id)
  {
    var all := us + [u];
    assert all[|us|] == u && forall k :: 0 <= k < |us| ==> all[k] == us[k];
    if IsNamed(us, id) {
      var k :| 0 <= k < |us| && Named(us[k]) == Some(id);
      assert Named(all[k]) == Some(id);
    }
  }

  /** The calls on record are those named, each under the values last given since it was
      announced. */
  lemma {:induction false} CallsAreLastGiven(us: seq<Update>, id: string)
    ensures id in ApplyAll(us).toolCalls <==> IsNamed(us, id)
    ensures id in ApplyAll(us).toolCalls ==> ApplyAll(us).toolCalls[id] == CallOf(us, id)
  {
    if us != [] {
      var rest, last := us[..|us| - 1], us[|us| - 1];
      CallsAreLastGiven(rest, id);
      assert us == rest + [last];
      CallAfter(rest, last, id);
      NamedAfter(rest, last, id);
      if !IsNamed(rest, id) { UnnamedHasNone(rest, id); }
    }
  }

  lemma {:induction false} UnnamedHasNone(us: seq<Update>, id: string)
    requires !IsNamed(us, id)
    ensures TitleOf(us, id) == "" && KindOf(us, id).None? && StatusOf(us, id).None? && LocationsOf(us, id) == []
  {
    if us != [] {
      var rest := us[..|us| - 1];
      forall k | 0 <= k < |rest| ensures Named(rest[k]) != Some(id) { assert rest[k] == us[k]; }
      UnnamedHasNone(rest, id);
    }
  }
}
