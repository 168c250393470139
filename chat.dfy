/** One chat turn (`POST /chat`): the session's earlier conversation, a
    system note listing this turn's attachments and the user's message go to
    the agent runtime; its input list replaces the session's conversation
    and the tool calls and outputs among its new items become the trace the
    page shows.

    The agent runtime `Runner.run` is an `Oracle` asked the input items and
    replying with a `RunResult`. */
module Chat {
  import opened Wrappers
  import opened Text
  import opened FileStore
  import opened Collaborators

  /** An input item of a conversation: a chat message, or an item the agent
      runtime produced (tool calls, their outputs and the like), which the
      route passes on without looking at it. */
  datatype Item = Message(role: string, content: string) | RuntimeItem(raw: string)

  /** A new item of a run, as far as the trace looks at it. A tool call's
      `name` and `arguments`, and a tool output's `output` as `str` prints
      it, are `None` when the item has no such attribute. */
  datatype RunItem =
    | ToolCall(name: Option<string>, arguments: Option<string>)
    | ToolOutput(output: Option<string>)
    | OtherItem

  /** What `Runner.run` gives back: `to_input_list()`, `new_items`, and its
      `final_output` as `str` prints it. */
  datatype RunResult = RunResult(inputList: seq<Item>, newItems: seq<RunItem>, finalOutput: string)

  /** An entry of the tool trace. */
  datatype TraceEntry = CallEntry(tool: string, arguments: string) | OutputEntry(output: string)

  // ---------------------------------------------------------------------
  // Session id

  /** `body.session_id or "default"`. */
  function SessionId(given: Option<string>): (sid: string)
    ensures given.Some? && given.value != [] ==> sid == given.value
    ensures given.None? || given.value == [] ==> sid == "default"
  {
    if given.Some? && given.value != [] then given.value else "default"
  }

  // ---------------------------------------------------------------------
  // System note

  /** The content type as the f-string prints it: the record always has the
      key, and a missing type prints as "None". */
  function ContentTypeText(ct: Option<string>): string {
    if ct.Some? then ct.value else "None"
  }

  /** The note's line for one attachment with a record. */
  function Line(fid: string, m: Meta): string {
    fid + " :: " + m.filename + " (" + ContentTypeText(m.contentType) + ")"
  }

  /** The lines for the attachments `ids`: one per id with a record, in
      order. */
  function NoteLines(reg: map<string, Meta>, ids: seq<string>): seq<string>
    decreases |ids|
  {
    if ids == [] then []
    else
      var fid := ids[|ids| - 1];
      NoteLines(reg, ids[..|ids| - 1]) + (if fid in reg then [Line(fid, reg[fid])] else [])
  }

  const NoteHeader: string := "Uploaded files available this turn:\n"

  /** The system note: empty without attachments or when none of them has
      a record. */
  function SysNote(reg: map<string, Meta>, attachments: Option<seq<string>>): string {
    if attachments.None? || attachments.value == [] then []
    else
      var lines := NoteLines(reg, attachments.value);
      if lines == [] then [] else NoteHeader + Join(lines, "\n")
  }

  /** The loop over the attachments. */
  method BuildLines(store: Store, ids: seq<string>) returns (lines: seq<string>)
    ensures lines == NoteLines(store.reg, ids)
  {
    lines := [];
    for i := 0 to |ids|
      invariant lines == NoteLines(store.reg, ids[..i])
    {
      assert ids[..i + 1][..i] == ids[..i];
      var fid := ids[i];
      var meta := store.GetMeta(fid);
      if meta.Some? {
        lines := lines + [Line(fid, meta.value)];
      }
    }
    assert ids[..|ids|] == ids;
  }

  /** The system note built from the registry. */
  method BuildSysNote(store: Store, attachments: Option<seq<string>>) returns (note: string)
    ensures note == SysNote(store.reg, attachments)
  {
    note := [];
    if attachments.Some? && attachments.value != [] {
      var lines := BuildLines(store, attachments.value);
      if lines != [] {
        note := NoteHeader + Join(lines, "\n");
      }
    }
  }

  /** The lines of attachments that follow each other are the lines of each
      part, one after the other. */
  lemma {:induction false} NoteLinesAppend(reg: map<string, Meta>, a: seq<string>, b: seq<string>)
    ensures NoteLines(reg, a + b) == NoteLines(reg, a) + NoteLines(reg, b)
    decreases |b|
  {
    if b == [] {
      assert a + b == a;
    } else {
      var n := |b| - 1;
      assert (a + b)[..|a + b| - 1] == a + b[..n];
      assert (a + b)[|a + b| - 1] == b[n];
      NoteLinesAppend(reg, a, b[..n]);
    }
  }

  /** The lines for a single attachment. */
  lemma NoteLinesOne(reg: map<string, Meta>, fid: string)
    ensures NoteLines(reg, [fid]) == if fid in reg then [Line(fid, reg[fid])] else []
  {
    assert [fid][..0] == [];
  }

  /** There is a line exactly for the attachments with a record, in order:
      none when no attachment has one, and one per attachment, each for its
      own id, when all have. */
  lemma {:induction false} NoteLinesFilter(reg: map<string, Meta>, ids: seq<string>)
    ensures NoteLines(reg, ids) == [] <==> forall k :: 0 <= k < |ids| ==> ids[k] !in reg
    ensures (forall k :: 0 <= k < |ids| ==> ids[k] in reg) ==>
      |NoteLines(reg, ids)| == |ids| && forall k :: 0 <= k < |ids| ==> NoteLines(reg, ids)[k] == Line(ids[k], reg[ids[k]])
    decreases |ids|
  {
    if ids != [] {
      var n := |ids| - 1;
      NoteLinesFilter(reg, ids[..n]);
      assert forall k :: 0 <= k < n ==> ids[..n][k] == ids[k];
    }
  }

  /** The note is empty exactly when there are no attachments or none of
      them has a record; otherwise it is the header and the lines. */
  lemma SysNoteEmpty(reg: map<string, Meta>, attachments: Option<seq<string>>)
    ensures SysNote(reg, attachments) == [] <==>
      attachments.None? || forall k :: 0 <= k < |attachments.value| ==> attachments.value[k] !in reg
    ensures SysNote(reg, attachments) != [] ==>
      SysNote(reg, attachments) == NoteHeader + Join(NoteLines(reg, attachments.value), "\n")
  {
    if attachments.Some? {
      NoteLinesFilter(reg, attachments.value);
    }
  }

  // ---------------------------------------------------------------------
  // Input items

  /** The input items of a turn: the prior conversation when there is one,
      the system note when it is not empty, and the user's message. */
  function Compose(prior: Option<seq<Item>>, note: string, message: string): seq<Item> {
    if prior.Some? && prior.value != [] then
      prior.value + (if note != [] then [Message("system", note)] else []) + [Message("user", message)]
    else
      var start := if note != [] then [Message("system", note)] else [];
      start + [Message("user", message)]
  }

  /** One form for both branches: an empty or absent prior conversation is
      the same as none, the system item comes only with a note, and the
      user's message is always last. */
  lemma ComposeShape(prior: Option<seq<Item>>, note: string, message: string)
    ensures var before := if prior.Some? then prior.value else [];
      var items := Compose(prior, note, message);
      && items == before + (if note != [] then [Message("system", note)] else []) + [Message("user", message)]
      && |items| == |before| + (if note != [] then 2 else 1)
      && items[|items| - 1] == Message("user", message)
      && items[..|before|] == before
  {
    if prior.Some? && prior.value == [] {
      var start := if note != [] then [Message("system", note)] else [];
      assert [] + start == start;
    }
  }

  // ---------------------------------------------------------------------
  // Tool trace

  /** The trace entry of one new item: tool calls and tool outputs only. */
  function EntryOf(it: RunItem): seq<TraceEntry> {
    match it
    case ToolCall(name, arguments) =>
      [CallEntry(if name.Some? then name.value else "unknown", if arguments.Some? then arguments.value else "{}")]
    case ToolOutput(output) => [OutputEntry(if output.Some? then output.value else "")]
    case OtherItem => []
  }

  /** The trace of the new items, in order. */
  function TraceOf(items: seq<RunItem>): seq<TraceEntry>
    decreases |items|
  {
    if items == [] then [] else TraceOf(items[..|items| - 1]) + EntryOf(items[|items| - 1])
  }

  /** The loop over `result.new_items`. */
  method ExtractTrace(items: seq<RunItem>) returns (trace: seq<TraceEntry>)
    ensures trace == TraceOf(items)
  {
    trace := [];
    for i := 0 to |items|
      invariant trace == TraceOf(items[..i])
    {
      assert items[..i + 1][..i] == items[..i];
      match items[i]
      case ToolCall(name, arguments) =>
        var tool := if name.Some? then name.value else "unknown";
        var args := if arguments.Some? then arguments.value else "{}";
        trace := trace + [CallEntry(tool, args)];
      case ToolOutput(output) =>
        trace := trace + [OutputEntry(if output.Some? then output.value else "")];
      case OtherItem =>
    }
    assert items[..|items|] == items;
  }

  /** The trace of items that follow each other is the trace of each part,
      one after the other. */
  lemma {:induction false} TraceAppend(a: seq<RunItem>, b: seq<RunItem>)
    ensures TraceOf(a + b) == TraceOf(a) + TraceOf(b)
    decreases |b|
  {
    if b == [] {
      assert a + b == a;
    } else {
      var n := |b| - 1;
      assert (a + b)[..|a + b| - 1] == a + b[..n];
      assert (a + b)[|a + b| - 1] == b[n];
      TraceAppend(a, b[..n]);
    }
  }

  /** The trace keeps the tool items only: a call gives one call entry with
      "unknown" and "{}" for a missing name and arguments, an output one
      output entry with "" for a missing output, anything else nothing. */
  lemma TraceOne(it: RunItem)
    ensures TraceOf([it]) == EntryOf(it)
    ensures it.ToolCall? ==> TraceOf([it]) == [CallEntry(
      if it.name.None? then "unknown" else it.name.value, if it.arguments.None? then "{}" else it.arguments.value)]
    ensures it.ToolOutput? ==> TraceOf([it]) == [OutputEntry(if it.output.None? then "" else it.output.value)]
    ensures it.OtherItem? ==> TraceOf([it]) == []
  {
    assert [it][..0] == [];
  }

  /** One entry per tool item, no more. */
  lemma {:induction false} TraceLength(items: seq<RunItem>)
    ensures |TraceOf(items)| == |items| - |OthersOf(items)|
    decreases |items|
  {
    if items != [] {
      TraceLength(items[..|items| - 1]);
    }
  }

  /** The items that are neither tool calls nor tool outputs. */
  function OthersOf(items: seq<RunItem>): (others: seq<RunItem>)
    ensures |others| <= |items|
    decreases |items|
  {
    if items == [] then []
    else OthersOf(items[..|items| - 1]) + (if items[|items| - 1].OtherItem? then [items[|items| - 1]] else [])
  }

  // ---------------------------------------------------------------------
  // The conversation store and the turn

  /** `SESSION_STORE`: the input list of every session. */
  class Sessions {
    var conversations: map<string, seq<Item>>

    constructor ()
      ensures conversations == map[]
    {
      conversations := map[];
    }

    /** `SESSION_STORE.get(session_id)`. */
    function Get(sid: string): (r: Option<seq<Item>>)
      reads this
      ensures r.Some? <==> sid in conversations
      ensures r.Some? ==> r.value == conversations[sid]
    {
      if sid in conversations then Some(conversations[sid]) else None
    }

    /** `SESSION_STORE[session_id] = ...`: this session's entry is replaced
        and every other session keeps its own. */
    method Put(sid: string, items: seq<Item>)
      modifies this
      ensures conversations == old(conversations)[sid := items]
      ensures forall s :: s in old(conversations) && s != sid ==> s in conversations && conversations[s] == old(conversations)[s]
    {
      conversations := conversations[sid := items];
    }
  }

  /** The input items of a turn. */
  function TurnItems(sessions: map<string, seq<Item>>, reg: map<string, Meta>,
                     message: string, sessionId: Option<string>, attachments: Option<seq<string>>): seq<Item> {
    var sid := SessionId(sessionId);
    Compose(if sid in sessions then Some(sessions[sid]) else None, SysNote(reg, attachments), message)
  }

  /** `chat(body)`: one call of the runtime with the turn's items; the
      session's entry becomes the run's input list; the reply is the run's
      final output and the trace of its new items. */
  method ChatTurn(sessions: Sessions, store: Store, runner: Oracle<seq<Item>, RunResult>,
                  message: string, sessionId: Option<string>, attachments: Option<seq<string>>)
    returns (final: string, trace: seq<TraceEntry>)
    modifies sessions, runner
    ensures var items := TurnItems(old(sessions.conversations), store.reg, message, sessionId, attachments);
      var result := runner.answer(items);
      && runner.log == old(runner.log) + [items]
      && sessions.conversations == old(sessions.conversations)[SessionId(sessionId) := result.inputList]
      && final == result.finalOutput
      && trace == TraceOf(result.newItems)
  {
    var sid := SessionId(sessionId);
    var prior := sessions.Get(sid);
    var note := BuildSysNote(store, attachments);
    var items := Compose(prior, note, message);
    var result := runner.Ask(items);
    sessions.Put(sid, result.inputList);
    trace := ExtractTrace(result.newItems);
    final := result.finalOutput;
  }
}
