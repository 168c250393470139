/** The agent's `merge_documents` tool: a chain of checks, each of which can
    end the call with a message for the chat, then one run of the
    summarization pipeline and one save of its output in the file registry.

    Reading a stored file (`open(path, "rb").read()`) is a parameter `disk`
    that yields the bytes or the text of the exception; the template reader
    `extract_template_instructions` is a parameter `extract` that yields the
    instructions or the text of the exception python-docx raises. The
    pipeline `summarize_many_documents_into_one` is an `Oracle` asked a
    `PipelineCall`, replying with the document's bytes or the text of the
    exception it raised. */
module Tools {
  import opened Wrappers
  import opened Text
  import opened FileStore
  import opened Collaborators

  /** Reading the file at a path. */
  type Disk = string -> Result<bytes>

  /** What the tool hands the pipeline: the `(filename, bytes)` inputs and
      the template instructions. */
  datatype PipelineCall = PipelineCall(inputs: seq<(string, bytes)>, instructions: Option<string>)

  /** The tool's replies, one per way the call can end. */
  datatype Reply =
    | TooFewIds
    | FileNotFound(fid: string)
    | FileReadError(fid: string, error: string)
    | TemplateNotFound(tid: string)
    | TemplateNotDocx
    | TemplateReadError(tid: string, error: string)
    | SummarizationFailed(error: string)
    | Generated(outId: string)

  /** The download link the registry's routes serve a file under. */
  function DownloadUrl(id: string): string {
    "/api/files/" + id + "/download"
  }

  /** The message the tool returns for each reply. */
  function Message(r: Reply): string {
    match r
    case TooFewIds => "Please provide at least two file_ids."
    case FileNotFound(fid) => "File ID not found: " + fid
    case FileReadError(fid, e) => "Error reading file " + fid + ": " + e
    case TemplateNotFound(tid) => "Template ID not found: " + tid
    case TemplateNotDocx => "Template must be a .docx file."
    case TemplateReadError(tid, e) => "Error reading template " + tid + ": " + e
    case SummarizationFailed(e) => "Summarization failed: " + e
    case Generated(id) => "Document generated successfully. Download: " + DownloadUrl(id)
  }

  /** The name and content type the generated document is saved with. */
  const OutputName: string := "Document_Generator_Output.docx"
  const DocxContentType: string := "application/vnd.openxmlformats-officedocument.wordprocessingml.document"

  /** `get_meta(id)` and `get_path(id)` are both truthy. */
  predicate Resolved(reg: map<string, Meta>, id: string) {
    id in reg && reg[id].path != []
  }

  // ---------------------------------------------------------------------
  // The specification of the checks

  /** The input loop so far: the inputs gathered, or the reply it ended with. */
  datatype Loading = Loaded(inputs: seq<(string, bytes)>) | Stopped(reply: Reply)

  /** The input loop over the ids still to do. */
  function LoadFrom(reg: map<string, Meta>, disk: Disk, rest: seq<string>, acc: seq<(string, bytes)>): Loading
    decreases |rest|
  {
    if rest == [] then Loaded(acc)
    else
      var fid := rest[0];
      if !Resolved(reg, fid) then Stopped(FileNotFound(fid))
      else
        var data := disk(reg[fid].path);
        if data.Failure? then Stopped(FileReadError(fid, data.error))
        else LoadFrom(reg, disk, rest[1..], acc + [(reg[fid].filename, data.value)])
  }

  /** The template step: no template, its instructions, or the reply it ended with. */
  datatype Templating = NoTemplate | Instructions(text: string) | TemplateStopped(reply: Reply)

  /** `if template_id:` and the checks inside it. */
  function TemplateStep(reg: map<string, Meta>, disk: Disk, extract: bytes -> Result<string>, tid: Option<string>): Templating {
    if tid.None? || tid.value == [] then NoTemplate
    else
      var t := tid.value;
      if !Resolved(reg, t) then TemplateStopped(TemplateNotFound(t))
      else if !EndsWith(Lower(reg[t].filename), ".docx") then TemplateStopped(TemplateNotDocx)
      else
        var data := disk(reg[t].path);
        if data.Failure? then TemplateStopped(TemplateReadError(t, data.error))
        else
          var ins := extract(data.value);
          if ins.Failure? then TemplateStopped(TemplateReadError(t, ins.error)) else Instructions(ins.value)
  }

  /** What the checks decide: the reply the call ends with, or the pipeline
      call to make. */
  datatype Checked = Halt(reply: Reply) | Run(call: PipelineCall)

  /** Every check of `merge_documents(file_ids, template_id)` on registry
      `reg`, in the order the tool makes them. */
  function Checks(reg: map<string, Meta>, disk: Disk, extract: bytes -> Result<string>,
                  ids: Option<seq<string>>, tid: Option<string>): Checked {
    if ids.None? || |ids.value| < 2 then Halt(TooFewIds)
    else
      var loading := LoadFrom(reg, disk, ids.value, []);
      if loading.Stopped? then Halt(loading.reply)
      else
        var t := TemplateStep(reg, disk, extract, tid);
        if t.TemplateStopped? then Halt(t.reply)
        else Run(PipelineCall(loading.inputs, if t.Instructions? then Some(t.text) else None))
  }

  /** How a call of the tool ends, and the pipeline call it makes, if any. */
  datatype Outcome = Outcome(reply: Reply, call: Option<PipelineCall>)

  /** `merge_documents(file_ids, template_id)` on registry `reg`, with the
      pipeline replying `run` and `fid` the id the output is saved under. */
  function Merge(reg: map<string, Meta>, disk: Disk, extract: bytes -> Result<string>, run: PipelineCall -> Result<bytes>,
                 ids: Option<seq<string>>, tid: Option<string>, fid: string): Outcome {
    var c := Checks(reg, disk, extract, ids, tid);
    if c.Halt? then Outcome(c.reply, None)
    else
      var res := run(c.call);
      if res.Failure? then Outcome(SummarizationFailed(res.error), Some(c.call)) else Outcome(Generated(fid), Some(c.call))
  }

  /** The registry after the call: one more record exactly when the document
      was generated. */
  function SavedReg(reg: map<string, Meta>, base: string, o: Outcome, fid: string): map<string, Meta> {
    if o.reply.Generated? then reg[fid := OutputMeta(base, fid)] else reg
  }

  /** The record of the generated document saved under `fid`. */
  function OutputMeta(base: string, fid: string): Meta {
    Meta(fid, StoredPath(base, fid, OutputName), OutputName, Some(DocxContentType))
  }

  // ---------------------------------------------------------------------
  // The tool

  lemma LoadFromAt(reg: map<string, Meta>, disk: Disk, ids: seq<string>, i: nat, acc: seq<(string, bytes)>)
    requires i < |ids|
    ensures LoadFrom(reg, disk, ids[i..], acc) ==
      var fid := ids[i];
      if !Resolved(reg, fid) then Stopped(FileNotFound(fid))
      else
        var data := disk(reg[fid].path);
        if data.Failure? then Stopped(FileReadError(fid, data.error))
        else LoadFrom(reg, disk, ids[i + 1..], acc + [(reg[fid].filename, data.value)])
  {
    assert ids[i..][0] == ids[i];
    assert ids[i..][1..] == ids[i + 1..];
  }

  /** The input loop: every id is looked up and its file read, in order. */
  method LoadInputs(store: Store, disk: Disk, ids: seq<string>) returns (r: Loading)
    ensures r == LoadFrom(store.reg, disk, ids, [])
  {
    var inputs := [];
    for i := 0 to |ids|
      invariant LoadFrom(store.reg, disk, ids[i..], inputs) == LoadFrom(store.reg, disk, ids, [])
    {
      LoadFromAt(store.reg, disk, ids, i, inputs);
      var fid := ids[i];
      var meta := store.GetMeta(fid);
      var path := store.GetPath(fid);
      if meta.None? || path.None? || path.value == [] {
        return Stopped(FileNotFound(fid));
      }
      var data := disk(path.value);
      if data.Failure? {
        return Stopped(FileReadError(fid, data.error));
      }
      inputs := inputs + [(meta.value.filename, data.value)];
    }
    assert ids[|ids|..] == [];
    r := Loaded(inputs);
  }

  /** The template checks. */
  method ReadTemplate(store: Store, disk: Disk, extract: bytes -> Result<string>, tid: Option<string>) returns (t: Templating)
    ensures t == TemplateStep(store.reg, disk, extract, tid)
  {
    if tid.None? || tid.value == [] {
      return NoTemplate;
    }
    var id := tid.value;
    var tmeta := store.GetMeta(id);
    var tpath := store.GetPath(id);
    if tmeta.None? || tpath.None? || tpath.value == [] {
      return TemplateStopped(TemplateNotFound(id));
    }
    if !EndsWith(Lower(tmeta.value.filename), ".docx") {
      return TemplateStopped(TemplateNotDocx);
    }
    var data := disk(tpath.value);
    if data.Failure? {
      return TemplateStopped(TemplateReadError(id, data.error));
    }
    var ins := extract(data.value);
    if ins.Failure? {
      return TemplateStopped(TemplateReadError(id, ins.error));
    }
    t := Instructions(ins.value);
  }

  /** The checks, in order, each of which can end the call. */
  method Check(store: Store, disk: Disk, extract: bytes -> Result<string>,
               fileIds: Option<seq<string>>, templateId: Option<string>) returns (c: Checked)
    ensures c == Checks(store.reg, disk, extract, fileIds, templateId)
    ensures c.Halt? ==> !c.reply.Generated? && !c.reply.SummarizationFailed?
  {
    if fileIds.None? || |fileIds.value| < 2 {
      return Halt(TooFewIds);
    }
    var loading := LoadInputs(store, disk, fileIds.value);
    if loading.Stopped? {
      LoadFromResult(store.reg, disk, fileIds.value, []);
      return Halt(loading.reply);
    }
    var t := ReadTemplate(store, disk, extract, templateId);
    if t.TemplateStopped? {
      return Halt(t.reply);
    }
    c := Run(PipelineCall(loading.inputs, if t.Instructions? then Some(t.text) else None));
  }

  /** The checks, the pipeline call and the save, ending with the reply
      the tool formats. */
  method MergeReply(store: Store, disk: Disk, extract: bytes -> Result<string>,
                    pipeline: Oracle<PipelineCall, Result<bytes>>,
                    fileIds: Option<seq<string>>, templateId: Option<string>, fid: string)
    returns (reply: Reply)
    modifies store, pipeline
    ensures var o := Merge(old(store.reg), disk, extract, pipeline.answer, fileIds, templateId, fid);
      && reply == o.reply
      && pipeline.log == old(pipeline.log) + (if o.call.Some? then [o.call.value] else [])
      && store.reg == SavedReg(old(store.reg), store.base, o, fid)
  {
    var c := Check(store, disk, extract, fileIds, templateId);
    if c.Halt? {
      return c.reply;
    }
    var res := pipeline.Ask(c.call);
    if res.Failure? {
      return SummarizationFailed(res.error);
    }
    var outId := SaveOutput(store, res.value, fid);
    reply := Generated(outId);
  }

  /** `save_file(docx_bytes, filename=..., content_type=...)`. */
  method SaveOutput(store: Store, content: bytes, fid: string) returns (id: string)
    modifies store
    ensures id == fid && store.reg == old(store.reg)[fid := OutputMeta(store.base, fid)]
  {
    id := store.SaveFile(content, OutputName, Some(DocxContentType), fid);
  }

  /** `merge_documents(file_ids, template_id)`, with `fid` the id `save_file`
      draws for the output. */
  method MergeDocuments(store: Store, disk: Disk, extract: bytes -> Result<string>,
                        pipeline: Oracle<PipelineCall, Result<bytes>>,
                        fileIds: Option<seq<string>>, templateId: Option<string>, fid: string)
    returns (msg: string)
    modifies store, pipeline
    ensures var o := Merge(old(store.reg), disk, extract, pipeline.answer, fileIds, templateId, fid);
      && msg == Message(o.reply)
      && pipeline.log == old(pipeline.log) + (if o.call.Some? then [o.call.value] else [])
      && store.reg == SavedReg(old(store.reg), store.base, o, fid)
  {
    var reply := MergeReply(store, disk, extract, pipeline, fileIds, templateId, fid);
    msg := Message(reply);
  }

  // ---------------------------------------------------------------------
  // Properties of the checks

  /** Every id of `ids` is resolved and its file read. */
  predicate AllLoad(reg: map<string, Meta>, disk: Disk, ids: seq<string>) {
    forall k :: 0 <= k < |ids| ==> Resolved(reg, ids[k]) && disk(reg[ids[k]].path).Success?
  }

  /** The inputs of ids that all load: each file's name and bytes, in id order. */
  function InputsOf(reg: map<string, Meta>, disk: Disk, ids: seq<string>): (inputs: seq<(string, bytes)>)
    requires AllLoad(reg, disk, ids)
    ensures |inputs| == |ids|
    ensures forall k :: 0 <= k < |ids| ==> inputs[k] == (reg[ids[k]].filename, disk(reg[ids[k]].path).value)
  {
    seq(|ids|, k requires 0 <= k < |ids| => (reg[ids[k]].filename, disk(reg[ids[k]].path).value))
  }

  /** A non-empty list of ids loads when its first id does and the rest do. */
  lemma AllLoadCons(reg: map<string, Meta>, disk: Disk, ids: seq<string>)
    requires ids != []
    ensures AllLoad(reg, disk, ids) <==>
      Resolved(reg, ids[0]) && disk(reg[ids[0]].path).Success? && AllLoad(reg, disk, ids[1..])
  {
    assert forall k :: 0 <= k < |ids[1..]| ==> ids[1..][k] == ids[k + 1];
    if Resolved(reg, ids[0]) && disk(reg[ids[0]].path).Success? && AllLoad(reg, disk, ids[1..]) {
      forall k | 0 <= k < |ids|
        ensures Resolved(reg, ids[k]) && disk(reg[ids[k]].path).Success?
      {
        if k > 0 {
          assert ids[k] == ids[1..][k - 1];
        }
      }
    }
  }

  /** When every id loads, the input loop gathers every file in id order. */
  lemma {:induction false} LoadFromAllLoad(reg: map<string, Meta>, disk: Disk, rest: seq<string>, acc: seq<(string, bytes)>)
    requires AllLoad(reg, disk, rest)
    ensures LoadFrom(reg, disk, rest, acc) == Loaded(acc + InputsOf(reg, disk, rest))
    decreases |rest|
  {
    if rest == [] {
      assert acc + [] == acc;
    } else {
      InputsOfCons(reg, disk, rest);
      var fid := rest[0];
      var x := (reg[fid].filename, disk(reg[fid].path).value);
      LoadFromAllLoad(reg, disk, rest[1..], acc + [x]);
      assert acc + [x] + InputsOf(reg, disk, rest[1..]) == acc + ([x] + InputsOf(reg, disk, rest[1..]));
    }
  }

  lemma InputsOfCons(reg: map<string, Meta>, disk: Disk, ids: seq<string>)
    requires ids != [] && AllLoad(reg, disk, ids)
    ensures Resolved(reg, ids[0]) && disk(reg[ids[0]].path).Success? && AllLoad(reg, disk, ids[1..])
    ensures InputsOf(reg, disk, ids) == [(reg[ids[0]].filename, disk(reg[ids[0]].path).value)] + InputsOf(reg, disk, ids[1..])
  {
    AllLoadCons(reg, disk, ids);
  }

  /** When some id does not load, the input loop ends with a file reply. */
  lemma {:induction false} LoadFromNotAllLoad(reg: map<string, Meta>, disk: Disk, rest: seq<string>, acc: seq<(string, bytes)>)
    requires !AllLoad(reg, disk, rest)
    ensures LoadFrom(reg, disk, rest, acc).Stopped?
    ensures LoadFrom(reg, disk, rest, acc).reply.FileNotFound? || LoadFrom(reg, disk, rest, acc).reply.FileReadError?
    decreases |rest|
  {
    AllLoadCons(reg, disk, rest);
    var fid := rest[0];
    if Resolved(reg, fid) && disk(reg[fid].path).Success? {
      LoadFromNotAllLoad(reg, disk, rest[1..], acc + [(reg[fid].filename, disk(reg[fid].path).value)]);
    }
  }

  /** The input loop gathers every file, in id order, exactly when every id
      loads; otherwise it ends with a file reply. */
  lemma LoadFromResult(reg: map<string, Meta>, disk: Disk, rest: seq<string>, acc: seq<(string, bytes)>)
    ensures LoadFrom(reg, disk, rest, acc).Loaded? <==> AllLoad(reg, disk, rest)
    ensures AllLoad(reg, disk, rest) ==> LoadFrom(reg, disk, rest, acc) == Loaded(acc + InputsOf(reg, disk, rest))
    ensures LoadFrom(reg, disk, rest, acc).Stopped? ==>
      LoadFrom(reg, disk, rest, acc).reply.FileNotFound? || LoadFrom(reg, disk, rest, acc).reply.FileReadError?
  {
    if AllLoad(reg, disk, rest) {
      LoadFromAllLoad(reg, disk, rest, acc);
    } else {
      LoadFromNotAllLoad(reg, disk, rest, acc);
    }
  }

  /** The first id that does not resolve, or whose file cannot be read, ends
      the input loop with the reply naming it. */
  lemma {:induction false} LoadFromStopsAt(reg: map<string, Meta>, disk: Disk, rest: seq<string>, acc: seq<(string, bytes)>, i: nat)
    requires i < |rest| && !(Resolved(reg, rest[i]) && disk(reg[rest[i]].path).Success?)
    requires AllLoad(reg, disk, rest[..i])
    ensures LoadFrom(reg, disk, rest, acc).Stopped?
    ensures !Resolved(reg, rest[i]) ==> LoadFrom(reg, disk, rest, acc).reply == FileNotFound(rest[i])
    ensures Resolved(reg, rest[i]) ==>
      LoadFrom(reg, disk, rest, acc).reply == FileReadError(rest[i], disk(reg[rest[i]].path).error)
    decreases i
  {
    if i > 0 {
      assert rest[..i][0] == rest[0];
      var fid := rest[0];
      var x := (reg[fid].filename, disk(reg[fid].path).value);
      AllLoadCons(reg, disk, rest[..i]);
      assert rest[..i][1..] == rest[1..][..i - 1];
      assert rest[1..][i - 1] == rest[i];
      LoadFromStopsAt(reg, disk, rest[1..], acc + [x], i - 1);
    }
  }

  /** Fewer than two ids, or none, end the call at once: no lookup, no read
      and no pipeline call. No other case gives that reply. */
  lemma TooFewIdsFirst(reg: map<string, Meta>, disk: Disk, extract: bytes -> Result<string>, run: PipelineCall -> Result<bytes>,
                      ids: Option<seq<string>>, tid: Option<string>, fid: string)
    ensures var o := Merge(reg, disk, extract, run, ids, tid, fid);
      (ids.None? || |ids.value| < 2 <==> o.reply == TooFewIds)
      && (o.reply == TooFewIds ==> o.call.None?)
  {
    if ids.Some? && |ids.value| >= 2 {
      LoadFromResult(reg, disk, ids.value, []);
    }
  }

  /** The ids are checked in order: the first one that does not resolve
      ends the call with "File ID not found" for it, before the template is
      looked at and without a pipeline call; a file that cannot be read ends
      it the same way with the read error. */
  lemma FirstBadIdStops(reg: map<string, Meta>, disk: Disk, extract: bytes -> Result<string>, run: PipelineCall -> Result<bytes>,
                        ids: seq<string>, tid: Option<string>, fid: string, i: nat)
    requires |ids| >= 2 && i < |ids| && !(Resolved(reg, ids[i]) && disk(reg[ids[i]].path).Success?)
    requires AllLoad(reg, disk, ids[..i])
    ensures var o := Merge(reg, disk, extract, run, Some(ids), tid, fid);
      && o.call.None?
      && (!Resolved(reg, ids[i]) ==> o.reply == FileNotFound(ids[i]))
      && (Resolved(reg, ids[i]) ==> o.reply == FileReadError(ids[i], disk(reg[ids[i]].path).error))
  {
    LoadFromStopsAt(reg, disk, ids, [], i);
  }

  /** The template is looked at only when `template_id` is given and not
      empty, and only after every id has loaded; without one the pipeline
      gets no instructions. */
  lemma TemplateAfterIds(reg: map<string, Meta>, disk: Disk, extract: bytes -> Result<string>, run: PipelineCall -> Result<bytes>,
                         ids: Option<seq<string>>, tid: Option<string>, fid: string)
    ensures var o := Merge(reg, disk, extract, run, ids, tid, fid);
      && (o.reply.TemplateNotFound? || o.reply.TemplateNotDocx? || o.reply.TemplateReadError? ==>
            ids.Some? && AllLoad(reg, disk, ids.value) && tid.Some? && tid.value != [])
      && (tid.None? || tid.value == [] ==> o.call.Some? ==> o.call.value.instructions.None?)
  {
    if ids.Some? && |ids.value| >= 2 {
      LoadFromResult(reg, disk, ids.value, []);
    }
  }

  /** A template that does not resolve, or whose file name does not end in
      ".docx" in any letter case, ends the call with its reply. */
  lemma TemplateChecks(reg: map<string, Meta>, disk: Disk, extract: bytes -> Result<string>, run: PipelineCall -> Result<bytes>,
                       ids: seq<string>, t: string, fid: string)
    requires |ids| >= 2 && AllLoad(reg, disk, ids) && t != []
    ensures var o := Merge(reg, disk, extract, run, Some(ids), Some(t), fid);
      && (!Resolved(reg, t) ==> o == Outcome(TemplateNotFound(t), None))
      && (Resolved(reg, t) && !EndsWith(Lower(reg[t].filename), ".docx") ==> o == Outcome(TemplateNotDocx, None))
  {
    LoadFromResult(reg, disk, ids, []);
  }

  /** The pipeline is called at most once, with the files' names and bytes
      in id order, and with the template's instructions exactly when a
      template was given. */
  lemma PipelineInputs(reg: map<string, Meta>, disk: Disk, extract: bytes -> Result<string>, run: PipelineCall -> Result<bytes>,
                       ids: Option<seq<string>>, tid: Option<string>, fid: string)
    ensures var o := Merge(reg, disk, extract, run, ids, tid, fid);
      o.call.Some? ==>
        && ids.Some? && AllLoad(reg, disk, ids.value)
        && o.call.value.inputs == InputsOf(reg, disk, ids.value)
        && (o.call.value.instructions.Some? <==> tid.Some? && tid.value != [])
  {
    if ids.Some? && |ids.value| >= 2 {
      LoadFromResult(reg, disk, ids.value, []);
      if AllLoad(reg, disk, ids.value) {
        assert [] + InputsOf(reg, disk, ids.value) == InputsOf(reg, disk, ids.value);
      }
    }
  }

  /** The document is generated exactly when the pipeline was called and
      succeeded; a pipeline failure gives "Summarization failed", and the
      registry gains exactly the output's record only in the first case. */
  lemma GeneratedIffPipelineSucceeds(reg: map<string, Meta>, base: string, disk: Disk, extract: bytes -> Result<string>,
                                     run: PipelineCall -> Result<bytes>, ids: Option<seq<string>>, tid: Option<string>, fid: string)
    ensures var o := Merge(reg, disk, extract, run, ids, tid, fid);
      && (o.reply.Generated? <==> o.call.Some? && run(o.call.value).Success?)
      && (o.call.Some? && run(o.call.value).Failure? ==> o.reply == SummarizationFailed(run(o.call.value).error))
      && (o.reply.Generated? ==>
            o.reply.outId == fid && SavedReg(reg, base, o, fid) == reg[fid := OutputMeta(base, fid)])
      && (!o.reply.Generated? ==> SavedReg(reg, base, o, fid) == reg)
  {
    if ids.Some? && |ids.value| >= 2 {
      LoadFromResult(reg, disk, ids.value, []);
    }
  }

  /** The success message carries the output's download link. */
  lemma GeneratedMessageLinks(id: string)
    ensures EndsWith(Message(Generated(id)), DownloadUrl(id))
    ensures EndsWith(DownloadUrl(id), id + "/download")
  {
    var m := Message(Generated(id));
    var u := DownloadUrl(id);
    assert m[|m| - |u|..] == u;
    assert u[|u| - |id + "/download"|..] == id + "/download";
  }
}
