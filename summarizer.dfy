/** The map/reduce summarization pipeline. Each input file is read, blank
    files are skipped, every other file is cut into chunks, each chunk is
    summarized by one model call and the partial summaries are reduced by one
    more call; the per-file summaries are then combined by a last call, and the
    result is written as a document together with the token counts.

    The model client `_chat_once` is an `Oracle` that is asked prompts and
    replies with a fixed but unknown string, which stands for the model's
    reply after `_chat_once` has stripped it; a prompt is kept as its template
    and arguments, and `PromptText` renders the exact text the model is sent
    and the tokenizer counts. The tokenizer is an unknown `string -> nat`, or
    absent, and the file readers are parameters. A file is skipped when
    `raw.strip()` is empty, that is when its text is all whitespace
    (`StripEmptyIffBlank`). */
module Summarizer {
  import opened Wrappers
  import opened Text
  import opened Collaborators
  import opened TextExtractor
  import opened Chunker
  import opened DocxWriter

  /** The settings the pipeline reads: the API key and the chunker's window. */
  datatype Config = Config(apiKey: string, chunkSize: int, chunkOverlap: int)

  /** The tokenizer, when `tiktoken` could be imported: the number of tokens
      of a text in the model's encoding. */
  type Encoder = Option<string -> nat>

  /** What `_summarize_chunks` and `_combine_across_files` return: a summary
      and the input and output token counts of the calls that produced it. */
  datatype Summary = Summary(text: string, tin: nat, tout: nat)

  /** What `summarize_many_documents_into_one` returns: the document (as its
      paragraphs) and the three token statistics. */
  datatype Output = Output(document: seq<Paragraph>, inputTokens: nat, outputTokens: nat, totalTokens: nat)

  // ---------------------------------------------------------------------
  // Token counting

  /** `_count_tokens`: the encoder's count, or without `tiktoken` a quarter
      of the length rounded down, but never less than one. */
  function CountTokens(enc: Encoder, text: string): nat {
    match enc
    case Some(count) => count(text)
    case None => if |text| / 4 > 1 then |text| / 4 else 1
  }

  /** Without a tokenizer every text counts at least one token: texts
      shorter than 8 characters count one, longer ones `n` tokens with
      `4n <= len < 4n + 4`. */
  lemma CountTokensFallback(text: string)
    ensures var n := CountTokens(None, text);
      && n >= 1
      && (|text| < 8 ==> n == 1)
      && (|text| >= 4 ==> 4 * n <= |text| < 4 * n + 4)
  {
  }

  /** The token counts of a list of texts, added up. */
  function Tokens(enc: Encoder, texts: seq<string>): nat
    decreases |texts|
  {
    if texts == [] then 0
    else Tokens(enc, texts[..|texts| - 1]) + CountTokens(enc, texts[|texts| - 1])
  }

  /** Counting a list in two parts gives the count of the whole. */
  lemma {:induction false} TokensAppend(enc: Encoder, a: seq<string>, b: seq<string>)
    ensures Tokens(enc, a + b) == Tokens(enc, a) + Tokens(enc, b)
    decreases |b|
  {
    if b == [] {
      assert a + b == a;
    } else {
      var b' := b[..|b| - 1];
      assert (a + b)[..|a + b| - 1] == a + b';
      TokensAppend(enc, a, b');
    }
  }

  // ---------------------------------------------------------------------
  // Prompts

  /** Python's truthiness of an optional string: present and non-empty. */
  predicate Truthy(s: Option<string>) {
    s.Some? && s.value != []
  }

  /** A prompt, as the template it is made from and the values put into it. */
  datatype Prompt =
    | ChunkPrompt(chunk: string)
    | ReducePrompt(partials: seq<string>, reduceInstructions: Option<string>)
    | CombinePrompt(perFile: seq<(string, string)>, combineInstructions: Option<string>)

  /** The heading block of one per-file summary. */
  function Entry(name: string, summary: string): string {
    "Summary of " + name + ":\n" + summary + "\n\n"
  }

  /** The per-file summaries as one text, in input order. */
  function CombinedText(perFile: seq<(string, string)>): string {
    Concat(seq(|perFile|, k requires 0 <= k < |perFile| => Entry(perFile[k].0, perFile[k].1)))
  }

  /** The fixed text around the one value a prompt template takes. */
  datatype Frame = Frame(before: string, after: string)

  /** The fixed text around the two values a prompt template takes. */
  datatype Frame2 = Frame2(before: string, between: string, after: string)

  /** The fixed wording of the five prompt templates. */
  datatype Wording = Wording(chunk: Frame, reduce: Frame, reduceWith: Frame2, combine: Frame, combineWith: Frame2)

  /** The program's wording, character for character. */
  const ProgramWording: Wording := Wording(
    Frame("Please summarize the following text.\n\n", "\n\nSummary:"),
    Frame("Create a concise, structured summary of the following material.\n\n", "\n\nFinal summary:"),
    Frame2("Using the following instructions, create a concise, structured summary of the material.\n\n"
           + "Instructions:\n", "\n\nMaterial:\n", "\n\nFinal summary:"),
    Frame("Combine the following summaries into one coherent document with clear section headings. "
          + "Bold headings using **like this**.\n\n", "\n\nFinal document:"),
    Frame2("Given the template instructions and summarized text, arrange the content per the template order.\n"
           + "Do not significantly rephrase. Bold headings using **like this**. If the template specifies sub-sections,"
           + " list them using a), b), c).\n\n"
           + "Template instructions:\n", "\n\nSummarized text:\n", "\n\nFinal arranged document:"))

  /** The text of a prompt in a given wording: the program sends
      `PromptText(ProgramWording, p)`. Instructions are used only when they
      are truthy. */
  function PromptText(w: Wording, p: Prompt): string {
    match p
    case ChunkPrompt(chunk) =>
      w.chunk.before + chunk + w.chunk.after
    case ReducePrompt(partials, instructions) =>
      var combined := Join(partials, "\n\n");
      if Truthy(instructions) then
        w.reduceWith.before + instructions.value + w.reduceWith.between + combined + w.reduceWith.after
      else
        w.reduce.before + combined + w.reduce.after
    case CombinePrompt(perFile, instructions) =>
      var combinedText := CombinedText(perFile);
      if Truthy(instructions) then
        w.combineWith.before + instructions.value + w.combineWith.between + combinedText + w.combineWith.after
      else
        w.combine.before + combinedText + w.combine.after
  }

  /** Empty instructions are falsy: they give the same text as no
      instructions, for the reduce and for the combine prompt. */
  lemma EmptyInstructionsAreNone(w: Wording, partials: seq<string>, perFile: seq<(string, string)>)
    ensures PromptText(w, ReducePrompt(partials, Some(""))) == PromptText(w, ReducePrompt(partials, None))
    ensures PromptText(w, CombinePrompt(perFile, Some(""))) == PromptText(w, CombinePrompt(perFile, None))
  {
  }

  /** The combined text is built entry by entry, in order: one more summary
      adds its entry at the end. */
  lemma CombinedTextAppend(perFile: seq<(string, string)>, name: string, summary: string)
    ensures CombinedText(perFile + [(name, summary)]) == CombinedText(perFile) + Entry(name, summary)
  {
    var all := perFile + [(name, summary)];
    var es := seq(|all|, k requires 0 <= k < |all| => Entry(all[k].0, all[k].1));
    assert es[..|es| - 1] == seq(|perFile|, k requires 0 <= k < |perFile| => Entry(perFile[k].0, perFile[k].1));
  }

  /** The token counts of the texts of a list of prompts, added up. */
  function PromptTokens(enc: Encoder, w: Wording, prompts: seq<Prompt>): nat
    decreases |prompts|
  {
    if prompts == [] then 0
    else PromptTokens(enc, w, prompts[..|prompts| - 1]) + CountTokens(enc, PromptText(w, prompts[|prompts| - 1]))
  }

  /** Counting a list of prompts in two parts gives the count of the whole. */
  lemma {:induction false} PromptTokensAppend(enc: Encoder, w: Wording, a: seq<Prompt>, b: seq<Prompt>)
    ensures PromptTokens(enc, w, a + b) == PromptTokens(enc, w, a) + PromptTokens(enc, w, b)
    decreases |b|
  {
    if b == [] {
      assert a + b == a;
    } else {
      var b' := b[..|b| - 1];
      assert (a + b)[..|a + b| - 1] == a + b';
      PromptTokensAppend(enc, w, a, b');
    }
  }

  // ---------------------------------------------------------------------
  // Model calls

  /** The replies to a list of prompts, in order. */
  function Replies(answer: Prompt -> string, prompts: seq<Prompt>): (r: seq<string>)
    ensures |r| == |prompts|
    ensures forall k :: 0 <= k < |prompts| ==> r[k] == answer(prompts[k])
  {
    seq(|prompts|, k requires 0 <= k < |prompts| => answer(prompts[k]))
  }

  lemma RepliesAppend(answer: Prompt -> string, a: seq<Prompt>, b: seq<Prompt>)
    ensures Replies(answer, a + b) == Replies(answer, a) + Replies(answer, b)
  {
  }

  /** The chunk prompts of a text, one per chunk and in chunk order. */
  function ChunkPrompts(chunks: seq<string>): (r: seq<Prompt>)
    ensures |r| == |chunks|
    ensures forall k :: 0 <= k < |chunks| ==> r[k] == ChunkPrompt(chunks[k])
  {
    seq(|chunks|, k requires 0 <= k < |chunks| => ChunkPrompt(chunks[k]))
  }

  // ---------------------------------------------------------------------
  // One text: _summarize_chunks

  /** Every prompt `_summarize_chunks` sends, in order: one per chunk, then the
      reduce prompt built from the replies to the chunk prompts. */
  function SummaryCalls(answer: Prompt -> string, size: int, overlap: int, text: string, instructions: Option<string>): seq<Prompt> {
    var prompts := ChunkPrompts(Chunks(text, size, overlap));
    prompts + [ReducePrompt(Replies(answer, prompts), instructions)]
  }

  /** The result of `_summarize_chunks`: the reply to the reduce prompt, and
      the running token counts of the prompts and of the replies. */
  function SummarizeText(answer: Prompt -> string, enc: Encoder, w: Wording, size: int, overlap: int, text: string, instructions: Option<string>): Summary {
    var prompts := ChunkPrompts(Chunks(text, size, overlap));
    var partials := Replies(answer, prompts);
    var reduce := ReducePrompt(partials, instructions);
    var final := answer(reduce);
    Summary(final, PromptTokens(enc, w, prompts) + CountTokens(enc, PromptText(w, reduce)), Tokens(enc, partials) + CountTokens(enc, final))
  }

  /** The map loop of `_summarize_chunks`: one call per chunk, in order,
      accumulating the replies and both token counts. */
  method SummarizeEach(llm: Oracle<Prompt, string>, enc: Encoder, w: Wording, chunks: seq<string>)
    returns (partials: seq<string>, tin: nat, tout: nat)
    modifies llm
    ensures llm.log == old(llm.log) + ChunkPrompts(chunks)
    ensures partials == Replies(llm.answer, ChunkPrompts(chunks))
    ensures tin == PromptTokens(enc, w, ChunkPrompts(chunks))
    ensures tout == Tokens(enc, partials)
  {
    ghost var prompts := ChunkPrompts(chunks);
    ghost var log0 := llm.log;
    tin, tout := 0, 0;
    partials := [];
    for k := 0 to |chunks|
      invariant llm.log == log0 + prompts[..k]
      invariant partials == Replies(llm.answer, prompts[..k])
      invariant tin == PromptTokens(enc, w, prompts[..k])
      invariant tout == Tokens(enc, partials)
    {
      var prompt := ChunkPrompt(chunks[k]);
      tin := tin + CountTokens(enc, PromptText(w, prompt));
      var s := llm.Ask(prompt);
      tout := tout + CountTokens(enc, s);
      PrefixStep(llm.answer, enc, w, prompts, k);
      assert (partials + [s])[..k] == partials;
      partials := partials + [s];
    }
    assert prompts[..|chunks|] == prompts;
  }

  /** Extending a prefix of the prompts by one prompt extends the replies
      and the prompt tokens by that prompt's. */
  lemma PrefixStep(answer: Prompt -> string, enc: Encoder, w: Wording, prompts: seq<Prompt>, k: nat)
    requires k < |prompts|
    ensures prompts[..k + 1] == prompts[..k] + [prompts[k]]
    ensures Replies(answer, prompts[..k + 1]) == Replies(answer, prompts[..k]) + [answer(prompts[k])]
    ensures PromptTokens(enc, w, prompts[..k + 1]) == PromptTokens(enc, w, prompts[..k]) + CountTokens(enc, PromptText(w, prompts[k]))
  {
    assert prompts[..k + 1] == prompts[..k] + [prompts[k]];
    assert prompts[..k + 1][..k] == prompts[..k];
    RepliesAppend(answer, prompts[..k], [prompts[k]]);
  }

  /** `_summarize_chunks(text, instructions)`. */
  method SummarizeChunks(llm: Oracle<Prompt, string>, enc: Encoder, w: Wording, size: int, overlap: int, text: string, instructions: Option<string>)
    returns (r: Summary)
    modifies llm
    ensures llm.log == old(llm.log) + SummaryCalls(llm.answer, size, overlap, text, instructions)
    ensures r == SummarizeText(llm.answer, enc, w, size, overlap, text, instructions)
  {
    var chunks := ChunkText(text, size, overlap);
    var partials, tin, tout := SummarizeEach(llm, enc, w, chunks);
    var reduce := ReducePrompt(partials, instructions);
    tin := tin + CountTokens(enc, PromptText(w, reduce));
    var final := llm.Ask(reduce);
    tout := tout + CountTokens(enc, final);
    r := Summary(final, tin, tout);
  }

  /** One model call per chunk and exactly one reduce call: the chunk prompts
      come first, in chunk order, and the reduce prompt, built from the
      replies to them and the instructions, comes last. */
  lemma SummaryCallCount(answer: Prompt -> string, size: int, overlap: int, text: string, instructions: Option<string>)
    ensures var calls, chunks := SummaryCalls(answer, size, overlap, text, instructions), Chunks(text, size, overlap);
      && |calls| == |chunks| + 1
      && (forall k :: 0 <= k < |chunks| ==> calls[k] == ChunkPrompt(chunks[k]))
      && calls[|chunks|] == ReducePrompt(Replies(answer, calls[..|chunks|]), instructions)
  {
    var calls, chunks := SummaryCalls(answer, size, overlap, text, instructions), Chunks(text, size, overlap);
    assert calls[..|chunks|] == ChunkPrompts(chunks);
  }

  /** `tin` is the token count of every prompt sent and `tout` that of every
      reply received; the summary is the reply to the last prompt. */
  lemma SummaryTokens(answer: Prompt -> string, enc: Encoder, w: Wording, size: int, overlap: int, text: string, instructions: Option<string>)
    ensures var r, calls := SummarizeText(answer, enc, w, size, overlap, text, instructions), SummaryCalls(answer, size, overlap, text, instructions);
      && r.tin == PromptTokens(enc, w, calls)
      && r.tout == Tokens(enc, Replies(answer, calls))
      && r.text == answer(calls[|calls| - 1])
  {
    var prompts := ChunkPrompts(Chunks(text, size, overlap));
    var reduce := ReducePrompt(Replies(answer, prompts), instructions);
    PromptTokensAppend(enc, w, prompts, [reduce]);
    assert PromptTokens(enc, w, [reduce]) == CountTokens(enc, PromptText(w, reduce)) by {
      assert [reduce][..0] == [];
    }
    RepliesAppend(answer, prompts, [reduce]);
    TokensAppend(enc, Replies(answer, prompts), [answer(reduce)]);
    assert Tokens(enc, [answer(reduce)]) == CountTokens(enc, answer(reduce)) by {
      assert [answer(reduce)][..0] == [];
    }
  }

  /** A text that fits the window takes two calls; a longer text, with a
      window of at least one character, `ceil(len/step) + 1`. */
  lemma CallCountByLength(answer: Prompt -> string, size: int, overlap: int, text: string, instructions: Option<string>)
    ensures |text| <= size ==> |SummaryCalls(answer, size, overlap, text, instructions)| == 2
    ensures size >= 1 && |text| > size ==>
      |SummaryCalls(answer, size, overlap, text, instructions)| == CeilDiv(|text|, Step(size, overlap)) + 1
  {
    if size >= 1 && |text| > size {
      LongTextChunks(text, size, overlap);
    }
  }

  // ---------------------------------------------------------------------
  // Across files: _combine_across_files

  /** `_combine_across_files(file_summaries, instructions)`: one call. */
  method CombineAcrossFiles(llm: Oracle<Prompt, string>, enc: Encoder, w: Wording, perFile: seq<(string, string)>, instructions: Option<string>)
    returns (r: Summary)
    modifies llm
    ensures llm.log == old(llm.log) + [CombinePrompt(perFile, instructions)]
    ensures r.text == llm.answer(CombinePrompt(perFile, instructions))
    ensures r.tin == CountTokens(enc, PromptText(w, CombinePrompt(perFile, instructions)))
    ensures r.tout == CountTokens(enc, r.text)
  {
    var prompt := CombinePrompt(perFile, instructions);
    var tin := CountTokens(enc, PromptText(w, prompt));
    var final := llm.Ask(prompt);
    var tout := CountTokens(enc, final);
    r := Summary(final, tin, tout);
  }

  // ---------------------------------------------------------------------
  // The driver's loop, for any way of summarizing one text

  /** What summarizing one text gives: its summary with token counts, and
      the prompts sent for it. */
  datatype FileWork = FileWork(summary: Summary, calls: seq<Prompt>)

  /** The driver's state after some files: the per-file summaries, the
      prompts sent, and the token totals. */
  datatype Progress = Progress(perFile: seq<(string, string)>, calls: seq<Prompt>, tin: nat, tout: nat)

  /** Nothing summarized yet. */
  const Start: Progress := Progress([], [], 0, 0)

  /** The state at the end of a run, and the error that stopped it, if one
      did (a reader that raised). */
  datatype Scanned = Scanned(progress: Progress, error: Option<string>)

  /** One turn of the driver's loop: a file whose reader raises stops the
      run, a blank one is skipped, any other is summarized by `per`. */
  function ScanFile(per: string -> FileWork, read: Reader, p: Progress, file: (string, bytes)): Scanned {
    match read(file.0, file.1)
    case Failure(e) => Scanned(p, Some(e))
    case Success(raw) =>
      if IsBlank(raw) then Scanned(p, None)
      else
        var r := per(raw);
        Scanned(Progress(p.perFile + [(file.0, r.summary.text)], p.calls + r.calls,
                         p.tin + r.summary.tin, p.tout + r.summary.tout), None)
  }

  /** The driver's loop over the files still to do, from state `p`, stopping
      at the first error. */
  function ScanFrom(per: string -> FileWork, read: Reader, rest: seq<(string, bytes)>, p: Progress): Scanned
    decreases |rest|
  {
    if rest == [] then Scanned(p, None)
    else
      var s := ScanFile(per, read, p, rest[0]);
      if s.error.Some? then s else ScanFrom(per, read, rest[1..], s.progress)
  }

  /** One turn of the loop at file `i`. */
  lemma ScanFromAt(per: string -> FileWork, read: Reader, files: seq<(string, bytes)>, i: nat, p: Progress)
    requires i < |files|
    ensures ScanFrom(per, read, files[i..], p) ==
      var s := ScanFile(per, read, p, files[i]);
      if s.error.Some? then s else ScanFrom(per, read, files[i + 1..], s.progress)
  {
    assert files[i..][0] == files[i];
    assert files[i..][1..] == files[i + 1..];
  }

  /** A file whose reader does not raise. */
  predicate ReadsOk(read: Reader, file: (string, bytes)) {
    read(file.0, file.1).Success?
  }

  /** The text such a file yields. */
  function TextOf(read: Reader, file: (string, bytes)): string
    requires ReadsOk(read, file)
  {
    read(file.0, file.1).value
  }

  /** A file whose text is blank after `strip()`. */
  predicate Blank(read: Reader, file: (string, bytes))
    requires ReadsOk(read, file)
  {
    IsBlank(TextOf(read, file))
  }

  /** The files whose text is not blank, as (name, text), in input order. */
  function Readable(read: Reader, files: seq<(string, bytes)>): seq<(string, string)>
    requires forall k :: 0 <= k < |files| ==> ReadsOk(read, files[k])
    decreases |files|
  {
    if files == [] then []
    else (if Blank(read, files[0]) then [] else [(files[0].0, TextOf(read, files[0]))]) + Readable(read, files[1..])
  }

  /** No file is readable exactly when every file's text is blank. */
  lemma {:induction false} NoneReadableIffAllBlank(read: Reader, files: seq<(string, bytes)>)
    requires forall k :: 0 <= k < |files| ==> ReadsOk(read, files[k])
    ensures Readable(read, files) == [] <==> forall k :: 0 <= k < |files| ==> Blank(read, files[k])
    decreases |files|
  {
    if files != [] {
      var tail := files[1..];
      assert forall k :: 0 <= k < |tail| ==> tail[k] == files[k + 1];
      NoneReadableIffAllBlank(read, tail);
      if Blank(read, files[0]) {
        assert Readable(read, files) == Readable(read, tail);
        assert (forall k :: 0 <= k < |files| ==> Blank(read, files[k])) <==> (forall k :: 0 <= k < |tail| ==> Blank(read, tail[k])) by {
          if forall k :: 0 <= k < |tail| ==> Blank(read, tail[k]) {
            forall k | 0 <= k < |files|
              ensures Blank(read, files[k])
            {
              if k > 0 {
                assert files[k] == tail[k - 1];
              }
            }
          }
        }
      }
    }
  }

  /** Each readable text's summary under `per`, named as its file. */
  function Summaries(per: string -> FileWork, readable: seq<(string, string)>): (r: seq<(string, string)>)
    ensures |r| == |readable|
    ensures forall k :: 0 <= k < |readable| ==> r[k] == (readable[k].0, per(readable[k].1).summary.text)
  {
    seq(|readable|, k requires 0 <= k < |readable| => (readable[k].0, per(readable[k].1).summary.text))
  }

  /** Every prompt sent for the readable texts, text after text. */
  function FileCalls(per: string -> FileWork, readable: seq<(string, string)>): seq<Prompt>
    decreases |readable|
  {
    if readable == [] then [] else per(readable[0].1).calls + FileCalls(per, readable[1..])
  }

  lemma AppendAssoc<T>(a: seq<T>, b: seq<T>, c: seq<T>)
    ensures a + b + c == a + (b + c)
  {
  }

  lemma SummariesCons(per: string -> FileWork, x: (string, string), rs: seq<(string, string)>)
    ensures Summaries(per, [x] + rs) == [(x.0, per(x.1).summary.text)] + Summaries(per, rs)
  {
  }

  lemma FileCallsCons(per: string -> FileWork, x: (string, string), rs: seq<(string, string)>)
    ensures FileCalls(per, [x] + rs) == per(x.1).calls + FileCalls(per, rs)
  {
    assert ([x] + rs)[1..] == rs;
  }

  /** When every reader succeeds, the run does not stop early, the per-file
      summaries grow by one summary per readable file in input order, and
      the prompts sent are those files' prompts in order. */
  lemma {:induction false} ScanFollowsReadable(per: string -> FileWork, read: Reader, rest: seq<(string, bytes)>, p: Progress)
    requires forall k :: 0 <= k < |rest| ==> ReadsOk(read, rest[k])
    ensures var sc := ScanFrom(per, read, rest, p);
      && sc.error == None
      && sc.progress.perFile == p.perFile + Summaries(per, Readable(read, rest))
      && sc.progress.calls == p.calls + FileCalls(per, Readable(read, rest))
    decreases |rest|
  {
    if rest != [] {
      var tail := rest[1..];
      var s := ScanFile(per, read, p, rest[0]);
      ScanFollowsReadable(per, read, tail, s.progress);
      var r1 := Readable(read, tail);
      if Blank(read, rest[0]) {
        assert Readable(read, rest) == r1 by {
          assert [] + r1 == r1;
        }
      } else {
        var x := (rest[0].0, TextOf(read, rest[0]));
        SummariesCons(per, x, r1);
        FileCallsCons(per, x, r1);
        AppendAssoc(p.perFile, [(x.0, per(x.1).summary.text)], Summaries(per, r1));
        AppendAssoc(p.calls, per(x.1).calls, FileCalls(per, r1));
      }
    }
  }

  /** A reader that raises on file `i`, after files that all read, stops the
      run with its message. */
  lemma {:induction false} ScanStopsAt(per: string -> FileWork, read: Reader, rest: seq<(string, bytes)>, p: Progress, i: nat)
    requires i < |rest| && !ReadsOk(read, rest[i])
    requires forall k :: 0 <= k < i ==> ReadsOk(read, rest[k])
    ensures ScanFrom(per, read, rest, p).error == Some(read(rest[i].0, rest[i].1).error)
    decreases i
  {
    if i > 0 {
      var tail := rest[1..];
      assert forall k :: 0 <= k < |tail| ==> tail[k] == rest[k + 1];
      ScanStopsAt(per, read, tail, ScanFile(per, read, p, rest[0]).progress, i - 1);
    }
  }

  /** `per` accounts for its tokens: its input count is that of the prompts
      it sent and its output count that of the replies to them. */
  ghost predicate Accounts(answer: Prompt -> string, enc: Encoder, w: Wording, per: string -> FileWork) {
    forall raw :: per(raw).summary.tin == PromptTokens(enc, w, per(raw).calls)
              && per(raw).summary.tout == Tokens(enc, Replies(answer, per(raw).calls))
  }

  /** A state whose totals are the token counts of the prompts sent so far
      and of the replies to them. */
  predicate Counted(answer: Prompt -> string, enc: Encoder, w: Wording, p: Progress) {
    p.tin == PromptTokens(enc, w, p.calls) && p.tout == Tokens(enc, Replies(answer, p.calls))
  }

  /** With a summarizer that accounts for its tokens, the loop keeps the
      totals equal to the token counts of every prompt sent and of every
      reply received. */
  lemma {:induction false} ScanTokens(answer: Prompt -> string, enc: Encoder, w: Wording, per: string -> FileWork,
                                      read: Reader, rest: seq<(string, bytes)>, p: Progress)
    requires Accounts(answer, enc, w, per) && Counted(answer, enc, w, p)
    ensures Counted(answer, enc, w, ScanFrom(per, read, rest, p).progress)
    decreases |rest|
  {
    if rest != [] {
      var file := rest[0];
      if read(file.0, file.1).Success? && !IsBlank(read(file.0, file.1).value) {
        var more := per(read(file.0, file.1).value).calls;
        PromptTokensAppend(enc, w, p.calls, more);
        RepliesAppend(answer, p.calls, more);
        TokensAppend(enc, Replies(answer, p.calls), Replies(answer, more));
      }
      ScanTokens(answer, enc, w, per, read, rest[1..], ScanFile(per, read, p, file).progress);
    }
  }

  /** With a summarizer whose every prompt satisfies `ok`, the loop sends
      only such prompts. */
  lemma {:induction false} ScanCallsSatisfy(per: string -> FileWork, read: Reader, rest: seq<(string, bytes)>, p: Progress, ok: Prompt -> bool)
    requires forall raw, q :: q in per(raw).calls ==> ok(q)
    requires forall q :: q in p.calls ==> ok(q)
    ensures forall q :: q in ScanFrom(per, read, rest, p).progress.calls ==> ok(q)
    decreases |rest|
  {
    if rest != [] {
      ScanCallsSatisfy(per, read, rest[1..], ScanFile(per, read, p, rest[0]).progress, ok);
    }
  }

  // ---------------------------------------------------------------------
  // The driver: summarize_many_documents_into_one

  /** How the driver summarizes one readable text: `_summarize_chunks` with
      no instructions. */
  function SummarizeFile(answer: Prompt -> string, enc: Encoder, w: Wording, cfg: Config): string -> FileWork {
    (raw: string) => FileWork(SummarizeText(answer, enc, w, cfg.chunkSize, cfg.chunkOverlap, raw, None),
                              SummaryCalls(answer, cfg.chunkSize, cfg.chunkOverlap, raw, None))
  }

  /** The driver's loop over all the files. */
  function Scan(answer: Prompt -> string, enc: Encoder, w: Wording, cfg: Config, read: Reader, files: seq<(string, bytes)>): Scanned {
    ScanFrom(SummarizeFile(answer, enc, w, cfg), read, files, Start)
  }

  /** The outcome of `summarize_many_documents_into_one`. */
  function SummarizeMany(answer: Prompt -> string, enc: Encoder, w: Wording, cfg: Config, read: Reader,
                         files: seq<(string, bytes)>, instructions: Option<string>): Result<Output> {
    if cfg.apiKey == [] then Failure("OPENAI_API_KEY not set")
    else
      var sc := Scan(answer, enc, w, cfg, read, files);
      if sc.error.Some? then Failure(sc.error.value)
      else if sc.progress.perFile == [] then Failure("No readable inputs.")
      else Success(Finished(answer, enc, w, sc.progress.perFile, sc.progress.tin, sc.progress.tout, instructions))
  }

  /** The end of the run: one combining call over the per-file summaries, its
      reply rendered as the document, its tokens added to the totals. */
  function Finished(answer: Prompt -> string, enc: Encoder, w: Wording, perFile: seq<(string, string)>,
                    tin: nat, tout: nat, instructions: Option<string>): Output {
    var prompt := CombinePrompt(perFile, instructions);
    var final := answer(prompt);
    var tin' := tin + CountTokens(enc, PromptText(w, prompt));
    var tout' := tout + CountTokens(enc, final);
    Output(Render(final), tin', tout', tin' + tout')
  }

  /** Every prompt `summarize_many_documents_into_one` sends, in order. */
  function ManyCalls(answer: Prompt -> string, enc: Encoder, w: Wording, cfg: Config, read: Reader,
                     files: seq<(string, bytes)>, instructions: Option<string>): seq<Prompt> {
    if cfg.apiKey == [] then []
    else
      var sc := Scan(answer, enc, w, cfg, read, files);
      if sc.error.Some? || sc.progress.perFile == [] then sc.progress.calls
      else sc.progress.calls + [CombinePrompt(sc.progress.perFile, instructions)]
  }

  /** One turn of the loop of `summarize_many_documents_into_one`: reads the
      file, skips it when blank, and otherwise summarizes it and adds its
      summary and token counts to the running totals. */
  method SummarizeOneFile(llm: Oracle<Prompt, string>, enc: Encoder, w: Wording, cfg: Config, read: Reader,
                          file: (string, bytes), perFile: seq<(string, string)>, ghost calls: seq<Prompt>,
                          totalIn: nat, totalOut: nat)
    returns (perFile': seq<(string, string)>, ghost sent: seq<Prompt>, totalIn': nat, totalOut': nat, error: Option<string>)
    modifies llm
    ensures ScanFile(SummarizeFile(llm.answer, enc, w, cfg), read, Progress(perFile, calls, totalIn, totalOut), file)
         == Scanned(Progress(perFile', calls + sent, totalIn', totalOut'), error)
    ensures llm.log == old(llm.log) + sent
  {
    perFile', sent, totalIn', totalOut', error := perFile, [], totalIn, totalOut, None;
    assert calls + [] == calls;
    var (fname, data) := file;
    var raw := read(fname, data);
    if raw.Failure? {
      error := Some(raw.error);
      return;
    }
    StripEmptyIffBlank(raw.value);
    if Strip(raw.value) == [] {
      return;
    }
    var s := SummarizeChunks(llm, enc, w, cfg.chunkSize, cfg.chunkOverlap, raw.value, None);
    sent := SummaryCalls(llm.answer, cfg.chunkSize, cfg.chunkOverlap, raw.value, None);
    perFile' := perFile + [(fname, s.text)];
    totalIn', totalOut' := totalIn + s.tin, totalOut + s.tout;
  }

  /** The loop of `summarize_many_documents_into_one` over the files, stopping
      at the first reader that raises. */
  method SummarizeFiles(llm: Oracle<Prompt, string>, enc: Encoder, w: Wording, cfg: Config, read: Reader,
                        files: seq<(string, bytes)>)
    returns (perFile: seq<(string, string)>, totalIn: nat, totalOut: nat, error: Option<string>)
    modifies llm
    ensures var sc := Scan(llm.answer, enc, w, cfg, read, files);
      && llm.log == old(llm.log) + sc.progress.calls
      && error == sc.error
      && (error.None? ==> perFile == sc.progress.perFile && totalIn == sc.progress.tin && totalOut == sc.progress.tout)
  {
    ghost var log0 := llm.log;
    ghost var per := SummarizeFile(llm.answer, enc, w, cfg);
    ghost var outcome := Scan(llm.answer, enc, w, cfg, read, files);
    perFile, totalIn, totalOut, error := [], 0, 0, None;
    ghost var calls := [];
    for i := 0 to |files|
      invariant ScanFrom(per, read, files[i..], Progress(perFile, calls, totalIn, totalOut)) == outcome
      invariant llm.log == log0 + calls
      invariant error == None
    {
      ScanFromAt(per, read, files, i, Progress(perFile, calls, totalIn, totalOut));
      ghost var sent;
      perFile, sent, totalIn, totalOut, error := SummarizeOneFile(llm, enc, w, cfg, read, files[i], perFile, calls, totalIn, totalOut);
      AppendAssoc(log0, calls, sent);
      calls := calls + sent;
      if error.Some? {
        assert outcome == Scanned(Progress(perFile, calls, totalIn, totalOut), error);
        return;
      }
    }
    assert files[|files|..] == [];
  }

  /** The end of `summarize_many_documents_into_one`: the combining call and
      the document written from its reply. */
  method CombineAndRender(llm: Oracle<Prompt, string>, enc: Encoder, w: Wording, perFile: seq<(string, string)>,
                          totalIn: nat, totalOut: nat, instructions: Option<string>)
    returns (out: Output)
    modifies llm
    ensures llm.log == old(llm.log) + [CombinePrompt(perFile, instructions)]
    ensures out == Finished(llm.answer, enc, w, perFile, totalIn, totalOut, instructions)
  {
    var c := CombineAcrossFiles(llm, enc, w, perFile, instructions);
    var document := WriteTextToDocx(c.text);
    out := Output(document, totalIn + c.tin, totalOut + c.tout, totalIn + c.tin + totalOut + c.tout);
  }

  /** `summarize_many_documents_into_one`: the key check, the loop over the
      files, one combining call and the rendered document. */
  method SummarizeManyDocuments(llm: Oracle<Prompt, string>, enc: Encoder, w: Wording, cfg: Config, readers: Readers,
                                files: seq<(string, bytes)>, instructions: Option<string>)
    returns (r: Result<Output>)
    modifies llm
    ensures llm.log == old(llm.log) + ManyCalls(llm.answer, enc, w, cfg, FileReader(readers), files, instructions)
    ensures r == SummarizeMany(llm.answer, enc, w, cfg, FileReader(readers), files, instructions)
  {
    if cfg.apiKey == [] {
      return Failure("OPENAI_API_KEY not set");
    }
    var read := FileReader(readers);
    var perFile, totalIn, totalOut, error := SummarizeFiles(llm, enc, w, cfg, read, files);
    if error.Some? {
      return Failure(error.value);
    }
    if perFile == [] {
      return Failure("No readable inputs.");
    }
    var out := CombineAndRender(llm, enc, w, perFile, totalIn, totalOut, instructions);
    r := Success(out);
  }

  // ---------------------------------------------------------------------
  // Properties of the driver

  /** A missing API key fails before any file is read or any call is made. */
  lemma MissingKeyFailsFirst(answer: Prompt -> string, enc: Encoder, w: Wording, cfg: Config, read: Reader,
                             files: seq<(string, bytes)>, instructions: Option<string>)
    requires cfg.apiKey == []
    ensures SummarizeMany(answer, enc, w, cfg, read, files, instructions) == Failure("OPENAI_API_KEY not set")
    ensures ManyCalls(answer, enc, w, cfg, read, files, instructions) == []
  {
  }

  /** A reader that raises on a file stops the run with its message, provided
      every earlier file was read. */
  lemma FirstReadFailureStops(answer: Prompt -> string, enc: Encoder, w: Wording, cfg: Config, read: Reader,
                              files: seq<(string, bytes)>, instructions: Option<string>, i: nat)
    requires cfg.apiKey != []
    requires i < |files| && !ReadsOk(read, files[i])
    requires forall k :: 0 <= k < i ==> ReadsOk(read, files[k])
    ensures SummarizeMany(answer, enc, w, cfg, read, files, instructions) == Failure(read(files[i].0, files[i].1).error)
  {
    ScanStopsAt(SummarizeFile(answer, enc, w, cfg), read, files, Start, i);
  }

  /** With every reader succeeding and the key set, the run fails with
      "No readable inputs." exactly when every file is blank, and then no
      call at all is made; otherwise it succeeds, the per-file summaries are
      those of the readable files in input order, and the last call combines
      them with the caller's instructions. */
  lemma NoReadableInputs(answer: Prompt -> string, enc: Encoder, w: Wording, cfg: Config, read: Reader,
                         files: seq<(string, bytes)>, instructions: Option<string>)
    requires cfg.apiKey != []
    requires forall k :: 0 <= k < |files| ==> ReadsOk(read, files[k])
    ensures var r, calls := SummarizeMany(answer, enc, w, cfg, read, files, instructions), ManyCalls(answer, enc, w, cfg, read, files, instructions);
      && (r == Failure("No readable inputs.") <==> forall k :: 0 <= k < |files| ==> Blank(read, files[k]))
      && (r == Failure("No readable inputs.") ==> calls == [])
      && (r.Success? <==> Readable(read, files) != [])
      && (r.Success? ==> calls[|calls| - 1] == CombinePrompt(Summaries(SummarizeFile(answer, enc, w, cfg), Readable(read, files)), instructions))
  {
    var per := SummarizeFile(answer, enc, w, cfg);
    ScanFollowsReadable(per, read, files, Start);
    assert Start.perFile + Summaries(per, Readable(read, files)) == Summaries(per, Readable(read, files));
    NoneReadableIffAllBlank(read, files);
    if Readable(read, files) == [] {
      assert FileCalls(per, []) == [];
    }
  }

  /** A prompt sent for a single file: a chunk prompt, or a reduce prompt
      without instructions. */
  predicate PerFilePrompt(p: Prompt) {
    p.ChunkPrompt? || (p.ReducePrompt? && p.reduceInstructions == None)
  }

  /** The caller's instructions reach only the combine call: every prompt
      sent before it is a chunk prompt or a reduce prompt without
      instructions. */
  lemma PerFileCallsHaveNoInstructions(answer: Prompt -> string, enc: Encoder, w: Wording, cfg: Config, read: Reader,
                                       files: seq<(string, bytes)>, instructions: Option<string>)
    ensures var calls := ManyCalls(answer, enc, w, cfg, read, files, instructions);
      forall k :: 0 <= k < |calls| ==>
        PerFilePrompt(calls[k]) || (k == |calls| - 1 && calls[k].CombinePrompt? && calls[k].combineInstructions == instructions)
  {
    var per := SummarizeFile(answer, enc, w, cfg);
    forall raw, p | p in per(raw).calls
      ensures PerFilePrompt(p)
    {
      SummaryCallCount(answer, cfg.chunkSize, cfg.chunkOverlap, raw, None);
      var k :| 0 <= k < |per(raw).calls| && per(raw).calls[k] == p;
    }
    ScanCallsSatisfy(per, read, files, Start, PerFilePrompt);
  }

  /** The per-file summarizer of the driver accounts for its tokens. */
  lemma SummarizeFileAccounts(answer: Prompt -> string, enc: Encoder, w: Wording, cfg: Config)
    ensures Accounts(answer, enc, w, SummarizeFile(answer, enc, w, cfg))
  {
    var per := SummarizeFile(answer, enc, w, cfg);
    forall raw
      ensures per(raw).summary.tin == PromptTokens(enc, w, per(raw).calls)
      ensures per(raw).summary.tout == Tokens(enc, Replies(answer, per(raw).calls))
    {
      SummaryTokens(answer, enc, w, cfg.chunkSize, cfg.chunkOverlap, raw, None);
    }
  }

  /** The combining call adds its prompt's and its reply's tokens to totals
      that already count every earlier prompt and reply. */
  lemma FinishedTokens(answer: Prompt -> string, enc: Encoder, w: Wording, p: Progress, instructions: Option<string>)
    requires Counted(answer, enc, w, p)
    ensures var out, calls := Finished(answer, enc, w, p.perFile, p.tin, p.tout, instructions),
                              p.calls + [CombinePrompt(p.perFile, instructions)];
      && out.inputTokens == PromptTokens(enc, w, calls)
      && out.outputTokens == Tokens(enc, Replies(answer, calls))
      && out.totalTokens == out.inputTokens + out.outputTokens
      && out.document == Render(answer(calls[|calls| - 1]))
  {
    var prompt := CombinePrompt(p.perFile, instructions);
    PromptTokensAppend(enc, w, p.calls, [prompt]);
    assert PromptTokens(enc, w, [prompt]) == CountTokens(enc, PromptText(w, prompt)) by {
      assert [prompt][..0] == [];
    }
    RepliesAppend(answer, p.calls, [prompt]);
    TokensAppend(enc, Replies(answer, p.calls), [answer(prompt)]);
    assert Tokens(enc, [answer(prompt)]) == CountTokens(enc, answer(prompt)) by {
      assert [answer(prompt)][..0] == [];
    }
  }

  /** The reported statistics: `input_tokens` counts every prompt sent,
      across all files and the combine call, `output_tokens` every reply,
      and `total_tokens` is their sum; the document is the final reply
      rendered as paragraphs. */
  lemma TokenStatistics(answer: Prompt -> string, enc: Encoder, w: Wording, cfg: Config, read: Reader,
                        files: seq<(string, bytes)>, instructions: Option<string>)
    requires SummarizeMany(answer, enc, w, cfg, read, files, instructions).Success?
    ensures var out, calls := SummarizeMany(answer, enc, w, cfg, read, files, instructions).value,
                              ManyCalls(answer, enc, w, cfg, read, files, instructions);
      && calls != []
      && out.inputTokens == PromptTokens(enc, w, calls)
      && out.outputTokens == Tokens(enc, Replies(answer, calls))
      && out.totalTokens == out.inputTokens + out.outputTokens
      && out.document == Render(answer(calls[|calls| - 1]))
  {
    SummarizeFileAccounts(answer, enc, w, cfg);
    ScanTokens(answer, enc, w, SummarizeFile(answer, enc, w, cfg), read, files, Start);
    FinishedTokens(answer, enc, w, Scan(answer, enc, w, cfg, read, files).progress, instructions);
  }
}
