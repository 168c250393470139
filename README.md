# Agentic Curie, modelled in Dafny

Agentic Curie is a chat assistant. Users upload documents and ask it to merge them: an agent
calls the `merge_documents` tool, which runs a map/reduce summarization pipeline and saves
the result as a `.docx` file. The app can also score resumes against a job description and
export the scores as CSV. Around the language-model calls sits a layer of deterministic
logic, and this project models that layer:

- the sliding-window chunker;
- the summarization driver, with its call and token accounting;
- the extension-based text extractor;
- the normalisation of the resume scorer's JSON reply, the resume loop and the CSV rows;
- the bold-markup paragraph writer;
- the in-memory file registry;
- the validation chain of the `merge_documents` tool;
- the composition of one chat turn;
- the two text helpers of the chat page.

Every language-model call, and every call into the agent runtime, is an `Oracle`: a
collaborator with a fixed but unknown answer function. It keeps a log of the questions put
to it, so call counts and call order can be stated exactly. Tokenizer, document readers,
disk reads and JSON parsing are parameters.

Modules, one per source file or shared concern:

| module | file |
|---|---|
| `Wrappers` (Option, Result, bytes) | `wrappers.dfy` |
| `Text` (Python `str` operations) | `text.dfy` |
| `Json` (decoded JSON and Python `int()` / `str()`) | `json.dfy` |
| `Collaborators` (the `Oracle` class) | `collaborators.dfy` |
| `TextExtractor` (`_read_any_text` / `read_any_text`) | `text_extractor.dfy` |
| `Chunker` (`_chunk_text`) | `chunker.dfy` |
| `Summarizer` (the rest of `summarizer.py`) | `summarizer.dfy` |
| `DocxWriter` | `docx_writer.dfy` |
| `FileStore` | `filestore.dfy` |
| `ResumeMatcher` | `resume_matcher.dfy` |
| `Tools` | `tools.dfy` |
| `Chat` | `chat.dfy` |
| `AppUi` (`static/app.js`) | `app_ui.dfy` |

The loops of the source are methods with loop invariants. Each is proved equal to a
specification function, and the properties are lemmas about those functions. Four things
change state in place, and each is a class with `modifies` clauses: the file registry
`_REG` (`FileStore.Store`), the session store `SESSION_STORE` (`Chat.Sessions`), the
python-docx document that the paragraph writer fills (`DocxWriter.Document`), and each
`Oracle` (`Collaborators.Oracle`), whose log of questions grows by one with every call.

## Model

| member | source | states |
|---|---|---|
| Text.Strip | app/services/summarizer.py:133 | `s.strip()`: the text with its leading and trailing Python whitespace removed, `lstrip` then `rstrip` |
| Text.Split | app/services/docx_writer.py:10 | `s.split(sep)` for a non-empty separator: the pieces between the non-overlapping occurrences of `sep`, found from left to right; always at least one piece |
| Text.Join | app/services/summarizer.py:74 | `sep.join(parts)`: the parts with `sep` between each two neighbours; "" for no parts |
| Text.Concat | app/services/summarizer.py:91 | `"".join(parts)`: the parts one after the other |
| Text.IntToString | static/app.js:43 | the decimal numeral of an integer, with "-" in front when it is negative, as a JavaScript template literal prints a count |
| Text.ParseInt | app/services/resume_matcher.py:81 | `int(s)` on a string: surrounding whitespace is ignored, then one optional sign and a well-formed digit group of at most 4300 digits; `None` (the `ValueError`) for anything else |
| Text.StripEmptyIffBlank | app/services/summarizer.py:133 | `not s.strip()` holds exactly when every character of `s` is Python whitespace |
| Text.LStripSuffix | app/services/summarizer.py:133 | `lstrip()` is a suffix of the input that is empty or starts with non-whitespace, and everything it drops is whitespace |
| Text.RStripPrefix | app/services/summarizer.py:133 | `rstrip()` is a prefix that is empty or ends with non-whitespace, and everything it drops is whitespace |
| Text.StripNoSpace | app/services/resume_matcher.py:103 | a text without whitespace is its own strip |
| Text.Lower | app/services/resume_matcher.py:23 | lower-casing keeps the length and maps every character by itself |
| Text.LastIndexOf | app/services/resume_matcher.py:23 | finds the last occurrence of a character, or reports that there is none |
| Text.SplitCount | app/services/docx_writer.py:10 | splitting gives one more piece than there are non-overlapping separators |
| Text.JoinSplit | app/services/docx_writer.py:13 | joining the pieces of a split with the same separator gives the text back |
| Text.ConcatAppend | app/services/summarizer.py:91 | `"".join` of two lists in a row is the concatenation of the two joins |
| Text.NatToString | static/app.js:43 | a printed count is a non-empty string of decimal digits |
| Text.DigitsValueOfNatToString | static/app.js:43 | reading a printed natural number back gives the number |
| Text.RemoveUnderscores | app/services/resume_matcher.py:81 | dropping the underscores from a digit group that `int()` accepts leaves only digits |
| Text.ParseDigits | app/services/resume_matcher.py:81 | `int()` accepts a digit group only when it is well formed (digits, single underscores between them) and has at most 4300 digits, CPython's default limit |
| Text.PyIntToString | app/services/resume_matcher.py:84 | `str()` of an integer, when it does not raise, is the integer's decimal numeral |
| Text.ParseIntOfIntToString | app/services/resume_matcher.py:81 | `int(str(i)) == i` whenever `str(i)` succeeds; on an integer too long to print, `int()` of its numeral raises as well |
| Text.ParseIntOfDigits | app/services/resume_matcher.py:81 | `int()` of a plain digit string is the number it denotes when it has at most 4300 digits, and raises when it has more |
| Json.PyInt | app/services/resume_matcher.py:81 | `int(v)`: an int is itself, a bool is 0 or 1, a float is truncated toward zero, a string is read as `int()` reads it; null, lists, dicts and the non-finite literals raise |
| Json.PyStr | app/services/resume_matcher.py:84 | `str(v)`: a string is itself, an int is its numeral (raising beyond 4300 digits), a bool is "True" or "False", null is "None", and floats, lists and dicts are their `repr` |
| Json.TruncateReal | app/services/resume_matcher.py:81 | `int()` of a float truncates toward zero, for both signs |
| Json.PyIntOfPrintedInt | app/services/resume_matcher.py:81 | `int()` of an integer is the integer; `int()` of `str(n)` is `n` whenever `str(n)` succeeds, and `str(n)` raises exactly when `n` has more than 4300 digits |
| Collaborators.Oracle.Ask | app/services/summarizer.py:51-57 | one call to a model: the answer is the collaborator's answer to the question, and the question is appended to the log |
| TextExtractor.ReadAnyText | app/services/resume_matcher.py:22-32 | `read_any_text`, and `_read_any_text` of app/services/summarizer.py, which does the same: by the lower-cased extension, "pdf" goes to the PDF reader, "docx" to the DOCX reader (which may raise), and anything else to UTF-8 decoding |
| TextExtractor.Extension | app/services/summarizer.py:111 | the extension has no dot; it is empty when the name has no dot, otherwise it is the lower-cased text after the last dot |
| TextExtractor.FileReader | app/services/resume_matcher.py:22-32 | the reader the loops use gives `read_any_text`'s result for every name and byte string |
| TextExtractor.ExtensionEndsName | app/services/summarizer.py:111 | a name with a dot ends, case-insensitively, with "." followed by its extension |
| TextExtractor.ExtensionOfEnding | app/services/summarizer.py:111 | a name whose lower-cased form ends with "." followed by a dot-free `e` has extension `e` |
| TextExtractor.ExtensionIsSuffix | app/services/resume_matcher.py:23 | for a non-empty dot-free `e`, the extension is `e` exactly when the lower-cased name ends with "." + `e` |
| TextExtractor.ReadAnyTextDispatch | app/services/summarizer.py:110-119 | ".pdf" in any letter case goes to the PDF reader, ".docx" to the DOCX reader, everything else to UTF-8 decoding |
| Chunker.PySlice | app/services/summarizer.py:47 | `text[i:j]` with both bounds normalised as Python does |
| Chunker.Windows | app/services/summarizer.py:44-48 | the windows the `while` loop takes from position `i`: `text[i:i+size]`, then the windows from `i + step`, until `i` reaches the end of the text |
| Chunker.Chunks | app/services/summarizer.py:41-49 | `_chunk_text`: `[text]` when the text fits in `size`, otherwise the windows from 0 with step `max(1, size - overlap)` |
| Chunker.ClampIndex | app/services/summarizer.py:47 | a Python slice bound is clamped into `0..len` and left alone when already inside |
| Chunker.Step | app/services/summarizer.py:45 | the step is at least 1, and it is `size - overlap` whenever that is at least 1 |
| Chunker.CeilDivBounds | app/services/summarizer.py:46-48 | `ceil(n/step)` windows reach the end of the text, and the last of them starts inside it |
| Chunker.CeilDivUnique | app/services/summarizer.py:46-48 | no other window count reaches the end with its last window starting inside the text |
| Chunker.StartInside | app/services/summarizer.py:46 | every window start below the count lies inside the text |
| Chunker.ChunkText | app/services/summarizer.py:41-49 | the `while` loop returns the chunks of the specification, for any integer size and overlap |
| Chunker.WindowRange | app/services/summarizer.py:46-48 | the windows from start `j` to start `n`, each at its own start |
| Chunker.WindowsFrom | app/services/summarizer.py:46-48 | the loop's windows from the `j`-th start on, in closed form |
| Chunker.ChunksClosedForm | app/services/summarizer.py:44-49 | a text longer than the window gives `ceil(len/step)` chunks, chunk `k` being `text[k*step : k*step+size]` |
| Chunker.ShortTextOneChunk | app/services/summarizer.py:42-43 | a text that fits gives exactly `[text]`, which is `[""]` for the empty text |
| Chunker.ChunkAt | app/services/summarizer.py:44-49 | chunk `k` starts inside the text, is `text[k*step : min(k*step+size, len)]`, and holds 1 to `size` characters |
| Chunker.LongTextChunks | app/services/summarizer.py:44-49 | the longer text has `ceil(len/step)` chunks, each non-empty, at most `size` long and at its closed-form position |
| Chunker.LastChunkEndsText | app/services/summarizer.py:46-48 | with a non-negative overlap, the last chunk starts before the end of the text and runs to the end |
| Chunker.HeadAt | app/services/summarizer.py:45-48 | the head of chunk `k` is the `k`-th stretch of `step` characters |
| Chunker.HeadsReconstruct | app/services/summarizer.py:45-48 | the first `step` characters of each chunk, concatenated, give the text back |
| Chunker.NoOverlapConcat | app/services/summarizer.py:45-48 | with a window of at least one character and no overlap, the chunks concatenated give the text back, for every text |
| Summarizer.CountTokens | app/services/summarizer.py:24-31 | `_count_tokens`: the tokenizer's count, or without `tiktoken` `max(1, len(text) // 4)` |
| Summarizer.PromptText | app/services/summarizer.py:67-104 | the text of each prompt: the chunk prompt, the reduce prompt over the replies joined by blank lines, and the combine prompt, the last two in their form with instructions exactly when the instructions are truthy |
| Summarizer.CombinedText | app/services/summarizer.py:91 | the per-file entries "Summary of {n}:\n{s}\n\n" one after the other, in input order |
| Summarizer.SummaryCalls | app/services/summarizer.py:61-85 | the prompts `_summarize_chunks` sends: one per chunk in order, then the reduce prompt over the replies to them |
| Summarizer.SummarizeText | app/services/summarizer.py:59-87 | the result of `_summarize_chunks`: the reply to the reduce prompt, with `tin` the counts of every prompt and `tout` those of every reply |
| Summarizer.ScanFile | app/services/summarizer.py:131-138 | one turn of the driver loop: a reader that raises stops the run, a blank text is skipped, any other is summarized and its summary and counts appended |
| Summarizer.ScanFrom | app/services/summarizer.py:131-138 | the driver loop over the files still to do, turn after turn, stopping at the first reader that raises |
| Summarizer.Finished | app/services/summarizer.py:143-147 | the end of a run: one combine prompt over the per-file summaries, its reply rendered as the document, its counts added, and the total the sum of input and output |
| Summarizer.SummarizeMany | app/services/summarizer.py:121-147 | the outcome of `summarize_many_documents_into_one`: "OPENAI_API_KEY not set" without a key, then the first reader's exception, then "No readable inputs." when every text is blank, otherwise the finished output |
| Summarizer.ManyCalls | app/services/summarizer.py:121-147 | every prompt the run sends, in order: none without a key, the per-file prompts of the loop, then the combine prompt when the run gets that far |
| Summarizer.CountTokensFallback | app/services/summarizer.py:25-26 | without a tokenizer every text counts at least one token; the count is `len // 4` from 4 characters on and 1 below |
| Summarizer.TokensAppend | app/services/summarizer.py:68-70 | adding counts over a list in two parts gives the count of the whole list |
| Summarizer.EmptyInstructionsAreNone | app/services/summarizer.py:75 | empty instructions are falsy: the reduce and combine prompts come out as if there were none |
| Summarizer.CombinedTextAppend | app/services/summarizer.py:91 | the combined text is the in-order concatenation of "Summary of {n}:\n{s}\n\n" |
| Summarizer.PromptTokensAppend | app/services/summarizer.py:84 | adding prompt counts in two parts gives the count of the whole |
| Summarizer.Replies | app/services/summarizer.py:69 | one reply per prompt, the `k`-th answering the `k`-th prompt |
| Summarizer.RepliesAppend | app/services/summarizer.py:69-71 | the replies to two lists of prompts in a row are the two lists of replies in a row |
| Summarizer.ChunkPrompts | app/services/summarizer.py:66-67 | one chunk prompt per chunk, in chunk order |
| Summarizer.SummarizeEach | app/services/summarizer.py:65-71 | the map loop asks the chunk prompts in order; it collects their replies; `tin` counts the prompts and `tout` the replies |
| Summarizer.SummarizeChunks | app/services/summarizer.py:59-87 | `_summarize_chunks` sends exactly the specified prompts and returns the reply to the last one, with the specified counts |
| Summarizer.SummaryCallCount | app/services/summarizer.py:66-85 | one call per chunk in chunk order, then exactly one reduce call, built from the replies and the instructions |
| Summarizer.SummaryTokens | app/services/summarizer.py:62-87 | `tin` is the sum of the counts of every prompt sent, `tout` that of every reply; the summary is the last reply |
| Summarizer.CallCountByLength | app/services/summarizer.py:42-48 | a text that fits takes 2 calls; a longer one takes `ceil(len/step) + 1` |
| Summarizer.CombineAcrossFiles | app/services/summarizer.py:89-108 | one call with the combine prompt; the result is its reply, with the prompt's and the reply's token counts |
| Summarizer.ScanFromAt | app/services/summarizer.py:131-138 | one turn of the driver loop at file `i` |
| Summarizer.NoneReadableIffAllBlank | app/services/summarizer.py:133-141 | no file is kept exactly when every file's text is blank after `strip()` |
| Summarizer.Summaries | app/services/summarizer.py:136-137 | one summary per kept file, named after the file, in input order |
| Summarizer.ScanFollowsReadable | app/services/summarizer.py:131-138 | when every read succeeds, the summaries grow by one per non-blank file, in input order; the prompts sent are those files' prompts in order |
| Summarizer.ScanStopsAt | app/services/summarizer.py:131-132 | a reader that raises on file `i`, after files that all read, stops the loop with its error |
| Summarizer.ScanTokens | app/services/summarizer.py:136-138 | the running totals remain the counts of every prompt sent and every reply received |
| Summarizer.ScanCallsSatisfy | app/services/summarizer.py:131-138 | the loop sends only prompts that a per-file summarizer can send |
| Summarizer.SummarizeOneFile | app/services/summarizer.py:132-138 | one turn: read the file, skip a blank text, otherwise summarize and add to the totals |
| Summarizer.SummarizeFiles | app/services/summarizer.py:131-138 | the loop over the files: the prompts sent, the error that stopped it, and the per-file summaries and totals |
| Summarizer.CombineAndRender | app/services/summarizer.py:143-147 | one combine call; the document is the rendered reply, with the token statistics |
| Summarizer.SummarizeManyDocuments | app/services/summarizer.py:121-147 | `summarize_many_documents_into_one` sends exactly the specified prompts and returns the specified outcome |
| Summarizer.MissingKeyFailsFirst | app/services/summarizer.py:125-126 | a missing API key raises "OPENAI_API_KEY not set" before any read and without any call |
| Summarizer.FirstReadFailureStops | app/services/summarizer.py:131-132 | the first file whose reader raises ends the run with that exception |
| Summarizer.NoReadableInputs | app/services/summarizer.py:128-143 | the run fails with "No readable inputs." exactly when every text is blank, and then makes no call at all; otherwise the summaries follow input order and the last call combines them |
| Summarizer.PerFileCallsHaveNoInstructions | app/services/summarizer.py:136 | the per-file calls never carry the caller's instructions; only the final combine call does |
| Summarizer.SummarizeFileAccounts | app/services/summarizer.py:136 | the per-file summarizer's counts are those of the prompts it sent and the replies it got |
| Summarizer.FinishedTokens | app/services/summarizer.py:143-147 | the combine call adds its prompt's and its reply's counts, and `total_tokens` is input plus output |
| Summarizer.TokenStatistics | app/services/summarizer.py:121-147 | on success `input_tokens` counts every prompt sent, `output_tokens` every reply, and `total_tokens` is their sum; the document is the rendered final reply |
| DocxWriter.RenderBlock | app/services/docx_writer.py:11-17 | the paragraph of one block: one run per "**"-separated segment, bold on the odd ones, 11 pt |
| DocxWriter.Render | app/services/docx_writer.py:10-17 | one paragraph per "\n\n"-separated block of the text, in order |
| DocxWriter.Document.AddParagraph | app/services/docx_writer.py:11 | appends one empty paragraph |
| DocxWriter.Document.AddRun | app/services/docx_writer.py:14-16 | appends a run with the text, bold flag and size to the last paragraph and changes nothing else |
| DocxWriter.WriteMarkdownishText | app/services/docx_writer.py:6-18 | the nested loops append exactly the rendered paragraphs of the text to the document |
| DocxWriter.WriteTextToDocx | app/services/docx_writer.py:20-25 | a fresh document ends up holding exactly the rendered text |
| DocxWriter.ParagraphCount | app/services/docx_writer.py:10-11 | one paragraph per "\n\n" occurrence plus one, so the empty text gives one paragraph |
| DocxWriter.RunsAlternate | app/services/docx_writer.py:12-17 | in every paragraph: one run per "**" plus one; run `i` is bold exactly when `i` is odd; the first run is not bold; every run is 11 pt |
| DocxWriter.BlockRoundTrip | app/services/docx_writer.py:13-14 | joining a paragraph's run texts with "**" gives the block back |
| DocxWriter.RenderRoundTrip | app/services/docx_writer.py:10-14 | joining the paragraphs' texts back with "**" and "\n\n" gives the input text |
| FileStore.Name | app/services/filestore.py:14 | the last component of a `/`-separated path, empty and "." components dropped, as `Path(filename)` takes it |
| FileStore.JoinPath | app/services/filestore.py:15 | `base / name` for a relative name: one `/` between them |
| FileStore.StoredPath | app/services/filestore.py:14-15 | `_BASE / f"{fid}{ext}"`, with `ext` the suffix of the file name |
| FileStore.Lookup | app/services/filestore.py:25-26 | `_REG.get(file_id)` on a registry: the record, or `None` for an unknown id |
| FileStore.PathOf | app/services/filestore.py:28-30 | the path of a looked-up record, or `None` when there is no record |
| FileStore.Suffix | app/services/filestore.py:14 | a suffix is empty or a dot followed by at least one character, ends the name and is shorter than it |
| FileStore.SuffixAfterLastDot | app/services/filestore.py:14 | the suffix runs from the last dot, unless that dot is the first or the last character |
| FileStore.NoDotNoSuffix | app/services/filestore.py:14 | a name without a dot has no suffix |
| FileStore.SplitAround | app/services/filestore.py:14 | splitting around one single-character separator splits the two sides |
| FileStore.SplitWithout | app/services/filestore.py:14 | a text without the separator splits into itself |
| FileStore.StoredPathKeepsSuffix | app/services/filestore.py:14-15 | the stored file's name is the id followed by the original name's suffix, and keeps that suffix |
| FileStore.SuffixOfName | app/services/filestore.py:14 | a suffix holds no slash |
| FileStore.NameHasNoSlash | app/services/filestore.py:14 | the last path component holds no slash |
| FileStore.LastComponentIsPart | app/services/filestore.py:14 | the last component is one of the parts or empty |
| FileStore.SplitPartsHaveNoSep | app/services/filestore.py:14 | no part of a split holds the separator |
| FileStore.LeafSuffix | app/services/filestore.py:15 | the suffix of `fid + ext` is `ext` for a dot-free id |
| FileStore.Store.constructor | app/services/filestore.py:10 | the registry starts empty |
| FileStore.Store.SaveFile | app/services/filestore.py:12-23 | returns the id; registers `{id, path, filename, content_type}` under it; keeps every other entry; grows by one for a fresh id |
| FileStore.Store.GetMeta | app/services/filestore.py:25-26 | the stored record, present exactly when the id is registered |
| FileStore.Store.GetPath | app/services/filestore.py:28-30 | the record's path, absent exactly when `get_meta` is `None` |
| FileStore.SavedIsFound | app/services/filestore.py:17-30 | a record saved under a fresh id is found again with its path, and every other id answers as before |
| ResumeMatcher.ChatJson | app/services/resume_matcher.py:46-52 | the parsed reply, or `{"raw": txt}` when `json.loads` raises |
| ResumeMatcher.Normalised | app/services/resume_matcher.py:73-89 | the record `score_single_resume` returns: the score is `int(data["score"])` or 0; the `try` block fills the fields in order until an assignment raises, so a list field is copied when it is a list and no earlier assignment raised, and the summary is `str` of the reply's unless an assignment raised; raw is None, or the whole reply when no score was set |
| ResumeMatcher.Unreadable | app/services/resume_matcher.py:104 | the fixed record of a resume whose text is blank |
| ResumeMatcher.RecordFor | app/services/resume_matcher.py:103-108 | the record of one resume read as `text`: the unreadable record for a blank text, otherwise the scored record with "name" set to the file name |
| ResumeMatcher.MatchFrom | app/services/resume_matcher.py:101-108 | the resume loop over the resumes still to do: one record per resume and a question per non-blank text, stopping at the first reader exception |
| ResumeMatcher.Match | app/services/resume_matcher.py:92-109 | the outcome of `match_resumes_to_jd`: the loop from the start, with `read_any_text` as reader |
| ResumeMatcher.CsvField | app/services/resume_matcher.py:121 | the text `writerow` writes for a field: "" for None, `str` of anything else, and `None` where `str` raises |
| ResumeMatcher.JoinBar | app/services/resume_matcher.py:119-120 | `" \| ".join(v)`: a list of strings is joined; a string gives its characters joined; a dict gives its keys in the order the `keysOf` parameter lists them (insertion order in the program); anything else, or a list holding a non-string, raises `TypeError` |
| ResumeMatcher.Row | app/services/resume_matcher.py:119-121 | the row of one item: the two joins, then name, score, strengths, gaps and summary with their defaults; the first join that raises, or a `str` that raises, fails the row |
| ResumeMatcher.Rows | app/services/resume_matcher.py:117-121 | the header and then the row of each item in order, failing at the first row that raises |
| ResumeMatcher.TryBlock | app/services/resume_matcher.py:73-86 | after the `try` block the record has its five keys and raw None; the score is `int(data["score"])` or None; lists are copied only when the score did not raise; the summary is `str` of the reply's summary unless something raised first or `str` raised |
| ResumeMatcher.Normalise | app/services/resume_matcher.py:73-89 | the assignments of the `try` block, in order and stopping at the first that raises, then the fallback for a missing score, give the normalised record |
| ResumeMatcher.ScoreSingleResume | app/services/resume_matcher.py:54-90 | one model call with the JD and the resume, then the normalised record of the parsed reply |
| ResumeMatcher.NormalisedShape | app/services/resume_matcher.py:73-89 | the record always has the keys score, strengths, gaps, summary and raw, with an integer score, lists and a string |
| ResumeMatcher.ScoreRule | app/services/resume_matcher.py:81-89 | when `int(data["score"])` succeeds its value is the score and raw stays None; otherwise the score is 0 and raw is the whole reply |
| ResumeMatcher.AbortKeepsDefaults | app/services/resume_matcher.py:80-86 | when `int` raises on the score, strengths, gaps and summary keep `[]`, `[]` and `""` whatever the reply holds |
| ResumeMatcher.OverlongScoreAborts | app/services/resume_matcher.py:80-89 | a score string of more than 4300 digits makes `int` raise: score 0, the whole reply under raw, and the reply's strengths dropped |
| ResumeMatcher.UnparseableReply | app/services/resume_matcher.py:46-52 | an unparseable reply becomes `{"raw": txt}`; it is scored 0, kept under raw and gets the default fields |
| ResumeMatcher.ScoreNotClamped | app/services/resume_matcher.py:81 | a score of 150 stays 150, and " -7 " becomes -7: nothing clamps the score to 0..100 |
| ResumeMatcher.MatchFromAt | app/services/resume_matcher.py:101-108 | one turn of the resume loop at resume `i` |
| ResumeMatcher.MatchOne | app/services/resume_matcher.py:102-108 | a blank text gives the unreadable record without a call; otherwise one call scores it, and the record is named after the file |
| ResumeMatcher.MatchAll | app/services/resume_matcher.py:100-109 | the loop asks exactly the specified questions, and returns the specified records or the reader's exception |
| ResumeMatcher.MatchResumesToJd | app/services/resume_matcher.py:92-109 | `match_resumes_to_jd` with the text extractor as reader: the questions asked and the results |
| ResumeMatcher.TextsOf | app/services/resume_matcher.py:102 | the text of each resume, in order |
| ResumeMatcher.MatchFromAllRead | app/services/resume_matcher.py:100-109 | with every resume read, there is one record per resume in order, and one question per non-blank text |
| ResumeMatcher.RecordNamed | app/services/resume_matcher.py:104-107 | every record carries the resume's file name |
| ResumeMatcher.MatchAllRead | app/services/resume_matcher.py:100-109 | one result per resume, in input order, each named after its file; a blank resume gets the unreadable record without a call; any other gets its own scored record |
| ResumeMatcher.QuestionsOfTexts | app/services/resume_matcher.py:103-106 | every question carries the JD and a non-blank resume text; there is one per text when none is blank and none when all are |
| ResumeMatcher.MatchFromStops | app/services/resume_matcher.py:101-102 | a reader that raises on resume `i`, after resumes that all read, ends the loop with its exception |
| ResumeMatcher.FirstReadFailureEndsMatch | app/services/resume_matcher.py:101-102 | the first resume the extractor raises on ends `match_resumes_to_jd` with that exception |
| ResumeMatcher.UnreadableRecord | app/services/resume_matcher.py:104 | the unreadable record is `{name, score 0, strengths [], gaps ["Unreadable"], summary "Could not extract text."}` and nothing else |
| ResumeMatcher.StringsOfStrs | app/services/resume_matcher.py:119-120 | a list of JSON strings gives back exactly its strings |
| ResumeMatcher.StringsRejectsNonString | app/services/resume_matcher.py:119-120 | a list holding a non-string cannot be joined |
| ResumeMatcher.ResultsToCsvRows | app/services/resume_matcher.py:111-122 | the writing loop produces the specified rows, or the first row's exception |
| ResumeMatcher.RowsStopAtFailure | app/services/resume_matcher.py:118-121 | once a row raises, the export fails with that exception whatever follows |
| ResumeMatcher.RowsShape | app/services/resume_matcher.py:117-121 | the header first, then one row per item in order; the export succeeds exactly when every row can be written |
| ResumeMatcher.RowJoinsStrings | app/services/resume_matcher.py:119-121 | strengths and gaps given as lists of strings are written joined with " \| ", between the name and score and the summary; the row is written exactly when `str` succeeds on those three |
| ResumeMatcher.RowDefaults | app/services/resume_matcher.py:119-121 | five fields; a missing name or summary is written empty, a missing score as 0, and missing strengths or gaps as empty |
| ResumeMatcher.UnreadableRow | app/services/resume_matcher.py:104-121 | the unreadable record is written as `[name, "0", "", "Unreadable", "Could not extract text."]` |
| ResumeMatcher.NumericStrengthBreaksCsv | app/services/resume_matcher.py:82-119 | a reply whose strengths list holds a number is normalised unchanged, and writing its row raises |
| Tools.DownloadUrl | app/tools.py:101 | the download link `/api/files/{id}/download` |
| Tools.Message | app/tools.py:47-102 | the message the tool returns for each way a call can end |
| Tools.LoadFrom | app/tools.py:51-62 | the input loop: an id without record or path ends it with "File ID not found", a read that raises with "Error reading file"; otherwise it gathers (filename, bytes) in id order |
| Tools.TemplateStep | app/tools.py:64-78 | no template when the id is None or empty; otherwise "Template ID not found", "Template must be a .docx file." for a name not ending in ".docx" in any case, a read or extraction error, or the instructions |
| Tools.Checks | app/tools.py:46-78 | the checks in order: fewer than two ids, then the input loop, then the template step; the reply they end with, or the pipeline call with the inputs and the instructions |
| Tools.Merge | app/tools.py:45-102 | the reply of `merge_documents` and the pipeline call it makes: the checks' reply without a call, "Summarization failed: {e}" when the pipeline raises, otherwise generated under the drawn id |
| Tools.OutputMeta | app/tools.py:92-96 | the record of the generated document: the drawn id, its stored path, the fixed output name and the DOCX content type |
| Tools.SavedReg | app/tools.py:89-96 | the registry after a call: the generated document's record added exactly when the document was generated |
| Tools.LoadFromAt | app/tools.py:52-62 | one turn of the input loop at id `i` |
| Tools.LoadInputs | app/tools.py:51-62 | the input loop returns the specified inputs, or the reply it ended with |
| Tools.ReadTemplate | app/tools.py:64-78 | the template checks give the specified instructions or reply |
| Tools.Check | app/tools.py:47-78 | the checks, in order, end the call or give the pipeline call; a check never gives the success or "Summarization failed" reply |
| Tools.MergeReply | app/tools.py:45-102 | the reply; the pipeline is called at most once; the registry gains the output record only when the document was generated |
| Tools.SaveOutput | app/tools.py:90-96 | saves under the drawn id with the fixed name and the DOCX content type |
| Tools.MergeDocuments | app/tools.py:30-102 | the message for the reply, the pipeline calls and the new registry |
| Tools.InputsOf | app/tools.py:52-59 | the name and bytes of each id's file, in id order |
| Tools.LoadFromAllLoad | app/tools.py:51-62 | when every id resolves and reads, the loop gathers every file in id order |
| Tools.LoadFromNotAllLoad | app/tools.py:55-62 | when some id does not, the loop ends with a "not found" or a read-error reply |
| Tools.LoadFromResult | app/tools.py:51-62 | the loop gathers every file exactly when every id loads; otherwise it ends with a file reply |
| Tools.LoadFromStopsAt | app/tools.py:52-62 | the first id that does not resolve, or whose file cannot be read, ends the loop with the reply naming it |
| Tools.TooFewIdsFirst | app/tools.py:47-48 | no list or fewer than two ids gives "Please provide at least two file_ids." and no pipeline call; nothing else gives that reply |
| Tools.FirstBadIdStops | app/tools.py:52-62 | the first bad id ends the call with its reply, before any template check and without a pipeline call |
| Tools.TemplateAfterIds | app/tools.py:65-72 | the template is looked at only when `template_id` is truthy and all ids have loaded; without a template there are no instructions |
| Tools.TemplateChecks | app/tools.py:66-72 | an unknown template gives "Template ID not found"; a name not ending in ".docx" in any letter case gives "Template must be a .docx file." |
| Tools.PipelineInputs | app/tools.py:51-84 | the pipeline gets the files' names and bytes in id order, with instructions exactly when a template was given |
| Tools.GeneratedIffPipelineSucceeds | app/tools.py:81-102 | the document is generated exactly when the pipeline succeeds; a pipeline error gives "Summarization failed: {e}"; only success saves exactly one record, the output |
| Tools.GeneratedMessageLinks | app/tools.py:101-102 | the success message ends with "/api/files/{out_id}/download" |
| Chat.ContentTypeText | app/api/routes/chat.py:50 | the content type as the f-string prints it: the record always has the key, so a missing type prints as "None" |
| Chat.Line | app/api/routes/chat.py:50 | the note line `"{fid} :: {filename} ({content_type})"` of one attachment |
| Chat.NoteLines | app/api/routes/chat.py:46-50 | one line per attachment id that has a record, in order |
| Chat.SysNote | app/api/routes/chat.py:44-52 | the system note: "" without attachments or when none has a record, otherwise the header and the lines joined by newlines |
| Chat.Compose | app/api/routes/chat.py:55-61 | the input items: the prior conversation when it is non-empty, a system item when the note is non-empty, then the user message |
| Chat.TurnItems | app/api/routes/chat.py:40-61 | the items of a turn: the session's stored conversation, the system note of the attachments and the message, composed |
| Chat.EntryOf | app/api/routes/chat.py:71-82 | the trace entry of one new item: a call entry with "unknown" and "{}" defaults, an output entry with "" default, nothing for any other item |
| Chat.TraceOf | app/api/routes/chat.py:69-82 | the entries of the new items, in order |
| Chat.SessionId | app/api/routes/chat.py:40 | the given session id when it is non-empty, "default" otherwise |
| Chat.BuildLines | app/api/routes/chat.py:46-50 | the attachment loop gives one line per id with a record |
| Chat.BuildSysNote | app/api/routes/chat.py:44-52 | the system note built from the registry is the specified one |
| Chat.NoteLinesAppend | app/api/routes/chat.py:47-50 | the lines of attachments in a row are the lines of each part, in order |
| Chat.NoteLinesOne | app/api/routes/chat.py:48-50 | one attachment gives `"{fid} :: {filename} ({content_type})"` when it has a record and nothing otherwise |
| Chat.NoteLinesFilter | app/api/routes/chat.py:46-51 | no line exactly when no attachment has a record; one line per attachment, for its own id, when all have |
| Chat.SysNoteEmpty | app/api/routes/chat.py:44-52 | the note is empty exactly when there are no attachments or none resolves; otherwise it is the header and the lines joined by newlines |
| Chat.ComposeShape | app/api/routes/chat.py:55-61 | the prior items, a system item only for a non-empty note, the user message always last; an empty prior is the same as none |
| Chat.ExtractTrace | app/api/routes/chat.py:69-82 | the trace loop gives the specified trace |
| Chat.TraceAppend | app/api/routes/chat.py:70-82 | the trace of items in a row is the trace of each part, in order |
| Chat.TraceOne | app/api/routes/chat.py:71-82 | a tool call gives a call entry, "unknown" and "{}" standing for a missing name and arguments; an output gives an output entry; anything else gives nothing |
| Chat.TraceLength | app/api/routes/chat.py:70-82 | one entry per tool item, no more |
| Chat.Sessions.constructor | app/api/routes/chat.py:27 | the session store starts empty |
| Chat.Sessions.Get | app/api/routes/chat.py:41 | a session's stored items, present exactly when it has an entry |
| Chat.Sessions.Put | app/api/routes/chat.py:66 | replaces this session's entry; keeps every other session |
| Chat.ChatTurn | app/api/routes/chat.py:39-84 | one run with the composed items; this session's entry becomes the run's input list and the others are kept; the reply is the final output and the trace of the new items |
| AppUi.DescribeFiles | static/app.js:39-44 | `describeFiles`: "" for no list or an empty one, the name for one file, "{first} + 1 more" for two, "{first} + {n-1} more" for more |
| AppUi.EscapeChar | static/app.js:16 | the replacement of one character: `&amp;`, `&lt;`, `&gt;`, `&quot;` and `&#39;` for the five special characters, the character itself otherwise |
| AppUi.EscapeHtml | static/app.js:15-17 | `escapeHtml`: every character replaced by its escape, in order |
| AppUi.DescribeFilesCases | static/app.js:39-44 | no list or an empty one gives "", one file gives its name, and n ≥ 2 files give "{first} + {n-1} more" |
| AppUi.DescribeFilesCount | static/app.js:42-43 | with two or more files the label starts with the first name, and its count reads back as the number of other files |
| AppUi.EscapeAppend | static/app.js:16 | escaping works character by character: the escape of a concatenation is the concatenation of the escapes |
| AppUi.EscapeCharSafe | static/app.js:16 | no replacement is a raw `<`, `>`, `"` or `'` |
| AppUi.EscapeHtmlSafe | static/app.js:15-17 | the escaped text holds no raw `<`, `>`, `"` or `'` |
| AppUi.EscapeHtmlPlain | static/app.js:15-17 | a text without `& < > " '` is left unchanged |
| AppUi.UnescapeChar | static/app.js:16 | decoding undoes the replacement of any one character |
| AppUi.UnescapeEscape | static/app.js:15-17 | decoding the five entities gives the original text back, so no two texts escape alike |
| AppUi.EscapeHtmlLength | static/app.js:15-17 | escaping never shortens a text, and it lengthens it exactly when the text holds one of `& < > " '` |

## Left out

- Language-model calls (`_chat_once`, the request part of `_chat_json`) are `Oracle`s with an unknown answer function. That answer stands for the model's reply after `_chat_once` has stripped it. Model name and temperature are not modelled.
- `Collaborators.Oracle.Ask`: always returns an answer. The model client can also raise (network, rate-limit or API errors, at app/services/summarizer.py:52-57 and app/services/resume_matcher.py:39-45), and so can `Runner.run` (app/api/routes/chat.py:63). Such an exception propagates and is not modelled. An aborted `summarize_many_documents_into_one` or `match_resumes_to_jd`, and a chat turn that leaves `SESSION_STORE` unchanged because the run raised, are therefore not covered. `Summarizer.SummarizeManyDocuments`, `ResumeMatcher.MatchAllRead` and `Chat.ChatTurn` hold only for runs in which every call returns.
- `Runner.run` is an `Oracle` from input items to a run result. Items the runtime adds to a conversation are opaque (`RuntimeItem`). `str(result.final_output)` is taken as already a string.
- The prompt texts are a `Wording` parameter, and the proofs hold for every wording. `Summarizer.ProgramWording` holds the program's own texts but is not referred to by any proof. The resume-scoring prompt is kept as its two values (`ScoreQuestion`).
- Tokenizer: `tiktoken` is an unknown `string -> nat`, or absent. The choice between `encoding_for_model` and `cl100k_base` is not modelled.
- The document readers are parameters: `_read_docx_text`, `extract_template_instructions`, pdfplumber's extraction and UTF-8 decoding with `errors="ignore"`. The DOCX serialisation in `write_text_to_docx_bytes` is also not modelled. The model's document is its list of paragraphs of `(text, bold, size)` runs.
- Disk I/O: reading a path is a `Disk` parameter. `write_bytes` and `mkdir` are not modelled. `uuid4().hex` is the `fid` parameter. A colliding id overwrites the entry, as the dictionary assignment does.
- Paths: `Path(filename).suffix` and the file name are modelled on `/`-separated strings. The resolution of the base directory and Windows separators are not modelled.
- `csv.writer` quoting and the UTF-8 encoding of the CSV text are not modelled. `ResultsToCsvRows` returns the header and the rows as lists of fields.
- `ResumeMatcher.JoinBar`: a failed join keeps only the exception's class, "TypeError", not Python's message (such as "sequence item 0: expected str instance, int found"). Likewise a `str` that raises inside `writerow` is kept as "ValueError". `ResumeMatcher.RowsStopAtFailure` and `ResumeMatcher.ResultsToCsvRows` carry that class.
- `json.loads` is a `parse` parameter. The `repr` of floats, lists and dicts is a `repr` parameter. A dict's key order (what `" | ".join` iterates over a dict value) is a `keysOf` parameter. The `None` content a model reply may have is not modelled: replies are strings.
- `Text.Lower`: lower-cases ASCII letters only. Python's `str.lower()` also folds other letters. This matters only for names like "X.PDF" written with non-ASCII letters.
- `Text.ParseInt`: Python's `int()` also accepts non-ASCII decimal digits. These are not modelled.
- `Text.ParseDigits`: the digit limit (`Text.MaxStrDigits`, shared with `Text.PyIntToString`) is CPython's default, 4300. A program started with another limit (`sys.set_int_max_str_digits`, `PYTHONINTMAXSTRDIGITS`, or 0 for none) is not modelled. The `repr` parameter never raises, although the program's `repr` of a list or dict holding an integer over the limit would.
- `Chunker.HeadsReconstruct`: requires a text longer than the window. With a single chunk the head is the first `step` characters, so the heads rebuild the text only when it is at most `step` long. `Chunker.ShortTextOneChunk` states what that case gives instead.
- Tools: the save cannot fail in the model, so the "Failed to save generated document" reply is not modelled. The catch-all "Unexpected error" reply is not modelled either, because no modelled step raises outside the checks that have their own reply.
- Logging (`logging.warning`, `logging.exception`, the `txt[:300]` excerpt) has no effect on results and is not modelled.
- `static/app.js` beyond `describeFiles` and `escapeHtml` is not part of this model: `linkify`, the regular-expression intent detectors, DOM updates, `fetch` and local storage.
- `AppUi.EscapeHtmlLength`: a JavaScript string is modelled as a sequence of Unicode scalar values, not of UTF-16 code units, so the lengths it compares count code points where JavaScript's `.length` counts code units. A string holding a lone surrogate cannot be represented. The texts `escapeHtml` and `describeFiles` produce are the same either way, since only ASCII characters are replaced or added.
- `app/main.py`, `app/api/routes/files.py`, `app/api/routes/summarize.py`, `app/core/config.py` and `app/core/logging.py` are not part of this model. Chunk size, chunk overlap and the API key are a `Config` value.
- Concurrency: requests racing on `SESSION_STORE` or `_REG` are not modelled; each call runs alone.
