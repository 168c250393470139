/** The resume matcher: every resume is read with the shared text extractor,
    a blank one gets a fixed "unreadable" record, every other one is scored
    by one model call whose JSON reply is normalised to a fixed record; the
    records can then be laid out as the rows of a CSV table.

    A Python dict is a `map<string, Json>`. The model client is an `Oracle`
    asked a `ScoreQuestion` (the job description and one resume; the wording
    around them reaches only the model) and replying with text; `json.loads`
    is a parameter `parse` that gives `None` where it raises, and the text of
    `repr` for floats, lists and dicts is a parameter too. */
module ResumeMatcher {
  import opened Wrappers
  import opened Text
  import opened Json
  import opened TextExtractor
  import opened Collaborators

  type Dict = map<string, Json>

  /** What the scoring prompt carries. */
  datatype ScoreQuestion = ScoreQuestion(jd: string, resume: string)

  // ---------------------------------------------------------------------
  // _chat_json

  /** `_chat_json` once the model has replied `txt`: the parsed reply, or
      `{"raw": txt}` when parsing raises. */
  function ChatJson(parse: string -> Option<Json>, txt: string): Json {
    match parse(txt)
    case Some(v) => v
    case None => JObj(map["raw" := JStr(txt)])
  }

  // ---------------------------------------------------------------------
  // score_single_resume, normalisation

  /** `data[key]` when `data` is a dict holding `key`. On any other JSON
      value the `in` test either is false or raises, and subscripting it
      with a string raises, so nothing is ever read from it. */
  function Field(data: Json, key: string): Option<Json> {
    if data.JObj? && key in data.fields then Some(data.fields[key]) else None
  }

  /** `int(data["score"])` when "score" is present. */
  function ScoreOf(data: Json): Option<int> {
    if Field(data, "score").Some? then PyInt(Field(data, "score").value) else None
  }

  /** The `try` block stops at its first line: "score" is present and `int`
      raises on it. */
  predicate Aborts(data: Json) {
    Field(data, "score").Some? && ScoreOf(data).None?
  }

  /** A list field is copied only when the `try` block gets that far and the
      value is a list. */
  function ListField(data: Json, key: string): Json {
    if !Aborts(data) && Field(data, key).Some? && Field(data, key).value.JArr? then Field(data, key).value
    else JArr([])
  }

  /** `str(data["summary"])`, the last line of the `try` block; when `str`
      raises there the summary keeps its default. */
  function SummaryField(data: Json, repr: Json -> string): string {
    if !Aborts(data) && Field(data, "summary").Some? && PyStr(Field(data, "summary").value, repr).Some? then
      PyStr(Field(data, "summary").value, repr).value
    else ""
  }

  /** The record `score_single_resume` returns for the model's JSON `data`. */
  function Normalised(data: Json, repr: Json -> string): Dict {
    var score := ScoreOf(data);
    map[
      "score" := JInt(if score.Some? then score.value else 0),
      "strengths" := ListField(data, "strengths"),
      "gaps" := ListField(data, "gaps"),
      "summary" := JStr(SummaryField(data, repr)),
      "raw" := if score.Some? then JNull else data]
  }

  /** The record before the `try` block. */
  const Blank: Dict := map[
    "score" := JNull, "strengths" := JArr([]), "gaps" := JArr([]), "summary" := JStr(""), "raw" := JNull]

  /** The four assignments of the `try` block, stopping at the first one that
      raises, starting from `Blank`. */
  method TryBlock(data: Json, repr: Json -> string) returns (out: Dict)
    ensures out.Keys == Blank.Keys && out["raw"] == JNull
    ensures out["score"] == if ScoreOf(data).Some? then JInt(ScoreOf(data).value) else JNull
    ensures out["strengths"] == ListField(data, "strengths") && out["gaps"] == ListField(data, "gaps")
    ensures out["summary"] == JStr(SummaryField(data, repr))
  {
    out := Blank;
    if data.JObj? {
      var fields := data.fields;
      var raised := false;
      if "score" in fields {
        var n := PyInt(fields["score"]);
        if n.None? {
          raised := true;
        } else {
          out := out["score" := JInt(n.value)];
        }
      }
      if !raised {
        if "strengths" in fields && fields["strengths"].JArr? {
          out := out["strengths" := fields["strengths"]];
        }
        if "gaps" in fields && fields["gaps"].JArr? {
          out := out["gaps" := fields["gaps"]];
        }
        if "summary" in fields {
          var s := PyStr(fields["summary"], repr);
          if s.Some? {
            out := out["summary" := JStr(s.value)];
          }
        }
      }
    }
  }

  /** `score_single_resume` after the model call: the `try` block, then a
      missing score becomes 0 with the whole reply kept under "raw". */
  method Normalise(data: Json, repr: Json -> string) returns (out: Dict)
    ensures out == Normalised(data, repr)
  {
    out := TryBlock(data, repr);
    if out["score"] == JNull {
      out := out["raw" := data];
      out := out["score" := JInt(0)];
    }
    assert out.Keys == Normalised(data, repr).Keys;
  }

  /** `score_single_resume(jd_text, resume_text)`: one model call, then the
      normalisation of its JSON. */
  method ScoreSingleResume(llm: Oracle<ScoreQuestion, string>, parse: string -> Option<Json>, repr: Json -> string,
                           jd: string, resume: string) returns (out: Dict)
    modifies llm
    ensures llm.log == old(llm.log) + [ScoreQuestion(jd, resume)]
    ensures out == Normalised(ChatJson(parse, llm.answer(ScoreQuestion(jd, resume))), repr)
  {
    var txt := llm.Ask(ScoreQuestion(jd, resume));
    var data := ChatJson(parse, txt);
    out := Normalise(data, repr);
  }

  // ---------------------------------------------------------------------
  // Properties of the normalisation

  /** The record always has the same five keys, an integer score, lists for
      strengths and gaps and a string summary. */
  lemma NormalisedShape(data: Json, repr: Json -> string)
    ensures var out := Normalised(data, repr);
      && out.Keys == {"score", "strengths", "gaps", "summary", "raw"}
      && out["score"].JInt? && out["strengths"].JArr? && out["gaps"].JArr? && out["summary"].JStr?
  {
  }

  /** The score is `int(data["score"])` and `raw` stays None exactly when
      that conversion succeeds; otherwise the score is 0 and `raw` is the
      whole reply. The score is not clamped to any range. */
  lemma ScoreRule(data: Json, repr: Json -> string)
    ensures var out := Normalised(data, repr);
      && (forall n :: Field(data, "score").Some? && PyInt(Field(data, "score").value) == Some(n) ==>
            out["score"] == JInt(n) && out["raw"] == JNull)
      && (Field(data, "score").None? || PyInt(Field(data, "score").value).None? ==>
            out["score"] == JInt(0) && out["raw"] == data)
  {
  }

  /** When `int` raises on the score, strengths, gaps and summary keep their
      defaults whatever the reply holds. */
  lemma AbortKeepsDefaults(data: Json, repr: Json -> string)
    requires Aborts(data)
    ensures var out := Normalised(data, repr);
      out["strengths"] == JArr([]) && out["gaps"] == JArr([]) && out["summary"] == JStr("")
  {
  }

  /** A score string of more than `MaxStrDigits` digits makes `int` raise:
      the score is 0, the whole reply is kept under "raw", and the strengths
      the reply lists are dropped. */
  lemma OverlongScoreAborts(d: string, strengths: seq<Json>, repr: Json -> string)
    requires |d| > MaxStrDigits && forall k :: 0 <= k < |d| ==> IsDigit(d[k])
    ensures var data := JObj(map["score" := JStr(d), "strengths" := JArr(strengths)]);
      var out := Normalised(data, repr);
      && out["score"] == JInt(0) && out["raw"] == data && out["strengths"] == JArr([])
  {
    ParseIntOfDigits(d);
    var data := JObj(map["score" := JStr(d), "strengths" := JArr(strengths)]);
    assert Field(data, "score") == Some(JStr(d));
  }

  /** An unparseable reply is kept whole under "raw" and scores 0. */
  lemma UnparseableReply(parse: string -> Option<Json>, repr: Json -> string, txt: string)
    requires parse(txt).None?
    ensures var out := Normalised(ChatJson(parse, txt), repr);
      && out["score"] == JInt(0)
      && out["raw"] == JObj(map["raw" := JStr(txt)])
      && out["strengths"] == JArr([]) && out["gaps"] == JArr([]) && out["summary"] == JStr("")
  {
    assert "raw" != "score" && "raw" != "strengths" && "raw" != "gaps" && "raw" != "summary";
  }

  /** A score of 150 is kept as it is; so is a negative one given as text. */
  lemma ScoreNotClamped(repr: Json -> string)
    ensures Normalised(JObj(map["score" := JInt(150)]), repr)["score"] == JInt(150)
    ensures Normalised(JObj(map["score" := JStr(" -7 ")]), repr)["score"] == JInt(-7)
  {
    assert ParseInt(" -7 ") == Some(-7) by {
      ParseIntOfSpacedNumber();
    }
  }

  lemma ParseIntOfSpacedNumber()
    ensures ParseInt(" -7 ") == Some(-7)
  {
    assert Strip(" -7 ") == "-7" by {
      assert LStrip(" -7 ") == "-7 ";
      assert RStrip("-7 ") == "-7";
    }
    assert ParseDigits("7") == Some(7);
  }

  // ---------------------------------------------------------------------
  // match_resumes_to_jd

  /** The record of a resume whose text is blank. */
  function Unreadable(fname: string): Dict {
    map[
      "name" := JStr(fname), "score" := JInt(0), "strengths" := JArr([]),
      "gaps" := JArr([JStr("Unreadable")]), "summary" := JStr("Could not extract text.")]
  }

  /** The record for one resume read as `text`: the unreadable record when
      the text is blank, the scored record named after the file otherwise. */
  function RecordFor(answer: ScoreQuestion -> string, parse: string -> Option<Json>, repr: Json -> string,
                     jd: string, fname: string, text: string): Dict {
    if IsBlank(text) then Unreadable(fname)
    else Normalised(ChatJson(parse, answer(ScoreQuestion(jd, text))), repr)["name" := JStr(fname)]
  }

  /** The model calls made for one resume read as `text`: none for a blank
      text, one otherwise. */
  function AskedFor(jd: string, text: string): seq<ScoreQuestion> {
    if IsBlank(text) then [] else [ScoreQuestion(jd, text)]
  }

  /** The loop state: the records so far, the questions asked so far, and the
      reader's exception once one has raised. */
  datatype Matching = Matching(results: seq<Dict>, asked: seq<ScoreQuestion>, error: Option<string>)

  /** The loop of `match_resumes_to_jd` over the resumes still to do, for any
      way `record` of turning a file name and its text into a record. */
  function MatchFrom(record: (string, string) -> Dict, read: Reader, jd: string, rest: seq<(string, bytes)>,
                     results: seq<Dict>, asked: seq<ScoreQuestion>): Matching
    decreases |rest|
  {
    if rest == [] then Matching(results, asked, None)
    else
      var text := read(rest[0].0, rest[0].1);
      if text.Failure? then Matching(results, asked, Some(text.error))
      else MatchFrom(record, read, jd, rest[1..], results + [record(rest[0].0, text.value)], asked + AskedFor(jd, text.value))
  }

  /** The record function of `match_resumes_to_jd`. */
  function Recorder(answer: ScoreQuestion -> string, parse: string -> Option<Json>, repr: Json -> string, jd: string): (string, string) -> Dict {
    (fname, text) => RecordFor(answer, parse, repr, jd, fname, text)
  }

  /** The outcome of `match_resumes_to_jd(jd_text, resumes)`. */
  function Match(answer: ScoreQuestion -> string, parse: string -> Option<Json>, repr: Json -> string,
                 readers: Readers, jd: string, resumes: seq<(string, bytes)>): Matching {
    MatchFrom(Recorder(answer, parse, repr, jd), FileReader(readers), jd, resumes, [], [])
  }

  lemma MatchFromAt(record: (string, string) -> Dict, read: Reader, jd: string, resumes: seq<(string, bytes)>, i: nat,
                    results: seq<Dict>, asked: seq<ScoreQuestion>)
    requires i < |resumes|
    ensures MatchFrom(record, read, jd, resumes[i..], results, asked) ==
      var text := read(resumes[i].0, resumes[i].1);
      if text.Failure? then Matching(results, asked, Some(text.error))
      else MatchFrom(record, read, jd, resumes[i + 1..], results + [record(resumes[i].0, text.value)], asked + AskedFor(jd, text.value))
  {
    assert resumes[i..][0] == resumes[i];
    assert resumes[i..][1..] == resumes[i + 1..];
  }

  /** One resume of a readable text: the unreadable record without a model
      call when the text is blank, else one call to score it. */
  method MatchOne(llm: Oracle<ScoreQuestion, string>, parse: string -> Option<Json>, repr: Json -> string,
                  jd: string, fname: string, text: string) returns (info: Dict)
    modifies llm
    ensures llm.log == old(llm.log) + AskedFor(jd, text)
    ensures info == RecordFor(llm.answer, parse, repr, jd, fname, text)
  {
    StripEmptyIffBlank(text);
    if Strip(text) == [] {
      return Unreadable(fname);
    }
    info := ScoreSingleResume(llm, parse, repr, jd, text);
    info := info["name" := JStr(fname)];
  }

  /** The loop of `match_resumes_to_jd` with the files read by `read`. */
  method MatchAll(llm: Oracle<ScoreQuestion, string>, parse: string -> Option<Json>, repr: Json -> string,
                  read: Reader, jd: string, resumes: seq<(string, bytes)>)
    returns (r: Result<seq<Dict>>)
    modifies llm
    ensures var m := MatchFrom(Recorder(llm.answer, parse, repr, jd), read, jd, resumes, [], []);
      && llm.log == old(llm.log) + m.asked
      && (m.error.Some? ==> r == Failure(m.error.value))
      && (m.error.None? ==> r == Success(m.results))
  {
    ghost var log0 := llm.log;
    ghost var record := Recorder(llm.answer, parse, repr, jd);
    ghost var outcome := MatchFrom(record, read, jd, resumes, [], []);
    var results := [];
    ghost var asked := [];
    for i := 0 to |resumes|
      invariant MatchFrom(record, read, jd, resumes[i..], results, asked) == outcome
      invariant llm.log == log0 + asked
    {
      MatchFromAt(record, read, jd, resumes, i, results, asked);
      var (fname, blob) := resumes[i];
      var rtext := read(fname, blob);
      if rtext.Failure? {
        return Failure(rtext.error);
      }
      var info := MatchOne(llm, parse, repr, jd, fname, rtext.value);
      results := results + [info];
      asked := asked + AskedFor(jd, rtext.value);
    }
    assert resumes[|resumes|..] == [];
    r := Success(results);
  }

  /** `match_resumes_to_jd(jd_text, resumes)`: a reader that raises ends the
      call with its exception. */
  method MatchResumesToJd(llm: Oracle<ScoreQuestion, string>, parse: string -> Option<Json>, repr: Json -> string,
                          readers: Readers, jd: string, resumes: seq<(string, bytes)>)
    returns (r: Result<seq<Dict>>)
    modifies llm
    ensures var m := Match(llm.answer, parse, repr, readers, jd, resumes);
      && llm.log == old(llm.log) + m.asked
      && (m.error.Some? ==> r == Failure(m.error.value))
      && (m.error.None? ==> r == Success(m.results))
  {
    r := MatchAll(llm, parse, repr, FileReader(readers), jd, resumes);
  }

  // ---------------------------------------------------------------------
  // Properties of the matcher

  /** Every resume was read without an exception. */
  predicate AllRead(read: Reader, resumes: seq<(string, bytes)>) {
    forall k :: 0 <= k < |resumes| ==> read(resumes[k].0, resumes[k].1).Success?
  }

  /** The texts of resumes that were all read. */
  function TextsOf(read: Reader, resumes: seq<(string, bytes)>): (texts: seq<string>)
    requires AllRead(read, resumes)
    ensures |texts| == |resumes|
    ensures forall k :: 0 <= k < |resumes| ==> texts[k] == read(resumes[k].0, resumes[k].1).value
  {
    seq(|resumes|, k requires 0 <= k < |resumes| => read(resumes[k].0, resumes[k].1).value)
  }

  /** The questions asked for some readable resumes: one per non-blank text,
      in order. */
  function Questions(jd: string, texts: seq<string>): seq<ScoreQuestion>
    decreases |texts|
  {
    if texts == [] then [] else AskedFor(jd, texts[0]) + Questions(jd, texts[1..])
  }

  lemma AppendOne<T>(a: seq<T>, x: T, b: seq<T>)
    ensures a + [x] + b == a + ([x] + b)
  {
  }

  lemma AllReadTail(read: Reader, rest: seq<(string, bytes)>)
    requires rest != [] && AllRead(read, rest)
    ensures AllRead(read, rest[1..])
    ensures TextsOf(read, rest[1..]) == TextsOf(read, rest)[1..]
  {
    forall k | 0 <= k < |rest[1..]|
      ensures read(rest[1..][k].0, rest[1..][k].1).Success?
    {
      assert rest[1..][k] == rest[k + 1];
    }
  }

  /** With every resume read, the loop gives one record per resume, in
      order, and asks exactly one question per non-blank resume. */
  lemma {:induction false} MatchFromAllRead(record: (string, string) -> Dict, read: Reader, jd: string,
                                           rest: seq<(string, bytes)>, results: seq<Dict>, asked: seq<ScoreQuestion>)
    requires AllRead(read, rest)
    ensures var m, texts := MatchFrom(record, read, jd, rest, results, asked), TextsOf(read, rest);
      && m.error.None?
      && m.results == results + seq(|rest|, k requires 0 <= k < |rest| => record(rest[k].0, texts[k]))
      && m.asked == asked + Questions(jd, texts)
    decreases |rest|
  {
    var texts := TextsOf(read, rest);
    if rest == [] {
      assert results + [] == results && asked + [] == asked;
    } else {
      var rec := record(rest[0].0, texts[0]);
      var more := AskedFor(jd, texts[0]);
      AllReadTail(read, rest);
      MatchFromAllRead(record, read, jd, rest[1..], results + [rec], asked + more);
      var texts' := TextsOf(read, rest[1..]);
      var recs := seq(|rest|, k requires 0 <= k < |rest| => record(rest[k].0, texts[k]));
      var recs' := seq(|rest[1..]|, k requires 0 <= k < |rest[1..]| => record(rest[1..][k].0, texts'[k]));
      assert recs == [rec] + recs';
      AppendOne(results, rec, recs');
      assert asked + more + Questions(jd, texts') == asked + (more + Questions(jd, texts'));
    }
  }

  /** Every record carries the resume's file name. */
  lemma RecordNamed(answer: ScoreQuestion -> string, parse: string -> Option<Json>, repr: Json -> string,
                    jd: string, fname: string, text: string)
    ensures var r := RecordFor(answer, parse, repr, jd, fname, text);
      "name" in r && r["name"] == JStr(fname)
  {
  }

  /** With every resume read, `match_resumes_to_jd` returns one record per
      resume in input order, each named after its file; a blank resume gets
      the unreadable record without a model call, any other one the
      normalised reply to its own question. */
  lemma MatchAllRead(answer: ScoreQuestion -> string, parse: string -> Option<Json>, repr: Json -> string,
                     readers: Readers, jd: string, resumes: seq<(string, bytes)>)
    requires AllRead(FileReader(readers), resumes)
    ensures var m, texts := Match(answer, parse, repr, readers, jd, resumes), TextsOf(FileReader(readers), resumes);
      && m.error.None?
      && |m.results| == |resumes|
      && (forall k :: 0 <= k < |resumes| ==> "name" in m.results[k] && m.results[k]["name"] == JStr(resumes[k].0))
      && (forall k :: 0 <= k < |resumes| && IsBlank(texts[k]) ==> m.results[k] == Unreadable(resumes[k].0))
      && (forall k :: 0 <= k < |resumes| && !IsBlank(texts[k]) ==>
            m.results[k] == Normalised(ChatJson(parse, answer(ScoreQuestion(jd, texts[k]))), repr)["name" := JStr(resumes[k].0)])
      && m.asked == Questions(jd, texts)
  {
    var record := Recorder(answer, parse, repr, jd);
    var texts := TextsOf(FileReader(readers), resumes);
    MatchFromAllRead(record, FileReader(readers), jd, resumes, [], []);
    var m := Match(answer, parse, repr, readers, jd, resumes);
    assert m.asked == Questions(jd, texts);
    forall k | 0 <= k < |resumes|
      ensures m.results[k] == RecordFor(answer, parse, repr, jd, resumes[k].0, texts[k])
    {
    }
    forall k | 0 <= k < |resumes|
      ensures "name" in m.results[k] && m.results[k]["name"] == JStr(resumes[k].0)
    {
      RecordNamed(answer, parse, repr, jd, resumes[k].0, texts[k]);
    }
    forall k | 0 <= k < |resumes| && !IsBlank(texts[k])
      ensures m.results[k] == Normalised(ChatJson(parse, answer(ScoreQuestion(jd, texts[k]))), repr)["name" := JStr(resumes[k].0)]
    {
      assert m.results[k] == RecordFor(answer, parse, repr, jd, resumes[k].0, texts[k]);
    }
  }

  /** Every question carries the job description and one of the non-blank
      texts; with no blank text there is one per text, with only blank
      texts there is none. */
  lemma {:induction false} QuestionsOfTexts(jd: string, texts: seq<string>)
    ensures forall q :: q in Questions(jd, texts) ==> q.jd == jd && q.resume in texts && !IsBlank(q.resume)
    ensures (forall k :: 0 <= k < |texts| ==> !IsBlank(texts[k])) ==> |Questions(jd, texts)| == |texts|
    ensures (forall k :: 0 <= k < |texts| ==> IsBlank(texts[k])) ==> Questions(jd, texts) == []
    decreases |texts|
  {
    if texts != [] {
      QuestionsOfTexts(jd, texts[1..]);
      assert forall k :: 0 <= k < |texts[1..]| ==> texts[1..][k] == texts[k + 1];
      forall t | t in texts[1..]
        ensures t in texts
      {
      }
    }
  }

  /** A reader that raises on a resume ends the run with its exception,
      provided every earlier resume was read. */
  lemma {:induction false} MatchFromStops(record: (string, string) -> Dict, read: Reader, jd: string,
                                          rest: seq<(string, bytes)>, results: seq<Dict>, asked: seq<ScoreQuestion>, i: nat)
    requires i < |rest| && read(rest[i].0, rest[i].1).Failure?
    requires forall k :: 0 <= k < i ==> read(rest[k].0, rest[k].1).Success?
    ensures MatchFrom(record, read, jd, rest, results, asked).error == Some(read(rest[i].0, rest[i].1).error)
    decreases i
  {
    if i > 0 {
      var text := read(rest[0].0, rest[0].1).value;
      forall k | 0 <= k < i - 1
        ensures read(rest[1..][k].0, rest[1..][k].1).Success?
      {
        assert rest[1..][k] == rest[k + 1];
      }
      assert rest[1..][i - 1] == rest[i];
      MatchFromStops(record, read, jd, rest[1..], results + [record(rest[0].0, text)], asked + AskedFor(jd, text), i - 1);
    }
  }

  /** The first resume the reader raises on ends `match_resumes_to_jd` with
      that exception. */
  lemma FirstReadFailureEndsMatch(answer: ScoreQuestion -> string, parse: string -> Option<Json>, repr: Json -> string,
                                  readers: Readers, jd: string, resumes: seq<(string, bytes)>, i: nat)
    requires i < |resumes| && ReadAnyText(resumes[i].0, resumes[i].1, readers).Failure?
    requires forall k :: 0 <= k < i ==> ReadAnyText(resumes[k].0, resumes[k].1, readers).Success?
    ensures Match(answer, parse, repr, readers, jd, resumes).error == Some(ReadAnyText(resumes[i].0, resumes[i].1, readers).error)
  {
    MatchFromStops(Recorder(answer, parse, repr, jd), FileReader(readers), jd, resumes, [], [], i);
  }

  /** The unreadable record is the one `match_resumes_to_jd` documents. */
  lemma UnreadableRecord(fname: string)
    ensures var r := Unreadable(fname);
      && r.Keys == {"name", "score", "strengths", "gaps", "summary"}
      && r["name"] == JStr(fname) && r["score"] == JInt(0)
      && r["strengths"] == JArr([]) && r["gaps"] == JArr([JStr("Unreadable")])
      && r["summary"] == JStr("Could not extract text.")
  {
  }

  // ---------------------------------------------------------------------
  // results_to_csv_bytes, as rows of fields

  /** `d.get(key, default)`. */
  function Get(d: Dict, key: string, default: Json): Json {
    if key in d then d[key] else default
  }

  /** The text `csv.writer` writes for a field: nothing for None, `str` of
      anything else; `None` where `str` raises. */
  function CsvField(v: Json, repr: Json -> string): Option<string> {
    if v.JNull? then Some([]) else PyStr(v, repr)
  }

  /** The strings of a list, when every item is one. */
  function Strings(items: seq<Json>): Option<seq<string>>
    decreases |items|
  {
    if items == [] then Some([])
    else if !items[0].JStr? then None
    else
      var rest := Strings(items[1..]);
      if rest.None? then None else Some([items[0].s] + rest.value)
  }

  /** A list of JSON strings gives back exactly its strings. */
  lemma {:induction false} StringsOfStrs(ss: seq<string>)
    ensures Strings(seq(|ss|, i requires 0 <= i < |ss| => JStr(ss[i]))) == Some(ss)
    decreases |ss|
  {
    if ss != [] {
      var items := seq(|ss|, i requires 0 <= i < |ss| => JStr(ss[i]));
      StringsOfStrs(ss[1..]);
      assert items[1..] == seq(|ss[1..]|, i requires 0 <= i < |ss[1..]| => JStr(ss[1..][i]));
      assert [ss[0]] + ss[1..] == ss;
    }
  }

  /** A list holding a non-string has no strings. */
  lemma {:induction false} StringsRejectsNonString(items: seq<Json>, k: nat)
    requires k < |items| && !items[k].JStr?
    ensures Strings(items).None?
    decreases k
  {
    if k > 0 {
      assert items[1..][k - 1] == items[k];
      StringsRejectsNonString(items[1..], k - 1);
    }
  }

  /** `" | ".join(v)`: the items of a list of strings, the characters of a
      string, or the keys of a dict in their insertion order `keysOf`; `join`
      raises a `TypeError` on anything else and on a list holding a
      non-string. */
  function JoinBar(v: Json, keysOf: map<string, Json> -> seq<string>): Result<string> {
    match v
    case JArr(items) =>
      var strs := Strings(items);
      if strs.Some? then Success(Join(strs.value, " | ")) else Failure("TypeError")
    case JStr(s) => Success(Join(seq(|s|, i requires 0 <= i < |s| => [s[i]]), " | "))
    case JObj(fields) => Success(Join(keysOf(fields), " | "))
    case _ => Failure("TypeError")
  }

  const Header: seq<string> := ["Resume", "Score", "Strengths", "Gaps", "Summary"]

  /** The row written for one item: the two joins first, then `writerow`,
      which raises a `ValueError` when `str` fails on a field. */
  function Row(it: Dict, repr: Json -> string, keysOf: map<string, Json> -> seq<string>): Result<seq<string>> {
    var strengths := JoinBar(Get(it, "strengths", JArr([])), keysOf);
    if strengths.Failure? then Failure(strengths.error)
    else
      var gaps := JoinBar(Get(it, "gaps", JArr([])), keysOf);
      if gaps.Failure? then Failure(gaps.error)
      else
        var name := CsvField(Get(it, "name", JStr("")), repr);
        var score := CsvField(Get(it, "score", JInt(0)), repr);
        var summary := CsvField(Get(it, "summary", JStr("")), repr);
        if name.None? || score.None? || summary.None? then Failure("ValueError")
        else Success([name.value, score.value, strengths.value, gaps.value, summary.value])
  }

  /** When strengths and gaps are lists of strings, the row holds them
      joined with " | " between the name and score and the summary, and it is
      written exactly when `str` succeeds on those three. */
  lemma RowJoinsStrings(it: Dict, ss: seq<string>, gs: seq<string>, repr: Json -> string, keysOf: map<string, Json> -> seq<string>)
    requires Get(it, "strengths", JArr([])) == JArr(seq(|ss|, i requires 0 <= i < |ss| => JStr(ss[i])))
    requires Get(it, "gaps", JArr([])) == JArr(seq(|gs|, i requires 0 <= i < |gs| => JStr(gs[i])))
    ensures var name := CsvField(Get(it, "name", JStr("")), repr);
      var score := CsvField(Get(it, "score", JInt(0)), repr);
      var summary := CsvField(Get(it, "summary", JStr("")), repr);
      && (Row(it, repr, keysOf).Success? <==> name.Some? && score.Some? && summary.Some?)
      && (Row(it, repr, keysOf).Success? ==>
            Row(it, repr, keysOf).value == [name.value, score.value, Join(ss, " | "), Join(gs, " | "), summary.value])
  {
    StringsOfStrs(ss);
    StringsOfStrs(gs);
  }

  /** The rows for the first items, after the header; the first row that
      raises ends the export. */
  function Rows(items: seq<Dict>, repr: Json -> string, keysOf: map<string, Json> -> seq<string>): Result<seq<seq<string>>>
    decreases |items|
  {
    if items == [] then Success([Header])
    else
      var prev := Rows(items[..|items| - 1], repr, keysOf);
      if prev.Failure? then prev
      else
        var row := Row(items[|items| - 1], repr, keysOf);
        if row.Failure? then Failure(row.error) else Success(prev.value + [row.value])
  }

  /** The rows `results_to_csv_bytes(items)` writes, before `csv.writer`
      quotes and encodes them. */
  method ResultsToCsvRows(items: seq<Dict>, repr: Json -> string, keysOf: map<string, Json> -> seq<string>)
    returns (r: Result<seq<seq<string>>>)
    ensures r == Rows(items, repr, keysOf)
  {
    var rows := [Header];
    for i := 0 to |items|
      invariant Rows(items[..i], repr, keysOf) == Success(rows)
    {
      assert items[..i + 1][..i] == items[..i];
      var row := Row(items[i], repr, keysOf);
      if row.Failure? {
        assert Rows(items[..i + 1], repr, keysOf) == Failure(row.error);
        RowsStopAtFailure(items, repr, keysOf, i + 1);
        assert items[..|items|] == items;
        return Failure(row.error);
      }
      rows := rows + [row.value];
    }
    assert items[..|items|] == items;
    r := Success(rows);
  }

  /** Once a prefix fails, every longer prefix fails the same way. */
  lemma {:induction false} RowsStopAtFailure(items: seq<Dict>, repr: Json -> string, keysOf: map<string, Json> -> seq<string>, i: nat)
    requires i <= |items| && Rows(items[..i], repr, keysOf).Failure?
    ensures Rows(items, repr, keysOf) == Rows(items[..i], repr, keysOf)
    decreases |items| - i
  {
    if i < |items| {
      assert items[..i + 1][..i] == items[..i];
      assert Rows(items[..i + 1], repr, keysOf) == Rows(items[..i], repr, keysOf);
      RowsStopAtFailure(items, repr, keysOf, i + 1);
    } else {
      assert items[..i] == items;
    }
  }

  /** The header comes first and then one row per item, in order, each with
      the item's name, score, strengths, gaps and summary; the export
      succeeds exactly when every item's row can be written. */
  lemma {:induction false} RowsShape(items: seq<Dict>, repr: Json -> string, keysOf: map<string, Json> -> seq<string>)
    ensures Rows(items, repr, keysOf).Success? <==> forall k :: 0 <= k < |items| ==> Row(items[k], repr, keysOf).Success?
    ensures Rows(items, repr, keysOf).Success? ==>
      var rows := Rows(items, repr, keysOf).value;
      && |rows| == |items| + 1
      && rows[0] == Header
      && forall k :: 0 <= k < |items| ==> rows[k + 1] == Row(items[k], repr, keysOf).value
    decreases |items|
  {
    if items != [] {
      var n := |items| - 1;
      var init := items[..n];
      RowsShape(init, repr, keysOf);
      assert forall k :: 0 <= k < n ==> init[k] == items[k];
    }
  }

  /** A missing name or summary is written as an empty field and a missing
      score as 0. */
  lemma RowDefaults(it: Dict, repr: Json -> string, keysOf: map<string, Json> -> seq<string>)
    requires Row(it, repr, keysOf).Success?
    ensures var row := Row(it, repr, keysOf).value;
      && |row| == 5
      && ("name" !in it ==> row[0] == "")
      && ("score" !in it ==> row[1] == "0")
      && ("summary" !in it ==> row[4] == "")
      && ("strengths" !in it ==> row[2] == "")
      && ("gaps" !in it ==> row[3] == "")
  {
  }

  /** The row of an unreadable resume. */
  lemma UnreadableRow(fname: string, repr: Json -> string, keysOf: map<string, Json> -> seq<string>)
    ensures Row(Unreadable(fname), repr, keysOf) == Success([fname, "0", "", "Unreadable", "Could not extract text."])
  {
    var it := Unreadable(fname);
    StringsOfStrs(["Unreadable"]);
    assert [JStr("Unreadable")] == seq(1, i requires 0 <= i < 1 => JStr(["Unreadable"][i]));
    assert Get(it, "gaps", JArr([])) == JArr([JStr("Unreadable")]);
    assert Get(it, "strengths", JArr([])) == JArr([]);
  }

  /** A model reply whose strengths list holds a number is normalised as it
      is, and the CSV export of its record then raises. */
  lemma NumericStrengthBreaksCsv(repr: Json -> string, keysOf: map<string, Json> -> seq<string>)
    ensures var it := Normalised(JObj(map["score" := JInt(80), "strengths" := JArr([JInt(1)])]), repr);
      && it["strengths"] == JArr([JInt(1)])
      && Row(it, repr, keysOf).Failure?
  {
    var data := JObj(map["score" := JInt(80), "strengths" := JArr([JInt(1)])]);
    assert Field(data, "strengths") == Some(JArr([JInt(1)]));
    var it := Normalised(data, repr);
    assert Get(it, "strengths", JArr([])) == JArr([JInt(1)]);
  }
}
