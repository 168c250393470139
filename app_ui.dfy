/** The two text helpers of the chat page: the label of a file picker and
    the HTML escaping of chat text. A JavaScript string is modelled as a
    `seq<char>`, a sequence of Unicode scalar values. */
module AppUi {
  import opened Wrappers
  import opened Text

  // ---------------------------------------------------------------------
  // describeFiles

  /** `describeFiles(fileList)` for the names of the chosen files, `None`
      standing for a missing list. */
  function DescribeFiles(names: Option<seq<string>>): string {
    if names.None? || |names.value| == 0 then []
    else if |names.value| == 1 then names.value[0]
    else if |names.value| == 2 then names.value[0] + " + 1 more"
    else names.value[0] + " + " + IntToString(|names.value| - 1) + " more"
  }

  /** No list or an empty one gives "", a single file its name, and more
      files the first name followed by how many others there are; the
      branch for two files says the same as the general one. */
  lemma DescribeFilesCases(names: Option<seq<string>>)
    ensures names.None? || names.value == [] ==> DescribeFiles(names) == []
    ensures names.Some? && |names.value| == 1 ==> DescribeFiles(names) == names.value[0]
    ensures names.Some? && |names.value| >= 2 ==>
      DescribeFiles(names) == names.value[0] + " + " + NatToString(|names.value| - 1) + " more"
  {
    if names.Some? && |names.value| == 2 {
      assert NatToString(1) == "1";
      assert names.value[0] + " + 1 more" == names.value[0] + " + " + "1" + " more";
    }
  }

  /** With two or more files the label starts with the first name and the
      count it reports reads back as the number of other files. */
  lemma DescribeFilesCount(names: seq<string>)
    requires |names| >= 2
    ensures var d := DescribeFiles(Some(names));
      && d[..|names[0]|] == names[0]
      && d[|names[0]|..] == " + " + NatToString(|names| - 1) + " more"
      && DigitsValue(NatToString(|names| - 1)) == |names| - 1
  {
    DescribeFilesCases(Some(names));
    var d := DescribeFiles(Some(names));
    var tail := " + " + NatToString(|names| - 1) + " more";
    assert d == names[0] + tail;
    DigitsValueOfNatToString(|names| - 1);
  }

  // ---------------------------------------------------------------------
  // escapeHtml

  /** The texts that stand for the five characters HTML gives a meaning. */
  const Amp: string := "&amp;"
  const Lt: string := "&lt;"
  const Gt: string := "&gt;"
  const Quot: string := "&quot;"
  const Apos: string := "&#39;"

  predicate IsSpecial(c: char) {
    c == '&' || c == '<' || c == '>' || c == '"' || c == '\''
  }

  /** The replacement of one character. */
  function EscapeChar(c: char): string {
    if c == '&' then Amp
    else if c == '<' then Lt
    else if c == '>' then Gt
    else if c == '"' then Quot
    else if c == '\'' then Apos
    else [c]
  }

  /** `escapeHtml(s)`: the global replacement of every `&`, `<`, `>`, `"`
      and `'`. */
  function EscapeHtml(s: string): string
    decreases |s|
  {
    if s == [] then [] else EscapeChar(s[0]) + EscapeHtml(s[1..])
  }

  /** Decoding the five entities, the inverse of the escaping. */
  function Unescape(t: string): string
    decreases |t|
  {
    if t == [] then []
    else if StartsWith(t, Amp) then "&" + Unescape(t[|Amp|..])
    else if StartsWith(t, Lt) then "<" + Unescape(t[|Lt|..])
    else if StartsWith(t, Gt) then ">" + Unescape(t[|Gt|..])
    else if StartsWith(t, Quot) then "\"" + Unescape(t[|Quot|..])
    else if StartsWith(t, Apos) then "'" + Unescape(t[|Apos|..])
    else [t[0]] + Unescape(t[1..])
  }

  /** Escaping works character by character. */
  lemma {:induction false} EscapeAppend(a: string, b: string)
    ensures EscapeHtml(a + b) == EscapeHtml(a) + EscapeHtml(b)
    decreases |a|
  {
    if a == [] {
      assert a + b == b;
    } else {
      assert (a + b)[0] == a[0];
      assert (a + b)[1..] == a[1..] + b;
      EscapeAppend(a[1..], b);
      assert EscapeChar(a[0]) + (EscapeHtml(a[1..]) + EscapeHtml(b)) == EscapeChar(a[0]) + EscapeHtml(a[1..]) + EscapeHtml(b);
    }
  }

  /** A replacement is never a raw `<`, `>`, `"` or `'`. */
  lemma EscapeCharSafe(c: char)
    ensures forall i :: 0 <= i < |EscapeChar(c)| ==>
      EscapeChar(c)[i] != '<' && EscapeChar(c)[i] != '>' && EscapeChar(c)[i] != '"' && EscapeChar(c)[i] != '\''
  {
  }

  /** The escaped text holds no raw `<`, `>`, `"` or `'`. */
  lemma {:induction false} EscapeHtmlSafe(s: string)
    ensures forall i :: 0 <= i < |EscapeHtml(s)| ==>
      EscapeHtml(s)[i] != '<' && EscapeHtml(s)[i] != '>' && EscapeHtml(s)[i] != '"' && EscapeHtml(s)[i] != '\''
    decreases |s|
  {
    if s != [] {
      EscapeCharSafe(s[0]);
      EscapeHtmlSafe(s[1..]);
      var head, rest := EscapeChar(s[0]), EscapeHtml(s[1..]);
      assert forall i :: 0 <= i < |head + rest| ==> (head + rest)[i] == if i < |head| then head[i] else rest[i - |head|];
    }
  }

  /** A text without special characters is left as it is. */
  lemma {:induction false} EscapeHtmlPlain(s: string)
    requires forall i :: 0 <= i < |s| ==> !IsSpecial(s[i])
    ensures EscapeHtml(s) == s
    decreases |s|
  {
    if s != [] {
      assert forall i :: 0 <= i < |s[1..]| ==> s[1..][i] == s[i + 1];
      EscapeHtmlPlain(s[1..]);
      assert [s[0]] + s[1..] == s;
    }
  }

  /** Decoding undoes the replacement of one character. */
  lemma UnescapeChar(c: char, t: string)
    ensures Unescape(EscapeChar(c) + t) == [c] + Unescape(t)
  {
    if c == '&' {
      UnescapeAmp(t);
    } else if c == '<' {
      UnescapeLt(t);
    } else if c == '>' {
      UnescapeGt(t);
    } else if c == '"' {
      UnescapeQuot(t);
    } else if c == '\'' {
      UnescapeApos(t);
    } else {
      UnescapePlain(c, t);
    }
  }

  lemma UnescapeAmp(t: string)
    ensures Unescape(Amp + t) == "&" + Unescape(t)
  {
    var e := Amp + t;
    assert StartsWith(e, Amp) && e[|Amp|..] == t;
  }

  lemma UnescapeLt(t: string)
    ensures Unescape(Lt + t) == "<" + Unescape(t)
  {
    var e := Lt + t;
    assert !StartsWith(e, Amp) by { assert e[1] == 'l'; }
    assert StartsWith(e, Lt) && e[|Lt|..] == t;
  }

  lemma UnescapeGt(t: string)
    ensures Unescape(Gt + t) == ">" + Unescape(t)
  {
    var e := Gt + t;
    assert e[1] == 'g';
    assert !StartsWith(e, Amp) && !StartsWith(e, Lt);
    assert StartsWith(e, Gt) && e[|Gt|..] == t;
  }

  lemma UnescapeQuot(t: string)
    ensures Unescape(Quot + t) == "\"" + Unescape(t)
  {
    var e := Quot + t;
    assert e[1] == 'q';
    assert !StartsWith(e, Amp) && !StartsWith(e, Lt) && !StartsWith(e, Gt);
    assert StartsWith(e, Quot) && e[|Quot|..] == t;
  }

  lemma UnescapeApos(t: string)
    ensures Unescape(Apos + t) == "'" + Unescape(t)
  {
    var e := Apos + t;
    assert e[1] == '#';
    assert !StartsWith(e, Amp) && !StartsWith(e, Lt) && !StartsWith(e, Gt) && !StartsWith(e, Quot);
    assert StartsWith(e, Apos) && e[|Apos|..] == t;
  }

  lemma UnescapePlain(c: char, t: string)
    requires !IsSpecial(c)
    ensures Unescape([c] + t) == [c] + Unescape(t)
  {
    var e := [c] + t;
    assert e[0] == c && e[1..] == t;
    assert !StartsWith(e, Amp) && !StartsWith(e, Lt) && !StartsWith(e, Gt) && !StartsWith(e, Quot) && !StartsWith(e, Apos);
  }

  /** Decoding the escaped text gives the original text back, so no two
      texts escape alike. */
  lemma {:induction false} UnescapeEscape(s: string)
    ensures Unescape(EscapeHtml(s)) == s
    decreases |s|
  {
    if s != [] {
      UnescapeChar(s[0], EscapeHtml(s[1..]));
      UnescapeEscape(s[1..]);
      assert [s[0]] + s[1..] == s;
    }
  }

  /** The escaping never shortens a text and lengthens it exactly when the
      text holds a special character. */
  lemma {:induction false} EscapeHtmlLength(s: string)
    ensures |EscapeHtml(s)| >= |s|
    ensures |EscapeHtml(s)| == |s| <==> forall i :: 0 <= i < |s| ==> !IsSpecial(s[i])
    decreases |s|
  {
    if s != [] {
      EscapeHtmlLength(s[1..]);
      assert forall i :: 0 <= i < |s[1..]| ==> s[1..][i] == s[i + 1];
      assert IsSpecial(s[0]) ==> |EscapeChar(s[0])| >= 4;
      if !IsSpecial(s[0]) && (forall i :: 0 <= i < |s[1..]| ==> !IsSpecial(s[1..][i])) {
        forall i | 0 <= i < |s|
          ensures !IsSpecial(s[i])
        {
          if i > 0 {
            assert s[i] == s[1..][i - 1];
          }
        }
      }
    }
  }
}
