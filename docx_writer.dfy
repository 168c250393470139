/** The document writer: text becomes paragraphs at every blank line ("\n\n"),
    and each paragraph becomes runs at every "**", alternating non-bold and
    bold, all in 11-point type. A document is modelled as its list of
    paragraphs, each a list of runs; serialising it to .docx bytes is the
    library's business and is not modelled. */
module DocxWriter {
  import opened Text

  datatype Run = Run(text: string, bold: bool, sizePt: nat)

  type Paragraph = seq<Run>

  /** The font size given to every run. */
  const RunSizePt: nat := 11

  /** The runs written for one block of text. */
  function RenderBlock(block: string): Paragraph {
    var segments := Split(block, "**");
    seq(|segments|, i requires 0 <= i < |segments| => Run(segments[i], i % 2 == 1, RunSizePt))
  }

  /** The paragraphs written for a whole text. */
  function Render(text: string): seq<Paragraph> {
    var blocks := Split(text, "\n\n");
    seq(|blocks|, k requires 0 <= k < |blocks| => RenderBlock(blocks[k]))
  }

  /** A document under construction: the paragraphs added so far. */
  class Document {
    var paragraphs: seq<Paragraph>

    constructor ()
      ensures paragraphs == []
    {
      paragraphs := [];
    }

    /** `doc.add_paragraph()`: appends an empty paragraph. */
    method AddParagraph()
      modifies this
      ensures paragraphs == old(paragraphs) + [[]]
    {
      paragraphs := paragraphs + [[]];
    }

    /** `p.add_run(text)` on the paragraph added last, followed by setting the
        run's font size and bold flag. */
    method AddRun(text: string, bold: bool, sizePt: nat)
      requires paragraphs != []
      modifies this
      ensures |paragraphs| == |old(paragraphs)|
      ensures paragraphs[..|paragraphs| - 1] == old(paragraphs)[..|old(paragraphs)| - 1]
      ensures paragraphs[|paragraphs| - 1] == old(paragraphs)[|old(paragraphs)| - 1] + [Run(text, bold, sizePt)]
    {
      var last := |paragraphs| - 1;
      paragraphs := paragraphs[..last] + [paragraphs[last] + [Run(text, bold, sizePt)]];
    }
  }

  /** `_write_markdownish_text(doc, text)`: appends one paragraph per block. */
  method WriteMarkdownishText(doc: Document, text: string)
    modifies doc
    ensures doc.paragraphs == old(doc.paragraphs) + Render(text)
  {
    var blocks := Split(text, "\n\n");
    ghost var before := doc.paragraphs;
    ghost var rendered := Render(text);
    for b := 0 to |blocks|
      invariant doc.paragraphs == before + rendered[..b]
    {
      doc.AddParagraph();
      var bold := false;
      var segments := Split(blocks[b], "**");
      ghost var target := RenderBlock(blocks[b]);
      for i := 0 to |segments|
        invariant bold == (i % 2 == 1)
        invariant doc.paragraphs == before + rendered[..b] + [target[..i]]
      {
        doc.AddRun(segments[i], bold, RunSizePt);
        assert target[..i + 1] == target[..i] + [target[i]];
        bold := !bold;
      }
      assert target[..|segments|] == rendered[b];
      assert rendered[..b + 1] == rendered[..b] + [rendered[b]];
    }
    assert rendered[..|blocks|] == rendered;
  }

  /** `write_text_to_docx_bytes` up to serialisation: a fresh document holding
      exactly the paragraphs rendered from the text. */
  method WriteTextToDocx(text: string) returns (paragraphs: seq<Paragraph>)
    ensures paragraphs == Render(text)
  {
    var doc := new Document();
    WriteMarkdownishText(doc, text);
    paragraphs := doc.paragraphs;
  }

  // ---------------------------------------------------------------------
  // Properties

  /** One paragraph per "\n\n"-separated block: one more than the number of
      separators, so an empty text still gives one paragraph. */
  lemma ParagraphCount(text: string)
    ensures |Render(text)| == Count(text, "\n\n") + 1
  {
    SplitCount(text, "\n\n");
  }

  /** One run per "**"-separated segment; the first run is not bold, runs
      alternate from there on, and every run is 11 points. These hold for each
      paragraph separately, so an unmatched "**" never carries bold into the
      next paragraph. */
  lemma RunsAlternate(text: string, k: nat)
    requires k < |Render(text)|
    ensures var p := Render(text)[k];
      && |p| == Count(Split(text, "\n\n")[k], "**") + 1
      && !p[0].bold
      && (forall i :: 0 <= i < |p| - 1 ==> p[i + 1].bold == !p[i].bold)
      && (forall i :: 0 <= i < |p| ==> (p[i].bold <==> i % 2 == 1))
      && (forall i :: 0 <= i < |p| ==> p[i].sizePt == 11)
  {
    SplitCount(Split(text, "\n\n")[k], "**");
  }

  /** The text of each run, in order. */
  function RunTexts(p: Paragraph): seq<string> {
    seq(|p|, i requires 0 <= i < |p| => p[i].text)
  }

  /** Reads a document back as text: runs joined with "**", paragraphs joined
      with "\n\n". */
  function Unrender(doc: seq<Paragraph>): string {
    Join(seq(|doc|, k requires 0 <= k < |doc| => Join(RunTexts(doc[k]), "**")), "\n\n")
  }

  /** Joining a block's run texts with "**" gives the block back. */
  lemma BlockRoundTrip(block: string)
    ensures Join(RunTexts(RenderBlock(block)), "**") == block
  {
    assert RunTexts(RenderBlock(block)) == Split(block, "**");
    JoinSplit(block, "**");
  }

  /** Rendering loses nothing but the markers: reading the document back gives
      the original text. */
  lemma RenderRoundTrip(text: string)
    ensures Unrender(Render(text)) == text
  {
    var doc := Render(text);
    var blocks := Split(text, "\n\n");
    forall k | 0 <= k < |blocks|
      ensures Join(RunTexts(doc[k]), "**") == blocks[k]
    {
      BlockRoundTrip(blocks[k]);
    }
    assert seq(|doc|, k requires 0 <= k < |doc| => Join(RunTexts(doc[k]), "**")) == blocks;
    JoinSplit(text, "\n\n");
  }
}
