/** The text extractor shared by the summarizer and the resume matcher: it
    chooses a reader from the file name's extension. The readers themselves
    (pdfplumber, python-docx, UTF-8 decoding) are parameters. */
module TextExtractor {
  import opened Wrappers
  import opened Text

  /** The third-party readers. The PDF reader catches its own failures and
      then yields ""; UTF-8 decoding ignores undecodable bytes; the DOCX
      reader raises on bytes that are not a document, which `Failure` stands
      for, with the exception's text. */
  datatype Readers = Readers(
    pdf: bytes -> string,
    docx: bytes -> Result<string>,
    utf8: bytes -> string)

  /** `filename.lower().rsplit(".", 1)[-1] if "." in filename else ""`. */
  function Extension(filename: string): (ext: string)
    ensures '.' !in ext
    ensures '.' !in filename ==> ext == []
    ensures '.' in filename ==>
      && |ext| < |filename|
      && Lower(filename)[|filename| - |ext| - 1] == '.'
      && ext == Lower(filename)[|filename| - |ext|..]
  {
    match LastIndexOf(filename, '.')
    case None => []
    case Some(k) =>
      var ext := Lower(filename)[k + 1..];
      assert forall j :: 0 <= j < |ext| ==> ext[j] == LowerChar(filename[k + 1 + j]);
      ext
  }

  /** `_read_any_text` / `read_any_text`: "pdf" goes to the PDF reader,
      "docx" to the DOCX reader, everything else to UTF-8 decoding. */
  function ReadAnyText(filename: string, data: bytes, readers: Readers): Result<string> {
    var ext := Extension(filename);
    if ext == "pdf" then Success(readers.pdf(data))
    else if ext == "docx" then readers.docx(data)
    else Success(readers.utf8(data))
  }

  /** A file reader: the text of a named file's bytes, or the error its
      reader raised. */
  type Reader = (string, bytes) -> Result<string>

  /** `read_any_text` as a reader, for the loops that read many files. */
  function FileReader(readers: Readers): (read: Reader)
    ensures forall name, data :: read(name, data) == ReadAnyText(name, data, readers)
  {
    (name: string, data: bytes) => ReadAnyText(name, data, readers)
  }

  lemma LowerKeepsDot(c: char)
    ensures LowerChar(c) == '.' <==> c == '.'
  {
  }

  /** The extracted extension always follows the last dot of the name. */
  lemma ExtensionEndsName(filename: string)
    requires '.' in filename
    ensures EndsWith(Lower(filename), "." + Extension(filename))
  {
    var low, ext := Lower(filename), Extension(filename);
    var p := |filename| - |ext| - 1;
    assert low[p] == '.' && low[p + 1..] == ext;
    assert low[p..] == [low[p]] + low[p + 1..];
  }

  /** A name ending in a dot and a dot-free `e` has extension `e`. */
  lemma ExtensionOfEnding(filename: string, e: string)
    requires '.' !in e
    requires EndsWith(Lower(filename), "." + e)
    ensures Extension(filename) == e
  {
    var low := Lower(filename);
    var n := |filename|;
    var p := n - |e| - 1;
    assert low[p] == '.';
    LowerKeepsDot(filename[p]);
    assert '.' in filename;
    forall j | p < j < n
      ensures filename[j] != '.'
    {
      assert low[j] == e[j - p - 1];
      LowerKeepsDot(filename[j]);
    }
    var k := LastIndexOf(filename, '.').value;
    assert k == p;
    assert low[p + 1..] == e;
  }

  /** For a non-empty extension `e` without a dot, the extracted extension is
      `e` exactly when the lower-cased file name ends in "." followed by `e`. */
  lemma ExtensionIsSuffix(filename: string, e: string)
    requires e != [] && '.' !in e
    ensures Extension(filename) == e <==> EndsWith(Lower(filename), "." + e)
  {
    if EndsWith(Lower(filename), "." + e) {
      ExtensionOfEnding(filename, e);
    } else if Extension(filename) == e {
      ExtensionEndsName(filename);
    }
  }

  /** The reader is chosen by a case-insensitive match on the file name's
      ending: ".pdf", then ".docx", otherwise plain text. */
  lemma ReadAnyTextDispatch(filename: string, data: bytes, readers: Readers)
    ensures ReadAnyText(filename, data, readers) ==
      if EndsWith(Lower(filename), ".pdf") then Success(readers.pdf(data))
      else if EndsWith(Lower(filename), ".docx") then readers.docx(data)
      else Success(readers.utf8(data))
  {
    assert "." + "pdf" == ".pdf";
    assert "." + "docx" == ".docx";
    ExtensionIsSuffix(filename, "pdf");
    ExtensionIsSuffix(filename, "docx");
  }
}
