/** The extension rules of the two upload endpoints and the choice of text
    extractor. The extractors themselves (UTF-8 decoding, PyPDF2, python-docx)
    are parameters; each may raise. */
module Extraction {
  import opened Wrappers
  import opened Text
  import opened Analysis

  datatype Format = Txt | Pdf | Docx

  const TxtSuffix := ".txt"
  const PdfSuffix := ".pdf"
  const DocxSuffix := ".docx"

  /** The format a file name announces, tested `.txt`, `.pdf`, `.docx` in that
      order and case-sensitively, as both endpoints do. */
  function FormatOf(filename: string): (f: Option<Format>)
    ensures f == Some(Txt) <==> EndsWith(filename, TxtSuffix)
    ensures f == Some(Pdf) <==> EndsWith(filename, PdfSuffix)
    ensures f == Some(Docx) <==> EndsWith(filename, DocxSuffix)
    ensures f.None? <==>
      !EndsWith(filename, TxtSuffix) && !EndsWith(filename, PdfSuffix) && !EndsWith(filename, DocxSuffix)
  {
    SuffixesExclusive(filename);
    if EndsWith(filename, TxtSuffix) then Some(Txt)
    else if EndsWith(filename, PdfSuffix) then Some(Pdf)
    else if EndsWith(filename, DocxSuffix) then Some(Docx)
    else None
  }

  /** No name ends in two of the suffixes, so the order of the tests does not
      matter. */
  lemma SuffixesExclusive(filename: string)
    ensures !(EndsWith(filename, TxtSuffix) && EndsWith(filename, PdfSuffix))
    ensures !(EndsWith(filename, TxtSuffix) && EndsWith(filename, DocxSuffix))
    ensures !(EndsWith(filename, PdfSuffix) && EndsWith(filename, DocxSuffix))
  {
    if EndsWith(filename, TxtSuffix) {
      assert filename[|filename| - 1] == 't';
      assert filename[|filename| - 2] == 'x';
    }
    if EndsWith(filename, PdfSuffix) {
      assert filename[|filename| - 1] == 'f';
    }
  }

  /** The single-file endpoint's guard: the name must end in `.pdf`, `.docx` or
      `.txt`. */
  predicate Supported(filename: string) {
    EndsWith(filename, PdfSuffix) || EndsWith(filename, DocxSuffix) || EndsWith(filename, TxtSuffix)
  }

  /** The guard accepts exactly the names some extractor handles. */
  lemma SupportedHasFormat(filename: string)
    ensures Supported(filename) <==> FormatOf(filename).Some?
  {
  }

  /** The suffix test is case-sensitive: an upper-case extension is refused. */
  lemma UpperCaseRefused(stem: string)
    ensures !Supported(stem + ".PDF")
  {
    var f := stem + ".PDF";
    assert f[|f| - 1] == 'F';
    assert f[|f| - 4..] == ".PDF";
  }

  /** UTF-8 decoding (`bytes.decode('utf-8')`), PyPDF2 and python-docx. */
  datatype Extractors = Extractors(
    decodeUtf8: seq<byte> -> Result<string, Failure>,
    pdf: seq<byte> -> Result<string, Failure>,
    docx: seq<byte> -> Result<string, Failure>)

  /** The text of a file in a known format. */
  function Extract(x: Extractors, f: Format, content: seq<byte>): (r: Result<string, Failure>)
    ensures f == Txt ==> r == x.decodeUtf8(content)
    ensures f == Pdf ==> r == x.pdf(content)
    ensures f == Docx ==> r == x.docx(content)
  {
    match f
    case Txt => x.decodeUtf8(content)
    case Pdf => x.pdf(content)
    case Docx => x.docx(content)
  }
}
