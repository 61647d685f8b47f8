/** `pdf_to_text`: the text of an uploaded PDF, page by page. The PDF
    library is replaced by what it reports for each page. */
module PdfText {
  import opened Wrappers
  import opened Text

  /** What `page.extract_text()` does for one page: it returns a string or
      `None`, or it raises. */
  datatype Page = Extracts(text: Option<string>) | Raises

  /** A stored PDF as the reader sees it: a file it cannot open (or an
      absent one), or the sequence of its pages. */
  datatype Pdf = Unreadable | Pages(pages: seq<Page>)

  /** The text one page adds to the result: its text and a newline, when the
      extracted value is truthy (a non-empty string). */
  function PageText(p: Page): string {
    match p
    case Extracts(Some(t)) => if t != [] then t + "\n" else []
    case _ => []
  }

  /** The pages' texts concatenated in page order. */
  function Concat(pages: seq<Page>): string {
    if pages == [] then [] else PageText(pages[0]) + Concat(pages[1..])
  }

  /** Every page yields text without raising. */
  predicate AllExtract(pages: seq<Page>) {
    forall k :: 0 <= k < |pages| ==> pages[k].Extracts?
  }

  /** The result `pdf_to_text` returns: `None` when the reader or any page
      raises, otherwise the concatenated page texts. */
  function ExtractedText(pdf: Pdf): Option<string> {
    match pdf
    case Unreadable => None
    case Pages(pages) => if AllExtract(pages) then Some(Concat(pages)) else None
  }

  /** The loop of `pdf_to_text`: it accumulates each page's text and stops
      with `None` at the first page that raises. */
  method PdfToText(pdf: Pdf) returns (r: Option<string>)
    ensures r == ExtractedText(pdf)
  {
    if pdf.Unreadable? {
      return None;
    }
    var pages := pdf.pages;
    var text := "";
    for i := 0 to |pages|
      invariant AllExtract(pages[..i])
      invariant text == Concat(pages[..i])
    {
      match pages[i]
      case Raises =>
        assert !AllExtract(pages) by { assert !pages[i].Extracts?; }
        return None;
      case Extracts(extracted) =>
        if extracted.Some? && extracted.value != [] {
          text := text + extracted.value + "\n";
        }
      assert pages[..i + 1] == pages[..i] + [pages[i]];
      ConcatSnoc(pages[..i], pages[i]);
    }
    assert pages[..|pages|] == pages;
    return Some(text);
  }

  /** Concatenation distributes over splitting the pages in two. */
  lemma {:induction false} ConcatAppend(a: seq<Page>, b: seq<Page>)
    ensures Concat(a + b) == Concat(a) + Concat(b)
    decreases |a|
  {
    if a == [] {
      assert a + b == b;
    } else {
      assert (a + b)[0] == a[0];
      assert (a + b)[1..] == a[1..] + b;
      ConcatAppend(a[1..], b);
      AppendAssoc(PageText(a[0]), Concat(a[1..]), Concat(b));
    }
  }

  /** Read from the back: the last page's text comes last, as the loop adds it. */
  lemma ConcatSnoc(pages: seq<Page>, p: Page)
    ensures Concat(pages + [p]) == Concat(pages) + PageText(p)
  {
    ConcatAppend(pages, [p]);
    assert [p][1..] == [];
  }

  /** The text is empty exactly when no page has a non-empty text, so an
      image-only document gives `""` (which every upload route rejects). */
  lemma {:induction false} ConcatEmptyIff(pages: seq<Page>)
    ensures Concat(pages) == [] <==> forall k :: 0 <= k < |pages| ==> PageText(pages[k]) == []
    decreases |pages|
  {
    if pages != [] {
      var rest := pages[1..];
      ConcatEmptyIff(rest);
      assert forall k :: 1 <= k < |pages| ==> rest[k - 1] == pages[k];
    }
  }

  /** Each contributing page's text, followed by its newline, appears in the
      result after the text of the pages before it. */
  lemma PageTextInPlace(pages: seq<Page>, k: nat)
    requires k < |pages|
    ensures var pre := |Concat(pages[..k])|;
      pre + |PageText(pages[k])| <= |Concat(pages)|
      && Concat(pages)[pre..pre + |PageText(pages[k])|] == PageText(pages[k])
  {
    assert pages == pages[..k] + ([pages[k]] + pages[k + 1..]);
    ConcatAppend(pages[..k], [pages[k]] + pages[k + 1..]);
    assert ([pages[k]] + pages[k + 1..])[1..] == pages[k + 1..];
  }

  /** Any non-empty result ends with a newline: every page keeps its trailing `"\n"`. */
  lemma {:induction false} ConcatEndsWithNewline(pages: seq<Page>)
    requires Concat(pages) != []
    ensures Concat(pages)[|Concat(pages)| - 1] == '\n'
    decreases |pages|
  {
    var rest := pages[1..];
    if Concat(rest) != [] {
      ConcatEndsWithNewline(rest);
    }
  }

  /** The result is `None` exactly when the reader fails or some page raises. */
  lemma ExtractedTextNoneIff(pdf: Pdf)
    ensures ExtractedText(pdf) == None <==>
      pdf.Unreadable? || exists k :: 0 <= k < |pdf.pages| && pdf.pages[k].Raises?
  {
  }
}
