/**
 * Text extraction from a PDF résumé (`extract_text_from_pdf` in functions.py).
 *
 * The PDF library is abstracted into what it yields: either the document
 * cannot be opened, or it is a sequence of pages, each of which gives its
 * text or fails. Every such failure is caught and re-raised as a
 * RuntimeError whose message starts with the fixed prefix below.
 */
module PdfExtract {
  import opened Wrappers

  datatype Page = Page(text: string) | Unreadable(reason: string)

  datatype Document = Opened(pages: seq<Page>) | OpenFailed(reason: string)

  const PdfErrorPrefix: string := "Failed to extract text from PDF: "

  /** Each page's text followed by a newline, in page order (a left fold, as the loop builds it). */
  function JoinPages(texts: seq<string>): string
  {
    if texts == [] then "" else JoinPages(texts[..|texts| - 1]) + texts[|texts| - 1] + "\n"
  }

  /** Sum of the lengths of the page texts. */
  function TotalLength(texts: seq<string>): nat
  {
    if texts == [] then 0 else TotalLength(texts[..|texts| - 1]) + |texts[|texts| - 1]|
  }

  predicate AllReadable(pages: seq<Page>) {
    forall i :: 0 <= i < |pages| ==> pages[i].Page?
  }

  /** The texts of pages that all read successfully. */
  function Texts(pages: seq<Page>): (texts: seq<string>)
    requires AllReadable(pages)
    ensures |texts| == |pages|
    ensures forall i :: 0 <= i < |pages| ==> texts[i] == pages[i].text
  {
    seq(|pages|, i requires 0 <= i < |pages| => pages[i].text)
  }

  /** The index of the first page that fails, or the page count when none does. */
  function FirstUnreadable(pages: seq<Page>): (k: nat)
    ensures k <= |pages|
    ensures forall i :: 0 <= i < k ==> pages[i].Page?
    ensures k < |pages| ==> pages[k].Unreadable?
  {
    if pages == [] || pages[0].Unreadable? then 0 else 1 + FirstUnreadable(pages[1..])
  }

  /** The reason carried by the first failure: the open, or the first unreadable page. */
  function FailureReason(doc: Document): string
    requires doc.OpenFailed? || !AllReadable(doc.pages)
  {
    if doc.OpenFailed? then doc.reason else doc.pages[FirstUnreadable(doc.pages)].reason
  }

  /**
   * extract_text_from_pdf: success exactly when the document opens and every
   * page reads, with the pages joined in order; otherwise the first failure,
   * reported with the fixed prefix.
   */
  method ExtractTextFromPdf(doc: Document) returns (r: Result<string, string>)
    ensures r.Success? <==> doc.Opened? && AllReadable(doc.pages)
    ensures r.Success? ==> r.value == JoinPages(Texts(doc.pages))
    ensures r.Failure? ==> r.error == PdfErrorPrefix + FailureReason(doc)
    ensures doc == Opened([]) ==> r == Success("")
  {
    if doc.OpenFailed? {
      return Failure(PdfErrorPrefix + doc.reason);
    }
    var pages := doc.pages;
    var text := "";
    for i := 0 to |pages|
      invariant AllReadable(pages[..i])
      invariant text == JoinPages(Texts(pages[..i]))
    {
      match pages[i]
      case Unreadable(reason) =>
        assert FirstUnreadable(pages) == i by {
          FirstUnreadableAt(pages, i);
        }
        return Failure(PdfErrorPrefix + reason);
      case Page(t) =>
        assert Texts(pages[..i + 1]) == Texts(pages[..i]) + [t];
        text := text + t + "\n";
    }
    assert pages[..|pages|] == pages;
    r := Success(text);
  }

  /** A failing page preceded only by readable pages is the first failure. */
  lemma {:induction false} FirstUnreadableAt(pages: seq<Page>, i: nat)
    requires i < |pages| && pages[i].Unreadable?
    requires forall j :: 0 <= j < i ==> pages[j].Page?
    ensures FirstUnreadable(pages) == i
  {
    if i > 0 {
      FirstUnreadableAt(pages[1..], i - 1);
    }
  }

  /** The text is as long as all the pages together plus one newline per page. */
  lemma {:induction false} JoinPagesLength(texts: seq<string>)
    ensures |JoinPages(texts)| == TotalLength(texts) + |texts|
  {
    if texts != [] {
      JoinPagesLength(texts[..|texts| - 1]);
    }
  }

  /** Joining distributes over splitting the document: pages are never reordered. */
  lemma {:induction false} JoinPagesAppend(a: seq<string>, b: seq<string>)
    ensures JoinPages(a + b) == JoinPages(a) + JoinPages(b)
    decreases |b|
  {
    if b == [] {
      assert a + b == a;
    } else {
      assert (a + b)[..|a + b| - 1] == a + b[..|b| - 1];
      JoinPagesAppend(a, b[..|b| - 1]);
    }
  }

  /**
   * Page `i` sits in the text after the earlier pages, is followed by its
   * newline, and the later pages come after it.
   */
  lemma {:induction false} PageInPlace(texts: seq<string>, i: nat)
    requires i < |texts|
    ensures JoinPages(texts) == JoinPages(texts[..i]) + texts[i] + "\n" + JoinPages(texts[i + 1..])
  {
    var before, page, after := texts[..i], [texts[i]], texts[i + 1..];
    assert texts == before + (page + after);
    JoinPagesAppend(before, page + after);
    JoinPagesAppend(page, after);
    assert page[..0] == [];
    assert JoinPages(page) == texts[i] + "\n";
  }
}
