/**
 * Page-range text extraction (pkg/pdf/extractor.go). The PDF library is an
 * oracle: `open` turns a file path into a document or an error message, and
 * a document is its list of pages, page `p` (1-based) being `pages[p - 1]`.
 */
module Extraction {
  import opened Wrappers
  import opened Strings
  import opened TextCleaner

  /** What the library yields for one page: a null page, its plain text, or a text error. */
  datatype PageContent = NullPage | PageText(text: string) | PageError(error: string)

  datatype PdfDocument = PdfDocument(pages: seq<PageContent>)

  /** `pdf.Open` followed by reading the document. */
  type Opener = string -> Result<PdfDocument, string>

  function RangeMessage(startPage: int, endPage: int): string {
    "invalid page range: " + Decimal(startPage) + "-" + Decimal(endPage)
  }

  function OpenMessage(error: string): string {
    "failed to open PDF: " + error
  }

  function PageCountMessage(endPage: int, numPages: int): string {
    "end page " + Decimal(endPage) + " exceeds document pages " + Decimal(numPages)
  }

  function PageErrorMessage(pageNum: int, error: string): string {
    "failed to extract page " + Decimal(pageNum) + ": " + error
  }

  const NoTextMessage := "no text could be extracted " + "(PDF may be image-based or scanned)"

  /** The marker line written before each page's text. */
  function PageMarker(pageNum: int): string {
    "--- Page " + Decimal(pageNum) + " ---\n"
  }

  /** What one page adds to the result: its marker, its cleaned text, a blank line. */
  function PageBlock(pageNum: int, cleaned: string): string {
    PageMarker(pageNum) + cleaned + "\n\n"
  }

  /** The text cleaner applied to each page; `ExtractResult` passes `CleanPDFText`. */
  type Cleaner = string -> string

  /** Page `pageNum` (1-based) of a document. */
  function Page(doc: PdfDocument, pageNum: int): PageContent
    requires 1 <= pageNum <= |doc.pages|
  {
    doc.pages[pageNum - 1]
  }

  /**
   * The text the loop has built after the pages `startPage .. endPage`, or
   * the error of the first page whose text could not be read.
   */
  function PagesText(doc: PdfDocument, clean: Cleaner, startPage: int, endPage: int): Result<string, string>
    requires 1 <= startPage && endPage <= |doc.pages|
    decreases endPage - startPage
  {
    if endPage < startPage then Success("")
    else
      match PagesText(doc, clean, startPage, endPage - 1)
      case Failure(e) => Failure(e)
      case Success(acc) =>
        match Page(doc, endPage)
        case NullPage => Success(acc)
        case PageError(e) => Failure(PageErrorMessage(endPage, e))
        case PageText(t) => Success(acc + PageBlock(endPage, clean(t)))
  }

  /** What `Extractor.ExtractText` returns for a file and a page range. */
  function ExtractResult(open: Opener, filePath: string, startPage: int, endPage: int): Result<string, string> {
    if startPage < 1 || endPage < startPage then Failure(RangeMessage(startPage, endPage))
    else
      match open(filePath)
      case Failure(e) => Failure(OpenMessage(e))
      case Success(doc) =>
        if endPage > |doc.pages| then Failure(PageCountMessage(endPage, |doc.pages|))
        else
          match PagesText(doc, CleanPDFText, startPage, endPage)
          case Failure(e) => Failure(e)
          case Success(result) =>
            if TrimSpace(result) == "" then Failure(NoTextMessage) else Success(result)
  }

  /**
   * The page loop of `Extractor.ExtractText`: pages in order, a null page
   * skipped, the first page error returned, every other page appended as
   * its block. `ExtractText` runs it with `CleanPDFText` as `clean`.
   */
  method ExtractPages(doc: PdfDocument, clean: Cleaner, startPage: int, endPage: int)
    returns (r: Result<string, string>)
    requires 1 <= startPage <= endPage <= |doc.pages|
    ensures r == PagesText(doc, clean, startPage, endPage)
  {
    var extractedText := "";
    for pageNum := startPage to endPage + 1
      invariant PagesText(doc, clean, startPage, pageNum - 1) == Success(extractedText)
    {
      var page := doc.pages[pageNum - 1];
      if page.NullPage? {
        continue;
      }
      if page.PageError? {
        FailureSticks(doc, clean, startPage, pageNum, endPage);
        return Failure(PageErrorMessage(pageNum, page.error));
      }
      var cleanedText := clean(page.text);
      ghost var before := extractedText;
      extractedText := extractedText + PageMarker(pageNum);
      extractedText := extractedText + cleanedText;
      extractedText := extractedText + "\n\n";
      AppendBlock(before, PageMarker(pageNum), cleanedText, "\n\n");
    }
    r := Success(extractedText);
  }

  /** `Extractor.ExtractText`: range checks, then the pages in order, then the blank check. */
  method ExtractText(open: Opener, filePath: string, startPage: int, endPage: int) returns (r: Result<string, string>)
    ensures r == ExtractResult(open, filePath, startPage, endPage)
  {
    if startPage < 1 || endPage < startPage {
      return Failure(RangeMessage(startPage, endPage));
    }
    var loaded := open(filePath);
    if loaded.Failure? {
      return Failure(OpenMessage(loaded.error));
    }
    var doc := loaded.value;
    var numPages := |doc.pages|;
    if endPage > numPages {
      return Failure(PageCountMessage(endPage, numPages));
    }
    var pages := ExtractPages(doc, CleanPDFText, startPage, endPage);
    if pages.Failure? {
      return pages;
    }
    var result := pages.value;
    if TrimSpace(result) == "" {
      return Failure(NoTextMessage);
    }
    r := Success(result);
  }

  /** Once a page has failed, later pages change nothing: the first error is the answer. */
  lemma {:induction false} FailureSticks(doc: PdfDocument, clean: Cleaner, startPage: int, mid: int, endPage: int)
    requires 1 <= startPage <= mid <= endPage <= |doc.pages|
    requires PagesText(doc, clean, startPage, mid).Failure?
    ensures PagesText(doc, clean, startPage, endPage) == PagesText(doc, clean, startPage, mid)
    decreases endPage - mid
  {
    if mid < endPage {
      FailureSticks(doc, clean, startPage, mid, endPage - 1);
    }
  }

  // ---------------------------------------------------------------------
  // ValidatePageRange
  // ---------------------------------------------------------------------

  const StartPageMessage := "start page must be at least 1"
  const PageOrderMessage := "end page must be greater than or equal to start page"

  /**
   * `Extractor.ValidatePageRange`: `None` for a valid range, otherwise the
   * message of the first failed check (start, order, opening, page count).
   */
  function ValidatePageRange(open: Opener, filePath: string, startPage: int, endPage: int): (r: Option<string>)
    ensures r.None? <==> open(filePath).Success? && 1 <= startPage <= endPage <= |open(filePath).value.pages|
    ensures startPage < 1 ==> r == Some(StartPageMessage)
    ensures 1 <= startPage && endPage < startPage ==> r == Some(PageOrderMessage)
  {
    if startPage < 1 then Some(StartPageMessage)
    else if endPage < startPage then Some(PageOrderMessage)
    else
      match open(filePath)
      case Failure(e) => Some(OpenMessage(e))
      case Success(doc) =>
        if endPage > |doc.pages| then Some(PageCountMessage(endPage, |doc.pages|)) else None
  }

  /** A range the validator rejects is rejected by the extractor too. */
  lemma ValidationAgrees(open: Opener, filePath: string, startPage: int, endPage: int)
    ensures ValidatePageRange(open, filePath, startPage, endPage).Some?
      ==> ExtractResult(open, filePath, startPage, endPage).Failure?
  {
  }

  // ---------------------------------------------------------------------
  // Properties of the assembled text.
  // ---------------------------------------------------------------------

  /** A range that is invalid on its face fails before the file is opened, whatever the file. */
  lemma RangeCheckedBeforeOpen(open: Opener, other: Opener, filePath: string, startPage: int, endPage: int)
    requires startPage < 1 || endPage < startPage
    ensures ExtractResult(open, filePath, startPage, endPage) == Failure(RangeMessage(startPage, endPage))
    ensures ExtractResult(other, filePath, startPage, endPage) == ExtractResult(open, filePath, startPage, endPage)
  {
  }

  /** Every page in `startPage .. endPage` is null. */
  ghost predicate AllNull(doc: PdfDocument, startPage: int, endPage: int)
    requires 1 <= startPage && endPage <= |doc.pages|
  {
    forall p :: startPage <= p <= endPage ==> Page(doc, p).NullPage?
  }

  /**
   * The text of a range is empty exactly when every page in it is null;
   * otherwise it holds a marker's `-`, which is not white space.
   */
  lemma {:induction false} PagesTextEmpty(doc: PdfDocument, clean: Cleaner, startPage: int, endPage: int)
    requires 1 <= startPage && endPage <= |doc.pages|
    requires PagesText(doc, clean, startPage, endPage).Success?
    ensures var text := PagesText(doc, clean, startPage, endPage).value;
      (text == "" <==> AllNull(doc, startPage, endPage))
      && (text == "" || '-' in text)
    decreases endPage - startPage
  {
    if endPage >= startPage {
      PagesTextEmpty(doc, clean, startPage, endPage - 1);
      var acc := PagesText(doc, clean, startPage, endPage - 1).value;
      match Page(doc, endPage)
      case NullPage =>
        assert AllNull(doc, startPage, endPage) <==> AllNull(doc, startPage, endPage - 1);
      case PageError(_) =>
      case PageText(t) =>
        var block := PageBlock(endPage, clean(t));
        assert block[0] == '-';
        assert (acc + block)[|acc|] == '-';
        assert !AllNull(doc, startPage, endPage);
    }
  }

  /** A range of null pages reads without error and adds no text. */
  lemma {:induction false} AllNullSucceeds(doc: PdfDocument, clean: Cleaner, startPage: int, endPage: int)
    requires 1 <= startPage && endPage <= |doc.pages| && AllNull(doc, startPage, endPage)
    ensures PagesText(doc, clean, startPage, endPage) == Success("")
    decreases endPage - startPage
  {
    if endPage >= startPage {
      AllNullSucceeds(doc, clean, startPage, endPage - 1);
    }
  }

  /** A page error's message names the page, so it is never the "no text" message. */
  lemma {:induction false} PageErrorText(doc: PdfDocument, clean: Cleaner, startPage: int, endPage: int)
    requires 1 <= startPage && endPage <= |doc.pages|
    requires PagesText(doc, clean, startPage, endPage).Failure?
    ensures var e := PagesText(doc, clean, startPage, endPage).error;
      |e| > 0 && e[0] == 'f' && e != NoTextMessage
    decreases endPage - startPage
  {
    if endPage >= startPage && PagesText(doc, clean, startPage, endPage - 1).Failure? {
      PageErrorText(doc, clean, startPage, endPage - 1);
    } else {
      assert Page(doc, endPage).PageError?;
      assert PageErrorMessage(endPage, Page(doc, endPage).error)[0] == 'f';
      assert NoTextMessage[0] == 'n';
    }
  }

  /**
   * "No text could be extracted" is reported exactly when the range is
   * valid, the document opens and every page in the range is null.
   */
  lemma NoTextExactlyWhenAllNull(open: Opener, filePath: string, startPage: int, endPage: int)
    ensures ExtractResult(open, filePath, startPage, endPage) == Failure(NoTextMessage)
      <==> (1 <= startPage <= endPage && open(filePath).Success?
           && endPage <= |open(filePath).value.pages|
           && AllNull(open(filePath).value, startPage, endPage))
  {
    assert NoTextMessage[0] == 'n';
    if 1 <= startPage <= endPage && open(filePath).Success? && endPage <= |open(filePath).value.pages| {
      var doc := open(filePath).value;
      var pages := PagesText(doc, CleanPDFText, startPage, endPage);
      if pages.Success? {
        PagesTextEmpty(doc, CleanPDFText, startPage, endPage);
        var text := pages.value;
        if text != "" {
          var k :| 0 <= k < |text| && text[k] == '-';
          assert !IsUnicodeSpace(text[k]);
        }
      } else {
        if AllNull(doc, startPage, endPage) {
          AllNullSucceeds(doc, CleanPDFText, startPage, endPage);
        }
        PageErrorText(doc, CleanPDFText, startPage, endPage);
      }
    } else if 1 <= startPage <= endPage && open(filePath).Success? {
      assert PageCountMessage(endPage, |open(filePath).value.pages|)[0] == 'e';
    } else if 1 <= startPage <= endPage {
      assert OpenMessage(open(filePath).error)[0] == 'f';
    } else {
      assert RangeMessage(startPage, endPage)[0] == 'i';
    }
  }

  /**
   * The first page whose text fails decides the answer: pages after it are
   * never read, and no partial text is returned.
   */
  lemma FirstPageErrorWins(doc: PdfDocument, clean: Cleaner, startPage: int, bad: int, endPage: int)
    requires 1 <= startPage <= bad <= endPage <= |doc.pages|
    requires Page(doc, bad).PageError?
    requires forall p :: startPage <= p < bad ==> !Page(doc, p).PageError?
    ensures PagesText(doc, clean, startPage, endPage) == Failure(PageErrorMessage(bad, Page(doc, bad).error))
  {
    NoErrorSucceeds(doc, clean, startPage, bad - 1);
    FailureSticks(doc, clean, startPage, bad, endPage);
  }

  /** A range without page errors reads successfully. */
  lemma {:induction false} NoErrorSucceeds(doc: PdfDocument, clean: Cleaner, startPage: int, endPage: int)
    requires 1 <= startPage && endPage <= |doc.pages|
    requires forall p :: startPage <= p <= endPage ==> !Page(doc, p).PageError?
    ensures PagesText(doc, clean, startPage, endPage).Success?
    decreases endPage - startPage
  {
    if endPage >= startPage {
      NoErrorSucceeds(doc, clean, startPage, endPage - 1);
    }
  }

  /**
   * The text of a range is the text of its first part followed by the text
   * of the rest: pages appear in order, each cleaned on its own.
   */
  lemma {:induction false} PagesTextSplit(doc: PdfDocument, clean: Cleaner, startPage: int, mid: int, endPage: int)
    requires 1 <= startPage <= mid <= endPage + 1 && endPage <= |doc.pages|
    requires PagesText(doc, clean, startPage, endPage).Success?
    ensures PagesText(doc, clean, startPage, mid - 1).Success?
    ensures PagesText(doc, clean, mid, endPage).Success?
    ensures PagesText(doc, clean, startPage, endPage).value
      == PagesText(doc, clean, startPage, mid - 1).value + PagesText(doc, clean, mid, endPage).value
    decreases endPage - mid
  {
    var whole := PagesText(doc, clean, startPage, endPage).value;
    if mid == endPage + 1 {
      assert whole + "" == whole;
    } else {
      var before := PagesText(doc, clean, startPage, endPage - 1);
      assert before.Success?;
      PagesTextSplit(doc, clean, startPage, mid, endPage - 1);
      var head := PagesText(doc, clean, startPage, mid - 1).value;
      var tail := PagesText(doc, clean, mid, endPage - 1).value;
      assert before.value == head + tail;
      match Page(doc, endPage)
      case NullPage =>
      case PageText(t) =>
        var block := PageBlock(endPage, clean(t));
        assert whole == (head + tail) + block;
        assert PagesText(doc, clean, mid, endPage).value == tail + block;
        ConcatAssoc(head, tail, block);
    }
  }

  /** Three writes to the builder append one page block. */
  lemma AppendBlock(a: string, b: string, c: string, d: string)
    ensures ((a + b) + c) + d == a + ((b + c) + d)
  {
  }

  /** Kept apart so that the split proof does not carry sequence associativity in its whole context. */
  lemma ConcatAssoc(a: string, b: string, c: string)
    ensures (a + b) + c == a + (b + c)
  {
  }

  /** A single readable page gives its marker, its cleaned text and a blank line. */
  lemma SinglePage(doc: PdfDocument, clean: Cleaner, pageNum: int)
    requires 1 <= pageNum <= |doc.pages| && Page(doc, pageNum).PageText?
    ensures PagesText(doc, clean, pageNum, pageNum)
      == Success("--- Page " + Decimal(pageNum) + " ---\n" + clean(Page(doc, pageNum).text) + "\n\n")
  {
    var block := PageBlock(pageNum, clean(Page(doc, pageNum).text));
    assert PagesText(doc, clean, pageNum, pageNum - 1) == Success("");
    assert "" + block == block;
  }
}
