/**
 * The service layer (internal/services): the read-through extraction cache
 * of `PDFService` and the summary pipeline of `StudyService`.
 *
 * Clocks are parameters (`elapsed`, `generationTime`), the PDF library is
 * the `Opener` oracle, the summarisation model is the `Endpoint` oracle and
 * database failures are fault parameters.
 */
module Services {
  import opened Wrappers
  import opened Strings
  import opened Repositories
  import opened Extraction
  import Summarizer

  // ---------------------------------------------------------------------
  // PDFService.ExtractText: the read-through cache.
  // ---------------------------------------------------------------------

  /** Extracted text and the extraction time that goes with it. */
  datatype Extracted = Extracted(text: string, extractionTime: int)

  /** Database failures during one cached extraction: on the lookup, on the write. */
  datatype CacheFaults = CacheFaults(lookup: Option<string>, write: Option<string>)

  /** The answer of one cached extraction, the cache after it, and whether the PDF was read. */
  datatype CacheStep = CacheStep(result: Result<Extracted, string>, cache: map<CacheKey, ExtractedContent>, extractorCalled: bool)

  /**
   * `PDFService.ExtractText` on cache contents `cache`: a lookup error is
   * returned; a hit returns the cached pair without reading the PDF; a miss
   * extracts, and a successful extraction is upserted under the exact key
   * unless the write fails, which the caller never sees.
   */
  function CachedExtract(cache: map<CacheKey, ExtractedContent>, open: Opener, documentID: int, filePath: string,
                         startPage: int, endPage: int, faults: CacheFaults, elapsed: int): (step: CacheStep)
    ensures faults.lookup.Some? ==> step.result.Failure? && !step.extractorCalled && step.cache == cache
    ensures var key := CacheKey(documentID, startPage, endPage);
      faults.lookup.None? && key in cache ==>
        step == CacheStep(Success(Extracted(cache[key].content, cache[key].extractionTime)), cache, false)
    ensures step.result.Failure? ==> step.cache == cache
    ensures step.extractorCalled <==> faults.lookup.None? && CacheKey(documentID, startPage, endPage) !in cache
    ensures step.extractorCalled ==>
      (step.result.Success? <==> ExtractResult(open, filePath, startPage, endPage).Success?)
    ensures step.extractorCalled && step.result.Success? ==>
      step.result == Success(Extracted(ExtractResult(open, filePath, startPage, endPage).value, elapsed))
    ensures step.extractorCalled && step.result.Success? ==>
      step.cache == if faults.write.None?
        then cache[CacheKey(documentID, startPage, endPage) :=
                   ExtractedContent(documentID, startPage, endPage, step.result.value.text, elapsed)]
        else cache
    ensures step.extractorCalled && step.result.Failure? ==>
      step.result.error == ExtractResult(open, filePath, startPage, endPage).error
    ensures forall k :: k != CacheKey(documentID, startPage, endPage) ==>
      (k in step.cache <==> k in cache) && (k in cache ==> step.cache[k] == cache[k])
  {
    var key := CacheKey(documentID, startPage, endPage);
    if faults.lookup.Some? then
      CacheStep(Failure("cache lookup failed: " + ("failed to get extracted content: " + faults.lookup.value)), cache, false)
    else if key in cache then
      CacheStep(Success(Extracted(cache[key].content, cache[key].extractionTime)), cache, false)
    else
      match ExtractResult(open, filePath, startPage, endPage)
      case Failure(e) => CacheStep(Failure(e), cache, true)
      case Success(text) =>
        var entry := ExtractedContent(documentID, startPage, endPage, text, elapsed);
        CacheStep(Success(Extracted(text, elapsed)), if faults.write.None? then cache[key := entry] else cache, true)
  }

  /** `PDFService`: the PDF extractor and the shared content store. */
  class PdfService {
    const open: Opener
    const contentRepo: ContentRepository

    constructor(open: Opener, contentRepo: ContentRepository)
      ensures this.open == open && this.contentRepo == contentRepo
    {
      this.open := open;
      this.contentRepo := contentRepo;
    }

    /** `PDFService.ExtractText`; `extractorCalled` records whether the PDF was read. */
    method ExtractText(documentID: int, filePath: string, startPage: int, endPage: int,
                       faults: CacheFaults, elapsed: int)
      returns (r: Result<Extracted, string>, ghost extractorCalled: bool)
      requires contentRepo.Valid()
      modifies contentRepo
      ensures contentRepo.Valid()
      ensures var step := CachedExtract(old(contentRepo.extracted), open, documentID, filePath,
                                        startPage, endPage, faults, elapsed);
        r == step.result && contentRepo.extracted == step.cache && extractorCalled == step.extractorCalled
      ensures contentRepo.generated == old(contentRepo.generated) && contentRepo.lastID == old(contentRepo.lastID)
    {
      extractorCalled := false;
      var cached := contentRepo.GetExtracted(documentID, startPage, endPage, faults.lookup);
      if cached.Failure? {
        return Failure("cache lookup failed: " + cached.error), false;
      }
      if cached.value.Some? {
        return Success(Extracted(cached.value.value.content, cached.value.value.extractionTime)), false;
      }
      extractorCalled := true;
      var text := Extraction.ExtractText(open, filePath, startPage, endPage);
      if text.Failure? {
        return Failure(text.error), true;
      }
      var extractionTime := elapsed;
      var entry := ExtractedContent(documentID, startPage, endPage, text.value, extractionTime);
      var writeError := contentRepo.CreateExtracted(entry, faults.write);
      r := Success(Extracted(text.value, extractionTime));
    }
  }

  /**
   * After a successful extraction whose cache write went through, asking
   * again for the same key returns the same pair without reading the PDF.
   */
  lemma SecondCallHits(cache: map<CacheKey, ExtractedContent>, open: Opener, documentID: int,
                       filePath: string, startPage: int, endPage: int, elapsed: int, later: int,
                       laterWrite: Option<string>)
    requires CachedExtract(cache, open, documentID, filePath, startPage, endPage, CacheFaults(None, None), elapsed).result.Success?
    ensures var first := CachedExtract(cache, open, documentID, filePath, startPage, endPage, CacheFaults(None, None), elapsed);
      var second := CachedExtract(first.cache, open, documentID, filePath, startPage, endPage, CacheFaults(None, laterWrite), later);
      second.result == first.result && !second.extractorCalled && second.cache == first.cache
  {
    var key := CacheKey(documentID, startPage, endPage);
    var first := CachedExtract(cache, open, documentID, filePath, startPage, endPage, CacheFaults(None, None), elapsed);
    assert key in first.cache && first.cache[key].content == first.result.value.text
      && first.cache[key].extractionTime == first.result.value.extractionTime;
  }

  /** Whether the cache write fails never changes what the caller receives. */
  lemma WriteFailureInvisible(cache: map<CacheKey, ExtractedContent>, open: Opener, documentID: int,
                              filePath: string, startPage: int, endPage: int, lookup: Option<string>,
                              write: Option<string>, elapsed: int)
    ensures CachedExtract(cache, open, documentID, filePath, startPage, endPage, CacheFaults(lookup, write), elapsed).result
         == CachedExtract(cache, open, documentID, filePath, startPage, endPage, CacheFaults(lookup, None), elapsed).result
  {
  }

  // ---------------------------------------------------------------------
  // StudyService
  // ---------------------------------------------------------------------

  const ModelName := "facebook/bart-large-cnn"
  const SummaryType := "summary"
  const UnauthorizedDocument := "unauthorized access to document"
  const UnauthorizedContent := "unauthorized access to content"

  /** `GenerateSummaryRequest`. */
  datatype SummaryRequest = SummaryRequest(
    sessionID: string, documentID: int, pageStart: int, pageEnd: int, academicLevel: string)

  /** `GenerateSummaryResponse`. */
  datatype SummaryResponse = SummaryResponse(contentID: int, summary: string, generationTime: int, modelUsed: string)

  /**
   * What `StudyService.GenerateSummary` ends in: a response, an error, or
   * the runtime panic of the summariser indexing an empty chunk list.
   */
  datatype Outcome = Generated(response: SummaryResponse) | Rejected(message: string) | Panicked

  /** Database failures during one summary request. */
  datatype StudyFaults = StudyFaults(
    documentLookup: Option<string>, cache: CacheFaults, insert: Option<string>, lastInsertID: Option<string>)

  /** The `"start-end"` text stored as the record's input pages and the payload's pages. */
  function PageSpan(startPage: int, endPage: int): string {
    Decimal(startPage) + "-" + Decimal(endPage)
  }

  /**
   * The checks that precede any extraction: the document exists and is not
   * deleted, belongs to the requesting session, and the range fits it.
   * The answer is the document or the message `GenerateSummary` returns.
   */
  function Admit(documents: map<int, Document>, open: Opener, req: SummaryRequest, fault: Option<string>): (r: Result<Document, string>)
    ensures r.Success? <==>
      FindDocument(documents, req.documentID, fault).Success?
      && documents[req.documentID].sessionID == req.sessionID
      && ValidatePageRange(open, documents[req.documentID].filePath, req.pageStart, req.pageEnd).None?
    ensures r.Success? ==> r.value == documents[req.documentID]
    ensures FindDocument(documents, req.documentID, fault).Failure? ==>
      r == Failure("document not found: " + FindDocument(documents, req.documentID, fault).error)
    ensures (FindDocument(documents, req.documentID, fault).Success?
             && documents[req.documentID].sessionID != req.sessionID) ==> r == Failure(UnauthorizedDocument)
  {
    match FindDocument(documents, req.documentID, fault)
    case Failure(e) => Failure("document not found: " + e)
    case Success(doc) =>
      if doc.sessionID != req.sessionID then Failure(UnauthorizedDocument)
      else
        match ValidatePageRange(open, doc.filePath, req.pageStart, req.pageEnd)
        case Some(e) => Failure(e)
        case None => Success(doc)
  }

  /** The record `GenerateSummary` stores for a summary (its id is set by the store). */
  function SummaryRecord(req: SummaryRequest, summary: string, generationTime: int): GeneratedContent {
    GeneratedContent(0, req.sessionID, req.documentID, SummaryType, req.academicLevel,
                     PageSpan(req.pageStart, req.pageEnd),
                     SummaryPayload(summary, PageSpan(req.pageStart, req.pageEnd), req.academicLevel),
                     ModelName, generationTime)
  }

  /** A session that does not own the document is refused whatever the file and the range. */
  lemma OwnershipBeforeRange(documents: map<int, Document>, open: Opener, other: Opener,
                             req: SummaryRequest, req2: SummaryRequest, fault: Option<string>)
    requires FindDocument(documents, req.documentID, fault).Success?
    requires documents[req.documentID].sessionID != req.sessionID
    requires req2 == req.(pageStart := req2.pageStart, pageEnd := req2.pageEnd)
    ensures Admit(documents, open, req, fault) == Failure(UnauthorizedDocument)
    ensures Admit(documents, other, req2, fault) == Admit(documents, open, req, fault)
  {
  }

  /**
   * The summary stage of `GenerateSummary` on extracted `text`, from the
   * records and last id before it to those after it: `summaryCalls` are the
   * texts sent to the model; a failed summary is an error and a summariser
   * panic a panic, both storing nothing; a summary is stored as exactly one
   * new record under a fresh id, unless the insert fails.
   */
  ghost predicate SummaryStage(before: map<int, GeneratedContent>, lastBefore: int,
                               after: map<int, GeneratedContent>, lastAfter: int,
                               ask: Summarizer.Summarize, req: SummaryRequest, text: string,
                               faults: StudyFaults, generationTime: int, r: Outcome, summaryCalls: seq<string>)
  {
    summaryCalls == Summarizer.SummaryCalls(ask, text)
    && match Summarizer.Summary(ask, text)
       case SummaryFailed(m) =>
         r == Rejected("failed to generate summary: " + m) && after == before && lastAfter == lastBefore
       case IndexOutOfRange =>
         r == Panicked && after == before && lastAfter == lastBefore
       case Summarized(summary) =>
         if faults.insert.Some? then
           r == Rejected("failed to save content: " + ("failed to create generated content: " + faults.insert.value))
           && after == before && lastAfter == lastBefore
         else
           lastAfter == lastBefore + 1 && lastAfter !in before
           && after == before[lastAfter := SummaryRecord(req, summary, generationTime).(id := lastAfter)]
           && r == if faults.lastInsertID.Some?
                   then Rejected("failed to save content: " + ("failed to get content ID: " + faults.lastInsertID.value))
                   else Generated(SummaryResponse(lastAfter, summary, generationTime, ModelName))
  }

  /**
   * The whole of `GenerateSummary` on the store `before`, giving `after`:
   * a request that is not admitted is refused with nothing read and nothing
   * stored; an admitted one goes through the cache step of `CachedExtract`,
   * and an extraction error is refused with no record stored; extracted
   * text goes on to the summary stage.
   */
  ghost predicate GenerateEffect(documents: map<int, Document>, open: Opener, endpoint: Summarizer.Endpoint,
                                 before: ContentState, after: ContentState, req: SummaryRequest,
                                 faults: StudyFaults, extractionTime: int, generationTime: int,
                                 r: Outcome, extractorCalled: bool, summaryCalls: seq<string>)
  {
    var admitted := Admit(documents, open, req, faults.documentLookup);
    if admitted.Failure? then
      r == Rejected(admitted.error) && !extractorCalled && summaryCalls == [] && after == before
    else
      var step := CachedExtract(before.extracted, open, req.documentID, admitted.value.filePath,
                                req.pageStart, req.pageEnd, faults.cache, extractionTime);
      after.extracted == step.cache && extractorCalled == step.extractorCalled
      && (step.result.Failure? ==>
            r == Rejected("failed to extract text: " + step.result.error) && summaryCalls == []
            && after.generated == before.generated && after.lastID == before.lastID)
      && (step.result.Success? ==>
            SummaryStage(before.generated, before.lastID, after.generated, after.lastID,
                         Summarizer.Asker(endpoint, req.academicLevel), req,
                         step.result.value.text, faults, generationTime, r, summaryCalls))
  }

  /** `StudyService`: documents, the PDF service, the content store and the summariser. */
  class StudyService {
    const endpoint: Summarizer.Endpoint
    const pdfService: PdfService
    const contentRepo: ContentRepository
    const docRepo: DocumentRepository

    /** The PDF service caches into the same store the records go to. */
    ghost predicate Valid()
      reads contentRepo
    {
      pdfService.contentRepo == contentRepo && contentRepo.Valid()
    }

    constructor(endpoint: Summarizer.Endpoint, pdfService: PdfService, docRepo: DocumentRepository)
      requires pdfService.contentRepo.Valid()
      ensures Valid()
      ensures this.endpoint == endpoint && this.pdfService == pdfService && this.docRepo == docRepo
      ensures contentRepo == pdfService.contentRepo
    {
      this.endpoint := endpoint;
      this.pdfService := pdfService;
      this.contentRepo := pdfService.contentRepo;
      this.docRepo := docRepo;
    }

    /**
     * `StudyService.GenerateSummary`. `extractorCalled` and `summaryCalls`
     * record whether the PDF was read and which texts went to the model.
     */
    method GenerateSummary(req: SummaryRequest, faults: StudyFaults, extractionTime: int, generationTime: int)
      returns (r: Outcome, ghost extractorCalled: bool, ghost summaryCalls: seq<string>)
      requires Valid()
      modifies contentRepo
      ensures Valid()
      ensures GenerateEffect(docRepo.documents, pdfService.open, endpoint, old(contentRepo.State()),
                             contentRepo.State(), req, faults, extractionTime, generationTime,
                             r, extractorCalled, summaryCalls)
    {
      summaryCalls := [];
      extractorCalled := false;
      var found := docRepo.GetByID(req.documentID, faults.documentLookup);
      if found.Failure? {
        return Rejected("document not found: " + found.error), false, [];
      }
      var doc := found.value;
      if doc.sessionID != req.sessionID {
        return Rejected(UnauthorizedDocument), false, [];
      }
      var invalid := ValidatePageRange(pdfService.open, doc.filePath, req.pageStart, req.pageEnd);
      if invalid.Some? {
        return Rejected(invalid.value), false, [];
      }
      var text;
      text, extractorCalled := pdfService.ExtractText(req.documentID, doc.filePath, req.pageStart, req.pageEnd,
                                                      faults.cache, extractionTime);
      if text.Failure? {
        return Rejected("failed to extract text: " + text.error), extractorCalled, [];
      }
      r, summaryCalls := SummarizeAndSave(req, text.value.text, faults, generationTime);
    }

    /**
     * The part of `GenerateSummary` after extraction: summarise the text,
     * then store the record.
     */
    method SummarizeAndSave(req: SummaryRequest, text: string, faults: StudyFaults, generationTime: int)
      returns (r: Outcome, ghost summaryCalls: seq<string>)
      requires Valid()
      modifies contentRepo
      ensures Valid()
      ensures contentRepo.extracted == old(contentRepo.extracted)
      ensures SummaryStage(old(contentRepo.generated), old(contentRepo.lastID), contentRepo.generated,
                           contentRepo.lastID, Summarizer.Asker(endpoint, req.academicLevel), req,
                           text, faults, generationTime, r, summaryCalls)
    {
      var summarized;
      summarized, summaryCalls := Summarizer.GenerateSummary(Summarizer.Asker(endpoint, req.academicLevel), text);
      if summarized.SummaryFailed? {
        return Rejected("failed to generate summary: " + summarized.message), summaryCalls;
      }
      if summarized.IndexOutOfRange? {
        return Panicked, summaryCalls;
      }
      r := SaveSummary(req, summarized.summary, faults, generationTime);
    }

    /**
     * The end of `GenerateSummary`: store the record, answer with its id.
     * A failed insert stores nothing; otherwise exactly one record is added
     * under a fresh id.
     */
    method SaveSummary(req: SummaryRequest, summary: string, faults: StudyFaults, generationTime: int)
      returns (r: Outcome)
      requires Valid()
      modifies contentRepo
      ensures Valid()
      ensures contentRepo.extracted == old(contentRepo.extracted)
      ensures faults.insert.Some? ==>
        r == Rejected("failed to save content: " + ("failed to create generated content: " + faults.insert.value))
        && contentRepo.generated == old(contentRepo.generated) && contentRepo.lastID == old(contentRepo.lastID)
      ensures faults.insert.None? ==>
        var id := contentRepo.lastID;
        id == old(contentRepo.lastID) + 1 && id !in old(contentRepo.generated)
        && contentRepo.generated == old(contentRepo.generated)[id := SummaryRecord(req, summary, generationTime).(id := id)]
        && r == if faults.lastInsertID.Some?
                then Rejected("failed to save content: " + ("failed to get content ID: " + faults.lastInsertID.value))
                else Generated(SummaryResponse(id, summary, generationTime, ModelName))
    {
      var record := SummaryRecord(req, summary, generationTime);
      var saved := contentRepo.CreateGenerated(record, faults.insert, faults.lastInsertID);
      if saved.Failure? {
        return Rejected("failed to save content: " + saved.error);
      }
      r := Generated(SummaryResponse(saved.value, summary, generationTime, ModelName));
    }

    /** `StudyService.GetGeneratedContent`: the stored record, for its own session only. */
    method GetGeneratedContent(contentID: int, sessionID: string, fault: Option<string>)
      returns (r: Result<GeneratedContent, string>)
      requires Valid()
      ensures r == Owned(contentRepo.generated, contentID, sessionID, fault)
    {
      var content := contentRepo.GetGeneratedByID(contentID, fault);
      if content.Failure? {
        return Failure(content.error);
      }
      if content.value.sessionID != sessionID {
        return Failure(UnauthorizedContent);
      }
      r := Success(content.value);
    }
  }

  /**
   * What `GetGeneratedContent` answers: the store's error as is, a refusal
   * for another session's record, otherwise the record unchanged.
   */
  function Owned(generated: map<int, GeneratedContent>, contentID: int, sessionID: string, fault: Option<string>)
    : (r: Result<GeneratedContent, string>)
    ensures r.Success? <==> fault.None? && contentID in generated && generated[contentID].sessionID == sessionID
    ensures r.Success? ==> r.value == generated[contentID]
    ensures fault.None? && contentID !in generated ==> r == Failure(ContentNotFound)
    ensures fault.None? && contentID in generated && generated[contentID].sessionID != sessionID
      ==> r == Failure(UnauthorizedContent)
  {
    if fault.Some? then Failure("failed to get content: " + fault.value)
    else if contentID !in generated then Failure(ContentNotFound)
    else if generated[contentID].sessionID != sessionID then Failure(UnauthorizedContent)
    else Success(generated[contentID])
  }
}
