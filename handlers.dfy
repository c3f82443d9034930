/**
 * The study endpoints (internal/api/handlers/study_handler.go): request
 * checks in a fixed order, normalisation of the request, and the mapping of
 * service answers to HTTP replies. The HTTP exchange is a value: the method,
 * the session the middleware put in the context (if any), and the decoded
 * body (`None` when the body is not valid JSON for the request type).
 */
module Handlers {
  import opened Wrappers
  import opened Strings
  import opened Repositories
  import opened Services

  /** The JSON body of a generate request (`GenerateRequest`). */
  datatype GenerateRequest = GenerateRequest(
    documentID: int, pageStart: int, pageEnd: int, materialType: string, academicLevel: string)

  /** What the handler writes: an error envelope, one of the two success bodies, or nothing. */
  datatype Reply =
    | ErrorReply(status: int, code: string, message: string)
    | SummaryReply(contentID: int, materialType: string, summary: string, modelUsed: string, generationTime: int)
    | ContentReply(contentID: int, materialType: string, content: SummaryPayload, academicLevel: string,
                   pages: string, modelUsed: string, generationTime: int)
      /** The service panicked: the handler writes no reply; the server drops the connection. */
    | Aborted

  const DefaultAcademicLevel := "undergraduate"

  function MethodNotAllowed(): Reply { ErrorReply(405, "METHOD_NOT_ALLOWED", "Method not allowed") }
  function NoSession(): Reply { ErrorReply(401, "NO_SESSION", "No session found") }

  /** The request is acceptable to `HandleGenerate`'s checks. */
  predicate GenerateAcceptable(httpMethod: string, session: Option<string>, body: Option<GenerateRequest>) {
    httpMethod == "POST" && session.Some? && body.Some?
    && body.value.documentID > 0
    && 1 <= body.value.pageStart <= body.value.pageEnd
    && body.value.materialType in {"summary", ""}
  }

  /**
   * The checks of `HandleGenerate`, in order (method, session, JSON,
   * document id, page range, material type), and the service request they
   * produce: the session id from the context and a non-empty academic level.
   */
  function CheckGenerate(httpMethod: string, session: Option<string>, body: Option<GenerateRequest>)
    : (r: Result<SummaryRequest, Reply>)
    ensures r.Success? <==> GenerateAcceptable(httpMethod, session, body)
    ensures r.Success? ==>
      && r.value.sessionID == session.value
      && r.value.documentID == body.value.documentID
      && r.value.pageStart == body.value.pageStart && r.value.pageEnd == body.value.pageEnd
      && r.value.academicLevel != ""
      && (body.value.academicLevel != "" ==> r.value.academicLevel == body.value.academicLevel)
      && (body.value.academicLevel == "" ==> r.value.academicLevel == DefaultAcademicLevel)
    ensures r.Failure? ==> r.error.ErrorReply? && r.error.status in {400, 401, 405}
    // The range is checked after the document id and before the material type.
    ensures httpMethod == "POST" && session.Some? && body.Some? && body.value.documentID > 0
      && (body.value.pageStart < 1 || body.value.pageEnd < body.value.pageStart)
      ==> r == Failure(ErrorReply(400, "INVALID_PAGE_RANGE", "Invalid page range"))
    ensures httpMethod == "POST" && session.Some? && body.Some? && body.value.documentID > 0
      && 1 <= body.value.pageStart <= body.value.pageEnd && body.value.materialType !in {"summary", ""}
      ==> r == Failure(ErrorReply(400, "UNSUPPORTED_TYPE", "Only 'summary' type is supported in MVP"))
  {
    if httpMethod != "POST" then Failure(MethodNotAllowed())
    else if session.None? then Failure(NoSession())
    else if body.None? then Failure(ErrorReply(400, "INVALID_JSON", "Invalid request body"))
    else
      var req := body.value;
      if req.documentID <= 0 then Failure(ErrorReply(400, "INVALID_DOCUMENT_ID", "Invalid document ID"))
      else if req.pageStart < 1 || req.pageEnd < req.pageStart then
        Failure(ErrorReply(400, "INVALID_PAGE_RANGE", "Invalid page range"))
      else if req.materialType != "summary" && req.materialType != "" then
        Failure(ErrorReply(400, "UNSUPPORTED_TYPE", "Only 'summary' type is supported in MVP"))
      else
        var level := if req.academicLevel == "" then DefaultAcademicLevel else req.academicLevel;
        Success(SummaryRequest(session.value, req.documentID, req.pageStart, req.pageEnd, level))
  }

  /** The reply `HandleGenerate` writes for the service's outcome. */
  function GenerateReply(outcome: Outcome): (reply: Reply)
    ensures outcome.Rejected? ==> reply == ErrorReply(500, "GENERATION_ERROR", outcome.message)
    ensures outcome.Generated? ==>
      reply.SummaryReply? && reply.materialType == SummaryType
      && reply.contentID == outcome.response.contentID && reply.summary == outcome.response.summary
    ensures reply.Aborted? <==> outcome.Panicked?
  {
    match outcome
    case Generated(resp) => SummaryReply(resp.contentID, SummaryType, resp.summary, resp.modelUsed, resp.generationTime)
    case Rejected(message) => ErrorReply(500, "GENERATION_ERROR", message)
    case Panicked => Aborted
  }

  /** A wrong method is refused first, whatever else the request carries. */
  lemma MethodCheckedFirst(httpMethod: string, session: Option<string>, body: Option<GenerateRequest>)
    requires httpMethod != "POST"
    ensures CheckGenerate(httpMethod, session, body) == Failure(MethodNotAllowed())
  {
  }

  /** A bad document id is reported before the page range is looked at. */
  lemma DocumentIdBeforeRange(session: string, body: GenerateRequest)
    requires body.documentID <= 0
    ensures CheckGenerate("POST", Some(session), Some(body))
         == Failure(ErrorReply(400, "INVALID_DOCUMENT_ID", "Invalid document ID"))
  {
  }

  /** An accepted request's material type is normalised; the handler replies with "summary". */
  lemma AcceptedTypes(session: string, body: GenerateRequest)
    requires body.documentID > 0 && 1 <= body.pageStart <= body.pageEnd
    ensures CheckGenerate("POST", Some(session), Some(body)).Success?
        <==> body.materialType == "summary" || body.materialType == ""
    ensures CheckGenerate("POST", Some(session), Some(body.(materialType := "")))
         == CheckGenerate("POST", Some(session), Some(body.(materialType := "summary")))
  {
  }

  // ---------------------------------------------------------------------
  // strconv.Atoi
  // ---------------------------------------------------------------------

  const MinInt64 := -0x8000_0000_0000_0000
  const MaxInt64 := 0x7FFF_FFFF_FFFF_FFFF

  predicate IsDigit(c: char) { '0' <= c <= '9' }

  predicate AllDigits(s: string) {
    forall k :: 0 <= k < |s| ==> IsDigit(s[k])
  }

  /** The value of a string of decimal digits. */
  function DigitsValue(s: string): nat
    requires AllDigits(s)
  {
    if s == [] then 0
    else
      assert IsDigit(s[|s| - 1]);
      10 * DigitsValue(s[..|s| - 1]) + (s[|s| - 1] as int - '0' as int)
  }

  /**
   * Go's `strconv.Atoi` on a 64-bit platform: an optional sign, then at
   * least one decimal digit, with the value inside the int64 range.
   */
  function Atoi(s: string): (r: Option<int>)
    ensures r.Some? ==> MinInt64 <= r.value <= MaxInt64
  {
    var negative := |s| > 0 && s[0] == '-';
    var digits := if |s| > 0 && (s[0] == '-' || s[0] == '+') then s[1..] else s;
    if digits == [] || !AllDigits(digits) then None
    else
      var magnitude: int := DigitsValue(digits);
      var n := if negative then -magnitude else magnitude;
      if MinInt64 <= n <= MaxInt64 then Some(n) else None
  }

  lemma {:induction false} DigitsValueOfDigits(n: nat)
    ensures AllDigits(Digits(n))
    ensures DigitsValue(Digits(n)) == n
    decreases n
  {
    var d := Digits(n);
    if n >= 10 {
      DigitsValueOfDigits(n / 10);
      assert d[..|d| - 1] == Digits(n / 10);
      assert d[|d| - 1] == DigitChar(n % 10);
    }
    assert "0123456789"[n % 10] as int - '0' as int == n % 10;
  }

  lemma AtoiDigits(n: nat)
    requires n <= MaxInt64
    ensures Atoi(Digits(n)) == Some(n)
  {
    DigitsValueOfDigits(n);
    assert IsDigit(Digits(n)[0]);
  }

  lemma AtoiNegative(n: nat)
    requires n <= -MinInt64
    ensures Atoi("-" + Digits(n)) == Some(-(n as int))
  {
    DigitsValueOfDigits(n);
    var s := "-" + Digits(n);
    assert s[0] == '-';
    var digits := s[1..];
    assert digits == Digits(n);
    assert digits != [] && AllDigits(digits) && DigitsValue(digits) == n;
  }

  /** `strconv.Atoi` reads back what `%d` wrote, for every int64 value. */
  lemma AtoiDecimal(n: int)
    requires MinInt64 <= n <= MaxInt64
    ensures Atoi(Decimal(n)) == Some(n)
  {
    if n < 0 {
      AtoiNegative(-n);
    } else {
      AtoiDigits(n);
    }
  }

  /** No content id parses from an empty query parameter or a bare sign. */
  lemma AtoiRejectsEmpty()
    ensures Atoi("") == None && Atoi("-") == None && Atoi("+") == None
  {
    assert "-"[1..] == [];
    assert "+"[1..] == [];
  }

  // ---------------------------------------------------------------------
  // HandleGetContent
  // ---------------------------------------------------------------------

  /**
   * What `HandleGetContent` replies, given the stored records: every
   * service error, the ownership refusal included, becomes the same 404.
   */
  function GetContentReply(httpMethod: string, session: Option<string>, idParam: string,
                           generated: map<int, GeneratedContent>, fault: Option<string>): (reply: Reply)
    ensures reply.ContentReply? <==>
      httpMethod == "GET" && session.Some? && Atoi(idParam).Some?
      && Owned(generated, Atoi(idParam).value, session.value, fault).Success?
    ensures reply.ContentReply? ==>
      var record := generated[Atoi(idParam).value];
      && record.sessionID == session.value
      && reply == ContentReply(record.id, record.contentType, record.output, record.academicLevel,
                               record.inputPages, record.aiModel, record.generationTime)
    ensures httpMethod == "GET" && session.Some? && Atoi(idParam).Some?
      && Owned(generated, Atoi(idParam).value, session.value, fault).Failure?
      ==> reply == ErrorReply(404, "NOT_FOUND", "Content not found")
    ensures reply.ErrorReply? ==> reply.status in {400, 401, 404, 405}
  {
    if httpMethod != "GET" then MethodNotAllowed()
    else if session.None? then NoSession()
    else
      match Atoi(idParam)
      case None => ErrorReply(400, "INVALID_ID", "Invalid content ID")
      case Some(contentID) =>
        match Owned(generated, contentID, session.value, fault)
        case Failure(_) => ErrorReply(404, "NOT_FOUND", "Content not found")
        case Success(content) =>
          ContentReply(content.id, content.contentType, content.output, content.academicLevel,
                       content.inputPages, content.aiModel, content.generationTime)
  }

  /**
   * A record of another session and a record that does not exist get the
   * same reply: the endpoint does not reveal which ids exist.
   */
  lemma ForeignLooksMissing(session: string, contentID: int, generated: map<int, GeneratedContent>)
    requires contentID in generated && generated[contentID].sessionID != session
    requires MinInt64 <= contentID <= MaxInt64
    ensures GetContentReply("GET", Some(session), Decimal(contentID), generated, None)
         == GetContentReply("GET", Some(session), Decimal(contentID), generated - {contentID}, None)
         == ErrorReply(404, "NOT_FOUND", "Content not found")
  {
    AtoiDecimal(contentID);
  }

  /** `StudyHandler`: the HTTP front of the study service. */
  class StudyHandler {
    const studyService: StudyService

    constructor(studyService: StudyService)
      ensures this.studyService == studyService
    {
      this.studyService := studyService;
    }

    /**
     * `HandleGenerate`: the checks, then the normalised request goes to the
     * service exactly when they all pass, and the service's outcome becomes
     * the reply. `outcome` is what the service answered, if it was called.
     */
    method HandleGenerate(httpMethod: string, session: Option<string>, body: Option<GenerateRequest>,
                          faults: StudyFaults, extractionTime: int, generationTime: int)
      returns (reply: Reply, ghost outcome: Option<Outcome>,
               ghost extractorCalled: bool, ghost summaryCalls: seq<string>)
      requires studyService.Valid()
      modifies studyService.contentRepo
      ensures studyService.Valid()
      ensures CheckGenerate(httpMethod, session, body).Failure? ==>
        reply == CheckGenerate(httpMethod, session, body).error && outcome == None
        && unchanged(studyService.contentRepo)
      ensures CheckGenerate(httpMethod, session, body).Success? ==>
        outcome.Some? && reply == GenerateReply(outcome.value)
        && GenerateEffect(studyService.docRepo.documents, studyService.pdfService.open, studyService.endpoint,
                          old(studyService.contentRepo.State()), studyService.contentRepo.State(),
                          CheckGenerate(httpMethod, session, body).value, faults, extractionTime, generationTime,
                          outcome.value, extractorCalled, summaryCalls)
    {
      if httpMethod != "POST" {
        return MethodNotAllowed(), None, false, [];
      }
      if session.None? {
        return NoSession(), None, false, [];
      }
      if body.None? {
        return ErrorReply(400, "INVALID_JSON", "Invalid request body"), None, false, [];
      }
      var req := body.value;
      if req.documentID <= 0 {
        return ErrorReply(400, "INVALID_DOCUMENT_ID", "Invalid document ID"), None, false, [];
      }
      if req.pageStart < 1 || req.pageEnd < req.pageStart {
        return ErrorReply(400, "INVALID_PAGE_RANGE", "Invalid page range"), None, false, [];
      }
      if req.materialType != "summary" && req.materialType != "" {
        return ErrorReply(400, "UNSUPPORTED_TYPE", "Only 'summary' type is supported in MVP"), None, false, [];
      }
      req := req.(materialType := SummaryType);
      if req.academicLevel == "" {
        req := req.(academicLevel := DefaultAcademicLevel);
      }
      var serviceReq := SummaryRequest(session.value, req.documentID, req.pageStart, req.pageEnd, req.academicLevel);
      var answer;
      answer, extractorCalled, summaryCalls :=
        studyService.GenerateSummary(serviceReq, faults, extractionTime, generationTime);
      outcome := Some(answer);
      reply := GenerateReply(answer);
    }

    /** `HandleGetContent`: the reply `GetContentReply` describes, over the current records. */
    method HandleGetContent(httpMethod: string, session: Option<string>, idParam: string, fault: Option<string>)
      returns (reply: Reply)
      requires studyService.Valid()
      ensures reply == GetContentReply(httpMethod, session, idParam, studyService.contentRepo.generated, fault)
      ensures reply.ContentReply? ==> reply.contentID == Atoi(idParam).value
    {
      if httpMethod != "GET" {
        return MethodNotAllowed();
      }
      if session.None? {
        return NoSession();
      }
      var contentID := Atoi(idParam);
      if contentID.None? {
        return ErrorReply(400, "INVALID_ID", "Invalid content ID");
      }
      var content := studyService.GetGeneratedContent(contentID.value, session.value, fault);
      if content.Failure? {
        return ErrorReply(404, "NOT_FOUND", "Content not found");
      }
      var c := content.value;
      reply := ContentReply(c.id, c.contentType, c.output, c.academicLevel, c.inputPages, c.aiModel, c.generationTime);
    }
  }
}
