# studyforge core, modelled in Dafny

studyforge lets a student upload a textbook PDF and ask for a summary of a page
range. This project models the path that request takes:

- the HTTP handler checks and normalises the request;
- the study service checks that the document exists and belongs to the
  session;
- the PDF service reads the text through a cache keyed on (document, first page,
  last page);
- the extractor reads the pages and cleans each one with `CleanPDFText`;
- the summariser splits long text into paragraphs and chunks, sends each chunk
  to the remote model in order, and numbers the answers as sections;
- the service stores the result as a generated-content record;
- a second handler reads the record back, and only its own session may see it.

Modules, in dependency order:

| file | module | models |
|---|---|---|
| wrappers.dfy | `Wrappers` | `Option` and `Result` |
| strings.dfy | `Strings` | Go string facts: UTF-8 byte length (`len`), `%d`, `strings.TrimSpace`, joining |
| text_cleaner.dfy | `TextCleaner` | `CleanPDFText`: every regular expression as an exact leftmost-first matcher, `ReplaceAllString` as a left-to-right scan |
| cleaner_laws.dfy | `CleanerLaws` | what cleaning guarantees about its output, when it leaves text alone, and worked examples |
| summarizer.dfy | `Summarizer` | `splitLines`, `splitByParagraphs`, `chunkText`, `buildEducationalPrompt`, `GenerateSummary` |
| extractor.dfy | `Extraction` | `Extractor.ExtractText` and `ValidatePageRange` |
| repositories.dfy | `Repositories` | the content and document tables, as maps behind classes |
| services.dfy | `Services` | `PDFService.ExtractText` (the read-through cache) and `StudyService` |
| handlers.dfy | `Handlers` | `HandleGenerate`, `HandleGetContent` and `strconv.Atoi` |

Go strings are Dafny strings of Unicode scalar values. Every length threshold is
measured in UTF-8 bytes (`Strings.ByteLen`), as Go's `len` does: the 20-byte
paragraph minimum, the 200-byte chunk minimum and the 3000-byte chunk limit.

The collaborators the core cannot see are parameters:

- `pdf.Open` is an `Opener`. It maps a path to a document whose pages are null,
  text, or an extraction error.
- The remote summarisation endpoint is an `Endpoint`. It maps a request body to
  a summary or an error message.
- A database failure is an `Option<string>` fault argument carrying the
  driver's message.
- Clock readings (extraction and generation durations) are integer arguments.

Imperative code stays imperative:

- The loops of `splitLines`, `splitByParagraphs`, `chunkText`, the chunk loop,
  the section-combining loop and the extractor's page loop are methods with
  loop invariants. Each is proved equal to a recursive specification function,
  and the properties are proved about those functions.
- The repositories and services are classes. Their methods state the new
  store contents.

### `CleanPDFText` is not idempotent

Cleaning a cleaned text can change it again:

- `"a,b,c"` cleans to `"a, b,c"`, because the comma rule's matches cannot
  overlap;
- cleaning that again gives `"a, b, c"` (`CleanerLaws.CleanNotIdempotent`).

The model proves a fixpoint law in its place:

- a text is left unchanged when it is already tidy and has nothing to repair
  (`CleanerLaws.CleanFixpoint`);
- once the repairs produce tidy text, the rest of the pipeline keeps it
  (`CleanerLaws.CleanAfterTidyRepairs`).

Other behaviours of the code that the model keeps as written:

- **Empty chunk list.** A text over 3000 bytes can yield no chunk at all, for
  example a text of only newlines. `GenerateSummary` then indexes an empty
  slice and panics (`Summarizer.NoChunkPanics`). The model gives this outcome
  the name `IndexOutOfRange`. The service passes it on as `Panicked`, and the
  handler writes no reply (`Aborted`).
- **Row stored despite an error.** When the insert of a generated record
  succeeds but reading its id back fails, the row stays stored while the
  caller gets an error (`Repositories.ContentRepository.CreateGenerated`).
- **Ownership hidden as 404.** A record owned by another session gets the same
  404 `NOT_FOUND` reply as a missing one (`Handlers.ForeignLooksMissing`).
- **Cache write failures are ignored.** A failed cache write never changes the
  caller's answer (`Services.WriteFailureInvisible`).

## Model

| member | source | states |
|---|---|---|
| Strings.ByteLen | pkg/ai/huggingface.go:100 | Go's `len`: the UTF-8 byte count. It is at least the number of characters, and zero only for the empty string. |
| Strings.ByteLenConcat | pkg/ai/huggingface.go:105 | The byte length of a concatenation is the sum of the byte lengths, so `len(currentChunk)+len(para)` is the length of the joined text. |
| Strings.Decimal | pkg/pdf/extractor.go:71 | `%d` of an integer: a non-empty string, and all digits for a non-negative value. |
| Strings.TrimSpace | pkg/utils/text_cleaner.go:97 | `strings.TrimSpace`: the result has no white space at either end, and it is empty exactly when the input is all white space. |
| Strings.TrimLeftSpace | pkg/utils/text_cleaner.go:97 | The leading trim: removes only white space and stops at the first other character. |
| Strings.TrimRightSpace | pkg/utils/text_cleaner.go:97 | The trailing trim: removes only white space and stops at the last other character. |
| Strings.TrimSpaceNoop | pkg/utils/text_cleaner.go:97 | A string with no white space at either end is left unchanged. |
| Strings.TrimSpaceKeeps | pkg/utils/text_cleaner.go:97 | Trimming creates no forbidden character pair and no layout character. |
| Strings.JoinAppend | pkg/ai/huggingface.go:193-196 | Adding one piece to a join adds the separator only when something came before. |
| Strings.JoinConcat | pkg/ai/huggingface.go:109-112 | Joining two non-empty lists is joining each, with one separator between them. |
| TextCleaner.RunEnd | pkg/utils/text_cleaner.go:71 | The greedy run of a character class: every character inside matches, and the next one does not. |
| TextCleaner.LinkEnd | pkg/utils/text_cleaner.go:79 | `\(http[^\)]+\)` ends at least 7 characters after it starts, and inside the text. |
| TextCleaner.LazyLinkEnd | pkg/utils/text_cleaner.go:79 | The lazy `[^.]+?` search for the link: any match it finds stays inside the text. |
| TextCleaner.MatchAt | pkg/utils/text_cleaner.go:13-89 | Every pattern's match at an index covers at least one character and stays inside the text, so `ReplaceAllString` always advances. |
| CleanerLaws.ScanInert | pkg/utils/text_cleaner.go:14 | With no match from an index on, `ReplaceAllString` copies the rest of the text unchanged. |
| CleanerLaws.ScanCopies | pkg/utils/text_cleaner.go:14 | Characters before the first match are copied as they are. |
| CleanerLaws.ScanOneMatch | pkg/utils/text_cleaner.go:14 | One match and no other start outside it: exactly that stretch is replaced. |
| CleanerLaws.RewriteOneMatch | pkg/utils/text_cleaner.go:67 | The same law, stated for a pattern: the text around its single match is kept. |
| CleanerLaws.LinkNeedsOpenParen | pkg/utils/text_cleaner.go:79 | A link match needs "(h" in the text. |
| CleanerLaws.LazyLinkNeedsOpenParen | pkg/utils/text_cleaner.go:79 | The lazy link search succeeds only if "(h" is in the text. |
| CleanerLaws.CallToActionNeedsLink | pkg/utils/text_cleaner.go:79-80 | Without "(h" in the text, "Explore/Visit/Check out/See ..." never matches. |
| CleanerLaws.NoMatchWithoutTrigger | pkg/utils/text_cleaner.go:13-85 | Every pattern except `\s+` needs its trigger pair of characters; without the pair it matches nowhere. |
| CleanerLaws.RewriteUntouched | pkg/utils/text_cleaner.go:13-85 | A text without a pattern's trigger comes out of that rewrite unchanged. |
| CleanerLaws.SingleSpacesKept | pkg/utils/text_cleaner.go:88-89 | With no layout character and no double space, collapsing `\s+` changes nothing. |
| CleanerLaws.CollapseScan | pkg/utils/text_cleaner.go:88-89 | After `\s+` becomes " ", the text has no layout character and no two adjacent spaces. |
| CleanerLaws.TightenScan | pkg/utils/text_cleaner.go:92-95 | Deleting the space of " ." (and likewise for `,` `;` `:`) leaves none behind and creates no double space or new pair. |
| CleanerLaws.TightenShape | pkg/utils/text_cleaner.go:92-95 | After the four deletions, no space comes directly before `.`, `,`, `;` or `:`. |
| CleanerLaws.CleanedTextShape | pkg/utils/text_cleaner.go:9-98 | Every cleaned text is tidy. It has no white space at either end, no tab, newline, carriage return or form feed, no double space, and no space before `.`, `,`, `;` or `:`. |
| CleanerLaws.TidyUntouched | pkg/utils/text_cleaner.go:88-97 | The collapse, tighten and trim steps leave a tidy text unchanged. |
| CleanerLaws.TightenUntouched | pkg/utils/text_cleaner.go:92-95 | A text with no space before punctuation is left unchanged by the four deletions. |
| CleanerLaws.StrayIUntouched | pkg/utils/text_cleaner.go:13-63 | With no trigger for any stray-`i` repair, the repairs change nothing. |
| CleanerLaws.StrayLettersUntouched | pkg/utils/text_cleaner.go:13-37 | re1 to re4 (with re2b and re2c) change nothing on a text without their triggers. |
| CleanerLaws.ShortWordsUntouched | pkg/utils/text_cleaner.go:41-63 | If no `i` is followed by white space, re5 to re12 change nothing. |
| CleanerLaws.ReferencesUntouched | pkg/utils/text_cleaner.go:71-85 | A text without links, calls to action or FIGURE labels loses nothing. |
| CleanerLaws.CleanFixpoint | pkg/utils/text_cleaner.go:9-98 | A tidy text with nothing to repair is its own cleaning. |
| CleanerLaws.CleanAfterTidyRepairs | pkg/utils/text_cleaner.go:9-98 | If the repairs already give tidy text, the cleaning is exactly the repairs. |
| CleanerLaws.CommaSpacingExample | pkg/utils/text_cleaner.go:66-67 | "on,in" becomes "on, in". |
| CleanerLaws.CommaSpacingNonOverlapping | pkg/utils/text_cleaner.go:66-67 | Matches do not overlap. "a,b,c" gets one space per pass, although a match also starts at index 2. |
| CleanerLaws.StrayBeforeCapitalExample | pkg/utils/text_cleaner.go:13-14 | "nationsiAnd" becomes "nations And". |
| CleanerLaws.ShortWordExample | pkg/utils/text_cleaner.go:41-42 | "the thei cat" becomes "the the cat". |
| CleanerLaws.ShortWordNeedsBoundary | pkg/utils/text_cleaner.go:41-42 | "breathei their" is kept: re5 needs `\b` before the word and white space after the `i`. |
| CleanerLaws.BareUrlExample | pkg/utils/text_cleaner.go:71-72 | A bare URL is deleted up to the next white space, with nothing in its place. |
| CleanerLaws.CleanNotIdempotent | pkg/utils/text_cleaner.go:66-67 | Cleaning "a,b,c" gives "a, b,c"; cleaning that again gives "a, b, c". |
| Summarizer.SplitLines | pkg/ai/huggingface.go:208-226 | The loop computes `Lines`. |
| Summarizer.SplitStateLaws | pkg/ai/huggingface.go:208-226 | The loop state joins back to the text read so far, and no finished line holds a newline. |
| Summarizer.LinesLaws | pkg/ai/huggingface.go:208-226 | The lines joined by "\n", plus the final newline if the text had one, give the text back. No line holds a newline. |
| Summarizer.SplitByParagraphs | pkg/ai/huggingface.go:181-205 | The loop computes `Paragraphs`. |
| Summarizer.ParaStateShape | pkg/ai/huggingface.go:186-198 | Every finished paragraph is non-empty and has no newline, and so is the one being built. |
| Summarizer.ParagraphsShape | pkg/ai/huggingface.go:181-205 | Every paragraph is non-empty and holds no newline. |
| Summarizer.ParaStateOfContent | pkg/ai/huggingface.go:192-197 | Lines with no break between them build one paragraph, joined by single spaces in order. |
| Summarizer.ParagraphOfContent | pkg/ai/huggingface.go:181-205 | Non-empty content lines without a break form exactly one paragraph. |
| Summarizer.ParaStateAfterBreak | pkg/ai/huggingface.go:187-191 | After an empty or "---" line, what follows is split on its own. |
| Summarizer.ParagraphsSplitAtBreak | pkg/ai/huggingface.go:187-191 | A break line splits the paragraphs into those before it and those after it. |
| Summarizer.JoinEach | pkg/ai/huggingface.go:109-112 | Chunk k is group k's paragraphs joined by single spaces. |
| Summarizer.GroupedAppend | pkg/ai/huggingface.go:105-107 | Closing one more full group, which overflowed into the next, keeps the grouping law. |
| Summarizer.PackOpen | pkg/ai/huggingface.go:100-102 | The chunk being filled holds only paragraphs of at least 20 bytes. |
| Summarizer.PackCovers | pkg/ai/huggingface.go:98-114 | The packer keeps every paragraph of at least 20 bytes, in order. |
| Summarizer.PackGroups | pkg/ai/huggingface.go:104-113 | Each chunk is closed at 200 bytes or more, and only because the next paragraph did not fit. |
| Summarizer.ChunkLaws | pkg/ai/huggingface.go:90-122 | Chunks are consecutive groups of the kept paragraphs, never split or reordered, each at least 200 bytes. Only paragraphs under 20 bytes and a final group under 200 bytes are lost. |
| Summarizer.JoinFlatten | pkg/ai/huggingface.go:109-112 | Joining the chunk texts equals joining all their paragraphs. |
| Summarizer.ChunksCoverText | pkg/ai/huggingface.go:90-122 | The chunks joined by spaces are a prefix of the kept paragraphs joined by spaces, at most 200 bytes shorter. |
| Summarizer.PackStep | pkg/ai/huggingface.go:98-114 | One loop iteration: skip a short paragraph, close the chunk and start a new one, or append with one space. |
| Summarizer.PackParagraphs | pkg/ai/huggingface.go:97-121 | The packing loop computes `Chunks` of its paragraphs. |
| Summarizer.ChunkText | pkg/ai/huggingface.go:90-122 | `chunkText` is `Chunks` of `Paragraphs(text)`. |
| Summarizer.BuildEducationalPrompt | pkg/ai/huggingface.go:125-142 | The prompt ends with the unmodified text. It starts with the instruction for its level: the high-school, undergraduate or graduate one for those three levels, and the default one for any other level. |
| Summarizer.SummarizeEachSucceeds | pkg/ai/huggingface.go:56-71 | On success there is one summary per chunk, each the answer for that chunk, and every chunk was sent. |
| Summarizer.SummarizeEachFails | pkg/ai/huggingface.go:57-63 | A failure names the first failing chunk. Every chunk before it succeeded, and none after it was sent. |
| Summarizer.FailureStops | pkg/ai/huggingface.go:60-63 | After a failure, later chunks change neither the answer nor the calls. |
| Summarizer.SectionsPrefix | pkg/ai/huggingface.go:74-79 | The sections of a prefix of the summaries are a prefix of the combined text. |
| Summarizer.SectionsInOrder | pkg/ai/huggingface.go:76-78 | Summary k appears under heading "Section k+1: ", right after the sections before it. |
| Summarizer.CombineSections | pkg/ai/huggingface.go:74-83 | The combining loop computes `Sections`. |
| Summarizer.SummarizeChunks | pkg/ai/huggingface.go:56-71 | The chunk loop computes `SummarizeEach`, and the texts it sends are `Attempted`. |
| Summarizer.GenerateSummary | pkg/ai/huggingface.go:42-87 | The method's outcome is `Summary` and the texts it sends are `SummaryCalls`. |
| Summarizer.ChunkedSummarySucceeds | pkg/ai/huggingface.go:73-86 | When every chunk is summarised, two or more summaries give exactly the "Section k: " sections in chunk order. One summary is returned as is, and no chunk at all is the panic. |
| Summarizer.ChunkedSummaryFails | pkg/ai/huggingface.go:57-63 | When chunk i is the first to fail, the error names chunk i+1 with the cause, and only chunks up to i were sent. |
| Summarizer.ShortTextOneCall | pkg/ai/huggingface.go:47-50 | A text of at most 3000 bytes costs one call, with the prompt for the whole text and the fixed parameters. The answer is returned unchanged. |
| Summarizer.NewlinesOnlyLines | pkg/ai/huggingface.go:212-219 | A text of only newlines splits into empty lines only. |
| Summarizer.BreaksOnly | pkg/ai/huggingface.go:187-191 | Break lines alone yield no paragraph. |
| Summarizer.NoChunkPanics | pkg/ai/huggingface.go:53-86 | More than 3000 bytes of newlines give no chunk. Indexing the empty list then panics, and no call is made. |
| Extraction.ExtractPages | pkg/pdf/extractor.go:55-74 | The page loop computes `PagesText`. |
| Extraction.ExtractText | pkg/pdf/extractor.go:33-82 | `ExtractText` is `ExtractResult`: range check, open, page count, pages, then the blank check. |
| Extraction.FailureSticks | pkg/pdf/extractor.go:63-66 | Once a page fails, the whole range fails with that page's error. |
| Extraction.ValidatePageRange | pkg/pdf/extractor.go:85-105 | Accepts exactly when the document opens and 1 <= start <= end <= page count. Reports the start check, then the order check, by their messages. |
| Extraction.ValidationAgrees | pkg/pdf/extractor.go:35-52 | A range the validator rejects makes extraction fail. |
| Extraction.RangeCheckedBeforeOpen | pkg/pdf/extractor.go:35-37 | A range invalid on its face fails with "invalid page range", whatever the file. |
| Extraction.PagesTextEmpty | pkg/pdf/extractor.go:57-74 | The text is empty exactly when every page is null. Otherwise it contains a marker's `-`. |
| Extraction.AllNullSucceeds | pkg/pdf/extractor.go:59-61 | A range of null pages reads without error and adds nothing. |
| Extraction.PageErrorText | pkg/pdf/extractor.go:63-66 | A page error's message is never the "no text" message. |
| Extraction.NoTextExactlyWhenAllNull | pkg/pdf/extractor.go:76-79 | "no text could be extracted" is reported exactly when the range is valid, the file opens and every page in it is null. |
| Extraction.FirstPageErrorWins | pkg/pdf/extractor.go:63-66 | The first failing page in the range decides the error. |
| Extraction.NoErrorSucceeds | pkg/pdf/extractor.go:57-74 | With no failing page, the page loop succeeds. |
| Extraction.PagesTextSplit | pkg/pdf/extractor.go:57-74 | The text of a range is the text of its first part followed by the text of the rest. |
| Extraction.SinglePage | pkg/pdf/extractor.go:69-73 | A readable page gives "--- Page N ---\n", its cleaned text, then a blank line. |
| Repositories.ContentRepository.constructor | internal/repository/content_repo.go:16-18 | The store starts empty. |
| Repositories.ContentRepository.GetExtracted | internal/repository/content_repo.go:110-133 | A cache miss is `None`, not an error. A hit is the row under the key, and a driver fault is wrapped. |
| Repositories.ContentRepository.CreateExtracted | internal/repository/content_repo.go:80-107 | An upsert on (document, first page, last page). A fault changes nothing. |
| Repositories.ContentRepository.CreateGenerated | internal/repository/content_repo.go:21-48 | A failed insert stores nothing. Otherwise the row goes in under a fresh id, even when reading the id back then fails. |
| Repositories.ContentRepository.GetGeneratedByID | internal/repository/content_repo.go:51-77 | Returns the stored row, "content not found" for an unknown id, or the wrapped fault. |
| Repositories.FindDocument | internal/repository/document_repo.go:50-83 | Succeeds exactly when there is no fault and the id names a row that is not soft-deleted. |
| Repositories.DocumentRepository.constructor | internal/repository/document_repo.go:17-19 | The repository holds the given documents. |
| Repositories.DocumentRepository.GetByID | internal/repository/document_repo.go:50-83 | The lookup answers `FindDocument`. |
| Services.CachedExtract | internal/services/pdf_service.go:32-70 | A lookup fault fails without reading the PDF. A hit returns the cached text and time. A miss reads the PDF. A successful read returns the extracted text with the elapsed time, and upserts exactly that row under the request's key unless the write faults. A failed read returns the extractor's error and leaves the cache alone. Other keys never change. |
| Services.PdfService.constructor | internal/services/pdf_service.go:19-24 | The service holds its extractor and store. |
| Services.PdfService.ExtractText | internal/services/pdf_service.go:32-70 | The method is one `CachedExtract` step over the store, and the generated records are untouched. |
| Services.SecondCallHits | internal/services/pdf_service.go:41-44 | A repeated request is answered from the cache with the same text and does not read the PDF. |
| Services.WriteFailureInvisible | internal/services/pdf_service.go:55-67 | Whether the cache write fails never changes the caller's answer. |
| Services.Admit | internal/services/study_service.go:57-71 | Admits exactly an existing, owned document with a range the validator accepts, checked in that order, each with its message. |
| Services.OwnershipBeforeRange | internal/services/study_service.go:63-71 | Another session's document is refused whatever the file and the range. |
| Services.StudyService.constructor | internal/services/study_service.go:22-34 | The service shares the PDF service's store. |
| Services.StudyService.GenerateSummary | internal/services/study_service.go:54-122 | `GenerateEffect`: a rejected request reads and stores nothing. An admitted one goes through the cache. An extraction error is wrapped and stores no record. Otherwise the summarise-and-save stage holds. |
| Services.StudyService.SummarizeAndSave | internal/services/study_service.go:79-121 | Summarising fails with a wrapped error and no record, panics with no record, or saves one record with the summary and its pages and level. |
| Services.StudyService.SaveSummary | internal/services/study_service.go:85-121 | A failed insert stores nothing. Otherwise exactly one fresh record goes in, and the response carries its id and the model name. |
| Services.StudyService.GetGeneratedContent | internal/services/study_service.go:125-137 | The method answers `Owned` over the stored records. |
| Services.Owned | internal/services/study_service.go:125-137 | Succeeds exactly for a stored record of the asking session. A foreign record gives "unauthorized access to content". |
| Handlers.CheckGenerate | internal/api/handlers/study_handler.go:35-84 | Accepts exactly POST with a session, a parsed body, a positive document id and 1 <= start <= end. It keeps a non-empty level and defaults an empty one to "undergraduate". A positive id with a bad range gets INVALID_PAGE_RANGE, and a good range with another type gets UNSUPPORTED_TYPE. Every refusal is 400, 401 or 405. |
| Handlers.GenerateReply | internal/api/handlers/study_handler.go:88-104 | A service error is 500 GENERATION_ERROR with its message. A result becomes the success body. A panic writes nothing. |
| Handlers.MethodCheckedFirst | internal/api/handlers/study_handler.go:36-39 | A method other than POST is refused first, whatever else the request carries. |
| Handlers.DocumentIdBeforeRange | internal/api/handlers/study_handler.go:56-63 | A bad document id is reported before the page range. |
| Handlers.AcceptedTypes | internal/api/handlers/study_handler.go:66-75 | An empty material type is accepted like "summary", and the accepted request carries "summary". |
| Handlers.Atoi | internal/api/handlers/study_handler.go:122-127 | `strconv.Atoi`: any value it gives is in the int64 range. |
| Handlers.DigitsValueOfDigits | internal/api/handlers/study_handler.go:122 | The digits `%d` writes read back as their value. |
| Handlers.AtoiDigits | internal/api/handlers/study_handler.go:122 | Atoi reads back every non-negative int64 written in decimal. |
| Handlers.AtoiNegative | internal/api/handlers/study_handler.go:122 | Atoi reads back every negative int64 written with a minus sign. |
| Handlers.AtoiDecimal | internal/api/handlers/study_handler.go:122 | `Atoi(%d of n) == n` for every int64. |
| Handlers.AtoiRejectsEmpty | internal/api/handlers/study_handler.go:122-127 | An empty id, or a bare sign, is an invalid content id. |
| Handlers.GetContentReply | internal/api/handlers/study_handler.go:108-156 | The content body is given exactly for GET with a session, a parsable id and a record of that session. It carries that record's id, type, payload, level, pages, model and time. Any service failure on a parsed id is 404 NOT_FOUND. Refusals are 400, 401, 404 or 405. |
| Handlers.ForeignLooksMissing | internal/api/handlers/study_handler.go:130-135 | Another session's record gets 404 NOT_FOUND, like a missing one. |
| Handlers.StudyHandler.constructor | internal/api/handlers/study_handler.go:19-23 | The handler holds its service. |
| Handlers.StudyHandler.HandleGenerate | internal/api/handlers/study_handler.go:35-105 | A refused request gets `CheckGenerate`'s error, with no service call and no change to the store. An accepted one calls the service with `CheckGenerate`'s request. The store then changes as `GenerateEffect` says, and the reply is `GenerateReply` of the service's outcome. |
| Handlers.StudyHandler.HandleGetContent | internal/api/handlers/study_handler.go:108-156 | The method writes `GetContentReply` over the current records. A content reply carries the id that was asked for. |

## Left out

- HTTP transport of `summarizeChunk` and `makeRequest` (JSON encoding, headers, status codes, the 30-second timeout): the endpoint is a function parameter. Its answer stands for all of their outcomes, and it is taken to answer the same prompt the same way every time.
- The half-second sleep between chunks and every `fmt.Printf` or `log` line: they do not change any result.
- The PDF library: `pdf.Open`, `NumPage`, `Page`, `IsNull` and `GetPlainText` are the `Opener` oracle.
- `Extractor.GetPageCount`: it is not part of the summary path.
- SQL: each table is a map, each driver failure is a fault argument, and a new record id is the previous largest id plus one.
- The `created_at` timestamps: they are clock readings taken by the database. `Handlers.Reply.ContentReply` therefore has no `created_at` field, although `HandleGetContent` puts the record's timestamp in its reply (internal/api/handlers/study_handler.go:154).
- The `extracted_content` row id: nothing in the core reads it.
- Clocks: `time.Since` readings are integer arguments.
- Session middleware: the handler receives the session as an `Option<string>`.
- The JSON marshal of the summary payload (internal/services/study_service.go:94-97) and the PARSE_ERROR reply (internal/api/handlers/study_handler.go:138-143): the payload is a record with three string fields, so neither can fail in the model.
- Failures to encode the reply JSON (pkg/utils/response.go): the reply is a value.
- Requests with JSON fields of the wrong type: the body is either parsed (`Some`) or rejected as INVALID_JSON (`None`).
- Extraction.ExtractPages: states the page loop for any cleaning function. `Extraction.ExtractText` instantiates it with `CleanPDFText`.
- Services.StudyService.SummarizeAndSave and Services.StudyService.SaveSummary: parts of `GenerateSummary` split out for proof; they have no counterpart of their own in the source.
- CleanerLaws.CommaSpacingExample: shows the comma repair on "on,in" rather than on a longer phrase such as "timid,malleable"; the matcher is the same for every pair of lower-case letters.
- Invalid UTF-8: input text is taken to be valid UTF-8. A Go string may hold invalid bytes, and converting them to runes yields U+FFFD, which changes `len`; a Dafny string cannot hold such bytes.
- `CleanPDFText` regular expressions: `\s` is Go's ASCII class `[\t\n\f\r ]`, `\b` and `\d` are ASCII, and the accented class lists precomposed code points only. There is no Unicode normalisation.
