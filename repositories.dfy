/**
 * The observable contracts of the SQL stores the services use
 * (internal/repository/content_repo.go and document_repo.go): each table is
 * a map, and a failing database driver is a fault parameter carrying the
 * driver's message.
 */
module Repositories {
  import opened Wrappers

  /** The unique key of `extracted_content`: a document and an exact page range. */
  datatype CacheKey = CacheKey(documentID: int, pageStart: int, pageEnd: int)

  /** A cached extraction (models.ExtractedContent, without row id and timestamp). */
  datatype ExtractedContent = ExtractedContent(
    documentID: int, pageStart: int, pageEnd: int, content: string, extractionTime: int)

  function KeyOf(entry: ExtractedContent): CacheKey {
    CacheKey(entry.documentID, entry.pageStart, entry.pageEnd)
  }

  /** The JSON object stored as `output_content`: exactly these three fields. */
  datatype SummaryPayload = SummaryPayload(summary: string, pages: string, academicLevel: string)

  /** A row of `generated_content` (models.GeneratedContent, without its timestamp). */
  datatype GeneratedContent = GeneratedContent(
    id: int, sessionID: string, documentID: int, contentType: string, academicLevel: string,
    inputPages: string, output: SummaryPayload, aiModel: string, generationTime: int)

  /** The fields of a `documents` row the services read. */
  datatype Document = Document(id: int, sessionID: string, filePath: string, isDeleted: bool)

  const ContentNotFound := "content not found"
  const DocumentNotFound := "document not found"

  /** What the content store holds at one moment: the cache rows, the records and the last id. */
  datatype ContentState = ContentState(
    extracted: map<CacheKey, ExtractedContent>, generated: map<int, GeneratedContent>, lastID: int)

  /** `ContentRepository`: the extraction cache and the generated-content table. */
  class ContentRepository {
    var extracted: map<CacheKey, ExtractedContent>
    var generated: map<int, GeneratedContent>
    /** The largest row id handed out so far; the next insert gets `lastID + 1`. */
    var lastID: int

    /** Every cached row sits under its own key, and every stored row under its own id. */
    ghost predicate Valid()
      reads this
    {
      0 <= lastID
      && (forall k :: k in extracted ==> KeyOf(extracted[k]) == k)
      && (forall id :: id in generated ==> 1 <= id <= lastID && generated[id].id == id)
    }

    /** The whole store as one value. */
    ghost function State(): ContentState
      reads this
    {
      ContentState(extracted, generated, lastID)
    }

    constructor()
      ensures Valid()
      ensures extracted == map[] && generated == map[] && lastID == 0
    {
      extracted := map[];
      generated := map[];
      lastID := 0;
    }

    /** `GetExtracted`: a miss is `None`, not an error; a driver fault is an error. */
    method GetExtracted(documentID: int, pageStart: int, pageEnd: int, fault: Option<string>)
      returns (r: Result<Option<ExtractedContent>, string>)
      ensures fault.Some? ==> r == Failure("failed to get extracted content: " + fault.value)
      ensures fault.None? ==> r.Success?
      ensures fault.None? ==> (r.value.Some? <==> CacheKey(documentID, pageStart, pageEnd) in extracted)
      ensures fault.None? && r.value.Some? ==> r.value.value == extracted[CacheKey(documentID, pageStart, pageEnd)]
    {
      if fault.Some? {
        return Failure("failed to get extracted content: " + fault.value);
      }
      var key := CacheKey(documentID, pageStart, pageEnd);
      if key in extracted {
        return Success(Some(extracted[key]));
      }
      return Success(None);
    }

    /**
     * `CreateExtracted`: an upsert on (document, first page, last page); the
     * new row replaces any row under the same key.
     */
    method CreateExtracted(entry: ExtractedContent, fault: Option<string>) returns (err: Option<string>)
      requires Valid()
      modifies this
      ensures Valid()
      ensures fault.None? ==> err.None? && extracted == old(extracted)[KeyOf(entry) := entry]
      ensures fault.Some? ==> err == Some("failed to create extracted content: " + fault.value)
      ensures fault.Some? ==> extracted == old(extracted)
      ensures generated == old(generated) && lastID == old(lastID)
    {
      if fault.Some? {
        return Some("failed to create extracted content: " + fault.value);
      }
      extracted := extracted[KeyOf(entry) := entry];
      err := None;
    }

    /**
     * `CreateGenerated`: inserts the row under a fresh id. A failed insert
     * stores nothing; a failure to read the new id back comes after the
     * insert, so the row is stored although an error is returned.
     */
    method CreateGenerated(content: GeneratedContent, insertFault: Option<string>, idFault: Option<string>)
      returns (r: Result<int, string>)
      requires Valid()
      modifies this
      ensures Valid()
      ensures extracted == old(extracted)
      ensures insertFault.Some? ==> r == Failure("failed to create generated content: " + insertFault.value)
      ensures insertFault.Some? ==> generated == old(generated) && lastID == old(lastID)
      ensures insertFault.None? ==> lastID == old(lastID) + 1 && lastID !in old(generated)
      ensures insertFault.None? ==> generated == old(generated)[lastID := content.(id := lastID)]
      ensures insertFault.None? && idFault.Some? ==> r == Failure("failed to get content ID: " + idFault.value)
      ensures insertFault.None? && idFault.None? ==> r == Success(lastID)
    {
      if insertFault.Some? {
        return Failure("failed to create generated content: " + insertFault.value);
      }
      lastID := lastID + 1;
      generated := generated[lastID := content.(id := lastID)];
      if idFault.Some? {
        return Failure("failed to get content ID: " + idFault.value);
      }
      r := Success(lastID);
    }

    /** `GetGeneratedByID`: the stored row, "content not found" for an unknown id. */
    method GetGeneratedByID(id: int, fault: Option<string>) returns (r: Result<GeneratedContent, string>)
      requires Valid()
      ensures fault.Some? ==> r == Failure("failed to get content: " + fault.value)
      ensures fault.None? && id !in generated ==> r == Failure(ContentNotFound)
      ensures fault.None? && id in generated ==> r == Success(generated[id])
      ensures r.Success? ==> r.value.id == id
    {
      if fault.Some? {
        return Failure("failed to get content: " + fault.value);
      }
      if id !in generated {
        return Failure(ContentNotFound);
      }
      r := Success(generated[id]);
    }
  }

  /**
   * What `DocumentRepository.GetByID` answers: soft-deleted rows are
   * filtered out by the query, so they read as missing.
   */
  function FindDocument(documents: map<int, Document>, id: int, fault: Option<string>): (r: Result<Document, string>)
    ensures r.Success? <==> fault.None? && id in documents && !documents[id].isDeleted
    ensures r.Success? ==> r.value == documents[id]
    ensures fault.None? && r.Failure? ==> r.error == DocumentNotFound
  {
    if fault.Some? then Failure("failed to get document: " + fault.value)
    else if id !in documents || documents[id].isDeleted then Failure(DocumentNotFound)
    else Success(documents[id])
  }

  /** `DocumentRepository`: the `documents` table, read-only for the services. */
  class DocumentRepository {
    var documents: map<int, Document>

    constructor(documents: map<int, Document>)
      ensures this.documents == documents
    {
      this.documents := documents;
    }

    method GetByID(id: int, fault: Option<string>) returns (r: Result<Document, string>)
      ensures r == FindDocument(documents, id, fault)
    {
      if fault.Some? {
        return Failure("failed to get document: " + fault.value);
      }
      if id !in documents || documents[id].isDeleted {
        return Failure(DocumentNotFound);
      }
      r := Success(documents[id]);
    }
  }
}
