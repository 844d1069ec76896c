/**
 * src/controllers/document/documentController.js: the static document-type
 * table, the upload guards, the owner-scoped lookups, the review update and
 * the per-type compliance report.
 */
module DocumentController {
  import opened Common
  import opened Documents

  /** One row of `DOCUMENT_TYPES`: whether the type is required and how long it stays valid. */
  datatype TypeConfig = TypeConfig(docType: DocType, required: bool, validityMonths: Option<int>)

  /** `DOCUMENT_TYPES`, in its key order. */
  const Table: seq<TypeConfig> := [
    TypeConfig(EnhancedDbs, true, Some(36)),
    TypeConfig(RightToWork, true, None),
    TypeConfig(ProfessionalRegistration, true, Some(12)),
    TypeConfig(TrainingCertificate, false, Some(12)),
    TypeConfig(IdDocument, true, None),
    TypeConfig(ProofOfAddress, true, Some(3)),
    TypeConfig(Reference, true, Some(12)),
    TypeConfig(ImmunizationRecord, true, Some(12)),
    TypeConfig(InsuranceCertificate, true, Some(12))
  ]

  /** The row of the table for a type: every type has one. */
  function TypeIndex(t: DocType): (i: nat)
    ensures i < |Table| && Table[i].docType == t
  {
    match t
    case EnhancedDbs => 0
    case RightToWork => 1
    case ProfessionalRegistration => 2
    case TrainingCertificate => 3
    case IdDocument => 4
    case ProofOfAddress => 5
    case Reference => 6
    case ImmunizationRecord => 7
    case InsuranceCertificate => 8
  }

  /** ... and only one: no type appears in two rows. */
  lemma TableRowsDistinct()
    ensures forall i :: 0 <= i < |Table| ==> TypeIndex(Table[i].docType) == i
  {
  }

  /** The configuration of a type. */
  function Config(t: DocType): TypeConfig {
    Table[TypeIndex(t)]
  }

  /** One entry of `getRequiredDocuments`. */
  datatype RequiredDoc = RequiredDoc(docType: DocType, validityMonths: Option<int>)

  /** `getRequiredDocuments`: the rows with `required: true`, in table order, with their validity. */
  function RequiredDocuments(rows: seq<TypeConfig>): (r: seq<RequiredDoc>)
    ensures |r| <= |rows|
    ensures forall d :: d in r <==> exists c :: c in rows && c.required && d == RequiredDoc(c.docType, c.validityMonths)
  {
    if |rows| == 0 then []
    else
      var rest := RequiredDocuments(rows[1..]);
      assert forall c :: c in rows <==> c == rows[0] || c in rows[1..];
      if rows[0].required then [RequiredDoc(rows[0].docType, rows[0].validityMonths)] + rest else rest
  }

  /** Filtering distributes over concatenation, so the kept rows stay in table order. */
  lemma {:induction false} RequiredDocumentsAppend(rows: seq<TypeConfig>, more: seq<TypeConfig>)
    ensures RequiredDocuments(rows + more) == RequiredDocuments(rows) + RequiredDocuments(more)
  {
    if |rows| > 0 {
      assert (rows + more)[1..] == rows[1..] + more;
      RequiredDocumentsAppend(rows[1..], more);
    } else {
      assert rows + more == more;
    }
  }

  /** The answer of `getRequiredDocuments`: the eight required rows, in table order. */
  lemma RequiredDocumentsOfTable()
    ensures RequiredDocuments(Table) == [
      RequiredDoc(EnhancedDbs, Some(36)),
      RequiredDoc(RightToWork, None),
      RequiredDoc(ProfessionalRegistration, Some(12)),
      RequiredDoc(IdDocument, None),
      RequiredDoc(ProofOfAddress, Some(3)),
      RequiredDoc(Reference, Some(12)),
      RequiredDoc(ImmunizationRecord, Some(12)),
      RequiredDoc(InsuranceCertificate, Some(12))]
  {
  }

  /** Only the training certificate's row has `required: false`. */
  lemma OnlyTrainingOptional(t: DocType)
    ensures Config(t).required <==> t != TrainingCertificate
  {
  }

  /** A row of the table is the row of its own type. */
  lemma RowOfType(c: TypeConfig)
    requires c in Table
    ensures c == Config(c.docType)
  {
    TableRowsDistinct();
    var j :| 0 <= j < |Table| && Table[j] == c;
    assert TypeIndex(Table[j].docType) == j;
  }

  /** Every type but the training certificate is required, and with the validity of its row. */
  lemma RequiredIsAllButTraining(t: DocType)
    ensures RequiredDoc(t, Config(t).validityMonths) in RequiredDocuments(Table) <==> t != TrainingCertificate
    ensures forall v :: RequiredDoc(t, v) in RequiredDocuments(Table) ==> v == Config(t).validityMonths
  {
    OnlyTrainingOptional(t);
    assert Config(t) in Table;
    forall v | RequiredDoc(t, v) in RequiredDocuments(Table)
      ensures v == Config(t).validityMonths && t != TrainingCertificate
    {
      var c :| c in Table && c.required && RequiredDoc(t, v) == RequiredDoc(c.docType, c.validityMonths);
      RowOfType(c);
    }
  }

  /**
   * The names for which `DOCUMENT_TYPES[type]` is truthy without being a
   * table key: the properties every object inherits from `Object.prototype`.
   */
  const InheritedNames: set<string> := {
    "constructor", "hasOwnProperty", "isPrototypeOf", "propertyIsEnumerable",
    "toLocaleString", "toString", "valueOf", "__proto__",
    "__defineGetter__", "__defineSetter__", "__lookupGetter__", "__lookupSetter__"
  }

  /** The upload type guard as written: `!DOCUMENT_TYPES[type]` rejects only names that look up nothing. */
  predicate TypeGuardAsWritten(docType: Option<string>) {
    docType.Some? && (ParseType(docType.value).Some? || docType.value in InheritedNames)
  }

  /** The schema enum and the table's keys are the same set of names. */
  lemma EnumIsTableKeys(name: string)
    ensures ParseType(name).Some? <==> exists i :: 0 <= i < |Table| && TypeName(Table[i].docType) == name
  {
    if ParseType(name).Some? {
      var i := TypeIndex(ParseType(name).value);
      assert TypeName(Table[i].docType) == name;
    } else {
      forall i | 0 <= i < |Table| ensures TypeName(Table[i].docType) != name {
        TypeNameRoundTrip(Table[i].docType);
      }
    }
  }

  /** The upload type guard as intended: only the table's own keys pass. */
  function TypeGuard(docType: Option<string>): (r: Option<DocType>)
    ensures r.Some? <==> docType.Some? && exists i :: 0 <= i < |Table| && TypeName(Table[i].docType) == docType.value
    ensures r.Some? ==> TypeName(r.value) == docType.value
  {
    if docType.None? then None
    else
      EnumIsTableKeys(docType.value);
      ParseType(docType.value)
  }

  /** The intended guard lets through exactly the names that the schema enum accepts. */
  lemma GuardMatchesSchema(docType: string)
    ensures TypeGuard(Some(docType)).Some? <==> ParseType(docType).Some?
    ensures TypeGuard(Some(docType)).Some? ==> TypeGuardAsWritten(Some(docType))
  {
  }

  /** The document `uploadUserDocument` stores: the caller's, `pending`, no review yet. */
  function NewDocument(caller: Id, t: DocType, description: Option<string>, url: string, expiry: Option<Millis>): (d: Document)
    ensures d.user == caller && d.docType == t && d.status == Pending && d.url == url && d.expiryDate == expiry
    ensures d.description == description
    ensures d.reviewComment.None? && d.reviewedBy.None? && d.reviewedAt.None?
  {
    Document(caller, t, description, url, DefaultStatus, expiry, None, None, None)
  }

  /**
   * `uploadUserDocument`, with the intended type guard: a missing file is 400,
   * then an unknown type is 400; otherwise the new document. `url` is the
   * storage upload's result.
   */
  function UploadStep(hasFile: bool, docType: Option<string>, description: Option<string>, expiry: Option<Millis>,
                      caller: Id, url: string): (r: Outcome<Document>)
    ensures !hasFile ==> r == Err(400, "No document file provided")
    ensures hasFile && TypeGuard(docType).None? ==> r == Err(400, "Invalid document type")
    ensures r.Ok? <==> hasFile && docType.Some? && ParseType(docType.value).Some?
    ensures r.Ok? ==> r.value == NewDocument(caller, ParseType(docType.value).value, description, url, expiry)
  {
    if !hasFile then Err(400, "No document file provided")
    else
      match TypeGuard(docType)
      case None => Err(400, "Invalid document type")
      case Some(t) => Ok(NewDocument(caller, t, description, url, expiry))
  }

  /**
   * `uploadUserDocument` as written: a name inherited from `Object.prototype`
   * passes the guard, the file is uploaded, and the save then fails the schema
   * enum, which the catch answers with 500.
   */
  function UploadStepAsWritten(hasFile: bool, docType: Option<string>, description: Option<string>,
                               expiry: Option<Millis>, caller: Id, url: string): (r: Outcome<Document>)
    ensures docType.Some? && docType.value in InheritedNames && hasFile ==> r == Err(500, "Error uploading document")
    ensures docType.None? || docType.value !in InheritedNames ==> r == UploadStep(hasFile, docType, description, expiry, caller, url)
  {
    if !hasFile then Err(400, "No document file provided")
    else if !TypeGuardAsWritten(docType) then Err(400, "Invalid document type")
    else
      match ParseType(docType.value)
      case None => Err(500, "Error uploading document")
      case Some(t) => Ok(NewDocument(caller, t, description, url, expiry))
  }

  /**
   * The discrepancy: for the type `"toString"` the guard as written lets the
   * request through and it ends in a 500 after the upload; the intended guard
   * refuses it with 400 before anything is uploaded.
   */
  lemma InheritedNamePassesGuard(description: Option<string>, expiry: Option<Millis>, caller: Id, url: string)
    ensures TypeGuardAsWritten(Some("toString")) && TypeGuard(Some("toString")).None?
    ensures UploadStepAsWritten(true, Some("toString"), description, expiry, caller, url) == Err(500, "Error uploading document")
    ensures UploadStep(true, Some("toString"), description, expiry, caller, url) == Err(400, "Invalid document type")
  {
    assert "toString" in InheritedNames;
  }

  /** The `findOne({ _id, user })` of get, download and delete: only the caller's own documents are found. */
  function FindOwned(docs: map<Id, Document>, id: Id, caller: Id): (r: Option<Document>)
    ensures r.Some? <==> id in docs && docs[id].user == caller
    ensures r.Some? ==> r.value == docs[id]
  {
    if id in docs && docs[id].user == caller then Some(docs[id]) else None
  }

  /** `updateDocumentStatus`: any document (an admin route); a status outside the enum fails the save with 500. */
  function ReviewStep(doc: Option<Document>, status: string, comment: Option<string>, reviewer: Id, now: Millis): (r: Outcome<Document>)
    ensures doc.None? ==> r == Err(404, "Document not found")
    ensures doc.Some? && ParseStatus(status).None? ==> r == Err(500, "Error updating document status")
    ensures r.Ok? <==> doc.Some? && ParseStatus(status).Some?
    ensures r.Ok? ==>
      && StatusName(r.value.status) == status
      && r.value.reviewComment == comment
      && r.value.reviewedBy == Some(reviewer)
      && r.value.reviewedAt == Some(now)
      && r.value.(status := doc.value.status, reviewComment := doc.value.reviewComment,
                  reviewedBy := doc.value.reviewedBy, reviewedAt := doc.value.reviewedAt) == doc.value
  {
    match doc
    case None => Err(404, "Document not found")
    case Some(d) =>
      match ParseStatus(status)
      case None => Err(500, "Error updating document status")
      case Some(s) => Ok(d.(status := s, reviewComment := comment, reviewedAt := Some(now), reviewedBy := Some(reviewer)))
  }

  /** The status reported for one type: `missing`, or a stored document status. */
  datatype Reported = Missing | Stored(status: DocStatus)

  /** One entry of `getDocumentStatus`. */
  datatype TypeReport = TypeReport(docType: DocType, required: bool, validityMonths: Option<int>,
                                   status: Reported, expiryDate: Option<Millis>)

  /** The `documents.find(d => d.type === type)` test. */
  function OfType(t: DocType): Document -> bool {
    (d: Document) => d.docType == t
  }

  /** The report entry for one table row, over the caller's documents in query order. */
  function ReportFor(docs: seq<Document>, row: TypeConfig, now: Millis): (r: TypeReport)
    ensures r.docType == row.docType && r.required == row.required && r.validityMonths == row.validityMonths
    ensures r.status == Missing <==> forall k :: 0 <= k < |docs| ==> docs[k].docType != row.docType
    ensures var i := FirstIndex(docs, OfType(row.docType));
      0 <= i ==>
        && r.expiryDate == docs[i].expiryDate
        && r.status == (if docs[i].expiryDate.Some? && docs[i].expiryDate.value < now then Stored(Expired) else Stored(docs[i].status))
  {
    var i := FirstIndex(docs, OfType(row.docType));
    if i == -1 then TypeReport(row.docType, row.required, row.validityMonths, Missing, None)
    else
      var d := docs[i];
      var shown := if d.expiryDate.Some? && d.expiryDate.value < now then Expired else d.status;
      TypeReport(row.docType, row.required, row.validityMonths, Stored(shown), d.expiryDate)
  }

  /** An entry is reported `expired` exactly when its first document is stored so or its date has passed. */
  lemma ReportedExpired(docs: seq<Document>, row: TypeConfig, now: Millis)
    ensures var i := FirstIndex(docs, OfType(row.docType));
      ReportFor(docs, row, now).status == Stored(Expired) <==>
        0 <= i && (docs[i].status == Expired || IsExpired(docs[i].expiryDate, now))
  {
  }

  /**
   * `getDocumentStatus` over the caller's documents as `Document.find({ user })`
   * returns them: one entry per table row, in table order.
   */
  method DocumentStatus(docs: seq<Document>, now: Millis) returns (report: seq<TypeReport>)
    ensures |report| == |Table|
    ensures forall i :: 0 <= i < |Table| ==> report[i] == ReportFor(docs, Table[i], now)
    ensures forall i, j :: 0 <= i < j < |report| ==> report[i].docType != report[j].docType
  {
    TableRowsDistinct();
    report := [];
    for n := 0 to |Table|
      invariant |report| == n
      invariant forall i :: 0 <= i < n ==> report[i] == ReportFor(docs, Table[i], now)
    {
      var row := Table[n];
      var k := FirstIndex(docs, OfType(row.docType));
      var entry := TypeReport(row.docType, row.required, row.validityMonths, Missing, None);
      if k != -1 {
        entry := entry.(status := Stored(docs[k].status), expiryDate := docs[k].expiryDate);
      }
      if k != -1 && docs[k].expiryDate.Some? && docs[k].expiryDate.value < now {
        entry := entry.(status := Stored(Expired));
      }
      report := report + [entry];
    }
  }

  /** The document collection and the notices the handlers asked to send. */
  class DocumentDesk {
    var docs: map<Id, Document>
    var outbox: seq<Notice>

    constructor ()
      ensures docs == map[] && outbox == []
    {
      docs := map[];
      outbox := [];
    }

    /** `uploadUserDocument`: guard, store under the fresh id, then notify the uploader. */
    method Upload(hasFile: bool, docType: Option<string>, description: Option<string>, expiry: Option<Millis>,
                  caller: Id, url: string, newId: Id) returns (resp: Outcome<Document>)
      requires newId !in docs
      modifies this
      ensures resp == UploadStep(hasFile, docType, description, expiry, caller, url)
      ensures docType.None? || docType.value !in InheritedNames ==>
        resp == UploadStepAsWritten(hasFile, docType, description, expiry, caller, url)
      ensures docs == if resp.Ok? then old(docs)[newId := resp.value] else old(docs)
      ensures outbox == if resp.Ok? then old(outbox) + [Notice(caller, "DOCUMENT_UPLOADED")] else old(outbox)
    {
      if !hasFile {
        return Err(400, "No document file provided");
      }
      var t := TypeGuard(docType);
      if t.None? {
        return Err(400, "Invalid document type");
      }
      var doc := NewDocument(caller, t.value, description, url, expiry);
      docs := docs[newId := doc];
      outbox := outbox + [Notice(caller, "DOCUMENT_UPLOADED")];
      resp := Ok(doc);
    }

    /** `getDocumentById` (and `downloadDocument`, which answers with the found document's url). */
    method Get(id: Id, caller: Id) returns (resp: Outcome<Document>)
      ensures resp.Ok? <==> id in docs && docs[id].user == caller
      ensures resp.Ok? ==> resp.value == docs[id]
      ensures resp.Err? ==> resp == Err(404, "Document not found")
    {
      var found := FindOwned(docs, id, caller);
      if found.None? {
        return Err(404, "Document not found");
      }
      resp := Ok(found.value);
    }

    /** `deleteDocument`: only the owner's document is removed. */
    method Delete(id: Id, caller: Id) returns (resp: Outcome<Document>)
      modifies this
      ensures resp.Ok? <==> id in old(docs) && old(docs)[id].user == caller
      ensures resp.Err? ==> resp == Err(404, "Document not found") && docs == old(docs)
      ensures resp.Ok? ==> resp.value == old(docs)[id] && docs == old(docs) - {id}
      ensures outbox == old(outbox)
    {
      var found := FindOwned(docs, id, caller);
      if found.None? {
        return Err(404, "Document not found");
      }
      docs := docs - {id};
      resp := Ok(found.value);
    }

    /** `updateDocumentStatus`: review fields written and saved, then the owner is notified. */
    method Review(id: Id, status: string, comment: Option<string>, reviewer: Id, now: Millis) returns (resp: Outcome<Document>)
      modifies this
      ensures resp == ReviewStep(Lookup(old(docs), id), status, comment, reviewer, now)
      ensures docs == if resp.Ok? then old(docs)[id := resp.value] else old(docs)
      ensures outbox == if resp.Ok? then old(outbox) + [Notice(resp.value.user, "DOCUMENT_STATUS_UPDATED")] else old(outbox)
    {
      if id !in docs {
        return Err(404, "Document not found");
      }
      var doc := docs[id];
      var s := ParseStatus(status);
      if s.None? {
        return Err(500, "Error updating document status");
      }
      doc := doc.(status := s.value);
      doc := doc.(reviewComment := comment);
      doc := doc.(reviewedAt := Some(now));
      doc := doc.(reviewedBy := Some(reviewer));
      docs := docs[id := doc];
      outbox := outbox + [Notice(doc.user, "DOCUMENT_STATUS_UPDATED")];
      resp := Ok(doc);
    }
  }
}
