/** The decoding half of `DefaultFirestoreStorage`: the validating
    initialiser `Project.init?(data:)` and the shaping of the result of a
    collection fetch. The network calls themselves are not modelled. */
module Remote {
  import opened Wrappers
  import opened Domain

  /** Firestore's `Timestamp`. */
  datatype Timestamp = Timestamp(seconds: int, nanoseconds: int)

  /** A field of a document as `data()` hands it over: a string, an integer,
      a timestamp, or a value of any other Firestore type. */
  datatype FieldValue = StringField(text: string) | IntegerField(number: int) | TimestampField(stamp: Timestamp) | OtherField

  type Document = map<string, FieldValue>

  /** The error `getDocuments` reports. */
  datatype RemoteError = RemoteError(description: string)

  /** `Project.init?(data:)`: one guard over six casts and the state's raw
      value. `parseUuid` is `UUID(uuidString:)` and `dateValue` is
      `Timestamp.dateValue()`, both outside this model. */
  function DecodeProject(data: Document, parseUuid: string -> Option<Uuid>, dateValue: Timestamp -> Date): (r: Option<Project>)
    ensures r.Some? ==> WellFormed(data, parseUuid)
    ensures r.Some? ==> Some(r.value.id) == parseUuid(data["id"].text) && r.value.description == data["body"].text
  {
    if "id" !in data || !data["id"].StringField? then None
    else if parseUuid(data["id"].text).None? then None
    else if "title" !in data || !data["title"].StringField? then None
    else if "body" !in data || !data["body"].StringField? then None
    else if "date" !in data || !data["date"].TimestampField? then None
    else if "status" !in data || !data["status"].IntegerField? then None
    else
      match StateFromRawValue(data["status"].number)
      case None => None
      case Some(status) =>
        Some(Project(parseUuid(data["id"].text).value, data["title"].text, data["body"].text,
                     dateValue(data["date"].stamp), status))
  }

  /** The documents `Project.init?(data:)` accepts: every field present with its
      type, the id a UUID string and the status a state's raw value. */
  ghost predicate WellFormed(data: Document, parseUuid: string -> Option<Uuid>) {
    && "id" in data && data["id"].StringField? && parseUuid(data["id"].text).Some?
    && "title" in data && data["title"].StringField?
    && "body" in data && data["body"].StringField?
    && "date" in data && data["date"].TimestampField?
    && "status" in data && data["status"].IntegerField? && 0 <= data["status"].number <= 2
  }

  /** A document without an id string, or whose id is not a UUID, is rejected. */
  lemma RejectsBadId(data: Document, parseUuid: string -> Option<Uuid>, dateValue: Timestamp -> Date)
    requires "id" !in data || !data["id"].StringField? || parseUuid(data["id"].text).None?
    ensures DecodeProject(data, parseUuid, dateValue).None?
  {
  }

  /** A document whose title or body is not a string, whose date is not a
      timestamp, or whose status is not an integer, is rejected. */
  lemma RejectsMistypedFields(data: Document, parseUuid: string -> Option<Uuid>, dateValue: Timestamp -> Date)
    requires || "title" !in data || !data["title"].StringField?
             || "body" !in data || !data["body"].StringField?
             || "date" !in data || !data["date"].TimestampField?
             || "status" !in data || !data["status"].IntegerField?
    ensures DecodeProject(data, parseUuid, dateValue).None?
  {
  }

  /** An integer status that is not a state's raw value is rejected. */
  lemma RejectsUnknownStatus(data: Document, parseUuid: string -> Option<Uuid>, dateValue: Timestamp -> Date)
    requires "status" in data && data["status"].IntegerField?
    requires StateFromRawValue(data["status"].number).None?
    ensures DecodeProject(data, parseUuid, dateValue).None?
  {
  }

  /** Decoding succeeds exactly on well-formed documents, and then every
      field comes from its document field: `body` becomes the description. */
  lemma DecodeSucceedsOnWellFormed(data: Document, parseUuid: string -> Option<Uuid>, dateValue: Timestamp -> Date)
    ensures DecodeProject(data, parseUuid, dateValue).Some? <==> WellFormed(data, parseUuid)
    ensures DecodeProject(data, parseUuid, dateValue).Some? ==>
              var p := DecodeProject(data, parseUuid, dateValue).value;
              && Some(p.id) == parseUuid(data["id"].text)
              && p.title == data["title"].text
              && p.description == data["body"].text
              && p.date == dateValue(data["date"].stamp)
              && RawValue(p.status) == data["status"].number
  {
    if WellFormed(data, parseUuid) {
      RawValueRoundTrip(Todo, data["status"].number);
    }
  }

  /** What one document contributes to the `compactMap`: its project, or
      nothing when it does not decode. */
  function DecodedOne(d: Document, parseUuid: string -> Option<Uuid>, dateValue: Timestamp -> Date): (ps: seq<Project>)
    ensures |ps| <= 1
    ensures ps == [] <==> DecodeProject(d, parseUuid, dateValue).None?
    ensures ps != [] ==> Some(ps[0]) == DecodeProject(d, parseUuid, dateValue)
  {
    match DecodeProject(d, parseUuid, dateValue)
    case Some(p) => [p]
    case None => []
  }

  /** `documents.compactMap { Project(data: $0.data()) }`. */
  function DecodeDocuments(docs: seq<Document>, parseUuid: string -> Option<Uuid>, dateValue: Timestamp -> Date): (ps: seq<Project>)
    ensures |ps| <= |docs|
  {
    if |docs| == 0 then []
    else DecodedOne(docs[0], parseUuid, dateValue) + DecodeDocuments(docs[1..], parseUuid, dateValue)
  }

  /** The `compactMap` keeps exactly the decodable documents: each project
      decodes from a document, and every decodable document's project is
      there. */
  lemma {:induction false} DecodeDocumentsExact(docs: seq<Document>, parseUuid: string -> Option<Uuid>, dateValue: Timestamp -> Date)
    ensures forall p :: p in DecodeDocuments(docs, parseUuid, dateValue) ==>
              exists d :: d in docs && DecodeProject(d, parseUuid, dateValue) == Some(p)
    ensures forall d :: d in docs && DecodeProject(d, parseUuid, dateValue).Some? ==>
              DecodeProject(d, parseUuid, dateValue).value in DecodeDocuments(docs, parseUuid, dateValue)
  {
    if |docs| > 0 {
      DecodeDocumentsExact(docs[1..], parseUuid, dateValue);
      assert forall d :: d in docs[1..] ==> d in docs;
      assert forall d :: d in docs ==> d == docs[0] || d in docs[1..];
    }
  }

  /** One step of the `compactMap`: the first document's part, then the rest. */
  lemma DecodeDocumentsCons(docs: seq<Document>, parseUuid: string -> Option<Uuid>, dateValue: Timestamp -> Date)
    requires |docs| > 0
    ensures DecodeDocuments(docs, parseUuid, dateValue)
         == DecodedOne(docs[0], parseUuid, dateValue) + DecodeDocuments(docs[1..], parseUuid, dateValue)
  {
  }

  /** The decoded list keeps document order: decoding a concatenation is
      concatenating the decodings. */
  lemma {:induction false} DecodeDocumentsAppend(a: seq<Document>, b: seq<Document>,
                                                 parseUuid: string -> Option<Uuid>, dateValue: Timestamp -> Date)
    ensures DecodeDocuments(a + b, parseUuid, dateValue)
         == DecodeDocuments(a, parseUuid, dateValue) + DecodeDocuments(b, parseUuid, dateValue)
  {
    if |a| == 0 {
      assert a + b == b;
    } else {
      var ab := a + b;
      assert ab[0] == a[0] && ab[1..] == a[1..] + b;
      DecodeDocumentsCons(ab, parseUuid, dateValue);
      DecodeDocumentsCons(a, parseUuid, dateValue);
      DecodeDocumentsAppend(a[1..], b, parseUuid, dateValue);
      var one := DecodedOne(a[0], parseUuid, dateValue);
      var rest, tail := DecodeDocuments(a[1..], parseUuid, dateValue), DecodeDocuments(b, parseUuid, dateValue);
      assert one + (rest + tail) == (one + rest) + tail;
    }
  }

  /** The body of the `getDocuments` callback: an error fails the fetch, a
      missing snapshot gives the empty list, otherwise the decodable
      documents. */
  function FetchResult(error: Option<RemoteError>, snapshot: Option<seq<Document>>,
                       parseUuid: string -> Option<Uuid>, dateValue: Timestamp -> Date): (r: Result<seq<Project>, RemoteError>)
    ensures r.Failure? <==> error.Some?
    ensures r.Failure? ==> r.error == error.value
  {
    if error.Some? then Failure(error.value)
    else if snapshot.None? then Success([])
    else Success(DecodeDocuments(snapshot.value, parseUuid, dateValue))
  }

  /** Invalid documents never fail a fetch: it fails only on a reported
      error, and otherwise yields at most one project per document, each one
      the decoding of a document, and every decodable document's project. */
  lemma FetchDropsInvalid(error: Option<RemoteError>, snapshot: Option<seq<Document>>,
                          parseUuid: string -> Option<Uuid>, dateValue: Timestamp -> Date)
    ensures FetchResult(error, snapshot, parseUuid, dateValue).Failure? <==> error.Some?
    ensures error.None? && snapshot.None? ==> FetchResult(error, snapshot, parseUuid, dateValue) == Success([])
    ensures error.None? && snapshot.Some? ==>
              var ps := FetchResult(error, snapshot, parseUuid, dateValue).value;
              && |ps| <= |snapshot.value|
              && (forall p :: p in ps ==> exists d :: d in snapshot.value && DecodeProject(d, parseUuid, dateValue) == Some(p))
              && (forall d :: d in snapshot.value && WellFormed(d, parseUuid) ==> DecodeProject(d, parseUuid, dateValue).value in ps)
  {
    if error.None? && snapshot.Some? {
      DecodeDocumentsExact(snapshot.value, parseUuid, dateValue);
      forall d | d in snapshot.value && WellFormed(d, parseUuid)
        ensures DecodeProject(d, parseUuid, dateValue).Some?
      {
        DecodeSucceedsOnWellFormed(d, parseUuid, dateValue);
      }
    }
  }
}
