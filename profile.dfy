/**
 * The profile handlers of src/controllers/profile/profileController.js on the
 * caller's own user document, seen as a map from field name to JSON value:
 *   - `updateProfile` geocodes a supplied address, then copies every key of
 *     the body onto the user except `password` and `email`;
 *   - `uploadDocument` stores an uploaded file's URL in the field its
 *     `documentType` names (`enhancedDBS.document` is the one nested field);
 *   - `addReference` pushes the body onto `references`;
 *   - `updateWorkHistory` replaces `workHistory`.
 * The geocoder's answer and the storage URL are inputs; a geocoder failure is
 * an input too, and the handler's catch turns it into 400.
 */
module Profile {
  import opened Common
  import opened Json

  type Fields = map<string, Value>

  /** The two keys `updateProfile` never copies. */
  const Protected: set<string> := {"password", "email"}

  /** The error `geocodeAddress` throws for any failure (src/services/maps.js:31). */
  const GeocodeFailure := "Failed to geocode address"

  /** The coordinates the geocoder returns. */
  datatype Place = Place(lat: real, lng: real)

  /** Copying `updates` onto `fields`, skipping the protected keys. */
  function Merge(fields: Fields, updates: Fields): (r: Fields)
    ensures forall k :: k in updates && k !in Protected ==> k in r && r[k] == updates[k]
    ensures forall k :: k !in updates || k in Protected ==> (k in r <==> k in fields)
    ensures forall k :: (k !in updates || k in Protected) && k in fields ==> r[k] == fields[k]
  {
    map k | k in fields.Keys + (updates.Keys - Protected) ::
      if k in updates && k !in Protected then updates[k] else fields[k]
  }

  /** Copying the same keys again changes nothing more. */
  lemma MergeIdempotent(fields: Fields, updates: Fields)
    ensures Merge(Merge(fields, updates), updates) == Merge(fields, updates)
  {
    var once := Merge(fields, updates);
    var twice := Merge(once, updates);
    assert forall k :: k in twice <==> k in once;
    assert forall k :: k in twice ==> twice[k] == once[k];
  }

  /** The object properties `{...v}` spreads: an object's own, nothing for anything else. */
  function SpreadProps(v: Value): seq<Prop> {
    if v.Obj? then v.props else []
  }

  /** `{ ...address, coordinates: { lat, lng } }`. */
  function Located(address: Value, at: Place): (r: Value)
    ensures r.Obj?
    ensures Get(r.props, "coordinates") == Some(Obj([Prop("lat", Num(at.lat)), Prop("lng", Num(at.lng))]))
    ensures forall k :: k != "coordinates" ==> Get(r.props, k) == Get(SpreadProps(address), k)
  {
    Obj(Put(SpreadProps(address), "coordinates", Obj([Prop("lat", Num(at.lat)), Prop("lng", Num(at.lng))])))
  }

  /** The body is geocoded when its `address` is truthy. */
  predicate NeedsGeocoding(updates: Fields) {
    "address" in updates && Truthy(updates["address"])
  }

  /** The body after the address step: the address gains the geocoder's coordinates. */
  function Prepared(updates: Fields, geocoded: Option<Place>): (r: Outcome<Fields>)
    ensures r.Err? <==> NeedsGeocoding(updates) && geocoded.None?
    ensures r.Err? ==> r == Err(400, GeocodeFailure)
    ensures r.Ok? ==> r.value.Keys == updates.Keys
    ensures r.Ok? ==> forall k :: k in updates && k != "address" ==> r.value[k] == updates[k]
    ensures r.Ok? && NeedsGeocoding(updates) ==> r.value["address"] == Located(updates["address"], geocoded.value)
    ensures r.Ok? && !NeedsGeocoding(updates) ==> r.value == updates
  {
    if NeedsGeocoding(updates) then
      if geocoded.None? then Err(400, GeocodeFailure)
      else Ok(updates["address" := Located(updates["address"], geocoded.value)])
    else Ok(updates)
  }

  /** `updateProfile` as a function of the stored fields, the body and the geocoder's answer. */
  function UpdateStep(fields: Fields, updates: Fields, geocoded: Option<Place>): (r: Outcome<Fields>)
    ensures r.Err? <==> NeedsGeocoding(updates) && geocoded.None?
    ensures r.Err? ==> r == Err(400, GeocodeFailure)
    ensures r.Ok? ==> forall k :: k in Protected ==>
      (k in r.value <==> k in fields) && (k in fields ==> r.value[k] == fields[k])
    ensures r.Ok? ==> forall k :: k in updates && k !in Protected && k != "address" ==>
      k in r.value && r.value[k] == updates[k]
    ensures r.Ok? ==> forall k :: k !in updates ==>
      (k in r.value <==> k in fields) && (k in fields ==> r.value[k] == fields[k])
    ensures r.Ok? && "address" in updates ==>
      && "address" in r.value
      && r.value["address"] == (if Truthy(updates["address"]) then Located(updates["address"], geocoded.value) else updates["address"])
  {
    match Prepared(updates, geocoded)
    case Err(code, error) => Err(code, error)
    case Ok(prepared) => Ok(Merge(fields, prepared))
  }

  /** Sending the same body twice, with the same geocoder answer, leaves what the first call left. */
  lemma UpdateIdempotent(fields: Fields, updates: Fields, geocoded: Option<Place>)
    requires UpdateStep(fields, updates, geocoded).Ok?
    ensures UpdateStep(UpdateStep(fields, updates, geocoded).value, updates, geocoded) == UpdateStep(fields, updates, geocoded)
  {
    MergeIdempotent(fields, Prepared(updates, geocoded).value);
  }

  /**
   * Only `password` and `email` are held back: any other field of the user
   * schema, `isAdmin` among them, is written from the body.
   */
  lemma AdminFlagIsWritable(fields: Fields, geocoded: Option<Place>)
    ensures UpdateStep(fields, map["isAdmin" := Bool(true)], geocoded) == Ok(fields["isAdmin" := Bool(true)])
  {
    var body := map["isAdmin" := Bool(true)];
    assert !NeedsGeocoding(body);
    var r := UpdateStep(fields, body, geocoded).value;
    var expected := fields["isAdmin" := Bool(true)];
    assert "isAdmin" !in Protected;
    assert forall k :: k in r <==> k in expected;
    assert forall k :: k in r ==> r[k] == expected[k];
    assert r == expected;
  }

  /** Copying one more key of `updates` extends the merge by that key. */
  lemma MergeOneMore(fields: Fields, updates: Fields, pending: set<string>, key: string)
    requires key in pending && pending <= updates.Keys
    ensures Merge(fields, updates - (pending - {key})) ==
      if key in Protected then Merge(fields, updates - pending)
      else Merge(fields, updates - pending)[key := updates[key]]
  {
  }

  /** Where a document type's URL is stored: a top-level field or a field inside one. */
  datatype Slot = Top(name: string) | Inside(parent: string, child: string)

  function SlotRoot(s: Slot): string {
    match s
    case Top(name) => name
    case Inside(parent, _) => parent
  }

  /** The `switch (documentType)` of `uploadDocument`. */
  function DocumentSlot(documentType: string): (r: Option<Slot>)
    ensures r.Some? <==> documentType in {"dbs", "brp", "cv", "certificate"}
    ensures documentType == "dbs" ==> r == Some(Inside("enhancedDBS", "document"))
    ensures documentType == "brp" ==> r == Some(Top("brpDocument"))
    ensures documentType == "cv" ==> r == Some(Top("cvDocument"))
    ensures documentType == "certificate" ==> r == Some(Top("combinedCertificate"))
  {
    match documentType
    case "dbs" => Some(Inside("enhancedDBS", "document"))
    case "brp" => Some(Top("brpDocument"))
    case "cv" => Some(Top("cvDocument"))
    case "certificate" => Some(Top("combinedCertificate"))
    case _ => None
  }

  /** The four document types write four different fields of the user. */
  lemma DocumentSlotsDistinct(t1: string, t2: string)
    requires DocumentSlot(t1).Some? && DocumentSlot(t2).Some? && t1 != t2
    ensures SlotRoot(DocumentSlot(t1).value) != SlotRoot(DocumentSlot(t2).value)
  {
  }

  /** The properties of a nested path such as `enhancedDBS`; Mongoose keeps it an object, empty when unset. */
  function NestedProps(fields: Fields, parent: string): seq<Prop> {
    if parent in fields && fields[parent].Obj? then fields[parent].props else []
  }

  /** Reading a slot. */
  function ReadSlot(fields: Fields, s: Slot): Option<Value> {
    match s
    case Top(name) => Lookup(fields, name)
    case Inside(parent, child) => Get(NestedProps(fields, parent), child)
  }

  /** `user.<slot> = v`: the slot reads back `v`; no other top-level field, and no sibling inside, changes. */
  function WriteSlot(fields: Fields, s: Slot, v: Value): (r: Fields)
    ensures ReadSlot(r, s) == Some(v)
    ensures r.Keys == fields.Keys + {SlotRoot(s)}
    ensures forall k :: k in fields && k != SlotRoot(s) ==> r[k] == fields[k]
    ensures s.Inside? ==> forall c :: c != s.child ==> Get(NestedProps(r, s.parent), c) == Get(NestedProps(fields, s.parent), c)
  {
    match s
    case Top(name) => fields[name := v]
    case Inside(parent, child) => fields[parent := Obj(Put(NestedProps(fields, parent), child, v))]
  }

  /**
   * `uploadDocument`: no file is 400 before anything is uploaded; an unknown
   * type throws after the upload and is answered 400 with nothing saved.
   */
  function UploadStep(fields: Fields, hasFile: bool, documentType: string, documentUrl: string): (r: Outcome<Fields>)
    ensures !hasFile ==> r == Err(400, "No file uploaded")
    ensures hasFile && DocumentSlot(documentType).None? ==> r == Err(400, "Invalid document type")
    ensures r.Ok? <==> hasFile && DocumentSlot(documentType).Some?
    ensures r.Ok? ==> ReadSlot(r.value, DocumentSlot(documentType).value) == Some(Str(documentUrl))
    ensures r.Ok? ==> forall k :: k in fields && k != SlotRoot(DocumentSlot(documentType).value) ==>
      k in r.value && r.value[k] == fields[k]
    ensures r.Ok? ==> r.value == WriteSlot(fields, DocumentSlot(documentType).value, Str(documentUrl))
    ensures r.Ok? ==> r.value.Keys == fields.Keys + {SlotRoot(DocumentSlot(documentType).value)}
    ensures r.Ok? && documentType == "dbs" ==> forall c :: c != "document" ==>
      Get(NestedProps(r.value, "enhancedDBS"), c) == Get(NestedProps(fields, "enhancedDBS"), c)
  {
    if !hasFile then Err(400, "No file uploaded")
    else match DocumentSlot(documentType)
      case None => Err(400, "Invalid document type")
      case Some(s) => Ok(WriteSlot(fields, s, Str(documentUrl)))
  }

  /** The stored `references` array; Mongoose gives an unset array the value `[]`. */
  function References(fields: Fields): seq<Value> {
    if "references" in fields && fields["references"].Arr? then fields["references"].items else []
  }

  /** `addReference`: exactly one reference is appended at the end, nothing else changes. */
  function AddReferenceStep(fields: Fields, reference: Value): (r: Fields)
    ensures References(r) == References(fields) + [reference]
    ensures r.Keys == fields.Keys + {"references"}
    ensures forall k :: k in fields && k != "references" ==> r[k] == fields[k]
  {
    fields["references" := Arr(References(fields) + [reference])]
  }

  /** `updateWorkHistory`: the body's `workHistory`; an absent one unsets the field. */
  function WorkHistoryStep(fields: Fields, workHistory: Option<Value>): (r: Fields)
    ensures workHistory.Some? ==> "workHistory" in r && r["workHistory"] == workHistory.value
    ensures workHistory.None? ==> "workHistory" !in r
    ensures forall k :: k != "workHistory" ==> (k in r <==> k in fields) && (k in fields ==> r[k] == fields[k])
  {
    match workHistory
    case Some(v) => fields["workHistory" := v]
    case None => fields - {"workHistory"}
  }

  /** The caller's user document. */
  class UserProfile {
    var fields: Fields

    constructor(initial: Fields)
      ensures fields == initial
    {
      fields := initial;
    }

    /** `updateProfile`: geocode, then the `forEach` that copies the keys one at a time. */
    method UpdateProfile(updates: Fields, geocoded: Option<Place>) returns (resp: Outcome<Fields>)
      modifies this
      ensures resp == UpdateStep(old(fields), updates, geocoded)
      ensures fields == if resp.Ok? then resp.value else old(fields)
    {
      var prepared := updates;
      if "address" in updates && Truthy(updates["address"]) {
        if geocoded.None? {
          return Err(400, GeocodeFailure);
        }
        prepared := prepared["address" := Located(updates["address"], geocoded.value)];
      }
      assert prepared == Prepared(updates, geocoded).value;
      var pending := prepared.Keys;
      assert prepared - pending == map[];
      assert Merge(fields, map[]) == fields;
      while pending != {}
        invariant pending <= prepared.Keys
        invariant fields == Merge(old(fields), prepared - pending)
        decreases pending
      {
        var key :| key in pending;
        MergeOneMore(old(fields), prepared, pending, key);
        if key != "password" && key != "email" {
          fields := fields[key := prepared[key]];
        }
        pending := pending - {key};
      }
      assert prepared - pending == prepared;
      resp := Ok(fields);
    }

    /** `uploadDocument`; `documentUrl` is what the storage upload returned. */
    method UploadDocument(hasFile: bool, documentType: string, documentUrl: string) returns (resp: Outcome<string>)
      modifies this
      ensures var step := UploadStep(old(fields), hasFile, documentType, documentUrl);
        && (resp.Ok? <==> step.Ok?)
        && (resp.Ok? ==> resp.value == documentUrl)
        && (step.Err? ==> resp == Err(step.code, step.error))
        && fields == if step.Ok? then step.value else old(fields)
    {
      if !hasFile {
        return Err(400, "No file uploaded");
      }
      match documentType {
        case "dbs" =>
          fields := fields["enhancedDBS" := Obj(Put(NestedProps(fields, "enhancedDBS"), "document", Str(documentUrl)))];
        case "brp" =>
          fields := fields["brpDocument" := Str(documentUrl)];
        case "cv" =>
          fields := fields["cvDocument" := Str(documentUrl)];
        case "certificate" =>
          fields := fields["combinedCertificate" := Str(documentUrl)];
        case _ =>
          return Err(400, "Invalid document type");
      }
      resp := Ok(documentUrl);
    }

    /** `addReference`: push the body and answer with the whole list. */
    method AddReference(reference: Value) returns (resp: seq<Value>)
      modifies this
      ensures fields == AddReferenceStep(old(fields), reference)
      ensures resp == References(old(fields)) + [reference]
    {
      var refs := References(fields);
      fields := fields["references" := Arr(refs + [reference])];
      resp := refs + [reference];
    }

    /** `updateWorkHistory`. */
    method UpdateWorkHistory(workHistory: Option<Value>)
      modifies this
      ensures fields == WorkHistoryStep(old(fields), workHistory)
    {
      match workHistory
      case Some(v) =>
        fields := fields["workHistory" := v];
      case None =>
        fields := fields - {"workHistory"};
    }
  }
}
