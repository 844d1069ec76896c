/**
 * The compliance document of src/models/Document.js: its type and status
 * enums (status defaults to `pending`) and the two virtuals computed from
 * `expiryDate` and the current time, `isExpired` and `daysUntilExpiry`.
 */
module Documents {
  import opened Common

  datatype DocType =
    | EnhancedDbs | RightToWork | ProfessionalRegistration | TrainingCertificate | IdDocument
    | ProofOfAddress | Reference | ImmunizationRecord | InsuranceCertificate

  datatype DocStatus = Pending | Approved | Rejected | Expired

  /** The enum strings of `type`. */
  function TypeName(t: DocType): string {
    match t
    case EnhancedDbs => "Enhanced DBS"
    case RightToWork => "Right to Work"
    case ProfessionalRegistration => "Professional Registration"
    case TrainingCertificate => "Training Certificate"
    case IdDocument => "ID Document"
    case ProofOfAddress => "Proof of Address"
    case Reference => "Reference"
    case ImmunizationRecord => "Immunization Record"
    case InsuranceCertificate => "Insurance Certificate"
  }

  /** Schema validation of `type`: only the nine enum strings are accepted. */
  function ParseType(s: string): (r: Option<DocType>)
    ensures r.Some? ==> TypeName(r.value) == s
  {
    if s == "Enhanced DBS" then Some(EnhancedDbs)
    else if s == "Right to Work" then Some(RightToWork)
    else if s == "Professional Registration" then Some(ProfessionalRegistration)
    else if s == "Training Certificate" then Some(TrainingCertificate)
    else if s == "ID Document" then Some(IdDocument)
    else if s == "Proof of Address" then Some(ProofOfAddress)
    else if s == "Reference" then Some(Reference)
    else if s == "Immunization Record" then Some(ImmunizationRecord)
    else if s == "Insurance Certificate" then Some(InsuranceCertificate)
    else None
  }

  /** Every enum value is accepted back as itself, so the names are distinct. */
  lemma TypeNameRoundTrip(t: DocType)
    ensures ParseType(TypeName(t)) == Some(t)
  {
  }

  function StatusName(s: DocStatus): string {
    match s
    case Pending => "pending"
    case Approved => "approved"
    case Rejected => "rejected"
    case Expired => "expired"
  }

  /** Schema validation of `status`. */
  function ParseStatus(s: string): (r: Option<DocStatus>)
    ensures r.Some? ==> StatusName(r.value) == s
    ensures r.None? ==> s !in {"pending", "approved", "rejected", "expired"}
  {
    if s == "pending" then Some(Pending)
    else if s == "approved" then Some(Approved)
    else if s == "rejected" then Some(Rejected)
    else if s == "expired" then Some(Expired)
    else None
  }

  lemma StatusNameRoundTrip(s: DocStatus)
    ensures ParseStatus(StatusName(s)) == Some(s)
  {
  }

  /** The status a new document gets when none is given. */
  const DefaultStatus: DocStatus := Pending

  datatype Document = Document(
    user: Id,
    docType: DocType,
    description: Option<string>,
    url: string,
    status: DocStatus,
    expiryDate: Option<Millis>,
    reviewComment: Option<string>,
    reviewedBy: Option<Id>,
    reviewedAt: Option<Millis>)

  /** The virtual `isExpired`: false without an expiry date, else whether now is past it. */
  function IsExpired(expiry: Option<Millis>, now: Millis): (r: bool)
    ensures expiry.None? ==> !r
    ensures expiry.Some? ==> (r <==> now > expiry.value)
  {
    match expiry
    case None => false
    case Some(e) => now > e
  }

  /** Milliseconds in a day, `1000 * 60 * 60 * 24`. */
  const DayMillis: int := 86_400_000

  /** `Math.ceil(diff / DayMillis)` for an integer number of milliseconds. */
  function CeilDays(diff: int): (d: int)
    ensures (d - 1) * DayMillis < diff <= d * DayMillis
  {
    -((-diff) / DayMillis)
  }

  /** The virtual `daysUntilExpiry`: `null` without an expiry date, else the days left rounded up. */
  function DaysUntilExpiry(expiry: Option<Millis>, now: Millis): (r: Option<int>)
    ensures r.Some? <==> expiry.Some?
    ensures r.Some? ==> (r.value - 1) * DayMillis < expiry.value - now <= r.value * DayMillis
    ensures r.Some? ==> (r.value > 0 <==> expiry.value > now)
  {
    match expiry
    case None => None
    case Some(e) => Some(CeilDays(e - now))
  }

  /** The two virtuals agree: an expired document has no days left, and a document with days left is not expired. */
  lemma ExpiredIffNoDaysLeft(expiry: Millis, now: Millis)
    ensures IsExpired(Some(expiry), now) ==> DaysUntilExpiry(Some(expiry), now).value <= 0
    ensures DaysUntilExpiry(Some(expiry), now).value > 0 ==> !IsExpired(Some(expiry), now)
    ensures !IsExpired(Some(expiry), now) && expiry != now ==> DaysUntilExpiry(Some(expiry), now).value >= 1
  {
  }
}
