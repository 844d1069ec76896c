/**
 * The request validation of src/middleware/validation.js: the Joi schemas as
 * data, the checks Joi runs for each kind of rule (with `abortEarly: false`,
 * so every failing path is reported), and `validate`, which answers 400 with
 * one `{ field, message }` per failure, `field` being the path joined by '.',
 * or passes the request on.
 *
 * Joi's behaviour is modelled for the rules these schemas use: `valid` is
 * checked before the type, a string that is empty (after `trim` when the rule
 * trims) fails, `min` counts characters, `greater(Joi.ref(...))` compares with
 * the sibling, `when(..., { is, then: required })` makes a key required when
 * the sibling holds the value, and keys a schema does not declare are refused.
 * A failure is reported by Joi's error type (`any.required`, `string.min`, ...).
 */
module Validation {
  import opened Common
  import opened Json

  /** What a key must hold. */
  datatype Rule =
    | Text(trim: bool, minLength: nat, only: seq<string>)   // Joi.string(); `only` non-empty for `.valid(...)`
    | Flag(onlyTrue: bool)                                  // Joi.boolean(), `.valid(true)`
    | Instant(after: Option<string>)                        // Joi.date(), `.greater(Joi.ref(sibling))`
    | Number(min: Option<real>, max: Option<real>, positive: bool)
    | Record(fields: seq<Field>)                            // Joi.object({...})
    | ListOf(item: Rule)                                    // Joi.array().items(...)

  /** Whether a key must be present: never, always, or when a sibling holds a value. */
  datatype Presence = Optional | Required | RequiredWhen(sibling: string, equals: Value)

  datatype Field = Field(name: string, rule: Rule, presence: Presence)

  /** One entry of Joi's `error.details`: the path and the error type. */
  datatype Detail = Detail(path: seq<string>, kind: string)

  /** The whitespace `trim` removes (the ASCII controls, space, no-break space and the byte-order mark). */
  predicate IsSpace(c: char) {
    c == ' ' || c == '\t' || c == '\n' || c == '\r' || c == '\U{000B}' || c == '\U{000C}' || c == '\U{00A0}' || c == '\U{FEFF}'
  }

  function TrimStart(s: string): (r: string)
    ensures |r| <= |s| && (|r| > 0 ==> !IsSpace(r[0]))
    ensures r == s[|s| - |r|..]
  {
    if |s| > 0 && IsSpace(s[0]) then TrimStart(s[1..]) else s
  }

  function TrimEnd(s: string): (r: string)
    ensures |r| <= |s| && (|r| > 0 ==> !IsSpace(r[|r| - 1]))
    ensures r == s[..|r|]
  {
    if |s| > 0 && IsSpace(s[|s| - 1]) then TrimEnd(s[..|s| - 1]) else s
  }

  /** `String.prototype.trim`. */
  function Trim(s: string): (r: string)
    ensures |r| <= |s|
    ensures |r| > 0 ==> !IsSpace(r[0]) && !IsSpace(r[|r| - 1])
  {
    TrimEnd(TrimStart(s))
  }

  /** A string of whitespace only trims to the empty string. */
  lemma {:induction false} TrimAllSpace(s: string)
    requires forall i :: 0 <= i < |s| ==> IsSpace(s[i])
    ensures Trim(s) == ""
  {
    if |s| > 0 {
      assert forall i :: 0 <= i < |s[1..]| ==> IsSpace(s[1..][i]);
      TrimAllSpace(s[1..]);
      assert TrimStart(s) == TrimStart(s[1..]);
    }
  }

  /**
   * The string checks Joi runs after `valid`: the type, which ends the
   * checking when it fails, then emptiness (after `trim` when the rule trims),
   * which ends it too, then the `min` length.
   */
  function TextBase(path: seq<string>, trim: bool, minLength: nat, v: Value): (ds: seq<Detail>)
    ensures |ds| <= 1
    ensures ds == [] <==> v.Str? && var t := if trim then Trim(v.s) else v.s; t != "" && |t| >= minLength
  {
    if !v.Str? then [Detail(path, "string.base")]
    else
      var t := if trim then Trim(v.s) else v.s;
      if t == "" then [Detail(path, "string.empty")]
      else if |t| < minLength then [Detail(path, "string.min")]
      else []
  }

  /**
   * The failures of a string rule. A value listed by `valid` passes outright;
   * any other value gets `any.only` and, since `abortEarly` is off, the string
   * checks go on and add their own failure.
   */
  function TextDetails(path: seq<string>, trim: bool, minLength: nat, only: seq<string>, v: Value): (ds: seq<Detail>)
    ensures |ds| <= 2
    ensures |only| > 0 ==> (ds == [] <==> v.Str? && (if trim then Trim(v.s) else v.s) in only)
    ensures |only| == 0 ==> (ds == [] <==> v.Str? && var t := if trim then Trim(v.s) else v.s; t != "" && |t| >= minLength)
  {
    var t := if v.Str? then (if trim then Trim(v.s) else v.s) else "";
    if |only| > 0 && v.Str? && t in only then []
    else (if |only| > 0 then [Detail(path, "any.only")] else []) + TextBase(path, trim, minLength, v)
  }

  /**
   * What a failing string rule reports, kind by kind: `any.only` first when a
   * `valid` list is missed, then `string.base` for a non-string, or
   * `string.empty` for an empty one, or `string.min` for a short one.
   */
  lemma TextDetailsReports(path: seq<string>, trim: bool, minLength: nat, only: seq<string>, v: Value)
    ensures var ds := TextDetails(path, trim, minLength, only, v);
      && (forall d :: d in ds ==> d.path == path)
      && (Detail(path, "any.only") in ds <==> |only| > 0 && !(v.Str? && (if trim then Trim(v.s) else v.s) in only))
      && (Detail(path, "string.base") in ds <==> !v.Str?)
      && (|only| > 0 && ds != [] ==> ds[0] == Detail(path, "any.only"))
      && (ds != [] && v.Str? ==> var t := if trim then Trim(v.s) else v.s;
            (Detail(path, "string.empty") in ds <==> t == "") && (Detail(path, "string.min") in ds <==> t != "" && |t| < minLength))
  {
  }

  /** A value outside a `valid` list that is not even a string is reported twice: Joi does not stop at `any.only`. */
  lemma WrongTypeReportedTwice(path: seq<string>, only: seq<string>, v: Value)
    requires |only| > 0 && !v.Str?
    ensures TextDetails(path, false, 0, only, v) == [Detail(path, "any.only"), Detail(path, "string.base")]
    ensures FlagDetails(path, true, Str("yes")) == [Detail(path, "any.only"), Detail(path, "boolean.base")]
  {
  }

  /** The failures of a boolean rule: `any.only` when `valid(true)` fails, and `boolean.base` for a non-boolean. */
  function FlagDetails(path: seq<string>, onlyTrue: bool, v: Value): (ds: seq<Detail>)
    ensures ds == [] <==> v.Bool? && (onlyTrue ==> v.b)
    ensures |ds| <= 2
  {
    (if onlyTrue && v != Bool(true) then [Detail(path, "any.only")] else [])
    + (if v.Bool? then [] else [Detail(path, "boolean.base")])
  }

  /** What a failing boolean rule reports: `any.only` first when `valid(true)` is missed, and `boolean.base` for a non-boolean. */
  lemma FlagDetailsReports(path: seq<string>, onlyTrue: bool, v: Value)
    ensures var ds := FlagDetails(path, onlyTrue, v);
      && (forall d :: d in ds ==> d.path == path)
      && (Detail(path, "any.only") in ds <==> onlyTrue && v != Bool(true))
      && (Detail(path, "boolean.base") in ds <==> !v.Bool?)
      && (onlyTrue && ds != [] ==> ds[0] == Detail(path, "any.only"))
  {
  }

  /** The failures of a date rule; a date is a number of milliseconds. */
  function InstantDetails(path: seq<string>, after: Option<string>, v: Value, siblings: seq<Prop>): (ds: seq<Detail>)
    ensures after.None? ==> (ds == [] <==> v.Num?)
    ensures after.Some? ==> (ds == [] <==>
      v.Num? && Get(siblings, after.value).Some? && Get(siblings, after.value).value.Num?
      && v.n > Get(siblings, after.value).value.n)
  {
    if !v.Num? then [Detail(path, "date.base")]
    else match after
      case None => []
      case Some(sibling) =>
        match Get(siblings, sibling)
        case Some(Num(t)) => if v.n > t then [] else [Detail(path, "date.greater")]
        case _ => [Detail(path, "any.ref")]
  }

  /** The failures of a number rule; every bound that fails is reported. */
  function NumberDetails(path: seq<string>, min: Option<real>, max: Option<real>, positive: bool, v: Value): (ds: seq<Detail>)
    ensures ds == [] <==>
      v.Num? && (min.Some? ==> v.n >= min.value) && (max.Some? ==> v.n <= max.value) && (positive ==> v.n > 0.0)
  {
    if !v.Num? then [Detail(path, "number.base")]
    else
      (if min.Some? && v.n < min.value then [Detail(path, "number.min")] else [])
      + (if max.Some? && v.n > max.value then [Detail(path, "number.max")] else [])
      + (if positive && v.n <= 0.0 then [Detail(path, "number.positive")] else [])
  }

  /** The names a schema declares. */
  predicate Declared(fields: seq<Field>, k: string) {
    exists i :: 0 <= i < |fields| && fields[i].name == k
  }

  /** One `object.unknown` failure per property the schema does not declare, in body order. */
  function Unknown(path: seq<string>, fields: seq<Field>, props: seq<Prop>): (ds: seq<Detail>)
    ensures ds == [] <==> forall i :: 0 <= i < |props| ==> Declared(fields, props[i].key)
  {
    if |props| == 0 then []
    else
      (if Declared(fields, props[0].key) then [] else [Detail(path + [props[0].key], "object.unknown")])
      + Unknown(path, fields, props[1..])
  }

  /** Whether a key is required, given its siblings. */
  predicate Needed(presence: Presence, props: seq<Prop>) {
    match presence
    case Optional => false
    case Required => true
    case RequiredWhen(sibling, equals) => Get(props, sibling) == Some(equals)
  }

  /** The failures of a value against a rule, reported under `path`. */
  function Check(path: seq<string>, rule: Rule, v: Value, siblings: seq<Prop>): seq<Detail>
    decreases rule, 0
  {
    match rule
    case Text(trim, minLength, only) => TextDetails(path, trim, minLength, only, v)
    case Flag(onlyTrue) => FlagDetails(path, onlyTrue, v)
    case Instant(after) => InstantDetails(path, after, v, siblings)
    case Number(min, max, positive) => NumberDetails(path, min, max, positive, v)
    case Record(fields) =>
      if v.Obj? then CheckFields(path, fields, v.props) + Unknown(path, fields, v.props)
      else [Detail(path, "object.base")]
    case ListOf(item) =>
      if v.Arr? then CheckItems(path, item, v.items, 0) else [Detail(path, "array.base")]
  }

  /** The failures of one declared key of an object. */
  function CheckField(path: seq<string>, f: Field, props: seq<Prop>): seq<Detail>
    decreases f, 0
  {
    match Get(props, f.name)
    case None => if Needed(f.presence, props) then [Detail(path + [f.name], "any.required")] else []
    case Some(v) => Check(path + [f.name], f.rule, v, props)
  }

  /** The failures of the declared keys, in schema order. */
  function CheckFields(path: seq<string>, fields: seq<Field>, props: seq<Prop>): seq<Detail>
    decreases fields, 0
  {
    if |fields| == 0 then []
    else CheckField(path, fields[0], props) + CheckFields(path, fields[1..], props)
  }

  /** The failures of the items of an array, each under its index. */
  function CheckItems(path: seq<string>, item: Rule, items: seq<Value>, i: nat): seq<Detail>
    requires i <= |items|
    decreases item, |items| - i + 1
  {
    if i == |items| then []
    else Check(path + [NatToString(i)], item, items[i], []) + CheckItems(path, item, items, i + 1)
  }

  function DigitChar(d: nat): char
    requires d < 10
  {
    "0123456789"[d]
  }

  /** The decimal form of an array index, as it appears in a path. */
  function NatToString(n: nat): (s: string)
    ensures |s| >= 1
    decreases n
  {
    if n < 10 then [DigitChar(n)] else NatToString(n / 10) + [DigitChar(n % 10)]
  }

  /** The failures of the declared keys are those of each key, in order. */
  lemma {:induction false} CheckFieldsEmpty(path: seq<string>, fields: seq<Field>, props: seq<Prop>)
    ensures CheckFields(path, fields, props) == [] <==>
      forall i :: 0 <= i < |fields| ==> CheckField(path, fields[i], props) == []
  {
    if |fields| > 0 {
      CheckFieldsEmpty(path, fields[1..], props);
      assert forall i :: 1 <= i < |fields| ==> fields[i] == fields[1..][i - 1];
    }
  }

  /** Every failure of one key is among the failures of the object. */
  lemma {:induction false} FieldDetailsIncluded(path: seq<string>, fields: seq<Field>, props: seq<Prop>, i: nat)
    requires i < |fields|
    ensures forall d :: d in CheckField(path, fields[i], props) ==> d in CheckFields(path, fields, props)
  {
    if i > 0 {
      FieldDetailsIncluded(path, fields[1..], props, i - 1);
    }
  }

  /** `path.join('.')`. */
  function Join(path: seq<string>): (s: string)
    ensures |path| == 0 ==> s == ""
    ensures |path| == 1 ==> s == path[0]
  {
    if |path| == 0 then ""
    else if |path| == 1 then path[0]
    else path[0] + "." + Join(path[1..])
  }

  /** One `{ field, message }` of the 400 response; the message is Joi's text for the error type. */
  datatype FieldMessage = FieldMessage(field: string, kind: string)

  /** What the middleware does: call `next`, or answer 400 with the list of failures. */
  datatype Verdict = Next | Reject(status: int, errors: seq<FieldMessage>)

  /** `validate(schema)` applied to a body's failures. */
  function Validate(details: seq<Detail>): (r: Verdict)
    ensures r.Next? <==> details == []
    ensures r.Reject? ==> r.status == 400 && |r.errors| == |details|
    ensures r.Reject? ==> forall i :: 0 <= i < |details| ==>
      r.errors[i] == FieldMessage(Join(details[i].path), details[i].kind)
  {
    if details == [] then Next
    else Reject(400, seq(|details|, i requires 0 <= i < |details| => FieldMessage(Join(details[i].path), details[i].kind)))
  }

  /** A body checked against a schema: the whole body is the object at the empty path. */
  function BodyDetails(schema: seq<Field>, body: Value): seq<Detail> {
    Check([], Record(schema), body, [])
  }

  // ---- The schemas ------------------------------------------------------------

  const AnyText: Rule := Text(false, 0, [])
  const Trimmed: Rule := Text(true, 0, [])
  const Roles: seq<string> := ["Registered Nurse", "Healthcare Assistant", "Support Worker"]

  const DbsFields: seq<Field> := [
    Field("has", Flag(false), Required),
    Field("document", AnyText, RequiredWhen("has", Bool(true)))]

  const CoordinateFields: seq<Field> := [
    Field("lat", Number(Some(-90.0), Some(90.0), false), Required),
    Field("lng", Number(Some(-180.0), Some(180.0), false), Required)]

  const UserRegistration: seq<Field> := [
    Field("firstName", Trimmed, Required),
    Field("lastName", Trimmed, Required),
    Field("email", Trimmed, Required),
    Field("phoneNumber", Trimmed, Required),
    Field("username", Trimmed, Required),
    Field("jobRole", Text(false, 0, Roles), Required),
    Field("password", Text(false, 8, []), Required),
    Field("profilePhoto", AnyText, Optional),
    Field("dateOfBirth", Instant(None), Required),
    Field("gender", Text(false, 0, ["male", "female"]), Required),
    Field("address", Record([
      Field("postcode", AnyText, Required),
      Field("street", AnyText, Required),
      Field("country", AnyText, Required)]), Required),
    Field("hasUnspentConvictions", Flag(false), Required),
    Field("nationalInsuranceNumber", AnyText, Required),
    Field("enhancedDBS", Record(DbsFields), Required),
    Field("nationality", Text(false, 0, ["UK", "EU", "Other"]), Required),
    Field("rightToWork", Flag(false), Required),
    Field("brpNumber", AnyText, RequiredWhen("nationality", Str("Other"))),
    Field("brpDocument", AnyText, RequiredWhen("nationality", Str("Other"))),
    Field("references", ListOf(Record([
      Field("name", AnyText, Required),
      Field("email", AnyText, Required),
      Field("phone", AnyText, Required)])), Optional),
    Field("workHistory", AnyText, Optional),
    Field("consent", Flag(true), Required),
    Field("cvDocument", AnyText, Optional),
    Field("trainings", ListOf(Record([
      Field("name", AnyText, Required),
      Field("passed", Flag(false), Optional),
      Field("datePassed", Instant(None), Optional)])), Optional),
    Field("otherTrainings", ListOf(Record([
      Field("name", AnyText, Required),
      Field("datePassed", Instant(None), Required)])), Optional),
    Field("combinedCertificate", AnyText, Optional),
    Field("bankDetails", Record([
      Field("sortCode", AnyText, Required),
      Field("accountNumber", AnyText, Required),
      Field("bankName", AnyText, Required)]), Required),
    Field("signature", Record([
      Field("content", AnyText, Required),
      Field("date", Instant(None), Required)]), Required)]

  const ResetPassword: seq<Field> := [
    Field("token", AnyText, Required),
    Field("newPassword", Text(false, 8, []), Required)]

  const ShiftCreation: seq<Field> := [
    Field("startTime", Instant(None), Required),
    Field("endTime", Instant(Some("startTime")), Required),
    Field("location", Record([
      Field("name", AnyText, Required),
      Field("address", AnyText, Required),
      Field("coordinates", Record(CoordinateFields), Required)]), Required),
    Field("role", Text(false, 0, Roles), Required),
    Field("payRate", Number(None, None, true), Required),
    Field("notes", AnyText, Optional)]

  const LocationUpdate: seq<Field> := [
    Field("latitude", Number(Some(-90.0), Some(90.0), false), Required),
    Field("longitude", Number(Some(-180.0), Some(180.0), false), Required)]

  // ---- What the schemas promise -------------------------------------------------

  /** A failure of a declared key of the body is a failure of the body. */
  lemma InBody(schema: seq<Field>, props: seq<Prop>, i: nat, d: Detail)
    requires i < |schema| && d in CheckField([], schema[i], props)
    ensures d in BodyDetails(schema, Obj(props))
  {
    FieldDetailsIncluded([], schema, props, i);
    assert BodyDetails(schema, Obj(props)) == CheckFields([], schema, props) + Unknown([], schema, props);
  }

  /** `enhancedDBS.document` is required when `enhancedDBS.has` is true. */
  lemma DbsDocumentRequiredWhenHas(props: seq<Prop>, dbs: seq<Prop>)
    requires Get(props, "enhancedDBS") == Some(Obj(dbs))
    requires Get(dbs, "has") == Some(Bool(true)) && Get(dbs, "document").None?
    ensures Detail(["enhancedDBS", "document"], "any.required") in BodyDetails(UserRegistration, Obj(props))
  {
    var d := Detail(["enhancedDBS", "document"], "any.required");
    assert UserRegistration[13] == Field("enhancedDBS", Record(DbsFields), Required);
    assert [] + ["enhancedDBS"] == ["enhancedDBS"];
    assert ["enhancedDBS"] + ["document"] == ["enhancedDBS", "document"];
    assert CheckField(["enhancedDBS"], DbsFields[1], dbs) == [d];
    FieldDetailsIncluded(["enhancedDBS"], DbsFields, dbs, 1);
    assert CheckField([], UserRegistration[13], props) ==
      CheckFields(["enhancedDBS"], DbsFields, dbs) + Unknown(["enhancedDBS"], DbsFields, dbs);
    InBody(UserRegistration, props, 13, d);
  }

  /** ... and may be left out when `has` is false. */
  lemma DbsDocumentOptionalWithoutIt(path: seq<string>, siblings: seq<Prop>)
    ensures Check(path, Record(DbsFields), Obj([Prop("has", Bool(false))]), siblings) == []
  {
    var props := [Prop("has", Bool(false))];
    assert Get(props, "has") == Some(Bool(false));
    assert Get(props, "document") == None;
    CheckFieldsEmpty(path, DbsFields, props);
    assert Declared(DbsFields, "has");
  }

  /** `brpNumber` and `brpDocument` are required when `nationality` is `Other`. */
  lemma BrpRequiredForOther(props: seq<Prop>)
    requires Get(props, "nationality") == Some(Str("Other"))
    requires Get(props, "brpNumber").None? && Get(props, "brpDocument").None?
    ensures Detail(["brpNumber"], "any.required") in BodyDetails(UserRegistration, Obj(props))
    ensures Detail(["brpDocument"], "any.required") in BodyDetails(UserRegistration, Obj(props))
  {
    assert [] + ["brpNumber"] == ["brpNumber"];
    assert [] + ["brpDocument"] == ["brpDocument"];
    assert UserRegistration[16] == Field("brpNumber", AnyText, RequiredWhen("nationality", Str("Other")));
    assert UserRegistration[17] == Field("brpDocument", AnyText, RequiredWhen("nationality", Str("Other")));
    assert CheckField([], UserRegistration[16], props) == [Detail(["brpNumber"], "any.required")];
    assert CheckField([], UserRegistration[17], props) == [Detail(["brpDocument"], "any.required")];
    InBody(UserRegistration, props, 16, Detail(["brpNumber"], "any.required"));
    InBody(UserRegistration, props, 17, Detail(["brpDocument"], "any.required"));
  }

  /** `consent` must be exactly `true`. */
  lemma ConsentMustBeTrue(props: seq<Prop>)
    requires Get(props, "consent").Some? && Get(props, "consent") != Some(Bool(true))
    ensures Detail(["consent"], "any.only") in BodyDetails(UserRegistration, Obj(props))
  {
    assert [] + ["consent"] == ["consent"];
    assert UserRegistration[20] == Field("consent", Flag(true), Required);
    assert Detail(["consent"], "any.only") in CheckField([], UserRegistration[20], props);
    InBody(UserRegistration, props, 20, Detail(["consent"], "any.only"));
  }

  /** A registration password of one to seven characters is too short. */
  lemma RegistrationPasswordTooShort(props: seq<Prop>, password: string)
    requires Get(props, "password") == Some(Str(password)) && 0 < |password| < 8
    ensures Detail(["password"], "string.min") in BodyDetails(UserRegistration, Obj(props))
  {
    assert [] + ["password"] == ["password"];
    assert UserRegistration[6] == Field("password", Text(false, 8, []), Required);
    assert CheckField([], UserRegistration[6], props) == [Detail(["password"], "string.min")];
    InBody(UserRegistration, props, 6, Detail(["password"], "string.min"));
  }

  /** An end time not after the start time is refused. */
  lemma ShiftEndsAfterStart(props: seq<Prop>, start: real, end: real)
    requires Get(props, "startTime") == Some(Num(start)) && Get(props, "endTime") == Some(Num(end))
    requires end <= start
    ensures Detail(["endTime"], "date.greater") in BodyDetails(ShiftCreation, Obj(props))
  {
    assert [] + ["endTime"] == ["endTime"];
    assert ShiftCreation[1] == Field("endTime", Instant(Some("startTime")), Required);
    assert CheckField([], ShiftCreation[1], props) == [Detail(["endTime"], "date.greater")];
    InBody(ShiftCreation, props, 1, Detail(["endTime"], "date.greater"));
  }

  /** A pay rate that is not positive is refused. */
  lemma ShiftPayRatePositive(props: seq<Prop>, rate: real)
    requires Get(props, "payRate") == Some(Num(rate)) && rate <= 0.0
    ensures Detail(["payRate"], "number.positive") in BodyDetails(ShiftCreation, Obj(props))
  {
    assert [] + ["payRate"] == ["payRate"];
    assert ShiftCreation[4] == Field("payRate", Number(None, None, true), Required);
    assert CheckField([], ShiftCreation[4], props) == [Detail(["payRate"], "number.positive")];
    InBody(ShiftCreation, props, 4, Detail(["payRate"], "number.positive"));
  }

  /** A failure of a coordinate of a shift's location is a failure of the body. */
  lemma CoordinateFailureReported(props: seq<Prop>, location: seq<Prop>, coordinates: seq<Prop>, k: nat, d: Detail)
    requires Get(props, "location") == Some(Obj(location))
    requires Get(location, "coordinates") == Some(Obj(coordinates))
    requires k < |CoordinateFields| && d in CheckField(["location", "coordinates"], CoordinateFields[k], coordinates)
    ensures d in BodyDetails(ShiftCreation, Obj(props))
  {
    var locationFields := ShiftCreation[2].rule.fields;
    assert [] + ["location"] == ["location"];
    assert ["location"] + ["coordinates"] == ["location", "coordinates"];
    FieldDetailsIncluded(["location", "coordinates"], CoordinateFields, coordinates, k);
    assert locationFields[2] == Field("coordinates", Record(CoordinateFields), Required);
    assert d in CheckField(["location"], locationFields[2], location);
    FieldDetailsIncluded(["location"], locationFields, location, 2);
    assert ShiftCreation[2] == Field("location", Record(locationFields), Required);
    assert d in CheckField([], ShiftCreation[2], props);
    InBody(ShiftCreation, props, 2, d);
  }

  /** A shift location's latitude outside [-90, 90] is refused. */
  lemma ShiftLatitudeInRange(props: seq<Prop>, location: seq<Prop>, coordinates: seq<Prop>, lat: real)
    requires Get(props, "location") == Some(Obj(location))
    requires Get(location, "coordinates") == Some(Obj(coordinates))
    requires Get(coordinates, "lat") == Some(Num(lat)) && (lat < -90.0 || lat > 90.0)
    ensures exists kind :: Detail(["location", "coordinates", "lat"], kind) in BodyDetails(ShiftCreation, Obj(props))
  {
    var path := ["location", "coordinates", "lat"];
    var d := Detail(path, if lat < -90.0 then "number.min" else "number.max");
    assert ["location", "coordinates"] + ["lat"] == path;
    assert CoordinateFields[0] == Field("lat", Number(Some(-90.0), Some(90.0), false), Required);
    assert d in CheckField(["location", "coordinates"], CoordinateFields[0], coordinates);
    CoordinateFailureReported(props, location, coordinates, 0, d);
  }

  /** A shift location's longitude outside [-180, 180] is refused. */
  lemma ShiftLongitudeInRange(props: seq<Prop>, location: seq<Prop>, coordinates: seq<Prop>, lng: real)
    requires Get(props, "location") == Some(Obj(location))
    requires Get(location, "coordinates") == Some(Obj(coordinates))
    requires Get(coordinates, "lng") == Some(Num(lng)) && (lng < -180.0 || lng > 180.0)
    ensures exists kind :: Detail(["location", "coordinates", "lng"], kind) in BodyDetails(ShiftCreation, Obj(props))
  {
    var path := ["location", "coordinates", "lng"];
    var d := Detail(path, if lng < -180.0 then "number.min" else "number.max");
    assert ["location", "coordinates"] + ["lng"] == path;
    assert CoordinateFields[1] == Field("lng", Number(Some(-180.0), Some(180.0), false), Required);
    assert d in CheckField(["location", "coordinates"], CoordinateFields[1], coordinates);
    CoordinateFailureReported(props, location, coordinates, 1, d);
  }

  /** A location update is accepted exactly when it holds the two coordinates in range and nothing else. */
  predicate LocationUpdateOk(body: Value) {
    && body.Obj?
    && (forall i :: 0 <= i < |body.props| ==> body.props[i].key in {"latitude", "longitude"})
    && Get(body.props, "latitude").Some? && Get(body.props, "latitude").value.Num?
    && -90.0 <= Get(body.props, "latitude").value.n <= 90.0
    && Get(body.props, "longitude").Some? && Get(body.props, "longitude").value.Num?
    && -180.0 <= Get(body.props, "longitude").value.n <= 180.0
  }

  lemma LocationUpdateIff(body: Value)
    ensures Validate(BodyDetails(LocationUpdate, body)).Next? <==> LocationUpdateOk(body)
  {
    if body.Obj? {
      var props := body.props;
      CheckFieldsEmpty([], LocationUpdate, props);
      assert forall k :: Declared(LocationUpdate, k) <==> k in {"latitude", "longitude"} by {
        forall k ensures Declared(LocationUpdate, k) <==> k in {"latitude", "longitude"} {
          if k == "latitude" { assert LocationUpdate[0].name == k; }
          if k == "longitude" { assert LocationUpdate[1].name == k; }
        }
      }
    }
  }

  /** A password reset is accepted exactly when it holds a non-empty token and a new password of eight or more characters, and nothing else. */
  predicate ResetPasswordOk(body: Value) {
    && body.Obj?
    && (forall i :: 0 <= i < |body.props| ==> body.props[i].key in {"token", "newPassword"})
    && Get(body.props, "token").Some? && Get(body.props, "token").value.Str?
    && Get(body.props, "token").value.s != ""
    && Get(body.props, "newPassword").Some? && Get(body.props, "newPassword").value.Str?
    && |Get(body.props, "newPassword").value.s| >= 8
  }

  lemma ResetPasswordIff(body: Value)
    ensures Validate(BodyDetails(ResetPassword, body)).Next? <==> ResetPasswordOk(body)
  {
    if body.Obj? {
      var props := body.props;
      CheckFieldsEmpty([], ResetPassword, props);
      assert forall k :: Declared(ResetPassword, k) <==> k in {"token", "newPassword"} by {
        forall k ensures Declared(ResetPassword, k) <==> k in {"token", "newPassword"} {
          if k == "token" { assert ResetPassword[0].name == k; }
          if k == "newPassword" { assert ResetPassword[1].name == k; }
        }
      }
    }
  }

  /** A key the schema does not declare is refused under its own name. */
  lemma UndeclaredKeyRefused(schema: seq<Field>, props: seq<Prop>, i: nat)
    requires i < |props| && !Declared(schema, props[i].key)
    ensures Detail([props[i].key], "object.unknown") in BodyDetails(schema, Obj(props))
  {
    UnknownIncludes([], schema, props, i);
    assert [] + [props[i].key] == [props[i].key];
  }

  lemma {:induction false} UnknownIncludes(path: seq<string>, fields: seq<Field>, props: seq<Prop>, i: nat)
    requires i < |props| && !Declared(fields, props[i].key)
    ensures Detail(path + [props[i].key], "object.unknown") in Unknown(path, fields, props)
  {
    if i > 0 {
      UnknownIncludes(path, fields, props[1..], i - 1);
    }
  }

  /** A nested failure is reported under its dotted path. */
  lemma NestedPathJoined()
    ensures Validate([Detail(["enhancedDBS", "document"], "any.required")])
      == Reject(400, [FieldMessage("enhancedDBS.document", "any.required")])
  {
    var ds := [Detail(["enhancedDBS", "document"], "any.required")];
    assert ["enhancedDBS", "document"][1..] == ["document"];
    assert Join(["enhancedDBS", "document"]) == "enhancedDBS" + "." + "document";
    assert "enhancedDBS" + "." + "document" == "enhancedDBS.document";
    var r := Validate(ds);
    assert r.Reject? && |r.errors| == 1 && r.errors[0] == FieldMessage("enhancedDBS.document", "any.required");
    assert r.errors == [FieldMessage("enhancedDBS.document", "any.required")];
  }
}
