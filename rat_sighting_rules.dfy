/**
 * The rules of the rat-sighting schema stated field by field, without the schema
 * combinators, and the proofs that `ValidateRecord` and `ValidateAll` follow them.
 */
module RatSightingRules {
  import opened Wrappers
  import opened JsValues
  import opened Zod
  import opened RecordFields
  import opened RatSightings

  /** The fields a record must have: those the schema does not mark `.optional()`. */
  predicate Required(f: Field) {
    match f
    case UniqueKey | CreatedDate | Agency | AgencyName | ComplaintType | Descriptor | Status |
      ParkFacilityName => true
    case _ => false
  }

  /** The fields whose value is converted with `Number(...)`. */
  predicate NumberField(f: Field) {
    match f
    case UniqueKey | XCoordinateStatePlane | YCoordinateStatePlane | Latitude | Longitude |
      XCoordinateStatePlane_ | YCoordinateStatePlane_ | ComputedRegionEfshH5xi |
      ComputedRegionF5dnYrer | ComputedRegionYejiBk3q | ComputedRegion92fq4b7q |
      ComputedRegionSbqjEnih => true
    case _ => false
  }

  /** The fields whose value is converted with `new Date(...)`. */
  predicate DateField(f: Field) {
    match f
    case CreatedDate | ClosedDate | DueDate | ResolutionActionUpdatedDate => true
    case _ => false
  }

  /** The fields restricted to a closed set of strings, each with its set. */
  function Choices(f: Field): Option<set<string>> {
    match f
    case Agency => Some({"DOHMH"})
    case AgencyName => Some({"Department of Health and Mental Hygiene"})
    case ComplaintType => Some({"Rodent"})
    case Descriptor => Some({"Rat Sighting"})
    case AddressType => Some({"ADDRESS", "BLOCKFACE", "INTERSECTION", "LATLONG", "PLACENAME", "UNRECOGNIZED"})
    case Status => Some({"Assigned", "Closed", "Draft", "In Progress", "Open", "Pending", "Unspecified"})
    case Borough => Some({"BRONX", "BROOKLYN", "MANHATTAN", "QUEENS", "STATEN ISLAND", "Unspecified"})
    case ParkBorough => Some({"BRONX", "BROOKLYN", "MANHATTAN", "QUEENS", "STATEN ISLAND", "Unspecified", ""})
    case _ => None
  }

  /** The fields that take any string. */
  predicate TextField(f: Field) {
    match f
    case LocationType | IncidentAddress | StreetName | CrossStreet1 | CrossStreet2 |
      IntersectionStreet1 | IntersectionStreet2 | City | Landmark | FacilityType | CommunityBoard |
      ParkFacilityName | VehicleType | TaxiCompanyBorough | TaxiPickUpLocation |
      BridgeHighwayName | BridgeHighwayDirection | RoadRamp | BridgeHighwaySegment => true
    case _ => false
  }

  /** The fields found in the data though not in the data set's documentation. */
  predicate Undocumented(f: Field) {
    match f
    case XCoordinateStatePlane_ | YCoordinateStatePlane_ | ComputedRegionEfshH5xi |
      ComputedRegionF5dnYrer | ComputedRegionYejiBk3q | ComputedRegion92fq4b7q |
      ComputedRegionSbqjEnih => true
    case _ => false
  }

  /** `{coordinates: [x, y], type: "Point"}` with two numbers and no other key. */
  predicate IsPoint(v: Value) {
    && v.JObj?
    && v.fields.Keys == {"coordinates", "type"}
    && v.fields["type"] == JStr("Point")
    && v.fields["coordinates"].JArr?
    && |v.fields["coordinates"].elems| == 2
    && v.fields["coordinates"].elems[0].JNum?
    && v.fields["coordinates"].elems[1].JNum?
  }

  /** When the value `v` of field `f` is acceptable (`JUndefined` when the key is absent). */
  predicate FieldAccepted(c: Coercion, f: Field, v: Value) {
    if f == IncidentZip then v == JUndefined || v == JStr(NotAvailable) || ToNumber(c, v).Some?
    else if v == JUndefined then !Required(f)
    else if NumberField(f) then ToNumber(c, v).Some?
    else if DateField(f) then ToDate(c, v).Some?
    else if f == Location then IsPoint(v)
    else if Choices(f).Some? then v.JStr? && v.str in Choices(f).value
    else TextField(f) && v.JStr?
  }

  /** When a record is acceptable: every key declared, every field acceptable. */
  predicate RecordAccepted(c: Coercion, fields: map<string, Value>) {
    && fields.Keys <= DeclaredKeys()
    && forall f :: FieldAccepted(c, f, Get(fields, Name(f)))
  }

  /** What an acceptable value of field `f` becomes in the validated record. */
  function Normalize(c: Coercion, f: Field, v: Value): Value {
    if f == IncidentZip && v == JStr(NotAvailable) then JUndefined
    else if (NumberField(f) || f == IncidentZip) && ToNumber(c, v).Some? then JNum(ToNumber(c, v).value)
    else if DateField(f) && ToDate(c, v).Some? then JDate(ToDate(c, v).value)
    else v
  }

  /** Every field falls under exactly one kind of rule, and the groups are what the schema says. */
  lemma FieldGroups(f: Field)
    ensures NumberField(f) || DateField(f) || Choices(f).Some? || TextField(f)
            || f == IncidentZip || f == Location
    ensures NumberField(f) ==> !DateField(f) && Choices(f).None? && !TextField(f) && f != IncidentZip && f != Location
    ensures DateField(f) ==> Choices(f).None? && !TextField(f) && f != IncidentZip && f != Location
    ensures Choices(f).Some? ==> !TextField(f) && f != IncidentZip && f != Location
    ensures TextField(f) ==> f != IncidentZip && f != Location
    ensures Undocumented(f) ==> NumberField(f) && !Required(f)
    ensures !AcceptsAbsence(FieldSchema(f)) <==> Required(f)
  {
  }

  /** A field's schema as the source writes it: bare when the field is required, with `.optional()` otherwise. */
  function Wrap(s: Schema, required: bool): Schema {
    if required then s else Optional(s)
  }

  /** An optional field lets an absent value through; everything else goes to the wrapped schema. */
  lemma ParseWrap(c: Coercion, s: Schema, required: bool, v: Value)
    ensures Parse(c, Wrap(s, required), v) == if v == JUndefined && !required then Success(JUndefined) else Parse(c, s, v)
  {
  }

  /** A number field's schema: `z.coerce.number()`, with `.optional()` unless the field is required. */
  lemma NumberShape(f: Field)
    requires NumberField(f)
    ensures FieldSchema(f) == Wrap(CoerceNumber, Required(f))
    ensures f != IncidentZip && !DateField(f)
  {
  }

  /** A date field's schema: `z.coerce.date()`, with `.optional()` unless the field is required. */
  lemma DateShape(f: Field)
    requires DateField(f)
    ensures FieldSchema(f) == Wrap(CoerceDate, Required(f))
    ensures f != IncidentZip && !NumberField(f)
  {
  }

  /** A free-text field's schema: `z.string()`, with `.optional()` unless the field is required. */
  lemma TextShape(f: Field)
    requires TextField(f)
    ensures FieldSchema(f) == Wrap(Str, Required(f))
    ensures f != IncidentZip && f != Location && !NumberField(f) && !DateField(f) && Choices(f).None?
  {
  }

  /** An enumerated field's schema: `z.enum` over its listed strings, with `.optional()` unless the field is required. */
  lemma ChoiceShape(f: Field)
    requires Choices(f).Some?
    ensures exists options :: FieldSchema(f) == Wrap(Enum(options), Required(f))
                             && forall s :: s in options <==> s in Choices(f).value
    ensures f != IncidentZip && f != Location && !NumberField(f) && !DateField(f)
  {
    match f
    case Agency => assert FieldSchema(f) == Enum(AgencyValues);
    case AgencyName => assert FieldSchema(f) == Enum(AgencyNameValues);
    case ComplaintType => assert FieldSchema(f) == Enum(ComplaintTypeValues);
    case Descriptor => assert FieldSchema(f) == Enum(DescriptorValues);
    case AddressType => assert FieldSchema(f) == Optional(Enum(AddressTypeValues));
    case Status => assert FieldSchema(f) == Enum(StatusValues);
    case Borough => assert FieldSchema(f) == Optional(Enum(BoroughValues));
    case ParkBorough => assert FieldSchema(f) == Optional(Enum(ParkBoroughValues));
  }

  /** `coordinates` passes exactly when it is a pair of numbers, and then it is kept as it is. */
  lemma CoordinatesRule(c: Coercion, xy: Value)
    ensures Parse(c, Tuple([Number, Number]), xy).Success? <==>
              xy.JArr? && |xy.elems| == 2 && xy.elems[0].JNum? && xy.elems[1].JNum?
    ensures Parse(c, Tuple([Number, Number]), xy).Success? ==> Parse(c, Tuple([Number, Number]), xy).value == xy
  {
    if xy.JArr? {
      ParseTuple(c, [Number, Number], xy.elems);
    }
  }

  /** `location` passes exactly when it is a point, and then it is kept as it is. */
  lemma LocationRule(c: Coercion, v: Value)
    ensures Parse(c, LocationSchema, v).Success? <==> IsPoint(v)
    ensures Parse(c, LocationSchema, v).Success? ==> Parse(c, LocationSchema, v).value == v
  {
    if v.JObj? {
      var shape := LocationSchema.shape;
      assert shape.Keys == {"coordinates", "type"};
      ParseObject(c, shape, v.fields);
      var xy := Get(v.fields, "coordinates");
      CoordinatesRule(c, xy);
      var r := Parse(c, LocationSchema, v);
      if r.Success? {
        assert "coordinates" in v.fields && "type" in v.fields;
        assert v.fields.Keys == {"coordinates", "type"};
        var out := r.value.fields;
        assert out["coordinates"] == xy;
        assert out == v.fields;
      }
    }
  }

  lemma NumberRule(c: Coercion, f: Field, v: Value)
    requires NumberField(f)
    ensures Parse(c, FieldSchema(f), v).Success? <==> FieldAccepted(c, f, v)
    ensures Parse(c, FieldSchema(f), v).Success? ==> Parse(c, FieldSchema(f), v).value == Normalize(c, f, v)
  {
    NumberShape(f);
    ParseWrap(c, CoerceNumber, Required(f), v);
    assert FieldAccepted(c, f, v) <==> if v == JUndefined then !Required(f) else ToNumber(c, v).Some?;
    assert Normalize(c, f, v) == if ToNumber(c, v).Some? then JNum(ToNumber(c, v).value) else v;
  }

  lemma DateRule(c: Coercion, f: Field, v: Value)
    requires DateField(f)
    ensures Parse(c, FieldSchema(f), v).Success? <==> FieldAccepted(c, f, v)
    ensures Parse(c, FieldSchema(f), v).Success? ==> Parse(c, FieldSchema(f), v).value == Normalize(c, f, v)
  {
    DateShape(f);
    ParseWrap(c, CoerceDate, Required(f), v);
    assert FieldAccepted(c, f, v) <==> if v == JUndefined then !Required(f) else ToDate(c, v).Some?;
    assert Normalize(c, f, v) == if ToDate(c, v).Some? then JDate(ToDate(c, v).value) else v;
  }

  /** What an enumerated field's rule accepts, and that it keeps the value. */
  lemma ChoiceAcceptance(c: Coercion, f: Field, v: Value)
    requires Choices(f).Some?
    ensures FieldAccepted(c, f, v) <==> if v == JUndefined then !Required(f) else v.JStr? && v.str in Choices(f).value
    ensures Normalize(c, f, v) == v
  {
    ChoiceShape(f);
  }

  /** What an enumerated field's schema accepts, given the strings it lists. */
  lemma ChoiceParse(c: Coercion, f: Field, v: Value, options: seq<string>)
    requires Choices(f).Some?
    requires FieldSchema(f) == Wrap(Enum(options), Required(f))
    requires forall s :: s in options <==> s in Choices(f).value
    ensures Parse(c, FieldSchema(f), v).Success? <==> if v == JUndefined then !Required(f) else v.JStr? && v.str in Choices(f).value
    ensures Parse(c, FieldSchema(f), v).Success? ==> Parse(c, FieldSchema(f), v).value == v
  {
    ParseWrap(c, Enum(options), Required(f), v);
  }

  lemma ChoiceRule(c: Coercion, f: Field, v: Value)
    requires Choices(f).Some?
    ensures Parse(c, FieldSchema(f), v).Success? <==> FieldAccepted(c, f, v)
    ensures Parse(c, FieldSchema(f), v).Success? ==> Parse(c, FieldSchema(f), v).value == Normalize(c, f, v)
  {
    ChoiceShape(f);
    var options :| FieldSchema(f) == Wrap(Enum(options), Required(f))
                   && forall s :: s in options <==> s in Choices(f).value;
    ChoiceAcceptance(c, f, v);
    ChoiceParse(c, f, v, options);
  }

  lemma TextRule(c: Coercion, f: Field, v: Value)
    requires TextField(f)
    ensures Parse(c, FieldSchema(f), v).Success? <==> FieldAccepted(c, f, v)
    ensures Parse(c, FieldSchema(f), v).Success? ==> Parse(c, FieldSchema(f), v).value == Normalize(c, f, v)
  {
    TextShape(f);
    ParseWrap(c, Str, Required(f), v);
    assert FieldAccepted(c, f, v) <==> if v == JUndefined then !Required(f) else v.JStr?;
    assert Normalize(c, f, v) == v;
  }

  /** A value passes its field's schema exactly when the field's rule accepts it, and becomes its normal form. */
  lemma FieldRule(c: Coercion, f: Field, v: Value)
    ensures Parse(c, FieldSchema(f), v).Success? <==> FieldAccepted(c, f, v)
    ensures Parse(c, FieldSchema(f), v).Success? ==> Parse(c, FieldSchema(f), v).value == Normalize(c, f, v)
  {
    FieldGroups(f);
    if NumberField(f) {
      NumberRule(c, f, v);
    } else if DateField(f) {
      DateRule(c, f, v);
    } else if Choices(f).Some? {
      ChoiceRule(c, f, v);
    } else if TextField(f) {
      TextRule(c, f, v);
    } else if f == Location {
      LocationRule(c, v);
    }
  }

  /** An acceptable value stays acceptable once normalized, and normalizing it again changes nothing. */
  lemma NormalizeStable(c: Coercion, f: Field, v: Value)
    requires FieldAccepted(c, f, v)
    ensures FieldAccepted(c, f, Normalize(c, f, v))
    ensures Normalize(c, f, Normalize(c, f, v)) == Normalize(c, f, v)
  {
  }

  /**
   * `null` in a number or date field is not read as a missing key: it passes exactly
   * when `Number(null)` or `new Date(null)` converts it, and becomes that conversion.
   */
  lemma NullInCoercedField(c: Coercion, f: Field)
    requires NumberField(f) || DateField(f)
    ensures FieldAccepted(c, f, JNull) <==> if NumberField(f) then c.number(JNull).Some? else c.date(JNull).Some?
    ensures NumberField(f) && c.number(JNull).Some? ==> Parse(c, FieldSchema(f), JNull) == Success(JNum(c.number(JNull).value))
    ensures DateField(f) && c.date(JNull).Some? ==> Parse(c, FieldSchema(f), JNull) == Success(JDate(c.date(JNull).value))
  {
    FieldRule(c, f, JNull);
    FieldGroups(f);
  }

  /** Anything but an object is refused as a whole. */
  lemma NonObjectRejected(c: Coercion, raw: Value)
    requires !raw.JObj?
    ensures ValidateRecord(c, raw) == Failure({Issue([], InvalidType)})
  {
  }

  /**
   * A record passes exactly when all its keys are declared and every field's rule
   * accepts its value; the validated record then has the same keys, each holding the
   * normal form of the input's value.
   */
  lemma ValidateRecordRule(c: Coercion, fields: map<string, Value>)
    ensures var r := ValidateRecord(c, JObj(fields));
      && (r.Success? <==> RecordAccepted(c, fields))
      && (r.Success? ==>
            r.value.JObj? && r.value.fields.Keys == fields.Keys
            && forall f :: Name(f) in fields ==> r.value.fields[Name(f)] == Normalize(c, f, fields[Name(f)]))
  {
    var shape := RatSightingShape();
    ParseObject(c, shape, fields);
    forall f
      ensures Name(f) in shape && shape[Name(f)] == FieldSchema(f)
      ensures Parse(c, shape[Name(f)], Get(fields, Name(f))).Success? <==> FieldAccepted(c, f, Get(fields, Name(f)))
      ensures Parse(c, shape[Name(f)], Get(fields, Name(f))).Success? ==>
                Parse(c, shape[Name(f)], Get(fields, Name(f))).value == Normalize(c, f, Get(fields, Name(f)))
    {
      ShapeEntries(f);
      FieldRule(c, f, Get(fields, Name(f)));
    }
    ShapeEntries(UniqueKey);
    forall k | k in shape
      ensures k == Name(FieldOf(k))
    {
    }
  }

  /** A field whose rule refuses its value makes the record fail, with an issue at that field's key. */
  lemma FieldRejected(c: Coercion, fields: map<string, Value>, f: Field)
    requires !FieldAccepted(c, f, Get(fields, Name(f)))
    ensures var r := ValidateRecord(c, JObj(fields));
      r.Failure? && exists issue :: issue in r.error && issue.path != [] && issue.path[0] == Key(Name(f))
  {
    var shape := RatSightingShape();
    ShapeEntries(f);
    FieldRule(c, f, Get(fields, Name(f)));
    var inner := Parse(c, shape[Name(f)], Get(fields, Name(f)));
    var issue :| issue in inner.error;
    ObjectFieldIssue(c, shape, fields, Name(f), issue);
    assert issue.Under(Key(Name(f))).path[0] == Key(Name(f));
  }

  /** A record without one of the required keys fails, with an issue at that key. */
  lemma RequiredFieldMissing(c: Coercion, fields: map<string, Value>, f: Field)
    requires Required(f) && Name(f) !in fields
    ensures var r := ValidateRecord(c, JObj(fields));
      r.Failure? && exists issue :: issue in r.error && issue.path != [] && issue.path[0] == Key(Name(f))
  {
    FieldRejected(c, fields, f);
  }

  /** The required keys, spelled out. */
  lemma RequiredKeys()
    ensures (set f | Required(f) :: Name(f)) ==
            {"unique_key", "created_date", "agency", "agency_name", "complaint_type", "descriptor",
             "status", "park_facility_name"}
  {
    assert Name(UniqueKey) == "unique_key" && Name(CreatedDate) == "created_date";
    assert Name(Agency) == "agency" && Name(AgencyName) == "agency_name";
    assert Name(ComplaintType) == "complaint_type" && Name(Descriptor) == "descriptor";
    assert Name(Status) == "status" && Name(ParkFacilityName) == "park_facility_name";
  }

  /** Replacing a field's value with one its rule accepts keeps an accepted record accepted. */
  lemma FieldReplaced(c: Coercion, fields: map<string, Value>, f: Field, v: Value)
    requires ValidateRecord(c, JObj(fields)).Success? && FieldAccepted(c, f, v)
    ensures ValidateRecord(c, JObj(fields[Name(f) := v])).Success?
  {
    ValidateRecordRule(c, fields);
    ValidateRecordRule(c, fields[Name(f) := v]);
    NamesDistinct();
    FieldOfName(f);
  }

  /** Leaving out an optional field keeps an accepted record accepted. */
  lemma OptionalFieldDropped(c: Coercion, fields: map<string, Value>, f: Field)
    requires ValidateRecord(c, JObj(fields)).Success? && !Required(f)
    ensures ValidateRecord(c, JObj(fields - {Name(f)})).Success?
  {
    ValidateRecordRule(c, fields);
    ValidateRecordRule(c, fields - {Name(f)});
    NamesDistinct();
  }

  /** `.strict()`: a key outside the declared ones makes the record fail, with an issue naming it. */
  lemma UnknownKeyRejected(c: Coercion, fields: map<string, Value>, k: string)
    requires k in fields && k !in DeclaredKeys()
    ensures var r := ValidateRecord(c, JObj(fields));
      r.Failure? && exists issue :: issue in r.error && issue.path == [] && issue.code.UnrecognizedKeys? && k in issue.code.keys
  {
    var shape := RatSightingShape();
    ShapeEntries(UniqueKey);
    ObjectUnknownKeys(c, shape, fields);
    assert k in fields.Keys - shape.Keys;
  }

  /** An undocumented key holding a number, or a value `Number(...)` converts, keeps an accepted record accepted. */
  lemma UndocumentedKeyAccepted(c: Coercion, fields: map<string, Value>, f: Field, v: Value)
    requires ValidateRecord(c, JObj(fields)).Success? && Undocumented(f) && ToNumber(c, v).Some?
    ensures ValidateRecord(c, JObj(fields[Name(f) := v])).Success?
  {
    FieldGroups(f);
    FieldReplaced(c, fields, f, v);
  }

  /**
   * `incident_zip: "N/A"` is read as an absent zip code: the record passes exactly when
   * it passes without the key, and the validated record holds undefined there.
   */
  lemma ZipNotAvailable(c: Coercion, fields: map<string, Value>)
    requires Get(fields, "incident_zip") == JStr(NotAvailable)
    ensures var r := ValidateRecord(c, JObj(fields));
      && (r.Success? <==> ValidateRecord(c, JObj(fields - {"incident_zip"})).Success?)
      && (r.Success? ==> r.value.JObj? && "incident_zip" in r.value.fields && r.value.fields["incident_zip"] == JUndefined)
  {
    assert Name(IncidentZip) == "incident_zip";
    var dropped := fields - {"incident_zip"};
    ValidateRecordRule(c, fields);
    ValidateRecordRule(c, dropped);
    forall g
      ensures FieldAccepted(c, g, Get(fields, Name(g))) <==> FieldAccepted(c, g, Get(dropped, Name(g)))
    {
      if g != IncidentZip {
        NamesDistinct();
        assert Get(fields, Name(g)) == Get(dropped, Name(g));
      }
    }
  }

  /** No issue is ever raised at `incident_zip` when it holds "N/A". */
  lemma ZipNotAvailableNoIssue(c: Coercion, fields: map<string, Value>)
    requires Get(fields, "incident_zip") == JStr(NotAvailable)
    ensures forall issue :: issue in IssuesOf(ValidateRecord(c, JObj(fields))) ==>
              issue.path == [] || issue.path[0] != Key("incident_zip")
  {
    assert Name(IncidentZip) == "incident_zip";
    ShapeEntries(IncidentZip);
    assert Parse(c, FieldSchema(IncidentZip), JStr(NotAvailable)).Success?;
    forall issue | issue in IssuesOf(ValidateRecord(c, JObj(fields)))
      ensures issue.path == [] || issue.path[0] != Key("incident_zip")
    {
      ObjectIssueOrigin(c, RatSightingShape(), fields, issue);
    }
  }

  /** Any other `incident_zip` value is checked as an optional number. */
  lemma ZipOtherValues(c: Coercion, v: Value)
    requires v != JStr(NotAvailable)
    ensures Parse(c, FieldSchema(IncidentZip), v) == Parse(c, Optional(CoerceNumber), v)
  {
  }

  /** An enumerated field's value, if any, is one of its listed strings in every accepted record. */
  lemma AcceptedChoice(c: Coercion, fields: map<string, Value>, f: Field)
    requires ValidateRecord(c, JObj(fields)).Success? && Choices(f).Some? && Get(fields, Name(f)) != JUndefined
    ensures Get(fields, Name(f)).JStr? && Get(fields, Name(f)).str in Choices(f).value
  {
    ValidateRecordRule(c, fields);
    assert FieldAccepted(c, f, Get(fields, Name(f)));
    ChoiceAcceptance(c, f, Get(fields, Name(f)));
  }

  /** An enumerated field's schema refuses an unlisted string with `invalid_enum_value`. */
  lemma ChoiceRefusal(c: Coercion, f: Field, v: Value)
    requires Choices(f).Some? && v.JStr? && v.str !in Choices(f).value
    ensures Parse(c, FieldSchema(f), v) == Reject(InvalidEnumValue)
  {
    match f
    case Agency =>
    case AgencyName =>
    case ComplaintType =>
    case Descriptor =>
    case AddressType =>
    case Status =>
    case Borough =>
    case ParkBorough =>
  }

  /** An enumerated field holding an unlisted string fails with `invalid_enum_value` at its key. */
  lemma ChoiceRejected(c: Coercion, fields: map<string, Value>, f: Field)
    requires Choices(f).Some? && Get(fields, Name(f)).JStr? && Get(fields, Name(f)).str !in Choices(f).value
    ensures var r := ValidateRecord(c, JObj(fields));
      r.Failure? && Issue([Key(Name(f))], InvalidEnumValue) in r.error
  {
    var shape := RatSightingShape();
    ShapeEntries(f);
    ChoiceRefusal(c, f, Get(fields, Name(f)));
    ObjectFieldIssue(c, shape, fields, Name(f), Issue([], InvalidEnumValue));
    assert Issue([], InvalidEnumValue).Under(Key(Name(f))) == Issue([Key(Name(f))], InvalidEnumValue);
  }

  /** `park_facility_name` is present and a string in every accepted record. */
  lemma ParkFacilityNamePresent(c: Coercion, fields: map<string, Value>)
    requires ValidateRecord(c, JObj(fields)).Success?
    ensures "park_facility_name" in fields && fields["park_facility_name"].JStr?
  {
    ValidateRecordRule(c, fields);
    assert FieldAccepted(c, ParkFacilityName, Get(fields, Name(ParkFacilityName)));
  }

  /** A free-text field accepts every string, the empty one included. */
  lemma TextAcceptsAnyString(c: Coercion, fields: map<string, Value>, f: Field, s: string)
    requires ValidateRecord(c, JObj(fields)).Success? && TextField(f)
    ensures ValidateRecord(c, JObj(fields[Name(f) := JStr(s)])).Success?
  {
    FieldGroups(f);
    FieldReplaced(c, fields, f, JStr(s));
  }

  /** The `location` schema names the keys other than `coordinates` and `type` in one issue. */
  lemma LocationExtraKeyIssue(c: Coercion, v: Value)
    requires v.JObj? && !(v.fields.Keys <= {"coordinates", "type"})
    ensures Issue([], UnrecognizedKeys(v.fields.Keys - {"coordinates", "type"})) in IssuesOf(Parse(c, FieldSchema(Location), v))
  {
    var s := LocationSchema;
    assert s.shape.Keys == {"coordinates", "type"};
    assert FieldSchema(Location) == Optional(s);
    ParseOptional(c, s, v);
    ObjectUnknownKeys(c, s.shape, v.fields);
  }

  /** A key other than `coordinates` and `type` inside `location` makes the record fail, with the keys named at `location`. */
  lemma LocationExtraKey(c: Coercion, fields: map<string, Value>)
    requires Get(fields, "location").JObj? && !(Get(fields, "location").fields.Keys <= {"coordinates", "type"})
    ensures var r := ValidateRecord(c, JObj(fields));
      && r.Failure?
      && Issue([Key("location")], UnrecognizedKeys(Get(fields, "location").fields.Keys - {"coordinates", "type"})) in r.error
  {
    assert Name(Location) == "location";
    var loc := Get(fields, "location");
    LocationExtraKeyIssue(c, loc);
    ShapeEntries(Location);
    var issue := Issue([], UnrecognizedKeys(loc.fields.Keys - {"coordinates", "type"}));
    ObjectFieldIssue(c, RatSightingShape(), fields, "location", issue);
    assert issue.Under(Key("location")) == Issue([Key("location")], issue.code);
  }

  /** What normalizing does to an acceptable value that is not undefined. */
  lemma NormalizedValue(c: Coercion, f: Field, v: Value)
    requires FieldAccepted(c, f, v) && v != JUndefined
    ensures NumberField(f) ==> ToNumber(c, v).Some? && Normalize(c, f, v) == JNum(ToNumber(c, v).value)
    ensures DateField(f) ==> ToDate(c, v).Some? && Normalize(c, f, v) == JDate(ToDate(c, v).value)
    ensures !NumberField(f) && !DateField(f) && f != IncidentZip ==> Normalize(c, f, v) == v
  {
  }

  /**
   * In a validated record, a number field holds what `Number(...)` made of the input,
   * a date field what `new Date(...)` made of it, and every other field except
   * `incident_zip` the input value itself.
   */
  lemma AcceptedValues(c: Coercion, fields: map<string, Value>, f: Field)
    requires ValidateRecord(c, JObj(fields)).Success? && Name(f) in fields && fields[Name(f)] != JUndefined
    ensures var out := ValidateRecord(c, JObj(fields)).value;
      && out.JObj? && Name(f) in out.fields
      && (NumberField(f) ==> ToNumber(c, fields[Name(f)]).Some? && out.fields[Name(f)] == JNum(ToNumber(c, fields[Name(f)]).value))
      && (DateField(f) ==> ToDate(c, fields[Name(f)]).Some? && out.fields[Name(f)] == JDate(ToDate(c, fields[Name(f)]).value))
      && (!NumberField(f) && !DateField(f) && f != IncidentZip ==> out.fields[Name(f)] == fields[Name(f)])
  {
    ValidateRecordRule(c, fields);
    assert FieldAccepted(c, f, Get(fields, Name(f)));
    NormalizedValue(c, f, fields[Name(f)]);
  }

  /** Normalizing every field of an accepted record gives an accepted record that normalizing leaves alone. */
  lemma NormalizedRecord(c: Coercion, fields: map<string, Value>, out: map<string, Value>)
    requires RecordAccepted(c, fields) && out.Keys == fields.Keys
    requires forall f :: Name(f) in fields ==> out[Name(f)] == Normalize(c, f, fields[Name(f)])
    ensures RecordAccepted(c, out)
    ensures forall f :: Name(f) in out ==> Normalize(c, f, out[Name(f)]) == out[Name(f)]
  {
    forall f
      ensures FieldAccepted(c, f, Get(out, Name(f)))
      ensures Name(f) in out ==> Normalize(c, f, out[Name(f)]) == out[Name(f)]
    {
      NormalizeStable(c, f, Get(fields, Name(f)));
    }
  }

  /** Two records over the declared keys that agree on every field are the same record. */
  lemma SameFields(a: map<string, Value>, b: map<string, Value>)
    requires a.Keys == b.Keys <= DeclaredKeys()
    requires forall f :: Name(f) in a ==> a[Name(f)] == b[Name(f)]
    ensures a == b
  {
    forall k | k in a
      ensures a[k] == b[k]
    {
      var f := FieldOf(k);
    }
  }

  /** Validating a validated record again gives the same result. */
  lemma ValidateRecordIdempotent(c: Coercion, raw: Value)
    requires ValidateRecord(c, raw).Success?
    ensures ValidateRecord(c, ValidateRecord(c, raw).value) == ValidateRecord(c, raw)
  {
    var fields := raw.fields;
    ValidateRecordRule(c, fields);
    var out := ValidateRecord(c, raw).value.fields;
    NormalizedRecord(c, fields, out);
    ValidateRecordRule(c, out);
    SameFields(ValidateRecord(c, JObj(out)).value.fields, out);
  }

  /** The list schema passes exactly when every record passes, and keeps the records' order. */
  lemma ValidateAllRule(c: Coercion, records: seq<Value>)
    ensures var r := ValidateAll(c, JArr(records));
      && (r.Success? <==> forall i :: 0 <= i < |records| ==> ValidateRecord(c, records[i]).Success?)
      && (r.Success? ==>
            r.value.JArr? && |r.value.elems| == |records|
            && forall i :: 0 <= i < |records| ==> r.value.elems[i] == ValidateRecord(c, records[i]).value)
  {
    ParseArray(c, RatSightingSchema, records);
  }

  /** One refused record makes the whole list fail, its issues reported under its index. */
  lemma OneBadRecordRejectsAll(c: Coercion, records: seq<Value>, i: nat)
    requires i < |records| && ValidateRecord(c, records[i]).Failure?
    ensures var r := ValidateAll(c, JArr(records));
      r.Failure? && forall issue :: issue in ValidateRecord(c, records[i]).error ==> issue.Under(Index(i)) in r.error
  {
    var some :| some in ValidateRecord(c, records[i]).error;
    ArrayElementIssue(c, RatSightingSchema, records, i, some);
    forall issue | issue in ValidateRecord(c, records[i]).error
      ensures issue.Under(Index(i)) in ValidateAll(c, JArr(records)).error
    {
      ArrayElementIssue(c, RatSightingSchema, records, i, issue);
    }
  }

  /**
   * A record with only `unique_key`, `created_date`, `incident_zip: "N/A"`,
   * `park_facility_name`, `status` and `agency` is refused: `agency_name`,
   * `complaint_type` and `descriptor` are required and missing.
   */
  lemma SixKeyRecordRejected(c: Coercion)
    ensures var r := ValidateRecord(c, JObj(map[
        "unique_key" := JStr("12345"), "created_date" := JStr("2023-01-05T00:00:00"),
        "incident_zip" := JStr("N/A"), "park_facility_name" := JStr(""), "status" := JStr("Open"),
        "agency" := JStr("DOHMH")]));
      r.Failure? && forall key | key in {"agency_name", "complaint_type", "descriptor"} ::
        exists issue :: issue in r.error && issue.path != [] && issue.path[0] == Key(key)
  {
    var fields := map[
        "unique_key" := JStr("12345"), "created_date" := JStr("2023-01-05T00:00:00"),
        "incident_zip" := JStr("N/A"), "park_facility_name" := JStr(""), "status" := JStr("Open"),
        "agency" := JStr("DOHMH")];
    assert Name(AgencyName) == "agency_name" && Name(ComplaintType) == "complaint_type" && Name(Descriptor) == "descriptor";
    RequiredFieldMissing(c, fields, AgencyName);
    RequiredFieldMissing(c, fields, ComplaintType);
    RequiredFieldMissing(c, fields, Descriptor);
  }
}
