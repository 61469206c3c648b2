/**
 * The schema of one NYC 311 rat-sighting service request (`RatSightingSchema`) and of
 * a list of them (`RatSightingsSchema`), written with the combinators of module Zod.
 */
module RatSightings {
  import opened JsValues
  import opened Zod
  import opened RecordFields

  const AgencyValues: seq<string> := ["DOHMH"]
  const AgencyNameValues: seq<string> := ["Department of Health and Mental Hygiene"]
  const ComplaintTypeValues: seq<string> := ["Rodent"]
  const DescriptorValues: seq<string> := ["Rat Sighting"]
  const AddressTypeValues: seq<string> :=
    ["ADDRESS", "BLOCKFACE", "INTERSECTION", "LATLONG", "PLACENAME", "UNRECOGNIZED"]
  const StatusValues: seq<string> :=
    ["Assigned", "Closed", "Draft", "In Progress", "Open", "Pending", "Unspecified"]
  const BoroughValues: seq<string> :=
    ["BRONX", "BROOKLYN", "MANHATTAN", "QUEENS", "STATEN ISLAND", "Unspecified"]
  const ParkBoroughValues: seq<string> :=
    ["BRONX", "BROOKLYN", "MANHATTAN", "QUEENS", "STATEN ISLAND", "Unspecified", ""]

  /** `location`: a GeoJSON-style point, with no other key and no coercion. */
  const LocationSchema: Schema := StrictObject(map[
    "coordinates" := Tuple([Number, Number]),
    "type" := Literal("Point")
  ])

  /** The schema the object literal gives to the key `Name(f)`. */
  function FieldSchema(f: Field): Schema {
    match f
    case UniqueKey => CoerceNumber
    case CreatedDate => CoerceDate
    case ClosedDate => Optional(CoerceDate)
    case Agency => Enum(AgencyValues)
    case AgencyName => Enum(AgencyNameValues)
    case ComplaintType => Enum(ComplaintTypeValues)
    case Descriptor => Enum(DescriptorValues)
    case LocationType => Optional(Str)
    case IncidentZip => NaAsUndefined(Optional(CoerceNumber))
    case IncidentAddress => Optional(Str)
    case StreetName => Optional(Str)
    case CrossStreet1 => Optional(Str)
    case CrossStreet2 => Optional(Str)
    case IntersectionStreet1 => Optional(Str)
    case IntersectionStreet2 => Optional(Str)
    case AddressType => Optional(Enum(AddressTypeValues))
    case City => Optional(Str)
    case Landmark => Optional(Str)
    case FacilityType => Optional(Str)
    case Status => Enum(StatusValues)
    case DueDate => Optional(CoerceDate)
    case ResolutionActionUpdatedDate => Optional(CoerceDate)
    case CommunityBoard => Optional(Str)
    case Borough => Optional(Enum(BoroughValues))
    case XCoordinateStatePlane => Optional(CoerceNumber)
    case YCoordinateStatePlane => Optional(CoerceNumber)
    case ParkFacilityName => Str
    case ParkBorough => Optional(Enum(ParkBoroughValues))
    case VehicleType => Optional(Str)
    case TaxiCompanyBorough => Optional(Str)
    case TaxiPickUpLocation => Optional(Str)
    case BridgeHighwayName => Optional(Str)
    case BridgeHighwayDirection => Optional(Str)
    case RoadRamp => Optional(Str)
    case BridgeHighwaySegment => Optional(Str)
    case Latitude => Optional(CoerceNumber)
    case Longitude => Optional(CoerceNumber)
    case Location => Optional(LocationSchema)
    // keys found in the data but not in the data set's documentation
    case XCoordinateStatePlane_ => Optional(CoerceNumber)
    case YCoordinateStatePlane_ => Optional(CoerceNumber)
    case ComputedRegionEfshH5xi => Optional(CoerceNumber)
    case ComputedRegionF5dnYrer => Optional(CoerceNumber)
    case ComputedRegionYejiBk3q => Optional(CoerceNumber)
    case ComputedRegion92fq4b7q => Optional(CoerceNumber)
    case ComputedRegionSbqjEnih => Optional(CoerceNumber)
  }

  /** The object literal passed to `z.object`. */
  function RatSightingShape(): map<string, Schema> {
    map key | key in DeclaredKeys() :: FieldSchema(FieldOf(key))
  }

  /** The shape declares exactly the keys of the fields, each with the schema `FieldSchema` gives it. */
  lemma ShapeEntries(f: Field)
    ensures RatSightingShape().Keys == DeclaredKeys()
    ensures Name(f) in RatSightingShape() && RatSightingShape()[Name(f)] == FieldSchema(f)
  {
    FieldOfName(f);
  }

  const RatSightingSchema: Schema := StrictObject(RatSightingShape())

  const RatSightingsSchema: Schema := ArrayOf(RatSightingSchema)

  /** `RatSightingSchema.safeParse(raw)`. */
  function ValidateRecord(c: Coercion, raw: Value): Outcome {
    Parse(c, RatSightingSchema, raw)
  }

  /** `RatSightingsSchema.safeParse(raw)`. */
  function ValidateAll(c: Coercion, raw: Value): Outcome {
    Parse(c, RatSightingsSchema, raw)
  }
}
