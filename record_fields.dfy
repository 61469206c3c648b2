/**
 * The keys of a rat-sighting record: one constructor per key the record schema
 * declares, and the key string each one stands for.
 */
module RecordFields {
  /** The keys the record schema declares, one constructor each, in the order the object literal lists them. */
  datatype Field =
    | UniqueKey
    | CreatedDate
    | ClosedDate
    | Agency
    | AgencyName
    | ComplaintType
    | Descriptor
    | LocationType
    | IncidentZip
    | IncidentAddress
    | StreetName
    | CrossStreet1
    | CrossStreet2
    | IntersectionStreet1
    | IntersectionStreet2
    | AddressType
    | City
    | Landmark
    | FacilityType
    | Status
    | DueDate
    | ResolutionActionUpdatedDate
    | CommunityBoard
    | Borough
    | XCoordinateStatePlane
    | YCoordinateStatePlane
    | ParkFacilityName
    | ParkBorough
    | VehicleType
    | TaxiCompanyBorough
    | TaxiPickUpLocation
    | BridgeHighwayName
    | BridgeHighwayDirection
    | RoadRamp
    | BridgeHighwaySegment
    | Latitude
    | Longitude
    | Location
    // keys found in the data but not in the data set's documentation
    | XCoordinateStatePlane_
    | YCoordinateStatePlane_
    | ComputedRegionEfshH5xi
    | ComputedRegionF5dnYrer
    | ComputedRegionYejiBk3q
    | ComputedRegion92fq4b7q
    | ComputedRegionSbqjEnih

  /** The key under which a raw record carries `f`. */
  function Name(f: Field): string {
    match f
    case UniqueKey => "unique_key"
    case CreatedDate => "created_date"
    case ClosedDate => "closed_date"
    case Agency => "agency"
    case AgencyName => "agency_name"
    case ComplaintType => "complaint_type"
    case Descriptor => "descriptor"
    case LocationType => "location_type"
    case IncidentZip => "incident_zip"
    case IncidentAddress => "incident_address"
    case StreetName => "street_name"
    case CrossStreet1 => "cross_street_1"
    case CrossStreet2 => "cross_street_2"
    case IntersectionStreet1 => "intersection_street_1"
    case IntersectionStreet2 => "intersection_street_2"
    case AddressType => "address_type"
    case City => "city"
    case Landmark => "landmark"
    case FacilityType => "facility_type"
    case Status => "status"
    case DueDate => "due_date"
    case ResolutionActionUpdatedDate => "resolution_action_updated_date"
    case CommunityBoard => "community_board"
    case Borough => "borough"
    case XCoordinateStatePlane => "x_coordinate_state_plane"
    case YCoordinateStatePlane => "y_coordinate_state_plane"
    case ParkFacilityName => "park_facility_name"
    case ParkBorough => "park_borough"
    case VehicleType => "vehicle_type"
    case TaxiCompanyBorough => "taxi_company_borough"
    case TaxiPickUpLocation => "taxi_pick_up_location"
    case BridgeHighwayName => "bridge_highway_name"
    case BridgeHighwayDirection => "bridge_highway_direction"
    case RoadRamp => "road_ramp"
    case BridgeHighwaySegment => "bridge_highway_segment"
    case Latitude => "latitude"
    case Longitude => "longitude"
    case Location => "location"
    // keys found in the data but not in the data set's documentation
    case XCoordinateStatePlane_ => "x_coordinate_state_plane_"
    case YCoordinateStatePlane_ => "y_coordinate_state_plane_"
    case ComputedRegionEfshH5xi => ":@computed_region_efsh_h5xi"
    case ComputedRegionF5dnYrer => ":@computed_region_f5dn_yrer"
    case ComputedRegionYejiBk3q => ":@computed_region_yeji_bk3q"
    case ComputedRegion92fq4b7q => ":@computed_region_92fq_4b7q"
    case ComputedRegionSbqjEnih => ":@computed_region_sbqj_enih"
  }

  /** The length of `Name(f)`, which tells most keys apart without comparing them. */
  function NameLength(f: Field): nat {
    match f
    case UniqueKey => 10
    case CreatedDate => 12
    case ClosedDate => 11
    case Agency => 6
    case AgencyName => 11
    case ComplaintType => 14
    case Descriptor => 10
    case LocationType => 13
    case IncidentZip => 12
    case IncidentAddress => 16
    case StreetName => 11
    case CrossStreet1 => 14
    case CrossStreet2 => 14
    case IntersectionStreet1 => 21
    case IntersectionStreet2 => 21
    case AddressType => 12
    case City => 4
    case Landmark => 8
    case FacilityType => 13
    case Status => 6
    case DueDate => 8
    case ResolutionActionUpdatedDate => 30
    case CommunityBoard => 15
    case Borough => 7
    case XCoordinateStatePlane => 24
    case YCoordinateStatePlane => 24
    case ParkFacilityName => 18
    case ParkBorough => 12
    case VehicleType => 12
    case TaxiCompanyBorough => 20
    case TaxiPickUpLocation => 21
    case BridgeHighwayName => 19
    case BridgeHighwayDirection => 24
    case RoadRamp => 9
    case BridgeHighwaySegment => 22
    case Latitude => 8
    case Longitude => 9
    case Location => 8
    case XCoordinateStatePlane_ => 25
    case YCoordinateStatePlane_ => 25
    case ComputedRegionEfshH5xi => 27
    case ComputedRegionF5dnYrer => 27
    case ComputedRegionYejiBk3q => 27
    case ComputedRegion92fq4b7q => 27
    case ComputedRegionSbqjEnih => 27
  }

  lemma NameLengths()
    ensures forall f :: |Name(f)| == NameLength(f)
  {
  }

  lemma ShortNamesDiffer()
    ensures forall f, g :: f != g && NameLength(f) == NameLength(g) <= 12 ==> Name(f) != Name(g)
  {
  }

  lemma LongNamesDiffer()
    ensures forall f, g :: f != g && 12 < NameLength(f) == NameLength(g) ==> Name(f) != Name(g)
  {
  }

  /** No two fields share a key. */
  lemma NamesDistinct()
    ensures forall f, g :: Name(f) == Name(g) ==> f == g
  {
    NameLengths();
    ShortNamesDiffer();
    LongNamesDiffer();
  }

  /** The keys a record may carry. */
  function DeclaredKeys(): set<string> {
    set f: Field :: Name(f)
  }

  /** The field a declared key stands for. */
  function FieldOf(key: string): (f: Field)
    requires key in DeclaredKeys()
    ensures Name(f) == key
  {
    NamesDistinct();
    var f :| Name(f) == key; f
  }

  /** `FieldOf` undoes `Name`. */
  lemma FieldOfName(f: Field)
    ensures Name(f) in DeclaredKeys() && FieldOf(Name(f)) == f
  {
    NamesDistinct();
  }
}
