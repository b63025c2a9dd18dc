/**
 The kinds of file that may be found in a router / graph-build directory.

 Each kind carries a display icon and a human-readable description, and three
 classification predicates tell the graph builder how to treat such a file:
 as an input data source, as an output data source, or as transit data.
 */
module FileTypes {

  /** The closed set of file kinds, in declaration order. */
  datatype FileType =
    | CONFIG
    | OSM
    | DEM
    | GTFS
    | NETEX
    | GRAPH
    | REPORT
    | OTP_STATUS
    | UNKNOWN

  /** Every file kind, once each, in declaration order. */
  const AllFileTypes: seq<FileType> :=
    [CONFIG, OSM, DEM, GTFS, NETEX, GRAPH, REPORT, OTP_STATUS, UNKNOWN]

  /** The icon shared by both kinds of transit schedule data. */
  const BusIcon: string := "\U{1F68C}"

  /** Emoji (icon) for the given kind. */
  function Icon(t: FileType): (r: string)
    ensures 0 < |r| <= 2
    ensures r == BusIcon <==> IsTransit(t)
  {
    match t
    case CONFIG => "\U{2699}\U{FE0F}"
    case OSM => "\U{1F30D}"
    case DEM => "\U{1F3D4}"
    case GTFS => BusIcon
    case NETEX => BusIcon
    case GRAPH => "\U{1F310}"
    case REPORT => "\U{1F4C8}"
    case OTP_STATUS => "\U{23F3}"
    case UNKNOWN => "\U{2753}"
  }

  /** Human-readable description of the given kind. */
  function Text(t: FileType): (r: string)
    ensures |r| > 0
  {
    match t
    case CONFIG => "Config file"
    case OSM => "OpenStreetMap data"
    case DEM => "Elevation data"
    case GTFS => "GTFS data"
    case NETEX => "NeTEx data"
    case GRAPH => "OTP Graph file"
    case REPORT => "Issue report"
    case OTP_STATUS => "OTP build status"
    case UNKNOWN => "Unknown file"
  }

  /** The kinds a graph build reads: transit schedules, street map and elevation data. */
  const InputDataSources: set<FileType> := {GTFS, NETEX, OSM, DEM}

  /** The kinds a graph build writes: the graph, the issue report and the build status. */
  const OutputDataSources: set<FileType> := {GRAPH, REPORT, OTP_STATUS}

  /** The kinds holding public-transit schedule data. */
  const TransitDataSources: set<FileType> := {GTFS, NETEX}

  /**
   True for the files a graph build reads. Config files and graphs are not
   input data.
   */
  predicate IsInputDataSource(t: FileType)
    ensures t == CONFIG || t == GRAPH ==> !IsInputDataSource(t)
  {
    t in InputDataSources
  }

  /**
   True for the files and directories a graph build writes. Config files are
   not output data, and no input data source is an output data source.
   */
  predicate IsOutputDataSource(t: FileType)
    ensures t == CONFIG ==> !IsOutputDataSource(t)
    ensures IsOutputDataSource(t) ==> !IsInputDataSource(t)
  {
    t in OutputDataSources
  }

  /** True for GTFS and NeTEx files; every transit kind is an input data source. */
  predicate IsTransit(t: FileType)
    ensures IsTransit(t) ==> IsInputDataSource(t)
  {
    t in TransitDataSources
  }

  /** The kinds, among all kinds, that satisfy `p`. */
  function KindsWhere(p: FileType -> bool): (s: set<FileType>)
    ensures forall t :: t in s <==> p(t)
  {
    AllFileTypesIsComplete();
    set t | t in AllFileTypes && p(t)
  }

  /**
   The three classification flags of a kind, written out per kind as an
   independent table: (input, output, transit).
   */
  datatype Flags = Flags(input: bool, output: bool, transit: bool)

  function FlagTable(t: FileType): Flags {
    match t
    case CONFIG => Flags(false, false, false)
    case OSM => Flags(true, false, false)
    case DEM => Flags(true, false, false)
    case GTFS => Flags(true, false, true)
    case NETEX => Flags(true, false, true)
    case GRAPH => Flags(false, true, false)
    case REPORT => Flags(false, true, false)
    case OTP_STATUS => Flags(false, true, false)
    case UNKNOWN => Flags(false, false, false)
  }

  /** The enumeration is closed: the nine kinds listed are all there are, each once. */
  lemma AllFileTypesIsComplete()
    ensures |AllFileTypes| == 9
    ensures forall t :: t in AllFileTypes
    ensures forall i, j :: 0 <= i < j < |AllFileTypes| ==> AllFileTypes[i] != AllFileTypes[j]
  {
    forall t ensures t in AllFileTypes {
      match t
      case CONFIG => assert AllFileTypes[0] == t;
      case OSM => assert AllFileTypes[1] == t;
      case DEM => assert AllFileTypes[2] == t;
      case GTFS => assert AllFileTypes[3] == t;
      case NETEX => assert AllFileTypes[4] == t;
      case GRAPH => assert AllFileTypes[5] == t;
      case REPORT => assert AllFileTypes[6] == t;
      case OTP_STATUS => assert AllFileTypes[7] == t;
      case UNKNOWN => assert AllFileTypes[8] == t;
    }
  }

  /** The set-membership predicates agree with the per-kind flag table on every kind. */
  lemma PredicatesMatchFlagTable(t: FileType)
    ensures FlagTable(t) == Flags(IsInputDataSource(t), IsOutputDataSource(t), IsTransit(t))
  {
  }

  /** Exactly four kinds are input data sources: GTFS, NeTEx, OpenStreetMap and elevation. */
  lemma InputDataSourcesExactly()
    ensures KindsWhere(IsInputDataSource) == {GTFS, NETEX, OSM, DEM}
    ensures |KindsWhere(IsInputDataSource)| == 4
  {
  }

  /** Exactly three kinds are output data sources: the graph, the report and the status file. */
  lemma OutputDataSourcesExactly()
    ensures KindsWhere(IsOutputDataSource) == {GRAPH, REPORT, OTP_STATUS}
    ensures |KindsWhere(IsOutputDataSource)| == 3
  {
  }

  /** Exactly two kinds are transit data: GTFS and NeTEx. */
  lemma TransitExactly()
    ensures KindsWhere(IsTransit) == {GTFS, NETEX}
    ensures |KindsWhere(IsTransit)| == 2
  {
  }

  /**
   Every kind is exactly one of: an input data source, an output data source,
   the config file, or unknown.
   */
  lemma Partition(t: FileType)
    ensures IsInputDataSource(t) || IsOutputDataSource(t) || t == CONFIG || t == UNKNOWN
    ensures IsInputDataSource(t) || IsOutputDataSource(t) <==> t != CONFIG && t != UNKNOWN
  {
  }

  /** Config files and unknown files satisfy none of the three predicates. */
  lemma ConfigAndUnknownUnclassified(t: FileType)
    requires t == CONFIG || t == UNKNOWN
    ensures !IsInputDataSource(t) && !IsOutputDataSource(t) && !IsTransit(t)
  {
  }

  /** No two kinds share a description. */
  lemma TextInjective(a: FileType, b: FileType)
    ensures Text(a) == Text(b) <==> a == b
  {
  }

  /** Two kinds share an icon only when they are the same kind or both transit kinds. */
  lemma IconCollisions(a: FileType, b: FileType)
    ensures Icon(a) == Icon(b) <==> a == b || (IsTransit(a) && IsTransit(b))
  {
  }
}
