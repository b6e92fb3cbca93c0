/**
  The pattern reference lookups of BiomimicryDatabase.swift: total switches over
  `PatternType` and a read of the constant catalogue.
 */
module Database {
  import opened Patterns
  import opened Wrappers

  /** `getPattern(for:)`: the catalogue entry of the given type. */
  function GetPattern(t: PatternType): (p: BiomimicryPattern)
    ensures p.patternType == t
    ensures p.id == RawValue(t)
    ensures p in AllPatterns && WellFormed(p)
  {
    match t
    case Honeycomb => HoneycombPattern
    case Voronoi => VoronoiPattern
    case Branching => BranchingPattern
    case Spiral => SpiralPattern
    case Gyroid => GyroidPattern
  }

  /** Distinct types give entries with distinct ids. */
  lemma GetPatternInjective(s: PatternType, t: PatternType)
    requires s != t
    ensures GetPattern(s).id != GetPattern(t).id
  {
    RawValueInjective(s, t);
  }

  /** `getAllPatterns()`: the five entries in the order honeycomb, voronoi, branching, spiral, gyroid. */
  function GetAllPatterns(): (ps: seq<BiomimicryPattern>)
    ensures ps == [GetPattern(Honeycomb), GetPattern(Voronoi), GetPattern(Branching),
                   GetPattern(Spiral), GetPattern(Gyroid)]
  {
    AllPatterns
  }

  /** Every type's entry sits at its case's position in the list of all patterns. */
  lemma GetAllPatternsByOrdinal(t: PatternType)
    ensures Ordinal(t) < |GetAllPatterns()| && GetAllPatterns()[Ordinal(t)] == GetPattern(t)
  {
    var ps := GetAllPatterns();
    match t
    case Honeycomb => assert ps[0] == GetPattern(Honeycomb);
    case Voronoi => assert ps[1] == GetPattern(Voronoi);
    case Branching => assert ps[2] == GetPattern(Branching);
    case Spiral => assert ps[3] == GetPattern(Spiral);
    case Gyroid => assert ps[4] == GetPattern(Gyroid);
  }

  /** `randomElement()`: some element of a non-empty sequence, or nothing for an empty one. */
  method RandomElement<T>(s: seq<T>) returns (r: Option<T>)
    ensures r.None? <==> s == []
    ensures r.Some? ==> r.value in s
  {
    if s == [] {
      r := None;
    } else {
      var i :| 0 <= i < |s|;
      r := Some(s[i]);
    }
  }

  /**
    `getRandomPattern()`: a random catalogue entry, falling back to honeycomb when
    the catalogue is empty. The catalogue is never empty, so the fallback is
    never taken and the result is always one of the five entries.
   */
  method GetRandomPattern() returns (p: BiomimicryPattern)
    ensures p in AllPatterns
    ensures p == GetPattern(p.patternType)
  {
    var pick := RandomElement(AllPatterns);
    assert pick.Some?;
    p := pick.GetOr(HoneycombPattern);
  }

  /** One engineering application of a pattern (its random `UUID` is not modelled). */
  datatype EngineeringApplication = EngineeringApplication(field: string, description: string)

  /** The three fields named in one application list differ from one another. */
  predicate FieldsDistinct(apps: seq<EngineeringApplication>) {
    forall i, j :: 0 <= i < j < |apps| ==> apps[i].field != apps[j].field
  }

  const HoneycombApplications := [
    EngineeringApplication("Aerospace", "Lightweight sandwich panels for aircraft floors and walls"),
    EngineeringApplication("Automotive", "Crash-absorbing bumper structures"),
    EngineeringApplication("Construction", "Thermal insulation panels")]

  const VoronoiApplications := [
    EngineeringApplication("Medical", "Bone implant scaffolds that promote cell growth"),
    EngineeringApplication("Architecture", "Organic-looking facade panels"),
    EngineeringApplication("Sports", "Helmet padding for impact distribution")]

  const BranchingApplications := [
    EngineeringApplication("Electronics", "Heat dissipation networks in CPUs"),
    EngineeringApplication("HVAC", "Efficient air distribution ductwork"),
    EngineeringApplication("Urban Planning", "Optimized road and utility networks")]

  const SpiralApplications := [
    EngineeringApplication("Energy", "More efficient wind turbine blade designs"),
    EngineeringApplication("Manufacturing", "Mixing chamber optimization"),
    EngineeringApplication("Architecture", "Self-supporting spiral staircases")]

  const GyroidApplications := [
    EngineeringApplication("Biomedical", "Tissue engineering scaffolds"),
    EngineeringApplication("Energy Storage", "High surface area battery electrodes"),
    EngineeringApplication("Thermal", "Compact heat exchangers")]

  /** `getEngineeringApplications(for:)`: three applications, chosen by the pattern's type. */
  function GetEngineeringApplications(p: BiomimicryPattern): (apps: seq<EngineeringApplication>)
    ensures |apps| == 3
  {
    match p.patternType
    case Honeycomb => HoneycombApplications
    case Voronoi => VoronoiApplications
    case Branching => BranchingApplications
    case Spiral => SpiralApplications
    case Gyroid => GyroidApplications
  }

  /** Three applications whose field names have three different lengths lie in three different fields. */
  lemma FieldLengthsDiffer(apps: seq<EngineeringApplication>)
    requires |apps| == 3
    requires |apps[0].field| != |apps[1].field| && |apps[0].field| != |apps[2].field|
    requires |apps[1].field| != |apps[2].field|
    ensures FieldsDistinct(apps)
  {
  }

  /** The three applications of every pattern lie in three different fields. */
  lemma EngineeringFieldsDistinct(p: BiomimicryPattern)
    ensures FieldsDistinct(GetEngineeringApplications(p))
  {
    match p.patternType
    case Honeycomb => FieldLengthsDiffer(HoneycombApplications);
    case Voronoi => FieldLengthsDiffer(VoronoiApplications);
    case Branching => FieldLengthsDiffer(BranchingApplications);
    case Spiral => FieldLengthsDiffer(SpiralApplications);
    case Gyroid => FieldLengthsDiffer(GyroidApplications);
  }
}
