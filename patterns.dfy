/**
  The closed catalogue of biomimicry patterns (BiomimicryPattern.swift): the
  `PatternType` enum with its raw values, the five pattern constants and the
  list of all of them.
 */
module Patterns {

  /** `enum PatternType: String`: one case per generator. */
  datatype PatternType = Honeycomb | Voronoi | Branching | Spiral | Gyroid

  /** The raw value each case is declared with. */
  function RawValue(t: PatternType): string {
    match t
    case Honeycomb => "honeycomb"
    case Voronoi => "voronoi"
    case Branching => "branching"
    case Spiral => "spiral"
    case Gyroid => "gyroid"
  }

  /** Distinct cases have distinct raw values, so the string encoding decodes uniquely. */
  lemma RawValueInjective(s: PatternType, t: PatternType)
    requires s != t
    ensures RawValue(s) != RawValue(t)
  {
    assert |RawValue(Honeycomb)| == 9 && |RawValue(Voronoi)| == 7 && |RawValue(Branching)| == 9;
    assert |RawValue(Spiral)| == 6 && |RawValue(Gyroid)| == 6;
    assert RawValue(Honeycomb)[0] != RawValue(Branching)[0];
    assert RawValue(Spiral)[0] != RawValue(Gyroid)[0];
  }

  /** A reference entry: descriptive text, use cases and three display ratings. */
  datatype BiomimicryPattern = BiomimicryPattern(
    id: string,
    patternType: PatternType,
    name: string,
    biologicalSource: string,
    principle: string,
    useCases: seq<string>,
    strengthRating: real,
    weightEfficiency: real,
    complexity: real)

  const HoneycombPattern := BiomimicryPattern(
    "honeycomb", Honeycomb, "Honeycomb",
    "Bee wax comb structures",
    "Maximum strength with minimum material through hexagonal tessellation",
    ["Aerospace panels", "Packaging materials", "Building insulation", "Crash absorption"],
    0.85, 0.92, 0.4)

  const VoronoiPattern := BiomimicryPattern(
    "voronoi", Voronoi, "Voronoi",
    "Cell structures, giraffe skin patterns, dragonfly wings",
    "Organic cell-like distribution for impact absorption and load spreading",
    ["Impact protection", "Lightweight structures", "Architectural facades", "Medical implants"],
    0.78, 0.88, 0.6)

  const BranchingPattern := BiomimicryPattern(
    "branching", Branching, "Branching",
    "Tree vascular systems, blood vessels, river deltas",
    "Hierarchical branching for efficient flow distribution and resource transport",
    ["Cooling systems", "Fluid distribution", "Electrical networks", "Drainage systems"],
    0.65, 0.75, 0.7)

  const SpiralPattern := BiomimicryPattern(
    "spiral", Spiral, "Spiral",
    "Nautilus shells, sunflower seeds, hurricanes",
    "Fibonacci growth patterns for efficient packing and structural stability",
    ["Turbine blades", "Antenna design", "Mixing chambers", "Staircase structures"],
    0.72, 0.80, 0.5)

  const GyroidPattern := BiomimicryPattern(
    "gyroid", Gyroid, "Gyroid",
    "Butterfly wing scales, sea urchin skeletons",
    "Triply periodic minimal surface for maximum strength-to-weight ratio",
    ["Bone scaffolds", "Heat exchangers", "Battery electrodes", "Soundproofing"],
    0.90, 0.95, 0.9)

  /** `allPatterns`, in declaration order. */
  const AllPatterns: seq<BiomimicryPattern> :=
    [HoneycombPattern, VoronoiPattern, BranchingPattern, SpiralPattern, GyroidPattern]

  /** The invariants every catalogue entry satisfies. */
  predicate WellFormed(p: BiomimicryPattern) {
    && p.id == RawValue(p.patternType)
    && |p.useCases| == 4
    && 0.0 <= p.strengthRating <= 1.0
    && 0.0 <= p.weightEfficiency <= 1.0
    && 0.0 <= p.complexity <= 1.0
  }

  lemma AllPatternsWellFormed()
    ensures forall p :: p in AllPatterns ==> WellFormed(p)
  {
  }

  /** The position of a case in the enum's declaration order. */
  function Ordinal(t: PatternType): nat {
    match t
    case Honeycomb => 0
    case Voronoi => 1
    case Branching => 2
    case Spiral => 3
    case Gyroid => 4
  }

  /**
    `allPatterns` holds exactly five entries, one per case, each at its case's
    position in the enum's declaration order.
   */
  lemma AllPatternsListsEachTypeOnce()
    ensures |AllPatterns| == 5
    ensures forall t :: Ordinal(t) < |AllPatterns| && AllPatterns[Ordinal(t)].patternType == t
    ensures forall i, j :: 0 <= i < j < |AllPatterns| ==> AllPatterns[i].patternType != AllPatterns[j].patternType
  {
  }
}
