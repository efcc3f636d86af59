/**
 * The static tables of config.py: per-mode speed and strength presets, the
 * position ranges, the pose profiles keyed by animation hash and the set of
 * climax animation hashes. Toy_Controller.py does not use this module; it
 * keeps its own copy of the defaults (see ConfigStore).
 */
module PoseTables {
  import opened Wrappers
  import Patterns

  /** The pattern functions a pose profile can name. */
  datatype PatternRef = P1Inverted | P2Sine | P3 | P4 | P4Inverted | P5 | P6

  /** One POSE_PROFILES entry. An entry without an `is_constant_freq` key
      reads as false and has no `cycle_duration`. */
  datatype PoseProfile = PoseProfile(
    name: string,
    minPos: real,
    maxPos: real,
    pattern: PatternRef,
    isConstantFreq: bool,
    cycleDuration: Option<real>)

  const PistonPosMin: real := 0.0
  const PistonPosMax: real := 0.8
  const PistonSpeedMap: map<int, real> := map[1 := 0.9, 2 := 0.5, 3 := 0.4]

  const VibeAsPistonPosMin: real := 0.0
  const VibeAsPistonPosMax: real := 0.8
  const VibeStrengthMap: map<int, real> := map[1 := 0.5, 2 := 1.0]
  const VibeMinStrengthMap: map<int, real> := map[1 := 0.3, 2 := 0.6]
  const VibeAsPistonSpeedMap: map<int, real> := map[1 := 0.9, 2 := 0.4]

  /** A profile driven by the game's progress. */
  function Tracking(name: string, minPos: real, maxPos: real, pattern: PatternRef): PoseProfile {
    PoseProfile(name, minPos, maxPos, pattern, false, None)
  }

  /** A profile driven by its own clock with the given cycle duration. */
  function Clocked(name: string, minPos: real, maxPos: real, pattern: PatternRef, cycle: real): PoseProfile {
    PoseProfile(name, minPos, maxPos, pattern, true, Some(cycle))
  }

  const PoseProfiles: map<int, PoseProfile> := map[
    1201047697 := Clocked("Nipple Play", 0.65, 0.9, P6, 0.76),
    1832166380 := Clocked("Clit Play", 0.6, 0.8, P4, 0.65),
    7717404 := Clocked("Stroking", 0.2, 0.6, P2Sine, 0.396),
    505962836 := Tracking("Masturbate", 0.3, 0.8, P1Inverted),
    2011001274 := Tracking("Three-Leg", 0.0, 0.5, P3),
    344055696 := Tracking("Doggy", 0.0, 0.4, P1Inverted),
    1945541277 := Tracking("Supine", 0.0, 0.5, P1Inverted),
    1272021522 := Tracking("Standing Doggy", 0.0, 0.7, P5),
    126556443 := Tracking("Cowgirl", 0.0, 0.5, P4),
    81106989 := Tracking("Dildo (Chair)", 0.2, 0.6, P4Inverted),
    1127557836 := Tracking("Dildo (Floor, Vaginal)", 0.4, 0.8, P4Inverted),
    1067368937 := Tracking("Dildo (Floor, Anal)", 0.4, 0.8, P4Inverted),
    37429125 := Tracking("Dildo (Standing, Vaginal)", 0.1, 0.6, P1Inverted),
    652955773 := Tracking("Dildo (Standing, Anal)", 0.1, 0.6, P1Inverted),
    709841502 := Tracking("Dildo (Standing, Oral)", 0.3, 0.7, P2Sine)
  ]

  const ClimaxHashes: set<int> := {
    1514068739, 551798253, 1352943776, 215434987, 76164332, 231319108,
    2060359382, 48554725, 1584403080, 248983229, 2029961234
  }

  /** The displacement a profile's pattern gives at a phase; None for the
      sine pattern, which is not part of this model. */
  function Displacement(ref: PatternRef, progress: real): (r: Option<real>)
    ensures r.None? <==> ref == P2Sine
    ensures r.Some? && 0.0 <= progress <= 1.0 ==> 0.0 <= r.value <= 1.0
  {
    match ref
    case P1Inverted => Some(Patterns.Pattern1Inverted(progress))
    case P2Sine => None
    case P3 => Some(Patterns.Pattern3(progress))
    case P4 => Some(Patterns.Pattern4(progress))
    case P4Inverted => Some(Patterns.Pattern4Inverted(progress))
    case P5 => Some(Patterns.Pattern5(progress))
    case P6 => Some(Patterns.Pattern6(progress))
  }

  /** The data invariant of a pose profile: an ordered range inside [0, 1],
      and a positive cycle duration whenever the profile runs on its clock. */
  predicate WellFormed(p: PoseProfile) {
    && 0.0 <= p.minPos <= p.maxPos <= 1.0
    && (p.isConstantFreq ==> p.cycleDuration.Some? && p.cycleDuration.value > 0.0)
  }

  /** Every pose profile satisfies the data invariant. */
  lemma PoseProfilesWellFormed()
    ensures forall h :: h in PoseProfiles ==> WellFormed(PoseProfiles[h])
  {
  }

  /** The contents of the two hash tables: three poses run on their own
      clock, the other twelve follow the game's progress, and two poses use
      the sine pattern. */
  lemma PoseTablesContents()
    ensures (set h | h in PoseProfiles && PoseProfiles[h].isConstantFreq) == {1201047697, 1832166380, 7717404}
    ensures (set h | h in PoseProfiles && PoseProfiles[h].pattern == P2Sine) == {7717404, 709841502}
    ensures forall h :: h in PoseProfiles ==> |PoseProfiles[h].name| > 0
    ensures 1514068739 in ClimaxHashes && 2029961234 in ClimaxHashes
  {
  }

  /** No animation hash is both a pose and a climax animation. */
  lemma PosesAndClimaxesDisjoint()
    ensures PoseProfiles.Keys !! ClimaxHashes
  {
  }

  /** The per-mode presets: every vibe mode has a minimum strength no larger
      than its maximum, all strengths are in [0, 1], all intervals are
      positive and both position ranges are ordered within [0, 1]. */
  lemma PresetTablesConsistent()
    ensures forall m :: 1 <= m <= 2 ==> m in VibeStrengthMap && m in VibeMinStrengthMap
    ensures forall m :: m in VibeMinStrengthMap ==> m in VibeStrengthMap && VibeMinStrengthMap[m] <= VibeStrengthMap[m]
    ensures forall m :: m in VibeStrengthMap ==> 0.0 <= VibeStrengthMap[m] <= 1.0
    ensures forall m :: m in VibeMinStrengthMap ==> 0.0 <= VibeMinStrengthMap[m] <= 1.0
    ensures forall m :: m in PistonSpeedMap ==> PistonSpeedMap[m] > 0.0
    ensures forall m :: m in VibeAsPistonSpeedMap ==> VibeAsPistonSpeedMap[m] > 0.0
    ensures 0.0 <= PistonPosMin <= PistonPosMax <= 1.0
    ensures 0.0 <= VibeAsPistonPosMin <= VibeAsPistonPosMax <= 1.0
  {
  }
}
