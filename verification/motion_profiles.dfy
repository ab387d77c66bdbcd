/** The motion-profile registry of the motion sandbox (src/profiles.py): the
    tuning record of a movement engine, its four named instances, and the
    lookup by case- and whitespace-insensitive id. */
module MotionProfiles {
  import opened Results
  import opened Text

  /** The tuning of one movement engine; `model` names the engine ("fish" or
      "ant"). Counts are integers, rates and distances reals. */
  datatype MotionProfile = MotionProfile(
    name: string,
    model: string,
    dtClamp: real,
    softEdgeMargin: int,
    baseSpeed: real,
    crawlSpeedMin: real,
    lerpAlpha: real,
    wanderMix: real,
    commitMin: int,
    commitMax: int,
    insideZoneRetargetP: real,
    orbitImpulseP: real,
    orbitStrengthX: int,
    orbitStrengthY: int,
    dwellRampRate: real,
    dwellRampCap: real,
    hysteresisEps: real,
    edgePauseTicks: int,
    edgePauseCooldown: int,
    trailMoveEps: real,
    fishBaseSpeed: real,
    fishTurnRate: real,
    fishPauseMinS: real,
    fishPauseMaxS: real,
    fishCommitP: real,
    fishCommitMin: int,
    fishCommitMax: int,
    fishCommitCooldownMin: int,
    fishCommitCooldownMax: int,
    fishMinDwellTicks: int,
    fishExitLockTicks: int)

  /** A profile with every tuning field at its dataclass default. */
  function NewProfile(name: string, model: string): MotionProfile {
    MotionProfile(
      name, model,
      0.05, 35,
      70.0, 12.0, 0.08, 0.25,
      120, 260, 0.035, 0.020, 30, 16,
      0.0035, 2.0, 0.08,
      14, 22, 2.5,
      95.0, 6.5, 0.10, 0.55, 0.035, 180, 360, 90, 200, 45, 18)
  }

  /** Every min/max pair is ordered. */
  predicate PairsOrdered(p: MotionProfile) {
    && p.commitMin <= p.commitMax
    && p.fishCommitMin <= p.fishCommitMax
    && p.fishCommitCooldownMin <= p.fishCommitCooldownMax
    && p.fishPauseMinS <= p.fishPauseMaxS
  }

  const FishProfile := NewProfile("FANTAIL", "fish").(
    dtClamp := 0.05, softEdgeMargin := 35,
    fishBaseSpeed := 105.0, fishTurnRate := 6.5,
    fishPauseMinS := 0.12, fishPauseMaxS := 0.60,
    fishCommitP := 0.040, fishCommitMin := 180, fishCommitMax := 380,
    fishCommitCooldownMin := 90, fishCommitCooldownMax := 220,
    fishMinDwellTicks := 45, fishExitLockTicks := 18)

  const BirdProfile := NewProfile("SPARROW", "fish").(
    dtClamp := 0.05, softEdgeMargin := 35,
    fishBaseSpeed := 90.0, fishTurnRate := 7.0,
    fishPauseMinS := 0.04, fishPauseMaxS := 0.20,
    fishCommitP := 0.055, fishCommitMin := 80, fishCommitMax := 180,
    fishCommitCooldownMin := 30, fishCommitCooldownMax := 80,
    fishMinDwellTicks := 16, fishExitLockTicks := 10)

  const AntFastProfile := NewProfile("KIWI_FAST", "ant").(
    dtClamp := 0.05, softEdgeMargin := 35,
    baseSpeed := 90.0, crawlSpeedMin := 14.0, lerpAlpha := 0.10, wanderMix := 0.28,
    commitMin := 90, commitMax := 180,
    insideZoneRetargetP := 0.050, orbitImpulseP := 0.022, orbitStrengthX := 34, orbitStrengthY := 18,
    dwellRampRate := 0.0045, dwellRampCap := 2.2, hysteresisEps := 0.08,
    edgePauseTicks := 12, edgePauseCooldown := 18, trailMoveEps := 2.4)

  const AntSlowProfile := NewProfile("KIWI_SLOW", "ant").(
    dtClamp := 0.05, softEdgeMargin := 35,
    baseSpeed := 60.0, crawlSpeedMin := 10.0, lerpAlpha := 0.08, wanderMix := 0.24,
    commitMin := 120, commitMax := 260,
    insideZoneRetargetP := 0.040, orbitImpulseP := 0.018, orbitStrengthX := 28, orbitStrengthY := 14,
    dwellRampRate := 0.0035, dwellRampCap := 2.0, hysteresisEps := 0.08,
    edgePauseTicks := 14, edgePauseCooldown := 22, trailMoveEps := 2.6)

  /** The registry as a map, keyed by normalised id. */
  const Registry: map<string, MotionProfile> :=
    map["fish" := FishProfile, "bird" := BirdProfile, "ant_fast" := AntFastProfile, "ant_slow" := AntSlowProfile]

  datatype ProfileError = UnknownProfile(id: Option<string>)

  /** `profile_id or ""`: a missing id reads as the empty string. */
  function RawId(profileId: Option<string>): string {
    if profileId.None? then "" else profileId.value
  }

  /** `(profile_id or "").strip().lower()`. */
  function NormalizeId(profileId: Option<string>): string {
    Lower(Strip(RawId(profileId)))
  }

  /** The if-chain of `get_profile`, on a normalised id. */
  function Select(pid: string): (p: Option<MotionProfile>)
    ensures p.Some? <==> pid in {"fish", "bird", "ant_fast", "ant_slow"}
    ensures p.Some? ==> (p.value.model == "fish" <==> pid in {"fish", "bird"})
    ensures p.Some? ==> p.value.model in {"fish", "ant"}
  {
    if pid == "fish" then Some(FishProfile)
    else if pid == "bird" then Some(BirdProfile)
    else if pid == "ant_fast" then Some(AntFastProfile)
    else if pid == "ant_slow" then Some(AntSlowProfile)
    else None
  }

  /** The if-chain agrees with the registry map on every id. */
  lemma SelectIsRegistryLookup(pid: string)
    ensures Select(pid) == if pid in Registry then Some(Registry[pid]) else None
  {
  }

  /** `get_profile`: the four known ids, matched after normalisation, each
      with its profile; any other id is an error naming it. */
  function GetProfile(profileId: Option<string>): (r: Result<MotionProfile, ProfileError>)
    ensures r.Ok? <==> NormalizeId(profileId) in Registry
    ensures r.Ok? ==> r.value == Registry[NormalizeId(profileId)]
    ensures r.Err? ==> r.error == UnknownProfile(profileId)
    ensures r.Ok? ==> (r.value.model == "fish" <==> NormalizeId(profileId) in {"fish", "bird"})
    ensures r.Ok? ==> r.value.model in {"fish", "ant"}
  {
    var pid := NormalizeId(profileId);
    SelectIsRegistryLookup(pid);
    match Select(pid)
    case Some(p) => Ok(p)
    case None => Err(UnknownProfile(profileId))
  }

  /** The defaults and all four registered profiles keep every min/max pair
      ordered. */
  lemma ProfilesOrdered(name: string, model: string)
    ensures PairsOrdered(NewProfile(name, model))
    ensures forall pid :: pid in Registry ==> PairsOrdered(Registry[pid])
  {
  }

  /** Lookup ignores case: an id and its lower-cased form select the same
      profile (or both fail, each error naming its own id). */
  lemma NormalizeIdIgnoresCase(id: string)
    ensures NormalizeId(Some(Lower(id))) == NormalizeId(Some(id))
  {
    StripLower(id);
    LowerIdempotent(Strip(id));
    assert RawId(Some(Lower(id))) == Lower(id);
    assert RawId(Some(id)) == id;
  }

  /** Lookup ignores surrounding whitespace. */
  lemma NormalizeIdIgnoresPadding(id: string, c: char)
    requires IsSpace(c)
    ensures NormalizeId(Some([c] + id)) == NormalizeId(Some(id))
    ensures NormalizeId(Some(id + [c])) == NormalizeId(Some(id))
  {
    LeadingSpaceIgnored(c, id);
    TrailingSpaceIgnored(id, c);
    assert RawId(Some([c] + id)) == [c] + id;
    assert RawId(Some(id + [c])) == id + [c];
    assert RawId(Some(id)) == id;
  }

  /** A missing id is an error. */
  lemma MissingIdRejected()
    ensures GetProfile(None) == Err(UnknownProfile(None))
  {
    assert RawId(None) == "";
    StripUnpadded("");
    assert Lower("") == "";
  }
}
