/** The frozen v1 motion-profile registry (Behaviour_Library/v1_baseline/profiles.py):
    its own tuning record with different defaults, four profiles, and an
    exact-key lookup. */
module BaselineProfiles {
  import opened Results

  /** The v1 tuning record. `baseSpeed`, `crawlSpeedMin` and `lerpAlpha` have
      no default; `model` is "ant" or "fish". */
  datatype MotionProfile = MotionProfile(
    name: string,
    model: string,
    baseSpeed: real,
    crawlSpeedMin: real,
    lerpAlpha: real,
    dtClamp: real,
    softEdgeMargin: int,
    wanderMix: real,
    insideZoneRetargetP: real,
    orbitImpulseP: real,
    orbitStrengthX: int,
    orbitStrengthY: int,
    commitMin: int,
    commitMax: int,
    edgePauseTicks: int,
    edgePauseCooldown: int,
    dwellRampRate: real,
    dwellRampCap: real,
    hysteresisEps: real,
    trailMoveEps: real,
    fishBaseSpeed: real,
    fishTurnRate: real,
    fishPauseMinS: real,
    fishPauseMaxS: real,
    fishMinDwellTicks: int,
    fishExitLockTicks: int,
    fishCommitP: real,
    fishCommitMin: int,
    fishCommitMax: int,
    fishCommitCooldownMin: int,
    fishCommitCooldownMax: int)

  /** A profile with the three required fields given and every other field
      at its dataclass default. */
  function NewProfile(name: string, model: string, baseSpeed: real, crawlSpeedMin: real, lerpAlpha: real)
    : MotionProfile
  {
    MotionProfile(
      name, model, baseSpeed, crawlSpeedMin, lerpAlpha,
      0.045, 35,
      0.0, 0.0, 0.0, 0, 0,
      40, 90,
      10, 18,
      1.0 / 240.0, 2.5, 0.12, 2.5,
      160.0, 10.0, 0.06, 0.22, 18, 14, 0.012, 40, 90, 25, 60)
  }

  /** Every min/max pair is ordered. */
  predicate PairsOrdered(p: MotionProfile) {
    && p.commitMin <= p.commitMax
    && p.fishCommitMin <= p.fishCommitMax
    && p.fishCommitCooldownMin <= p.fishCommitCooldownMax
    && p.fishPauseMinS <= p.fishPauseMaxS
  }

  const AntFast := NewProfile("ANT_FAST", "ant", 110.0, 32.0, 0.10).(
    wanderMix := 0.45, insideZoneRetargetP := 0.08, orbitImpulseP := 0.05,
    orbitStrengthX := 90, orbitStrengthY := 60,
    commitMin := 40, commitMax := 85,
    edgePauseTicks := 8, edgePauseCooldown := 16,
    dwellRampRate := 1.0 / 220.0, dwellRampCap := 2.6, hysteresisEps := 0.10)

  const AntSlow := NewProfile("ANT_SLOW", "ant", 70.0, 28.0, 0.06).(
    wanderMix := 0.65, insideZoneRetargetP := 0.04, orbitImpulseP := 0.02,
    orbitStrengthX := 70, orbitStrengthY := 45,
    commitMin := 65, commitMax := 110,
    edgePauseTicks := 14, edgePauseCooldown := 28,
    dwellRampRate := 1.0 / 320.0, dwellRampCap := 2.0, hysteresisEps := 0.14)

  const FishAquarium := NewProfile("FISH_AQUARIUM", "fish", 0.0, 0.0, 0.0).(
    fishBaseSpeed := 160.0, fishTurnRate := 10.0,
    fishPauseMinS := 0.06, fishPauseMaxS := 0.22,
    fishMinDwellTicks := 18, fishExitLockTicks := 14,
    fishCommitP := 0.012, fishCommitMin := 40, fishCommitMax := 90,
    fishCommitCooldownMin := 25, fishCommitCooldownMax := 60)

  /** The bird glides but stays on the ant engine. */
  const BirdGlide := NewProfile("BIRD_GLIDE", "ant", 135.0, 42.0, 0.028).(
    wanderMix := 0.55, insideZoneRetargetP := 0.02,
    orbitImpulseP := 0.018, orbitStrengthX := 110, orbitStrengthY := 80,
    commitMin := 120, commitMax := 220,
    edgePauseTicks := 26, edgePauseCooldown := 55,
    dwellRampRate := 1.0 / 520.0, dwellRampCap := 1.7, hysteresisEps := 0.20, trailMoveEps := 2.8)

  /** `PROFILES`. */
  const Profiles: map<string, MotionProfile> :=
    map["ant_fast" := AntFast, "ant_slow" := AntSlow, "fish" := FishAquarium, "bird" := BirdGlide]

  datatype LookupError = KeyError(name: string)

  /** `get_profile`: `PROFILES[name]`, exact and case-sensitive; a missing
      key is a KeyError naming it. */
  function GetProfile(name: string): (r: Result<MotionProfile, LookupError>)
    ensures r.Ok? <==> name in {"ant_fast", "ant_slow", "fish", "bird"}
    ensures r.Ok? ==> r.value == Profiles[name]
    ensures r.Err? ==> r.error == KeyError(name)
    ensures r.Ok? ==> r.value.model in {"ant", "fish"} && PairsOrdered(r.value)
    ensures r.Ok? ==> (r.value.model == "fish" <==> name == "fish")
  {
    if name in Profiles then Ok(Profiles[name]) else Err(KeyError(name))
  }

  /** The defaults keep every min/max pair ordered, whatever the three
      required fields. */
  lemma DefaultsOrdered(name: string, model: string, baseSpeed: real, crawlSpeedMin: real, lerpAlpha: real)
    ensures PairsOrdered(NewProfile(name, model, baseSpeed, crawlSpeedMin, lerpAlpha))
  {
  }

  /** The lookup neither folds case nor strips: "Fish" and " fish" are
      missing keys, while "bird" is registered on the ant engine. */
  lemma LookupIsExact()
    ensures GetProfile("Fish") == Err(KeyError("Fish"))
    ensures GetProfile(" fish") == Err(KeyError(" fish"))
    ensures GetProfile("bird").Ok? && GetProfile("bird").value.model == "ant"
  {
  }
}
