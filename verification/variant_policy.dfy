/** The experiment-variant table of the motion sandbox (src/policy.py): a
    variant name selects environment knobs, species rest rules and the motion
    profile of each of the four agents, tagged for telemetry. */
module VariantPolicy {
  import opened Results
  import opened Text

  /** The knobs of one experiment variant. */
  datatype VariantPolicy = VariantPolicy(
    enableTransition: bool,
    parkDeltaScale: real,
    restDeltaScale: real,
    fantailAllowRest: bool,
    sparrowAllowRest: bool,
    aProfileId: string,
    bProfileId: string,
    cProfileId: string,
    dProfileId: string,
    runTag: Option<string>)

  /** The dataclass defaults. */
  const Defaults := VariantPolicy(true, 1.0, 1.0, true, true, "fish", "ant_fast", "ant_slow", "bird", None)

  /** The nine knobs a variant can move away from its default. */
  datatype Knob =
    | EnableTransition | ParkDeltaScale | RestDeltaScale | FantailAllowRest | SparrowAllowRest
    | AProfileId | BProfileId | CProfileId | DProfileId

  /** Whether knob `k` of `p` differs from its default. */
  predicate Differs(p: VariantPolicy, k: Knob) {
    match k
    case EnableTransition => p.enableTransition != Defaults.enableTransition
    case ParkDeltaScale => p.parkDeltaScale != Defaults.parkDeltaScale
    case RestDeltaScale => p.restDeltaScale != Defaults.restDeltaScale
    case FantailAllowRest => p.fantailAllowRest != Defaults.fantailAllowRest
    case SparrowAllowRest => p.sparrowAllowRest != Defaults.sparrowAllowRest
    case AProfileId => p.aProfileId != Defaults.aProfileId
    case BProfileId => p.bProfileId != Defaults.bProfileId
    case CProfileId => p.cProfileId != Defaults.cProfileId
    case DProfileId => p.dProfileId != Defaults.dProfileId
  }

  /** The knobs of `p` that differ from the defaults. */
  function ChangedKnobs(p: VariantPolicy): (ks: set<Knob>)
    ensures forall k: Knob :: k in ks <==> Differs(p, k)
  {
    set k: Knob | k in AllKnobs && Differs(p, k)
  }

  const AllKnobs: set<Knob> := {EnableTransition, ParkDeltaScale, RestDeltaScale, FantailAllowRest,
                                SparrowAllowRest, AProfileId, BProfileId, CProfileId, DProfileId}

  /** `variant or "BASE"`: a missing or empty name means BASE. */
  function RawName(variant: Option<string>): string {
    if variant.None? || variant.value == "" then "BASE" else variant.value
  }

  /** `(variant or "BASE").strip().upper()`. */
  function Normalize(variant: Option<string>): string {
    Upper(Strip(RawName(variant)))
  }

  /** The knob each named variant moves, by normalised name; BASE and unknown
      names move none. */
  function VariantKnob(v: string): Option<Knob> {
    if v == "B1_NO_TRANSITION" then Some(EnableTransition)
    else if v == "B2_MORE_PARK" then Some(ParkDeltaScale)
    else if v == "B3_FISH_NO_REST" then Some(FantailAllowRest)
    else if v == "P1_REST_SCARCITY" then Some(RestDeltaScale)
    else if v == "P2A_SPARROW_ANT_ENGINE" then Some(DProfileId)
    else if v == "P2B_FANTAIL_ANT_ENGINE" then Some(AProfileId)
    else None
  }

  /** The variant table, keyed by normalised name: BASE and unknown names
      get the defaults, an unknown name tagged with its lower-cased self. */
  function Lookup(v: string): (p: VariantPolicy)
    ensures p.runTag.Some?
    ensures VariantKnob(v).None? ==> p == Defaults.(runTag := p.runTag)
    ensures VariantKnob(v).None? && v != "BASE" ==> p.runTag == Some(Lower(v))
  {
    if v == "BASE" then Defaults.(runTag := Some("base"))
    else if v == "B1_NO_TRANSITION" then Defaults.(enableTransition := false, runTag := Some("b1_no_transition"))
    else if v == "B2_MORE_PARK" then Defaults.(parkDeltaScale := 1.25, runTag := Some("b2_more_park"))
    else if v == "B3_FISH_NO_REST" then Defaults.(fantailAllowRest := false, runTag := Some("b3_fish_no_rest"))
    else if v == "P1_REST_SCARCITY" then Defaults.(restDeltaScale := 0.40, runTag := Some("p1_rest_scarcity"))
    else if v == "P2A_SPARROW_ANT_ENGINE" then Defaults.(dProfileId := "ant_fast", runTag := Some("p2a_sparrow_ant_engine"))
    else if v == "P2B_FANTAIL_ANT_ENGINE" then Defaults.(aProfileId := "ant_slow", runTag := Some("p2b_fantail_ant_engine"))
    else Defaults.(runTag := Some(Lower(v)))
  }

  /** A named variant moves exactly its one knob away from the defaults;
      BASE and unknown names move none. */
  lemma LookupMovesOneKnob(v: string)
    ensures ChangedKnobs(Lookup(v)) == if VariantKnob(v).Some? then {VariantKnob(v).value} else {}
  {
    var p := Lookup(v);
    if v == "B1_NO_TRANSITION" {
      assert p == Defaults.(enableTransition := false, runTag := p.runTag);
    } else if v == "B2_MORE_PARK" {
      assert p == Defaults.(parkDeltaScale := 1.25, runTag := p.runTag);
    } else if v == "B3_FISH_NO_REST" {
      assert p == Defaults.(fantailAllowRest := false, runTag := p.runTag);
    } else if v == "P1_REST_SCARCITY" {
      assert p == Defaults.(restDeltaScale := 0.40, runTag := p.runTag);
    } else if v == "P2A_SPARROW_ANT_ENGINE" {
      assert p == Defaults.(dProfileId := "ant_fast", runTag := p.runTag);
    } else if v == "P2B_FANTAIL_ANT_ENGINE" {
      assert p == Defaults.(aProfileId := "ant_slow", runTag := p.runTag);
    } else {
      assert p == Defaults.(runTag := p.runTag);
    }
  }

  /** Every table entry is tagged with its own name, lower-cased: the named
      variants and BASE spell out exactly that tag, and an unknown name is
      tagged the same way. */
  lemma LookupTaggedWithLowerName(v: string)
    ensures Lookup(v).runTag == Some(Lower(v))
  {
    BaselineTagsLowerCased();
    ProbeTagsLowerCased();
  }

  /** The tags of BASE and the B variants are their lower-cased names. */
  lemma BaselineTagsLowerCased()
    ensures Lower("BASE") == "base"
    ensures Lower("B1_NO_TRANSITION") == "b1_no_transition"
    ensures Lower("B2_MORE_PARK") == "b2_more_park"
    ensures Lower("B3_FISH_NO_REST") == "b3_fish_no_rest"
  {
    LowerLiteral("BASE", "base");
    LowerLiteral("B1_NO_TRANSITION", "b1_no_transition");
    LowerLiteral("B2_MORE_PARK", "b2_more_park");
    LowerLiteral("B3_FISH_NO_REST", "b3_fish_no_rest");
  }

  /** The tags of the P variants are their lower-cased names. */
  lemma ProbeTagsLowerCased()
    ensures Lower("P1_REST_SCARCITY") == "p1_rest_scarcity"
    ensures Lower("P2A_SPARROW_ANT_ENGINE") == "p2a_sparrow_ant_engine"
    ensures Lower("P2B_FANTAIL_ANT_ENGINE") == "p2b_fantail_ant_engine"
  {
    LowerLiteral("P1_REST_SCARCITY", "p1_rest_scarcity");
    LowerLiteral("P2A_SPARROW_ANT_ENGINE", "p2a_sparrow_ant_engine");
    LowerLiteral("P2B_FANTAIL_ANT_ENGINE", "p2b_fantail_ant_engine");
  }

  /** A literal tag is the lower-cased name when it agrees with it character by character. */
  lemma LowerLiteral(v: string, tag: string)
    requires |tag| == |v| && forall i :: 0 <= i < |v| ==> tag[i] == LowerChar(v[i])
    ensures Lower(v) == tag
  {
  }

  /** `get_policy`: never fails; a named variant moves exactly its one knob,
      every other name (BASE, unknown, missing or empty) gets the defaults,
      and the result is always tagged. */
  function GetPolicy(variant: Option<string>): (p: VariantPolicy)
    ensures p.runTag.Some?
    ensures ChangedKnobs(p) == if VariantKnob(Normalize(variant)).Some? then {VariantKnob(Normalize(variant)).value} else {}
    ensures variant.None? || variant == Some("") ==> p == Defaults.(runTag := Some("base"))
  {
    LookupMovesOneKnob(Normalize(variant));
    MissingNameIsBase();
    Lookup(Normalize(variant))
  }

  /** Matching ignores case: a name and its lower-cased form normalise alike,
      so they select the same table entry. */
  lemma NormalizeIgnoresCase(name: string)
    ensures Normalize(Some(Lower(name))) == Normalize(Some(name))
  {
    StripLower(name);
    UpperOfLower(Strip(name));
    assert RawName(Some(Lower(name))) == Lower(name) || name == [];
  }

  /** Matching ignores surrounding whitespace: one more leading or trailing
      whitespace character does not change the normalised name. */
  lemma NormalizeIgnoresPadding(name: string, c: char)
    requires IsSpace(c) && name != ""
    ensures Normalize(Some([c] + name)) == Normalize(Some(name))
    ensures Normalize(Some(name + [c])) == Normalize(Some(name))
  {
    LeadingSpaceIgnored(c, name);
    TrailingSpaceIgnored(name, c);
    assert RawName(Some([c] + name)) == [c] + name;
    assert RawName(Some(name + [c])) == name + [c];
    assert RawName(Some(name)) == name;
  }

  /** A whitespace-only name is not BASE: it strips to the empty name, which
      is unknown and so gets the defaults tagged with the empty text. */
  lemma BlankNameIsUnknown()
    ensures Normalize(Some(" ")) == ""
    ensures GetPolicy(Some(" ")) == Defaults.(runTag := Some(""))
  {
    assert RawName(Some(" ")) == " ";
    assert TrimEnd(" ") == "" by { assert " "[..0] == ""; }
    assert Strip(" ") == "";
    assert Upper("") == "";
    assert Normalize(Some(" ")) == "";
    assert VariantKnob("").None?;
    assert Lower("") == "";
    assert Lookup("") == Defaults.(runTag := Some(""));
  }

  /** BASE is the defaults tagged "base". */
  lemma BaseIsDefaults()
    ensures Lookup("BASE") == Defaults.(runTag := Some("base"))
  {
  }

  /** A missing name and an empty name both select BASE. */
  lemma MissingNameIsBase()
    ensures Normalize(None) == Normalize(Some("")) == "BASE"
  {
    StripUnpadded("BASE");
    assert RawName(None) == RawName(Some("")) == "BASE";
    assert Upper("BASE") == "BASE";
  }

  /** A name close to a real variant is still unknown and falls back to the
      defaults, tagged with its own lower-cased name. */
  lemma NearMissFallsBack()
    ensures Lookup("P2A_SPARROW_ANT_COG") == Defaults.(runTag := Some(Lower("P2A_SPARROW_ANT_COG")))
  {
  }
}
