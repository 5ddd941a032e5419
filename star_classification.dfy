/** The star-type decision procedure: a first-match chain of tests on the
    lifecycle stage, the mass (in solar masses), the surface temperature (in
    kelvin) and the radius, which the caller gives in kilometres and the
    procedure compares in solar radii. */
module StarClassification {
  import opened Star

  /** Kilometres in one solar radius. */
  const SOLAR_RADIUS_KM: real := 696340.0

  /** The star types the procedure can return, `UnknownStarType` when no test matches. */
  datatype StarType =
    | TTauriStar
    | HerbigAeBeStar
    | Subdwarf
    | RedDwarf
    | OrangeDwarf
    | YellowDwarf
    | OTypeStar
    | SubgiantStar
    | RedGiant
    | RedSupergiant
    | BlueSupergiant
    | Hypergiant
    | WhiteDwarf
    | NeutronStar
    | StellarBlackHole
    | BrownDwarf
    | UnknownStarType

  /** The label `calculate_star_type` returns for each star type. */
  function Name(t: StarType): (text: string)
    ensures text == "Unknown Star Type" <==> t == UnknownStarType
  {
    match t
    case TTauriStar => "T_Tauri_Star"
    case HerbigAeBeStar => "Herbig_AE_BE_Star"
    case Subdwarf => "Subdwarf"
    case RedDwarf => "Red_Dwarf"
    case OrangeDwarf => "Orange_Dwarf"
    case YellowDwarf => "Yellow_Dwarf"
    case OTypeStar => "O_Type_Star"
    case SubgiantStar => "Subgiant"
    case RedGiant => "Red_Giant"
    case RedSupergiant => "Red_Supergiant"
    case BlueSupergiant => "Blue_Supergiant"
    case Hypergiant => "Hypergiant"
    case WhiteDwarf => "White_Dwarf"
    case NeutronStar => "Neutron_Star"
    case StellarBlackHole => "Stellar_Black_Hole"
    case BrownDwarf => "Brown_Dwarf"
    case UnknownStarType => "Unknown Star Type"
  }

  /** The sixteen labels of the named star types. */
  const KNOWN_LABELS: set<string> := {
    "T_Tauri_Star", "Herbig_AE_BE_Star", "Subdwarf", "Red_Dwarf", "Orange_Dwarf",
    "Yellow_Dwarf", "O_Type_Star", "Subgiant", "Red_Giant", "Red_Supergiant",
    "Blue_Supergiant", "Hypergiant", "White_Dwarf", "Neutron_Star",
    "Stellar_Black_Hole", "Brown_Dwarf"
  }

  /** The stages the procedure has no test for. */
  predicate IsUnbranchedStage(stage: LifecycleStage) {
    stage in {MolecularCloud, Protostar, Subgiant, RedGiantBranch, HorizontalBranch, AsymptoticGiantBranch}
  }

  /** `calculate_star_type` as written: the radius is first converted to
      solar radii, then the tests of the stage's branch are tried in order. */
  function CalculateStarType(mass: real, temperature: real, stage: LifecycleStage, radius: real): (t: StarType)
    ensures stage == FailedStar ==> t == BrownDwarf
    ensures stage == FinalStage ==> t in {WhiteDwarf, NeutronStar, StellarBlackHole}
    ensures IsUnbranchedStage(stage) ==> t == UnknownStarType
    ensures t != UnknownStarType ==> Guard(t, StarParameters(mass, temperature, stage, radius / SOLAR_RADIUS_KM))
  {
    var solarRadii := radius / SOLAR_RADIUS_KM;
    if stage == PreMainSequence then
      if mass <= 2.0 && solarRadii >= 0.5 && solarRadii <= 2.0 then TTauriStar
      else if mass > 2.0 && solarRadii > 2.0 && solarRadii <= 5.0 then HerbigAeBeStar
      else UnknownStarType
    else if stage == MainSequence then
      if mass <= 0.08 && temperature <= 3000.0 then Subdwarf
      else if mass <= 0.5 && temperature <= 3700.0 then RedDwarf
      else if mass > 0.5 && mass <= 0.8 && temperature > 3700.0 && temperature <= 5200.0 then OrangeDwarf
      else if mass > 0.8 && mass <= 1.4 && temperature > 5200.0 && temperature <= 6000.0 then YellowDwarf
      else if mass > 15.0 && temperature > 30000.0 then OTypeStar
      else UnknownStarType
    else if stage == PostMainSequence then
      if solarRadii > 1.5 && solarRadii <= 5.0 then SubgiantStar
      else if solarRadii > 5.0 && solarRadii <= 100.0 then RedGiant
      else if solarRadii > 100.0 then RedSupergiant
      else UnknownStarType
    else if stage == Supergiant then
      if mass > 15.0 && mass <= 25.0 && solarRadii > 600.0 then BlueSupergiant
      else if mass > 25.0 && temperature > 30000.0 then Hypergiant
      else UnknownStarType
    else if stage == FinalStage then
      if mass <= 1.4 then WhiteDwarf
      else if mass > 1.4 && mass <= 3.0 then NeutronStar
      else if mass > 3.0 then StellarBlackHole
      else UnknownStarType
    else if stage == FailedStar then
      BrownDwarf
    else
      UnknownStarType
  }

  // ---------------------------------------------------------------------------
  // The same procedure as a table of rules tried in order.

  /** The inputs a rule tests, with the radius already in solar radii. */
  datatype StarParameters = StarParameters(mass: real, temperature: real, stage: LifecycleStage, solarRadii: real)

  /** The test, stage included, of the branch that returns `t`; the final
      fall-through that returns `UnknownStarType` always matches. */
  predicate Guard(t: StarType, p: StarParameters) {
    match t
    case TTauriStar => p.stage == PreMainSequence && p.mass <= 2.0 && p.solarRadii >= 0.5 && p.solarRadii <= 2.0
    case HerbigAeBeStar => p.stage == PreMainSequence && p.mass > 2.0 && p.solarRadii > 2.0 && p.solarRadii <= 5.0
    case Subdwarf => p.stage == MainSequence && p.mass <= 0.08 && p.temperature <= 3000.0
    case RedDwarf => p.stage == MainSequence && p.mass <= 0.5 && p.temperature <= 3700.0
    case OrangeDwarf =>
      p.stage == MainSequence && p.mass > 0.5 && p.mass <= 0.8 && p.temperature > 3700.0 && p.temperature <= 5200.0
    case YellowDwarf =>
      p.stage == MainSequence && p.mass > 0.8 && p.mass <= 1.4 && p.temperature > 5200.0 && p.temperature <= 6000.0
    case OTypeStar => p.stage == MainSequence && p.mass > 15.0 && p.temperature > 30000.0
    case SubgiantStar => p.stage == PostMainSequence && p.solarRadii > 1.5 && p.solarRadii <= 5.0
    case RedGiant => p.stage == PostMainSequence && p.solarRadii > 5.0 && p.solarRadii <= 100.0
    case RedSupergiant => p.stage == PostMainSequence && p.solarRadii > 100.0
    case BlueSupergiant => p.stage == Supergiant && p.mass > 15.0 && p.mass <= 25.0 && p.solarRadii > 600.0
    case Hypergiant => p.stage == Supergiant && p.mass > 25.0 && p.temperature > 30000.0
    case WhiteDwarf => p.stage == FinalStage && p.mass <= 1.4
    case NeutronStar => p.stage == FinalStage && p.mass > 1.4 && p.mass <= 3.0
    case StellarBlackHole => p.stage == FinalStage && p.mass > 3.0
    case BrownDwarf => p.stage == FailedStar
    case UnknownStarType => true
  }

  /** The rules in the order `calculate_star_type` tries them. */
  const RULE_ORDER: seq<StarType> := [
    TTauriStar, HerbigAeBeStar,
    Subdwarf, RedDwarf, OrangeDwarf, YellowDwarf, OTypeStar,
    SubgiantStar, RedGiant, RedSupergiant,
    BlueSupergiant, Hypergiant,
    WhiteDwarf, NeutronStar, StellarBlackHole,
    BrownDwarf,
    UnknownStarType
  ]

  /** The position of the first rule whose test matches, `|rules|` when none does. */
  function FirstMatch(rules: seq<StarType>, p: StarParameters): (i: nat)
    ensures i <= |rules|
    ensures i < |rules| ==> Guard(rules[i], p)
    ensures forall j :: 0 <= j < i ==> !Guard(rules[j], p)
  {
    if rules == [] then 0
    else if Guard(rules[0], p) then 0
    else 1 + FirstMatch(rules[1..], p)
  }

  /** The star type the rule table selects. */
  function ClassifyByRules(p: StarParameters): (t: StarType)
    ensures Guard(t, p)
  {
    var i := FirstMatch(RULE_ORDER, p);
    if i < |RULE_ORDER| then RULE_ORDER[i] else UnknownStarType
  }

  // ---------------------------------------------------------------------------
  // Properties

  /** The position of each star type in the rule table. */
  function Rank(t: StarType): (k: nat)
    ensures k < |RULE_ORDER| && RULE_ORDER[k] == t
  {
    match t
    case TTauriStar => 0
    case HerbigAeBeStar => 1
    case Subdwarf => 2
    case RedDwarf => 3
    case OrangeDwarf => 4
    case YellowDwarf => 5
    case OTypeStar => 6
    case SubgiantStar => 7
    case RedGiant => 8
    case RedSupergiant => 9
    case BlueSupergiant => 10
    case Hypergiant => 11
    case WhiteDwarf => 12
    case NeutronStar => 13
    case StellarBlackHole => 14
    case BrownDwarf => 15
    case UnknownStarType => 16
  }

  /** A rule that matches, with no matching rule before it, is the first match. */
  lemma FirstMatchAt(rules: seq<StarType>, p: StarParameters, k: nat)
    requires k < |rules| && Guard(rules[k], p)
    requires forall j :: 0 <= j < k ==> !Guard(rules[j], p)
    ensures FirstMatch(rules, p) == k
  {
  }

  /** The chain of tests in `calculate_star_type` is the rule table tried in order, first match winning. */
  lemma CalculateStarTypeIsFirstMatch(mass: real, temperature: real, stage: LifecycleStage, radius: real)
    ensures CalculateStarType(mass, temperature, stage, radius)
         == ClassifyByRules(StarParameters(mass, temperature, stage, radius / SOLAR_RADIUS_KM))
  {
    var p := StarParameters(mass, temperature, stage, radius / SOLAR_RADIUS_KM);
    var t := CalculateStarType(mass, temperature, stage, radius);
    var k := Rank(t);
    forall j | 0 <= j < k
      ensures !Guard(RULE_ORDER[j], p)
    {
    }
    FirstMatchAt(RULE_ORDER, p, k);
  }

  /** Within a lifecycle stage the tests exclude each other, except that a star
      light and cool enough to be a subdwarf also passes the red-dwarf test; the
      stage tests keep branches of different stages apart. So the order of the
      rules decides only between those two. */
  lemma OnlyDwarfTestsOverlap(u: StarType, v: StarType, p: StarParameters)
    requires u != v && u != UnknownStarType && v != UnknownStarType
    requires Guard(u, p) && Guard(v, p)
    ensures {u, v} == {Subdwarf, RedDwarf}
  {
  }

  /** The labels are pairwise distinct, so a star type and its label determine each other. */
  lemma NamesAreDistinct(s: StarType, t: StarType)
    ensures Name(s) == Name(t) ==> s == t
  {
  }

  /** The result's label is always one of the sixteen named labels or
      "Unknown Star Type", and it is a named label exactly when a test matched. */
  lemma NamesAreLabels(t: StarType)
    ensures Name(t) in KNOWN_LABELS <==> t != UnknownStarType
    ensures Name(t) in KNOWN_LABELS + {"Unknown Star Type"}
  {
  }

  /** There are sixteen named labels. */
  lemma SixteenLabels()
    ensures |KNOWN_LABELS| == 16
  {
  }

  /** A failed star is a brown dwarf, whatever its mass, temperature and radius. */
  lemma FailedStarIsBrownDwarf(mass: real, temperature: real, radius: real)
    ensures CalculateStarType(mass, temperature, FailedStar, radius) == BrownDwarf
  {
  }

  /** In the final stage the mass alone decides, at the thresholds 1.4 and 3. */
  lemma FinalStageByMass(mass: real, temperature: real, radius: real)
    ensures CalculateStarType(mass, temperature, FinalStage, radius) != UnknownStarType
    ensures CalculateStarType(mass, temperature, FinalStage, radius) == WhiteDwarf <==> mass <= 1.4
    ensures CalculateStarType(mass, temperature, FinalStage, radius) == NeutronStar <==> 1.4 < mass <= 3.0
    ensures CalculateStarType(mass, temperature, FinalStage, radius) == StellarBlackHole <==> 3.0 < mass
  {
  }

  /** A stage without tests always gives "Unknown Star Type". */
  lemma UnbranchedStageIsUnknown(mass: real, temperature: real, stage: LifecycleStage, radius: real)
    requires IsUnbranchedStage(stage)
    ensures CalculateStarType(mass, temperature, stage, radius) == UnknownStarType
  {
  }

  /** On the main sequence the subdwarf test comes first: a star that passes it
      is a subdwarf, although it also passes the red-dwarf test. */
  lemma SubdwarfShadowsRedDwarf(mass: real, temperature: real, radius: real)
    requires mass <= 0.08 && temperature <= 3000.0
    ensures Guard(RedDwarf, StarParameters(mass, temperature, MainSequence, radius / SOLAR_RADIUS_KM))
    ensures CalculateStarType(mass, temperature, MainSequence, radius) == Subdwarf
  {
  }

  /** After the main sequence only the radius counts, and a star is classified
      exactly when its radius exceeds 1.5 solar radii. */
  lemma PostMainSequenceByRadius(mass: real, temperature: real, mass': real, temperature': real, radius: real)
    ensures CalculateStarType(mass, temperature, PostMainSequence, radius)
         == CalculateStarType(mass', temperature', PostMainSequence, radius)
    ensures CalculateStarType(mass, temperature, PostMainSequence, radius) != UnknownStarType
        <==> radius / SOLAR_RADIUS_KM > 1.5
    ensures CalculateStarType(mass, temperature, PostMainSequence, radius) != UnknownStarType
        <==> radius > 1044510.0
  {
  }

  /** The procedure's fifteen demonstration calls. Each gives the type its
      comment names, except the one for mass exactly 1.4 in the final stage,
      which the `<= 1.4` test makes a white dwarf, not a neutron star. */
  lemma DemonstrationCalls()
    ensures CalculateStarType(0.5, 3000.0, PreMainSequence, 1.5 * SOLAR_RADIUS_KM) == TTauriStar
    ensures CalculateStarType(2.5, 10000.0, PreMainSequence, 2.5 * SOLAR_RADIUS_KM) == HerbigAeBeStar
    ensures CalculateStarType(0.3, 3000.0, MainSequence, 0.3 * SOLAR_RADIUS_KM) == RedDwarf
    ensures CalculateStarType(0.7, 5000.0, MainSequence, 0.7 * SOLAR_RADIUS_KM) == OrangeDwarf
    ensures CalculateStarType(1.0, 5778.0, MainSequence, SOLAR_RADIUS_KM) == YellowDwarf
    ensures CalculateStarType(16.0, 40000.0, MainSequence, 7.0 * SOLAR_RADIUS_KM) == OTypeStar
    ensures CalculateStarType(1.1, 5500.0, PostMainSequence, 2.0 * SOLAR_RADIUS_KM) == SubgiantStar
    ensures CalculateStarType(0.8, 3500.0, PostMainSequence, 50.0 * SOLAR_RADIUS_KM) == RedGiant
    ensures CalculateStarType(12.0, 3500.0, PostMainSequence, 600.0 * SOLAR_RADIUS_KM) == RedSupergiant
    ensures CalculateStarType(20.0, 20000.0, Supergiant, 700.0 * SOLAR_RADIUS_KM) == BlueSupergiant
    ensures CalculateStarType(30.0, 35000.0, Supergiant, 1300.0 * SOLAR_RADIUS_KM) == Hypergiant
    ensures CalculateStarType(0.6, 8000.0, FinalStage, 0.01 * SOLAR_RADIUS_KM) == WhiteDwarf
    ensures CalculateStarType(1.4, 6000000.0, FinalStage, 10.0) == WhiteDwarf
    ensures CalculateStarType(10.0, 0.0, FinalStage, 0.0) == StellarBlackHole
    ensures CalculateStarType(0.05, 1700.0, FailedStar, 0.1 * SOLAR_RADIUS_KM) == BrownDwarf
  {
  }
}
