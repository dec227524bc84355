/**
 * The scoring rules engine: an actor's threat score is the product of a base score summed
 * over its tags, a tag-combination factor, a factor from the detector summaries of the run
 * and a global factor from the overall threat landscape. Every rule that fires appends an
 * evidence record, in the order the rules are evaluated.
 */
module RulesEngine {
  import opened Wrappers
  import opened Text
  import opened Seqs
  import opened Evidence
  import Models

  /** One entry of a profile's `modifiers` list; absent keys are `None` (or "" for `if`). */
  datatype Modifier = Modifier(
    condition: string,
    value: Option<real>,
    evidence: Option<string>,
    threshold: Option<real>)

  /** A `scoring_profiles` entry. */
  datatype Profile = Profile(baseScore: Option<real>, modifiers: seq<Modifier>)

  /** A `tag_combinations` entry, keyed elsewhere by its `'+'`-joined tag names. */
  datatype Combination = Combination(multiplier: Option<real>, evidence: Option<string>)

  /**
   * The configuration. `tagCombinations` keeps the mapping's iteration order;
   * `globalModifiers` is stored by the constructor and read by no rule.
   */
  datatype Config = Config(
    scoringProfiles: map<string, Profile>,
    tagCombinations: seq<(string, Combination)>,
    globalModifiers: map<string, real>)

  /** A detector summary: its numeric entries. An empty map is a missing or empty summary. */
  type Summary = map<string, real>

  /** The run context: summaries by name (`fft_summary`, `graph_summary`, ...). */
  type Context = map<string, Summary>

  /** What the engine reads of an actor. */
  datatype ActorView = ActorView(
    tags: seq<string>,
    urlDiversityRatio: real,
    avgEntropy: real,
    centrality: real,
    anomalyRatio: real)

  function ViewOf(actor: Models.Actor): ActorView
    reads actor
  {
    ActorView(actor.tags, actor.urlDiversityRatio, actor.avgEntropy, actor.centrality, actor.anomalyRatio)
  }

  /** `context.get(name, {})`. */
  function SummaryOf(ctx: Context, name: string): Summary {
    if name in ctx then ctx[name] else map[]
  }

  /** `summary.get(key, default)`. */
  function Get(s: Summary, key: string, default: real): real {
    if key in s then s[key] else default
  }

  /** The truth value of a summary: present and non-empty. */
  predicate Present(s: Summary) {
    s != map[]
  }

  function RulesRecord(kind: string, details: string, confidence: real): Record {
    Logged("RulesEngine", kind, details, confidence)
  }

  // ---------------------------------------------------------------------------------------
  // Modifier conditions

  const KnownConditions: set<string> := {
    "fft_is_rhythmic", "url_diversity_ratio", "high_entropy", "high_centrality",
    "anomalous_behavior", "coordinated_attack", "multiple_attack_types" }

  const AttackTypes: seq<string> := ["LFI_RFI", "SQL_INJECTION", "XSS", "COMMAND_INJECTION"]

  /** How many of the four attack-type tags the actor carries (the set intersection's size). */
  function AttackCount(tags: seq<string>): (n: nat)
    ensures n <= 4
    ensures n == 0 <==> forall t :: t in AttackTypes ==> t !in tags
  {
    (if "LFI_RFI" in tags then 1 else 0) + (if "SQL_INJECTION" in tags then 1 else 0)
    + (if "XSS" in tags then 1 else 0) + (if "COMMAND_INJECTION" in tags then 1 else 0)
  }

  /** Whether a profile modifier applies to the actor; an unrecognised condition never does. */
  function EvaluateCondition(a: ActorView, m: Modifier): bool {
    match m.condition
    case "fft_is_rhythmic" => "AUTOMATED_SCAN" in a.tags
    case "url_diversity_ratio" => a.urlDiversityRatio > m.threshold.GetOr(0.8)
    case "high_entropy" => a.avgEntropy > m.threshold.GetOr(4.5)
    case "high_centrality" => a.centrality > m.threshold.GetOr(0.5)
    case "anomalous_behavior" => a.anomalyRatio > m.threshold.GetOr(0.7)
    case "coordinated_attack" => "COORDINATED_ATTACK" in a.tags || "COORDINATOR" in a.tags
    case "multiple_attack_types" => AttackCount(a.tags) >= 2
    case _ => false
  }

  /**
   * Each known condition holds exactly when its threshold test does, with the defaults 0.8, 4.5,
   * 0.5 and 0.7; an unrecognised condition never holds.
   */
  lemma EvaluateConditionProps(a: ActorView, m: Modifier)
    ensures var r := EvaluateCondition(a, m);
      && (m.condition !in KnownConditions ==> !r)
      && (m.condition == "fft_is_rhythmic" ==> (r <==> "AUTOMATED_SCAN" in a.tags))
      && (m.condition == "url_diversity_ratio" ==> (r <==> a.urlDiversityRatio > m.threshold.GetOr(0.8)))
      && (m.condition == "high_entropy" ==> (r <==> a.avgEntropy > m.threshold.GetOr(4.5)))
      && (m.condition == "high_centrality" ==> (r <==> a.centrality > m.threshold.GetOr(0.5)))
      && (m.condition == "anomalous_behavior" ==> (r <==> a.anomalyRatio > m.threshold.GetOr(0.7)))
      && (m.condition == "coordinated_attack" ==> (r <==> "COORDINATED_ATTACK" in a.tags || "COORDINATOR" in a.tags))
      && (m.condition == "multiple_attack_types" ==> (r <==> AttackCount(a.tags) >= 2))
  {
  }

  // ---------------------------------------------------------------------------------------
  // Base score

  function ModifierValue(m: Modifier): real {
    m.value.GetOr(1.0)
  }

  function ModifierDetails(tag: string, m: Modifier): string {
    match m.evidence
    case Some(e) => e
    case None => "Applied " + tag + " modifier"
  }

  /** The running score after the satisfied modifiers in `mods`, applied in order. */
  function ApplyModifiers(a: ActorView, mods: seq<Modifier>, score: real): real
    decreases |mods|
  {
    if mods == [] then score
    else
      var prev := ApplyModifiers(a, mods[..|mods| - 1], score);
      var m := mods[|mods| - 1];
      if EvaluateCondition(a, m) then prev * ModifierValue(m) else prev
  }

  /** The records the satisfied modifiers in `mods` append. */
  function ModifierEvidence(a: ActorView, tag: string, mods: seq<Modifier>): seq<Record>
    decreases |mods|
  {
    if mods == [] then []
    else
      var m := mods[|mods| - 1];
      ModifierEvidence(a, tag, mods[..|mods| - 1])
      + (if EvaluateCondition(a, m) then [RulesRecord("modifier_applied", ModifierDetails(tag, m), 0.7)] else [])
  }

  /** The product of the values of the satisfied modifiers: an independent view of `ApplyModifiers`. */
  function SatisfiedProduct(a: ActorView, mods: seq<Modifier>): real
    decreases |mods|
  {
    if mods == [] then 1.0
    else SatisfiedProduct(a, mods[..|mods| - 1]) * Factor(a, mods[|mods| - 1])
  }

  /** What one modifier multiplies the score by: its value when its condition holds, else 1. */
  function Factor(a: ActorView, m: Modifier): real {
    if EvaluateCondition(a, m) then ModifierValue(m) else 1.0
  }

  lemma MulAssoc(x: real, y: real, z: real)
    ensures x * (y * z) == (x * y) * z
  {
  }

  /** The number of satisfied modifiers. */
  function SatisfiedCount(a: ActorView, mods: seq<Modifier>): nat
    decreases |mods|
  {
    if mods == [] then 0
    else (if EvaluateCondition(a, mods[0]) then 1 else 0) + SatisfiedCount(a, mods[1..])
  }

  /** The base score after the tags `tags` (a prefix of the actor's iteration order). */
  function BaseScore(profiles: map<string, Profile>, a: ActorView, tags: seq<string>): real
    decreases |tags|
  {
    if tags == [] then 0.0
    else
      var prev := BaseScore(profiles, a, tags[..|tags| - 1]);
      var t := tags[|tags| - 1];
      if t in profiles then ApplyModifiers(a, profiles[t].modifiers, prev + profiles[t].baseScore.GetOr(0.0))
      else prev
  }

  /** The records appended while summing the base score over `tags`. */
  function BaseEvidence(profiles: map<string, Profile>, a: ActorView, tags: seq<string>): seq<Record>
    decreases |tags|
  {
    if tags == [] then []
    else
      var t := tags[|tags| - 1];
      BaseEvidence(profiles, a, tags[..|tags| - 1])
      + (if t in profiles then ModifierEvidence(a, t, profiles[t].modifiers) else [])
  }

  /** The tags of `tags` that have a scoring profile, in order. */
  function Profiled(profiles: map<string, Profile>, tags: seq<string>): (r: seq<string>)
    ensures forall t :: t in r ==> t in profiles && t in tags
    decreases |tags|
  {
    if tags == [] then []
    else
      var t := tags[|tags| - 1];
      Profiled(profiles, tags[..|tags| - 1]) + (if t in profiles then [t] else [])
  }

  /** Applying the satisfied modifiers multiplies the running score by their product. */
  lemma {:induction false} ApplyModifiersScales(a: ActorView, mods: seq<Modifier>, score: real)
    ensures ApplyModifiers(a, mods, score) == score * SatisfiedProduct(a, mods)
    decreases |mods|
  {
    if mods != [] {
      var init := mods[..|mods| - 1];
      var m := mods[|mods| - 1];
      ApplyModifiersScales(a, init, score);
      ApplyModifiersStep(a, mods, score);
      MulAssoc(score, SatisfiedProduct(a, init), Factor(a, m));
    }
  }

  /** The last modifier multiplies the running score by its factor. */
  lemma ApplyModifiersStep(a: ActorView, mods: seq<Modifier>, score: real)
    requires mods != []
    ensures ApplyModifiers(a, mods, score) == ApplyModifiers(a, mods[..|mods| - 1], score) * Factor(a, mods[|mods| - 1])
  {
    if EvaluateCondition(a, mods[|mods| - 1]) {
    } else {
    }
  }


  /**
   * The order subtlety: a profiled tag's satisfied modifiers multiply the whole running sum,
   * including the scores of the tags before it.
   */
  lemma RunningSumScaled(profiles: map<string, Profile>, a: ActorView, tags: seq<string>, t: string)
    requires t in profiles
    ensures BaseScore(profiles, a, tags + [t])
         == (BaseScore(profiles, a, tags) + profiles[t].baseScore.GetOr(0.0)) * SatisfiedProduct(a, profiles[t].modifiers)
  {
    assert (tags + [t])[..|tags|] == tags;
    ApplyModifiersScales(a, profiles[t].modifiers, BaseScore(profiles, a, tags) + profiles[t].baseScore.GetOr(0.0));
  }

  /** A tag without a profile neither changes the base score nor appends evidence. */
  lemma UnprofiledTagIgnored(profiles: map<string, Profile>, a: ActorView, tags: seq<string>, t: string)
    requires t !in profiles
    ensures BaseScore(profiles, a, tags + [t]) == BaseScore(profiles, a, tags)
    ensures BaseEvidence(profiles, a, tags + [t]) == BaseEvidence(profiles, a, tags)
  {
    assert (tags + [t])[..|tags|] == tags;
  }

  /** Tags without a profile add nothing: the base score only sees the profiled tags. */
  lemma {:induction false} BaseScoreOnlyProfiled(profiles: map<string, Profile>, a: ActorView, tags: seq<string>)
    ensures BaseScore(profiles, a, tags) == BaseScore(profiles, a, Profiled(profiles, tags))
    ensures BaseEvidence(profiles, a, tags) == BaseEvidence(profiles, a, Profiled(profiles, tags))
    decreases |tags|
  {
    if tags != [] {
      var init := tags[..|tags| - 1];
      var t := tags[|tags| - 1];
      BaseScoreOnlyProfiled(profiles, a, init);
      var p := Profiled(profiles, init);
      if t in profiles {
        assert Profiled(profiles, tags) == p + [t];
        assert (p + [t])[..|p|] == p;
      } else {
        assert Profiled(profiles, tags) == p;
      }
    }
  }

  /** One `modifier_applied` record at 0.7 per satisfied modifier, and no other. */
  lemma {:induction false} ModifierEvidenceShape(a: ActorView, tag: string, mods: seq<Modifier>)
    ensures |ModifierEvidence(a, tag, mods)| == SatisfiedCount(a, mods)
    ensures forall r :: r in ModifierEvidence(a, tag, mods) ==>
              r.source == "RulesEngine" && r.kind == "modifier_applied" && r.confidence == Some(0.7)
    decreases |mods|
  {
    if mods != [] {
      var init := mods[..|mods| - 1];
      var m := mods[|mods| - 1];
      ModifierEvidenceShape(a, tag, init);
      SatisfiedCountSnoc(a, init, m);
      assert init + [m] == mods;
    }
  }

  lemma {:induction false} SatisfiedCountSnoc(a: ActorView, mods: seq<Modifier>, m: Modifier)
    ensures SatisfiedCount(a, mods + [m]) == SatisfiedCount(a, mods) + (if EvaluateCondition(a, m) then 1 else 0)
    decreases |mods|
  {
    if mods == [] {
      assert [m][1..] == [];
    } else {
      assert (mods + [m])[1..] == mods[1..] + [m];
      SatisfiedCountSnoc(a, mods[1..], m);
    }
  }

  /**
   * The base score depends on the order the tag set is iterated in: two profiled tags, the
   * first of which has a modifier that applies, give different sums in the two orders.
   */
  lemma BaseScoreDependsOnOrder()
    ensures
      var boost := Modifier("fft_is_rhythmic", Some(2.0), None, None);
      var profiles := map["A" := Profile(Some(1.0), [boost]), "B" := Profile(Some(1.0), [])];
      var a1 := ActorView(["A", "B", "AUTOMATED_SCAN"], 0.0, 0.0, 0.0, 0.0);
      var a2 := ActorView(["B", "A", "AUTOMATED_SCAN"], 0.0, 0.0, 0.0, 0.0);
      BaseScore(profiles, a1, a1.tags) == 3.0 && BaseScore(profiles, a2, a2.tags) == 4.0
  {
    var boost := Modifier("fft_is_rhythmic", Some(2.0), None, None);
    var profiles := map["A" := Profile(Some(1.0), [boost]), "B" := Profile(Some(1.0), [])];
    var a1 := ActorView(["A", "B", "AUTOMATED_SCAN"], 0.0, 0.0, 0.0, 0.0);
    var a2 := ActorView(["B", "A", "AUTOMATED_SCAN"], 0.0, 0.0, 0.0, 0.0);
    assert [boost][..0] == [];
    assert ApplyModifiers(a1, [boost], 1.0) == 2.0;
    assert ApplyModifiers(a2, [boost], 2.0) == 4.0;
    assert a1.tags[..2] == ["A", "B"] && a1.tags[..2][..1] == ["A"] && ["A"][..0] == [];
    assert BaseScore(profiles, a1, ["A"]) == 2.0;
    assert BaseScore(profiles, a1, ["A", "B"]) == 3.0;
    assert a2.tags[..2] == ["B", "A"] && a2.tags[..2][..1] == ["B"] && ["B"][..0] == [];
    assert BaseScore(profiles, a2, ["B"]) == 1.0;
    assert BaseScore(profiles, a2, ["B", "A"]) == 4.0;
  }

  // ---------------------------------------------------------------------------------------
  // Tag combinations

  /** The tag names of a `'+'`-joined combination key. */
  function KeyTags(key: string): seq<string> {
    Split(key, '+')
  }

  /** Whether every tag named by `key` is among `tags`. */
  predicate KeyMatches(key: string, tags: seq<string>) {
    forall k :: k in KeyTags(key) ==> k in tags
  }

  /** The product of the configured multipliers of the matching keys. */
  function ConfiguredCombination(combos: seq<(string, Combination)>, tags: seq<string>): real
    decreases |combos|
  {
    if combos == [] then 1.0
    else
      var prev := ConfiguredCombination(combos[..|combos| - 1], tags);
      var c := combos[|combos| - 1];
      if KeyMatches(c.0, tags) then prev * c.1.multiplier.GetOr(1.0) else prev
  }

  function CombinationDetails(key: string, c: Combination): string {
    match c.evidence
    case Some(e) => e
    case None => "Detected tag combination: " + key
  }

  /** The records the matching keys append, in configuration order. */
  function CombinationEvidence(combos: seq<(string, Combination)>, tags: seq<string>): seq<Record>
    decreases |combos|
  {
    if combos == [] then []
    else
      var c := combos[|combos| - 1];
      CombinationEvidence(combos[..|combos| - 1], tags)
      + (if KeyMatches(c.0, tags) then [RulesRecord("combination_detected", CombinationDetails(c.0, c.1), 0.8)] else [])
  }

  /** The number of configured keys that match. */
  function MatchCount(combos: seq<(string, Combination)>, tags: seq<string>): nat
    decreases |combos|
  {
    if combos == [] then 0
    else MatchCount(combos[..|combos| - 1], tags) + (if KeyMatches(combos[|combos| - 1].0, tags) then 1 else 0)
  }

  /** The factor from how the actor's tags interact; it appends no evidence. */
  function DynamicModifier(tags: seq<string>): real {
    var n := AttackCount(tags);
    var byCount := if n >= 3 then 2.0 else if n == 2 then 1.5 else 1.0;
    var coordination := if ("COORDINATOR" in tags || "COORDINATED_ATTACK" in tags) && n > 0 then 1.8 else 1.0;
    var automation := if ("AUTOMATED_SCAN" in tags || "MANUAL_SCAN" in tags) && n > 0 then 1.3 else 1.0;
    var anomaly := if "ANOMALOUS" in tags && n > 0 then 1.4 else 1.0;
    byCount * coordination * automation * anomaly
  }

  /** The dynamic factor lies between 1.0 and 2.0 × 1.8 × 1.3 × 1.4, and is 1.0 without attack tags. */
  lemma DynamicModifierRange(tags: seq<string>)
    ensures 1.0 <= DynamicModifier(tags) <= 6.552
    ensures AttackCount(tags) == 0 ==> DynamicModifier(tags) == 1.0
  {
    var n := AttackCount(tags);
    var byCount := if n >= 3 then 2.0 else if n == 2 then 1.5 else 1.0;
    var coordination := if ("COORDINATOR" in tags || "COORDINATED_ATTACK" in tags) && n > 0 then 1.8 else 1.0;
    var automation := if ("AUTOMATED_SCAN" in tags || "MANUAL_SCAN" in tags) && n > 0 then 1.3 else 1.0;
    assert 1.0 <= byCount * coordination <= 3.6;
    assert 1.0 <= byCount * coordination * automation <= 4.68;
  }

  function CombinationModifier(combos: seq<(string, Combination)>, tags: seq<string>): real {
    ConfiguredCombination(combos, tags) * DynamicModifier(tags)
  }

  /** Each matching key appends exactly one `combination_detected` record at 0.8. */
  lemma {:induction false} CombinationEvidenceShape(combos: seq<(string, Combination)>, tags: seq<string>)
    ensures |CombinationEvidence(combos, tags)| == MatchCount(combos, tags)
    ensures forall r :: r in CombinationEvidence(combos, tags) ==>
              r.source == "RulesEngine" && r.kind == "combination_detected" && r.confidence == Some(0.8)
    decreases |combos|
  {
    if combos != [] {
      CombinationEvidenceShape(combos[..|combos| - 1], tags);
    }
  }

  /** Adding tags never unmatches a key. */
  lemma KeyMatchesMonotone(key: string, tags: seq<string>, more: seq<string>)
    requires KeyMatches(key, tags)
    requires forall t :: t in tags ==> t in more
    ensures KeyMatches(key, more)
  {
  }

  /**
   * With every configured multiplier at least 1, the configured factor is at least 1 and
   * never decreases when the actor gains tags.
   */
  lemma {:induction false} ConfiguredCombinationMonotone(combos: seq<(string, Combination)>, tags: seq<string>, more: seq<string>)
    requires forall i :: 0 <= i < |combos| ==> combos[i].1.multiplier.GetOr(1.0) >= 1.0
    requires forall t :: t in tags ==> t in more
    ensures 1.0 <= ConfiguredCombination(combos, tags) <= ConfiguredCombination(combos, more)
    decreases |combos|
  {
    if combos != [] {
      var init := combos[..|combos| - 1];
      var c := combos[|combos| - 1];
      ConfiguredCombinationMonotone(init, tags, more);
      var p := ConfiguredCombination(init, tags);
      var q := ConfiguredCombination(init, more);
      var m := c.1.multiplier.GetOr(1.0);
      assert m >= 1.0 by { assert c == combos[|combos| - 1]; }
      if KeyMatches(c.0, tags) {
        KeyMatchesMonotone(c.0, tags, more);
        assert p * m <= q * m;
      } else if KeyMatches(c.0, more) {
        assert p <= q * m;
      }
    }
  }

  // ---------------------------------------------------------------------------------------
  // Contextual modifier

  /** Widespread automation: boost an automated scanner, damp everyone else. */
  function FftFactor(a: ActorView, ctx: Context): real {
    var s := SummaryOf(ctx, "fft_summary");
    if Present(s) && Get(s, "prevalence", 0.0) > 0.5 then
      (if "AUTOMATED_SCAN" in a.tags then 1.2 else 0.8)
    else 1.0
  }

  /** Centrality against the run's average. */
  function GraphFactor(a: ActorView, ctx: Context): real {
    var s := SummaryOf(ctx, "graph_summary");
    if Present(s) then
      var avg := Get(s, "avg_centrality", 0.0);
      if a.centrality > avg * 2.0 then 1.3
      else if a.centrality < avg * 0.5 then 0.9
      else 1.0
    else 1.0
  }

  /** An anomalous run: boost highly anomalous actors, damp the rest. */
  function AnomalyFactor(a: ActorView, ctx: Context): real {
    var s := SummaryOf(ctx, "anomaly_summary");
    if Present(s) && Get(s, "anomaly_rate", 0.0) > 0.3 then
      (if a.anomalyRatio > 0.7 then 1.4 else 0.7)
    else 1.0
  }

  /** A large cluster in the run and a coordinated actor. */
  function ClusterFactor(a: ActorView, ctx: Context): real {
    var s := SummaryOf(ctx, "clustering_summary");
    if Present(s) && Get(s, "largest_cluster", 0.0) >= 5.0
       && ("COORDINATED_ATTACK" in a.tags || "COORDINATOR" in a.tags) then 1.5
    else 1.0
  }

  function ContextualModifier(a: ActorView, ctx: Context): real {
    1.0 * FftFactor(a, ctx) * GraphFactor(a, ctx) * AnomalyFactor(a, ctx) * ClusterFactor(a, ctx)
  }

  /** Between all three dampers (0.8 × 0.9 × 0.7) and all four boosts (1.2 × 1.3 × 1.4 × 1.5). */
  lemma ContextualModifierRange(a: ActorView, ctx: Context)
    ensures 0.504 <= ContextualModifier(a, ctx) <= 3.276
    ensures ctx == map[] ==> ContextualModifier(a, ctx) == 1.0
  {
    var f, g, n := FftFactor(a, ctx), GraphFactor(a, ctx), AnomalyFactor(a, ctx);
    assert 0.72 <= f * g <= 1.56;
    assert 0.504 <= f * g * n <= 2.184;
  }

  function ContextRecord(details: string, confidence: real): Record {
    RulesRecord("contextual_modifier", details, confidence)
  }

  function FftEvidence(a: ActorView, ctx: Context): seq<Record> {
    var s := SummaryOf(ctx, "fft_summary");
    if Present(s) && Get(s, "prevalence", 0.0) > 0.5 && "AUTOMATED_SCAN" in a.tags then
      [ContextRecord("Part of widespread automated attack", 0.6)]
    else []
  }

  function GraphEvidence(a: ActorView, ctx: Context): seq<Record> {
    var s := SummaryOf(ctx, "graph_summary");
    if Present(s) && a.centrality > Get(s, "avg_centrality", 0.0) * 2.0 then
      [ContextRecord("High centrality in coordinated environment", 0.7)]
    else []
  }

  function AnomalyEvidence(a: ActorView, ctx: Context): seq<Record> {
    var s := SummaryOf(ctx, "anomaly_summary");
    if Present(s) && Get(s, "anomaly_rate", 0.0) > 0.3 && a.anomalyRatio > 0.7 then
      [ContextRecord("Highly anomalous in anomalous environment", 0.8)]
    else []
  }

  function ClusterEvidence(a: ActorView, ctx: Context): seq<Record> {
    var s := SummaryOf(ctx, "clustering_summary");
    if Present(s) && Get(s, "largest_cluster", 0.0) >= 5.0
       && ("COORDINATED_ATTACK" in a.tags || "COORDINATOR" in a.tags) then
      [ContextRecord("Part of large coordinated attack", 0.8)]
    else []
  }

  /** The contextual records, in the order the summaries are consulted. */
  function ContextualEvidence(a: ActorView, ctx: Context): seq<Record> {
    FftEvidence(a, ctx) + GraphEvidence(a, ctx) + AnomalyEvidence(a, ctx) + ClusterEvidence(a, ctx)
  }

  lemma AppendFour(e: seq<Record>, a: seq<Record>, b: seq<Record>, c: seq<Record>, d: seq<Record>)
    ensures e + (a + b + c + d) == e + a + b + c + d
  {
  }

  /**
   * Each summary appends a record exactly when its factor is a boost (above 1); the dampers
   * append nothing, and an empty context appends nothing at all.
   */
  lemma ContextualEvidenceIsBoosts(a: ActorView, ctx: Context)
    ensures FftEvidence(a, ctx) != [] <==> FftFactor(a, ctx) > 1.0
    ensures GraphEvidence(a, ctx) != [] <==> GraphFactor(a, ctx) > 1.0
    ensures AnomalyEvidence(a, ctx) != [] <==> AnomalyFactor(a, ctx) > 1.0
    ensures ClusterEvidence(a, ctx) != [] <==> ClusterFactor(a, ctx) > 1.0
  {
  }

  /** One `contextual_modifier` record per boost applied, none for an empty context. */
  lemma ContextualEvidenceCount(a: ActorView, ctx: Context)
    ensures |ContextualEvidence(a, ctx)|
         == (if FftFactor(a, ctx) > 1.0 then 1 else 0) + (if GraphFactor(a, ctx) > 1.0 then 1 else 0)
          + (if AnomalyFactor(a, ctx) > 1.0 then 1 else 0) + (if ClusterFactor(a, ctx) > 1.0 then 1 else 0)
    ensures forall r :: r in ContextualEvidence(a, ctx) ==> r.kind == "contextual_modifier"
    ensures ctx == map[] ==> ContextualEvidence(a, ctx) == []
  {
    ContextualEvidenceIsBoosts(a, ctx);
    var f, g, n, c := FftEvidence(a, ctx), GraphEvidence(a, ctx), AnomalyEvidence(a, ctx), ClusterEvidence(a, ctx);
    assert |f| <= 1 && |g| <= 1 && |n| <= 1 && |c| <= 1;
    assert |ContextualEvidence(a, ctx)| == |f| + |g| + |n| + |c|;
  }

  // ---------------------------------------------------------------------------------------
  // Global modifier

  const SummaryNames: seq<string> := ["fft_summary", "graph_summary", "anomaly_summary", "clustering_summary"]

  /** The largest `total_actors` among the present summaries named in `names`, or 0. */
  function TotalActorsOver(ctx: Context, names: seq<string>): real
    decreases |names|
  {
    if names == [] then 0.0
    else
      var prev := TotalActorsOver(ctx, names[..|names| - 1]);
      var s := SummaryOf(ctx, names[|names| - 1]);
      if Present(s) && Get(s, "total_actors", 0.0) > prev then Get(s, "total_actors", 0.0) else prev
  }

  function TotalActors(ctx: Context): real {
    TotalActorsOver(ctx, SummaryNames)
  }

  /** The actor count is a maximum: at least 0 and every present summary's count, and one of them. */
  lemma {:induction false} TotalActorsIsMax(ctx: Context, names: seq<string>)
    ensures TotalActorsOver(ctx, names) >= 0.0
    ensures forall n :: n in names && Present(SummaryOf(ctx, n)) ==>
              TotalActorsOver(ctx, names) >= Get(SummaryOf(ctx, n), "total_actors", 0.0)
    ensures TotalActorsOver(ctx, names) == 0.0
         || exists n :: n in names && Present(SummaryOf(ctx, n))
                     && TotalActorsOver(ctx, names) == Get(SummaryOf(ctx, n), "total_actors", 0.0)
    decreases |names|
  {
    if names != [] {
      var init := names[..|names| - 1];
      TotalActorsIsMax(ctx, init);
      assert forall n :: n in names ==> n in init || n == names[|names| - 1];
      if TotalActorsOver(ctx, names) != 0.0 && TotalActorsOver(ctx, names) != TotalActorsOver(ctx, init) {
        assert names[|names| - 1] in names;
      }
    }
  }

  function ScaleFactor(ctx: Context): real {
    if TotalActors(ctx) > 100.0 then 1.2 else if TotalActors(ctx) > 50.0 then 1.1 else 1.0
  }

  function CoordinationFactor(ctx: Context): real {
    if Get(SummaryOf(ctx, "graph_summary"), "coordinators", 0.0) > 5.0 then 1.3 else 1.0
  }

  function AnomalyRateFactor(ctx: Context): real {
    if Get(SummaryOf(ctx, "anomaly_summary"), "anomalies", 0.0) > 10.0 then 1.2 else 1.0
  }

  /** The landscape factor: it reads only the context, never the actor. */
  function GlobalModifier(ctx: Context): real {
    ScaleFactor(ctx) * CoordinationFactor(ctx) * AnomalyRateFactor(ctx)
  }

  /** Between 1.0 and 1.2 × 1.3 × 1.2. */
  lemma GlobalModifierRange(ctx: Context)
    ensures 1.0 <= GlobalModifier(ctx) <= 1.872
  {
    assert 1.0 <= ScaleFactor(ctx) * CoordinationFactor(ctx) <= 1.56;
  }

  function GlobalEvidence(ctx: Context): seq<Record> {
    (if TotalActors(ctx) > 100.0 then [RulesRecord("global_modifier", "Large-scale attack detected", 0.7)]
     else if TotalActors(ctx) > 50.0 then [RulesRecord("global_modifier", "Medium-scale attack detected", 0.6)]
     else [])
    + (if CoordinationFactor(ctx) > 1.0 then [RulesRecord("global_modifier", "Highly coordinated attack", 0.8)] else [])
    + (if AnomalyRateFactor(ctx) > 1.0 then [RulesRecord("global_modifier", "High anomaly rate", 0.7)] else [])
  }

  /** One record per global factor applied; the two scale factors never both apply. */
  lemma GlobalEvidenceCountsFactors(ctx: Context)
    ensures |GlobalEvidence(ctx)|
         == (if ScaleFactor(ctx) > 1.0 then 1 else 0) + (if CoordinationFactor(ctx) > 1.0 then 1 else 0)
          + (if AnomalyRateFactor(ctx) > 1.0 then 1 else 0)
    ensures ScaleFactor(ctx) in {1.0, 1.1, 1.2}
    ensures ctx == map[] ==> GlobalModifier(ctx) == 1.0 && GlobalEvidence(ctx) == []
  {
    if ctx == map[] {
      TotalActorsIsMax(ctx, SummaryNames);
    }
  }

  // ---------------------------------------------------------------------------------------
  // The final score

  /** `final_score`: the product of the four factors. */
  function FinalScore(base: real, combination: real, contextual: real, global: real): real {
    base * combination * contextual * global
  }

  function Score(cfg: Config, a: ActorView, ctx: Context): real {
    FinalScore(BaseScore(cfg.scoringProfiles, a, a.tags), CombinationModifier(cfg.tagCombinations, a.tags),
               ContextualModifier(a, ctx), GlobalModifier(ctx))
  }

  function ScoreEvidence(cfg: Config, a: ActorView, ctx: Context): seq<Record> {
    BaseEvidence(cfg.scoringProfiles, a, a.tags) + CombinationEvidence(cfg.tagCombinations, a.tags)
    + ContextualEvidence(a, ctx) + GlobalEvidence(ctx)
  }

  /** No tags, no score; with an empty context also no evidence. */
  lemma NoTagsScoresZero(cfg: Config, a: ActorView, ctx: Context)
    requires a.tags == []
    ensures Score(cfg, a, ctx) == 0.0
    ensures ctx == map[] ==> ScoreEvidence(cfg, a, ctx) == []
  {
    assert BaseScore(cfg.scoringProfiles, a, a.tags) == 0.0;
    assert BaseEvidence(cfg.scoringProfiles, a, a.tags) == [];
    NoTagsNoCombination(cfg.tagCombinations);
    if ctx == map[] {
      GlobalEvidenceCountsFactors(ctx);
      ContextualEvidenceCount(a, ctx);
      assert ScoreEvidence(cfg, a, ctx) == [] + [] + [] + [];
    }
  }

  /** With no tags, only keys naming no tag at all could match; Split never yields no pieces. */
  lemma {:induction false} NoTagsNoCombination(combos: seq<(string, Combination)>)
    ensures CombinationEvidence(combos, []) == []
    decreases |combos|
  {
    if combos != [] {
      NoTagsNoCombination(combos[..|combos| - 1]);
      var key := combos[|combos| - 1].0;
      assert KeyTags(key)[0] in KeyTags(key);
    }
  }

  /**
   * A single `LFI_RFI` tag with base score 8.0 and no modifiers, no combinations and an empty
   * context scores 8.0 with no evidence.
   */
  lemma SingleTagScore()
    ensures
      var cfg := Config(map["LFI_RFI" := Profile(Some(8.0), [])], [], map[]);
      var a := ActorView(["LFI_RFI"], 0.0, 0.0, 0.0, 0.0);
      Score(cfg, a, map[]) == 8.0 && ScoreEvidence(cfg, a, map[]) == []
  {
    var cfg := Config(map["LFI_RFI" := Profile(Some(8.0), [])], [], map[]);
    var a := ActorView(["LFI_RFI"], 0.0, 0.0, 0.0, 0.0);
    assert a.tags[..0] == [];
    assert BaseScore(cfg.scoringProfiles, a, a.tags) == 8.0;
    assert DynamicModifier(a.tags) == 1.0;
    GlobalEvidenceCountsFactors(map[]);
  }

  // ---------------------------------------------------------------------------------------
  // The engine

  class ScoringRulesEngine {
    const config: Config

    constructor (config: Config)
      ensures this.config == config
    {
      this.config := config;
    }

    /** Scores an actor against the run context, collecting the evidence of every rule that fired. */
    method CalculateScore(actor: Models.Actor, ctx: Context) returns (score: real, evidence: seq<Record>)
      ensures score == Score(config, ViewOf(actor), ctx)
      ensures evidence == ScoreEvidence(config, ViewOf(actor), ctx)
    {
      var a := ViewOf(actor);
      var base, ev1 := CalculateBaseScore(a, []);
      assert ev1 == BaseEvidence(config.scoringProfiles, a, a.tags);
      var combination, ev2 := CalculateTagCombinationModifier(a.tags, ev1);
      var contextual, ev3 := CalculateContextualModifier(a, ctx, ev2);
      var global, ev4 := CalculateGlobalModifier(ctx, ev3);
      score := FinalScore(base, combination, contextual, global);
      evidence := ev4;
    }

    /** Sums the profiled tags' base scores, letting each satisfied modifier scale the running sum. */
    method CalculateBaseScore(a: ActorView, evidence: seq<Record>) returns (score: real, evidence': seq<Record>)
      ensures score == BaseScore(config.scoringProfiles, a, a.tags)
      ensures evidence' == evidence + BaseEvidence(config.scoringProfiles, a, a.tags)
    {
      score := 0.0;
      evidence' := evidence;
      var i := 0;
      while i < |a.tags|
        invariant 0 <= i <= |a.tags|
        invariant score == BaseScore(config.scoringProfiles, a, a.tags[..i])
        invariant evidence' == evidence + BaseEvidence(config.scoringProfiles, a, a.tags[..i])
      {
        var tag := a.tags[i];
        assert a.tags[..i + 1][..i] == a.tags[..i];
        if tag in config.scoringProfiles {
          var profile := config.scoringProfiles[tag];
          score := score + profile.baseScore.GetOr(0.0);
          score, evidence' := ApplyProfileModifiers(a, tag, profile.modifiers, score, evidence');
        }
        i := i + 1;
      }
      assert a.tags[..i] == a.tags;
    }

    /** The inner loop over one profile's modifiers. */
    method ApplyProfileModifiers(a: ActorView, tag: string, mods: seq<Modifier>, score: real, evidence: seq<Record>)
      returns (score': real, evidence': seq<Record>)
      ensures score' == ApplyModifiers(a, mods, score)
      ensures evidence' == evidence + ModifierEvidence(a, tag, mods)
    {
      score', evidence' := score, evidence;
      var j := 0;
      while j < |mods|
        invariant 0 <= j <= |mods|
        invariant score' == ApplyModifiers(a, mods[..j], score)
        invariant evidence' == evidence + ModifierEvidence(a, tag, mods[..j])
      {
        var m := mods[j];
        assert mods[..j + 1][..j] == mods[..j];
        if EvaluateCondition(a, m) {
          score' := score' * ModifierValue(m);
          evidence' := evidence' + [RulesRecord("modifier_applied", ModifierDetails(tag, m), 0.7)];
        }
        j := j + 1;
      }
      assert mods[..j] == mods;
    }

    /** Multiplies the matching configured combinations, then the dynamic factor. */
    method CalculateTagCombinationModifier(tags: seq<string>, evidence: seq<Record>)
      returns (modifier: real, evidence': seq<Record>)
      ensures modifier == CombinationModifier(config.tagCombinations, tags)
      ensures evidence' == evidence + CombinationEvidence(config.tagCombinations, tags)
    {
      modifier, evidence' := MatchCombinations(config.tagCombinations, tags, evidence);
      modifier := modifier * DynamicModifier(tags);
    }

    /** The loop over the configured combinations: multiplies and logs each matching key. */
    method MatchCombinations(combos: seq<(string, Combination)>, tags: seq<string>, evidence: seq<Record>)
      returns (modifier: real, evidence': seq<Record>)
      ensures modifier == ConfiguredCombination(combos, tags)
      ensures evidence' == evidence + CombinationEvidence(combos, tags)
    {
      modifier := 1.0;
      evidence' := evidence;
      var i := 0;
      while i < |combos|
        invariant 0 <= i <= |combos|
        invariant modifier == ConfiguredCombination(combos[..i], tags)
        invariant evidence' == evidence + CombinationEvidence(combos[..i], tags)
      {
        var (key, c) := combos[i];
        assert combos[..i + 1][..i] == combos[..i];
        if KeyMatches(key, tags) {
          modifier := modifier * c.multiplier.GetOr(1.0);
          evidence' := evidence' + [RulesRecord("combination_detected", CombinationDetails(key, c), 0.8)];
        }
        i := i + 1;
      }
      assert combos[..i] == combos;
    }

    /** Adjusts for the actor's standing among the detector summaries of the run. */
    method CalculateContextualModifier(a: ActorView, ctx: Context, evidence: seq<Record>)
      returns (modifier: real, evidence': seq<Record>)
      ensures modifier == ContextualModifier(a, ctx)
      ensures evidence' == evidence + ContextualEvidence(a, ctx)
    {
      modifier, evidence' := FftContext(a, ctx, 1.0, evidence);
      modifier, evidence' := GraphContext(a, ctx, modifier, evidence');
      modifier, evidence' := AnomalyContext(a, ctx, modifier, evidence');
      modifier, evidence' := ClusterContext(a, ctx, modifier, evidence');
      assert evidence' == evidence + ContextualEvidence(a, ctx) by {
        AppendFour(evidence, FftEvidence(a, ctx), GraphEvidence(a, ctx), AnomalyEvidence(a, ctx), ClusterEvidence(a, ctx));
      }
    }

    /** Widespread automation in the FFT summary. */
    method FftContext(a: ActorView, ctx: Context, modifier: real, evidence: seq<Record>)
      returns (modifier': real, evidence': seq<Record>)
      ensures modifier' == modifier * FftFactor(a, ctx)
      ensures evidence' == evidence + FftEvidence(a, ctx)
    {
      modifier', evidence' := modifier, evidence;
      var fft := SummaryOf(ctx, "fft_summary");
      if Present(fft) && Get(fft, "prevalence", 0.0) > 0.5 {
        if "AUTOMATED_SCAN" in a.tags {
          modifier' := modifier' * 1.2;
          evidence' := evidence' + [RulesRecord("contextual_modifier", "Part of widespread automated attack", 0.6)];
        } else {
          modifier' := modifier' * 0.8;
        }
      }
    }

    /** Centrality against the graph summary's average. */
    method GraphContext(a: ActorView, ctx: Context, modifier: real, evidence: seq<Record>)
      returns (modifier': real, evidence': seq<Record>)
      ensures modifier' == modifier * GraphFactor(a, ctx)
      ensures evidence' == evidence + GraphEvidence(a, ctx)
    {
      modifier', evidence' := modifier, evidence;
      var graph := SummaryOf(ctx, "graph_summary");
      if Present(graph) {
        var avg := Get(graph, "avg_centrality", 0.0);
        if a.centrality > avg * 2.0 {
          modifier' := modifier' * 1.3;
          evidence' := evidence' + [RulesRecord("contextual_modifier", "High centrality in coordinated environment", 0.7)];
        } else if a.centrality < avg * 0.5 {
          modifier' := modifier' * 0.9;
        }
      }
    }

    /** The anomaly summary's rate against the actor's own anomaly ratio. */
    method AnomalyContext(a: ActorView, ctx: Context, modifier: real, evidence: seq<Record>)
      returns (modifier': real, evidence': seq<Record>)
      ensures modifier' == modifier * AnomalyFactor(a, ctx)
      ensures evidence' == evidence + AnomalyEvidence(a, ctx)
    {
      modifier', evidence' := modifier, evidence;
      var anomaly := SummaryOf(ctx, "anomaly_summary");
      if Present(anomaly) && Get(anomaly, "anomaly_rate", 0.0) > 0.3 {
        if a.anomalyRatio > 0.7 {
          modifier' := modifier' * 1.4;
          evidence' := evidence' + [RulesRecord("contextual_modifier", "Highly anomalous in anomalous environment", 0.8)];
        } else {
          modifier' := modifier' * 0.7;
        }
      }
    }

    /** A large cluster in the clustering summary and a coordinated actor. */
    method ClusterContext(a: ActorView, ctx: Context, modifier: real, evidence: seq<Record>)
      returns (modifier': real, evidence': seq<Record>)
      ensures modifier' == modifier * ClusterFactor(a, ctx)
      ensures evidence' == evidence + ClusterEvidence(a, ctx)
    {
      modifier', evidence' := modifier, evidence;
      var clustering := SummaryOf(ctx, "clustering_summary");
      if Present(clustering) && Get(clustering, "largest_cluster", 0.0) >= 5.0
         && ("COORDINATED_ATTACK" in a.tags || "COORDINATOR" in a.tags) {
        modifier' := modifier' * 1.5;
        evidence' := evidence' + [RulesRecord("contextual_modifier", "Part of large coordinated attack", 0.8)];
      }
    }

    /** Adjusts for the scale, coordination and anomaly rate of the whole run. */
    method CalculateGlobalModifier(ctx: Context, evidence: seq<Record>) returns (modifier: real, evidence': seq<Record>)
      ensures modifier == GlobalModifier(ctx)
      ensures evidence' == evidence + GlobalEvidence(ctx)
    {
      modifier := 1.0;
      evidence' := evidence;
      var total := 0.0;
      var i := 0;
      while i < |SummaryNames|
        invariant 0 <= i <= |SummaryNames|
        invariant total == TotalActorsOver(ctx, SummaryNames[..i])
      {
        var summary := SummaryOf(ctx, SummaryNames[i]);
        assert SummaryNames[..i + 1][..i] == SummaryNames[..i];
        if Present(summary) && Get(summary, "total_actors", 0.0) > total {
          total := Get(summary, "total_actors", 0.0);
        }
        i := i + 1;
      }
      assert SummaryNames[..i] == SummaryNames;
      if total > 100.0 {
        modifier := modifier * 1.2;
        evidence' := evidence' + [RulesRecord("global_modifier", "Large-scale attack detected", 0.7)];
      } else if total > 50.0 {
        modifier := modifier * 1.1;
        evidence' := evidence' + [RulesRecord("global_modifier", "Medium-scale attack detected", 0.6)];
      }
      if Get(SummaryOf(ctx, "graph_summary"), "coordinators", 0.0) > 5.0 {
        modifier := modifier * 1.3;
        evidence' := evidence' + [RulesRecord("global_modifier", "Highly coordinated attack", 0.8)];
      }
      if Get(SummaryOf(ctx, "anomaly_summary"), "anomalies", 0.0) > 10.0 {
        modifier := modifier * 1.2;
        evidence' := evidence' + [RulesRecord("global_modifier", "High anomaly rate", 0.7)];
      }
    }
  }
}
