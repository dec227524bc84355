/**
 * The meta-detector cross-validates the other detectors: for every actor with evidence it
 * looks for patterns that confirm or contradict each other, tags the actor with every
 * pattern that fired, raises or lowers (clamped to [0, 1]) the confidence of the records
 * the pattern names by source, and appends one summary record per category.
 */
module MetaDetection {
  import opened Wrappers
  import opened Text
  import opened Seqs
  import opened Evidence
  import opened Models

  /** A confirmation or contradiction; only contradictions carry a `penalty`. */
  datatype Pattern = Pattern(
    kind: string,
    confidence: real,
    description: string,
    sources: seq<string>,
    penalty: Option<real>)

  const BotnetPattern := Pattern("CONFIRMED_BOTNET", 0.95,
    "Multiple detectors confirm automated bot activity",
    ["FFTDetector", "BehavioralClusteringDetector"], None)
  const CoordinatedPattern := Pattern("CONFIRMED_COORDINATED", 0.9,
    "Graph analysis confirms coordinated attack patterns",
    ["GraphDetector", "AnomalyDetector"], None)
  const SophisticatedPattern := Pattern("CONFIRMED_SOPHISTICATED", 0.85,
    "Multiple attack vectors detected with high confidence",
    ["HeuristicEnricher", "FFTDetector", "AnomalyDetector"], None)
  const IsolatedPattern := Pattern("ISOLATED_INDICATOR", 0.6,
    "Single attack indicator without supporting evidence",
    ["HeuristicEnricher"], Some(0.3))
  const FalsePositivePattern := Pattern("FALSE_POSITIVE", 0.7,
    "Normal behavior patterns contradict threat indicators",
    ["AnomalyDetector", "GraphDetector"], Some(0.4))
  const TimingPattern := Pattern("INCONSISTENT_TIMING", 0.5,
    "Timing patterns inconsistent with automated behavior",
    ["FFTDetector"], Some(0.2))

  // ---------------------------------------------------------------------------------------
  // The patterns

  /** Some record's source names the component `name`. */
  predicate HasSource(trail: seq<Record>, name: string) {
    exists i :: 0 <= i < |trail| && Contains(trail[i].source, name)
  }

  function Indicator(b: bool): nat {
    if b then 1 else 0
  }

  /** At least two of the FFT, clustering and anomaly detectors left evidence. */
  predicate ConfirmBotnet(trail: seq<Record>) {
    Indicator(HasSource(trail, "FFTDetector")) + Indicator(HasSource(trail, "BehavioralClusteringDetector"))
    + Indicator(HasSource(trail, "AnomalyDetector")) >= 2
  }

  /** Both the graph and the anomaly detector left evidence. */
  predicate ConfirmCoordinated(trail: seq<Record>) {
    HasSource(trail, "GraphDetector") && HasSource(trail, "AnomalyDetector")
  }

  /** How many of the meta-detector's four attack tags the actor carries. */
  function AttackTagCount(tags: seq<string>): nat {
    Indicator("LFI_ATTACK" in tags) + Indicator("SQLI_ATTACK" in tags)
    + Indicator("XSS_ATTACK" in tags) + Indicator("PATH_TRAVERSAL" in tags)
  }

  /** Two attack vectors and heuristic or temporal evidence. */
  predicate ConfirmSophisticated(trail: seq<Record>, tags: seq<string>) {
    AttackTagCount(tags) >= 2 && (HasSource(trail, "HeuristicEnricher") || HasSource(trail, "FFTDetector"))
  }

  /** An attack tag backed by nothing but one heuristic record. */
  predicate IsolatedIndicator(trail: seq<Record>, tags: seq<string>) {
    AttackTagCount(tags) > 0
    && (forall i :: 0 <= i < |trail| ==> Contains(trail[i].source, "HeuristicEnricher"))
    && |trail| == 1
  }

  /** Some record from `source` whose lower-cased description mentions `phrase`. */
  predicate DescribedBy(trail: seq<Record>, source: string, phrase: string) {
    exists i :: 0 <= i < |trail| && Contains(trail[i].source, source) && Contains(Lower(trail[i].description), phrase)
  }

  /** The anomaly detector called the actor normal, or the graph detector saw low centrality. */
  predicate FalsePositive(trail: seq<Record>) {
    DescribedBy(trail, "AnomalyDetector", "normal") || DescribedBy(trail, "GraphDetector", "low centrality")
  }

  /** The FFT detector found no rhythm, yet the actor is tagged as a bot. */
  predicate InconsistentTiming(trail: seq<Record>, tags: seq<string>) {
    HasSource(trail, "FFTDetector") && DescribedBy(trail, "FFTDetector", "no rhythmic") && "BOT_ACTIVITY" in tags
  }

  function Fire(b: bool, p: Pattern): seq<Pattern> {
    if b then [p] else []
  }

  /** The confirmations that fire, in the order they are checked. */
  function Confirmations(trail: seq<Record>, tags: seq<string>): seq<Pattern> {
    Fire(ConfirmBotnet(trail), BotnetPattern) + Fire(ConfirmCoordinated(trail), CoordinatedPattern)
    + Fire(ConfirmSophisticated(trail, tags), SophisticatedPattern)
  }

  /** The contradictions that fire, in the order they are checked. */
  function Contradictions(trail: seq<Record>, tags: seq<string>): seq<Pattern> {
    Fire(IsolatedIndicator(trail, tags), IsolatedPattern) + Fire(FalsePositive(trail), FalsePositivePattern)
    + Fire(InconsistentTiming(trail, tags), TimingPattern)
  }

  /** An isolated indicator is exactly an attack tag with a single, heuristic record. */
  lemma IsolatedIndicatorIff(trail: seq<Record>, tags: seq<string>)
    ensures IsolatedIndicator(trail, tags)
        <==> AttackTagCount(tags) > 0 && |trail| == 1 && Contains(trail[0].source, "HeuristicEnricher")
  {
  }

  /**
   * The false-positive and timing checks read a record's source and description only: two
   * trails that agree on those give the same answers, whatever their kinds, details and
   * confidences.
   */
  lemma DescriptionChecksIgnoreOtherFields(t1: seq<Record>, t2: seq<Record>, tags: seq<string>)
    requires |t1| == |t2|
    requires forall i :: 0 <= i < |t1| ==> t1[i].source == t2[i].source && t1[i].description == t2[i].description
    ensures FalsePositive(t1) <==> FalsePositive(t2)
    ensures InconsistentTiming(t1, tags) <==> InconsistentTiming(t2, tags)
  {
    assert forall name :: HasSource(t1, name) ==> HasSource(t2, name);
    assert forall name :: HasSource(t2, name) ==> HasSource(t1, name);
    assert forall s, p :: DescribedBy(t1, s, p) ==> DescribedBy(t2, s, p);
    assert forall s, p :: DescribedBy(t2, s, p) ==> DescribedBy(t1, s, p);
  }

  /** Every contradiction carries its own penalty; no confirmation does. */
  lemma PatternPenalties(trail: seq<Record>, tags: seq<string>)
    ensures forall p :: p in Contradictions(trail, tags) ==> p.penalty.Some? && 0.2 <= p.penalty.value <= 0.4
    ensures forall p :: p in Confirmations(trail, tags) ==> p.penalty.None?
    ensures |Confirmations(trail, tags)| <= 3 && |Contradictions(trail, tags)| <= 3
  {
  }

  // ---------------------------------------------------------------------------------------
  // Adjusting confidences

  /** The record's source contains one of the pattern's source names. */
  predicate MatchesAny(r: Record, sources: seq<string>) {
    exists s :: s in sources && Contains(r.source, s)
  }

  function Min(a: real, b: real): real {
    if a <= b then a else b
  }

  function MaxReal(a: real, b: real): real {
    if a >= b then a else b
  }

  /** `min(1.0, confidence + boost)`, a missing confidence read as 0.0. */
  function Raised(r: Record, boost: real): Record {
    r.(confidence := Some(Min(1.0, ConfidenceOf(r) + boost)))
  }

  /** `max(0.0, confidence - penalty)`, a missing confidence read as 0.0. */
  function Lowered(r: Record, penalty: real): Record {
    r.(confidence := Some(MaxReal(0.0, ConfidenceOf(r) - penalty)))
  }

  /** One pattern's boost over the whole trail. */
  function Boosted(trail: seq<Record>, sources: seq<string>, boost: real): (t: seq<Record>)
    ensures |t| == |trail|
  {
    seq(|trail|, i requires 0 <= i < |trail| => if MatchesAny(trail[i], sources) then Raised(trail[i], boost) else trail[i])
  }

  /** One pattern's penalty over the whole trail. */
  function Penalized(trail: seq<Record>, sources: seq<string>, penalty: real): (t: seq<Record>)
    ensures |t| == |trail|
  {
    seq(|trail|, i requires 0 <= i < |trail| => if MatchesAny(trail[i], sources) then Lowered(trail[i], penalty) else trail[i])
  }

  /** The trail after every confirmation's boost, in order. */
  function BoostAll(trail: seq<Record>, confirmations: seq<Pattern>, boost: real): (t: seq<Record>)
    ensures |t| == |trail|
    decreases |confirmations|
  {
    if confirmations == [] then trail
    else
      var n := |confirmations| - 1;
      Boosted(BoostAll(trail, confirmations[..n], boost), confirmations[n].sources, boost)
  }

  /** The trail after every contradiction's penalty, in order; `fallback` for a pattern without one. */
  function PenalizeAll(trail: seq<Record>, contradictions: seq<Pattern>, fallback: real): (t: seq<Record>)
    ensures |t| == |trail|
    decreases |contradictions|
  {
    if contradictions == [] then trail
    else
      var n := |contradictions| - 1;
      Penalized(PenalizeAll(trail, contradictions[..n], fallback), contradictions[n].sources,
                contradictions[n].penalty.GetOr(fallback))
  }

  /** The tag set after adding each pattern's type. */
  function AddKinds(tags: seq<string>, patterns: seq<Pattern>): seq<string>
    decreases |patterns|
  {
    if patterns == [] then tags
    else
      var n := |patterns| - 1;
      AddUnique(AddKinds(tags, patterns[..n]), patterns[n].kind)
  }

  predicate InUnitRange(trail: seq<Record>) {
    forall i :: 0 <= i < |trail| ==> 0.0 <= ConfidenceOf(trail[i]) <= 1.0
  }

  /**
   * A boost or penalty changes exactly the records whose source matches, to the clamped
   * value; the others are untouched.
   */
  lemma AdjustedRecords(trail: seq<Record>, sources: seq<string>, amount: real)
    ensures forall i :: 0 <= i < |trail| && !MatchesAny(trail[i], sources) ==>
              Boosted(trail, sources, amount)[i] == trail[i] && Penalized(trail, sources, amount)[i] == trail[i]
    ensures forall i :: 0 <= i < |trail| && MatchesAny(trail[i], sources) ==>
              Boosted(trail, sources, amount)[i].confidence == Some(Min(1.0, ConfidenceOf(trail[i]) + amount))
              && Penalized(trail, sources, amount)[i].confidence == Some(MaxReal(0.0, ConfidenceOf(trail[i]) - amount))
    ensures forall i :: 0 <= i < |trail| ==>
              Boosted(trail, sources, amount)[i].source == trail[i].source
              && Penalized(trail, sources, amount)[i].source == trail[i].source
  {
  }

  /** With non-negative amounts, confidences in [0, 1] stay in [0, 1] through every adjustment. */
  lemma {:induction false} BoostAllKeepsUnitRange(trail: seq<Record>, confirmations: seq<Pattern>, boost: real)
    requires InUnitRange(trail) && boost >= 0.0
    ensures InUnitRange(BoostAll(trail, confirmations, boost))
    decreases |confirmations|
  {
    if confirmations != [] {
      var n := |confirmations| - 1;
      BoostAllKeepsUnitRange(trail, confirmations[..n], boost);
    }
  }

  lemma {:induction false} PenalizeAllKeepsUnitRange(trail: seq<Record>, contradictions: seq<Pattern>, fallback: real)
    requires InUnitRange(trail)
    requires fallback >= 0.0
    requires forall p :: p in contradictions ==> p.penalty.GetOr(fallback) >= 0.0
    ensures InUnitRange(PenalizeAll(trail, contradictions, fallback))
    decreases |contradictions|
  {
    if contradictions != [] {
      var n := |contradictions| - 1;
      assert forall p :: p in contradictions[..n] ==> p in contradictions;
      assert contradictions[n] in contradictions;
      PenalizeAllKeepsUnitRange(trail, contradictions[..n], fallback);
    }
  }

  /** Patterns that all carry their own penalty never read the fallback. */
  lemma {:induction false} FallbackPenaltyUnused(trail: seq<Record>, contradictions: seq<Pattern>, f1: real, f2: real)
    requires forall p :: p in contradictions ==> p.penalty.Some?
    ensures PenalizeAll(trail, contradictions, f1) == PenalizeAll(trail, contradictions, f2)
    decreases |contradictions|
  {
    if contradictions != [] {
      var n := |contradictions| - 1;
      assert forall p :: p in contradictions[..n] ==> p in contradictions;
      assert contradictions[n] in contradictions;
      FallbackPenaltyUnused(trail, contradictions[..n], f1, f2);
    }
  }

  /** Every pattern's type ends up among the tags, and no tag is lost. */
  lemma {:induction false} AddKindsProps(tags: seq<string>, patterns: seq<Pattern>)
    ensures forall t :: t in tags ==> t in AddKinds(tags, patterns)
    ensures forall p :: p in patterns ==> p.kind in AddKinds(tags, patterns)
    ensures forall t :: t in AddKinds(tags, patterns) ==> t in tags || exists p :: p in patterns && p.kind == t
    ensures NoDups(tags) ==> NoDups(AddKinds(tags, patterns))
    decreases |patterns|
  {
    if patterns != [] {
      var n := |patterns| - 1;
      AddKindsProps(tags, patterns[..n]);
      if NoDups(tags) {
        AddUniqueProps(AddKinds(tags, patterns[..n]), patterns[n].kind);
      }
      assert forall p :: p in patterns ==> p in patterns[..n] || p == patterns[n];
      assert forall p :: p in patterns[..n] ==> p in patterns;
    }
  }

  // ---------------------------------------------------------------------------------------
  // One actor

  /** The summary records: one per non-empty category. */
  function MetaRecords(confirmed: nat, contradicted: nat): seq<Record> {
    (if confirmed > 0
     then [Described("MetaDetector", "Cross-validation confirmed " + NatToString(confirmed) + " threat patterns", 0.9)]
     else [])
    + (if contradicted > 0
       then [Described("MetaDetector", "Resolved " + NatToString(contradicted) + " contradictory indicators", 0.8)]
       else [])
  }

  /** The trail after one actor is processed; patterns are found on the trail and tags as they were. */
  function MetaTrail(trail: seq<Record>, tags: seq<string>, boost: real, fallback: real): seq<Record> {
    if trail == [] then trail
    else
      var c := Confirmations(trail, tags);
      var d := Contradictions(trail, tags);
      PenalizeAll(BoostAll(trail, c, boost), d, fallback) + MetaRecords(|c|, |d|)
  }

  /** The tags after one actor is processed. */
  function MetaTags(trail: seq<Record>, tags: seq<string>): seq<string> {
    if trail == [] then tags
    else AddKinds(AddKinds(tags, Confirmations(trail, tags)), Contradictions(trail, tags))
  }

  /**
   * The adjusted records keep their place and the summary records come last, so a summary
   * record is never adjusted in the run that appends it; there is at most one per category.
   */
  lemma MetaTrailShape(trail: seq<Record>, tags: seq<string>, boost: real, fallback: real)
    requires trail != []
    ensures var t := MetaTrail(trail, tags, boost, fallback);
            var c := Confirmations(trail, tags);
            var d := Contradictions(trail, tags);
            |t| == |trail| + Indicator(c != []) + Indicator(d != [])
            && t[|trail|..] == MetaRecords(|c|, |d|)
            && forall i :: |trail| <= i < |t| ==> t[i].source == "MetaDetector"
  {
    var c := Confirmations(trail, tags);
    var d := Contradictions(trail, tags);
    var adjusted := PenalizeAll(BoostAll(trail, c, boost), d, fallback);
    var m := MetaRecords(|c|, |d|);
    assert |adjusted| == |trail|;
    assert MetaTrail(trail, tags, boost, fallback) == adjusted + m;
    MetaRecordsShape(|c|, |d|);
  }

  lemma MetaRecordsShape(confirmed: nat, contradicted: nat)
    ensures |MetaRecords(confirmed, contradicted)| == Indicator(confirmed > 0) + Indicator(contradicted > 0)
    ensures forall r :: r in MetaRecords(confirmed, contradicted) ==> r.source == "MetaDetector"
  {
  }

  /** With non-negative boost and fallback, processing keeps every confidence in [0, 1]. */
  lemma MetaTrailKeepsUnitRange(trail: seq<Record>, tags: seq<string>, boost: real, fallback: real)
    requires InUnitRange(trail) && boost >= 0.0 && fallback >= 0.0
    ensures InUnitRange(MetaTrail(trail, tags, boost, fallback))
  {
    if trail != [] {
      var c := Confirmations(trail, tags);
      var d := Contradictions(trail, tags);
      BoostAllKeepsUnitRange(trail, c, boost);
      PatternPenalties(trail, tags);
      PenalizeAllKeepsUnitRange(BoostAll(trail, c, boost), d, fallback);
      var m := MetaRecords(|c|, |d|);
      assert InUnitRange(m);
    }
  }

  /** The configured `confidence_penalty` never matters: every contradiction brings its own. */
  lemma ConfiguredPenaltyUnused(trail: seq<Record>, tags: seq<string>, boost: real, f1: real, f2: real)
    ensures MetaTrail(trail, tags, boost, f1) == MetaTrail(trail, tags, boost, f2)
  {
    if trail != [] {
      PatternPenalties(trail, tags);
      FallbackPenaltyUnused(BoostAll(trail, Confirmations(trail, tags), boost), Contradictions(trail, tags), f1, f2);
    }
  }

  /**
   * A record named by two fired confirmations is boosted twice (the botnet and the
   * sophisticated confirmation both name the FFT detector): below the cap it gains twice the
   * boost.
   */
  lemma BoostedTwice(trail: seq<Record>, p1: Pattern, p2: Pattern, boost: real, i: int)
    requires 0 <= i < |trail|
    requires MatchesAny(trail[i], p1.sources) && MatchesAny(trail[i], p2.sources)
    ensures BoostAll(trail, [p1, p2], boost)[i] == Raised(Raised(trail[i], boost), boost)
    ensures boost >= 0.0 && ConfidenceOf(trail[i]) + 2.0 * boost <= 1.0 ==>
              BoostAll(trail, [p1, p2], boost)[i].confidence == Some(ConfidenceOf(trail[i]) + 2.0 * boost)
  {
    var ps := [p1, p2];
    assert ps[..1] == [p1] && ps[..1][..0] == [];
    var once := Boosted(trail, p1.sources, boost);
    assert BoostAll(trail, ps[..1], boost) == once;
    assert once[i] == Raised(trail[i], boost);
    assert MatchesAny(once[i], p2.sources);
  }

  // ---------------------------------------------------------------------------------------
  // The detector

  /** The actor's trail and tags are what processing `s` yields. */
  predicate Processed(actor: Actor, s: ActorState, boost: real, fallback: real)
    reads actor
  {
    actor.trail == MetaTrail(s.trail, s.tags, boost, fallback) && actor.tags == MetaTags(s.trail, s.tags)
  }

  predicate Untouched(actor: Actor, s: ActorState)
    reads actor
  {
    actor.trail == s.trail && actor.tags == s.tags
  }

  /** The `meta_analysis` counters. */
  datatype MetaStats = MetaStats(
    confirmedThreats: nat,
    contradictionsResolved: nat,
    confidenceAdjustments: nat,
    newTagsAdded: nat)

  /** How many actors with evidence had at least one confirmation. */
  function ConfirmedActors(states: seq<ActorState>): (n: nat)
    ensures n <= |states|
    decreases |states|
  {
    if states == [] then 0
    else
      var s := states[|states| - 1];
      ConfirmedActors(states[..|states| - 1]) + Indicator(s.trail != [] && Confirmations(s.trail, s.tags) != [])
  }

  /** How many actors with evidence had at least one contradiction. */
  function ContradictedActors(states: seq<ActorState>): (n: nat)
    ensures n <= |states|
    decreases |states|
  {
    if states == [] then 0
    else
      var s := states[|states| - 1];
      ContradictedActors(states[..|states| - 1]) + Indicator(s.trail != [] && Contradictions(s.trail, s.tags) != [])
  }

  /** The counters count actors, not patterns; the other two are never incremented. */
  function StatsOf(states: seq<ActorState>): MetaStats {
    MetaStats(ConfirmedActors(states), ContradictedActors(states), 0, 0)
  }

  /** Counting one more actor adds its own indicators. */
  lemma StatsStep(states: seq<ActorState>, i: nat)
    requires i < |states|
    ensures var s := states[i];
      StatsOf(states[..i + 1])
      == MetaStats(StatsOf(states[..i]).confirmedThreats + Indicator(s.trail != [] && Confirmations(s.trail, s.tags) != []),
                   StatsOf(states[..i]).contradictionsResolved + Indicator(s.trail != [] && Contradictions(s.trail, s.tags) != []),
                   0, 0)
  {
    assert states[..i + 1][..i] == states[..i];
  }

  /** Actors without evidence are never counted. */
  lemma {:induction false} EmptyTrailsNotCounted(states: seq<ActorState>)
    requires forall i :: 0 <= i < |states| ==> states[i].trail == []
    ensures StatsOf(states) == MetaStats(0, 0, 0, 0)
    decreases |states|
  {
    if states != [] {
      EmptyTrailsNotCounted(states[..|states| - 1]);
    }
  }

  /** The detector's settings; the two thresholds are stored but consulted by no rule. */
  datatype MetaConfig = MetaConfig(
    confirmationThreshold: Option<real>,
    contradictionThreshold: Option<real>,
    confidenceBoost: Option<real>,
    confidencePenalty: Option<real>)

  class MetaDetector {
    const confirmationThreshold: real
    const contradictionThreshold: real
    const confidenceBoost: real
    const confidencePenalty: real

    constructor (config: MetaConfig)
      ensures confirmationThreshold == config.confirmationThreshold.GetOr(0.7)
      ensures contradictionThreshold == config.contradictionThreshold.GetOr(0.3)
      ensures confidenceBoost == config.confidenceBoost.GetOr(0.2)
      ensures confidencePenalty == config.confidencePenalty.GetOr(0.3)
    {
      confirmationThreshold := config.confirmationThreshold.GetOr(0.7);
      contradictionThreshold := config.contradictionThreshold.GetOr(0.3);
      confidenceBoost := config.confidenceBoost.GetOr(0.2);
      confidencePenalty := config.confidencePenalty.GetOr(0.3);
    }

    /** Cross-validates every actor in turn. The actors are distinct objects. */
    method Detect(actors: seq<Actor>) returns (stats: MetaStats)
      requires forall i, j :: 0 <= i < j < |actors| ==> actors[i] != actors[j]
      modifies actors`tags, actors`trail
      ensures forall i :: 0 <= i < |actors| ==>
                actors[i].trail == MetaTrail(old(actors[i].trail), old(actors[i].tags), confidenceBoost, confidencePenalty)
                && actors[i].tags == MetaTags(old(actors[i].trail), old(actors[i].tags))
      ensures stats == StatsOf(old(States(actors)))
    {
      ghost var before := States(actors);
      stats := MetaStats(0, 0, 0, 0);
      var i := 0;
      while i < |actors|
        invariant 0 <= i <= |actors|
        invariant forall j :: 0 <= j < |actors| ==> before[j] == ActorState(old(actors[j].trail), old(actors[j].tags))
        invariant forall j :: 0 <= j < i ==> Processed(actors[j], before[j], confidenceBoost, confidencePenalty)
        invariant forall j :: i <= j < |actors| ==> Untouched(actors[j], before[j])
        invariant stats == StatsOf(before[..i])
      {
        var actor := actors[i];
        ghost var s := before[i];
        assert Untouched(actor, s);
        label Step:
        var confirmed, contradicted := ProcessActor(actor);
        forall j | 0 <= j < |actors| && j != i
          ensures actors[j].trail == old@Step(actors[j].trail) && actors[j].tags == old@Step(actors[j].tags)
        {
          assert actors[j] != actor by {
            if j < i { assert actors[j] != actors[i]; } else { assert actors[i] != actors[j]; }
          }
        }
        StatsStep(before, i);
        stats := MetaStats(stats.confirmedThreats + Indicator(confirmed),
                           stats.contradictionsResolved + Indicator(contradicted), 0, 0);
        i := i + 1;
      }
      assert before[..i] == before;
    }

    /** One iteration of the detector's loop: find, apply, count and summarise. */
    method ProcessActor(actor: Actor) returns (confirmed: bool, contradicted: bool)
      modifies actor`tags, actor`trail
      ensures Processed(actor, ActorState(old(actor.trail), old(actor.tags)), confidenceBoost, confidencePenalty)
      ensures confirmed <==> old(actor.trail) != [] && Confirmations(old(actor.trail), old(actor.tags)) != []
      ensures contradicted <==> old(actor.trail) != [] && Contradictions(old(actor.trail), old(actor.tags)) != []
    {
      if actor.trail == [] {
        return false, false;
      }
      var confirmations := Confirmations(actor.trail, actor.tags);
      var contradictions := Contradictions(actor.trail, actor.tags);
      ApplyConfirmations(actor, confirmations);
      ApplyContradictions(actor, contradictions);
      confirmed := confirmations != [];
      contradicted := contradictions != [];
      if confirmed || contradicted {
        AddMetaEvidence(actor, |confirmations|, |contradictions|);
      }
    }

    /** Tags the actor with each confirmation and boosts the records it names. */
    method ApplyConfirmations(actor: Actor, confirmations: seq<Pattern>)
      modifies actor`tags, actor`trail
      ensures actor.tags == AddKinds(old(actor.tags), confirmations)
      ensures actor.trail == BoostAll(old(actor.trail), confirmations, confidenceBoost)
    {
      var k := 0;
      while k < |confirmations|
        invariant 0 <= k <= |confirmations|
        invariant actor.tags == AddKinds(old(actor.tags), confirmations[..k])
        invariant actor.trail == BoostAll(old(actor.trail), confirmations[..k], confidenceBoost)
      {
        assert confirmations[..k + 1][..k] == confirmations[..k];
        AddUniqueProps(actor.tags, confirmations[k].kind);
        actor.tags := AddUnique(actor.tags, confirmations[k].kind);
        AdjustTrail(actor, confirmations[k].sources, confidenceBoost, true);
        k := k + 1;
      }
      assert confirmations[..k] == confirmations;
    }

    /** Tags the actor with each contradiction and lowers the records it names. */
    method ApplyContradictions(actor: Actor, contradictions: seq<Pattern>)
      modifies actor`tags, actor`trail
      ensures actor.tags == AddKinds(old(actor.tags), contradictions)
      ensures actor.trail == PenalizeAll(old(actor.trail), contradictions, confidencePenalty)
    {
      var k := 0;
      while k < |contradictions|
        invariant 0 <= k <= |contradictions|
        invariant actor.tags == AddKinds(old(actor.tags), contradictions[..k])
        invariant actor.trail == PenalizeAll(old(actor.trail), contradictions[..k], confidencePenalty)
      {
        assert contradictions[..k + 1][..k] == contradictions[..k];
        AddUniqueProps(actor.tags, contradictions[k].kind);
        actor.tags := AddUnique(actor.tags, contradictions[k].kind);
        var penalty := contradictions[k].penalty.GetOr(confidencePenalty);
        AdjustTrail(actor, contradictions[k].sources, penalty, false);
        k := k + 1;
      }
      assert contradictions[..k] == contradictions;
    }

    /** The inner loop: raises (or lowers) every record whose source matches, in place. */
    method AdjustTrail(actor: Actor, sources: seq<string>, amount: real, raise: bool)
      modifies actor`trail
      ensures actor.trail == if raise then Boosted(old(actor.trail), sources, amount)
                             else Penalized(old(actor.trail), sources, amount)
    {
      ghost var target := if raise then Boosted(actor.trail, sources, amount) else Penalized(actor.trail, sources, amount);
      var j := 0;
      while j < |actor.trail|
        invariant |actor.trail| == |target|
        invariant 0 <= j <= |actor.trail|
        invariant actor.trail[..j] == target[..j]
        invariant actor.trail[j..] == old(actor.trail)[j..]
      {
        var r := actor.trail[j];
        assert r == old(actor.trail)[j];
        if MatchesAny(r, sources) {
          var r' := if raise then Raised(r, amount) else Lowered(r, amount);
          actor.trail := actor.trail[j := r'];
        }
        assert actor.trail[..j + 1] == target[..j + 1];
        j := j + 1;
      }
      assert actor.trail == actor.trail[..j];
    }

    /** Appends the summary records: one per non-empty category. */
    method AddMetaEvidence(actor: Actor, confirmed: nat, contradicted: nat)
      modifies actor`trail
      ensures actor.trail == old(actor.trail) + MetaRecords(confirmed, contradicted)
    {
      if confirmed > 0 {
        actor.trail := actor.trail
          + [Described("MetaDetector", "Cross-validation confirmed " + NatToString(confirmed) + " threat patterns", 0.9)];
      }
      if contradicted > 0 {
        actor.trail := actor.trail
          + [Described("MetaDetector", "Resolved " + NatToString(contradicted) + " contradictory indicators", 0.8)];
      }
    }
  }
}
