/**
 * The scoring engine: stores each actor's rules-engine score and copies the rules' evidence
 * into the actor's trail, then forms campaigns from the behavioural clusters.
 */
module Scoring {
  import opened Wrappers
  import opened Text
  import opened Seqs
  import opened Evidence
  import opened Models
  import opened Clustering
  import RulesEngine

  const Source: string := "ScoringEngine"

  /**
   * The records `add_evidence(e['source'], e['type'], e['details'], e.get('confidence', 1.0))`
   * appends for the rules engine's records `rs`.
   */
  function Copied(rs: seq<Record>): (r: seq<Record>)
    ensures |r| == |rs|
  {
    seq(|rs|, i requires 0 <= i < |rs| => Logged(rs[i].source, rs[i].kind, rs[i].details, rs[i].confidence.GetOr(1.0)))
  }

  /** Records in the shape `add_evidence` writes: no description and a confidence. */
  predicate AllLogged(rs: seq<Record>) {
    forall i :: 0 <= i < |rs| ==> rs[i].description == "" && rs[i].confidence.Some?
  }

  lemma CopiedLogged(rs: seq<Record>)
    requires AllLogged(rs)
    ensures Copied(rs) == rs
  {
  }

  lemma {:induction false} ModifierEvidenceLogged(a: RulesEngine.ActorView, tag: string, mods: seq<RulesEngine.Modifier>)
    ensures AllLogged(RulesEngine.ModifierEvidence(a, tag, mods))
    decreases |mods|
  {
    if mods != [] {
      ModifierEvidenceLogged(a, tag, mods[..|mods| - 1]);
    }
  }

  lemma {:induction false} BaseEvidenceLogged(profiles: map<string, RulesEngine.Profile>, a: RulesEngine.ActorView, tags: seq<string>)
    ensures AllLogged(RulesEngine.BaseEvidence(profiles, a, tags))
    decreases |tags|
  {
    if tags != [] {
      BaseEvidenceLogged(profiles, a, tags[..|tags| - 1]);
      var t := tags[|tags| - 1];
      if t in profiles {
        ModifierEvidenceLogged(a, t, profiles[t].modifiers);
      }
    }
  }

  lemma {:induction false} CombinationEvidenceLogged(combos: seq<(string, RulesEngine.Combination)>, tags: seq<string>)
    ensures AllLogged(RulesEngine.CombinationEvidence(combos, tags))
    decreases |combos|
  {
    if combos != [] {
      CombinationEvidenceLogged(combos[..|combos| - 1], tags);
    }
  }

  /**
   * Every rules-engine record already has the shape `add_evidence` writes, so copying the
   * evidence list into the trail reproduces it record for record, in order.
   */
  lemma CopiedRulesEvidence(cfg: RulesEngine.Config, a: RulesEngine.ActorView, ctx: RulesEngine.Context)
    ensures Copied(RulesEngine.ScoreEvidence(cfg, a, ctx)) == RulesEngine.ScoreEvidence(cfg, a, ctx)
  {
    var base := RulesEngine.BaseEvidence(cfg.scoringProfiles, a, a.tags);
    var combination := RulesEngine.CombinationEvidence(cfg.tagCombinations, a.tags);
    var contextual := RulesEngine.ContextualEvidence(a, ctx);
    var global := RulesEngine.GlobalEvidence(ctx);
    assert RulesEngine.ScoreEvidence(cfg, a, ctx) == base + combination + contextual + global;
    BaseEvidenceLogged(cfg.scoringProfiles, a, a.tags);
    CombinationEvidenceLogged(cfg.tagCombinations, a.tags);
    ContextualEvidenceLogged(a, ctx);
    GlobalEvidenceLogged(ctx);
    AllLoggedAppend(base, combination);
    AllLoggedAppend(base + combination, contextual);
    AllLoggedAppend(base + combination + contextual, global);
    CopiedLogged(base + combination + contextual + global);
  }

  lemma AllLoggedAppend(xs: seq<Record>, ys: seq<Record>)
    requires AllLogged(xs) && AllLogged(ys)
    ensures AllLogged(xs + ys)
  {
    forall i | 0 <= i < |xs + ys|
      ensures (xs + ys)[i].description == "" && (xs + ys)[i].confidence.Some?
    {
      if i >= |xs| {
        assert (xs + ys)[i] == ys[i - |xs|];
      }
    }
  }

  lemma ContextualEvidenceLogged(a: RulesEngine.ActorView, ctx: RulesEngine.Context)
    ensures AllLogged(RulesEngine.ContextualEvidence(a, ctx))
  {
    var f := RulesEngine.FftEvidence(a, ctx);
    var g := RulesEngine.GraphEvidence(a, ctx);
    var n := RulesEngine.AnomalyEvidence(a, ctx);
    var c := RulesEngine.ClusterEvidence(a, ctx);
    assert AllLogged(f) && AllLogged(g) && AllLogged(n) && AllLogged(c);
    AllLoggedAppend(f, g);
    AllLoggedAppend(f + g, n);
    AllLoggedAppend(f + g + n, c);
  }

  lemma GlobalEvidenceLogged(ctx: RulesEngine.Context)
    ensures AllLogged(RulesEngine.GlobalEvidence(ctx))
  {
  }

  /** The summary record that closes each scored actor's new records (the score itself is not in its text). */
  const ScoreSummary: Record := Logged(Source, "threat_score_calculated", "Final threat score", 0.9)

  /** The trail after scoring: the copied rules evidence, then the summary record. */
  function ScoredTrail(trail: seq<Record>, evidence: seq<Record>): (r: seq<Record>)
    ensures |r| == |trail| + |evidence| + 1
  {
    trail + Copied(evidence) + [ScoreSummary]
  }

  /**
   * Scoring keeps the old trail as a prefix, adds one record per rules-engine record plus one,
   * copies the rules evidence verbatim and ends with the summary.
   */
  lemma ScoredTrailShape(trail: seq<Record>, cfg: RulesEngine.Config, a: RulesEngine.ActorView, ctx: RulesEngine.Context)
    ensures var ev := RulesEngine.ScoreEvidence(cfg, a, ctx);
      ScoredTrail(trail, ev)[..|trail|] == trail
      && ScoredTrail(trail, ev)[|trail|..|trail| + |ev|] == ev
      && ScoredTrail(trail, ev)[|trail| + |ev|] == ScoreSummary
  {
    var ev := RulesEngine.ScoreEvidence(cfg, a, ctx);
    CopiedRulesEvidence(cfg, a, ctx);
    var r := ScoredTrail(trail, ev);
    assert r == trail + ev + [ScoreSummary];
  }

  /** The record a new campaign receives. */
  function CampaignCreated(size: nat): Record {
    Record(Source, "campaign_created",
           "Created campaign with " + NatToString(size) + " actors using behavioral clustering", "", None)
  }

  /** `c` is the campaign built for `cl`, with metrics updated and one creation record. */
  predicate CampaignFor(c: Campaign, cl: Cluster<Actor>)
    reads c, cl.members
  {
    c.campaignId == "campaign_" + LabelText(cl.id)
    && c.actors == cl.members
    && c.threatScore == 0.0
    && c.primaryTags == Elems(AllTags(cl.members))
    && c.campaignType == (if AllTags(cl.members) == [] then "unknown" else MostCommon(AllTags(cl.members)))
    && c.trail == [CampaignCreated(|cl.members|)]
  }

  /** Pydantic's `ValueError` on assigning a field that a model does not declare. */
  datatype FieldError = NoField(model: string, field: string)

  /** The input that shows the as-written failure: a single fresh actor already stops the pass. */
  method OneActorStopsScoring(config: RulesEngine.Config, ctx: RulesEngine.Context) returns (r: Result<nat, FieldError>)
    ensures r == Failure(NoField("ActorProfile", "threat_score"))
  {
    var engine := new ScoringEngine(config);
    var actor := new Actor("192.168.1.100");
    r := engine.ScoreActorsAsWritten([actor], ctx);
  }

  class ScoringEngine {
    const config: RulesEngine.Config
    const rulesEngine: RulesEngine.ScoringRulesEngine

    constructor (config: RulesEngine.Config)
      ensures this.config == config && rulesEngine.config == config
    {
      this.config := config;
      rulesEngine := new RulesEngine.ScoringRulesEngine(config);
    }

    /**
     * `score_actors` as written. After the first actor's score is computed, the assignment
     * `actor.threat_score = final_score` raises pydantic's `ValueError`, because `ActorProfile`
     * declares no `threat_score` field. So the pass stops there: no actor changes (this method
     * modifies nothing) and the call succeeds only on an empty actor list.
     */
    method ScoreActorsAsWritten(actors: seq<Actor>, ctx: RulesEngine.Context) returns (r: Result<nat, FieldError>)
      ensures r.Success? <==> actors == []
      ensures r.Success? ==> r.value == |actors|
      ensures r.Failure? ==> r.error == NoField("ActorProfile", "threat_score")
    {
      for i := 0 to |actors|
        invariant i == 0
      {
        var score, evidence := rulesEngine.CalculateScore(actors[i], ctx);
        return Failure(NoField("ActorProfile", "threat_score"));
      }
      return Success(|actors|);
    }

    /**
     * Scores every actor, storing the score and extending the trail: `score_actors` with
     * `threat_score` declared on the actor.
     */
    method ScoreActors(actors: seq<Actor>, ctx: RulesEngine.Context)
      requires NoDups(actors)
      modifies actors`threatScore, actors`trail
      ensures forall a :: a in actors ==>
                a.threatScore == RulesEngine.Score(rulesEngine.config, old(RulesEngine.ViewOf(a)), ctx)
                && a.trail == ScoredTrail(old(a.trail), RulesEngine.ScoreEvidence(rulesEngine.config, old(RulesEngine.ViewOf(a)), ctx))
    {
      var i := 0;
      while i < |actors|
        invariant 0 <= i <= |actors|
        invariant forall a :: a in actors ==> RulesEngine.ViewOf(a) == old(RulesEngine.ViewOf(a))
        invariant forall a :: a in actors[..i] ==>
                    a.threatScore == RulesEngine.Score(rulesEngine.config, old(RulesEngine.ViewOf(a)), ctx)
                    && a.trail == ScoredTrail(old(a.trail), RulesEngine.ScoreEvidence(rulesEngine.config, old(RulesEngine.ViewOf(a)), ctx))
        invariant forall a :: a in actors[i..] ==> a.trail == old(a.trail)
      {
        var actor := actors[i];
        assert actors[..i + 1] == actors[..i] + [actor];
        assert actor !in actors[..i];
        assert actors[i..] == [actor] + actors[i + 1..];
        ScoreActor(actor, ctx);
        i := i + 1;
      }
      assert actors[..i] == actors;
    }

    /** One iteration of `score_actors`. */
    method ScoreActor(actor: Actor, ctx: RulesEngine.Context)
      modifies actor`threatScore, actor`trail
      ensures actor.threatScore == RulesEngine.Score(rulesEngine.config, RulesEngine.ViewOf(actor), ctx)
      ensures actor.trail == ScoredTrail(old(actor.trail), RulesEngine.ScoreEvidence(rulesEngine.config, RulesEngine.ViewOf(actor), ctx))
    {
      var score, evidence := rulesEngine.CalculateScore(actor, ctx);
      actor.threatScore := score;
      CopyEvidence(actor, evidence);
      actor.AddEvidence(Source, "threat_score_calculated", "Final threat score", 0.9);
    }

    /** The `add_evidence` loop over the rules engine's records. */
    method CopyEvidence(actor: Actor, evidence: seq<Record>)
      modifies actor`trail
      ensures actor.trail == old(actor.trail) + Copied(evidence)
    {
      var i := 0;
      while i < |evidence|
        invariant 0 <= i <= |evidence|
        invariant actor.trail == old(actor.trail) + Copied(evidence[..i])
      {
        var e := evidence[i];
        assert Copied(evidence[..i + 1]) == Copied(evidence[..i]) + [Copied(evidence)[i]];
        actor.AddEvidence(e.source, e.kind, e.details, e.confidence.GetOr(1.0));
        i := i + 1;
      }
      assert evidence[..i] == evidence;
    }

    /**
     * Forms campaigns from the behavioural clusters. `dbscan` stands for standard scaling
     * followed by DBSCAN: it maps the valid actors' vectors to one label per vector.
     */
    method ClusterCampaigns(actors: seq<Actor>, dbscan: seq<seq<real>> -> seq<int>) returns (campaigns: seq<Campaign>)
      requires NoDups(actors)
      modifies actors`tags, actors`trail
      ensures |actors| < 2 || |old(ValidActors(actors))| < 2 ==>
                campaigns == [] && forall a :: a in actors ==> StateOf(a) == old(StateOf(a))
      ensures |actors| >= 2 && |old(ValidActors(actors))| >= 2 ==>
                var valid := old(ValidActors(actors));
                var clusters := Grouped(valid, dbscan(old(VectorsOf(ValidActors(actors)))));
                (forall a :: a in actors ==> StateOf(a) == Outcome(old(StateOf(a)), a, valid, clusters, Source))
                && |campaigns| == |clusters|
                && forall k :: 0 <= k < |clusters| ==> fresh(campaigns[k]) && CampaignFor(campaigns[k], clusters[k])
    {
      if |actors| < 2 {
        return [];
      }
      var valid, vectors := SelectValid(actors);
      if |valid| < 2 {
        return [];
      }
      ValidActorsProps(actors);
      assert forall i :: 0 <= i < |valid| ==> valid[i] in actors;
      campaigns := FormCampaigns(valid, dbscan(vectors));
    }

    /** Groups the valid actors by label, tags them and builds the campaigns. */
    method FormCampaigns(valid: seq<Actor>, labels: seq<int>) returns (campaigns: seq<Campaign>)
      requires NoDups(valid)
      modifies valid`tags, valid`trail
      ensures forall a :: a in valid ==> StateOf(a) == Outcome(old(StateOf(a)), a, valid, Grouped(valid, labels), Source)
      ensures |campaigns| == |Grouped(valid, labels)|
      ensures forall k :: 0 <= k < |campaigns| ==> fresh(campaigns[k]) && CampaignFor(campaigns[k], Grouped(valid, labels)[k])
    {
      var clusters := GroupByLabel(valid, labels);
      GroupedPartition(valid, labels);
      var isolated := MarkGroups(valid, clusters, Source);
      campaigns := BuildCampaigns(clusters);
    }

    /** One campaign per cluster, in the clusters' order. */
    method BuildCampaigns(clusters: seq<Cluster<Actor>>) returns (campaigns: seq<Campaign>)
      ensures |campaigns| == |clusters|
      ensures forall k :: 0 <= k < |clusters| ==> fresh(campaigns[k]) && CampaignFor(campaigns[k], clusters[k])
    {
      campaigns := [];
      var k := 0;
      while k < |clusters|
        invariant 0 <= k <= |clusters|
        invariant |campaigns| == k
        invariant forall j :: 0 <= j < k ==> fresh(campaigns[j])
        invariant forall j :: 0 <= j < k ==> CampaignFor(campaigns[j], clusters[j])
      {
        var campaign := NewCampaign(clusters[k]);
        campaigns := campaigns + [campaign];
        k := k + 1;
      }
    }

    /** The campaign built for one cluster: metrics updated, creation recorded. */
    method NewCampaign(cluster: Cluster<Actor>) returns (campaign: Campaign)
      ensures fresh(campaign) && CampaignFor(campaign, cluster)
    {
      var members := cluster.members;
      campaign := new Campaign("campaign_" + LabelText(cluster.id), members);
      campaign.UpdateMetrics();
      campaign.AddEvidence(Source, "campaign_created",
                           "Created campaign with " + NatToString(|members|) + " actors using behavioral clustering");
    }
  }
}
