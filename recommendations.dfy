/**
 * The narrative engine: turns tagged actors and campaigns into prioritised
 * recommendations, ordered by priority with a stable sort, and summarises
 * them by priority and by category.
 *
 * The free-text description and action items of a recommendation are not
 * modelled; everything the engine decides on (priority, category, title,
 * MITRE techniques, confidence) is.
 */
module Recommendations {
  import opened Wrappers
  import opened Seqs
  import opened Models

  datatype Recommendation = Recommendation(
    priority: string,
    category: string,
    title: string,
    mitreTechniques: seq<string>,
    confidence: real)

  /** Priorities and categories the engine itself produces. */
  predicate WellFormed(r: Recommendation)
  {
    r.priority in {"HIGH", "MEDIUM", "LOW"} &&
    r.category in {"IMMEDIATE_ACTION", "INVESTIGATION", "MONITORING"}
  }

  /** Sort key: HIGH 3, MEDIUM 2, LOW 1, anything else 0. */
  function PriorityScore(priority: string): nat
  {
    if priority == "HIGH" then 3
    else if priority == "MEDIUM" then 2
    else if priority == "LOW" then 1
    else 0
  }

  function Score(r: Recommendation): nat
  {
    PriorityScore(r.priority)
  }

  // ---------------------------------------------------------------------
  // Per-actor, per-campaign and global rules
  // ---------------------------------------------------------------------

  /**
   * First matching actor rule; `ip` is the actor's address. The first
   * rule's text also reads the profile's first and last seen times, which
   * this corrected rule takes to exist; its free text is not modelled.
   */
  function ActorRule(ip: string, tags: seq<string>): Option<Recommendation>
  {
    if "CONFIRMED_BOTNET" in tags && "SQLI_ATTACK" in tags then
      Some(Recommendation("HIGH", "IMMEDIATE_ACTION", "Botnet SQL Injection Attack - " + ip,
                          ["T1190", "T1071.001"], 0.95))
    else if "LFI_ATTACK" in tags && "CONFIRMED_SOPHISTICATED" in tags then
      Some(Recommendation("HIGH", "IMMEDIATE_ACTION", "Sophisticated LFI Attack - " + ip,
                          ["T1083", "T1190"], 0.9))
    else if "CONFIRMED_COORDINATED" in tags && "BOT_ACTIVITY" in tags then
      Some(Recommendation("MEDIUM", "INVESTIGATION", "Coordinated Bot Activity - " + ip,
                          ["T1071.001", "T1595"], 0.8))
    else if "ISOLATED_INDICATOR" in tags then
      Some(Recommendation("LOW", "MONITORING", "Isolated Threat Indicator - " + ip,
                          ["T1595"], 0.6))
    else None
  }

  /** First matching campaign rule. */
  function CampaignRule(campaignId: string, primaryTags: set<string>): Option<Recommendation>
  {
    if "COORDINATED_ATTACK" in primaryTags && "LFI_ATTACK" in primaryTags then
      Some(Recommendation("HIGH", "IMMEDIATE_ACTION", "Coordinated LFI Campaign - " + campaignId,
                          ["T1083", "T1190", "T1071.001"], 0.9))
    else if "BOTNET_ACTIVITY" in primaryTags && "MULTI_VECTOR" in primaryTags then
      Some(Recommendation("HIGH", "IMMEDIATE_ACTION", "Multi-Vector Botnet Campaign - " + campaignId,
                          ["T1071.001", "T1190", "T1595"], 0.95))
    else None
  }

  /** A list with the rule's recommendation, if any. */
  function AsList(o: Option<Recommendation>): (rs: seq<Recommendation>)
  {
    if o.Some? then [o.value] else []
  }

  function AnalyzeActor(a: Actor): seq<Recommendation>
    reads a
  {
    AsList(ActorRule(a.ipAddress, a.tags))
  }

  /** Why the actor analysis as written stops. */
  datatype AnalysisError = MissingAttribute(name: string)

  /**
   * The actor analysis as written: every rule's title reads an `ip` attribute
   * that an actor profile does not declare, so an actor that matches a rule
   * stops the analysis with an attribute error; one that matches none gets
   * no recommendation.
   */
  function ActorRuleAsWritten(tags: seq<string>): Result<Option<Recommendation>, AnalysisError>
  {
    if "CONFIRMED_BOTNET" in tags && "SQLI_ATTACK" in tags then Failure(MissingAttribute("ip"))
    else if "LFI_ATTACK" in tags && "CONFIRMED_SOPHISTICATED" in tags then Failure(MissingAttribute("ip"))
    else if "CONFIRMED_COORDINATED" in tags && "BOT_ACTIVITY" in tags then Failure(MissingAttribute("ip"))
    else if "ISOLATED_INDICATOR" in tags then Failure(MissingAttribute("ip"))
    else Success(None)
  }

  function AnalyzeCampaign(c: Campaign): seq<Recommendation>
    reads c
  {
    AsList(CampaignRule(c.campaignId, c.primaryTags))
  }

  /** Recommendations of every actor, in actor order. */
  function ActorRecs(actors: seq<Actor>): seq<Recommendation>
    reads actors
  {
    if actors == [] then [] else ActorRecs(actors[..|actors| - 1]) + AnalyzeActor(actors[|actors| - 1])
  }

  /** Recommendations of every campaign, in campaign order. */
  function CampaignRecs(campaigns: seq<Campaign>): seq<Recommendation>
    reads campaigns
  {
    if campaigns == [] then [] else CampaignRecs(campaigns[..|campaigns| - 1]) + AnalyzeCampaign(campaigns[|campaigns| - 1])
  }

  /** Number of actors whose threat score exceeds 8.0. */
  function HighThreatCount(actors: seq<Actor>): nat
    reads actors
  {
    if actors == [] then 0
    else HighThreatCount(actors[..|actors| - 1]) + (if actors[|actors| - 1].threatScore > 8.0 then 1 else 0)
  }

  /** Number of actors carrying CONFIRMED_BOTNET. */
  function BotnetCount(actors: seq<Actor>): nat
    reads actors
  {
    if actors == [] then 0
    else BotnetCount(actors[..|actors| - 1]) + (if "CONFIRMED_BOTNET" in actors[|actors| - 1].tags then 1 else 0)
  }

  /** The two population-wide rules, checked independently. */
  function GlobalRules(highThreat: nat, botnets: nat): seq<Recommendation>
  {
    (if highThreat > 5 then
       [Recommendation("HIGH", "IMMEDIATE_ACTION", "High Volume of Threat Actors Detected",
                       ["T1190", "T1595"], 0.8)]
     else []) +
    (if botnets > 3 then
       [Recommendation("HIGH", "IMMEDIATE_ACTION", "Multiple Botnet Activities Detected",
                       ["T1071.001", "T1595"], 0.9)]
     else [])
  }

  function GlobalRecs(actors: seq<Actor>): seq<Recommendation>
    reads actors
  {
    GlobalRules(HighThreatCount(actors), BotnetCount(actors))
  }

  /** Everything collected before sorting: actors, then campaigns, then global. */
  function Gathered(actors: seq<Actor>, campaigns: seq<Campaign>): seq<Recommendation>
    reads actors, campaigns
  {
    ActorRecs(actors) + CampaignRecs(campaigns) + GlobalRecs(actors)
  }

  // ---------------------------------------------------------------------
  // Stable sort by non-increasing priority
  // ---------------------------------------------------------------------

  /** Non-increasing priority score. */
  predicate ByPriority(s: seq<Recommendation>)
  {
    forall i, j :: 0 <= i < j < |s| ==> Score(s[i]) >= Score(s[j])
  }

  /** Inserts `x` after every element whose score is at least its own. */
  function Insert(x: Recommendation, t: seq<Recommendation>): seq<Recommendation>
  {
    if t == [] then [x]
    else if Score(t[0]) < Score(x) then [x] + t
    else [t[0]] + Insert(x, t[1..])
  }

  /** Stable sort by descending priority score (insertion, in input order). */
  function SortByPriority(s: seq<Recommendation>): seq<Recommendation>
  {
    if s == [] then [] else Insert(s[|s| - 1], SortByPriority(s[..|s| - 1]))
  }

  /** The elements of `s` with priority score `p`, in order. */
  function AtLevel(s: seq<Recommendation>, p: nat): seq<Recommendation>
  {
    if s == [] then [] else (if Score(s[0]) == p then [s[0]] else []) + AtLevel(s[1..], p)
  }

  lemma {:induction false} AtLevelAppend(a: seq<Recommendation>, b: seq<Recommendation>, p: nat)
    ensures AtLevel(a + b, p) == AtLevel(a, p) + AtLevel(b, p)
    decreases |a|
  {
    if a == [] {
      assert a + b == b;
    } else {
      assert (a + b)[1..] == a[1..] + b;
      AtLevelAppend(a[1..], b, p);
    }
  }

  lemma {:induction false} AtLevelBelow(t: seq<Recommendation>, p: nat)
    requires forall i :: 0 <= i < |t| ==> Score(t[i]) < p
    ensures AtLevel(t, p) == []
    decreases |t|
  {
    if t != [] {
      AtLevelBelow(t[1..], p);
    }
  }

  lemma {:induction false} InsertPerm(x: Recommendation, t: seq<Recommendation>)
    ensures multiset(Insert(x, t)) == multiset(t) + multiset{x}
    decreases |t|
  {
    if t != [] {
      assert t == [t[0]] + t[1..];
      if Score(t[0]) >= Score(x) {
        InsertPerm(x, t[1..]);
      }
    }
  }

  lemma {:induction false} InsertSorted(x: Recommendation, t: seq<Recommendation>)
    requires ByPriority(t)
    ensures ByPriority(Insert(x, t))
    decreases |t|
  {
    if t != [] && Score(t[0]) >= Score(x) {
      var rest := Insert(x, t[1..]);
      InsertSorted(x, t[1..]);
      InsertPerm(x, t[1..]);
      var out := [t[0]] + rest;
      forall j | 0 < j < |out|
        ensures Score(out[0]) >= Score(out[j])
      {
        assert out[j] == rest[j - 1];
        assert out[j] in multiset(t[1..]) + multiset{x};
        if out[j] != x {
          var k :| 0 <= k < |t[1..]| && t[1..][k] == out[j];
          assert t[k + 1] == out[j];
        }
      }
    }
  }

  lemma {:induction false} InsertLevels(x: Recommendation, t: seq<Recommendation>, p: nat)
    requires ByPriority(t)
    ensures AtLevel(Insert(x, t), p) == AtLevel(t, p) + AtLevel([x], p)
    decreases |t|
  {
    if t == [] {
    } else if Score(t[0]) < Score(x) {
      InsertFrontLevels(x, t, p);
    } else {
      assert t == [t[0]] + t[1..];
      InsertLevels(x, t[1..], p);
      AtLevelAppend([t[0]], Insert(x, t[1..]), p);
      AtLevelAppend([t[0]], t[1..], p);
    }
  }

  /** An element placed before a sorted sequence of lower scores lands last on its own level. */
  lemma InsertFrontLevels(x: Recommendation, t: seq<Recommendation>, p: nat)
    requires ByPriority(t) && t != [] && Score(t[0]) < Score(x)
    ensures AtLevel([x] + t, p) == AtLevel(t, p) + AtLevel([x], p)
  {
    AtLevelAppend([x], t, p);
    if Score(x) == p {
      AtLevelBelow(t, p);
    }
  }

  /**
   * The sort orders by non-increasing priority, is a permutation, and is
   * stable: the recommendations of each priority level keep their order.
   */
  lemma SortByPriorityProps(s: seq<Recommendation>)
    ensures ByPriority(SortByPriority(s))
    ensures multiset(SortByPriority(s)) == multiset(s)
    ensures |SortByPriority(s)| == |s|
    ensures forall p: nat :: AtLevel(SortByPriority(s), p) == AtLevel(s, p)
  {
    SortSortedPerm(s);
    assert |SortByPriority(s)| == |multiset(SortByPriority(s))| == |multiset(s)| == |s|;
    forall p: nat
      ensures AtLevel(SortByPriority(s), p) == AtLevel(s, p)
    {
      SortStable(s, p);
    }
  }

  lemma {:induction false} SortSortedPerm(s: seq<Recommendation>)
    ensures ByPriority(SortByPriority(s))
    ensures multiset(SortByPriority(s)) == multiset(s)
    decreases |s|
  {
    if s != [] {
      var init, last := s[..|s| - 1], s[|s| - 1];
      SortSortedPerm(init);
      InsertSorted(last, SortByPriority(init));
      InsertPerm(last, SortByPriority(init));
      assert s == init + [last];
    }
  }

  lemma {:induction false} SortStable(s: seq<Recommendation>, p: nat)
    ensures AtLevel(SortByPriority(s), p) == AtLevel(s, p)
    decreases |s|
  {
    if s != [] {
      var init, last := s[..|s| - 1], s[|s| - 1];
      SortStable(init, p);
      SortSortedPerm(init);
      InsertLevels(last, SortByPriority(init), p);
      assert s == init + [last];
      AtLevelAppend(init, [last], p);
    }
  }

  // ---------------------------------------------------------------------
  // Properties of the rules
  // ---------------------------------------------------------------------

  /**
   * An actor yields a recommendation exactly when one of the four rules
   * applies, and the first rule that applies decides its priority and
   * confidence.
   */
  lemma ActorRuleProps(ip: string, tags: seq<string>)
    ensures var r := ActorRule(ip, tags);
      && (r.Some? <==>
            ("CONFIRMED_BOTNET" in tags && "SQLI_ATTACK" in tags) ||
            ("LFI_ATTACK" in tags && "CONFIRMED_SOPHISTICATED" in tags) ||
            ("CONFIRMED_COORDINATED" in tags && "BOT_ACTIVITY" in tags) ||
            "ISOLATED_INDICATOR" in tags)
      && (r.Some? ==> WellFormed(r.value) && 0.0 < r.value.confidence <= 1.0)
      && ("CONFIRMED_BOTNET" in tags && "SQLI_ATTACK" in tags ==>
            r.Some? && r.value.priority == "HIGH" && r.value.confidence == 0.95)
      && (r.Some? && r.value.priority == "LOW" ==>
            "ISOLATED_INDICATOR" in tags && !("CONFIRMED_COORDINATED" in tags && "BOT_ACTIVITY" in tags))
      && (r.Some? && r.value.priority == "MEDIUM" ==>
            !("CONFIRMED_BOTNET" in tags && "SQLI_ATTACK" in tags) &&
            !("LFI_ATTACK" in tags && "CONFIRMED_SOPHISTICATED" in tags))
  {
  }

  /**
   * As written, exactly the actors that a rule matches stop the analysis;
   * read from the actor's address instead, the same actors get their
   * recommendation, titled with that address. For the first rule this
   * also assumes a profile that declares `first_seen` and `last_seen`,
   * which its description and action items read.
   */
  lemma ActorAddressFinding(ip: string, tags: seq<string>)
    ensures ActorRuleAsWritten(tags).Failure? <==> ActorRule(ip, tags).Some?
    ensures ActorRuleAsWritten(tags).Success? ==> ActorRuleAsWritten(tags).value == ActorRule(ip, tags)
    ensures ActorRule(ip, tags).Some? ==>
      var t := ActorRule(ip, tags).value.title;
      |t| >= |ip| && t[|t| - |ip|..] == ip
  {
  }

  /** The first rule's tags: a botnet actor injecting SQL stops the analysis as written. */
  lemma BotnetSqlInjectionStops()
    ensures ActorRuleAsWritten(["CONFIRMED_BOTNET", "SQLI_ATTACK"]) == Failure(MissingAttribute("ip"))
    ensures ActorRule("10.0.0.1", ["CONFIRMED_BOTNET", "SQLI_ATTACK"]).Some?
  {
  }

  /** A campaign yields at most one HIGH, immediate-action recommendation. */
  lemma CampaignRuleProps(campaignId: string, primaryTags: set<string>)
    ensures var r := CampaignRule(campaignId, primaryTags);
      && (r.Some? <==>
            ({"COORDINATED_ATTACK", "LFI_ATTACK"} <= primaryTags ||
             {"BOTNET_ACTIVITY", "MULTI_VECTOR"} <= primaryTags))
      && (r.Some? ==> WellFormed(r.value) && r.value.priority == "HIGH" &&
                      r.value.category == "IMMEDIATE_ACTION")
      && ({"COORDINATED_ATTACK", "LFI_ATTACK"} <= primaryTags ==> r.Some? && r.value.confidence == 0.9)
  {
  }

  /** At most two global recommendations, each triggered by its own threshold. */
  lemma GlobalRulesProps(highThreat: nat, botnets: nat)
    ensures |GlobalRules(highThreat, botnets)| <= 2
    ensures |GlobalRules(highThreat, botnets)| ==
            (if highThreat > 5 then 1 else 0) + (if botnets > 3 then 1 else 0)
    ensures forall r :: r in GlobalRules(highThreat, botnets) ==> WellFormed(r) && r.priority == "HIGH"
  {
  }

  lemma {:induction false} ActorRecsProps(actors: seq<Actor>)
    ensures |ActorRecs(actors)| <= |actors|
    ensures forall r :: r in ActorRecs(actors) ==> WellFormed(r)
    decreases |actors|
  {
    if actors != [] {
      var a := actors[|actors| - 1];
      ActorRecsProps(actors[..|actors| - 1]);
      ActorRuleProps(a.ipAddress, a.tags);
    }
  }

  lemma {:induction false} CampaignRecsProps(campaigns: seq<Campaign>)
    ensures |CampaignRecs(campaigns)| <= |campaigns|
    ensures forall r :: r in CampaignRecs(campaigns) ==> WellFormed(r)
    decreases |campaigns|
  {
    if campaigns != [] {
      var c := campaigns[|campaigns| - 1];
      CampaignRecsProps(campaigns[..|campaigns| - 1]);
      CampaignRuleProps(c.campaignId, c.primaryTags);
    }
  }

  /** At most one per actor, one per campaign and two global ones; all well formed. */
  lemma GatheredProps(actors: seq<Actor>, campaigns: seq<Campaign>)
    ensures |Gathered(actors, campaigns)| <= |actors| + |campaigns| + 2
    ensures forall r :: r in Gathered(actors, campaigns) ==> WellFormed(r)
  {
    ActorRecsProps(actors);
    CampaignRecsProps(campaigns);
    GlobalRulesProps(HighThreatCount(actors), BotnetCount(actors));
  }

  // ---------------------------------------------------------------------
  // Summary
  // ---------------------------------------------------------------------

  datatype RecommendationSummary =
    | NoRecommendations
    | Totals(total: nat, high: nat, medium: nat, low: nat,
             immediateActions: nat, investigations: nat, monitoring: nat)

  function CountPriority(rs: seq<Recommendation>, priority: string): nat
  {
    if rs == [] then 0
    else CountPriority(rs[..|rs| - 1], priority) + (if rs[|rs| - 1].priority == priority then 1 else 0)
  }

  function CountCategory(rs: seq<Recommendation>, category: string): nat
  {
    if rs == [] then 0
    else CountCategory(rs[..|rs| - 1], category) + (if rs[|rs| - 1].category == category then 1 else 0)
  }

  function SummaryOf(rs: seq<Recommendation>): RecommendationSummary
  {
    if rs == [] then NoRecommendations
    else Totals(|rs|,
                CountPriority(rs, "HIGH"), CountPriority(rs, "MEDIUM"), CountPriority(rs, "LOW"),
                CountCategory(rs, "IMMEDIATE_ACTION"), CountCategory(rs, "INVESTIGATION"),
                CountCategory(rs, "MONITORING"))
  }

  lemma {:induction false} CountsCover(rs: seq<Recommendation>)
    requires forall r :: r in rs ==> WellFormed(r)
    ensures CountPriority(rs, "HIGH") + CountPriority(rs, "MEDIUM") + CountPriority(rs, "LOW") == |rs|
    ensures CountCategory(rs, "IMMEDIATE_ACTION") + CountCategory(rs, "INVESTIGATION") +
            CountCategory(rs, "MONITORING") == |rs|
    decreases |rs|
  {
    if rs != [] {
      assert rs[|rs| - 1] in rs;
      CountsCover(rs[..|rs| - 1]);
    }
  }

  /**
   * The summary is a message only for an empty list; otherwise, when every
   * recommendation is well formed, both the priority counts and the
   * category counts add up to the total.
   */
  lemma SummaryProps(rs: seq<Recommendation>)
    requires forall r :: r in rs ==> WellFormed(r)
    ensures SummaryOf(rs).NoRecommendations? <==> rs == []
    ensures SummaryOf(rs).Totals? ==>
      && SummaryOf(rs).high + SummaryOf(rs).medium + SummaryOf(rs).low == SummaryOf(rs).total
      && SummaryOf(rs).immediateActions + SummaryOf(rs).investigations + SummaryOf(rs).monitoring
         == SummaryOf(rs).total
  {
    CountsCover(rs);
  }

  /** What `GenerateRecommendations` stores and returns. */
  function Generated(actors: seq<Actor>, campaigns: seq<Campaign>): seq<Recommendation>
    reads actors, campaigns
  {
    SortByPriority(Gathered(actors, campaigns))
  }

  /**
   * The generated list: bounded in size, ordered by priority, a permutation
   * of the collected recommendations keeping each level's order, and its
   * summary's counts add up.
   */
  lemma GeneratedProps(actors: seq<Actor>, campaigns: seq<Campaign>)
    ensures var out := Generated(actors, campaigns);
      && |out| <= |actors| + |campaigns| + 2
      && ByPriority(out)
      && multiset(out) == multiset(Gathered(actors, campaigns))
      && (forall p: nat :: AtLevel(out, p) == AtLevel(Gathered(actors, campaigns), p))
      && (forall r :: r in out ==> WellFormed(r))
      && (SummaryOf(out).Totals? ==>
            SummaryOf(out).high + SummaryOf(out).medium + SummaryOf(out).low == SummaryOf(out).total)
  {
    var g := Gathered(actors, campaigns);
    GatheredProps(actors, campaigns);
    SortByPriorityProps(g);
    var out := SortByPriority(g);
    forall r | r in out
      ensures WellFormed(r)
    {
      assert r in multiset(out);
    }
    SummaryProps(out);
  }

  // ---------------------------------------------------------------------
  // The engine
  // ---------------------------------------------------------------------

  method CollectActorRecs(actors: seq<Actor>) returns (rs: seq<Recommendation>)
    ensures rs == ActorRecs(actors)
  {
    rs := [];
    for i := 0 to |actors|
      invariant rs == ActorRecs(actors[..i])
    {
      assert actors[..i + 1][..i] == actors[..i];
      rs := rs + AnalyzeActor(actors[i]);
    }
    assert actors[..|actors|] == actors;
  }

  method CollectCampaignRecs(campaigns: seq<Campaign>) returns (rs: seq<Recommendation>)
    ensures rs == CampaignRecs(campaigns)
  {
    rs := [];
    for i := 0 to |campaigns|
      invariant rs == CampaignRecs(campaigns[..i])
    {
      assert campaigns[..i + 1][..i] == campaigns[..i];
      rs := rs + AnalyzeCampaign(campaigns[i]);
    }
    assert campaigns[..|campaigns|] == campaigns;
  }

  class NarrativeEngine {
    var recommendations: seq<Recommendation>

    constructor ()
      ensures recommendations == []
    {
      recommendations := [];
    }

    /**
     * Collects actor, campaign and global recommendations, sorts them by
     * priority (stable) and keeps the result.
     */
    method GenerateRecommendations(actors: seq<Actor>, campaigns: seq<Campaign>) returns (rs: seq<Recommendation>)
      modifies this`recommendations
      ensures rs == Generated(actors, campaigns)
      ensures recommendations == rs
    {
      var fromActors := CollectActorRecs(actors);
      var fromCampaigns := CollectCampaignRecs(campaigns);
      var all := fromActors + fromCampaigns + GlobalRecs(actors);
      rs := SortByPriority(all);
      recommendations := rs;
    }

    method GetRecommendationsSummary() returns (s: RecommendationSummary)
      ensures s == SummaryOf(recommendations)
      ensures s.NoRecommendations? <==> recommendations == []
    {
      s := SummaryOf(recommendations);
    }
  }
}
