# SIGMA-PROBE decision layer in Dafny

This project models the decision layer of SIGMA-PROBE, a web-log threat analyser. The pipeline works as follows:

- Log events are grouped by source address into actor profiles.
- Each event carries URL features and heuristic flags.
- Four detectors tag actors and append evidence records:
  - the FFT (timing) detector;
  - the graph detector;
  - the anomaly detector;
  - the behavioural-clustering detector.
- A meta-detector cross-validates the detectors. It raises or lowers the confidence of their records.
- A rules engine scores each actor. The score is a product of four factors:
  - a base score over its tags;
  - a tag-combination factor;
  - a contextual factor;
  - a global factor.
- The scoring engine is meant to store the scores; as written it cannot (see "## Findings"). It then clusters the actors into campaigns.
- A narrative engine is meant to turn the tags into prioritised recommendations; as written, any actor that a rule matches stops it (see "## Findings").
- A MITRE ATT&CK table maps tags to techniques.
- Indicator-of-compromise (IoC) feeds match text against patterns loaded from the network.

## How the model is built

- Values are datatypes. Actors, events, campaigns, detectors, engines and feeds are classes, because the source updates their fields in place:
  - `tags` and `evidence_trail`, and `threat_score` in the corrected scoring pass (see "## Findings");
  - a feed's `patterns` and `error_count`;
  - a manager's `last_update`.
- Every loop of the source is a method. Each method is proved against a specification function, and the properties the source promises are proved about those functions as lemmas.
- The numeric libraries the detectors call are function parameters:
  - FFT and peak finding;
  - autocorrelation;
  - betweenness centrality, clustering coefficients and community detection;
  - z-scores;
  - standard scaling followed by DBSCAN.
- Shannon entropy and the regular-expression searches are inputs.
- What the code decides from those numbers is modelled: thresholds, tags, evidence records and the numeric entries of the summaries.
- Integers and reals are unbounded. Times are seconds, as reals for events and as integers for the IoC clock.

Modules, one per file:

| module | file | models |
|---|---|---|
| `Wrappers` | `wrappers.dfy` | `Option` and `Result` |
| `Text` | `text.dfy` | Python string operations |
| `Seqs` | `seqs.dfy` | sequence helpers: `Distinct`, `Count`, `Tally`, `Sum`, `Max`, `SortDesc` |
| `Evidence` | `evidence.dfy` | evidence records |
| `Models` | `models.dfy` | `src/models/core.py` |
| `Clustering` | `clustering.dfy` | the grouping and tagging that follows a clustering run |
| `RulesEngine` | `rules_engine.dfy` | the rules engine |
| `MetaDetection` | `metadetector.dfy` | the meta-detector |
| `Scoring` | `scoring.dfy` | the scoring engine |
| `Similarity` | `similarity.dfy` | the graph detector's helpers |
| `Detectors` | `detectors.dfy` | the four detectors |
| `Profiling` | `profiling.dfy` | profiling and enrichment stages |
| `Recommendations` | `recommendations.dfy` | the narrative engine |
| `Mitre` | `mitre.dfy` | the ATT&CK mapping |
| `IoC` | `ioc.dfy` | IoC feeds and their manager |

Some files exist twice: under `src/pipeline` and `src/intelligence`, and under `src/sigma_probe/...`. The two copies of the rules engine, the recommendation engine and the MITRE mapping are identical. The two copies of the profiling stage differ only in their imports (src/pipeline/profiling.py:9-10). The two copies of the scoring engine differ in their import of the models (src/pipeline/scoring.py:13) and in docstrings. The table cites the `src/pipeline` and `src/intelligence` copies.

## Model

| member | source | states |
|---|---|---|
| `Models.PathDepthShape` | src/models/core.py:64-77 | The path part holds no `?`. Path depth is at most the number of `/`-pieces of the path. |
| `Models.NonEmptyCountBound` | src/models/core.py:64-77 | Counting the non-empty pieces never exceeds the number of pieces. |
| `Models.QueryParamsCountShape` | src/models/core.py:64-77 | Without a `?` the parameter count is 0. With one, it is one more than the number of `&` in the query part, and the query part stops at a second `?`. |
| `Models.SuspiciousExtensionIgnoresCase` | src/models/core.py:135-144 | The extension check is case-insensitive: `/SHELL.PHP` is flagged. |
| `Models.FindSuspiciousExtension` | src/models/core.py:135-144 | The early-exit extension loop returns true exactly when some listed extension occurs in the lower-cased URL. Lower-casing folds the ASCII capitals and the two other characters that Python lowers into ASCII (U+0130 and U+212A). |
| `Models.DottedCapitalIExtension` | src/models/core.py:141-144 | A URL ending in `.CG` and a dotted capital I is flagged, as Python lowers that letter to `i` and a combining dot. |
| `Models.HeuristicFlags` | src/models/core.py:79-172 | Each flag is raised exactly when its condition holds, in both directions. The conditions are: the four pattern answers, a suspicious extension, entropy > 4.5, length > 2000, more than 10 parameters, and a non-empty suspicious user agent. |
| `Models.PatternFlags` | src/models/core.py:83-133 | The four pattern flags, each raised exactly when its pattern family matches, and no other flag. |
| `Models.FeatureFlags` | src/models/core.py:135-169 | The five feature flags, each raised exactly when its test holds: a listed extension, entropy > 4.5, length > 2000, more than 10 parameters, a non-empty matching user agent. No other flag. |
| `Models.LogEvent.constructor` | src/models/core.py:18-37 | The given fields are stored; every feature is unset and there are no flags. |
| `Models.LogEvent.CalculateFeatures` | src/models/core.py:39-172 | Entropy is 0.0 for an empty URL and the Shannon value otherwise. The URL features are computed. Each of the nine flags is raised exactly when its condition holds on those new values (high entropy: a non-empty URL whose Shannon value exceeds 4.5). The event is suspicious exactly when some flag is raised. |
| `Models.LogEvent.CalculateUrlFeatures` | src/models/core.py:64-77 | Sets the length, path depth and parameter count of the URL. |
| `Models.LogEvent.ApplyHeuristics` | src/models/core.py:79-172 | Recomputes the flags from scratch, each one if and only if its condition holds. Suspicious exactly when some flag is raised. |
| `Models.FrequenciesSumToOne` | src/models/core.py:220-226 | The URL frequency vector of a non-empty event list sums to 1. |
| `Models.FrequenciesAreShares` | src/models/core.py:220-226 | Every URL frequency lies in (0, 1]. |
| `Models.DiversityIsRatio` | src/models/core.py:209-212 | URL diversity lies in (0, 1] for a non-empty URL list. |
| `Models.AverageAtMostMax` | src/models/core.py:214-218 | The average computed entropy never exceeds the maximum. |
| `Models.TopFrequencies` | src/models/core.py:243-259 | At most 50 frequencies are kept for the vector. |
| `Models.BehavioralVectorShape` | src/models/core.py:243-259 | The behavioural vector always has 50 entries. It is all zeros for an actor without URLs. |
| `Models.BehavioralVectorSumsToOne` | src/models/core.py:243-259 | With positive frequencies, the vector is a distribution summing to 1. |
| `Models.BehavioralVectorDescending` | src/models/core.py:243-259 | The vector is in descending order: the largest shares first, then zero padding. |
| `Models.Actor.constructor` | src/models/core.py:174-195 | A new actor has its address and no events, tags or evidence. All metrics are 0. |
| `Models.Actor.AddEvent` | src/models/core.py:197-226 | Appends the event. The metrics are recomputed: request count, unique URLs, diversity ratio and frequency vector. The entropies are updated only when some event has one. |
| `Models.Actor.UpdateMetrics` | src/models/core.py:202-226 | With no events nothing changes. Otherwise the metrics are the functions of the events listed for `AddEvent`. |
| `Models.Actor.AddEvidence` | src/models/core.py:228-236 | Appends exactly one record with the given source, type, details and confidence. |
| `Models.Actor.AddTag` | src/models/core.py:238-241 | The tag joins the set (no duplicate), and a `tag_added` record is logged whether or not it was new. |
| `Models.Actor.GetBehavioralVector` | src/models/core.py:243-259 | Returns the 50-entry normalised vector of the largest URL frequencies. |
| `Models.FirstMaxIsFirstMaximal` | src/models/core.py:294-302 | `max` over a Counter picks a key with the largest count. No earlier key has that count. |
| `Models.MostCommonIsFirstMaximal` | src/models/core.py:294-302 | `most_common(1)` is an element of largest count, the first seen among equals. |
| `Models.UnionOfTags` | src/models/core.py:287-292 | The union loop yields exactly the tags of all actors. |
| `Models.TallyTags` | src/models/core.py:294-302 | The Counter's keys are the distinct tags in first-seen order. The counts are the number of occurrences. |
| `Models.TagCountIsCarriers` | src/models/core.py:294-299 | Since an actor's tags form a set, a tag's count is the number of actors carrying it. |
| `Models.Campaign.constructor` | src/models/core.py:261-270 | A new campaign has its id and actors, score 0.0, no primary tags, type `unknown` and no evidence. |
| `Models.Campaign.AddActor` | src/models/core.py:272-275 | Appends the actor. The primary tags become the union of all tags, and the type becomes the most common tag when there is one. |
| `Models.Campaign.UpdateMetrics` | src/models/core.py:277-302 | Recomputes the tag union and the most common tag. With no actors the tags are kept, and with no tags the type is kept. |
| `Models.CampaignMetrics` | src/models/core.py:287-302 | The union of all actors' tags, and a campaign type exactly when some tag occurs: the most common one, ties to the first seen. |
| `Models.Campaign.AddEvidence` | src/models/core.py:304-311 | Appends one record with no confidence. |
| `Clustering.Zip` | src/pipeline/scoring.py:88 | Python's `zip` pairs up to the shorter sequence. |
| `Clustering.IndexOf` | src/pipeline/scoring.py:87-92 | Returns the first position of a label. |
| `Clustering.ClusterLabelsNonNegative` | src/pipeline/scoring.py:89 | Noise labels (negative) never form a group. |
| `Clustering.MembersOfAbsentLabel` | src/pipeline/scoring.py:87-92 | A label nobody carries has no members. |
| `Clustering.MembersIff` | src/pipeline/scoring.py:87-92 | An element is a member for label `l` exactly when it was zipped with `l`. |
| `Clustering.ClustersShape` | src/pipeline/scoring.py:87-92 | The dictionary's keys are the distinct non-negative labels in first-appearance order. Each group holds exactly its label's elements, in input order. |
| `Clustering.GroupedMembers` | src/pipeline/scoring.py:87-92 | Every group of distinct actors is non-empty and repeat-free. Every member was zipped with the group's label. |
| `Clustering.GroupedLabels` | src/pipeline/scoring.py:87-92 | Group labels are non-negative and pairwise different. |
| `Clustering.GroupedHas` | src/pipeline/scoring.py:87-92 | An actor zipped with a non-negative label is in some group. |
| `Clustering.GroupedPartition` | src/pipeline/scoring.py:87-92 | Grouping partitions the labelled actors: groups are non-empty and disjoint. An actor is grouped exactly when its label is non-negative. |
| `Clustering.MembersPresent` | src/pipeline/scoring.py:87-92 | A label that occurs has members. |
| `Clustering.MembersNoDups` | src/pipeline/scoring.py:87-92 | Distinct actors give repeat-free groups. |
| `Clustering.AppendMember` | src/pipeline/scoring.py:90-92 | `if label not in clusters: clusters[label] = []` followed by an append. |
| `Clustering.GroupByLabel` | src/pipeline/scoring.py:86-92 | The dictionary loop builds exactly the specified grouping. |
| `Clustering.ValidActorsProps` | src/pipeline/scoring.py:64-72 | Exactly the actors with a non-empty, positive-sum vector are kept, in order. |
| `Clustering.SelectValid` | src/pipeline/scoring.py:64-72 | The selection loop returns the kept actors and their vectors. |
| `Clustering.MarkOfAbsent` | src/pipeline/scoring.py:94-115 | An actor in no group receives no size mark. |
| `Clustering.MarkOfMember` | src/pipeline/scoring.py:94-115 | A member of a group receives that group's size mark. |
| `Clustering.MemberIpsListed` | src/pipeline/scoring.py:117-119 | Every group member's address is in the list the isolation check consults. |
| `Clustering.MemberIpsOnlyMembers` | src/pipeline/scoring.py:117-119 | Every listed address belongs to some group member. |
| `Clustering.IsolatedActorsProps` | src/pipeline/scoring.py:117-119 | The isolated actors are exactly the valid actors whose address no member shares. |
| `Clustering.GroupedOutcome` | src/pipeline/scoring.py:94-128 | A group member gets its group's size mark and never the isolation mark. An ungrouped actor whose address no member shares gets the isolation mark only. |
| `Clustering.IsolatedIffUngrouped` | src/pipeline/scoring.py:117-128 | With distinct addresses, an actor is isolated exactly when no group holds it. |
| `Clustering.MarkAll` | src/pipeline/scoring.py:98-115 | Tags and logs every member of one group. Every other actor is unchanged. |
| `Clustering.MarkBySize` | src/pipeline/scoring.py:94-115 | Each actor's state changes by the mark of its group: three or more members (0.8), exactly two (0.6), or none. |
| `Clustering.MarkGroups` | src/pipeline/scoring.py:94-128 | Applies the size marks, then the isolation marks. Returns the isolated actors. |
| `RulesEngine.AttackCount` | src/pipeline/rules_engine.py:103-105 | The number of attack-type tags is at most 4. It is 0 exactly when the actor has none. |
| `RulesEngine.EvaluateConditionProps` | src/pipeline/rules_engine.py:77-107 | Each known condition holds if and only if its threshold test holds, with the source's defaults (0.8, 4.5, 0.5, 0.7). An unknown condition never holds. |
| `RulesEngine.Profiled` | src/pipeline/rules_engine.py:53-54 | Only tags that have a scoring profile take part. |
| `RulesEngine.ApplyModifiersScales` | src/pipeline/rules_engine.py:60-64 | Applying a profile's modifiers multiplies the running score by the product of the satisfied ones. |
| `RulesEngine.RunningSumScaled` | src/pipeline/rules_engine.py:49-75 | A profiled tag's modifiers scale the whole running sum, including earlier tags' scores. |
| `RulesEngine.UnprofiledTagIgnored` | src/pipeline/rules_engine.py:53-54 | A tag without a profile changes neither score nor evidence. |
| `RulesEngine.BaseScoreOnlyProfiled` | src/pipeline/rules_engine.py:49-75 | The base score and its evidence depend only on the profiled tags. |
| `RulesEngine.ModifierEvidenceShape` | src/pipeline/rules_engine.py:61-73 | One `modifier_applied` record at 0.7 per satisfied modifier, and no other. |
| `RulesEngine.BaseScoreDependsOnOrder` | src/pipeline/rules_engine.py:49-75 | Two tag orders give different base scores: the sum depends on set iteration order. |
| `RulesEngine.DynamicModifierRange` | src/pipeline/rules_engine.py:135-160 | The dynamic factor lies in [1, 6.552]. It is 1 without attack tags. |
| `RulesEngine.CombinationEvidenceShape` | src/pipeline/rules_engine.py:109-133 | One `combination_detected` record at 0.8 per matching configured key. |
| `RulesEngine.KeyMatchesMonotone` | src/pipeline/rules_engine.py:114-116 | Gaining tags never unmatches a combination key. |
| `RulesEngine.ConfiguredCombinationMonotone` | src/pipeline/rules_engine.py:109-133 | With multipliers ≥ 1, the configured factor is ≥ 1 and grows with the tag set. |
| `RulesEngine.ContextualModifierRange` | src/pipeline/rules_engine.py:162-227 | The contextual factor lies in [0.504, 3.276]. It is 1 for an empty context. |
| `RulesEngine.ContextualEvidenceIsBoosts` | src/pipeline/rules_engine.py:162-227 | Each summary logs a record exactly when its factor is a boost. Dampers log nothing. |
| `RulesEngine.ContextualEvidenceCount` | src/pipeline/rules_engine.py:162-227 | One `contextual_modifier` record per boost, none for an empty context. |
| `RulesEngine.TotalActorsIsMax` | src/pipeline/rules_engine.py:234-238 | The actor count is the largest `total_actors` among present summaries, or 0. |
| `RulesEngine.GlobalModifierRange` | src/pipeline/rules_engine.py:229-280 | The global factor lies in [1, 1.872]. |
| `RulesEngine.GlobalEvidenceCountsFactors` | src/pipeline/rules_engine.py:229-280 | One record per global factor applied. The two scale factors exclude each other. An empty context gives 1 and no records. |
| `RulesEngine.NoTagsScoresZero` | src/pipeline/rules_engine.py:23-47 | No tags give score 0. With an empty context they also give no evidence. |
| `RulesEngine.NoTagsNoCombination` | src/pipeline/rules_engine.py:109-133 | With no tags no configured combination matches. |
| `RulesEngine.SingleTagScore` | src/pipeline/rules_engine.py:23-75 | A lone profiled tag with base 8.0 and nothing else scores 8.0 with no evidence. |
| `RulesEngine.ScoringRulesEngine.constructor` | src/pipeline/rules_engine.py:17-21 | Stores the configuration. |
| `RulesEngine.ScoringRulesEngine.CalculateScore` | src/pipeline/rules_engine.py:23-47 | The score is the product of the four factors. The evidence is base, combination, contextual and global records, in that order. |
| `RulesEngine.ScoringRulesEngine.CalculateBaseScore` | src/pipeline/rules_engine.py:49-75 | The tag loop computes the specified base score and appends its records. |
| `RulesEngine.ScoringRulesEngine.ApplyProfileModifiers` | src/pipeline/rules_engine.py:60-73 | The modifier loop multiplies by each satisfied modifier in order and logs it. |
| `RulesEngine.ScoringRulesEngine.CalculateTagCombinationModifier` | src/pipeline/rules_engine.py:109-133 | The matching configured multipliers, times the dynamic factor. Logs the matches. |
| `RulesEngine.ScoringRulesEngine.MatchCombinations` | src/pipeline/rules_engine.py:113-127 | The product of the multipliers of the combinations whose tags are all present, and one evidence record per match, appended in configuration order. |
| `RulesEngine.ScoringRulesEngine.CalculateContextualModifier` | src/pipeline/rules_engine.py:162-227 | The product of the four summary factors, with their records. |
| `RulesEngine.ScoringRulesEngine.FftContext` | src/pipeline/rules_engine.py:166-180 | Widespread automation: boost 1.2 for an automated scanner, otherwise damp 0.8. |
| `RulesEngine.ScoringRulesEngine.GraphContext` | src/pipeline/rules_engine.py:182-195 | Centrality above twice the average boosts 1.3. Below half of it damps 0.9. |
| `RulesEngine.ScoringRulesEngine.AnomalyContext` | src/pipeline/rules_engine.py:197-211 | An anomalous run boosts highly anomalous actors (1.4) and damps the rest (0.7). |
| `RulesEngine.ScoringRulesEngine.ClusterContext` | src/pipeline/rules_engine.py:213-225 | A large cluster and a coordinated actor boost 1.5. |
| `RulesEngine.ScoringRulesEngine.CalculateGlobalModifier` | src/pipeline/rules_engine.py:229-280 | The scale, coordination and anomaly-rate factors, with their records. |
| `MetaDetection.IsolatedIndicatorIff` | src/pipeline/metadetector.py:168-177 | An isolated indicator is an attack tag with exactly one, heuristic record. |
| `MetaDetection.DescriptionChecksIgnoreOtherFields` | src/pipeline/metadetector.py:179-205 | The false-positive and timing checks read only sources and descriptions. |
| `MetaDetection.PatternPenalties` | src/pipeline/metadetector.py:64-131 | Every contradiction carries a penalty in [0.2, 0.4]. No confirmation carries one. There are at most three of each. |
| `MetaDetection.Boosted` | src/pipeline/metadetector.py:214-218 | One boost keeps the trail's length. |
| `MetaDetection.Penalized` | src/pipeline/metadetector.py:228-232 | One penalty keeps the trail's length. |
| `MetaDetection.AdjustedRecords` | src/pipeline/metadetector.py:207-232 | A boost or penalty changes exactly the matching records, to the value clamped into [0, 1]. Other records are untouched. |
| `MetaDetection.BoostAllKeepsUnitRange` | src/pipeline/metadetector.py:207-218 | Confidences in [0, 1] stay there through all boosts. |
| `MetaDetection.PenalizeAllKeepsUnitRange` | src/pipeline/metadetector.py:220-232 | Confidences in [0, 1] stay there through all penalties. |
| `MetaDetection.FallbackPenaltyUnused` | src/pipeline/metadetector.py:227 | Patterns with their own penalty never read the fallback. |
| `MetaDetection.AddKindsProps` | src/pipeline/metadetector.py:209-224 | Every pattern type joins the tags, no tag is lost, nothing else is added, and duplicates never appear. |
| `MetaDetection.MetaTrailShape` | src/pipeline/metadetector.py:39-59 | Adjusted records keep their place. The summary records come last, at most one per category. |
| `MetaDetection.MetaTrailKeepsUnitRange` | src/pipeline/metadetector.py:39-59 | Processing keeps every confidence in [0, 1]. |
| `MetaDetection.ConfiguredPenaltyUnused` | src/pipeline/metadetector.py:227 | The `confidence_penalty` read from the configuration (line 26) is only a fallback that every contradiction overrides with its own penalty, so it never affects the outcome. |
| `MetaDetection.BoostedTwice` | src/pipeline/metadetector.py:207-218 | A record named by two fired confirmations is boosted twice. |
| `MetaDetection.ConfirmedActors` | src/pipeline/metadetector.py:52-53 | The confirmed count is at most the number of actors. |
| `MetaDetection.ContradictedActors` | src/pipeline/metadetector.py:54-55 | The contradicted count is at most the number of actors. |
| `MetaDetection.EmptyTrailsNotCounted` | src/pipeline/metadetector.py:39-41 | Actors without evidence are never counted. |
| `MetaDetection.MetaDetector.constructor` | src/pipeline/metadetector.py:21-26 | The settings take the defaults 0.7, 0.3, 0.2 and 0.3. |
| `MetaDetection.MetaDetector.Detect` | src/pipeline/metadetector.py:28-62 | Each actor is processed as specified. The counters count actors with confirmations and with contradictions. |
| `MetaDetection.MetaDetector.ProcessActor` | src/pipeline/metadetector.py:39-59 | One actor's trail and tags become the specified outcome. Reports whether any confirmation and any contradiction fired. |
| `MetaDetection.MetaDetector.ApplyConfirmations` | src/pipeline/metadetector.py:207-218 | Tags with each confirmation and boosts the records it names. |
| `MetaDetection.MetaDetector.ApplyContradictions` | src/pipeline/metadetector.py:220-232 | Tags with each contradiction and lowers the records it names. |
| `MetaDetection.MetaDetector.AdjustTrail` | src/pipeline/metadetector.py:214-218 | The inner loop raises or lowers every matching record in place. |
| `MetaDetection.MetaDetector.AddMetaEvidence` | src/pipeline/metadetector.py:234-249 | Appends one summary record per non-empty category. |
| `Scoring.Copied` | src/pipeline/scoring.py:39-45 | One copied record per rules-engine record. |
| `Scoring.CopiedLogged` | src/pipeline/scoring.py:39-45 | Records already in `add_evidence` shape are copied unchanged. |
| `Scoring.CopiedRulesEvidence` | src/pipeline/scoring.py:33-45 | Copying the rules engine's evidence reproduces it record for record. |
| `Scoring.ScoredTrail` | src/pipeline/scoring.py:39-53 | Scoring adds one record per rules record plus one. |
| `Scoring.ScoredTrailShape` | src/pipeline/scoring.py:31-53 | The old trail is a prefix, then the rules evidence verbatim, then the summary record. |
| `Scoring.ScoringEngine.constructor` | src/pipeline/scoring.py:23-25 | Stores the configuration in itself and in its rules engine. |
| `Scoring.ScoringEngine.ScoreActorsAsWritten` | src/pipeline/scoring.py:27-36 | As written, the pass succeeds only on an empty actor list. Otherwise it fails at the first actor with a missing `threat_score` field and changes nothing. |
| `Scoring.OneActorStopsScoring` | src/pipeline/scoring.py:36 | A single fresh actor already makes the as-written pass fail. |
| `Scoring.ScoringEngine.ScoreActors` | src/pipeline/scoring.py:27-55 | The corrected pass: every actor's score and trail become the rules engine's result. |
| `Scoring.ScoringEngine.ScoreActor` | src/pipeline/scoring.py:31-53 | One actor's score and trail become the rules engine's result. |
| `Scoring.ScoringEngine.CopyEvidence` | src/pipeline/scoring.py:38-45 | One `add_evidence` per rules record, in order, with the confidence defaulting to 1.0. |
| `Scoring.ScoringEngine.ClusterCampaigns` | src/pipeline/scoring.py:57-151 | Fewer than two actors or two valid actors: no campaigns and no change. Otherwise one campaign per group, with the tags and records of grouping. |
| `Scoring.ScoringEngine.FormCampaigns` | src/pipeline/scoring.py:86-148 | Groups, marks and builds one campaign per group, in group order. |
| `Scoring.ScoringEngine.BuildCampaigns` | src/pipeline/scoring.py:130-148 | One fresh campaign per cluster, in order. |
| `Scoring.ScoringEngine.NewCampaign` | src/pipeline/scoring.py:133-146 | The campaign has `campaign_<label>`, the members, updated metrics and one creation record. |
| `Similarity.Diffs` | src/pipeline/detectors.py:302-313 | `np.diff` has one element fewer than a non-empty input. |
| `Similarity.PositiveGapsProps` | src/pipeline/detectors.py:302-313 | The gaps are positive and fewer than the elements. Over sorted input they sum to the span. |
| `Similarity.IntervalsProps` | src/pipeline/detectors.py:302-313 | The request intervals are positive and at most one fewer than the requests. They sum to the time span. |
| `Similarity.RequestIntervals` | src/pipeline/detectors.py:302-313 | The interval loop computes exactly the specified intervals. |
| `Similarity.JaccardProps` | src/pipeline/detectors.py:257-277 | Jaccard overlap lies in [0, 1] and is symmetric. It is 1 on equal non-empty sets and 0 on disjoint ones. |
| `Similarity.MeanClosenessProps` | src/pipeline/detectors.py:279-300 | For positive means, closeness lies in [0, 1], is symmetric, and is 1 exactly for equal means. |
| `Similarity.TimingSimilarityProps` | src/pipeline/detectors.py:279-300 | Timing similarity lies in [0, 1] and is symmetric. |
| `Similarity.BehavioralSimilarityProps` | src/pipeline/detectors.py:257-277 | The weighted similarity lies in [0, 1] and is symmetric. |
| `Similarity.RowIff` | src/pipeline/detectors.py:248-253 | A row holds exactly the edges to later actors above the threshold. |
| `Similarity.EdgesUpToIff` | src/pipeline/detectors.py:248-253 | The edge list holds exactly the edges of the rows so far. |
| `Similarity.ActorGraphProps` | src/pipeline/detectors.py:239-255 | One node per distinct address. An edge exists exactly for pairs above 0.3, with weight in (0.3, 1]. |
| `Similarity.GraphNodes` | src/pipeline/detectors.py:244-245 | The node loop adds each address once, in first-appearance order. |
| `Similarity.RowEdges` | src/pipeline/detectors.py:249-253 | The inner loop computes one row. |
| `Similarity.BuildActorGraph` | src/pipeline/detectors.py:239-255 | Builds exactly the specified graph. |
| `Similarity.GraphEdges` | src/pipeline/detectors.py:248-253 | The pair loop appends every row in order. |
| `Detectors.ApplyMark` | src/pipeline/detectors.py:35 | `add_tag` then `add_evidence` for a mark, when there is one. |
| `Detectors.CountMarksBound` | src/pipeline/detectors.py:190-220 | Two distinct marks' counts add up to at most the actor count. |
| `Detectors.CountIn` | src/pipeline/detectors.py:152 | A window count never exceeds the number of timestamps. |
| `Detectors.WindowFrequencies` | src/pipeline/detectors.py:146-154 | One rate per window. |
| `Detectors.SubAnalysesShaped` | src/pipeline/detectors.py:83-170 | Each analysis says nothing or gives its fixed score (0.8, 0.7, 0.9) with one record. Too few timestamps silence the windowed analysis. Autocorrelation speaks exactly when some lag exceeds the threshold. |
| `Detectors.CombinedFlagIff` | src/pipeline/detectors.py:50-81 | The combined score exceeds 0.5 exactly when some analysis produced a record. There are at most three records, all from the FFT detector. |
| `Detectors.FftOutcomeProps` | src/pipeline/detectors.py:50-81 | Short timelines are untouched. Otherwise the actor is tagged `BOT_ACTIVITY` exactly when some analysis produced a record, and gains 1-3 records. |
| `Detectors.CountWindows` | src/pipeline/detectors.py:146-154 | The window loop computes the specified rates. |
| `Detectors.AnalyzeWindowedChanges` | src/pipeline/detectors.py:132-170 | Computes exactly the specified windowed verdict. |
| `Detectors.FFTDetector.constructor` | src/pipeline/detectors.py:42-48 | Missing settings take the defaults 3, 0.1, 0.3, 600 and 5.0. |
| `Detectors.FFTDetector.DetectOne` | src/pipeline/detectors.py:53-79 | One actor's state becomes the specified FFT outcome. |
| `Detectors.FFTDetector.Detect` | src/pipeline/detectors.py:50-81 | Every actor gets its FFT outcome. The context update is empty. |
| `Detectors.FftPassFinding` | src/pipeline/detectors.py:76-79 | As written the pass completes exactly when no actor is flagged. Otherwise it stops at the first flagged actor, and no earlier actor was flagged. |
| `Detectors.FftPassStopsAtFlag` | src/pipeline/detectors.py:53-79 | With two or more timelines and the first one flagged, the pass as written stops after one actor. |
| `Detectors.GraphMarkProps` | src/pipeline/detectors.py:200-220 | Coordinator exactly when centrality > 0.3 and clustering < 0.3. Cluster member exactly when clustering > 0.5 otherwise. The counts add up to at most the actor count. |
| `Detectors.ApplyGraphMarks` | src/pipeline/detectors.py:193-220 | Sets each centrality, applies each mark and counts the marks. |
| `Detectors.MarkByGraph` | src/pipeline/detectors.py:194-220 | One actor: its centrality is set and the coordinator or cluster-member mark its two coefficients call for is applied. |
| `Detectors.GraphDetector.Detect` | src/pipeline/detectors.py:175-237 | Fewer than two actors: nothing happens. Otherwise marks and a summary of the counts. |
| `Detectors.AnomalyMarkProps` | src/pipeline/detectors.py:346-368 | ANOMALOUS above 0.7 and SUSPICIOUS in (0.4, 0.7], each in both directions. The anomaly rate lies in [0, 1]. |
| `Detectors.ApplyAnomalyMarks` | src/pipeline/detectors.py:341-362 | Sets each anomaly ratio, applies each mark and counts the anomalies. |
| `Detectors.AnomalyDetector.Detect` | src/pipeline/detectors.py:331-374 | Fewer than three actors: nothing happens. Otherwise scores against the baseline, marks, and returns a summary. |
| `Detectors.LargestClusterProps` | src/pipeline/detectors.py:506 | The largest size bounds every cluster and is one cluster's size. |
| `Detectors.LargestSize` | src/pipeline/detectors.py:506 | The loop finds the largest cluster size. |
| `Detectors.BehavioralClusteringDetector.Detect` | src/pipeline/detectors.py:428-509 | The same validity guard, grouping and marks as the scoring engine, logged under this detector, then the summary. |
| `Detectors.BehavioralClusteringDetector.Summarize` | src/pipeline/detectors.py:457-509 | Marks the grouped and isolated actors and returns the cluster summary. |
| `Profiling.EventsFromProps` | src/pipeline/profiling.py:26-34 | A group holds exactly the events from its address, as many as carry it. |
| `Profiling.GroupingPartition` | src/pipeline/profiling.py:26-34 | Grouping partitions the events: every event is in its address's group, each address once, and the sizes sum to the event count. |
| `Profiling.OrderStep` | src/pipeline/profiling.py:26-34 | A new address is appended to the key order. A seen one changes nothing. |
| `Profiling.GroupsStep` | src/pipeline/profiling.py:26-34 | Only the event's own group grows. |
| `Profiling.AppendEvent` | src/pipeline/profiling.py:26-28 | One `defaultdict` append keeps the grouping invariant. |
| `Profiling.GroupByIp` | src/pipeline/profiling.py:26-28 | The loop groups by address, keys in first-appearance order. |
| `Profiling.CreateProfile` | src/pipeline/profiling.py:40-63 | An empty list is an error (the `ValueError`). Otherwise a fresh profile with the count, min/max times and events. |
| `Profiling.SeenBounds` | src/pipeline/profiling.py:50-52 | First seen ≤ last seen, and both are event times. |
| `Profiling.GroupsNonEmpty` | src/pipeline/profiling.py:31-34 | Every address's group is non-empty, so profile creation never fails here. |
| `Profiling.ProfileActors` | src/pipeline/profiling.py:16-38 | No events give no actors. Otherwise one fresh profile per distinct address, built from its events. |
| `Profiling.BuildProfiles` | src/pipeline/profiling.py:31-34 | The profile loop builds one profile per group. |
| `Profiling.HistogramComplete` | src/pipeline/profiling.py:86-96 | A counting histogram's counts sum to the number of events. |
| `Profiling.EnrichmentHistograms` | src/pipeline/profiling.py:86-96 | Both histograms count every event exactly once. |
| `Profiling.EnrichmentRatios` | src/pipeline/profiling.py:98-121 | URL and user-agent diversity lie in (0, 1]. |
| `Profiling.EnrichmentRate` | src/pipeline/profiling.py:102-113 | The time span is non-negative. The rate lies in (0, event count]. |
| `Profiling.Histograms` | src/pipeline/profiling.py:86-96 | The two counting loops compute the specified histograms. |
| `Profiling.EnrichProfile` | src/pipeline/profiling.py:79-121 | No events: no change. Otherwise the nine signatures are written over the old ones. |
| `Profiling.EnrichAll` | src/pipeline/profiling.py:69-77 | Every profile is enriched. |
| `Recommendations.SortByPriorityProps` | src/pipeline/recommendations.py:58 | The stable sort orders by non-increasing priority and is a permutation. Each priority level keeps its input order. |
| `Recommendations.SortSortedPerm` | src/pipeline/recommendations.py:58 | The sort yields non-increasing priority and the same multiset of recommendations. |
| `Recommendations.SortStable` | src/pipeline/recommendations.py:58 | Within each priority level the sorted list keeps the input order. |
| `Recommendations.AtLevelAppend` | src/pipeline/recommendations.py:58 | Selecting a level distributes over concatenation. |
| `Recommendations.InsertPerm` | src/pipeline/recommendations.py:58 | Insertion adds exactly the element. |
| `Recommendations.InsertSorted` | src/pipeline/recommendations.py:58 | Insertion keeps the priority order. |
| `Recommendations.InsertLevels` | src/pipeline/recommendations.py:58 | Insertion places the element after its equals. |
| `Recommendations.ActorRuleProps` | src/pipeline/recommendations.py:65-143 | A recommendation exists exactly when one of the four rules applies. The first rule decides priority and confidence. |
| `Recommendations.ActorAddressFinding` | src/pipeline/recommendations.py:65-143 | As written, exactly the actors a rule matches stop on the missing `ip` attribute. Corrected, the same actors get their recommendation, titled with their address, provided the profile also declares `first_seen` and `last_seen` for the first rule (see "## Left out"). |
| `Recommendations.BotnetSqlInjectionStops` | src/pipeline/recommendations.py:69-74 | A botnet actor with SQL injection stops the analysis as written. |
| `Recommendations.CampaignRuleProps` | src/pipeline/recommendations.py:145-188 | A campaign yields at most one HIGH immediate-action recommendation, exactly when a rule applies. |
| `Recommendations.GlobalRulesProps` | src/pipeline/recommendations.py:190-235 | At most two global recommendations, each fired by its own threshold. All are HIGH. |
| `Recommendations.ActorRecsProps` | src/pipeline/recommendations.py:36-63 | At most one per actor, all well formed. |
| `Recommendations.CampaignRecsProps` | src/pipeline/recommendations.py:36-63 | At most one per campaign, all well formed. |
| `Recommendations.GatheredProps` | src/pipeline/recommendations.py:36-63 | At most actors + campaigns + 2, all well formed. |
| `Recommendations.CountsCover` | src/pipeline/recommendations.py:241-258 | Priority counts and category counts each add up to the total. |
| `Recommendations.SummaryProps` | src/pipeline/recommendations.py:241-258 | The summary is the "no recommendations" message exactly for an empty list. Otherwise its counts add up. |
| `Recommendations.GeneratedProps` | src/pipeline/recommendations.py:36-63 | The output is bounded, sorted by priority, a stable permutation of the collected list, with consistent summary counts. |
| `Recommendations.CollectActorRecs` | src/pipeline/recommendations.py:43-46 | The actor loop collects the specified list. |
| `Recommendations.CollectCampaignRecs` | src/pipeline/recommendations.py:48-51 | The campaign loop collects the specified list. |
| `Recommendations.NarrativeEngine.constructor` | src/pipeline/recommendations.py:32-34 | Starts with no recommendations. |
| `Recommendations.NarrativeEngine.GenerateRecommendations` | src/pipeline/recommendations.py:36-63 | The corrected pass (see "## Findings"): returns and stores the sorted collection built from the corrected actor rules. |
| `Recommendations.NarrativeEngine.GetRecommendationsSummary` | src/pipeline/recommendations.py:241-258 | Summarises the stored list. It is the message exactly when the list is empty. |
| `Mitre.TechniquesKeyed` | src/intelligence/mitre_mapping.py:83-135 | Every technique is stored under its own id. |
| `Mitre.MappingClosed` | src/intelligence/mitre_mapping.py:28-135 | Every mapped id is a known technique. |
| `Mitre.TechniqueById` | src/intelligence/mitre_mapping.py:152-154 | Found exactly for known ids, with that id. |
| `Mitre.FormatReference` | src/intelligence/mitre_mapping.py:168-173 | Starts with the id. It is the bare id when unknown, and `id - name (tactic)` otherwise. |
| `Mitre.TagIdsProps` | src/intelligence/mitre_mapping.py:137-150 | The lookup is a union over tags. Unknown tags are ignored, and the lookup is monotone. |
| `Mitre.KnownProps` | src/intelligence/mitre_mapping.py:146-148 | Exactly the known ids' techniques. No repeats for distinct ids. |
| `Mitre.KnownInProps` | src/intelligence/mitre_mapping.py:146-148 | Over any table keyed by technique id: a technique is kept exactly when its id is listed and known; distinct ids give distinct techniques; never more techniques than ids. |
| `Mitre.UpdateIds` | src/intelligence/mitre_mapping.py:142-144 | The set update adds the new ids without repeats. |
| `Mitre.KnownTechniques` | src/intelligence/mitre_mapping.py:146-148 | The lookup loop keeps the known techniques in order. |
| `Mitre.TechniquesForTags` | src/intelligence/mitre_mapping.py:137-150 | Each mapped technique once, unknown tags ignored. |
| `Mitre.MappedIds` | src/intelligence/mitre_mapping.py:142-144 | The collected ids are exactly the ids mapped from the given tags, each once. |
| `Mitre.KnownForTags` | src/intelligence/mitre_mapping.py:137-150 | Looking up the mapped ids yields each technique mapped from the tags exactly once, and nothing else. |
| `Mitre.TechniquesForActor` | src/intelligence/mitre_mapping.py:156-160 | The techniques of the actor's tags. |
| `Mitre.ListOf` | src/intelligence/mitre_mapping.py:158-165 | A set listed in some order, each element once. |
| `Mitre.TechniquesForCampaign` | src/intelligence/mitre_mapping.py:162-166 | The techniques of the campaign's primary tags. |
| `Mitre.OfTacticProps` | src/intelligence/mitre_mapping.py:175-192 | A tactic's group holds exactly its techniques, as many as the tactic occurs. |
| `Mitre.GroupSizesCount` | src/intelligence/mitre_mapping.py:175-192 | Group sizes are tactic counts. |
| `Mitre.SummaryProps` | src/intelligence/mitre_mapping.py:175-192 | Only known ids count. Tactics are listed once, in first-appearance order. Groups hold exactly their tactic's techniques, and the total is the sum of group sizes. |
| `Mitre.GroupingProps` | src/intelligence/mitre_mapping.py:179-186 | Each tactic is a group key once; a group holds exactly the techniques of its tactic; group sizes add up to the number of techniques. |
| `Mitre.SummaryStep` | src/intelligence/mitre_mapping.py:180-186 | One technique extends only its own tactic's group. |
| `Mitre.TechniqueSummaryOf` | src/intelligence/mitre_mapping.py:175-192 | The summary loop builds exactly the specified summary. |
| `IoC.ParsePatternsProps` | src/intelligence/ioc_manager.py:41-53 | Patterns are non-empty, non-comment, stripped and single-line. Every such line is kept. |
| `IoC.PatternsSnoc` | src/intelligence/ioc_manager.py:43-46 | One more line adds its stripped form exactly when it is a pattern. |
| `IoC.LoadProps` | src/intelligence/ioc_manager.py:32-63 | A disabled feed ignores loads. Success replaces the patterns and clears the errors. Failure keeps the patterns and counts one more error. A feed is never re-enabled and stays healthy. |
| `IoC.ThreeFailuresDisable` | src/intelligence/ioc_manager.py:55-63 | Three failures in a row switch a healthy feed off for good. |
| `IoC.IoCFeed.constructor` | src/intelligence/ioc_manager.py:22-30 | Stores the settings; no patterns, no update and no errors. |
| `IoC.IoCFeed.LoadPatterns` | src/intelligence/ioc_manager.py:32-63 | The feed's state becomes the specified load outcome. Returns whether it succeeded. |
| `IoC.IoCFeed.MatchPattern` | src/intelligence/ioc_manager.py:65-73 | Returns a stored pattern occurring in the text, or nothing exactly when no pattern occurs or the feed is off. |
| `IoC.ParseLines` | src/intelligence/ioc_manager.py:42-46 | The line loop collects exactly the patterns. |
| `IoC.LastIndex` | src/intelligence/ioc_manager.py:87-101 | Finds the last configuration of a name. |
| `IoC.LastIndexProps` | src/intelligence/ioc_manager.py:87-101 | Found exactly for configured names, and no later entry has the name. |
| `IoC.RegistryStep` | src/intelligence/ioc_manager.py:94-101 | One more configuration replaces or adds its feed. |
| `IoC.BuildFeeds` | src/intelligence/ioc_manager.py:87-101 | One feed per configured name, built from its last entry, in first-appearance order. |
| `IoC.AttackType` | src/intelligence/ioc_manager.py:184-193 | `lfi` before `sqli` before `xss`, case-insensitively, else `Attack`. |
| `IoC.AttackTypeIgnoresCase` | src/intelligence/ioc_manager.py:184-193 | Names with the same lower-case form give the same type. |
| `IoC.DottedCapitalIFeed` | src/intelligence/ioc_manager.py:184-187 | A feed named `LF` and a dotted capital I is an LFI feed, as Python lowers that letter to `i` and a combining dot. |
| `IoC.IoCManager.constructor` | src/intelligence/ioc_manager.py:78-101 | Defaults 3600 and enabled. No feeds when disabled. |
| `IoC.IoCManager.UpdateFeeds` | src/intelligence/ioc_manager.py:103-125 | Disabled: nothing, false. Recent update: nothing, true. Otherwise every feed is loaded, and the result says whether any load succeeded. |
| `IoC.IoCManager.FirstHit` | src/intelligence/ioc_manager.py:127-139 | Finds a position of a configured feed. |
| `IoC.IoCManager.FirstHitProps` | src/intelligence/ioc_manager.py:127-182 | The chosen feed is of the kind and hits. No earlier feed of the kind hits. |
| `IoC.IoCManager.FirstMatch` | src/intelligence/ioc_manager.py:127-182 | The first hitting feed of the kind, with a pattern in the text. |
| `IoC.IoCManager.Check` | src/intelligence/ioc_manager.py:127-182 | A hit exactly when some feed of the kind hits, reported with the kind's confidence. |
| `IoC.IoCManager.CheckUserAgent` | src/intelligence/ioc_manager.py:127-139 | A hit at 0.9 exactly when a user-agent feed matches. |
| `IoC.IoCManager.CheckUrlPath` | src/intelligence/ioc_manager.py:141-153 | A hit at 0.8 exactly when a path feed matches. |
| `IoC.IoCManager.CheckIpAddress` | src/intelligence/ioc_manager.py:155-167 | A hit at 0.95 exactly when an address feed matches. |
| `IoC.IoCManager.CheckUrlPattern` | src/intelligence/ioc_manager.py:169-182 | A hit at 0.85, typed from the feed name, exactly when a URL feed matches. |
| `IoC.IoCManager.EnabledCountBound` | src/intelligence/ioc_manager.py:195-205 | At most all feeds are enabled. |
| `IoC.IoCManager.StatsProps` | src/intelligence/ioc_manager.py:195-205 | The feed count is the number of names, the enabled count is at most that, and the pattern total is zero exactly when no feed holds a pattern. |
| `IoC.IoCManager.PatternTotalZero` | src/intelligence/ioc_manager.py:197 | The summed pattern counts are zero exactly when every summed feed's pattern set is empty. |

## Left out

- Numeric libraries. The following are function parameters, not models: the spectrum and peak finding, autocorrelation, betweenness centrality, clustering coefficients, community detection, z-score scores, and standard scaling with DBSCAN. The detectors' decisions on their outputs are modelled.
- Shannon entropy and the URL regular expressions are inputs. Their definitions are not modelled.
- Logging, `print` status output and the formatted numbers inside `details` strings are not modelled.
- Evidence timestamps and datetimes. Event times are seconds as reals. IoC times are integer seconds passed as `now`.
- The HTTP fetch of a feed is the parameter `fetch`. Network errors are the one `Failed` response.
- The IoC manager's configuration dictionary is the `ManagerConfig` datatype.
- Recommendation descriptions and action items, and MITRE technique descriptions, are free text and are not modelled.
- Recommendations.ActorRule: assumes the actor profile declares `first_seen` and `last_seen`. The first rule's description and second action item read them (src/pipeline/recommendations.py:77, 80-81), but `ActorProfile` (src/models/core.py:174-195) declares neither, so even with the address fixed an actor tagged `CONFIRMED_BOTNET` and `SQLI_ATTACK` would raise an attribute error in the source. The free text is not modelled, so this second failure is not modelled either.
- Python set iteration order is unspecified. Lookups over sets (`get_techniques_for_tags`, `match_pattern`) are specified up to that order. `match_pattern` returns any stored pattern that occurs.
- `hasattr(actor, 'tags')` and `hasattr(campaign, 'primary_tags')` (src/models/core.py:290, 297; src/intelligence/mitre_mapping.py:158, 164) always hold for typed actors and campaigns. Their false branches are not modelled.
- Models.Campaign.UpdateMetrics: keeps `threat_score`, because the source averages it only over members with a dictionary-style `get`, and actors have none.
- Detectors.GraphDetector.Detect: edges are kept as a list. If two actors shared an address, networkx would merge their edges and keep the last weight. Actors come from a dictionary keyed by address, so their addresses are distinct.
- Summaries: each detector's summary also holds `'detector': self.name` (src/pipeline/detectors.py:232, 369 and 507). Summaries are modelled as maps to numbers, so that entry is left out. No rule reads it.
- Several methods require the actor list to have no duplicates, because an in-place update on a repeated object is not modelled.
- The unused `coordinated_attacks` statistic and the two meta-detector thresholds are stored but consulted by no rule.
- The profiling stages use their own event and profile records, because they read fields that the models in src/models/core.py do not declare.
- IoC.FeedConfig: a feed configuration missing `name`, `url` or `type` raises `KeyError` in the source. The model's record always has them.
- Reporting, ingestion and the command-line entry point are not part of this model.

## Findings

| source | as written | input that shows it | evidently intended | confidence | as-written member | corrected member |
|---|---|---|---|---|---|---|
| src/pipeline/recommendations.py:74 | Each actor rule builds its title and text from `actor.ip`, which `ActorProfile` does not declare (it has `ip_address`), so a matching actor raises an attribute error | an actor tagged `CONFIRMED_BOTNET` and `SQLI_ATTACK` | the title names the actor's `ip_address`; the first rule's description and second action item also read `first_seen` and `last_seen`, which `ActorProfile` does not declare either, so the corrected rule assumes a profile that declares them | not executed | `Recommendations.ActorRuleAsWritten`, `Recommendations.BotnetSqlInjectionStops` | `Recommendations.ActorRule`, `Recommendations.ActorAddressFinding` |
| src/pipeline/detectors.py:79 | After tagging a flagged actor, the log line reads `actor.ip`, which `ActorProfile` does not declare, so the pass raises an attribute error and later actors are never examined | two actors whose first timeline is flagged (ten or more events, five or more intervals, combined score above 0.5) | the log line uses `ip_address` and the pass goes on | not executed | `Detectors.FftPassAsWritten`, `Detectors.FftPassFinding`, `Detectors.FftPassStopsAtFlag` | `Detectors.FFTDetector.Detect`, `Detectors.FftOutcomeProps` |
| src/pipeline/scoring.py:36 | `actor.threat_score = final_score` assigns a field that the pydantic model `ActorProfile` (src/models/core.py:174-195) does not declare, so it raises `ValueError` on the first actor: no score is stored, no evidence is copied and the stage stops | any non-empty actor list, for example one fresh actor | `ActorProfile` declares `threat_score: float = 0.0`, as `ThreatCampaign` does, and every actor is scored | not executed | `Scoring.ScoringEngine.ScoreActorsAsWritten`, `Scoring.OneActorStopsScoring` | `Scoring.ScoringEngine.ScoreActors`, `Scoring.ScoredTrailShape` |
