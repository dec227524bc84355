/**
 * The decision layer of the four detectors. The numeric work they delegate to libraries (the
 * spectrum and its peaks, autocorrelation, graph centrality and clustering coefficients,
 * community detection, z-score anomaly scores, scaling plus DBSCAN) arrives as function
 * parameters; what the detectors decide from those numbers, the tags and records they add and
 * the summaries they return are modelled exactly.
 */
module Detectors {
  import opened Wrappers
  import opened Text
  import opened Seqs
  import opened Evidence
  import opened Models
  import opened Similarity
  import opened Clustering
  import RulesEngine

  // ---------------------------------------------------------------------------------------
  // Shared by the detectors

  /** `add_tag` followed by `add_evidence` for the mark, when there is one. */
  method ApplyMark(actor: Actor, m: Option<Mark>, source: string)
    modifies actor`tags, actor`trail
    ensures StateOf(actor) == MarkedBy(old(StateOf(actor)), m, source)
  {
    if m.Some? {
      actor.AddTag(m.value.tag, source);
      actor.AddEvidence(source, m.value.kind, m.value.details, m.value.confidence);
    }
  }

  /** How many of the marks are `m`. */
  function CountMark(ms: seq<Option<Mark>>, m: Mark): nat
    decreases |ms|
  {
    if ms == [] then 0
    else CountMark(ms[..|ms| - 1], m) + (if ms[|ms| - 1] == Some(m) then 1 else 0)
  }

  /** Two different marks are counted over disjoint positions, so their counts add up to at most the length. */
  lemma {:induction false} CountMarksBound(ms: seq<Option<Mark>>, m1: Mark, m2: Mark)
    requires m1 != m2
    ensures CountMark(ms, m1) + CountMark(ms, m2) <= |ms|
    decreases |ms|
  {
    if ms != [] {
      CountMarksBound(ms[..|ms| - 1], m1, m2);
    }
  }

  function IpsOf(actors: seq<Actor>): (ips: seq<string>)
    ensures |ips| == |actors|
  {
    seq(|actors|, i requires 0 <= i < |actors| => actors[i].ipAddress)
  }

  // ---------------------------------------------------------------------------------------
  // FFTDetector

  const FftSource: string := "FFTDetector"

  /** A sub-analysis result: its score and the records it contributes. */
  datatype Verdict = Verdict(score: real, evidence: seq<Record>)

  const Silent: Verdict := Verdict(0.0, [])

  /** A verdict that either says nothing or gives `score` with one record of that confidence. */
  predicate Shaped(v: Verdict, score: real) {
    v == Silent || (v.score == score && |v.evidence| == 1 && v.evidence[0].source == FftSource
                    && v.evidence[0].confidence == Some(score))
  }

  /** What the spectrum of the intervals shows: the peaks found in its lower half, the largest of them and the largest magnitude. */
  datatype Spectrum = Spectrum(peakCount: nat, maxPeak: real, maxMagnitude: real)

  /** `_analyze_fft`: enough peaks, and the largest stands out; without peaks `np.max` raises and the analysis says nothing. */
  function FftAnalysis(sp: Spectrum, minPeaks: int, peakThreshold: real): Verdict {
    if sp.peakCount >= minPeaks && sp.peakCount > 0 && sp.maxPeak > peakThreshold * sp.maxMagnitude then
      Verdict(0.8, [Described(FftSource, "Detected " + NatToString(sp.peakCount) + " periodic patterns in request intervals", 0.8)])
    else Silent
  }

  /** A list of numbers as Python prints it: `[1, 2, 3]`. */
  function ListText(ns: seq<nat>): string {
    "[" + Items(ns) + "]"
  }

  function Items(ns: seq<nat>): string
    decreases |ns|
  {
    if ns == [] then ""
    else if |ns| == 1 then NatToString(ns[0])
    else NatToString(ns[0]) + ", " + Items(ns[1..])
  }

  /** `_analyze_autocorrelation`, given the indices of the lags above the threshold. */
  function AutocorrAnalysis(lags: seq<nat>): Verdict {
    if lags != [] then
      var shown := if |lags| > 3 then lags[..3] else lags;
      Verdict(0.7, [Described(FftSource, "Detected autocorrelation at lags " + ListText(shown), 0.7)])
    else Silent
  }

  /** How many of `ts` fall in `[lo, hi)`. */
  function CountIn(ts: seq<real>, lo: real, hi: real): (n: nat)
    ensures n <= |ts|
    decreases |ts|
  {
    if ts == [] then 0
    else CountIn(ts[..|ts| - 1], lo, hi) + (if lo <= ts[|ts| - 1] < hi then 1 else 0)
  }

  /** The request rate in each of `n` consecutive windows of width `width` from `start`. */
  function WindowFrequencies(ts: seq<real>, start: real, width: real, n: nat): (fs: seq<real>)
    requires width > 0.0
    ensures |fs| == n
  {
    seq(n, i requires 0 <= i < n => WindowRate(ts, start + i as real * width, width))
  }

  lemma WindowFrequency(ts: seq<real>, start: real, width: real, n: nat, i: nat)
    requires width > 0.0 && i < n
    ensures WindowFrequencies(ts, start, width, n)[i] == WindowRate(ts, start + i as real * width, width)
  {
  }

  /** The request rate in the window of width `width` from `lo`. */
  function WindowRate(ts: seq<real>, lo: real, width: real): real
    requires width > 0.0
  {
    CountIn(ts, lo, lo + width) as real / width
  }

  function AbsAll(s: seq<real>): (r: seq<real>)
    ensures |r| == |s|
  {
    seq(|s|, i requires 0 <= i < |s| => Abs(s[i]))
  }

  /**
   * `_analyze_windowed_changes`: at least `2 * width` timestamps and two whole windows, then a
   * change of rate between neighbouring windows above the threshold. A width that is not positive
   * divides by zero or yields no window, so it says nothing.
   */
  function WindowedAnalysis(ts: seq<real>, width: real, changeThreshold: real): Verdict {
    if (|ts| as real) < width * 2.0 || width <= 0.0 then Silent
    else
      var start := Seqs.Min(ts);
      var count := ((Max(ts) - start) / width).Floor;
      if count < 2 then Silent
      else
        var changes := AbsAll(Diffs(WindowFrequencies(ts, start, width, count)));
        if Max(changes) > changeThreshold then
          Verdict(0.9, [Described(FftSource, "Detected dramatic frequency change between windows", 0.9)])
        else Silent
  }

  /** Each sub-analysis either says nothing or gives its fixed score (0.8, 0.7, 0.9) with one record of that confidence. */
  lemma SubAnalysesShaped(sp: Spectrum, minPeaks: int, peakThreshold: real, lags: seq<nat>,
                          ts: seq<real>, width: real, changeThreshold: real)
    ensures Shaped(FftAnalysis(sp, minPeaks, peakThreshold), 0.8)
    ensures Shaped(AutocorrAnalysis(lags), 0.7)
    ensures Shaped(WindowedAnalysis(ts, width, changeThreshold), 0.9)
    ensures (|ts| as real) < width * 2.0 ==> WindowedAnalysis(ts, width, changeThreshold) == Silent
    ensures AutocorrAnalysis(lags) != Silent <==> lags != []
  {
  }

  /** The three results together: the largest score and all records, in order. */
  function Combined(a: Verdict, b: Verdict, c: Verdict): Verdict {
    var top := if a.score >= b.score then a.score else b.score;
    Verdict(if top >= c.score then top else c.score, a.evidence + b.evidence + c.evidence)
  }

  /** With shaped parts, the combination passes 0.5 exactly when some part produced a record. */
  lemma CombinedFlagIff(a: Verdict, b: Verdict, c: Verdict)
    requires Shaped(a, 0.8) && Shaped(b, 0.7) && Shaped(c, 0.9)
    ensures Combined(a, b, c).score > 0.5 <==> Combined(a, b, c).evidence != []
    ensures |Combined(a, b, c).evidence| <= 3
    ensures forall r :: r in Combined(a, b, c).evidence ==> r.source == FftSource
  {
  }

  /** `np.diff(sorted(timestamps))`: every gap, zero ones included. */
  function RawIntervals(events: seq<LogEvent>): seq<real> {
    Diffs(SortAsc(Timestamps(events)))
  }

  datatype FftSettings = FftSettings(minPeaks: int, peakThreshold: real, autocorrThreshold: real,
                                     windowSize: real, changeThreshold: real)

  /** The configuration as given: each key may be missing. */
  datatype FftConfig = FftConfig(minPeaks: Option<int>, peakThreshold: Option<real>, autocorrThreshold: Option<real>,
                                 windowSize: Option<real>, changeThreshold: Option<real>)

  /** What one actor's timeline yields: the combined verdict of the three analyses. */
  function FftVerdict(events: seq<LogEvent>, d: FftSettings, spectrum: seq<real> -> Spectrum,
                      lags: (seq<real>, real) -> seq<nat>): Verdict
  {
    var intervals := RawIntervals(events);
    Combined(FftAnalysis(spectrum(intervals), d.minPeaks, d.peakThreshold),
             AutocorrAnalysis(lags(intervals, d.autocorrThreshold)),
             WindowedAnalysis(Timestamps(events), d.windowSize, d.changeThreshold))
  }

  /**
   * The FFT detector's effect on one actor: with at least ten events (and five intervals) and a
   * combined score above 0.5, `BOT_ACTIVITY` goes straight into the tag set, with no `tag_added`
   * record, and all sub-analysis records are appended.
   */
  function FftOutcome(s: ActorState, events: seq<LogEvent>, d: FftSettings, spectrum: seq<real> -> Spectrum,
                      lags: (seq<real>, real) -> seq<nat>): ActorState
  {
    if |events| < 10 || |RawIntervals(events)| < 5 then s
    else
      var v := FftVerdict(events, d, spectrum, lags);
      if v.score > 0.5 then ActorState(s.trail + v.evidence, AddUnique(s.tags, "BOT_ACTIVITY")) else s
  }

  /**
   * Short timelines are untouched; otherwise the actor is flagged exactly when some analysis
   * produced a record, and then gains the tag and between one and three records from the FFT
   * detector. The five-interval guard never fires after the ten-event one.
   */
  lemma FftOutcomeProps(s: ActorState, events: seq<LogEvent>, d: FftSettings, spectrum: seq<real> -> Spectrum,
                        lags: (seq<real>, real) -> seq<nat>)
    ensures |events| < 10 ==> FftOutcome(s, events, d, spectrum, lags) == s
    ensures |events| >= 10 ==> |RawIntervals(events)| >= 9
    ensures var r := FftOutcome(s, events, d, spectrum, lags);
            var v := FftVerdict(events, d, spectrum, lags);
            |events| >= 10 ==>
              (r != s <==> v.evidence != [])
              && (v.evidence != [] ==>
                    r.trail == s.trail + v.evidence && 1 <= |v.evidence| <= 3
                    && (forall k :: |s.trail| <= k < |r.trail| ==> r.trail[k].source == FftSource)
                    && r.tags == AddUnique(s.tags, "BOT_ACTIVITY"))
  {
    if |events| >= 10 {
      SortAscProps(Timestamps(events));
      var intervals := RawIntervals(events);
      SubAnalysesShaped(spectrum(intervals), d.minPeaks, d.peakThreshold, lags(intervals, d.autocorrThreshold),
                        Timestamps(events), d.windowSize, d.changeThreshold);
      var v := FftVerdict(events, d, spectrum, lags);
      CombinedFlagIff(FftAnalysis(spectrum(intervals), d.minPeaks, d.peakThreshold),
                      AutocorrAnalysis(lags(intervals, d.autocorrThreshold)),
                      WindowedAnalysis(Timestamps(events), d.windowSize, d.changeThreshold));
      var r := FftOutcome(s, events, d, spectrum, lags);
      if v.evidence != [] {
        assert |r.trail| > |s.trail|;
        forall k | |s.trail| <= k < |r.trail|
          ensures r.trail[k].source == FftSource
        {
          assert r.trail[k] == v.evidence[k - |s.trail|];
        }
      }
    }
  }

  /** Whether the FFT detector flags a timeline as a bot. */
  predicate FftFlags(events: seq<LogEvent>, d: FftSettings, spectrum: seq<real> -> Spectrum,
                     lags: (seq<real>, real) -> seq<nat>)
  {
    |events| >= 10 && |RawIntervals(events)| >= 5 && FftVerdict(events, d, spectrum, lags).score > 0.5
  }

  /** The pass stopped on a missing attribute once `processed` actors had been handled. */
  datatype PassError = MissingAttribute(name: string, processed: nat)

  /**
   * The FFT pass as written, from the `i`-th timeline on, where `flags` is the detector's
   * decision (`FftFlags` under the pass's settings): the log line after a flag reads an `ip`
   * attribute that an actor profile does not declare, so the pass stops right after the first
   * flagged actor has been tagged and extended, and later actors are never examined. A pass
   * that flags nobody completes.
   */
  function FftPassAsWritten(timelines: seq<seq<LogEvent>>, flags: seq<LogEvent> -> bool, i: nat): Result<nat, PassError>
    requires i <= |timelines|
    decreases |timelines| - i
  {
    if i == |timelines| then Success(i)
    else if flags(timelines[i]) then Failure(MissingAttribute("ip", i + 1))
    else FftPassAsWritten(timelines, flags, i + 1)
  }

  /**
   * As written the pass completes exactly when no actor is flagged; otherwise it stops at the
   * first flagged actor, which it has already tagged. The corrected pass, `FFTDetector.Detect`,
   * gives every actor its outcome.
   */
  lemma {:induction false} FftPassFinding(timelines: seq<seq<LogEvent>>, flags: seq<LogEvent> -> bool, i: nat)
    requires i <= |timelines|
    ensures var r := FftPassAsWritten(timelines, flags, i);
      && (r.Success? <==> forall k :: i <= k < |timelines| ==> !flags(timelines[k]))
      && (r.Failure? ==>
            && i < r.error.processed <= |timelines|
            && flags(timelines[r.error.processed - 1])
            && forall k :: i <= k < r.error.processed - 1 ==> !flags(timelines[k]))
    decreases |timelines| - i
  {
    if i < |timelines| && !flags(timelines[i]) {
      FftPassFinding(timelines, flags, i + 1);
    }
  }

  /** The pass as written over concrete settings stops on the first timeline the detector flags. */
  lemma FftPassStopsAtFlag(timelines: seq<seq<LogEvent>>, d: FftSettings, spectrum: seq<real> -> Spectrum,
                           lags: (seq<real>, real) -> seq<nat>)
    requires |timelines| >= 2 && FftFlags(timelines[0], d, spectrum, lags)
    ensures FftPassAsWritten(timelines, e => FftFlags(e, d, spectrum, lags), 0) == Failure(MissingAttribute("ip", 1))
  {
  }

  /** The window loop of `_analyze_windowed_changes`. */
  method CountWindows(ts: seq<real>, start: real, width: real, n: nat) returns (fs: seq<real>)
    requires width > 0.0
    ensures fs == WindowFrequencies(ts, start, width, n)
  {
    fs := [];
    var i := 0;
    while i < n
      invariant 0 <= i <= n
      invariant fs == WindowFrequencies(ts, start, width, n)[..i]
    {
      var windowStart := start + i as real * width;
      var windowEnd := windowStart + width;
      var eventsInWindow := CountIn(ts, windowStart, windowEnd);
      ghost var spec := WindowFrequencies(ts, start, width, n);
      WindowFrequency(ts, start, width, n, i);
      assert spec[..i + 1] == spec[..i] + [spec[i]];
      fs := fs + [eventsInWindow as real / width];
      i := i + 1;
    }
  }

  method AnalyzeWindowedChanges(ts: seq<real>, width: real, changeThreshold: real) returns (v: Verdict)
    ensures v == WindowedAnalysis(ts, width, changeThreshold)
  {
    if (|ts| as real) < width * 2.0 || width <= 0.0 {
      return Silent;
    }
    var start := Seqs.Min(ts);
    var count := ((Max(ts) - start) / width).Floor;
    if count < 2 {
      return Silent;
    }
    var frequencies := CountWindows(ts, start, width, count);
    var maxChange := Max(AbsAll(Diffs(frequencies)));
    if maxChange > changeThreshold {
      v := Verdict(0.9, [Described(FftSource, "Detected dramatic frequency change between windows", 0.9)]);
    } else {
      v := Silent;
    }
  }

  class FFTDetector {
    const settings: FftSettings

    /** Missing keys take the defaults 3, 0.1, 0.3, 600 seconds and 5.0. */
    constructor(config: FftConfig)
      ensures settings == FftSettings(config.minPeaks.GetOr(3), config.peakThreshold.GetOr(0.1),
                                      config.autocorrThreshold.GetOr(0.3), config.windowSize.GetOr(600.0),
                                      config.changeThreshold.GetOr(5.0))
    {
      settings := FftSettings(config.minPeaks.GetOr(3), config.peakThreshold.GetOr(0.1),
                              config.autocorrThreshold.GetOr(0.3), config.windowSize.GetOr(600.0),
                              config.changeThreshold.GetOr(5.0));
    }

    /** One actor's pass. */
    method DetectOne(actor: Actor, spectrum: seq<real> -> Spectrum, lags: (seq<real>, real) -> seq<nat>)
      modifies actor`tags, actor`trail
      ensures StateOf(actor) == FftOutcome(old(StateOf(actor)), actor.events, settings, spectrum, lags)
    {
      if |actor.events| < 10 {
        return;
      }
      var timestamps := Timestamps(actor.events);
      var intervals := Diffs(SortAsc(timestamps));
      if |intervals| < 5 {
        return;
      }
      var fft := FftAnalysis(spectrum(intervals), settings.minPeaks, settings.peakThreshold);
      var autocorr := AutocorrAnalysis(lags(intervals, settings.autocorrThreshold));
      var window := AnalyzeWindowedChanges(timestamps, settings.windowSize, settings.changeThreshold);
      var combined := Combined(fft, autocorr, window);
      if combined.score > 0.5 {
        AddUniqueProps(actor.tags, "BOT_ACTIVITY");
        actor.tags := AddUnique(actor.tags, "BOT_ACTIVITY");
        actor.trail := actor.trail + combined.evidence;
      }
    }

    /** `detect`: every actor in turn; the context update is always empty. */
    method Detect(actors: seq<Actor>, spectrum: seq<real> -> Spectrum, lags: (seq<real>, real) -> seq<nat>)
      returns (update: RulesEngine.Context)
      requires NoDups(actors)
      modifies actors`tags, actors`trail
      ensures update == map[]
      ensures forall a :: a in actors ==> StateOf(a) == FftOutcome(old(StateOf(a)), a.events, settings, spectrum, lags)
    {
      var i := 0;
      while i < |actors|
        invariant 0 <= i <= |actors|
        invariant forall a :: a in actors ==>
                    StateOf(a) == if a in actors[..i] then FftOutcome(old(StateOf(a)), a.events, settings, spectrum, lags)
                                  else old(StateOf(a))
      {
        var actor := actors[i];
        assert actors[..i + 1] == actors[..i] + [actor];
        assert actor !in actors[..i];
        DetectOne(actor, spectrum, lags);
        i := i + 1;
      }
      assert actors[..i] == actors;
      update := map[];
    }
  }

  // ---------------------------------------------------------------------------------------
  // GraphDetector

  const GraphSource: string := "GraphDetector"

  const CoordinatorMark: Mark := Mark("COORDINATOR", "coordinator_detected", "High centrality, low clustering", 0.7)
  const ClusterMemberMark: Mark := Mark("CLUSTER_MEMBER", "cluster_member_detected", "High clustering coefficient", 0.6)

  /** A coordinator sits between others (centrality above 0.3) without being in a clique (clustering below 0.3); otherwise a clustering above 0.5 makes a cluster member. */
  function GraphMark(centrality: real, clustering: real): Option<Mark> {
    if centrality > 0.3 && clustering < 0.3 then Some(CoordinatorMark)
    else if clustering > 0.5 then Some(ClusterMemberMark)
    else None
  }

  /** The mark of each address, reading missing metrics as 0. */
  function GraphMarks(ips: seq<string>, cs: RulesEngine.Summary, cc: RulesEngine.Summary): (ms: seq<Option<Mark>>)
    ensures |ms| == |ips|
  {
    seq(|ips|, i requires 0 <= i < |ips| => GraphMark(RulesEngine.Get(cs, ips[i], 0.0), RulesEngine.Get(cc, ips[i], 0.0)))
  }

  /** `np.mean` over the centrality of every node. */
  function AverageCentrality(g: Graph, cs: RulesEngine.Summary): real {
    Mean(seq(|g.nodes|, i requires 0 <= i < |g.nodes| => RulesEngine.Get(cs, g.nodes[i], 0.0)))
  }

  function GraphSummary(total: nat, marks: seq<Option<Mark>>, communities: nat, avgCentrality: real): RulesEngine.Summary {
    map["total_actors" := total as real,
        "coordinators" := CountMark(marks, CoordinatorMark) as real,
        "cluster_members" := CountMark(marks, ClusterMemberMark) as real,
        "communities" := communities as real,
        "avg_centrality" := avgCentrality]
  }

  /**
   * An actor is marked at most once, as a coordinator exactly when its centrality is above 0.3
   * and its clustering below 0.3, and the two counts together never exceed the actor count.
   */
  lemma GraphMarkProps(centrality: real, clustering: real, ms: seq<Option<Mark>>)
    ensures GraphMark(centrality, clustering) == Some(CoordinatorMark) <==> centrality > 0.3 && clustering < 0.3
    ensures GraphMark(centrality, clustering) == Some(ClusterMemberMark) <==>
              clustering > 0.5 && !(centrality > 0.3 && clustering < 0.3)
    ensures CountMark(ms, CoordinatorMark) + CountMark(ms, ClusterMemberMark) <= |ms|
  {
    CountMarksBound(ms, CoordinatorMark, ClusterMemberMark);
  }

  /** The marks of one more actor end with that actor's mark. */
  lemma GraphMarksStep(actors: seq<Actor>, i: nat, cs: RulesEngine.Summary, cc: RulesEngine.Summary)
    requires i < |actors|
    ensures var ms := GraphMarks(IpsOf(actors[..i + 1]), cs, cc);
      && ms == GraphMarks(IpsOf(actors[..i]), cs, cc)
               + [GraphMark(RulesEngine.Get(cs, actors[i].ipAddress, 0.0), RulesEngine.Get(cc, actors[i].ipAddress, 0.0))]
      && ms[..i] == GraphMarks(IpsOf(actors[..i]), cs, cc)
  {
  }

  /** The tagging loop: sets each actor's centrality, applies its mark and counts the marks. */
  method ApplyGraphMarks(actors: seq<Actor>, cs: RulesEngine.Summary, cc: RulesEngine.Summary)
    returns (coordinators: nat, members: nat)
    requires NoDups(actors)
    modifies actors`centrality, actors`tags, actors`trail
    ensures coordinators == CountMark(GraphMarks(IpsOf(actors), cs, cc), CoordinatorMark)
    ensures members == CountMark(GraphMarks(IpsOf(actors), cs, cc), ClusterMemberMark)
    ensures forall a :: a in actors ==>
              a.centrality == RulesEngine.Get(cs, a.ipAddress, 0.0)
              && StateOf(a) == MarkedBy(old(StateOf(a)), GraphMark(RulesEngine.Get(cs, a.ipAddress, 0.0),
                                                                   RulesEngine.Get(cc, a.ipAddress, 0.0)), GraphSource)
  {
    coordinators, members := 0, 0;
    var i := 0;
    while i < |actors|
      invariant 0 <= i <= |actors|
      invariant coordinators == CountMark(GraphMarks(IpsOf(actors[..i]), cs, cc), CoordinatorMark)
      invariant members == CountMark(GraphMarks(IpsOf(actors[..i]), cs, cc), ClusterMemberMark)
      invariant forall a :: a in actors[..i] ==>
                  a.centrality == RulesEngine.Get(cs, a.ipAddress, 0.0)
                  && StateOf(a) == MarkedBy(old(StateOf(a)), GraphMark(RulesEngine.Get(cs, a.ipAddress, 0.0),
                                                                       RulesEngine.Get(cc, a.ipAddress, 0.0)), GraphSource)
      invariant forall a :: a in actors[i..] ==> StateOf(a) == old(StateOf(a))
    {
      var actor := actors[i];
      assert actors[..i + 1] == actors[..i] + [actor];
      assert actor !in actors[..i];
      assert actors[i..] == [actor] + actors[i + 1..];
      var mark := MarkByGraph(actor, cs, cc);
      GraphMarksStep(actors, i, cs, cc);
      if mark == Some(CoordinatorMark) {
        coordinators := coordinators + 1;
      } else if mark == Some(ClusterMemberMark) {
        members := members + 1;
      }
      i := i + 1;
    }
    assert actors[..i] == actors;
  }

  /** One iteration of the tagging loop: the actor's centrality is set and its mark applied. */
  method MarkByGraph(actor: Actor, cs: RulesEngine.Summary, cc: RulesEngine.Summary) returns (mark: Option<Mark>)
    modifies actor`centrality, actor`tags, actor`trail
    ensures mark == GraphMark(RulesEngine.Get(cs, actor.ipAddress, 0.0), RulesEngine.Get(cc, actor.ipAddress, 0.0))
    ensures actor.centrality == RulesEngine.Get(cs, actor.ipAddress, 0.0)
    ensures StateOf(actor) == MarkedBy(old(StateOf(actor)), mark, GraphSource)
  {
    var ip := actor.ipAddress;
    var centrality := RulesEngine.Get(cs, ip, 0.0);
    var clustering := RulesEngine.Get(cc, ip, 0.0);
    actor.centrality := centrality;
    mark := GraphMark(centrality, clustering);
    ApplyMark(actor, mark, GraphSource);
  }

  class GraphDetector {
    constructor() {
    }

    /**
     * `detect`: with fewer than two actors nothing happens; otherwise every actor's centrality is
     * set from the graph, its mark applied, and the summary counts the marks.
     */
    method Detect(actors: seq<Actor>, betweenness: Graph -> RulesEngine.Summary,
                  clustering: Graph -> RulesEngine.Summary, communities: Graph -> nat)
      returns (update: RulesEngine.Context)
      requires NoDups(actors)
      modifies actors`centrality, actors`tags, actors`trail
      ensures |actors| < 2 ==>
                update == map[] && forall a :: a in actors ==> StateOf(a) == old(StateOf(a)) && a.centrality == old(a.centrality)
      ensures |actors| >= 2 ==>
                var g := ActorGraph(old(PeersOf(actors)));
                var cs := betweenness(g);
                var cc := clustering(g);
                (forall a :: a in actors ==>
                   a.centrality == RulesEngine.Get(cs, a.ipAddress, 0.0)
                   && StateOf(a) == MarkedBy(old(StateOf(a)), GraphMark(RulesEngine.Get(cs, a.ipAddress, 0.0),
                                                                        RulesEngine.Get(cc, a.ipAddress, 0.0)), GraphSource))
                && update == map["graph_summary" := GraphSummary(|actors|, GraphMarks(IpsOf(actors), cs, cc),
                                                                 communities(g), AverageCentrality(g, cs))]
    {
      if |actors| < 2 {
        return map[];
      }
      var g := BuildActorGraph(actors);
      var cs := betweenness(g);
      var cc := clustering(g);
      var coordinators, members := ApplyGraphMarks(actors, cs, cc);
      var summary := map["total_actors" := |actors| as real,
                         "coordinators" := coordinators as real,
                         "cluster_members" := members as real,
                         "communities" := communities(g) as real,
                         "avg_centrality" := AverageCentrality(g, cs)];
      update := map["graph_summary" := summary];
    }
  }

  // ---------------------------------------------------------------------------------------
  // AnomalyDetector

  const AnomalySource: string := "AnomalyDetector"

  /** The four metrics the baseline is computed over. */
  datatype Features = Features(avgEntropy: real, urlDiversity: real, requestCount: nat, centrality: real)

  function FeaturesOf(a: Actor): Features
    reads a
  {
    Features(a.avgEntropy, a.urlDiversityRatio, a.totalRequests, a.centrality)
  }

  function AllFeatures(actors: seq<Actor>): (fs: seq<Features>)
    reads actors
    ensures |fs| == |actors|
  {
    seq(|actors|, i requires 0 <= i < |actors| reads actors => FeaturesOf(actors[i]))
  }

  const AnomalousMark: Mark := Mark("ANOMALOUS", "anomaly_detected", "High anomaly score", 0.8)
  const SuspiciousMark: Mark := Mark("SUSPICIOUS", "suspicious_behavior", "Medium anomaly score", 0.6)

  function AnomalyMark(score: real): Option<Mark> {
    if score > 0.7 then Some(AnomalousMark)
    else if score > 0.4 then Some(SuspiciousMark)
    else None
  }

  /** The score of every actor against the baseline of all of them. */
  function AnomalyScores(fs: seq<Features>, score: (Features, seq<Features>) -> real): (ss: seq<real>)
    ensures |ss| == |fs|
  {
    seq(|fs|, i requires 0 <= i < |fs| => score(fs[i], fs))
  }

  function AnomalyMarks(ss: seq<real>): (ms: seq<Option<Mark>>)
    ensures |ms| == |ss|
  {
    seq(|ss|, i requires 0 <= i < |ss| => AnomalyMark(ss[i]))
  }

  function AnomalySummary(total: nat, anomalies: nat): RulesEngine.Summary
    requires total > 0
  {
    map["total_actors" := total as real, "anomalies" := anomalies as real,
        "anomaly_rate" := anomalies as real / total as real]
  }

  /**
   * ANOMALOUS and SUSPICIOUS exclude each other and split the scores at 0.7 and 0.4; the anomaly
   * rate is a fraction of the actors.
   */
  lemma AnomalyMarkProps(score: real, ss: seq<real>)
    ensures AnomalyMark(score) == Some(AnomalousMark) <==> score > 0.7
    ensures AnomalyMark(score) == Some(SuspiciousMark) <==> 0.4 < score <= 0.7
    ensures AnomalyMark(score) == None <==> score <= 0.4
    ensures |ss| > 0 ==> 0.0 <= AnomalySummary(|ss|, CountMark(AnomalyMarks(ss), AnomalousMark))["anomaly_rate"] <= 1.0
  {
    if |ss| > 0 {
      CountMarksBound(AnomalyMarks(ss), AnomalousMark, SuspiciousMark);
      var n := CountMark(AnomalyMarks(ss), AnomalousMark);
      DivideBound(n as real, |ss| as real, 1.0);
    }
  }

  /** The tagging loop over the precomputed scores. */
  method ApplyAnomalyMarks(actors: seq<Actor>, ss: seq<real>) returns (anomalies: nat)
    requires NoDups(actors) && |ss| == |actors|
    modifies actors`anomalyRatio, actors`tags, actors`trail
    ensures anomalies == CountMark(AnomalyMarks(ss), AnomalousMark)
    ensures forall i :: 0 <= i < |actors| ==>
              actors[i].anomalyRatio == ss[i]
              && StateOf(actors[i]) == MarkedBy(old(StateOf(actors[i])), AnomalyMark(ss[i]), AnomalySource)
  {
    anomalies := 0;
    var i := 0;
    while i < |actors|
      invariant 0 <= i <= |actors|
      invariant anomalies == CountMark(AnomalyMarks(ss[..i]), AnomalousMark)
      invariant forall j :: 0 <= j < i ==>
                  actors[j].anomalyRatio == ss[j]
                  && StateOf(actors[j]) == MarkedBy(old(StateOf(actors[j])), AnomalyMark(ss[j]), AnomalySource)
      invariant forall j :: i <= j < |actors| ==> StateOf(actors[j]) == old(StateOf(actors[j]))
    {
      var actor := actors[i];
      var score := ss[i];
      actor.anomalyRatio := score;
      var mark := AnomalyMark(score);
      assert AnomalyMarks(ss[..i + 1]) == AnomalyMarks(ss[..i]) + [mark];
      if mark == Some(AnomalousMark) {
        anomalies := anomalies + 1;
      }
      ApplyMark(actor, mark, AnomalySource);
      i := i + 1;
    }
    assert ss[..i] == ss;
  }

  class AnomalyDetector {
    constructor() {
    }

    /**
     * `detect`: with fewer than three actors nothing happens; otherwise each actor's anomaly ratio
     * becomes its score against the baseline of all actors, and its mark is applied.
     */
    method Detect(actors: seq<Actor>, score: (Features, seq<Features>) -> real) returns (update: RulesEngine.Context)
      requires NoDups(actors)
      modifies actors`anomalyRatio, actors`tags, actors`trail
      ensures |actors| < 3 ==>
                update == map[] && forall a :: a in actors ==> StateOf(a) == old(StateOf(a)) && a.anomalyRatio == old(a.anomalyRatio)
      ensures |actors| >= 3 ==>
                var ss := AnomalyScores(old(AllFeatures(actors)), score);
                (forall i :: 0 <= i < |actors| ==>
                   actors[i].anomalyRatio == ss[i]
                   && StateOf(actors[i]) == MarkedBy(old(StateOf(actors[i])), AnomalyMark(ss[i]), AnomalySource))
                && update == map["anomaly_summary" := AnomalySummary(|actors|, CountMark(AnomalyMarks(ss), AnomalousMark))]
    {
      if |actors| < 3 {
        return map[];
      }
      var baseline := AllFeatures(actors);
      assert baseline == old(AllFeatures(actors));
      var ss := AnomalyScores(baseline, score);
      var anomalies := ApplyAnomalyMarks(actors, ss);
      assert anomalies == CountMark(AnomalyMarks(ss), AnomalousMark);
      update := map["anomaly_summary" := AnomalySummary(|actors|, anomalies)];
    }
  }

  // ---------------------------------------------------------------------------------------
  // BehavioralClusteringDetector

  const ClusteringSource: string := "BehavioralClusteringDetector"

  /** The size of the largest cluster, or 0 when there is none. */
  function LargestCluster(clusters: seq<Cluster<Actor>>): nat
    decreases |clusters|
  {
    if clusters == [] then 0
    else
      var rest := LargestCluster(clusters[..|clusters| - 1]);
      var last := |clusters[|clusters| - 1].members|;
      if last > rest then last else rest
  }

  /** It bounds every cluster's size and is the size of one of them. */
  lemma {:induction false} LargestClusterProps(clusters: seq<Cluster<Actor>>)
    ensures forall k :: 0 <= k < |clusters| ==> |clusters[k].members| <= LargestCluster(clusters)
    ensures clusters != [] ==> exists k :: 0 <= k < |clusters| && |clusters[k].members| == LargestCluster(clusters)
    decreases |clusters|
  {
    if clusters != [] {
      var init := clusters[..|clusters| - 1];
      LargestClusterProps(init);
      forall k | 0 <= k < |init|
        ensures clusters[k] == init[k]
      {
      }
      var last := |clusters| - 1;
      if init != [] && LargestCluster(init) >= |clusters[last].members| {
        var k :| 0 <= k < |init| && |init[k].members| == LargestCluster(init);
        assert |clusters[k].members| == LargestCluster(clusters);
      } else {
        assert |clusters[last].members| == LargestCluster(clusters);
      }
    }
  }

  function ClusteringSummary(total: nat, clusters: seq<Cluster<Actor>>, isolated: nat): RulesEngine.Summary {
    map["total_actors" := total as real, "clusters" := |clusters| as real,
        "isolated_actors" := isolated as real, "largest_cluster" := LargestCluster(clusters) as real]
  }

  /** The loop that finds the largest cluster. */
  method LargestSize(clusters: seq<Cluster<Actor>>) returns (largest: nat)
    ensures largest == LargestCluster(clusters)
  {
    largest := 0;
    var k := 0;
    while k < |clusters|
      invariant 0 <= k <= |clusters|
      invariant largest == LargestCluster(clusters[..k])
    {
      assert clusters[..k + 1][..k] == clusters[..k];
      if |clusters[k].members| > largest {
        largest := |clusters[k].members|;
      }
      k := k + 1;
    }
    assert clusters[..k] == clusters;
  }

  class BehavioralClusteringDetector {
    constructor() {
    }

    /**
     * `detect`: the same grouping, size marks and isolation marks as the scoring engine, logged
     * under this detector's name, followed by a summary of the clusters.
     */
    method Detect(actors: seq<Actor>, dbscan: seq<seq<real>> -> seq<int>) returns (update: RulesEngine.Context)
      requires NoDups(actors)
      modifies actors`tags, actors`trail
      ensures |actors| < 2 || |old(ValidActors(actors))| < 2 ==>
                update == map[] && forall a :: a in actors ==> StateOf(a) == old(StateOf(a))
      ensures |actors| >= 2 && |old(ValidActors(actors))| >= 2 ==>
                var valid := old(ValidActors(actors));
                var clusters := Grouped(valid, dbscan(old(VectorsOf(ValidActors(actors)))));
                (forall a :: a in actors ==> StateOf(a) == Outcome(old(StateOf(a)), a, valid, clusters, ClusteringSource))
                && update == map["clustering_summary" := ClusteringSummary(|actors|, clusters, |IsolatedActors(valid, clusters)|)]
    {
      if |actors| < 2 {
        return map[];
      }
      var valid, vectors := SelectValid(actors);
      if |valid| < 2 {
        return map[];
      }
      ValidActorsProps(actors);
      assert forall i :: 0 <= i < |valid| ==> valid[i] in actors;
      update := Summarize(actors, valid, dbscan(vectors));
    }

    /** Groups, marks and summarises the valid actors. */
    method Summarize(actors: seq<Actor>, valid: seq<Actor>, labels: seq<int>) returns (update: RulesEngine.Context)
      requires NoDups(valid)
      modifies valid`tags, valid`trail
      ensures forall a :: a in valid ==> StateOf(a) == Outcome(old(StateOf(a)), a, valid, Grouped(valid, labels), ClusteringSource)
      ensures update == map["clustering_summary" := ClusteringSummary(|actors|, Grouped(valid, labels),
                                                                       |IsolatedActors(valid, Grouped(valid, labels))|)]
    {
      var clusters := GroupByLabel(valid, labels);
      GroupedPartition(valid, labels);
      var isolated := MarkGroups(valid, clusters, ClusteringSource);
      var largest := LargestSize(clusters);
      update := map["clustering_summary" := map["total_actors" := |actors| as real, "clusters" := |clusters| as real,
                                                "isolated_actors" := |isolated| as real,
                                                "largest_cluster" := largest as real]];
    }
  }
}
