/**
 * The core data model: log events with their derived URL features and heuristic flags,
 * actor profiles with tags, an evidence trail and metrics recomputed from their events,
 * and threat campaigns aggregating actors.
 */
module Models {
  import opened Wrappers
  import opened Text
  import opened Seqs
  import opened Evidence

  /**
   * Answers of the regular-expression searches `_apply_heuristics` runs on the URL and the
   * user agent; the patterns themselves are not interpreted here.
   */
  datatype PatternMatches = PatternMatches(
    lfiRfi: bool,
    sqlInjection: bool,
    xss: bool,
    commandInjection: bool,
    suspiciousUserAgent: bool)

  const SuspiciousExtensions: seq<string> :=
    [".php", ".asp", ".aspx", ".jsp", ".cgi", ".pl", ".py", ".exe", ".bat", ".cmd", ".com", ".pif", ".scr"]

  /** The closed set of flags `_apply_heuristics` can raise, named as in the source. */
  datatype HeuristicFlag =
    | LFI_RFI | SQL_INJECTION | XSS | COMMAND_INJECTION | SUSPICIOUS_EXTENSION
    | HIGH_ENTROPY | LONG_URL | MANY_PARAMS | SUSPICIOUS_USER_AGENT

  /** A listed extension occurs in the URL, ignoring case. */
  predicate HasSuspiciousExtension(url: string) {
    exists k :: 0 <= k < |SuspiciousExtensions| && Contains(Lower(url), Lower(SuspiciousExtensions[k]))
  }

  /** Number of non-empty pieces (`len([p for p in parts if p])`). */
  function NonEmptyCount(parts: seq<string>): nat
    decreases |parts|
  {
    if parts == [] then 0 else (if parts[0] != [] then 1 else 0) + NonEmptyCount(parts[1..])
  }

  /** The part of the URL before the first `?`. */
  function PathPart(url: string): string {
    Split(url, '?')[0]
  }

  /** The part of the URL between the first and the second `?`, when there is a `?`. */
  function QueryPart(url: string): string
    requires '?' in url
  {
    SplitShape(url, '?');
    Split(url, '?')[1]
  }

  function PathDepth(url: string): nat {
    NonEmptyCount(Split(PathPart(url), '/'))
  }

  function QueryParamsCount(url: string): nat {
    if '?' in url then |Split(QueryPart(url), '&')| else 0
  }

  /** The path holds no `?`, and its depth is at most the number of its `/`-pieces. */
  lemma PathDepthShape(url: string)
    ensures '?' !in PathPart(url)
    ensures PathDepth(url) <= Occurrences(PathPart(url), '/') + 1
  {
    SplitShape(url, '?');
    SplitShape(PathPart(url), '/');
    NonEmptyCountBound(Split(PathPart(url), '/'));
  }

  lemma {:induction false} NonEmptyCountBound(parts: seq<string>)
    ensures NonEmptyCount(parts) <= |parts|
    decreases |parts|
  {
    if parts != [] {
      NonEmptyCountBound(parts[1..]);
    }
  }

  /**
   * With a `?`, the parameter count is one more than the number of `&` in the query part,
   * and the query part stops at any second `?`; without one it is 0.
   */
  lemma QueryParamsCountShape(url: string)
    ensures '?' !in url ==> QueryParamsCount(url) == 0
    ensures '?' in url ==>
      ('?' !in QueryPart(url) && QueryParamsCount(url) == Occurrences(QueryPart(url), '&') + 1)
  {
    if '?' in url {
      SplitShape(url, '?');
      SplitShape(QueryPart(url), '&');
    }
  }

  /** An extension listed in lower case is found in upper case too. */
  lemma SuspiciousExtensionIgnoresCase()
    ensures HasSuspiciousExtension("/SHELL.PHP")
  {
    LowerCharwise("/SHELL.PHP");
    LowerCharwise(".php");
    var u := Lower("/SHELL.PHP");
    assert u == "/shell.php";
    assert Lower(SuspiciousExtensions[0]) == ".php";
    assert u[6..10] == ".php";
    ContainsIffOccurrence(u, ".php");
    assert OccursAt(u, ".php", 6);
  }

  /** Python lowers a dotted capital I to `i` and a combining dot, so `.CGİ` is flagged as `.cgi`. */
  lemma DottedCapitalIExtension()
    ensures HasSuspiciousExtension("/x.CG\U{0130}")
  {
    var head, last := "/x.CG", "\U{0130}";
    LowerCharwise(head);
    LowerCharwise(".cgi");
    LowerAppend(head, last);
    assert head + last == "/x.CG\U{0130}";
    LowerDottedCapitalI();
    var u := Lower(head) + Lower(last);
    assert Lower(head) == "/x.cg";
    assert u == "/x.cgi\U{0307}";
    assert Lower(SuspiciousExtensions[4]) == ".cgi";
    assert u[2..6] == ".cgi";
    assert OccursAt(u, ".cgi", 2);
    ContainsIffOccurrence(u, ".cgi");
  }

  /** The extension scan of `_apply_heuristics`: stops at the first listed extension found. */
  method FindSuspiciousExtension(url: string) returns (found: bool)
    ensures found <==> HasSuspiciousExtension(url)
  {
    var lowered := Lower(url);
    found := false;
    var i := 0;
    while i < |SuspiciousExtensions|
      invariant 0 <= i <= |SuspiciousExtensions|
      invariant forall k :: 0 <= k < i ==> !Contains(lowered, Lower(SuspiciousExtensions[k]))
    {
      if Contains(lowered, Lower(SuspiciousExtensions[i])) {
        found := true;
        break;
      }
      i := i + 1;
    }
  }

  /**
   * The checks of `_apply_heuristics`, in the source's order, on an event's URL, entropy,
   * length, parameter count and user agent; each raises its flag when its condition holds.
   */
  method HeuristicFlags(url: string, entropy: Option<real>, urlLength: nat, queryParamsCount: Option<nat>,
                        userAgent: Option<string>, m: PatternMatches) returns (flags: set<HeuristicFlag>)
    ensures LFI_RFI in flags <==> m.lfiRfi
    ensures SQL_INJECTION in flags <==> m.sqlInjection
    ensures XSS in flags <==> m.xss
    ensures COMMAND_INJECTION in flags <==> m.commandInjection
    ensures SUSPICIOUS_EXTENSION in flags <==> HasSuspiciousExtension(url)
    ensures HIGH_ENTROPY in flags <==> entropy.Some? && entropy.value > 4.5
    ensures LONG_URL in flags <==> urlLength > 2000
    ensures MANY_PARAMS in flags <==> queryParamsCount.Some? && queryParamsCount.value > 10
    ensures SUSPICIOUS_USER_AGENT in flags <==> userAgent.Some? && userAgent.value != [] && m.suspiciousUserAgent
  {
    var patterns := PatternFlags(m);
    var features := FeatureFlags(url, entropy, urlLength, queryParamsCount, userAgent, m);
    flags := patterns + features;
  }

  /** The four pattern checks, in order. */
  method PatternFlags(m: PatternMatches) returns (flags: set<HeuristicFlag>)
    ensures flags <= {LFI_RFI, SQL_INJECTION, XSS, COMMAND_INJECTION}
    ensures LFI_RFI in flags <==> m.lfiRfi
    ensures SQL_INJECTION in flags <==> m.sqlInjection
    ensures XSS in flags <==> m.xss
    ensures COMMAND_INJECTION in flags <==> m.commandInjection
  {
    flags := {};
    if m.lfiRfi {
      flags := flags + {LFI_RFI};
    }
    if m.sqlInjection {
      flags := flags + {SQL_INJECTION};
    }
    if m.xss {
      flags := flags + {XSS};
    }
    if m.commandInjection {
      flags := flags + {COMMAND_INJECTION};
    }
  }

  /** The extension, entropy, length, parameter and user-agent checks, in order. */
  method FeatureFlags(url: string, entropy: Option<real>, urlLength: nat, queryParamsCount: Option<nat>,
                      userAgent: Option<string>, m: PatternMatches) returns (flags: set<HeuristicFlag>)
    ensures flags <= {SUSPICIOUS_EXTENSION, HIGH_ENTROPY, LONG_URL, MANY_PARAMS, SUSPICIOUS_USER_AGENT}
    ensures SUSPICIOUS_EXTENSION in flags <==> HasSuspiciousExtension(url)
    ensures HIGH_ENTROPY in flags <==> entropy.Some? && entropy.value > 4.5
    ensures LONG_URL in flags <==> urlLength > 2000
    ensures MANY_PARAMS in flags <==> queryParamsCount.Some? && queryParamsCount.value > 10
    ensures SUSPICIOUS_USER_AGENT in flags <==> userAgent.Some? && userAgent.value != [] && m.suspiciousUserAgent
  {
    flags := {};
    var hasExtension := FindSuspiciousExtension(url);
    if hasExtension {
      flags := flags + {SUSPICIOUS_EXTENSION};
    }
    if entropy.Some? && entropy.value != 0.0 && entropy.value > 4.5 {
      flags := flags + {HIGH_ENTROPY};
    }
    if urlLength > 2000 {
      flags := flags + {LONG_URL};
    }
    if queryParamsCount.Some? && queryParamsCount.value != 0 && queryParamsCount.value > 10 {
      flags := flags + {MANY_PARAMS};
    }
    if userAgent.Some? && userAgent.value != [] && m.suspiciousUserAgent {
      flags := flags + {SUSPICIOUS_USER_AGENT};
    }
  }

  /** A log event; the feature fields start empty and are filled by `CalculateFeatures`. */
  class LogEvent {
    const timestamp: real
    const sourceIp: string
    const url: string
    const httpMethod: string
    const statusCode: int
    const userAgent: Option<string>
    var entropy: Option<real>
    var urlLength: Option<nat>
    var pathDepth: Option<nat>
    var queryParamsCount: Option<nat>
    var isSuspicious: bool
    var heuristicFlags: set<HeuristicFlag>

    constructor (timestamp: real, sourceIp: string, url: string, httpMethod: string,
                 statusCode: int, userAgent: Option<string>)
      ensures this.timestamp == timestamp && this.sourceIp == sourceIp && this.url == url
      ensures this.httpMethod == httpMethod && this.statusCode == statusCode
      ensures this.userAgent == userAgent
      ensures entropy == None && urlLength == None && pathDepth == None && queryParamsCount == None
      ensures !isSuspicious && heuristicFlags == {}
    {
      this.timestamp := timestamp;
      this.sourceIp := sourceIp;
      this.url := url;
      this.httpMethod := httpMethod;
      this.statusCode := statusCode;
      this.userAgent := userAgent;
      entropy := None;
      urlLength := None;
      pathDepth := None;
      queryParamsCount := None;
      isSuspicious := false;
      heuristicFlags := {};
    }

    /**
     * Computes all features: the entropy (`shannon` is the Shannon entropy of the URL, computed
     * outside the model; an empty URL gets 0.0), the URL features, then the heuristic flags.
     */
    method CalculateFeatures(shannon: real, m: PatternMatches)
      modifies this`entropy, this`urlLength, this`pathDepth, this`queryParamsCount
      modifies this`isSuspicious, this`heuristicFlags
      ensures entropy == Some(if url == [] then 0.0 else shannon)
      ensures urlLength == Some(|url|) && pathDepth == Some(PathDepth(url))
      ensures queryParamsCount == Some(QueryParamsCount(url))
      ensures LFI_RFI in heuristicFlags <==> m.lfiRfi
      ensures SQL_INJECTION in heuristicFlags <==> m.sqlInjection
      ensures XSS in heuristicFlags <==> m.xss
      ensures COMMAND_INJECTION in heuristicFlags <==> m.commandInjection
      ensures SUSPICIOUS_EXTENSION in heuristicFlags <==> HasSuspiciousExtension(url)
      ensures HIGH_ENTROPY in heuristicFlags <==> url != [] && shannon > 4.5
      ensures LONG_URL in heuristicFlags <==> |url| > 2000
      ensures MANY_PARAMS in heuristicFlags <==> QueryParamsCount(url) > 10
      ensures SUSPICIOUS_USER_AGENT in heuristicFlags
        <==> userAgent.Some? && userAgent.value != [] && m.suspiciousUserAgent
      ensures isSuspicious <==> heuristicFlags != {}
    {
      entropy := if url == [] then Some(0.0) else Some(shannon);
      CalculateUrlFeatures();
      ApplyHeuristics(m);
    }

    method CalculateUrlFeatures()
      modifies this`urlLength, this`pathDepth, this`queryParamsCount
      ensures urlLength == Some(|url|)
      ensures pathDepth == Some(PathDepth(url))
      ensures queryParamsCount == Some(QueryParamsCount(url))
    {
      urlLength := Some(|url|);
      pathDepth := Some(NonEmptyCount(Split(Split(url, '?')[0], '/')));
      if '?' in url {
        var queryPart := QueryPart(url);
        queryParamsCount := Some(|Split(queryPart, '&')|);
      } else {
        queryParamsCount := Some(0);
      }
    }

    /** Recomputes the heuristic flags from scratch; `urlLength` must have been computed. */
    method ApplyHeuristics(m: PatternMatches)
      requires urlLength.Some?
      modifies this`heuristicFlags, this`isSuspicious
      ensures LFI_RFI in heuristicFlags <==> m.lfiRfi
      ensures SQL_INJECTION in heuristicFlags <==> m.sqlInjection
      ensures XSS in heuristicFlags <==> m.xss
      ensures COMMAND_INJECTION in heuristicFlags <==> m.commandInjection
      ensures SUSPICIOUS_EXTENSION in heuristicFlags <==> HasSuspiciousExtension(url)
      ensures HIGH_ENTROPY in heuristicFlags <==> entropy.Some? && entropy.value > 4.5
      ensures LONG_URL in heuristicFlags <==> urlLength.value > 2000
      ensures MANY_PARAMS in heuristicFlags <==> queryParamsCount.Some? && queryParamsCount.value > 10
      ensures SUSPICIOUS_USER_AGENT in heuristicFlags
        <==> userAgent.Some? && userAgent.value != [] && m.suspiciousUserAgent
      ensures isSuspicious <==> heuristicFlags != {}
    {
      var flags := HeuristicFlags(url, entropy, urlLength.value, queryParamsCount, userAgent, m);
      heuristicFlags := flags;
      isSuspicious := heuristicFlags != {};
    }
  }

  /** The URL of each event, in order. */
  function UrlsOf(events: seq<LogEvent>): seq<string> {
    seq(|events|, i requires 0 <= i < |events| => events[i].url)
  }

  /** The entropies that have been computed, in event order (`entropy is not None`). */
  function EntropiesOf(events: seq<LogEvent>): seq<real>
    reads events
    decreases |events|
  {
    if events == [] then []
    else
      var rest := EntropiesOf(events[..|events| - 1]);
      var e := events[|events| - 1];
      if e.entropy.Some? then rest + [e.entropy.value] else rest
  }

  /** The URL frequency vector: each distinct URL, in first-seen order, with its share of the events. */
  function Frequencies(urls: seq<string>): seq<(string, real)> {
    var d := Distinct(urls);
    seq(|d|, i requires 0 <= i < |d| => (d[i], Count(urls, d[i]) as real / |urls| as real))
  }

  /** The values of an ordered frequency dictionary. */
  function Values(freq: seq<(string, real)>): seq<real> {
    seq(|freq|, i requires 0 <= i < |freq| => freq[i].1)
  }

  lemma {:induction false} CountsSumAsReal(keys: seq<string>, urls: seq<string>)
    ensures Sum(seq(|keys|, i requires 0 <= i < |keys| => Count(urls, keys[i]) as real))
         == CountsSum(keys, urls) as real
    decreases |keys|
  {
    if keys != [] {
      var s := seq(|keys|, i requires 0 <= i < |keys| => Count(urls, keys[i]) as real);
      assert s[1..] == seq(|keys[1..]|, i requires 0 <= i < |keys[1..]| => Count(urls, keys[1..][i]) as real);
      CountsSumAsReal(keys[1..], urls);
    }
  }

  lemma {:induction false} CountsAsReals(urls: seq<string>)
    ensures var d := Distinct(urls);
      Sum(seq(|d|, i requires 0 <= i < |d| => Count(urls, d[i]) as real)) == |urls| as real
  {
    CountsSumAsReal(Distinct(urls), urls);
    HistogramTotal(urls);
  }

  /** The frequencies of a non-empty URL list add up to 1. */
  lemma FrequenciesSumToOne(urls: seq<string>)
    requires urls != []
    ensures Sum(Values(Frequencies(urls))) == 1.0
  {
    var d := Distinct(urls);
    var counts := seq(|d|, i requires 0 <= i < |d| => Count(urls, d[i]) as real);
    CountsAsReals(urls);
    SharesSumToOne(counts, |urls| as real);
    assert Values(Frequencies(urls)) == seq(|counts|, i requires 0 <= i < |counts| => counts[i] / |urls| as real);
  }

  /** Each frequency is a share in (0, 1]. */
  lemma FrequenciesAreShares(urls: seq<string>)
    requires urls != []
    ensures forall i :: 0 <= i < |Frequencies(urls)| ==> 0.0 < Frequencies(urls)[i].1 <= 1.0
  {
    var d := Distinct(urls);
    DistinctProps(urls);
    forall i | 0 <= i < |d|
      ensures 0.0 < Frequencies(urls)[i].1 <= 1.0
    {
      CountBounds(urls, d[i]);
      ShareBounds(Count(urls, d[i]), |urls|);
    }
  }

  lemma ShareBounds(c: nat, n: nat)
    requires 1 <= c <= n
    ensures 0.0 < c as real / n as real <= 1.0
  {
  }

  /** URL diversity lies in (0, 1] for a non-empty URL list. */
  lemma DiversityIsRatio(urls: seq<string>)
    requires urls != []
    ensures 0.0 < |Distinct(urls)| as real / |urls| as real <= 1.0
  {
    DistinctProps(urls);
    ShareBounds(|Distinct(urls)|, |urls|);
  }

  /** The average of computed entropies never exceeds their maximum. */
  lemma AverageAtMostMax(entropies: seq<real>)
    requires entropies != []
    ensures Sum(entropies) / |entropies| as real <= Max(entropies)
  {
    AverageAtMostBound(entropies, Max(entropies));
  }

  const VectorSize: nat := 50

  function Zeros(n: nat): seq<real> {
    seq(n, _ => 0.0)
  }

  /** The largest frequencies, at most `VectorSize` of them, in descending order. */
  function TopFrequencies(freqs: seq<real>): (top: seq<real>)
    ensures |top| <= VectorSize
  {
    var sorted := SortDesc(freqs);
    if |sorted| > VectorSize then sorted[..VectorSize] else sorted
  }

  /** Scales a vector to sum 1 when its sum is positive. */
  function Normalized(v: seq<real>): seq<real> {
    var total := Sum(v);
    if total > 0.0 then seq(|v|, i requires 0 <= i < |v| => v[i] / total) else v
  }

  /** The clustering vector of an actor with URL frequencies `freqs`. */
  function BehavioralVector(freqs: seq<real>): seq<real> {
    var top := TopFrequencies(freqs);
    Normalized(top + Zeros(VectorSize - |top|))
  }

  /** The vector always has 50 entries, and is all zeros for an actor without URLs. */
  lemma BehavioralVectorShape(freqs: seq<real>)
    ensures |BehavioralVector(freqs)| == VectorSize
    ensures freqs == [] ==> BehavioralVector(freqs) == Zeros(VectorSize)
  {
    if freqs == [] {
      SumZeros(VectorSize);
    }
  }

  lemma {:induction false} SortDescOfPositive(freqs: seq<real>)
    requires forall i :: 0 <= i < |freqs| ==> freqs[i] > 0.0
    ensures forall i :: 0 <= i < |SortDesc(freqs)| ==> SortDesc(freqs)[i] > 0.0
  {
    SortDescProps(freqs);
    forall i | 0 <= i < |SortDesc(freqs)|
      ensures SortDesc(freqs)[i] > 0.0
    {
      var x := SortDesc(freqs)[i];
      assert x in multiset(SortDesc(freqs));
      assert x in freqs;
    }
  }

  /** With positive frequencies the vector is a distribution: it sums to 1. */
  lemma BehavioralVectorSumsToOne(freqs: seq<real>)
    requires freqs != []
    requires forall i :: 0 <= i < |freqs| ==> freqs[i] > 0.0
    ensures Sum(BehavioralVector(freqs)) == 1.0
  {
    var top := TopFrequencies(freqs);
    var sorted := SortDesc(freqs);
    SortDescProps(freqs);
    SortDescOfPositive(freqs);
    SumPositive(top);
    assert |sorted| == |freqs| && top != [];
    assert forall i :: 0 <= i < |top| ==> top[i] == sorted[i];
    var padded := top + Zeros(VectorSize - |top|);
    SumAppend(top, Zeros(VectorSize - |top|));
    SumZeros(VectorSize - |top|);
    assert Sum(padded) > 0.0;
    SharesSumToOne(padded, Sum(padded));
    assert BehavioralVector(freqs) == seq(|padded|, i requires 0 <= i < |padded| => padded[i] / Sum(padded));
  }

  /** With non-negative frequencies the vector is in descending order: the largest shares first, then zeros. */
  lemma BehavioralVectorDescending(freqs: seq<real>)
    requires forall i :: 0 <= i < |freqs| ==> freqs[i] >= 0.0
    ensures Descending(BehavioralVector(freqs))
  {
    var top := TopFrequencies(freqs);
    TopFrequenciesProps(freqs);
    var padded := top + Zeros(VectorSize - |top|);
    PaddedDescending(top, VectorSize - |top|);
    NormalizedDescending(padded);
  }

  /** The top frequencies of non-negative frequencies are non-negative and descending. */
  lemma TopFrequenciesProps(freqs: seq<real>)
    requires forall i :: 0 <= i < |freqs| ==> freqs[i] >= 0.0
    ensures var top := TopFrequencies(freqs);
      Descending(top) && forall i :: 0 <= i < |top| ==> top[i] >= 0.0
  {
    var top := TopFrequencies(freqs);
    SortDescProps(freqs);
    forall i | 0 <= i < |top|
      ensures top[i] >= 0.0
    {
      var x := SortDesc(freqs)[i];
      assert x in multiset(SortDesc(freqs));
      assert x in freqs;
    }
  }

  /** Padding a descending, non-negative sequence with zeros keeps it descending. */
  lemma PaddedDescending(top: seq<real>, n: nat)
    requires Descending(top) && forall i :: 0 <= i < |top| ==> top[i] >= 0.0
    ensures Descending(top + Zeros(n))
  {
    var padded := top + Zeros(n);
    forall i, j | 0 <= i < j < |padded|
      ensures padded[i] >= padded[j]
    {
      if j >= |top| {
        assert padded[j] == 0.0;
      }
    }
  }

  /** Scaling to sum 1 keeps a descending sequence descending. */
  lemma NormalizedDescending(v: seq<real>)
    requires Descending(v)
    ensures Descending(Normalized(v))
  {
    var total := Sum(v);
    if total > 0.0 {
      var r := Normalized(v);
      forall i, j | 0 <= i < j < |r|
        ensures r[i] >= r[j]
      {
        DivideMono(v[j], v[i], total);
      }
    }
  }

  lemma DivideMono(a: real, b: real, t: real)
    requires a <= b && t > 0.0
    ensures a / t <= b / t
  {
  }

  /** A Python set of tags, kept in its iteration order: no tag occurs twice. */
  type TagSet = s: seq<string> | NoDups(s) witness []

  /** An actor: the events from one IP address, behavioural metrics derived from them, tags and evidence. */
  class Actor {
    const ipAddress: string
    var events: seq<LogEvent>
    var totalRequests: nat
    var uniqueUrls: nat
    var avgEntropy: real
    var maxEntropy: real
    var urlDiversityRatio: real
    var anomalyRatio: real
    var centrality: real
    /** The tag set, in its iteration order. */
    var tags: TagSet
    var trail: seq<Record>
    /** `url_frequency_vector`: URL to share of requests, in insertion order. */
    var urlFrequency: seq<(string, real)>
    /**
     * The score the scoring engine stores. `ActorProfile` does not declare it, so the field
     * belongs to the corrected scoring pass; readers use `getattr(a, 'threat_score', 0)`, 0.0 until then.
     */
    var threatScore: real

    constructor (ipAddress: string)
      ensures this.ipAddress == ipAddress && events == [] && tags == [] && trail == []
      ensures totalRequests == 0 && uniqueUrls == 0 && urlFrequency == []
      ensures avgEntropy == 0.0 && maxEntropy == 0.0 && urlDiversityRatio == 0.0
      ensures anomalyRatio == 0.0 && centrality == 0.0 && threatScore == 0.0
    {
      this.ipAddress := ipAddress;
      events := [];
      totalRequests := 0;
      uniqueUrls := 0;
      avgEntropy := 0.0;
      maxEntropy := 0.0;
      urlDiversityRatio := 0.0;
      anomalyRatio := 0.0;
      centrality := 0.0;
      tags := [];
      trail := [];
      urlFrequency := [];
      threatScore := 0.0;
    }

    /** Appends an event and recomputes the metrics. */
    method AddEvent(e: LogEvent)
      modifies this`events, this`totalRequests, this`uniqueUrls, this`urlDiversityRatio
      modifies this`avgEntropy, this`maxEntropy, this`urlFrequency
      ensures events == old(events) + [e]
      ensures totalRequests == |events| && uniqueUrls == |Distinct(UrlsOf(events))|
      ensures urlDiversityRatio == uniqueUrls as real / totalRequests as real
      ensures urlFrequency == Frequencies(UrlsOf(events))
      ensures EntropiesOf(events) != [] ==>
        (avgEntropy == Sum(EntropiesOf(events)) / |EntropiesOf(events)| as real
         && maxEntropy == Max(EntropiesOf(events)))
      ensures EntropiesOf(events) == [] ==> avgEntropy == old(avgEntropy) && maxEntropy == old(maxEntropy)
    {
      events := events + [e];
      UpdateMetrics();
    }

    /** Recomputes the metrics from the events; with no events nothing changes. */
    method UpdateMetrics()
      modifies this`totalRequests, this`uniqueUrls, this`urlDiversityRatio
      modifies this`avgEntropy, this`maxEntropy, this`urlFrequency
      ensures events == [] ==>
        (totalRequests == old(totalRequests) && uniqueUrls == old(uniqueUrls)
         && urlDiversityRatio == old(urlDiversityRatio) && urlFrequency == old(urlFrequency))
      ensures events != [] ==>
        (totalRequests == |events| && uniqueUrls == |Distinct(UrlsOf(events))|
         && urlDiversityRatio == uniqueUrls as real / totalRequests as real
         && urlFrequency == Frequencies(UrlsOf(events)))
      ensures EntropiesOf(events) != [] ==>
        (avgEntropy == Sum(EntropiesOf(events)) / |EntropiesOf(events)| as real
         && maxEntropy == Max(EntropiesOf(events)))
      ensures EntropiesOf(events) == [] ==> avgEntropy == old(avgEntropy) && maxEntropy == old(maxEntropy)
    {
      if events == [] {
        assert EntropiesOf(events) == [];
        return;
      }
      totalRequests := |events|;
      var urls := UrlsOf(events);
      uniqueUrls := |Distinct(urls)|;
      urlDiversityRatio := if totalRequests > 0 then uniqueUrls as real / totalRequests as real else 0.0;
      var entropies := EntropiesOf(events);
      if entropies != [] {
        avgEntropy := Sum(entropies) / |entropies| as real;
        maxEntropy := Max(entropies);
      }
      urlFrequency := Frequencies(urls);
    }

    /** Appends one record to the evidence trail. */
    method AddEvidence(source: string, kind: string, details: string, confidence: real)
      modifies this`trail
      ensures trail == old(trail) + [Logged(source, kind, details, confidence)]
    {
      trail := trail + [Logged(source, kind, details, confidence)];
    }

    /** Adds a tag to the set and logs a `tag_added` record, whether or not the tag was new. */
    method AddTag(tag: string, source: string)
      modifies this`tags, this`trail
      ensures tags == AddUnique(old(tags), tag)
      ensures trail == old(trail) + [Logged(source, "tag_added", "Added tag: " + tag, 1.0)]
    {
      AddUniqueProps(tags, tag);
      tags := AddUnique(tags, tag);
      AddEvidence(source, "tag_added", "Added tag: " + tag, 1.0);
    }

    /** The fixed-size, normalised vector of the largest URL frequencies used for clustering. */
    method GetBehavioralVector() returns (v: seq<real>)
      ensures |v| == VectorSize
      ensures v == BehavioralVector(Values(urlFrequency))
    {
      var sorted := SortDesc(Values(urlFrequency));
      var top := if |sorted| > VectorSize then sorted[..VectorSize] else sorted;
      assert top == TopFrequencies(Values(urlFrequency));
      var vector := top;
      while |vector| < VectorSize
        invariant |top| <= |vector| <= VectorSize
        invariant vector == top + Zeros(|vector| - |top|)
        decreases VectorSize - |vector|
      {
        vector := vector + [0.0];
      }
      assert vector == top + Zeros(VectorSize - |top|);
      vector := vector[..VectorSize];
      var total := Sum(vector);
      ghost var padded := vector;
      assert padded == top + Zeros(VectorSize - |top|);
      if total > 0.0 {
        vector := seq(VectorSize, i requires 0 <= i < VectorSize => vector[i] / total);
      }
      assert vector == Normalized(padded);
      v := vector;
    }
  }

  /** The parts of an actor that detectors and the scoring engine change: its trail and its tags. */
  datatype ActorState = ActorState(trail: seq<Record>, tags: seq<string>)

  function StateOf(actor: Actor): ActorState
    reads actor
  {
    ActorState(actor.trail, actor.tags)
  }

  function States(actors: seq<Actor>): (s: seq<ActorState>)
    reads actors
    ensures |s| == |actors|
  {
    seq(|actors|, i requires 0 <= i < |actors| reads actors => ActorState(actors[i].trail, actors[i].tags))
  }

  /** All tags of the actors, actor by actor, each actor's tags in iteration order. */
  function AllTags(actors: seq<Actor>): seq<string>
    reads actors
    decreases |actors|
  {
    if actors == [] then [] else AllTags(actors[..|actors| - 1]) + actors[|actors| - 1].tags
  }

  /** How many of the actors carry `tag`. */
  function Carriers(actors: seq<Actor>, tag: string): nat
    reads actors
    decreases |actors|
  {
    if actors == [] then 0
    else Carriers(actors[..|actors| - 1], tag) + (if tag in actors[|actors| - 1].tags then 1 else 0)
  }

  /** A tag set holds no repeats, so a tag's Counter entry is the number of actors carrying it. */
  lemma {:induction false} TagCountIsCarriers(actors: seq<Actor>, tag: string)
    ensures Count(AllTags(actors), tag) == Carriers(actors, tag)
    decreases |actors|
  {
    if actors != [] {
      var init, last := actors[..|actors| - 1], actors[|actors| - 1];
      TagCountIsCarriers(init, tag);
      NoDupsCount(last.tags, tag);
      assert multiset(AllTags(actors)) == multiset(AllTags(init)) + multiset(last.tags);
    }
  }

  /** The first key with the largest count (`max` over a Counter's items in insertion order). */
  function FirstMax(keys: seq<string>, counts: map<string, nat>): (r: string)
    requires keys != []
    requires forall k :: k in keys ==> k in counts
    ensures r in keys
    decreases |keys|
  {
    if |keys| == 1 then keys[0]
    else
      var rest := FirstMax(keys[1..], counts);
      if counts[keys[0]] >= counts[rest] then keys[0] else rest
  }

  lemma {:induction false} FirstMaxIsFirstMaximal(keys: seq<string>, counts: map<string, nat>)
    requires keys != [] && NoDups(keys)
    requires forall k :: k in keys ==> k in counts
    ensures FirstMax(keys, counts) in keys
    ensures forall k :: k in keys ==> counts[k] <= counts[FirstMax(keys, counts)]
    ensures forall i, j :: 0 <= i < j < |keys| && keys[j] == FirstMax(keys, counts) ==>
      counts[keys[i]] < counts[FirstMax(keys, counts)]
    decreases |keys|
  {
    if |keys| > 1 {
      var rest := keys[1..];
      FirstMaxIsFirstMaximal(rest, counts);
      var r := FirstMax(keys, counts);
      forall i, j | 0 <= i < j < |keys| && keys[j] == r
        ensures counts[keys[i]] < counts[r]
      {
        if r == keys[0] {
          assert false;
        } else if i > 0 {
          assert rest[i - 1] == keys[i] && rest[j - 1] == keys[j];
        }
      }
    }
  }

  /** `Counter(s).most_common(1)[0][0]`: the most frequent element, the first seen among equals. */
  function MostCommon(s: seq<string>): string
    requires s != []
  {
    DistinctProps(s);
    FirstMax(Distinct(s), Tally(s))
  }

  lemma MostCommonIsFirstMaximal(s: seq<string>)
    requires s != []
    ensures MostCommon(s) in s
    ensures forall u :: u in s ==> Count(s, u) <= Count(s, MostCommon(s))
    ensures forall i, j :: 0 <= i < j < |Distinct(s)| && Distinct(s)[j] == MostCommon(s) ==>
      Count(s, Distinct(s)[i]) < Count(s, MostCommon(s))
  {
    DistinctProps(s);
    FirstMaxIsFirstMaximal(Distinct(s), Tally(s));
  }

  /** The tag union of a campaign's actors and, when they have tags, the most common one. */
  method CampaignMetrics(actors: seq<Actor>) returns (union: set<string>, kind: Option<string>)
    ensures union == Elems(AllTags(actors))
    ensures kind.Some? <==> AllTags(actors) != []
    ensures kind.Some? ==> kind.value == MostCommon(AllTags(actors))
  {
    union := UnionOfTags(actors);
    var keys, counts := TallyTags(actors);
    DistinctProps(AllTags(actors));
    if keys != [] {
      kind := Some(FirstMax(keys, counts));
    } else {
      kind := None;
    }
  }

  /** The union of the actors' tag sets (`all_tags.update(actor.tags)` for each actor). */
  method UnionOfTags(actors: seq<Actor>) returns (allTags: set<string>)
    ensures allTags == Elems(AllTags(actors))
  {
    allTags := {};
    var i := 0;
    while i < |actors|
      invariant 0 <= i <= |actors|
      invariant allTags == Elems(AllTags(actors[..i]))
    {
      assert actors[..i + 1][..i] == actors[..i];
      allTags := allTags + Elems(actors[i].tags);
      i := i + 1;
    }
    assert actors[..|actors|] == actors;
  }

  /**
   * Counts every tag of every actor into a Counter, kept as its key order and its counts:
   * the keys are the distinct tags in first-seen order and each count is the number of
   * actors carrying the tag.
   */
  method TallyTags(actors: seq<Actor>) returns (keys: seq<string>, counts: map<string, nat>)
    ensures keys == Distinct(AllTags(actors))
    ensures counts == Tally(AllTags(actors))
  {
    keys := [];
    counts := map[];
    var i := 0;
    while i < |actors|
      invariant 0 <= i <= |actors|
      invariant Counts(keys, counts, AllTags(actors[..i]))
    {
      keys, counts := CountInto(keys, counts, actors[i].tags, AllTags(actors[..i]));
      assert actors[..i + 1][..i] == actors[..i];
      i := i + 1;
    }
    assert actors[..|actors|] == actors;
  }

  /** A threat campaign: a group of actors with aggregated tags and type. */
  class Campaign {
    const campaignId: string
    var actors: seq<Actor>
    /** Never recomputed from the actors; see `UpdateMetrics`. */
    var threatScore: real
    var primaryTags: set<string>
    var campaignType: string
    var trail: seq<Record>

    constructor (campaignId: string, actors: seq<Actor>)
      ensures this.campaignId == campaignId && this.actors == actors
      ensures threatScore == 0.0 && primaryTags == {} && campaignType == "unknown" && trail == []
    {
      this.campaignId := campaignId;
      this.actors := actors;
      threatScore := 0.0;
      primaryTags := {};
      campaignType := "unknown";
      trail := [];
    }

    /** Appends an actor and recomputes the aggregates. */
    method AddActor(a: Actor)
      modifies this`actors, this`primaryTags, this`campaignType
      ensures actors == old(actors) + [a]
      ensures primaryTags == Elems(AllTags(actors))
      ensures AllTags(actors) != [] ==> campaignType == MostCommon(AllTags(actors))
      ensures AllTags(actors) == [] ==> campaignType == old(campaignType)
    {
      actors := actors + [a];
      UpdateMetrics();
    }

    /**
     * Recomputes the tag union and the most common tag. The score average only covers members
     * with a dict-style `get`, which no actor has, so `threatScore` keeps its value.
     */
    method UpdateMetrics()
      modifies this`primaryTags, this`campaignType
      ensures actors == [] ==> primaryTags == old(primaryTags)
      ensures actors != [] ==> primaryTags == Elems(AllTags(actors))
      ensures AllTags(actors) != [] ==> campaignType == MostCommon(AllTags(actors))
      ensures AllTags(actors) == [] ==> campaignType == old(campaignType)
    {
      if actors == [] {
        return;
      }
      var union, kind := CampaignMetrics(actors);
      primaryTags := union;
      if kind.Some? {
        campaignType := kind.value;
      }
    }

    /** Appends one record, without a confidence, to the campaign's trail. */
    method AddEvidence(source: string, kind: string, details: string)
      modifies this`trail
      ensures trail == old(trail) + [Record(source, kind, details, "", None)]
    {
      trail := trail + [Record(source, kind, details, "", None)];
    }
  }
}
