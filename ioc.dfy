/**
 * Dynamic indicator-of-compromise feeds: each feed holds a set of text
 * patterns loaded from a URL, counts consecutive failed loads and switches
 * itself off after three; the manager keeps the configured feeds by name,
 * refreshes them at most once per update interval, matches text against
 * the feeds of one kind and reports statistics.
 *
 * The HTTP fetch is the parameter `fetch` (the response for a URL at the
 * moment of the call); the clock is the integer `now`, in seconds.
 */
module IoC {
  import opened Wrappers
  import opened Text
  import opened Seqs

  /** The outcome of fetching a feed's URL: the body text, or any failure. */
  datatype Response = Ok(text: string) | Failed

  /** Consecutive failures after which a feed disables itself. */
  const MaxErrors: nat := 3

  // ---------------------------------------------------------------------
  // Pattern parsing
  // ---------------------------------------------------------------------

  /** A stripped line is a pattern when it is non-empty and not a `#` comment. */
  predicate IsPattern(line: string)
  {
    line != [] && !StartsWith(line, "#")
  }

  /** The patterns of a list of lines. */
  function Patterns(lines: seq<string>): set<string>
  {
    set l | l in lines && IsPattern(Strip(l)) :: Strip(l)
  }

  /** The patterns of a feed body: its stripped, non-empty, non-comment lines. */
  function ParsePatterns(text: string): set<string>
  {
    Patterns(Split(text, '\n'))
  }

  lemma PatternsSnoc(lines: seq<string>, l: string)
    ensures Patterns(lines + [l]) == Patterns(lines) + (if IsPattern(Strip(l)) then {Strip(l)} else {})
  {
    assert forall x :: x in lines + [l] <==> x in lines || x == l;
  }

  /** Stripping keeps a piece of the line, so it adds no characters. */
  lemma StripChars(s: string)
    ensures forall c :: c in Strip(s) ==> c in s
  {
    TrimLeftShape(s);
    TrimRightShape(TrimLeft(s));
    var l := TrimLeft(s);
    forall c | c in Strip(s)
      ensures c in s
    {
      var k :| 0 <= k < |Strip(s)| && Strip(s)[k] == c;
      assert c == l[k];
      assert l[k] == s[|s| - |l| + k];
    }
  }

  /**
   * Every parsed pattern is non-empty, is not a comment, has no blank at
   * either end and holds no line break; a line that is neither blank nor a
   * comment always yields its stripped form.
   */
  lemma ParsePatternsProps(text: string)
    ensures forall p :: p in ParsePatterns(text) ==>
      p != [] && p[0] != '#' && !IsSpace(p[0]) && !IsSpace(p[|p| - 1]) && '\n' !in p
    ensures forall l :: l in Split(text, '\n') && IsPattern(Strip(l)) ==> Strip(l) in ParsePatterns(text)
  {
    SplitShape(text, '\n');
    forall p | p in ParsePatterns(text)
      ensures p != [] && p[0] != '#' && !IsSpace(p[0]) && !IsSpace(p[|p| - 1]) && '\n' !in p
    {
      var l :| l in Split(text, '\n') && IsPattern(Strip(l)) && Strip(l) == p;
      StripShape(l);
      StripChars(l);
      assert p[..1] != "#";
    }
  }

  // ---------------------------------------------------------------------
  // A feed's state machine
  // ---------------------------------------------------------------------

  /** The mutable part of a feed. */
  datatype FeedState = FeedState(enabled: bool, lastUpdate: Option<int>, patterns: set<string>, errorCount: nat)

  /** An enabled feed has fewer than `MaxErrors` failures behind it. */
  predicate Healthy(s: FeedState)
  {
    s.errorCount <= MaxErrors && (s.enabled ==> s.errorCount < MaxErrors)
  }

  /** The state after one load attempt with the given response. */
  function Load(s: FeedState, r: Response, now: int): FeedState
  {
    if !s.enabled then s
    else match r
      case Ok(text) => s.(patterns := ParsePatterns(text), lastUpdate := Some(now), errorCount := 0)
      case Failed => s.(errorCount := s.errorCount + 1, enabled := s.errorCount + 1 < MaxErrors)
  }

  /** Whether the load attempt reports success. */
  predicate Loaded(s: FeedState, r: Response)
  {
    s.enabled && r.Ok?
  }

  /**
   * A disabled feed ignores loads; a successful load replaces the patterns
   * and clears the failure count; a failed one keeps the patterns and counts
   * one more failure. Loading keeps a feed healthy and never re-enables it.
   */
  lemma LoadProps(s: FeedState, r: Response, now: int)
    ensures !s.enabled ==> Load(s, r, now) == s && !Loaded(s, r)
    ensures Load(s, r, now).enabled ==> s.enabled
    ensures Loaded(s, r) ==>
      Load(s, r, now).patterns == ParsePatterns(r.text) && Load(s, r, now).errorCount == 0 &&
      Load(s, r, now).lastUpdate == Some(now) && Load(s, r, now).enabled
    ensures s.enabled && r.Failed? ==>
      Load(s, r, now).errorCount == s.errorCount + 1 && Load(s, r, now).patterns == s.patterns &&
      Load(s, r, now).lastUpdate == s.lastUpdate &&
      (Load(s, r, now).enabled <==> s.errorCount + 1 < MaxErrors)
    ensures Healthy(s) ==> Healthy(Load(s, r, now))
  {
  }

  /** Three failed loads in a row switch any healthy feed off for good. */
  lemma ThreeFailuresDisable(s: FeedState, t1: int, t2: int, t3: int, r: Response, t4: int)
    requires Healthy(s)
    ensures var s3 := Load(Load(Load(s, Failed, t1), Failed, t2), Failed, t3);
      !s3.enabled && Load(s3, r, t4) == s3
  {
  }

  class IoCFeed {
    const name: string
    const url: string
    const feedType: string
    var enabled: bool
    var lastUpdate: Option<int>
    var patterns: set<string>
    var errorCount: nat

    function State(): FeedState
      reads this
    {
      FeedState(enabled, lastUpdate, patterns, errorCount)
    }

    /** A healthy failure count, and only non-empty patterns (the `if pattern:` test always passes). */
    predicate Valid()
      reads this
    {
      Healthy(State()) && forall p :: p in patterns ==> p != []
    }

    constructor (name: string, url: string, feedType: string, enabled: bool)
      ensures this.name == name && this.url == url && this.feedType == feedType
      ensures State() == FeedState(enabled, None, {}, 0)
      ensures Valid()
    {
      this.name := name;
      this.url := url;
      this.feedType := feedType;
      this.enabled := enabled;
      lastUpdate := None;
      patterns := {};
      errorCount := 0;
    }

    /** Loads the patterns from a fetched response, counting a failure otherwise. */
    method LoadPatterns(response: Response, now: int) returns (ok: bool)
      requires Valid()
      modifies this`enabled, this`lastUpdate, this`patterns, this`errorCount
      ensures State() == Load(old(State()), response, now)
      ensures ok == Loaded(old(State()), response)
      ensures Valid()
    {
      LoadProps(State(), response, now);
      if !enabled {
        return false;
      }
      match response {
        case Ok(text) =>
          ParsePatternsProps(text);
          var ps := ParseLines(Split(text, '\n'));
          patterns := ps;
          lastUpdate := Some(now);
          errorCount := 0;
          ok := true;
        case Failed =>
          errorCount := errorCount + 1;
          if errorCount >= MaxErrors {
            enabled := false;
          }
          ok := false;
      }
    }

    /** Some stored pattern occurring in `text`, if the feed is enabled and has one. */
    method MatchPattern(text: string) returns (r: Option<string>)
      ensures r.Some? ==> enabled && r.value in patterns && Contains(text, r.value)
      ensures r.None? <==> !Hits(this, text)
    {
      if !enabled || patterns == {} {
        return None;
      }
      var rest := patterns;
      while rest != {}
        invariant rest <= patterns
        invariant forall p :: p in patterns - rest ==> !Contains(text, p)
        decreases |rest|
      {
        var p :| p in rest;
        if Contains(text, p) {
          return Some(p);
        }
        rest := rest - {p};
      }
      return None;
    }
  }

  /** The feed is enabled and one of its patterns occurs in `text`. */
  predicate Hits(f: IoCFeed, text: string)
    reads f
  {
    f.enabled && exists p :: p in f.patterns && Contains(text, p)
  }

  /** The pattern set of a list of lines, built line by line. */
  method ParseLines(lines: seq<string>) returns (ps: set<string>)
    ensures ps == Patterns(lines)
  {
    ps := {};
    for i := 0 to |lines|
      invariant ps == Patterns(lines[..i])
    {
      PatternsSnoc(lines[..i], lines[i]);
      assert lines[..i + 1] == lines[..i] + [lines[i]];
      var line := Strip(lines[i]);
      if line != [] && !StartsWith(line, "#") {
        ps := ps + {line};
      }
    }
    assert lines[..|lines|] == lines;
  }

  // ---------------------------------------------------------------------
  // Configuration
  // ---------------------------------------------------------------------

  /** One configured feed; an absent `enabled` means enabled. */
  datatype FeedConfig = FeedConfig(name: string, url: string, feedType: string, enabled: Option<bool>)

  /** Manager settings; absent entries take the defaults 3600 seconds, enabled, no feeds. */
  datatype ManagerConfig = ManagerConfig(updateInterval: Option<int>, enabled: Option<bool>,
                                         feeds: Option<seq<FeedConfig>>)

  function Names(configs: seq<FeedConfig>): seq<string>
  {
    if configs == [] then [] else Names(configs[..|configs| - 1]) + [configs[|configs| - 1].name]
  }

  /** The position of the last configuration named `name`: later entries replace earlier ones. */
  function LastIndex(configs: seq<FeedConfig>, name: string): (r: Option<nat>)
    ensures r.Some? ==> r.value < |configs|
  {
    if configs == [] then None
    else if configs[|configs| - 1].name == name then Some(|configs| - 1)
    else LastIndex(configs[..|configs| - 1], name)
  }

  lemma {:induction false} LastIndexProps(configs: seq<FeedConfig>, name: string)
    ensures LastIndex(configs, name).Some? <==> name in Names(configs)
    ensures LastIndex(configs, name).Some? ==>
      var k := LastIndex(configs, name).value;
      k < |configs| && configs[k].name == name &&
      forall j :: k < j < |configs| ==> configs[j].name != name
    ensures |Names(configs)| == |configs|
    decreases |configs|
  {
    if configs != [] {
      LastIndexProps(configs[..|configs| - 1], name);
    }
  }

  /** The configuration each feed of the manager was built from. */
  predicate BuiltFrom(f: IoCFeed, c: FeedConfig)
    reads f
  {
    f.name == c.name && f.url == c.url && f.feedType == c.feedType &&
    f.State() == FeedState(c.enabled.GetOr(true), None, {}, 0)
  }

  /** The feeds by name built from `configs`, with their names in first-appearance order. */
  predicate Registry(fs: map<string, IoCFeed>, names: seq<string>, configs: seq<FeedConfig>)
    reads fs.Values
  {
    && names == Distinct(Names(configs))
    && Elems(names) == fs.Keys
    && NoDups(names)
    && (forall n :: n in fs ==>
          fs[n].name == n && fs[n].Valid() && LastIndex(configs, n).Some? &&
          BuiltFrom(fs[n], configs[LastIndex(configs, n).value]))
    && (forall n, m :: n in fs && m in fs && n != m ==> fs[n] != fs[m])
  }

  lemma RegistryStep(fs: map<string, IoCFeed>, names: seq<string>, configs: seq<FeedConfig>,
                     c: FeedConfig, feed: IoCFeed)
    requires Registry(fs, names, configs)
    requires BuiltFrom(feed, c) && feed.Valid()
    requires forall n :: n in fs ==> fs[n] != feed
    ensures Registry(fs[c.name := feed], AddUnique(names, c.name), configs + [c])
  {
    NamesStep(names, configs, c);
    var fs' := fs[c.name := feed];
    var configs' := configs + [c];
    forall n | n in fs'
      ensures fs'[n].name == n && fs'[n].Valid() && LastIndex(configs', n).Some?
      ensures BuiltFrom(fs'[n], configs'[LastIndex(configs', n).value])
    {
      LastIndexSnoc(configs, c, n);
    }
  }

  /** The names in first-appearance order after one more configuration. */
  lemma NamesStep(names: seq<string>, configs: seq<FeedConfig>, c: FeedConfig)
    requires names == Distinct(Names(configs)) && NoDups(names)
    ensures AddUnique(names, c.name) == Distinct(Names(configs + [c]))
    ensures NoDups(AddUnique(names, c.name)) && Elems(AddUnique(names, c.name)) == Elems(names) + {c.name}
  {
    assert (configs + [c])[..|configs|] == configs;
    assert Names(configs + [c]) == Names(configs) + [c.name];
    DistinctSnoc(Names(configs), c.name);
    DistinctProps(Names(configs));
    AddUniqueProps(names, c.name);
  }

  /** One more configuration is the last one of its own name and leaves the others' positions alone. */
  lemma LastIndexSnoc(configs: seq<FeedConfig>, c: FeedConfig, n: string)
    ensures LastIndex(configs + [c], n) == if n == c.name then Some(|configs|) else LastIndex(configs, n)
    ensures LastIndex(configs, n).Some? ==> (configs + [c])[LastIndex(configs, n).value] == configs[LastIndex(configs, n).value]
  {
    assert (configs + [c])[..|configs|] == configs;
  }

  /** One feed per configured name; a later configuration replaces an earlier one. */
  method BuildFeeds(configs: seq<FeedConfig>) returns (fs: map<string, IoCFeed>, names: seq<string>)
    ensures Registry(fs, names, configs)
  {
    fs := map[];
    names := [];
    for i := 0 to |configs|
      invariant Registry(fs, names, configs[..i])
    {
      var c := configs[i];
      assert configs[..i + 1] == configs[..i] + [c];
      var feed := new IoCFeed(c.name, c.url, c.feedType, c.enabled.GetOr(true));
      RegistryStep(fs, names, configs[..i], c, feed);
      fs := fs[c.name := feed];
      names := AddUnique(names, c.name);
    }
    assert configs[..|configs|] == configs;
  }

  // ---------------------------------------------------------------------
  // The manager
  // ---------------------------------------------------------------------

  /** A detection by one feed. */
  datatype Hit = Hit(feed: string, pattern: string, confidence: real, description: string)

  datatype Stats = Stats(totalFeeds: nat, enabledFeeds: nat, totalPatterns: nat,
                         lastUpdate: Option<int>, enabled: bool)

  /** The update that happened less than `interval` seconds ago, if any. */
  predicate Recent(last: Option<int>, now: int, interval: int)
  {
    last.Some? && now - last.value < interval
  }

  /** Attack family named by a feed: lfi, then sqli, then xss, case-insensitively. */
  function AttackType(feedName: string): (r: string)
    ensures r in {"LFI", "SQLi", "XSS", "Attack"}
    ensures r == "Attack" <==>
      !Contains(Lower(feedName), "lfi") && !Contains(Lower(feedName), "sqli") && !Contains(Lower(feedName), "xss")
    ensures r == "SQLi" ==> !Contains(Lower(feedName), "lfi")
    ensures r == "XSS" ==> !Contains(Lower(feedName), "lfi") && !Contains(Lower(feedName), "sqli")
  {
    var lower := Lower(feedName);
    if Contains(lower, "lfi") then "LFI"
    else if Contains(lower, "sqli") then "SQLi"
    else if Contains(lower, "xss") then "XSS"
    else "Attack"
  }

  /** Python lowers a dotted capital I to `i` and a combining dot, so a feed named `LFİ` is an LFI feed. */
  lemma DottedCapitalIFeed()
    ensures AttackType("LF\U{0130}") == "LFI"
  {
    var head, last := "LF", "\U{0130}";
    LowerCharwise(head);
    LowerAppend(head, last);
    assert head + last == "LF\U{0130}";
    LowerDottedCapitalI();
    var u := Lower(head) + Lower(last);
    assert u == "lfi\U{0307}";
    assert u[0..3] == "lfi";
    assert OccursAt(u, "lfi", 0);
    ContainsIffOccurrence(u, "lfi");
  }

  /** The attack type depends only on the lower-cased name. */
  lemma AttackTypeIgnoresCase(a: string, b: string)
    requires Lower(a) == Lower(b)
    ensures AttackType(a) == AttackType(b)
  {
  }

  class IoCManager {
    const updateInterval: int
    const enabled: bool
    /** Feeds by name, and the names in insertion order (the dict's order). */
    const feeds: map<string, IoCFeed>
    const order: seq<string>
    var lastUpdate: Option<int>

    predicate Valid()
      reads this, feeds.Values
    {
      && NoDups(order)
      && Elems(order) == feeds.Keys
      && (forall n :: n in feeds ==> feeds[n].name == n && feeds[n].Valid())
      && (forall n, m :: n in feeds && m in feeds && n != m ==> feeds[n] != feeds[m])
    }

    /** Builds one feed per configured name; a later entry replaces an earlier one of the same name. */
    constructor (config: ManagerConfig)
      ensures updateInterval == config.updateInterval.GetOr(3600)
      ensures enabled == config.enabled.GetOr(true)
      ensures lastUpdate == None
      ensures !enabled ==> order == []
      ensures enabled ==> order == Distinct(Names(config.feeds.GetOr([])))
      ensures forall n :: n in feeds ==>
        LastIndex(config.feeds.GetOr([]), n).Some? &&
        BuiltFrom(feeds[n], config.feeds.GetOr([])[LastIndex(config.feeds.GetOr([]), n).value])
      ensures Valid()
    {
      updateInterval := config.updateInterval.GetOr(3600);
      enabled := config.enabled.GetOr(true);
      lastUpdate := None;
      var fs: map<string, IoCFeed> := map[];
      var names: seq<string> := [];
      if config.enabled.GetOr(true) {
        fs, names := BuildFeeds(config.feeds.GetOr([]));
      }
      feeds := fs;
      order := names;
    }

    /**
     * Reloads every feed, unless the manager is disabled (nothing happens)
     * or the last update is less than the interval old (nothing happens,
     * reported as success); otherwise the result says whether any feed
     * loaded successfully.
     */
    method UpdateFeeds(now: int, fetch: string -> Response) returns (ok: bool)
      requires Valid()
      modifies this`lastUpdate, feeds.Values
      ensures Valid()
      ensures !enabled ==> !ok && Untouched(old(lastUpdate))
      ensures enabled && Recent(old(lastUpdate), now, updateInterval) ==> ok && Untouched(old(lastUpdate))
      ensures enabled && !Recent(old(lastUpdate), now, updateInterval) ==>
        && lastUpdate == Some(now)
        && (forall n :: n in feeds ==> feeds[n].State() == Load(old(feeds[n].State()), fetch(feeds[n].url), now))
        && (ok <==> exists n :: n in feeds && Loaded(old(feeds[n].State()), fetch(feeds[n].url)))
    {
      if !enabled {
        return false;
      }
      if lastUpdate.Some? && now - lastUpdate.value < updateInterval {
        return true;
      }
      var successCount := 0;
      for i := 0 to |order|
        invariant forall n :: n in feeds ==> feeds[n].Valid()
        invariant forall n :: n in feeds ==> (feeds[n].State() ==
          if n in order[..i] then Load(old(feeds[n].State()), fetch(feeds[n].url), now) else old(feeds[n].State()))
        invariant successCount > 0 <==>
          exists n :: n in order[..i] && Loaded(old(feeds[n].State()), fetch(feeds[n].url))
      {
        var name := order[i];
        assert name in Elems(order);
        var feed := feeds[name];
        assert order[..i + 1] == order[..i] + [name];
        assert name !in order[..i];
        var loaded := feed.LoadPatterns(fetch(feed.url), now);
        if loaded {
          successCount := successCount + 1;
        }
      }
      assert order[..|order|] == order;
      lastUpdate := Some(now);
      ok := successCount > 0;
    }

    /** No feed changed and the last update is still `last`. */
    twostate predicate Untouched(last: Option<int>)
      reads this, feeds.Values
    {
      lastUpdate == last && forall n :: n in feeds ==> feeds[n].State() == old(feeds[n].State())
    }

    /** The position of the first feed, from `i` on, of kind `kind` that hits `text`. */
    function FirstHit(kind: string, text: string, i: nat): (r: Option<nat>)
      reads feeds.Values
      ensures r.Some? ==> i <= r.value < |order| && order[r.value] in feeds
      decreases |order| - i
    {
      if i >= |order| then None
      else if order[i] in feeds && feeds[order[i]].feedType == kind && Hits(feeds[order[i]], text) then Some(i)
      else FirstHit(kind, text, i + 1)
    }

    /** The feed chosen is of the kind, hits, and no feed of the kind before it hits. */
    lemma {:induction false} FirstHitProps(kind: string, text: string, i: nat)
      requires Valid()
      ensures var r := FirstHit(kind, text, i);
        && (r.Some? ==>
              && i <= r.value < |order|
              && feeds[order[r.value]].feedType == kind && Hits(feeds[order[r.value]], text)
              && forall j :: i <= j < r.value ==> !(feeds[order[j]].feedType == kind && Hits(feeds[order[j]], text)))
        && (r.None? <==>
              forall j :: i <= j < |order| ==> !(feeds[order[j]].feedType == kind && Hits(feeds[order[j]], text)))
      decreases |order| - i
    {
      if i < |order| {
        assert order[i] in Elems(order);
        FirstHitProps(kind, text, i + 1);
      }
    }

    /** The first feed of `kind`, in insertion order, with a pattern in `text`. */
    method FirstMatch(kind: string, text: string) returns (r: Option<(string, string)>)
      requires Valid()
      ensures r.None? <==> FirstHit(kind, text, 0).None?
      ensures r.Some? ==>
        var f := feeds[order[FirstHit(kind, text, 0).value]];
        r.value.0 == f.name && r.value.1 in f.patterns && Contains(text, r.value.1)
    {
      FirstHitProps(kind, text, 0);
      for i := 0 to |order|
        invariant FirstHit(kind, text, 0) == FirstHit(kind, text, i)
      {
        assert order[i] in Elems(order);
        var feed := feeds[order[i]];
        if feed.feedType == kind {
          var pattern := feed.MatchPattern(text);
          if pattern.Some? {
            return Some((feed.name, pattern.value));
          }
        }
      }
      return None;
    }

    /** The hit reported for a match of a feed of `kind` (as the four `check_*` calls build it). */
    static function Report(kind: string, feed: string, pattern: string): Hit
    {
      if kind == "user_agent" then Hit(feed, pattern, 0.9, "Malicious user agent pattern detected: " + pattern)
      else if kind == "url_path" then Hit(feed, pattern, 0.8, "Suspicious URL path detected: " + pattern)
      else if kind == "ip_address" then Hit(feed, pattern, 0.95, "Malicious IP address detected: " + pattern)
      else Hit(feed, pattern, 0.85, AttackType(feed) + " attack pattern detected: " + pattern)
    }

    method Check(kind: string, text: string) returns (r: Option<Hit>)
      requires Valid()
      ensures r.None? <==> FirstHit(kind, text, 0).None?
      ensures r.Some? ==>
        var f := feeds[order[FirstHit(kind, text, 0).value]];
        r.value == Report(kind, f.name, r.value.pattern) && r.value.pattern in f.patterns &&
        r.value.pattern != [] && Contains(text, r.value.pattern)
    {
      var m := FirstMatch(kind, text);
      if m.Some? {
        return Some(Report(kind, m.value.0, m.value.1));
      }
      return None;
    }

    method CheckUserAgent(userAgent: string) returns (r: Option<Hit>)
      requires Valid()
      ensures r.None? <==> FirstHit("user_agent", userAgent, 0).None?
      ensures r.Some? ==> r.value.confidence == 0.9 && Contains(userAgent, r.value.pattern)
    {
      r := Check("user_agent", userAgent);
    }

    method CheckUrlPath(urlPath: string) returns (r: Option<Hit>)
      requires Valid()
      ensures r.None? <==> FirstHit("url_path", urlPath, 0).None?
      ensures r.Some? ==> r.value.confidence == 0.8 && Contains(urlPath, r.value.pattern)
    {
      r := Check("url_path", urlPath);
    }

    method CheckIpAddress(ip: string) returns (r: Option<Hit>)
      requires Valid()
      ensures r.None? <==> FirstHit("ip_address", ip, 0).None?
      ensures r.Some? ==> r.value.confidence == 0.95 && Contains(ip, r.value.pattern)
    {
      r := Check("ip_address", ip);
    }

    method CheckUrlPattern(url: string) returns (r: Option<Hit>)
      requires Valid()
      ensures r.None? <==> FirstHit("url_pattern", url, 0).None?
      ensures r.Some? ==>
        r.value.confidence == 0.85 && Contains(url, r.value.pattern) &&
        r.value.description == AttackType(r.value.feed) + " attack pattern detected: " + r.value.pattern
    {
      r := Check("url_pattern", url);
    }

    function EnabledCount(names: seq<string>): nat
      reads feeds.Values
    {
      if names == [] then 0
      else EnabledCount(names[..|names| - 1]) +
           (if names[|names| - 1] in feeds && feeds[names[|names| - 1]].enabled then 1 else 0)
    }

    function PatternTotal(names: seq<string>): nat
      reads feeds.Values
    {
      if names == [] then 0
      else PatternTotal(names[..|names| - 1]) +
           (if names[|names| - 1] in feeds then |feeds[names[|names| - 1]].patterns| else 0)
    }

    function GetStats(): Stats
      reads this, feeds.Values
    {
      Stats(|feeds|, EnabledCount(order), PatternTotal(order), lastUpdate, enabled)
    }

    lemma {:induction false} EnabledCountBound(names: seq<string>)
      ensures EnabledCount(names) <= |names|
      decreases |names|
    {
      if names != [] {
        EnabledCountBound(names[..|names| - 1]);
      }
    }

    /**
     * The feed count is the number of distinct names, at most that many
     * feeds are enabled, and with no patterns loaded the total is zero.
     */
    lemma StatsProps()
      requires Valid()
      ensures GetStats().totalFeeds == |order|
      ensures GetStats().enabledFeeds <= GetStats().totalFeeds
      ensures GetStats().totalPatterns == 0 <==> forall n :: n in feeds ==> feeds[n].patterns == {}
    {
      NoDupsCard(order);
      EnabledCountBound(order);
      PatternTotalZero(order);
    }

    /** The pattern total over `names` is zero exactly when none of their feeds holds a pattern. */
    lemma {:induction false} PatternTotalZero(names: seq<string>)
      requires forall n :: n in names ==> n in feeds
      ensures PatternTotal(names) == 0 <==> forall k :: 0 <= k < |names| ==> feeds[names[k]].patterns == {}
      decreases |names|
    {
      if names != [] {
        var init := names[..|names| - 1];
        PatternTotalZero(init);
        assert forall k :: 0 <= k < |init| ==> init[k] == names[k];
      }
    }
  }

  lemma {:induction false} NoDupsCard(s: seq<string>)
    requires NoDups(s)
    ensures |Elems(s)| == |s|
    decreases |s|
  {
    if s != [] {
      var init := s[..|s| - 1];
      assert s == init + [s[|s| - 1]];
      assert NoDups(init);
      NoDupsCard(init);
      assert Elems(s) == Elems(init) + {s[|s| - 1]};
    }
  }
}
