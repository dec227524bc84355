/**
 * Actor profiling: events are grouped by source address into profiles carrying their count and
 * time bounds, and an enrichment pass adds method and status histograms, URL and user-agent
 * diversity and the request rate to each profile's behavioural signatures.
 *
 * These stages read fields the shared data model does not declare (`event_count`, `first_seen`,
 * `behavioral_signatures`, `http_method`, `url_normalized`), so they get their own event record
 * and profile class here.
 */
module Profiling {
  import opened Wrappers
  import opened Seqs

  datatype Event = Event(sourceIp: string, timestamp: real, httpMethod: string, statusCode: int,
                         urlNormalized: string, userAgent: Option<string>)

  /**
   * The keys of a profile's behavioural signatures: `method_distribution`, `status_distribution`,
   * `unique_urls_count`, `total_urls_count`, `time_span_seconds`, `avg_events_per_second`,
   * `url_diversity_ratio`, `unique_user_agents` and `user_agent_diversity`.
   */
  datatype SignatureKey =
    | MethodDistribution | StatusDistribution | UniqueUrlsCount | TotalUrlsCount | TimeSpanSeconds
    | AvgEventsPerSecond | UrlDiversityRatio | UniqueUserAgents | UserAgentDiversity

  /** A value stored in a profile's behavioural signatures. */
  datatype Signature =
    | Number(x: real)
    | MethodHistogram(methods: seq<string>, methodCounts: map<string, nat>)
    | StatusHistogram(statuses: seq<int>, statusCounts: map<int, nat>)

  /** Raised by `_create_actor_profile` for an empty event list. */
  datatype ProfileError = EmptyEventList

  class Profile {
    const ipAddress: string
    const eventCount: nat
    const firstSeen: real
    const lastSeen: real
    var events: seq<Event>
    var signatures: map<SignatureKey, Signature>

    constructor(ipAddress: string, eventCount: nat, firstSeen: real, lastSeen: real, events: seq<Event>)
      ensures this.ipAddress == ipAddress && this.eventCount == eventCount
      ensures this.firstSeen == firstSeen && this.lastSeen == lastSeen
      ensures this.events == events && signatures == map[]
    {
      this.ipAddress := ipAddress;
      this.eventCount := eventCount;
      this.firstSeen := firstSeen;
      this.lastSeen := lastSeen;
      this.events := events;
      signatures := map[];
    }
  }

  // ---------------------------------------------------------------------------------------
  // Grouping

  function Ips(events: seq<Event>): (ips: seq<string>)
    ensures |ips| == |events|
  {
    seq(|events|, i requires 0 <= i < |events| => events[i].sourceIp)
  }

  function Times(events: seq<Event>): (ts: seq<real>)
    ensures |ts| == |events|
  {
    seq(|events|, i requires 0 <= i < |events| => events[i].timestamp)
  }

  /** The events from `ip`, in their original order. */
  function EventsFrom(events: seq<Event>, ip: string): seq<Event>
    decreases |events|
  {
    if events == [] then []
    else
      var last := events[|events| - 1];
      EventsFrom(events[..|events| - 1], ip) + (if last.sourceIp == ip then [last] else [])
  }

  /** A group holds only its own address, exactly as many events as carry it, and every such event. */
  lemma {:induction false} EventsFromProps(events: seq<Event>, ip: string)
    ensures forall e :: e in EventsFrom(events, ip) ==> e.sourceIp == ip && e in events
    ensures forall i :: 0 <= i < |events| && events[i].sourceIp == ip ==> events[i] in EventsFrom(events, ip)
    ensures |EventsFrom(events, ip)| == Count(Ips(events), ip)
    decreases |events|
  {
    if events != [] {
      var init := events[..|events| - 1];
      EventsFromProps(init, ip);
      assert Ips(events) == Ips(init) + [events[|events| - 1].sourceIp];
      assert multiset(Ips(events)) == multiset(Ips(init)) + multiset{events[|events| - 1].sourceIp};
      forall i | 0 <= i < |events| - 1 && events[i].sourceIp == ip
        ensures events[i] in EventsFrom(events, ip)
      {
        assert init[i] == events[i];
      }
    }
  }

  /**
   * Grouping partitions the events: every event lands in the group of its address, which is
   * listed once, and the group sizes add up to the number of events.
   */
  lemma GroupingPartition(events: seq<Event>)
    ensures NoDups(Distinct(Ips(events)))
    ensures forall i :: 0 <= i < |events| ==>
              events[i].sourceIp in Distinct(Ips(events)) && events[i] in EventsFrom(events, events[i].sourceIp)
    ensures Sizes(Distinct(Ips(events)), events) == |events|
  {
    DistinctProps(Ips(events));
    forall i | 0 <= i < |events|
      ensures events[i].sourceIp in Distinct(Ips(events)) && events[i] in EventsFrom(events, events[i].sourceIp)
    {
      assert Ips(events)[i] == events[i].sourceIp;
      EventsFromProps(events, events[i].sourceIp);
    }
    SizesAreCounts(Distinct(Ips(events)), events);
    HistogramTotal(Ips(events));
  }

  /** The total size of the groups of `keys`. */
  function Sizes(keys: seq<string>, events: seq<Event>): nat
    decreases |keys|
  {
    if keys == [] then 0 else |EventsFrom(events, keys[0])| + Sizes(keys[1..], events)
  }

  lemma {:induction false} SizesAreCounts(keys: seq<string>, events: seq<Event>)
    ensures Sizes(keys, events) == CountsSum(keys, Ips(events))
    decreases |keys|
  {
    if keys != [] {
      EventsFromProps(events, keys[0]);
      SizesAreCounts(keys[1..], events);
    }
  }

  lemma EventsFromSnoc(events: seq<Event>, e: Event, ip: string)
    ensures EventsFrom(events + [e], ip) == EventsFrom(events, ip) + (if e.sourceIp == ip then [e] else [])
  {
    assert (events + [e])[..|events|] == events;
  }

  /** The grouping state after the events of `seen`. */
  ghost predicate Grouping(order: seq<string>, groups: map<string, seq<Event>>, seen: seq<Event>) {
    order == Distinct(Ips(seen))
    && (forall ip :: ip in groups <==> ip in Ips(seen))
    && (forall ip :: ip in groups ==> groups[ip] == EventsFrom(seen, ip))
  }

  /** The key order after one more event. */
  lemma OrderStep(order: seq<string>, seen: seq<Event>, event: Event)
    requires order == Distinct(Ips(seen))
    ensures event.sourceIp in order ==> order == Distinct(Ips(seen + [event]))
    ensures event.sourceIp !in order ==> order + [event.sourceIp] == Distinct(Ips(seen + [event]))
  {
    assert Ips(seen + [event]) == Ips(seen) + [event.sourceIp];
    DistinctSnoc(Ips(seen), event.sourceIp);
  }

  /** The groups after one more event: only the event's own group grows. */
  lemma GroupsStep(groups: map<string, seq<Event>>, seen: seq<Event>, event: Event)
    requires forall ip :: ip in groups <==> ip in Ips(seen)
    requires forall ip :: ip in groups ==> groups[ip] == EventsFrom(seen, ip)
    ensures var ip := event.sourceIp;
      var groups' := if ip in groups then groups[ip := groups[ip] + [event]] else groups[ip := [event]];
      (forall other :: other in groups' <==> other in Ips(seen + [event]))
      && (forall other :: other in groups' ==> groups'[other] == EventsFrom(seen + [event], other))
  {
    var ip := event.sourceIp;
    assert Ips(seen + [event]) == Ips(seen) + [ip];
    forall other
      ensures EventsFrom(seen + [event], other) == EventsFrom(seen, other) + (if ip == other then [event] else [])
    {
      EventsFromSnoc(seen, event, other);
    }
    if ip !in groups {
      EventsFromProps(seen, ip);
      assert Count(Ips(seen), ip) == 0;
      assert EventsFrom(seen, ip) == [];
    }
  }

  /** `ip_events[str(event.source_ip)].append(event)`. */
  method AppendEvent(order: seq<string>, groups: map<string, seq<Event>>, event: Event, ghost seen: seq<Event>)
    returns (order': seq<string>, groups': map<string, seq<Event>>)
    requires Grouping(order, groups, seen)
    ensures Grouping(order', groups', seen + [event])
  {
    var ip := event.sourceIp;
    OrderStep(order, seen, event);
    GroupsStep(groups, seen, event);
    DistinctMembers(Ips(seen));
    DistinctProps(Ips(seen));
    if ip in groups {
      order', groups' := order, groups[ip := groups[ip] + [event]];
    } else {
      order', groups' := order + [ip], groups[ip := [event]];
    }
  }

  /** The `defaultdict(list)` loop: groups keyed by address, keys in order of first appearance. */
  method GroupByIp(events: seq<Event>) returns (order: seq<string>, groups: map<string, seq<Event>>)
    ensures order == Distinct(Ips(events))
    ensures forall ip :: ip in groups <==> ip in Ips(events)
    ensures forall ip :: ip in groups ==> groups[ip] == EventsFrom(events, ip)
  {
    order, groups := [], map[];
    var i := 0;
    while i < |events|
      invariant 0 <= i <= |events|
      invariant Grouping(order, groups, events[..i])
    {
      assert events[..i + 1] == events[..i] + [events[i]];
      order, groups := AppendEvent(order, groups, events[i], events[..i]);
      i := i + 1;
    }
    assert events[..i] == events;
  }

  // ---------------------------------------------------------------------------------------
  // Profiles

  /** A fresh profile of a non-empty group: its address, count, time bounds and events, no signatures yet. */
  predicate Built(p: Profile, group: seq<Event>)
    reads p
  {
    group != []
    && p.ipAddress == group[0].sourceIp && p.eventCount == |group| && p.events == group
    && p.firstSeen == Seqs.Min(Times(group)) && p.lastSeen == Max(Times(group)) && p.signatures == map[]
  }

  /** `_create_actor_profile`: count and time bounds of a non-empty group; an empty one is an error. */
  method CreateProfile(events: seq<Event>) returns (r: Result<Profile, ProfileError>)
    ensures events == [] <==> r.Failure?
    ensures r.Failure? ==> r.error == EmptyEventList
    ensures r.Success? ==> fresh(r.value) && Built(r.value, events)
  {
    if events == [] {
      return Failure(EmptyEventList);
    }
    var timestamps := Times(events);
    var profile := new Profile(events[0].sourceIp, |events|, Seqs.Min(timestamps), Max(timestamps), events);
    r := Success(profile);
  }

  /** The first sighting never follows the last one, and both are times of the group's events. */
  lemma SeenBounds(events: seq<Event>)
    requires events != []
    ensures Seqs.Min(Times(events)) <= Max(Times(events))
    ensures Seqs.Min(Times(events)) in Times(events) && Max(Times(events)) in Times(events)
  {
    assert Times(events)[0] in Times(events);
  }

  /** Each address's group, non-empty and holding only that address. */
  lemma GroupsNonEmpty(events: seq<Event>, ip: string)
    requires ip in Ips(events)
    ensures EventsFrom(events, ip) != [] && EventsFrom(events, ip)[0].sourceIp == ip
  {
    EventsFromProps(events, ip);
    var i :| 0 <= i < |events| && Ips(events)[i] == ip;
    assert events[i] in EventsFrom(events, ip);
  }

  /**
   * `ActorProfilingStage.process`: no events gives no actors; otherwise one fresh profile per
   * distinct address, keyed by it and built from that address's events.
   */
  method ProfileActors(events: seq<Event>) returns (order: seq<string>, actors: map<string, Profile>)
    ensures events == [] ==> order == [] && actors == map[]
    ensures order == Distinct(Ips(events))
    ensures forall ip :: ip in actors <==> ip in Ips(events)
    ensures forall ip :: ip in actors ==>
              fresh(actors[ip]) && actors[ip].ipAddress == ip && Built(actors[ip], EventsFrom(events, ip))
  {
    if events == [] {
      return [], map[];
    }
    var groups;
    order, groups := GroupByIp(events);
    DistinctMembers(Ips(events));
    DistinctProps(Ips(events));
    actors := BuildProfiles(events, order, groups);
  }

  /** The profile loop over the groups, in key order. */
  method BuildProfiles(events: seq<Event>, order: seq<string>, groups: map<string, seq<Event>>)
    returns (actors: map<string, Profile>)
    requires forall ip :: ip in order <==> ip in Ips(events)
    requires forall ip :: ip in groups <==> ip in Ips(events)
    requires forall ip :: ip in groups ==> groups[ip] == EventsFrom(events, ip)
    ensures forall ip :: ip in actors <==> ip in Ips(events)
    ensures forall ip :: ip in actors ==>
              fresh(actors[ip]) && actors[ip].ipAddress == ip && Built(actors[ip], EventsFrom(events, ip))
  {
    actors := map[];
    var k := 0;
    while k < |order|
      invariant 0 <= k <= |order|
      invariant forall ip :: ip in actors <==> ip in order[..k]
      invariant forall ip :: ip in actors ==>
                  fresh(actors[ip]) && actors[ip].ipAddress == ip && Built(actors[ip], EventsFrom(events, ip))
    {
      var ip := order[k];
      assert order[..k + 1] == order[..k] + [ip];
      GroupsNonEmpty(events, ip);
      var r := CreateProfile(groups[ip]);
      if r.Success? {
        actors := actors[ip := r.value];
      }
      k := k + 1;
    }
    assert order[..k] == order;
  }

  // ---------------------------------------------------------------------------------------
  // Enrichment

  function Methods(events: seq<Event>): (ms: seq<string>)
    ensures |ms| == |events|
  {
    seq(|events|, i requires 0 <= i < |events| => events[i].httpMethod)
  }

  function Statuses(events: seq<Event>): (ss: seq<int>)
    ensures |ss| == |events|
  {
    seq(|events|, i requires 0 <= i < |events| => events[i].statusCode)
  }

  function Urls(events: seq<Event>): (us: seq<string>)
    ensures |us| == |events|
  {
    seq(|events|, i requires 0 <= i < |events| => events[i].urlNormalized)
  }

  function Agents(events: seq<Event>): (as_: seq<Option<string>>)
    ensures |as_| == |events|
  {
    seq(|events|, i requires 0 <= i < |events| => events[i].userAgent)
  }

  /** Python's `max(x, 1)`. */
  function AtLeastOne(x: real): real {
    if x >= 1.0 then x else 1.0
  }

  /** The signatures an enrichment pass writes over the existing ones for a non-empty event list. */
  function Enrichment(events: seq<Event>): map<SignatureKey, Signature>
    requires events != []
  {
    var n := |events| as real;
    var span := Max(Times(events)) - Seqs.Min(Times(events));
    var uniqueUrls := |Distinct(Urls(events))| as real;
    var uniqueAgents := |Distinct(Agents(events))| as real;
    EnrichmentHead(events)[UniqueUserAgents := Number(uniqueAgents)][UserAgentDiversity := Number(uniqueAgents / AtLeastOne(n))]
  }

  /** The seven entries written in one dictionary update, before the two user-agent entries. */
  function EnrichmentHead(events: seq<Event>): map<SignatureKey, Signature>
    requires events != []
  {
    var n := |events| as real;
    var span := Max(Times(events)) - Seqs.Min(Times(events));
    var uniqueUrls := |Distinct(Urls(events))| as real;
    map[MethodDistribution := MethodHistogram(Distinct(Methods(events)), Tally(Methods(events))),
        StatusDistribution := StatusHistogram(Distinct(Statuses(events)), Tally(Statuses(events))),
        UniqueUrlsCount := Number(uniqueUrls),
        TotalUrlsCount := Number(n),
        TimeSpanSeconds := Number(span),
        AvgEventsPerSecond := Number(n / AtLeastOne(span)),
        UrlDiversityRatio := Number(uniqueUrls / AtLeastOne(n))]
  }

  /** Writing an entry after a dictionary update is the same as updating with the written entry. */
  lemma UnionThenWrite<K, V>(m: map<K, V>, h: map<K, V>, k: K, v: V)
    ensures (m + h)[k := v] == m + h[k := v]
  {
  }

  /** `_enrich_actor_profile`'s effect: nothing without events, else the enrichment overrides. */
  function Enriched(signatures: map<SignatureKey, Signature>, events: seq<Event>): map<SignatureKey, Signature> {
    if events == [] then signatures else signatures + Enrichment(events)
  }

  /** The sum of the histogram's counts over its keys. */
  function Total<T>(keys: seq<T>, counts: map<T, nat>): nat
    decreases |keys|
  {
    if keys == [] then 0 else (if keys[0] in counts then counts[keys[0]] else 0) + Total(keys[1..], counts)
  }

  lemma {:induction false} TotalOfTally<T>(keys: seq<T>, s: seq<T>)
    requires forall k :: k in keys ==> k in s
    ensures Total(keys, Tally(s)) == CountsSum(keys, s)
    decreases |keys|
  {
    if keys != [] {
      assert keys[0] in Elems(s);
      TotalOfTally(keys[1..], s);
    }
  }

  /** A histogram built by counting loses nothing: its counts add up to the number of events. */
  lemma HistogramComplete<T>(s: seq<T>)
    ensures Total(Distinct(s), Tally(s)) == |s|
  {
    DistinctMembers(s);
    TotalOfTally(Distinct(s), s);
    HistogramTotal(s);
  }

  lemma DistinctMembers<T>(s: seq<T>)
    ensures forall k :: k in Distinct(s) ==> k in s
  {
    DistinctProps(s);
  }

  lemma DivisionInUnitRange(a: real, b: real)
    requires 1.0 <= a <= b
    ensures 0.0 < a / AtLeastOne(b) <= 1.0
  {
    DivideBound(a, b, 1.0);
  }

  /** Both histograms count every event exactly once. */
  lemma EnrichmentHistograms(events: seq<Event>)
    requires events != []
    ensures var m := Enrichment(events)[MethodDistribution];
      m.MethodHistogram? && Total(m.methods, m.methodCounts) == |events|
    ensures var s := Enrichment(events)[StatusDistribution];
      s.StatusHistogram? && Total(s.statuses, s.statusCounts) == |events|
  {
    HistogramComplete(Methods(events));
    HistogramComplete(Statuses(events));
  }

  /** The URL and user-agent diversity ratios lie in (0, 1]. */
  lemma EnrichmentRatios(events: seq<Event>)
    requires events != []
    ensures 0.0 < Enrichment(events)[UrlDiversityRatio].x <= 1.0
    ensures 0.0 < Enrichment(events)[UserAgentDiversity].x <= 1.0
  {
    DistinctProps(Urls(events));
    DistinctProps(Agents(events));
    DivisionInUnitRange(|Distinct(Urls(events))| as real, |events| as real);
    DivisionInUnitRange(|Distinct(Agents(events))| as real, |events| as real);
  }

  /** The time span is not negative, and the rate, divided by at least one second, never exceeds the event count. */
  lemma EnrichmentRate(events: seq<Event>)
    requires events != []
    ensures Enrichment(events)[TimeSpanSeconds].x >= 0.0
    ensures 0.0 < Enrichment(events)[AvgEventsPerSecond].x <= |events| as real
  {
    SeenBounds(events);
    var span := Max(Times(events)) - Seqs.Min(Times(events));
    RateBound(|events| as real, AtLeastOne(span));
  }

  lemma RateBound(n: real, d: real)
    requires n > 0.0 && d >= 1.0
    ensures 0.0 < n / d <= n
  {
    assert n * 1.0 <= n * d;
    DivideBound(n, d, n);
  }

  /** The two counting loops of the enrichment. */
  method Histograms(events: seq<Event>) returns (methods: Signature, statuses: Signature)
    ensures methods == MethodHistogram(Distinct(Methods(events)), Tally(Methods(events)))
    ensures statuses == StatusHistogram(Distinct(Statuses(events)), Tally(Statuses(events)))
  {
    assert Counts([], map[], Methods(events)[..0]);
    var mk, mc := CountInto([], map[], Methods(events), []);
    assert [] + Methods(events) == Methods(events);
    methods := MethodHistogram(mk, mc);
    assert Counts([], map[], Statuses(events)[..0]);
    var sk, sc := CountInto([], map[], Statuses(events), []);
    assert [] + Statuses(events) == Statuses(events);
    statuses := StatusHistogram(sk, sc);
  }

  /** `_enrich_actor_profile`. */
  method EnrichProfile(p: Profile)
    modifies p`signatures
    ensures p.signatures == Enriched(old(p.signatures), p.events)
  {
    var events := p.events;
    if events == [] {
      return;
    }
    var methods, statuses := Histograms(events);
    var uniqueUrls := |Distinct(Urls(events))|;
    var timestamps := Times(events);
    var span := Max(timestamps) - Seqs.Min(timestamps);
    p.signatures := p.signatures + map[
      MethodDistribution := methods,
      StatusDistribution := statuses,
      UniqueUrlsCount := Number(uniqueUrls as real),
      TotalUrlsCount := Number(|events| as real),
      TimeSpanSeconds := Number(span),
      AvgEventsPerSecond := Number(|events| as real / AtLeastOne(span)),
      UrlDiversityRatio := Number(uniqueUrls as real / AtLeastOne(|events| as real))];
    ghost var before := old(p.signatures);
    ghost var head := EnrichmentHead(events);
    assert p.signatures == before + head;
    var uniqueAgents := |Distinct(Agents(events))|;
    p.signatures := p.signatures[UniqueUserAgents := Number(uniqueAgents as real)];
    UnionThenWrite(before, head, UniqueUserAgents, Number(uniqueAgents as real));
    p.signatures := p.signatures[UserAgentDiversity := Number(uniqueAgents as real / AtLeastOne(|events| as real))];
    UnionThenWrite(before, head[UniqueUserAgents := Number(uniqueAgents as real)],
                   UserAgentDiversity, Number(uniqueAgents as real / AtLeastOne(|events| as real)));
  }

  /** `ActorEnrichmentStage.process`: every profile in turn. */
  method EnrichAll(profiles: seq<Profile>)
    requires NoDups(profiles)
    modifies profiles`signatures
    ensures forall p :: p in profiles ==> p.signatures == Enriched(old(p.signatures), p.events)
  {
    var i := 0;
    while i < |profiles|
      invariant 0 <= i <= |profiles|
      invariant forall p :: p in profiles ==>
                  p.signatures == if p in profiles[..i] then Enriched(old(p.signatures), p.events) else old(p.signatures)
    {
      var p := profiles[i];
      assert profiles[..i + 1] == profiles[..i] + [p];
      assert p !in profiles[..i];
      EnrichProfile(p);
      i := i + 1;
    }
    assert profiles[..i] == profiles;
  }
}
