/**
 * The pure helpers of the graph detector: request intervals, Jaccard overlaps of URL and
 * user-agent sets, timing similarity, the weighted behavioural similarity, and the actor
 * graph whose edges join sufficiently similar actors.
 */
module Similarity {
  import opened Seqs
  import opened Models

  // ---------------------------------------------------------------------------------------
  // Request intervals

  function Timestamps(events: seq<LogEvent>): (ts: seq<real>)
    ensures |ts| == |events|
  {
    seq(|events|, i requires 0 <= i < |events| => events[i].timestamp)
  }

  /** `np.diff`: the differences of consecutive elements. */
  function Diffs(s: seq<real>): (d: seq<real>)
    ensures |d| == if s == [] then 0 else |s| - 1
  {
    if s == [] then [] else seq(|s| - 1, i requires 0 <= i < |s| - 1 => s[i + 1] - s[i])
  }

  /** The strictly positive differences of consecutive elements, in order. */
  function PositiveGaps(s: seq<real>): seq<real>
    decreases |s|
  {
    if |s| < 2 then []
    else
      var gap := s[|s| - 1] - s[|s| - 2];
      PositiveGaps(s[..|s| - 1]) + (if gap > 0.0 then [gap] else [])
  }

  /** `_get_request_intervals`. */
  function Intervals(events: seq<LogEvent>): seq<real> {
    PositiveGaps(SortAsc(Timestamps(events)))
  }

  /**
   * Every gap is positive and there are fewer gaps than elements; over a sorted sequence the
   * gaps add up to the distance from the first element to the last.
   */
  lemma {:induction false} PositiveGapsProps(s: seq<real>)
    ensures forall i :: 0 <= i < |PositiveGaps(s)| ==> PositiveGaps(s)[i] > 0.0
    ensures |PositiveGaps(s)| <= if s == [] then 0 else |s| - 1
    ensures Ascending(s) && s != [] ==> Sum(PositiveGaps(s)) == s[|s| - 1] - s[0]
    decreases |s|
  {
    if |s| >= 2 {
      var init := s[..|s| - 1];
      var gap := s[|s| - 1] - s[|s| - 2];
      PositiveGapsProps(init);
      if Ascending(s) {
        assert Ascending(init) by {
          forall i, j | 0 <= i < j < |init|
            ensures init[i] <= init[j]
          {
            assert init[i] == s[i] && init[j] == s[j];
          }
        }
        assert init[|init| - 1] == s[|s| - 2];
      }
      if gap > 0.0 {
        SumSnoc(PositiveGaps(init), gap);
      } else {
        assert PositiveGaps(s) == PositiveGaps(init);
      }
    } else if |s| == 1 {
      assert PositiveGaps(s) == [];
    }
  }

  /** The intervals of a request list: positive, at most one fewer than the requests, summing to its time span. */
  lemma IntervalsProps(events: seq<LogEvent>)
    ensures forall i :: 0 <= i < |Intervals(events)| ==> Intervals(events)[i] > 0.0
    ensures |Intervals(events)| <= if events == [] then 0 else |events| - 1
    ensures events != [] ==>
              Sum(Intervals(events)) == Max(Timestamps(events)) - Seqs.Min(Timestamps(events))
  {
    var ts := Timestamps(events);
    var sorted := SortAsc(ts);
    SortAscProps(ts);
    PositiveGapsProps(sorted);
    if events != [] {
      var first := sorted[0];
      var last := sorted[|sorted| - 1];
      assert first in multiset(ts) && last in multiset(ts);
      forall i | 0 <= i < |ts|
        ensures first <= ts[i] <= last
      {
        assert ts[i] in multiset(sorted);
      }
      MaxIsBound(ts, last);
      MinIsBound(ts, first);
    }
  }

  lemma MaxIsBound(s: seq<real>, m: real)
    requires m in s && forall i :: 0 <= i < |s| ==> s[i] <= m
    ensures Max(s) == m
  {
  }

  lemma MinIsBound(s: seq<real>, m: real)
    requires m in s && forall i :: 0 <= i < |s| ==> m <= s[i]
    ensures Seqs.Min(s) == m
  {
  }

  /** The loop of `_get_request_intervals` over the sorted timestamps. */
  method RequestIntervals(events: seq<LogEvent>) returns (intervals: seq<real>)
    ensures intervals == Intervals(events)
  {
    var timestamps := SortAsc(Timestamps(events));
    intervals := [];
    var i := 0;
    while i < |timestamps| - 1
      invariant 0 <= i <= (if timestamps == [] then 0 else |timestamps| - 1)
      invariant intervals == PositiveGaps(timestamps[..if timestamps == [] then 0 else i + 1])
    {
      var interval := timestamps[i + 1] - timestamps[i];
      assert timestamps[..i + 2][..i + 1] == timestamps[..i + 1];
      if interval > 0.0 {
        intervals := intervals + [interval];
      }
      i := i + 1;
    }
    if timestamps != [] {
      assert timestamps[..i + 1] == timestamps;
    }
  }

  // ---------------------------------------------------------------------------------------
  // Similarities

  /** Size of the intersection over size of the union; 0 when either set is empty. */
  function Jaccard(a: set<string>, b: set<string>): real {
    if a == {} || b == {} then 0.0 else |a * b| as real / |a + b| as real
  }

  lemma {:induction false} SubsetCard<T>(x: set<T>, y: set<T>)
    requires x <= y
    ensures |x| <= |y|
    decreases x
  {
    if x != {} {
      var e :| e in x;
      SubsetCard(x - {e}, y - {e});
    }
  }

  /** The overlap lies in [0, 1], is symmetric, is 1 for equal non-empty sets and 0 for disjoint ones. */
  lemma JaccardProps(a: set<string>, b: set<string>)
    ensures 0.0 <= Jaccard(a, b) <= 1.0
    ensures Jaccard(a, b) == Jaccard(b, a)
    ensures a != {} ==> Jaccard(a, a) == 1.0
    ensures a * b == {} ==> Jaccard(a, b) == 0.0
  {
    assert a * b == b * a && a + b == b + a;
    if a != {} && b != {} {
      SubsetCard(a * b, a + b);
      SubsetCard(a, a + b);
      assert a + a == a && a * a == a;
    }
  }

  function UrlSet(events: seq<LogEvent>): set<string> {
    set e | e in events :: e.url
  }

  /** The set of user agents that are present and non-empty. */
  function AgentSet(events: seq<LogEvent>): set<string> {
    set e | e in events && e.userAgent.Some? && e.userAgent.value != [] :: e.userAgent.value
  }

  /** `np.mean`, where the list is never empty. */
  function Mean(s: seq<real>): real {
    if s == [] then 0.0 else Sum(s) / |s| as real
  }

  function Abs(x: real): real {
    if x < 0.0 then -x else x
  }

  function Larger(a: real, b: real): real {
    if a >= b then a else b
  }

  /** `1 - min(|a - b| / max(a, b), 1)`, and 0 when either mean is 0. */
  function MeanCloseness(avg1: real, avg2: real): real {
    if avg1 == 0.0 || avg2 == 0.0 then 0.0
    else
      var diff := Abs(avg1 - avg2) / Larger(avg1, avg2);
      1.0 - (if diff <= 1.0 then diff else 1.0)
  }

  /** Timing similarity compares the mean request intervals of the two actors. */
  function TimingSimilarity(events1: seq<LogEvent>, events2: seq<LogEvent>): real {
    if events1 == [] || events2 == [] then 0.0
    else
      var intervals1 := Intervals(events1);
      var intervals2 := Intervals(events2);
      if intervals1 == [] || intervals2 == [] then 0.0
      else MeanCloseness(Mean(intervals1), Mean(intervals2))
  }

  /** Half URL overlap, three tenths timing, one fifth user-agent overlap; 0 without URLs. */
  function BehavioralSimilarity(events1: seq<LogEvent>, events2: seq<LogEvent>): real {
    var urls1 := UrlSet(events1);
    var urls2 := UrlSet(events2);
    if urls1 == {} || urls2 == {} then 0.0
    else
      0.5 * Jaccard(urls1, urls2) + 0.3 * TimingSimilarity(events1, events2)
      + 0.2 * Jaccard(AgentSet(events1), AgentSet(events2))
  }

  lemma MeanPositive(s: seq<real>)
    requires s != [] && forall i :: 0 <= i < |s| ==> s[i] > 0.0
    ensures Mean(s) > 0.0
  {
    SumPositive(s);
  }

  /** For positive means the closeness lies in [0, 1], is symmetric, and is 1 exactly for equal means. */
  lemma MeanClosenessProps(avg1: real, avg2: real)
    requires avg1 > 0.0 && avg2 > 0.0
    ensures 0.0 <= MeanCloseness(avg1, avg2) <= 1.0
    ensures MeanCloseness(avg1, avg2) == MeanCloseness(avg2, avg1)
    ensures MeanCloseness(avg1, avg2) == 1.0 <==> avg1 == avg2
  {
    assert Abs(avg1 - avg2) == Abs(avg2 - avg1);
    assert Larger(avg1, avg2) == Larger(avg2, avg1);
    var diff := Abs(avg1 - avg2) / Larger(avg1, avg2);
    assert diff >= 0.0;
    if avg1 != avg2 {
      assert Abs(avg1 - avg2) > 0.0;
      assert diff > 0.0;
    }
  }

  /** Timing similarity lies in [0, 1] and does not depend on the order of the two actors. */
  lemma TimingSimilarityProps(events1: seq<LogEvent>, events2: seq<LogEvent>)
    ensures 0.0 <= TimingSimilarity(events1, events2) <= 1.0
    ensures TimingSimilarity(events1, events2) == TimingSimilarity(events2, events1)
  {
    if events1 != [] && events2 != [] {
      var intervals1 := Intervals(events1);
      var intervals2 := Intervals(events2);
      if intervals1 != [] && intervals2 != [] {
        IntervalsProps(events1);
        IntervalsProps(events2);
        MeanPositive(intervals1);
        MeanPositive(intervals2);
        MeanClosenessProps(Mean(intervals1), Mean(intervals2));
      }
    }
  }

  /** The weighted similarity lies in [0, 1] and is symmetric. */
  lemma BehavioralSimilarityProps(events1: seq<LogEvent>, events2: seq<LogEvent>)
    ensures 0.0 <= BehavioralSimilarity(events1, events2) <= 1.0
    ensures BehavioralSimilarity(events1, events2) == BehavioralSimilarity(events2, events1)
  {
    JaccardProps(UrlSet(events1), UrlSet(events2));
    JaccardProps(AgentSet(events1), AgentSet(events2));
    TimingSimilarityProps(events1, events2);
  }

  // ---------------------------------------------------------------------------------------
  // The actor graph

  /** What the graph builder reads of an actor. */
  datatype Peer = Peer(ip: string, events: seq<LogEvent>)

  function PeersOf(actors: seq<Actor>): (ps: seq<Peer>)
    reads actors
    ensures |ps| == |actors|
  {
    seq(|actors|, i requires 0 <= i < |actors| reads actors => Peer(actors[i].ipAddress, actors[i].events))
  }

  datatype Edge = Edge(u: string, v: string, weight: real)

  /** Nodes in insertion order (repeated addresses collapse) and the weighted edges. */
  datatype Graph = Graph(nodes: seq<string>, edges: seq<Edge>)

  const EdgeThreshold: real := 0.3

  /** The edge weight of two peers: their behavioural similarity. */
  function Weight(p: Peer, q: Peer): real {
    BehavioralSimilarity(p.events, q.events)
  }

  /** The edges from `ps[i]` to `ps[j]` for `i < j < hi` under weight `w`, in order of `j`. */
  function Row(ps: seq<Peer>, w: (Peer, Peer) -> real, i: nat, hi: nat): seq<Edge>
    requires i < |ps| && hi <= |ps|
    decreases hi
  {
    if hi <= i + 1 then []
    else
      var j := hi - 1;
      Row(ps, w, i, j) + (if w(ps[i], ps[j]) > EdgeThreshold then [Edge(ps[i].ip, ps[j].ip, w(ps[i], ps[j]))] else [])
  }

  /** The edges of the first `m` rows. */
  function EdgesUpTo(ps: seq<Peer>, w: (Peer, Peer) -> real, m: nat): seq<Edge>
    requires m <= |ps|
    decreases m
  {
    if m == 0 then [] else EdgesUpTo(ps, w, m - 1) + Row(ps, w, m - 1, |ps|)
  }

  function Ips(ps: seq<Peer>): seq<string> {
    seq(|ps|, i requires 0 <= i < |ps| => ps[i].ip)
  }

  function ActorGraph(ps: seq<Peer>): Graph {
    Graph(Distinct(Ips(ps)), EdgesUpTo(ps, Weight, |ps|))
  }

  /** An edge joins an earlier peer to a later one whose weight exceeds 0.3, and carries that weight. */
  predicate EdgeOf(ps: seq<Peer>, w: (Peer, Peer) -> real, e: Edge, i: int, j: int) {
    0 <= i < j < |ps| && w(ps[i], ps[j]) > EdgeThreshold && e == Edge(ps[i].ip, ps[j].ip, w(ps[i], ps[j]))
  }

  lemma {:induction false} RowIff(ps: seq<Peer>, w: (Peer, Peer) -> real, i: nat, hi: nat, e: Edge)
    requires i < |ps| && hi <= |ps|
    ensures e in Row(ps, w, i, hi) <==> exists j :: i < j < hi && EdgeOf(ps, w, e, i, j)
    decreases hi
  {
    if hi > i + 1 {
      var last := hi - 1;
      RowIff(ps, w, i, last, e);
      var tail := if w(ps[i], ps[last]) > EdgeThreshold then [Edge(ps[i].ip, ps[last].ip, w(ps[i], ps[last]))] else [];
      assert Row(ps, w, i, hi) == Row(ps, w, i, last) + tail;
      assert e in tail <==> EdgeOf(ps, w, e, i, last);
    }
  }

  /** Some row before `m` holds `e`. */
  ghost predicate InRows(ps: seq<Peer>, w: (Peer, Peer) -> real, e: Edge, m: int) {
    exists i, j :: i < m && EdgeOf(ps, w, e, i, j)
  }

  lemma {:induction false} EdgesUpToIff(ps: seq<Peer>, w: (Peer, Peer) -> real, m: nat, e: Edge)
    requires m <= |ps|
    ensures e in EdgesUpTo(ps, w, m) <==> InRows(ps, w, e, m)
    decreases m
  {
    if m > 0 {
      EdgesUpToIff(ps, w, m - 1, e);
      RowIff(ps, w, m - 1, |ps|, e);
      assert EdgesUpTo(ps, w, m) == EdgesUpTo(ps, w, m - 1) + Row(ps, w, m - 1, |ps|);
      if e in EdgesUpTo(ps, w, m - 1) {
        var i, j :| i < m - 1 && EdgeOf(ps, w, e, i, j);
        assert i < m && EdgeOf(ps, w, e, i, j);
      } else if e in Row(ps, w, m - 1, |ps|) {
        var j :| m - 1 < j < |ps| && EdgeOf(ps, w, e, m - 1, j);
        assert m - 1 < m && EdgeOf(ps, w, e, m - 1, j);
      }
      if InRows(ps, w, e, m) {
        var i, j :| i < m && EdgeOf(ps, w, e, i, j);
        if i == m - 1 {
          assert m - 1 < j < |ps| && EdgeOf(ps, w, e, m - 1, j);
        } else {
          assert i < m - 1 && EdgeOf(ps, w, e, i, j);
          assert InRows(ps, w, e, m - 1);
        }
      }
    }
  }

  /**
   * The graph has one node per distinct address and an edge exactly for each pair `i < j`
   * whose similarity exceeds 0.3; edge weights lie in (0.3, 1].
   */
  lemma ActorGraphProps(ps: seq<Peer>, e: Edge)
    ensures NoDups(ActorGraph(ps).nodes)
    ensures forall ip :: ip in ActorGraph(ps).nodes <==> ip in Ips(ps)
    ensures e in ActorGraph(ps).edges <==> exists i, j :: EdgeOf(ps, Weight, e, i, j)
    ensures e in ActorGraph(ps).edges ==> EdgeThreshold < e.weight <= 1.0
  {
    DistinctProps(Ips(ps));
    EdgesUpToIff(ps, Weight, |ps|, e);
    if e in ActorGraph(ps).edges {
      var i, j :| 0 <= i < j < |ps| && EdgeOf(ps, Weight, e, i, j);
      BehavioralSimilarityProps(ps[i].events, ps[j].events);
    }
  }

  /** The graph's node list: each address once, in order of first appearance. */
  method GraphNodes(ps: seq<Peer>) returns (nodes: seq<string>)
    ensures nodes == Distinct(Ips(ps))
  {
    nodes := [];
    var k := 0;
    while k < |ps|
      invariant 0 <= k <= |ps|
      invariant nodes == Distinct(Ips(ps)[..k])
    {
      assert Ips(ps)[..k + 1] == Ips(ps)[..k] + [ps[k].ip];
      assert (Ips(ps)[..k] + [ps[k].ip])[..k] == Ips(ps)[..k];
      nodes := AddUnique(nodes, ps[k].ip);
      k := k + 1;
    }
    assert Ips(ps)[..|ps|] == Ips(ps);
  }

  /** The inner loop: the edges from `ps[i]` to every later peer, weighted by `w`. */
  method RowEdges(ps: seq<Peer>, w: (Peer, Peer) -> real, i: nat) returns (row: seq<Edge>)
    requires i < |ps|
    ensures row == Row(ps, w, i, |ps|)
  {
    row := [];
    var j := i + 1;
    while j < |ps|
      invariant i + 1 <= j <= |ps|
      invariant row == Row(ps, w, i, j)
    {
      var similarity := w(ps[i], ps[j]);
      if similarity > EdgeThreshold {
        row := row + [Edge(ps[i].ip, ps[j].ip, similarity)];
      }
      j := j + 1;
    }
  }

  /** `_build_actor_graph`: the node loop, then the pair loop. */
  method BuildActorGraph(actors: seq<Actor>) returns (g: Graph)
    ensures g == ActorGraph(PeersOf(actors))
  {
    var ps := PeersOf(actors);
    var nodes := GraphNodes(ps);
    var edges := GraphEdges(ps, Weight);
    g := Graph(nodes, edges);
  }

  /** The pair loop: every row of edges, one after the other; `w` is the similarity measure. */
  method GraphEdges(ps: seq<Peer>, w: (Peer, Peer) -> real) returns (edges: seq<Edge>)
    ensures edges == EdgesUpTo(ps, w, |ps|)
  {
    edges := [];
    var i := 0;
    while i < |ps|
      invariant 0 <= i <= |ps|
      invariant edges == EdgesUpTo(ps, w, i)
    {
      var row := RowEdges(ps, w, i);
      edges := edges + row;
      i := i + 1;
    }
  }
}
