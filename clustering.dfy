/**
 * What the scoring engine and the behavioural-clustering detector do once a clustering
 * algorithm has labelled the actors: keep the actors whose behavioural vector carries any
 * weight, group them by label (negative labels are noise), tag the members of every group
 * by its size, tag the valid actors outside every group as isolated.
 *
 * The clustering algorithm itself (standard scaling followed by DBSCAN) is not modelled;
 * its labels are an input.
 */
module Clustering {
  import opened Wrappers
  import opened Text
  import opened Seqs
  import opened Evidence
  import opened Models

  // ---------------------------------------------------------------------------------------
  // Grouping by label

  /** One entry of the `clusters` dictionary: a label and its members in input order. */
  datatype Cluster<T> = Cluster(id: int, members: seq<T>)

  /** Python's `zip`: pairs elements up to the shorter of the two sequences. */
  function Zip<T>(xs: seq<T>, labels: seq<int>): (r: seq<(T, int)>)
    ensures |r| <= |xs| && |r| <= |labels|
    ensures |r| == |xs| || |r| == |labels|
  {
    var n := if |xs| <= |labels| then |xs| else |labels|;
    seq(n, i requires 0 <= i < n => (xs[i], labels[i]))
  }

  /** The dictionary's keys in insertion order. */
  function Labels<T>(clusters: seq<Cluster<T>>): (r: seq<int>)
    ensures |r| == |clusters|
  {
    seq(|clusters|, k requires 0 <= k < |clusters| => clusters[k].id)
  }

  /** The non-negative labels of `pairs`, in order, with repeats. */
  function ClusterLabels<T>(pairs: seq<(T, int)>): seq<int>
    decreases |pairs|
  {
    if pairs == [] then []
    else
      var rest := ClusterLabels(pairs[..|pairs| - 1]);
      if pairs[|pairs| - 1].1 >= 0 then rest + [pairs[|pairs| - 1].1] else rest
  }

  /** The elements labelled `l`, in order. */
  function Members<T>(pairs: seq<(T, int)>, l: int): seq<T>
    decreases |pairs|
  {
    if pairs == [] then []
    else
      var rest := Members(pairs[..|pairs| - 1], l);
      if pairs[|pairs| - 1].1 == l then rest + [pairs[|pairs| - 1].0] else rest
  }

  /** The first position of `x` in `s`. */
  function IndexOf(s: seq<int>, x: int): (k: nat)
    requires x in s
    ensures k < |s| && s[k] == x
    ensures forall j :: 0 <= j < k ==> s[j] != x
    decreases |s|
  {
    if s[0] == x then 0 else 1 + IndexOf(s[1..], x)
  }

  /**
   * `if label not in clusters: clusters[label] = []` followed by
   * `clusters[label].append(x)`.
   */
  function AddToCluster<T>(clusters: seq<Cluster<T>>, l: int, x: T): seq<Cluster<T>> {
    if l in Labels(clusters) then
      var k := IndexOf(Labels(clusters), l);
      clusters[k := Cluster(l, clusters[k].members + [x])]
    else
      clusters + [Cluster(l, [x])]
  }

  /** The `clusters` dictionary built from the labelled elements, skipping noise. */
  function Clusters<T>(pairs: seq<(T, int)>): seq<Cluster<T>>
    decreases |pairs|
  {
    if pairs == [] then []
    else
      var rest := Clusters(pairs[..|pairs| - 1]);
      var (x, l) := pairs[|pairs| - 1];
      if l >= 0 then AddToCluster(rest, l, x) else rest
  }

  lemma {:induction false} ClusterLabelsNonNegative<T>(pairs: seq<(T, int)>)
    ensures forall l :: l in ClusterLabels(pairs) ==> l >= 0
    decreases |pairs|
  {
    if pairs != [] {
      ClusterLabelsNonNegative(pairs[..|pairs| - 1]);
    }
  }

  /** A non-negative label that labels nothing has no members. */
  lemma {:induction false} MembersOfAbsentLabel<T>(pairs: seq<(T, int)>, l: int)
    requires l >= 0 && l !in ClusterLabels(pairs)
    ensures Members(pairs, l) == []
    decreases |pairs|
  {
    if pairs != [] {
      MembersOfAbsentLabel(pairs[..|pairs| - 1], l);
    }
  }

  /** An element is a member for `l` exactly when it appears with label `l`. */
  lemma {:induction false} MembersIff<T>(pairs: seq<(T, int)>, l: int, x: T)
    ensures x in Members(pairs, l) <==> exists i :: 0 <= i < |pairs| && pairs[i] == (x, l)
    decreases |pairs|
  {
    if pairs != [] {
      var init := pairs[..|pairs| - 1];
      MembersIff(init, l, x);
      if x in Members(pairs, l) && x !in Members(init, l) {
        assert pairs[|pairs| - 1] == (x, l);
      }
      if exists i :: 0 <= i < |pairs| && pairs[i] == (x, l) {
        var i :| 0 <= i < |pairs| && pairs[i] == (x, l);
        if i < |pairs| - 1 {
          assert init[i] == (x, l);
        }
      }
    }
  }

  /**
   * The groups are keyed by the distinct non-negative labels in order of first appearance,
   * and each group holds exactly the elements with its label, in input order.
   */
  lemma {:induction false} ClustersShape<T>(pairs: seq<(T, int)>)
    ensures Labels(Clusters(pairs)) == Distinct(ClusterLabels(pairs))
    ensures forall k :: 0 <= k < |Clusters(pairs)| ==>
              Clusters(pairs)[k].members == Members(pairs, Clusters(pairs)[k].id)
    decreases |pairs|
  {
    if pairs != [] {
      var init := pairs[..|pairs| - 1];
      var (x, l) := pairs[|pairs| - 1];
      ClustersShape(init);
      ClusterLabelsNonNegative(init);
      var cs := Clusters(init);
      var cl := ClusterLabels(init);
      DistinctProps(cl);
      if l >= 0 {
        assert ClusterLabels(pairs) == cl + [l];
        assert (cl + [l])[..|cl|] == cl;
        var r := Clusters(pairs);
        assert r == AddToCluster(cs, l, x);
        if l in Labels(cs) {
          var k := IndexOf(Labels(cs), l);
          assert Labels(r) == Labels(cs);
          forall j | 0 <= j < |r|
            ensures r[j].members == Members(pairs, r[j].id)
          {
            if j != k {
              assert r[j] == cs[j];
              assert cs[j].id != l by {
                assert Labels(cs)[j] == cs[j].id && Labels(cs)[k] == l;
              }
            }
          }
        } else {
          MembersOfAbsentLabel(init, l);
          assert Labels(r) == Labels(cs) + [l];
          forall j | 0 <= j < |r|
            ensures r[j].members == Members(pairs, r[j].id)
          {
            if j < |cs| {
              assert r[j] == cs[j];
              assert Labels(cs)[j] == cs[j].id;
            }
          }
        }
      } else {
        assert ClusterLabels(pairs) == cl;
        forall j | 0 <= j < |cs|
          ensures cs[j].members == Members(pairs, cs[j].id)
        {
          assert Labels(cs)[j] == cs[j].id;
          assert Labels(cs)[j] in Distinct(cl);
        }
      }
    }
  }

  /** The groups formed from labelled elements with no repeated element. */
  function Grouped<T>(xs: seq<T>, labels: seq<int>): seq<Cluster<T>> {
    Clusters(Zip(xs, labels))
  }

  /** Every group of distinct elements is non-empty, has no repeats and draws on the elements. */
  lemma GroupedMembers<T>(xs: seq<T>, labels: seq<int>, k: nat)
    requires NoDups(xs) && k < |Grouped(xs, labels)|
    ensures Grouped(xs, labels)[k].members != [] && NoDups(Grouped(xs, labels)[k].members)
    ensures forall x :: x in Grouped(xs, labels)[k].members ==>
              exists i :: 0 <= i < |Zip(xs, labels)| && xs[i] == x && labels[i] == Grouped(xs, labels)[k].id
  {
    var pairs := Zip(xs, labels);
    var cs := Clusters(pairs);
    ClustersShape(pairs);
    DistinctProps(ClusterLabels(pairs));
    var l := cs[k].id;
    assert Labels(cs)[k] == l;
    MembersPresent(pairs, l);
    MembersNoDups(xs, labels, l);
    forall x | x in cs[k].members
      ensures exists i :: 0 <= i < |pairs| && xs[i] == x && labels[i] == l
    {
      MembersIff(pairs, l, x);
      var i :| 0 <= i < |pairs| && pairs[i] == (x, l);
      assert xs[i] == x && labels[i] == l;
    }
  }

  /** Labels are non-negative and no two groups share a label. */
  lemma GroupedLabels<T>(xs: seq<T>, labels: seq<int>)
    ensures forall k :: 0 <= k < |Grouped(xs, labels)| ==> Grouped(xs, labels)[k].id >= 0
    ensures NoDups(Labels(Grouped(xs, labels)))
  {
    var pairs := Zip(xs, labels);
    var cs := Clusters(pairs);
    ClustersShape(pairs);
    DistinctProps(ClusterLabels(pairs));
    ClusterLabelsNonNegative(pairs);
    forall k | 0 <= k < |cs|
      ensures cs[k].id >= 0
    {
      assert Labels(cs)[k] in Distinct(ClusterLabels(pairs));
    }
  }

  /** An element zipped with a non-negative label is a member of the group with that label. */
  lemma GroupedHas<T>(xs: seq<T>, labels: seq<int>, i: nat)
    requires i < |Zip(xs, labels)| && labels[i] >= 0
    ensures exists k :: 0 <= k < |Grouped(xs, labels)| && xs[i] in Grouped(xs, labels)[k].members
  {
    var pairs := Zip(xs, labels);
    var cs := Clusters(pairs);
    ClustersShape(pairs);
    DistinctProps(ClusterLabels(pairs));
    LabelListed(pairs, i);
    var k := IndexOf(Labels(cs), labels[i]);
    MembersIff(pairs, labels[i], xs[i]);
    assert pairs[i] == (xs[i], labels[i]);
    assert cs == Grouped(xs, labels);
    assert xs[i] in Grouped(xs, labels)[k].members;
  }

  /**
   * Grouping distinct elements: every group is non-empty and has no repeats, no element is in
   * two groups, every member is one of the elements, and an element is in some group exactly
   * when it was zipped with a non-negative label.
   */
  lemma GroupedPartition<T>(xs: seq<T>, labels: seq<int>)
    requires NoDups(xs)
    ensures forall k :: 0 <= k < |Grouped(xs, labels)| ==>
              Grouped(xs, labels)[k].members != [] && NoDups(Grouped(xs, labels)[k].members)
    ensures forall k1, k2, x ::
              (0 <= k1 < |Grouped(xs, labels)| && 0 <= k2 < |Grouped(xs, labels)|
               && x in Grouped(xs, labels)[k1].members && x in Grouped(xs, labels)[k2].members) ==> k1 == k2
    ensures forall k, x :: 0 <= k < |Grouped(xs, labels)| && x in Grouped(xs, labels)[k].members ==> x in xs
    ensures forall i :: 0 <= i < |Zip(xs, labels)| ==>
              (labels[i] >= 0 <==> exists k :: 0 <= k < |Grouped(xs, labels)| && xs[i] in Grouped(xs, labels)[k].members)
  {
    var cs := Grouped(xs, labels);
    var n := |Zip(xs, labels)|;
    forall k | 0 <= k < |cs|
      ensures cs[k].members != [] && NoDups(cs[k].members)
    {
      GroupedMembers(xs, labels, k);
    }
    forall k, x | 0 <= k < |cs| && x in cs[k].members
      ensures x in xs
    {
      GroupedMembers(xs, labels, k);
    }
    GroupedLabels(xs, labels);
    forall k1, k2, x | 0 <= k1 < |cs| && 0 <= k2 < |cs| && x in cs[k1].members && x in cs[k2].members
      ensures k1 == k2
    {
      GroupedMembers(xs, labels, k1);
      GroupedMembers(xs, labels, k2);
      var i1 :| 0 <= i1 < n && xs[i1] == x && labels[i1] == cs[k1].id;
      var i2 :| 0 <= i2 < n && xs[i2] == x && labels[i2] == cs[k2].id;
      assert i1 == i2;
      assert Labels(cs)[k1] == Labels(cs)[k2];
    }
    forall i | 0 <= i < n
      ensures labels[i] >= 0 <==> exists k :: 0 <= k < |cs| && xs[i] in cs[k].members
    {
      if labels[i] >= 0 {
        GroupedHas(xs, labels, i);
      }
      forall k | 0 <= k < |cs| && xs[i] in cs[k].members
        ensures labels[i] >= 0
      {
        GroupedMembers(xs, labels, k);
        var j :| 0 <= j < n && xs[j] == xs[i] && labels[j] == cs[k].id;
        assert j == i;
      }
    }
  }

  lemma {:induction false} MembersPresent<T>(pairs: seq<(T, int)>, l: int)
    requires l in ClusterLabels(pairs)
    ensures Members(pairs, l) != []
    decreases |pairs|
  {
    var init := pairs[..|pairs| - 1];
    if pairs[|pairs| - 1].1 != l {
      MembersPresent(init, l);
    }
  }

  lemma {:induction false} LabelListed<T>(pairs: seq<(T, int)>, i: nat)
    requires i < |pairs| && pairs[i].1 >= 0
    ensures pairs[i].1 in ClusterLabels(pairs)
    decreases |pairs|
  {
    if i < |pairs| - 1 {
      LabelListed(pairs[..|pairs| - 1], i);
    }
  }

  lemma {:induction false} MembersNoDups<T>(xs: seq<T>, labels: seq<int>, l: int)
    requires NoDups(xs)
    ensures NoDups(Members(Zip(xs, labels), l))
  {
    var pairs := Zip(xs, labels);
    var n := |pairs|;
    var m := 0;
    while m < n
      invariant 0 <= m <= n
      invariant NoDups(Members(pairs[..m], l))
    {
      var prefix := pairs[..m + 1];
      assert prefix[..m] == pairs[..m];
      if pairs[m].1 == l {
        MembersIff(pairs[..m], l, pairs[m].0);
        forall i | 0 <= i < m
          ensures pairs[..m][i] != (pairs[m].0, l)
        {
          assert xs[i] != xs[m];
        }
      }
      m := m + 1;
    }
    assert pairs[..n] == pairs;
  }

  /** Adds `x` to the group labelled `l`, creating the group at the end when there is none. */
  method AppendMember<T>(clusters: seq<Cluster<T>>, l: int, x: T) returns (r: seq<Cluster<T>>)
    ensures r == AddToCluster(clusters, l, x)
  {
    var k := 0;
    while k < |clusters| && clusters[k].id != l
      invariant 0 <= k <= |clusters|
      invariant forall j :: 0 <= j < k ==> Labels(clusters)[j] != l
    {
      k := k + 1;
    }
    if k == |clusters| {
      r := clusters + [Cluster(l, [x])];
    } else {
      assert Labels(clusters)[k] == l;
      r := clusters[k := Cluster(l, clusters[k].members + [x])];
    }
  }

  /** The `clusters` dictionary loop of the source, over `zip(xs, labels)`. */
  method GroupByLabel<T>(xs: seq<T>, labels: seq<int>) returns (clusters: seq<Cluster<T>>)
    ensures clusters == Grouped(xs, labels)
  {
    var pairs := Zip(xs, labels);
    clusters := [];
    var i := 0;
    while i < |pairs|
      invariant 0 <= i <= |pairs|
      invariant clusters == Clusters(pairs[..i])
    {
      assert pairs[..i + 1][..i] == pairs[..i];
      var (x, l) := pairs[i];
      if l >= 0 {
        clusters := AppendMember(clusters, l, x);
      }
      i := i + 1;
    }
    assert pairs[..i] == pairs;
  }

  // ---------------------------------------------------------------------------------------
  // Meaningful behaviour

  /** `vector and sum(vector) > 0`. */
  predicate Meaningful(v: seq<real>) {
    v != [] && Sum(v) > 0.0
  }

  function VectorOf(actor: Actor): seq<real>
    reads actor
  {
    BehavioralVector(Values(actor.urlFrequency))
  }

  /** The actors kept for clustering, in order. */
  function ValidActors(actors: seq<Actor>): seq<Actor>
    reads actors
    decreases |actors|
  {
    if actors == [] then []
    else
      var rest := ValidActors(actors[..|actors| - 1]);
      var a := actors[|actors| - 1];
      if Meaningful(VectorOf(a)) then rest + [a] else rest
  }

  function VectorsOf(actors: seq<Actor>): seq<seq<real>>
    reads actors
  {
    seq(|actors|, i requires 0 <= i < |actors| reads actors => VectorOf(actors[i]))
  }

  /** The kept actors are exactly those whose vector is meaningful; distinct actors stay distinct. */
  lemma {:induction false} ValidActorsProps(actors: seq<Actor>)
    ensures forall a :: a in ValidActors(actors) <==> a in actors && Meaningful(VectorOf(a))
    ensures |ValidActors(actors)| <= |actors|
    ensures NoDups(actors) ==> NoDups(ValidActors(actors))
    decreases |actors|
  {
    if actors != [] {
      var init := actors[..|actors| - 1];
      ValidActorsProps(init);
      assert actors == init + [actors[|actors| - 1]];
    }
  }

  /** The loop that collects the vectors and the actors they belong to. */
  method SelectValid(actors: seq<Actor>) returns (valid: seq<Actor>, vectors: seq<seq<real>>)
    ensures valid == ValidActors(actors)
    ensures vectors == VectorsOf(valid)
  {
    valid, vectors := [], [];
    var i := 0;
    while i < |actors|
      invariant 0 <= i <= |actors|
      invariant valid == ValidActors(actors[..i])
      invariant vectors == VectorsOf(valid)
    {
      assert actors[..i + 1][..i] == actors[..i];
      var actor := actors[i];
      var vector := actor.GetBehavioralVector();
      if vector != [] && Sum(vector) > 0.0 {
        vectors := vectors + [vector];
        valid := valid + [actor];
      }
      i := i + 1;
    }
    assert actors[..i] == actors;
  }

  // ---------------------------------------------------------------------------------------
  // Tagging by cluster size

  /** The tag and the record that go with it. */
  datatype Mark = Mark(tag: string, kind: string, details: string, confidence: real)

  /** How a label is written into text. */
  function LabelText(l: int): string {
    if l >= 0 then NatToString(l) else "-" + NatToString(-l)
  }

  /** What the members of a group receive: by size, three or more, exactly two, or nothing. */
  function SizeMark(c: Cluster<Actor>): Option<Mark> {
    var n := |c.members|;
    if n >= 3 then
      Some(Mark("COORDINATED_ATTACK", "coordinated_attack_detected",
                "Part of coordinated cluster " + LabelText(c.id) + " with " + NatToString(n) + " actors", 0.8))
    else if n == 2 then
      Some(Mark("PAIRED_ATTACK", "paired_attack_detected", "Part of attack pair in cluster " + LabelText(c.id), 0.6))
    else None
  }

  const IsolatedMark: Mark :=
    Mark("ISOLATED_ATTACKER", "isolated_attacker_detected", "Actor shows unique behavioral pattern", 0.5)

  /** `add_tag(tag, source)` followed by `add_evidence(source, kind, details, confidence)`. */
  function Marked(s: ActorState, m: Mark, source: string): ActorState {
    ActorState(s.trail + [Logged(source, "tag_added", "Added tag: " + m.tag, 1.0),
                          Logged(source, m.kind, m.details, m.confidence)],
               AddUnique(s.tags, m.tag))
  }

  function MarkedBy(s: ActorState, m: Option<Mark>, source: string): ActorState {
    if m.Some? then Marked(s, m.value, source) else s
  }

  /** The mark of the last group that holds `a`. */
  function MarkOf(clusters: seq<Cluster<Actor>>, a: Actor): Option<Mark>
    decreases |clusters|
  {
    if clusters == [] then None
    else if a in clusters[|clusters| - 1].members then SizeMark(clusters[|clusters| - 1])
    else MarkOf(clusters[..|clusters| - 1], a)
  }

  /** The addresses of all group members. */
  function MemberIps(clusters: seq<Cluster<Actor>>): seq<string>
    decreases |clusters|
  {
    if clusters == [] then []
    else
      var ms := clusters[|clusters| - 1].members;
      MemberIps(clusters[..|clusters| - 1]) + seq(|ms|, i requires 0 <= i < |ms| => ms[i].ipAddress)
  }

  /** The valid actors whose address belongs to no group member, in order. */
  function IsolatedActors(valid: seq<Actor>, clusters: seq<Cluster<Actor>>): seq<Actor>
    decreases |valid|
  {
    if valid == [] then []
    else
      var rest := IsolatedActors(valid[..|valid| - 1], clusters);
      var a := valid[|valid| - 1];
      if a.ipAddress in MemberIps(clusters) then rest else rest + [a]
  }

  /** The trail and tags of `a` after grouping: first the size mark, then the isolation mark. */
  function Outcome(s: ActorState, a: Actor, valid: seq<Actor>, clusters: seq<Cluster<Actor>>, source: string): ActorState {
    if a !in valid then s
    else
      var tagged := MarkedBy(s, MarkOf(clusters, a), source);
      if a.ipAddress in MemberIps(clusters) then tagged else Marked(tagged, IsolatedMark, source)
  }

  lemma {:induction false} MarkOfAbsent(clusters: seq<Cluster<Actor>>, a: Actor)
    requires forall k :: 0 <= k < |clusters| ==> a !in clusters[k].members
    ensures MarkOf(clusters, a) == None
    decreases |clusters|
  {
    if clusters != [] {
      MarkOfAbsent(clusters[..|clusters| - 1], a);
    }
  }

  lemma {:induction false} MarkOfMember(clusters: seq<Cluster<Actor>>, k: nat, a: Actor)
    requires k < |clusters| && a in clusters[k].members
    requires forall j :: 0 <= j < |clusters| && j != k ==> a !in clusters[j].members
    ensures MarkOf(clusters, a) == SizeMark(clusters[k])
    decreases |clusters|
  {
    if k < |clusters| - 1 {
      MarkOfMember(clusters[..|clusters| - 1], k, a);
    }
  }

  lemma {:induction false} MemberIpsListed(clusters: seq<Cluster<Actor>>, k: nat, a: Actor)
    requires k < |clusters| && a in clusters[k].members
    ensures a.ipAddress in MemberIps(clusters)
    decreases |clusters|
  {
    var ms := clusters[|clusters| - 1].members;
    var ips := seq(|ms|, i requires 0 <= i < |ms| => ms[i].ipAddress);
    if k < |clusters| - 1 {
      MemberIpsListed(clusters[..|clusters| - 1], k, a);
    } else {
      var i :| 0 <= i < |ms| && ms[i] == a;
      assert ips[i] == a.ipAddress;
    }
  }

  lemma {:induction false} MemberIpsOnlyMembers(clusters: seq<Cluster<Actor>>, ip: string)
    requires ip in MemberIps(clusters)
    ensures exists k, a :: 0 <= k < |clusters| && a in clusters[k].members && a.ipAddress == ip
    decreases |clusters|
  {
    var init := clusters[..|clusters| - 1];
    var ms := clusters[|clusters| - 1].members;
    var ips := seq(|ms|, i requires 0 <= i < |ms| => ms[i].ipAddress);
    if ip in MemberIps(init) {
      MemberIpsOnlyMembers(init, ip);
      var k, a :| 0 <= k < |init| && a in init[k].members && a.ipAddress == ip;
      assert clusters[k] == init[k];
    } else {
      var i :| 0 <= i < |ips| && ips[i] == ip;
      assert ms[i] in clusters[|clusters| - 1].members;
    }
  }

  lemma {:induction false} IsolatedActorsProps(valid: seq<Actor>, clusters: seq<Cluster<Actor>>)
    ensures forall a :: a in IsolatedActors(valid, clusters) ==> a in valid
    ensures forall a :: a in IsolatedActors(valid, clusters) <==> a in valid && a.ipAddress !in MemberIps(clusters)
    ensures NoDups(valid) ==> NoDups(IsolatedActors(valid, clusters))
    decreases |valid|
  {
    if valid != [] {
      var init := valid[..|valid| - 1];
      IsolatedActorsProps(init, clusters);
      assert valid == init + [valid[|valid| - 1]];
    }
  }

  /**
   * A member of a group receives that group's size mark and is never marked isolated;
   * a valid actor whose address no member shares receives the isolation mark only.
   */
  lemma GroupedOutcome(s: ActorState, a: Actor, valid: seq<Actor>, labels: seq<int>, source: string)
    requires NoDups(valid) && a in valid
    ensures var cs := Grouped(valid, labels);
      forall k :: 0 <= k < |cs| && a in cs[k].members ==> Outcome(s, a, valid, cs, source) == MarkedBy(s, SizeMark(cs[k]), source)
    ensures var cs := Grouped(valid, labels);
      a.ipAddress !in MemberIps(cs) ==> Outcome(s, a, valid, cs, source) == Marked(s, IsolatedMark, source)
  {
    var cs := Grouped(valid, labels);
    GroupedPartition(valid, labels);
    forall k | 0 <= k < |cs| && a in cs[k].members
      ensures Outcome(s, a, valid, cs, source) == MarkedBy(s, SizeMark(cs[k]), source)
    {
      MarkOfMember(cs, k, a);
      MemberIpsListed(cs, k, a);
    }
    if a.ipAddress !in MemberIps(cs) {
      forall k | 0 <= k < |cs|
        ensures a !in cs[k].members
      {
        if a in cs[k].members {
          MemberIpsListed(cs, k, a);
        }
      }
      MarkOfAbsent(cs, a);
    }
  }

  /**
   * When the actors' addresses are distinct, a valid actor is marked isolated exactly when the
   * labelling put it in no group.
   */
  lemma IsolatedIffUngrouped(valid: seq<Actor>, labels: seq<int>, a: Actor)
    requires NoDups(valid) && a in valid
    requires forall b, c :: b in valid && c in valid && b.ipAddress == c.ipAddress ==> b == c
    ensures var cs := Grouped(valid, labels);
      a in IsolatedActors(valid, cs) <==> forall k :: 0 <= k < |cs| ==> a !in cs[k].members
  {
    var cs := Grouped(valid, labels);
    IsolatedActorsProps(valid, cs);
    GroupedPartition(valid, labels);
    if a.ipAddress in MemberIps(cs) {
      MemberIpsOnlyMembers(cs, a.ipAddress);
    } else {
      forall k | 0 <= k < |cs|
        ensures a !in cs[k].members
      {
        if a in cs[k].members {
          MemberIpsListed(cs, k, a);
        }
      }
    }
  }

  /** The members of disjoint, repeat-free groups drawn from `valid`. */
  predicate Partitioned(valid: seq<Actor>, clusters: seq<Cluster<Actor>>) {
    (forall k :: 0 <= k < |clusters| ==> NoDups(clusters[k].members))
    && (forall k, a :: 0 <= k < |clusters| && a in clusters[k].members ==> a in valid)
    && (forall k1, k2, a ::
          (0 <= k1 < |clusters| && 0 <= k2 < |clusters| && a in clusters[k1].members && a in clusters[k2].members)
          ==> k1 == k2)
  }

  /** Tags and logs every member of `members` with `m`. */
  method MarkAll(valid: seq<Actor>, members: seq<Actor>, m: Mark, source: string)
    requires NoDups(members)
    requires forall a :: a in members ==> a in valid
    modifies valid`tags, valid`trail
    ensures forall a :: a in valid ==>
              StateOf(a) == if a in members then Marked(old(StateOf(a)), m, source) else old(StateOf(a))
  {
    var i := 0;
    while i < |members|
      invariant 0 <= i <= |members|
      invariant forall a :: a in valid ==>
                  StateOf(a) == if a in members[..i] then Marked(old(StateOf(a)), m, source) else old(StateOf(a))
    {
      var actor := members[i];
      assert members[..i + 1] == members[..i] + [actor];
      assert actor !in members[..i];
      actor.AddTag(m.tag, source);
      actor.AddEvidence(source, m.kind, m.details, m.confidence);
      i := i + 1;
    }
    assert members[..i] == members;
  }

  /** The loop over the groups that applies the size marks. */
  method MarkBySize(valid: seq<Actor>, clusters: seq<Cluster<Actor>>, source: string)
    requires Partitioned(valid, clusters)
    modifies valid`tags, valid`trail
    ensures forall a :: a in valid ==> StateOf(a) == MarkedBy(old(StateOf(a)), MarkOf(clusters, a), source)
  {
    var k := 0;
    while k < |clusters|
      invariant 0 <= k <= |clusters|
      invariant forall a :: a in valid ==> StateOf(a) == MarkedBy(old(StateOf(a)), MarkOf(clusters[..k], a), source)
    {
      var members := clusters[k].members;
      var mark := SizeMark(clusters[k]);
      assert clusters[..k + 1][..k] == clusters[..k];
      forall a | a in members
        ensures MarkOf(clusters[..k], a) == None
      {
        MarkOfAbsent(clusters[..k], a);
      }
      if mark.Some? {
        MarkAll(valid, members, mark.value, source);
      }
      k := k + 1;
    }
    assert clusters[..k] == clusters;
  }

  /**
   * The tagging part shared by the scoring engine and the clustering detector: size marks, then
   * isolation marks. Returns the isolated actors.
   */
  method MarkGroups(valid: seq<Actor>, clusters: seq<Cluster<Actor>>, source: string) returns (isolated: seq<Actor>)
    requires NoDups(valid) && Partitioned(valid, clusters)
    modifies valid`tags, valid`trail
    ensures isolated == IsolatedActors(valid, clusters)
    ensures forall a :: a in valid ==> StateOf(a) == Outcome(old(StateOf(a)), a, valid, clusters, source)
  {
    MarkBySize(valid, clusters, source);
    isolated := IsolatedActors(valid, clusters);
    IsolatedActorsProps(valid, clusters);
    assert forall a :: a in isolated ==> a in valid;
    MarkAll(valid, isolated, IsolatedMark, source);
  }
}
