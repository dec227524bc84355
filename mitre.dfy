/**
 * Lookup of MITRE ATT&CK techniques: a fixed table from internal tags to
 * technique ids, a fixed table of techniques, the union lookup for a set of
 * tags, lookup by id, reference formatting and a per-tactic summary.
 *
 * Technique descriptions are free text and are not modelled.
 */
module Mitre {
  import opened Wrappers
  import opened Seqs
  import opened Models

  datatype Technique = Technique(id: string, name: string, tactic: string, url: string)

  /** Internal tag to the technique ids it indicates. */
  const TagMapping: map<string, seq<string>> := map[
    "LFI_ATTACK" := ["T1083", "T1190"],
    "RFI_ATTACK" := ["T1190", "T1105"],
    "SQLI_ATTACK" := ["T1190"],
    "XSS_ATTACK" := ["T1190"],
    "PATH_TRAVERSAL" := ["T1083", "T1190"],
    "AUTOMATED_SCAN" := ["T1595"],
    "MANUAL_SCAN" := ["T1595"],
    "DIRECTORY_ENUMERATION" := ["T1083"],
    "VERSION_DISCOVERY" := ["T1592"],
    "BOT_ACTIVITY" := ["T1071.001"],
    "CONFIRMED_BOTNET" := ["T1071.001", "T1071.002"],
    "BOTNET_ACTIVITY" := ["T1071.001", "T1071.002"],
    "COORDINATED_ATTACK" := ["T1071.001", "T1595"],
    "CONFIRMED_COORDINATED" := ["T1071.001", "T1595"],
    "MULTI_VECTOR" := ["T1190", "T1071.001"],
    "CONFIRMED_SOPHISTICATED" := ["T1190", "T1071.001", "T1595"],
    "ADAPTIVE_BEHAVIOR" := ["T1071.001", "T1595"],
    "FILE_ACCESS" := ["T1083"],
    "SYSTEM_FILE_ACCESS" := ["T1083"],
    "CONFIG_FILE_ACCESS" := ["T1083"],
    "HIGH_FREQUENCY" := ["T1071.001"],
    "RHYTHMIC_PATTERNS" := ["T1071.001"],
    "BURST_ACTIVITY" := ["T1071.001"],
    "MALICIOUS_UA" := ["T1071.001"],
    "SCANNER_UA" := ["T1595"],
    "BOT_UA" := ["T1071.001"],
    "ERROR_EXPLOITATION" := ["T1190"],
    "DEBUG_INFO" := ["T1592"],
    "ISOLATED_INDICATOR" := ["T1595"],
    "FALSE_POSITIVE" := ["T1595"],
    "INCONSISTENT_TIMING" := ["T1071.001"]
  ]

  /** The known techniques, keyed by id. */
  const Techniques: map<string, Technique> := map[
    "T1083" := Technique("T1083", "File and Directory Discovery", "Discovery",
                         "https://attack.mitre.org/techniques/T1083"),
    "T1190" := Technique("T1190", "Exploit Public-Facing Application", "Initial Access",
                         "https://attack.mitre.org/techniques/T1190"),
    "T1595" := Technique("T1595", "Active Scanning", "Reconnaissance",
                         "https://attack.mitre.org/techniques/T1595"),
    "T1071.001" := Technique("T1071.001", "Web Protocols", "Command and Control",
                             "https://attack.mitre.org/techniques/T1071/001"),
    "T1071.002" := Technique("T1071.002", "Non-Standard Ports", "Command and Control",
                             "https://attack.mitre.org/techniques/T1071/002"),
    "T1105" := Technique("T1105", "Ingress Tool Transfer", "Lateral Movement",
                         "https://attack.mitre.org/techniques/T1105"),
    "T1592" := Technique("T1592", "Gather Victim Host Information", "Reconnaissance",
                         "https://attack.mitre.org/techniques/T1592")
  ]

  /** Every technique is stored under its own id. */
  lemma TechniquesKeyed()
    ensures forall id :: id in Techniques ==> Techniques[id].id == id
  {
  }

  /** Every id the tag table mentions is a known technique, so the lookup never drops one. */
  lemma MappingClosed()
    ensures forall tag, id :: tag in TagMapping && id in TagMapping[tag] ==> id in Techniques
  {
  }

  // ---------------------------------------------------------------------
  // Lookup by id and formatting
  // ---------------------------------------------------------------------

  function TechniqueById(id: string): (r: Option<Technique>)
    ensures r.Some? <==> id in Techniques
    ensures r.Some? ==> r.value.id == id && r.value == Techniques[id]
  {
    TechniquesKeyed();
    if id in Techniques then Some(Techniques[id]) else None
  }

  /** "<id> - <name> (<tactic>)" for a known id, the bare id otherwise. */
  function FormatReference(id: string): (r: string)
    ensures |r| >= |id| && r[..|id|] == id
    ensures id !in Techniques ==> r == id
    ensures id in Techniques ==>
      r == id + " - " + Techniques[id].name + " (" + Techniques[id].tactic + ")"
  {
    match TechniqueById(id)
    case Some(t) => id + " - " + t.name + " (" + t.tactic + ")"
    case None => id
  }

  // ---------------------------------------------------------------------
  // Union lookup for a collection of tags
  // ---------------------------------------------------------------------

  /** Ids mapped from some tag of `tags`; tags missing from the table contribute nothing. */
  function TagIds(tags: set<string>): set<string>
  {
    set tag, id | tag in tags && tag in TagMapping && id in TagMapping[tag] :: id
  }

  /** The ids of one tag (none for an unknown tag). */
  function IdsOfTag(tag: string): seq<string>
  {
    if tag in TagMapping then TagMapping[tag] else []
  }

  /** The lookup is a union over the tags, and tags outside the table are ignored. */
  lemma TagIdsProps(a: set<string>, b: set<string>)
    ensures TagIds(a + b) == TagIds(a) + TagIds(b)
    ensures TagIds(a) == TagIds(a * TagMapping.Keys)
    ensures a !! TagMapping.Keys ==> TagIds(a) == {}
    ensures a <= b ==> TagIds(a) <= TagIds(b)
  {
  }

  lemma TagIdsSnoc(tags: seq<string>, tag: string)
    ensures TagIds(Elems(tags + [tag])) == TagIds(Elems(tags)) + Elems(IdsOfTag(tag))
  {
    assert Elems(tags + [tag]) == Elems(tags) + {tag};
  }

  /** The techniques of the known ids among `ids`, in order, repeats kept. */
  function Known(ids: seq<string>): seq<Technique>
  {
    KnownIn(Techniques, ids)
  }

  /** The techniques `table` holds for the ids among `ids`, in order. */
  function KnownIn(table: map<string, Technique>, ids: seq<string>): seq<Technique>
  {
    if ids == [] then []
    else
      var rest := KnownIn(table, ids[..|ids| - 1]);
      if ids[|ids| - 1] in table then rest + [table[ids[|ids| - 1]]] else rest
  }

  predicate Keyed(table: map<string, Technique>)
  {
    forall id :: id in table ==> table[id].id == id
  }

  lemma KnownProps(ids: seq<string>)
    ensures forall t :: t in Known(ids) <==> t.id in ids && t.id in Techniques && Techniques[t.id] == t
    ensures NoDups(ids) ==> NoDups(Known(ids))
    ensures |Known(ids)| <= |ids|
  {
    TechniquesKeyed();
    KnownInProps(Techniques, ids);
  }

  lemma {:induction false} KnownInProps(table: map<string, Technique>, ids: seq<string>)
    requires Keyed(table)
    ensures forall t :: t in KnownIn(table, ids) <==> t.id in ids && t.id in table && table[t.id] == t
    ensures NoDups(ids) ==> NoDups(KnownIn(table, ids))
    ensures |KnownIn(table, ids)| <= |ids|
    decreases |ids|
  {
    if ids != [] {
      var init := ids[..|ids| - 1];
      KnownInProps(table, init);
      assert ids == init + [ids[|ids| - 1]];
      if NoDups(ids) {
        assert NoDups(init);
        assert ids[|ids| - 1] !in init;
      }
    }
  }

  /** A lookup result: each technique of the mapped ids, once. */
  predicate ForTags(ts: seq<Technique>, tags: set<string>)
  {
    && NoDups(ts)
    && (forall t :: t in ts ==> t.id in TagIds(tags) && t.id in Techniques && Techniques[t.id] == t)
    && (forall id :: id in TagIds(tags) ==> id in Techniques && Techniques[id] in ts)
  }

  /** Adds each id of `xs` to the duplicate-free `ids` (a set update). */
  method UpdateIds(ids: seq<string>, xs: seq<string>) returns (r: seq<string>)
    requires NoDups(ids)
    ensures NoDups(r)
    ensures Elems(r) == Elems(ids) + Elems(xs)
  {
    r := ids;
    for i := 0 to |xs|
      invariant NoDups(r)
      invariant Elems(r) == Elems(ids) + Elems(xs[..i])
    {
      AddUniqueProps(r, xs[i]);
      assert Elems(xs[..i + 1]) == Elems(xs[..i]) + {xs[i]} by {
        assert xs[..i + 1] == xs[..i] + [xs[i]];
      }
      r := AddUnique(r, xs[i]);
    }
    assert xs[..|xs|] == xs;
  }

  /** The known techniques of `ids`, in order. */
  method KnownTechniques(ids: seq<string>) returns (ts: seq<Technique>)
    ensures ts == Known(ids)
  {
    ts := [];
    for j := 0 to |ids|
      invariant ts == Known(ids[..j])
    {
      assert ids[..j + 1][..j] == ids[..j];
      if ids[j] in Techniques {
        ts := ts + [Techniques[ids[j]]];
      }
    }
    assert ids[..|ids|] == ids;
  }

  /** Every technique mapped from some tag, each once, unknown tags ignored. */
  method TechniquesForTags(tags: seq<string>) returns (ts: seq<Technique>)
    ensures ForTags(ts, Elems(tags))
  {
    var ids := MappedIds(tags);
    ts := KnownTechniques(ids);
    KnownForTags(ids, Elems(tags));
  }

  /** The known techniques of the mapped ids are the lookup result. */
  lemma KnownForTags(ids: seq<string>, tags: set<string>)
    requires NoDups(ids) && Elems(ids) == TagIds(tags)
    ensures ForTags(Known(ids), tags)
  {
    KnownProps(ids);
    MappingClosed();
  }

  /** The set update over the tags: every mapped id, once. */
  method MappedIds(tags: seq<string>) returns (ids: seq<string>)
    ensures NoDups(ids) && Elems(ids) == TagIds(Elems(tags))
  {
    ids := [];
    for i := 0 to |tags|
      invariant NoDups(ids)
      invariant Elems(ids) == TagIds(Elems(tags[..i]))
    {
      TagIdsSnoc(tags[..i], tags[i]);
      assert tags[..i + 1] == tags[..i] + [tags[i]];
      if tags[i] in TagMapping {
        ids := UpdateIds(ids, TagMapping[tags[i]]);
      }
    }
    assert tags[..|tags|] == tags;
  }

  /** The techniques of an actor's tags. */
  method TechniquesForActor(a: Actor) returns (ts: seq<Technique>)
    ensures ForTags(ts, Elems(a.tags))
  {
    ts := TechniquesForTags(a.tags);
  }

  /** Lists a set in some order (the order is unspecified, as for a set's iteration). */
  method ListOf(s: set<string>) returns (xs: seq<string>)
    ensures Elems(xs) == s && NoDups(xs)
  {
    xs := [];
    var rest := s;
    while rest != {}
      invariant Elems(xs) + rest == s && Elems(xs) !! rest
      invariant NoDups(xs)
      decreases |rest|
    {
      var x :| x in rest;
      xs := xs + [x];
      rest := rest - {x};
    }
  }

  /** The techniques of a campaign's primary tags. */
  method TechniquesForCampaign(c: Campaign) returns (ts: seq<Technique>)
    ensures ForTags(ts, c.primaryTags)
  {
    var tags := ListOf(c.primaryTags);
    ts := TechniquesForTags(tags);
  }

  // ---------------------------------------------------------------------
  // Summary by tactic
  // ---------------------------------------------------------------------

  datatype TechniqueSummary = TechniqueSummary(
    total: nat,
    tacticOrder: seq<string>,               // the dict's key order
    tactics: map<string, seq<Technique>>,
    techniques: seq<Technique>)

  function Tactics(ts: seq<Technique>): seq<string>
  {
    if ts == [] then [] else Tactics(ts[..|ts| - 1]) + [ts[|ts| - 1].tactic]
  }

  /** The techniques of `ts` with tactic `tactic`, in order. */
  function OfTactic(ts: seq<Technique>, tactic: string): seq<Technique>
  {
    if ts == [] then []
    else OfTactic(ts[..|ts| - 1], tactic) + (if ts[|ts| - 1].tactic == tactic then [ts[|ts| - 1]] else [])
  }

  function Groups(ts: seq<Technique>): map<string, seq<Technique>>
  {
    map tactic | tactic in Elems(Tactics(ts)) :: OfTactic(ts, tactic)
  }

  function SummaryOf(ids: seq<string>): TechniqueSummary
  {
    var ts := Known(ids);
    TechniqueSummary(|ts|, Distinct(Tactics(ts)), Groups(ts), ts)
  }

  /** Total size of the groups listed in `keys`. */
  function GroupSizes(keys: seq<string>, groups: map<string, seq<Technique>>): nat
  {
    if keys == [] then 0
    else (if keys[0] in groups then |groups[keys[0]]| else 0) + GroupSizes(keys[1..], groups)
  }

  lemma {:induction false} OfTacticProps(ts: seq<Technique>, tactic: string)
    ensures |OfTactic(ts, tactic)| == Count(Tactics(ts), tactic)
    ensures forall t :: t in OfTactic(ts, tactic) <==> t in ts && t.tactic == tactic
    decreases |ts|
  {
    if ts != [] {
      var init := ts[..|ts| - 1];
      OfTacticProps(init, tactic);
      assert ts == init + [ts[|ts| - 1]];
    }
  }

  lemma {:induction false} TacticsProps(ts: seq<Technique>)
    ensures |Tactics(ts)| == |ts|
    ensures forall tactic :: tactic in Tactics(ts) <==> exists t :: t in ts && t.tactic == tactic
    decreases |ts|
  {
    if ts != [] {
      var init := ts[..|ts| - 1];
      TacticsProps(init);
      assert ts == init + [ts[|ts| - 1]];
      assert ts[|ts| - 1] in ts;
    }
  }

  lemma {:induction false} GroupSizesCount(keys: seq<string>, ts: seq<Technique>)
    requires forall k :: k in keys ==> k in Groups(ts)
    ensures GroupSizes(keys, Groups(ts)) == CountsSum(keys, Tactics(ts))
    decreases |keys|
  {
    if keys != [] {
      OfTacticProps(ts, keys[0]);
      GroupSizesCount(keys[1..], ts);
    }
  }

  /**
   * The summary keeps only known ids (repeats included), lists the tactics
   * in order of first appearance, each group holds exactly the techniques of
   * its tactic, and the total equals the sum of the group sizes.
   */
  lemma SummaryProps(ids: seq<string>)
    ensures var s := SummaryOf(ids);
      && s.total == |s.techniques| == GroupSizes(s.tacticOrder, s.tactics)
      && s.total <= |ids|
      && NoDups(s.tacticOrder) && Elems(s.tacticOrder) == s.tactics.Keys
      && (forall t :: t in s.techniques <==> t.id in ids && t.id in Techniques && Techniques[t.id] == t)
      && (forall tactic, t :: tactic in s.tactics && t in s.tactics[tactic] <==>
            t in s.techniques && t.tactic == tactic)
  {
    KnownProps(ids);
    GroupingProps(Known(ids));
  }

  /** The grouping of any technique list: the order, the groups and their sizes. */
  lemma GroupingProps(ts: seq<Technique>)
    ensures |ts| == GroupSizes(Distinct(Tactics(ts)), Groups(ts))
    ensures NoDups(Distinct(Tactics(ts))) && Elems(Distinct(Tactics(ts))) == Groups(ts).Keys
    ensures forall tactic, t :: tactic in Groups(ts) && t in Groups(ts)[tactic] <==> t in ts && t.tactic == tactic
  {
    DistinctProps(Tactics(ts));
    DistinctMembers(Tactics(ts));
    HistogramTotal(Tactics(ts));
    TacticsProps(ts);
    GroupSizesCount(Distinct(Tactics(ts)), ts);
    forall tactic, t
      ensures tactic in Groups(ts) && t in Groups(ts)[tactic] <==> t in ts && t.tactic == tactic
    {
      OfTacticProps(ts, tactic);
    }
  }

  lemma DistinctMembers(s: seq<string>)
    ensures forall k :: k in Distinct(s) <==> k in s
  {
    DistinctProps(s);
  }

  lemma TacticsSnoc(ts: seq<Technique>, t: Technique)
    ensures Tactics(ts + [t]) == Tactics(ts) + [t.tactic]
    ensures Elems(Tactics(ts + [t])) == Elems(Tactics(ts)) + {t.tactic}
    ensures forall tactic :: (OfTactic(ts + [t], tactic) ==
      OfTactic(ts, tactic) + (if t.tactic == tactic then [t] else []))
  {
    assert (ts + [t])[..|ts|] == ts;
  }

  /** A tactic not yet seen has an empty group. */
  lemma UnseenTactic(ts: seq<Technique>, tactic: string)
    requires tactic !in Elems(Tactics(ts))
    ensures OfTactic(ts, tactic) == []
  {
    TacticsProps(ts);
    OfTacticProps(ts, tactic);
  }

  lemma GroupsSnoc(ts: seq<Technique>, t: Technique)
    ensures Groups(ts + [t]) ==
      Groups(ts)[t.tactic := (if t.tactic in Groups(ts) then Groups(ts)[t.tactic] else []) + [t]]
  {
    TacticsSnoc(ts, t);
    var g, g' := Groups(ts), Groups(ts + [t]);
    var h := g[t.tactic := (if t.tactic in g then g[t.tactic] else []) + [t]];
    assert g'.Keys == h.Keys;
    forall tactic | tactic in h
      ensures g'[tactic] == h[tactic]
    {
      if tactic == t.tactic && t.tactic !in g {
        UnseenTactic(ts, t.tactic);
      }
    }
  }

  lemma SummaryStep(ts: seq<Technique>, t: Technique)
    ensures Groups(ts + [t]) ==
      Groups(ts)[t.tactic := (if t.tactic in Groups(ts) then Groups(ts)[t.tactic] else []) + [t]]
    ensures Distinct(Tactics(ts + [t])) ==
      if t.tactic in Groups(ts) then Distinct(Tactics(ts)) else Distinct(Tactics(ts)) + [t.tactic]
  {
    TacticsSnoc(ts, t);
    GroupsSnoc(ts, t);
    DistinctSnoc(Tactics(ts), t.tactic);
    DistinctMembers(Tactics(ts));
  }

  method TechniqueSummaryOf(ids: seq<string>) returns (s: TechniqueSummary)
    ensures s == SummaryOf(ids)
  {
    var tactics: map<string, seq<Technique>> := map[];
    var order: seq<string> := [];
    var techniques: seq<Technique> := [];
    for i := 0 to |ids|
      invariant techniques == Known(ids[..i])
      invariant tactics == Groups(techniques)
      invariant order == Distinct(Tactics(techniques))
    {
      assert ids[..i + 1][..i] == ids[..i];
      var found := TechniqueById(ids[i]);
      if found.Some? {
        var t := found.value;
        SummaryStep(techniques, t);
        if t.tactic !in tactics {
          tactics := tactics[t.tactic := []];
          order := order + [t.tactic];
        }
        tactics := tactics[t.tactic := tactics[t.tactic] + [t]];
        techniques := techniques + [t];
      }
    }
    assert ids[..|ids|] == ids;
    s := TechniqueSummary(|techniques|, order, tactics, techniques);
  }
}
