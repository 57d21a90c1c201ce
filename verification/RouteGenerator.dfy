/** Rule documents: compiling and merging them, and the generator that resolves automatic prefixes
    against maintained ones. */
module RouteGenerator {
  import opened Common
  import opened RoutePrefixes

  /** The prefixes a document lists for a group; a missing group lists none. */
  function Listed(groups: map<string, seq<Prefix>>, g: string): seq<Prefix> {
    if g in groups then groups[g] else []
  }

  function RulesOf(g: string, prefixes: seq<Prefix>): seq<Rule> {
    seq(|prefixes|, i requires 0 <= i < |prefixes| => Rule(prefixes[i], g))
  }

  /** All rules of a document, group by group in the given order. */
  function Flatten(order: seq<string>, groups: map<string, seq<Prefix>>): seq<Rule> {
    if order == [] then [] else
    var g := order[|order| - 1];
    Flatten(order[..|order| - 1], groups) + RulesOf(g, Listed(groups, g))
  }

  lemma FlattenStep(order: seq<string>, groups: map<string, seq<Prefix>>, i: nat)
    requires i < |order|
    ensures Flatten(order[..i + 1], groups) == Flatten(order[..i], groups) + RulesOf(order[i], Listed(groups, order[i]))
  {
    assert order[..i + 1][..i] == order[..i];
  }

  lemma RulesOfStep(g: string, prefixes: seq<Prefix>, i: nat)
    requires i < |prefixes|
    ensures RulesOf(g, prefixes[..i + 1]) == RulesOf(g, prefixes[..i]) + [Rule(prefixes[i], g)]
  {
  }

  function Prefixes(rules: seq<Rule>): set<Prefix> {
    set k | 0 <= k < |rules| :: rules[k].prefix
  }

  lemma PrefixesStep(rules: seq<Rule>, r: Rule)
    ensures Prefixes(rules + [r]) == Prefixes(rules) + {r.prefix}
    ensures HasPrefix(rules, r.prefix) <==> r.prefix in Prefixes(rules)
  {
    forall p | p in Prefixes(rules) + {r.prefix} ensures p in Prefixes(rules + [r]) {
      if p == r.prefix {
        assert (rules + [r])[|rules|].prefix == p;
      } else {
        var k :| 0 <= k < |rules| && rules[k].prefix == p;
        assert (rules + [r])[k].prefix == p;
      }
    }
  }

  /** The uniqueness check of rule compilation: a document is refused exactly when it lists a prefix
      twice, and otherwise becomes the list of its rules. */
  method CompilePrefixes(order: seq<string>, groups: map<string, seq<Prefix>>) returns (r: Option<seq<Rule>>)
    ensures r.Some? <==> Distinct(Flatten(order, groups))
    ensures r.Some? ==> r.value == Flatten(order, groups)
  {
    var seen: set<Prefix> := {};
    var rules: seq<Rule> := [];
    for i := 0 to |order|
      invariant rules == Flatten(order[..i], groups) && Distinct(rules)
      invariant seen == Prefixes(rules)
    {
      FlattenStep(order, groups, i);
      ghost var before := rules;
      var prefixes := Listed(groups, order[i]);
      for j := 0 to |prefixes|
        invariant rules == before + RulesOf(order[i], prefixes[..j]) && Distinct(rules)
        invariant seen == Prefixes(rules)
      {
        RulesOfStep(order[i], prefixes, j);
        var rule := Rule(prefixes[j], order[i]);
        PrefixesStep(rules, rule);
        if prefixes[j] in seen {
          DuplicateRefused(order, groups, i, j, rules);
          return None;
        }
        seen := seen + {prefixes[j]};
        rules := rules + [rule];
        assert before + RulesOf(order[i], prefixes[..j]) + [rule] == before + RulesOf(order[i], prefixes[..j + 1]);
      }
      assert prefixes[..|prefixes|] == prefixes;
    }
    assert order[..|order|] == order;
    return Some(rules);
  }

  lemma {:induction false} FlattenPrefix(order: seq<string>, groups: map<string, seq<Prefix>>, i: nat)
    requires i <= |order|
    ensures Flatten(order[..i], groups) <= Flatten(order, groups)
  {
    if i < |order| {
      var front := order[..|order| - 1];
      assert front[..i] == order[..i];
      FlattenPrefix(front, groups, i);
    } else {
      assert order[..i] == order;
    }
  }

  lemma DuplicateRefused(order: seq<string>, groups: map<string, seq<Prefix>>, i: nat, j: nat, rules: seq<Rule>)
    requires i < |order| && j < |Listed(groups, order[i])|
    requires rules == Flatten(order[..i], groups) + RulesOf(order[i], Listed(groups, order[i])[..j])
    requires HasPrefix(rules, Listed(groups, order[i])[j])
    ensures !Distinct(Flatten(order, groups))
  {
    var prefixes := Listed(groups, order[i]);
    var whole := Flatten(order[..i + 1], groups);
    FlattenStep(order, groups, i);
    FlattenPrefix(order, groups, i + 1);
    var k :| 0 <= k < |rules| && rules[k].prefix == prefixes[j];
    assert whole[k] == rules[k];
    assert whole[|rules|] == Rule(prefixes[j], order[i]);
    var all := Flatten(order, groups);
    assert all[k] == whole[k] && all[|rules|] == whole[|rules|];
    assert all[k].prefix == all[|rules|].prefix;
  }

  /** The prefixes of one group, after the BGP rules already done. */
  method MergeGroup(base: seq<Rule>, rules: seq<Rule>, known: set<Prefix>, g: string, prefixes: seq<Prefix>,
                    ghost done: seq<Rule>)
    returns (merged: seq<Rule>, seen: set<Prefix>)
    requires rules == Merge(base, done) && known == Prefixes(rules)
    ensures merged == Merge(base, done + RulesOf(g, prefixes)) && seen == Prefixes(merged)
  {
    merged, seen := rules, known;
    assert done + RulesOf(g, prefixes[..0]) == done;
    for j := 0 to |prefixes|
      invariant merged == Merge(base, done + RulesOf(g, prefixes[..j])) && seen == Prefixes(merged)
    {
      var rule := Rule(prefixes[j], g);
      MergeNext(base, done, g, prefixes, j);
      PrefixesStep(merged, rule);
      if prefixes[j] !in seen {
        seen := seen + {prefixes[j]};
        merged := merged + [rule];
      }
    }
    assert prefixes[..|prefixes|] == prefixes;
  }

  lemma MergeNext(base: seq<Rule>, done: seq<Rule>, g: string, prefixes: seq<Prefix>, j: nat)
    requires j < |prefixes|
    ensures var merged := Merge(base, done + RulesOf(g, prefixes[..j])); var rule := Rule(prefixes[j], g);
            Merge(base, done + RulesOf(g, prefixes[..j + 1])) ==
              if HasPrefix(merged, prefixes[j]) then merged else merged + [rule]
  {
    RulesOfStep(g, prefixes, j);
    MergeStep(base, done + RulesOf(g, prefixes[..j]), Rule(prefixes[j], g));
    assert done + RulesOf(g, prefixes[..j]) + [Rule(prefixes[j], g)] == done + RulesOf(g, prefixes[..j + 1]);
  }

  /** mergeReturnRouteRules: the base rules, then every BGP rule for a prefix not yet seen. */
  method MergeRules(base: seq<Rule>, order: seq<string>, bgp: map<string, seq<Prefix>>) returns (merged: seq<Rule>)
    ensures merged == Merge(base, Flatten(order, bgp))
  {
    var seen: set<Prefix> := {};
    for i := 0 to |base|
      invariant seen == Prefixes(base[..i])
    {
      assert base[..i + 1] == base[..i] + [base[i]];
      PrefixesStep(base[..i], base[i]);
      seen := seen + {base[i].prefix};
    }
    assert base[..|base|] == base;
    merged := base;
    for i := 0 to |order|
      invariant merged == Merge(base, Flatten(order[..i], bgp)) && seen == Prefixes(merged)
    {
      FlattenStep(order, bgp, i);
      merged, seen := MergeGroup(base, merged, seen, order[i], Listed(bgp, order[i]), Flatten(order[..i], bgp));
    }
    assert order[..|order|] == order;
  }

  lemma MergeStep(base: seq<Rule>, bgp: seq<Rule>, r: Rule)
    ensures Merge(base, bgp + [r]) ==
              if HasPrefix(Merge(base, bgp), r.prefix) then Merge(base, bgp) else Merge(base, bgp) + [r]
  {
    assert (bgp + [r])[..|bgp|] == bgp;
  }

  /******* The generator *******/

  /** The order of networks by address and then length: bit by bit, a prefix before what it contains. */
  predicate BitsBefore(a: seq<bool>, b: seq<bool>) {
    a == [] || (b != [] && ((!a[0] && b[0]) || (a[0] == b[0] && BitsBefore(a[1..], b[1..]))))
  }

  predicate NetworkBefore(p: Prefix, q: Prefix) {
    (p.family.V4? && q.family.V6?) || (p.family == q.family && BitsBefore(p.bits, q.bits))
  }

  predicate Sorted(prefixes: seq<Prefix>) {
    forall i, j :: 0 <= i < j < |prefixes| ==> NetworkBefore(prefixes[i], prefixes[j]) && prefixes[i] != prefixes[j]
  }

  lemma {:induction false} ShorterComesFirst(a: seq<bool>, b: seq<bool>)
    requires b <= a && BitsBefore(a, b)
    ensures a == b
  {
    if b != [] && a != [] {
      ShorterComesFirst(a[1..], b[1..]);
      assert a == [a[0]] + a[1..] && b == [b[0]] + b[1..];
    }
  }

  /** In sorted order no later network contains an earlier one. */
  lemma SortedOuterFirst(prefixes: seq<Prefix>, i: nat, j: nat)
    requires Sorted(prefixes) && i < j < |prefixes|
    ensures !Contains(prefixes[j], prefixes[i])
  {
    if Contains(prefixes[j], prefixes[i]) {
      ShorterComesFirst(prefixes[i].bits, prefixes[j].bits);
    }
  }

  /******* Sorting networks *******/

  lemma {:induction false} BitsTotal(a: seq<bool>, b: seq<bool>)
    ensures BitsBefore(a, b) || BitsBefore(b, a)
  {
    if a != [] && b != [] { BitsTotal(a[1..], b[1..]); }
  }

  lemma {:induction false} BitsTransitive(a: seq<bool>, b: seq<bool>, c: seq<bool>)
    requires BitsBefore(a, b) && BitsBefore(b, c)
    ensures BitsBefore(a, c)
  {
    if a != [] && a[0] == b[0] == c[0] { BitsTransitive(a[1..], b[1..], c[1..]); }
  }

  lemma NetworksTotal(p: Prefix, q: Prefix)
    ensures NetworkBefore(p, q) || NetworkBefore(q, p)
  {
    BitsTotal(p.bits, q.bits);
  }

  lemma NetworksTransitive(p: Prefix, q: Prefix, r: Prefix)
    requires NetworkBefore(p, q) && NetworkBefore(q, r)
    ensures NetworkBefore(p, r)
  {
    if p.family == q.family == r.family { BitsTransitive(p.bits, q.bits, r.bits); }
  }

  predicate IsLeast(networks: set<Prefix>, m: Prefix) {
    m in networks && forall q :: q in networks ==> NetworkBefore(m, q)
  }

  lemma LeastExists(networks: set<Prefix>)
    requires networks != {}
    ensures exists m :: IsLeast(networks, m)
  {
    var p :| p in networks;
    var rest := networks - {p};
    NetworksTotal(p, p);
    if rest == {} {
      assert networks == {p};
      assert IsLeast(networks, p);
    } else {
      LeastExists(rest);
      var m :| IsLeast(rest, m);
      NetworksTotal(p, m);
      var least := if NetworkBefore(p, m) then p else m;
      forall q | q in networks ensures NetworkBefore(least, q) {
        if q != p && least == p { NetworksTransitive(p, m, q); }
      }
      assert IsLeast(networks, least);
    }
  }

  /** The networks of a set in order. */
  method SortNetworks(networks: set<Prefix>) returns (r: seq<Prefix>)
    ensures Sorted(r) && forall p :: p in networks <==> p in r
  {
    r := [];
    var left := networks;
    while left != {}
      invariant left <= networks && forall p :: p in networks <==> p in r || p in left
      invariant Sorted(r) && forall i, q :: 0 <= i < |r| && q in left ==> NetworkBefore(r[i], q) && r[i] != q
      decreases left
    {
      LeastExists(left);
      var p :| p in left && IsLeast(left, p);
      left := left - {p};
      r := r + [p];
    }
  }

  /******* What the generator computes *******/

  predicate DistinctNames(names: seq<string>) {
    forall i, j :: 0 <= i < j < |names| ==> names[i] != names[j]
  }

  predicate Enumerates(names: seq<string>, keys: set<string>) {
    && (forall i :: 0 <= i < |names| ==> names[i] in keys)
    && (forall k :: k in keys ==> k in names)
    && DistinctNames(names)
  }

  /** The known groups in order of priority, and then the others. */
  function Ordered(priority: seq<string>, groups: set<string>, others: seq<string>): seq<string> {
    if priority == [] then others
    else (if priority[0] in groups then [priority[0]] else []) + Ordered(priority[1..], groups, others)
  }

  lemma {:induction false} OrderedMembers(priority: seq<string>, groups: set<string>, others: seq<string>)
    ensures forall g :: g in Ordered(priority, groups, others) <==> (g in priority && g in groups) || g in others
  {
    if priority != [] {
      OrderedMembers(priority[1..], groups, others);
      assert priority == [priority[0]] + priority[1..];
    }
  }

  /** Where a group stands among the known ones of the priority list. */
  predicate InOrder(priority: seq<string>, g: string, h: string) {
    exists a, b :: 0 <= a < b < |priority| && priority[a] == g && priority[b] == h
  }

  /** The order of resolution: first the listed groups that are known, as they are listed, then all the others as they
      are given. */
  lemma PriorityThenOthers(priority: seq<string>, groups: set<string>, others: seq<string>)
    ensures var first := Ordered(priority, groups, []);
            && Ordered(priority, groups, others) == first + others
            && (forall g :: g in first <==> g in priority && g in groups)
            && forall i, j :: 0 <= i < j < |first| ==> InOrder(priority, first[i], first[j])
  {
    OrderedSplits(priority, groups, others);
    OrderedMembers(priority, groups, []);
    forall i, j | 0 <= i < j < |Ordered(priority, groups, [])|
      ensures InOrder(priority, Ordered(priority, groups, [])[i], Ordered(priority, groups, [])[j])
    {
      KeepsOrder(priority, groups, i, j);
    }
  }

  lemma {:induction false} OrderedSplits(priority: seq<string>, groups: set<string>, others: seq<string>)
    ensures Ordered(priority, groups, others) == Ordered(priority, groups, []) + others
  {
    if priority != [] { OrderedSplits(priority[1..], groups, others); }
  }

  lemma {:induction false} KeepsOrder(priority: seq<string>, groups: set<string>, i: nat, j: nat)
    requires i < j < |Ordered(priority, groups, [])|
    ensures InOrder(priority, Ordered(priority, groups, [])[i], Ordered(priority, groups, [])[j])
  {
    var rest, tail := priority[1..], Ordered(priority[1..], groups, []);
    var k := if priority[0] in groups then 1 else 0;
    assert priority == [priority[0]] + rest;
    if i < k {
      OrderedMembers(rest, groups, []);
      assert tail[j - 1] in rest;
      var b :| 0 <= b < |rest| && rest[b] == tail[j - 1];
      assert priority[0] == priority[0] && priority[b + 1] == tail[j - 1];
    } else {
      KeepsOrder(rest, groups, i - k, j - k);
      var a, b :| 0 <= a < b < |rest| && rest[a] == tail[i - k] && rest[b] == tail[j - k];
      assert priority[a + 1] == tail[i - k] && priority[b + 1] == tail[j - k];
    }
  }

  /** What is kept, in its own terms: what the group maintains, and the automatic prefixes that it is the first to list
      and that no maintained prefix, of any group, contains. */
  lemma KeptIff(automatic: map<string, set<Prefix>>, ordered: seq<string>, overrides: map<string, set<Prefix>>,
                g: string, p: Prefix)
    requires g in automatic && g in ordered && Known(ordered, automatic)
    ensures Kept(automatic, ordered, overrides, g, p) <==>
              || (g in overrides && p in overrides[g])
              || (&& (exists i :: 0 <= i < |ordered| && ordered[i] == g && FirstToList(automatic, ordered, p, i))
                  && forall h, m :: h in overrides && m in overrides[h] ==> !Contains(m, p))
  {
    OwnsIffFirst(automatic, ordered, g, p);
    if h, m :| h in overrides && m in overrides[h] && Contains(m, p) {
      assert Maintains(overrides, h, m) && Contains(m, p);
    }
  }

  /** The position at which nobody before lists the prefix. */
  predicate FirstToList(automatic: map<string, set<Prefix>>, ordered: seq<string>, p: Prefix, i: nat)
    requires Known(ordered, automatic) && i < |ordered|
  {
    p in automatic[ordered[i]] && forall j :: 0 <= j < i ==> p !in automatic[ordered[j]]
  }

  /** A group owns an automatic prefix exactly when it lists it and comes before every other group that does. */
  lemma OwnsIffFirst(automatic: map<string, set<Prefix>>, ordered: seq<string>, g: string, p: Prefix)
    requires g in automatic && g in ordered && Known(ordered, automatic)
    ensures Owns(automatic, ordered, g, p) <==>
              exists i :: 0 <= i < |ordered| && ordered[i] == g && FirstToList(automatic, ordered, p, i)
  {
    if p in automatic[g] {
      var k :| 0 <= k < |ordered| && ordered[k] == g;
      var first := FirstLister(automatic, ordered, p, k);
      FirstOwnerAt(ordered, automatic, p, first);
    }
    forall i | 0 <= i < |ordered| && FirstToList(automatic, ordered, p, i)
      ensures FirstOwner(ordered, automatic, p) == ordered[i]
    {
      FirstOwnerAt(ordered, automatic, p, i);
    }
  }

  lemma {:induction false} FirstLister(automatic: map<string, set<Prefix>>, ordered: seq<string>, p: Prefix, k: nat)
    returns (i: nat)
    requires Known(ordered, automatic) && k < |ordered| && p in automatic[ordered[k]]
    ensures i <= k && FirstToList(automatic, ordered, p, i)
  {
    if j :| 0 <= j < k && p in automatic[ordered[j]] {
      i := FirstLister(automatic, ordered, p, j);
    } else {
      i := k;
    }
  }

  /** The first group, in order of priority, whose automatic prefixes include this one. */
  function FirstOwner(ordered: seq<string>, automatic: map<string, set<Prefix>>, p: Prefix): string
    requires forall i :: 0 <= i < |ordered| ==> ordered[i] in automatic
  {
    if ordered == [] then ""
    else if p in automatic[ordered[0]] then ordered[0]
    else FirstOwner(ordered[1..], automatic, p)
  }

  predicate Owns(automatic: map<string, set<Prefix>>, ordered: seq<string>, g: string, p: Prefix)
    requires g in automatic && forall i :: 0 <= i < |ordered| ==> ordered[i] in automatic
  {
    p in automatic[g] && FirstOwner(ordered, automatic, p) == g
  }

  predicate Clash(a: Rule, b: Rule) { a.group != b.group && Overlaps(a.prefix, b.prefix) }

  /** Two groups maintain overlapping prefixes. */
  predicate Conflicting(rules: seq<Rule>) {
    exists i, j :: 0 <= i < j < |rules| && Clash(rules[j], rules[i])
  }

  predicate Covered(rules: seq<Rule>, p: Prefix) {
    exists i :: 0 <= i < |rules| && Contains(rules[i].prefix, p)
  }

  predicate Maintains(overrides: map<string, set<Prefix>>, g: string, p: Prefix) {
    g in overrides && p in overrides[g]
  }

  /** Two groups maintain overlapping prefixes. */
  ghost predicate Overlapping(overrides: map<string, set<Prefix>>) {
    exists g, h, p, q :: Maintains(overrides, g, p) && Maintains(overrides, h, q) && Clash(Rule(p, g), Rule(q, h))
  }

  /** A maintained prefix of some group contains this one. */
  ghost predicate Covers(overrides: map<string, set<Prefix>>, p: Prefix) {
    exists g, m :: Maintains(overrides, g, m) && Contains(m, p)
  }

  /** Overlap in its own terms: two groups, and a maintained prefix of one that starts with one of the other. */
  lemma OverlappingIff(overrides: map<string, set<Prefix>>)
    ensures Overlapping(overrides) <==>
              exists g, h, p, q :: g in overrides && h in overrides && g != h && p in overrides[g] && q in overrides[h]
                                   && Contains(p, q)
    ensures forall p, q :: Contains(p, q) <==> p.family == q.family && p.bits <= q.bits
  {
    if g, h, p, q :| g in overrides && h in overrides && g != h && p in overrides[g] && q in overrides[h]
                     && Contains(p, q) {
      assert Maintains(overrides, g, p) && Maintains(overrides, h, q) && Clash(Rule(p, g), Rule(q, h));
    }
    if g, h, p, q :| Maintains(overrides, g, p) && Maintains(overrides, h, q) && Clash(Rule(p, g), Rule(q, h)) {
      assert Contains(p, q) || Contains(q, p);
    }
  }

  /** What the generator keeps for a group: what it maintains, and the automatic prefixes that it owns
      by priority and that no maintained prefix of any group contains. */
  ghost predicate Kept(automatic: map<string, set<Prefix>>, ordered: seq<string>, overrides: map<string, set<Prefix>>,
                       g: string, p: Prefix)
    requires g in automatic && forall i :: 0 <= i < |ordered| ==> ordered[i] in automatic
  {
    Maintains(overrides, g, p) || (Owns(automatic, ordered, g, p) && !Covers(overrides, p))
  }

  predicate Known(ordered: seq<string>, automatic: map<string, set<Prefix>>) {
    forall i :: 0 <= i < |ordered| ==> ordered[i] in automatic
  }

  lemma {:induction false} FirstOwnerAt(ordered: seq<string>, automatic: map<string, set<Prefix>>, p: Prefix, i: nat)
    requires Known(ordered, automatic) && i < |ordered| && p in automatic[ordered[i]]
    requires forall j :: 0 <= j < i ==> p !in automatic[ordered[j]]
    ensures FirstOwner(ordered, automatic, p) == ordered[i]
  {
    if i > 0 {
      assert forall j :: 0 <= j < i - 1 ==> ordered[1..][j] == ordered[j + 1];
      assert p !in automatic[ordered[0]];
      FirstOwnerAt(ordered[1..], automatic, p, i - 1);
    }
  }

  /** One of the first n groups lists the prefix automatically. */
  predicate ListedBy(ordered: seq<string>, automatic: map<string, set<Prefix>>, n: nat, p: Prefix)
    requires Known(ordered, automatic) && n <= |ordered|
  {
    exists j :: 0 <= j < n && p in automatic[ordered[j]]
  }

  predicate OwnersOf(owners: map<Prefix, string>, ordered: seq<string>, automatic: map<string, set<Prefix>>)
    requires Known(ordered, automatic)
  {
    forall p :: p in owners ==> owners[p] == FirstOwner(ordered, automatic, p)
  }

  /** The networks of one group that nobody before it has claimed. */
  method ClaimGroup(ordered: seq<string>, automatic: map<string, set<Prefix>>, i: nat, claimed: map<Prefix, string>)
    returns (owners: map<Prefix, string>)
    requires Known(ordered, automatic) && i < |ordered| && OwnersOf(claimed, ordered, automatic)
    requires forall p :: p in claimed <==> ListedBy(ordered, automatic, i, p)
    ensures OwnersOf(owners, ordered, automatic)
    ensures forall p :: p in owners <==> ListedBy(ordered, automatic, i + 1, p)
  {
    owners := claimed;
    var group := ordered[i];
    var todo := automatic[group];
    while todo != {}
      invariant todo <= automatic[group] && OwnersOf(owners, ordered, automatic)
      invariant forall p :: p in owners <==> p in claimed || p in automatic[group] - todo
      decreases todo
    {
      var network :| network in todo;
      if network !in owners {
        assert !ListedBy(ordered, automatic, i, network);
        FirstOwnerAt(ordered, automatic, network, i);
        owners := owners[network := group];
      }
      todo := todo - {network};
    }
    forall p ensures p in owners <==> ListedBy(ordered, automatic, i + 1, p) {
      assert ListedBy(ordered, automatic, i + 1, p) <==> ListedBy(ordered, automatic, i, p) || p in automatic[group];
    }
  }

  /** Equal automatic prefixes go to the first group in order of priority. */
  method ResolveAutomatic(ordered: seq<string>, automatic: map<string, set<Prefix>>)
    returns (groups: map<string, set<Prefix>>)
    requires Known(ordered, automatic) && forall g :: g in automatic ==> g in ordered
    ensures groups.Keys == automatic.Keys
    ensures forall g, p :: g in automatic ==> (p in groups[g] <==> Owns(automatic, ordered, g, p))
  {
    var owners: map<Prefix, string> := map[];
    for i := 0 to |ordered|
      invariant OwnersOf(owners, ordered, automatic)
      invariant forall p :: p in owners <==> ListedBy(ordered, automatic, i, p)
    {
      owners := ClaimGroup(ordered, automatic, i, owners);
    }
    forall g, p | g in automatic && p in automatic[g] ensures p in owners {
      var j :| 0 <= j < |ordered| && ordered[j] == g;
      assert p in automatic[ordered[j]];
    }
    groups := map g | g in automatic :: set n | n in automatic[g] && owners[n] == g;
  }

  /** The overlap check: the maintained rules in order, or nothing when two groups overlap. */
  method ClaimMaintained(names: seq<string>, manual: map<string, seq<Prefix>>) returns (r: Option<seq<Rule>>)
    ensures r.Some? <==> !Conflicting(Flatten(names, manual))
    ensures r.Some? ==> r.value == Flatten(names, manual)
  {
    var claimed: seq<Rule> := [];
    for i := 0 to |names|
      invariant claimed == Flatten(names[..i], manual) && !Conflicting(claimed)
    {
      FlattenStep(names, manual, i);
      FlattenPrefix(names, manual, i + 1);
      var more := ClaimList(claimed, names[i], Listed(manual, names[i]));
      if more.None? {
        ConflictGrows(Flatten(names[..i + 1], manual), Flatten(names, manual));
        return None;
      }
      claimed := more.value;
    }
    assert names[..|names|] == names;
    return Some(claimed);
  }

  lemma ConflictGrows(a: seq<Rule>, b: seq<Rule>)
    requires a <= b && Conflicting(a)
    ensures Conflicting(b)
  {
    var i, j :| 0 <= i < j < |a| && Clash(a[j], a[i]);
    assert b[j] == a[j] && b[i] == a[i];
  }

  method ClaimList(before: seq<Rule>, g: string, networks: seq<Prefix>) returns (r: Option<seq<Rule>>)
    requires !Conflicting(before)
    ensures r.Some? <==> !Conflicting(before + RulesOf(g, networks))
    ensures r.Some? ==> r.value == before + RulesOf(g, networks)
  {
    var claimed := before;
    assert before + RulesOf(g, networks[..0]) == before;
    for j := 0 to |networks|
      invariant claimed == before + RulesOf(g, networks[..j]) && !Conflicting(claimed)
    {
      RulesOfStep(g, networks, j);
      var rule := Rule(networks[j], g);
      var next := claimed + [rule];
      assert next == before + RulesOf(g, networks[..j + 1]);
      for k := 0 to |claimed|
        invariant forall x :: 0 <= x < k ==> !Clash(rule, claimed[x])
      {
        if claimed[k].group != g && networks[j].family == claimed[k].prefix.family
           && Overlaps(networks[j], claimed[k].prefix) {
          assert next[|claimed|] == rule && next[k] == claimed[k];
          assert Conflicting(next);
          assert next <= before + RulesOf(g, networks);
          ConflictGrows(next, before + RulesOf(g, networks));
          return None;
        }
      }
      NoNewConflict(claimed, rule);
      claimed := next;
    }
    assert networks[..|networks|] == networks;
    return Some(claimed);
  }

  lemma NoNewConflict(rules: seq<Rule>, r: Rule)
    requires !Conflicting(rules) && forall x :: 0 <= x < |rules| ==> !Clash(r, rules[x])
    ensures !Conflicting(rules + [r])
  {
    forall i, j | 0 <= i < j < |rules + [r]| ensures !Clash((rules + [r])[j], (rules + [r])[i]) {
      if j < |rules| { assert !Clash(rules[j], rules[i]); }
    }
  }

  /** No later maintained rule contains an earlier one. */
  predicate OuterFirst(rules: seq<Rule>) {
    forall i, j :: 0 <= i < j < |rules| ==> !Contains(rules[j].prefix, rules[i].prefix)
  }

  lemma {:induction false} FlattenGroups(names: seq<string>, manual: map<string, seq<Prefix>>, i: nat)
    requires i < |Flatten(names, manual)|
    ensures Flatten(names, manual)[i].group in names
    ensures Flatten(names, manual)[i].prefix in Listed(manual, Flatten(names, manual)[i].group)
  {
    var front, g := names[..|names| - 1], names[|names| - 1];
    if i < |Flatten(front, manual)| { FlattenGroups(front, manual, i); }
  }

  /** A sorted group behind rules of other groups keeps the list ordered. */
  lemma NextGroupOuterFirst(head: seq<Rule>, g: string, prefixes: seq<Prefix>)
    requires OuterFirst(head) && Sorted(prefixes) && !Conflicting(head + RulesOf(g, prefixes))
    requires forall i :: 0 <= i < |head| ==> head[i].group != g
    ensures OuterFirst(head + RulesOf(g, prefixes))
  {
    var all := head + RulesOf(g, prefixes);
    forall i, j | 0 <= i < j < |all| ensures !Contains(all[j].prefix, all[i].prefix) {
      if j < |head| {
        assert all[i] == head[i] && all[j] == head[j];
      } else if i < |head| {
        assert !Clash(all[j], all[i]);
      } else {
        SortedOuterFirst(prefixes, i - |head|, j - |head|);
      }
    }
  }

  /** The maintained list is ordered outer first: by sorting within a group, by disjointness across. */
  lemma {:induction false} MaintainedOuterFirst(names: seq<string>, manual: map<string, seq<Prefix>>)
    requires forall i, j :: 0 <= i < j < |names| ==> names[i] != names[j]
    requires forall g :: g in manual ==> Sorted(manual[g])
    requires !Conflicting(Flatten(names, manual))
    ensures OuterFirst(Flatten(names, manual))
  {
    if names == [] { return; }
    var front, g := names[..|names| - 1], names[|names| - 1];
    var head, all := Flatten(front, manual), Flatten(names, manual);
    if Conflicting(head) { ConflictGrows(head, all); }
    MaintainedOuterFirst(front, manual);
    forall i | 0 <= i < |head| ensures head[i].group != g { FlattenGroups(front, manual, i); }
    NextGroupOuterFirst(head, g, Listed(manual, g));
  }

  function Prune(networks: set<Prefix>, outer: Prefix): set<Prefix> {
    set c | c in networks && !Contains(outer, c)
  }

  /** A maintained prefix owns its whole range: remove what it contains everywhere, then add it. */
  method ApplyMaintained(automatic: map<string, set<Prefix>>, rules: seq<Rule>)
    returns (groups: map<string, set<Prefix>>)
    requires OuterFirst(rules) && forall i :: 0 <= i < |rules| ==> rules[i].group in automatic
    ensures groups.Keys == automatic.Keys
    ensures forall g, p :: g in automatic ==>
              (p in groups[g] <==> Rule(p, g) in rules || (p in automatic[g] && !Covered(rules, p)))
  {
    groups := automatic;
    for i := 0 to |rules|
      invariant groups.Keys == automatic.Keys
      invariant forall g, p :: g in automatic ==>
                  (p in groups[g] <==> Rule(p, g) in rules[..i] || (p in automatic[g] && !Covered(rules[..i], p)))
    {
      var outer, owner := rules[i].prefix, rules[i].group;
      ghost var was := groups;
      groups := map g | g in groups :: Prune(groups[g], outer);
      groups := groups[owner := groups[owner] + {outer}];
      forall g, p | g in automatic
        ensures p in groups[g] <==> Rule(p, g) in rules[..i + 1] || (p in automatic[g] && !Covered(rules[..i + 1], p))
      {
        AppliedStep(rules, i, g, p);
      }
    }
    assert rules[..|rules|] == rules;
  }

  lemma AppliedStep(rules: seq<Rule>, i: nat, g: string, p: Prefix)
    requires OuterFirst(rules) && i < |rules|
    ensures Rule(p, g) in rules[..i + 1] <==> Rule(p, g) in rules[..i] || Rule(p, g) == rules[i]
    ensures Covered(rules[..i + 1], p) <==> Covered(rules[..i], p) || Contains(rules[i].prefix, p)
    ensures Rule(p, g) in rules[..i] ==> !Contains(rules[i].prefix, p)
  {
    assert rules[..i + 1] == rules[..i] + [rules[i]];
    if Covered(rules[..i], p) {
      var k :| 0 <= k < i && Contains(rules[..i][k].prefix, p);
      assert Contains(rules[..i + 1][k].prefix, p);
    }
    if Contains(rules[i].prefix, p) { assert Contains(rules[..i + 1][i].prefix, p); }
    if Covered(rules[..i + 1], p) {
      var k :| 0 <= k < i + 1 && Contains(rules[..i + 1][k].prefix, p);
      if k < i { assert Contains(rules[..i][k].prefix, p); }
    }
  }

  /** The maintained prefixes of every group, sorted. */
  method SortMaintained(names: seq<string>, overrides: map<string, set<Prefix>>)
    returns (manual: map<string, seq<Prefix>>)
    ensures forall g :: g in manual ==> Sorted(manual[g])
    ensures forall g, p :: g in names ==> (p in Listed(manual, g) <==> Maintains(overrides, g, p))
  {
    manual := map[];
    for i := 0 to |names|
      invariant forall g :: g in manual ==> Sorted(manual[g])
      invariant forall g, p :: g in names[..i] ==> (p in Listed(manual, g) <==> Maintains(overrides, g, p))
    {
      var networks := if names[i] in overrides then overrides[names[i]] else {};
      var sorted := SortNetworks(networks);
      manual := manual[names[i] := sorted];
      assert names[..i + 1] == names[..i] + [names[i]];
    }
    assert names[..|names|] == names;
  }

  lemma {:induction false} FlattenMembers(names: seq<string>, manual: map<string, seq<Prefix>>)
    ensures forall g, p :: Rule(p, g) in Flatten(names, manual) <==> g in names && p in Listed(manual, g)
  {
    if names != [] {
      var front, last := names[..|names| - 1], names[|names| - 1];
      FlattenMembers(front, manual);
      assert names == front + [last];
      var mine := Listed(manual, last);
      forall g, p ensures Rule(p, g) in RulesOf(last, mine) <==> g == last && p in mine {
        RulesOfMembers(last, mine, Rule(p, g));
      }
    }
  }

  lemma RulesOfMembers(g: string, prefixes: seq<Prefix>, r: Rule)
    ensures r in RulesOf(g, prefixes) <==> r.group == g && r.prefix in prefixes
  {
    if r.group == g && r.prefix in prefixes {
      var i :| 0 <= i < |prefixes| && prefixes[i] == r.prefix;
      assert RulesOf(g, prefixes)[i] == r;
    }
  }

  /** The flattened list says the same as the sets it came from. */
  ghost predicate ListsMaintained(rules: seq<Rule>, overrides: map<string, set<Prefix>>) {
    forall g, p :: Rule(p, g) in rules <==> Maintains(overrides, g, p)
  }

  lemma SameConflicts(rules: seq<Rule>, overrides: map<string, set<Prefix>>)
    requires ListsMaintained(rules, overrides)
    ensures Conflicting(rules) <==> Overlapping(overrides)
  {
    if Conflicting(rules) {
      var i, j :| 0 <= i < j < |rules| && Clash(rules[j], rules[i]);
      assert Rule(rules[i].prefix, rules[i].group) in rules && Rule(rules[j].prefix, rules[j].group) in rules;
    }
    if Overlapping(overrides) {
      var g, h, p, q :| Maintains(overrides, g, p) && Maintains(overrides, h, q) && Clash(Rule(p, g), Rule(q, h));
      assert Rule(p, g) in rules && Rule(q, h) in rules;
      var i :| 0 <= i < |rules| && rules[i] == Rule(p, g);
      var j :| 0 <= j < |rules| && rules[j] == Rule(q, h);
      if i < j { assert Clash(rules[j], rules[i]); } else { assert Clash(rules[i], rules[j]); }
    }
  }

  lemma SameCover(rules: seq<Rule>, overrides: map<string, set<Prefix>>, p: Prefix)
    requires ListsMaintained(rules, overrides)
    ensures Covered(rules, p) <==> Covers(overrides, p)
  {
    if i :| 0 <= i < |rules| && Contains(rules[i].prefix, p) {
      assert Rule(rules[i].prefix, rules[i].group) in rules;
    }
    if g, m :| Maintains(overrides, g, m) && Contains(m, p) {
      assert Rule(m, g) in rules;
      var i :| 0 <= i < |rules| && rules[i] == Rule(m, g);
    }
  }

  /** The flattened list of sorted maintained prefixes: what it holds, when it conflicts and how it is ordered. */
  lemma MaintainedList(names: seq<string>, manual: map<string, seq<Prefix>>, overrides: map<string, set<Prefix>>)
    requires Enumerates(names, set g | g in names) && overrides.Keys <= set g | g in names
    requires forall g :: g in manual ==> Sorted(manual[g])
    requires forall g, p :: g in names ==> (p in Listed(manual, g) <==> Maintains(overrides, g, p))
    ensures var rules := Flatten(names, manual);
            && ListsMaintained(rules, overrides)
            && (Conflicting(rules) <==> Overlapping(overrides))
            && (!Conflicting(rules) ==> OuterFirst(rules))
            && forall i :: 0 <= i < |rules| ==> rules[i].group in names
  {
    var rules := Flatten(names, manual);
    FlattenMembers(names, manual);
    assert ListsMaintained(rules, overrides);
    SameConflicts(rules, overrides);
    if !Conflicting(rules) { MaintainedOuterFirst(names, manual); }
    forall i | 0 <= i < |rules| ensures rules[i].group in names { FlattenGroups(names, manual, i); }
  }

  /** Sorts every group of the result. */
  method SortGroups(names: seq<string>, groups: map<string, set<Prefix>>) returns (doc: map<string, seq<Prefix>>)
    requires Enumerates(names, groups.Keys)
    ensures doc.Keys == groups.Keys && forall g :: g in doc ==> Sorted(doc[g])
    ensures forall g, p :: g in groups ==> (p in doc[g] <==> p in groups[g])
  {
    doc := map[];
    for i := 0 to |names|
      invariant forall g :: g in doc <==> g in names[..i]
      invariant forall g :: g in doc ==> Sorted(doc[g])
      invariant forall g, p :: g in doc ==> g in groups && (p in doc[g] <==> p in groups[g])
    {
      var sorted := SortNetworks(groups[names[i]]);
      doc := doc[names[i] := sorted];
      assert names[..i + 1] == names[..i] + [names[i]];
    }
    assert names[..|names|] == names;
  }

  /** The document holds for every group, sorted, exactly what is kept for it. */
  ghost predicate Resolved(automatic: map<string, set<Prefix>>, ordered: seq<string>,
                           overrides: map<string, set<Prefix>>,
                           doc: map<string, seq<Prefix>>)
    requires Known(ordered, automatic)
  {
    && doc.Keys == automatic.Keys
    && (forall g :: g in doc ==> Sorted(doc[g]))
    && forall g, p :: g in automatic ==> (p in doc[g] <==> Kept(automatic, ordered, overrides, g, p))
  }

  /** resolve_prefix_groups. `names` are the groups in document order, `others` those without a priority in
      order of their names. It fails exactly when an override names an unknown group or two groups
      maintain overlapping prefixes, and otherwise returns, sorted, exactly what Kept says. */
  method ResolvePrefixGroups(names: seq<string>, priority: seq<string>, others: seq<string>,
                             automatic: map<string, set<Prefix>>, overrides: map<string, set<Prefix>>)
    returns (r: Option<map<string, seq<Prefix>>>)
    requires Enumerates(names, automatic.Keys)
    requires forall g :: g in others <==> g in automatic && g !in priority
    ensures r.Some? <==> overrides.Keys <= automatic.Keys && !Overlapping(overrides)
    ensures Known(Ordered(priority, automatic.Keys, others), automatic)
    ensures r.Some? ==> Resolved(automatic, Ordered(priority, automatic.Keys, others), overrides, r.value)
  {
    ghost var ordered := Ordered(priority, automatic.Keys, others);
    OrderedMembers(priority, automatic.Keys, others);
    assert Known(ordered, automatic) by {
      forall i | 0 <= i < |ordered| ensures ordered[i] in automatic { assert ordered[i] in ordered; }
    }
    if !(overrides.Keys <= automatic.Keys) { return None; }
    var order := OrderGroups(priority, automatic.Keys, others);
    var groups := ResolveAutomatic(order, automatic);
    var claimed := MaintainedRules(names, overrides);
    if claimed.None? { return None; }
    var out := ApplyMaintained(groups, claimed.value);
    var doc := SortGroups(names, out);
    DocumentHoldsKept(automatic, ordered, overrides, claimed.value, groups, doc);
    return Some(doc);
  }

  /** The maintained prefixes of all groups, outer ones first; None when two groups maintain overlapping ones. */
  method MaintainedRules(names: seq<string>, overrides: map<string, set<Prefix>>) returns (r: Option<seq<Rule>>)
    requires Enumerates(names, set g | g in names) && overrides.Keys <= set g | g in names
    ensures r.Some? <==> !Overlapping(overrides)
    ensures r.Some? ==> ListsMaintained(r.value, overrides) && OuterFirst(r.value)
    ensures r.Some? ==> forall i :: 0 <= i < |r.value| ==> r.value[i].group in names
  {
    var manual := SortMaintained(names, overrides);
    MaintainedList(names, manual, overrides);
    r := ClaimMaintained(names, manual);
  }

  lemma DocumentHoldsKept(automatic: map<string, set<Prefix>>, ordered: seq<string>,
                          overrides: map<string, set<Prefix>>, rules: seq<Rule>,
                          groups: map<string, set<Prefix>>, doc: map<string, seq<Prefix>>)
    requires Known(ordered, automatic) && ListsMaintained(rules, overrides)
    requires groups.Keys == automatic.Keys == doc.Keys && forall g :: g in doc ==> Sorted(doc[g])
    requires forall g, p :: g in automatic ==> (p in groups[g] <==> Owns(automatic, ordered, g, p))
    requires forall g, p :: g in automatic ==>
               (p in doc[g] <==> Rule(p, g) in rules || (p in groups[g] && !Covered(rules, p)))
    ensures Resolved(automatic, ordered, overrides, doc)
  {
    forall g, p | g in automatic ensures p in doc[g] <==> Kept(automatic, ordered, overrides, g, p) {
      assert p in groups[g] <==> Owns(automatic, ordered, g, p);
      SameCover(rules, overrides, p);
    }
  }

  method OrderGroups(priority: seq<string>, groups: set<string>, others: seq<string>) returns (ordered: seq<string>)
    ensures ordered == Ordered(priority, groups, others)
  {
    ordered := others;
    var i := |priority|;
    while i > 0
      invariant 0 <= i <= |priority| && ordered == Ordered(priority[i..], groups, others)
    {
      i := i - 1;
      assert priority[i..][1..] == priority[i + 1..];
      if priority[i] in groups { ordered := [priority[i]] + ordered; }
    }
  }

  /******* What the output means for a lookup *******/

  /** Each prefix of the output has one owner. */
  lemma OneOwner(automatic: map<string, set<Prefix>>, ordered: seq<string>, overrides: map<string, set<Prefix>>,
                 doc: map<string, seq<Prefix>>, p: Prefix, g: string, h: string)
    requires Known(ordered, automatic) && Resolved(automatic, ordered, overrides, doc) && !Overlapping(overrides)
    requires g in doc && h in doc && p in doc[g] && p in doc[h]
    ensures g == h
  {
    assert Kept(automatic, ordered, overrides, g, p) && Kept(automatic, ordered, overrides, h, p);
    MaintainedCovers(overrides, g, p);
    MaintainedCovers(overrides, h, p);
    if Maintains(overrides, g, p) && Maintains(overrides, h, p) { assert !Clash(Rule(p, g), Rule(p, h)); }
  }

  lemma MaintainedCovers(overrides: map<string, set<Prefix>>, g: string, p: Prefix)
    ensures Maintains(overrides, g, p) ==> Covers(overrides, p)
  {
    assert Contains(p, p);
  }

  /** The generator's own output always compiles: no prefix is listed twice. */
  lemma {:induction false} GeneratedCompiles(automatic: map<string, set<Prefix>>, ordered: seq<string>,
                                             overrides: map<string, set<Prefix>>, doc: map<string, seq<Prefix>>,
                                             order: seq<string>)
    requires Known(ordered, automatic) && Resolved(automatic, ordered, overrides, doc) && !Overlapping(overrides)
    requires DistinctNames(order)
    ensures Distinct(Flatten(order, doc))
  {
    if order != [] {
      var front, g := order[..|order| - 1], order[|order| - 1];
      var head, all := Flatten(front, doc), Flatten(order, doc);
      GeneratedCompiles(automatic, ordered, overrides, doc, front);
      forall i, j | 0 <= i < j < |all| ensures all[i].prefix != all[j].prefix {
        if j < |head| {
          assert all[i] == head[i] && all[j] == head[j];
        } else if i < |head| {
          FlattenGroups(front, doc, i);
          AcrossGroups(automatic, ordered, overrides, doc, all[i].prefix, head[i].group, g, j - |head|);
        } else {
          assert Sorted(doc[g]);
        }
      }
    }
  }

  lemma AcrossGroups(automatic: map<string, set<Prefix>>, ordered: seq<string>, overrides: map<string, set<Prefix>>,
                     doc: map<string, seq<Prefix>>, p: Prefix, h: string, g: string, j: nat)
    requires Known(ordered, automatic) && Resolved(automatic, ordered, overrides, doc) && !Overlapping(overrides)
    requires p in Listed(doc, h) && h != g && j < |Listed(doc, g)|
    ensures p != Listed(doc, g)[j]
  {
    if p == Listed(doc, g)[j] {
      OneOwner(automatic, ordered, overrides, doc, p, h, g);
    }
  }

  /** Any output prefix inside a maintained one is maintained too, by the same group. */
  lemma InsideMaintained(automatic: map<string, set<Prefix>>, ordered: seq<string>, overrides: map<string, set<Prefix>>,
                         doc: map<string, seq<Prefix>>, g: string, m: Prefix, r: Rule)
    requires Known(ordered, automatic) && Resolved(automatic, ordered, overrides, doc) && !Overlapping(overrides)
    requires Maintains(overrides, g, m) && Contains(m, r.prefix) && r.group in doc && r.prefix in doc[r.group]
    ensures r.group == g
  {
    assert Kept(automatic, ordered, overrides, r.group, r.prefix);
    assert Covers(overrides, r.prefix);
    assert Maintains(overrides, r.group, r.prefix);
    assert !Clash(Rule(m, g), Rule(r.prefix, r.group));
  }

  /** The rules the panel compiles from the output: `order` lists its groups, each once. */
  predicate Compiled(order: seq<string>, doc: map<string, seq<Prefix>>) {
    Enumerates(order, doc.Keys) && "" !in order
  }

  lemma CompiledRules(order: seq<string>, doc: map<string, seq<Prefix>>)
    requires Compiled(order, doc)
    ensures Named(Flatten(order, doc))
    ensures forall g, p :: Rule(p, g) in Flatten(order, doc) <==> g in doc && p in doc[g]
  {
    FlattenMembers(order, doc);
    forall i | 0 <= i < |Flatten(order, doc)| ensures Flatten(order, doc)[i].group != "" {
      FlattenGroups(order, doc, i);
    }
  }

  /** Every address inside a maintained prefix resolves to the group that maintains it, in the rules that
      the panel compiles from the output; and the match is at least as long as the maintained prefix. */
  lemma MaintainedAddressResolves(automatic: map<string, set<Prefix>>, ordered: seq<string>,
                                  overrides: map<string, set<Prefix>>, doc: map<string, seq<Prefix>>,
                                  order: seq<string>, g: string, m: Prefix, a: Prefix)
    requires Known(ordered, automatic) && Resolved(automatic, ordered, overrides, doc) && !Overlapping(overrides)
    requires Compiled(order, doc) && g in doc && Maintains(overrides, g, m) && Contains(m, a)
    ensures Match(Flatten(order, doc), a) == g && MatchLength(Flatten(order, doc), a) >= |m.bits|
  {
    var rules := Flatten(order, doc);
    GeneratedCompiles(automatic, ordered, overrides, doc, order);
    CompiledRules(order, doc);
    assert Kept(automatic, ordered, overrides, g, m);
    assert Rule(m, g) in rules;
    var i :| 0 <= i < |rules| && rules[i] == Rule(m, g);
    BestLengthAtLeast(rules, a, |a.bits|, i);
    var k := LongestExists(rules, a, i);
    MatchIsLongest(rules, a);
    assert Rule(rules[k].prefix, rules[k].group) in rules;
    NestedPrefixes(m, rules[k].prefix, a);
    InsideMaintained(automatic, ordered, overrides, doc, g, m, rules[k]);
  }

  /** After merging with any base document, an address inside a maintained prefix still resolves to its
      group, unless a base rule of at least that length contains the address. */
  lemma MaintainedAfterMerge(automatic: map<string, set<Prefix>>, ordered: seq<string>,
                             overrides: map<string, set<Prefix>>, doc: map<string, seq<Prefix>>,
                             order: seq<string>, base: seq<Rule>, g: string, m: Prefix, a: Prefix)
    requires Known(ordered, automatic) && Resolved(automatic, ordered, overrides, doc) && !Overlapping(overrides)
    requires Compiled(order, doc) && g in doc && Maintains(overrides, g, m) && Contains(m, a)
    requires Distinct(base) && Named(base)
    requires forall i :: 0 <= i < |base| && Contains(base[i].prefix, a) ==> |base[i].prefix.bits| < |m.bits|
    ensures Match(Merge(base, Flatten(order, doc)), a) == g
  {
    GeneratedCompiles(automatic, ordered, overrides, doc, order);
    CompiledRules(order, doc);
    MaintainedAddressResolves(automatic, ordered, overrides, doc, order, g, m, a);
    MatchLengthIff(base, a, |m.bits|);
    MergedMatch(base, Flatten(order, doc), a);
  }

  lemma NestedPrefixes(p: Prefix, q: Prefix, a: Prefix)
    requires Contains(p, a) && Contains(q, a) && |p.bits| <= |q.bits|
    ensures Contains(p, q)
  {
    assert p.bits == a.bits[..|p.bits|] && q.bits == a.bits[..|q.bits|];
    assert q.bits[..|p.bits|] == p.bits;
  }
}
