/** Address prefixes, ownership by rules, and longest-prefix matching (section 5.1 of RFC 4632). */
module RoutePrefixes {

  datatype Family = V4 | V6

  /** A masked prefix: only the bits that count. An address is a prefix of all its bits. */
  datatype Prefix = Prefix(family: Family, bits: seq<bool>)

  predicate Contains(p: Prefix, q: Prefix) { p.family == q.family && p.bits <= q.bits }

  predicate Overlaps(p: Prefix, q: Prefix) { Contains(p, q) || Contains(q, p) }

  function Extend(p: Prefix, b: bool): Prefix { Prefix(p.family, p.bits + [b]) }

  function Front(a: Prefix, n: nat): Prefix
    requires n <= |a.bits|
  {
    Prefix(a.family, a.bits[..n])
  }

  datatype Rule = Rule(prefix: Prefix, group: string)

  predicate Distinct(rules: seq<Rule>) {
    forall i, j :: 0 <= i < j < |rules| ==> rules[i].prefix != rules[j].prefix
  }

  predicate Named(rules: seq<Rule>) {
    forall i :: 0 <= i < |rules| ==> rules[i].group != ""
  }

  /** The group of the last rule for exactly this prefix. */
  function Owner(rules: seq<Rule>, p: Prefix): string {
    if rules == [] then ""
    else if rules[|rules| - 1].prefix == p then rules[|rules| - 1].group
    else Owner(rules[..|rules| - 1], p)
  }

  lemma {:induction false} OwnerIsRule(rules: seq<Rule>, i: nat)
    requires Distinct(rules) && i < |rules|
    ensures Owner(rules, rules[i].prefix) == rules[i].group
  {
    if i < |rules| - 1 {
      assert rules[..|rules| - 1][i] == rules[i];
      OwnerIsRule(rules[..|rules| - 1], i);
    }
  }

  lemma {:induction false} OwnerHasRule(rules: seq<Rule>, p: Prefix)
    requires Owner(rules, p) != ""
    ensures exists i :: 0 <= i < |rules| && rules[i] == Rule(p, Owner(rules, p))
  {
    if rules[|rules| - 1].prefix == p {
      assert rules[|rules| - 1] == Rule(p, Owner(rules, p));
    } else {
      OwnerHasRule(rules[..|rules| - 1], p);
      var i :| 0 <= i < |rules| - 1 && rules[..|rules| - 1][i] == Rule(p, Owner(rules, p));
      assert rules[i] == Rule(p, Owner(rules, p));
    }
  }

  /** The owner of the longest owned prefix of the address with at most n bits. */
  function Best(rules: seq<Rule>, a: Prefix, n: nat): string
    requires n <= |a.bits|
  {
    if Owner(rules, Front(a, n)) != "" then Owner(rules, Front(a, n))
    else if n == 0 then "" else Best(rules, a, n - 1)
  }

  function Match(rules: seq<Rule>, a: Prefix): string { Best(rules, a, |a.bits|) }

  predicate IsLongest(rules: seq<Rule>, a: Prefix, i: nat)
    requires i < |rules|
  {
    && Contains(rules[i].prefix, a)
    && forall j :: 0 <= j < |rules| && Contains(rules[j].prefix, a) ==>
         |rules[j].prefix.bits| <= |rules[i].prefix.bits|
  }

  lemma {:induction false} BestFinds(rules: seq<Rule>, a: Prefix, n: nat, i: nat)
    requires Distinct(rules) && Named(rules) && i < |rules| && IsLongest(rules, a, i)
    requires |rules[i].prefix.bits| <= n <= |a.bits|
    ensures Best(rules, a, n) == rules[i].group
  {
    if n == |rules[i].prefix.bits| {
      assert Front(a, n) == rules[i].prefix;
      OwnerIsRule(rules, i);
    } else {
      if Owner(rules, Front(a, n)) != "" {
        OwnerHasRule(rules, Front(a, n));
      }
      BestFinds(rules, a, n - 1, i);
    }
  }

  lemma {:induction false} BestFindsNothing(rules: seq<Rule>, a: Prefix, n: nat)
    requires n <= |a.bits| && forall i :: 0 <= i < |rules| ==> !Contains(rules[i].prefix, a)
    ensures Best(rules, a, n) == ""
  {
    if Owner(rules, Front(a, n)) != "" {
      OwnerHasRule(rules, Front(a, n));
    }
    if n > 0 { BestFindsNothing(rules, a, n - 1); }
  }

  /** For distinct prefixes the match is the group of the longest prefix that contains the address,
      and nothing exactly when no prefix does. */
  lemma MatchIsLongest(rules: seq<Rule>, a: Prefix)
    requires Distinct(rules) && Named(rules)
    ensures forall i :: 0 <= i < |rules| && IsLongest(rules, a, i) ==> Match(rules, a) == rules[i].group
    ensures Match(rules, a) == "" <==> forall i :: 0 <= i < |rules| ==> !Contains(rules[i].prefix, a)
  {
    forall i | 0 <= i < |rules| && IsLongest(rules, a, i) ensures Match(rules, a) == rules[i].group {
      BestFinds(rules, a, |a.bits|, i);
    }
    if i :| 0 <= i < |rules| && Contains(rules[i].prefix, a) {
      var k := LongestExists(rules, a, i);
      assert rules[k].group != "";
    } else {
      BestFindsNothing(rules, a, |a.bits|);
    }
  }

  lemma {:induction false} LongestExists(rules: seq<Rule>, a: Prefix, i: nat) returns (k: nat)
    requires i < |rules| && Contains(rules[i].prefix, a)
    ensures k < |rules| && IsLongest(rules, a, k)
    decreases |a.bits| - |rules[i].prefix.bits|
  {
    if j :| 0 <= j < |rules| && Contains(rules[j].prefix, a) && |rules[j].prefix.bits| > |rules[i].prefix.bits| {
      k := LongestExists(rules, a, j);
    } else {
      k := i;
    }
  }

  /******* Merging *******/

  predicate HasPrefix(rules: seq<Rule>, p: Prefix) {
    exists i :: 0 <= i < |rules| && rules[i].prefix == p
  }

  /** Base rules first, then each BGP rule whose prefix has not been seen. */
  function Merge(base: seq<Rule>, bgp: seq<Rule>): seq<Rule> {
    if bgp == [] then base else
    var merged := Merge(base, bgp[..|bgp| - 1]);
    if HasPrefix(merged, bgp[|bgp| - 1].prefix) then merged else merged + [bgp[|bgp| - 1]]
  }

  lemma {:induction false} MergeKeepsDistinct(base: seq<Rule>, bgp: seq<Rule>)
    requires Distinct(base)
    ensures Distinct(Merge(base, bgp)) && base <= Merge(base, bgp)
    ensures Named(base) && Named(bgp) ==> Named(Merge(base, bgp))
  {
    if bgp != [] {
      MergeKeepsDistinct(base, bgp[..|bgp| - 1]);
      assert Named(bgp) ==> Named(bgp[..|bgp| - 1]);
    }
  }

  lemma NoPrefixNoOwner(rules: seq<Rule>, p: Prefix)
    requires !HasPrefix(rules, p)
    ensures Owner(rules, p) == ""
  {
    if Owner(rules, p) != "" {
      OwnerHasRule(rules, p);
    }
  }

  lemma OwnerSnoc(rules: seq<Rule>, r: Rule, p: Prefix)
    ensures Owner(rules + [r], p) == if r.prefix == p then r.group else Owner(rules, p)
  {
    assert (rules + [r])[..|rules|] == rules;
  }

  lemma {:induction false} MergedPrefixes(base: seq<Rule>, bgp: seq<Rule>, p: Prefix)
    ensures HasPrefix(Merge(base, bgp), p) <==> HasPrefix(base, p) || HasPrefix(bgp, p)
  {
    if bgp != [] {
      var front, last := bgp[..|bgp| - 1], bgp[|bgp| - 1];
      MergedPrefixes(base, front, p);
      HasPrefixSnoc(front, last, p);
      HasPrefixSnoc(Merge(base, front), last, p);
      assert bgp == front + [last];
    }
  }

  /** After merging, base rules win on equal prefixes, and every other prefix has the group of its
      only BGP rule. */
  lemma {:induction false} MergedOwner(base: seq<Rule>, bgp: seq<Rule>, p: Prefix)
    requires Distinct(base) && Distinct(bgp) && Named(bgp)
    ensures Owner(Merge(base, bgp), p) == if HasPrefix(base, p) then Owner(base, p) else Owner(bgp, p)
  {
    if bgp == [] {
      if !HasPrefix(base, p) { NoPrefixNoOwner(base, p); }
    } else {
      var front, last := bgp[..|bgp| - 1], bgp[|bgp| - 1];
      assert forall i :: 0 <= i < |front| ==> front[i] == bgp[i];
      MergedOwner(base, front, p);
      MergedPrefixes(base, front, last.prefix);
      OwnerSnoc(Merge(base, front), last, p);
      assert !HasPrefix(front, last.prefix);
    }
  }

  lemma HasPrefixSnoc(rules: seq<Rule>, r: Rule, p: Prefix)
    ensures HasPrefix(rules + [r], p) <==> HasPrefix(rules, p) || r.prefix == p
  {
    if i :| 0 <= i < |rules| && rules[i].prefix == p { assert (rules + [r])[i].prefix == p; }
    if r.prefix == p { assert (rules + [r])[|rules|].prefix == p; }
    if i :| 0 <= i < |rules + [r]| && (rules + [r])[i].prefix == p { assert i == |rules| || rules[i].prefix == p; }
  }

  /******* Matching after a merge *******/

  /** The length of the longest owned prefix of the address with at most n bits, or minus one. */
  function BestLength(rules: seq<Rule>, a: Prefix, n: nat): int
    requires n <= |a.bits|
  {
    if Owner(rules, Front(a, n)) != "" then n else if n == 0 then -1 else BestLength(rules, a, n - 1)
  }

  function MatchLength(rules: seq<Rule>, a: Prefix): int { BestLength(rules, a, |a.bits|) }

  lemma NamedOwner(rules: seq<Rule>, p: Prefix)
    requires Distinct(rules) && Named(rules)
    ensures HasPrefix(rules, p) <==> Owner(rules, p) != ""
  {
    if i :| 0 <= i < |rules| && rules[i].prefix == p {
      OwnerIsRule(rules, i);
    } else {
      NoPrefixNoOwner(rules, p);
    }
  }

  lemma {:induction false} BestOfMerge(base: seq<Rule>, bgp: seq<Rule>, a: Prefix, n: nat)
    requires Distinct(base) && Named(base) && Distinct(bgp) && Named(bgp) && n <= |a.bits|
    ensures BestLength(base, a, n) <= n && BestLength(bgp, a, n) <= n
    ensures Best(Merge(base, bgp), a, n) ==
              if BestLength(base, a, n) >= BestLength(bgp, a, n) then Best(base, a, n) else Best(bgp, a, n)
  {
    MergedOwner(base, bgp, Front(a, n));
    NamedOwner(base, Front(a, n));
    if n > 0 { BestOfMerge(base, bgp, a, n - 1); }
  }

  /** What a merged document answers: the longer of the two matches, and the base one when they tie. */
  lemma MergedMatch(base: seq<Rule>, bgp: seq<Rule>, a: Prefix)
    requires Distinct(base) && Named(base) && Distinct(bgp) && Named(bgp)
    ensures Match(Merge(base, bgp), a) ==
              if MatchLength(base, a) >= MatchLength(bgp, a) then Match(base, a) else Match(bgp, a)
  {
    BestOfMerge(base, bgp, a, |a.bits|);
  }

  lemma {:induction false} BestLengthAtLeast(rules: seq<Rule>, a: Prefix, n: nat, i: nat)
    requires Distinct(rules) && Named(rules) && i < |rules| && Contains(rules[i].prefix, a)
    requires |rules[i].prefix.bits| <= n <= |a.bits|
    ensures BestLength(rules, a, n) >= |rules[i].prefix.bits|
  {
    if n == |rules[i].prefix.bits| {
      assert Front(a, n) == rules[i].prefix;
      OwnerIsRule(rules, i);
    } else {
      BestLengthAtLeast(rules, a, n - 1, i);
    }
  }

  lemma {:induction false} BestLengthBelow(rules: seq<Rule>, a: Prefix, n: nat, length: int)
    requires n <= |a.bits| && length >= 0
    requires forall i :: 0 <= i < |rules| && Contains(rules[i].prefix, a) ==> |rules[i].prefix.bits| < length
    ensures BestLength(rules, a, n) < length
  {
    if Owner(rules, Front(a, n)) != "" {
      OwnerHasRule(rules, Front(a, n));
      var i :| 0 <= i < |rules| && rules[i] == Rule(Front(a, n), Owner(rules, Front(a, n)));
      assert Contains(rules[i].prefix, a);
    } else if n > 0 {
      BestLengthBelow(rules, a, n - 1, length);
    }
  }

  /** The length of the match is at least some length exactly when a rule of that length or more contains
      the address. */
  lemma MatchLengthIff(rules: seq<Rule>, a: Prefix, length: nat)
    requires Distinct(rules) && Named(rules)
    ensures MatchLength(rules, a) >= length <==>
              exists i :: 0 <= i < |rules| && Contains(rules[i].prefix, a) && |rules[i].prefix.bits| >= length
  {
    if i :| 0 <= i < |rules| && Contains(rules[i].prefix, a) && |rules[i].prefix.bits| >= length {
      BestLengthAtLeast(rules, a, |a.bits|, i);
    } else {
      BestLengthBelow(rules, a, |a.bits|, length);
    }
  }
}
