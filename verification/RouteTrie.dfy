/** The bit trie that answers longest-prefix matches, as linked nodes updated in place. */
module RouteTrie {
  import opened RoutePrefixes

  class Node {
    var zero: Node?
    var one: Node?
    var group: string
    ghost const at: Prefix

    constructor (ghost at: Prefix)
      ensures zero == null && one == null && group == "" && this.at == at
    {
      this.at := at;
      zero, one, group := null, null, "";
    }

    function Child(b: bool): Node?
      reads this
    {
      if b then one else zero
    }
  }

  /** The node is linked to exactly those of its children that the index holds. */
  ghost predicate Linked(index: map<Prefix, Node>, p: Prefix)
    requires p in index
    reads index[p]
  {
    && index[p].at == p
    && (forall b: bool :: index[p].Child(b) == if Extend(p, b) in index then index[Extend(p, b)] else null)
  }

  class PrefixMatcher {
    var v4: Node?
    var v6: Node?
    /** Every node by the prefix its path from the root spells. */
    ghost var index: map<Prefix, Node>

    function Root(f: Family): Node?
      reads this
    {
      if f.V4? then v4 else v6
    }

    ghost predicate Rooted()
      reads this
    {
      forall f: Family :: Root(f) == if Prefix(f, []) in index then index[Prefix(f, [])] else null
    }

    ghost predicate Valid()
      reads this, index.Values
    {
      && Rooted()
      && (forall p :: p in index ==> Linked(index, p))
      && Closed(index)
    }

    ghost function GroupAt(p: Prefix): string
      reads this, index.Values
    {
      if p in index then index[p].group else ""
    }

    constructor ()
      ensures Valid() && index == map[]
    {
      v4, v6 := null, null;
      index := map[];
    }

    /** The root of a family, created on first use. */
    method EnsureRoot(f: Family) returns (node: Node)
      requires Valid()
      modifies this
      ensures Valid() && Grown(old(index), index)
      ensures Prefix(f, []) in index && node == index[Prefix(f, [])]
      ensures forall p :: p in index && p !in old(index) ==> fresh(index[p]) && index[p].group == ""
    {
      var root := Root(f);
      if root != null { return root; }
      var p := Prefix(f, []);
      node := new Node(p);
      if f.V4? { v4 := node; } else { v6 := node; }
      ghost var was := index;
      index := index[p := node];
      NothingBelow(was, p);
      forall q | q in index ensures Linked(index, q) { if q != p { assert Linked(was, q); } }
      forall q, n: nat | q in index && n <= |q.bits| ensures Front(q, n) in index {
        if q != p { assert Front(q, n) in was; }
      }
    }

    /** The child of a node, created on first use. */
    method EnsureChild(ghost p: Prefix, node: Node, b: bool) returns (child: Node)
      requires Valid() && p in index && index[p] == node
      modifies this`index, node`zero, node`one
      ensures Valid() && Grown(old(index), index)
      ensures Extend(p, b) in index && child == index[Extend(p, b)]
      ensures forall q :: q in index && q !in old(index) ==> fresh(index[q]) && index[q].group == ""
    {
      assert Linked(index, p);
      var existing := node.Child(b);
      if existing != null { return existing; }
      ghost var e := Extend(p, b);
      child := new Node(e);
      if b { node.one := child; } else { node.zero := child; }
      ghost var was := index;
      index := index[e := child];
      NothingBelow(was, e);
      forall q | q in index ensures Linked(index, q) {
        forall c { ExtendInjective(q, c, p, b); }
        if q != e && q != p { assert old(Linked(index, q)) && index[q].at == q; }
      }
      forall q, n: nat | q in index && n <= |q.bits| ensures Front(q, n) in index {
        if q != e { assert Front(q, n) in was; } else { FrontOfExtended(p, b, n); }
      }
    }

    /** Walks down the bits of a prefix, creating what is missing. */
    method Descend(p: Prefix) returns (node: Node)
      requires Valid()
      modifies this, index.Values
      ensures Valid() && Grown(old(index), index) && fresh(index.Values - old(index.Values))
      ensures p in index && node == index[p]
      ensures forall q :: q in index ==> index[q].group == if q in old(index) then old(index[q].group) else ""
    {
      node := EnsureRoot(p.family);
      for bit := 0 to |p.bits|
        invariant Valid() && Grown(old(index), index)
        invariant Front(p, bit) in index && node == index[Front(p, bit)]
        invariant fresh(index.Values - old(index.Values))
        invariant forall q :: q in index ==> index[q].group == if q in old(index) then old(index[q].group) else ""
      {
        assert Extend(Front(p, bit), p.bits[bit]) == Front(p, bit + 1);
        node := EnsureChild(Front(p, bit), node, p.bits[bit]);
      }
      assert Front(p, |p.bits|) == p;
    }

    /** Adds one rule by naming the node of its prefix. */
    method Insert(r: Rule)
      requires Valid()
      modifies this, index.Values
      ensures Valid() && fresh(index.Values - old(index.Values))
      ensures forall p :: GroupAt(p) == if p == r.prefix then r.group else old(GroupAt(p))
    {
      var node := Descend(r.prefix);
      assert Linked(index, r.prefix);
      node.group := r.group;
      forall p | p in index ensures Linked(index, p) { }
    }

    /** Looks an address up: walk down its bits and remember the last named node. */
    method Lookup(a: Prefix, ghost rules: seq<Rule>) returns (matched: string)
      requires Valid() && forall p :: GroupAt(p) == Owner(rules, p)
      ensures matched == Match(rules, a)
    {
      var node := Root(a.family);
      assert Front(a, 0) == Prefix(a.family, []);
      if node == null {
        NoneBelow(rules, a, 0);
        return "";
      }
      matched := node.group;
      for bit := 0 to |a.bits|
        invariant Front(a, bit) in index && node == index[Front(a, bit)]
        invariant matched == Best(rules, a, bit)
      {
        assert Linked(index, Front(a, bit));
        assert Extend(Front(a, bit), a.bits[bit]) == Front(a, bit + 1);
        var child := node.Child(a.bits[bit]);
        if child == null {
          NoneBelow(rules, a, bit + 1);
          return;
        }
        node := child;
        if node.group != "" { matched := node.group; }
      }
    }

    /** Once a path leaves the index, no longer prefix of the address has a group. */
    lemma NoneBelow(rules: seq<Rule>, a: Prefix, n: nat)
      requires Valid() && forall p :: GroupAt(p) == Owner(rules, p)
      requires n <= |a.bits| && Front(a, n) !in index
      ensures Match(rules, a) == if n == 0 then "" else Best(rules, a, n - 1)
    {
      BestSkips(rules, a, n, |a.bits|);
    }

    lemma {:induction false} BestSkips(rules: seq<Rule>, a: Prefix, n: nat, m: nat)
      requires Valid() && forall p :: GroupAt(p) == Owner(rules, p)
      requires n <= m <= |a.bits| && Front(a, n) !in index
      ensures Best(rules, a, m) == if n == 0 then "" else Best(rules, a, n - 1)
      decreases m
    {
      assert Front(Front(a, m), n) == Front(a, n);
      assert Owner(rules, Front(a, m)) == GroupAt(Front(a, m)) == "";
      if n < m { BestSkips(rules, a, n, m - 1); }
    }
  }

  /** newReturnRoutePrefixMatcher: insert every rule; a later rule for the same prefix replaces the earlier. */
  method BuildMatcher(rules: seq<Rule>) returns (m: PrefixMatcher)
    ensures fresh(m) && m.Valid()
    ensures forall p :: m.GroupAt(p) == Owner(rules, p)
  {
    m := new PrefixMatcher();
    for i := 0 to |rules|
      invariant m.Valid() && fresh(m) && fresh(m.index.Values)
      invariant forall p :: m.GroupAt(p) == Owner(rules[..i], p)
    {
      m.Insert(rules[i]);
      assert rules[..i + 1] == rules[..i] + [rules[i]];
      forall p { OwnerSnoc(rules[..i], rules[i], p); }
    }
    assert rules[..|rules|] == rules;
  }

  lemma ExtendInjective(p: Prefix, b: bool, q: Prefix, c: bool)
    ensures Extend(p, b) == Extend(q, c) ==> p == q && b == c
  {
    if Extend(p, b) == Extend(q, c) {
      assert p.bits == Extend(p, b).bits[..|p.bits|] && q.bits == Extend(q, c).bits[..|q.bits|];
      assert Extend(p, b).bits[|p.bits|] == b && Extend(q, c).bits[|q.bits|] == c;
    }
  }

  lemma FrontOfExtended(p: Prefix, b: bool, n: nat)
    requires n <= |p.bits| + 1
    ensures Front(Extend(p, b), n) == if n == |p.bits| + 1 then Extend(p, b) else Front(p, n)
  {
  }

  /** The index only gains entries. */
  ghost predicate Grown(was: map<Prefix, Node>, now: map<Prefix, Node>) {
    forall p :: p in was ==> p in now && now[p] == was[p]
  }

  ghost predicate Closed(index: map<Prefix, Node>) {
    forall p, n: nat :: p in index && n <= |p.bits| ==> Front(p, n) in index
  }

  /** Nothing lies below a prefix that is not in the index itself. */
  lemma NothingBelow(index: map<Prefix, Node>, p: Prefix)
    requires Closed(index) && p !in index
    ensures forall b :: Extend(p, b) !in index
  {
    forall b ensures Extend(p, b) !in index {
      assert Front(Extend(p, b), |p.bits|) == p;
    }
  }
}
