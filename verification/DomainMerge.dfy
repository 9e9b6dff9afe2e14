/**
 mergeEquivalentDomainGroups (apps/api/src/services/domain-rules.ts:122-162) from the linked forest
 to the groups it returns. Sorting is left out: a result is any order of the same groups.
 */
module DomainMerge {
  import opened DomainGraph
  import opened DomainForest

  ghost function GroupSets<D(!new)>(groups: seq<seq<D>>): set<set<D>> {
    set g | g in groups :: Elements(g)
  }

  predicate Distinct<D(==)>(group: seq<D>) {
    forall i, j :: 0 <= i < j < |group| ==> group[i] != group[j]
  }

  /** What both normalisers hand on: at least two domains a group, none of them twice. */
  predicate Normalized<D(==)>(groups: seq<seq<D>>) {
    forall g :: g in groups ==> |g| >= 2 && Distinct(g)
  }

  /** The links made for some groups connect what those groups connect. */
  ghost predicate Spans<D(!new)>(links: set<set<D>>, groups: set<set<D>>) {
    && Domains(links) == Domains(groups)
    && (forall a, b :: Linked(links, a, b) ==> Connected(groups, a, b))
    && (forall a, b :: Linked(groups, a, b) ==> Connected(links, a, b))
  }

  lemma SpansConnects<D(!new)>(links: set<set<D>>, groups: set<set<D>>, a: D, b: D)
    requires Spans(links, groups)
    ensures Connected(links, a, b) <==> Connected(groups, a, b)
  {
    if Connected(links, a, b) {
      MonotoneConnected(links, groups, a, b);
    } else if Connected(groups, a, b) {
      MonotoneConnected(groups, links, a, b);
    }
  }

  lemma SpansExtends<D(!new)>(before: set<set<D>>, links: set<set<D>>, groups: set<set<D>>, g: set<D>)
    requires Spans(before, groups) && before <= links && Domains(links) == Domains(before) + g
    requires forall l :: l in links ==> l in before || l <= g
    requires forall a, b :: a in g && b in g ==> Connected(links, a, b)
    ensures Spans(links, groups + {g})
  {
    UnionDomains(groups, {g});
    assert Domains({g}) == g;
    forall a, b | Linked(links, a, b)
      ensures Connected(groups + {g}, a, b)
    {
      var l :| l in links && a in l && b in l;
      if l in before {
        assert Linked(before, a, b);
        UnionConnects(groups, groups + {g}, a, b);
      } else {
        assert Linked(groups + {g}, a, b);
        LinkConnects(groups + {g}, a, b);
      }
    }
    forall a, b | Linked(groups + {g}, a, b)
      ensures Connected(links, a, b)
    {
      var h :| h in groups + {g} && a in h && b in h;
      if h in groups {
        assert Linked(groups, a, b);
        UnionConnects(before, links, a, b);
      }
    }
  }

  method LinkGroups<D(==, !new)>(groups: seq<seq<D>>) returns (forest: Forest<D>)
    requires Normalized(groups)
    ensures fresh(forest) && forest.Valid()
    ensures Spans(forest.links, GroupSets(groups))
  {
    hide IsForest, Tracks, Linked, Connected, Spans;
    forest := new Forest();
    var i := 0;
    NothingSpans<D>();
    assert GroupSets<D>(groups[..0]) == {};
    while i < |groups|
      invariant 0 <= i <= |groups| && fresh(forest) && forest.Valid()
      invariant Spans(forest.links, GroupSets(groups[..i]))
    {
      if |groups[i]| >= 2 {
        ghost var before, root := forest.links, forest.root;
        forest.LinkGroup(groups[i]);
        TracksDomains(root, before);
        TracksDomains(forest.root, forest.links);
        SpansExtends(before, forest.links, GroupSets(groups[..i]), Elements(groups[i]));
      }
      assert groups[..i + 1] == groups[..i] + [groups[i]];
      assert GroupSets(groups[..i + 1]) == GroupSets(groups[..i]) + {Elements(groups[i])};
      i := i + 1;
    }
    assert groups[..i] == groups;
  }

  lemma NothingSpans<D(!new)>()
    ensures Spans<D>({}, {})
  {
  }

  lemma TracksDomains<D(!new)>(root: map<D, D>, links: set<set<D>>)
    requires Tracks(root, links)
    ensures Domains(links) == root.Keys
  {
  }

  // ---------------------------------------------------------------------------------------
  // The component pass
  // ---------------------------------------------------------------------------------------

  /** The domains seen so far, each in the list of its root. */
  ghost predicate Sorted<D(!new)>(components: map<D, seq<D>>, root: map<D, D>, seen: set<D>) {
    && (forall r :: r in components ==> components[r] != [] && Distinct(components[r]))
    && (forall r, d :: r in components && d in components[r] ==> d in seen && d in root && root[d] == r)
    && (forall d :: d in seen ==> d in root && root[d] in components && d in components[root[d]])
  }

  lemma SortedExtends<D(!new)>(components: map<D, seq<D>>, root: map<D, D>, seen: set<D>, d: D)
    requires Sorted(components, root, seen) && d in root && d !in seen
    ensures var group := if root[d] in components then components[root[d]] else [];
            Sorted(components[root[d] := group + [d]], root, seen + {d})
  {
  }

  method CollectComponents<D(==, !new)>(forest: Forest<D>) returns (components: map<D, seq<D>>)
    requires forest.Valid()
    modifies forest
    ensures forest.links == old(forest.links) && forest.root == old(forest.root)
    ensures Sorted(components, forest.root, forest.root.Keys)
  {
    hide IsForest, Tracks;
    Keys(forest.parent, forest.root, forest.rank);
    components := map[];
    var rest := forest.parent.Keys;
    while rest != {}
      invariant forest.Valid() && forest.links == old(forest.links) && forest.root == old(forest.root)
      invariant rest <= forest.root.Keys
      invariant Sorted(components, forest.root, forest.root.Keys - rest)
      decreases rest
    {
      hide Sorted;
      var domain :| domain in rest;
      var root := forest.Find(domain);
      var group := if root in components then components[root] else [];
      SortedExtends(components, forest.root, forest.root.Keys - rest, domain);
      assert forest.root.Keys - rest + {domain} == forest.root.Keys - (rest - {domain});
      components := components[root := group + [domain]];
      rest := rest - {domain};
    }
    assert forest.root.Keys - rest == forest.root.Keys;
  }

  // ---------------------------------------------------------------------------------------
  // The result
  // ---------------------------------------------------------------------------------------

  /** The groups list the components, each domain once. */
  ghost predicate Lists<D(!new)>(merged: seq<seq<D>>, parts: set<set<D>>) {
    && GroupSets(merged) == parts
    && (forall i :: 0 <= i < |merged| ==> Distinct(merged[i]))
    && (forall i, j :: 0 <= i < j < |merged| ==> Elements(merged[i]) !! Elements(merged[j]))
  }

  lemma SortedAreComponents<D(!new)>(
    components: map<D, seq<D>>, root: map<D, D>, links: set<set<D>>, groups: set<set<D>>)
    requires Sorted(components, root, root.Keys) && Tracks(root, links) && Spans(links, groups)
    ensures PartsOf(components, components.Keys) == Components(groups)
  {
    var parts := PartsOf(components, components.Keys);
    forall d
      ensures d in Domains(parts) <==> d in Domains(groups)
    {
      if d in root {
        assert Elements(components[root[d]]) in parts && d in Elements(components[root[d]]);
      }
    }
    forall p, a, b | p in parts && a in p && b in Domains(groups)
      ensures b in p <==> Connected(groups, a, b)
    {
      SpansConnects(links, groups, a, b);
      var r :| r in components && p == Elements(components[r]);
      assert root[a] == r;
    }
    forall p | p in parts
      ensures p != {}
    {
      var r :| r in components && p == Elements(components[r]);
      assert components[r][0] in p;
    }
    OnlyComponents(groups, parts);
  }

  /** Every component holds a whole group, so the filter on two domains drops none. */
  lemma ComponentsHaveTwo<D(!new)>(groups: seq<seq<D>>, c: set<D>)
    requires Normalized(groups) && c in Components(GroupSets(groups))
    ensures exists a, b :: a in c && b in c && a != b
  {
    var sets := GroupSets(groups);
    var a :| a in Domains(sets) && c == ComponentOf(sets, a);
    var g :| g in groups && a in Elements(g);
    GroupInsideComponent(sets, Elements(g), a);
    assert g[0] in Elements(g) && g[1] in Elements(g) && g[0] != g[1];
  }

  method MergeGroups<D(==, !new)>(groups: seq<seq<D>>) returns (merged: seq<seq<D>>)
    requires Normalized(groups)
    ensures Lists(merged, Components(GroupSets(groups))) && Normalized(merged)
  {
    hide Spans, Sorted, Tracks, IsForest, Components;
    var forest := LinkGroups(groups);
    var components := CollectComponents(forest);
    ghost var root := forest.root;
    SortedAreComponents(components, root, forest.links, GroupSets(groups));
    merged := [];
    var rest := components.Keys;
    while rest != {}
      invariant rest <= components.Keys
      invariant Lists(merged, PartsOf(components, components.Keys - rest)) && Normalized(merged)
      decreases rest
    {
      hide Lists, PartsOf, Linked, Connected;
      var r :| r in rest;
      var group := components[r];
      GroupHasTwo(groups, components, root, r);
      if |group| >= 2 {
        ListsExtends(components, root, components.Keys - rest, merged, r);
        merged := merged + [group];
      }
      assert components.Keys - rest + {r} == components.Keys - (rest - {r});
      rest := rest - {r};
    }
    assert components.Keys - rest == components.Keys;
  }

  ghost function PartsOf<D(!new)>(components: map<D, seq<D>>, roots: set<D>): set<set<D>>
    requires roots <= components.Keys
  {
    set r | r in roots :: Elements(components[r])
  }

  lemma GroupHasTwo<D(!new)>(groups: seq<seq<D>>, components: map<D, seq<D>>, root: map<D, D>, r: D)
    requires Normalized(groups) && r in components && Sorted(components, root, root.Keys)
    requires PartsOf(components, components.Keys) == Components(GroupSets(groups))
    ensures |components[r]| >= 2 && Distinct(components[r])
  {
    hide Components;
    var c := Elements(components[r]);
    assert c in Components(GroupSets(groups));
    ComponentsHaveTwo(groups, c);
  }

  lemma ListsExtends<D(!new)>(
    components: map<D, seq<D>>, root: map<D, D>, roots: set<D>, merged: seq<seq<D>>, r: D)
    requires Sorted(components, root, root.Keys) && roots <= components.Keys && r in components && r !in roots
    requires Lists(merged, PartsOf(components, roots))
    ensures Lists(merged + [components[r]], PartsOf(components, roots + {r}))
  {
    var group, after := components[r], merged + [components[r]];
    assert GroupSets(after) == GroupSets(merged) + {Elements(group)} by {
      assert after[|merged|] == group;
      assert forall g :: g in after <==> g in merged || g == group;
    }
    forall i | 0 <= i < |merged|
      ensures Elements(merged[i]) !! Elements(group)
    {
      assert Elements(merged[i]) in PartsOf(components, roots);
      var q :| q in roots && Elements(merged[i]) == Elements(components[q]);
      forall d | d in Elements(merged[i])
        ensures d !in Elements(group)
      {
        assert root[d] == q;
      }
    }
  }
}
