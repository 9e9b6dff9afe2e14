/**
 The union-find inside mergeEquivalentDomainGroups (apps/api/src/services/domain-rules.ts:122-162):
 a parent map that find rewrites as it reads. No domain is the empty string, so a missing entry is
 the only one that the code takes for a missing parent.
 */
module DomainForest {
  import opened DomainGraph

  /**
   Every parent chain ends at the domain's root. There is no union by rank in the code; the ranks
   here only show that chains end, and path compression keeps them.
   */
  ghost predicate IsForest<D(!new)>(parent: map<D, D>, root: map<D, D>, rank: map<D, nat>) {
    && parent.Keys == root.Keys == rank.Keys
    && (forall d :: d in parent ==>
          && parent[d] in parent && root[d] in parent
          && root[parent[d]] == root[d]
          && parent[root[d]] == root[d]
          && root[root[d]] == root[d])
    && (forall d :: d in parent && parent[d] == d ==> root[d] == d)
    && (forall d :: d in parent && parent[d] != d ==> rank[parent[d]] < rank[d])
    && (forall d :: d in parent && root[d] != d ==> rank[root[d]] < rank[d])
  }

  /** Two domains have one root exactly when the links made so far connect them. */
  ghost predicate Tracks<D(!new)>(root: map<D, D>, links: set<set<D>>) {
    && Domains(links) == root.Keys
    && (forall a, b :: a in root && b in root ==> (root[a] == root[b] <==> Connected(links, a, b)))
  }

  ghost function Joined<D(!new)>(root: map<D, D>, a: D, b: D): (r: map<D, D>)
    ensures r.Keys == root.Keys
  {
    map d | d in root :: if root[d] == b then a else root[d]
  }

  ghost function Lifted<D(!new)>(root: map<D, D>, rank: map<D, nat>, b: D, height: nat): map<D, nat>
    requires root.Keys == rank.Keys
  {
    map d | d in root :: if root[d] == b then rank[d] + height else rank[d]
  }

  // ---------------------------------------------------------------------------------------
  // Links
  // ---------------------------------------------------------------------------------------

  lemma AddTracks<D(!new)>(root: map<D, D>, links: set<set<D>>, d: D)
    requires Tracks(root, links) && d !in root && (forall e :: e in root ==> root[e] != d)
    ensures Tracks(root[d := d], links + {{d}})
  {
    hide Linked, Connected;
    UnionDomains(links, {{d}});
    assert Domains({{d}}) == {d};
    forall a, b | a in root[d := d] && b in root[d := d]
      ensures root[d := d][a] == root[d := d][b] <==> Connected(links + {{d}}, a, b)
    {
      if a == b {
        Reflexive(links + {{d}}, a);
      } else {
        AddedPair(links, d, a, b);
      }
    }
  }

  lemma AddedPair<D(!new)>(links: set<set<D>>, d: D, a: D, b: D)
    requires a != b && d !in Domains(links)
    ensures Connected(links + {{d}}, a, b) <==> Connected(links, a, b)
    ensures Connected(links, a, b) ==> a != d && b != d
  {
    var more := links + {{d}};
    if Connected(more, a, b) {
      NewDomainLinksNothing(links, more, a, b);
    }
    if Connected(links, a, b) {
      UnionConnects(links, more, a, b);
      ConnectedAreDomains(links, a, b);
    }
  }

  lemma NewDomainLinksNothing<D(!new)>(links: set<set<D>>, more: set<set<D>>, a: D, b: D)
    requires Connected(more, a, b)
    requires forall d, e :: Linked(more, d, e) ==> d == e || Linked(links, d, e)
    ensures Connected(links, a, b)
  {
    forall d, e | Linked(more, d, e)
      ensures Connected(links, d, e)
    {
      if d == e {
        Reflexive(links, d);
      } else {
        LinkConnects(links, d, e);
      }
    }
    MonotoneConnected(more, links, a, b);
  }

  lemma ConnectedAreDomains<D(!new)>(links: set<set<D>>, a: D, b: D)
    requires Connected(links, a, b) && a != b
    ensures a in Domains(links) && b in Domains(links)
  {
    ConnectedImplies(links, (d, e) => d == e || (d in Domains(links) && e in Domains(links)), a, b);
  }

  lemma JoinTracks<D(!new)>(root: map<D, D>, links: set<set<D>>, a: D, b: D)
    requires Tracks(root, links) && a in root && b in root
    ensures Tracks(Joined(root, root[a], root[b]), links + {{a, b}})
  {
    hide Linked, Connected;
    var more, joined := links + {{a, b}}, Joined(root, root[a], root[b]);
    UnionDomains(links, {{a, b}});
    assert Domains({{a, b}}) == {a, b};
    forall x, y | x in root && y in root
      ensures joined[x] == joined[y] <==> Connected(more, x, y)
    {
      if joined[x] == joined[y] {
        SameRootConnects(root, links, a, b, x, y);
      } else if Connected(more, x, y) {
        JoinedRelates(root, links, a, b, x, y);
      }
    }
  }

  lemma SameRootConnects<D(!new)>(root: map<D, D>, links: set<set<D>>, a: D, b: D, x: D, y: D)
    requires Tracks(root, links) && a in root && b in root && x in root && y in root
    requires Joined(root, root[a], root[b])[x] == Joined(root, root[a], root[b])[y]
    ensures Connected(links + {{a, b}}, x, y)
  {
    var more := links + {{a, b}};
    assert Linked(more, a, b) && Linked(more, b, a) by {
      assert {a, b} in more;
    }
    LinkConnects(more, a, b);
    LinkConnects(more, b, a);
    if root[x] == root[y] {
      UnionConnects(links, more, x, y);
    } else {
      var s, t := if root[x] == root[b] then b else a, if root[x] == root[b] then a else b;
      UnionConnects(links, more, x, s);
      UnionConnects(links, more, t, y);
      Transitive(more, x, s, t);
      Transitive(more, x, t, y);
    }
  }

  lemma JoinedRelates<D(!new)>(root: map<D, D>, links: set<set<D>>, a: D, b: D, x: D, y: D)
    requires Tracks(root, links) && a in root && b in root && x in root && y in root
    requires Connected(links + {{a, b}}, x, y)
    ensures Joined(root, root[a], root[b])[x] == Joined(root, root[a], root[b])[y]
  {
    var more, joined := links + {{a, b}}, Joined(root, root[a], root[b]);
    forall d, e | Linked(more, d, e)
      ensures d in joined && e in joined && joined[d] == joined[e]
    {
      var l :| l in more && d in l && e in l;
      if l in links {
        assert d in Domains(links) && e in Domains(links);
        assert Linked(links, d, e);
        LinkConnects(links, d, e);
      }
    }
    ConnectedImplies(more, (d, e) => d == e || (d in joined && e in joined && joined[d] == joined[e]), x, y);
  }

  // ---------------------------------------------------------------------------------------
  // The forest
  // ---------------------------------------------------------------------------------------

  lemma Keys<D(!new)>(parent: map<D, D>, root: map<D, D>, rank: map<D, nat>)
    requires IsForest(parent, root, rank)
    ensures parent.Keys == root.Keys == rank.Keys
  {
  }

  lemma At<D(!new)>(parent: map<D, D>, root: map<D, D>, rank: map<D, nat>, d: D)
    requires IsForest(parent, root, rank) && d in parent
    ensures parent.Keys == root.Keys == rank.Keys
    ensures parent[d] in parent && root[parent[d]] == root[d]
    ensures parent[d] == d ==> root[d] == d
    ensures parent[d] != d ==> rank[parent[d]] < rank[d]
    ensures root[d] in parent && root[root[d]] == root[d]
  {
  }

  /** A domain that points to itself. */
  lemma AddKeepsForest<D(!new)>(parent: map<D, D>, root: map<D, D>, rank: map<D, nat>, d: D)
    requires IsForest(parent, root, rank) && d !in parent
    ensures IsForest(parent[d := d], root[d := d], rank[d := 0])
    ensures forall e :: e in root ==> root[e] != d
  {
  }

  /** Path compression: the domain points to its root. */
  lemma CompressKeepsForest<D(!new)>(parent: map<D, D>, root: map<D, D>, rank: map<D, nat>, d: D)
    requires IsForest(parent, root, rank) && d in parent
    ensures IsForest(parent[d := root[d]], root, rank)
  {
  }

  lemma JoinKeepsForest<D(!new)>(parent: map<D, D>, root: map<D, D>, rank: map<D, nat>, a: D, b: D)
    requires IsForest(parent, root, rank) && a in parent && b in parent && a != b && root[a] == a && root[b] == b
    ensures IsForest(parent[b := a], Joined(root, a, b), Lifted(root, rank, b, rank[a] + 1))
  {
  }

  lemma JoiningNothing<D(!new)>(root: map<D, D>, a: D)
    ensures Joined(root, a, a) == root
  {
  }

  class Forest<D(==, !new)> {
    var parent: map<D, D>
    ghost var root: map<D, D>
    ghost var rank: map<D, nat>
    ghost var links: set<set<D>>

    constructor ()
      ensures Valid() && parent == map[] && links == {}
    {
      parent, root, rank, links := map[], map[], map[], {};
    }

    ghost predicate Valid()
      reads this
    {
      IsForest(parent, root, rank) && Tracks(root, links)
    }

    /** Finding changes nobody's root; a domain seen for the first time becomes its own. */
    method Find(domain: D) returns (found: D)
      requires Valid()
      modifies this
      ensures Valid()
      ensures root == if domain in old(root) then old(root) else old(root)[domain := domain]
      ensures links == if domain in old(root) then old(links) else old(links) + {{domain}}
      ensures rank == if domain in old(root) then old(rank) else old(rank)[domain := 0]
      ensures found == root[domain] && parent[domain] == found
      decreases if domain in parent then rank[domain] else 0
    {
      hide IsForest, Tracks;
      Keys(parent, root, rank);
      if domain !in parent {
        AddKeepsForest(parent, root, rank, domain);
        AddTracks(root, links, domain);
        parent, root, rank, links :=
          parent[domain := domain], root[domain := domain], rank[domain := 0], links + {{domain}};
        return domain;
      }
      At(parent, root, rank, domain);
      var current := parent[domain];
      if current == domain {
        return domain;
      }
      found := Find(current);
      Keys(parent, root, rank);
      CompressKeepsForest(parent, root, rank, domain);
      parent := parent[domain := found];
    }

    /** Links the two domains. */
    method Union(a: D, b: D)
      requires Valid()
      modifies this
      ensures Valid()
      ensures root.Keys == old(root).Keys + {a, b}
      ensures links >= old(links) + {{a, b}} && links <= old(links) + {{a}, {b}, {a, b}}
    {
      hide IsForest, Tracks, Lifted, Joined;
      Keys(parent, root, rank);
      var rootA := Find(a);
      Keys(parent, root, rank);
      var rootB := Find(b);
      Keys(parent, root, rank);
      At(parent, root, rank, a);
      At(parent, root, rank, b);
      JoinTracks(root, links, a, b);
      if rootA == rootB {
        JoiningNothing(root, rootA);
      } else {
        JoinKeepsForest(parent, root, rank, rootA, rootB);
        parent, root, rank := parent[rootB := rootA], Joined(root, rootA, rootB), Lifted(root, rank, rootB, rank[rootA] + 1);
      }
      links := links + {{a, b}};
    }
  
    /** Links the first domain of the group to each of the others. */
    method LinkGroup(group: seq<D>)
      requires Valid() && group != []
      modifies this
      ensures Valid()
      ensures root.Keys == old(root).Keys + Elements(group)
      ensures old(links) <= links && forall l :: l in links ==> l in old(links) || l <= Elements(group)
      ensures forall a, b :: a in group && b in group ==> Connected(links, a, b)
    {
      hide IsForest, Tracks, Linked, Connected;
      Keys(parent, root, rank);
      var first := group[0];
      var _ := Find(first);
      Reflexive(links, first);
      var i := 1;
      while i < |group|
        invariant Valid() && 1 <= i <= |group|
        invariant root.Keys == old(root).Keys + Elements(group[..i])
        invariant old(links) <= links && forall l :: l in links ==> l in old(links) || l <= Elements(group)
        invariant forall a :: a in group[..i] ==> Connected(links, first, a)
      {
        ghost var before := links;
        Union(first, group[i]);
        FirstReaches(before, links, first, group[..i], group[i]);
        assert group[..i + 1] == group[..i] + [group[i]];
        i := i + 1;
      }
      assert group[..i] == group;
      AllReach(links, first, group);
    }
  }

  ghost function Elements<D(!new)>(group: seq<D>): set<D> {
    set d | d in group
  }

  lemma FirstReaches<D(!new)>(before: set<set<D>>, links: set<set<D>>, first: D, done: seq<D>, next: D)
    requires before + {{first, next}} <= links
    requires forall a :: a in done ==> Connected(before, first, a)
    ensures forall a :: a in done + [next] ==> Connected(links, first, a)
  {
    forall a | a in done + [next]
      ensures Connected(links, first, a)
    {
      if a in done {
        UnionConnects(before, links, first, a);
      } else {
        assert {first, next} in links;
        assert Linked(links, first, next);
        LinkConnects(links, first, next);
      }
    }
  }

  lemma AllReach<D(!new)>(links: set<set<D>>, first: D, group: seq<D>)
    requires forall a :: a in group ==> Connected(links, first, a)
    ensures forall a, b :: a in group && b in group ==> Connected(links, a, b)
  {
    forall a, b | a in group && b in group
      ensures Connected(links, a, b)
    {
      Symmetric(links, first, a);
      Transitive(links, a, first, b);
    }
  }
}
