/**
 What it means for domains to be equivalent: groups link their members, and chains of overlapping
 groups link domains that share no group. The union-find of domain-rules.ts is proved against this.
 */
module DomainGraph {
  ghost predicate Linked<D(!new)>(groups: set<set<D>>, a: D, b: D) {
    exists g :: g in groups && a in g && b in g
  }

  ghost predicate Chain<D(!new)>(groups: set<set<D>>, path: seq<D>) {
    && path != []
    && forall i :: 0 <= i < |path| - 1 ==> Linked(groups, path[i], path[i + 1])
  }

  ghost predicate ChainFrom<D(!new)>(groups: set<set<D>>, path: seq<D>, a: D, b: D) {
    Chain(groups, path) && path[0] == a && path[|path| - 1] == b
  }

  ghost predicate Connected<D(!new)>(groups: set<set<D>>, a: D, b: D) {
    exists path :: ChainFrom(groups, path, a, b)
  }

  ghost function Domains<D(!new)>(groups: set<set<D>>): set<D> {
    set g, d | g in groups && d in g :: d
  }

  ghost function ComponentOf<D(!new)>(groups: set<set<D>>, a: D): set<D> {
    set b | b in Domains(groups) && Connected(groups, a, b)
  }

  ghost function Components<D(!new)>(groups: set<set<D>>): set<set<D>> {
    set a | a in Domains(groups) :: ComponentOf(groups, a)
  }

  // ---------------------------------------------------------------------------------------
  // Connection is the equivalence that the groups generate
  // ---------------------------------------------------------------------------------------

  lemma Reflexive<D(!new)>(groups: set<set<D>>, a: D)
    ensures Connected(groups, a, a)
  {
    assert ChainFrom(groups, [a], a, a);
  }

  lemma LinkConnects<D(!new)>(groups: set<set<D>>, a: D, b: D)
    requires Linked(groups, a, b)
    ensures Connected(groups, a, b)
  {
    assert ChainFrom(groups, [a, b], a, b);
  }

  lemma Transitive<D(!new)>(groups: set<set<D>>, a: D, b: D, c: D)
    requires Connected(groups, a, b) && Connected(groups, b, c)
    ensures Connected(groups, a, c)
  {
    var p :| ChainFrom(groups, p, a, b);
    var q :| ChainFrom(groups, q, b, c);
    assert ChainFrom(groups, p + q[1..], a, c);
  }

  lemma Symmetric<D(!new)>(groups: set<set<D>>, a: D, b: D)
    requires Connected(groups, a, b)
    ensures Connected(groups, b, a)
  {
    var p :| ChainFrom(groups, p, a, b);
    var q := seq(|p|, i requires 0 <= i < |p| => p[|p| - 1 - i]);
    forall i | 0 <= i < |q| - 1
      ensures Linked(groups, q[i], q[i + 1])
    {
      assert Linked(groups, p[|p| - 2 - i], p[|p| - 1 - i]);
    }
    assert ChainFrom(groups, q, b, a);
  }

  /** What holds along every link holds along every chain: the least equivalence, not just one. */
  lemma {:induction false} ConnectedStaysTogether<D(!new)>(groups: set<set<D>>, related: (D, D) -> bool, path: seq<D>)
    requires Chain(groups, path)
    requires forall d :: related(d, d)
    requires forall d, e, f :: related(d, e) && related(e, f) ==> related(d, f)
    requires forall d, e :: Linked(groups, d, e) ==> related(d, e)
    ensures related(path[0], path[|path| - 1])
    decreases |path|
  {
    if |path| > 1 {
      var rest := path[1..];
      forall i | 0 <= i < |rest| - 1
        ensures Linked(groups, rest[i], rest[i + 1])
      {
        assert Linked(groups, path[i + 1], path[i + 2]);
      }
      ConnectedStaysTogether(groups, related, rest);
      assert Linked(groups, path[0], path[1]);
    }
  }

  lemma ConnectedImplies<D(!new)>(groups: set<set<D>>, related: (D, D) -> bool, a: D, b: D)
    requires Connected(groups, a, b)
    requires forall d :: related(d, d)
    requires forall d, e, f :: related(d, e) && related(e, f) ==> related(d, f)
    requires forall d, e :: Linked(groups, d, e) ==> related(d, e)
    ensures related(a, b)
  {
    var path :| ChainFrom(groups, path, a, b);
    ConnectedStaysTogether(groups, related, path);
  }

  // ---------------------------------------------------------------------------------------
  // Components
  // ---------------------------------------------------------------------------------------

  lemma ComponentsAreClasses<D(!new)>(groups: set<set<D>>, a: D, b: D)
    requires a in Domains(groups) && b in Domains(groups)
    ensures a in ComponentOf(groups, a)
    ensures Connected(groups, a, b) <==> ComponentOf(groups, a) == ComponentOf(groups, b)
  {
    Reflexive(groups, a);
    Reflexive(groups, b);
    if Connected(groups, a, b) {
      Symmetric(groups, a, b);
      forall c
        ensures Connected(groups, a, c) <==> Connected(groups, b, c)
      {
        if Connected(groups, a, c) {
          Transitive(groups, b, a, c);
        } else if Connected(groups, b, c) {
          Transitive(groups, a, b, c);
        }
      }
    } else {
      assert b in ComponentOf(groups, b) && b !in ComponentOf(groups, a);
    }
  }

  /**
   Components(groups) is the only partition of the domains that puts two together exactly when a
   chain links them.
   */
  lemma OnlyComponents<D(!new)>(groups: set<set<D>>, parts: set<set<D>>)
    requires Domains(parts) == Domains(groups) && {} !in parts
    requires forall p, a, b :: p in parts && a in p && b in Domains(groups) ==> (b in p <==> Connected(groups, a, b))
    ensures parts == Components(groups)
  {
    forall p | p in parts
      ensures p in Components(groups)
    {
      assert p != {};
      var a :| a in p;
      assert a in Domains(parts);
      forall b
        ensures b in p <==> b in ComponentOf(groups, a)
      {
        if b in p {
          assert b in Domains(parts);
        }
      }
      assert p == ComponentOf(groups, a);
    }
    forall c | c in Components(groups)
      ensures c in parts
    {
      var a :| a in Domains(groups) && c == ComponentOf(groups, a);
      var p :| p in parts && a in p;
      assert p <= Domains(groups) by {
        assert forall b :: b in p ==> b in Domains(parts);
      }
      assert p == c;
    }
  }

  /** More links only join components. */
  lemma MonotoneConnected<D(!new)>(groups: set<set<D>>, more: set<set<D>>, a: D, b: D)
    requires Connected(groups, a, b)
    requires forall d, e :: Linked(groups, d, e) ==> Connected(more, d, e)
    ensures Connected(more, a, b)
  {
    forall d
      ensures Connected(more, d, d)
    {
      Reflexive(more, d);
    }
    forall d, e, f | Connected(more, d, e) && Connected(more, e, f)
      ensures Connected(more, d, f)
    {
      Transitive(more, d, e, f);
    }
    ConnectedImplies(groups, (d, e) => Connected(more, d, e), a, b);
  }

  lemma UnionConnects<D(!new)>(groups: set<set<D>>, more: set<set<D>>, a: D, b: D)
    requires groups <= more && Connected(groups, a, b)
    ensures Connected(more, a, b)
  {
    forall d, e | Linked(groups, d, e)
      ensures Connected(more, d, e)
    {
      assert Linked(more, d, e);
      LinkConnects(more, d, e);
    }
    MonotoneConnected(groups, more, a, b);
  }

  lemma SameConnections<D(!new)>(groups: set<set<D>>, other: set<set<D>>)
    requires Domains(groups) == Domains(other)
    requires forall d, e :: Linked(groups, d, e) ==> Connected(other, d, e)
    requires forall d, e :: Linked(other, d, e) ==> Connected(groups, d, e)
    ensures Components(groups) == Components(other)
  {
    forall a, b
      ensures Connected(groups, a, b) <==> Connected(other, a, b)
    {
      if Connected(groups, a, b) {
        MonotoneConnected(groups, other, a, b);
      } else if Connected(other, a, b) {
        MonotoneConnected(other, groups, a, b);
      }
    }
    forall a
      ensures ComponentOf(groups, a) == ComponentOf(other, a)
    {
    }
    assert forall a :: a in Domains(groups) ==> ComponentOf(groups, a) == ComponentOf(other, a);
  }

  lemma ComponentsCoverDomains<D(!new)>(groups: set<set<D>>)
    ensures Domains(Components(groups)) == Domains(groups)
  {
    forall d | d in Domains(groups)
      ensures d in Domains(Components(groups))
    {
      Reflexive(groups, d);
      assert d in ComponentOf(groups, d);
    }
    forall d | d in Domains(Components(groups))
      ensures d in Domains(groups)
    {
    }
  }

  lemma GroupInsideComponent<D(!new)>(groups: set<set<D>>, g: set<D>, a: D)
    requires g in groups && a in g
    ensures g <= ComponentOf(groups, a) && a in Domains(groups)
  {
    forall b | b in g
      ensures b in ComponentOf(groups, a)
    {
      assert Linked(groups, a, b);
      LinkConnects(groups, a, b);
    }
  }

  // ---------------------------------------------------------------------------------------
  // Expanding custom groups through the globals
  // ---------------------------------------------------------------------------------------

  /** The components that hold a domain of interest. */
  ghost function Touching<D(!new)>(groups: set<set<D>>, domains: set<D>): set<set<D>> {
    set g | g in groups && g * domains != {}
  }

  /** The components of globals and custom groups together that hold a custom domain. */
  ghost function Expanded<D(!new)>(custom: set<set<D>>, globals: set<set<D>>): set<set<D>> {
    Touching(Components(globals + custom), Domains(custom))
  }

  lemma MergedLinksConnect<D(!new)>(custom: set<set<D>>, globals: set<set<D>>, d: D, e: D)
    requires Linked(globals + Components(custom), d, e)
    ensures Connected(globals + custom, d, e)
  {
    var g :| g in globals + Components(custom) && d in g && e in g;
    if g in globals {
      assert Linked(globals + custom, d, e);
      LinkConnects(globals + custom, d, e);
    } else {
      var a :| a in Domains(custom) && g == ComponentOf(custom, a);
      Symmetric(custom, a, d);
      Transitive(custom, d, a, e);
      UnionConnects(custom, globals + custom, d, e);
    }
  }

  lemma CustomLinksConnect<D(!new)>(custom: set<set<D>>, globals: set<set<D>>, d: D, e: D)
    requires Linked(globals + custom, d, e)
    ensures Connected(globals + Components(custom), d, e)
  {
    var g :| g in globals + custom && d in g && e in g;
    if g !in globals {
      GroupInsideComponent(custom, g, d);
      assert ComponentOf(custom, d) in Components(custom);
    }
    assert Linked(globals + Components(custom), d, e);
    LinkConnects(globals + Components(custom), d, e);
  }

  /** Storing the merged custom groups instead of the raw ones loses nothing. */
  lemma MergingLosesNothing<D(!new)>(custom: set<set<D>>, globals: set<set<D>>)
    ensures Expanded(Components(custom), globals) == Expanded(custom, globals)
  {
    ComponentsCoverDomains(custom);
    forall d, e | Linked(globals + Components(custom), d, e)
      ensures Connected(globals + custom, d, e)
    {
      MergedLinksConnect(custom, globals, d, e);
    }
    forall d, e | Linked(globals + custom, d, e)
      ensures Connected(globals + Components(custom), d, e)
    {
      CustomLinksConnect(custom, globals, d, e);
    }
    UnionDomains(globals, custom);
    UnionDomains(globals, Components(custom));
    SameConnections(globals + Components(custom), globals + custom);
  }

  lemma UnionDomains<D(!new)>(a: set<set<D>>, b: set<set<D>>)
    ensures Domains(a + b) == Domains(a) + Domains(b)
  {
  }

  /** Taking groups away only splits what was together, whichever components are of interest. */
  lemma FewerGroupsRefine<D(!new)>(fewer: set<set<D>>, groups: set<set<D>>, domains: set<D>, c: set<D>)
    requires fewer <= groups && c in Touching(Components(fewer), domains)
    ensures exists whole :: whole in Touching(Components(groups), domains) && c <= whole
  {
    var a :| a in Domains(fewer) && c == ComponentOf(fewer, a);
    var whole := ComponentOf(groups, a);
    forall b | b in c
      ensures b in whole
    {
      UnionConnects(fewer, groups, a, b);
    }
    assert a in Domains(groups);
    assert whole in Components(groups);
    assert c * domains <= whole * domains;
    assert whole in Touching(Components(groups), domains);
  }

  /** Every custom group lies in one expanded group. */
  lemma ExpandingKeepsCustomGroups<D(!new)>(custom: set<set<D>>, globals: set<set<D>>, g: set<D>)
    requires g in custom && g != {}
    ensures exists c :: c in Expanded(custom, globals) && g <= c
  {
    var a :| a in g;
    GroupInsideComponent(globals + custom, g, a);
    var c := ComponentOf(globals + custom, a);
    assert a in c * Domains(custom);
    assert c in Expanded(custom, globals);
  }
}
