/**
 The rules around the union-find (apps/api/src/services/domain-rules.ts, handlers/domains.ts): what
 is normalised, merged, stored, read back and expanded through the global groups. The domain
 normalisation is a parameter; Hosts says when it is idempotent. Inputs have the shape that the
 request schema lets through, and results are groups in any order.
 */
module DomainRules {
  import opened DomainGraph
  import opened DomainForest
  import opened DomainMerge

  // ---------------------------------------------------------------------------------------
  // Normalising groups
  // ---------------------------------------------------------------------------------------

  /** The normalised domains of a group, each at its first occurrence, after those already taken. */
  function Cleaned(norm: string -> string, group: seq<string>, taken: seq<string>): (domains: seq<string>)
    decreases |group|
  {
    if group == [] then taken
    else
      var domain := norm(group[0]);
      Cleaned(norm, group[1..], if domain == "" || domain in taken then taken else taken + [domain])
  }

  function CleanSet(norm: string -> string, group: seq<string>): set<string> {
    set d | d in group && norm(d) != "" :: norm(d)
  }

  lemma {:induction false} CleanedIsCleanSet(norm: string -> string, group: seq<string>, taken: seq<string>)
    requires Distinct(taken)
    ensures var domains := Cleaned(norm, group, taken);
            Distinct(domains) && Elements(domains) == Elements(taken) + CleanSet(norm, group) && taken <= domains
    decreases |group|
  {
    if group != [] {
      var domain := norm(group[0]);
      CleanedIsCleanSet(norm, group[1..], if domain == "" || domain in taken then taken else taken + [domain]);
      assert group == [group[0]] + group[1..];
    }
  }

  /** An earlier group has the same domains, which is when the sorted and joined keys are equal. */
  ghost predicate Seen(groups: seq<seq<string>>, domains: seq<string>) {
    Elements(domains) in GroupSets(groups)
  }

  /** The groups with two domains or more, without those whose domains an earlier group has. */
  ghost function NormalizedGroups(norm: string -> string, input: seq<seq<string>>): (groups: seq<seq<string>>)
    decreases |input|
  {
    if input == [] then []
    else
      var before := NormalizedGroups(norm, input[..|input| - 1]);
      var domains := Cleaned(norm, input[|input| - 1], []);
      if |domains| < 2 || Seen(before, domains) then before else before + [domains]
  }

  method CleanGroup(norm: string -> string, group: seq<string>) returns (domains: seq<string>)
    ensures domains == Cleaned(norm, group, [])
  {
    domains := [];
    var i := 0;
    while i < |group|
      invariant 0 <= i <= |group|
      invariant Cleaned(norm, group, []) == Cleaned(norm, group[i..], domains)
    {
      var domain := norm(group[i]);
      if domain != "" && domain !in domains {
        domains := domains + [domain];
      }
      i := i + 1;
    }
  }

  method NormalizeEquivalentDomains(norm: string -> string, input: seq<seq<string>>) returns (groups: seq<seq<string>>)
    ensures groups == NormalizedGroups(norm, input)
  {
    groups := [];
    var seenGroups: set<set<string>> := {};
    var i := 0;
    while i < |input|
      invariant 0 <= i <= |input|
      invariant groups == NormalizedGroups(norm, input[..i])
      invariant seenGroups == GroupSets(groups)
    {
      assert input[..i + 1][..i] == input[..i];
      var domains := CleanGroup(norm, input[i]);
      if |domains| >= 2 {
        var key := set d | d in domains;
        if key !in seenGroups {
          GroupSetsExtend(groups, domains);
          seenGroups := seenGroups + {key};
          groups := groups + [domains];
        }
      }
      i := i + 1;
    }
    assert input[..i] == input;
  }

  /** As sets: every group that has two domains or more once it is normalised. */
  ghost function CleanSets(norm: string -> string, input: seq<seq<string>>): set<set<string>> {
    set g | g in input && |CleanSet(norm, g)| >= 2 :: CleanSet(norm, g)
  }

  lemma DistinctSize(group: seq<string>)
    requires Distinct(group)
    ensures |Elements(group)| == |group|
    decreases |group|
  {
    if group != [] {
      var last := |group| - 1;
      DistinctSize(group[..last]);
      assert Elements(group) == Elements(group[..last]) + {group[last]};
    }
  }

  lemma GroupSetsExtend<D(!new)>(groups: seq<seq<D>>, domains: seq<D>)
    ensures GroupSets(groups + [domains]) == GroupSets(groups) + {Elements(domains)}
  {
  }

  /** Normalising leaves distinct groups of two domains or more, and exactly the sets that have as many. */
  lemma {:induction false} NormalizedGroupsAreClean(norm: string -> string, input: seq<seq<string>>)
    ensures Normalized(NormalizedGroups(norm, input))
    ensures GroupSets(NormalizedGroups(norm, input)) == CleanSets(norm, input)
    decreases |input|
  {
    hide Cleaned, CleanSet, CleanSets, GroupSets, Elements, Distinct;
    if input == [] {
      NothingIsClean(norm);
    } else {
      var init, last := input[..|input| - 1], input[|input| - 1];
      NormalizedGroupsAreClean(norm, init);
      var before, domains := NormalizedGroups(norm, init), Cleaned(norm, last, []);
      NoDuplicates();
      CleanedIsCleanSet(norm, last, []);
      DistinctSize(domains);
      CleanSetsExtend(norm, init, last);
      GroupSetsExtend(before, domains);
      assert input == init + [last];
    }
  }

  lemma NothingIsClean(norm: string -> string)
    ensures GroupSets<string>([]) == {} == CleanSets(norm, [])
  {
  }

  lemma NoDuplicates()
    ensures Distinct<string>([]) && Elements<string>([]) == {}
  {
  }

  lemma CleanSetsExtend(norm: string -> string, init: seq<seq<string>>, last: seq<string>)
    ensures CleanSets(norm, init + [last]) ==
            CleanSets(norm, init) + if |CleanSet(norm, last)| >= 2 then {CleanSet(norm, last)} else {}
  {
  }

  // ---------------------------------------------------------------------------------------
  // Merging and expanding
  // ---------------------------------------------------------------------------------------

  method MergeEquivalentDomainGroups(norm: string -> string, input: seq<seq<string>>) returns (merged: seq<seq<string>>)
    ensures Lists(merged, Components(CleanSets(norm, input))) && Normalized(merged)
  {
    hide NormalizedGroups, Components, Lists, CleanSets;
    var groups := NormalizeEquivalentDomains(norm, input);
    NormalizedGroupsAreClean(norm, input);
    merged := MergeGroups(groups);
  }

  /** Normalising these domains again changes none of them. */
  ghost predicate Stable(norm: string -> string, domains: set<string>) {
    forall d :: d in domains ==> d != "" && norm(d) == d
  }

  lemma StableIsClean(norm: string -> string, group: seq<string>)
    requires Stable(norm, Elements(group))
    ensures CleanSet(norm, group) == Elements(group)
  {
  }

  /** Normalising normalised groups again changes no set, if it changes no domain. */
  lemma StableGroupsStay(norm: string -> string, groups: seq<seq<string>>)
    requires Normalized(groups) && Stable(norm, Domains(GroupSets(groups)))
    ensures CleanSets(norm, groups) == GroupSets(groups)
  {
    forall g | g in groups
      ensures CleanSet(norm, g) == Elements(g) && |Elements(g)| >= 2
    {
      assert Elements(g) <= Domains(GroupSets(groups));
      StableIsClean(norm, g);
      DistinctSize(g);
    }
  }

  lemma CleanSetsUnion(norm: string -> string, a: seq<seq<string>>, b: seq<seq<string>>)
    ensures CleanSets(norm, a + b) == CleanSets(norm, a) + CleanSets(norm, b)
  {
  }

  /** What the expansion lists: the custom groups are normalised once for their domains and once more for the merge. */
  ghost function ExpandedGroups(
    norm: string -> string, custom: seq<seq<string>>, globals: seq<seq<string>>): set<set<string>>
  {
    Touching(Components(CleanSets(norm, globals) + CleanSets(norm, NormalizedGroups(norm, custom))),
             Domains(CleanSets(norm, custom)))
  }

  method ExpandCustomEquivalentDomainsWithGlobals(
    norm: string -> string, customGroups: seq<seq<string>>, activeGlobalGroups: seq<seq<string>>)
    returns (expanded: seq<seq<string>>)
    ensures Lists(expanded, ExpandedGroups(norm, customGroups, activeGlobalGroups)) && Normalized(expanded)
  {
    hide NormalizedGroups, Components, CleanSets;
    var normalizedCustomGroups := NormalizeEquivalentDomains(norm, customGroups);
    NormalizedGroupsAreClean(norm, customGroups);
    if normalizedCustomGroups == [] {
      return [];
    }
    var customDomains := set g, d | g in normalizedCustomGroups && d in g :: d;
    FlatIsDomains(normalizedCustomGroups);
    CleanSetsUnion(norm, activeGlobalGroups, normalizedCustomGroups);
    var merged := MergeEquivalentDomainGroups(norm, activeGlobalGroups + normalizedCustomGroups);
    expanded := KeepTouching(merged, customDomains);
  }

  /** The components of globals and custom groups together that hold a custom domain. */
  lemma ExpandedGroupsAreComponents(norm: string -> string, custom: seq<seq<string>>, globals: seq<seq<string>>)
    requires Stable(norm, Domains(CleanSets(norm, custom)))
    ensures ExpandedGroups(norm, custom, globals) == Expanded(CleanSets(norm, custom), CleanSets(norm, globals))
  {
    hide NormalizedGroups, Components, CleanSets, Stable;
    NormalizedGroupsAreClean(norm, custom);
    StableGroupsStay(norm, NormalizedGroups(norm, custom));
  }

  lemma FlatIsDomains<D(!new)>(groups: seq<seq<D>>)
    ensures (set g, d | g in groups && d in g :: d) == Domains(GroupSets(groups))
  {
    forall g, d | g in groups && d in g
      ensures d in Domains(GroupSets(groups))
    {
      assert Elements(g) in GroupSets(groups) && d in Elements(g);
    }
  }

  /** The filter on groups with some custom domain. */
  method KeepTouching(groups: seq<seq<string>>, domains: set<string>) returns (kept: seq<seq<string>>)
    requires Normalized(groups) && Lists(groups, GroupSets(groups))
    ensures Lists(kept, Touching(GroupSets(groups), domains))
    ensures Normalized(kept)
  {
    kept := [];
    var i := 0;
    while i < |groups|
      invariant 0 <= i <= |groups| && Normalized(kept)
      invariant Lists(kept, Touching(GroupSets(groups[..i]), domains))
    {
      assert groups[..i + 1] == groups[..i] + [groups[i]];
      GroupSetsExtend(groups[..i], groups[i]);
      if exists d :: d in groups[i] && d in domains {
        TouchingExtends(groups, i, domains, kept);
        kept := kept + [groups[i]];
      } else {
        assert Elements(groups[i]) * domains == {};
        assert Touching(GroupSets(groups[..i + 1]), domains) == Touching(GroupSets(groups[..i]), domains);
      }
      i := i + 1;
    }
    assert groups[..i] == groups;
  }

  lemma TouchingExtends(groups: seq<seq<string>>, i: nat, domains: set<string>, kept: seq<seq<string>>)
    requires i < |groups| && Lists(groups, GroupSets(groups))
    requires Lists(kept, Touching(GroupSets(groups[..i]), domains))
    requires exists d :: d in groups[i] && d in domains
    ensures Lists(kept + [groups[i]], Touching(GroupSets(groups[..i + 1]), domains))
  {
    assert groups[..i + 1] == groups[..i] + [groups[i]];
    GroupSetsExtend(groups[..i], groups[i]);
    GroupSetsExtend(kept, groups[i]);
    var d :| d in groups[i] && d in domains;
    assert d in Elements(groups[i]) * domains;
    forall k | 0 <= k < |kept|
      ensures Elements(kept[k]) !! Elements(groups[i])
    {
      assert Elements(kept[k]) in GroupSets(kept);
      var g :| g in groups[..i] && Elements(g) == Elements(kept[k]);
      var j :| 0 <= j < i && groups[..i][j] == g;
      assert groups[j] == g;
    }
  }

  datatype Global = Global(kind: nat, domains: seq<string>)

  function ActiveGroups(globals: seq<Global>, excluded: set<nat>): seq<seq<string>> {
    if globals == [] then []
    else (if globals[0].kind in excluded then [] else [globals[0].domains]) + ActiveGroups(globals[1..], excluded)
  }

  /** Expanding the merged groups gives what expanding the groups gives, if normalising again keeps their domains. */
  lemma MergingStableGroupsLosesNothing(
    norm: string -> string, custom: seq<seq<string>>, merged: seq<seq<string>>, globals: seq<seq<string>>)
    requires Stable(norm, Domains(CleanSets(norm, custom)))
    requires Lists(merged, Components(CleanSets(norm, custom))) && Normalized(merged)
    ensures ExpandedGroups(norm, merged, globals) == ExpandedGroups(norm, custom, globals)
  {
    hide NormalizedGroups, Components, CleanSets, Stable, ExpandedGroups, Expanded;
    var sets := CleanSets(norm, custom);
    ComponentsCoverDomains(sets);
    StableGroupsStay(norm, merged);
    ExpandedGroupsAreComponents(norm, custom, globals);
    ExpandedGroupsAreComponents(norm, merged, globals);
    MergingLosesNothing(sets, CleanSets(norm, globals));
  }

  lemma {:induction false} ActiveGroupsShrink(globals: seq<Global>, fewer: set<nat>, more: set<nat>, g: seq<string>)
    requires fewer <= more && g in ActiveGroups(globals, more)
    ensures g in ActiveGroups(globals, fewer)
    decreases |globals|
  {
    if globals != [] && g in ActiveGroups(globals[1..], more) {
      ActiveGroupsShrink(globals[1..], fewer, more, g);
    }
  }

  /** Excluding more global types only splits expanded groups: each one then lies inside one that was there before. */
  lemma ExcludingMoreRefines(
    norm: string -> string, custom: seq<seq<string>>, globals: seq<Global>, fewer: set<nat>, more: set<nat>, c: set<string>)
    requires fewer <= more && c in ExpandedGroups(norm, custom, ActiveGroups(globals, more))
    ensures exists whole :: whole in ExpandedGroups(norm, custom, ActiveGroups(globals, fewer)) && c <= whole
  {
    hide NormalizedGroups, Components, Touching;
    var all, rest := CleanSets(norm, ActiveGroups(globals, fewer)), CleanSets(norm, ActiveGroups(globals, more));
    forall s | s in rest
      ensures s in all
    {
      var g :| g in ActiveGroups(globals, more) && |CleanSet(norm, g)| >= 2 && s == CleanSet(norm, g);
      ActiveGroupsShrink(globals, fewer, more, g);
    }
    var again := CleanSets(norm, NormalizedGroups(norm, custom));
    FewerGroupsRefine(rest + again, all + again, Domains(CleanSets(norm, custom)), c);
  }
}
