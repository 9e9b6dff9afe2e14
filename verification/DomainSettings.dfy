/**
 Custom rules and the settings row (apps/api/src/services/domain-rules.ts:178-214,
 handlers/domains.ts:30-126): what is read back is what was written.
 */
module DomainSettings {
  import opened Options
  import opened DomainGraph
  import opened DomainForest
  import opened DomainMerge
  import opened DomainRules
  import Hosts

  // ---------------------------------------------------------------------------------------
  // Ids
  // ---------------------------------------------------------------------------------------

  function TrimStart(s: string): (t: string)
    ensures |t| <= |s|
    ensures t != "" ==> !Hosts.IsSpace(t[0])
    ensures t == s[|s| - |t|..]
  {
    if s != "" && Hosts.IsSpace(s[0]) then TrimStart(s[1..]) else s
  }

  function TrimEnd(s: string): (t: string)
    ensures |t| <= |s|
    ensures t != "" ==> !Hosts.IsSpace(t[|t| - 1])
    ensures t == s[..|t|]
  {
    if s != "" && Hosts.IsSpace(s[|s| - 1]) then TrimEnd(s[..|s| - 1]) else s
  }

  function Trim(s: string): string {
    TrimEnd(TrimStart(s))
  }

  predicate Trimmed(s: string) {
    s != "" ==> !Hosts.IsSpace(s[0]) && !Hosts.IsSpace(s[|s| - 1])
  }

  lemma TrimTrims(s: string)
    ensures Trimmed(Trim(s))
    ensures Trimmed(s) ==> Trim(s) == s
  {
  }

  function Digits(n: nat): (s: string)
    ensures s != "" && forall i :: 0 <= i < |s| ==> Hosts.IsDigit(s[i])
  {
    if n < 10 then [n as char + '0'] else Digits(n / 10) + [(n % 10) as char + '0']
  }

  /** The id of a rule that came without one; `sorted` stands for its sorted domains joined with bars. */
  function CreateCustomDomainId(sorted: string, index: nat): (id: string)
    ensures id != "" && Trimmed(id)
  {
    "custom:" + sorted + ":" + Digits(index)
  }

  // ---------------------------------------------------------------------------------------
  // Rules
  // ---------------------------------------------------------------------------------------

  /** A rule, or an item that is to become one; a bare array of domains has an empty id and is not excluded. */
  datatype Rule = Rule(id: string, domains: seq<string>, excluded: bool)

  function RuleDomains(rules: seq<Rule>): (domains: seq<seq<string>>)
    ensures |domains| == |rules|
  {
    seq(|rules|, i requires 0 <= i < |rules| => rules[i].domains)
  }

  function NewRule(item: Rule, domains: seq<string>, index: nat, sorted: seq<string> -> string): (rule: Rule)
    ensures rule.domains == domains && rule.excluded == item.excluded
    ensures rule.id != "" && Trimmed(rule.id)
    ensures item.id != "" && Trimmed(item.id) ==> rule.id == item.id
  {
    TrimTrims(item.id);
    var rawId := Trim(item.id);
    Rule(if rawId != "" then rawId else CreateCustomDomainId(sorted(domains), index), domains, item.excluded)
  }

  /** The rules for the items that have two domains or more that no earlier rule has. */
  ghost function NormalizedRules(norm: string -> string, sorted: seq<string> -> string, input: seq<Rule>): (rules: seq<Rule>)
    ensures |rules| <= |input|
    decreases |input|
  {
    if input == [] then []
    else
      var index := |input| - 1;
      var before := NormalizedRules(norm, sorted, input[..index]);
      var domains := Cleaned(norm, input[index].domains, []);
      if |domains| < 2 || Seen(RuleDomains(before), domains) then before
      else before + [NewRule(input[index], domains, index, sorted)]
  }

  method NormalizeCustomEquivalentDomains(norm: string -> string, sorted: seq<string> -> string, input: seq<Rule>)
    returns (rules: seq<Rule>)
    ensures rules == NormalizedRules(norm, sorted, input)
  {
    hide NormalizedRules, NormalizedGroups, NewRule, GroupSets, RuleDomains, Cleaned;
    rules := [];
    var seenGroups: set<set<string>> := {};
    var index := 0;
    NoRules(norm, sorted, input);
    while index < |input|
      invariant 0 <= index <= |input|
      invariant rules == NormalizedRules(norm, sorted, input[..index])
      invariant seenGroups == GroupSets(RuleDomains(rules))
    {
      NormalizedRulesStep(norm, sorted, input, index);
      var groups := NormalizeEquivalentDomains(norm, [input[index].domains]);
      SingleGroup(norm, input[index].domains);
      if groups != [] {
        var domains := groups[0];
        var key := set d | d in domains;
        if key !in seenGroups {
          var rule := NewRule(input[index], domains, index, sorted);
          RuleDomainsExtend(rules, rule);
          GroupSetsExtend(RuleDomains(rules), domains);
          seenGroups := seenGroups + {key};
          rules := rules + [rule];
        }
      }
      index := index + 1;
    }
    assert input[..index] == input;
  }

  lemma NormalizedRulesStep(norm: string -> string, sorted: seq<string> -> string, input: seq<Rule>, index: nat)
    requires index < |input|
    ensures var before, domains := NormalizedRules(norm, sorted, input[..index]), Cleaned(norm, input[index].domains, []);
            NormalizedRules(norm, sorted, input[..index + 1]) ==
            if |domains| < 2 || Seen(RuleDomains(before), domains) then before
            else before + [NewRule(input[index], domains, index, sorted)]
  {
    assert input[..index + 1][..index] == input[..index];
  }

  lemma NoRules(norm: string -> string, sorted: seq<string> -> string, input: seq<Rule>)
    ensures NormalizedRules(norm, sorted, input[..0]) == []
    ensures GroupSets(RuleDomains([])) == {}
  {
  }

  lemma SingleGroup(norm: string -> string, group: seq<string>)
    ensures var domains := Cleaned(norm, group, []);
            NormalizedGroups(norm, [group]) == if |domains| < 2 then [] else [domains]
  {
  }

  lemma RuleDomainsExtend(rules: seq<Rule>, rule: Rule)
    ensures RuleDomains(rules + [rule]) == RuleDomains(rules) + [rule.domains]
  {
  }

  // ---------------------------------------------------------------------------------------
  // Reading back
  // ---------------------------------------------------------------------------------------

  /** Normalising keeps a group as it is exactly when it keeps each of its domains. */
  lemma CleanedKeepsIff(norm: string -> string, group: seq<string>)
    requires Distinct(group)
    ensures Cleaned(norm, group, []) == group <==> Stable(norm, Elements(group))
  {
    assert group[0..] == group && group[..0] == [];
    if Stable(norm, Elements(group)) {
      StableIsKept(norm, group, 0);
    }
    if Cleaned(norm, group, []) == group {
      NothingLostMapsAll(norm, group, []);
    }
  }

  lemma {:induction false} StableIsKept(norm: string -> string, group: seq<string>, i: nat)
    requires Distinct(group) && Stable(norm, Elements(group)) && i <= |group|
    ensures Cleaned(norm, group[i..], group[..i]) == group
    decreases |group| - i
  {
    if i < |group| {
      StableIsKept(norm, group, i + 1);
      assert group[i..][1..] == group[i + 1..];
      assert group[..i + 1] == group[..i] + [group[i]];
      assert group[i] in Elements(group);
    } else {
      assert group[..i] == group && group[i..] == [];
    }
  }

  lemma {:induction false} NothingLostMapsAll(norm: string -> string, group: seq<string>, taken: seq<string>)
    ensures var domains := Cleaned(norm, group, taken);
            && |domains| <= |taken| + |group|
            && taken <= domains
            && (|domains| == |taken| + |group| ==>
                  forall i :: 0 <= i < |group| ==> norm(group[i]) != "" && domains[|taken| + i] == norm(group[i]))
    decreases |group|
  {
    if group != [] {
      var domain := norm(group[0]);
      var next := if domain == "" || domain in taken then taken else taken + [domain];
      NothingLostMapsAll(norm, group[1..], next);
      var domains := Cleaned(norm, group, taken);
      if |domains| == |taken| + |group| {
        assert domains[|taken|] == domain;
        forall i | 1 <= i < |group|
          ensures norm(group[i]) != "" && domains[|taken| + i] == norm(group[i])
        {
          assert group[i] == group[1..][i - 1];
        }
      }
    }
  }

  /** What the normaliser leaves behind. */
  ghost predicate NormalRules(rules: seq<Rule>) {
    && (forall i :: 0 <= i < |rules| ==>
          |rules[i].domains| >= 2 && Distinct(rules[i].domains) && rules[i].id != "" && Trimmed(rules[i].id))
    && (forall i, j :: 0 <= i < j < |rules| ==> Elements(rules[i].domains) != Elements(rules[j].domains))
  }

  lemma {:induction false} NormalizedRulesAreNormal(norm: string -> string, sorted: seq<string> -> string, input: seq<Rule>)
    ensures NormalRules(NormalizedRules(norm, sorted, input))
    decreases |input|
  {
    hide Cleaned, Elements, NewRule, Trimmed;
    if input != [] {
      var index := |input| - 1;
      var before := NormalizedRules(norm, sorted, input[..index]);
      NormalizedRulesAreNormal(norm, sorted, input[..index]);
      CleanedIsCleanSet(norm, input[index].domains, []);
      forall i | 0 <= i < |before|
        ensures Elements(before[i].domains) in GroupSets(RuleDomains(before))
      {
        assert RuleDomains(before)[i] == before[i].domains;
      }
    }
  }

  ghost function RulesDomains(rules: seq<Rule>): set<string> {
    set rule, d | rule in rules && d in rule.domains :: d
  }

  lemma {:induction false} StableRulesStay(norm: string -> string, sorted: seq<string> -> string, rules: seq<Rule>)
    requires NormalRules(rules) && Stable(norm, RulesDomains(rules))
    ensures NormalizedRules(norm, sorted, rules) == rules
    decreases |rules|
  {
    hide Cleaned, Trimmed, NewRule, Seen, RuleDomains;
    if rules != [] {
      var index := |rules| - 1;
      var init, last := rules[..index], rules[index];
      assert RulesDomains(init) <= RulesDomains(rules) && Elements(last.domains) <= RulesDomains(rules);
      StableRulesStay(norm, sorted, init);
      CleanedKeepsIff(norm, last.domains);
      NotSeen(init, last.domains);
      assert rules == init + [last];
    }
  }

  lemma NotSeen(rules: seq<Rule>, domains: seq<string>)
    requires forall i :: 0 <= i < |rules| ==> Elements(rules[i].domains) != Elements(domains)
    ensures !Seen(RuleDomains(rules), domains)
  {
  }

  lemma StayingPrefix(norm: string -> string, sorted: seq<string> -> string, init: seq<Rule>, last: Rule)
    requires NormalizedRules(norm, sorted, init + [last]) == init + [last]
    ensures NormalizedRules(norm, sorted, init) == init && Cleaned(norm, last.domains, []) == last.domains
  {
    hide Cleaned, Trimmed, NewRule, Seen;
    assert (init + [last])[..|init|] == init && (init + [last])[|init|] == last;
    var before := NormalizedRules(norm, sorted, init);
    var rule := NewRule(last, Cleaned(norm, last.domains, []), |init|, sorted);
    assert before + [rule] == init + [last];
    assert before == (before + [rule])[..|init|];
    assert rule == (before + [rule])[|init|] == last;
  }

  lemma {:induction false} StayingRulesAreStable(norm: string -> string, sorted: seq<string> -> string, rules: seq<Rule>)
    requires NormalRules(rules) && NormalizedRules(norm, sorted, rules) == rules
    ensures Stable(norm, RulesDomains(rules))
    decreases |rules|
  {
    hide Cleaned, Trimmed, NewRule, Seen, NormalizedRules;
    if rules != [] {
      var index := |rules| - 1;
      var init, last := rules[..index], rules[index];
      assert rules == init + [last];
      StayingPrefix(norm, sorted, init, last);
      StayingRulesAreStable(norm, sorted, init);
      CleanedKeepsIff(norm, last.domains);
      forall d | d in RulesDomains(rules)
        ensures d in RulesDomains(init) || d in Elements(last.domains)
      {
      }
    }
  }

  /** Normalising the rules again gives the same rules, ids included, exactly when no domain of theirs changes. */
  lemma NormalizingTwiceIff(norm: string -> string, sorted: seq<string> -> string, input: seq<Rule>)
    ensures var rules := NormalizedRules(norm, sorted, input);
            NormalizedRules(norm, sorted, rules) == rules <==> Stable(norm, RulesDomains(rules))
  {
    hide NormalizedRules, NormalRules, Stable;
    var rules := NormalizedRules(norm, sorted, input);
    NormalizedRulesAreNormal(norm, sorted, input);
    if Stable(norm, RulesDomains(rules)) {
      StableRulesStay(norm, sorted, rules);
    } else if NormalizedRules(norm, sorted, rules) == rules {
      StayingRulesAreStable(norm, sorted, rules);
    }
  }

  /** Which input items a list of rules has come from: each rule from the first item with its domains. */
  ghost predicate CameFrom(norm: string -> string, input: seq<Rule>, rule: Rule, index: nat)
    requires index < |input|
  {
    && Elements(rule.domains) == CleanSet(norm, input[index].domains)
    && rule.excluded == input[index].excluded
    && (Trim(input[index].id) != "" ==> rule.id == Trim(input[index].id))
    && forall earlier :: 0 <= earlier < index ==> CleanSet(norm, input[earlier].domains) != Elements(rule.domains)
  }

  lemma SeenIff(rules: seq<Rule>, domains: seq<string>)
    ensures Seen(RuleDomains(rules), domains) <==> exists i :: 0 <= i < |rules| && Elements(rules[i].domains) == Elements(domains)
  {
    hide Elements;
    if i :| 0 <= i < |rules| && Elements(rules[i].domains) == Elements(domains) {
      assert RuleDomains(rules)[i] in RuleDomains(rules);
    }
  }

  ghost predicate CameFromSome(norm: string -> string, input: seq<Rule>, rule: Rule) {
    exists index :: 0 <= index < |input| && CameFrom(norm, input, rule, index)
  }

  ghost predicate EachCameFrom(norm: string -> string, input: seq<Rule>, rules: seq<Rule>) {
    forall i :: 0 <= i < |rules| ==> CameFromSome(norm, input, rules[i])
  }

  ghost predicate EachSetOnce(rules: seq<Rule>) {
    forall i, j :: 0 <= i < j < |rules| ==> Elements(rules[i].domains) != Elements(rules[j].domains)
  }

  ghost predicate Covers(norm: string -> string, input: seq<Rule>, rules: seq<Rule>) {
    forall index :: 0 <= index < |input| && |CleanSet(norm, input[index].domains)| >= 2 ==>
      exists i :: 0 <= i < |rules| && Elements(rules[i].domains) == CleanSet(norm, input[index].domains)
  }

  lemma CameFromStays(norm: string -> string, init: seq<Rule>, last: Rule, rules: seq<Rule>)
    requires EachCameFrom(norm, init, rules)
    ensures EachCameFrom(norm, init + [last], rules)
  {
    hide CleanSet, Elements;
    forall i | 0 <= i < |rules|
      ensures CameFromSome(norm, init + [last], rules[i])
    {
      assert CameFromSome(norm, init, rules[i]);
      var index :| 0 <= index < |init| && CameFrom(norm, init, rules[i], index);
      assert CameFrom(norm, init + [last], rules[i], index);
    }
  }

  lemma NewRuleExtends(norm: string -> string, init: seq<Rule>, last: Rule, rules: seq<Rule>, rule: Rule)
    requires EachCameFrom(norm, init, rules) && EachSetOnce(rules) && Covers(norm, init, rules)
    requires Elements(rule.domains) == CleanSet(norm, last.domains) && |CleanSet(norm, last.domains)| >= 2
    requires rule.excluded == last.excluded && (Trim(last.id) != "" ==> rule.id == Trim(last.id))
    requires forall i :: 0 <= i < |rules| ==> Elements(rules[i].domains) != Elements(rule.domains)
    ensures EachCameFrom(norm, init + [last], rules + [rule]) && EachSetOnce(rules + [rule])
    ensures Covers(norm, init + [last], rules + [rule])
  {
    hide CleanSet, Elements, Trim;
    CameFromStays(norm, init, last, rules);
    assert CameFrom(norm, init + [last], rule, |init|);
    CoversMore(norm, init, rules, rule);
    var all := rules + [rule];
    assert Elements(all[|rules|].domains) == CleanSet(norm, last.domains);
    CoversSeen(norm, init, last, all);
    EachCameFromMore(norm, init + [last], rules, rule, |init|);
  }

  lemma EachCameFromMore(norm: string -> string, input: seq<Rule>, rules: seq<Rule>, rule: Rule, index: nat)
    requires EachCameFrom(norm, input, rules) && index < |input| && CameFrom(norm, input, rule, index)
    ensures EachCameFrom(norm, input, rules + [rule])
  {
    assert CameFromSome(norm, input, rule);
    hide CameFromSome;
  }

  lemma CoversMore(norm: string -> string, input: seq<Rule>, rules: seq<Rule>, rule: Rule)
    requires Covers(norm, input, rules)
    ensures Covers(norm, input, rules + [rule])
  {
    hide CleanSet, Elements;
    forall index | 0 <= index < |input| && |CleanSet(norm, input[index].domains)| >= 2
      ensures exists i :: 0 <= i < |rules + [rule]| && Elements((rules + [rule])[i].domains) == CleanSet(norm, input[index].domains)
    {
      var i :| 0 <= i < |rules| && Elements(rules[i].domains) == CleanSet(norm, input[index].domains);
      assert (rules + [rule])[i] == rules[i];
    }
  }

  lemma CoversSeen(norm: string -> string, init: seq<Rule>, last: Rule, rules: seq<Rule>)
    requires Covers(norm, init, rules)
    requires |CleanSet(norm, last.domains)| >= 2 ==>
               exists i :: 0 <= i < |rules| && Elements(rules[i].domains) == CleanSet(norm, last.domains)
    ensures Covers(norm, init + [last], rules)
  {
    hide CleanSet, Elements;
  }

  /**
   The rules are, as sets of domains, exactly the items with two domains or more, each set once, and
   each rule has the id and the switch of the first item with its domains.
   */
  lemma {:induction false} RulesComeFromItems(norm: string -> string, sorted: seq<string> -> string, input: seq<Rule>)
    ensures var rules := NormalizedRules(norm, sorted, input);
            EachCameFrom(norm, input, rules) && EachSetOnce(rules) && Covers(norm, input, rules)
    decreases |input|
  {
    hide EachCameFrom, EachSetOnce, Covers, CameFromSome, CleanSet, Elements, Trim, Seen, NewRule;
    if input == [] {
      NothingComesFromNothing(norm);
    } else {
      var init, last := input[..|input| - 1], input[|input| - 1];
      RulesComeFromItems(norm, sorted, init);
      assert input == init + [last];
      var before, domains := NormalizedRules(norm, sorted, init), Cleaned(norm, last.domains, []);
      CleanedSize(norm, last.domains);
      SeenIff(before, domains);
      if |domains| < 2 || Seen(RuleDomains(before), domains) {
        CameFromStays(norm, init, last, before);
        CoversSeen(norm, init, last, before);
      } else {
        var rule := NewRule(last, domains, |init|, sorted);
        NewRuleKeeps(last, domains, |init|, sorted);
        NewRuleExtends(norm, init, last, before, rule);
      }
    }
  }

  lemma NothingComesFromNothing(norm: string -> string)
    ensures EachCameFrom(norm, [], []) && EachSetOnce([]) && Covers(norm, [], [])
  {
  }

  lemma CleanedSize(norm: string -> string, group: seq<string>)
    ensures Elements(Cleaned(norm, group, [])) == CleanSet(norm, group)
    ensures |Cleaned(norm, group, [])| == |CleanSet(norm, group)|
  {
    NoDuplicates();
    CleanedIsCleanSet(norm, group, []);
    DistinctSize(Cleaned(norm, group, []));
  }

  lemma NewRuleKeeps(item: Rule, domains: seq<string>, index: nat, sorted: seq<string> -> string)
    ensures var rule := NewRule(item, domains, index, sorted);
            rule.domains == domains && rule.excluded == item.excluded && (Trim(item.id) != "" ==> rule.id == Trim(item.id))
  {
  }

  // ---------------------------------------------------------------------------------------
  // The handlers
  // ---------------------------------------------------------------------------------------

  datatype Settings = Settings(equivalent: seq<seq<string>>, custom: seq<Rule>, excluded: seq<nat>)

  /** One entry of the excluded globals: a bare number counts as excluded. */
  datatype Exclusion = Exclusion(kind: nat, excluded: bool)

  datatype Payload = Payload(
    equivalent: Option<seq<seq<string>>>, custom: Option<seq<Rule>>, excluded: Option<seq<Exclusion>>)

  datatype GlobalEntry = GlobalEntry(kind: nat, domains: seq<string>, excluded: bool)

  datatype Response = Response(equivalent: seq<seq<string>>, custom: seq<Rule>, globals: seq<GlobalEntry>)

  function ActiveRules(rules: seq<Rule>): seq<seq<string>> {
    if rules == [] then []
    else (if rules[0].excluded then [] else [rules[0].domains]) + ActiveRules(rules[1..])
  }

  function AsRules(groups: seq<seq<string>>): seq<Rule> {
    seq(|groups|, i requires 0 <= i < |groups| => Rule("", groups[i], false))
  }

  function Kinds(globals: seq<Global>): set<nat> {
    set g | g in globals :: g.kind
  }

  function ExcludedKinds(items: seq<Exclusion>, globals: seq<Global>): (kinds: seq<nat>)
    ensures forall k :: k in kinds <==> k in Kinds(globals) && Exclusion(k, true) in items
    ensures Distinct(kinds)
  {
    if items == [] then []
    else
      var last := items[|items| - 1];
      var before := ExcludedKinds(items[..|items| - 1], globals);
      assert items == items[..|items| - 1] + [last];
      if !last.excluded || last.kind !in Kinds(globals) || last.kind in before then before else before + [last.kind]
  }

  method NormalizeExcludedGlobalTypes(items: seq<Exclusion>, globals: seq<Global>) returns (kinds: seq<nat>)
    ensures kinds == ExcludedKinds(items, globals)
    ensures Distinct(kinds) && forall k :: k in kinds <==> k in Kinds(globals) && Exclusion(k, true) in items
  {
    kinds := [];
    var i := 0;
    while i < |items|
      invariant 0 <= i <= |items| && kinds == ExcludedKinds(items[..i], globals)
    {
      assert items[..i + 1][..i] == items[..i];
      if items[i].excluded && items[i].kind in Kinds(globals) && items[i].kind !in kinds {
        kinds := kinds + [items[i].kind];
      }
      i := i + 1;
    }
    assert items[..i] == items;
  }

  function GlobalEntries(globals: seq<Global>, excluded: set<nat>): seq<GlobalEntry> {
    seq(|globals|, i requires 0 <= i < |globals| =>
      GlobalEntry(globals[i].kind, globals[i].domains, globals[i].kind in excluded))
  }

  /** What a settings row reads as. */
  ghost function Parsed(norm: string -> string, sorted: seq<string> -> string, row: Option<Settings>): Settings {
    if row.None? then Settings([], [], [])
    else row.value.(custom := NormalizedRules(norm, sorted, row.value.custom))
  }

  /** The response for some settings, up to the order of the groups. */
  ghost predicate Responds(norm: string -> string, globals: seq<Global>, response: Response, s: Settings) {
    var excluded := set k | k in s.excluded;
    && GroupSets(response.equivalent) == ExpandedGroups(norm, s.equivalent, ActiveGroups(globals, excluded))
    && response.custom == s.custom
    && response.globals == GlobalEntries(globals, excluded)
  }

  /** The row an update writes. */
  ghost predicate Writes(
    norm: string -> string, sorted: seq<string> -> string, globals: seq<Global>,
    row: Option<Settings>, payload: Payload, s: Settings)
  {
    && s.custom == (match (payload.custom, payload.equivalent)
                    case (Some(rules), _) => NormalizedRules(norm, sorted, rules)
                    case (None, Some(groups)) => NormalizedRules(norm, sorted, AsRules(NormalizedGroups(norm, groups)))
                    case (None, None) => Parsed(norm, sorted, row).custom)
    && s.excluded == (if payload.excluded.Some? then ExcludedKinds(payload.excluded.value, globals)
                      else Parsed(norm, sorted, row).excluded)
    && Lists(s.equivalent, Components(CleanSets(norm, ActiveRules(s.custom)))) && Normalized(s.equivalent)
  }

  class DomainSettingsStore {
    const norm: string -> string
    const sorted: seq<string> -> string
    const globals: seq<Global>
    var row: Option<Settings>

    constructor (norm: string -> string, sorted: seq<string> -> string, globals: seq<Global>)
      ensures this.norm == norm && this.sorted == sorted && this.globals == globals && row == None
    {
      this.norm, this.sorted, this.globals, row := norm, sorted, globals, None;
    }

    method ParseStoredDomainSettings() returns (s: Settings)
      ensures s == Parsed(norm, sorted, row)
    {
      if row.None? {
        return Settings([], [], []);
      }
      var custom := NormalizeCustomEquivalentDomains(norm, sorted, row.value.custom);
      return row.value.(custom := custom);
    }

    method BuildDomainsResponse(s: Settings) returns (response: Response)
      ensures Responds(norm, globals, response, s)
    {
      hide ExpandedGroups;
      var excluded := set k | k in s.excluded;
      var merged := ExpandCustomEquivalentDomainsWithGlobals(norm, s.equivalent, ActiveGroups(globals, excluded));
      return Response(merged, s.custom, GlobalEntries(globals, excluded));
    }

    method GetDomains() returns (response: Response)
      ensures Responds(norm, globals, response, Parsed(norm, sorted, row))
    {
      var s := ParseStoredDomainSettings();
      response := BuildDomainsResponse(s);
    }

    method UpdateDomains(payload: Payload) returns (response: Response)
      modifies this`row
      ensures row.Some? && Writes(norm, sorted, globals, old(row), payload, row.value)
      ensures Responds(norm, globals, response, row.value)
    {
      hide NormalizedRules, NormalizedGroups, Lists, Components, Responds, ExcludedKinds;
      var current := ParseStoredDomainSettings();
      var custom := current.custom;
      if payload.custom.Some? {
        custom := NormalizeCustomEquivalentDomains(norm, sorted, payload.custom.value);
      } else if payload.equivalent.Some? {
        var groups := NormalizeEquivalentDomains(norm, payload.equivalent.value);
        custom := NormalizeCustomEquivalentDomains(norm, sorted, AsRules(groups));
      }
      var equivalent := MergeEquivalentDomainGroups(norm, ActiveRules(custom));
      var excluded := current.excluded;
      if payload.excluded.Some? {
        excluded := NormalizeExcludedGlobalTypes(payload.excluded.value, globals);
      }
      row := Some(Settings(equivalent, custom, excluded));
      response := BuildDomainsResponse(row.value);
    }
  }

  ghost predicate SameResponse(a: Response, b: Response) {
    GroupSets(a.equivalent) == GroupSets(b.equivalent) && a.custom == b.custom && a.globals == b.globals
  }

  /** Whatever the payload, the rules written are the normalised form of some input. */
  lemma WrittenRulesAreNormalized(
    norm: string -> string, sorted: seq<string> -> string, globals: seq<Global>,
    before: Option<Settings>, payload: Payload, s: Settings) returns (input: seq<Rule>)
    requires Writes(norm, sorted, globals, before, payload, s)
    ensures s.custom == NormalizedRules(norm, sorted, input)
  {
    hide Lists, Components, CleanSets;
    match (payload.custom, payload.equivalent)
    case (Some(rules), _) => input := rules;
    case (None, Some(groups)) => input := AsRules(NormalizedGroups(norm, groups));
    case (None, None) => input := if before.Some? then before.value.custom else [];
  }

  /** The rules are those of these items. */
  ghost predicate RulesOf(norm: string -> string, items: seq<Rule>, rules: seq<Rule>) {
    EachCameFrom(norm, items, rules) && EachSetOnce(rules) && Covers(norm, items, rules)
  }

  /**
   Which of its fields an update takes: the rules of the payload, failing that its plain groups as
   rules that are in force, failing that the rules that are stored; and the payload's excluded kinds,
   failing that the stored ones.
   */
  lemma UpdateTakes(
    norm: string -> string, sorted: seq<string> -> string, globals: seq<Global>,
    before: Option<Settings>, payload: Payload, s: Settings)
    requires Writes(norm, sorted, globals, before, payload, s)
    ensures payload.custom.Some? ==> RulesOf(norm, payload.custom.value, s.custom)
    ensures payload.custom.None? && payload.equivalent.Some? ==>
              RulesOf(norm, AsRules(NormalizedGroups(norm, payload.equivalent.value)), s.custom)
    ensures payload.custom.None? && payload.equivalent.None? ==>
              RulesOf(norm, if before.Some? then before.value.custom else [], s.custom)
    ensures payload.excluded.Some? ==>
              Distinct(s.excluded)
              && forall k :: k in s.excluded <==> Exclusion(k, true) in payload.excluded.value && exists g :: g in globals && g.kind == k
    ensures payload.excluded.None? ==> s.excluded == if before.Some? then before.value.excluded else []
  {
    hide Lists, Components, CleanSets, EachCameFrom, EachSetOnce, Covers, NormalizedGroups;
    RulesComeFromItems(norm, sorted, payload.custom.GetOr([]));
    RulesComeFromItems(norm, sorted, AsRules(NormalizedGroups(norm, payload.equivalent.GetOr([]))));
    RulesComeFromItems(norm, sorted, if before.Some? then before.value.custom else []);
  }

  /** A read after a write gives the written response, exactly when no custom domain changes by normalising it again. */
  lemma ReadsBackIff(
    norm: string -> string, sorted: seq<string> -> string, globals: seq<Global>,
    before: Option<Settings>, payload: Payload, s: Settings, written: Response, read: Response)
    requires Writes(norm, sorted, globals, before, payload, s)
    requires Responds(norm, globals, written, s)
    requires Responds(norm, globals, read, Parsed(norm, sorted, Some(s)))
    ensures SameResponse(written, read) <==> Stable(norm, RulesDomains(s.custom))
  {
    hide NormalizedRules, Stable, ExpandedGroups, GroupSets, RulesDomains, Writes;
    var input := WrittenRulesAreNormalized(norm, sorted, globals, before, payload, s);
    NormalizingTwiceIff(norm, sorted, input);
  }

  // ---------------------------------------------------------------------------------------
  // With the real normalisation
  // ---------------------------------------------------------------------------------------

  function Norm(extract: string -> string): string -> string {
    (value: string) => Hosts.NormalizeEquivalentDomain(extract, value)
  }

  lemma CleanedAreResults(norm: string -> string, group: seq<string>, d: string)
    requires d in Cleaned(norm, group, [])
    ensures exists value :: value in group && norm(value) == d && norm(value) != ""
  {
    CleanedIsCleanSet(norm, group, []);
    assert d in Elements(Cleaned(norm, group, []));
  }

  lemma {:induction false} RuleDomainsAreResults(
    norm: string -> string, sorted: seq<string> -> string, input: seq<Rule>, d: string)
    requires d in RulesDomains(NormalizedRules(norm, sorted, input))
    ensures d != "" && exists value :: norm(value) == d
    decreases |input|
  {
    hide Cleaned, NewRule, Trimmed, Seen, Elements;
    var index := |input| - 1;
    var domains := Cleaned(norm, input[index].domains, []);
    var before, rules := NormalizedRules(norm, sorted, input[..index]), NormalizedRules(norm, sorted, input);
    assert forall rule :: rule in rules ==> rule in before || rule.domains == domains;
    if d in RulesDomains(NormalizedRules(norm, sorted, input[..index])) {
      RuleDomainsAreResults(norm, sorted, input[..index], d);
    } else {
      assert d in domains;
      CleanedAreResults(norm, input[index].domains, d);
      var value :| value in input[index].domains && norm(value) == d && norm(value) != "";
    }
  }

  /** With the real normalisation a stored domain is stable exactly when it does not read as an IPv4 address. */
  lemma StableUnlessIpv4(extract: string -> string, sorted: seq<string> -> string, input: seq<Rule>)
    requires Hosts.ExtractsHosts(extract)
    ensures var domains := RulesDomains(NormalizedRules(Norm(extract), sorted, input));
            Stable(Norm(extract), domains) <==> forall d :: d in domains ==> !Hosts.ReadsAsIpv4(Hosts.Split(d))
  {
    hide NormalizedRules, RulesDomains;
    hide Hosts.ReadsAsIpv4, Hosts.Split, Hosts.ExtractsHosts, Hosts.NormalizeEquivalentDomain;
    var norm := Norm(extract);
    forall d | d in RulesDomains(NormalizedRules(norm, sorted, input))
      ensures d != "" && (norm(d) == d <==> !Hosts.ReadsAsIpv4(Hosts.Split(d)))
    {
      RuleDomainsAreResults(norm, sorted, input, d);
      var value :| norm(value) == d;
      Hosts.NormalizeAgain(extract, value);
    }
  }

  /** Normalising rules again gives the same rules unless a domain of theirs reads as an IPv4 address, and then not. */
  lemma RulesReadBackUnlessIpv4(extract: string -> string, sorted: seq<string> -> string, input: seq<Rule>)
    requires Hosts.ExtractsHosts(extract)
    ensures var rules := NormalizedRules(Norm(extract), sorted, input);
            NormalizedRules(Norm(extract), sorted, rules) == rules
            <==> forall d :: d in RulesDomains(rules) ==> !Hosts.ReadsAsIpv4(Hosts.Split(d))
  {
    hide NormalizedRules, Stable, RulesDomains, Norm, Hosts.ReadsAsIpv4, Hosts.ExtractsHosts, Hosts.Split;
    NormalizingTwiceIff(Norm(extract), sorted, input);
    StableUnlessIpv4(extract, sorted, input);
  }

  /** A read after a write answers what the write answered, unless a written domain reads as an IPv4 address, and then not. */
  lemma ReadsBackUnlessIpv4(
    extract: string -> string, sorted: seq<string> -> string, globals: seq<Global>,
    before: Option<Settings>, payload: Payload, s: Settings, written: Response, read: Response)
    requires Hosts.ExtractsHosts(extract)
    requires Writes(Norm(extract), sorted, globals, before, payload, s)
    requires Responds(Norm(extract), globals, written, s)
    requires Responds(Norm(extract), globals, read, Parsed(Norm(extract), sorted, Some(s)))
    ensures SameResponse(written, read)
            <==> forall d :: d in RulesDomains(s.custom) ==> !Hosts.ReadsAsIpv4(Hosts.Split(d))
  {
    hide NormalizedRules, Stable, Responds, Parsed, SameResponse, RulesDomains, Writes, Norm, Hosts.ReadsAsIpv4;
    hide Hosts.ExtractsHosts, Hosts.Split;
    var norm := Norm(extract);
    var input := WrittenRulesAreNormalized(norm, sorted, globals, before, payload, s);
    ReadsBackIff(norm, sorted, globals, before, payload, s, written, read);
    StableUnlessIpv4(extract, sorted, input);
  }

  lemma {:induction false} ActiveRulesAreRules(rules: seq<Rule>, g: seq<string>)
    requires g in ActiveRules(rules)
    ensures exists rule :: rule in rules && rule.domains == g
    decreases |rules|
  {
    if rules[0].excluded || g != rules[0].domains {
      ActiveRulesAreRules(rules[1..], g);
    } else {
      assert rules[0] in rules;
    }
  }

  /**
   What the merge makes of stored rules is always stable: the domains that normalisation would drop
   are gone by then, and the others it keeps.
   */
  lemma ActiveDomainsAreStable(extract: string -> string, sorted: seq<string> -> string, input: seq<Rule>)
    requires Hosts.ExtractsHosts(extract)
    ensures var norm := Norm(extract);
            Stable(norm, Domains(CleanSets(norm, ActiveRules(NormalizedRules(norm, sorted, input)))))
  {
    hide NormalizedRules, ActiveRules, Hosts.ExtractsHosts, Hosts.NormalizeEquivalentDomain;
    hide Hosts.ReadsAsIpv4, Hosts.Split;
    var norm := Norm(extract);
    var rules := NormalizedRules(norm, sorted, input);
    forall d | d in Domains(CleanSets(norm, ActiveRules(rules)))
      ensures d != "" && norm(d) == d
    {
      var g :| g in ActiveRules(rules) && d in CleanSet(norm, g);
      var x :| x in g && norm(x) == d && norm(x) != "";
      ActiveRulesAreRules(rules, g);
      RuleDomainsAreResults(norm, sorted, input, x);
      var value :| norm(value) == x;
      Hosts.NormalizeAgain(extract, value);
    }
  }

  /** The domains of each rule that is in force, where it has two or more. */
  ghost function SetsInForce(norm: string -> string, rules: seq<Rule>): set<set<string>> {
    set rule | rule in rules && !rule.excluded && |CleanSet(norm, rule.domains)| >= 2 :: CleanSet(norm, rule.domains)
  }

  /** The domains of each global group whose kind is not excluded, where it has two or more. */
  ghost function GlobalSets(norm: string -> string, globals: seq<Global>, excluded: seq<nat>): set<set<string>> {
    set g | g in globals && g.kind !in excluded && |CleanSet(norm, g.domains)| >= 2 :: CleanSet(norm, g.domains)
  }

  lemma {:induction false} ActiveRulesAreInForce(norm: string -> string, rules: seq<Rule>)
    ensures CleanSets(norm, ActiveRules(rules)) == SetsInForce(norm, rules)
    decreases |rules|
  {
    hide CleanSet;
    if rules != [] {
      ActiveRulesAreInForce(norm, rules[1..]);
      var first := if rules[0].excluded then [] else [rules[0].domains];
      CleanSetsUnion(norm, first, ActiveRules(rules[1..]));
      assert forall rule :: rule in rules <==> rule == rules[0] || rule in rules[1..];
    }
  }

  lemma {:induction false} ActiveGroupsAreGlobals(
    norm: string -> string, globals: seq<Global>, excluded: seq<nat>, kinds: set<nat>)
    requires forall k :: k in kinds <==> k in excluded
    ensures CleanSets(norm, ActiveGroups(globals, kinds)) == GlobalSets(norm, globals, excluded)
    decreases |globals|
  {
    hide CleanSet;
    if globals != [] {
      ActiveGroupsAreGlobals(norm, globals[1..], excluded, kinds);
      var first := if globals[0].kind in kinds then [] else [globals[0].domains];
      CleanSetsUnion(norm, first, ActiveGroups(globals[1..], kinds));
      assert forall g :: g in globals <==> g == globals[0] || g in globals[1..];
    }
  }

  /** The two domains are listed in one group. */
  predicate ListedTogether(groups: seq<seq<string>>, a: string, b: string) {
    exists i :: 0 <= i < |groups| && a in groups[i] && b in groups[i]
  }

  lemma ListedIffComponent(groups: seq<seq<string>>, parts: set<set<string>>, a: string, b: string)
    requires Lists(groups, parts)
    ensures ListedTogether(groups, a, b) <==> exists part :: part in parts && a in part && b in part
  {
    if ListedTogether(groups, a, b) {
      var i :| 0 <= i < |groups| && a in groups[i] && b in groups[i];
      assert Elements(groups[i]) in GroupSets(groups);
    }
  }

  lemma InOneComponent(sets: set<set<string>>, a: string, b: string)
    ensures (exists part :: part in Components(sets) && a in part && b in part)
            <==> a in Domains(sets) && b in Domains(sets) && Connected(sets, a, b)
  {
    if part :| part in Components(sets) && a in part && b in part {
      var root :| root in Domains(sets) && part == ComponentOf(sets, root);
      Symmetric(sets, root, a);
      Transitive(sets, a, root, b);
    }
    if a in Domains(sets) && b in Domains(sets) && Connected(sets, a, b) {
      Reflexive(sets, a);
      assert ComponentOf(sets, a) in Components(sets);
    }
  }

  /**
   For everything an update writes: two domains lie in one stored group exactly when a chain of rules
   that are in force links them.
   */
  lemma StoredGroupsAreChains(
    norm: string -> string, sorted: seq<string> -> string, globals: seq<Global>,
    before: Option<Settings>, payload: Payload, s: Settings, a: string, b: string)
    requires Writes(norm, sorted, globals, before, payload, s)
    ensures var sets := SetsInForce(norm, s.custom);
            ListedTogether(s.equivalent, a, b) <==> a in Domains(sets) && b in Domains(sets) && Connected(sets, a, b)
  {
    hide NormalizedRules, Lists, Components, SetsInForce, CleanSets, ListedTogether, Connected, Domains;
    ActiveRulesAreInForce(norm, s.custom);
    ListedIffComponent(s.equivalent, Components(SetsInForce(norm, s.custom)), a, b);
    InOneComponent(SetsInForce(norm, s.custom), a, b);
  }

  /**
   For everything an update writes, IPv4-like domains included, and for any active globals: expanding
   the merged groups that are stored gives what expanding the rules in force gives, which is the
   components of rules and globals together that hold a domain of such a rule.
   */
  lemma StoringMergedLosesNothing(
    extract: string -> string, sorted: seq<string> -> string, globals: seq<Global>,
    before: Option<Settings>, payload: Payload, s: Settings, active: seq<seq<string>>)
    requires Hosts.ExtractsHosts(extract) && Writes(Norm(extract), sorted, globals, before, payload, s)
    ensures var norm := Norm(extract);
            && ExpandedGroups(norm, s.equivalent, active) == ExpandedGroups(norm, ActiveRules(s.custom), active)
            && ExpandedGroups(norm, s.equivalent, active) == Expanded(SetsInForce(norm, s.custom), CleanSets(norm, active))
  {
    hide NormalizedRules, Lists, Components, Stable, CleanSets, ExpandedGroups, Expanded, Norm, Hosts.ExtractsHosts;
    hide SetsInForce;
    var norm := Norm(extract);
    var input := WrittenRulesAreNormalized(norm, sorted, globals, before, payload, s);
    ActiveDomainsAreStable(extract, sorted, input);
    MergingStableGroupsLosesNothing(norm, ActiveRules(s.custom), s.equivalent, active);
    ExpandedGroupsAreComponents(norm, ActiveRules(s.custom), active);
    ActiveRulesAreInForce(norm, s.custom);
  }

  /**
   The response to any update lists the components of the rules in force and the globals that are not
   excluded, as far as they hold a domain of such a rule.
   */
  lemma ResponseIsComponents(
    extract: string -> string, sorted: seq<string> -> string, globals: seq<Global>,
    before: Option<Settings>, payload: Payload, s: Settings, response: Response)
    requires Hosts.ExtractsHosts(extract)
    requires Writes(Norm(extract), sorted, globals, before, payload, s) && Responds(Norm(extract), globals, response, s)
    ensures var norm := Norm(extract);
            GroupSets(response.equivalent) == Expanded(SetsInForce(norm, s.custom), GlobalSets(norm, globals, s.excluded))
  {
    hide Writes, CleanSets, ExpandedGroups, GroupSets, Expanded, Norm, Hosts.ExtractsHosts, SetsInForce, GlobalSets;
    var kinds := set k | k in s.excluded;
    StoringMergedLosesNothing(extract, sorted, globals, before, payload, s, ActiveGroups(globals, kinds));
    ActiveGroupsAreGlobals(Norm(extract), globals, s.excluded, kinds);
  }

  /**
   So the response puts two domains together exactly when rules in force and globals that are not
   excluded link them to each other and to a domain of such a rule.
   */
  lemma ResponseIsChains(
    extract: string -> string, sorted: seq<string> -> string, globals: seq<Global>,
    before: Option<Settings>, payload: Payload, s: Settings, response: Response, a: string, b: string)
    requires Hosts.ExtractsHosts(extract)
    requires Writes(Norm(extract), sorted, globals, before, payload, s) && Responds(Norm(extract), globals, response, s)
    ensures var rules, all := SetsInForce(Norm(extract), s.custom),
                              GlobalSets(Norm(extract), globals, s.excluded) + SetsInForce(Norm(extract), s.custom);
            ListedTogether(response.equivalent, a, b)
            <==> a in Domains(all) && Connected(all, a, b) && exists c :: c in Domains(rules) && Connected(all, a, c)
  {
    hide Writes, Responds, Norm, Hosts.ExtractsHosts, SetsInForce, GlobalSets, Expanded, Connected, ListedTogether;
    var rules, others := SetsInForce(Norm(extract), s.custom), GlobalSets(Norm(extract), globals, s.excluded);
    ResponseIsComponents(extract, sorted, globals, before, payload, s, response);
    ListedIffSet(response.equivalent, a, b);
    ExpandedIsChains(rules, others, a, b);
  }

  lemma ListedIffSet(groups: seq<seq<string>>, a: string, b: string)
    ensures ListedTogether(groups, a, b) <==> exists part :: part in GroupSets(groups) && a in part && b in part
  {
    if ListedTogether(groups, a, b) {
      var i :| 0 <= i < |groups| && a in groups[i] && b in groups[i];
      assert groups[i] in groups && Elements(groups[i]) in GroupSets(groups);
    }
  }

  lemma ExpandedIsChains(rules: set<set<string>>, others: set<set<string>>, a: string, b: string)
    ensures var all := others + rules;
            (exists part :: part in Expanded(rules, others) && a in part && b in part)
            <==> a in Domains(all) && Connected(all, a, b) && exists c :: c in Domains(rules) && Connected(all, a, c)
  {
    hide Connected;
    var all := others + rules;
    if part :| part in Expanded(rules, others) && a in part && b in part {
      var c :| c in part && c in Domains(rules);
      InOneComponent(all, a, b);
      InOneComponent(all, a, c);
    }
    if c :| a in Domains(all) && Connected(all, a, b) && c in Domains(rules) && Connected(all, a, c) {
      ConnectedDomain(all, a, b);
      UnionDomains(others, rules);
      Reflexive(all, a);
      var part := ComponentOf(all, a);
      ConnectedDomain(all, a, b);
      assert part in Components(all) && c in part * Domains(rules);
      assert part in Expanded(rules, others) && a in part && b in part;
    }
  }

  lemma ConnectedDomain(sets: set<set<string>>, a: string, b: string)
    requires a in Domains(sets) && Connected(sets, a, b)
    ensures b in Domains(sets)
  {
    var path :| ChainFrom(sets, path, a, b);
    if |path| > 1 {
      assert Linked(sets, path[|path| - 2], path[|path| - 1]);
    }
  }

  /** The response tells the rules as they are stored and every global with its kind, its domains and whether it is excluded. */
  lemma ResponseTells(norm: string -> string, globals: seq<Global>, response: Response, s: Settings)
    requires Responds(norm, globals, response, s)
    ensures response.custom == s.custom && |response.globals| == |globals|
    ensures forall i :: 0 <= i < |globals| ==>
              && response.globals[i].kind == globals[i].kind && response.globals[i].domains == globals[i].domains
              && (response.globals[i].excluded <==> globals[i].kind in s.excluded)
  {
    hide ExpandedGroups, GroupSets;
  }

  /** Such a rule is gone when it is read: of its domains only one is left. */
  lemma RuleCanVanish(extract: string -> string, sorted: seq<string> -> string)
    requires Hosts.ExtractsHosts(extract)
    ensures var norm, input := Norm(extract), [Rule("r", ["a.1.2", "a.b"], false)];
            && NormalizedRules(norm, sorted, input) == [Rule("r", ["1.2", "a.b"], false)]
            && NormalizedRules(norm, sorted, NormalizedRules(norm, sorted, input)) == []
  {
    hide Hosts.ExtractsHosts, Hosts.NormalizeEquivalentDomain, NormalizedRules, Cleaned, Trimmed;
    var norm := Norm(extract);
    assert Trimmed("r") by {
      SingleLetterIsTrimmed();
    }
    Hosts.NormalizeTwiceDiffers(extract);
    Hosts.OrdinaryDomainStays(extract, 'b');
    assert "a." + ['b'] == "a.b";
    CleanedPair(norm, "a.1.2", "a.b");
    CleanedPair(norm, "1.2", "a.b");
    assert "1.2"[0] != "a.b"[0] && ["1.2"] + ["a.b"] == ["1.2", "a.b"];
    OneRule(norm, sorted, Rule("r", ["a.1.2", "a.b"], false));
    OneRule(norm, sorted, Rule("r", ["1.2", "a.b"], false));
  }

  lemma SingleLetterIsTrimmed()
    ensures Trimmed("r")
  {
  }

  lemma CleanedPair(norm: string -> string, a: string, b: string)
    ensures Cleaned(norm, [a, b], []) ==
            (if norm(a) == "" then [] else [norm(a)]) + (if norm(b) == "" || norm(b) == norm(a) then [] else [norm(b)])
  {
    var taken := if norm(a) == "" then [] else [norm(a)];
    assert [a, b][1..] == [b] && [b][1..] == [] && [] + [norm(a)] == [norm(a)];
    assert Cleaned(norm, [a, b], []) == Cleaned(norm, [b], taken);
    var both := if norm(b) == "" || norm(b) in taken then taken else taken + [norm(b)];
    assert Cleaned(norm, [b], taken) == Cleaned(norm, [], both);
  }

  lemma OneRule(norm: string -> string, sorted: seq<string> -> string, item: Rule)
    requires item.id != "" && Trimmed(item.id)
    ensures var domains := Cleaned(norm, item.domains, []);
            NormalizedRules(norm, sorted, [item]) == if |domains| < 2 then [] else [item.(domains := domains)]
  {
  }
}
