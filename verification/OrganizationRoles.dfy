/**
 When a request about members goes through and what it leaves
 (apps/api/src/handlers/organization-members.ts:28-30, 176-285, 340-407, 438-484), said of the rows that
 were read and the rows of now.
 */
module OrganizationRoles {
  import opened Options
  import opened OrganizationMembers
  import opened OrganizationRuns

  /** Owners manage everybody below them, admins managers and plain members, managers plain members; nobody else anybody. */
  predicate Manages(actor: Role, target: Role) {
    match actor
    case Owner => target == Admin || target == Manager || target == Plain
    case Admin => target == Manager || target == Plain
    case Manager => target == Plain
    case _ => false
  }

  lemma RanksAreThese(actor: Role, target: Role)
    ensures CanManageRole(actor, target) <==> Manages(actor, target)
  {
  }

  /** The row is the one that was read, and a confirmed member's. */
  predicate ActsAsRead(t: Tables, actor: Snapshot) {
    actor.id in t.members && t.members[actor.id] == actor.row && actor.row.status == Confirmed
  }

  predicate InOrganization(t: Tables, org: Id, g: Grant) {
    g.accessAll || forall c :: c in g.collections ==> c in t.collections && t.collections[c] == org
  }

  /** The member sees exactly these collections with these rights, and everybody else the ones of before. */
  ghost predicate AccessIs(before: Tables, after: Tables, member: Id, g: Grant) {
    && (forall k :: k in after.access <==>
          if k.member == member then !g.accessAll && k.collection in g.collections else k in before.access)
    && (forall k :: k in after.access ==>
          after.access[k] == if k.member == member then g.collections[k.collection] else before.access[k])
  }

  /** Nobody in the organization has this address or is this user. */
  ghost predicate Unknown(t: Tables, org: Id, user: Id, email: Id) {
    forall m :: m in t.members && t.members[m].org == org ==> t.members[m].email != email && t.members[m].user != Some(user)
  }

  /**
   Over every run an invitation goes through exactly when the inviter is still the confirmed member that
   was read, ranks above the role, the account is active and new to the organization, and the
   collections are the organization's; it leaves a confirmed member of that role with those collections.
   */
  lemma InviteIff(s: State, actor: Snapshot, member: Id, user: Id, email: Id, g: Grant, token: Id, userActive: bool)
    requires Reachable(s) && WasRead(s, actor) && token !in s.h.tokens && member !in s.h.ids && member !in s.t.members
    ensures var after := Exec(s, InviteStep(actor, member, user, email, g, token, userActive)).t;
            if && userActive && ActsAsRead(s.t, actor) && Manages(actor.row.role, g.role)
               && Unknown(s.t, actor.row.org, user, email) && InOrganization(s.t, actor.row.org, g)
            then
              && after == s.t.(members := after.members, access := after.access)
              && after.members == s.t.members[member :=
                   Member(actor.row.org, Some(user), email, g.role, Confirmed, g.accessAll, Some(token))]
              && AccessIs(s.t, after, member, g)
            else after == s.t
  {
    hide Reachable, WithAccess;
    ReachableInv(s);
    RanksAreThese(actor.row.role, g.role);
    WithAccessIs(s.t, member, g);
    if actor.id in s.t.members && s.t.members[actor.id].token == actor.row.token {
      StandingRow(s, actor);
    }
  }

  lemma WithAccessIs(t: Tables, member: Id, g: Grant)
    ensures forall after: Tables :: after.access == WithAccess(t.access, member, Requested(g)) ==> AccessIs(t, after, member, g)
  {
  }

  /**
   An update goes through exactly when both rows are the ones that were read, the actor is confirmed,
   in the member's organization and above the member's role and the new one, and the collections are
   the organization's; it changes role, access and collections of that member and nothing else.
   */
  lemma UpdateIff(s: State, actor: Snapshot, target: Snapshot, g: Grant, token: Id)
    requires Reachable(s) && WasRead(s, actor) && WasRead(s, target) && token !in s.h.tokens
    ensures var after := Exec(s, UpdateStep(actor, target, g, token)).t;
            if && ActsAsRead(s.t, actor) && target.id in s.t.members && s.t.members[target.id] == target.row
               && target.row.org == actor.row.org
               && Manages(actor.row.role, target.row.role) && Manages(actor.row.role, g.role)
               && InOrganization(s.t, actor.row.org, g)
            then
              && after == s.t.(members := after.members, access := after.access)
              && after.members == s.t.members[target.id :=
                   target.row.(role := g.role, accessAll := g.accessAll, token := Some(token))]
              && AccessIs(s.t, after, target.id, g)
            else after == s.t
  {
    hide Reachable, WithAccess, Inv;
    RanksAreThese(actor.row.role, target.row.role);
    RanksAreThese(actor.row.role, g.role);
    WithAccessIs(s.t, target.id, g);
    BothAsRead(s, actor, target);
  }

  lemma BothAsRead(s: State, actor: Snapshot, target: Snapshot)
    requires Reachable(s) && WasRead(s, actor) && WasRead(s, target)
    ensures actor.id in s.t.members && s.t.members[actor.id].token == actor.row.token ==> s.t.members[actor.id] == actor.row
    ensures target.id in s.t.members && s.t.members[target.id].token == target.row.token ==> s.t.members[target.id] == target.row
  {
    hide Reachable, WasRead, Inv;
    ReachableInv(s);
    if actor.id in s.t.members && s.t.members[actor.id].token == actor.row.token {
      StandingRow(s, actor);
    }
    if target.id in s.t.members && s.t.members[target.id].token == target.row.token {
      StandingRow(s, target);
    }
  }

  /** A removal goes through under the same conditions, and takes the member and its collections and nothing else. */
  lemma RemoveIff(s: State, actor: Snapshot, target: Snapshot, token: Id)
    requires Reachable(s) && WasRead(s, actor) && WasRead(s, target)
    ensures var after := Exec(s, RemoveStep(actor, target, token)).t;
            if && ActsAsRead(s.t, actor) && target.id in s.t.members && s.t.members[target.id] == target.row
               && target.row.org == actor.row.org && Manages(actor.row.role, target.row.role)
            then
              && after == s.t.(members := s.t.members - {target.id}, access := after.access)
              && (forall k :: k in after.access <==> k in s.t.access && k.member != target.id)
              && (forall k :: k in after.access ==> after.access[k] == s.t.access[k])
            else after == s.t
  {
    hide Reachable, Inv;
    RanksAreThese(actor.row.role, target.row.role);
    BothAsRead(s, actor, target);
  }

  /** A new organization starts with its owner, confirmed and with access to everything, and one collection. */
  lemma CreateLeaves(s: State, org: Id, member: Id, collection: Id, user: Id, email: Id)
    requires org !in s.t.orgs && member !in s.h.ids && member !in s.t.members
    ensures var after := Exec(s, CreateOrg(org, member, collection, user, email)).t;
            && after.orgs == s.t.orgs + {org} && after.access == s.t.access
            && after.members == s.t.members[member := Member(org, Some(user), email, Owner, Confirmed, true, None)]
            && after.collections == s.t.collections[collection := org]
  {
  }

  // ---------------------------------------------------------------------------------------
  // One membership for each user and address
  // ---------------------------------------------------------------------------------------

  /** The two rows are of one organization, and of one account or one address. */
  predicate Same(t: Tables, a: Id, b: Id) {
    && a in t.members && b in t.members
    && t.members[a].org == t.members[b].org
    && (t.members[a].email == t.members[b].email || (t.members[a].user.Some? && t.members[a].user == t.members[b].user))
  }

  ghost predicate MembersDistinct(t: Tables) {
    && (forall m :: m in t.members ==> t.members[m].org in t.orgs)
    && (forall a, b :: Same(t, a, b) ==> a == b)
  }

  lemma StepKeepsDistinct(s: State, step: Step)
    requires MembersDistinct(s.t)
    ensures MembersDistinct(Exec(s, step).t)
  {
    hide WithAccess, WasRead, CollectionsExist, CanManageRole;
    var after := Exec(s, step).t;
    forall a, b | Same(after, a, b)
      ensures a == b
    {
      assert a in s.t.members && b in s.t.members ==> Same(s.t, a, b);
    }
  }

  lemma {:induction false} RunKeepsDistinct(s: State, steps: seq<Step>)
    requires MembersDistinct(s.t)
    ensures MembersDistinct(Run(s, steps).t)
    decreases |steps|
  {
    hide MembersDistinct, Exec;
    if steps != [] {
      StepKeepsDistinct(s, steps[0]);
      RunKeepsDistinct(Exec(s, steps[0]), steps[1..]);
    }
  }

  /** However invitations race, nobody is twice in an organization, by account or by address. */
  lemma NobodyIsTwiceAMember(s: State, a: Id, b: Id)
    requires Reachable(s) && Same(s.t, a, b)
    ensures a == b
  {
    hide Exec;
    var steps :| Run(EMPTY, steps) == s;
    RunKeepsDistinct(EMPTY, steps);
  }
}
