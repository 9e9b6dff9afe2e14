/**
 Every interleaving of the requests of OrganizationMembers. A request acts on rows it read at any
 earlier time, so a step carries the two snapshots it decided on; its batch runs on the rows of now.
 */
module OrganizationRuns {
  import opened Options
  import opened OrganizationMembers

  /** A member row between two changes: each change draws a new token. */
  datatype Version = Version(id: Id, token: Option<Id>)

  /** What was ever drawn, every row there ever was, and who owns each organization. */
  datatype History = History(tokens: set<Id>, ids: set<Id>, rows: map<Version, Member>, owners: map<Id, Id>)

  datatype State = State(t: Tables, h: History)

  datatype Step =
    | CreateOrg(org: Id, member: Id, collection: Id, user: Id, email: Id)
    | InviteStep(actor: Snapshot, member: Id, user: Id, email: Id, grant: Grant, token: Id, userActive: bool)
    | UpdateStep(actor: Snapshot, target: Snapshot, grant: Grant, token: Id)
    | RemoveStep(actor: Snapshot, target: Snapshot, token: Id)
    | DeleteAccountStep(user: Id)
    | SetCollection(id: Id, org: Id)
    | DropCollection(id: Id)

  /** The snapshot is a row that was in the table at some time. */
  predicate WasRead(s: State, snap: Snapshot) {
    Version(snap.id, snap.row.token) in s.h.rows && s.h.rows[Version(snap.id, snap.row.token)] == snap.row
  }

  function Recorded(h: History, id: Id, row: Member): History {
    h.(rows := h.rows[Version(id, row.token) := row],
       tokens := if row.token.Some? then h.tokens + {row.token.value} else h.tokens,
       ids := h.ids + {id})
  }

  predicate CreatesOrg(s: State, org: Id, member: Id) {
    org !in s.t.orgs && member !in s.h.ids && member !in s.t.members
  }

  predicate Invites(s: State, actor: Snapshot, member: Id, user: Id, email: Id, g: Grant, token: Id, userActive: bool) {
    && WasRead(s, actor) && token !in s.h.tokens && member !in s.h.ids && member !in s.t.members
    && CanManageRole(actor.row.role, g.role)
    && InviteApplies(s.t, actor, user, email, g, userActive)
  }

  predicate Updates(s: State, actor: Snapshot, target: Snapshot, g: Grant, token: Id) {
    && WasRead(s, actor) && WasRead(s, target) && token !in s.h.tokens
    && MayUpdate(actor, target, g)
    && UpdateApplies(s.t, actor, target, g)
  }

  predicate Removes(s: State, actor: Snapshot, target: Snapshot) {
    WasRead(s, actor) && WasRead(s, target) && MayRemove(actor, target) && RemoveApplies(s.t, actor, target)
  }

  function AfterCreate(s: State, org: Id, member: Id, collection: Id, user: Id, email: Id): State {
    if CreatesOrg(s, org, member) then
      var t := CreateOrganization(s.t, org, member, collection, user, email);
      var h := Recorded(s.h, member, t.members[member]);
      State(t, h.(owners := h.owners[org := member]))
    else s
  }

  function AfterInvite(
    s: State, actor: Snapshot, member: Id, user: Id, email: Id, g: Grant, token: Id, userActive: bool): State
  {
    if Invites(s, actor, member, user, email, g, token, userActive) then
      var t := Invite(s.t, actor, member, user, email, g, token);
      State(t, Recorded(s.h, member, t.members[member]))
    else s
  }

  function AfterUpdate(s: State, actor: Snapshot, target: Snapshot, g: Grant, token: Id): State {
    if Updates(s, actor, target, g, token) then
      var t := Update(s.t, target.id, g, token);
      State(t, Recorded(s.h, target.id, t.members[target.id]))
    else s
  }

  function AfterRemove(s: State, actor: Snapshot, target: Snapshot, token: Id): State {
    if Removes(s, actor, target) then State(Remove(s.t, target.id), s.h.(tokens := s.h.tokens + {token})) else s
  }

  function Exec(s: State, step: Step): State {
    match step
    case CreateOrg(org, member, collection, user, email) => AfterCreate(s, org, member, collection, user, email)
    case InviteStep(actor, member, user, email, g, token, active) =>
      AfterInvite(s, actor, member, user, email, g, token, active)
    case UpdateStep(actor, target, g, token) => AfterUpdate(s, actor, target, g, token)
    case RemoveStep(actor, target, token) => AfterRemove(s, actor, target, token)
    case DeleteAccountStep(user) => s.(t := DeleteAccount(s.t, user))
    case SetCollection(id, org) => s.(t := s.t.(collections := s.t.collections[id := org]))
    case DropCollection(id) =>
      s.(t := s.t.(collections := s.t.collections - {id},
                   access := map k | k in s.t.access && k.collection != id :: s.t.access[k]))
  }

  function Run(s: State, steps: seq<Step>): State
    decreases |steps|
  {
    if steps == [] then s else Run(Exec(s, steps[0]), steps[1..])
  }

  const EMPTY := State(Tables({}, map[], map[], map[]), History({}, {}, map[], map[]))

  // ---------------------------------------------------------------------------------------
  // The invariant
  // ---------------------------------------------------------------------------------------

  /** The row is the one recorded for its version, and an owner only as the first row of its organization. */
  predicate RowOk(s: State, m: Id)
    requires m in s.t.members
  {
    var row := s.t.members[m];
    && Version(m, row.token) in s.h.rows && s.h.rows[Version(m, row.token)] == row
    && (row.role == Owner ==> row.org in s.h.owners && s.h.owners[row.org] == m)
  }

  predicate OwnerOk(s: State, org: Id)
    requires org in s.h.owners
  {
    && s.h.owners[org] in s.t.members
    && var row := s.t.members[s.h.owners[org]];
       row.org == org && row.role == Owner && row.status == Confirmed && row.user.Some?
  }

  ghost predicate Inv(s: State) {
    && (forall m :: m in s.t.members ==> RowOk(s, m))
    && s.t.orgs == s.h.owners.Keys
    && (forall org :: org in s.h.owners ==> OwnerOk(s, org))
    && (forall v :: v in s.h.rows ==> v.id in s.h.ids && (v.token.Some? ==> v.token.value in s.h.tokens))
  }

  /** Whoever was read and still stands has the very row that was read. */
  lemma StandingRow(s: State, snap: Snapshot)
    requires Inv(s) && WasRead(s, snap) && snap.id in s.t.members && s.t.members[snap.id].token == snap.row.token
    ensures s.t.members[snap.id] == snap.row
  {
  }

  lemma StepKeepsRow(s: State, step: Step, m: Id)
    requires Inv(s) && m in Exec(s, step).t.members
    ensures RowOk(Exec(s, step), m)
  {
    hide WithAccess, CollectionsExist, ActorStands;
    assert m in s.t.members ==> RowOk(s, m);
  }

  lemma StepKeepsOwner(s: State, step: Step, org: Id)
    requires Inv(s) && org in Exec(s, step).h.owners
    ensures OwnerOk(Exec(s, step), org)
    ensures org in s.h.owners ==> Exec(s, step).h.owners[org] == s.h.owners[org]
  {
    hide WithAccess, CollectionsExist, ActorStands, RowOk;
    assert org in s.h.owners ==> OwnerOk(s, org);
    match step
    case UpdateStep(_, target, _, _) =>
      if WasRead(s, target) && target.id in s.t.members && s.t.members[target.id].token == target.row.token {
        StandingRow(s, target);
      }
    case RemoveStep(_, target, _) =>
      if WasRead(s, target) && target.id in s.t.members && s.t.members[target.id].token == target.row.token {
        StandingRow(s, target);
      }
    case _ =>
  }

  lemma StepKeepsInv(s: State, step: Step)
    requires Inv(s)
    ensures Inv(Exec(s, step))
  {
    forall m | m in Exec(s, step).t.members
      ensures RowOk(Exec(s, step), m)
    {
      StepKeepsRow(s, step, m);
    }
    forall org | org in Exec(s, step).h.owners
      ensures OwnerOk(Exec(s, step), org)
    {
      StepKeepsOwner(s, step, org);
    }
    hide WithAccess, CollectionsExist, ActorStands, RowOk, OwnerOk;
  }

  lemma {:induction false} RunKeepsInv(s: State, steps: seq<Step>)
    requires Inv(s)
    ensures Inv(Run(s, steps))
    ensures forall org :: org in s.h.owners ==>
              org in Run(s, steps).h.owners && Run(s, steps).h.owners[org] == s.h.owners[org]
    decreases |steps|
  {
    hide Inv, Exec;
    if steps != [] {
      var next := Exec(s, steps[0]);
      StepKeepsInv(s, steps[0]);
      OwnersStay(s, steps[0]);
      RunKeepsInv(next, steps[1..]);
    }
  }

  lemma OwnersStay(s: State, step: Step)
    requires Inv(s)
    ensures forall org :: org in s.h.owners ==>
              org in Exec(s, step).h.owners && Exec(s, step).h.owners[org] == s.h.owners[org]
  {
  }

  /** Some interleaving leads here from the empty tables. */
  ghost predicate Reachable(s: State) {
    exists steps :: Run(EMPTY, steps) == s
  }

  lemma ReachableInv(s: State)
    requires Reachable(s)
    ensures Inv(s)
  {
    hide Exec;
    var steps :| Run(EMPTY, steps) == s;
    RunKeepsInv(EMPTY, steps);
  }

  // ---------------------------------------------------------------------------------------
  // What holds over all runs
  // ---------------------------------------------------------------------------------------

  predicate IsOwner(t: Tables, org: Id, m: Id) {
    m in t.members && t.members[m].org == org && t.members[m].role == Owner
  }

  /** At any time every organization has exactly one owner row, a confirmed one, and it is the same row for ever. */
  lemma ExactlyOneOwner(s: State, steps: seq<Step>, org: Id)
    requires Reachable(s) && org in s.t.orgs
    ensures var later := Run(s, steps);
            exists m ::
              && IsOwner(s.t, org, m)
              && (forall n :: IsOwner(s.t, org, n) ==> n == m)
              && IsOwner(later.t, org, m) && later.t.members[m].status == Confirmed
              && (forall n :: IsOwner(later.t, org, n) ==> n == m)
  {
    hide Exec, Reachable;
    ReachableInv(s);
    RunKeepsInv(s, steps);
    var later := Run(s, steps);
    assert OwnerOk(s, org) && OwnerOk(later, org);
    assert forall n :: n in s.t.members ==> RowOk(s, n);
    assert forall n :: n in later.t.members ==> RowOk(later, n);
    assert IsOwner(s.t, org, s.h.owners[org]);
  }

  /** The row appeared, disappeared or has another role. */
  predicate RoleChanged(t: Tables, t': Tables, m: Id) {
    (m in t.members) != (m in t'.members) || (m in t.members && t.members[m].role != t'.members[m].role)
  }

  /** A confirmed member of the same organization, above the role that was there and the role that is. */
  predicate Outranks(t: Tables, t': Tables, a: Id, m: Id) {
    && a in t.members && t.members[a].status == Confirmed
    && (m in t.members ==> t.members[m].org == t.members[a].org && CanManageRole(t.members[a].role, t.members[m].role))
    && (m in t'.members ==> t'.members[m].org == t.members[a].org && CanManageRole(t.members[a].role, t'.members[m].role))
  }

  function Actor(step: Step): Option<Id> {
    match step
    case InviteStep(actor, _, _, _, _, _, _) => Some(actor.id)
    case UpdateStep(actor, _, _, _) => Some(actor.id)
    case RemoveStep(actor, _, _) => Some(actor.id)
    case _ => None
  }

  lemma ChangeIsAuthorized(s: State, step: Step, m: Id)
    requires Inv(s) && RoleChanged(s.t, Exec(s, step).t, m)
    requires !step.CreateOrg? && !step.DeleteAccountStep?
    ensures Actor(step).Some? && Outranks(s.t, Exec(s, step).t, Actor(step).value, m)
  {
  }

  /**
   Over all interleavings: whenever a member's role is given, changed or taken by a request, the
   requester is at that moment a confirmed member of the organization and ranks above the member's
   old role and new role, whatever the rows said when the request looked.
   */
  lemma RoleChangesAreAuthorized(s: State, step: Step, m: Id)
    requires Reachable(s) && RoleChanged(s.t, Exec(s, step).t, m)
    requires !step.CreateOrg? && !step.DeleteAccountStep?
    ensures Actor(step).Some? && Outranks(s.t, Exec(s, step).t, Actor(step).value, m)
  {
    hide Exec, Reachable;
    ReachableInv(s);
    ChangeIsAuthorized(s, step, m);
  }

  /** A committed update leaves the member with exactly the collections of the request, and everybody else with theirs. */
  lemma UpdateGrantsExactly(t: Tables, actor: Snapshot, target: Snapshot, g: Grant, token: Id, k: AccessKey)
    requires UpdateApplies(t, actor, target, g)
    ensures var after := Update(t, target.id, g, token);
            && (k in after.access <==>
                  if k.member == target.id then !g.accessAll && k.collection in g.collections else k in t.access)
            && (k in after.access && k.member == target.id ==>
                  && after.access[k] == g.collections[k.collection]
                  && k.collection in t.collections && t.collections[k.collection] == after.members[target.id].org)
  {
  }

  /** Two requests that decided on the same version of a member: the second to commit is refused. */
  lemma OneUpdatePerVersion(
    s: State, actor: Snapshot, target: Snapshot, g: Grant, token: Id, steps: seq<Step>,
    other: Snapshot, h: Grant, next: Id)
    requires Reachable(s) && Updates(s, actor, target, g, token)
    ensures !Updates(Run(Exec(s, UpdateStep(actor, target, g, token)), steps), other, target, h, next)
  {
    hide Reachable;
    ReachableInv(s);
    var after := Exec(s, UpdateStep(actor, target, g, token));
    StepKeepsInv(s, UpdateStep(actor, target, g, token));
    assert VersionGone(after, Version(target.id, target.row.token));
    VersionStaysGone(after, steps, Version(target.id, target.row.token));
  }

  /** A recorded version that the table no longer has. */
  predicate VersionGone(s: State, v: Version) {
    v in s.h.rows && (v.id in s.t.members ==> s.t.members[v.id].token != v.token)
  }

  lemma {:induction false} VersionStaysGone(s: State, steps: seq<Step>, v: Version)
    requires Inv(s) && VersionGone(s, v)
    ensures VersionGone(Run(s, steps), v)
    decreases |steps|
  {
    hide Inv, Exec, VersionGone;
    if steps != [] {
      GoneStaysGone(s, steps[0], v);
      StepKeepsInv(s, steps[0]);
      VersionStaysGone(Exec(s, steps[0]), steps[1..], v);
    }
  }

  lemma GoneStaysGone(s: State, step: Step, v: Version)
    requires Inv(s) && VersionGone(s, v)
    ensures VersionGone(Exec(s, step), v)
  {
  }
}
