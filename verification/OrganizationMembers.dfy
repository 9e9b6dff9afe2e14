/**
 Organization members (apps/api/src/handlers/organization-members.ts, organizations.ts:131-164,
 services/account-deletion.ts:45-78): who may change whose role is decided on rows read earlier, and
 every interleaving of such requests is considered.
 */
module OrganizationMembers {
  import opened Options

  /** Other stands for a role the level table does not know. */
  datatype Role = Plain | Manager | Admin | Owner | Other

  datatype Status = Invited | Accepted | Confirmed | Revoked

  datatype Member = Member(
    org: Id, user: Option<Id>, email: Id, role: Role, status: Status, accessAll: bool, token: Option<Id>)

  datatype Rights = Rights(readOnly: bool, hidePasswords: bool)

  datatype AccessKey = AccessKey(collection: Id, member: Id)

  datatype Tables = Tables(
    orgs: set<Id>, members: map<Id, Member>, collections: map<Id, Id>, access: map<AccessKey, Rights>)

  function Level(role: Role, unknown: int): int {
    match role
    case Plain => 0
    case Manager => 1
    case Admin => 2
    case Owner => 3
    case Other => unknown
  }

  predicate CanManageRole(actor: Role, target: Role) {
    Level(actor, -1) > Level(target, 99)
  }

  /** A row as a request read it. */
  datatype Snapshot = Snapshot(id: Id, row: Member)

  /** What a request asks for: a role and the collections it may see, one entry for each. */
  datatype Grant = Grant(role: Role, accessAll: bool, collections: map<Id, Rights>)

  /** The acting row is still the one that was read. */
  predicate ActorStands(t: Tables, actor: Snapshot) {
    && actor.id in t.members
    && var row := t.members[actor.id];
       && row.org == actor.row.org && row.role == actor.row.role && row.status == Confirmed
       && row.token == actor.row.token
  }

  predicate CollectionsExist(t: Tables, org: Id, g: Grant) {
    g.accessAll || forall c :: c in g.collections ==> c in t.collections && t.collections[c] == org
  }

  predicate TargetStands(t: Tables, org: Id, target: Snapshot) {
    target.id in t.members && t.members[target.id].org == org && t.members[target.id].token == target.row.token
  }

  /** The checks an update makes on the rows it read. */
  predicate MayUpdate(actor: Snapshot, target: Snapshot, g: Grant) {
    && target.row.org == actor.row.org
    && target.row.role != Owner
    && CanManageRole(actor.row.role, target.row.role)
    && CanManageRole(actor.row.role, g.role)
  }

  predicate MayRemove(actor: Snapshot, target: Snapshot) {
    && target.row.org == actor.row.org
    && target.row.role != Owner
    && CanManageRole(actor.row.role, target.row.role)
  }

  /** Where the collections of a grant end up: restricted access only. */
  function Requested(g: Grant): map<Id, Rights> {
    if g.accessAll then map[] else g.collections
  }

  // ---------------------------------------------------------------------------------------
  // Batches
  // ---------------------------------------------------------------------------------------

  function CreateOrganization(t: Tables, org: Id, member: Id, collection: Id, user: Id, email: Id): Tables {
    Tables(
      t.orgs + {org},
      t.members[member := Member(org, Some(user), email, Owner, Confirmed, true, None)],
      t.collections[collection := org],
      t.access)
  }

  predicate InviteApplies(t: Tables, actor: Snapshot, user: Id, email: Id, g: Grant, userActive: bool) {
    && userActive
    && ActorStands(t, actor)
    && (forall m :: m in t.members && t.members[m].org == actor.row.org ==>
          t.members[m].email != email && t.members[m].user != Some(user))
    && CollectionsExist(t, actor.row.org, g)
  }

  function WithAccess(access: map<AccessKey, Rights>, member: Id, granted: map<Id, Rights>): map<AccessKey, Rights> {
    map k: AccessKey |
      k in access.Keys + (set c | c in granted :: AccessKey(c, member)) && (k.member == member ==> k.collection in granted) ::
      if k.member == member then granted[k.collection] else access[k]
  }

  function Invite(t: Tables, actor: Snapshot, member: Id, user: Id, email: Id, g: Grant, token: Id): Tables {
    t.(members := t.members[member := Member(actor.row.org, Some(user), email, g.role, Confirmed, g.accessAll, Some(token))],
       access := WithAccess(t.access, member, Requested(g)))
  }

  predicate UpdateApplies(t: Tables, actor: Snapshot, target: Snapshot, g: Grant) {
    TargetStands(t, actor.row.org, target) && ActorStands(t, actor) && CollectionsExist(t, actor.row.org, g)
  }

  function Update(t: Tables, target: Id, g: Grant, token: Id): Tables
    requires target in t.members
  {
    t.(members := t.members[target := t.members[target].(role := g.role, accessAll := g.accessAll, token := Some(token))],
       access := WithAccess(t.access, target, Requested(g)))
  }

  predicate RemoveApplies(t: Tables, actor: Snapshot, target: Snapshot) {
    TargetStands(t, actor.row.org, target) && ActorStands(t, actor)
  }

  function Remove(t: Tables, target: Id): Tables {
    t.(members := t.members - {target}, access := WithAccess(t.access, target, map[]))
  }

  /** Deleting an account takes its memberships along, unless it owns an organization. */
  predicate OwnsOrganization(t: Tables, user: Id) {
    exists m ::
      && m in t.members && t.members[m].user == Some(user)
      && t.members[m].role == Owner && t.members[m].status == Confirmed
  }

  function DeleteAccount(t: Tables, user: Id): Tables {
    if OwnsOrganization(t, user) then t
    else
      t.(members := map m | m in t.members && t.members[m].user != Some(user) :: t.members[m],
         access := map k | k in t.access && !(k.member in t.members && t.members[k.member].user == Some(user)) :: t.access[k])
  }

  // ---------------------------------------------------------------------------------------
  // Statement by statement
  // ---------------------------------------------------------------------------------------

  class Database {
    var orgs: set<Id>
    var members: map<Id, Member>
    var collections: map<Id, Id>
    var access: map<AccessKey, Rights>

    constructor ()
      ensures Contents() == Tables({}, map[], map[], map[])
    {
      orgs, members, collections, access := {}, map[], map[], map[];
    }

    function Contents(): Tables
      reads this
    {
      Tables(orgs, members, collections, access)
    }

    /** INSERT INTO collection_members ... if the member carries the batch's token and the collection is its organization's. */
    method GrantCollection(member: Id, collection: Id, rights: Rights, token: Id)
      requires AccessKey(collection, member) !in access
      modifies this`access
      ensures access ==
              if && member in members && members[member].token == Some(token)
                 && collection in collections && collections[collection] == members[member].org
              then old(access)[AccessKey(collection, member) := rights]
              else old(access)
    {
      if member in members && members[member].token == Some(token)
         && collection in collections && collections[collection] == members[member].org {
        access := access[AccessKey(collection, member) := rights];
      }
    }

    /** The member row carries the token that its batch wrote. */
    predicate Claimed(member: Id, token: Id)
      reads this
    {
      member in members && members[member].token == Some(token)
    }

    /** One insert for each requested collection. */
    method GrantCollections(member: Id, granted: map<Id, Rights>, token: Id)
      requires forall k :: k in access ==> k.member != member
      requires Claimed(member, token) ==>
                 forall c :: c in granted ==> c in collections && collections[c] == members[member].org
      modifies this`access
      ensures access == if Claimed(member, token) then WithAccess(old(access), member, granted) else old(access)
    {
      hide WithAccess;
      var rest := granted.Keys;
      ghost var before := access;
      while rest != {}
        invariant rest <= granted.Keys
        invariant if Claimed(member, token) then Granted(before, access, member, granted, granted.Keys - rest)
                  else access == before
        decreases rest
      {
        var collection :| collection in rest;
        GrantCollection(member, collection, granted[collection], token);
        rest := rest - {collection};
      }
      if Claimed(member, token) {
        GrantedAll(before, access, member, granted);
      }
    }

    method InviteMember(actor: Snapshot, member: Id, user: Id, email: Id, g: Grant, token: Id, userActive: bool)
      returns (inserted: bool)
      requires member !in members && forall k :: k in access ==> k.member != member
      modifies this`members, this`access
      ensures inserted <==> InviteApplies(old(Contents()), actor, user, email, g, userActive)
      ensures Contents() == if inserted then Invite(old(Contents()), actor, member, user, email, g, token) else old(Contents())
    {
      hide WithAccess;
      inserted := InviteApplies(Contents(), actor, user, email, g, userActive);
      if inserted {
        members := members[member := Member(actor.row.org, Some(user), email, g.role, Confirmed, g.accessAll, Some(token))];
      }
      GrantCollections(member, Requested(g), token);
    }

    /** The guarded update, then its collections if the row carries its token. */
    method UpdateMember(actor: Snapshot, target: Snapshot, g: Grant, token: Id) returns (updated: bool)
      requires target.id in members ==> members[target.id].token != Some(token)
      modifies this`members, this`access
      ensures updated <==> UpdateApplies(old(Contents()), actor, target, g)
      ensures Contents() == if updated then Update(old(Contents()), target.id, g, token) else old(Contents())
    {
      hide WithAccess;
      updated := UpdateApplies(Contents(), actor, target, g);
      if updated {
        members := members[target.id := members[target.id].(role := g.role, accessAll := g.accessAll, token := Some(token))];
      }
      ghost var before := access;
      if Claimed(target.id, token) {
        access := map k | k in access && k.member != target.id :: access[k];
        GrantCollections(target.id, Requested(g), token);
        GrantingReplaces(before, target.id, Requested(g));
      }
    }

    /** Claims the row, then deletes what it claimed; the collection rows go with it. */
    method RemoveMember(actor: Snapshot, target: Snapshot, token: Id) returns (removed: bool)
      requires target.id in members ==> members[target.id].token != Some(token)
      modifies this`members, this`access
      ensures removed <==> RemoveApplies(old(Contents()), actor, target)
      ensures Contents() == if removed then Remove(old(Contents()), target.id) else old(Contents())
    {
      removed := RemoveApplies(Contents(), actor, target);
      if removed {
        members := members[target.id := members[target.id].(token := Some(token))];
      }
      if Claimed(target.id, token) && members[target.id].org == actor.row.org {
        members := members - {target.id};
        access := map k | k in access && k.member != target.id :: access[k];
      }
    }
  }

  /** The new rows so far. */
  ghost predicate Granted(
    before: map<AccessKey, Rights>, after: map<AccessKey, Rights>, member: Id, granted: map<Id, Rights>, done: set<Id>)
    requires done <= granted.Keys
  {
    && (forall k :: k in after <==> if k.member == member then k.collection in done else k in before)
    && (forall k :: k in after ==> after[k] == if k.member == member then granted[k.collection] else before[k])
  }

  lemma GrantedAll(before: map<AccessKey, Rights>, after: map<AccessKey, Rights>, member: Id, granted: map<Id, Rights>)
    requires Granted(before, after, member, granted, granted.Keys)
    ensures after == WithAccess(before, member, granted)
  {
  }

  lemma GrantingReplaces(before: map<AccessKey, Rights>, member: Id, granted: map<Id, Rights>)
    ensures WithAccess(map k | k in before && k.member != member :: before[k], member, granted)
            == WithAccess(before, member, granted)
  {
  }
}
