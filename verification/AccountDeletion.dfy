/**
 Deleting an account (apps/api/src/services/account-deletion.ts:14-114): one batch over users, ciphers,
 Sends, refresh tokens and memberships, each statement after the first guarded by the marks the first
 one leaves.
 */
module AccountDeletion {
  import opened Options
  import Identity = IdentityTables
  import Org = OrganizationMembers

  datatype Cipher = Cipher(user: Id, deletedAt: Option<int>, purgeAfter: Option<int>, updatedAt: int)

  datatype Send = Send(user: Id, deletionDate: int, updatedAt: int)

  datatype Deletion = Deletion(ciphers: nat, sends: nat)

  datatype Tables = Tables(t: Identity.Tables, org: Org.Tables, ciphers: map<Id, Cipher>, sends: map<Id, Send>)

  function CiphersOf(ciphers: map<Id, Cipher>, user: Id): set<Id> {
    set id | id in ciphers && ciphers[id].user == user
  }

  function SendsOf(sends: map<Id, Send>, user: Id): set<Id> {
    set id | id in sends && sends[id].user == user
  }

  /** Into the trash, due at once. */
  function TrashedCiphers(ciphers: map<Id, Cipher>, user: Id, now: int): map<Id, Cipher> {
    map id | id in ciphers ::
      if ciphers[id].user == user then Cipher(user, Some(now), Some(now), now) else ciphers[id]
  }

  function ExpiredSends(sends: map<Id, Send>, user: Id, now: int): map<Id, Send> {
    map id | id in sends :: if sends[id].user == user then Send(user, now, now) else sends[id]
  }

  predicate Deletable(d: Tables, user: Id) {
    user in d.t.users && d.t.users[user].deletionRequestedAt == None && !Org.OwnsOrganization(d.org, user)
  }

  /** Everything the account has goes with it, or nothing does. */
  function DeleteAccount(d: Tables, user: Id, deletionToken: Id, now: int): Tables {
    if Deletable(d, user) then
      Tables(
        Identity.DeleteAccount(d.t, user, deletionToken, now, false),
        Org.DeleteAccount(d.org, user),
        TrashedCiphers(d.ciphers, user, now),
        ExpiredSends(d.sends, user, now))
    else d
  }

  class Database {
    var t: Identity.Tables
    var org: Org.Tables
    var ciphers: map<Id, Cipher>
    var sends: map<Id, Send>

    constructor (d: Tables)
      ensures Contents() == d
    {
      t, org, ciphers, sends := d.t, d.org, d.ciphers, d.sends;
    }

    function Contents(): Tables
      reads this
    {
      Tables(t, org, ciphers, sends)
    }

    /** The marks of this deletion: nobody else has its token. */
    predicate OwnsDeletion(user: Id, deletionToken: Id, now: int)
      reads this
    {
      user in t.users && t.users[user].securityStamp == deletionToken && t.users[user].deletionRequestedAt == Some(now)
    }

    /** UPDATE users ... WHERE NOT EXISTS a confirmed ownership. */
    method ArchiveUser(user: Id, deletionToken: Id, now: int) returns (affected: nat)
      modifies this`t
      ensures affected == if Deletable(old(Contents()), user) then 1 else 0
      ensures t == if affected == 1 then
                     old(t).(users := old(t).users[user := old(t).users[user].(
                       status := Identity.Banned, deletionRequestedAt := Some(now), securityStamp := deletionToken)])
                   else old(t)
    {
      affected := 0;
      if user in t.users && t.users[user].deletionRequestedAt == None {
        var owns := exists m ::
          && m in org.members && org.members[m].user == Some(user)
          && org.members[m].role == Org.Owner && org.members[m].status == Org.Confirmed;
        if !owns {
          t := t.(users := t.users[user := t.users[user].(
            status := Identity.Banned, deletionRequestedAt := Some(now), securityStamp := deletionToken)]);
          affected := 1;
        }
      }
    }

    method TrashCiphers(user: Id, deletionToken: Id, now: int) returns (affected: nat)
      modifies this`ciphers
      ensures OwnsDeletion(user, deletionToken, now) ==>
                ciphers == TrashedCiphers(old(ciphers), user, now) && affected == |CiphersOf(old(ciphers), user)|
      ensures !OwnsDeletion(user, deletionToken, now) ==> ciphers == old(ciphers) && affected == 0
    {
      affected := 0;
      if OwnsDeletion(user, deletionToken, now) {
        var mine := set id | id in ciphers && ciphers[id].user == user;
        assert mine == CiphersOf(ciphers, user);
        affected := |mine|;
        ciphers := map id | id in ciphers ::
          if id in mine then ciphers[id].(deletedAt := Some(now), purgeAfter := Some(now), updatedAt := now) else ciphers[id];
      }
    }

    method ExpireSends(user: Id, deletionToken: Id, now: int) returns (affected: nat)
      modifies this`sends
      ensures OwnsDeletion(user, deletionToken, now) ==>
                sends == ExpiredSends(old(sends), user, now) && affected == |SendsOf(old(sends), user)|
      ensures !OwnsDeletion(user, deletionToken, now) ==> sends == old(sends) && affected == 0
    {
      affected := 0;
      if OwnsDeletion(user, deletionToken, now) {
        var mine := set id | id in sends && sends[id].user == user;
        assert mine == SendsOf(sends, user);
        affected := |mine|;
        sends := map id | id in sends :: if id in mine then sends[id].(deletionDate := now, updatedAt := now) else sends[id];
      }
    }

    /** DELETE FROM org_members; the grants of a membership go with it. */
    method DeleteMemberships(user: Id, deletionToken: Id, now: int)
      modifies this`org
      ensures OwnsDeletion(user, deletionToken, now) && !Org.OwnsOrganization(old(org), user) ==>
                org == Org.DeleteAccount(old(org), user)
      ensures !OwnsDeletion(user, deletionToken, now) ==> org == old(org)
    {
      if OwnsDeletion(user, deletionToken, now) {
        var mine := set m | m in org.members && org.members[m].user == Some(user);
        org := org.(members := map m | m in org.members && m !in mine :: org.members[m],
                    access := map k | k in org.access && k.member !in mine :: org.access[k]);
      }
    }

    /**
     The batch, and the answer to a second deletion of the same account: it changes nothing and reports
     nothing deleted, where an owner or an unknown account is refused.
     */
    method DeleteAccountData(user: Id, deletionToken: Id, now: int) returns (result: Option<Deletion>)
      requires user in t.users ==> t.users[user].securityStamp != deletionToken
      modifies this
      ensures Contents() == DeleteAccount(old(Contents()), user, deletionToken, now)
      ensures result ==
              if Deletable(old(Contents()), user) then
                Some(Deletion(|CiphersOf(old(ciphers), user)|, |SendsOf(old(sends), user)|))
              else if user in old(t).users && old(t).users[user].deletionRequestedAt.Some? then Some(Deletion(0, 0))
              else None
    {
      hide Org.DeleteAccount, TrashedCiphers, ExpiredSends, CiphersOf, SendsOf;
      var archived := ArchiveUser(user, deletionToken, now);
      var trashed := TrashCiphers(user, deletionToken, now);
      var expired := ExpireSends(user, deletionToken, now);
      if OwnsDeletion(user, deletionToken, now) {
        t := t.(tokens := map h | h in t.tokens && t.tokens[h].user != user :: t.tokens[h]);
      }
      DeleteMemberships(user, deletionToken, now);
      if archived != 1 {
        var tombstone := user in t.users && t.users[user].deletionRequestedAt.Some?;
        return if tombstone then Some(Deletion(0, 0)) else None;
      }
      return Some(Deletion(trashed, expired));
    }
  }

  /**
   What each area sees of the batch is the deletion its own model has: sessions with ownership read off
   the memberships, memberships only if the account was there to delete.
   */
  lemma DeletionAgrees(d: Tables, user: Id, deletionToken: Id, now: int)
    ensures DeleteAccount(d, user, deletionToken, now).t ==
            Identity.DeleteAccount(d.t, user, deletionToken, now, Org.OwnsOrganization(d.org, user))
    ensures user in d.t.users && d.t.users[user].deletionRequestedAt == None ==>
              DeleteAccount(d, user, deletionToken, now).org == Org.DeleteAccount(d.org, user)
    ensures !(user in d.t.users && d.t.users[user].deletionRequestedAt == None) ==>
              DeleteAccount(d, user, deletionToken, now) == d
  {
    hide Org.OwnsOrganization, TrashedCiphers, ExpiredSends;
  }

  /** Deleting twice is deleting once, whatever token and time the second one has. */
  lemma DeletingTwice(d: Tables, user: Id, first: Id, second: Id, now: int, later: int)
    ensures DeleteAccount(DeleteAccount(d, user, first, now), user, second, later) == DeleteAccount(d, user, first, now)
  {
    hide Org.OwnsOrganization, TrashedCiphers, ExpiredSends;
  }

  /** A deleted account has no live cipher or Send, no token and no membership; everybody else keeps theirs. */
  lemma DeletionIsComplete(d: Tables, user: Id, deletionToken: Id, now: int)
    requires Deletable(d, user)
    ensures var after := DeleteAccount(d, user, deletionToken, now);
            && (forall h :: h in after.t.tokens <==> h in d.t.tokens && d.t.tokens[h].user != user)
            && (forall m :: m in after.org.members <==> m in d.org.members && d.org.members[m].user != Some(user))
            && (forall k :: k in after.org.access && k.member in d.org.members ==> k.member in after.org.members)
            && after.ciphers.Keys == d.ciphers.Keys && after.sends.Keys == d.sends.Keys
            && (forall id :: id in d.ciphers ==>
                  if d.ciphers[id].user == user then
                    after.ciphers[id].deletedAt == Some(now) && after.ciphers[id].purgeAfter == Some(now)
                  else after.ciphers[id] == d.ciphers[id])
            && (forall id :: id in d.sends ==>
                  if d.sends[id].user == user then after.sends[id].deletionDate == now else after.sends[id] == d.sends[id])
  {
  }

  /**
   When an account is deleted and what its row says then: it is there, not yet deleted and no confirmed
   owner of anything; it is banned, marked with the time and the token that is its stamp now.
   */
  lemma DeletionMarksUser(d: Tables, user: Id, deletionToken: Id, now: int)
    ensures var after := DeleteAccount(d, user, deletionToken, now);
            if && user in d.t.users && d.t.users[user].deletionRequestedAt == None
               && (forall m :: m in d.org.members && d.org.members[m].user == Some(user) ==>
                     d.org.members[m].role != Org.Owner || d.org.members[m].status != Org.Confirmed)
            then
              && after.t == d.t.(users := after.t.users, tokens := after.t.tokens)
              && after.t.users == d.t.users[user := d.t.users[user].(
                   status := Identity.Banned, deletionRequestedAt := Some(now), securityStamp := deletionToken)]
            else after == d
  {
    hide Org.DeleteAccount, TrashedCiphers, ExpiredSends;
  }
}
