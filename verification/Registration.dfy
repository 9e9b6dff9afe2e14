/**
 Registration outside demo mode (apps/api/src/handlers/public.ts:52-191, services/registration-policy.ts):
 the first account claims a lock, an invitation claims one of its own, and a batch that runs into a
 claimed lock or leaves its user out is rolled back whole.
 */
module Registration {
  import opened Options

  datatype InviteStatus = Active | Used | Revoked | Expired

  datatype Invite = Invite(email: Id, status: InviteStatus, expiresAt: int, usedBy: Option<Id>)

  datatype User = User(email: Id, admin: bool)

  datatype Tables = Tables(
    users: map<Id, User>, revisions: set<Id>, bootstrapLock: Option<Id>, inviteLocks: map<Id, Id>, invites: map<Id, Invite>)

  /** The one statement a request reads the state with: how many users there are and who holds the lock. */
  datatype Read = Read(userCount: nat, bootstrapLock: Option<Id>)

  /** A registration after its checks: whether the state it read made it the bootstrap, and its invitation. */
  datatype Request = Request(user: Id, email: Id, bootstrap: bool, invite: Option<Id>, now: int)

  predicate InviteOpen(invites: map<Id, Invite>, code: Id, email: Id, now: int) {
    code in invites && invites[code].status == Active && invites[code].expiresAt > now && invites[code].email == email
  }

  /** When the batch goes through. */
  predicate Registers(t: Tables, r: Request) {
    && r.user !in t.users
    && (forall u :: u in t.users ==> t.users[u].email != r.email)
    && (r.bootstrap ==> t.bootstrapLock == None)
    && (r.invite.Some? ==> InviteOpen(t.invites, r.invite.value, r.email, r.now) && r.invite.value !in t.inviteLocks)
  }

  function Register(t: Tables, r: Request): Tables {
    if Registers(t, r) then
      Tables(
        t.users[r.user := User(r.email, r.bootstrap)],
        t.revisions + {r.user},
        if r.bootstrap then Some(r.user) else t.bootstrapLock,
        if r.invite.Some? then t.inviteLocks[r.invite.value := r.user] else t.inviteLocks,
        if r.invite.Some? then
          t.invites[r.invite.value := t.invites[r.invite.value].(status := Used, usedBy := Some(r.user))]
        else t.invites)
    else t
  }

  class Database {
    var users: map<Id, User>
    var revisions: set<Id>
    var bootstrapLock: Option<Id>
    var inviteLocks: map<Id, Id>
    var invites: map<Id, Invite>

    constructor ()
      ensures Contents() == Tables(map[], {}, None, map[], map[])
    {
      users, revisions, bootstrapLock, inviteLocks, invites := map[], {}, None, map[], map[];
    }

    function Contents(): Tables
      reads this
    {
      Tables(users, revisions, bootstrapLock, inviteLocks, invites)
    }

    method Restore(t: Tables)
      modifies this
      ensures Contents() == t
    {
      users, revisions, bootstrapLock, inviteLocks, invites := t.users, t.revisions, t.bootstrapLock, t.inviteLocks, t.invites;
    }

    /** INSERT INTO config SELECT ... FROM invites; false if the key is taken. */
    method ClaimInvite(code: Id, r: Request) returns (ok: bool)
      modifies this`inviteLocks
      ensures ok <==> (InviteOpen(invites, code, r.email, r.now) ==> code !in old(inviteLocks))
      ensures inviteLocks ==
              if ok && InviteOpen(invites, code, r.email, r.now) then old(inviteLocks)[code := r.user] else old(inviteLocks)
    {
      ok := true;
      if code in invites && invites[code].status == Active && invites[code].expiresAt > r.now
         && invites[code].email == r.email {
        if code in inviteLocks {
          ok := false;
        } else {
          inviteLocks := inviteLocks[code := r.user];
        }
      }
    }

    method ClaimBootstrap(r: Request) returns (ok: bool)
      modifies this`bootstrapLock
      ensures ok <==> old(bootstrapLock) == None
      ensures bootstrapLock == if ok then Some(r.user) else old(bootstrapLock)
    {
      ok := bootstrapLock == None;
      if ok {
        bootstrapLock := Some(r.user);
      }
    }

    /** The user row, for an invitation only if the batch holds its lock; false if the id or the address is taken. */
    method InsertUser(r: Request) returns (ok: bool)
      modifies this`users
      ensures var due := r.invite.Some? ==> r.invite.value in inviteLocks && inviteLocks[r.invite.value] == r.user;
              var free := r.user !in old(users) && forall u :: u in old(users) ==> old(users)[u].email != r.email;
              && ok == (due ==> free)
              && users == if due && free then old(users)[r.user := User(r.email, r.bootstrap)] else old(users)
    {
      ok := true;
      if r.invite.None? || (r.invite.value in inviteLocks && inviteLocks[r.invite.value] == r.user) {
        if r.user in users || exists u :: u in users && users[u].email == r.email {
          ok := false;
        } else {
          users := users[r.user := User(r.email, r.bootstrap)];
        }
      }
    }

    method UseInvite(code: Id, r: Request)
      modifies this`invites
      ensures invites ==
              if InviteOpen(old(invites), code, r.email, r.now) then
                old(invites)[code := old(invites)[code].(status := Used, usedBy := Some(r.user))]
              else old(invites)
    {
      if InviteOpen(invites, code, r.email, r.now) {
        invites := invites[code := invites[code].(status := Used, usedBy := Some(r.user))];
      }
    }

    /** The statements in order; the first that fails undoes those before it. A revision needs its user's row. */
    method RegisterAccount(r: Request) returns (ok: bool)
      requires r.user !in users && forall c :: c in inviteLocks ==> inviteLocks[c] != r.user
      modifies this
      ensures ok <==> Registers(old(Contents()), r)
      ensures Contents() == Register(old(Contents()), r)
    {
      var before := Contents();
      ok := true;
      if r.invite.Some? {
        ok := ClaimInvite(r.invite.value, r);
      }
      if ok && r.bootstrap {
        ok := ClaimBootstrap(r);
      }
      if ok {
        ok := InsertUser(r);
      }
      if ok {
        ok := r.user in users;
        if ok {
          revisions := revisions + {r.user};
        }
      }
      if ok && r.invite.Some? {
        UseInvite(r.invite.value, r);
      }
      if !ok {
        Restore(before);
      }
    }
  }

  // ---------------------------------------------------------------------------------------
  // Runs
  // ---------------------------------------------------------------------------------------

  /**
   What has happened: every state a request may have read, everybody who registered, in order, who
   registered as an administrator, and which invitation each invited user came with.
   */
  datatype History = History(observed: set<Read>, joined: seq<Id>, admins: set<Id>, invitedBy: map<Id, Id>, codes: set<Id>)

  datatype State = State(t: Tables, h: History)

  /**
   Register carries the state it read and whether signups were open then. Others create, expire,
   revoke and delete invitations, and change what users are called and may do.
   */
  datatype Step =
    | RegisterStep(read: Read, user: Id, email: Id, invite: Option<Id>, signupsAllowed: bool, secretOk: bool, now: int)
    | CreateInvite(code: Id, email: Id, expiresAt: int)
    | CloseInvite(code: Id, status: InviteStatus)
    | DeleteInvite(code: Id)
    | EditUser(user: Id, email: Id, admin: bool)

  function Current(t: Tables): Read {
    Read(|t.users|, t.bootstrapLock)
  }

  predicate Bootstraps(read: Read) {
    read.userCount == 0 && read.bootstrapLock == None
  }

  /** The checks before the batch, on what was read. */
  predicate PassesChecks(s: State, step: Step)
    requires step.RegisterStep?
  {
    && step.read in s.h.observed
    && step.user !in s.t.users && step.user !in s.h.joined && step.user !in s.h.invitedBy
    && !(step.read.userCount == 0 && step.read.bootstrapLock.Some?)
    && (if Bootstraps(step.read) then step.secretOk else step.signupsAllowed || step.invite.Some?)
  }

  function RequestOf(step: Step): Request
    requires step.RegisterStep?
  {
    Request(step.user, step.email, Bootstraps(step.read), step.invite, step.now)
  }

  function AfterRegister(s: State, step: Step): State
    requires step.RegisterStep?
  {
    var r := RequestOf(step);
    if PassesChecks(s, step) && Registers(s.t, r) then
      State(Register(s.t, r),
            s.h.(joined := s.h.joined + [r.user],
                 admins := if r.bootstrap then s.h.admins + {r.user} else s.h.admins,
                 invitedBy := if r.invite.Some? then s.h.invitedBy[r.user := r.invite.value] else s.h.invitedBy))
    else s
  }

  function Acted(s: State, step: Step): State {
    match step
    case RegisterStep(_, _, _, _, _, _, _) => AfterRegister(s, step)
    case CreateInvite(code, email, expiresAt) =>
      if code in s.h.codes then s
      else
        State(s.t.(invites := s.t.invites[code := Invite(email, Active, expiresAt, None)]),
              s.h.(codes := s.h.codes + {code}))
    case CloseInvite(code, status) =>
      if code in s.t.invites && s.t.invites[code].status == Active && (status == Expired || status == Revoked) then
        s.(t := s.t.(invites := s.t.invites[code := s.t.invites[code].(status := status)]))
      else s
    case DeleteInvite(code) => s.(t := s.t.(invites := s.t.invites - {code}))
    case EditUser(user, email, admin) =>
      if user in s.t.users then s.(t := s.t.(users := s.t.users[user := User(email, admin)])) else s
  }

  /** The state after a step can be read from then on. */
  function Exec(s: State, step: Step): State {
    var after := Acted(s, step);
    after.(h := after.h.(observed := after.h.observed + {Current(after.t)}))
  }

  function Run(s: State, steps: seq<Step>): State
    decreases |steps|
  {
    if steps == [] then s else Run(Exec(s, steps[0]), steps[1..])
  }

  const NOTHING := Tables(map[], {}, None, map[], map[])
  const EMPTY := State(NOTHING, History({Current(NOTHING)}, [], {}, map[], {}))

  predicate InviteOk(s: State, code: Id) {
    && (code in s.t.inviteLocks ==>
          && code in s.h.codes
          && s.t.inviteLocks[code] in s.h.invitedBy && s.h.invitedBy[s.t.inviteLocks[code]] == code
          && s.t.inviteLocks[code] in s.t.users)
    && (code in s.t.invites ==> code in s.h.codes)
    && (code in s.t.invites && code in s.t.inviteLocks ==>
          s.t.invites[code].status == Used && s.t.invites[code].usedBy == Some(s.t.inviteLocks[code]))
    && (code in s.t.invites && s.t.invites[code].status == Used ==> code in s.t.inviteLocks)
  }

  /** The lock names the first who registered, who is the only one to have registered as an administrator. */
  ghost predicate BootstrapOk(s: State) {
    && (s.t.users == map[] <==> s.h.joined == [])
    && (s.h.joined != [] ==> s.t.bootstrapLock == Some(s.h.joined[0]) && s.h.admins == {s.h.joined[0]})
    && (s.h.joined == [] ==> s.t.bootstrapLock == None && s.h.admins == {})
    && (forall u :: u in s.h.joined ==> u in s.t.users)
  }

  /** Users and the lock are never taken away, so what was read of them still holds. */
  ghost predicate ReadsHold(s: State) {
    forall r :: r in s.h.observed ==>
      (r.userCount > 0 ==> s.t.users != map[]) && (r.bootstrapLock.Some? ==> s.t.bootstrapLock == r.bootstrapLock)
  }

  ghost predicate InvitesOk(s: State) {
    && (forall code :: code in s.t.inviteLocks || code in s.t.invites ==> InviteOk(s, code))
    && (forall u :: u in s.h.invitedBy ==>
          s.h.invitedBy[u] in s.t.inviteLocks && s.t.inviteLocks[s.h.invitedBy[u]] == u && u in s.t.users)
  }

  ghost predicate Inv(s: State) {
    BootstrapOk(s) && ReadsHold(s) && InvitesOk(s)
  }

  lemma EmptyIsOk()
    ensures Inv(EMPTY)
  {
  }

  lemma RegisterKeepsBootstrap(s: State, step: Step)
    requires BootstrapOk(s) && ReadsHold(s) && step.RegisterStep?
    ensures BootstrapOk(AfterRegister(s, step)) && ReadsHold(AfterRegister(s, step))
  {
  }

  lemma RegisterKeepsInvite(s: State, step: Step, code: Id)
    requires InvitesOk(s) && step.RegisterStep?
    requires code in AfterRegister(s, step).t.inviteLocks || code in AfterRegister(s, step).t.invites
    ensures InviteOk(AfterRegister(s, step), code)
  {
  }

  lemma RegisterKeepsInvites(s: State, step: Step)
    requires InvitesOk(s) && step.RegisterStep?
    ensures InvitesOk(AfterRegister(s, step))
  {
    forall code | code in AfterRegister(s, step).t.inviteLocks || code in AfterRegister(s, step).t.invites
      ensures InviteOk(AfterRegister(s, step), code)
    {
      RegisterKeepsInvite(s, step, code);
    }
    hide InviteOk;
  }

  lemma OthersKeepBootstrap(s: State, step: Step)
    requires BootstrapOk(s) && ReadsHold(s) && !step.RegisterStep?
    ensures BootstrapOk(Acted(s, step)) && ReadsHold(Acted(s, step))
  {
  }

  lemma OthersKeepInvites(s: State, step: Step)
    requires InvitesOk(s) && !step.RegisterStep?
    ensures InvitesOk(Acted(s, step))
  {
  }

  lemma StepKeepsInv(s: State, step: Step)
    requires Inv(s)
    ensures Inv(Exec(s, step))
  {
    hide BootstrapOk, ReadsHold, InvitesOk, Acted;
    if step.RegisterStep? {
      RegisterKeepsBootstrap(s, step);
      RegisterKeepsInvites(s, step);
      ActedIsRegister(s, step);
    } else {
      OthersKeepBootstrap(s, step);
      OthersKeepInvites(s, step);
    }
    ObservingKeepsInv(Acted(s, step));
  }

  lemma ActedIsRegister(s: State, step: Step)
    requires step.RegisterStep?
    ensures Acted(s, step) == AfterRegister(s, step)
  {
  }

  lemma ObservingKeepsInv(s: State)
    requires Inv(s)
    ensures Inv(s.(h := s.h.(observed := s.h.observed + {Current(s.t)})))
  {
  }

  lemma {:induction false} RunKeepsInv(s: State, steps: seq<Step>)
    requires Inv(s)
    ensures Inv(Run(s, steps))
    decreases |steps|
  {
    hide Inv, Exec;
    if steps != [] {
      StepKeepsInv(s, steps[0]);
      RunKeepsInv(Exec(s, steps[0]), steps[1..]);
    }
  }

  // ---------------------------------------------------------------------------------------
  // What holds over all runs
  // ---------------------------------------------------------------------------------------

  /**
   Over all concurrent registrations: nobody registers before the bootstrap account, which holds the
   lock, and nobody else registers as an administrator.
   */
  lemma OneBootstrapAccount(steps: seq<Step>)
    requires Run(EMPTY, steps).h.joined != []
    ensures var s := Run(EMPTY, steps);
            && s.t.bootstrapLock == Some(s.h.joined[0])
            && s.h.admins == {s.h.joined[0]}
            && s.h.joined[0] in s.t.users
  {
    hide Exec;
    EmptyIsOk();
    RunKeepsInv(EMPTY, steps);
  }

  /** Each invitation brings in at most one user, the one its lock and, while it exists, its row name. */
  lemma OneUserPerInvite(steps: seq<Step>, a: Id, b: Id)
    requires var h := Run(EMPTY, steps).h; a in h.invitedBy && b in h.invitedBy && h.invitedBy[a] == h.invitedBy[b]
    ensures a == b
    ensures var s := Run(EMPTY, steps);
            var code := s.h.invitedBy[a];
            && code in s.t.inviteLocks && s.t.inviteLocks[code] == a && a in s.t.users
            && (code in s.t.invites ==> s.t.invites[code].status == Used && s.t.invites[code].usedBy == Some(a))
  {
    hide Exec;
    EmptyIsOk();
    RunKeepsInv(EMPTY, steps);
    var s := Run(EMPTY, steps);
    assert InviteOk(s, s.h.invitedBy[a]);
  }

  /** And an invitation that reads as used has brought in the user it names. */
  lemma UsedInviteHasUser(steps: seq<Step>, code: Id)
    requires var t := Run(EMPTY, steps).t; code in t.invites && t.invites[code].status == Used
    ensures var s := Run(EMPTY, steps);
            && s.t.invites[code].usedBy.Some?
            && var u := s.t.invites[code].usedBy.value;
               u in s.h.invitedBy && s.h.invitedBy[u] == code && u in s.t.users
  {
    hide Exec;
    EmptyIsOk();
    RunKeepsInv(EMPTY, steps);
    assert InviteOk(Run(EMPTY, steps), code);
  }

  /** A stale read does not open the door twice: once anybody has registered, no bootstrap registration goes through. */
  lemma BootstrapOnlyOnce(steps: seq<Step>, step: Step)
    requires step.RegisterStep? && Run(EMPTY, steps).h.joined != [] && Bootstraps(step.read)
    ensures AfterRegister(Run(EMPTY, steps), step) == Run(EMPTY, steps)
  {
    hide Exec;
    EmptyIsOk();
    RunKeepsInv(EMPTY, steps);
  }

  // ---------------------------------------------------------------------------------------
  // When a registration goes through and what it leaves
  // ---------------------------------------------------------------------------------------

  /** The invitation is there, open, in time and for this address. */
  predicate Invited(t: Tables, code: Id, email: Id, now: int) {
    && code in t.invites && t.invites[code].status == Active && now < t.invites[code].expiresAt
    && t.invites[code].email == email
  }

  /** The request read an empty system. */
  predicate ReadEmpty(read: Read) {
    read.userCount == 0 && read.bootstrapLock == None
  }

  /**
   Over every run a registration goes through exactly when its address is free, its invitation, if it
   has one, is open and for that address, and either nobody has registered yet, it read that and knows
   the bootstrap secret, or it read a system in use and signups are open or it is invited.
   */
  lemma RegistrationIff(steps: seq<Step>, step: Step)
    requires step.RegisterStep? && step.read in Run(EMPTY, steps).h.observed
    requires var s := Run(EMPTY, steps);
             step.user !in s.t.users && step.user !in s.h.joined && step.user !in s.h.invitedBy
    ensures var s, after := Run(EMPTY, steps), AfterRegister(Run(EMPTY, steps), step);
            step.user in after.t.users <==>
              && (forall u :: u in s.t.users ==> s.t.users[u].email != step.email)
              && (step.invite.Some? ==> Invited(s.t, step.invite.value, step.email, step.now))
              && if step.read.userCount == 0 then ReadEmpty(step.read) && s.h.joined == [] && step.secretOk
                 else step.signupsAllowed || step.invite.Some?
  {
    hide Exec;
    EmptyIsOk();
    RunKeepsInv(EMPTY, steps);
    var s := Run(EMPTY, steps);
    if step.invite.Some? && step.invite.value in s.t.invites {
      assert InviteOk(s, step.invite.value);
    }
  }

  /** A registration that goes through adds its user, an administrator if it is the first, and closes its invitation. */
  lemma RegistrationLeaves(s: State, step: Step)
    requires step.RegisterStep? && step.user !in s.t.users && step.user in AfterRegister(s, step).t.users
    ensures var after, first := AfterRegister(s, step), ReadEmpty(step.read);
            && after.t.users == s.t.users[step.user := User(step.email, first)]
            && after.t.revisions == s.t.revisions + {step.user}
            && after.t.bootstrapLock == (if first then Some(step.user) else s.t.bootstrapLock)
            && (if step.invite.None? then after.t.invites == s.t.invites && after.t.inviteLocks == s.t.inviteLocks
                else
                  var code := step.invite.value;
                  && code in s.t.invites
                  && after.t.invites == s.t.invites[code :=
                       Invite(s.t.invites[code].email, Used, s.t.invites[code].expiresAt, Some(step.user))]
                  && after.t.inviteLocks == s.t.inviteLocks[code := step.user])
            && after.h.joined == s.h.joined + [step.user]
            && after.h.admins == s.h.admins + if first then {step.user} else {}
  {
  }
}
