/**
 Logins and the refresh tokens that descend from them (apps/api/src/services/identity-refresh.ts:27-131,
 handlers/devices.ts:390-427, 522-534): every token of a lineage is bound to the device of its login,
 renews until its time is over, and dies with that device.
 */
module Lineages {
  import opened Options
  import opened IdentityTables
  import opened IdentityRuns

  /** The login a live token descends from. */
  function LoginOf(s: System, hash: Id): Mint
    requires hash in s.h.minted && s.h.minted[hash].lineage in s.h.minted
  {
    s.h.minted[s.h.minted[hash].lineage]
  }

  /** However often it was renewed, a live token is its login's user's and carries exactly its login's device binding. */
  lemma TokensKeepTheirDevice(s: System, hash: Id)
    requires Reachable(s) && hash in s.t.tokens
    ensures && hash in s.h.minted && s.h.minted[hash].lineage in s.h.minted
            && var token, login := s.t.tokens[hash], LoginOf(s, hash);
               && token.user == login.user
               && match login.device {
                    case None => token.deviceIdentifier == None && token.deviceSessionStamp == None
                    case Some(d) => token.deviceIdentifier == Some(d.identifier) && token.deviceSessionStamp == Some(d.sessionStamp)
                  }
  {
    hide Reachable;
    ReachableInv(s);
    assert Backed(s, hash) && Descends(s.h.minted, hash);
  }

  // ---------------------------------------------------------------------------------------
  // Renewal
  // ---------------------------------------------------------------------------------------

  predicate DeviceBanned(t: Tables, token: RefreshToken) {
    && token.deviceIdentifier.Some?
    && DeviceKey(token.user, token.deviceIdentifier.value) in t.devices
    && t.devices[DeviceKey(token.user, token.deviceIdentifier.value)].banned
  }

  /**
   In every reachable state a token renews exactly for its user, under the stamp it was minted with, as
   long as it has not expired and its device is not banned; that its user is active, its device there
   and its stamp the current one goes without saying as long as it exists.
   */
  lemma RenewsIff(s: System, r: Refresh)
    requires Reachable(s) && Drawn(s, Renew(r))
    ensures r.newHash in Exec(s, Renew(r)).t.tokens
            <==> && r.oldHash in s.t.tokens && r.oldHash in s.h.minted
                 && s.t.tokens[r.oldHash].user == r.user && s.h.minted[r.oldHash].stamp == r.securityStamp
                 && r.now < s.t.tokens[r.oldHash].expiresAt
                 && !DeviceBanned(s.t, s.t.tokens[r.oldHash])
  {
    hide Reachable;
    ReachableInv(s);
    assert r.newHash !in s.t.tokens by {
      assert r.newHash in s.t.tokens ==> Backed(s, r.newHash);
    }
    assert r.oldHash in s.t.tokens ==> Backed(s, r.oldHash);
  }

  /** The successor's row. */
  function Renewed(token: RefreshToken, now: int): RefreshToken {
    RefreshToken(token.user, now + REFRESH_TOKEN_TTL_SECONDS, token.deviceIdentifier, token.deviceSessionStamp)
  }

  lemma GrantedRenewalLeaves(t: Tables, r: Refresh)
    requires r.newHash !in t.tokens && r.newHash in RotateToken(t, r).tokens && r.newHash != r.oldHash
    ensures r.oldHash in t.tokens
    ensures RotateToken(t, r).tokens == (t.tokens - {r.oldHash})[r.newHash := Renewed(t.tokens[r.oldHash], r.now)]
  {
    hide UserEligible, DeviceBacks;
  }

  /** A renewal replaces one row by one: same user and device, a new hash and a new term, and touches nothing else. */
  lemma RenewalLeaves(s: System, r: Refresh)
    requires Reachable(s) && Drawn(s, Renew(r)) && r.newHash in Exec(s, Renew(r)).t.tokens
    ensures r.oldHash in s.t.tokens
    ensures Exec(s, Renew(r)).t ==
            s.t.(tokens := (s.t.tokens - {r.oldHash})[r.newHash := Renewed(s.t.tokens[r.oldHash], r.now)])
  {
    hide Reachable, RotateToken, RefreshGranted;
    ReachableInv(s);
    assert r.newHash !in s.t.tokens by {
      assert r.newHash in s.t.tokens ==> Backed(s, r.newHash);
    }
    hide Inv;
    GrantedRenewalLeaves(s.t, r);
  }

  lemma RenewedIsMinted(s: System, r: Refresh)
    requires Inv(s) && Drawn(s, Renew(r)) && RefreshGranted(s.t, r)
    ensures var after := Exec(s, Renew(r)).h.minted;
            r.newHash in after && after[r.newHash].user == r.user && after[r.newHash].stamp == r.securityStamp
  {
    assert Backed(s, r.oldHash);
  }

  /** What a renewal hands out renews in its turn at every time before its term is over and at none after it. */
  lemma SuccessorRenewsUntil(s: System, r: Refresh, next: Refresh)
    requires Reachable(s) && Drawn(s, Renew(r)) && r.newHash in Exec(s, Renew(r)).t.tokens
    requires next.oldHash == r.newHash && next.user == r.user && next.securityStamp == r.securityStamp
    requires Drawn(Exec(s, Renew(r)), Renew(next))
    ensures next.newHash in Exec(Exec(s, Renew(r)), Renew(next)).t.tokens <==> next.now < r.now + REFRESH_TOKEN_TTL_SECONDS
  {
    hide Exec, Drawn, Reachable, Run, ValidRun, Inv, Backed;
    RenewsIff(s, r);
    RenewalLeaves(s, r);
    ReachableInv(s);
    SuccessorIsRecorded(s, r);
    StepReaches(s, Renew(r));
    RenewsIff(Exec(s, Renew(r)), next);
  }

  lemma SuccessorIsRecorded(s: System, r: Refresh)
    requires Inv(s) && Drawn(s, Renew(r)) && r.newHash in Exec(s, Renew(r)).t.tokens
    ensures var after := Exec(s, Renew(r)).h.minted; r.newHash in after && after[r.newHash].stamp == r.securityStamp
  {
    assert r.newHash in s.t.tokens ==> Backed(s, r.newHash);
    hide Inv;
    assert RefreshGranted(s.t, r);
    RenewedIsMinted(s, r);
  }

  lemma StepReaches(s: System, step: Step)
    requires Reachable(s) && Drawn(s, step)
    ensures Reachable(Exec(s, step))
  {
    hide Exec, Drawn;
    var steps :| ValidRun(EMPTY, steps) && Run(EMPTY, steps) == s;
    RunExtends(EMPTY, steps, step);
  }

  lemma {:induction false} RunExtends(s: System, steps: seq<Step>, step: Step)
    requires ValidRun(s, steps) && Drawn(Run(s, steps), step)
    ensures ValidRun(s, steps + [step]) && Run(s, steps + [step]) == Exec(Run(s, steps), step)
    decreases |steps|
  {
    hide Exec, Drawn;
    if steps == [] {
      assert [step][1..] == [] && steps + [step] == [step];
    } else {
      assert (steps + [step])[1..] == steps[1..] + [step];
      RunExtends(Exec(s, steps[0]), steps[1..], step);
    }
  }

  // ---------------------------------------------------------------------------------------
  // The end of a login
  // ---------------------------------------------------------------------------------------

  /** No token of the lineage is left. */
  ghost predicate Ended(s: System, login: Id) {
    && login in s.h.minted
    && forall hash :: hash in s.t.tokens && hash in s.h.minted ==> s.h.minted[hash].lineage != login
  }

  lemma SignInKeepsEnded(s: System, a: Login, login: Id)
    requires Inv(s) && Ended(s, login) && a.tokenHash !in s.h.minted
    ensures Ended(AfterSignIn(s, a), login)
  {
    hide IssueSession, SessionGranted, Inv;
    SignInTokens(s, a);
  }

  lemma RenewKeepsEnded(s: System, r: Refresh, login: Id)
    requires Inv(s) && Ended(s, login) && r.newHash !in s.h.minted && r.newHash != r.oldHash
    ensures Ended(AfterRenew(s, r), login)
  {
    hide RotateToken;
    RenewTokens(s, r);
  }

  lemma StepKeepsEnded(s: System, step: Step, login: Id)
    requires Inv(s) && Ended(s, login) && Drawn(s, step)
    ensures Ended(Exec(s, step), login)
  {
    hide Inv, AfterSignIn, AfterRenew;
    match step
    case SignIn(a) => SignInKeepsEnded(s, a, login);
    case Renew(r) => RenewKeepsEnded(s, r, login);
    case _ =>
      hide Exec;
      OtherStepsAreCompatible(s, step);
  }

  lemma {:induction false} RunKeepsEnded(s: System, steps: seq<Step>, login: Id)
    requires Inv(s) && ValidRun(s, steps) && Ended(s, login)
    ensures Ended(Run(s, steps), login)
    decreases |steps|
  {
    hide Inv, Exec, Drawn, Ended;
    if steps != [] {
      StepKeepsEnded(s, steps[0], login);
      StepKeepsInv(s, steps[0]);
      RunKeepsEnded(Exec(s, steps[0]), steps[1..], login);
    }
  }

  /** The stored device is the one in the snapshot. */
  predicate StillAs(t: Tables, user: Id, snap: DeviceSnapshot) {
    var key := DeviceKey(user, snap.identifier);
    && key in t.devices && t.devices[key].id == snap.id && t.devices[key].sessionStamp == snap.sessionStamp
    && t.devices[key].mutationToken == snap.mutationToken
  }

  /**
   Removing a device as it was read ends the login that it carries, with everything renewed from it,
   for good: no later run has a live token of that lineage.
   */
  lemma RemovedDeviceEndsLogin(
    s: System, user: Id, snapshots: set<DeviceSnapshot>, snap: DeviceSnapshot, login: Id, steps: seq<Step>)
    requires Reachable(s) && login in s.h.minted && s.h.minted[login].lineage == login && s.h.minted[login].user == user
    requires s.h.minted[login].device.Some? && s.h.minted[login].device.value.identifier == snap.identifier
    requires snap in snapshots && StillAs(s.t, user, snap)
    requires ValidRun(Exec(s, RemoveDevices(user, snapshots)), steps)
    ensures Ended(Run(Exec(s, RemoveDevices(user, snapshots)), steps), login)
  {
    hide Run, ValidRun, Reachable;
    ReachableInv(s);
    var after := Exec(s, RemoveDevices(user, snapshots));
    assert forall hash :: hash in s.t.tokens ==> Backed(s, hash) && Descends(s.h.minted, hash);
    assert Unchanged(s.t.devices, user, snap);
    assert Ended(after, login);
    hide Exec, Inv;
    StepKeepsInv(s, RemoveDevices(user, snapshots));
    RunKeepsEnded(after, steps, login);
  }

  /** Removing all devices ends every login of the user. */
  lemma RemovingAllDevicesEndsLogins(s: System, user: Id, stamp: Id, newStamp: Id, now: int, login: Id, steps: seq<Step>)
    requires Reachable(s) && login in s.h.minted && s.h.minted[login].lineage == login && s.h.minted[login].user == user
    requires user in s.t.users && s.t.users[user].securityStamp == stamp && s.t.users[user].deletionRequestedAt == None
    requires newStamp !in s.h.stamps
    requires ValidRun(Exec(s, Rotate(user, RemoveAllDevices(stamp), newStamp, now)), steps)
    ensures Ended(Run(Exec(s, Rotate(user, RemoveAllDevices(stamp), newStamp, now)), steps), login)
  {
    hide Run, ValidRun, Reachable;
    ReachableInv(s);
    var removal := Rotate(user, RemoveAllDevices(stamp), newStamp, now);
    assert forall hash :: hash in s.t.tokens ==> Backed(s, hash) && Descends(s.h.minted, hash);
    assert Ended(Exec(s, removal), login);
    hide Exec, Inv;
    StepKeepsInv(s, removal);
    RunKeepsEnded(Exec(s, removal), steps, login);
  }

  /** Exactly the devices that are still as they were read go, and exactly the tokens bound to those. */
  lemma RemovalIsExact(s: System, user: Id, snapshots: set<DeviceSnapshot>)
    ensures var after := Exec(s, RemoveDevices(user, snapshots)).t;
            && after == s.t.(devices := after.devices, tokens := after.tokens)
            && (forall key :: key in after.devices ==> key in s.t.devices && after.devices[key] == s.t.devices[key])
            && (forall key :: key in s.t.devices && key !in after.devices <==>
                  key.user == user && exists snap :: snap in snapshots && snap.identifier == key.identifier && StillAs(s.t, user, snap))
            && (forall hash :: hash in after.tokens ==> hash in s.t.tokens && after.tokens[hash] == s.t.tokens[hash])
            && (forall hash :: hash in s.t.tokens ==>
                  var token := s.t.tokens[hash];
                  hash !in after.tokens <==>
                    && token.deviceIdentifier.Some?
                    && var key := DeviceKey(token.user, token.deviceIdentifier.value);
                       key in s.t.devices && key !in after.devices)
  {
  }

  // ---------------------------------------------------------------------------------------
  // Maintenance and administration
  // ---------------------------------------------------------------------------------------

  /** A sweep takes the expired tokens, the requests whose time is over, and the challenges used or expired. */
  lemma MaintenanceLeaves(s: System, now: int)
    ensures var after := Exec(s, Maintain(now)).t;
            && after == s.t.(tokens := after.tokens, requests := after.requests, challenges := after.challenges)
            && (forall h :: h in after.tokens <==> h in s.t.tokens && now < s.t.tokens[h].expiresAt)
            && (forall h :: h in after.tokens ==> after.tokens[h] == s.t.tokens[h])
            && (forall id :: id in after.requests <==>
                  id in s.t.requests && now <= s.t.requests[id].creationDate + AUTH_REQUEST_TTL_SECONDS)
            && (forall id :: id in after.requests ==> after.requests[id] == s.t.requests[id])
            && (forall c :: c in after.challenges <==>
                  c in s.t.challenges && s.t.challenges[c].usedAt == None && now < s.t.challenges[c].expiresAt)
            && (forall c :: c in after.challenges ==> after.challenges[c] == s.t.challenges[c])
  {
  }

  /** Nobody can tell: whatever login, renewal or registration comes after a sweep would have met the same answer without it. */
  lemma SweepsRefuseNothing(s: System, now: int, a: Login, r: Refresh, user: Id, rotation: Rotation, later: int)
    requires now <= a.now && now <= r.now && now <= later
    ensures var after := Exec(s, Maintain(now)).t;
            && (SessionGranted(after, a) <==> SessionGranted(s.t, a))
            && (RefreshGranted(after, r) <==> RefreshGranted(s.t, r))
            && (RotationAllowed(after, user, rotation, later) <==> RotationAllowed(s.t, user, rotation, later))
  {
  }

  /** Lifting a ban makes the user active again, under the stamp the ban left, unless the account is deleted. */
  lemma UnbanLeaves(s: System, user: Id, expected: Status)
    ensures Exec(s, Unban(user, expected)) ==
            if user in s.t.users && s.t.users[user].status == expected && s.t.users[user].deletionRequestedAt == None then
              s.(t := s.t.(users := s.t.users[user := s.t.users[user].(status := Active)]))
            else s
  {
  }

  /** An edit renames the device and marks it changed, and keeps its stamp and its ban. */
  lemma EditLeaves(s: System, key: DeviceKey, name: Id, token: Id)
    ensures var after := Exec(s, EditDevice(key, name, token)).t;
            if key in s.t.devices then
              && after == s.t.(devices := s.t.devices[key := after.devices[key]])
              && after.devices[key].name == name && after.devices[key].mutationToken == Some(token)
              && after.devices[key].id == s.t.devices[key].id && after.devices[key].banned == s.t.devices[key].banned
              && after.devices[key].sessionStamp == s.t.devices[key].sessionStamp
            else after == s.t
  {
  }

  /** A new account is active, under its own stamp and password, with no second factor. */
  lemma RegistrationLeavesUser(s: System, user: Id, hash: Id, stamp: Id)
    ensures var after := Exec(s, Register(user, hash, stamp)).t;
            && after == s.t.(users := s.t.users[user := after.users[user]])
            && var u := after.users[user];
               && u.status == Active && u.deletionRequestedAt == None && u.securityStamp == stamp && u.passwordHash == hash
               && u.totpSecret == None && u.recoveryCode == None && u.yubikeyConfig == NO_YUBIKEYS
  {
  }

  // ---------------------------------------------------------------------------------------
  // Access tokens
  // ---------------------------------------------------------------------------------------

  /** What a verified access token stands for: an active user under the stamp it names, on the device it names as it names it. */
  lemma AcceptedIff(t: Tables, token: AccessToken)
    ensures Accepted(t, token) <==>
              && token.sub in t.users
              && t.users[token.sub].status == Active && t.users[token.sub].securityStamp == token.sstamp
              && match token.device
                 case None => true
                 case Some(d) =>
                   var key := DeviceKey(token.sub, d.identifier);
                   key in t.devices && t.devices[key].sessionStamp == Some(d.sessionStamp)
  {
  }

  /** Removing a device as it was read also ends the access tokens it carries, at once. */
  lemma RemovedDeviceEndsAccess(s: System, snapshots: set<DeviceSnapshot>, snap: DeviceSnapshot, token: AccessToken)
    requires snap in snapshots && StillAs(s.t, token.sub, snap)
    requires token.device.Some? && token.device.value.identifier == snap.identifier
    ensures !Accepted(Exec(s, RemoveDevices(token.sub, snapshots)).t, token)
  {
    assert Unchanged(s.t.devices, token.sub, snap);
  }
}
