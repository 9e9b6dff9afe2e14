/**
 What each handler that writes a new security stamp asks for and leaves
 (apps/api/src/handlers/accounts.ts:276-295, two-factor.ts:128-460, identity-password-grant.ts:258-276,
 yubikey.ts:139-230, admin/users.ts:57-69, devices.ts:522-534, services/db/batch/webauthn.ts:102-326),
 column by column, and what a user's row therefore holds after any run.
 */
module Rotations {
  import opened Options
  import opened IdentityTables
  import opened IdentityRuns

  // ---------------------------------------------------------------------------------------
  // Handler by handler
  // ---------------------------------------------------------------------------------------

  /** The user's refresh tokens are gone and everybody else's are as they were. */
  ghost predicate Revoked(t: Tables, after: Tables, user: Id) {
    && (forall h :: h in after.tokens <==> h in t.tokens && t.tokens[h].user != user)
    && (forall h :: h in after.tokens ==> after.tokens[h] == t.tokens[h])
  }

  /** The user's revision is later than before and no earlier than now, and nobody else's moves. */
  predicate Bumped(t: Tables, after: Tables, user: Id, now: int) {
    && user in after.revisions && after.revisions[user] >= now
    && (user in t.revisions ==> after.revisions[user] > t.revisions[user])
    && after.revisions == t.revisions[user := after.revisions[user]]
  }

  /** The user has this row now, its tokens are revoked, and beyond revisions nothing else has changed. */
  ghost predicate Leaves(t: Tables, after: Tables, user: Id, row: User) {
    && after == t.(users := t.users[user := row], tokens := after.tokens, revisions := after.revisions)
    && Revoked(t, after, user)
  }

  lemma ChangePasswordLeaves(t: Tables, user: Id, expected: Id, hash: Id, stamp: Id, now: int)
    ensures var after := RotateStamp(t, user, ChangePassword(expected, hash), stamp, now);
            if user in t.users && t.users[user].passwordHash == expected then
              && Leaves(t, after, user, t.users[user].(passwordHash := hash, securityStamp := stamp))
              && Bumped(t, after, user, now)
            else after == t
  {
  }

  lemma EnableAuthenticatorLeaves(
    t: Tables, user: Id, expectedStamp: Id, expectedSecret: Option<Id>, secret: Id, recovery: Id, stamp: Id, now: int)
    ensures var after := RotateStamp(t, user, EnableAuthenticator(expectedStamp, expectedSecret, secret, recovery), stamp, now);
            if user in t.users && t.users[user].securityStamp == expectedStamp && t.users[user].totpSecret == expectedSecret then
              && Leaves(t, after, user, t.users[user].(
                   totpSecret := Some(secret), recoveryCode := Some(recovery), securityStamp := stamp))
              && Bumped(t, after, user, now)
            else after == t
  {
  }

  lemma DisableAuthenticatorLeaves(t: Tables, user: Id, active: Id, stamp: Id, now: int)
    ensures var after := RotateStamp(t, user, DisableAuthenticator(active), stamp, now);
            if user in t.users && t.users[user].totpSecret == Some(active) then
              && Leaves(t, after, user, t.users[user].(totpSecret := None, recoveryCode := None, securityStamp := stamp))
              && Bumped(t, after, user, now)
            else after == t
  {
  }

  /** The user's second-factor passkeys are gone; login passkeys and other users' stay. */
  ghost predicate SecondFactorGone(t: Tables, after: Tables, user: Id) {
    && (forall id :: id in after.passkeys <==>
          id in t.passkeys && !(t.passkeys[id].user == user && t.passkeys[id].purpose == TwoFactorPasskey))
    && (forall id :: id in after.passkeys ==> after.passkeys[id] == t.passkeys[id])
  }

  lemma DisableTwoFactorLeaves(t: Tables, user: Id, expectedStamp: Id, stamp: Id, now: int)
    ensures var after := RotateStamp(t, user, DisableTwoFactor(expectedStamp), stamp, now);
            if user in t.users && t.users[user].securityStamp == expectedStamp then
              && Leaves(t, after.(passkeys := t.passkeys), user, t.users[user].(
                   totpSecret := None, recoveryCode := None, yubikeyConfig := NO_YUBIKEYS, securityStamp := stamp))
              && SecondFactorGone(t, after, user) && Bumped(t, after, user, now)
            else after == t
  {
  }

  lemma RecoverLeaves(t: Tables, user: Id, code: Id, stamp: Id, now: int)
    ensures var after := RotateStamp(t, user, Recover(code), stamp, now);
            if user in t.users && t.users[user].recoveryCode == Some(code) then
              && Leaves(t, after.(passkeys := t.passkeys), user, t.users[user].(
                   totpSecret := None, recoveryCode := None, yubikeyConfig := NO_YUBIKEYS, securityStamp := stamp))
              && SecondFactorGone(t, after, user) && Bumped(t, after, user, now)
            else after == t
  {
  }

  /** The code that is there, or this one if there is none. */
  function Kept(stored: Option<Id>, recovery: Id): Option<Id> {
    if stored.Some? then stored else Some(recovery)
  }

  lemma SaveYubikeysLeaves(
    t: Tables, user: Id, expectedStamp: Id, expectedConfig: Id, config: Id, recovery: Id, stamp: Id, now: int)
    ensures var after := RotateStamp(t, user, SaveYubikeys(expectedStamp, expectedConfig, config, recovery), stamp, now);
            if user in t.users && t.users[user].securityStamp == expectedStamp && t.users[user].yubikeyConfig == expectedConfig then
              && Leaves(t, after, user, t.users[user].(
                   yubikeyConfig := config, recoveryCode := Kept(t.users[user].recoveryCode, recovery), securityStamp := stamp))
              && Bumped(t, after, user, now)
            else after == t
  {
  }

  lemma DisableYubikeysLeaves(t: Tables, user: Id, expectedConfig: Id, stamp: Id, now: int)
    ensures var after := RotateStamp(t, user, DisableYubikeys(expectedConfig), stamp, now);
            if user in t.users && t.users[user].yubikeyConfig == expectedConfig then
              && Leaves(t, after, user, t.users[user].(yubikeyConfig := NO_YUBIKEYS, securityStamp := stamp))
              && Bumped(t, after, user, now)
            else after == t
  {
  }

  /** The credential is nobody's yet, the user has fewer than five of the kind, and the challenge is the user's, unused and in time. */
  predicate MayRegister(t: Tables, user: Id, purpose: Purpose, credentialId: Id, challenge: Id, now: int) {
    && (forall id :: id in t.passkeys ==> t.passkeys[id].credentialId != credentialId)
    && |set id | id in t.passkeys && t.passkeys[id].user == user && t.passkeys[id].purpose == purpose| < 5
    && challenge in t.challenges
    && t.challenges[challenge].user == user && t.challenges[challenge].usedAt == None
    && now < t.challenges[challenge].expiresAt
  }

  lemma RegisterWhenWelcome(t: Tables, user: Id, r: Rotation, now: int)
    requires r.RegisterPasskey?
    ensures PasskeyWelcome(t, user, r, now) <==> MayRegister(t, user, r.purpose, r.credentialId, r.challenge, now)
  {
    assert PasskeysOf(t.passkeys, user, r.purpose)
        == set id | id in t.passkeys && t.passkeys[id].user == user && t.passkeys[id].purpose == r.purpose;
  }

  /** A login passkey leaves the recovery code alone; a second-factor passkey brings one if there is none. */
  lemma RegisterPasskeyLeaves(
    t: Tables, user: Id, expectedStamp: Id, row: Id, purpose: Purpose, credentialId: Id, recovery: Id, challenge: Id,
    stamp: Id, now: int)
    ensures var after := RotateStamp(
                t, user, RegisterPasskey(expectedStamp, row, purpose, credentialId, recovery, challenge), stamp, now);
            if && user in t.users && t.users[user].securityStamp == expectedStamp
               && MayRegister(t, user, purpose, credentialId, challenge, now)
            then
              && Leaves(t, after.(passkeys := t.passkeys, challenges := t.challenges), user, t.users[user].(
                   securityStamp := stamp,
                   recoveryCode := match purpose
                                   case LoginPasskey => t.users[user].recoveryCode
                                   case TwoFactorPasskey => Kept(t.users[user].recoveryCode, recovery)))
              && after.passkeys == t.passkeys[row := Passkey(user, purpose, credentialId)]
              && after.challenges == t.challenges[challenge := t.challenges[challenge].(usedAt := Some(now))]
              && Bumped(t, after, user, now)
            else after == t
  {
    RegisterWhenWelcome(t, user, RegisterPasskey(expectedStamp, row, purpose, credentialId, recovery, challenge), now);
  }

  lemma RemovePasskeyLeaves(t: Tables, user: Id, expectedStamp: Id, row: Id, purpose: Purpose, stamp: Id, now: int)
    ensures var after := RotateStamp(t, user, RemovePasskey(expectedStamp, row, purpose), stamp, now);
            if && user in t.users && t.users[user].securityStamp == expectedStamp
               && row in t.passkeys && t.passkeys[row].user == user && t.passkeys[row].purpose == purpose
            then
              && Leaves(t, after.(passkeys := t.passkeys), user, t.users[user].(securityStamp := stamp))
              && after.passkeys == t.passkeys - {row} && Bumped(t, after, user, now)
            else after == t
  {
  }

  lemma RemoveTwoFactorPasskeysLeaves(t: Tables, user: Id, expectedStamp: Id, stamp: Id, now: int)
    ensures var after := RotateStamp(t, user, RemoveTwoFactorPasskeys(expectedStamp), stamp, now);
            if user in t.users && t.users[user].securityStamp == expectedStamp then
              && Leaves(t, after.(passkeys := t.passkeys), user, t.users[user].(securityStamp := stamp))
              && SecondFactorGone(t, after, user) && Bumped(t, after, user, now)
            else after == t
  {
  }

  lemma RemoveAllDevicesLeaves(t: Tables, user: Id, expectedStamp: Id, stamp: Id, now: int)
    ensures var after := RotateStamp(t, user, RemoveAllDevices(expectedStamp), stamp, now);
            if user in t.users && t.users[user].securityStamp == expectedStamp && t.users[user].deletionRequestedAt == None then
              && Leaves(t, after.(devices := t.devices), user, t.users[user].(securityStamp := stamp))
              && after.revisions == t.revisions
              && (forall key :: key in after.devices <==> key in t.devices && key.user != user)
              && (forall key :: key in after.devices ==> after.devices[key] == t.devices[key])
            else after == t
  {
  }

  lemma BanLeaves(t: Tables, user: Id, expected: Status, stamp: Id, now: int)
    ensures var after := RotateStamp(t, user, Ban(expected), stamp, now);
            if user in t.users && t.users[user].status == expected && t.users[user].deletionRequestedAt == None then
              && Leaves(t, after, user, t.users[user].(status := Banned, securityStamp := stamp))
              && after.revisions == t.revisions
            else after == t
  {
  }

  // ---------------------------------------------------------------------------------------
  // The credentials of a user over runs
  // ---------------------------------------------------------------------------------------

  datatype Column = Password | TotpSecret | RecoveryCode | YubikeyConfig

  function Value(u: User, c: Column): Option<Id> {
    match c
    case Password => Some(u.passwordHash)
    case TotpSecret => u.totpSecret
    case RecoveryCode => u.recoveryCode
    case YubikeyConfig => Some(u.yubikeyConfig)
  }

  /** What the handler writes to the column, if it writes it; a recovery code is only added where there is none. */
  function Written(r: Rotation, c: Column, before: Option<Id>): Option<Option<Id>> {
    match (c, r)
    case (Password, ChangePassword(_, hash)) => Some(Some(hash))
    case (TotpSecret, EnableAuthenticator(_, _, secret, _)) => Some(Some(secret))
    case (TotpSecret, DisableAuthenticator(_)) => Some(None)
    case (TotpSecret, DisableTwoFactor(_)) => Some(None)
    case (TotpSecret, Recover(_)) => Some(None)
    case (RecoveryCode, EnableAuthenticator(_, _, _, recovery)) => Some(Some(recovery))
    case (RecoveryCode, DisableAuthenticator(_)) => Some(None)
    case (RecoveryCode, DisableTwoFactor(_)) => Some(None)
    case (RecoveryCode, Recover(_)) => Some(None)
    case (RecoveryCode, SaveYubikeys(_, _, _, recovery)) => if before.None? then Some(Some(recovery)) else None
    case (RecoveryCode, RegisterPasskey(_, _, TwoFactorPasskey, _, recovery, _)) =>
      if before.None? then Some(Some(recovery)) else None
    case (YubikeyConfig, SaveYubikeys(_, _, config, _)) => Some(Some(config))
    case (YubikeyConfig, DisableYubikeys(_)) => Some(Some(NO_YUBIKEYS))
    case (YubikeyConfig, DisableTwoFactor(_)) => Some(Some(NO_YUBIKEYS))
    case (YubikeyConfig, Recover(_)) => Some(Some(NO_YUBIKEYS))
    case _ => None
  }

  /** The rotation goes through: its fresh stamp is the user's now. */
  predicate Granted(s: System, step: Step, user: Id) {
    && step.Rotate? && step.user == user
    && user in Exec(s, step).t.users && Exec(s, step).t.users[user].securityStamp == step.newStamp
  }

  predicate Writes(s: System, step: Step, user: Id, c: Column) {
    && Granted(s, step, user) && user in s.t.users
    && Written(step.rotation, c, Value(s.t.users[user], c)).Some?
  }

  lemma RotationMoves(s: System, user: Id, r: Rotation, stamp: Id, now: int, c: Column)
    requires user in s.t.users && s.t.users[user].securityStamp != stamp
    ensures var step, u := Rotate(user, r, stamp, now), s.t.users[user];
            && user in Exec(s, step).t.users
            && Value(Exec(s, step).t.users[user], c) ==
               if Writes(s, step, user, c) then Written(r, c, Value(u, c)).value else Value(u, c)
  {
    hide WithoutTokensOf, WithoutDevicesOf, BumpedRevision, RotatedPasskeys, RotatedChallenges, PasskeyWelcome;
  }

  lemma OthersLeaveColumn(s: System, step: Step, user: Id, c: Column)
    requires user in s.t.users && Drawn(s, step) && !(step.Rotate? && step.user == user)
    ensures user in Exec(s, step).t.users && Value(Exec(s, step).t.users[user], c) == Value(s.t.users[user], c)
  {
    hide SessionGranted, UpsertedDevice, RefreshGranted, RotationAllowed, RotatedUser, RotatedPasskeys, RotatedChallenges;
    hide Deletable, BoundTo, Superseded;
  }

  /** A column changes only by a granted rotation that writes it, and then to what that writes. */
  lemma ColumnMoves(s: System, step: Step, user: Id, c: Column)
    requires Reachable(s) && Drawn(s, step) && user in s.t.users
    ensures user in Exec(s, step).t.users
    ensures Value(Exec(s, step).t.users[user], c) ==
            if Writes(s, step, user, c) then Written(step.rotation, c, Value(s.t.users[user], c)).value
            else Value(s.t.users[user], c)
  {
    hide Reachable, Written, Value;
    ReachableInv(s);
    StepMovesColumn(s, step, user, c);
  }

  lemma StepMovesColumn(s: System, step: Step, user: Id, c: Column)
    requires StampsRecorded(s) && Drawn(s, step) && user in s.t.users
    ensures user in Exec(s, step).t.users
    ensures Value(Exec(s, step).t.users[user], c) ==
            if Writes(s, step, user, c) then Written(step.rotation, c, Value(s.t.users[user], c)).value
            else Value(s.t.users[user], c)
  {
    hide Written, Value;
    if step.Rotate? && step.user == user {
      assert s.t.users[user].securityStamp != step.newStamp;
      hide Exec;
      RotationMoves(s, user, step.rotation, step.newStamp, step.now, c);
    } else {
      hide Exec;
      OthersLeaveColumn(s, step, user, c);
    }
  }

  predicate NoneWrites(s: System, steps: seq<Step>, user: Id, c: Column)
    decreases |steps|
  {
    steps == [] || (!Writes(s, steps[0], user, c) && NoneWrites(Exec(s, steps[0]), steps[1..], user, c))
  }

  lemma {:induction false} UnwrittenStays(s: System, steps: seq<Step>, user: Id, c: Column)
    requires Inv(s) && ValidRun(s, steps) && user in s.t.users && NoneWrites(s, steps, user, c)
    ensures user in Run(s, steps).t.users && Value(Run(s, steps).t.users[user], c) == Value(s.t.users[user], c)
    decreases |steps|
  {
    hide Exec, Drawn, Writes, Written, Value, TokensBacked, StampsRecorded, LineagesRecorded, SuccessorsRecorded, ClaimsRecorded;
    if steps != [] {
      StepMovesColumn(s, steps[0], user, c);
      StepKeepsInv(s, steps[0]);
      UnwrittenStays(Exec(s, steps[0]), steps[1..], user, c);
    }
  }

  /**
   Over every run, password hash, TOTP secret, recovery code and YubiKey configuration in the row are
   those of the last granted rotation that wrote them.
   */
  lemma LastWriteStays(s: System, write: Step, steps: seq<Step>, user: Id, c: Column)
    requires Reachable(s) && Drawn(s, write) && Writes(s, write, user, c)
    requires ValidRun(Exec(s, write), steps) && NoneWrites(Exec(s, write), steps, user, c)
    ensures var after := Run(Exec(s, write), steps).t.users;
            user in after && Value(after[user], c) == Written(write.rotation, c, Value(s.t.users[user], c)).value
  {
    hide Reachable, Exec, Drawn, Run, ValidRun, NoneWrites, Written, Value, Inv;
    ReachableInv(s);
    ColumnMoves(s, write, user, c);
    StepKeepsInv(s, write);
    UnwrittenStays(Exec(s, write), steps, user, c);
  }

  /**
   After a granted change to a password, and until the next granted one, a change that expects that
   password goes through, and one that expects any other is refused.
   */
  lemma PasswordIsTheLastOne(
    s: System, user: Id, from: Id, to: Id, stamp: Id, now: int, steps: seq<Step>,
    expected: Id, next: Id, nextStamp: Id, later: int)
    requires Reachable(s) && user in s.t.users && s.t.users[user].passwordHash == from && stamp !in s.h.stamps
    requires var changed := Exec(s, Rotate(user, ChangePassword(from, to), stamp, now));
             && ValidRun(changed, steps) && NoneWrites(changed, steps, user, Password)
             && nextStamp !in Run(changed, steps).h.stamps
    ensures var after := Run(Exec(s, Rotate(user, ChangePassword(from, to), stamp, now)), steps);
            && Granted(after, Rotate(user, ChangePassword(expected, next), nextStamp, later), user) <==> expected == to
  {
    hide Reachable, Run, ValidRun, NoneWrites, Inv, RotateStamp;
    var change := Rotate(user, ChangePassword(from, to), stamp, now);
    ReachableInv(s);
    ChangePasswordLeaves(s.t, user, from, to, stamp, now);
    assert Writes(s, change, user, Password);
    StepKeepsInv(s, change);
    LastWriteStays(s, change, steps, user, Password);
    var after := Run(Exec(s, change), steps);
    RunKeepsInv(Exec(s, change), steps);
    ChangePasswordLeaves(after.t, user, expected, next, nextStamp, later);
    CurrentStampIsKnown(after, user);
  }

  lemma CurrentStampIsKnown(s: System, user: Id)
    requires Inv(s) && user in s.t.users
    ensures s.t.users[user].securityStamp in s.h.stamps
  {
  }
}
