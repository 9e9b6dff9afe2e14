/**
 The tables behind logins and the guards that the login, refresh and revocation statements share
 (apps/api/src/services/identity-session.ts, identity-refresh.ts and services/db/batch/sessions.ts).
 Each closed form below says what one whole batch does; the Database class runs the batches
 statement by statement.
 */
module IdentityTables {
  import opened Options

  const REFRESH_TOKEN_TTL_SECONDS := 31536000
  const AUTH_REQUEST_TTL_SECONDS := 900
  const MAX_PASSKEYS := 5

  /** The configuration without keys, with which every account starts. */
  const NO_YUBIKEYS: Id := 0

  datatype Status = Active | Banned

  datatype User = User(
    status: Status,
    deletionRequestedAt: Option<int>,
    securityStamp: Id,
    passwordHash: Id,
    totpSecret: Option<Id>,
    recoveryCode: Option<Id>,
    yubikeyConfig: Id)

  /** Devices are unique per user and client-chosen identifier. */
  datatype DeviceKey = DeviceKey(user: Id, identifier: Id)

  datatype Device = Device(
    id: Id,
    name: Id,
    sessionStamp: Option<Id>,
    banned: bool,
    mutationToken: Option<Id>,
    lastSeenAt: Option<int>,
    updatedAt: int)

  datatype RefreshToken = RefreshToken(
    user: Id,
    expiresAt: int,
    deviceIdentifier: Option<Id>,
    deviceSessionStamp: Option<Id>)

  /** With the device it was made on and its place in the order of insertion. */
  datatype AuthRequest = AuthRequest(
    user: Id,
    kind: int,
    device: Id,
    rowid: nat,
    approved: Option<bool>,
    responseDate: Option<int>,
    authenticationDate: Option<int>,
    consumptionToken: Option<Id>,
    creationDate: int)

  datatype Purpose = LoginPasskey | TwoFactorPasskey

  datatype Passkey = Passkey(user: Id, purpose: Purpose, credentialId: Id)

  /** A registration challenge, by its hash. */
  datatype Challenge = Challenge(user: Id, usedAt: Option<int>, expiresAt: int)

  datatype Tables = Tables(
    users: map<Id, User>,
    devices: map<DeviceKey, Device>,
    tokens: map<Id, RefreshToken>,
    requests: map<Id, AuthRequest>,
    revisions: map<Id, int>,
    loginAttempts: set<Id>,
    passkeys: map<Id, Passkey>,
    challenges: map<Id, Challenge>)

  // ---------------------------------------------------------------------------------------
  // Issuing a session
  // ---------------------------------------------------------------------------------------

  datatype DeviceSession = DeviceSession(identifier: Id, sessionStamp: Id)

  datatype Consumption = Consumption(id: Id, token: Id)

  /** What a login has read and drawn before it runs its batch. */
  datatype Login = Login(
    user: Id,
    securityStamp: Id,
    device: Option<DeviceSession>,
    deviceName: Id,
    deviceRowId: Id,
    tokenHash: Id,
    now: int,
    request: Option<Consumption>,
    attemptsHash: Option<Id>)

  predicate UserEligible(users: map<Id, User>, user: Id, stamp: Id) {
    && user in users
    && users[user].status == Active
    && users[user].deletionRequestedAt == None
    && users[user].securityStamp == stamp
  }

  predicate RequestClaimable(requests: map<Id, AuthRequest>, id: Id, user: Id, now: int) {
    && id in requests
    && var r := requests[id];
       && r.user == user
       && r.kind == 0
       && r.approved == Some(true)
       && r.responseDate.Some?
       && r.authenticationDate == None
       && r.consumptionToken == None
       && r.creationDate >= now - AUTH_REQUEST_TTL_SECONDS
  }

  /** The stored device, if any, can carry the session: not banned, and its stamp free or equal. */
  predicate DeviceCompatible(devices: map<DeviceKey, Device>, user: Id, d: DeviceSession) {
    var key := DeviceKey(user, d.identifier);
    key in devices ==>
      && !devices[key].banned
      && (devices[key].sessionStamp == None || devices[key].sessionStamp == Some(d.sessionStamp))
  }

  /** When a login batch creates a session. */
  predicate SessionGranted(t: Tables, a: Login) {
    && UserEligible(t.users, a.user, a.securityStamp)
    && (a.device.Some? ==> DeviceCompatible(t.devices, a.user, a.device.value))
    && (a.request.Some? ==> RequestClaimable(t.requests, a.request.value.id, a.user, a.now))
  }

  /** COALESCE and the rest of the device upsert. */
  function UpsertedDevice(devices: map<DeviceKey, Device>, a: Login): map<DeviceKey, Device>
    requires a.device.Some?
  {
    var key := DeviceKey(a.user, a.device.value.identifier);
    var row :=
      if key in devices then
        devices[key].(
          name := a.deviceName,
          sessionStamp := Some(devices[key].sessionStamp.GetOr(a.device.value.sessionStamp)),
          lastSeenAt := Some(a.now),
          updatedAt := a.now)
      else
        Device(a.deviceRowId, a.deviceName, Some(a.device.value.sessionStamp), false, None, None, a.now);
    devices[key := row]
  }

  function SessionToken(a: Login): RefreshToken {
    RefreshToken(
      a.user,
      a.now + REFRESH_TOKEN_TTL_SECONDS,
      if a.device.Some? then Some(a.device.value.identifier) else None,
      if a.device.Some? then Some(a.device.value.sessionStamp) else None)
  }

  function BumpedRevision(revisions: map<Id, int>, user: Id, now: int): map<Id, int> {
    revisions[user := if user in revisions && revisions[user] + 1 > now then revisions[user] + 1 else now]
  }

  function ClaimedRequest(requests: map<Id, AuthRequest>, c: Consumption, now: int): map<Id, AuthRequest>
    requires c.id in requests
  {
    requests[c.id := requests[c.id].(authenticationDate := Some(now), consumptionToken := Some(c.token))]
  }

  /**
   The whole login batch. It claims the request, stamps the device, inserts the token, bumps the
   revision and clears the failures together, or does none of it. Only a login without an auth
   request can leave a trace of a refusal: it refreshes the device row it could not use.
   */
  function IssueSession(t: Tables, a: Login): Tables {
    if SessionGranted(t, a) then
      t.(devices := if a.device.Some? then UpsertedDevice(t.devices, a) else t.devices,
         tokens := t.tokens[a.tokenHash := SessionToken(a)],
         requests := if a.request.Some? then ClaimedRequest(t.requests, a.request.value, a.now) else t.requests,
         revisions := BumpedRevision(t.revisions, a.user, a.now),
         loginAttempts := if a.attemptsHash.Some? then t.loginAttempts - {a.attemptsHash.value} else t.loginAttempts)
    else if a.request.None? && a.device.Some? && UserEligible(t.users, a.user, a.securityStamp) then
      t.(devices := UpsertedDevice(t.devices, a))
    else t
  }

  /** The login's token hash and consumption token were drawn for it and are in no row. */
  predicate LoginDraws(t: Tables, a: Login) {
    && a.tokenHash !in t.tokens
    && (a.request.Some? ==> forall id :: id in t.requests ==> t.requests[id].consumptionToken != Some(a.request.value.token))
  }

  // ---------------------------------------------------------------------------------------
  // Rotating a refresh token
  // ---------------------------------------------------------------------------------------

  datatype Refresh = Refresh(oldHash: Id, newHash: Id, user: Id, securityStamp: Id, now: int)

  predicate DeviceBacks(devices: map<DeviceKey, Device>, token: RefreshToken) {
    || (token.deviceIdentifier == None && token.deviceSessionStamp == None)
    || (&& token.deviceIdentifier.Some?
        && token.deviceSessionStamp.Some?
        && var key := DeviceKey(token.user, token.deviceIdentifier.value);
           && key in devices
           && devices[key].sessionStamp == token.deviceSessionStamp
           && !devices[key].banned)
  }

  predicate RefreshGranted(t: Tables, r: Refresh) {
    && r.oldHash in t.tokens
    && var token := t.tokens[r.oldHash];
       && token.user == r.user
       && token.expiresAt > r.now
       && UserEligible(t.users, r.user, r.securityStamp)
       && DeviceBacks(t.devices, token)
  }

  /** Whatever happens, the presented token is gone afterwards. */
  function RotateToken(t: Tables, r: Refresh): (after: Tables)
    ensures after == t.(tokens := after.tokens)
  {
    if RefreshGranted(t, r) then
      t.(tokens := t.tokens[r.newHash := t.tokens[r.oldHash].(expiresAt := r.now + REFRESH_TOKEN_TTL_SECONDS)] - {r.oldHash})
    else t.(tokens := t.tokens - {r.oldHash})
  }

  // ---------------------------------------------------------------------------------------
  // Rotating a security stamp
  // ---------------------------------------------------------------------------------------

  /** The handlers that write a new security stamp, with the values each compares before it does. */
  datatype Rotation =
    | ChangePassword(expectedHash: Id, newHash: Id)
    | EnableAuthenticator(expectedStamp: Id, expectedSecret: Option<Id>, secret: Id, recovery: Id)
    | DisableAuthenticator(activeSecret: Id)
    | DisableTwoFactor(expectedStamp: Id)
    | Recover(expectedRecovery: Id)
    | SaveYubikeys(expectedStamp: Id, expectedConfig: Id, config: Id, recovery: Id)
    | DisableYubikeys(expectedConfig: Id)
    | RegisterPasskey(expectedStamp: Id, row: Id, purpose: Purpose, credentialId: Id, recovery: Id, challenge: Id)
    | RemovePasskey(expectedStamp: Id, row: Id, purpose: Purpose)
    | RemoveTwoFactorPasskeys(expectedStamp: Id)
    | RemoveAllDevices(expectedStamp: Id)
    | Ban(expectedStatus: Status)

  function PasskeysOf(passkeys: map<Id, Passkey>, user: Id, purpose: Purpose): set<Id> {
    set id | id in passkeys && passkeys[id].user == user && passkeys[id].purpose == purpose
  }

  predicate ChallengeOpen(challenges: map<Id, Challenge>, hash: Id, user: Id, now: int) {
    && hash in challenges
    && challenges[hash].user == user
    && challenges[hash].usedAt == None
    && challenges[hash].expiresAt > now
  }

  /** The credential is new, its owner has room for it and was offered the challenge it answers. */
  predicate PasskeyWelcome(t: Tables, user: Id, r: Rotation, now: int)
    requires r.RegisterPasskey?
  {
    && (forall id :: id in t.passkeys ==> t.passkeys[id].credentialId != r.credentialId)
    && |PasskeysOf(t.passkeys, user, r.purpose)| < MAX_PASSKEYS
    && ChallengeOpen(t.challenges, r.challenge, user, now)
  }

  predicate RotationAllowed(t: Tables, user: Id, r: Rotation, now: int) {
    && user in t.users
    && var u := t.users[user];
       match r
       case ChangePassword(hash, _) => u.passwordHash == hash
       case EnableAuthenticator(stamp, secret, _, _) => u.securityStamp == stamp && u.totpSecret == secret
       case DisableAuthenticator(secret) => u.totpSecret == Some(secret)
       case DisableTwoFactor(stamp) => u.securityStamp == stamp
       case Recover(code) => u.recoveryCode == Some(code)
       case SaveYubikeys(stamp, config, _, _) => u.securityStamp == stamp && u.yubikeyConfig == config
       case DisableYubikeys(config) => u.yubikeyConfig == config
       case RegisterPasskey(stamp, _, _, _, _, _) => u.securityStamp == stamp && PasskeyWelcome(t, user, r, now)
       case RemovePasskey(stamp, row, purpose) =>
         u.securityStamp == stamp && row in PasskeysOf(t.passkeys, user, purpose)
       case RemoveTwoFactorPasskeys(stamp) => u.securityStamp == stamp
       case RemoveAllDevices(stamp) => u.securityStamp == stamp && u.deletionRequestedAt == None
       case Ban(status) => u.status == status && u.deletionRequestedAt == None
  }

  function RotatedUser(u: User, r: Rotation, newStamp: Id): User {
    var v := u.(securityStamp := newStamp);
    match r
    case ChangePassword(_, hash) => v.(passwordHash := hash)
    case EnableAuthenticator(_, _, secret, recovery) => v.(totpSecret := Some(secret), recoveryCode := Some(recovery))
    case DisableAuthenticator(_) => v.(totpSecret := None, recoveryCode := None)
    case DisableTwoFactor(_) => v.(totpSecret := None, recoveryCode := None, yubikeyConfig := NO_YUBIKEYS)
    case Recover(_) => v.(totpSecret := None, recoveryCode := None, yubikeyConfig := NO_YUBIKEYS)
    case SaveYubikeys(_, _, config, recovery) =>
      v.(yubikeyConfig := config, recoveryCode := Some(u.recoveryCode.GetOr(recovery)))
    case DisableYubikeys(_) => v.(yubikeyConfig := NO_YUBIKEYS)
    case RegisterPasskey(_, _, TwoFactorPasskey, _, recovery, _) => v.(recoveryCode := Some(u.recoveryCode.GetOr(recovery)))
    case Ban(_) => v.(status := Banned)
    case _ => v
  }

  function WithoutPasskeys(passkeys: map<Id, Passkey>, gone: set<Id>): map<Id, Passkey> {
    map id | id in passkeys && id !in gone :: passkeys[id]
  }

  predicate ClearsSecondFactor(r: Rotation) {
    r.DisableTwoFactor? || r.Recover? || r.RemoveTwoFactorPasskeys?
  }

  /** Disabling or recovering the second factor takes its passkeys along; login passkeys stay. */
  function RotatedPasskeys(passkeys: map<Id, Passkey>, user: Id, r: Rotation): map<Id, Passkey> {
    if r.RegisterPasskey? then passkeys[r.row := Passkey(user, r.purpose, r.credentialId)]
    else if r.RemovePasskey? then WithoutPasskeys(passkeys, {r.row})
    else if ClearsSecondFactor(r) then WithoutPasskeys(passkeys, PasskeysOf(passkeys, user, TwoFactorPasskey))
    else passkeys
  }

  /** A passkey that is to be removed is the user's. */
  predicate Present(passkeys: map<Id, Passkey>, user: Id, r: Rotation) {
    r.RemovePasskey? ==> r.row in PasskeysOf(passkeys, user, r.purpose)
  }

  function RotatedChallenges(challenges: map<Id, Challenge>, r: Rotation, now: int): map<Id, Challenge> {
    if r.RegisterPasskey? && r.challenge in challenges then
      challenges[r.challenge := challenges[r.challenge].(usedAt := Some(now))]
    else challenges
  }

  /** Every handler but these two also bumps the user's revision. */
  predicate BumpsRevision(r: Rotation) {
    !r.RemoveAllDevices? && !r.Ban?
  }

  function WithoutTokensOf(tokens: map<Id, RefreshToken>, user: Id): map<Id, RefreshToken> {
    map h | h in tokens && tokens[h].user != user :: tokens[h]
  }

  function WithoutDevicesOf(devices: map<DeviceKey, Device>, user: Id): map<DeviceKey, Device> {
    map k | k in devices && k.user != user :: devices[k]
  }

  /** A rotation and the revocation of every refresh token it invalidates, or nothing. */
  function RotateStamp(t: Tables, user: Id, r: Rotation, newStamp: Id, now: int): Tables {
    if RotationAllowed(t, user, r, now) then
      t.(users := t.users[user := RotatedUser(t.users[user], r, newStamp)],
         tokens := WithoutTokensOf(t.tokens, user),
         devices := if r.RemoveAllDevices? then WithoutDevicesOf(t.devices, user) else t.devices,
         revisions := if BumpsRevision(r) then BumpedRevision(t.revisions, user, now) else t.revisions,
         passkeys := RotatedPasskeys(t.passkeys, user, r),
         challenges := RotatedChallenges(t.challenges, r, now))
    else t
  }

  // ---------------------------------------------------------------------------------------
  // Deleting accounts and devices
  // ---------------------------------------------------------------------------------------

  function DeleteAccount(t: Tables, user: Id, deletionToken: Id, now: int, ownsOrganization: bool): Tables {
    if user in t.users && t.users[user].deletionRequestedAt == None && !ownsOrganization then
      t.(users := t.users[user := t.users[user].(
                            status := Banned, deletionRequestedAt := Some(now), securityStamp := deletionToken)],
         tokens := WithoutTokensOf(t.tokens, user))
    else t
  }

  /** A device row as a handler read it. */
  datatype DeviceSnapshot = DeviceSnapshot(
    id: Id, identifier: Id, sessionStamp: Option<Id>, mutationToken: Option<Id>)

  /** The stored device is still the one in the snapshot. */
  predicate Unchanged(devices: map<DeviceKey, Device>, user: Id, s: DeviceSnapshot) {
    var key := DeviceKey(user, s.identifier);
    && key in devices
    && devices[key].id == s.id
    && devices[key].sessionStamp == s.sessionStamp
    && devices[key].mutationToken == s.mutationToken
  }

  predicate Deletable(devices: map<DeviceKey, Device>, user: Id, snapshots: set<DeviceSnapshot>, key: DeviceKey) {
    key.user == user && exists s :: s in snapshots && s.identifier == key.identifier && Unchanged(devices, user, s)
  }

  predicate BoundTo(token: RefreshToken, user: Id, devices: map<DeviceKey, Device>, snapshots: set<DeviceSnapshot>) {
    && token.user == user
    && token.deviceIdentifier.Some?
    && Deletable(devices, user, snapshots, DeviceKey(user, token.deviceIdentifier.value))
  }

  /** The devices that still match their snapshots, each with every refresh token bound to it. */
  function DeleteDevices(t: Tables, user: Id, snapshots: set<DeviceSnapshot>): Tables {
    t.(tokens := map h | h in t.tokens && !BoundTo(t.tokens[h], user, t.devices, snapshots) :: t.tokens[h],
       devices := map k | k in t.devices && !Deletable(t.devices, user, snapshots, k) :: t.devices[k])
  }

  // ---------------------------------------------------------------------------------------
  // The tables as the handlers change them
  // ---------------------------------------------------------------------------------------

  class Database {
    var users: map<Id, User>
    var devices: map<DeviceKey, Device>
    var tokens: map<Id, RefreshToken>
    var requests: map<Id, AuthRequest>
    var revisions: map<Id, int>
    var loginAttempts: set<Id>
    var passkeys: map<Id, Passkey>
    var challenges: map<Id, Challenge>

    constructor (t: Tables)
      ensures Contents() == t
    {
      users, devices, tokens := t.users, t.devices, t.tokens;
      requests, revisions, loginAttempts := t.requests, t.revisions, t.loginAttempts;
      passkeys, challenges := t.passkeys, t.challenges;
    }

    function Contents(): Tables
      reads this
    {
      Tables(users, devices, tokens, requests, revisions, loginAttempts, passkeys, challenges)
    }

    method AuthRequestConsumptionClaim(a: Login) returns (affected: nat)
      requires a.request.Some?
      modifies this`requests
      ensures var ok := && RequestClaimable(old(requests), a.request.value.id, a.user, a.now)
                        && UserEligible(users, a.user, a.securityStamp)
                        && (a.device.Some? ==> DeviceCompatible(devices, a.user, a.device.value));
              && affected == (if ok then 1 else 0)
              && requests == if ok then ClaimedRequest(old(requests), a.request.value, a.now) else old(requests)
    {
      var c := a.request.value;
      affected := 0;
      if c.id in requests {
        var r := requests[c.id];
        var pending :=
          && r.user == a.user && r.kind == 0 && r.approved == Some(true) && r.responseDate.Some?
          && r.authenticationDate == None && r.consumptionToken == None
          && r.creationDate >= a.now - AUTH_REQUEST_TTL_SECONDS;
        var deviceFree := true;
        if a.device.Some? {
          var key := DeviceKey(a.user, a.device.value.identifier);
          deviceFree :=
            || key !in devices
            || (!devices[key].banned
                && (devices[key].sessionStamp == None || devices[key].sessionStamp == Some(a.device.value.sessionStamp)));
        }
        if pending && deviceFree && UserEligible(users, a.user, a.securityStamp) {
          requests := requests[c.id := r.(authenticationDate := Some(a.now), consumptionToken := Some(c.token))];
          affected := 1;
        }
      }
    }

    /** Whether the batch's own claim is the one in the row: no other request carries its token. */
    predicate Claimed(a: Login)
      reads this
    {
      a.request.Some? ==>
        var c := a.request.value;
        c.id in requests && requests[c.id].user == a.user && requests[c.id].consumptionToken == Some(c.token)
    }

    method LoginDeviceUpsert(a: Login)
      requires a.device.Some?
      modifies this`devices
      ensures devices ==
              if UserEligible(users, a.user, a.securityStamp) && Claimed(a) then UpsertedDevice(old(devices), a)
              else old(devices)
    {
      if UserEligible(users, a.user, a.securityStamp) && Claimed(a) {
        var d := a.device.value;
        var key := DeviceKey(a.user, d.identifier);
        if key in devices {
          var stored := devices[key];
          var stamp := if stored.sessionStamp.Some? then stored.sessionStamp.value else d.sessionStamp;
          devices := devices[key := stored.(
            name := a.deviceName, sessionStamp := Some(stamp), lastSeenAt := Some(a.now), updatedAt := a.now)];
        } else {
          devices := devices[key := Device(a.deviceRowId, a.deviceName, Some(d.sessionStamp), false, None, None, a.now)];
        }
      }
    }

    /** The insert's device guard: the row it is about to bind the token to exists and carries the stamp. */
    predicate SessionEligible(a: Login)
      reads this
    {
      && UserEligible(users, a.user, a.securityStamp)
      && DeviceBacks(devices, SessionToken(a))
    }

    method IdentitySessionInsert(a: Login) returns (affected: nat)
      requires a.tokenHash !in tokens
      modifies this`tokens
      ensures var ok := SessionEligible(a) && Claimed(a);
              && affected == (if ok then 1 else 0)
              && tokens == if ok then old(tokens)[a.tokenHash := SessionToken(a)] else old(tokens)
    {
      affected := 0;
      if SessionEligible(a) && Claimed(a) {
        var identifier, stamp := None, None;
        if a.device.Some? {
          identifier, stamp := Some(a.device.value.identifier), Some(a.device.value.sessionStamp);
        }
        tokens := tokens[a.tokenHash := RefreshToken(a.user, a.now + REFRESH_TOKEN_TTL_SECONDS, identifier, stamp)];
        affected := 1;
      }
    }

    method RefreshTokenRevision(a: Login)
      modifies this`revisions
      ensures revisions ==
              if a.tokenHash in tokens && tokens[a.tokenHash].user == a.user then
                BumpedRevision(old(revisions), a.user, a.now)
              else old(revisions)
    {
      if a.tokenHash in tokens && tokens[a.tokenHash].user == a.user {
        BumpRevision(a.user, a.now);
      }
    }

    method BumpRevision(user: Id, now: int)
      modifies this`revisions
      ensures revisions == BumpedRevision(old(revisions), user, now)
    {
      if user in revisions {
        var next := revisions[user] + 1;
        revisions := revisions[user := if next < now then now else next];
      } else {
        revisions := revisions[user := now];
      }
    }

    method SuccessfulLoginFailureClear(a: Login)
      requires a.attemptsHash.Some?
      modifies this`loginAttempts
      ensures loginAttempts ==
              if a.tokenHash in tokens && tokens[a.tokenHash].user == a.user then old(loginAttempts) - {a.attemptsHash.value}
              else old(loginAttempts)
    {
      if a.tokenHash in tokens && tokens[a.tokenHash].user == a.user {
        loginAttempts := loginAttempts - {a.attemptsHash.value};
      }
    }

    /** What the inserted token unlocks. */
    method LoginAftermath(a: Login)
      modifies this`revisions, this`loginAttempts
      ensures var ok := a.tokenHash in tokens && tokens[a.tokenHash].user == a.user;
              && revisions == (if ok then BumpedRevision(old(revisions), a.user, a.now) else old(revisions))
              && loginAttempts ==
                 if ok && a.attemptsHash.Some? then old(loginAttempts) - {a.attemptsHash.value} else old(loginAttempts)
    {
      RefreshTokenRevision(a);
      if a.attemptsHash.Some? {
        SuccessfulLoginFailureClear(a);
      }
    }

    /** The claim and the device row: together they settle whether the insert will go through. */
    method ClaimAndStamp(a: Login) returns (consumed: nat)
      requires LoginDraws(Contents(), a)
      modifies this`requests, this`devices
      ensures SessionEligible(a) && Claimed(a) <==> SessionGranted(old(Contents()), a)
      ensures requests == IssueSession(old(Contents()), a).requests && devices == IssueSession(old(Contents()), a).devices
      ensures consumed == if a.request.None? || SessionGranted(old(Contents()), a) then 1 else 0
    {
      hide BumpedRevision;
      consumed := 1;
      if a.request.Some? {
        consumed := AuthRequestConsumptionClaim(a);
      }
      if a.device.Some? {
        LoginDeviceUpsert(a);
      }
    }

    /** The statements of one login batch, in order; `ok` is what the caller reads off the row counts. */
    method IssueSessionBatch(a: Login) returns (ok: bool)
      requires LoginDraws(Contents(), a)
      modifies this
      ensures Contents() == IssueSession(old(Contents()), a)
      ensures ok <==> SessionGranted(old(Contents()), a)
    {
      hide BumpedRevision, SessionGranted, DeviceBacks, UpsertedDevice;
      var consumed := ClaimAndStamp(a);
      var inserted := IdentitySessionInsert(a);
      LoginAftermath(a);
      return consumed == 1 && inserted == 1;
    }

    /** The stored stamp, or the fresh one if there is none. */
    method PrepareLoginDevice(a: Login, info: Option<DeviceSession>) returns (device: Option<DeviceSession>)
      ensures a.(device := device) == Prepared(Contents(), a, info)
    {
      device := info;
      if info.Some? {
        var key := DeviceKey(a.user, info.value.identifier);
        if key in devices && devices[key].sessionStamp.Some? {
          device := Some(info.value.(sessionStamp := devices[key].sessionStamp.value));
        }
      }
    }

    /** The refused login's second read: is the device bound to another stamp than the one it tried? */
    method StampConflict(user: Id, device: DeviceSession) returns (conflict: bool)
      ensures conflict <==> StampMoved(devices, user, device)
    {
      var key := DeviceKey(user, device.identifier);
      conflict := key in devices && devices[key].sessionStamp.Some? && devices[key].sessionStamp.value != device.sessionStamp;
    }

    /** Without interference the first batch decides: a stamp that was just read cannot have moved. */
    method IssueIdentitySession(a: Login, info: Option<DeviceSession>, retries: nat) returns (ok: bool)
      requires LoginDraws(Contents(), Prepared(Contents(), a, info))
      modifies this
      ensures Contents() == IssueSession(old(Contents()), Prepared(old(Contents()), a, info))
      ensures ok <==> SessionGranted(old(Contents()), Prepared(old(Contents()), a, info))
      decreases retries
    {
      var device := PrepareLoginDevice(a, info);
      ok := IssueSessionBatch(a.(device := device));
      if !ok && device.Some? && retries >= 1 {
        var conflict := StampConflict(a.user, device.value);
        if conflict {
          ok := IssueIdentitySession(a, info, retries - 1);
        }
      }
    }

    method RefreshBatch(r: Refresh) returns (ok: bool)
      requires r.newHash !in tokens && r.newHash != r.oldHash
      modifies this`tokens
      ensures Contents() == RotateToken(old(Contents()), r)
      ensures ok <==> RefreshGranted(old(Contents()), r)
    {
      ok := false;
      if r.oldHash in tokens {
        var current := tokens[r.oldHash];
        if current.user == r.user && current.expiresAt > r.now && UserEligible(users, r.user, r.securityStamp)
           && DeviceBacks(devices, current) {
          tokens := tokens[r.newHash := RefreshToken(
            current.user, r.now + REFRESH_TOKEN_TTL_SECONDS, current.deviceIdentifier, current.deviceSessionStamp)];
          ok := true;
        }
      }
      tokens := tokens - {r.oldHash};
    }

    /** DELETE FROM refresh_tokens, if the user row now carries the stamp just written. */
    method ConditionalRefreshTokenDeletion(user: Id, stamp: Id)
      modifies this`tokens
      ensures tokens ==
              if user in users && users[user].securityStamp == stamp then WithoutTokensOf(old(tokens), user) else old(tokens)
    {
      if user in users && users[user].securityStamp == stamp {
        tokens := map h | h in tokens && tokens[h].user != user :: tokens[h];
      }
    }

    /** The guarded insertion or deletion of passkeys, in the batches that change them. */
    method PasskeyStatement(user: Id, r: Rotation, newStamp: Id)
      modifies this`passkeys
      ensures passkeys ==
              if user in users && users[user].securityStamp == newStamp && Present(old(passkeys), user, r)
              then RotatedPasskeys(old(passkeys), user, r)
              else old(passkeys)
    {
      if user in users && users[user].securityStamp == newStamp {
        if r.RegisterPasskey? {
          passkeys := passkeys[r.row := Passkey(user, r.purpose, r.credentialId)];
        } else if r.RemovePasskey? {
          if r.row in passkeys && passkeys[r.row].user == user && passkeys[r.row].purpose == r.purpose {
            passkeys := map id | id in passkeys && id != r.row :: passkeys[id];
          }
        } else if ClearsSecondFactor(r) {
          passkeys := map id | id in passkeys && !(passkeys[id].user == user && passkeys[id].purpose == TwoFactorPasskey)
            :: passkeys[id];
        }
      }
    }

    /** UPDATE webauthn_challenges, if it is still open and the credential is the row that was just inserted. */
    method ChallengeConsumption(user: Id, r: Rotation, now: int)
      requires r.RegisterPasskey?
      modifies this`challenges
      ensures challenges ==
              if && ChallengeOpen(old(challenges), r.challenge, user, now)
                 && r.row in passkeys && passkeys[r.row].credentialId == r.credentialId
              then RotatedChallenges(old(challenges), r, now)
              else old(challenges)
    {
      if ChallengeOpen(challenges, r.challenge, user, now) && r.row in passkeys
         && passkeys[r.row].credentialId == r.credentialId {
        challenges := challenges[r.challenge := challenges[r.challenge].(usedAt := Some(now))];
      }
    }

    /** The statements of every stamp-rotating batch: the guarded update, then what its new stamp unlocks. */
    method RotateStampBatch(user: Id, r: Rotation, newStamp: Id, now: int) returns (ok: bool)
      requires user in users ==> users[user].securityStamp != newStamp
      requires r.RegisterPasskey? ==> r.row !in passkeys
      modifies this
      ensures Contents() == RotateStamp(old(Contents()), user, r, newStamp, now)
      ensures ok <==> RotationAllowed(old(Contents()), user, r, now)
    {
      hide RotatedUser, WithoutTokensOf, WithoutDevicesOf, BumpsRevision, BumpedRevision;
      ok := RotationAllowed(Contents(), user, r, now);
      if ok {
        users := users[user := RotatedUser(users[user], r, newStamp)];
        RotatedStampIsNew(old(users)[user], r, newStamp);
      }
      PasskeyStatement(user, r, newStamp);
      if r.RegisterPasskey? {
        ChallengeConsumption(user, r, now);
      }
      RevocationStatements(user, r, newStamp, now);
    }

    /** What the new stamp revokes: refresh tokens always, devices for one handler; and the revision for most. */
    method RevocationStatements(user: Id, r: Rotation, newStamp: Id, now: int)
      modifies this`tokens, this`devices, this`revisions
      ensures var ok := user in users && users[user].securityStamp == newStamp;
              && tokens == (if ok then WithoutTokensOf(old(tokens), user) else old(tokens))
              && devices == (if ok && r.RemoveAllDevices? then WithoutDevicesOf(old(devices), user) else old(devices))
              && revisions == (if ok && BumpsRevision(r) then BumpedRevision(old(revisions), user, now) else old(revisions))
    {
      ConditionalRefreshTokenDeletion(user, newStamp);
      if r.RemoveAllDevices? && user in users && users[user].securityStamp == newStamp {
        devices := map k | k in devices && k.user != user :: devices[k];
      }
      if BumpsRevision(r) && user in users && users[user].securityStamp == newStamp {
        BumpRevision(user, now);
      }
    }

    /** First the tokens of the still-matching devices, then the devices. */
    method DeleteDevicesBatch(user: Id, snapshots: set<DeviceSnapshot>) returns (deleted: nat)
      modifies this`tokens, this`devices
      ensures Contents() == DeleteDevices(old(Contents()), user, snapshots)
      ensures deleted == |old(devices)| - |devices|
    {
      var before := devices;
      tokens := map h | h in tokens && !BoundTo(tokens[h], user, devices, snapshots) :: tokens[h];
      devices := map k | k in devices && !Deletable(devices, user, snapshots, k) :: devices[k];
      var gone := before.Keys - devices.Keys;
      assert before.Keys == devices.Keys + gone;
      deleted := |gone|;
    }
  }

  /** The device is bound to another stamp than this one. */
  predicate StampMoved(devices: map<DeviceKey, Device>, user: Id, d: DeviceSession) {
    var key := DeviceKey(user, d.identifier);
    key in devices && devices[key].sessionStamp.Some? && devices[key].sessionStamp.value != d.sessionStamp
  }

  lemma RotatedStampIsNew(u: User, r: Rotation, newStamp: Id)
    ensures RotatedUser(u, r, newStamp).securityStamp == newStamp
  {
  }

  /** The login once its device stamp is settled: the stored stamp if there is one, else the fresh one. */
  function Prepared(t: Tables, a: Login, info: Option<DeviceSession>): Login {
    if info.None? then a.(device := None)
    else
      var key := DeviceKey(a.user, info.value.identifier);
      if key in t.devices && t.devices[key].sessionStamp.Some? then
        a.(device := Some(info.value.(sessionStamp := t.devices[key].sessionStamp.value)))
      else a.(device := info)
  }

  // ---------------------------------------------------------------------------------------
  // What a batch means for its caller
  // ---------------------------------------------------------------------------------------

  /** An auth request and a session are claimed and created together or not at all. */
  lemma ConsumptionNeedsSession(t: Tables, a: Login)
    requires LoginDraws(t, a) && a.request.Some?
    ensures var after, c := IssueSession(t, a), a.request.value;
            && ((c.id in after.requests && after.requests[c.id].consumptionToken == Some(c.token))
                <==> a.tokenHash in after.tokens)
            && (a.tokenHash in after.tokens && a.device.Some? ==>
                  && DeviceKey(a.user, a.device.value.identifier) in after.devices
                  && DeviceBacks(after.devices, after.tokens[a.tokenHash]))
            && (a.tokenHash !in after.tokens ==> after == t)
  {
  }

  /** The login goes as far as the device, whose stored row is banned or bound to another stamp. */
  predicate StopsAtDevice(t: Tables, a: Login) {
    && a.request.None? && a.device.Some?
    && UserEligible(t.users, a.user, a.securityStamp)
    && !DeviceCompatible(t.devices, a.user, a.device.value)
  }

  /**
   A refused login writes one row in one case only: without an auth request, for an eligible user, on a
   device whose row is banned or carries another stamp. That row gets the new name and times, and the
   login's stamp if it is banned and has none; identifier, ban and a stored stamp stay. In every other
   case nothing changes at all.
   */
  lemma RefusedLoginTouchesDevice(t: Tables, a: Login)
    requires !SessionGranted(t, a)
    ensures !StopsAtDevice(t, a) ==> IssueSession(t, a) == t
    ensures StopsAtDevice(t, a) ==>
              var key := DeviceKey(a.user, a.device.value.identifier);
              && key in t.devices
              && var row := t.devices[key];
                 && (row.banned || row.sessionStamp.Some?)
                 && IssueSession(t, a) == t.(devices := t.devices[key := row.(
                      name := a.deviceName, lastSeenAt := Some(a.now), updatedAt := a.now,
                      sessionStamp := if row.sessionStamp.Some? then row.sessionStamp else Some(a.device.value.sessionStamp))])
  {
  }

  /** So a refused login leaves a trace if and only if it stops at a device row it does not already agree with. */
  lemma RefusedLoginLeavesTrace(t: Tables, a: Login)
    requires !SessionGranted(t, a)
    ensures IssueSession(t, a) != t <==>
              && StopsAtDevice(t, a)
              && var row := t.devices[DeviceKey(a.user, a.device.value.identifier)];
                 || row.name != a.deviceName || row.lastSeenAt != Some(a.now) || row.updatedAt != a.now
                 || row.sessionStamp == None
  {
    hide SessionGranted, UserEligible, IssueSession, UpsertedDevice;
    RefusedLoginTouchesDevice(t, a);
    if StopsAtDevice(t, a) {
      var key := DeviceKey(a.user, a.device.value.identifier);
      var after := IssueSession(t, a);
      assert after.devices[key].name == a.deviceName && after.devices[key].updatedAt == a.now;
      if after.devices[key] == t.devices[key] {
        assert after.devices == t.devices;
      }
    }
  }

  /** A banned device that never had a session is stamped by the login it refuses. */
  lemma RefusedLoginStampsBannedDevice()
    ensures var key, row := DeviceKey(1, 2), Device(3, 4, None, true, None, None, 10);
            var t := Tables(map[1 := User(Active, None, 5, 6, None, None, NO_YUBIKEYS)], map[key := row],
                            map[], map[], map[], {}, map[], map[]);
            var a := Login(1, 5, Some(DeviceSession(2, 7)), 8, 9, 11, 20, None, None);
            && LoginDraws(t, a) && !SessionGranted(t, a)
            && IssueSession(t, a) == t.(devices := map[key := Device(3, 8, Some(7), true, None, Some(20), 20)])
  {
  }
}
