/**
 Every interleaving of logins, refreshes, revocations, stamp rotations, device removals, account
 deletions and maintenance. A request reads rows at any earlier time and then runs one atomic
 batch with whatever it read, so a step here carries arbitrary, possibly stale, values; only what
 the request draws with crypto.randomUUID or createRefreshToken is fresh.
 */
module IdentityRuns {
  import opened Options
  import opened IdentityTables

  /** Under what a refresh token was issued: the token of the login it descends from names its lineage. */
  datatype Mint = Mint(user: Id, stamp: Id, lineage: Id, device: Option<DeviceSession>)

  /** Whom an auth request was made for, of what kind and when. */
  datatype Asked = Asked(user: Id, kind: int, at: int)

  /** What has happened so far. No handler reads it. */
  datatype History = History(
    stamps: set<Id>,
    minted: map<Id, Mint>,
    latest: map<Id, Id>,
    successor: map<Id, Id>,
    claimedBy: map<Id, Id>,
    consumedAt: map<Id, int>,
    asked: map<Id, Asked>,
    answers: map<Id, bool>,
    challenges: set<Id>)

  datatype System = System(t: Tables, h: History)

  datatype Step =
    | SignIn(login: Login)
    | Renew(refresh: Refresh)
    | Revoke(hash: Id)
    | Rotate(user: Id, rotation: Rotation, newStamp: Id, now: int)
    | Erase(user: Id, newStamp: Id, now: int, ownsOrganization: bool)
    | Unban(user: Id, expectedStatus: Status)
    | RemoveDevices(user: Id, snapshots: set<DeviceSnapshot>)
    | EditDevice(key: DeviceKey, name: Id, mutationToken: Id)
    | AskApproval(id: Id, user: Id, kind: int, device: Id, rowid: nat, now: int)
    | AnswerApproval(id: Id, approved: bool, now: int)
    | OfferChallenge(hash: Id, user: Id, now: int, expiresAt: int)
    | Maintain(now: int)
    | Register(user: Id, passwordHash: Id, newStamp: Id)

  /** The values a step drew are new to the system. */
  ghost predicate Drawn(s: System, step: Step) {
    match step
    case SignIn(a) => a.tokenHash !in s.h.minted && LoginDraws(s.t, a)
    case Renew(r) => r.newHash !in s.h.minted && r.newHash != r.oldHash
    case Rotate(_, r, stamp, _) => stamp !in s.h.stamps && (r.RegisterPasskey? ==> r.row !in s.t.passkeys)
    case OfferChallenge(hash, _, _, _) => hash !in s.h.challenges
    case Erase(_, stamp, _, _) => stamp !in s.h.stamps
    case AskApproval(id, _, _, _, rowid, _) =>
      id !in s.h.asked && forall k :: k in s.t.requests ==> s.t.requests[k].rowid < rowid
    case Register(user, _, stamp) => user !in s.t.users && stamp !in s.h.stamps
    case _ => true
  }

  function AfterSignIn(s: System, a: Login): System {
    System(IssueSession(s.t, a),
           if SessionGranted(s.t, a) then
             s.h.(minted := s.h.minted[a.tokenHash := Mint(a.user, a.securityStamp, a.tokenHash, a.device)],
                  latest := s.h.latest[a.tokenHash := a.tokenHash],
                  claimedBy := if a.request.Some? then s.h.claimedBy[a.request.value.id := a.tokenHash] else s.h.claimedBy,
                  consumedAt := if a.request.Some? then s.h.consumedAt[a.request.value.id := a.now] else s.h.consumedAt)
           else s.h)
  }

  function AfterRenew(s: System, r: Refresh): System {
    System(RotateToken(s.t, r),
           if RefreshGranted(s.t, r) && r.oldHash in s.h.minted then
             var lineage := s.h.minted[r.oldHash].lineage;
             s.h.(minted := s.h.minted[r.newHash := Mint(r.user, r.securityStamp, lineage, s.h.minted[r.oldHash].device)],
                  latest := s.h.latest[lineage := r.newHash],
                  successor := s.h.successor[r.oldHash := r.newHash])
           else s.h)
  }

  function AfterUnban(s: System, user: Id, expected: Status): System {
    if user in s.t.users && s.t.users[user].status == expected && s.t.users[user].deletionRequestedAt == None then
      s.(t := s.t.(users := s.t.users[user := s.t.users[user].(status := Active)]))
    else s
  }

  function AfterEdit(s: System, key: DeviceKey, name: Id, token: Id): System {
    if key in s.t.devices then
      s.(t := s.t.(devices := s.t.devices[key := s.t.devices[key].(name := name, mutationToken := Some(token))]))
    else s
  }

  function AfterAsking(s: System, id: Id, user: Id, kind: int, device: Id, rowid: nat, now: int): System {
    System(s.t.(requests := s.t.requests[id := AuthRequest(user, kind, device, rowid, None, None, None, None, now)]),
           s.h.(asked := s.h.asked[id := Asked(user, kind, now)]))
  }

  /** A pending request of the user that the same device made later. */
  predicate Superseded(requests: map<Id, AuthRequest>, id: Id)
    requires id in requests
  {
    exists newer ::
      && newer in requests
      && requests[newer].user == requests[id].user && requests[newer].device == requests[id].device
      && requests[newer].approved == None && requests[newer].responseDate == None
      && (requests[newer].creationDate > requests[id].creationDate
          || (requests[newer].creationDate == requests[id].creationDate && requests[newer].rowid > requests[id].rowid))
  }

  /** Any pending request may be denied; only the latest of its device may be approved. */
  function AfterAnswer(s: System, id: Id, approved: bool, now: int): System {
    if && id in s.t.requests && s.t.requests[id].approved == None && s.t.requests[id].responseDate == None
       && s.t.requests[id].authenticationDate == None && s.t.requests[id].consumptionToken == None
       && s.t.requests[id].creationDate >= now - AUTH_REQUEST_TTL_SECONDS
       && (approved ==> !Superseded(s.t.requests, id))
    then
      var row := s.t.requests[id].(approved := Some(approved), responseDate := Some(now));
      System(s.t.(requests := s.t.requests[id := row]), s.h.(answers := s.h.answers[id := approved]))
    else s
  }

  /** A new challenge sweeps out the expired ones. */
  function AfterOffer(s: System, hash: Id, user: Id, now: int, expiresAt: int): System {
    var open := map c | c in s.t.challenges && s.t.challenges[c].expiresAt >= now :: s.t.challenges[c];
    System(s.t.(challenges := open[hash := Challenge(user, None, expiresAt)]),
           s.h.(challenges := s.h.challenges + {hash}))
  }

  function Maintained(t: Tables, now: int): Tables {
    t.(tokens := map k | k in t.tokens && t.tokens[k].expiresAt > now :: t.tokens[k],
       requests := map k | k in t.requests && t.requests[k].creationDate >= now - AUTH_REQUEST_TTL_SECONDS :: t.requests[k],
       challenges := map c |
         c in t.challenges && t.challenges[c].expiresAt > now && t.challenges[c].usedAt == None :: t.challenges[c])
  }

  function Exec(s: System, step: Step): System {
    match step
    case SignIn(a) => AfterSignIn(s, a)
    case Renew(r) => AfterRenew(s, r)
    case Revoke(hash) => s.(t := s.t.(tokens := s.t.tokens - {hash}))
    case Rotate(user, r, stamp, now) =>
      System(RotateStamp(s.t, user, r, stamp, now), s.h.(stamps := s.h.stamps + {stamp}))
    case Erase(user, stamp, now, owns) =>
      System(DeleteAccount(s.t, user, stamp, now, owns), s.h.(stamps := s.h.stamps + {stamp}))
    case Unban(user, expected) => AfterUnban(s, user, expected)
    case RemoveDevices(user, snapshots) => s.(t := DeleteDevices(s.t, user, snapshots))
    case EditDevice(key, name, token) => AfterEdit(s, key, name, token)
    case AskApproval(id, user, kind, device, rowid, now) => AfterAsking(s, id, user, kind, device, rowid, now)
    case AnswerApproval(id, approved, now) => AfterAnswer(s, id, approved, now)
    case OfferChallenge(hash, user, now, expiresAt) => AfterOffer(s, hash, user, now, expiresAt)
    case Maintain(now) => s.(t := Maintained(s.t, now))
    case Register(user, hash, stamp) =>
      System(s.t.(users := s.t.users[user := User(Active, None, stamp, hash, None, None, NO_YUBIKEYS)]),
             s.h.(stamps := s.h.stamps + {stamp}))
  }

  // ---------------------------------------------------------------------------------------
  // The invariant
  // ---------------------------------------------------------------------------------------

  /** The token carries the binding of the login it descends from, and nothing else. */
  predicate BoundAs(token: RefreshToken, device: Option<DeviceSession>) {
    && token.deviceIdentifier == (if device.Some? then Some(device.value.identifier) else None)
    && token.deviceSessionStamp == if device.Some? then Some(device.value.sessionStamp) else None
  }

  ghost predicate DeviceMatches(devices: map<DeviceKey, Device>, token: RefreshToken) {
    && (token.deviceIdentifier.Some? <==> token.deviceSessionStamp.Some?)
    && (token.deviceIdentifier.Some? ==>
          && DeviceKey(token.user, token.deviceIdentifier.value) in devices
          && devices[DeviceKey(token.user, token.deviceIdentifier.value)].sessionStamp == token.deviceSessionStamp)
  }

  /**
   A live token belongs to an active user, under the stamp it was minted with, on the device of its
   login, and is the latest of its lineage.
   */
  ghost predicate Backed(s: System, hash: Id)
    requires hash in s.t.tokens
  {
    var token := s.t.tokens[hash];
    && hash in s.h.minted
    && s.h.minted[hash].user == token.user
    && token.user in s.t.users
    && s.t.users[token.user].status == Active
    && s.t.users[token.user].deletionRequestedAt == None
    && s.t.users[token.user].securityStamp == s.h.minted[hash].stamp
    && BoundAs(token, s.h.minted[hash].device)
    && DeviceMatches(s.t.devices, token)
    && s.h.minted[hash].lineage in s.h.latest
    && s.h.latest[s.h.minted[hash].lineage] == hash
  }

  ghost predicate TokensBacked(s: System) {
    forall hash :: hash in s.t.tokens ==> Backed(s, hash)
  }

  ghost predicate StampsRecorded(s: System) {
    && (forall u :: u in s.t.users ==> s.t.users[u].securityStamp in s.h.stamps)
    && (forall m :: m in s.h.minted ==> s.h.minted[m].stamp in s.h.stamps)
  }

  /** A token is of the user and device of the login it descends from. */
  predicate Descends(minted: map<Id, Mint>, m: Id)
    requires m in minted
  {
    && minted[m].lineage in minted
    && var login := minted[minted[m].lineage];
       login.user == minted[m].user && login.device == minted[m].device && login.lineage == minted[m].lineage
  }

  ghost predicate LineagesRecorded(s: System) {
    forall m :: m in s.h.minted ==> Descends(s.h.minted, m)
  }

  ghost predicate SuccessorsRecorded(s: System) {
    forall o :: o in s.h.successor ==>
      && o in s.h.minted && o !in s.t.tokens
      && s.h.successor[o] in s.h.minted
      && s.h.minted[s.h.successor[o]].lineage == s.h.minted[o].lineage
  }

  ghost predicate ClaimsRecorded(s: System) {
    && s.t.requests.Keys <= s.h.asked.Keys
    && (forall id :: id in s.h.claimedBy ==> id in s.h.asked && s.h.claimedBy[id] in s.h.minted)
    && (forall id :: id in s.t.requests ==> (s.t.requests[id].consumptionToken.Some? <==> id in s.h.claimedBy))
  }

  ghost predicate Inv(s: System) {
    TokensBacked(s) && StampsRecorded(s) && LineagesRecorded(s) && SuccessorsRecorded(s) && ClaimsRecorded(s)
  }

  /** Each login has at most one live refresh token. */
  ghost predicate OneLivePerLineage(s: System) {
    forall a, b ::
      (&& a in s.t.tokens && b in s.t.tokens && a in s.h.minted && b in s.h.minted
       && s.h.minted[a].lineage == s.h.minted[b].lineage) ==> a == b
  }

  lemma UpsertKeepsStamps(devices: map<DeviceKey, Device>, a: Login, key: DeviceKey)
    requires a.device.Some? && key in devices && devices[key].sessionStamp.Some?
    ensures key in UpsertedDevice(devices, a) && UpsertedDevice(devices, a)[key].sessionStamp == devices[key].sessionStamp
  {
  }

  lemma SignInKeepsStamp(t: Tables, a: Login, key: DeviceKey)
    requires key in t.devices && t.devices[key].sessionStamp.Some?
    ensures key in IssueSession(t, a).devices && IssueSession(t, a).devices[key].sessionStamp == t.devices[key].sessionStamp
  {
    hide SessionGranted, BumpedRevision, ClaimedRequest, UpsertedDevice;
    if a.device.Some? {
      UpsertKeepsStamps(t.devices, a, key);
    }
  }

  lemma SignInKeepsRow(t: Tables, a: Login, hash: Id)
    requires hash in t.tokens && a.tokenHash != hash
    ensures var after := IssueSession(t, a);
            after.users == t.users && hash in after.tokens && after.tokens[hash] == t.tokens[hash]
  {
    hide SessionGranted, BumpedRevision, ClaimedRequest, UpsertedDevice;
  }

  lemma SignInKeepsRecord(s: System, a: Login, hash: Id)
    requires hash in s.h.minted && a.tokenHash !in s.h.minted && Descends(s.h.minted, hash)
    ensures var lineage, after := s.h.minted[hash].lineage, AfterSignIn(s, a).h;
            && hash in after.minted && after.minted[hash] == s.h.minted[hash]
            && (lineage in s.h.latest ==> lineage in after.latest && after.latest[lineage] == s.h.latest[lineage])
  {
    hide SessionGranted, IssueSession;
  }

  lemma SignInKeepsToken(s: System, a: Login, hash: Id)
    requires hash in s.t.tokens && Backed(s, hash)
    requires a.tokenHash !in s.h.minted && LineagesRecorded(s)
    ensures hash in AfterSignIn(s, a).t.tokens && Backed(AfterSignIn(s, a), hash)
  {
    hide SessionGranted, IssueSession, BoundAs;
    assert Descends(s.h.minted, hash);
    SignInKeepsRow(s.t, a, hash);
    var token := s.t.tokens[hash];
    if token.deviceIdentifier.Some? {
      SignInKeepsStamp(s.t, a, DeviceKey(token.user, token.deviceIdentifier.value));
    }
    SignInKeepsRecord(s, a, hash);
  }

  lemma SignInBacksToken(s: System, a: Login)
    requires SessionGranted(s.t, a)
    ensures a.tokenHash in AfterSignIn(s, a).t.tokens && Backed(AfterSignIn(s, a), a.tokenHash)
  {
  }

  lemma SignInTokens(s: System, a: Login)
    ensures AfterSignIn(s, a).t.tokens.Keys == s.t.tokens.Keys + (if SessionGranted(s.t, a) then {a.tokenHash} else {})
    ensures AfterSignIn(s, a).t.users == s.t.users
  {
  }

  lemma SignInRecordsStamps(s: System, a: Login)
    requires StampsRecorded(s)
    ensures StampsRecorded(AfterSignIn(s, a))
  {
  }

  lemma SignInRecordsLineages(s: System, a: Login)
    requires LineagesRecorded(s) && a.tokenHash !in s.h.minted
    ensures LineagesRecorded(AfterSignIn(s, a))
  {
    forall m | m in s.h.minted
      ensures Descends(AfterSignIn(s, a).h.minted, m)
    {
      assert Descends(s.h.minted, m);
    }
  }

  lemma SignInRecordsSuccessors(s: System, a: Login)
    requires SuccessorsRecorded(s) && a.tokenHash !in s.h.minted
    ensures SuccessorsRecorded(AfterSignIn(s, a))
  {
  }

  lemma SignInClaims(s: System, a: Login)
    requires ClaimsRecorded(s)
    ensures ClaimsRecorded(AfterSignIn(s, a))
  {
  }

  lemma SignInKeepsInv(s: System, a: Login)
    requires Inv(s) && a.tokenHash !in s.h.minted
    ensures Inv(AfterSignIn(s, a))
  {
    hide AfterSignIn, Backed, SessionGranted, LineagesRecorded;
    SignInRecordsStamps(s, a);
    SignInRecordsLineages(s, a);
    SignInRecordsSuccessors(s, a);
    SignInClaims(s, a);
    SignInTokens(s, a);
    forall hash | hash in AfterSignIn(s, a).t.tokens
      ensures Backed(AfterSignIn(s, a), hash)
    {
      if hash in s.t.tokens {
        SignInKeepsToken(s, a, hash);
      } else {
        SignInBacksToken(s, a);
      }
    }
  }

  lemma RenewKeepsToken(s: System, r: Refresh, hash: Id)
    requires hash in s.t.tokens && Backed(s, hash) && hash != r.oldHash
    requires r.oldHash in s.t.tokens ==> Backed(s, r.oldHash)
    requires r.newHash !in s.h.minted
    ensures hash in AfterRenew(s, r).t.tokens && Backed(AfterRenew(s, r), hash)
  {
  }

  lemma RenewBacksToken(s: System, r: Refresh)
    requires RefreshGranted(s.t, r) && Backed(s, r.oldHash) && r.newHash != r.oldHash
    ensures r.newHash in AfterRenew(s, r).t.tokens && Backed(AfterRenew(s, r), r.newHash)
  {
  }

  lemma RenewTokens(s: System, r: Refresh)
    requires r.newHash != r.oldHash
    ensures AfterRenew(s, r).t.tokens.Keys ==
            s.t.tokens.Keys - {r.oldHash} + (if RefreshGranted(s.t, r) then {r.newHash} else {})
    ensures AfterRenew(s, r).t == s.t.(tokens := AfterRenew(s, r).t.tokens)
  {
  }

  lemma RenewRecordsStamps(s: System, r: Refresh)
    requires StampsRecorded(s) && r.newHash != r.oldHash
    ensures StampsRecorded(AfterRenew(s, r))
  {
  }

  lemma RenewRecordsLineages(s: System, r: Refresh)
    requires LineagesRecorded(s) && r.newHash !in s.h.minted
    requires r.oldHash in s.t.tokens ==> Backed(s, r.oldHash)
    ensures LineagesRecorded(AfterRenew(s, r))
  {
    hide RotateToken, UserEligible, DeviceBacks;
    forall m | m in AfterRenew(s, r).h.minted
      ensures Descends(AfterRenew(s, r).h.minted, m)
    {
      assert Descends(s.h.minted, if m in s.h.minted then m else r.oldHash);
    }
  }

  lemma RenewRecordsSuccessors(s: System, r: Refresh)
    requires SuccessorsRecorded(s) && r.newHash !in s.h.minted && r.newHash != r.oldHash
    ensures SuccessorsRecorded(AfterRenew(s, r))
  {
  }

  lemma RenewRecordsClaims(s: System, r: Refresh)
    requires ClaimsRecorded(s) && r.newHash != r.oldHash
    ensures ClaimsRecorded(AfterRenew(s, r))
  {
  }

  lemma RenewKeepsInv(s: System, r: Refresh)
    requires Inv(s) && r.newHash !in s.h.minted && r.newHash != r.oldHash
    ensures Inv(AfterRenew(s, r))
  {
    hide AfterRenew, Backed, RefreshGranted, LineagesRecorded;
    RenewRecordsStamps(s, r);
    RenewRecordsLineages(s, r);
    RenewRecordsSuccessors(s, r);
    RenewRecordsClaims(s, r);
    RenewTokens(s, r);
    forall hash | hash in AfterRenew(s, r).t.tokens
      ensures Backed(AfterRenew(s, r), hash)
    {
      if hash in s.t.tokens && hash != r.oldHash {
        RenewKeepsToken(s, r, hash);
      } else {
        assert RefreshGranted(s.t, r);
        GrantedIsLive(s.t, r);
        RenewBacksToken(s, r);
      }
    }
  }

  lemma GrantedIsLive(t: Tables, r: Refresh)
    requires RefreshGranted(t, r)
    ensures r.oldHash in t.tokens
  {
  }

  /** Any step that only revokes tokens, or changes users, devices and requests compatibly. */
  ghost predicate Compatible(s: System, s': System) {
    && s'.h.minted == s.h.minted && s'.h.latest == s.h.latest
    && s'.h.successor == s.h.successor && s'.h.claimedBy == s.h.claimedBy
    && s.h.stamps <= s'.h.stamps && s.h.asked.Keys <= s'.h.asked.Keys
    && (forall hash :: hash in s'.t.tokens ==>
          && hash in s.t.tokens && s'.t.tokens[hash] == s.t.tokens[hash]
          && var user := s.t.tokens[hash].user;
             (user in s.t.users ==>
                && user in s'.t.users
                && s'.t.users[user].securityStamp == s.t.users[user].securityStamp
                && (s.t.users[user].status == Active ==> s'.t.users[user].status == Active)
                && s'.t.users[user].deletionRequestedAt == s.t.users[user].deletionRequestedAt))
    && (forall hash :: hash in s'.t.tokens && s.t.tokens[hash].deviceIdentifier.Some? ==>
          var key := DeviceKey(s.t.tokens[hash].user, s.t.tokens[hash].deviceIdentifier.value);
          key in s.t.devices ==>
            key in s'.t.devices && s'.t.devices[key].sessionStamp == s.t.devices[key].sessionStamp)
    && (forall u :: u in s'.t.users ==>
          || s'.t.users[u].securityStamp in s'.h.stamps - s.h.stamps
          || (u in s.t.users && s'.t.users[u].securityStamp == s.t.users[u].securityStamp))
    && (forall id :: id in s'.t.requests ==>
          || (id in s.t.requests && s'.t.requests[id].consumptionToken == s.t.requests[id].consumptionToken)
          || (id in s'.h.asked.Keys - s.h.asked.Keys && s'.t.requests[id].consumptionToken == None))
    && (forall u :: u in s.t.users ==>
          && u in s'.t.users
          && (s'.t.users[u].securityStamp == s.t.users[u].securityStamp || s'.t.users[u].securityStamp !in s.h.stamps))
  }

  lemma CompatibleKeepsInv(s: System, s': System)
    requires Inv(s) && Compatible(s, s')
    ensures Inv(s')
  {
    forall hash | hash in s'.t.tokens
      ensures Backed(s', hash)
    {
      assert Backed(s, hash);
    }
  }

  lemma RotateIsCompatible(s: System, user: Id, r: Rotation, stamp: Id, now: int)
    requires stamp !in s.h.stamps
    ensures Compatible(s, System(RotateStamp(s.t, user, r, stamp, now), s.h.(stamps := s.h.stamps + {stamp})))
  {
  }

  lemma EraseIsCompatible(s: System, user: Id, stamp: Id, now: int, owns: bool)
    requires stamp !in s.h.stamps
    ensures Compatible(s, System(DeleteAccount(s.t, user, stamp, now, owns), s.h.(stamps := s.h.stamps + {stamp})))
  {
  }

  lemma RemoveDevicesIsCompatible(s: System, user: Id, snapshots: set<DeviceSnapshot>)
    ensures Compatible(s, s.(t := DeleteDevices(s.t, user, snapshots)))
  {
  }

  lemma MaintainIsCompatible(s: System, now: int)
    ensures Compatible(s, s.(t := Maintained(s.t, now)))
  {
  }

  lemma UnbanIsCompatible(s: System, user: Id, expected: Status)
    ensures Compatible(s, AfterUnban(s, user, expected))
  {
  }

  lemma EditIsCompatible(s: System, key: DeviceKey, name: Id, token: Id)
    ensures Compatible(s, AfterEdit(s, key, name, token))
  {
  }

  lemma OfferIsCompatible(s: System, hash: Id, user: Id, now: int, expiresAt: int)
    ensures Compatible(s, AfterOffer(s, hash, user, now, expiresAt))
  {
  }

  lemma AskingIsCompatible(s: System, id: Id, user: Id, kind: int, device: Id, rowid: nat, now: int)
    requires id !in s.h.asked
    ensures Compatible(s, AfterAsking(s, id, user, kind, device, rowid, now))
  {
  }

  lemma AnswerIsCompatible(s: System, id: Id, approved: bool, now: int)
    ensures Compatible(s, AfterAnswer(s, id, approved, now))
  {
  }

  lemma RegisterIsCompatible(s: System, user: Id, hash: Id, stamp: Id)
    requires user !in s.t.users && stamp !in s.h.stamps
    ensures Compatible(s, System(s.t.(users := s.t.users[user := User(Active, None, stamp, hash, None, None, NO_YUBIKEYS)]),
                                 s.h.(stamps := s.h.stamps + {stamp})))
  {
  }

  /** Only a login and a refresh create tokens; every other step is compatible with what is recorded. */
  lemma OtherStepsAreCompatible(s: System, step: Step)
    requires Drawn(s, step) && !step.SignIn? && !step.Renew?
    ensures Compatible(s, Exec(s, step))
  {
    hide RotateStamp, DeleteAccount, DeleteDevices, Maintained, AfterUnban, AfterEdit, AfterAsking, AfterAnswer, AfterOffer;
    match step
    case Rotate(user, r, stamp, now) => RotateIsCompatible(s, user, r, stamp, now);
    case Erase(user, stamp, now, owns) => EraseIsCompatible(s, user, stamp, now, owns);
    case RemoveDevices(user, snapshots) => RemoveDevicesIsCompatible(s, user, snapshots);
    case Maintain(now) => MaintainIsCompatible(s, now);
    case OfferChallenge(hash, user, now, expiresAt) => OfferIsCompatible(s, hash, user, now, expiresAt);
    case Unban(user, expected) => UnbanIsCompatible(s, user, expected);
    case EditDevice(key, name, token) => EditIsCompatible(s, key, name, token);
    case AskApproval(id, user, kind, device, rowid, now) => AskingIsCompatible(s, id, user, kind, device, rowid, now);
    case AnswerApproval(id, approved, now) => AnswerIsCompatible(s, id, approved, now);
    case Register(user, hash, stamp) => RegisterIsCompatible(s, user, hash, stamp);
    case Revoke(_) =>
  }

  lemma StepKeepsInv(s: System, step: Step)
    requires Inv(s) && Drawn(s, step)
    ensures Inv(Exec(s, step))
  {
    hide Inv, Compatible, AfterSignIn, AfterRenew;
    match step
    case SignIn(a) => SignInKeepsInv(s, a);
    case Renew(r) => RenewKeepsInv(s, r);
    case _ =>
      OtherStepsAreCompatible(s, step);
      CompatibleKeepsInv(s, Exec(s, step));
  }

  // ---------------------------------------------------------------------------------------
  // Runs
  // ---------------------------------------------------------------------------------------

  ghost predicate ValidRun(s: System, steps: seq<Step>)
    decreases |steps|
  {
    steps == [] || (Drawn(s, steps[0]) && ValidRun(Exec(s, steps[0]), steps[1..]))
  }

  function Run(s: System, steps: seq<Step>): System
    decreases |steps|
  {
    if steps == [] then s else Run(Exec(s, steps[0]), steps[1..])
  }

  const EMPTY := System(Tables(map[], map[], map[], map[], map[], {}, map[], map[]),
                       History({}, map[], map[], map[], map[], map[], map[], map[], {}))

  lemma {:induction false} RunKeepsInv(s: System, steps: seq<Step>)
    requires Inv(s) && ValidRun(s, steps)
    ensures Inv(Run(s, steps))
    decreases |steps|
  {
    hide Inv, Exec, Drawn;
    if steps != [] {
      StepKeepsInv(s, steps[0]);
      RunKeepsInv(Exec(s, steps[0]), steps[1..]);
    }
  }

  /** Some interleaving leads here from the empty tables. */
  ghost predicate Reachable(s: System) {
    exists steps :: ValidRun(EMPTY, steps) && Run(EMPTY, steps) == s
  }

  lemma ReachableInv(s: System)
    requires Reachable(s)
    ensures Inv(s)
  {
    hide Exec, Drawn;
    var steps :| ValidRun(EMPTY, steps) && Run(EMPTY, steps) == s;
    RunKeepsInv(EMPTY, steps);
  }

  /** In every reachable state each live token is backed, and each login has at most one live token. */
  lemma ReachableTokensBacked(s: System)
    requires Reachable(s)
    ensures TokensBacked(s) && OneLivePerLineage(s)
  {
    hide Reachable;
    ReachableInv(s);
  }

  /** A stamp a user no longer has never comes back; what was minted stays as it was; the dead stay dead. */
  ghost predicate Later(s: System, s': System) {
    && s.h.stamps <= s'.h.stamps
    && (forall m :: m in s.h.minted ==> m in s'.h.minted && s'.h.minted[m] == s.h.minted[m])
    && (forall m :: m in s.h.minted && m !in s.t.tokens ==> m !in s'.t.tokens)
    && (forall o :: o in s.h.successor ==> o in s'.h.successor && s'.h.successor[o] == s.h.successor[o])
    && (forall id :: id in s.h.claimedBy ==> id in s'.h.claimedBy && s'.h.claimedBy[id] == s.h.claimedBy[id])
    && (forall u :: u in s.t.users ==>
          && u in s'.t.users
          && (s'.t.users[u].securityStamp == s.t.users[u].securityStamp || s'.t.users[u].securityStamp !in s.h.stamps))
  }

  lemma SignInIsLater(s: System, a: Login)
    requires ClaimsRecorded(s) && a.tokenHash !in s.h.minted
    ensures Later(s, AfterSignIn(s, a))
  {
  }

  lemma RenewIsLater(s: System, r: Refresh)
    requires SuccessorsRecorded(s) && r.newHash !in s.h.minted && r.newHash != r.oldHash
    ensures Later(s, AfterRenew(s, r))
  {
  }

  lemma CompatibleIsLater(s: System, s': System)
    requires Compatible(s, s')
    ensures Later(s, s')
  {
  }

  lemma StepIsLater(s: System, step: Step)
    requires Inv(s) && Drawn(s, step)
    ensures Later(s, Exec(s, step))
  {
    hide TokensBacked, StampsRecorded, LineagesRecorded, SuccessorsRecorded, ClaimsRecorded, Later, Compatible, AfterSignIn, AfterRenew;
    match step
    case SignIn(a) => SignInIsLater(s, a);
    case Renew(r) => RenewIsLater(s, r);
    case _ =>
      OtherStepsAreCompatible(s, step);
      CompatibleIsLater(s, Exec(s, step));
  }

  lemma {:induction false} RunIsLater(s: System, steps: seq<Step>)
    requires Inv(s) && ValidRun(s, steps)
    ensures Later(s, Run(s, steps))
    decreases |steps|
  {
    hide Inv, Exec, Drawn;
    if steps != [] {
      var next := Exec(s, steps[0]);
      StepIsLater(s, steps[0]);
      StepKeepsInv(s, steps[0]);
      RunIsLater(next, steps[1..]);
    }
  }

  // ---------------------------------------------------------------------------------------
  // Revocation
  // ---------------------------------------------------------------------------------------

  /** The claims of an access token that the verification compares with the tables. */
  datatype AccessToken = AccessToken(sub: Id, sstamp: Id, device: Option<DeviceSession>)

  predicate Accepted(t: Tables, token: AccessToken) {
    && token.sub in t.users
    && t.users[token.sub].status == Active
    && token.sstamp == t.users[token.sub].securityStamp
    && (token.device.Some? ==>
          var key := DeviceKey(token.sub, token.device.value.identifier);
          key in t.devices && t.devices[key].sessionStamp == Some(token.device.value.sessionStamp))
  }

  /** The tokens a login hands out work: the access token verifies and the refresh token renews until its term is over. */
  lemma IssuedTokensWork(s: System, a: Login, newHash: Id, now: int)
    requires Drawn(s, SignIn(a)) && SessionGranted(s.t, a)
    ensures Accepted(Exec(s, SignIn(a)).t, AccessToken(a.user, a.securityStamp, a.device))
    ensures RefreshGranted(Exec(s, SignIn(a)).t, Refresh(a.tokenHash, newHash, a.user, a.securityStamp, now))
            <==> now < a.now + REFRESH_TOKEN_TTL_SECONDS
  {
  }

  /** Once a user's stamp has moved on, no access token that carries the old one is ever accepted again. */
  lemma RotatedAccessTokenStaysDead(s: System, steps: seq<Step>, token: AccessToken)
    requires Reachable(s) && ValidRun(s, steps)
    requires token.sub in s.t.users && token.sstamp in s.h.stamps && s.t.users[token.sub].securityStamp != token.sstamp
    ensures !Accepted(Run(s, steps).t, token)
  {
    hide Inv, Exec, Drawn, Reachable;
    ReachableInv(s);
    RunIsLater(s, steps);
  }

  /** The same for refresh tokens: none minted before the rotation is ever granted again, by any request. */
  lemma RotatedRefreshTokenStaysDead(s: System, steps: seq<Step>, r: Refresh)
    requires Reachable(s) && ValidRun(s, steps)
    requires r.oldHash in s.h.minted
    requires var m := s.h.minted[r.oldHash]; m.user in s.t.users && s.t.users[m.user].securityStamp != m.stamp
    ensures r.oldHash !in Run(s, steps).t.tokens && !RefreshGranted(Run(s, steps).t, r)
  {
    hide Exec, Drawn, Reachable;
    ReachableInv(s);
    assert r.oldHash in s.t.tokens ==> Backed(s, r.oldHash);
    RunIsLater(s, steps);
  }

  /** Every rotation that goes through revokes: it leaves no refresh token and no old access token of the user. */
  lemma RotationRevokes(s: System, user: Id, r: Rotation, stamp: Id, now: int, token: AccessToken, hash: Id)
    requires Drawn(s, Rotate(user, r, stamp, now))
    requires RotationAllowed(s.t, user, r, now)
    requires token.sub == user && token.sstamp in s.h.stamps
    ensures var after := Exec(s, Rotate(user, r, stamp, now)).t;
            !Accepted(after, token) && (hash in after.tokens ==> after.tokens[hash].user != user)
  {
  }

  // ---------------------------------------------------------------------------------------
  // Lineages and consumption
  // ---------------------------------------------------------------------------------------

  lemma RefreshAddsOne(s: System, r: Refresh)
    requires r.newHash != r.oldHash && (RefreshGranted(s.t, r) ==> r.oldHash in s.t.tokens)
    ensures r.oldHash !in AfterRenew(s, r).t.tokens && |AfterRenew(s, r).t.tokens| <= |s.t.tokens|
  {
    hide RefreshGranted, AfterRenew, RotateToken;
    RenewTokens(s, r);
    var live, kept := s.t.tokens.Keys, s.t.tokens.Keys - {r.oldHash};
    if RefreshGranted(s.t, r) {
      assert live == kept + {r.oldHash};
    } else {
      SubsetSize(kept, live);
    }
    assert |AfterRenew(s, r).t.tokens| == |AfterRenew(s, r).t.tokens.Keys|;
  }

  /** A refresh removes the presented token, adds at most one, and a token that has a successor renews no more. */
  lemma RefreshRotates(s: System, r: Refresh)
    requires Reachable(s) && Drawn(s, Renew(r))
    ensures var after := Exec(s, Renew(r));
            && r.oldHash !in after.t.tokens
            && |after.t.tokens| <= |s.t.tokens|
            && (r.oldHash in s.h.successor ==> !RefreshGranted(s.t, r) && after.h == s.h)
            && (RefreshGranted(s.t, r) ==>
                  && r.oldHash in after.h.successor && after.h.successor[r.oldHash] == r.newHash
                  && r.newHash in after.t.tokens)
  {
    hide RotateToken, DeviceMatches, DeviceBacks, Reachable;
    ReachableInv(s);
    RefreshAddsOne(s, r);
    RenewTokens(s, r);
    assert RefreshGranted(s.t, r) ==> Backed(s, r.oldHash);
  }

  lemma SubsetSize(a: set<Id>, b: set<Id>)
    requires a <= b
    ensures |a| <= |b|
  {
    assert b == a + (b - a);
  }

  /**
   Over any run, a token keeps the successor it once got: of any number of requests presenting the
   same token, however they interleave, one at most obtains a new token.
   */
  lemma SuccessorIsFinal(s: System, steps: seq<Step>, r: Refresh)
    requires Reachable(s) && ValidRun(s, steps) && r.oldHash in s.h.successor
    ensures var after := Run(s, steps);
            && r.oldHash in after.h.successor && after.h.successor[r.oldHash] == s.h.successor[r.oldHash]
            && !RefreshGranted(after.t, r)
  {
    hide Exec, Drawn, Reachable;
    ReachableInv(s);
    RunIsLater(s, steps);
    RunKeepsInv(s, steps);
  }

  /** An auth request is consumed at most once, ever, and always by the login whose session exists for it. */
  lemma ConsumedAtMostOnce(s: System, steps: seq<Step>, a: Login)
    requires Reachable(s) && ValidRun(s, steps) && a.request.Some? && a.request.value.id in s.h.claimedBy
    ensures var after, id := Run(s, steps), a.request.value.id;
            && !SessionGranted(after.t, a)
            && id in after.h.claimedBy && after.h.claimedBy[id] == s.h.claimedBy[id]
            && after.h.claimedBy[id] in after.h.minted
  {
    hide Exec, Drawn, Reachable;
    ReachableInv(s);
    RunIsLater(s, steps);
    RunKeepsInv(s, steps);
  }

  /** A login that is refused has consumed nothing, so its retry starts from an unclaimed request and unused draws. */
  lemma RefusalConsumesNothing(s: System, a: Login)
    requires Drawn(s, SignIn(a)) && !SessionGranted(s.t, a)
    ensures var after := Exec(s, SignIn(a));
            && after.h == s.h && after.t.requests == s.t.requests && after.t.tokens == s.t.tokens
            && Drawn(after, SignIn(a))
            && (a.request.Some? ==> after == s)
  {
  }

  /** Nothing but a login with the token writes it, so the draws of a refused login stay unused until its retry. */
  lemma DrawsStayFresh(s: System, steps: seq<Step>, a: Login)
    requires Reachable(s) && ValidRun(s, steps) && Drawn(s, SignIn(a))
    requires forall i :: 0 <= i < |steps| ==> !Draws(steps[i], a)
    ensures Drawn(Run(s, steps), SignIn(a))
  {
    hide Reachable, Inv, Exec, Drawn, Draws;
    ReachableInv(s);
    DrawsSurviveRun(s, steps, a);
  }

  lemma {:induction false} DrawsSurviveRun(s: System, steps: seq<Step>, a: Login)
    requires Inv(s) && ValidRun(s, steps) && Drawn(s, SignIn(a))
    requires forall i :: 0 <= i < |steps| ==> !Draws(steps[i], a)
    ensures Drawn(Run(s, steps), SignIn(a))
    decreases |steps|
  {
    hide Inv, Exec, Drawn, Draws;
    if steps != [] {
      assert !Draws(steps[0], a);
      StepKeepsInv(s, steps[0]);
      DrawsSurviveStep(s, steps[0], a);
      DrawsSurviveRun(Exec(s, steps[0]), steps[1..], a);
    }
  }

  lemma DrawsSurviveStep(s: System, step: Step, a: Login)
    requires Inv(s) && Drawn(s, step) && Drawn(s, SignIn(a)) && !Draws(step, a)
    ensures Drawn(Exec(s, step), SignIn(a))
  {
    var s' := Exec(s, step);
    match step
    case SignIn(b) => OtherSignIn(s, b, a);
    case Renew(r) =>
      hide RotateToken;
      RenewTokens(s, r);
    case _ =>
      hide Inv, Exec;
      OtherStepsAreCompatible(s, step);
  }

  lemma OtherSignIn(s: System, b: Login, a: Login)
    requires Drawn(s, SignIn(a)) && Drawn(s, SignIn(b)) && !Draws(SignIn(b), a)
    ensures Drawn(AfterSignIn(s, b), SignIn(a))
  {
  }

  /** Another step that uses one of the login's own draws; the generators never let this happen. */
  ghost predicate Draws(step: Step, a: Login) {
    match step
    case SignIn(b) =>
      || b.tokenHash == a.tokenHash
      || (b.request.Some? && a.request.Some? && b.request.value.token == a.request.value.token)
    case Renew(r) => r.newHash == a.tokenHash
    case _ => false
  }
}
