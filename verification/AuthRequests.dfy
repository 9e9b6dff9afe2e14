/**
 Logins approved on another device, over every run (apps/api/src/services/identity-session.ts:190-238,
 services/db/auth-requests.ts:12-162, services/maintenance.ts:89-94): which answer lets a login through,
 for whom and for how long. Everything here is said of what was asked and answered, not of the guards.
 */
module AuthRequests {
  import opened Options
  import opened IdentityTables
  import opened IdentityRuns

  /** Asked for this user as a login request. */
  predicate AskedBy(h: History, id: Id, user: Id) {
    id in h.asked && h.asked[id].user == user && h.asked[id].kind == 0
  }

  predicate Approved(h: History, id: Id) {
    id in h.answers && h.answers[id]
  }

  /** The row says what was asked, what was answered and whether and when it was consumed. */
  predicate RowTells(h: History, id: Id, row: AuthRequest) {
    && id in h.asked && h.asked[id] == Asked(row.user, row.kind, row.creationDate)
    && row.approved == (if id in h.answers then Some(h.answers[id]) else None)
    && (row.responseDate.Some? <==> id in h.answers)
    && (row.consumptionToken.Some? <==> id in h.claimedBy)
    && row.authenticationDate == if id in h.claimedBy && id in h.consumedAt then Some(h.consumedAt[id]) else None
  }

  /** Consumed by a login of the user who was asked, after a yes, in time. */
  predicate ConsumedRightly(h: History, id: Id) {
    id in h.claimedBy ==>
      && h.claimedBy[id] in h.minted
      && AskedBy(h, id, h.minted[h.claimedBy[id]].user)
      && Approved(h, id)
      && id in h.consumedAt && h.consumedAt[id] <= h.asked[id].at + AUTH_REQUEST_TTL_SECONDS
  }

  predicate RequestOk(s: System, id: Id) {
    && (id in s.t.requests ==> RowTells(s.h, id, s.t.requests[id]))
    && ConsumedRightly(s.h, id)
    && (id in s.h.answers || id in s.h.claimedBy ==> id in s.h.asked)
  }

  ghost predicate RequestsOk(s: System) {
    forall id :: RequestOk(s, id)
  }

  lemma SignInLeavesRequest(s: System, a: Login, id: Id)
    requires RequestOk(s, id) && a.tokenHash !in s.h.minted && (a.request.Some? ==> a.request.value.id != id)
    ensures RequestOk(AfterSignIn(s, a), id)
  {
    hide SessionGranted, UpsertedDevice, BumpedRevision;
  }

  lemma SignInUsesRequest(s: System, a: Login)
    requires a.request.Some? && RequestOk(s, a.request.value.id) && a.tokenHash !in s.h.minted
    ensures RequestOk(AfterSignIn(s, a), a.request.value.id)
  {
    hide UserEligible, DeviceCompatible, UpsertedDevice, BumpedRevision;
  }

  lemma SignInKeepsRequest(s: System, a: Login, id: Id)
    requires RequestOk(s, id) && a.tokenHash !in s.h.minted
    ensures RequestOk(AfterSignIn(s, a), id)
  {
    hide RequestOk, AfterSignIn;
    if a.request.Some? && a.request.value.id == id {
      SignInUsesRequest(s, a);
    } else {
      SignInLeavesRequest(s, a, id);
    }
  }

  lemma RenewKeepsRequest(s: System, r: Refresh, id: Id)
    requires RequestOk(s, id) && r.newHash !in s.h.minted
    ensures RequestOk(AfterRenew(s, r), id)
  {
    hide RefreshGranted;
  }

  lemma AskingKeepsRequest(s: System, step: Step, id: Id)
    requires RequestOk(s, id) && step.AskApproval? && Drawn(s, step)
    ensures RequestOk(Exec(s, step), id)
  {
  }

  lemma AnsweringKeepsRequest(s: System, step: Step, id: Id)
    requires RequestOk(s, id) && step.AnswerApproval?
    ensures RequestOk(Exec(s, step), id)
  {
    hide Superseded;
  }

  lemma OthersKeepRequest(s: System, step: Step, id: Id)
    requires RequestOk(s, id)
    requires !step.SignIn? && !step.Renew? && !step.AskApproval? && !step.AnswerApproval?
    ensures RequestOk(Exec(s, step), id)
  {
    hide RotationAllowed, RotatedUser, RotatedPasskeys, RotatedChallenges, Deletable, BoundTo;
  }

  lemma StepKeepsRequest(s: System, step: Step, id: Id)
    requires RequestOk(s, id) && Drawn(s, step)
    ensures RequestOk(Exec(s, step), id)
  {
    hide RequestOk, AfterSignIn, AfterRenew;
    match step
    case SignIn(a) => SignInKeepsRequest(s, a, id);
    case Renew(r) => RenewKeepsRequest(s, r, id);
    case AskApproval(_, _, _, _, _, _) => AskingKeepsRequest(s, step, id);
    case AnswerApproval(_, _, _) => AnsweringKeepsRequest(s, step, id);
    case _ => OthersKeepRequest(s, step, id);
  }

  lemma {:induction false} RunKeepsRequest(s: System, steps: seq<Step>, id: Id)
    requires RequestOk(s, id) && ValidRun(s, steps)
    ensures RequestOk(Run(s, steps), id)
    decreases |steps|
  {
    hide RequestOk, Exec, Drawn;
    if steps != [] {
      StepKeepsRequest(s, steps[0], id);
      RunKeepsRequest(Exec(s, steps[0]), steps[1..], id);
    }
  }

  lemma ReachableRequest(s: System, id: Id)
    requires Reachable(s)
    ensures RequestOk(s, id)
  {
    hide Exec, Drawn;
    var steps :| ValidRun(EMPTY, steps) && Run(EMPTY, steps) == s;
    RunKeepsRequest(EMPTY, steps, id);
  }

  /**
   In every reachable state a consumed request was made for the user who logged in with it, as a login
   request, was answered yes, and was consumed no later than the time to live after it was made; its
   row, while it is there, says so.
   */
  lemma ConsumedRequestsWereApproved(s: System, id: Id)
    requires Reachable(s) && (id in s.h.claimedBy || (id in s.t.requests && s.t.requests[id].consumptionToken.Some?))
    ensures && id in s.h.claimedBy && s.h.claimedBy[id] in s.h.minted
            && id in s.h.asked && s.h.asked[id].user == s.h.minted[s.h.claimedBy[id]].user && s.h.asked[id].kind == 0
            && id in s.h.answers && s.h.answers[id] == true
            && id in s.h.consumedAt && s.h.consumedAt[id] <= s.h.asked[id].at + AUTH_REQUEST_TTL_SECONDS
            && (id in s.t.requests ==>
                  && s.t.requests[id].approved == Some(true)
                  && s.t.requests[id].authenticationDate == Some(s.h.consumedAt[id]))
  {
    hide Reachable;
    ReachableRequest(s, id);
  }

  // ---------------------------------------------------------------------------------------
  // When a login is granted
  // ---------------------------------------------------------------------------------------

  /** The user may log in under this stamp, on this device if any. */
  predicate MayLogIn(t: Tables, a: Login) {
    && a.user in t.users
    && t.users[a.user].status == Active
    && t.users[a.user].deletionRequestedAt == None
    && t.users[a.user].securityStamp == a.securityStamp
    && (a.device.Some? ==>
          var key := DeviceKey(a.user, a.device.value.identifier);
          key in t.devices ==>
            && t.devices[key].banned == false
            && (t.devices[key].sessionStamp == None || t.devices[key].sessionStamp == Some(a.device.value.sessionStamp)))
  }

  /** Somebody asked for this user, the answer was yes, nobody has used it, and it is still in time and on file. */
  predicate MayConsume(s: System, a: Login)
    requires a.request.Some?
  {
    var id := a.request.value.id;
    && AskedBy(s.h, id, a.user)
    && Approved(s.h, id)
    && id !in s.h.claimedBy
    && a.now <= s.h.asked[id].at + AUTH_REQUEST_TTL_SECONDS
    && id in s.t.requests
  }

  /** In every reachable state a login gets its session if and only if the user may log in and the request, if any, be used. */
  lemma LoginIsGrantedIff(s: System, a: Login)
    requires Reachable(s) && Drawn(s, SignIn(a))
    ensures a.tokenHash in Exec(s, SignIn(a)).t.tokens <==> MayLogIn(s.t, a) && (a.request.Some? ==> MayConsume(s, a))
  {
    hide Reachable, UpsertedDevice, BumpedRevision, ClaimedRequest;
    if a.request.Some? {
      ReachableRequest(s, a.request.value.id);
    }
  }

  /** What a session is: its token, its device row, its request, the revision and the cleared failures, and no more. */
  lemma GrantedLoginLeaves(s: System, a: Login)
    requires Drawn(s, SignIn(a)) && a.tokenHash in Exec(s, SignIn(a)).t.tokens
    ensures var after := Exec(s, SignIn(a)).t;
            && after == s.t.(devices := after.devices, tokens := after.tokens, requests := after.requests,
                             revisions := after.revisions, loginAttempts := after.loginAttempts)
            && after.tokens == s.t.tokens[a.tokenHash := after.tokens[a.tokenHash]]
            && var token := after.tokens[a.tokenHash];
               && token.user == a.user && token.expiresAt == a.now + REFRESH_TOKEN_TTL_SECONDS
               && BoundAs(token, a.device)
    ensures var after := Exec(s, SignIn(a)).t;
            if a.device.None? then after.devices == s.t.devices
            else
              var key := DeviceKey(a.user, a.device.value.identifier);
              && key in after.devices && after.devices == s.t.devices[key := after.devices[key]]
              && var row := after.devices[key];
                 && row.sessionStamp == Some(a.device.value.sessionStamp) && row.name == a.deviceName
                 && row.updatedAt == a.now && !row.banned
                 && if key in s.t.devices then
                      row.id == s.t.devices[key].id && row.mutationToken == s.t.devices[key].mutationToken
                      && row.lastSeenAt == Some(a.now)
                    else row.id == a.deviceRowId && row.mutationToken == None && row.lastSeenAt == None
    ensures var after := Exec(s, SignIn(a)).t;
            if a.request.None? then after.requests == s.t.requests
            else
              var c := a.request.value;
              && c.id in s.t.requests
              && after.requests == s.t.requests[c.id := s.t.requests[c.id].(
                   authenticationDate := Some(a.now), consumptionToken := Some(c.token))]
    ensures var after := Exec(s, SignIn(a)).t;
            && a.user in after.revisions && after.revisions[a.user] >= a.now
            && (a.user in s.t.revisions ==> after.revisions[a.user] > s.t.revisions[a.user])
            && after.revisions == s.t.revisions[a.user := after.revisions[a.user]]
            && after.loginAttempts == s.t.loginAttempts - if a.attemptsHash.Some? then {a.attemptsHash.value} else {}
  {
  }

  /** A request that was denied, or not yet answered, lets nobody in and changes nothing. */
  lemma UnapprovedRequestLetsNobodyIn(s: System, a: Login)
    requires Reachable(s) && Drawn(s, SignIn(a)) && a.request.Some? && !Approved(s.h, a.request.value.id)
    ensures Exec(s, SignIn(a)) == s
  {
    hide Reachable;
    ReachableRequest(s, a.request.value.id);
  }

  // ---------------------------------------------------------------------------------------
  // Answers are final
  // ---------------------------------------------------------------------------------------

  lemma AnswerStays(s: System, step: Step, id: Id)
    requires RequestOk(s, id) && Drawn(s, step) && id in s.h.answers
    ensures id in Exec(s, step).h.answers && Exec(s, step).h.answers[id] == s.h.answers[id]
  {
    hide IssueSession, SessionGranted, RotateToken, RefreshGranted, RotateStamp, DeleteAccount, DeleteDevices, Maintained;
    hide Superseded;
  }

  lemma {:induction false} AnswerStaysOver(s: System, steps: seq<Step>, id: Id)
    requires RequestOk(s, id) && ValidRun(s, steps) && id in s.h.answers
    ensures id in Run(s, steps).h.answers && Run(s, steps).h.answers[id] == s.h.answers[id]
    decreases |steps|
  {
    hide RequestOk, Exec, Drawn;
    if steps != [] {
      AnswerStays(s, steps[0], id);
      StepKeepsRequest(s, steps[0], id);
      AnswerStaysOver(Exec(s, steps[0]), steps[1..], id);
    }
  }

  /** Once a request is denied, nobody ever logs in with it, whoever answers again. */
  lemma DeniedIsNeverConsumed(s: System, steps: seq<Step>, id: Id)
    requires Reachable(s) && ValidRun(s, steps) && id in s.h.answers && s.h.answers[id] == false
    ensures var after := Run(s, steps);
            && id !in after.h.claimedBy
            && (id in after.t.requests ==>
                  after.t.requests[id].approved == Some(false) && after.t.requests[id].consumptionToken == None)
  {
    hide Exec, Drawn, Reachable, Run, ValidRun;
    ReachableRequest(s, id);
    AnswerStaysOver(s, steps, id);
    RunKeepsRequest(s, steps, id);
  }

  // ---------------------------------------------------------------------------------------
  // Which answers count
  // ---------------------------------------------------------------------------------------

  /** Another pending request of this user on this device. */
  predicate Rival(t: Tables, k: Id, id: Id) {
    && k != id && k in t.requests && id in t.requests && t.requests[k].responseDate == None
    && t.requests[k].user == t.requests[id].user && t.requests[k].device == t.requests[id].device
  }

  /** None of them came later. */
  ghost predicate Latest(t: Tables, id: Id) {
    forall k :: Rival(t, k, id) ==>
      || t.requests[k].creationDate < t.requests[id].creationDate
      || (t.requests[k].creationDate == t.requests[id].creationDate && t.requests[k].rowid < t.requests[id].rowid)
  }

  /**
   In every reachable state an answer counts exactly when the request is on file, has no answer yet and
   is in time; and a yes only for the latest pending request of its device.
   */
  lemma AnswerCountsIff(s: System, id: Id, approved: bool, now: int)
    requires Reachable(s) && id !in s.h.answers
    ensures var after := Exec(s, AnswerApproval(id, approved, now));
            if && id in s.t.requests && id in s.h.asked && now <= s.h.asked[id].at + AUTH_REQUEST_TTL_SECONDS
               && (approved ==> Latest(s.t, id))
            then
              && after.h.answers == s.h.answers[id := approved]
              && after.t == s.t.(requests := s.t.requests[id := s.t.requests[id].(
                   approved := Some(approved), responseDate := Some(now))])
            else after == s
  {
    hide Reachable;
    ReachableRequest(s, id);
    if id in s.t.requests {
      SupersededIff(s, id);
    }
  }

  lemma SupersededIff(s: System, id: Id)
    requires Reachable(s) && id in s.t.requests && id !in s.h.answers
    ensures Superseded(s.t.requests, id) <==> !Latest(s.t, id)
  {
    hide Reachable;
    ReachableRowids(s);
    forall k
      ensures k in s.t.requests ==> RowTells(s.h, k, s.t.requests[k])
    {
      ReachableRequest(s, k);
    }
    if !Latest(s.t, id) {
      var k :| Rival(s.t, k, id) && (s.t.requests[k].creationDate > s.t.requests[id].creationDate
        || (s.t.requests[k].creationDate == s.t.requests[id].creationDate && s.t.requests[k].rowid >= s.t.requests[id].rowid));
      assert s.t.requests[k].rowid != s.t.requests[id].rowid;
    }
  }

  /** No two requests have the same place in the order of insertion. */
  ghost predicate RowidsDistinct(t: Tables) {
    forall a, b :: a in t.requests && b in t.requests && t.requests[a].rowid == t.requests[b].rowid ==> a == b
  }

  lemma StepKeepsRowids(s: System, step: Step)
    requires RowidsDistinct(s.t) && Drawn(s, step)
    ensures RowidsDistinct(Exec(s, step).t)
  {
    hide UserEligible, DeviceCompatible, UpsertedDevice, BumpedRevision, RefreshGranted, RotationAllowed, RotatedUser;
    hide RotatedPasskeys, RotatedChallenges, Deletable, BoundTo, Superseded;
  }

  lemma {:induction false} RunKeepsRowids(s: System, steps: seq<Step>)
    requires RowidsDistinct(s.t) && ValidRun(s, steps)
    ensures RowidsDistinct(Run(s, steps).t)
    decreases |steps|
  {
    hide RowidsDistinct, Exec, Drawn;
    if steps != [] {
      StepKeepsRowids(s, steps[0]);
      RunKeepsRowids(Exec(s, steps[0]), steps[1..]);
    }
  }

  lemma ReachableRowids(s: System)
    requires Reachable(s)
    ensures RowidsDistinct(s.t)
  {
    hide Exec, Drawn;
    var steps :| ValidRun(EMPTY, steps) && Run(EMPTY, steps) == s;
    RunKeepsRowids(EMPTY, steps);
  }

  // ---------------------------------------------------------------------------------------
  // From the question to the session
  // ---------------------------------------------------------------------------------------

  /** The row of a request that nobody has answered, or that was answered yes and nobody has used. */
  predicate Stored(s: System, id: Id, q: Asked, device: Id, rowid: nat, answer: Option<int>) {
    && id in s.t.requests
    && s.t.requests[id] ==
       AuthRequest(q.user, q.kind, device, rowid, if answer.Some? then Some(true) else None, answer, None, None, q.at)
  }

  /** Nobody answers the request, nobody uses it, and no sweep comes after its time. */
  predicate LeavesAlone(step: Step, id: Id, q: Asked) {
    match step
    case SignIn(a) => a.request.Some? ==> a.request.value.id != id
    case AnswerApproval(other, _, _) => other != id
    case Maintain(now) => now <= q.at + AUTH_REQUEST_TTL_SECONDS
    case _ => true
  }

  lemma StaysStored(s: System, step: Step, id: Id, q: Asked, device: Id, rowid: nat, answer: Option<int>)
    requires ClaimsRecorded(s) && Stored(s, id, q, device, rowid, answer) && Drawn(s, step) && LeavesAlone(step, id, q)
    ensures Stored(Exec(s, step), id, q, device, rowid, answer)
  {
    hide UserEligible, DeviceCompatible, UpsertedDevice, BumpedRevision, RefreshGranted, RotationAllowed, RotatedUser;
    hide RotatedPasskeys, RotatedChallenges, Deletable, BoundTo, Superseded;
  }

  lemma {:induction false} StaysStoredOver(
    s: System, steps: seq<Step>, id: Id, q: Asked, device: Id, rowid: nat, answer: Option<int>)
    requires Inv(s) && ValidRun(s, steps) && Stored(s, id, q, device, rowid, answer)
    requires forall i :: 0 <= i < |steps| ==> LeavesAlone(steps[i], id, q)
    ensures Inv(Run(s, steps)) && Stored(Run(s, steps), id, q, device, rowid, answer)
    decreases |steps|
  {
    hide Exec, Drawn, Stored, LeavesAlone, TokensBacked, StampsRecorded, LineagesRecorded, SuccessorsRecorded, ClaimsRecorded;
    if steps != [] {
      assert LeavesAlone(steps[0], id, q);
      StaysStored(s, steps[0], id, q, device, rowid, answer);
      StepKeepsInv(s, steps[0]);
      StaysStoredOver(Exec(s, steps[0]), steps[1..], id, q, device, rowid, answer);
    }
  }

  /**
   The whole way, with anybody's requests in between: a login request is made, approved while it is the
   latest of its device, and used in time by a login that may log in. It is granted.
   */
  lemma ApprovedRequestLogsIn(
    s: System, id: Id, q: Asked, device: Id, rowid: nat, a: seq<Step>, answeredAt: int, b: seq<Step>, login: Login)
    requires Reachable(s) && q.kind == 0 && Drawn(s, AskApproval(id, q.user, 0, device, rowid, q.at))
    requires var asked := Exec(s, AskApproval(id, q.user, 0, device, rowid, q.at));
             && ValidRun(asked, a) && (forall i :: 0 <= i < |a| ==> LeavesAlone(a[i], id, q))
             && Latest(Run(asked, a).t, id)
             && var answered := Exec(Run(asked, a), AnswerApproval(id, true, answeredAt));
                && ValidRun(answered, b) && (forall i :: 0 <= i < |b| ==> LeavesAlone(b[i], id, q))
                && Drawn(Run(answered, b), SignIn(login)) && MayLogIn(Run(answered, b).t, login)
    requires answeredAt <= q.at + AUTH_REQUEST_TTL_SECONDS && login.now <= q.at + AUTH_REQUEST_TTL_SECONDS
    requires login.user == q.user && login.request.Some? && login.request.value.id == id
    ensures var asked := Exec(s, AskApproval(id, q.user, 0, device, rowid, q.at));
            var answered := Exec(Run(asked, a), AnswerApproval(id, true, answeredAt));
            login.tokenHash in Exec(Run(answered, b), SignIn(login)).t.tokens
  {
    hide Exec, Drawn, Reachable, Inv, Run, ValidRun, Stored, LeavesAlone, MayLogIn, Latest;
    var asking := AskApproval(id, q.user, 0, device, rowid, q.at);
    var asked := Exec(s, asking);
    ReachableInv(s);
    StepKeepsInv(s, asking);
    AskedIsStored(s, id, q, device, rowid);
    StaysStoredOver(asked, a, id, q, device, rowid, None);
    AnsweredIsStored(Run(asked, a), id, q, device, rowid, answeredAt);
    AnswerKeepsInv(Run(asked, a), id, answeredAt);
    var answered := Exec(Run(asked, a), AnswerApproval(id, true, answeredAt));
    StaysStoredOver(answered, b, id, q, device, rowid, Some(answeredAt));
    StoredIsGranted(Run(answered, b), id, q, device, rowid, answeredAt, login);
  }

  lemma AnswerKeepsInv(s: System, id: Id, now: int)
    requires Inv(s)
    ensures Inv(Exec(s, AnswerApproval(id, true, now)))
  {
    hide Inv;
    StepKeepsInv(s, AnswerApproval(id, true, now));
  }

  lemma AskedIsStored(s: System, id: Id, q: Asked, device: Id, rowid: nat)
    requires q.kind == 0
    ensures Stored(Exec(s, AskApproval(id, q.user, 0, device, rowid, q.at)), id, q, device, rowid, None)
  {
  }

  lemma AnsweredIsStored(s: System, id: Id, q: Asked, device: Id, rowid: nat, now: int)
    requires Stored(s, id, q, device, rowid, None) && Latest(s.t, id) && now <= q.at + AUTH_REQUEST_TTL_SECONDS
    ensures Stored(Exec(s, AnswerApproval(id, true, now)), id, q, device, rowid, Some(now))
  {
  }

  lemma StoredIsGranted(s: System, id: Id, q: Asked, device: Id, rowid: nat, answeredAt: int, a: Login)
    requires Stored(s, id, q, device, rowid, Some(answeredAt)) && q.kind == 0 && MayLogIn(s.t, a)
    requires a.user == q.user && a.request.Some? && a.request.value.id == id && a.now <= q.at + AUTH_REQUEST_TTL_SECONDS
    ensures a.tokenHash in Exec(s, SignIn(a)).t.tokens
  {
    hide UpsertedDevice, BumpedRevision, ClaimedRequest;
  }
}
