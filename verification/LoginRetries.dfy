/**
 One login with its retry among everybody else's requests
 (apps/api/src/services/identity-session.ts:240-398). The login reads its device, runs its batch and,
 when it is refused, reads the device again; between any two of these awaits the others take any
 steps of IdentityRuns.
 */
module LoginRetries {
  import opened Options
  import opened IdentityTables
  import opened IdentityRuns

  /** What the login is about; both attempts share it, auth request included. */
  datatype Args = Args(
    user: Id, securityStamp: Id, identifier: Option<Id>, deviceName: Id, request: Option<Consumption>, attemptsHash: Option<Id>)

  /** What each attempt draws anew, and its clock. */
  datatype Draw = Draw(sessionStamp: Id, deviceRowId: Id, tokenHash: Id, now: int)

  /** The await the login is at: the device read, the batch, or the second read of a refused attempt. */
  datatype Phase =
    | ReadingDevice(retries: nat)
    | Ready(login: Login, retries: nat)
    | Refused(device: DeviceSession, retries: nat)
    | Issued(login: Login)
    | GivenUp

  /** The hashes the login's attempts have drawn, in order. */
  datatype World = World(s: System, phase: Phase, drawn: seq<Id>)

  datatype Event =
    | Others(step: Step)
    | Proceed(draw: Draw)

  function Attempt(t: Tables, args: Args, draw: Draw): Login {
    Prepared(
      t,
      Login(args.user, args.securityStamp, None, args.deviceName, draw.deviceRowId, draw.tokenHash, draw.now,
            args.request, args.attemptsHash),
      if args.identifier.Some? then Some(DeviceSession(args.identifier.value, draw.sessionStamp)) else None)
  }

  function AfterBatch(w: World, login: Login, retries: nat): World {
    var after := AfterSignIn(w.s, login);
    World(
      after,
      if SessionGranted(w.s.t, login) then Issued(login)
      else if login.device.Some? && retries >= 1 then Refused(login.device.value, retries)
      else GivenUp,
      w.drawn)
  }

  function Continue(w: World, args: Args, draw: Draw): World {
    match w.phase
    case ReadingDevice(retries) => World(w.s, Ready(Attempt(w.s.t, args, draw), retries), w.drawn + [draw.tokenHash])
    case Ready(login, retries) => AfterBatch(w, login, retries)
    case Refused(device, retries) =>
      w.(phase := if retries >= 1 && StampMoved(w.s.t.devices, args.user, device) then ReadingDevice(retries - 1) else GivenUp)
    case _ => w
  }

  function Happen(w: World, args: Args, event: Event): World {
    match event
    case Others(step) => w.(s := Exec(w.s, step))
    case Proceed(draw) => Continue(w, args, draw)
  }

  /** The token hash a step inserts, if it gets that far. */
  function Mints(step: Step): Option<Id> {
    match step
    case SignIn(b) => Some(b.tokenHash)
    case Renew(r) => Some(r.newHash)
    case _ => None
  }

  /** Fresh draws: nobody uses this login's, and this login nobody's. */
  ghost predicate Allowed(w: World, args: Args, event: Event) {
    match event
    case Others(step) =>
      && Drawn(w.s, step)
      && (Mints(step).Some? ==> Mints(step).value !in w.drawn)
      && (step.SignIn? && step.login.request.Some? && args.request.Some? ==>
            step.login.request.value.token != args.request.value.token)
    case Proceed(draw) => w.phase.ReadingDevice? ==> draw.tokenHash !in w.s.h.minted && draw.tokenHash !in w.drawn
  }

  ghost predicate AllowedRun(w: World, args: Args, events: seq<Event>)
    decreases |events|
  {
    events == [] || (Allowed(w, args, events[0]) && AllowedRun(Happen(w, args, events[0]), args, events[1..]))
  }

  function HappenAll(w: World, args: Args, events: seq<Event>): World
    decreases |events|
  {
    if events == [] then w else HappenAll(Happen(w, args, events[0]), args, events[1..])
  }

  // ---------------------------------------------------------------------------------------
  // At most one session
  // ---------------------------------------------------------------------------------------

  /** No request carries the login's consumption token. */
  ghost predicate TokenUnused(t: Tables, args: Args) {
    args.request.Some? ==> forall id :: id in t.requests ==> t.requests[id].consumptionToken != Some(args.request.value.token)
  }

  predicate ArgsOf(login: Login, args: Args) {
    && login.user == args.user && login.securityStamp == args.securityStamp && login.request == args.request
    && (login.device.Some? <==> args.identifier.Some?)
    && (login.device.Some? ==> login.device.value.identifier == args.identifier.value)
  }

  /** No attempt's token exists or ever did but the issued one, which consumed the request. */
  ghost predicate OneSession(w: World, args: Args) {
    && (forall h :: h in w.drawn && h in w.s.h.minted ==> w.phase.Issued? && w.phase.login.tokenHash == h)
    && (w.phase.Issued? ==>
          && w.phase.login.tokenHash in w.drawn && w.phase.login.tokenHash in w.s.h.minted
          && (args.request.Some? ==>
                && args.request.value.id in w.s.h.claimedBy
                && w.s.h.claimedBy[args.request.value.id] == w.phase.login.tokenHash))
    && (!w.phase.Issued? ==> TokenUnused(w.s.t, args))
  }

  predicate Remaining(w: World, allowed: nat) {
    match w.phase
    case ReadingDevice(retries) => |w.drawn| + retries == allowed
    case Ready(_, retries) => |w.drawn| + retries == allowed + 1
    case Refused(_, retries) => |w.drawn| + retries == allowed + 1
    case _ => |w.drawn| <= allowed + 1
  }

  ghost predicate Good(w: World, args: Args, allowed: nat) {
    && Inv(w.s) && OneSession(w, args) && Remaining(w, allowed)
    && (w.phase.Ready? ==> ArgsOf(w.phase.login, args) && w.phase.login.tokenHash in w.drawn)
    && (forall h :: h in w.drawn && h in w.s.t.tokens ==> h in w.s.h.minted)
    && (forall i, j :: 0 <= i < j < |w.drawn| ==> w.drawn[i] != w.drawn[j])
  }

  /** The batch of an attempt runs on draws that are still unused. */
  lemma BatchIsDrawn(w: World, args: Args, allowed: nat)
    requires Good(w, args, allowed) && w.phase.Ready?
    ensures Drawn(w.s, SignIn(w.phase.login))
  {
    hide Inv;
  }

  lemma OthersKeepUnused(s: System, step: Step, args: Args)
    requires Inv(s) && TokenUnused(s.t, args) && Allowed(World(s, GivenUp, []), args, Others(step))
    ensures TokenUnused(Exec(s, step).t, args)
  {
    match step
    case SignIn(a) => hide Inv;
    case Renew(r) => RenewTokens(s, r);
    case _ =>
      hide Exec;
      OtherStepsAreCompatible(s, step);
  }

  /** A step mints the token it drew, if any. */
  lemma MintsOnly(s: System, step: Step, h: Id)
    requires Drawn(s, step) && h !in s.h.minted && Mints(step) != Some(h)
    ensures h !in Exec(s, step).h.minted
  {
    if !step.SignIn? && !step.Renew? {
      hide Exec;
      OtherStepsAreCompatible(s, step);
    }
  }

  lemma OthersKeepGood(w: World, args: Args, step: Step, allowed: nat)
    requires Good(w, args, allowed) && Allowed(w, args, Others(step))
    ensures Good(w.(s := Exec(w.s, step)), args, allowed)
  {
    hide Exec, Inv, Drawn, Mints, TokenUnused;
    StepKeepsInv(w.s, step);
    StepIsLater(w.s, step);
    if !w.phase.Issued? {
      OthersKeepUnused(w.s, step, args);
    }
    forall h | h in w.drawn && h in Exec(w.s, step).h.minted
      ensures h in w.s.h.minted
    {
      if h !in w.s.h.minted {
        MintsOnly(w.s, step, h);
      }
    }
    LiveIsMinted(Exec(w.s, step));
  }

  lemma LiveIsMinted(s: System)
    requires Inv(s)
    ensures forall h :: h in s.t.tokens ==> h in s.h.minted
  {
    assert forall h :: h in s.t.tokens ==> Backed(s, h);
  }

  lemma BatchKeepsGood(w: World, args: Args, allowed: nat)
    requires Good(w, args, allowed) && w.phase.Ready?
    ensures Good(AfterBatch(w, w.phase.login, w.phase.retries), args, allowed)
  {
    hide Inv, SessionGranted;
    var login, after := w.phase.login, AfterBatch(w, w.phase.login, w.phase.retries);
    assert login.tokenHash !in w.s.h.minted;
    SignInKeepsInv(w.s, login);
    LiveIsMinted(after.s);
    if SessionGranted(w.s.t, login) {
      GrantRecords(w.s, login);
    } else {
      RefusalRecordsNothing(w.s, login);
    }
  }

  lemma GrantRecords(s: System, a: Login)
    requires SessionGranted(s.t, a)
    ensures AfterSignIn(s, a).h.minted.Keys == s.h.minted.Keys + {a.tokenHash}
    ensures a.request.Some? ==> a.request.value.id in AfterSignIn(s, a).h.claimedBy
    ensures a.request.Some? ==> AfterSignIn(s, a).h.claimedBy[a.request.value.id] == a.tokenHash
  {
  }

  lemma RefusalRecordsNothing(s: System, a: Login)
    requires !SessionGranted(s.t, a)
    ensures AfterSignIn(s, a).h == s.h && AfterSignIn(s, a).t.requests == s.t.requests
  {
  }

  lemma ContinueKeepsGood(w: World, args: Args, draw: Draw, allowed: nat)
    requires Good(w, args, allowed) && Allowed(w, args, Proceed(draw))
    ensures Good(Continue(w, args, draw), args, allowed)
  {
    hide Inv, AfterBatch;
    if w.phase.Ready? {
      BatchKeepsGood(w, args, allowed);
    } else {
      LiveIsMinted(w.s);
    }
  }

  lemma {:induction false} RunKeepsGood(w: World, args: Args, events: seq<Event>, allowed: nat)
    requires Good(w, args, allowed) && AllowedRun(w, args, events)
    ensures Good(HappenAll(w, args, events), args, allowed)
    decreases |events|
  {
    hide Good, Allowed, Continue, Exec;
    if events != [] {
      match events[0] {
        case Others(step) => OthersKeepGood(w, args, step, allowed);
        case Proceed(draw) => ContinueKeepsGood(w, args, draw, allowed);
      }
      RunKeepsGood(Happen(w, args, events[0]), args, events[1..], allowed);
    }
  }

  /**
   Whatever the others do at each of its awaits, a login makes at most one attempt more than it has
   retries, at most one of them ever creates a session, and its auth request is consumed by that one
   attempt or not by this login at all.
   */
  lemma AtMostOneSession(s: System, args: Args, retries: nat, events: seq<Event>)
    requires Reachable(s) && TokenUnused(s.t, args)
    requires AllowedRun(World(s, ReadingDevice(retries), []), args, events)
    ensures var w := HappenAll(World(s, ReadingDevice(retries), []), args, events);
            && |w.drawn| <= retries + 1
            && OneSession(w, args)
            && (forall i, j :: 0 <= i < |w.drawn| && 0 <= j < |w.drawn| ==>
                  w.drawn[i] in w.s.h.minted && w.drawn[j] in w.s.h.minted ==> i == j)
            && (args.request.Some? && args.request.value.id in w.s.h.claimedBy && !w.phase.Issued? ==>
                  w.s.h.claimedBy[args.request.value.id] !in w.drawn)
  {
    hide Reachable, Allowed, Continue, Exec;
    ReachableInv(s);
    RunKeepsGood(World(s, ReadingDevice(retries), []), args, events, retries);
  }

  // ---------------------------------------------------------------------------------------
  // The retry is granted
  // ---------------------------------------------------------------------------------------

  /** The login would be granted at this time under this stamp, which its device is bound to. */
  predicate Stands(t: Tables, args: Args, stamp: Id, now: int) {
    && args.identifier.Some?
    && UserEligible(t.users, args.user, args.securityStamp)
    && (args.request.Some? ==> RequestClaimable(t.requests, args.request.value.id, args.user, now))
    && var key := DeviceKey(args.user, args.identifier.value);
       key in t.devices && !t.devices[key].banned && t.devices[key].sessionStamp == Some(stamp)
  }

  /** Nothing in the step takes from the login what it needs, up to this time. */
  predicate Undisturbed(step: Step, args: Args, now: int) {
    match step
    case SignIn(b) => args.request.Some? && b.request.Some? ==> b.request.value.id != args.request.value.id
    case Rotate(user, _, _, _) => user != args.user
    case Erase(user, _, _, _) => user != args.user
    case RemoveDevices(user, _) => user != args.user
    case Maintain(at) => at <= now
    case _ => true
  }

  lemma SignInStands(s: System, b: Login, args: Args, stamp: Id, now: int)
    requires Stands(s.t, args, stamp, now) && Undisturbed(SignIn(b), args, now)
    ensures Stands(AfterSignIn(s, b).t, args, stamp, now)
  {
  }

  lemma RevocationStands(s: System, step: Step, args: Args, stamp: Id, now: int)
    requires Stands(s.t, args, stamp, now) && Undisturbed(step, args, now)
    requires step.Rotate? || step.Erase? || step.RemoveDevices?
    ensures Stands(Exec(s, step).t, args, stamp, now)
  {
    hide RotationAllowed, RotatedUser, RotatedPasskeys, RotatedChallenges, BumpsRevision;
  }

  lemma StepStands(s: System, step: Step, args: Args, stamp: Id, now: int)
    requires ClaimsRecorded(s) && Drawn(s, step) && Stands(s.t, args, stamp, now) && Undisturbed(step, args, now)
    ensures Stands(Exec(s, step).t, args, stamp, now)
  {
    hide AfterSignIn, RotateStamp, DeleteAccount, DeleteDevices;
    match step
    case SignIn(b) => SignInStands(s, b, args, stamp, now);
    case Rotate(_, _, _, _) => RevocationStands(s, step, args, stamp, now);
    case Erase(_, _, _, _) => RevocationStands(s, step, args, stamp, now);
    case RemoveDevices(_, _) => RevocationStands(s, step, args, stamp, now);
    case _ =>
  }

  lemma {:induction false} RunStands(s: System, steps: seq<Step>, args: Args, stamp: Id, now: int)
    requires Inv(s) && ValidRun(s, steps) && Stands(s.t, args, stamp, now)
    requires forall i :: 0 <= i < |steps| ==> Undisturbed(steps[i], args, now)
    ensures Inv(Run(s, steps)) && Stands(Run(s, steps).t, args, stamp, now)
    decreases |steps|
  {
    hide Exec, Drawn, Undisturbed, Stands, TokensBacked, StampsRecorded, SuccessorsRecorded, ClaimsRecorded;
    if steps != [] {
      assert Undisturbed(steps[0], args, now);
      StepStands(s, steps[0], args, stamp, now);
      StepKeepsInv(s, steps[0]);
      RunStands(Exec(s, steps[0]), steps[1..], args, stamp, now);
    }
  }

  /** Between two awaits of the login. */
  function Meanwhile(w: World, steps: seq<Step>): World {
    w.(s := Run(w.s, steps))
  }

  /** The second read, the device read and the batch of a refused attempt, with the others in between. */
  function Retry(w: World, args: Args, draw: Draw, a: seq<Step>, b: seq<Step>, c: seq<Step>): World {
    var again := Continue(Meanwhile(w, a), args, draw);
    var prepared := Continue(Meanwhile(again, b), args, draw);
    Continue(Meanwhile(prepared, c), args, draw)
  }

  /** A login that lacks nothing but the device's stamp is refused, and goes on lacking nothing else. */
  lemma ConflictRefuses(s: System, login: Login, args: Args, stamp: Id, now: int)
    requires Stands(s.t, args, stamp, now) && ArgsOf(login, args) && login.device.value.sessionStamp != stamp
    ensures !SessionGranted(s.t, login) && Stands(AfterSignIn(s, login).t, args, stamp, now)
  {
  }

  /**
   An attempt that only the stamp conflict refuses: if the others do not take from the login what it
   needs, the retry finds the stored stamp standing and is granted under it.
   */
  lemma RetryIsGranted(w: World, args: Args, stamp: Id, draw: Draw, a: seq<Step>, b: seq<Step>, c: seq<Step>)
    requires Inv(w.s) && w.phase.Ready? && w.phase.retries >= 1 && Drawn(w.s, SignIn(w.phase.login))
    requires ArgsOf(w.phase.login, args) && Stands(w.s.t, args, stamp, draw.now)
    requires w.phase.login.device.value.sessionStamp != stamp
    requires forall steps :: steps in {a, b, c} ==> forall i :: 0 <= i < |steps| ==> Undisturbed(steps[i], args, draw.now)
    requires var s := Exec(w.s, SignIn(w.phase.login));
             ValidRun(s, a) && ValidRun(Run(s, a), b) && ValidRun(Run(Run(s, a), b), c)
    ensures var refused := Continue(w, args, draw);
            var after := Retry(refused, args, draw, a, b, c);
            && refused.phase.Refused?
            && after.phase.Issued? && after.phase.login.tokenHash == draw.tokenHash
            && after.phase.login.device == Some(DeviceSession(args.identifier.value, stamp))
            && draw.tokenHash in after.s.t.tokens && after.s.t.tokens[draw.tokenHash].deviceSessionStamp == Some(stamp)
            && (args.request.Some? ==> args.request.value.id in after.s.h.claimedBy
                                       && after.s.h.claimedBy[args.request.value.id] == draw.tokenHash)
  {
    hide Inv, ValidRun, Run, Undisturbed, SessionGranted, AfterSignIn, Retry, Stands, Drawn;
    var s := AfterSignIn(w.s, w.phase.login);
    ConflictRefuses(w.s, w.phase.login, args, stamp, draw.now);
    StepKeepsInv(w.s, SignIn(w.phase.login));
    RefusedIsGranted(Continue(w, args, draw), args, stamp, draw, a, b, c);
  }

  lemma RefusedIsGranted(w: World, args: Args, stamp: Id, draw: Draw, a: seq<Step>, b: seq<Step>, c: seq<Step>)
    requires Inv(w.s) && w.phase.Refused? && w.phase.retries >= 1 && w.phase.device.sessionStamp != stamp
    requires args.identifier == Some(w.phase.device.identifier)
    requires Stands(w.s.t, args, stamp, draw.now)
    requires forall steps :: steps in {a, b, c} ==> forall i :: 0 <= i < |steps| ==> Undisturbed(steps[i], args, draw.now)
    requires ValidRun(w.s, a) && ValidRun(Run(w.s, a), b) && ValidRun(Run(Run(w.s, a), b), c)
    ensures var after := Retry(w, args, draw, a, b, c);
            && after.phase.Issued? && after.phase.login.tokenHash == draw.tokenHash
            && after.phase.login.device == Some(DeviceSession(args.identifier.value, stamp))
            && draw.tokenHash in after.s.t.tokens && after.s.t.tokens[draw.tokenHash].deviceSessionStamp == Some(stamp)
            && (args.request.Some? ==> args.request.value.id in after.s.h.claimedBy
                                       && after.s.h.claimedBy[args.request.value.id] == draw.tokenHash)
  {
    hide Inv, ValidRun, Run, Undisturbed;
    assert a in {a, b, c} && b in {a, b, c} && c in {a, b, c};
    RunStands(w.s, a, args, stamp, draw.now);
    RunStands(Run(w.s, a), b, args, stamp, draw.now);
    RunStands(Run(Run(w.s, a), b), c, args, stamp, draw.now);
  }

  /**
   Two logins on one device, each of which would be granted alone: for the one that comes second to its
   batch the device is bound to the stamp of the first, and nothing else has gone.
   */
  lemma RaceLeavesStamp(s: System, first: Login, second: Login, args: Args, now: int)
    requires SessionGranted(s.t, first) && SessionGranted(s.t, second) && ArgsOf(second, args)
    requires first.device.Some? && second.device.Some? && first.user == second.user
    requires first.device.value.identifier == second.device.value.identifier
    requires first.device.value.sessionStamp != second.device.value.sessionStamp
    requires first.request.Some? && second.request.Some? ==> first.request.value.id != second.request.value.id
    requires second.request.Some? ==> RequestClaimable(s.t.requests, second.request.value.id, second.user, now)
    ensures Stands(AfterSignIn(s, first).t, args, first.device.value.sessionStamp, now)
  {
  }

  /** So both of two racing logins succeed, the second at its second attempt, and share the device's stamp. */
  lemma RacingLoginsBothSucceed(
    w: World, args: Args, first: Login, draw: Draw, a: seq<Step>, b: seq<Step>, c: seq<Step>)
    requires Inv(w.s) && w.phase.Ready? && w.phase.retries >= 1
    requires Drawn(w.s, SignIn(first)) && Drawn(w.s, SignIn(w.phase.login)) && !Draws(SignIn(first), w.phase.login)
    requires var second := w.phase.login;
             && SessionGranted(w.s.t, first) && SessionGranted(w.s.t, second) && ArgsOf(second, args)
             && first.device.Some? && second.device.Some? && first.user == second.user
             && first.device.value.identifier == second.device.value.identifier
             && first.device.value.sessionStamp != second.device.value.sessionStamp
             && (first.request.Some? && second.request.Some? ==> first.request.value.id != second.request.value.id)
             && (second.request.Some? ==> RequestClaimable(w.s.t.requests, second.request.value.id, second.user, draw.now))
    requires var s := Exec(Exec(w.s, SignIn(first)), SignIn(w.phase.login));
             ValidRun(s, a) && ValidRun(Run(s, a), b) && ValidRun(Run(Run(s, a), b), c)
    requires forall steps :: steps in {a, b, c} ==> forall i :: 0 <= i < |steps| ==> Undisturbed(steps[i], args, draw.now)
    ensures var refused := Continue(Happen(w, args, Others(SignIn(first))), args, draw);
            var after := Retry(refused, args, draw, a, b, c);
            && refused.phase.Refused? && after.phase.Issued?
            && draw.tokenHash in after.s.t.tokens
            && after.s.t.tokens[draw.tokenHash].deviceSessionStamp == Some(first.device.value.sessionStamp)
  {
    hide Inv, SessionGranted, Drawn, ValidRun, Run, Undisturbed, Stands, AfterSignIn, Retry;
    RaceLeavesStamp(w.s, first, w.phase.login, args, draw.now);
    StepKeepsInv(w.s, SignIn(first));
    OtherSignIn(w.s, first, w.phase.login);
    RetryIsGranted(Happen(w, args, Others(SignIn(first))), args, first.device.value.sessionStamp, draw, a, b, c);
  }
}
