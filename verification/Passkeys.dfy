/**
 Passkeys over every run (apps/api/src/services/db/batch/webauthn.ts:149-284): a registration checks
 the limit, the credential id and its challenge in the same batch that writes the new security stamp,
 so no interleaving gets around any of them.
 */
module Passkeys {
  import opened Options
  import opened IdentityTables
  import opened IdentityRuns

  /** Nobody has more passkeys of a kind than allowed, and no two passkeys share a credential. */
  ghost predicate PasskeysFit(passkeys: map<Id, Passkey>) {
    && (forall user, purpose :: |PasskeysOf(passkeys, user, purpose)| <= MAX_PASSKEYS)
    && (forall a, b :: a in passkeys && b in passkeys && passkeys[a].credentialId == passkeys[b].credentialId ==> a == b)
  }

  lemma FewerOf(passkeys: map<Id, Passkey>, gone: set<Id>, user: Id, purpose: Purpose)
    ensures |PasskeysOf(WithoutPasskeys(passkeys, gone), user, purpose)| <= |PasskeysOf(passkeys, user, purpose)|
  {
    SubsetSize(PasskeysOf(WithoutPasskeys(passkeys, gone), user, purpose), PasskeysOf(passkeys, user, purpose));
  }

  lemma RemovingFits(passkeys: map<Id, Passkey>, gone: set<Id>)
    requires PasskeysFit(passkeys)
    ensures PasskeysFit(WithoutPasskeys(passkeys, gone))
  {
    hide PasskeysOf;
    forall user, purpose
      ensures |PasskeysOf(WithoutPasskeys(passkeys, gone), user, purpose)| <= MAX_PASSKEYS
    {
      FewerOf(passkeys, gone, user, purpose);
    }
  }

  lemma OneMoreOf(passkeys: map<Id, Passkey>, row: Id, added: Passkey, user: Id, purpose: Purpose)
    requires row !in passkeys
    ensures PasskeysOf(passkeys[row := added], user, purpose) ==
            PasskeysOf(passkeys, user, purpose) + if added.user == user && added.purpose == purpose then {row} else {}
  {
  }

  lemma RegisteringFits(t: Tables, user: Id, r: Rotation, now: int)
    requires r.RegisterPasskey? && r.row !in t.passkeys && PasskeysFit(t.passkeys) && PasskeyWelcome(t, user, r, now)
    ensures PasskeysFit(RotatedPasskeys(t.passkeys, user, r))
  {
    hide PasskeysOf;
    var added := Passkey(user, r.purpose, r.credentialId);
    var after := t.passkeys[r.row := added];
    forall u, p
      ensures |PasskeysOf(after, u, p)| <= MAX_PASSKEYS
    {
      OneMoreOf(t.passkeys, r.row, added, u, p);
    }
  }

  lemma RotationFits(t: Tables, user: Id, r: Rotation, stamp: Id, now: int)
    requires PasskeysFit(t.passkeys) && (r.RegisterPasskey? ==> r.row !in t.passkeys)
    ensures PasskeysFit(RotateStamp(t, user, r, stamp, now).passkeys)
  {
    hide PasskeysFit, PasskeyWelcome, RotatedUser, PasskeysOf;
    if RotationAllowed(t, user, r, now) {
      if r.RegisterPasskey? {
        RegisteringFits(t, user, r, now);
      } else if r.RemovePasskey? {
        RemovingFits(t.passkeys, {r.row});
      } else {
        RemovingFits(t.passkeys, PasskeysOf(t.passkeys, user, TwoFactorPasskey));
      }
    }
  }

  lemma OthersLeavePasskeys(s: System, step: Step)
    requires !step.Rotate?
    ensures Exec(s, step).t.passkeys == s.t.passkeys
  {
    hide UpsertedDevice, SessionGranted, RefreshGranted, Deletable, BoundTo;
  }

  lemma {:induction false} RunFits(s: System, steps: seq<Step>)
    requires PasskeysFit(s.t.passkeys) && ValidRun(s, steps)
    ensures PasskeysFit(Run(s, steps).t.passkeys)
    decreases |steps|
  {
    hide PasskeysFit, RotateStamp;
    if steps != [] {
      if steps[0].Rotate? {
        RotationFits(s.t, steps[0].user, steps[0].rotation, steps[0].newStamp, steps[0].now);
      } else {
        OthersLeavePasskeys(s, steps[0]);
      }
      hide Exec;
      RunFits(Exec(s, steps[0]), steps[1..]);
    }
  }

  /** However many registrations race, the limits and the uniqueness of credentials hold in every reachable state. */
  lemma ReachablePasskeysFit(s: System)
    requires Reachable(s)
    ensures PasskeysFit(s.t.passkeys)
  {
    hide Exec, Drawn;
    var steps :| ValidRun(EMPTY, steps) && Run(EMPTY, steps) == s;
    assert PasskeysFit(EMPTY.t.passkeys) by {
      assert forall user, purpose :: PasskeysOf(EMPTY.t.passkeys, user, purpose) == {};
    }
    RunFits(EMPTY, steps);
  }

  // ---------------------------------------------------------------------------------------
  // Challenges
  // ---------------------------------------------------------------------------------------

  /** The challenge was offered and is used up or swept out. */
  predicate Spent(s: System, hash: Id) {
    && hash in s.h.challenges
    && (hash in s.t.challenges ==> s.t.challenges[hash].usedAt.Some?)
  }

  lemma StepKeepsSpent(s: System, step: Step, hash: Id)
    requires Spent(s, hash) && Drawn(s, step)
    ensures Spent(Exec(s, step), hash)
  {
    hide UpsertedDevice, SessionGranted, RefreshGranted, RotationAllowed, RotatedUser, RotatedPasskeys, Deletable, BoundTo;
  }

  lemma {:induction false} RunKeepsSpent(s: System, steps: seq<Step>, hash: Id)
    requires Spent(s, hash) && ValidRun(s, steps)
    ensures Spent(Run(s, steps), hash)
    decreases |steps|
  {
    hide Exec, Spent, Drawn;
    if steps != [] {
      StepKeepsSpent(s, steps[0], hash);
      RunKeepsSpent(Exec(s, steps[0]), steps[1..], hash);
    }
  }

  ghost predicate OffersKnown(s: System) {
    s.t.challenges.Keys <= s.h.challenges
  }

  lemma StepKnowsOffers(s: System, step: Step)
    requires OffersKnown(s)
    ensures OffersKnown(Exec(s, step))
  {
    hide UpsertedDevice, SessionGranted, RefreshGranted, RotationAllowed, RotatedUser, RotatedPasskeys, Deletable, BoundTo;
  }

  lemma {:induction false} RunKnowsOffers(s: System, steps: seq<Step>)
    requires OffersKnown(s)
    ensures OffersKnown(Run(s, steps))
    decreases |steps|
  {
    hide Exec, OffersKnown;
    if steps != [] {
      StepKnowsOffers(s, steps[0]);
      RunKnowsOffers(Exec(s, steps[0]), steps[1..]);
    }
  }

  /**
   A challenge registers one passkey at most: once a registration with it went through, no later state
   of any run allows another, for whatever user, credential or kind.
   */
  lemma ChallengeRegistersOnce(
    s: System, user: Id, r: Rotation, stamp: Id, now: int, steps: seq<Step>, other: Id, again: Rotation, later: int)
    requires Reachable(s) && r.RegisterPasskey? && again.RegisterPasskey? && again.challenge == r.challenge
    requires RotationAllowed(s.t, user, r, now) && ValidRun(Exec(s, Rotate(user, r, stamp, now)), steps)
    ensures !RotationAllowed(Run(Exec(s, Rotate(user, r, stamp, now)), steps).t, other, again, later)
  {
    hide ValidRun, Run, Drawn;
    ReachableOffers(s);
    var next := Exec(s, Rotate(user, r, stamp, now));
    assert Spent(next, r.challenge);
    RunKeepsSpent(next, steps, r.challenge);
  }

  lemma ReachableOffers(s: System)
    requires Reachable(s)
    ensures OffersKnown(s)
  {
    hide Exec, Drawn;
    var steps :| ValidRun(EMPTY, steps) && Run(EMPTY, steps) == s;
    RunKnowsOffers(EMPTY, steps);
  }
}
