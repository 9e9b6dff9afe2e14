/**
 Why two drains never finish the same queue row (apps/api/src/services/blob-gc.ts:74-76, 98-151):
 the pair (attempts, next_attempt_at) only moves forward while a row lives, so every claim and every
 compare-and-set after it names a version that nobody else named.
 */
module BlobFencing {
  import opened Options
  import opened BlobTables
  import opened BlobRuns

  /** Lexicographic order: a deferral may lower the time, but never together with the attempts. */
  predicate Before(a: QueueRow, b: QueueRow) {
    a.attempts < b.attempts || (a.attempts == b.attempts && a.nextAt < b.nextAt)
  }

  /** The queue row has moved past this version, or this version's lifetime is over. */
  predicate Passed(s: State, v: Version) {
    && v.key in s.h.lifetimes
    && v.lifetime <= s.h.lifetimes[v.key]
    && (v.key in s.queue && v.lifetime == s.h.lifetimes[v.key] ==> Before(v.row, s.queue[v.key]))
  }

  predicate Reached(s: State, v: Version) {
    && v.key in s.h.lifetimes
    && v.lifetime <= s.h.lifetimes[v.key]
    && (v.key in s.queue && v.lifetime == s.h.lifetimes[v.key] ==>
          v.row == s.queue[v.key] || Before(v.row, s.queue[v.key]))
  }

  predicate Holding(stage: Stage) {
    match stage
    case Reading => false
    case Finished(_) => false
    case Aborted => false
    case _ => true
  }

  function HeldVersion(job: Job): Version {
    Version(job.key, job.lifetime, HeldRow(job))
  }

  predicate ReadInTime(job: Job) {
    job.row.nextAt <= job.timestamp
  }

  predicate Recorded(s: State, j: Id)
    requires j in s.jobs
  {
    Holding(s.jobs[j].stage) ==> HeldVersion(s.jobs[j]) in s.h.holders && s.h.holders[HeldVersion(s.jobs[j])] == j
  }

  ghost predicate LifetimesKnown(s: State) {
    forall k :: k in s.queue ==> k in s.h.lifetimes
  }

  ghost predicate Fenced(s: State) {
    && LifetimesKnown(s)
    && (forall v :: v in s.h.claims ==> Passed(s, v))
    && (forall v :: v in s.h.holders ==> Reached(s, v))
    && (forall j :: j in s.jobs ==> ReadInTime(s.jobs[j]))
    && (forall j :: j in s.jobs ==> Recorded(s, j))
  }

  /** No step takes a version back. */
  predicate MovesForward(s: State, s': State, v: Version) {
    (Passed(s, v) ==> Passed(s', v)) && (Reached(s, v) ==> Reached(s', v))
  }

  /** A step that claims nothing: versions move forward and no version is recorded. */
  ghost predicate Evolves(s: State, s': State, v: Version) {
    && MovesForward(s, s', v)
    && (LifetimesKnown(s) ==> LifetimesKnown(s'))
    && s'.h.claims == s.h.claims && s'.h.holders == s.h.holders
  }

  lemma EnqueueEvolves(s: State, key: Key, at: int, v: Version)
    ensures Evolves(s, Enqueue(s, key, at), v)
  {
  }

  lemma DiscardEvolves(s: State, key: Key, at: int, v: Version)
    ensures Evolves(s, AfterDiscard(s, key, at), v)
  {
    hide Enqueue, Before;
    EnqueueEvolves(s, key, at, v);
  }

  lemma PublishSendEvolves(
    s: State, key: Key, user: Id, expected: Option<Key>, at: int, threw: bool, applied: bool, v: Version)
    ensures Evolves(s, AfterPublishSend(s, key, user, expected, at, threw, applied), v)
  {
    hide Enqueue, Before;
    if expected.Some? && key.SendUpload? && key.send in s.sends {
      EnqueueEvolves(s.(sends := s.sends[key.send := s.sends[key.send].(storageKey := Some(key))]), expected.value, at, v);
    }
  }

  lemma DropEvolves(s: State, job: Id, threw: bool, applied: bool, v: Version)
    ensures Evolves(s, AfterDrop(s, job, threw, applied), v)
  {
    hide HeldRow;
  }

  lemma DeferEvolves(s: State, job: Id, v: Version)
    ensures Evolves(s, AfterDefer(s, job), v)
  {
    hide RetryAt;
  }

  lemma ClaimMoves(s: State, job: Id, v: Version)
    requires job in s.jobs ==> ReadInTime(s.jobs[job])
    ensures MovesForward(s, AfterClaim(s, job), v)
    ensures LifetimesKnown(s) ==> LifetimesKnown(AfterClaim(s, job))
  {
  }

  lemma QuietStepsLeaveQueue(s: State, step: Step)
    requires !step.Claim? && !step.DropRow? && !step.DeferRow? && !step.Discard? && !step.PublishSend?
    ensures Exec(s, step).queue == s.queue && Exec(s, step).h == s.h
  {
    hide AfterClaim, AfterCheck, AfterDelete, AfterDrop, AfterDefer, AttachmentPublishable;
  }

  lemma OthersEvolve(s: State, step: Step, v: Version)
    requires !step.Claim?
    ensures Evolves(s, Exec(s, step), v)
  {
    match step
    case DropRow(job, threw, applied) => DropEvolves(s, job, threw, applied, v);
    case DeferRow(job) => DeferEvolves(s, job, v);
    case Discard(key, at) => DiscardEvolves(s, key, at, v);
    case PublishSend(key, user, expected, at, threw, applied) =>
      PublishSendEvolves(s, key, user, expected, at, threw, applied, v);
    case _ =>
      hide Exec;
      QuietStepsLeaveQueue(s, step);
  }

  lemma StepMovesForward(s: State, step: Step, v: Version)
    requires Fenced(s)
    ensures MovesForward(s, Exec(s, step), v)
  {
    hide MovesForward, Passed, Reached, Recorded, AfterClaim;
    if step.Claim? {
      ClaimMoves(s, step.job, v);
    } else {
      OthersEvolve(s, step, v);
    }
  }

  // ---------------------------------------------------------------------------------------
  // Claims
  // ---------------------------------------------------------------------------------------

  /** The claim goes through. */
  predicate Claims(s: State, job: Id) {
    && InStage(s, job, Reading)
    && s.jobs[job].key in s.queue
    && s.queue[s.jobs[job].key] == s.jobs[job].row
    && s.jobs[job].key in s.h.lifetimes
  }

  function ClaimedVersion(s: State, job: Id): Version
    requires Claims(s, job)
  {
    Version(s.jobs[job].key, s.h.lifetimes[s.jobs[job].key], s.jobs[job].row)
  }

  /** A claim takes a version nobody claimed before and writes one that nobody held before. */
  lemma ClaimIsFirst(s: State, job: Id)
    requires Fenced(s) && Claims(s, job)
    ensures var v, after := ClaimedVersion(s, job), AfterClaim(s, job);
            && v !in s.h.claims && v in after.h.claims && after.h.claims[v] == job
            && after.h.claims == s.h.claims[v := job]
            && InStage(after, job, Claimed) && ClaimStands(after, after.jobs[job])
            && HeldVersion(after.jobs[job]) !in s.h.holders
            && after.h.holders == s.h.holders[HeldVersion(after.jobs[job]) := job]
            && Passed(after, v) && Reached(after, HeldVersion(after.jobs[job]))
  {
  }

  lemma LostClaimRecordsNothing(s: State, job: Id)
    requires !Claims(s, job)
    ensures AfterClaim(s, job).h == s.h
  {
  }

  /** What a step may do to a job: nothing, or move it on with what it read and the claim it holds. */
  predicate KeepsVersion(s: State, s': State, j: Id) {
    j in s'.jobs ==>
      && (j in s.jobs ==> s'.jobs[j].row == s.jobs[j].row && s'.jobs[j].timestamp == s.jobs[j].timestamp)
      && (Holding(s'.jobs[j].stage) ==>
            j in s.jobs && Holding(s.jobs[j].stage) && HeldVersion(s'.jobs[j]) == HeldVersion(s.jobs[j]))
  }

  lemma ActingKeepsVersion(s: State, step: Step, j: Id)
    requires ActingJob(step) == Some(j) && !step.Claim?
    ensures KeepsVersion(s, Exec(s, step), j)
  {
    hide DrainsOnly, ClaimStands, DeferredRow, IsReferenced;
  }

  lemma OthersKeepVersion(s: State, step: Step, j: Id)
    requires ActingJob(step) != Some(j)
    ensures KeepsVersion(s, Exec(s, step), j)
    ensures j in Exec(s, step).jobs && j !in s.jobs ==> ReadInTime(Exec(s, step).jobs[j])
  {
    if j in s.jobs {
      hide Exec;
      BystanderStays(s, step, j);
    } else {
      hide AfterClaim, AfterCheck, AfterDelete, AfterDrop, AfterDefer, AttachmentPublishable, Enqueue;
    }
  }

  lemma ClaimKeepsJobs(s: State, job: Id, j: Id)
    requires Fenced(s) && j in AfterClaim(s, job).jobs
    ensures Recorded(AfterClaim(s, job), j) && ReadInTime(AfterClaim(s, job).jobs[j])
  {
    hide Passed, Reached, HeldVersion;
    assert j in s.jobs && ReadInTime(s.jobs[j]) && Recorded(s, j);
    if Claims(s, job) {
      ClaimIsFirst(s, job);
    }
  }

  lemma StepKeepsJobs(s: State, step: Step, j: Id)
    requires Fenced(s) && j in Exec(s, step).jobs
    ensures Recorded(Exec(s, step), j) && ReadInTime(Exec(s, step).jobs[j])
  {
    if step.Claim? {
      ClaimKeepsJobs(s, step.job, j);
    } else {
      hide Exec, Passed, Reached, HeldVersion, Holding;
      if ActingJob(step) == Some(j) {
        ActingKeepsVersion(s, step, j);
      } else {
        OthersKeepVersion(s, step, j);
      }
      assert j in s.jobs ==> ReadInTime(s.jobs[j]) && Recorded(s, j);
      OthersEvolve(s, step, Version(DefaultSend(0, 0), 0, QueueRow(0, 0)));
    }
  }

  lemma StepKeepsVersions(s: State, step: Step, v: Version)
    requires Fenced(s)
    ensures v in Exec(s, step).h.claims ==> Passed(Exec(s, step), v)
    ensures v in Exec(s, step).h.holders ==> Reached(Exec(s, step), v)
    ensures LifetimesKnown(Exec(s, step))
  {
    hide Passed, Reached, Recorded, ReadInTime, HeldVersion, AfterClaim;
    StepMovesForward(s, step, v);
    if step.Claim? {
      hide Claims;
      assert step.job in s.jobs ==> ReadInTime(s.jobs[step.job]);
      ClaimMoves(s, step.job, v);
      if Claims(s, step.job) {
        ClaimIsFirst(s, step.job);
      } else {
        LostClaimRecordsNothing(s, step.job);
      }
    } else {
      hide Exec;
      OthersEvolve(s, step, v);
    }
  }

  lemma StepKeepsFenced(s: State, step: Step)
    requires Fenced(s)
    ensures Fenced(Exec(s, step))
  {
    var after := Exec(s, step);
    forall v: Version
      ensures v in after.h.claims ==> Passed(after, v)
      ensures v in after.h.holders ==> Reached(after, v)
      ensures LifetimesKnown(after)
    {
      StepKeepsVersions(s, step, v);
    }
    forall j | j in after.jobs
      ensures Recorded(after, j) && ReadInTime(after.jobs[j])
    {
      StepKeepsJobs(s, step, j);
    }
    hide Exec, Passed, Reached, Recorded, ReadInTime, LifetimesKnown;
    StepKeepsVersions(s, step, Version(DefaultSend(0, 0), 0, QueueRow(0, 0)));
  }

  lemma {:induction false} RunKeepsFenced(s: State, steps: seq<Step>)
    requires Fenced(s)
    ensures Fenced(Run(s, steps))
    decreases |steps|
  {
    hide Fenced, Exec;
    if steps != [] {
      StepKeepsFenced(s, steps[0]);
      RunKeepsFenced(Exec(s, steps[0]), steps[1..]);
    }
  }

  lemma {:induction false} RunMovesForward(s: State, steps: seq<Step>, v: Version)
    requires Fenced(s)
    ensures MovesForward(s, Run(s, steps), v)
    decreases |steps|
  {
    hide Fenced, Exec, Passed, Reached;
    if steps != [] {
      StepMovesForward(s, steps[0], v);
      StepKeepsFenced(s, steps[0]);
      RunMovesForward(Exec(s, steps[0]), steps[1..], v);
    }
  }

  // ---------------------------------------------------------------------------------------
  // What the fences give
  // ---------------------------------------------------------------------------------------

  lemma ReachableIsFenced(s: State)
    requires Reachable(s)
    ensures Fenced(s)
  {
    hide Exec, Fenced;
    var start, steps :| Initial(start) && Run(start, steps) == s;
    InitialIsFenced(start);
    RunKeepsFenced(start, steps);
  }

  lemma InitialIsFenced(s: State)
    requires Initial(s)
    ensures Fenced(s)
  {
  }

  /**
   Over any run each version of a row is claimed at most once: a recorded claim stays as it is, and
   whoever tries to claim that version again, in whatever state, is refused.
   */
  lemma ClaimsAreFinal(s: State, steps: seq<Step>, v: Version)
    requires Reachable(s) && v in s.h.claims
    ensures var after := Run(s, steps);
            && v in after.h.claims && after.h.claims[v] == s.h.claims[v]
            && (forall job :: Claims(after, job) ==> ClaimedVersion(after, job) != v)
  {
    hide Reachable, Fenced, Exec;
    ReachableIsFenced(s);
    ClaimsStay(s, steps, v);
    RunKeepsFenced(s, steps);
    var after := Run(s, steps);
    forall job | Claims(after, job)
      ensures ClaimedVersion(after, job) != v
    {
      ClaimIsFirst(after, job);
    }
  }

  lemma {:induction false} ClaimsStay(s: State, steps: seq<Step>, v: Version)
    requires Fenced(s) && v in s.h.claims
    ensures v in Run(s, steps).h.claims && Run(s, steps).h.claims[v] == s.h.claims[v]
    decreases |steps|
  {
    hide Fenced, Exec;
    if steps != [] {
      ClaimSurvives(s, steps[0], v);
      StepKeepsFenced(s, steps[0]);
      ClaimsStay(Exec(s, steps[0]), steps[1..], v);
    }
  }

  lemma ClaimSurvives(s: State, step: Step, v: Version)
    requires Fenced(s) && v in s.h.claims
    ensures v in Exec(s, step).h.claims && Exec(s, step).h.claims[v] == s.h.claims[v]
  {
    hide Passed, Reached, Recorded, ReadInTime, AfterClaim, Claims;
    if step.Claim? {
      if Claims(s, step.job) {
        ClaimIsFirst(s, step.job);
      } else {
        LostClaimRecordsNothing(s, step.job);
      }
    } else {
      hide Exec;
      OthersEvolve(s, step, v);
    }
  }

  /** The job works on the row's present lifetime and its compare-and-set would match now. */
  predicate CanFinish(s: State, j: Id) {
    && j in s.jobs && Holding(s.jobs[j].stage) && ClaimStands(s, s.jobs[j])
    && s.jobs[j].key in s.h.lifetimes && s.jobs[j].lifetime == s.h.lifetimes[s.jobs[j].key]
  }

  /** At any time at most one drain can finish a row. */
  lemma OneFinisher(s: State, i: Id, j: Id)
    requires Reachable(s) && CanFinish(s, i) && CanFinish(s, j) && s.jobs[i].key == s.jobs[j].key
    ensures i == j
  {
    hide Reachable;
    ReachableIsFenced(s);
    assert Recorded(s, i) && Recorded(s, j);
  }

  /** A drain that has lost its claim never gets it back while the row lives, not even when its rival is gone. */
  lemma LostIsLost(s: State, steps: seq<Step>, j: Id)
    requires Reachable(s) && j in s.jobs && Holding(s.jobs[j].stage) && !CanFinish(s, j)
    ensures var after, job := Run(s, steps), s.jobs[j];
            job.key in after.h.lifetimes && after.h.lifetimes[job.key] == job.lifetime ==> !ClaimStands(after, job)
  {
    hide Exec, Reachable;
    ReachableIsFenced(s);
    assert Recorded(s, j);
    assert Reached(s, HeldVersion(s.jobs[j])) && Passed(s, HeldVersion(s.jobs[j]));
    RunMovesForward(s, steps, HeldVersion(s.jobs[j]));
  }

  /** Whoever drops or defers the row ends everybody's claim on it, in this lifetime, for good. */
  lemma FinishingFinishes(s: State, step: Step, steps: seq<Step>, i: Id, j: Id)
    requires Reachable(s) && CanFinish(s, i)
    requires step == DeferRow(i) || (step.DropRow? && step.job == i && (!step.threw || step.applied))
    requires step.DeferRow? ==> InStage(s, i, Deferring)
    requires step.DropRow? ==> InStage(s, i, DroppingReferenced) || InStage(s, i, DroppingDeleted)
    requires j in s.jobs && Holding(s.jobs[j].stage)
    requires s.jobs[j].key == s.jobs[i].key && s.jobs[j].lifetime == s.jobs[i].lifetime
    ensures var after, job := Run(Exec(s, step), steps), s.jobs[j];
            job.key in after.h.lifetimes && after.h.lifetimes[job.key] == job.lifetime ==> !ClaimStands(after, job)
  {
    hide Reachable;
    ReachableIsFenced(s);
    var v, next := HeldVersion(s.jobs[j]), Exec(s, step);
    assert Recorded(s, j);
    assert Reached(s, v);
    FinishingPasses(s, step, i, v);
    StepKeepsFenced(s, step);
    hide Exec;
    RunMovesForward(next, steps, v);
  }

  lemma FinishingPasses(s: State, step: Step, i: Id, v: Version)
    requires CanFinish(s, i) && Reached(s, v) && v.key == s.jobs[i].key
    requires step == DeferRow(i) || (step.DropRow? && step.job == i && (!step.threw || step.applied))
    requires step.DeferRow? ==> InStage(s, i, Deferring)
    requires step.DropRow? ==> InStage(s, i, DroppingReferenced) || InStage(s, i, DroppingDeleted)
    ensures Passed(Exec(s, step), v)
  {
  }

  /** A deferral is always forward in this order, although the first three bring the time itself closer. */
  lemma DeferralMayComeSooner(row: QueueRow, timestamp: int)
    ensures var held := QueueRow(row.attempts, timestamp + CLAIM_SECONDS);
            && Before(held, DeferredRow(held, timestamp))
            && (DeferredRow(held, timestamp).nextAt < held.nextAt <==> row.attempts < 3)
  {
    var n := if row.attempts + 1 < 10 then row.attempts + 1 else 10;
    assert Pow2(3) == 8 && Pow2(4) == 16;
    if n <= 3 {
      Pow2Monotone(n, 3);
    } else {
      Pow2Monotone(4, n);
    }
  }
}
