/**
 The objects of file Sends, whose row can move on to another object (services/sends/file-storage.ts).
 Unlike an attachment's, such an object can be lost: stored for good, referenced by nothing and in
 no queue. This happens at one step only, and the run below gets there.
 */
module SendObjects {
  import opened Options
  import opened BlobTables
  import opened BlobRuns

  predicate Tracked(s: State, k: Key) {
    k in s.objects && InPhase(s, k, Done) ==> Holds(s, k) || k in s.queue
  }

  /**
   A drain drops a row that it found referenced, after the Send has moved on: the replacement
   queued the object while the row was still there, which INSERT OR IGNORE ignores.
   */
  predicate LosesTrack(s: State, step: Step, k: Key) {
    && step.DropRow?
    && (!step.threw || step.applied)
    && InStage(s, step.job, DroppingReferenced)
    && s.jobs[step.job].key == k
    && ClaimStands(s, s.jobs[step.job])
    && k in s.objects && InPhase(s, k, Done) && !Holds(s, k)
  }

  lemma DropTracksExactly(s: State, job: Id, threw: bool, applied: bool, k: Key)
    requires Tracked(s, k) && k.SendUpload? && (job in s.jobs ==> JobOk(s, s.jobs[job]))
    ensures Tracked(AfterDrop(s, job, threw, applied), k) <==> !LosesTrack(s, DropRow(job, threw, applied), k)
  {
  }

  lemma PublishSendTracks(
    s: State, key: Key, user: Id, expected: Option<Key>, at: int, threw: bool, applied: bool, k: Key)
    requires RowsOwnKeys(s) && KeyOk(s, k) && Tracked(s, k) && k.SendUpload?
    ensures Tracked(AfterPublishSend(s, key, user, expected, at, threw, applied), k)
  {
  }

  lemma ActingTracks(s: State, step: Step, k: Key)
    requires Tracked(s, k) && k.SendUpload? && ActingJob(step).Some? && !step.DropRow?
    requires ActingJob(step).value in s.jobs ==> JobOk(s, s.jobs[ActingJob(step).value])
    ensures Tracked(Exec(s, step), k)
  {
  }

  lemma OthersTrack(s: State, step: Step, k: Key)
    requires KeyOk(s, k) && Tracked(s, k) && k.SendUpload? && ActingJob(step).None? && !step.PublishSend?
    ensures Tracked(Exec(s, step), k)
  {
    hide Enqueue;
  }

  /** A Send's object is lost track of by a step if and only if it is that one. */
  lemma SendsTrackExactly(s: State, step: Step, k: Key)
    requires Reachable(s) && Tracked(s, k) && k.SendUpload?
    ensures Tracked(Exec(s, step), k) <==> !LosesTrack(s, step, k)
  {
    hide Reachable, Exec, Safe, Tracked, LosesTrack;
    ReachableIsSafe(s);
    StepTracksExactly(s, step, k);
  }

  lemma StepTracksExactly(s: State, step: Step, k: Key)
    requires Safe(s) && Tracked(s, k) && k.SendUpload?
    ensures Tracked(Exec(s, step), k) <==> !LosesTrack(s, step, k)
  {
    hide RowsOwnKeys, KeyOk, JobOk, Tracked, AfterDrop, AfterPublishSend;
    match step
    case DropRow(job, threw, applied) => DropTracksExactly(s, job, threw, applied, k);
    case PublishSend(key, user, expected, at, threw, applied) =>
      PublishSendTracks(s, key, user, expected, at, threw, applied, k);
    case _ =>
      hide Exec;
      if ActingJob(step).Some? {
        ActingTracks(s, step, k);
      } else {
        OthersTrack(s, step, k);
      }
  }

  // ---------------------------------------------------------------------------------------
  // Runs without an ambiguous publish
  // ---------------------------------------------------------------------------------------

  /** The publish of a Send's object commits and throws: its client queues an object that is referenced. */
  predicate Ambiguous(s: State, step: Step) {
    && step.PublishSend? && step.threw && step.applied
    && InPhase(s, step.key, Stored)
    && SendPublishable(s.sends, step.key, step.user, step.expected, step.timestamp)
  }

  predicate Unambiguous(s: State, steps: seq<Step>)
    decreases |steps|
  {
    steps == [] || (!Ambiguous(s, steps[0]) && Unambiguous(Exec(s, steps[0]), steps[1..]))
  }

  /** What is queued, or about to be, is not referenced. */
  predicate Unheld(s: State, k: Key) {
    k in s.queue || InPhase(s, k, Discarding) ==> !Holds(s, k)
  }

  predicate Settled(s: State, k: Key) {
    Tracked(s, k) && Unheld(s, k)
  }

  predicate JobSettled(s: State, job: Job) {
    job.key.SendUpload? ==> !Holds(s, job.key) && job.stage != DroppingReferenced
  }

  ghost predicate SendsSettled(s: State) {
    && (forall k: Key :: k.SendUpload? ==> Settled(s, k))
    && (forall j :: j in s.jobs ==> JobSettled(s, s.jobs[j]))
  }

  lemma PublishSendSettles(
    s: State, key: Key, user: Id, expected: Option<Key>, at: int, threw: bool, applied: bool, k: Key)
    requires RowsOwnKeys(s) && KeyOk(s, k) && Settled(s, k) && k.SendUpload?
    requires !Ambiguous(s, PublishSend(key, user, expected, at, threw, applied))
    ensures Unheld(AfterPublishSend(s, key, user, expected, at, threw, applied), k)
  {
  }

  lemma DrainsLeaveUnheld(s: State, step: Step, k: Key)
    requires Unheld(s, k) && k.SendUpload? && ActingJob(step).Some?
    ensures Unheld(Exec(s, step), k)
  {
    hide AfterClaim, AfterCheck, AfterDelete, AfterDrop, AfterDefer;
  }

  lemma OthersLeaveUnheld(s: State, step: Step, k: Key)
    requires KeyOk(s, k) && Unheld(s, k) && k.SendUpload? && !step.PublishSend? && ActingJob(step).None?
    ensures Unheld(Exec(s, step), k)
  {
    hide AttachmentPublishable, AfterClaim, AfterCheck, AfterDelete, AfterDrop, AfterDefer, AfterPublishSend, MovedOn, Enqueue;
  }

  lemma StepSettlesKey(s: State, step: Step, k: Key)
    requires Safe(s) && SendsSettled(s) && !Ambiguous(s, step) && k.SendUpload?
    ensures Settled(Exec(s, step), k)
  {
    hide RowsOwnKeys, KeyOk, JobOk, Tracked, Holds, Ambiguous, AfterPublishSend;
    assert Settled(s, k);
    StepTracksExactly(s, step, k);
    assert !LosesTrack(s, step, k) by {
      assert step.DropRow? && step.job in s.jobs ==> JobSettled(s, s.jobs[step.job]);
    }
    match step
    case PublishSend(key, user, expected, at, threw, applied) =>
      PublishSendSettles(s, key, user, expected, at, threw, applied, k);
    case _ =>
      hide Exec;
      if ActingJob(step).Some? {
        DrainsLeaveUnheld(s, step, k);
      } else {
        OthersLeaveUnheld(s, step, k);
      }
  }

  lemma ActingSettles(s: State, step: Step, j: Id)
    requires ActingJob(step) == Some(j) && j in s.jobs && RowsOwnKeys(s) && JobSettled(s, s.jobs[j])
    ensures JobSettled(Exec(s, step), Exec(s, step).jobs[j])
  {
    hide IsReferenced, RowsOwnKeys, ClaimStands, DeferredRow;
    ReferencedIffHeld(s, s.jobs[j].key);
  }

  lemma NewJobSettles(s: State, step: Step, j: Id)
    requires j !in s.jobs && j in Exec(s, step).jobs
    requires step.ReadDue? && step.key.SendUpload? ==> Settled(s, step.key)
    ensures JobSettled(Exec(s, step), Exec(s, step).jobs[j])
  {
    hide Tracked, AttachmentPublishable, SendPublishable, Enqueue, AfterClaim, AfterCheck, AfterDelete, AfterDrop, AfterDefer;
  }

  lemma StepSettlesJob(s: State, step: Step, j: Id)
    requires Safe(s) && SendsSettled(s) && j in Exec(s, step).jobs
    ensures JobSettled(Exec(s, step), Exec(s, step).jobs[j])
  {
    hide Exec, RowsOwnKeys, KeyOk, Settled, Holds;
    if j !in s.jobs {
      NewJobSettles(s, step, j);
    } else if ActingJob(step) == Some(j) {
      ActingSettles(s, step, j);
    } else {
      BystanderStays(s, step, j);
      assert JobOk(s, s.jobs[j]) && JobSettled(s, s.jobs[j]);
      StepKeepsKey(s, step, s.jobs[j].key);
    }
  }

  lemma {:induction false} RunSettles(s: State, steps: seq<Step>)
    requires Safe(s) && SendsSettled(s) && Unambiguous(s, steps)
    ensures Safe(Run(s, steps)) && SendsSettled(Run(s, steps))
    decreases |steps|
  {
    hide Exec, Safe, Settled, JobSettled, Ambiguous;
    if steps != [] {
      var next := Exec(s, steps[0]);
      StepKeepsSafe(s, steps[0]);
      forall k: Key | k.SendUpload?
        ensures Settled(next, k)
      {
        StepSettlesKey(s, steps[0], k);
      }
      forall j | j in next.jobs
        ensures JobSettled(next, next.jobs[j])
      {
        StepSettlesJob(s, steps[0], j);
      }
      RunSettles(next, steps[1..]);
    }
  }

  /**
   As long as no publish of a Send's object throws after it was committed, no such object is ever lost:
   whatever else fails or races, once its upload is done a stored object is held by its Send or queued.
   */
  lemma UnambiguousRunsLoseNothing(start: State, steps: seq<Step>, k: Key)
    requires Initial(start) && Unambiguous(start, steps) && k.SendUpload?
    requires k in Run(start, steps).objects && InPhase(Run(start, steps), k, Done)
    ensures Holds(Run(start, steps), k) || k in Run(start, steps).queue
  {
    hide Exec, Run, Unambiguous, Safe;
    InitialIsSafe(start);
    RunSettles(start, steps);
    assert Settled(Run(start, steps), k);
  }

  // ---------------------------------------------------------------------------------------
  // Lost for good
  // ---------------------------------------------------------------------------------------

  ghost predicate Leaked(s: State, k: Key) {
    && k.SendUpload? && k in s.objects && InPhase(s, k, Done) && !Holds(s, k) && k !in s.queue
    && (forall j :: j in s.jobs && s.jobs[j].key == k ==> s.jobs[j].stage != Claimed && s.jobs[j].stage != Deleting)
  }

  lemma JobsStayAway(s: State, step: Step, k: Key, j: Id)
    requires Leaked(s, k) && j in Exec(s, step).jobs && Exec(s, step).jobs[j].key == k
    ensures Exec(s, step).jobs[j].stage != Claimed && Exec(s, step).jobs[j].stage != Deleting
  {
    hide Holds;
    if j in s.jobs && ActingJob(step) == Some(j) {
      hide DrainsOnly, HeldRow, DeferredRow;
    } else if j in s.jobs {
      BystanderStays(s, step, j);
    } else {
      hide AfterClaim, AfterCheck, AfterDelete, AfterDrop, AfterDefer;
    }
  }

  /** The part of a leak that is about the object itself. */
  predicate Forgotten(s: State, k: Key) {
    k.SendUpload? && k in s.objects && InPhase(s, k, Done) && !Holds(s, k) && k !in s.queue
  }

  lemma PublishSendForgets(
    s: State, key: Key, user: Id, expected: Option<Key>, at: int, threw: bool, applied: bool, k: Key)
    requires RowsOwnKeys(s) && Forgotten(s, k)
    ensures Forgotten(AfterPublishSend(s, key, user, expected, at, threw, applied), k)
  {
  }

  lemma ActingForgets(s: State, step: Step, k: Key)
    requires Leaked(s, k) && ActingJob(step).Some?
    ensures Forgotten(Exec(s, step), k)
  {
  }

  lemma OthersForget(s: State, step: Step, k: Key)
    requires Forgotten(s, k) && ActingJob(step).None? && !step.PublishSend?
    ensures Forgotten(Exec(s, step), k)
  {
    hide Enqueue, AttachmentPublishable, AfterClaim, AfterCheck, AfterDelete, AfterDrop, AfterDefer, AfterPublishSend;
  }

  lemma LeakedStays(s: State, step: Step, k: Key)
    requires RowsOwnKeys(s) && Leaked(s, k)
    ensures Leaked(Exec(s, step), k)
  {
    hide RowsOwnKeys, Holds, AfterPublishSend;
    forall j | j in Exec(s, step).jobs && Exec(s, step).jobs[j].key == k
      ensures Exec(s, step).jobs[j].stage != Claimed && Exec(s, step).jobs[j].stage != Deleting
    {
      JobsStayAway(s, step, k, j);
    }
    match step
    case PublishSend(key, user, expected, at, threw, applied) =>
      PublishSendForgets(s, key, user, expected, at, threw, applied, k);
    case _ =>
      hide Exec;
      if ActingJob(step).Some? {
        ActingForgets(s, step, k);
      } else {
        OthersForget(s, step, k);
      }
  }

  /** A leak is for good: no run brings the object back into the queue, into a row or out of the store. */
  lemma {:induction false} LeakIsForGood(s: State, steps: seq<Step>, k: Key)
    requires Safe(s) && Leaked(s, k)
    ensures Leaked(Run(s, steps), k)
    decreases |steps|
  {
    hide Exec, Leaked, KeyOk, RowsOwnKeys, JobOk;
    if steps != [] {
      LeakedStays(s, steps[0], k);
      StepKeepsSafe(s, steps[0]);
      LeakIsForGood(Exec(s, steps[0]), steps[1..], k);
    }
  }

  const FIRST := SendUpload(1, 2, 3)
  const SECOND := SendUpload(1, 2, 4)

  /** A Send is created and its first object stored. */
  const UPLOADED := [AddSend(1, 7, 2, 10000), BeginUpload(FIRST), PutObject(FIRST, false, true)]

  /** The publish commits but throws, so its key is queued although it is referenced. */
  const AMBIGUOUS := [PublishSend(FIRST, 7, Some(DefaultSend(1, 2)), 10, true, true), Discard(FIRST, 10)]

  /** A drain finds it referenced. */
  const FOUND := [ReadDue(0, FIRST, 20), Claim(0), CheckReference(0)]

  /** Before the drain drops the row, a second upload replaces the object. */
  const OVERTAKEN := [BeginUpload(SECOND), PutObject(SECOND, false, true)]
  const REPLACED := [PublishSend(SECOND, 7, Some(FIRST), 30, false, true), DropRow(0, false, true)]

  function Fresh(key: Key, phase: Phase): State {
    EMPTY.(sends := map[1 := Send(7, Some(2), 10000, false, Some(key))], objects := {FIRST}, uploads := map[FIRST := phase])
  }

  lemma Uploads()
    ensures Run(EMPTY, UPLOADED) == Fresh(DefaultSend(1, 2), Stored)
  {
    RunsThree(EMPTY, UPLOADED[0], UPLOADED[1], UPLOADED[2]);
  }

  function Queued(): State {
    Fresh(FIRST, Done).(
      queue := map[DefaultSend(1, 2) := QueueRow(0, 10), FIRST := QueueRow(0, 10)],
      h := History(map[DefaultSend(1, 2) := 0, FIRST := 0], map[], map[]))
  }

  lemma Queues()
    ensures Run(Fresh(DefaultSend(1, 2), Stored), AMBIGUOUS) == Queued()
  {
    RunsTwo(Fresh(DefaultSend(1, 2), Stored), AMBIGUOUS[0], AMBIGUOUS[1]);
  }

  /** The drain of the first upload's row, before the second upload. */
  ghost predicate Draining(s: State, row: QueueRow, stage: Stage) {
    && s.attachments == map[] && s.sends == Queued().sends && s.objects == {FIRST} && s.uploads == Queued().uploads
    && s.jobs == map[0 := Job(FIRST, QueueRow(0, 10), 20, 0, stage)]
    && s.queue == Queued().queue[FIRST := row] && FIRST in s.h.lifetimes && s.h.lifetimes[FIRST] == 0
  }

  lemma Reads()
    ensures Draining(Exec(Queued(), FOUND[0]), QueueRow(0, 10), Reading)
  {
  }

  lemma Claims(s: State)
    requires Draining(s, QueueRow(0, 10), Reading)
    ensures Draining(Exec(s, FOUND[1]), QueueRow(0, 920), Claimed)
  {
    hide IsReferenced;
  }

  lemma Checks(s: State)
    requires Draining(s, QueueRow(0, 920), Claimed)
    ensures Draining(Exec(s, FOUND[2]), QueueRow(0, 920), DroppingReferenced)
  {
    assert SendKey(1, s.sends[1]) == Some(FIRST);
  }

  lemma Finds()
    ensures Draining(Run(Queued(), FOUND), QueueRow(0, 920), DroppingReferenced)
  {
    hide Exec, Draining;
    RunsThree(Queued(), FOUND[0], FOUND[1], FOUND[2]);
    Reads();
    Claims(Exec(Queued(), FOUND[0]));
    Checks(Exec(Exec(Queued(), FOUND[0]), FOUND[1]));
  }

  /** The drain waits while the second upload gets on. */
  ghost predicate Racing(s: State, objects: set<Key>, phase: Phase) {
    && s.sends == Queued().sends && s.objects == objects && s.uploads == map[FIRST := Done, SECOND := phase]
    && s.jobs == map[0 := Job(FIRST, QueueRow(0, 10), 20, 0, DroppingReferenced)]
    && s.queue == Queued().queue[FIRST := QueueRow(0, 920)]
  }

  lemma Begins(s: State)
    requires Draining(s, QueueRow(0, 920), DroppingReferenced)
    ensures Racing(Exec(s, OVERTAKEN[0]), {FIRST}, Putting)
  {
  }

  lemma Stores(s: State)
    requires Racing(s, {FIRST}, Putting)
    ensures Racing(Exec(s, OVERTAKEN[1]), {FIRST, SECOND}, Stored)
  {
  }

  /** The Send names the second object, and the queue row is the one that was there. */
  ghost predicate Overtaken(s: State) {
    && s.sends == map[1 := Send(7, Some(2), 10000, false, Some(SECOND))]
    && FIRST in s.objects && InPhase(s, FIRST, Done)
    && s.jobs == map[0 := Job(FIRST, QueueRow(0, 10), 20, 0, DroppingReferenced)]
    && s.queue == Queued().queue[FIRST := QueueRow(0, 920)]
  }

  lemma Replaces(s: State)
    requires Racing(s, {FIRST, SECOND}, Stored)
    ensures Overtaken(Exec(s, REPLACED[0]))
  {
  }

  lemma Drops(s: State)
    requires Overtaken(s)
    ensures Leaked(Exec(s, REPLACED[1]), FIRST)
  {
  }

  lemma Overtakes(s: State)
    requires Draining(s, QueueRow(0, 920), DroppingReferenced)
    ensures Leaked(Run(Run(s, OVERTAKEN), REPLACED), FIRST)
  {
    hide Exec, Run, Draining, Racing, Overtaken, Leaked;
    RunsTwo(s, OVERTAKEN[0], OVERTAKEN[1]);
    Begins(s);
    Stores(Exec(s, OVERTAKEN[0]));
    var racing := Run(s, OVERTAKEN);
    RunsTwo(racing, REPLACED[0], REPLACED[1]);
    Replaces(racing);
    Drops(Exec(racing, REPLACED[0]));
  }

  /** The leak can be reached, with one upload that throws, one that does not, and one drain. */
  lemma SendObjectCanLeak()
    ensures Leaked(Run(EMPTY, UPLOADED + AMBIGUOUS + FOUND + OVERTAKEN + REPLACED), FIRST)
  {
    hide Exec, Run, Leaked, Fresh, Queued, Draining;
    RunAppends(EMPTY, UPLOADED + AMBIGUOUS + FOUND + OVERTAKEN, REPLACED);
    RunAppends(EMPTY, UPLOADED + AMBIGUOUS + FOUND, OVERTAKEN);
    RunAppends(EMPTY, UPLOADED + AMBIGUOUS, FOUND);
    RunAppends(EMPTY, UPLOADED, AMBIGUOUS);
    Uploads();
    Queues();
    Finds();
    Overtakes(Run(Queued(), FOUND));
  }
}
