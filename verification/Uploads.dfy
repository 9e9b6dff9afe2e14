/**
 What an upload comes to (apps/api/src/handlers/attachments.ts:234-287, handlers/sends-public.ts:208-235,
 services/db/batch/attachments.ts:5-51, services/sends/file-storage.ts:13-61): the row and the object if
 all it needs is there when it publishes, and an entry in the queue otherwise, whatever others do.
 */
module Uploads {
  import opened Options
  import opened BlobTables
  import opened BlobRuns

  // ---------------------------------------------------------------------------------------
  // Storing the object
  // ---------------------------------------------------------------------------------------

  /** A fresh key's object is stored, or refused and on its way to the queue; a refusal may still have stored it. */
  lemma PutStores(s: State, key: Key, threw: bool, stored: bool)
    requires key.IsUpload() && key !in s.uploads
    ensures var after := Run(s, [BeginUpload(key), PutObject(key, threw, stored)]);
            && InPhase(after, key, if threw then Discarding else Stored)
            && after == s.(uploads := s.uploads[key := if threw then Discarding else Stored],
                           objects := if threw && !stored then s.objects else s.objects + {key})
  {
    hide Run, AfterPublishUpload, AfterPublishSend, AfterVerify, AfterDiscard, AfterAddSend, AfterChangeSend, AfterRead;
    hide AfterClaim, AfterCheck, AfterDelete, AfterDrop, AfterDefer, DrainsOnly;
    RunsTwo(s, BeginUpload(key), PutObject(key, threw, stored));
  }

  /** A key that is not queued is queued as new and due at once; one that is keeps its row. */
  lemma QueuedAsNew(s: State, key: Key, timestamp: int)
    ensures Enqueue(s, key, timestamp).queue == Enqueued(s.queue, key, timestamp)
    ensures Enqueued(s.queue, key, timestamp).Keys == s.queue.Keys + {key}
    ensures forall k :: k in s.queue ==> Enqueued(s.queue, key, timestamp)[k] == s.queue[k]
    ensures key !in s.queue ==>
              Enqueued(s.queue, key, timestamp)[key].attempts == 0 && Enqueued(s.queue, key, timestamp)[key].nextAt == timestamp
  {
  }

  // ---------------------------------------------------------------------------------------
  // Attachments
  // ---------------------------------------------------------------------------------------

  /** The pending row names this cipher and these details and was in time, and nobody has published the attachment. */
  predicate Awaited(s: State, key: Key, details: Id, authorizedAt: int)
    requires key.AttachmentUpload?
  {
    && key.attachment in s.pending
    && s.pending[key.attachment].cipher == key.cipher
    && s.pending[key.attachment].details == details
    && authorizedAt < s.pending[key.attachment].expiresAt
    && key.attachment !in s.attachments
  }

  /** The publish writes the row and takes the pending one away, or changes no row. */
  lemma PublishDecides(s: State, key: Key, details: Id, authorizedAt: int, threw: bool, applied: bool)
    requires key.AttachmentUpload? && InPhase(s, key, Stored)
    ensures var after := Exec(s, PublishUpload(key, details, authorizedAt, threw, applied));
            && after.uploads == s.uploads[key := if threw then Discarding else Verifying]
            && after == s.(attachments := after.attachments, pending := after.pending, uploads := after.uploads)
            && if Awaited(s, key, details, authorizedAt) && (!threw || applied) then
                 && after.attachments == s.attachments[key.attachment := Attachment(key.cipher, Some(key))]
                 && after.pending == s.pending - {key.attachment}
               else after.attachments == s.attachments && after.pending == s.pending
  {
  }

  /** Steps of other uploads, of drains and of everybody else. */
  predicate Foreign(step: Step, key: Key) {
    match step
    case BeginUpload(k) => k != key
    case PutObject(k, _, _) => k != key
    case PublishUpload(k, _, _, _, _) => k != key
    case VerifyUpload(k) => k != key
    case PublishSend(k, _, _, _, _, _) => k != key
    case Discard(k, _) => k != key
    case _ => true
  }

  /** Where the upload stands and whether the row is its own. */
  predicate Stands(s: State, key: Key, phase: Phase, published: bool)
    requires key.AttachmentUpload?
  {
    && InPhase(s, key, phase)
    && (published <==> key.attachment in s.attachments && s.attachments[key.attachment].storageKey == Some(key))
    && (published ==> s.attachments[key.attachment].cipher == key.cipher)
  }

  lemma ForeignStepStands(s: State, step: Step, key: Key, phase: Phase, published: bool)
    requires key.AttachmentUpload? && Stands(s, key, phase, published) && Foreign(step, key)
    ensures Stands(Exec(s, step), key, phase, published)
  {
    hide AfterClaim, AfterCheck, AfterDelete, AfterDrop, AfterDefer, Enqueue, SendPublishable;
  }

  lemma {:induction false} ForeignStepsStand(s: State, steps: seq<Step>, key: Key, phase: Phase, published: bool)
    requires key.AttachmentUpload? && Stands(s, key, phase, published)
    requires forall i :: 0 <= i < |steps| ==> Foreign(steps[i], key)
    ensures Stands(Run(s, steps), key, phase, published)
    decreases |steps|
  {
    hide Exec, Stands, Foreign;
    if steps != [] {
      assert Foreign(steps[0], key);
      ForeignStepStands(s, steps[0], key, phase, published);
      ForeignStepsStand(Exec(s, steps[0]), steps[1..], key, phase, published);
    }
  }

  /** The rest of an upload whose object is stored, with others before its read and before its discard. */
  function Finished(
    s: State, key: Key, details: Id, authorizedAt: int, threw: bool, applied: bool,
    a: seq<Step>, b: seq<Step>, discardedAt: int): State
  {
    var published := Exec(s, PublishUpload(key, details, authorizedAt, threw, applied));
    var verified := Exec(Run(published, a), VerifyUpload(key));
    Exec(Run(verified, b), Discard(key, discardedAt))
  }

  /**
   Whatever others do in between, an attachment upload ends with its row, which holds its key, and its
   object in the store, if the publish found what it needs and did not throw; if the publish went
   through and threw, with both and its key in the queue besides; and otherwise with no row and its
   key in the queue.
   */
  lemma UploadEnds(
    s: State, key: Key, details: Id, authorizedAt: int, threw: bool, applied: bool,
    a: seq<Step>, b: seq<Step>, discardedAt: int)
    requires Reachable(s) && key.AttachmentUpload? && InPhase(s, key, Stored)
    requires forall i :: 0 <= i < |a| ==> Foreign(a[i], key)
    requires forall i :: 0 <= i < |b| ==> Foreign(b[i], key)
    ensures var after := Finished(s, key, details, authorizedAt, threw, applied, a, b, discardedAt);
            var published := Awaited(s, key, details, authorizedAt) && (!threw || applied);
            && InPhase(after, key, Done)
            && (if published then
                  && key.attachment in after.attachments
                  && after.attachments[key.attachment] == Attachment(key.cipher, Some(key))
                  && key in after.objects
                else !(key.attachment in after.attachments && after.attachments[key.attachment].storageKey == Some(key)))
            && (threw || !published ==> key in after.queue)
  {
    hide Run, Reachable;
    ReachableIsSafe(s);
    assert KeyOk(s, key);
    var publish := PublishUpload(key, details, authorizedAt, threw, applied);
    var published := Exec(s, publish);
    var done := Awaited(s, key, details, authorizedAt) && (!threw || applied);
    PublishDecides(s, key, details, authorizedAt, threw, applied);
    assert Stands(published, key, if threw then Discarding else Verifying, done);
    StepKeepsSafe(s, publish);
    hide Exec, Safe;
    ForeignStepsStand(published, a, key, if threw then Discarding else Verifying, done);
    RunKeepsSafe(published, a);
    VerifyDecides(Run(published, a), key, threw, done);
    StepKeepsSafe(Run(published, a), VerifyUpload(key));
    var verified := Exec(Run(published, a), VerifyUpload(key));
    ForeignStepsStand(verified, b, key, if threw || !done then Discarding else Done, done);
    RunKeepsSafe(verified, b);
    DiscardDecides(Run(verified, b), key, threw || !done, done, discardedAt);
    StepKeepsSafe(Run(verified, b), Discard(key, discardedAt));
    HeldIsStored(Exec(Run(verified, b), Discard(key, discardedAt)), key);
  }

  lemma VerifyDecides(s: State, key: Key, threw: bool, published: bool)
    requires key.AttachmentUpload? && Stands(s, key, if threw then Discarding else Verifying, published)
    ensures Stands(Exec(s, VerifyUpload(key)), key, if threw || !published then Discarding else Done, published)
  {
  }

  lemma DiscardDecides(s: State, key: Key, discarding: bool, published: bool, at: int)
    requires key.AttachmentUpload? && Stands(s, key, if discarding then Discarding else Done, published)
    ensures Stands(Exec(s, Discard(key, at)), key, Done, published)
    ensures discarding ==> key in Exec(s, Discard(key, at)).queue
  {
  }

  lemma HeldIsStored(s: State, key: Key)
    requires Safe(s) && key.AttachmentUpload?
    ensures key.attachment in s.attachments && s.attachments[key.attachment].storageKey == Some(key) ==> key in s.objects
  {
    assert KeyOk(s, key);
  }

  /** With nobody in between, that is all that has happened. */
  lemma UploadAlone(s: State, key: Key, details: Id, authorizedAt: int, discardedAt: int)
    requires key.AttachmentUpload? && InPhase(s, key, Stored)
    requires key.attachment in s.attachments ==> s.attachments[key.attachment].storageKey != Some(key)
    ensures var after := Finished(s, key, details, authorizedAt, false, true, [], [], discardedAt);
            if Awaited(s, key, details, authorizedAt) then
              after == s.(attachments := s.attachments[key.attachment := Attachment(key.cipher, Some(key))],
                          pending := s.pending - {key.attachment},
                          uploads := s.uploads[key := Done])
            else
              && after == s.(uploads := s.uploads[key := Done], queue := after.queue, h := after.h)
              && after.queue == if key in s.queue then s.queue else s.queue[key := QueueRow(0, discardedAt)]
  {
    hide AfterPublishUpload, AfterPublishSend, AfterAddSend, AfterChangeSend, AfterRead, AttachmentPublishable, Awaited;
    hide AfterBegin, AfterPut, Replaced;
    hide AfterClaim, AfterCheck, AfterDelete, AfterDrop, AfterDefer, DrainsOnly;
    PublishDecides(s, key, details, authorizedAt, false, true);
  }

  // ---------------------------------------------------------------------------------------
  // Sends
  // ---------------------------------------------------------------------------------------

  /** The Send is the user's, with this file, neither over nor purged, and has the object that was expected. */
  predicate Expected(s: State, key: Key, user: Id, expected: Option<Key>, timestamp: int)
    requires key.SendUpload?
  {
    && key.send in s.sends
    && s.sends[key.send].user == user
    && s.sends[key.send].file == Some(key.file)
    && timestamp < s.sends[key.send].deletionDate
    && s.sends[key.send].purged == false
    && s.sends[key.send].storageKey == expected
  }

  lemma ReplacedTells(s: State, key: Key, expected: Option<Key>, timestamp: int)
    requires key.SendUpload? && key.send in s.sends
    ensures var after := Replaced(s, key, expected, timestamp);
            && after == s.(sends := s.sends[key.send := s.sends[key.send].(storageKey := Some(key))],
                           queue := after.queue, h := after.h)
            && after.queue ==
               if expected.Some? && expected.value !in s.queue then s.queue[expected.value := QueueRow(0, timestamp)] else s.queue
  {
  }

  /**
   The publish moves the Send to its object and queues the one it replaces, in one step, or changes no
   row; and the upload is over, or its own object is on its way to the queue.
   */
  lemma PublishSendDecides(
    s: State, key: Key, user: Id, expected: Option<Key>, timestamp: int, threw: bool, applied: bool)
    requires key.SendUpload? && InPhase(s, key, Stored)
    ensures var after := Exec(s, PublishSend(key, user, expected, timestamp, threw, applied));
            var published := Expected(s, key, user, expected, timestamp) && (!threw || applied);
            && after.uploads == s.uploads[key := if published && !threw then Done else Discarding]
            && after == s.(sends := after.sends, queue := after.queue, uploads := after.uploads, h := after.h)
            && (if published then after.sends == s.sends[key.send := s.sends[key.send].(storageKey := Some(key))]
                else after.sends == s.sends)
            && (if published && expected.Some? && expected.value !in s.queue then
                  after.queue == s.queue[expected.value := QueueRow(0, timestamp)]
                else after.queue == s.queue)
  {
    hide AfterPublishUpload, AfterVerify, AfterDiscard, AfterAddSend, AfterChangeSend, AfterRead, AfterBegin, AfterPut;
    hide AfterClaim, AfterCheck, AfterDelete, AfterDrop, AfterDefer, DrainsOnly, Replaced;
    if key.send in s.sends {
      ReplacedTells(s, key, expected, timestamp);
    }
  }

  /** And if it was not over, its key is queued in the end, whatever others do first. */
  lemma SendUploadEnds(
    s: State, key: Key, user: Id, expected: Option<Key>, timestamp: int, threw: bool, applied: bool,
    a: seq<Step>, discardedAt: int)
    requires Reachable(s) && key.SendUpload? && InPhase(s, key, Stored)
    requires forall i :: 0 <= i < |a| ==> Foreign(a[i], key)
    ensures var published := Exec(s, PublishSend(key, user, expected, timestamp, threw, applied));
            var after := Exec(Run(published, a), Discard(key, discardedAt));
            && InPhase(after, key, Done)
            && (threw || !Expected(s, key, user, expected, timestamp) ==> key in after.queue)
            && (!threw && Expected(s, key, user, expected, timestamp) ==>
                  && key.send in published.sends && published.sends[key.send].storageKey == Some(key)
                  && key in published.objects)
  {
    hide Run, Reachable;
    ReachableIsSafe(s);
    assert KeyOk(s, key);
    PublishSendDecides(s, key, user, expected, timestamp, threw, applied);
    var published := Exec(s, PublishSend(key, user, expected, timestamp, threw, applied));
    ForeignStepsKeepPhase(published, a, key);
  }

  lemma ForeignStepKeepsPhase(s: State, step: Step, key: Key)
    requires Foreign(step, key) && key in s.uploads
    ensures key in Exec(s, step).uploads && Exec(s, step).uploads[key] == s.uploads[key]
  {
    hide AfterClaim, AfterCheck, AfterDelete, AfterDrop, AfterDefer, Enqueue, SendPublishable, AttachmentPublishable;
  }

  lemma {:induction false} ForeignStepsKeepPhase(s: State, steps: seq<Step>, key: Key)
    requires key in s.uploads && forall i :: 0 <= i < |steps| ==> Foreign(steps[i], key)
    ensures key in Run(s, steps).uploads && Run(s, steps).uploads[key] == s.uploads[key]
    decreases |steps|
  {
    hide Exec, Foreign;
    if steps != [] {
      assert Foreign(steps[0], key);
      ForeignStepKeepsPhase(s, steps[0], key);
      ForeignStepsKeepPhase(Exec(s, steps[0]), steps[1..], key);
    }
  }
}
