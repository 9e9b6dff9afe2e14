/**
 Every interleaving of uploads and queue drains (apps/api/src/services/blob-gc.ts:34-153,
 handlers/attachments.ts:234-287, handlers/sends-public.ts:208-235). Each await is one step, any
 client may stop for good between two steps, and a batch that throws may or may not have been
 applied, but it is over when it throws. A step whose turn it is not changes nothing, so every
 sequence of steps is a run.
 */
module BlobRuns {
  import opened Options
  import opened BlobTables

  /** An upload, from drawing its key to knowing that nothing is left to do. */
  datatype Phase = Putting | Stored | Verifying | Discarding | Done

  /** One row's passage through a drain. */
  datatype Stage =
    | Reading
    | Claimed
    | DroppingReferenced
    | Deleting
    | DroppingDeleted
    | Deferring
    | Finished(outcome: Outcome)
    | Aborted

  /** The row as the drain read it, the drain's own clock, and the lifetime of the row it works on. */
  datatype Job = Job(key: Key, row: QueueRow, timestamp: int, lifetime: nat, stage: Stage)

  /** A queue row's content during one of its lifetimes: from being queued to being dropped. */
  datatype Version = Version(key: Key, lifetime: nat, row: QueueRow)

  /** How often each key was queued, which job claimed each version and which job's claim wrote it. */
  datatype History = History(lifetimes: map<Key, nat>, claims: map<Version, Id>, holders: map<Version, Id>)

  datatype State = State(
    attachments: map<Id, Attachment>,
    pending: map<Id, Pending>,
    sends: map<Id, Send>,
    queue: map<Key, QueueRow>,
    objects: set<Key>,
    uploads: map<Key, Phase>,
    jobs: map<Id, Job>,
    h: History)

  datatype Step =
    | BeginUpload(key: Key)
    | PutObject(key: Key, threw: bool, stored: bool)
    | PublishUpload(key: Key, details: Id, authorizedAt: int, threw: bool, applied: bool)
    | VerifyUpload(key: Key)
    | PublishSend(key: Key, user: Id, expected: Option<Key>, timestamp: int, threw: bool, applied: bool)
    | Discard(key: Key, timestamp: int)
    | AddPending(id: Id, row: Pending)
    | DropPending(id: Id)
    | AddSend(id: Id, user: Id, file: Id, deletionDate: int)
    | ChangeSend(id: Id, deletionDate: int, purged: bool)
    | ReadDue(job: Id, key: Key, timestamp: int)
    | Claim(job: Id)
    | CheckReference(job: Id)
    | DeleteObject(job: Id, threw: bool, removed: bool)
    | DropRow(job: Id, threw: bool, applied: bool)
    | DeferRow(job: Id)

  const EMPTY := State(map[], map[], map[], map[], {}, map[], map[], History(map[], map[], map[]))

  /** Before the first upload: rows and objects of any age, but none from an upload, and nothing queued. */
  ghost predicate Initial(s: State) {
    && (forall id :: id in s.attachments ==> s.attachments[id].storageKey == None)
    && (forall id :: id in s.sends ==> s.sends[id].storageKey == None)
    && (forall k :: k in s.objects ==> !k.IsUpload())
    && s == EMPTY.(attachments := s.attachments, pending := s.pending, sends := s.sends, objects := s.objects)
  }

  // ---------------------------------------------------------------------------------------
  // Uploads
  // ---------------------------------------------------------------------------------------

  /** INSERT OR IGNORE; a key that is not queued starts a new lifetime. */
  function Enqueue(s: State, key: Key, timestamp: int): (r: State)
    ensures r == s.(queue := r.queue, h := r.h)
    ensures r.queue.Keys == s.queue.Keys + {key}
  {
    if key in s.queue then s
    else
      var lifetime := if key in s.h.lifetimes then s.h.lifetimes[key] + 1 else 0;
      s.(queue := s.queue[key := QueueRow(0, timestamp)], h := s.h.(lifetimes := s.h.lifetimes[key := lifetime]))
  }

  function WithPhase(s: State, key: Key, phase: Phase): State {
    s.(uploads := s.uploads[key := phase])
  }

  predicate InPhase(s: State, key: Key, phase: Phase) {
    key in s.uploads && s.uploads[key] == phase
  }

  function AfterBegin(s: State, key: Key): State {
    if key.IsUpload() && key !in s.uploads then WithPhase(s, key, Putting) else s
  }

  function AfterPut(s: State, key: Key, threw: bool, stored: bool): State {
    if !InPhase(s, key, Putting) then s
    else WithPhase(if threw && !stored then s else s.(objects := s.objects + {key}), key, if threw then Discarding else Stored)
  }

  function AfterPublishUpload(
    s: State, key: Key, details: Id, authorizedAt: int, threw: bool, applied: bool): State
  {
    if !InPhase(s, key, Stored) || !key.AttachmentUpload? then s
    else
      var runs := !threw || applied;
      var after :=
        if runs && AttachmentPublishable(s.attachments, s.pending, key, details, authorizedAt) then
          s.(attachments := s.attachments[key.attachment := Attachment(key.cipher, Some(key))],
             pending := s.pending - {key.attachment})
        else s;
      WithPhase(after, key, if threw then Discarding else Verifying)
  }

  /** published?.storage_key !== objectKey */
  function AfterVerify(s: State, key: Key): State {
    if !InPhase(s, key, Verifying) || !key.AttachmentUpload? then s
    else
      var published := key.attachment in s.attachments && s.attachments[key.attachment].storageKey == Some(key);
      WithPhase(s, key, if published then Done else Discarding)
  }

  function Replaced(s: State, key: Key, expected: Option<Key>, timestamp: int): (r: State)
    requires key.SendUpload? && key.send in s.sends
    ensures r.sends == s.sends[key.send := s.sends[key.send].(storageKey := Some(key))]
    ensures r.attachments == s.attachments && r.uploads == s.uploads && r.objects == s.objects && r.jobs == s.jobs
    ensures r.queue.Keys == s.queue.Keys + if expected.Some? then {expected.value} else {}
  {
    var after := s.(sends := s.sends[key.send := s.sends[key.send].(storageKey := Some(key))]);
    if expected.Some? then Enqueue(after, expected.value, timestamp) else after
  }

  function AfterPublishSend(
    s: State, key: Key, user: Id, expected: Option<Key>, timestamp: int, threw: bool, applied: bool): State
  {
    if !InPhase(s, key, Stored) || !key.SendUpload? then s
    else
      var published := (!threw || applied) && SendPublishable(s.sends, key, user, expected, timestamp);
      var after := if published then Replaced(s, key, expected, timestamp) else s;
      WithPhase(after, key, if published && !threw then Done else Discarding)
  }

  function AfterDiscard(s: State, key: Key, timestamp: int): State {
    if InPhase(s, key, Discarding) then WithPhase(Enqueue(s, key, timestamp), key, Done) else s
  }

  /** A new file Send names the key its upload will replace; nothing is stored under it. */
  function AfterAddSend(s: State, id: Id, user: Id, file: Id, date: int): State {
    if id in s.sends then s
    else s.(sends := s.sends[id := Send(user, Some(file), date, false, Some(DefaultSend(id, file)))])
  }

  function AfterChangeSend(s: State, id: Id, date: int, purged: bool): State {
    if id in s.sends then s.(sends := s.sends[id := s.sends[id].(deletionDate := date, purged := purged)]) else s
  }

  // ---------------------------------------------------------------------------------------
  // Drains
  // ---------------------------------------------------------------------------------------

  predicate InStage(s: State, job: Id, stage: Stage) {
    job in s.jobs && s.jobs[job].stage == stage
  }

  function WithStage(s: State, job: Id, stage: Stage): State
    requires job in s.jobs
  {
    s.(jobs := s.jobs[job := s.jobs[job].(stage := stage)])
  }

  /** The content a job's claim gave the row. */
  function HeldRow(job: Job): QueueRow {
    QueueRow(job.row.attempts, job.timestamp + CLAIM_SECONDS)
  }

  predicate ClaimStands(s: State, job: Job) {
    job.key in s.queue && s.queue[job.key] == HeldRow(job)
  }

  /** A step of a drain leaves rows, uploads and other jobs alone, and queue and store but for its own key. */
  ghost predicate DrainsOnly(s: State, s': State, job: Id) {
    && s'.attachments == s.attachments && s'.sends == s.sends && s'.uploads == s.uploads
    && s'.jobs.Keys == s.jobs.Keys
    && (forall j :: j in s.jobs && j != job ==> s'.jobs[j] == s.jobs[j])
    && (job in s.jobs ==> s'.jobs[job].key == s.jobs[job].key)
    && (forall k :: k in s'.queue ==> k in s.queue)
    && (forall k :: k in s'.objects ==> k in s.objects)
    && (forall k :: k in s.queue && k !in s'.queue ==>
          job in s.jobs && k == s.jobs[job].key && (s.jobs[job].stage.DroppingReferenced? || s.jobs[job].stage.DroppingDeleted?))
    && (forall k :: k in s.objects && k !in s'.objects ==>
          job in s.jobs && k == s.jobs[job].key && s.jobs[job].stage.Deleting?)
  }

  function AfterRead(s: State, job: Id, key: Key, timestamp: int): (r: State)
    ensures r == s.(jobs := r.jobs)
  {
    if job !in s.jobs && key in s.queue && s.queue[key].nextAt <= timestamp && key in s.h.lifetimes then
      s.(jobs := s.jobs[job := Job(key, s.queue[key], timestamp, s.h.lifetimes[key], Reading)])
    else s
  }

  function AfterClaim(s: State, job: Id): (r: State)
    ensures DrainsOnly(s, r, job)
    ensures r.queue.Keys == s.queue.Keys && r.h.lifetimes == s.h.lifetimes
  {
    if !InStage(s, job, Reading) then s
    else
      var j := s.jobs[job];
      if j.key in s.queue && s.queue[j.key] == j.row && j.key in s.h.lifetimes then
        var lifetime := s.h.lifetimes[j.key];
        s.(queue := s.queue[j.key := HeldRow(j)],
           jobs := s.jobs[job := j.(stage := Claimed, lifetime := lifetime)],
           h := s.h.(claims := s.h.claims[Version(j.key, lifetime, j.row) := job],
                     holders := s.h.holders[Version(j.key, lifetime, HeldRow(j)) := job]))
      else WithStage(s, job, Finished(Contended))
  }

  function AfterCheck(s: State, job: Id): (r: State)
    ensures DrainsOnly(s, r, job)
    ensures r.queue == s.queue && r.h == s.h
  {
    if !InStage(s, job, Claimed) then s
    else WithStage(s, job, if IsReferenced(s.attachments, s.sends, s.jobs[job].key) then DroppingReferenced else Deleting)
  }

  function AfterDelete(s: State, job: Id, threw: bool, removed: bool): (r: State)
    ensures DrainsOnly(s, r, job)
    ensures r.queue == s.queue && r.h == s.h
  {
    if !InStage(s, job, Deleting) then s
    else
      var after := if !threw || removed then s.(objects := s.objects - {s.jobs[job].key}) else s;
      WithStage(after, job, if threw then Deferring else DroppingDeleted)
  }

  /** A referenced row's DELETE that throws ends the drain; a deleted object's is caught and defers. */
  function AfterDrop(s: State, job: Id, threw: bool, applied: bool): (r: State)
    ensures DrainsOnly(s, r, job)
    ensures r.h == s.h
  {
    if !InStage(s, job, DroppingReferenced) && !InStage(s, job, DroppingDeleted) then s
    else
      var j := s.jobs[job];
      var done := ClaimStands(s, j) && (!threw || applied);
      var after := if done then s.(queue := s.queue - {j.key}) else s;
      WithStage(after, job,
        if threw then (if j.stage == DroppingReferenced then Aborted else Deferring)
        else if !done then Finished(Contended)
        else if j.stage == DroppingReferenced then Finished(Referenced)
        else Finished(Deleted))
  }

  function AfterDefer(s: State, job: Id): (r: State)
    ensures DrainsOnly(s, r, job)
    ensures r.queue.Keys == s.queue.Keys && r.h == s.h
  {
    if !InStage(s, job, Deferring) then s
    else
      var j := s.jobs[job];
      if ClaimStands(s, j) then
        WithStage(s.(queue := s.queue[j.key := DeferredRow(HeldRow(j), j.timestamp)]), job, Finished(Deferred))
      else WithStage(s, job, Finished(Contended))
  }

  function Exec(s: State, step: Step): State {
    match step
    case BeginUpload(key) => AfterBegin(s, key)
    case PutObject(key, threw, stored) => AfterPut(s, key, threw, stored)
    case PublishUpload(key, details, at, threw, applied) => AfterPublishUpload(s, key, details, at, threw, applied)
    case VerifyUpload(key) => AfterVerify(s, key)
    case PublishSend(key, user, expected, at, threw, applied) => AfterPublishSend(s, key, user, expected, at, threw, applied)
    case Discard(key, at) => AfterDiscard(s, key, at)
    case AddPending(id, row) => s.(pending := s.pending[id := row])
    case DropPending(id) => s.(pending := s.pending - {id})
    case AddSend(id, user, file, date) => AfterAddSend(s, id, user, file, date)
    case ChangeSend(id, date, purged) => AfterChangeSend(s, id, date, purged)
    case ReadDue(job, key, at) => AfterRead(s, job, key, at)
    case Claim(job) => AfterClaim(s, job)
    case CheckReference(job) => AfterCheck(s, job)
    case DeleteObject(job, threw, removed) => AfterDelete(s, job, threw, removed)
    case DropRow(job, threw, applied) => AfterDrop(s, job, threw, applied)
    case DeferRow(job) => AfterDefer(s, job)
  }

  function Run(s: State, steps: seq<Step>): State
    decreases |steps|
  {
    if steps == [] then s else Run(Exec(s, steps[0]), steps[1..])
  }

  lemma RunAppends(s: State, a: seq<Step>, b: seq<Step>)
    ensures Run(s, a + b) == Run(Run(s, a), b)
    decreases |a|
  {
    if a == [] {
      assert a + b == b;
    } else {
      assert (a + b)[1..] == a[1..] + b;
      RunAppends(Exec(s, a[0]), a[1..], b);
    }
  }

  lemma RunsTwo(s: State, a: Step, b: Step)
    ensures Run(s, [a, b]) == Exec(Exec(s, a), b)
  {
    hide Exec;
    assert [a, b][1..] == [b] && [b][1..] == [];
    assert Run(Exec(s, a), [b]) == Run(Exec(Exec(s, a), b), []);
  }

  lemma RunsThree(s: State, a: Step, b: Step, c: Step)
    ensures Run(s, [a, b, c]) == Exec(Exec(Exec(s, a), b), c)
  {
    hide Exec;
    assert [a, b, c][1..] == [b, c];
    RunsTwo(Exec(s, a), b, c);
  }

  // ---------------------------------------------------------------------------------------
  // References
  // ---------------------------------------------------------------------------------------

  /** A row's storage key names the row it belongs to. */
  ghost predicate RowsOwnKeys(s: State) {
    && (forall id :: id in s.attachments && s.attachments[id].storageKey.Some? ==>
          s.attachments[id].storageKey.value.AttachmentUpload? && s.attachments[id].storageKey.value.attachment == id)
    && (forall id :: id in s.sends && s.sends[id].storageKey.Some? ==>
          var key := s.sends[id].storageKey.value;
          (key.SendUpload? || key.DefaultSend?) && key.send == id && s.sends[id].file.Some?)
  }

  /** The one row that can reference the key does. */
  predicate HeldBy(attachments: map<Id, Attachment>, sends: map<Id, Send>, key: Key) {
    match key
    case DefaultAttachment(cipher, id) => id in attachments && attachments[id] == Attachment(cipher, None)
    case AttachmentUpload(_, id, _) => id in attachments && attachments[id].storageKey == Some(key)
    case DefaultSend(id, file) =>
      && id in sends
      && (sends[id].storageKey == Some(key) || (sends[id].storageKey == None && sends[id].file == Some(file)))
    case SendUpload(id, _, _) => id in sends && sends[id].storageKey == Some(key)
  }

  predicate Holds(s: State, key: Key) {
    HeldBy(s.attachments, s.sends, key)
  }

  lemma ReferencedIffHeld(s: State, key: Key)
    requires RowsOwnKeys(s)
    ensures IsReferenced(s.attachments, s.sends, key) <==> Holds(s, key)
  {
  }

  // ---------------------------------------------------------------------------------------
  // The safety invariant, key by key
  // ---------------------------------------------------------------------------------------

  /** No row will start to reference the key: its publish is over, or its Send has moved on. */
  predicate Retired(s: State, key: Key) {
    match key
    case DefaultAttachment(_, _) => false
    case DefaultSend(id, _) => MovedOn(s.sends, id)
    case _ => key in s.uploads && s.uploads[key] != Putting && s.uploads[key] != Stored
  }

  predicate MovedOn(sends: map<Id, Send>, id: Id) {
    id in sends && sends[id].storageKey.Some? && sends[id].storageKey.value.SendUpload?
  }

  predicate KeyOk(s: State, key: Key) {
    && (key in s.uploads ==> key.IsUpload())
    && (InPhase(s, key, Putting) ==> key !in s.objects)
    && (InPhase(s, key, Stored) ==> key in s.objects)
    && (key.IsUpload() && Holds(s, key) ==> Retired(s, key) && key in s.objects)
    && (key in s.queue ==> Retired(s, key))
    && (key.IsUpload() && key !in s.uploads ==> key !in s.objects)
    && (key.AttachmentUpload? && key in s.objects && InPhase(s, key, Done) ==> Holds(s, key) || key in s.queue)
  }

  predicate JobOk(s: State, job: Job) {
    && Retired(s, job.key)
    && (job.stage.Deleting? || job.stage.DroppingDeleted? ==> !Holds(s, job.key))
    && (job.stage.DroppingDeleted? ==> job.key !in s.objects)
    && (job.stage.DroppingReferenced? && job.key.AttachmentUpload? ==> Holds(s, job.key))
  }

  /** What a drain has found out about a retired key stays so. */
  predicate StaysRetired(s: State, s': State, k: Key) {
    && Retired(s', k)
    && (!Holds(s, k) ==> !Holds(s', k))
    && (k.AttachmentUpload? && Holds(s, k) ==> Holds(s', k))
    && (k !in s.objects ==> k !in s'.objects)
  }

  predicate KeyStays(s: State, s': State, k: Key) {
    KeyOk(s', k) && (Retired(s, k) ==> StaysRetired(s, s', k))
  }

  ghost predicate Safe(s: State) {
    && RowsOwnKeys(s)
    && (forall k: Key :: KeyOk(s, k))
    && (forall j :: j in s.jobs ==> JobOk(s, s.jobs[j]))
  }

  // ---------------------------------------------------------------------------------------
  // Rows and keys under each step
  // ---------------------------------------------------------------------------------------

  lemma PublishSendKeepsRows(
    s: State, key: Key, user: Id, expected: Option<Key>, at: int, threw: bool, applied: bool)
    requires RowsOwnKeys(s)
    ensures RowsOwnKeys(AfterPublishSend(s, key, user, expected, at, threw, applied))
  {
    hide Replaced, DrainsOnly;
  }

  lemma StepKeepsRows(s: State, step: Step)
    requires RowsOwnKeys(s)
    ensures RowsOwnKeys(Exec(s, step))
  {
    hide AfterPublishSend, AfterClaim, AfterCheck, AfterDelete, AfterDrop, AfterDefer;
    hide Enqueue, SendPublishable, AttachmentPublishable;
    match step
    case PublishSend(key, user, expected, at, threw, applied) =>
      PublishSendKeepsRows(s, key, user, expected, at, threw, applied);
    case _ =>
  }

  lemma PutKeepsKey(s: State, key: Key, threw: bool, stored: bool, k: Key)
    requires KeyOk(s, k)
    ensures KeyStays(s, AfterPut(s, key, threw, stored), k)
  {
  }

  lemma PublishUploadKeepsKey(s: State, key: Key, details: Id, at: int, threw: bool, applied: bool, k: Key)
    requires KeyOk(s, k)
    ensures KeyStays(s, AfterPublishUpload(s, key, details, at, threw, applied), k)
  {
    hide MovedOn;
  }

  lemma VerifyKeepsKey(s: State, key: Key, k: Key)
    requires KeyOk(s, k)
    ensures KeyStays(s, AfterVerify(s, key), k)
  {
  }

  lemma PublishSendKeepsKey(
    s: State, key: Key, user: Id, expected: Option<Key>, at: int, threw: bool, applied: bool, k: Key)
    requires RowsOwnKeys(s) && KeyOk(s, k)
    ensures KeyStays(s, AfterPublishSend(s, key, user, expected, at, threw, applied), k)
  {
    hide Replaced, DrainsOnly;
  }

  lemma DiscardKeepsKey(s: State, key: Key, at: int, k: Key)
    requires KeyOk(s, k)
    ensures KeyStays(s, AfterDiscard(s, key, at), k)
  {
    hide HeldBy, MovedOn;
    hide Enqueue;
  }

  lemma BeginKeepsKey(s: State, key: Key, k: Key)
    requires KeyOk(s, k)
    ensures KeyStays(s, AfterBegin(s, key), k)
  {
    hide HeldBy, MovedOn;
  }

  lemma AddSendKeepsKey(s: State, id: Id, user: Id, file: Id, date: int, k: Key)
    requires KeyOk(s, k)
    ensures KeyStays(s, AfterAddSend(s, id, user, file, date), k)
  {
  }

  lemma ChangeSendKeepsKey(s: State, id: Id, date: int, purged: bool, k: Key)
    requires KeyOk(s, k)
    ensures KeyStays(s, AfterChangeSend(s, id, date, purged), k)
  {
  }

  lemma PendingKeepsKey(s: State, pending: map<Id, Pending>, k: Key)
    requires KeyOk(s, k)
    ensures KeyStays(s, s.(pending := pending), k)
  {
  }

  lemma DrainingKeepsKey(s: State, s': State, job: Id, k: Key)
    requires KeyOk(s, k) && DrainsOnly(s, s', job)
    requires job in s.jobs ==> JobOk(s, s.jobs[job])
    ensures KeyStays(s, s', k)
  {
  }

  function ActingJob(step: Step): Option<Id> {
    match step
    case Claim(j) => Some(j)
    case CheckReference(j) => Some(j)
    case DeleteObject(j, _, _) => Some(j)
    case DropRow(j, _, _) => Some(j)
    case DeferRow(j) => Some(j)
    case _ => None
  }

  lemma StepKeepsKey(s: State, step: Step, k: Key)
    requires RowsOwnKeys(s) && KeyOk(s, k)
    requires ActingJob(step).Some? && ActingJob(step).value in s.jobs ==> JobOk(s, s.jobs[ActingJob(step).value])
    ensures KeyStays(s, Exec(s, step), k)
  {
    hide KeyOk, KeyStays, JobOk, DrainsOnly, AfterPut, AfterPublishUpload, AfterVerify, AfterPublishSend, AfterDiscard;
    hide AfterBegin, AfterAddSend, AfterChangeSend, AfterRead, AfterClaim, AfterCheck, AfterDelete, AfterDrop, AfterDefer;
    match step
    case PutObject(key, threw, stored) => PutKeepsKey(s, key, threw, stored, k);
    case PublishUpload(key, details, at, threw, applied) => PublishUploadKeepsKey(s, key, details, at, threw, applied, k);
    case VerifyUpload(key) => VerifyKeepsKey(s, key, k);
    case PublishSend(key, user, expected, at, threw, applied) =>
      PublishSendKeepsKey(s, key, user, expected, at, threw, applied, k);
    case Discard(key, at) => DiscardKeepsKey(s, key, at, k);
    case ReadDue(job, key, at) => ReadKeepsKey(s, job, key, at, k);
    case BeginUpload(key) => BeginKeepsKey(s, key, k);
    case AddSend(id, user, file, date) => AddSendKeepsKey(s, id, user, file, date, k);
    case ChangeSend(id, date, purged) => ChangeSendKeepsKey(s, id, date, purged, k);
    case AddPending(_, _) => PendingKeepsKey(s, Exec(s, step).pending, k);
    case DropPending(_) => PendingKeepsKey(s, Exec(s, step).pending, k);
    case _ => ActingKeepsKey(s, step, k);
  }

  lemma ReadKeepsKey(s: State, job: Id, key: Key, at: int, k: Key)
    requires KeyOk(s, k)
    ensures KeyStays(s, AfterRead(s, job, key, at), k)
  {
  }

  lemma ActingKeepsKey(s: State, step: Step, k: Key)
    requires KeyOk(s, k) && ActingJob(step).Some?
    requires ActingJob(step).value in s.jobs ==> JobOk(s, s.jobs[ActingJob(step).value])
    ensures KeyStays(s, Exec(s, step), k)
  {
    hide KeyOk, KeyStays, JobOk, DrainsOnly, AfterClaim, AfterCheck, AfterDelete, AfterDrop, AfterDefer;
    DrainingKeepsKey(s, Exec(s, step), ActingJob(step).value, k);
  }

  // ---------------------------------------------------------------------------------------
  // Drains under each step
  // ---------------------------------------------------------------------------------------

  lemma ClaimKeepsJob(s: State, job: Id)
    requires job in s.jobs && JobOk(s, s.jobs[job])
    ensures JobOk(AfterClaim(s, job), AfterClaim(s, job).jobs[job])
  {
  }

  lemma CheckKeepsJob(s: State, job: Id)
    requires RowsOwnKeys(s) && job in s.jobs && JobOk(s, s.jobs[job])
    ensures JobOk(AfterCheck(s, job), AfterCheck(s, job).jobs[job])
  {
    hide IsReferenced;
    ReferencedIffHeld(s, s.jobs[job].key);
  }

  lemma DeleteKeepsJob(s: State, job: Id, threw: bool, removed: bool)
    requires job in s.jobs && JobOk(s, s.jobs[job])
    ensures JobOk(AfterDelete(s, job, threw, removed), AfterDelete(s, job, threw, removed).jobs[job])
  {
  }

  lemma DropKeepsJob(s: State, job: Id, threw: bool, applied: bool)
    requires job in s.jobs && JobOk(s, s.jobs[job])
    ensures JobOk(AfterDrop(s, job, threw, applied), AfterDrop(s, job, threw, applied).jobs[job])
  {
  }

  lemma DeferKeepsJob(s: State, job: Id)
    requires job in s.jobs && JobOk(s, s.jobs[job])
    ensures JobOk(AfterDefer(s, job), AfterDefer(s, job).jobs[job])
  {
  }

  lemma ActingKeepsJob(s: State, step: Step)
    requires RowsOwnKeys(s) && ActingJob(step).Some? && ActingJob(step).value in s.jobs
    requires JobOk(s, s.jobs[ActingJob(step).value])
    ensures JobOk(Exec(s, step), Exec(s, step).jobs[ActingJob(step).value])
  {
    hide JobOk, AfterClaim, AfterCheck, AfterDelete, AfterDrop, AfterDefer;
    match step
    case Claim(job) => ClaimKeepsJob(s, job);
    case CheckReference(job) => CheckKeepsJob(s, job);
    case DeleteObject(job, threw, removed) => DeleteKeepsJob(s, job, threw, removed);
    case DropRow(job, threw, applied) => DropKeepsJob(s, job, threw, applied);
    case DeferRow(job) => DeferKeepsJob(s, job);
  }

  lemma BystanderStays(s: State, step: Step, j: Id)
    requires j in s.jobs && ActingJob(step) != Some(j)
    ensures j in Exec(s, step).jobs && Exec(s, step).jobs[j] == s.jobs[j]
  {
    hide AfterClaim, AfterCheck, AfterDelete, AfterDrop, AfterDefer, Enqueue, SendPublishable, AttachmentPublishable;
  }

  lemma NewJobIsOk(s: State, step: Step, j: Id)
    requires j !in s.jobs && j in Exec(s, step).jobs && (step.ReadDue? ==> KeyOk(s, step.key))
    ensures JobOk(Exec(s, step), Exec(s, step).jobs[j])
  {
    hide AfterClaim, AfterCheck, AfterDelete, AfterDrop, AfterDefer, Enqueue, SendPublishable, AttachmentPublishable;
  }

  lemma StepKeepsJob(s: State, step: Step, j: Id)
    requires RowsOwnKeys(s) && j in Exec(s, step).jobs
    requires j in s.jobs ==> JobOk(s, s.jobs[j]) && KeyOk(s, s.jobs[j].key)
    requires step.ReadDue? ==> KeyOk(s, step.key)
    requires ActingJob(step).Some? && ActingJob(step).value in s.jobs ==> JobOk(s, s.jobs[ActingJob(step).value])
    ensures JobOk(Exec(s, step), Exec(s, step).jobs[j])
  {
    hide Exec, KeyOk, RowsOwnKeys, Retired, Holds;
    if j in s.jobs && ActingJob(step) == Some(j) {
      ActingKeepsJob(s, step);
    } else if j in s.jobs {
      BystanderStays(s, step, j);
      StepKeepsKey(s, step, s.jobs[j].key);
    } else {
      NewJobIsOk(s, step, j);
    }
  }

  lemma StepKeepsSafe(s: State, step: Step)
    requires Safe(s)
    ensures Safe(Exec(s, step))
  {
    hide RowsOwnKeys, KeyOk, JobOk, Exec, ActingJob, StaysRetired;
    StepKeepsRows(s, step);
    forall k: Key
      ensures KeyOk(Exec(s, step), k)
    {
      StepKeepsKey(s, step, k);
    }
    forall j | j in Exec(s, step).jobs
      ensures JobOk(Exec(s, step), Exec(s, step).jobs[j])
    {
      StepKeepsJob(s, step, j);
    }
  }

  lemma {:induction false} RunKeepsSafe(s: State, steps: seq<Step>)
    requires Safe(s)
    ensures Safe(Run(s, steps))
    decreases |steps|
  {
    hide Safe, Exec;
    if steps != [] {
      StepKeepsSafe(s, steps[0]);
      RunKeepsSafe(Exec(s, steps[0]), steps[1..]);
    }
  }

  // ---------------------------------------------------------------------------------------
  // What the collector promises
  // ---------------------------------------------------------------------------------------

  /** Some interleaving leads here from a start without uploads. */
  ghost predicate Reachable(s: State) {
    exists start, steps :: Initial(start) && Run(start, steps) == s
  }

  lemma InitialIsSafe(s: State)
    requires Initial(s)
    ensures Safe(s)
  {
  }

  lemma ReachableIsSafe(s: State)
    requires Reachable(s)
    ensures Safe(s)
  {
    hide Exec, Safe, Initial;
    var start, steps :| Initial(start) && Run(start, steps) == s;
    InitialIsSafe(start);
    RunKeepsSafe(start, steps);
  }

  /**
   In every reachable state each uploaded object that a row references is in the store, and no
   drain that is about to delete an object has a row that references it.
   */
  lemma ReferencedObjectsAreNeverDeleted(s: State)
    requires Reachable(s)
    ensures forall k: Key :: k.IsUpload() && IsReferenced(s.attachments, s.sends, k) ==> k in s.objects
    ensures forall j :: j in s.jobs && s.jobs[j].stage.Deleting? ==> !IsReferenced(s.attachments, s.sends, s.jobs[j].key)
  {
    hide Reachable, IsReferenced;
    ReachableIsSafe(s);
    forall k: Key
      ensures IsReferenced(s.attachments, s.sends, k) <==> Holds(s, k)
      ensures KeyOk(s, k)
    {
      ReferencedIffHeld(s, k);
    }
  }

  /** No attachment is leaked: once its upload is done, a stored object is referenced or queued. */
  lemma StoredAttachmentsAreTracked(s: State, k: Key)
    requires Reachable(s) && k.AttachmentUpload? && k in s.objects && InPhase(s, k, Done)
    ensures IsReferenced(s.attachments, s.sends, k) || k in s.queue
  {
    hide Reachable, IsReferenced;
    ReachableIsSafe(s);
    ReferencedIffHeld(s, k);
    assert KeyOk(s, k);
  }

  // ---------------------------------------------------------------------------------------
  // A drain alone
  // ---------------------------------------------------------------------------------------

  function SoloSteps(job: Id, fate: Outcome): seq<Step> {
    match fate
    case Contended => [Claim(job)]
    case Referenced => [Claim(job), CheckReference(job)] + [DropRow(job, false, true)]
    case Deferred => [Claim(job), CheckReference(job)] + [DeleteObject(job, true, false), DeferRow(job)]
    case Deleted => [Claim(job), CheckReference(job)] + [DeleteObject(job, false, true), DropRow(job, false, true)]
  }

  /** Holding its claim on an otherwise unchanged queue. */
  predicate ClaimedFrom(s: State, s': State, job: Id, stage: Stage)
    requires job in s.jobs
  {
    && s'.attachments == s.attachments && s'.sends == s.sends && s'.objects == s.objects
    && job in s'.jobs && s'.jobs[job] == s.jobs[job].(stage := stage, lifetime := s'.jobs[job].lifetime)
    && s'.queue == s.queue[s.jobs[job].key := HeldRow(s.jobs[job])]
  }

  lemma SoloClaim(s: State, job: Id)
    requires InStage(s, job, Reading) && s.jobs[job].key in s.h.lifetimes
    requires s.jobs[job].key in s.queue && s.queue[s.jobs[job].key] == s.jobs[job].row
    ensures ClaimedFrom(s, Exec(s, Claim(job)), job, Claimed)
  {
  }

  lemma SoloCheck(s: State, s': State, job: Id)
    requires job in s.jobs && ClaimedFrom(s, s', job, Claimed)
    ensures ClaimedFrom(s, Exec(s', CheckReference(job)), job,
              if IsReferenced(s.attachments, s.sends, s.jobs[job].key) then DroppingReferenced else Deleting)
  {
  }

  predicate Drained(s: State, s': State, job: Id, fate: Outcome)
    requires job in s.jobs && (fate == Deferred ==> s.jobs[job].key in s.queue)
  {
    && Queued(s'.queue, s'.objects) == DrainedRow(Queued(s.queue, s.objects), s.jobs[job].key, s.jobs[job].timestamp, fate)
    && InStage(s', job, Finished(fate))
  }

  lemma SoloReferenced(s: State, s': State, job: Id)
    requires job in s.jobs && ClaimedFrom(s, s', job, DroppingReferenced) && s.jobs[job].key in s.queue
    ensures Drained(s, Run(s', [DropRow(job, false, true)]), job, Referenced)
  {
    assert [DropRow(job, false, true)][1..] == [];
  }

  lemma SoloRefused(s: State, s': State, job: Id)
    requires job in s.jobs && ClaimedFrom(s, s', job, Deleting)
    requires s.jobs[job].key in s.queue && s.queue[s.jobs[job].key] == s.jobs[job].row
    ensures Drained(s, Run(s', [DeleteObject(job, true, false), DeferRow(job)]), job, Deferred)
  {
    hide RetryAt, DrainsOnly, Run;
    RunsTwo(s', DeleteObject(job, true, false), DeferRow(job));
  }

  lemma SoloDeleted(s: State, s': State, job: Id)
    requires job in s.jobs && ClaimedFrom(s, s', job, Deleting) && s.jobs[job].key in s.queue
    ensures Drained(s, Run(s', [DeleteObject(job, false, true), DropRow(job, false, true)]), job, Deleted)
  {
    hide DrainsOnly, Run;
    RunsTwo(s', DeleteObject(job, false, true), DropRow(job, false, true));
  }

  lemma SoloContended(s: State, job: Id)
    requires InStage(s, job, Reading)
    requires !(s.jobs[job].key in s.queue && s.queue[s.jobs[job].key] == s.jobs[job].row)
    ensures Drained(s, Run(s, [Claim(job)]), job, Contended)
  {
    assert [Claim(job)][1..] == [];
  }

  /** What a drain of this one row finds. */
  function SceneOf(s: State, job: Id, refused: set<Key>): Scene
    requires job in s.jobs
  {
    Scene(s.attachments, s.sends, s.queue, map[s.jobs[job].key := s.jobs[job].row], refused)
  }

  /** The steps of one row, run without interference, do what one pass of the drain's loop does. */
  lemma SoloDrain(s: State, job: Id, refused: set<Key>)
    requires InStage(s, job, Reading) && (s.jobs[job].key in s.queue ==> s.jobs[job].key in s.h.lifetimes)
    ensures var fate := Fate(SceneOf(s, job, refused), s.jobs[job].key);
            && (fate == Deferred ==> s.jobs[job].key in s.queue)
            && Drained(s, Run(s, SoloSteps(job, fate)), job, fate)
  {
    hide Exec, Run, IsReferenced, Drained, ClaimedFrom;
    var fate := Fate(SceneOf(s, job, refused), s.jobs[job].key);
    if fate == Contended {
      SoloContended(s, job);
    } else {
      var start := [Claim(job), CheckReference(job)];
      RunsTwo(s, Claim(job), CheckReference(job));
      SoloClaim(s, job);
      SoloCheck(s, Exec(s, Claim(job)), job);
      match fate
      case Referenced =>
        RunAppends(s, start, [DropRow(job, false, true)]);
        SoloReferenced(s, Run(s, start), job);
      case Deferred =>
        RunAppends(s, start, [DeleteObject(job, true, false), DeferRow(job)]);
        SoloRefused(s, Run(s, start), job);
      case Deleted =>
        RunAppends(s, start, [DeleteObject(job, false, true), DropRow(job, false, true)]);
        SoloDeleted(s, Run(s, start), job);
    }
  }
}
