/**
 The blob garbage collector's tables and statements (apps/api/src/services/blob-gc.ts,
 services/sends/file-storage.ts and services/db/batch/attachments.ts): which rows reference an
 object, how uploads publish and enqueue, and one drain of the queue run from start to end.
 */
module BlobTables {
  import opened Options

  const BATCH_LIMIT := 100
  const CLAIM_SECONDS := 900

  /** Upload keys end in a fresh UUID; default keys belong to rows without a storage key and to new Sends. */
  datatype Key =
    | DefaultAttachment(cipher: Id, attachment: Id)
    | DefaultSend(send: Id, file: Id)
    | AttachmentUpload(cipher: Id, attachment: Id, nonce: Id)
    | SendUpload(send: Id, file: Id, nonce: Id)
  {
    predicate IsUpload() {
      AttachmentUpload? || SendUpload?
    }
  }

  datatype Attachment = Attachment(cipher: Id, storageKey: Option<Key>)

  /** An upload the client may still finish; details stands for its file name, key and size. */
  datatype Pending = Pending(cipher: Id, details: Id, expiresAt: int)

  /** The file is None for text Sends and for data without a textual id. */
  datatype Send = Send(user: Id, file: Option<Id>, deletionDate: int, purged: bool, storageKey: Option<Key>)

  datatype QueueRow = QueueRow(attempts: nat, nextAt: int)

  function AttachmentKey(id: Id, row: Attachment): Key {
    row.storageKey.GetOr(DefaultAttachment(row.cipher, id))
  }

  function SendKey(id: Id, row: Send): Option<Key> {
    if row.file.Some? then Some(row.storageKey.GetOr(DefaultSend(id, row.file.value))) else None
  }

  predicate IsReferenced(attachments: map<Id, Attachment>, sends: map<Id, Send>, key: Key) {
    || (exists id :: id in attachments && AttachmentKey(id, attachments[id]) == key)
    || (exists id :: id in sends && SendKey(id, sends[id]) == Some(key))
  }

  function Pow2(n: nat): (r: nat)
    ensures r >= 1
  {
    if n == 0 then 1 else 2 * Pow2(n - 1)
  }

  function RetryAt(timestamp: int, attempts: nat): int {
    var delay := 60 * Pow2(if attempts < 10 then attempts else 10);
    timestamp + if delay < 86400 then delay else 86400
  }

  lemma {:induction false} Pow2Monotone(m: nat, n: nat)
    requires m <= n
    ensures Pow2(m) <= Pow2(n)
    decreases n
  {
    if m < n {
      Pow2Monotone(m, n - 1);
    }
  }

  /**
   Retries back off from two minutes to seventeen hours and four minutes, never sooner than after the
   attempt before; the cap of a day is never reached.
   */
  lemma RetryBacksOff(timestamp: int, attempts: nat)
    requires attempts >= 1
    ensures timestamp + 120 <= RetryAt(timestamp, attempts) <= RetryAt(timestamp, attempts + 1) <= timestamp + 61440
    ensures attempts >= 10 ==> RetryAt(timestamp, attempts) == timestamp + 61440
  {
    var a, b := if attempts < 10 then attempts else 10, if attempts + 1 < 10 then attempts + 1 else 10;
    Pow2Monotone(1, a);
    Pow2Monotone(a, b);
    Pow2Monotone(b, 10);
    assert Pow2(1) == 2 && Pow2(10) == 1024 by {
      assert Pow2(5) == 32;
    }
  }

  /** INSERT OR IGNORE. */
  function Enqueued(queue: map<Key, QueueRow>, key: Key, timestamp: int): map<Key, QueueRow> {
    if key in queue then queue else queue[key := QueueRow(0, timestamp)]
  }

  // ---------------------------------------------------------------------------------------
  // Publishing
  // ---------------------------------------------------------------------------------------

  predicate AttachmentPublishable(
    attachments: map<Id, Attachment>, pending: map<Id, Pending>, key: Key, details: Id, authorizedAt: int)
  {
    && key.AttachmentUpload?
    && key.attachment in pending
    && pending[key.attachment].cipher == key.cipher
    && pending[key.attachment].details == details
    && pending[key.attachment].expiresAt > authorizedAt
    && key.attachment !in attachments
  }

  predicate SendPublishable(sends: map<Id, Send>, key: Key, user: Id, expected: Option<Key>, timestamp: int) {
    && key.SendUpload?
    && key.send in sends
    && var row := sends[key.send];
       && row.user == user
       && row.file == Some(key.file)
       && row.deletionDate > timestamp
       && !row.purged
       && row.storageKey == expected
  }

  // ---------------------------------------------------------------------------------------
  // The drain, alone
  // ---------------------------------------------------------------------------------------

  datatype Outcome = Deleted | Referenced | Deferred | Contended

  datatype BlobGcResult = BlobGcResult(deleted: nat, referenced: nat, deferred: nat, contended: nat)

  /** What the SELECT handed the drain some time ago: distinct rows that were due, at most BATCH_LIMIT of them. */
  ghost predicate Selected(rows: seq<Key>, read: map<Key, QueueRow>, timestamp: int) {
    && |rows| <= BATCH_LIMIT
    && (forall i, j :: 0 <= i < j < |rows| ==> rows[i] != rows[j])
    && (forall i :: 0 <= i < |rows| ==> rows[i] in read && read[rows[i]].nextAt <= timestamp)
  }

  /** What a drain finds: the rows that can reference, the queue, what it had read of it, and what the store refuses. */
  datatype Scene = Scene(
    attachments: map<Id, Attachment>, sends: map<Id, Send>, queue: map<Key, QueueRow>, read: map<Key, QueueRow>,
    refused: set<Key>)

  /** What becomes of one row that nobody touches while it is drained. */
  ghost function Fate(at: Scene, key: Key): Outcome
    requires key in at.read
  {
    if key !in at.queue || at.queue[key] != at.read[key] then Contended
    else if IsReferenced(at.attachments, at.sends, key) then Referenced
    else if key in at.refused then Deferred
    else Deleted
  }

  ghost function KeysWith(at: Scene, keys: set<Key>, outcome: Outcome): set<Key>
    requires keys <= at.read.Keys
  {
    set key | key in keys && Fate(at, key) == outcome
  }

  lemma KeysWithExtends(at: Scene, keys: set<Key>, key: Key, outcome: Outcome)
    requires keys <= at.read.Keys && key in at.read && key !in keys
    ensures |KeysWith(at, keys + {key}, outcome)| == |KeysWith(at, keys, outcome)| + if Fate(at, key) == outcome then 1 else 0
  {
    hide Fate;
    if Fate(at, key) == outcome {
      assert KeysWith(at, keys + {key}, outcome) == KeysWith(at, keys, outcome) + {key};
    } else {
      assert KeysWith(at, keys + {key}, outcome) == KeysWith(at, keys, outcome);
    }
  }

  /** The queue row a drained key is left with. */
  function DeferredRow(row: QueueRow, timestamp: int): QueueRow {
    QueueRow(row.attempts + 1, RetryAt(timestamp, row.attempts + 1))
  }

  datatype Queued = Queued(queue: map<Key, QueueRow>, objects: set<Key>)

  /** One row's drain: a contended row is somebody else's and stays as it is. */
  function DrainedRow(at: Queued, key: Key, timestamp: int, outcome: Outcome): Queued
    requires outcome == Deferred ==> key in at.queue
  {
    match outcome
    case Contended => at
    case Deferred => at.(queue := at.queue[key := DeferredRow(at.queue[key], timestamp)])
    case Referenced => at.(queue := at.queue - {key})
    case Deleted => Queued(at.queue - {key}, at.objects - {key})
  }

  /**
   The referenced rows and the deleted ones have left the queue, the refused ones are deferred,
   and the contended ones and all others are as they were.
   */
  ghost predicate QueueDrained(at: Scene, timestamp: int, keys: set<Key>, before: Queued, after: Queued)
    requires keys <= at.read.Keys
  {
    && (forall k :: k in after.queue <==>
          k in before.queue && (k in keys ==> Fate(at, k) == Deferred || Fate(at, k) == Contended))
    && (forall k :: k in after.queue ==>
          after.queue[k] ==
          if k in keys && Fate(at, k) == Deferred then DeferredRow(before.queue[k], timestamp) else before.queue[k])
    && (forall k :: k in after.objects <==> k in before.objects && (k in keys ==> Fate(at, k) != Deleted))
  }

  /** Every drained key was counted once, under what became of it. */
  ghost predicate KeysCounted(at: Scene, keys: set<Key>, result: BlobGcResult)
    requires keys <= at.read.Keys
  {
    && result.deleted == |KeysWith(at, keys, Deleted)|
    && result.referenced == |KeysWith(at, keys, Referenced)|
    && result.deferred == |KeysWith(at, keys, Deferred)|
    && result.contended == |KeysWith(at, keys, Contended)|
    && Total(result) == |keys|
  }

  function Total(result: BlobGcResult): nat {
    result.deleted + result.referenced + result.deferred + result.contended
  }

  function Counted(result: BlobGcResult, outcome: Outcome): (r: BlobGcResult)
    ensures Total(r) == Total(result) + 1
  {
    match outcome
    case Deleted => result.(deleted := result.deleted + 1)
    case Referenced => result.(referenced := result.referenced + 1)
    case Deferred => result.(deferred := result.deferred + 1)
    case Contended => result.(contended := result.contended + 1)
  }

  lemma QueueDrainedExtends(at: Scene, timestamp: int, keys: set<Key>, before: Queued, after: Queued, key: Key)
    requires keys <= at.read.Keys && key in at.read && key !in keys && before.queue == at.queue
    requires QueueDrained(at, timestamp, keys, before, after)
    ensures key in after.queue <==> key in at.queue
    ensures key in after.queue ==> after.queue[key] == at.queue[key]
    ensures QueueDrained(at, timestamp, keys + {key}, before, DrainedRow(after, key, timestamp, Fate(at, key)))
  {
    hide IsReferenced, DeferredRow;
  }

  lemma KeysCountedExtends(at: Scene, keys: set<Key>, result: BlobGcResult, key: Key)
    requires keys <= at.read.Keys && key in at.read && key !in keys && KeysCounted(at, keys, result)
    ensures KeysCounted(at, keys + {key}, Counted(result, Fate(at, key)))
  {
    hide Fate, KeysWith;
    KeysWithExtends(at, keys, key, Deleted);
    KeysWithExtends(at, keys, key, Referenced);
    KeysWithExtends(at, keys, key, Deferred);
    KeysWithExtends(at, keys, key, Contended);
  }

  lemma NothingDrained(at: Scene, timestamp: int, before: Queued)
    ensures QueueDrained(at, timestamp, {}, before, before)
    ensures KeysCounted(at, {}, BlobGcResult(0, 0, 0, 0))
  {
  }

  class BlobStorage {
    var attachments: map<Id, Attachment>
    var pending: map<Id, Pending>
    var sends: map<Id, Send>
    var queue: map<Key, QueueRow>
    var objects: set<Key>

    constructor ()
      ensures attachments == map[] && pending == map[] && sends == map[] && queue == map[] && objects == {}
    {
      attachments, pending, sends, queue, objects := map[], map[], map[], map[], {};
    }

    /** One statement per distinct key; a key already queued keeps its row. */
    method EnqueueBlobGcKeys(keys: seq<Key>, timestamp: int)
      modifies this`queue
      ensures queue.Keys == old(queue).Keys + set k | k in keys
      ensures forall k :: k in queue ==> queue[k] == if k in old(queue) then old(queue)[k] else QueueRow(0, timestamp)
    {
      var i := 0;
      while i < |keys|
        invariant 0 <= i <= |keys|
        invariant queue.Keys == old(queue).Keys + set k | k in keys[..i]
        invariant forall k :: k in queue ==> queue[k] == if k in old(queue) then old(queue)[k] else QueueRow(0, timestamp)
      {
        if keys[i] !in queue {
          queue := queue[keys[i] := QueueRow(0, timestamp)];
        }
        i := i + 1;
      }
      assert keys[..i] == keys;
    }

    /** The attachment becomes visible exactly when its pending upload goes. */
    method PublishAttachment(key: Key, details: Id, authorizedAt: int)
      requires key.AttachmentUpload?
      requires forall id :: id in attachments ==> attachments[id].storageKey != Some(key)
      modifies this`attachments, this`pending
      ensures var ok := AttachmentPublishable(old(attachments), old(pending), key, details, authorizedAt);
              && attachments ==
                 (if ok then old(attachments)[key.attachment := Attachment(key.cipher, Some(key))] else old(attachments))
              && pending == (if ok then old(pending) - {key.attachment} else old(pending))
    {
      var id := key.attachment;
      if id in pending && pending[id].cipher == key.cipher && pending[id].details == details
         && pending[id].expiresAt > authorizedAt && id !in attachments {
        attachments := attachments[id := Attachment(pending[id].cipher, Some(key))];
      }
      if id in attachments && attachments[id].storageKey == Some(key) {
        pending := pending - {id};
      }
    }

    /** The swap of a Send's object queues the object it replaced, and fails without a trace. */
    method PublishSendFileObject(key: Key, user: Id, expected: Option<Key>, timestamp: int) returns (published: bool)
      requires key.SendUpload? && expected != Some(key)
      requires forall id :: id in sends ==> sends[id].storageKey != Some(key)
      modifies this`sends, this`queue
      ensures published <==> SendPublishable(old(sends), key, user, expected, timestamp)
      ensures sends ==
              if published then old(sends)[key.send := old(sends)[key.send].(storageKey := Some(key))] else old(sends)
      ensures queue ==
              if published && expected.Some? then Enqueued(old(queue), expected.value, timestamp) else old(queue)
    {
      var id := key.send;
      published := id in sends && sends[id].user == user && sends[id].file == Some(key.file)
        && sends[id].deletionDate > timestamp && !sends[id].purged && sends[id].storageKey == expected;
      if published {
        sends := sends[id := sends[id].(storageKey := Some(key))];
      }
      if expected.Some? && id in sends && sends[id].storageKey == Some(key) {
        EnqueueBlobGcKeys([expected.value], timestamp);
      }
    }

    /** UPDATE ... SET next_attempt_at, if the row is still the one that was read. */
    method ClaimRow(key: Key, row: QueueRow, claimUntil: int) returns (updated: bool)
      modifies this`queue
      ensures updated <==> key in old(queue) && old(queue)[key] == row
      ensures queue == if updated then old(queue)[key := row.(nextAt := claimUntil)] else old(queue)
    {
      updated := key in queue && queue[key] == row;
      if updated {
        queue := queue[key := QueueRow(row.attempts, claimUntil)];
      }
    }

    /** DELETE, if the claim still stands. */
    method RemoveRow(key: Key, attempts: nat, claimUntil: int) returns (removed: bool)
      modifies this`queue
      ensures removed <==> key in old(queue) && old(queue)[key] == QueueRow(attempts, claimUntil)
      ensures queue == if removed then old(queue) - {key} else old(queue)
    {
      removed := key in queue && queue[key].attempts == attempts && queue[key].nextAt == claimUntil;
      if removed {
        queue := queue - {key};
      }
    }

    /** UPDATE to one more attempt at a later time, if the claim still stands. */
    method DeferRow(key: Key, attempts: nat, claimUntil: int, timestamp: int) returns (deferred: bool)
      modifies this`queue
      ensures deferred <==> key in old(queue) && old(queue)[key] == QueueRow(attempts, claimUntil)
      ensures queue == if deferred then old(queue)[key := DeferredRow(QueueRow(attempts, claimUntil), timestamp)] else old(queue)
    {
      deferred := key in queue && queue[key].attempts == attempts && queue[key].nextAt == claimUntil;
      if deferred {
        var next := attempts + 1;
        queue := queue[key := QueueRow(next, RetryAt(timestamp, next))];
      }
    }

    /** One pass of the drain's loop, on a row that may have changed since it was read. */
    method DrainRow(key: Key, row: QueueRow, timestamp: int, refused: set<Key>) returns (outcome: Outcome)
      modifies this`queue, this`objects
      ensures outcome == Fate(Scene(attachments, sends, old(queue), map[key := row], refused), key)
      ensures Queued(queue, objects) == DrainedRow(Queued(old(queue), old(objects)), key, timestamp, outcome)
    {
      var claimUntil := timestamp + CLAIM_SECONDS;
      var claimed := ClaimRow(key, row, claimUntil);
      if !claimed {
        return Contended;
      }
      if IsReferenced(attachments, sends, key) {
        var removed := RemoveRow(key, row.attempts, claimUntil);
        outcome := if removed then Referenced else Contended;
      } else if key in refused {
        var deferred := DeferRow(key, row.attempts, claimUntil, timestamp);
        outcome := if deferred then Deferred else Contended;
      } else {
        objects := objects - {key};
        var removed := RemoveRow(key, row.attempts, claimUntil);
        outcome := if removed then Deleted else Contended;
      }
    }

    /**
     A drain that nothing interrupts after its SELECT, where the store refuses to delete some objects.
     Rows that were changed since they were read are contended and left alone; of the others the
     referenced ones leave the queue, the unreferenced objects go with their rows, the refused ones
     are deferred. Each counter counts its rows.
     */
    method DrainBlobGcQueue(rows: seq<Key>, read: map<Key, QueueRow>, timestamp: int, refused: set<Key>)
      returns (result: BlobGcResult)
      requires Selected(rows, read, timestamp)
      modifies this`queue, this`objects
      ensures var at := Scene(attachments, sends, old(queue), read, refused);
              var keys := set k | k in rows;
              && keys <= read.Keys
              && QueueDrained(at, timestamp, keys, Queued(old(queue), old(objects)), Queued(queue, objects))
              && KeysCounted(at, keys, result)
      ensures Total(result) == |rows|
    {
      hide Fate, DeferredRow, DrainedRow, Counted, KeysWith, QueueDrained, Total;
      result := BlobGcResult(0, 0, 0, 0);
      var i := 0;
      ghost var at, before := Scene(attachments, sends, queue, read, refused), Queued(queue, objects);
      ghost var done: set<Key> := {};
      NothingDrained(at, timestamp, before);
      while i < |rows|
        invariant 0 <= i <= |rows| && |done| == i && done <= read.Keys
        invariant forall k :: k in done <==> k in rows[..i]
        invariant QueueDrained(at, timestamp, done, before, Queued(queue, objects))
        invariant KeysCounted(at, done, result)
      {
        hide KeysCounted;
        var key := rows[i];
        QueueDrainedExtends(at, timestamp, done, before, Queued(queue, objects), key);
        KeysCountedExtends(at, done, result, key);
        FateIsLocal(at, Scene(attachments, sends, queue, map[key := read[key]], refused), key);
        var outcome := DrainRow(key, read[key], timestamp, refused);
        result := Counted(result, outcome);
        done := done + {key};
        i := i + 1;
      }
      assert rows[..i] == rows;
      assert done == set k | k in rows;
    }
  }

  /** A row's fate depends on the queue only through that row. */
  lemma FateIsLocal(at: Scene, there: Scene, key: Key)
    requires key in at.read && key in there.read && at.read[key] == there.read[key]
    requires at.attachments == there.attachments && at.sends == there.sends && at.refused == there.refused
    requires key in at.queue <==> key in there.queue
    requires key in at.queue ==> at.queue[key] == there.queue[key]
    ensures Fate(at, key) == Fate(there, key)
  {
  }
}
