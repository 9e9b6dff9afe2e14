/**
 Mutation tokens (apps/api/src/handlers/folders.ts, organization-collections.ts, organizations.ts and
 services/db/batch/revisions.ts): a write names the token of the row it read and leaves a new one, so
 it never overwrites what it has not seen.
 */
module MutationTokens {
  import opened Options
  import opened IdentityTables

  // ---------------------------------------------------------------------------------------
  // Folders, statement by statement
  // ---------------------------------------------------------------------------------------

  datatype Folder = Folder(user: Id, name: Id, updatedAt: int, token: Option<Id>)

  datatype Cipher = Cipher(user: Option<Id>, folder: Option<Id>, updatedAt: int)

  /** What one user has set for one cipher. */
  datatype SettingKey = SettingKey(cipher: Id, user: Id)

  datatype Setting = Setting(folder: Option<Id>, updatedAt: int)

  function Later(before: int, timestamp: int): int {
    if before + 1 > timestamp then before + 1 else timestamp
  }

  predicate FolderStands(folders: map<Id, Folder>, user: Id, id: Id, read: Folder) {
    id in folders && folders[id].user == user && folders[id].token == read.token
  }

  /** The folders of the user that are still as they were read. */
  function Standing(folders: map<Id, Folder>, user: Id, read: map<Id, Folder>): set<Id> {
    set id | id in read && FolderStands(folders, user, id, read[id])
  }

  function Unfiled(ciphers: map<Id, Cipher>, user: Id, gone: set<Id>, timestamp: int): map<Id, Cipher> {
    map c | c in ciphers ::
      if ciphers[c].user == Some(user) && ciphers[c].folder.Some? && ciphers[c].folder.value in gone then
        ciphers[c].(folder := None, updatedAt := Later(ciphers[c].updatedAt, timestamp))
      else ciphers[c]
  }

  /** The settings take the batch's time as it is, so theirs may go back. */
  function UnfiledSettings(
    settings: map<SettingKey, Setting>, user: Id, gone: set<Id>, timestamp: int): map<SettingKey, Setting>
  {
    map k | k in settings ::
      if k.user == user && settings[k].folder.Some? && settings[k].folder.value in gone then Setting(None, timestamp)
      else settings[k]
  }

  function RenamedFolders(
    folders: map<Id, Folder>, user: Id, id: Id, read: Folder, name: Id, token: Id, now: int): map<Id, Folder>
  {
    if FolderStands(folders, user, id, read) then
      folders[id := Folder(user, name, Later(read.updatedAt, now), Some(token))]
    else folders
  }

  predicate Carries(folders: map<Id, Folder>, id: Id, user: Id, token: Id) {
    id in folders && folders[id].user == user && folders[id].token == Some(token)
  }

  predicate SomeCarries(folders: map<Id, Folder>, user: Id, token: Id) {
    exists id :: id in folders && Carries(folders, id, user, token)
  }

  /** No cipher of a user is filed in a folder that is not there or not the user's. */
  ghost predicate CiphersFiled(folders: map<Id, Folder>, ciphers: map<Id, Cipher>) {
    forall c :: c in ciphers && ciphers[c].user.Some? && ciphers[c].folder.Some? ==>
      ciphers[c].folder.value in folders && folders[ciphers[c].folder.value].user == ciphers[c].user.value
  }

  ghost predicate SettingsFiled(folders: map<Id, Folder>, settings: map<SettingKey, Setting>) {
    forall k :: k in settings && settings[k].folder.Some? ==>
      settings[k].folder.value in folders && folders[settings[k].folder.value].user == k.user
  }

  /** Once its folders are unfiled, they can go. */
  lemma UnfiledStayFiled(
    folders: map<Id, Folder>, ciphers: map<Id, Cipher>, settings: map<SettingKey, Setting>, user: Id, gone: set<Id>, at: int)
    requires CiphersFiled(folders, ciphers) && SettingsFiled(folders, settings)
    requires forall f :: f in gone ==> f in folders && folders[f].user == user
    ensures CiphersFiled(folders - gone, Unfiled(ciphers, user, gone, at))
    ensures SettingsFiled(folders - gone, UnfiledSettings(settings, user, gone, at))
  {
    hide Later;
  }

  class FolderStore {
    var folders: map<Id, Folder>
    var ciphers: map<Id, Cipher>
    var settings: map<SettingKey, Setting>
    var revisions: map<Id, int>

    constructor ()
      ensures folders == map[] && ciphers == map[] && settings == map[] && revisions == map[]
    {
      folders, ciphers, settings, revisions := map[], map[], map[], map[];
    }

    /** INSERT ... ON CONFLICT DO UPDATE, if some folder of the user carries the batch's token. */
    method ConditionalFolderRevision(user: Id, token: Id, timestamp: int)
      modifies this`revisions
      ensures revisions ==
              if SomeCarries(folders, user, token) then BumpedRevision(old(revisions), user, timestamp) else old(revisions)
    {
      if SomeCarries(folders, user, token) {
        var next := timestamp;
        if user in revisions && revisions[user] + 1 > timestamp {
          next := revisions[user] + 1;
        }
        revisions := revisions[user := next];
      }
    }

    method UpdateFolder(user: Id, id: Id, read: Folder, name: Id, token: Id, now: int) returns (updated: bool)
      requires forall f :: f in folders ==> folders[f].token != Some(token)
      modifies this`folders, this`revisions
      ensures updated <==> FolderStands(old(folders), user, id, read)
      ensures folders == RenamedFolders(old(folders), user, id, read, name, token, now)
      ensures revisions ==
              if updated then BumpedRevision(old(revisions), user, Later(read.updatedAt, now)) else old(revisions)
    {
      var timestamp := if now > read.updatedAt + 1 then now else read.updatedAt + 1;
      updated := id in folders && folders[id].user == user && folders[id].token == read.token;
      if updated {
        folders := folders[id := Folder(user, name, timestamp, Some(token))];
        assert Carries(folders, id, user, token);
      }
      ConditionalFolderRevision(user, token, timestamp);
    }

    /** UPDATE folders SET mutation_token, where the row is one that was read and still the same. */
    method ClaimFolders(user: Id, read: map<Id, Folder>, token: Id)
      requires forall f :: f in folders ==> folders[f].token != Some(token)
      modifies this`folders
      ensures folders.Keys == old(folders).Keys
      ensures forall f :: f in folders ==>
                folders[f] ==
                if f in Standing(old(folders), user, read) then old(folders)[f].(token := Some(token)) else old(folders)[f]
      ensures forall f :: Carries(folders, f, user, token) <==> f in Standing(old(folders), user, read)
    {
      folders := map f | f in folders ::
        if folders[f].user == user && f in read && folders[f].token == read[f].token then folders[f].(token := Some(token))
        else folders[f];
    }

    /** UPDATE ciphers SET folder_id = NULL, where the folder carries the batch's token. */
    method UnfileCiphers(user: Id, token: Id, timestamp: int, ghost gone: set<Id>)
      requires forall f :: Carries(folders, f, user, token) <==> f in gone
      modifies this`ciphers
      ensures ciphers == Unfiled(old(ciphers), user, gone, timestamp)
    {
      ciphers := map c | c in ciphers ::
        if && ciphers[c].user == Some(user) && ciphers[c].folder.Some?
           && Carries(folders, ciphers[c].folder.value, user, token)
        then
          ciphers[c].(folder := None, updatedAt := Later(ciphers[c].updatedAt, timestamp))
        else ciphers[c];
    }

    /** UPDATE cipher_user_settings SET folder_id = NULL, likewise. */
    method UnfileSettings(user: Id, token: Id, timestamp: int, ghost gone: set<Id>)
      requires forall f :: Carries(folders, f, user, token) <==> f in gone
      modifies this`settings
      ensures settings == UnfiledSettings(old(settings), user, gone, timestamp)
    {
      settings := map k | k in settings ::
        if k.user == user && settings[k].folder.Some? && Carries(folders, settings[k].folder.value, user, token) then
          Setting(None, timestamp)
        else settings[k];
    }

    /**
     One folder or many: exactly those that are still as they were read go, their ciphers are
     unfiled and move forward, the user's settings are unfiled, and nothing else changes.
     */
    method DeleteOwnedFolders(user: Id, read: map<Id, Folder>, token: Id, timestamp: int)
      requires CiphersFiled(folders, ciphers) && SettingsFiled(folders, settings)
      requires forall f :: f in folders ==> folders[f].token != Some(token)
      modifies this
      ensures CiphersFiled(folders, ciphers) && SettingsFiled(folders, settings)
      ensures folders == old(folders) - Standing(old(folders), user, read)
      ensures ciphers == Unfiled(old(ciphers), user, Standing(old(folders), user, read), timestamp)
      ensures settings == UnfiledSettings(old(settings), user, Standing(old(folders), user, read), timestamp)
      ensures revisions ==
              if Standing(old(folders), user, read) != {} then BumpedRevision(old(revisions), user, timestamp)
              else old(revisions)
    {
      hide BumpedRevision, CiphersFiled, SettingsFiled, Unfiled, UnfiledSettings;
      UnfiledStayFiled(folders, ciphers, settings, user, Standing(folders, user, read), timestamp);
      ghost var gone := Standing(folders, user, read);
      ClaimFolders(user, read, token);
      ConditionalFolderRevision(user, token, timestamp);
      UnfileCiphers(user, token, timestamp, gone);
      UnfileSettings(user, token, timestamp, gone);
      DropFolders(user, token);
      assert folders == old(folders) - gone;
    }

    /** DELETE FROM folders, where the row carries the batch's token. */
    method DropFolders(user: Id, token: Id)
      modifies this`folders
      ensures forall f :: f in folders <==> f in old(folders) && !Carries(old(folders), f, user, token)
      ensures forall f :: f in folders ==> folders[f] == old(folders)[f]
    {
      folders := map f | f in folders && !(folders[f].user == user && folders[f].token == Some(token)) :: folders[f];
    }
  }

  // ---------------------------------------------------------------------------------------
  // Every fenced row
  // ---------------------------------------------------------------------------------------

  /** Folders, collections and organizations are fenced alike; an organization keeps its row when it is deleted. */
  datatype Kind = FolderRow | CollectionRow | OrganizationRow

  datatype Key = Key(kind: Kind, id: Id)

  datatype Row = Row(name: Id, updatedAt: int, deleted: bool, token: Option<Id>)

  datatype Version = Version(key: Key, token: Option<Id>)

  /** The rows of now; all tokens drawn, all rows that ever were, and the chain of versions of each row. */
  datatype State = State(rows: map<Key, Row>, tokens: set<Id>, seen: map<Version, Row>, chain: map<Key, seq<Row>>)

  /**
   A write carries the row it read and whether its other guards hold at the commit: the owner's
   membership for organizations, no exclusively linked items for deleted collections.
   */
  datatype Step =
    | Create(key: Key, name: Id, now: int)
    | Rename(key: Key, read: Row, name: Id, token: Id, now: int, guarded: bool)
    | Delete(key: Key, read: Row, token: Id, now: int, guarded: bool)

  predicate Applies(s: State, key: Key, read: Row, token: Id, guarded: bool) {
    && Version(key, read.token) in s.seen && s.seen[Version(key, read.token)] == read && token !in s.tokens
    && guarded && key in s.rows && s.rows[key].token == read.token
    && (key.kind == OrganizationRow ==> !read.deleted && !s.rows[key].deleted)
  }

  /** ts = Math.max(now(), existing.updated_at + 1) */
  function RenamedRow(read: Row, name: Id, token: Id, now: int): Row {
    read.(name := name, updatedAt := Later(read.updatedAt, now), token := Some(token))
  }

  function Write(s: State, key: Key, row: Row, token: Id): State
    requires key in s.chain
  {
    State(s.rows[key := row], s.tokens + {token}, s.seen[Version(key, row.token) := row],
          s.chain[key := s.chain[key] + [row]])
  }

  function Exec(s: State, step: Step): State {
    match step
    case Create(key, name, now) =>
      if key in s.chain then s
      else
        var row := Row(name, now, false, None);
        State(s.rows[key := row], s.tokens, s.seen[Version(key, None) := row], s.chain[key := [row]])
    case Rename(key, read, name, token, now, guarded) =>
      if Applies(s, key, read, token, guarded) && key in s.chain then Write(s, key, RenamedRow(read, name, token, now), token)
      else s
    case Delete(key, read, token, now, guarded) =>
      if !Applies(s, key, read, token, guarded) || key !in s.chain then s
      else if key.kind == OrganizationRow then
        Write(s, key, s.rows[key].(deleted := true, updatedAt := now, token := Some(token)), token)
      else s.(rows := s.rows - {key}, tokens := s.tokens + {token})
  }

  function Run(s: State, steps: seq<Step>): State
    decreases |steps|
  {
    if steps == [] then s else Run(Exec(s, steps[0]), steps[1..])
  }

  const EMPTY := State(map[], {}, map[], map[])

  /** Each version is newer than the one before, unless it is the tombstone of an organization. */
  predicate Rising(rows: seq<Row>) {
    forall i :: 0 < i < |rows| && !rows[i].deleted ==> rows[i - 1].updatedAt < rows[i].updatedAt
  }

  predicate RowOk(s: State, key: Key) {
    && (key in s.rows ==>
          && Version(key, s.rows[key].token) in s.seen && s.seen[Version(key, s.rows[key].token)] == s.rows[key]
          && key in s.chain)
    && (key in s.chain ==> s.chain[key] != [] && Rising(s.chain[key]))
    && (key in s.rows ==> s.chain[key][|s.chain[key]| - 1] == s.rows[key])
  }

  ghost predicate Inv(s: State) {
    && (forall key: Key :: RowOk(s, key))
    && (forall v :: v in s.seen ==> v.key in s.chain && (v.token.Some? ==> v.token.value in s.tokens))
  }

  lemma StepKeepsRow(s: State, step: Step, key: Key)
    requires Inv(s)
    ensures RowOk(Exec(s, step), key)
  {
    assert RowOk(s, key);
  }

  lemma StepKeepsInv(s: State, step: Step)
    requires Inv(s)
    ensures Inv(Exec(s, step))
  {
    forall key: Key
      ensures RowOk(Exec(s, step), key)
    {
      StepKeepsRow(s, step, key);
    }
    hide RowOk;
  }

  lemma {:induction false} RunKeepsInv(s: State, steps: seq<Step>)
    requires Inv(s)
    ensures Inv(Run(s, steps))
    decreases |steps|
  {
    hide Inv, Exec;
    if steps != [] {
      StepKeepsInv(s, steps[0]);
      RunKeepsInv(Exec(s, steps[0]), steps[1..]);
    }
  }

  /** Some interleaving leads here from no rows at all. */
  ghost predicate Reachable(s: State) {
    exists steps :: Run(EMPTY, steps) == s
  }

  lemma ReachableInv(s: State)
    requires Reachable(s)
    ensures Inv(s)
  {
    hide Exec;
    var steps :| Run(EMPTY, steps) == s;
    assert Inv(EMPTY);
    RunKeepsInv(EMPTY, steps);
  }

  /**
   No update is lost: over any interleaving a write that goes through was computed from the very row
   it replaces, so the successful writes to a row form one chain, each from what its predecessor left.
   */
  lemma WritesFormOneChain(s: State, key: Key, read: Row, token: Id, guarded: bool)
    requires Reachable(s) && Applies(s, key, read, token, guarded)
    ensures s.rows[key] == read
    ensures key in s.chain && s.chain[key] != [] && s.chain[key][|s.chain[key]| - 1] == read && Rising(s.chain[key])
  {
    hide Reachable;
    ReachableInv(s);
    assert RowOk(s, key);
  }

  /** A rename that goes through moves updated_at forward, even when the clock has gone back, and appends to the chain. */
  lemma RenamesMoveForward(s: State, key: Key, read: Row, name: Id, token: Id, now: int, guarded: bool)
    requires Reachable(s) && Applies(s, key, read, token, guarded)
    ensures var after := Exec(s, Rename(key, read, name, token, now, guarded));
            && key in after.rows && after.rows[key].updatedAt > s.rows[key].updatedAt && after.rows[key].updatedAt >= now
            && after.rows[key] == s.rows[key].(name := name, updatedAt := after.rows[key].updatedAt, token := Some(token))
            && key in s.chain && after.chain[key] == s.chain[key] + [after.rows[key]]
  {
    hide Reachable;
    ReachableInv(s);
    assert RowOk(s, key);
  }

  /** A version that the table no longer has. */
  predicate Gone(s: State, v: Version) {
    v in s.seen && (v.key in s.rows ==> s.rows[v.key].token != v.token)
  }

  lemma GoneStaysGone(s: State, step: Step, v: Version)
    requires Inv(s) && Gone(s, v)
    ensures Gone(Exec(s, step), v)
  {
  }

  lemma {:induction false} RunKeepsGone(s: State, steps: seq<Step>, v: Version)
    requires Inv(s) && Gone(s, v)
    ensures Gone(Run(s, steps), v)
    decreases |steps|
  {
    hide Inv, Exec, Gone;
    if steps != [] {
      GoneStaysGone(s, steps[0], v);
      StepKeepsInv(s, steps[0]);
      RunKeepsGone(Exec(s, steps[0]), steps[1..], v);
    }
  }

  /** Of any number of writers that read the same version, one at most gets through, whatever runs between them. */
  lemma OneWriterPerVersion(
    s: State, first: Step, steps: seq<Step>, key: Key, read: Row, token: Id, guarded: bool, next: Id, nextGuarded: bool)
    requires Reachable(s) && Applies(s, key, read, token, guarded)
    requires first.Rename? || first.Delete?
    requires first.key == key && first.read == read && first.token == token && first.guarded == guarded
    ensures !Applies(Run(Exec(s, first), steps), key, read, next, nextGuarded)
  {
    hide Reachable;
    ReachableInv(s);
    var v := Version(key, read.token);
    assert RowOk(s, key);
    assert Gone(Exec(s, first), v);
    StepKeepsInv(s, first);
    RunKeepsGone(Exec(s, first), steps, v);
  }

  // ---------------------------------------------------------------------------------------
  // Folders are fenced rows
  // ---------------------------------------------------------------------------------------

  function RowOf(f: Folder): Row {
    Row(f.name, f.updatedAt, false, f.token)
  }

  /** The folders of the store are the folder rows of the run. */
  ghost predicate Mirrors(rows: map<Key, Row>, folders: map<Id, Folder>) {
    && (forall id :: id in folders <==> Key(FolderRow, id) in rows)
    && (forall id :: id in folders ==> rows[Key(FolderRow, id)] == RowOf(folders[id]))
  }

  /** The request read this folder at some time. */
  predicate WasRead(s: State, id: Id, read: Folder) {
    var v := Version(Key(FolderRow, id), read.token);
    v in s.seen && s.seen[v] == RowOf(read)
  }

  /** What UpdateFolder does to the store is what a rename step does to the run, owner check included. */
  lemma RenameIsUpdateFolder(s: State, folders: map<Id, Folder>, user: Id, id: Id, read: Folder, name: Id, token: Id, now: int)
    requires Inv(s) && Mirrors(s.rows, folders) && WasRead(s, id, read) && token !in s.tokens
    ensures var guarded := id in folders && folders[id].user == user;
            Mirrors(Exec(s, Rename(Key(FolderRow, id), RowOf(read), name, token, now, guarded)).rows,
                    RenamedFolders(folders, user, id, read, name, token, now))
  {
    assert RowOk(s, Key(FolderRow, id));
  }

  /** One delete step for each folder; a deleted folder keeps no token, so each step may have its own. */
  function DeleteSteps(ids: seq<Id>, read: map<Id, Folder>, tokens: seq<Id>, owned: set<Id>, now: int): seq<Step>
    requires |ids| == |tokens| && forall i :: 0 <= i < |ids| ==> ids[i] in read
  {
    if ids == [] then []
    else
      [Delete(Key(FolderRow, ids[0]), RowOf(read[ids[0]]), tokens[0], now, ids[0] in owned)]
      + DeleteSteps(ids[1..], read, tokens[1..], owned, now)
  }

  function WithoutStanding(folders: map<Id, Folder>, user: Id, read: map<Id, Folder>, ids: seq<Id>): map<Id, Folder> {
    map f | f in folders && !(f in ids && f in read && FolderStands(folders, user, f, read[f])) :: folders[f]
  }

  predicate Unused(tokens: seq<Id>, used: set<Id>) {
    && (forall i :: 0 <= i < |tokens| ==> tokens[i] !in used)
    && (forall i, j :: 0 <= i < j < |tokens| ==> tokens[i] != tokens[j])
  }

  lemma WithoutStandingSplits(folders: map<Id, Folder>, user: Id, read: map<Id, Folder>, ids: seq<Id>)
    requires ids != []
    ensures WithoutStanding(WithoutStanding(folders, user, read, [ids[0]]), user, read, ids[1..]) ==
            WithoutStanding(folders, user, read, ids)
  {
    assert forall f :: f in ids <==> f == ids[0] || f in ids[1..];
  }

  lemma WithoutStandingAll(folders: map<Id, Folder>, user: Id, read: map<Id, Folder>, ids: seq<Id>)
    requires (set id | id in ids) == read.Keys
    ensures WithoutStanding(folders, user, read, ids) == folders - Standing(folders, user, read)
  {
    assert forall f :: f in read <==> f in ids;
  }

  lemma DeleteIsDeleteFolder(
    s: State, folders: map<Id, Folder>, user: Id, id: Id, read: map<Id, Folder>, token: Id, owned: set<Id>, now: int)
    requires Inv(s) && Mirrors(s.rows, folders) && token !in s.tokens && id in read && WasRead(s, id, read[id])
    requires id in folders ==> (id in owned <==> folders[id].user == user)
    ensures var after := Exec(s, Delete(Key(FolderRow, id), RowOf(read[id]), token, now, id in owned));
            && Mirrors(after.rows, WithoutStanding(folders, user, read, [id]))
            && after.seen == s.seen && after.tokens <= s.tokens + {token}
  {
    assert RowOk(s, Key(FolderRow, id));
  }

  lemma {:induction false} DeletesRemoveStanding(
    s: State, folders: map<Id, Folder>, user: Id, ids: seq<Id>, read: map<Id, Folder>, tokens: seq<Id>, owned: set<Id>, now: int)
    requires Inv(s) && Mirrors(s.rows, folders) && |ids| == |tokens| && Unused(tokens, s.tokens)
    requires forall i, j :: 0 <= i < j < |ids| ==> ids[i] != ids[j]
    requires forall i :: 0 <= i < |ids| ==> ids[i] in read && WasRead(s, ids[i], read[ids[i]])
    requires forall id :: id in folders ==> (id in owned <==> folders[id].user == user)
    ensures Mirrors(Run(s, DeleteSteps(ids, read, tokens, owned, now)).rows, WithoutStanding(folders, user, read, ids))
    decreases |ids|
  {
    var steps := DeleteSteps(ids, read, tokens, owned, now);
    if ids == [] {
      assert WithoutStanding(folders, user, read, ids) == folders;
    } else {
      var next, rest := Exec(s, steps[0]), WithoutStanding(folders, user, read, [ids[0]]);
      assert steps[1..] == DeleteSteps(ids[1..], read, tokens[1..], owned, now);
      DeleteIsDeleteFolder(s, folders, user, ids[0], read, tokens[0], owned, now);
      StepKeepsInv(s, steps[0]);
      hide Inv, Exec, Mirrors, DeleteSteps;
      DeletesRemoveStanding(next, rest, user, ids[1..], read, tokens[1..], owned, now);
      WithoutStandingSplits(folders, user, read, ids);
    }
  }

  /** What DeleteOwnedFolders does to the store is what its delete steps, one after the other, do to the run. */
  lemma DeletesAreDeleteOwnedFolders(
    s: State, folders: map<Id, Folder>, user: Id, ids: seq<Id>, read: map<Id, Folder>, tokens: seq<Id>, owned: set<Id>, now: int)
    requires Inv(s) && Mirrors(s.rows, folders) && |ids| == |tokens| && Unused(tokens, s.tokens)
    requires forall i, j :: 0 <= i < j < |ids| ==> ids[i] != ids[j]
    requires (set id | id in ids) == read.Keys
    requires forall i :: 0 <= i < |ids| ==> ids[i] in read && WasRead(s, ids[i], read[ids[i]])
    requires forall id :: id in folders ==> (id in owned <==> folders[id].user == user)
    ensures Mirrors(Run(s, DeleteSteps(ids, read, tokens, owned, now)).rows, folders - Standing(folders, user, read))
  {
    hide Inv, Run, Mirrors, WithoutStanding, WasRead;
    DeletesRemoveStanding(s, folders, user, ids, read, tokens, owned, now);
    WithoutStandingAll(folders, user, read, ids);
  }

  /**
   What the deletion of folders leaves of ciphers and settings: those filed in one of them, and the
   user's, are filed nowhere, the cipher strictly later than before and no earlier than now; all
   others are as they were.
   */
  lemma UnfilingLeaves(
    ciphers: map<Id, Cipher>, settings: map<SettingKey, Setting>, user: Id, gone: set<Id>, timestamp: int)
    ensures var after := Unfiled(ciphers, user, gone, timestamp);
            && after.Keys == ciphers.Keys
            && forall c :: c in ciphers ==>
                 if ciphers[c].user == Some(user) && ciphers[c].folder.Some? && ciphers[c].folder.value in gone then
                   && after[c].user == Some(user) && after[c].folder == None
                   && after[c].updatedAt > ciphers[c].updatedAt && after[c].updatedAt >= timestamp
                 else after[c] == ciphers[c]
    ensures var after := UnfiledSettings(settings, user, gone, timestamp);
            && after.Keys == settings.Keys
            && forall k :: k in settings ==>
                 if k.user == user && settings[k].folder.Some? && settings[k].folder.value in gone then
                   after[k].folder == None && after[k].updatedAt == timestamp
                 else after[k] == settings[k]
  {
  }

  /** Sync revisions only rise: MAX(old + 1, now), even when the clock goes back. */
  lemma RevisionsRise(revisions: map<Id, int>, user: Id, now: int)
    ensures var after := BumpedRevision(revisions, user, now);
            && user in after && after[user] >= now
            && (user in revisions ==> after[user] > revisions[user])
            && (forall u :: u != user ==> (u in after <==> u in revisions) && (u in revisions ==> after[u] == revisions[u]))
  {
  }
}
