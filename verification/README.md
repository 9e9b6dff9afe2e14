# Edgewarden, verified

This project models the parts of Edgewarden whose correctness no finite test can settle, and proves
what they are for. Edgewarden is a password manager server on a serverless platform: requests run
concurrently, read rows, decide, and then commit one atomic batch of guarded SQL statements.

| files | what they model |
|---|---|
| `IdentityTables`, `IdentityRuns`, `LoginRetries` | logins with their retry, refresh tokens, auth requests and everything that revokes them, under any interleaving |
| `AuthRequests`, `Lineages` | over those runs: which answers let a login through, and what renews and what ends a login |
| `Rotations`, `Passkeys`, `AccountDeletion` | what each handler that writes a new security stamp asks for and leaves, passkey registrations and their challenges, and the deletion of an account |
| `LoginAttempts` | the login limiter and the pruning of its table |
| `MessagePack`, `SignalR` | the binary notification encoder, with a decoder as its specification |
| `BlobTables`, `BlobRuns`, `BlobFencing`, `BlobDrains`, `Uploads`, `SendObjects` | the blob garbage collector: uploads, the queue, and drains that claim rows by compare-and-set |
| `Hosts`, `DomainGraph`, `DomainForest`, `DomainMerge`, `DomainRules`, `DomainSettings` | equivalent domains: host labels, the union-find, expansion through global groups, the settings row |
| `OrganizationMembers`, `OrganizationRuns`, `OrganizationRoles` | organization roles decided on stale reads |
| `DeviceTrust`, `Registration`, `MutationTokens` | key rotation, one-shot registration, and fenced writes |

Code that changes rows is modelled by classes whose methods run the statements of a batch in order;
each method's contract is a closed form of the whole batch. Runs are modelled by a function that
executes one step: a request's batch is one step, every read happens at any earlier time, and so a
step carries arbitrary, possibly stale, values. Only what is drawn at random is fresh. Where the code
can stop half-way (uploads and drains), every await is a step of its own. Histories that no code
reads record what has happened, so that theorems can speak about it. Beside the closed forms stand
theorems that name neither them nor their guards: when an operation goes through, said of what was
asked, answered, read and written before, and which columns it leaves with which values.

`dafny verify dfyconfig.toml` checks everything.

## What is not as it seems

- `Hosts.NormalizeIsIdempotentIff`, `DomainSettings.RuleCanVanish`: domain normalisation is not
  idempotent on hosts whose result reads as an IPv4 address, and a stored rule can vanish because of
  it. `DomainSettings.ReadsBackUnlessIpv4` is the exact condition for reading back what was written.
  Merging before storage loses nothing even then (`DomainSettings.StoringMergedLosesNothing`).
- `SendObjects.SendObjectCanLeak`: the object of a file Send can stay in the store for good with
  neither a row nor a queue entry for it; `SendObjects.SendsTrackExactly` names the one step that
  does this, and `SendObjects.UnambiguousRunsLoseNothing` what must have gone wrong before: a publish
  that commits and throws. Attachments are not affected.
- `IdentityTables.RefusedLoginTouchesDevice`, `IdentityTables.RefusedLoginStampsBannedDevice`: a login
  without an auth request that is refused because its device row is banned or bound to another stamp
  still writes that row's name and times, and gives a banned row without a stamp its own.
- `MutationTokens.FolderStore.DeleteOwnedFolders`: deleting a folder moves its ciphers' time strictly
  forward, but sets the time of the user's settings of ciphers to the clock's, which may be earlier.
- `BlobTables.RetryBacksOff`: the one-day cap on retries is never reached.
- `MessagePack.OversizedStringCollides`: strings of 65536 bytes and more are written with a wrong size.

## Model

| member | source | states |
|---|---|---|
| IdentityTables.Database.AuthRequestConsumptionClaim | apps/api/src/services/identity-session.ts:190-238 | The claim writes its date and token exactly when the request is the user's, approved, answered, unconsumed and young enough, the user is active under the expected stamp and the device is free; it reports one row then and none otherwise. |
| IdentityTables.Database.LoginDeviceUpsert | apps/api/src/services/identity-session.ts:66-112 | The device row is inserted or refreshed only for an eligible user whose claim, if there is one, went through; a stored session stamp is never replaced. |
| IdentityTables.Database.IdentitySessionInsert | apps/api/src/services/identity-session.ts:114-151 | The refresh token is inserted exactly when the user is eligible, the device row carries the session stamp and is not banned, and the claim went through. |
| IdentityTables.Database.RefreshTokenRevision | apps/api/src/services/identity-session.ts:153-169 | The revision rises only if the batch's refresh token is there. |
| IdentityTables.Database.SuccessfulLoginFailureClear | apps/api/src/services/identity-session.ts:171-188 | The failures are cleared only if the batch's refresh token is there. |
| IdentityTables.Database.IssueSessionBatch | apps/api/src/services/identity-session.ts:278-332 | The statements in order amount to one decision: claim, device, token, revision and cleared failures together, or none of them; the row counts tell the caller which. |
| IdentityTables.Database.PrepareLoginDevice | apps/api/src/services/identity-session.ts:240-251 | The login takes the stored session stamp, or its fresh one if the device has none. |
| IdentityTables.Database.StampConflict | apps/api/src/services/identity-session.ts:381-398 | A refused login tries again exactly when its device is by now bound to another stamp than the one it tried. |
| IdentityTables.Database.IssueIdentitySession | apps/api/src/services/identity-session.ts:253-379 | Run without interference the first batch decides: a stamp just read cannot have moved, so the retry changes nothing. With interference it is LoginRetries. |
| LoginRetries.AtMostOneSession | apps/api/src/services/identity-session.ts:240-398 | Whatever other requests run at each of its awaits, a login with n retries makes at most n + 1 attempts, at most one of them ever creates a session, and its auth request is consumed by that one attempt or by none of them. |
| LoginRetries.BatchIsDrawn | apps/api/src/services/identity-session.ts:253-379 | At every batch of any such run the attempt's token hash and its consumption token are still unused. |
| LoginRetries.RetryIsGranted | apps/api/src/services/identity-session.ts:381-398 | An attempt refused for the stamp conflict alone: if nobody rotates, deletes or removes what the login needs before the retry's batch, the retry is granted under the stored stamp, with its own token and the auth request. |
| LoginRetries.RacingLoginsBothSucceed | apps/api/src/services/identity-session.ts:381-398 | Of two logins on one device that would each be granted alone, the one that commits second is refused once and succeeds at its second attempt, under the stamp of the first. |
| IdentityTables.ConsumptionNeedsSession | apps/api/src/services/identity-session.ts:190-332 | From any tables: the request carries the login's token if and only if the login's refresh token exists; if it does not, nothing at all has changed; if it does, its device backs it. |
| IdentityTables.RefusedLoginTouchesDevice | apps/api/src/services/identity-session.ts:66-112 | A refused login writes in one case only, a login without an auth request of an eligible user whose device row is banned or bound to another stamp: that row gets the new name and times, and the login's stamp if it had none. In every other case nothing changes. |
| IdentityTables.RefusedLoginLeavesTrace | apps/api/src/services/identity-session.ts:66-112 | The tables differ after a refusal if and only if it stopped at such a row and the row differs in name or times or has no stamp. |
| IdentityTables.RefusedLoginStampsBannedDevice | apps/api/src/services/identity-session.ts:66-112 | A banned device without a stamp is given one by a login it refuses. |
| IdentityTables.Database.RefreshBatch | apps/api/src/services/identity-refresh.ts:27-131 | The new token is inserted exactly when the presented one is unexpired, its user eligible and its device still backing it; the presented token is gone either way. |
| IdentityTables.Database.RotateStampBatch | apps/api/src/services/db/batch/webauthn.ts:83-326 | A stamp rotation, what it writes, the passkeys and challenge it changes and the revocation of the user's refresh tokens (and devices, for one handler) happen together or not at all; fifteen handlers share this shape, each with its own guards. |
| IdentityTables.Database.PasskeyStatement | apps/api/src/services/db/batch/webauthn.ts:193-219 | The batch's passkey is inserted, or the named or the second-factor passkeys deleted, exactly when the user carries the new stamp. |
| IdentityTables.Database.ChallengeConsumption | apps/api/src/services/db/batch/webauthn.ts:259-284 | The challenge is marked used exactly when it is still open and the batch's passkey is there. |
| Passkeys.ReachablePasskeysFit | apps/api/src/services/db/batch/webauthn.ts:149-258 | However many registrations race, in every reachable state nobody has more than five passkeys of a kind and no credential is registered twice. |
| Passkeys.ChallengeRegistersOnce | apps/api/src/services/db/batch/webauthn.ts:149-284 | Once a challenge has registered a passkey, no later state of any run allows another registration with it. |
| IdentityTables.Database.ConditionalRefreshTokenDeletion | apps/api/src/services/db/batch/sessions.ts:6-20 | Deletes the user's tokens exactly when the user row carries the stamp just written. |
| AccountDeletion.Database.DeleteAccountData | apps/api/src/services/account-deletion.ts:14-114 | Unless the account is deleted already or is a confirmed owner of an organization, it is banned under the deletion's stamp, its ciphers are trashed, its Sends expire, its refresh tokens and memberships go, all together, and the numbers reported are those of its ciphers and Sends; a second deletion reports none, an owner or an unknown account is refused. |
| AccountDeletion.DeletionMarksUser | apps/api/src/services/account-deletion.ts:31-54 | It goes through exactly for an account that is there, not deleted and no confirmed owner, whose row then is banned under the deletion's token and time; otherwise nothing changes. |
| AccountDeletion.DeletionAgrees | apps/api/src/services/account-deletion.ts:31-78 | The batch is, for sessions, the deletion of IdentityRuns with ownership read off the memberships and, for memberships, that of OrganizationRuns. |
| AccountDeletion.DeletionIsComplete | apps/api/src/services/account-deletion.ts:31-78 | A deleted account keeps no token, membership, live cipher or Send, and everybody else keeps theirs. |
| AccountDeletion.DeletingTwice | apps/api/src/services/account-deletion.ts:87-108 | A second deletion, with whatever token and time, changes nothing. |
| IdentityTables.Database.DeleteDevicesBatch | apps/api/src/handlers/devices.ts:390-427 | Exactly the devices that still match what was read are deleted, each with every refresh token bound to it. |
| IdentityRuns.StepKeepsInv | apps/api/src/services/identity-session.ts:190-332 | One step of any of the modelled requests, with whatever stale values it read, keeps: live tokens are backed, stamps, successors and claims are recorded. |
| IdentityRuns.ReachableTokensBacked | apps/api/src/services/identity-session.ts:114-151 | In every reachable state each live refresh token belongs to an active user, was minted under the user's current stamp, matches its device's session stamp if bound to one, and is the only live token of its login. |
| IdentityRuns.IssuedTokensWork | apps/api/src/services/auth.ts:79-146 | What a granted login hands out is accepted: the access token verifies, and the refresh token renews at every time before its term is over and at none from then on. |
| IdentityRuns.RotatedAccessTokenStaysDead | apps/api/src/services/auth.ts:123-146 | Once a user's stamp differs from a token's, no later state of any run accepts that access token. |
| IdentityRuns.RotatedRefreshTokenStaysDead | apps/api/src/services/identity-refresh.ts:27-68 | Once a user's stamp has moved on from the one a refresh token was minted under, the token is gone and no later request renews it. |
| IdentityRuns.RotationRevokes | apps/api/src/handlers/two-factor.ts:161-190 | A rotation that goes through leaves no refresh token of the user and accepts no access token with a stamp in use before. |
| IdentityRuns.RefreshRotates | apps/api/src/services/identity-refresh.ts:115-131 | A refresh removes the presented token, never raises the number of live tokens, records exactly one successor when granted, and is never granted for a token that has a successor. |
| IdentityRuns.SuccessorIsFinal | apps/api/src/services/identity-refresh.ts:27-68 | Over any run a token keeps the successor it got and is never renewed again, so of any number of requests presenting it one at most gets a new token. |
| IdentityRuns.ConsumedAtMostOnce | apps/api/src/services/identity-session.ts:190-238 | An auth request that was consumed once keeps its consumer over every run, and no login consumes it again. |
| IdentityRuns.RefusalConsumesNothing | apps/api/src/services/identity-session.ts:322-332 | A refused login with an auth request leaves the system as it was, its draws still unused: the retry never runs after a consumption. |
| IdentityRuns.DrawsStayFresh | apps/api/src/services/identity-session.ts:381-398 | Whatever other requests run in between, a login's draws are still unused when its retry comes. |
| AuthRequests.LoginIsGrantedIff | apps/api/src/services/identity-session.ts:190-238 | In every reachable state a login gets its session if and only if its user is active and not deleted under the stamp it read, its device, if any, is new, free or already its own and not banned, and its request, if any, was made for this user as a login request, answered yes, used by nobody, and is on file and in time. |
| AuthRequests.GrantedLoginLeaves | apps/api/src/services/identity-session.ts:66-188 | A granted login leaves exactly its token with its term and device binding, its device row, its request marked with time and token, a later revision and the cleared failures. |
| AuthRequests.ConsumedRequestsWereApproved | apps/api/src/services/identity-session.ts:200-215 | In every reachable state a consumed request was made for the user who logged in with it, as a login request, was answered yes, and was consumed no later than fifteen minutes after it was made. |
| AuthRequests.UnapprovedRequestLetsNobodyIn | apps/api/src/services/identity-session.ts:200-215 | A login with a request that was denied or not answered changes nothing. |
| AuthRequests.DeniedIsNeverConsumed | apps/api/src/services/db/auth-requests.ts:114-162 | Once a request is denied, no later state of any run has it approved or consumed, whoever answers again. |
| AuthRequests.AnswerCountsIff | apps/api/src/services/db/auth-requests.ts:114-162 | In every reachable state an answer counts if and only if the request is on file, unanswered and in time, and a yes only for the latest pending request of its device. |
| AuthRequests.ApprovedRequestLogsIn | apps/api/src/services/db/auth-requests.ts:12-162 | From the question over a yes to the login, with anybody else's requests in between: a login that may log in and is in time is granted. |
| Lineages.TokensKeepTheirDevice | apps/api/src/services/identity-refresh.ts:38-47 | However often it was renewed, a live token belongs to the user of its login and carries exactly its login's device and session stamp, or none if the login had none. |
| Lineages.RenewsIff | apps/api/src/services/identity-refresh.ts:48-68 | In every reachable state a token renews if and only if it exists, is presented for its user under the stamp it was minted with, has not expired and its device is not banned. |
| Lineages.RenewalLeaves | apps/api/src/services/identity-refresh.ts:27-131 | A renewal replaces the presented row by one of the same user and device with a new term, and touches nothing else. |
| Lineages.SuccessorRenewsUntil | apps/api/src/services/identity-refresh.ts:27-131 | What a renewal hands out renews in its turn at every time before its term is over and at none from then on. |
| Lineages.RemovedDeviceEndsLogin | apps/api/src/handlers/devices.ts:390-427 | Removing a device as it was read ends the login bound to it: no later state of any run has a live token descending from it. |
| Lineages.RemovingAllDevicesEndsLogins | apps/api/src/handlers/devices.ts:522-534 | Removing all devices ends every login of the user in the same sense. |
| Lineages.RemovalIsExact | apps/api/src/handlers/devices.ts:390-427 | Exactly the user's devices that still have the id, stamp and token that were read go, and exactly the tokens bound to those. |
| Lineages.RemovedDeviceEndsAccess | apps/api/src/services/auth.ts:123-146 | Removing a device also ends the access tokens that name it, at once. |
| Lineages.AcceptedIff | apps/api/src/services/auth.ts:123-146 | An access token is accepted exactly for an active user under the stamp it names and, if it names a device, on that device under the stamp it names. |
| Lineages.MaintenanceLeaves | apps/api/src/services/maintenance.ts:52-94 | A sweep takes exactly the expired tokens, the requests whose time is over and the challenges used or expired. |
| Lineages.SweepsRefuseNothing | apps/api/src/services/maintenance.ts:52-94 | No login, renewal or rotation after a sweep is answered differently from what it would have been without the sweep. |
| Lineages.UnbanLeaves | apps/api/src/handlers/admin/users.ts:57-69 | Lifting a ban makes the user active and changes nothing else, unless the account is deleted or the status is not the one that was read. |
| Rotations.ChangePasswordLeaves | apps/api/src/handlers/accounts.ts:276-295 | Goes through exactly when the stored password is the one that was verified; writes the new one and the stamp, no other column; revokes the user's tokens and raises the revision. |
| Rotations.EnableAuthenticatorLeaves | apps/api/src/services/db/batch/webauthn.ts:102-122 | Goes through exactly under the stamp and secret that were read; writes secret, recovery code and stamp, no other column. |
| Rotations.DisableAuthenticatorLeaves | apps/api/src/handlers/two-factor.ts:225-239 | Goes through exactly when the secret is the one that was read; clears secret and recovery code. |
| Rotations.DisableTwoFactorLeaves | apps/api/src/handlers/two-factor.ts:284-299 | Goes through exactly under the stamp that was read; clears secret, recovery code and security keys and takes the second-factor passkeys. |
| Rotations.RecoverLeaves | apps/api/src/handlers/two-factor.ts:418-433 | Goes through exactly when the recovery code is the one that was verified; leaves what disabling the second factor leaves. |
| Rotations.SaveYubikeysLeaves | apps/api/src/services/db/batch/webauthn.ts:124-147 | Goes through exactly under the stamp and configuration that were read; writes the configuration, and the recovery code only where there is none. |
| Rotations.DisableYubikeysLeaves | apps/api/src/handlers/yubikey.ts:196-207 | Goes through exactly when the configuration is the one that was read; empties it and leaves the recovery code. |
| Rotations.RegisterPasskeyLeaves | apps/api/src/services/db/batch/webauthn.ts:149-284 | Goes through exactly under the stamp that was read for a credential nobody has, a user with fewer than five of the kind and an open challenge of the user; adds the passkey, uses the challenge, and adds a recovery code where there is none for a second factor only. |
| Rotations.RemovePasskeyLeaves | apps/api/src/services/db/batch/webauthn.ts:286-326 | Goes through exactly under the stamp that was read for a passkey of that user and kind, and takes that one. |
| Rotations.RemoveTwoFactorPasskeysLeaves | apps/api/src/handlers/two-factor-passkeys/management.ts:430-438 | Goes through exactly under the stamp that was read, and takes the user's second-factor passkeys. |
| Rotations.RemoveAllDevicesLeaves | apps/api/src/services/db/batch/sessions.ts:22-71 | Goes through exactly under the stamp that was read for an account not deleted, and takes the user's devices; the revision stays. |
| Rotations.BanLeaves | apps/api/src/handlers/admin/users.ts:57-69 | Goes through exactly for the status that was read of an account not deleted; bans under a new stamp; the revision stays. |
| Rotations.ColumnMoves | apps/api/src/handlers/accounts.ts:276-295 | In every reachable state and under every step a user's password, TOTP secret, recovery code and YubiKey configuration change only by a granted rotation that writes them, and to what that writes. |
| Rotations.LastWriteStays | apps/api/src/handlers/accounts.ts:276-295 | Over every run each of these columns holds what the last granted rotation that wrote it wrote. |
| Rotations.PasswordIsTheLastOne | apps/api/src/handlers/accounts.ts:276-295 | After a granted change to a password and until the next granted one, a change that expects that password goes through and one that expects any other is refused. |
| LoginAttempts.LoginAttemptTable.IsLoginLocked | apps/api/src/services/login-attempts.ts:16-26 | Locked exactly while the row's lock lies in the future. |
| LoginAttempts.LoginAttemptTable.RecordLoginFailure | apps/api/src/services/login-attempts.ts:28-67 | The upsert, all of whose cases read the row as it was before, leaves the row of the fixed-window counter. |
| LoginAttempts.LoginAttemptTable.RejectPassword | apps/api/src/handlers/identity-password-grant.ts:91-148 | A failing attempt is recorded exactly when the identifier is not locked, and touches no other identifier. |
| LoginAttempts.LoginAttemptTable.PruneLoginAttempts | apps/api/src/services/maintenance.ts:95-100 | Exactly the rows untouched for a day are dropped, and counted. |
| LoginAttempts.CountAndLock | apps/api/src/services/login-attempts.ts:28-67 | Along every run of sequential failing attempts the count stays between one and five and is five exactly when a lock is set. |
| LoginAttempts.SlidingWindowBound | apps/api/src/services/login-attempts.ts:16-67 | Any half-open interval of n windows holds at most 5n + 3 recorded failures, for every non-decreasing run of failing attempts. |
| LoginAttempts.SlidingWindowBoundIsTight | apps/api/src/services/login-attempts.ts:16-67 | For every n there is a run that records exactly 5n + 3 in such an interval. |
| LoginAttempts.ConcurrentFailuresAllCount | apps/api/src/services/login-attempts.ts:28-67 | Failures that passed the lock check together are all counted, and lock exactly when the count reaches the limit. |
| LoginAttempts.PruningIsUnobservable | apps/api/src/services/maintenance.ts:95-100 | For every sequence of failures, failures recorded late by requests that had passed the lock check before, checks, successes and maintenance passes, neither an answer nor a row that a failure writes depends on whether rows are pruned. |
| SignalR.ConcatBytes | apps/api/src/services/signalr.ts:16-26 | The buffer filled chunk by chunk is the concatenation of the chunks. |
| MessagePack.RoundTrip | apps/api/src/services/signalr.ts:28-84 | For every value the format can carry, decoding its encoding followed by any bytes gives the value and those bytes. |
| MessagePack.RoundTripExactly | apps/api/src/services/signalr.ts:28-84 | Decoding gives back the value and the rest if and only if all sizes are below 2^16 and all integers lie in [0, 2^32). |
| MessagePack.SelfDelimiting | apps/api/src/services/signalr.ts:77-84 | Two values whose encodings start the same stream are equal, and so is what follows them. |
| MessagePack.OversizedStringCollides | apps/api/src/services/signalr.ts:28-38 | A string of 65536 bytes is written like an empty string followed by its bytes. |
| SignalR.FrameBinary | apps/api/src/services/signalr.ts:86-96 | The prefix loop and the copy produce the VarInt of the length followed by the payload. |
| SignalR.VarIntRoundTrip | apps/api/src/services/signalr.ts:86-96 | Reading the prefix back gives the length and whatever follows. |
| SignalR.VarIntIsMinimal | apps/api/src/services/signalr.ts:88-94 | The prefix has k bytes if and only if the length has k digits in base 128. |
| SignalR.VarIntFitsFiveBytes | apps/api/src/services/signalr.ts:88-94 | Below 2^32 the prefix takes at most five bytes. |
| SignalR.FramesRoundTrip | apps/api/src/services/signalr.ts:86-96 | Splitting the concatenated frames of any sequence of payloads gives back exactly that sequence. |
| SignalR.FrameRoundTripsExactly | apps/api/src/services/signalr.ts:86-96 | One frame splits back into its payload if and only if the payload is shorter than 2^32 bytes, which is what the loop's 32-bit shift keeps. |
| SignalR.EncodeSignalRInvocation | apps/api/src/services/signalr.ts:120-137 | The binary notification is the frame of the encoded invocation array. |
| SignalR.HubStreamRoundTrip | apps/api/src/services/signalr.ts:120-137 | A stream of any number of notifications reads back as exactly those invocations in order. |
| SignalR.FrameDeterminesNotification | apps/api/src/services/signalr.ts:120-137 | Equal streams start with equal notifications and continue equally. |
| MessagePack.EncodingsAreShortest | apps/api/src/services/signalr.ts:28-84 | Every string, integer, array and map takes the shortest of the encoder's formats, up to and including the limits 31 and 255, 127 and 255, and 15. |
| SignalR.ReceiverFinds | apps/api/src/services/signalr.ts:120-137 | A receiver finds in the frame an invocation of ReceiveMessage without headers, id or streams, with one argument that tells ContextId, Type and Payload in this order. |
| BlobTables.RetryBacksOff | apps/api/src/services/blob-gc.ts:74-76 | Retries come after two minutes to 61440 seconds, never sooner than after the attempt before; the cap of a day is never reached. |
| BlobTables.BlobStorage.EnqueueBlobGcKeys | apps/api/src/services/blob-gc.ts:16-32 | Every key is queued afterwards, and a key that was queued keeps its row. |
| BlobTables.BlobStorage.PublishAttachment | apps/api/src/services/db/batch/attachments.ts:5-51 | The attachment row appears, and its pending upload goes, exactly when the pending upload matches and the attachment is not published yet. |
| BlobTables.BlobStorage.PublishSendFileObject | apps/api/src/services/sends/file-storage.ts:3-75 | The Send moves to the new object exactly when it is the user's file Send with the expected object, not expired and not purged; the replaced object is queued in the same batch. |
| BlobTables.BlobStorage.ClaimRow | apps/api/src/services/blob-gc.ts:98-110 | The claim goes through exactly when the row is still the one that was read, and moves only its time. |
| BlobTables.BlobStorage.RemoveRow | apps/api/src/services/blob-gc.ts:112-134 | The row is deleted exactly when the claim still stands. |
| BlobTables.BlobStorage.DeferRow | apps/api/src/services/blob-gc.ts:135-149 | The row is deferred by one attempt exactly when the claim still stands. |
| BlobTables.BlobStorage.DrainRow | apps/api/src/services/blob-gc.ts:98-151 | One pass of the loop on a row that may have changed since it was read: a changed row is contended and left alone, a referenced one leaves the queue, one whose object the store refuses to delete is deferred, all others go with their objects. |
| BlobTables.BlobStorage.DrainBlobGcQueue | apps/api/src/services/blob-gc.ts:78-153 | A drain of any rows read at any earlier time: every row meets its fate, every other row and object is untouched, and each of the four counters counts its rows. |
| Uploads.PublishDecides | apps/api/src/services/db/batch/attachments.ts:5-51 | The publish writes the row and takes the pending one away if the pending row names this cipher and details and was in time and the attachment is free, and changes no row otherwise. |
| Uploads.UploadEnds | apps/api/src/handlers/attachments.ts:234-287 | Whatever others do in between, an upload whose publish found all that and did not throw ends with its row and its object stored; one that found it and threw with both and its key queued; any other with no row and its key queued. |
| Uploads.UploadAlone | apps/api/src/handlers/attachments.ts:234-287 | With nobody in between, that is all that has changed. |
| Uploads.PublishSendDecides | apps/api/src/services/sends/file-storage.ts:13-61 | The publish moves the Send to its object and queues the replaced one, if the Send is the user's, has this file and the expected object and is neither over nor purged, and changes no row otherwise. |
| Uploads.SendUploadEnds | apps/api/src/handlers/sends-public.ts:208-235 | An upload that was not published, or whose publish threw, ends with its key queued, whatever others do first. |
| Uploads.QueuedAsNew | apps/api/src/services/blob-gc.ts:16-32 | A key not yet queued is queued with no attempts and due at once; a queued one keeps its row. |
| BlobRuns.SoloDrain | apps/api/src/services/blob-gc.ts:98-151 | The interleaving model's steps for one row, run without interference, do what one pass of the loop does. |
| BlobRuns.ReferencedIffHeld | apps/api/src/services/blob-gc.ts:45-72 | The query over both tables finds a reference exactly when the one row the key belongs to holds it. |
| BlobRuns.StepKeepsSafe | apps/api/src/services/blob-gc.ts:34-153 | One step of any upload or drain keeps: a queued key's publish is over, a published object is stored, and what a drain found out about a key stays true. |
| BlobRuns.ReferencedObjectsAreNeverDeleted | apps/api/src/services/blob-gc.ts:98-151 | In every reachable state of any number of uploads and drains each referenced upload is in the store, and no drain about to delete an object has a row that references it. |
| BlobRuns.StoredAttachmentsAreTracked | apps/api/src/handlers/attachments.ts:234-287 | Every stored attachment object whose upload ran to its end is referenced or queued. |
| SendObjects.SendsTrackExactly | apps/api/src/services/sends/file-storage.ts:13-61 | A step loses track of a stored Send object if and only if it drops, as referenced, the row of an object the Send has meanwhile moved away from. |
| SendObjects.UnambiguousRunsLoseNothing | apps/api/src/handlers/sends-public.ts:208-235 | In every run in which no publish of a Send's object both commits and throws, each stored object whose upload ran to its end is held by its Send or queued. |
| SendObjects.LeakIsForGood | apps/api/src/services/blob-gc.ts:112-122 | Such an object stays in the store, unreferenced and unqueued, over every run. |
| SendObjects.SendObjectCanLeak | apps/api/src/handlers/sends-public.ts:208-235 | The leak is reachable: an ambiguous publish queues its key, a drain finds it referenced, and a replacement, whose insert is ignored, comes before the drain drops the row. |
| BlobFencing.StepMovesForward | apps/api/src/services/blob-gc.ts:98-151 | No step takes a queue row's pair of attempts and time back in lexicographic order while the row lives. |
| BlobFencing.ClaimIsFirst | apps/api/src/services/blob-gc.ts:98-110 | A claim that goes through takes a version nobody claimed before and writes one nobody held before. |
| BlobFencing.ClaimsAreFinal | apps/api/src/services/blob-gc.ts:98-110 | Over any run each version of a row is claimed at most once. |
| BlobFencing.OneFinisher | apps/api/src/services/blob-gc.ts:112-149 | At any time at most one drain's compare-and-set can match a row. |
| BlobFencing.LostIsLost | apps/api/src/services/blob-gc.ts:112-149 | A drain that has lost its claim never gets it back while the row lives. |
| BlobFencing.FinishingFinishes | apps/api/src/services/blob-gc.ts:112-149 | Whoever drops or defers a row ends every other drain's claim on it for good. |
| BlobFencing.DeferralMayComeSooner | apps/api/src/services/blob-gc.ts:135-149 | A deferral is forward in this order although the first three bring the time itself closer, and no later one does. |
| BlobDrains.CountersSumToRows | apps/api/src/services/blob-gc.ts:78-153 | At every moment of every run of drains and uploads, each drain's four counters count the rows that ended so and sum to the rows it has got through, claims lost to a rival included; a drain that threw stands at the row whose DELETE threw, uncounted. |
| BlobDrains.LostClaimIsContended | apps/api/src/services/blob-gc.ts:98-110 | Of two drains that read one version of a row, the one that comes second to its claim counts the row as contended, whatever happens in between, as long as the row is not dropped and queued anew. |
| BlobDrains.ReachedIsReachable | apps/api/src/services/blob-gc.ts:78-153 | Every run of whole drains is one of the interleavings of BlobRuns, so its theorems hold of it. |
| Hosts.ValidHostIffLabels | packages/shared/domain-normalize.ts:127-139 | A host is valid if and only if it has two labels or more, all good ones, is no dotted quad and is at most 253 long: the tests on the whole string add nothing else. |
| Hosts.LabelOkIff | packages/shared/domain-normalize.ts:127-139 | A label is good if and only if it is 1 to 63 letters, digits or hyphens, the first and last no hyphen. |
| Hosts.NormalizeExtractedHost | packages/shared/domain-normalize.ts:141-154 | The loop with its early returns keeps one label more than the longest listed suffix, or two labels. |
| Hosts.RegistrableIsStable | packages/shared/domain-normalize.ts:146-153 | What is kept is never a listed suffix itself, contains every listed suffix of the host strictly, and is kept unchanged when normalised again. |
| Hosts.NormalizedHostIsStable | packages/shared/domain-normalize.ts:127-154 | The result is a valid host of two or three labels that normalises to itself. |
| Hosts.NormalizeIsIdempotentIff | packages/shared/domain-normalize.ts:99-154 | Normalising twice gives what normalising once gives if and only if the labels kept of the extracted host do not read as an IPv4 address. |
| Hosts.NormalizeTwiceDiffers | packages/shared/domain-normalize.ts:99-154 | a.1.2 normalises to 1.2, and 1.2 to nothing. |
| DomainForest.Forest.Find | apps/api/src/services/domain-rules.ts:125-135 | Find terminates, returns the root, compresses the path and changes nobody's root. |
| DomainForest.Forest.Union | apps/api/src/services/domain-rules.ts:137-141 | Union links the two domains: afterwards two domains have one root exactly when the links made so far connect them. |
| DomainForest.Forest.LinkGroup | apps/api/src/services/domain-rules.ts:143-148 | All members of the group are connected and no link leaves the group. |
| DomainMerge.LinkGroups | apps/api/src/services/domain-rules.ts:143-148 | The links made for all groups connect exactly what the groups connect. |
| DomainMerge.CollectComponents | apps/api/src/services/domain-rules.ts:150-156 | While find rewrites the map under it, the pass sorts every domain once into the list of its root. |
| DomainMerge.MergeGroups | apps/api/src/services/domain-rules.ts:122-162 | The result lists the connected components of the groups: pairwise disjoint, no domain twice, every group of two or more. |
| DomainMerge.ComponentsHaveTwo | apps/api/src/services/domain-rules.ts:158-160 | The filter on two domains drops no component. |
| DomainGraph.OnlyComponents | apps/api/src/services/domain-rules.ts:122-162 | The components are the only partition of the domains that puts two together exactly when a chain of overlapping groups links them. |
| DomainGraph.ConnectedStaysTogether | apps/api/src/services/domain-rules.ts:122-162 | Chains relate no more than the least equivalence that relates the members of each group. |
| DomainRules.NormalizeEquivalentDomains | apps/api/src/services/domain-rules.ts:103-120 | The loop yields the normalised groups of two domains or more, each set of domains once. |
| DomainRules.NormalizedGroupsAreClean | apps/api/src/services/domain-rules.ts:103-120 | Those groups have no domain twice and are, as sets, exactly the normalised sets with two domains or more. |
| DomainRules.MergeEquivalentDomainGroups | apps/api/src/services/domain-rules.ts:122-162 | Merging raw groups lists the components of their normalised sets. |
| DomainRules.ExpandCustomEquivalentDomainsWithGlobals | apps/api/src/services/domain-rules.ts:164-176 | Expansion lists the merged groups that hold a custom domain. |
| DomainSettings.ActiveDomainsAreStable | apps/api/src/services/domain-rules.ts:182-222 | Normalising again keeps or drops a domain of a written rule and never changes it, so the domains of the active rules, normalised once more, all stay. |
| DomainSettings.StoringMergedLosesNothing | apps/api/src/services/domain-rules.ts:164-222 | For everything an update writes and any active globals, IPv4-like domains included, expanding the stored merged groups gives what expanding the rules that are not switched off gives: the components of those rules and the globals that hold a domain of such a rule. |
| DomainRules.ExcludingMoreRefines | apps/api/src/services/domain-rules.ts:253-281 | Excluding more global types only splits groups, for whatever custom groups: each later group lies inside an earlier one. |
| DomainGraph.ExpandingKeepsCustomGroups | apps/api/src/services/domain-rules.ts:164-176 | Every custom group lies in one expanded group. |
| DomainSettings.NormalizeCustomEquivalentDomains | apps/api/src/services/domain-rules.ts:182-214 | The loop yields the custom rules, ids trimmed or made up, each set of domains once. |
| DomainSettings.RulesComeFromItems | apps/api/src/services/domain-rules.ts:182-214 | The rules are, as sets, exactly the items with two domains or more, each set once, with the id and the switch of the first item that has it. |
| DomainSettings.UpdateTakes | apps/api/src/handlers/domains.ts:60-126 | An update takes the payload's rules, failing that its plain groups as rules in force, failing that the stored rules; and the payload's excluded kinds as far as they are known, failing that the stored ones. |
| DomainSettings.StoredGroupsAreChains | apps/api/src/handlers/domains.ts:92-104 | For everything an update writes, two domains lie in one stored group if and only if a chain of rules that are not switched off links them. |
| DomainSettings.NormalizingTwiceIff | apps/api/src/services/domain-rules.ts:182-214 | Normalising rules again gives the same rules, ids included, if and only if no domain of theirs changes. |
| DomainSettings.NormalizeExcludedGlobalTypes | apps/api/src/services/domain-rules.ts:224-251 | The loop keeps exactly the known, excluded types, each once. |
| DomainSettings.DomainSettingsStore.GetDomains | apps/api/src/handlers/domains.ts:30-57 | The response is the one for the row as it reads. |
| DomainSettings.DomainSettingsStore.UpdateDomains | apps/api/src/handlers/domains.ts:60-126 | The row holds the normalised rules, their merged active groups and the excluded types, and the response is the one for it. |
| DomainSettings.ReadsBackIff | apps/api/src/handlers/domains.ts:30-126 | A read after a write answers what the write answered, if and only if no custom domain changes by normalising it again. |
| DomainSettings.ReadsBackUnlessIpv4 | apps/api/src/handlers/domains.ts:30-126 | With the real normalisation that is: the read answers what the write answered if and only if no written domain reads as an IPv4 address. |
| DomainSettings.RulesReadBackUnlessIpv4 | apps/api/src/services/domain-rules.ts:182-214 | The written rules are read as they are under the same condition. |
| DomainSettings.RuleCanVanish | apps/api/src/services/domain-rules.ts:182-214 | A rule of a.1.2 and a.b is written and is gone when it is read. |
| DomainGraph.ComponentsAreClasses | apps/api/src/services/domain-rules.ts:150-156 | Two domains have one component exactly when a chain links them. |
| DomainSettings.ResponseIsComponents | apps/api/src/services/domain-rules.ts:253-281 | The response to any update lists the components of the rules that are not switched off and the globals that are not excluded, as far as they hold a domain of such a rule. |
| DomainSettings.ResponseIsChains | apps/api/src/services/domain-rules.ts:253-281 | The response puts two domains together if and only if such rules and globals link them to each other and to a domain of such a rule. |
| DomainSettings.ResponseTells | apps/api/src/services/domain-rules.ts:253-281 | The response tells the stored rules and every global with its kind, its domains and whether it is excluded. |
| OrganizationMembers.Database.InviteMember | apps/api/src/handlers/organization-members.ts:176-285 | The member and its collections are inserted together, exactly when the acting row still stands, the address and user are new to the organization and the collections exist. |
| OrganizationMembers.Database.UpdateMember | apps/api/src/handlers/organization-members.ts:340-407 | Role and collections change together, exactly when target and actor rows are the ones that were read and the collections exist. |
| OrganizationMembers.Database.RemoveMember | apps/api/src/handlers/organization-members.ts:438-484 | The member goes with its collections exactly when target and actor rows are the ones that were read. |
| OrganizationMembers.Database.GrantCollections | apps/api/src/services/db/batch/revisions.ts:190-222 | One insert for each requested collection, if the member carries the batch's token. |
| OrganizationRuns.ExactlyOneOwner | apps/api/src/handlers/organizations.ts:144-164 | In every reachable state each organization has exactly one owner row, a confirmed one, and it is the same row for ever. |
| OrganizationRuns.RoleChangesAreAuthorized | apps/api/src/handlers/organization-members.ts:28-30 | Over all interleavings, whoever gives, changes or takes a role is at that moment a confirmed member of the organization above the old role and the new one. |
| OrganizationRuns.UpdateGrantsExactly | apps/api/src/handlers/organization-members.ts:362-386 | A committed update leaves the member with exactly the requested collections and everybody else with theirs. |
| OrganizationRuns.OneUpdatePerVersion | apps/api/src/handlers/organization-members.ts:340-375 | Of updates that decided on one version of a member, one at most ever goes through. |
| OrganizationRoles.InviteIff | apps/api/src/handlers/organization-members.ts:176-285 | Over every run an invitation goes through if and only if the inviter is still the confirmed member that was read and ranks above the role, the account is active and new to the organization and the collections are the organization's; it leaves a confirmed member of that role with those collections. |
| OrganizationRoles.UpdateIff | apps/api/src/handlers/organization-members.ts:340-407 | An update goes through if and only if both rows are the ones that were read, the actor is confirmed, in the same organization and above the old role and the new one, and the collections are the organization's; it changes that member alone. |
| OrganizationRoles.RemoveIff | apps/api/src/handlers/organization-members.ts:438-484 | A removal goes through under the same conditions and takes that member and its collections alone. |
| OrganizationRoles.NobodyIsTwiceAMember | apps/api/src/handlers/organization-members.ts:176-285 | However invitations race, nobody is in an organization twice, by account or by address. |
| OrganizationRoles.CreateLeaves | apps/api/src/handlers/organizations.ts:144-164 | A new organization has its owner, confirmed and with access to everything, and one collection. |
| DeviceTrust.Database.UpdateDevicesTrust | apps/api/src/handlers/devices.ts:120-213 | From any state either nothing changes or all of it: the current device has its new keys, every other device trusted when read has its new keys or none, and nothing else changes. |
| DeviceTrust.NewKeysOrNone | apps/api/src/handlers/devices.ts:169-205 | A device that was trusted when read ends with the supplied keys around the private key that was read, or with no keys at all. |
| DeviceTrust.PrecheckTells | apps/api/src/handlers/devices.ts:122-141 | The rotation is refused as not found if the current device was not read or an update names a device that was not, and as a bad request if it updates the current one. |
| DeviceTrust.ClaimsIff | apps/api/src/handlers/devices.ts:150-168 | It goes through exactly when its own device and every device that was read are there with the tokens that were read. |
| DeviceTrust.RotationLeaves | apps/api/src/handlers/devices.ts:150-205 | The current device has its new keys around its old private key, the other trusted ones are marked with the token and a later time, and every device that is untrusted, unread or another user's is as it was. |
| DeviceTrust.OneRotationPerRead | apps/api/src/handlers/devices.ts:150-168 | Of rotations that read the same devices one at most goes through. |
| Registration.Database.RegisterAccount | apps/api/src/handlers/public.ts:136-191 | The statements in order, undone as soon as one fails, register the user with all that belongs to it or change nothing. |
| Registration.RegistrationIff | apps/api/src/handlers/public.ts:52-182 | Over every run a registration goes through if and only if its address is free, its invitation, if any, is open, in time and for that address, and either nobody has registered, it read that and knows the secret, or it read a system in use and signups are open or it is invited. |
| Registration.RegistrationLeaves | apps/api/src/handlers/public.ts:110-182 | It adds its user, an administrator if and only if it read an empty system, and closes its invitation in the user's name. |
| Registration.OneBootstrapAccount | apps/api/src/handlers/public.ts:52-86 | Over all concurrent registrations nobody registers before the account that holds the bootstrap lock, and nobody else registers as an administrator. |
| Registration.BootstrapOnlyOnce | apps/api/src/handlers/public.ts:153-158 | A registration that read an empty system goes nowhere once anybody has registered. |
| Registration.OneUserPerInvite | apps/api/src/handlers/public.ts:159-182 | Each invitation brings in at most one user, the one named in its lock and, while its row exists, in used_by. |
| Registration.UsedInviteHasUser | apps/api/src/handlers/public.ts:174-182 | An invitation that reads as used has brought in the user it names. |
| MutationTokens.FolderStore.UpdateFolder | apps/api/src/handlers/folders.ts:65-92 | The rename, its later time and its revision happen exactly when the folder's token is the one that was read. |
| MutationTokens.FolderStore.DeleteOwnedFolders | apps/api/src/handlers/folders.ts:94-247 | Exactly the folders that are still as they were read go; their ciphers and the user's settings of ciphers are unfiled, no other changes, and none is left filed in a folder that is gone. |
| MutationTokens.FolderStore.ConditionalFolderRevision | apps/api/src/services/db/batch/folders.ts:26-45 | The revision rises exactly when some folder carries the batch's token. |
| MutationTokens.WritesFormOneChain | apps/api/src/handlers/organization-collections.ts:163-185 | Over any interleaving a write that goes through replaces the very row it was computed from, so successful writes form one chain of strictly newer versions. |
| MutationTokens.RenamesMoveForward | apps/api/src/handlers/organizations.ts:206-258 | A rename moves updated_at strictly forward even when the clock has gone back, and changes nothing but name, time and token. |
| MutationTokens.OneWriterPerVersion | apps/api/src/handlers/folders.ts:65-92 | Of any number of writers that read one version, one at most ever gets through. |
| MutationTokens.RenameIsUpdateFolder | apps/api/src/handlers/folders.ts:65-92 | What the rename does to the folders is what a rename step does to the rows of a run, owner check included. |
| MutationTokens.DeletesAreDeleteOwnedFolders | apps/api/src/handlers/folders.ts:94-247 | What the deletion of any folders does is what delete steps, one for each, do to the rows of a run. |
| MutationTokens.UnfilingLeaves | apps/api/src/handlers/folders.ts:94-247 | The user's ciphers filed in a deleted folder are filed nowhere, strictly later than before; the user's settings likewise at the batch's time; all others are as they were. |
| MutationTokens.RevisionsRise | apps/api/src/services/db/batch/revisions.ts:6-20 | A revision rises strictly and reaches the present time, and no other user's revision moves. |

## Left out

- HTTP routing, middleware, request schemas, response shapes and status codes; the model starts where a handler has its input and ends with the rows it leaves.
- SQL text: a statement is its effect on the tables, and a batch is atomic with rollback, as the platform guarantees.
- Ids, hashes, stamps and tokens are opaque numbers; hashing, encryption, JWT signatures, TOTP and WebAuthn checks are not modelled, and drawn values are fresh.
- Foreign-key cascades of user rows, which are never deleted; the explicit deletes of the modelled batches are all there.
- Columns that no modelled guard reads, such as device names, types and push tokens, key material and audit events.
- Restoring and importing backups, which replace whole tables.
- IdentityTables.Database.RotateStampBatch: one method stands for fifteen handlers (password; authenticator on and off; second factor off; recovery, signed in or at login; security keys saved and off; passkeys of both kinds added and removed; all second-factor passkeys removed; all devices removed; bans); what they check before their batch, and key material and counters of a passkey, are not modelled.
- Passkey assertions at login, which use challenges of other scopes, and deletions of single trusted-device tokens.
- AccountDeletion.Database.DeleteAccountData: the archived mail address and its later repair are not modelled.
- IdentityTables.Database.IssueIdentitySession: a method runs alone, so its retry never fires; LoginRetries has the interleaved login.
- A device's session stamp is not claimed to stay dead after deleteDevice: a login that read it earlier can insert it again.
- LoginAttempts.SlidingWindowBound: is about sequential attempts, because concurrent requests may all pass the lock check before one records; for those only the count is claimed.
- The JSON variant of the notification and MessagePack for fractional numbers, which the encoder truncates.
- BlobTables.BlobStorage.DrainBlobGcQueue: nothing interferes after its SELECT; the interleaved drain is the state machine of BlobRuns and BlobDrains, one step for each await.
- BlobDrains.CountersSumToRows: a drain may hold any due rows, in any order, at most BATCH_LIMIT of them; that the SELECT takes the earliest first is not modelled.
- Rows written by restores and their queue entries; a Send row without a storage key never queues the default object it replaces, and nothing is claimed about such objects.
- The URL parser: extracting a host from an arbitrary string is a parameter, fixed only on valid hosts by section 3.5 of the WHATWG URL Standard.
- Sorting of domains and groups (localeCompare and the default sort); results are groups in any order, and the sorted key of a group is its set of domains.
- Settings rows that are not valid JSON of the stored shape, which read as empty lists.
- The static list of global domains; every list is covered.
- BlobRuns.StoredAttachmentsAreTracked: says nothing about uploads that stop half-way, which leave their object behind by design.
- That the organization is not deleted when a member batch commits: the handlers check it only when they read.
- Demo mode, rate limits, captchas and the policy texts of registration.
- untrustDevices, which leaves mutation tokens alone, and so no claim that a rotation sees it.
