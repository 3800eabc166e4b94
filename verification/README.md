# Space: a verified model of uploads, storage, folders, previews and limits

This project models the hard part of the Space backend (Go, PostgreSQL, a local object store, Redis) in
Dafny and proves what the program promises about it: no byte of a live file is lost, the quota ledger adds
up, the folder forest stays a forest, the public views of a share agree, the preview queue makes progress
within its retries, the rate limiter limits, and the wire formats round-trip.

Verify everything with `dafny verify dfyconfig.toml`.

## How it is built

| files | what they hold |
|---|---|
| `Types`, `Strings`, `Decimal`, `Ordering` | shared values; the string and number functions the program leans on; sorting under a given collation |
| `Disk`, `LocalStorage`, `Paths` | an abstract POSIX disk; the storage methods over paths, and the same methods over the program's keys as operations on the abstract disk; lexical cleaning and key resolution |
| `UploadModel` | uploads, storage and the ledger as a machine of interleaved request steps |
| `UploadInvariant`, `UploadStructure*`, `UploadContents*`, `UploadLedger`, `UploadRuns` | its inductive invariant and the proof that every step keeps it |
| `UploadFrames` | runs step by step; what a step leaves alone |
| `UploadTheorems`, `UploadAborts`, `UploadCompletion`, `UploadTrust` | what the invariant means, over all reachable states and all runs: contents and ledger; requests that end without committing what they wrote; what a completion stores; from when on a session can be trusted |
| `UploadWitnesses` | reachable states and runs that show why the conditions are there |
| `UploadServer` | the handlers as imperative code on one shared server, any other requests running between any two statements |
| `Folders`, `Zip`, `Shares` | the folder tables, their handlers and recursive queries; the folder archive; the public views of a share |
| `PreviewQueue`, `PreviewRunner` | the job table under several workers as a machine; one worker's polling loop as imperative code |
| `RateLimiter` | the limiter class and its timed runs |
| `Ranges`, `CopyPart` | single byte ranges; the streaming copy of a multipart file |
| `Base64`, `TusMetadata`, `Password` | one base64 codec and the two formats built on it |

The upload machine is one step per storage call and per statement that takes a lock or commits. A process
keeps its locals, its row locks and the rows its open transaction has buffered. A failing statement ends the
transaction, as it does in PostgreSQL: the buffered rows and the locks are gone before the compensation runs.
Ending a process at any point (a crash, an early return) does the same and leaves the disk as it is. The disk is a table of names over inodes, so a rename or an unlink under an open handle does what POSIX
does. In `UploadServer` every change of state goes through one method that extends a recorded run of the
machine, so each theorem about reachable states applies between any two statements of a handler. Faults (a failing
statement or Move, an early end, a client that goes away) are free choices, and each leaves its step in the run; on a
server that is `calm` there are none, and the contracts say what the states a request sees then make of it.

## Findings

Where the program does less than one might expect, the model follows the program, a reachable state or a
concrete input shows the difference, and the exact condition is proved.

- **A lost temporary object comes back empty.** When a request dies between the Move to the final key and
  the COMMIT, the temporary object is gone. The next chunk is refused for its offset, but the open with
  O_CREATE that precedes the comparison (`backend/internal/storage/local.go:80-92`) has created an empty
  object, and completing the session then moves that one: a live file of n bytes with an empty object
  (`UploadWitnesses.HollowFileReachable`). The condition can be looked up before the Move: the file a
  completion commits, whatever runs in between, holds what was accepted if and only if the temporary object
  then has the length the session row counts (`UploadCompletion.CompletionExact`). It is the comparison
  AppendAt makes and uploadComplete does not.
- **An acknowledged chunk can be lost.** tusDelete removes the object even when its UPDATE failed
  (`backend/internal/http/tus.go:298-299`); a chunk that is being written then answers 200 and its session stays
  writable without an object (`UploadWitnesses.LostChunkReachable`). The object holds the committed bytes if
  and only if the temporary name still denotes the file the chunk has open, or nothing is committed and some
  object is there (`UploadTheorems.CommittedChunkExact`).
- **The compensation after a failing statement runs without the row lock.** An INSERT (the ordinary name clash), an
  UPDATE or a COMMIT that fails has released the row before Move puts the object back. While nothing is
  committed for the session another request can lock the row and write a new object meanwhile, and then the
  old bytes replace it: a live file with other bytes than its client sent, of undeclared length
  (`UploadWitnesses.WrongFileReachable`), or of declared length and made by a PATCH that carried it all
  (`UploadWitnesses.WrongPatchReachable`). Once a byte is committed a new object has the wrong length and is
  refused, so a session that can be written to is trusted for good, whatever follows, if and only if something
  is committed (`UploadTrust.TrustedExactly`). Before, it can become *exposed*: exactly when a statement fails
  of a finalization that began with nothing committed and has moved an object that is not empty
  (`UploadTheorems.ExposedExactly`). Only an exceeded quota is compensated under the lock. The theorems about
  contents leave out just the exposed sessions; a file of one of these is right if and only if the object
  under the temporary key was right at the Move (`UploadCompletion.CompletionExact`).
- **An aborted write is the end of a session if and only if something was committed before**, or somebody has
  ended it (`UploadAborts.SticksExactly`), however the request gives up: refused, cut short, over quota, a name
  taken, a failing statement or COMMIT, a crash, before, after or without its compensation
  (`UploadAborts.AbortedWriteSticks`, `UploadAborts.StuckForever`). At zero committed bytes the object can be
  removed by a tusDelete whose UPDATE failed and made anew at the right length
  (`UploadWitnesses.ZeroWitness`). This too is about sessions that are not exposed; in one that is, a chunk
  was aborted after two committed bytes and another one taken later (`UploadWitnesses.UndoneUnsticks`).
- **A finalizing PATCH with an empty body** can store an empty object
  (`UploadWitnesses.EmptyPatchReachable`). It takes two completions of which a statement failed, and the second
  compensation between the open and the Move of the PATCH. In a session that is not exposed a PATCH that
  carries bytes always stores exactly what was accepted (`UploadTheorems.FinalizedContent`).
- **A share of a deleted folder still lists** the live files directly in it on its entry page, although they
  cannot be fetched. The views agree exactly when that list is empty (`Shares.ViewsAgreeExactly`); creating a
  folder, sharing it, deleting it and completing an upload into it makes the list non-empty
  (`Shares.LateFileListed`).
- **A storage root of "/" or "."** makes `resolve` refuse every object (`Paths.ResolveAccepts`).
- **Normalizing a name** trims before it drops slashes, so a second time can change it
  (`Strings.NormalizeOnceOnly`, exactly when: `Strings.NormalizeTwice`).
- **The Retry-After header** is shorter than the wait it stands for unless the wait is whole seconds or under
  one (`RateLimiter.HeaderSuffices`); a request that waits as told can be denied again
  (`RateLimiter.HeaderFallsShort`).
- **The rate limit per interval** is 2 * limit - 1, not 2 * limit (`RateLimiter.LimitPerInterval`). That bound
  is reached for every limit and every window of at least two milliseconds (`RateLimiter.BoundReached`); a
  window of one millisecond admits limit (`RateLimiter.LimitPerMillisecond`).

## Model

| member | source | states |
|---|---|---|
| UploadRuns.InvStep | backend/internal/http/uploads.go:148-261 | every step of every request, crash and compensation keeps the structure of rows, locks and objects, the contents invariant and the ledger |
| UploadRuns.InvReachable | backend/internal/http/uploads.go:297-398 | every reachable state of the interleaved handlers satisfies the invariant |
| UploadRuns.StepExtends | backend/internal/http/uploads.go:460-485 | rows only move forward: terminal sessions keep status class, file and bytes; committed bytes only grow at the end; files keep owner, size and object key |
| UploadTheorems.TerminalAbsorbing | backend/internal/http/uploads.go:400-432 | over every run the set of terminal statuses is absorbing and a terminal session keeps its file and its bytes, though cancel and expiry take no status guard |
| UploadTheorems.OneCommitPerSession | backend/internal/http/uploads.go:320-382 | over every run, the number of files committed for a session is the change of "has a file": at most one, with its one usage increment |
| UploadTheorems.OneFilePerSession | backend/internal/http/tus.go:306-342 | two file rows of one session are the same row, and the session names it |
| UploadTheorems.LiveFilesHaveObjects | backend/internal/http/files.go:135-193 | crash safety: in every reachable state each live file has its own object in storage |
| UploadTheorems.LiveFilesImmutable | backend/internal/http/uploads.go:344-393 | over every run the bytes of a live file never change |
| UploadTheorems.FinalizedContent | backend/internal/http/tus.go:225-261 | what the object of a live file holds for each way it was made: a part exactly; of a session that is not exposed, a tus upload all accepted bytes, of the declared length, unless its last PATCH carried nothing and found an empty object, and a completed upload the accepted bytes as a prefix or the empty stand-in, with equality to one of the two when no request was aborted after writing |
| UploadTheorems.ExactIffLength | backend/internal/http/uploads.go:339-355 | a live file's object is what was accepted if and only if its length is the size in the row, unless it comes from an exposed session |
| UploadTheorems.TempObjectFits | backend/internal/http/uploads.go:217-254 | the temporary object of a writable session that is not exposed starts with the concatenation of the committed chunks, whose length is uploaded_bytes, or is the empty stand-in of a lost one |
| UploadTheorems.LengthCheckSuffices | backend/internal/storage/local.go:86-92 | such an object starts with the committed bytes exactly when it is long enough and is them exactly when its length is uploaded_bytes |
| UploadTheorems.CommittedChunkExact | backend/internal/http/uploads.go:227-257 | a committed chunk extends the committed bytes by exactly its body; the temporary object holds them if and only if its name still denotes the file the request has open (or nothing is committed and an object is there), otherwise it is missing or empty |
| UploadTheorems.ExposedExactly | backend/internal/http/uploads.go:356-393 | a step exposes a session if and only if a statement fails of a finalization of it that began with nothing committed and has moved an object that is not empty |
| UploadTheorems.ExposedNeedsAbort | backend/internal/http/tus.go:318-346 | over every run an exposed session had a request that wrote bytes it did not commit |
| UploadTrust.TrustedExactly | backend/internal/http/tus.go:306-342 | a writable session that is not exposed keeps its object and its file right or empty over every run if and only if something is committed for it |
| UploadCompletion.CompletionExact | backend/internal/http/uploads.go:339-382 | the file a finalization commits, whatever runs between its Move and its COMMIT, holds the object that was under the temporary key at the Move; unless the session is exposed that is just the accepted bytes if and only if it had the length of the row |
| UploadAborts.AbortedWriteSticks | backend/internal/http/tus.go:236-268 | however a request gives up that has written bytes it does not commit (inside AppendAt, refused, or anywhere in its finalization: a failing statement, the quota, the compensation), a writable session with committed bytes that is not exposed is stuck |
| UploadAborts.StuckForever | backend/internal/storage/local.go:86-92 | over every run a stuck session stays stuck: no append ever succeeds again |
| UploadAborts.SticksExactly | backend/internal/storage/local.go:86-98 | after an aborted write nothing is ever committed again for a session that is not exposed if and only if something was committed before or it is terminal |
| UploadTheorems.LedgerExact | backend/internal/http/files.go:1417-1431 | used_storage_bytes is the sum of live sizes plus sizes dropped by folder deletes since the last recalculation; the clamp at zero never fires |
| UploadTheorems.RecalculationExact | backend/internal/http/admin.go:231-252 | both recalculation statements together make every user exact and raise nobody |
| UploadTheorems.RecalculationTables | backend/internal/http/admin.go:231-252 | the recalculation changes the usage and nothing else in the tables, and afterwards no dropped row is charged to anybody |
| UploadTheorems.TableSteps | backend/internal/http/folders.go:298-312 | deleting folders takes exactly the live files of their owner out of the files table and leaves the usage as it is; a new user has used nothing and a new quota changes only that |
| UploadTheorems.UsageRises | backend/internal/http/uploads.go:366-376 | the only step that raises usage commits one live file of that size and leaves the usage within the quota then in force |
| UploadTheorems.QuotaRespected | backend/internal/http/uploads.go:499-509 | if no quota is lowered, used is within quota in every state of every run, without the unlocked pre-check |
| UploadWitnesses.HollowFileReachable | backend/internal/storage/local.go:80-92 | a reachable live file of size 1 with an empty object, from a crash, a refused chunk and a completion |
| UploadWitnesses.WrongFileReachable | backend/internal/http/uploads.go:389-393 | a reachable live file with wrong bytes of the right length, from the failed COMMIT of an empty completion |
| UploadWitnesses.WrongPatchReachable | backend/internal/http/tus.go:318-320 | a reachable live file of declared length, made by a PATCH that carried its byte, with another byte, from the failing INSERT of an earlier PATCH |
| UploadWitnesses.LostChunkReachable | backend/internal/http/tus.go:298-299 | a reachable writable session with a committed byte, acknowledged with 200, and no object |
| UploadWitnesses.EmptyPatchReachable | backend/internal/http/tus.go:257-261 | a reachable live tus file of size 1 with an empty object |
| UploadWitnesses.ZeroWitness | backend/internal/storage/local.go:90-98 | with nothing committed, a session with uncommitted bytes in its object takes a byte again |
| UploadWitnesses.UndoneUnsticks | backend/internal/http/uploads.go:389-393 | in an exposed session a chunk is aborted after two committed bytes and a later one is taken |
| UploadServer.ChunkLockMeaning | backend/internal/http/uploads.go:184-215 | on the row it locked a chunk is refused exactly for a terminal status or another offset, with 409, or a row above the configured maximum already, with 413; nothing of its user is 404 |
| UploadServer.ChunkAnswerMeaning | backend/internal/http/uploads.go:217-237 | a chunk that was let in is answered 200 exactly when the object has the counted length and the whole body fits, 413 exactly above the configured maximum, 409 exactly for another length or above the declared one |
| UploadServer.PatchLockMeaning | backend/internal/http/tus.go:211-228 | on the row it locked a PATCH is refused exactly without a declared length (400), when completed already (204), and when ended otherwise or at another offset (409) |
| UploadServer.PatchAnswerMeaning | backend/internal/http/tus.go:230-261 | a PATCH that was let in: 500 for an object of another length, 409 above the declared length, 204 below it, and otherwise it goes on to finalize |
| UploadServer.QuotaExactly | backend/internal/http/uploads.go:499-509 | with the users row locked a file can be committed if and only if there is no quota or the usage and its size are within it, and is compensated for the quota if and only if they are above it |
| UploadServer.ChunkFinished | backend/internal/http/uploads.go:227-261 | an answer of 200 to a chunk means the whole body was appended at the named offset, within the configured and the declared size |
| UploadServer.PatchFinished | backend/internal/http/tus.go:242-261 | a PATCH short of the declared length that answers 204 appended its whole body; one that reaches it goes on to finalize exactly that content |
| UploadServer.CommitGrows | backend/internal/http/tus.go:306-342 | the COMMIT of a last PATCH takes the committed bytes from what they were when it held the row to that and its body |
| UploadServer.CompletedSession | backend/internal/http/uploads.go:330-333 | a completed session names a file of its own whose size is the session's, and the declared one |
| UploadServer.Server.OpenSession | backend/internal/http/uploads.go:95-146 | a session starts with nothing uploaded; refused with 400 exactly for a missing or non-positive length, with 413 exactly when the length is above the configured maximum or, with what is used, above the quota |
| UploadServer.Server.AppendAt | backend/internal/storage/local.go:71-99 | an append is refused exactly when the object had, at the step that opened it, another length than the row counts; one that succeeds wrote all its bytes in order, whatever ran in between |
| UploadServer.Server.LockForAppend | backend/internal/http/uploads.go:174-215 | the handler decides on the row as it is at the step that locks it; a refusal is the one that row calls for, or the row stayed locked |
| UploadServer.Server.UploadChunk | backend/internal/http/uploads.go:148-261 | the chunk handler against other requests: the answer is the one called for by the row at its own Lock step and the object at its own OpenTemp step of the recorded run, unless it was cut short; 200 means its own last step took the committed bytes from what they were at the open to that and the body; without faults 500 only for a row that stays locked |
| UploadServer.Server.TusPatch | backend/internal/http/tus.go:168-271 | as for a chunk; a PATCH that reaches the declared length is answered by how its own transaction ended, and 204 then means that its COMMIT added exactly the body and completed the session; 204 otherwise that its last step added exactly the body, or that the session was completed already; without faults 500 only for a locked row, an object of another length, or a finalization that is hindered |
| UploadServer.Server.FinalizeDraft | backend/internal/http/uploads.go:344-393 | Move, insert, charge, quota check, commit and the compensations: each way to fail has its step and its reason in the run, over quota only when usage and size exceed the quota or a statement fails; success means the file row is committed, live, charged within the quota and linked, with the object that was moved; without faults it succeeds exactly unless the object is missing, the users row stays locked or the quota is exceeded |
| UploadServer.Server.StatementFails | backend/internal/http/uploads.go:356-386 | a failing INSERT, UPDATE or COMMIT releases the locks, others run, and then the compensation ends the request; when its Move succeeds, the object is under its temporary key again with the bytes that were moved, and a part's is gone |
| UploadServer.Server.Compensate | backend/internal/http/uploads.go:370-374 | the same for an exceeded quota, with the session row still locked; without faults the compensation succeeds |
| UploadServer.Server.UploadComplete | backend/internal/http/uploads.go:297-398 | on the row it locked: 404 for nothing of its user, 200 when completed already, 409 when ended otherwise or when fewer or more bytes than declared were uploaded, each leaving every table and object as it was; any other row is let in, and the answer is how the transaction of a draft of all it had accepted ended; 200 means the session is completed with a file of its size and of those bytes; without faults 200 exactly unless hindered like that |
| UploadServer.Server.UploadPart | backend/internal/http/files.go:110-199 | the part's transaction ends over quota, by a failing INSERT, broken or done, each with its step and reason in the run; over quota only when usage and size exceed the quota or a statement fails; done means a live file of the part's size whose object is the part; without faults done exactly unless hindered |
| UploadServer.Server.Retire | backend/internal/http/uploads.go:423-429 | the unguarded status update is tried: done, the session had the new status at a moment of the run and is terminal; failed, the request stops or goes on by its kind; whenever it goes on the temporary object is removed; without faults it is done exactly when the row is not locked |
| UploadServer.Server.CancelSession | backend/internal/http/tus.go:273-304 | cancel and tus DELETE: not found exactly for foreign or missing sessions; otherwise its own UPDATE took place or failed, and the answer says which except for tus; afterwards the object is gone; without faults the UPDATE fails only for a locked row |
| UploadServer.Server.SweepExpired | backend/internal/maintenance/cleanup.go:44-65 | every expired session that was writable is tried: it loses its object, and is reported unless its UPDATE failed; each reported one was expired at a moment of the run, is terminal, and was so without object at a moment; without faults an UPDATE fails only for a locked row |
| UploadServer.Server.DeleteFile | backend/internal/http/files.go:1387-1444 | 404 only for a file that was missing, foreign or not live at the call or at this request's own DeleteRow step; 500 only by its own end; otherwise 200, and its own step removed just that row and took just its size off the owner's usage, and the object is gone; without faults 500 only while the users row is locked |
| UploadServer.Server.Recalculate | backend/internal/http/admin.go:231-255 | every user's usage is the sum of live files and no higher than before |
| LocalStorage.Storage.PutStream | backend/internal/storage/local.go:36-69 | on success just the object changes, to the whole stream; on failure nothing but the scratch file does; at every moment in between the object is the old or the whole new one |
| LocalStorage.Storage.AppendAt | backend/internal/storage/local.go:71-99 | appends exactly at the end or refuses, having created a missing object; a broken read leaves what arrived |
| LocalStorage.Storage.Move | backend/internal/storage/local.go:202-221 | renames one object over another, or changes nothing |
| LocalStorage.Storage.Delete | backend/internal/storage/local.go:150-162 | removes one object; a missing one is no error |
| LocalStorage.Storage.GetRangeStream | backend/internal/storage/local.go:115-148 | exactly the requested slice of an existing object, clamped at its end, or a refusal for positions outside |
| LocalStorage.MintedPaths | backend/internal/storage/local.go:223-239 | below every proper root the program's keys are accepted, have paths of their own, and no scratch file is in the way of any |
| LocalStorage.NewStore | backend/internal/storage/local.go:16-34 | below every proper root there is a store of distinctly named keys, empty at first |
| LocalStorage.ObjectStore.Put | backend/internal/storage/local.go:36-69 | on the program's keys PutStream is one Put of the abstract disk, and at every moment in between the files stand for the disk before or after it |
| LocalStorage.ObjectStore.Append | backend/internal/storage/local.go:71-99 | on the program's keys AppendAt is Open and, when the length agrees, Write |
| LocalStorage.ObjectStore.Move | backend/internal/storage/local.go:202-221 | on the program's keys Move is Rename, or nothing |
| LocalStorage.ObjectStore.Remove | backend/internal/storage/local.go:150-162 | on the program's keys Delete is Remove |
| LocalStorage.ObjectStore.ReadRange | backend/internal/storage/local.go:115-148 | a range read answers exactly for positions inside an object and gives that slice of the abstract disk |
| Paths.CleanLeads | backend/internal/storage/local.go:229-229 | cleaning keeps where a path leads, from every working directory |
| Paths.CleanIdempotent | backend/internal/storage/local.go:229-229 | a cleaned path is clean and has the same segments |
| Paths.ResolveStaysInside | backend/internal/storage/local.go:223-239 | every accepted key leads to the root or to something reached from it by plain names alone |
| Paths.ResolveAccepts | backend/internal/storage/local.go:223-239 | exactly which keys are accepted, for every clean root |
| Paths.ResolveInjective | backend/internal/storage/local.go:234-238 | two keys share a path only when they clean to the same segments |
| Paths.KeysApart | backend/internal/http/files.go:114-115 | the keys minted for temporary, stored and preview objects resolve to different paths unless they are the same, and no scratch file is an object |
| Folders.RecursiveQuery | backend/internal/http/folders.go:281-288 | the recursive UNION ALL query ends on every forest and returns each row of the subtree exactly once |
| Folders.NextLevel | backend/internal/http/folders.go:284-287 | one iteration yields exactly the next level, without repeats |
| Folders.DepthUnique | backend/internal/http/folders.go:281-288 | a folder is found at one depth only |
| Folders.TreeByPaths | backend/internal/http/folders.go:281-288 | a folder is in a recursive query exactly when a chain of parent links leads from the root to it whose rows all pass the filter |
| Folders.LiveNamesDiffer | backend/migrations/0001_init.sql:38-56 | no two live folders below one parent and no two live files in one folder share a name, in every forest the handlers keep |
| Folders.NoCycle | backend/internal/http/folders.go:352-387 | no folder lies below itself, deleted folders included |
| Folders.LivePart | backend/internal/http/folders.go:281-288 | below a folder everything has its owner, and above a live folder everything is live |
| Folders.TreesAgree | backend/internal/http/folders.go:364-372 | the live owned query, the live query and the live part of the full subtree are the same set, so checking live descendants before a move is enough |
| Folders.MoveKeepsRanked | backend/internal/http/folders.go:383-387 | moving a folder to a parent outside its full subtree keeps the forest acyclic |
| Folders.FolderStore.CreateFolder | backend/internal/http/folders.go:150-197 | keeps the forest; 400 and 404 exactly for a bad name or parent, 409 exactly when another live row of the owner below that parent has the name; on success one new live row under the normalized name |
| Folders.FolderStore.RenameFolder | backend/internal/http/folders.go:203-248 | keeps the forest; exact answers, 409 exactly for a live namesake below the same parent; only the name changes |
| Folders.FolderStore.MoveFolder | backend/internal/http/folders.go:352-399 | keeps the forest; 400 exactly for a bad parent or one anywhere in the full subtree, 409 exactly for a live namesake at the destination; only the parent link changes |
| Folders.FolderStore.DeleteFolder | backend/internal/http/folders.go:270-317 | exactly the full subtree's folders and files become deleted, late files in deleted subfolders included, and nothing live is left below |
| Folders.FolderStore.MoveFile | backend/internal/http/files.go:1355-1381 | keeps the forest; exact answers, 409 exactly for a live file of that name and owner in the destination, which is live; the file changes folder only |
| Folders.FolderStore.RenameFile | backend/internal/http/files.go:1298-1321 | keeps the forest; exact answers, 409 exactly for a live namesake in the folder; only the name changes, not the name it was uploaded under |
| Folders.FolderStore.AddFile | backend/internal/http/uploads.go:344-355 | a late file may land in a deleted folder of its owner and the forest is kept; refused exactly for a live file of that name in the folder |
| Strings.NormalizedPlain | backend/internal/http/folders.go:449-454 | a normalized name has no slash and no backslash |
| Strings.TrimExact | backend/internal/http/folders.go:449-454 | trimming takes the white space off both ends, all of it and nothing else |
| Strings.NormalizeParts | backend/internal/http/folders.go:449-454 | of a name with slashes all parts are kept in their order, joined without them; only white space at the two ends is lost |
| Strings.NormalizeTwice | backend/internal/http/folders.go:449-454 | normalizing again changes nothing if and only if no white space was left at an end of the normalized name |
| Strings.NormalizeOnceOnly | backend/internal/http/folders.go:449-454 | a name for which it does change something |
| Zip.CollectEntries | backend/internal/http/zip.go:121-162 | each live file of the live subtree exactly once; its directory is the names along the chain of parent links from the root to its folder, in that order, with slashes between; its name is the normalized upload name or the id; ordered by path and upload name for every collation |
| Zip.WrittenPath | backend/internal/http/zip.go:83-93 | for plain names the written name splits into exactly the folder names from the root down and the entry name |
| Zip.EntryPathSafe | backend/internal/http/zip.go:83-88 | no written entry name has a parent component, and an entry is refused exactly when its cleaned path starts with one |
| Zip.UnpacksBelow | backend/internal/http/zip.go:83-93 | a written entry name leads from any directory to something below it, for all folder depths and names |
| Zip.StreamEntries | backend/internal/http/zip.go:76-108 | entries go out in order with their bytes, up to the first without object or safe name |
| Shares.CreateShare | backend/internal/http/shares.go:97-109 | refused exactly for what is not there, not the user's or deleted; a share just made gives out exactly its file, or its folder's live tree in three views that agree, and only files of its maker |
| Shares.ShareLater | backend/internal/http/shares.go:550-611 | after any folder steps the views of a share agree under the same exact condition and never give out anybody else's file |
| Shares.PublicShareItems | backend/internal/http/shares.go:540-611 | answered exactly inside the live tree; lists exactly the live rows of the folder, folders first, each kind by name for every collation, none twice |
| Shares.FetchFileForShare | backend/internal/http/shares.go:1186-1219 | finds exactly the target file, or a live file in the live tree of the target |
| Shares.ZipAllowed | backend/internal/http/shares.go:1159-1172 | a folder archive is allowed exactly inside the live tree of the share's owner |
| Shares.OpenedIsDepth | backend/internal/http/shares.go:550-567 | clicking through pages reaches exactly the live tree, each folder at its depth |
| Shares.BrowsableIsFetchable | backend/internal/http/shares.go:550-611 | for a live target, files found by clicking, files on any page given out, and files that can be fetched are the same |
| Shares.ZipIsFetchable | backend/internal/http/zip.go:121-138 | the archive of the target holds exactly the files that can be fetched; its owner filters are redundant |
| Shares.DeletedTarget | backend/internal/http/shares.go:550-611 | for a deleted target nothing is fetched or zipped and just the live files directly in it are listed |
| Shares.ViewsAgreeExactly | backend/internal/http/shares.go:550-611 | the three views agree if and only if the target is live or has no live file directly in it |
| Shares.LateFileListed | backend/internal/http/shares.go:589-595 | create, share and delete a folder and complete an upload into it: its file is listed and cannot be fetched |
| Shares.SubfolderZipWithin | backend/internal/http/shares.go:1159-1179 | the archive of an inner folder holds only files the share gives out |
| PreviewQueue.InvStep | backend/internal/preview/runner.go:128-161 | every claim, commit, abort, completion, failure and crash of any worker keeps the queue invariant |
| PreviewQueue.ClaimMeaning | backend/internal/preview/runner.go:128-150 | a worker claims exactly the oldest queued job that nobody else is claiming |
| PreviewQueue.StepMeaning | backend/internal/preview/runner.go:128-161 | what a claim, a success, a failure and a crash do to the rows and to nothing else |
| PreviewQueue.QueueSafety | backend/internal/preview/runner.go:128-161 | over every run: at most one holder per job, exactly one for a processing job whose worker is there, attempts within the limit, queued only with attempts left, processing and completed only after an attempt, failed only at the limit |
| PreviewQueue.SettledForever | backend/internal/preview/runner.go:614-629 | over every run a completed or failed job never changes, though the updates take no status guard |
| PreviewQueue.AttemptsCountClaims | backend/internal/preview/runner.go:144-149 | attempts is exactly the number of committed claims |
| PreviewQueue.RetriesBounded | backend/internal/preview/runner.go:620-623 | over every run a job is claimed at most maxAttempts times |
| PreviewRunner.Settle | backend/internal/preview/runner.go:614-629 | a job ends completed at its first successful attempt, or failed at the limit when none succeeds |
| PreviewRunner.AttemptIsRun | backend/internal/preview/runner.go:99-126 | one round of the lone worker is three steps of the shared queue |
| PreviewRunner.Runner.constructor | backend/internal/preview/runner.go:65-68 | a limit that is not positive means three attempts |
| PreviewRunner.Runner.ClaimNextJob | backend/internal/preview/runner.go:128-161 | claims the oldest queued job, or finds that there is none |
| PreviewRunner.Runner.MarkJobFailure | backend/internal/preview/runner.go:614-629 | requeues with the same creation time, or fails at the limit |
| PreviewRunner.Runner.ProcessOne | backend/internal/preview/runner.go:99-126 | one claim and one attempt at the oldest job; nothing happens exactly when the queue is empty |
| PreviewRunner.Runner.Drain | backend/internal/preview/runner.go:74-97 | one worker settles all n queued jobs in at most n times maxAttempts claims, each as if alone, in the order of creation |
| RateLimiter.RedisRateLimiter.Allow | backend/internal/security/ratelimiter.go:23-70 | the script's steps and the verdict agree with one hit on the counter; other keys are untouched |
| RateLimiter.CounterIsRank | backend/internal/security/ratelimiter.go:28-35 | in every timed run the counter is the request's rank in the key's lifetime, which ends one window after it began |
| RateLimiter.AllowedIffEarly | backend/internal/security/ratelimiter.go:61-69 | a request is admitted if and only if it is among the first limit requests of its lifetime |
| RateLimiter.LimitPerLifetime | backend/internal/security/ratelimiter.go:28-35 | each lifetime admits at most limit requests |
| RateLimiter.LimitPerInterval | backend/internal/security/ratelimiter.go:28-35 | every half-open interval as long as the window admits at most 2 * limit - 1 requests |
| RateLimiter.BoundReached | backend/internal/security/ratelimiter.go:28-35 | for every limit, lag and window of at least two milliseconds a run reaches that bound |
| RateLimiter.LimitPerMillisecond | backend/internal/security/ratelimiter.go:28-35 | with a window of one millisecond, a millisecond admits at most limit requests |
| RateLimiter.WaitingPays | backend/internal/security/ratelimiter.go:61-67 | a denied caller that waits the returned duration is admitted if nobody else uses the key, and without expiry lag no shorter wait suffices |
| RateLimiter.HeaderSuffices | backend/internal/http/rate_limit.go:29-34 | the header's whole seconds cover the wait if and only if it is whole seconds or under one |
| RateLimiter.HeaderFallsShort | backend/internal/http/rate_limit.go:29-34 | a denied request told to wait 59 seconds is denied again when it does |
| Ranges.ParsedInside | backend/internal/http/files.go:1233-1279 | for every header the positions lie inside the object; the empty object gives (0, -1) |
| Ranges.PartialIsSlice | backend/internal/http/files.go:1212-1230 | partial content is exactly the announced slice, with matching length and Content-Range |
| Ranges.RefusedExactly | backend/internal/http/files.go:1212-1224 | refused if and only if the header does not parse or the object is empty |
| Ranges.AcceptedSyntax | backend/internal/http/files.go:1233-1279 | an accepted header is one range of bytes, with the two bounds on the sides of its first hyphen, and means what they say |
| Ranges.ClosedRange | backend/internal/http/files.go:1261-1278 | a printed first-last range means what RFC 9110 section 14.1.2 says |
| Ranges.OpenRange | backend/internal/http/files.go:1261-1268 | a printed open range means the rest of the object |
| Ranges.SuffixRange | backend/internal/http/files.go:1250-1259 | a printed suffix range means the last bytes, all of them if there are fewer |
| Ranges.PiecesJoin | backend/internal/http/files.go:1212-1279 | fetching any consecutive partition and joining the bodies gives the object back |
| CopyPart.CopyPartToStorage | backend/internal/http/files.go:208-271 | the outcome depends on the concatenation alone: refused exactly when its length exceeds the limit, otherwise size, hashed and stored bytes are the part's and the sniffed ones its first 512 |
| CopyPart.RecutSame | backend/internal/http/files.go:218-252 | cutting a read in two anywhere changes nothing |
| Base64.RoundTrip | backend/internal/auth/password.go:28-29 | decoding undoes encoding, padded and unpadded |
| Base64.PaddedReadsRaw | backend/internal/http/tus.go:375-380 | trying the padded decoder first never misreads an unpadded value |
| Base64.BreaksIgnored | backend/internal/auth/password.go:45-52 | a line break anywhere in the encoded text makes no difference to the decoder |
| TusMetadata.ParseTusMetadata | backend/internal/http/tus.go:362-385 | the loop collects the pairs of the parts, later ones winning |
| TusMetadata.PairsLost | backend/internal/http/tus.go:362-385 | a part gives no pair exactly when it is not two words or its second word is no base64, padded or unpadded |
| TusMetadata.MetadataRoundTrip | backend/internal/http/tus.go:362-385 | parsing a printed header gives the printed pairs back under lower-case keys, for any mix of padded and unpadded values, any case of the keys and any white space around them; exactly the pairs with empty values are lost |
| Password.HashRoundTrip | backend/internal/auth/password.go:27-60 | parsing a printed hash recovers exactly its parameters, salt and hash, for every key derivation |
| Password.StoredText | backend/internal/auth/password.go:21-32 | what is stored, as text: the algorithm, version 19, 64 MiB, three passes, two lanes, salt and key in unpadded base64 |
| Password.RefusedForms | backend/internal/auth/password.go:34-47 | a stored form is refused unless it has six fields and names argon2id |
| Password.RefusedParams | backend/internal/auth/password.go:39-44 | parameters are refused when one does not fit its variable: 32 bits for memory and passes, 8 for lanes |
| Password.VerifyMeaning | backend/internal/auth/password.go:34-60 | the key is derived again with the stored parameters, salt and length, and compared |
| Password.VerifyMatches | backend/internal/auth/password.go:34-60 | a password verifies against the hash of another if and only if both derive the same key; its own always does |
| Password.UncheckedParts | backend/internal/auth/password.go:34-56 | the prefix, the version field and what follows the parameters are not looked at |

## Assumptions

- A COMMIT that reports an error did not happen. A failed COMMIT in tusPatch ends the request there: it has
  no compensation (`backend/internal/http/tus.go:263-266`).
- Row locks are held until the transaction ends, which a failing statement does; no connection is lost between
  two statements of a request, and the lock of a free row is got; each SQL statement is atomic; the two recalculation
  statements run back to back while no upload holds a users row.
- Each folder handler is one atomic step: its check and its update are separate statements in the program.
- Fresh uuids are distinct, so keys minted for different purposes or at different times differ.
- A cancelled or broken request body shows as a read error; PutStream drains the pipe it reads from.
- A Redis key is gone from `lag` milliseconds after its expiry time on; the results hold for every lag.
- Byte totals are mathematical integers; range headers and sizes are bounded by 64-bit integers as in the
  program, password parameters by their variables' widths.
- The preview worker's limit is the same in every worker process.

## Left out

- HTTP plumbing, sessions and CSRF, JSON, audit log, metrics, configuration, logging, settings validation.
- The frontend.
- ffmpeg, ffprobe, soffice, image work, argon2, SHA-256 and MIME sniffing: their results are parameters or
  nondeterministic outcomes; resizeImageContain rests on floating-point rounding.
- Request fields that do not parse (ids, offsets, JSON bodies): the model starts after they are read.
- Folder ids and names of files inside the upload machine: a name clash is a possible failure of the INSERT,
  and `Folders` treats the files table on its own.
- UploadTheorems.FinalizedContent: says nothing about the bytes of a file from an exposed session, because there they can
  be wrong (`UploadWitnesses.WrongFileReachable`, `UploadWitnesses.WrongPatchReachable`).
- UploadTheorems.ExactIffLength: for the same reason not about files from exposed sessions.
- UploadTheorems.TempObjectFits: for the same reason not about exposed sessions.
- UploadServer.Server.Compensate: a Move back that itself fails is modelled as a request that ends there.
- UploadServer.Server.UploadPart: of the reasons for which a part is refused (messages in the result list,
  `backend/internal/http/files.go:118-193`) those of the database are told apart as clash, quota and broken; a
  part refused while it is read is in `CopyPart`.
- Collations: the order of names is a parameter, any total preorder on strings.
- The share download cap: archives bump the count without checking it, and check and bump are separate steps.
- The enqueue check for an existing job (`backend/internal/http/files.go:744-767`) is a separate statement from
  the INSERT and guards nothing; the queue machine allows any enqueue.
- PreviewRunner.Runner.Drain: no job arrives while the queue drains, and the ticker between polls is not there.
- RateLimiter.RedisRateLimiter.Allow: a Redis error lets the request pass
  (`backend/internal/http/rate_limit.go:26-28`); the timed runs are those without errors.
- TusMetadata.MetadataRoundTrip: keys are ASCII, in any case; the case folding of other letters is not modelled.
- Password.VerifyMatches: argon2 refuses zero iterations or lanes with a panic; such parameters never come
  from HashPassword.
- Symbolic links and case-insensitive file systems below the storage root.
