# Verification of the submission pipeline

A Dafny 4.11 model of the stateful parts of the MOSS submission pipeline, with proofs about whole runs
of each. `dafny verify dfyconfig.toml` checks the project.

## What is modelled

The pipeline uploads files, checks them, queues jobs fairly, speaks a line protocol with the similarity
provider, and keeps ledgers of quota, purchases, credentials and sessions. Each component below is one
module. Where the program keeps state in place, the module holds a pure step function over a value, lemmas
about every run of those steps, and a class whose methods do what the program does and are proved to take
exactly those steps. Randomness (identifiers, tokens, keys, nonces, codes) enters as parameters that are new
when drawn; the clock is a parameter; promise scheduling is a free choice of the next event.

- `LineParser.dfy`: lines reassembled from a chunked stream; deadlines, aborts, closing, errors.
- `MockServer.dfy`: the server's incremental reading of lines and length-prefixed bodies.
- `LiveSubmit.dfy`: what the client sends and awaits, sanitizing and number formatting included.
- `WireSession.dfy`: client, two byte channels, server and line parser moving one step at a time in any order.
- `WireContents.dfy`: what the server has been told by the end of a session, read off its own log.
- `FairQueues.dfy`: least-served-first claiming, leases, slots, retries, dead letters, circuit breaker.
- `TransferManager.dfy`: the upload pump and its progress ledger.
- `Vault.dfy`: envelope encryption, rotation, revocation, backups; compared with a reference without keys.
- `Finalize.dfy`: idempotent finalizing, two outboxes, quota ledger, cancellation, rollback.
- `Sessions.dfy`, `MagicAuth.dfy`, `PasswordAuth.dfy`: session and refresh rotation and the two services on it.
- `ProtocolNames.dfy`, `JobCommands.dfy`: names that never collide, and a transcript that can be read back.
- `RunLifecycle.dfy`: phases, deadline across crashes, credit.
- `RateLimit.dfy`: the fixed-window limiter.
- `Crc32.dfy`: the checksum as a polynomial remainder, and the raster fill.
- `Intake.dfy`, `Buckets.dfy`, `Grouping.dfy`: capped intake, and groups as conserved partitions.
- `Entitlements.dfy`: the purchase ledger.
- `Text.dfy`, `Counting.dfy`: strings, decimal notation, finite sets.

## What the proofs found

Some promises do not hold of the code as it stands. The code is modelled as it is; the exact condition is
proved, with a concrete or general witness of the failure.

- An abort signal that fires after its own read hit the deadline clears another read's place as the waiter:
  one read is lost for each such abort (`LineParsing.LostReads`, `StaleAbortLosesARead`). A lost read gets no
  line and stays lost unless its own timer or signal fires while another read waits, which settles it and
  loses that other one instead (`StaysLostIff`, `DeadlineHandsOn`); once its timer and signal are gone it never
  settles (`LostForGood`, `LostAfterItsDeadline`).
- A submission id of 10^21 or more is printed in exponent form, so the server does not recognise the file
  header (`LiveSubmit.HeaderRecognised`, `WireSession.LargeIdExposesTheBody`). Some run recovers the files
  exactly when every id is smaller (`WireSession.RecoveredIff`), and then every run to the second reply does.
- Cancelling a job drops the lease of a provider item and keeps its slot for good. Nothing else leaks, so the
  slots counted are the live leases exactly on the runs in which no cancellation meets a live lease
  (`FairQueueing.LeakExactly`, `SlotAccounting`, `LeaksStarveACredential`).
- A run of uploads never settles when the concurrency is zero or less, or when a file is put back to pending
  while the last upload of a run is in flight with nothing left to launch (`Transfers.RunSticks`, `SettleSticks`).
- Rolling back a cancelled job whose validation is pending revives it, and it consumes quota
  (`Finalizing.CanceledConsumesIffPending`).
- Replacing a credential with an invalid identifier revokes the old one; importing a backup brings deleted
  credentials back (`Vaults.ReplaceRevokes`, `DeletedComesBack`).
- On refresh-token reuse the password service signs out only the user of the oldest session on the device
  (`PasswordAuth.ReuseSignsOutOne`), who need not be the one whose token was reused
  (`PasswordAuth.ReuseLeavesTheOther`, a run of four requests); the magic-link service clears the device
  (`MagicAuth.ReuseSweepsDevice`).
- Saving a run forgets that a failed or cancelled run was submitted, so recovery returns its credit
  (`RunLifecycle.SaveKeepsCreditIff`). The retry transition is never taken, since ended runs do not advance.
- A path of dots and slashes only is accepted as the empty path (`Intake.NormalizedIsPlain`).
- A reorder list of the right length that repeats a group is accepted and loses another group
  (`Grouping.ReorderAcceptedIff`, `RepeatedReorderLoses`, `SecondGroupIsLost`).
- A request shares its rate bucket with other tenants or routes exactly when its tenant or its route holds a
  colon (`RateLimiting.KeyIsItsOwnIff`, `KeysCollide`).

## Model

| member | source | states |
|---|---|---|
| LineParsing.Conservation | packages/provider-adapter/line-parser.js:22-112 | at every point of every run, deadlines, aborts, closes and errors included, the delivered raw lines with their LFs plus the buffer are the bytes appended, and the buffer is within its limit until an error |
| LineParsing.DeliveredAreStreamLines | packages/provider-adapter/line-parser.js:35-59 | the lines handed out are the first lines of the appended stream, whole and in order, and the buffer holds exactly the rest |
| LineParsing.ChunkingIsInvisible | packages/provider-adapter/line-parser.js:22-59 | two runs over the same bytes, cut and interleaved differently, deliver lines of which one list is a prefix of the other; equally many are equal |
| LineParsing.ReadAnswered | packages/provider-adapter/line-parser.js:61-104 | with no other read, no error and no abort, a read takes the first line, less one carriage return, and leaves the rest if and only if a whole line is buffered, closed or not; fails closed if and only if none is, the parser is closed and the rest is not too long; fails on that length, or waits, in exactly the other cases |
| LineParsing.ReadRefused | packages/provider-adapter/line-parser.js:61-86 | a read is refused as busy, failed, closed or aborted in this order, and changes nothing but its own result |
| LineParsing.PushAnswered | packages/provider-adapter/line-parser.js:22-59 | a chunk is refused, overflows, or is appended, and the waiting read takes the first whole line, fails on the length, or goes on waiting |
| LineParsing.EndAnswered | packages/provider-adapter/line-parser.js:68-122 | closing, an error, its own deadline and its own abort each end the waiting read with their own reason |
| LineParsing.EndUnanswered | packages/provider-adapter/line-parser.js:68-122 | with no read waiting these events settle nothing |
| LineParsing.ClosedMeansDrained | packages/provider-adapter/line-parser.js:22-117 | in every run, once some read is answered closed every whole line of the appended stream has been handed out |
| LineParsing.ReadsAfterClose | packages/provider-adapter/line-parser.js:61-104 | reads made one after the other on a closed parser get the buffered lines in order, and the first refusal comes after the last |
| LineParsing.ClosedStreamIsRead | packages/provider-adapter/line-parser.js:22-117 | from a new parser, whatever came before the close, further reads give the remaining lines of the appended stream, each in its place, before the first refusal |
| LineParsing.SettledOnce | packages/provider-adapter/line-parser.js:61-112 | the outcome of a settled read never changes |
| LineParsing.LostReads | packages/provider-adapter/line-parser.js:66-98 | over any run the reads begun but neither settled nor waiting are as many more as there were aborts firing after their own read's deadline |
| LineParsing.NeverLost | packages/provider-adapter/line-parser.js:61-122 | from a new parser every read is settled or waiting if and only if no abort fired after its own read's deadline |
| LineParsing.StaleAbortLosesARead | packages/provider-adapter/line-parser.js:75-98 | a four-event run in which such an abort loses the next read: it is neither settled nor waiting, a line that arrives is not delivered to it, and only its own timer is left |
| LineParsing.StaysLostIff | packages/provider-adapter/line-parser.js:66-98 | over every run a lost read stays lost if and only if its own timer or listener never fires while another read waits |
| LineParsing.LostForGood | packages/provider-adapter/line-parser.js:66-98 | a lost read whose timer and listener are both gone is settled by no run whatever |
| LineParsing.LostAfterItsDeadline | packages/provider-adapter/line-parser.js:66-98 | in the state after those four events, once the lost read's timer has fired with no read waiting it hangs through every continuation |
| LineParsing.DeadlineHandsOn | packages/provider-adapter/line-parser.js:66-73 | in that state, a further read and then the lost read's timer settle the lost read and lose the further one |
| LineParsing.LineParser.constructor | packages/provider-adapter/line-parser.js:10-20 | a new parser is empty, open and without error |
| LineParsing.LineParser.FailCurrent | packages/provider-adapter/line-parser.js:106-112 | fails the waiting read, if any, and disarms its timer |
| LineParsing.LineParser.ResolveCurrent | packages/provider-adapter/line-parser.js:35-59 | takes the resolving step of the model: a line for the waiter, or the oversize failure |
| LineParsing.LineParser.OnPush | packages/provider-adapter/line-parser.js:22-33 | appends and resolves, or refuses when closed, failed or over the limit; keeps the invariant |
| LineParsing.LineParser.OnRead | packages/provider-adapter/line-parser.js:61-104 | takes the reading step of the model, whose answer `ReadAnswered` and `ReadRefused` state; keeps the invariant |
| LineParsing.LineParser.OnDeadline | packages/provider-adapter/line-parser.js:68-73 | the timer of a read settles the waiting read with its own promise, as the code does |
| LineParsing.LineParser.OnAbort | packages/provider-adapter/line-parser.js:75-81 | an abort listener clears whichever read waits |
| LineParsing.LineParser.OnClose | packages/provider-adapter/line-parser.js:114-117 | closes and fails the waiter |
| LineParsing.LineParser.OnError | packages/provider-adapter/line-parser.js:119-122 | records the error and fails the waiter |
| MockServing.FileMatchComplete | packages/provider-adapter/mock-moss-server.js:60 | every line of the shape the header pattern describes is recognised, with its size |
| MockServing.FileMatchSound | packages/provider-adapter/mock-moss-server.js:60 | a recognised line has that shape, and the size is its fourth field |
| MockServing.LineTaken | packages/provider-adapter/mock-moss-server.js:55-70 | a whole line is taken less one carriage return: a line of the header pattern has its announced bytes expected, language is answered yes and query the address, any other line is passed over |
| MockServing.BodyTaken | packages/provider-adapter/mock-moss-server.js:49-54 | an expected body is taken exactly when all of it is there |
| MockServing.FeedingInTwo | packages/provider-adapter/mock-moss-server.js:41-73 | feeding input in two parts leaves the same items, replies and pending input as feeding it whole |
| MockServing.ChunkingIsInvisible | packages/provider-adapter/mock-moss-server.js:41-73 | so does any number of parts |
| MockServing.MockServer.constructor | packages/provider-adapter/mock-moss-server.js:38-39 | a connection starts with nothing buffered and no body expected |
| MockServing.MockServer.OnData | packages/provider-adapter/mock-moss-server.js:41-45 | appends a chunk and serves all that is complete, as the model feeds it |
| MockServing.MockServer.HandleBuffer | packages/provider-adapter/mock-moss-server.js:47-73 | the loop ends having served everything complete, and nothing else |
| MockServing.WriteChunked | packages/provider-adapter/mock-moss-server.js:137-155 | the pieces written make up the reply, none empty and none over the chunk size |
| LiveSubmit.SanitizeFilename | packages/provider-adapter/live-submit.js:46-51 | between 1 and 128 characters, none a control or a path separator |
| LiveSubmit.SanitizeComment | packages/provider-adapter/live-submit.js:210-216 | never empty, at most 80 characters, no control or shell character |
| LiveSubmit.Clamp | packages/provider-adapter/live-submit.js:218-222 | the truncated number when that is within the bounds, else the bound it is beyond; the lower bound when not finite |
| LiveSubmit.RefusalIff | packages/provider-adapter/live-submit.js:75-97 | a job is refused for its user id, its language or its number of files, the first that fails, and for nothing else |
| LiveSubmit.PerformSession | packages/provider-adapter/live-submit.js:127-195 | performs the client's program, one write or awaited reply after the other; what its lines carry is stated by `WireContents` |
| LiveSubmit.HeaderRecognised | packages/provider-adapter/live-submit.js:159-163 | a file header is recognised with its body's length if and only if the id is below 10^21 |
| LiveSubmit.PrologueFramed | packages/provider-adapter/live-submit.js:129-144 | the commands before the files are single lines, answered by `yes` and nothing else |
| LiveSubmit.SeenFilesFramed | packages/provider-adapter/live-submit.js:153-165 | headers and bodies, whatever the bodies hold, are framed and draw no reply |
| WireSession.NoDeadlock | packages/provider-adapter/live-submit.js:127-183 | in every reachable state before the client is done, some part of the system can move |
| WireSession.RunKept | packages/provider-adapter/live-submit.js:127-183 | every interleaving keeps the invariant that ties channels, server and parser to the client's program, and is no longer than the job costs |
| WireSession.SessionSafety | packages/provider-adapter/live-submit.js:127-183 | at every moment the server has taken the job's items in order and nothing else, the replies read are `yes` then the URL, and no read was refused |
| WireSession.SessionSucceeds | packages/provider-adapter/live-submit.js:127-183 | every run is finite and ends only with the program performed; past the second reply the client has read exactly `yes` and the URL and the server every body exactly |
| WireSession.RecoveredByThen | packages/provider-adapter/live-submit.js:153-169 | once the second reply is read the server has recovered every file's header and body |
| WireSession.SeenReadBack | packages/provider-adapter/live-submit.js:153-165 | the files read out of a complete log are the job's files |
| WireSession.RecoveredIff | packages/provider-adapter/live-submit.js:127-183 | for a job the client does not refuse, some interleaving makes the server recover every file if and only if every submission id is below 10^21 |
| WireSession.NeverRecovered | packages/provider-adapter/live-submit.js:159-164 | with one id of 10^21 or more the server recovers the job's files in no interleaving at any moment |
| WireSession.Completes | packages/provider-adapter/live-submit.js:127-183 | from every reachable state of such a job the client can be brought to the end of its program |
| WireSession.LargeIdExposesTheBody | packages/provider-adapter/live-submit.js:159-164 | with an id of 10^21 or more the server answers a line of the body and recovers no file |
| WireContents.ServerIsTold | packages/provider-adapter/live-submit.js:127-169 | past the second reply of any run the server's log holds exactly one line each for user id, directory mode, threshold, result count, language and comment: the threshold of the job (10 when absent) as maxmatches and its result count (250 when absent) as show, truncated into 1..1000, and directory 1 if and only if it is asked for or two files share a positive id |
| WireContents.ToldInOrder | packages/provider-adapter/live-submit.js:128-144 | those lines come first and in the protocol's order, the files after them |
| WireContents.ServerHasFiles | packages/provider-adapter/live-submit.js:153-165 | past the second reply the server has every file byte for byte under a header naming its id, the language, its size and its own name |
| WireContents.YesIs | packages/provider-adapter/live-submit.js:145-151 | the language is acknowledged exactly by the word yes in any case, white space around it aside |
| WireContents.AddressIs | packages/provider-adapter/live-submit.js:42-44 | the result is accepted exactly when it begins with the origin, in any case, and goes on |
| FairQueueing.SortOrdered | apps/api/queues/fair.js:60-66 | the pending items are put in order of service count, then age, then position |
| FairQueueing.ClaimTakesLeast | apps/api/queues/fair.js:52-105 | a claim takes the eligible item that precedes every other, and fails only if there is none |
| FairQueueing.ClaimIsFair | apps/api/queues/fair.js:52-105 | no waiting item under its cap has a user served less than the claimed one's, or as often and enqueued earlier, or then and standing before it |
| FairQueueing.EligibleIff | apps/api/queues/fair.js:54-95 | an item may be claimed exactly when it waits in the queue asked for, its credential has a free slot and the circuit is closed |
| FairQueueing.ServedCounts | apps/api/queues/fair.js:76-82 | what claims go by is the number of claims of the user's items in the run so far |
| FairQueueing.ClaimOutcome | apps/api/queues/fair.js:52-105 | a claim leases the item to its worker for the length of a lease, counts one service of its user and one slot of its credential, or changes nothing |
| FairQueueing.HeartbeatOutcome | apps/api/queues/fair.js:107-113 | a timely heartbeat of the holder moves the end of the lease and nothing else |
| FairQueueing.NoLeaseNoEffect | apps/api/queues/fair.js:107-117 | completing what is not leased, or extending what is not leased, another worker's or late, changes nothing |
| FairQueueing.CompletionOutcome | apps/api/queues/fair.js:115-145 | a completed item is dead-lettered on an uncertain outcome or the third failure, queued again and claimable on an earlier failure, finished on success; every other item stays as it is |
| FairQueueing.CompletionCircuit | apps/api/queues/fair.js:124-143 | an uncertain outcome counts a failure and the third opens the circuit; success takes one off; a plain failure leaves the circuit alone |
| FairQueueing.MovesAlong | apps/api/queues/fair.js:22-172 | every event moves every item from place to place along one table, and only a plain failure adds to its attempts |
| FairQueueing.EnqueuedIsPending | apps/api/queues/fair.js:22-45 | an enqueued item is pending with its own user, job, credential and time |
| FairQueueing.ResetOutcome | apps/api/queues/fair.js:174-179 | resetting closes the circuit and forgets its failures and changes nothing else |
| FairQueueing.FinishedIffSucceeded | apps/api/queues/fair.js:22-172 | over every run an item is finished if and only if some certain successful completion of its lease occurred, and its attempts are its certain failures |
| FairQueueing.StarvationBound | apps/api/queues/fair.js:52-82 | while an item of u waits unclaimed, intake claims for any other w number at most served(u) + 1 - served(w), or none if that is negative |
| FairQueueing.OnePlace | apps/api/queues/fair.js:52-172 | in every run every item is in exactly one of queued, leased, finished, dead-lettered, cancelled |
| FairQueueing.SlotAccounting | apps/api/queues/fair.js:84-172 | in every run the count in flight of a credential is its live leases plus one for each live lease a cancellation met, and is within the cap; it equals the live leases if and only if no cancelJob of the run met a live lease of the credential |
| FairQueueing.LeakExactly | apps/api/queues/fair.js:84-172 | one step of any kind leaks exactly the live leases of the job it cancels, and none when it is not a cancellation |
| FairQueueing.LeaksAreCancellations | apps/api/queues/fair.js:84-172 | over any run the leaked slots grow by the number of live leases the cancellations met |
| FairQueueing.RetryLimits | apps/api/queues/fair.js:124-143 | in every run no item fails more than three times, three failures dead-letter, and a closed circuit has at most two failures |
| FairQueueing.DoneNeverClaimed | apps/api/queues/fair.js:52-105 | an item that is done is never claimed again and never changes |
| FairQueueing.DeadNeverClaimed | apps/api/queues/fair.js:115-145 | a dead-lettered item, uncertain ones included, is never claimed again |
| FairQueueing.CancelLeaksASlot | apps/api/queues/fair.js:163-172 | cancelling the job of a leased provider item drops the lease and keeps the slot |
| FairQueueing.LeaksStarveACredential | apps/api/queues/fair.js:93-95 | once leaked slots reach the cap no item of the credential is ever claimed again |
| FairQueueing.FairQueues.constructor | apps/api/queues/fair.js:9-20 | queues, leases and counts start empty and the circuit closed |
| FairQueueing.FairQueues.EnqueueIntakeItem | apps/api/queues/fair.js:22-31 | adds one pending intake item |
| FairQueueing.FairQueues.EnqueueProviderItem | apps/api/queues/fair.js:33-45 | adds one pending provider item, or refuses without a credential or with the circuit open |
| FairQueueing.FairQueues.ClaimIntakeItem | apps/api/queues/fair.js:52-74 | leases the item the model chooses, and counts the service |
| FairQueueing.FairQueues.ClaimProviderItem | apps/api/queues/fair.js:84-105 | the same among items under their credential's cap, counting the slot; refuses with the circuit open |
| FairQueueing.FairQueues.HeartbeatLease | apps/api/queues/fair.js:107-113 | extends the holder's unexpired lease and nothing else |
| FairQueueing.FairQueues.CompleteLease | apps/api/queues/fair.js:115-145 | takes the completing step of the model, whose outcome `CompletionOutcome` and `CompletionCircuit` state |
| FairQueueing.FairQueues.RecoverExpiredLeases | apps/api/queues/fair.js:147-161 | returns exactly the expired leases and their slots |
| FairQueueing.FairQueues.CancelJobItems | apps/api/queues/fair.js:163-172 | ends every unfinished item of a job and drops their leases |
| FairQueueing.FairQueues.Reset | apps/api/queues/fair.js:174-178 | closes the circuit and forgets its failures |
| Transfers.ProgressIsExact | apps/api/uploads/transfer-manager.js:73-152 | under every interleaving uploads in flight are within the concurrency, and the count, the list and the byte sum are exactly those of the completed files |
| Transfers.AnswerIff | apps/api/uploads/transfer-manager.js:80-116 | whenever the pump has its turn: canceled if and only if the transfer is cancelled; success, with status completed, if and only if it is not and every file is completed; upload-failed, with status failed, if and only if nothing is in flight, no file is pending or uploading and some file failed; otherwise no answer |
| Transfers.AnswerStays | apps/api/uploads/transfer-manager.js:80-181 | no other event gives or takes an answer |
| Transfers.AnswersAreRight | apps/api/uploads/transfer-manager.js:73-181 | over every interleaving: success only with every file completed, canceled only when cancelled, upload-failed only after the pump found nothing left to do and some file failed; and the status says the same |
| Transfers.ResultOutcome | apps/api/uploads/transfer-manager.js:126-151 | a result is the state of its own file and its entry in the ledger, and nothing else |
| Transfers.LaunchStops | apps/api/uploads/transfer-manager.js:94-107 | launching stops only at the limit or the end of the queue |
| Transfers.LaunchOutcome | apps/api/uploads/transfer-manager.js:94-128 | each file taken off the queue that is not completed is started, or has failed at once with the network down; no other file or upload changes |
| Transfers.LaunchPuts | apps/api/uploads/transfer-manager.js:120-133 | each upload started puts its object once |
| Transfers.RunStarts | apps/api/uploads/transfer-manager.js:73-128 | a run takes the pending and failed files in order under the network it is given; each taken at once is put and uploading, or failed with nothing put when the network is down; no other file changes |
| Transfers.ResumeIff | apps/api/uploads/transfer-manager.js:163-181 | resuming changes nothing when complete or given no files; it is accepted if and only if the first reselected file of the name or hash of each unfinished file has its hash, and the files before the first that fails are pending again |
| Transfers.CompletedIsNeverPutAgain | apps/api/uploads/transfer-manager.js:73-152 | a completed file stays completed and is not put again by this run or a later one |
| Transfers.RunSettles | apps/api/uploads/transfer-manager.js:80-118 | while a run is on some upload has a result or continuation due, and there are at most `Work` of them, cancels interleaved as they may be |
| Transfers.StuckForever | apps/api/uploads/transfer-manager.js:94-114 | a run with nothing in flight never settles |
| Transfers.RunSticks | apps/api/uploads/transfer-manager.js:73-118 | a new run sticks exactly when a file is pending and the concurrency allows no upload |
| Transfers.SettleSticks | apps/api/uploads/transfer-manager.js:108-181 | the continuation of any upload leaves the run stuck if and only if it was the last in flight, nothing is cancelled, the run is not complete, nothing is left to launch and some file is pending |
| Transfers.DoneCount | apps/api/uploads/transfer-manager.js:88 | the count reaches the total exactly when every file is completed |
| Transfers.TransferManager.constructor | apps/api/uploads/transfer-manager.js:40-71 | a transfer starts with every file pending and no progress |
| Transfers.TransferManager.UploadOne | apps/api/uploads/transfer-manager.js:120-128 | marks the file uploading and puts it, or failed when the network is down |
| Transfers.TransferManager.LaunchUploads | apps/api/uploads/transfer-manager.js:94-107 | starts queued files in order, passing over completed ones, while there is room |
| Transfers.TransferManager.ConcludeRun | apps/api/uploads/transfer-manager.js:108-114 | settles the run when nothing is active and nothing waits |
| Transfers.TransferManager.RunPump | apps/api/uploads/transfer-manager.js:81-116 | one turn of the pump is one turn of the model's, whose answer `AnswerIff` states |
| Transfers.TransferManager.StartRun | apps/api/uploads/transfer-manager.js:73-118 | queues pending and failed files and pumps |
| Transfers.TransferManager.OnResult | apps/api/uploads/transfer-manager.js:126-151 | records a result in the file, the count, the bytes and the list at once |
| Transfers.TransferManager.OnSettled | apps/api/uploads/transfer-manager.js:99-106 | takes an upload out of flight and pumps |
| Transfers.TransferManager.CancelTransfer | apps/api/uploads/transfer-manager.js:154-161 | marks the transfer cancelled without forgetting anything |
| Transfers.TransferManager.ResumeAfterRestart | apps/api/uploads/transfer-manager.js:163-181 | puts unfinished files back to pending up to the first without the same hash, and says whether there was none |
| Vaults.AnswersAlwaysOwed | apps/api/credentials/vault.js:26-116 | in every run over any number of vaults and backups each vault answers each request as a reference without keys or ciphers owes: a live credential decrypts, for its own tenant only, to the text first stored under it |
| Vaults.AnswersAreOwed | apps/api/credentials/vault.js:65-100 | the same of one vault and one request, refusals in the code's order |
| Vaults.GrantedIff | apps/api/credentials/vault.js:65-100 | a kept vault grants the text first stored exactly to the submission worker, on a valid lease of the credential's own tenant, for a credential that is not revoked; each refusal has its exact condition |
| Vaults.StoreIff | apps/api/credentials/vault.js:26-45 | storing adds one live record of the tenant that opens to the identifier under the key in use exactly for a tenant and one to twelve digits |
| Vaults.DeleteIff | apps/api/credentials/vault.js:55-63 | deleting empties and revokes the tenant's own record and touches no other |
| Vaults.BackupRestores | apps/api/credentials/vault.js:130-194 | a backup taken after anything, and followed by anything, restored in a new vault with the same master key answers every request as the exporting vault did; under another master key it is rejected |
| Vaults.RotationRetiresKeys | apps/api/credentials/vault.js:102-116 | rotation changes no answer, and no live record opens under an earlier key |
| Vaults.OnlyImportRevives | apps/api/credentials/vault.js:47-63 | in every reachable world, whatever comes next, a credential a vault holds as revoked is unrevoked there if and only if a backup that holds it and has the vault's master key is imported |
| Vaults.DeletedComesBack | apps/api/credentials/vault.js:55-63 | deleting and then importing an earlier backup grants the deleted credential again |
| Vaults.ReplaceRevokes | apps/api/credentials/vault.js:47-53 | replacing always revokes the credential and adds a live one only if the new identifier is valid |
| Vaults.StepSimulates | apps/api/credentials/vault.js:26-194 | every operation moves vaults and reference together |
| Vaults.CredentialVault.constructor | apps/api/credentials/vault.js:13-24 | a vault starts with the master key as version 1 and no credentials |
| Vaults.CredentialVault.StoreCredential | apps/api/credentials/vault.js:26-45 | seals a numeric identifier under a new data key, or refuses |
| Vaults.CredentialVault.ReplaceCredential | apps/api/credentials/vault.js:47-53 | revokes the owned credential, then stores; another tenant's is not found |
| Vaults.CredentialVault.DeleteCredential | apps/api/credentials/vault.js:55-63 | revokes and empties an owned credential |
| Vaults.CredentialVault.DecryptForSubmission | apps/api/credentials/vault.js:65-100 | returns exactly what the reference owes; no cipher refuses |
| Vaults.CredentialVault.RotateKeys | apps/api/credentials/vault.js:102-116 | re-seals every live record under a new key and keeps what every vault keeps |
| Vaults.CredentialVault.ExportEncryptedBackup | apps/api/credentials/vault.js:130-163 | the live records, sealed under the master key |
| Vaults.CredentialVault.ImportEncryptedBackup | apps/api/credentials/vault.js:165-194 | adds the backup's records under the current key and counts them, or rejects it whole |
| Finalizing.LedgerBalances | apps/api/intake/finalize.js:18-148 | in every run, for every user, reserved, consumed and released add up to the reservations made and each is the number of jobs in that condition; one validation task and at most one provider task for a job; one job for a key |
| Finalizing.ClampNeverBinds | apps/api/intake/finalize.js:109-128 | a held reservation is counted, so the clamps at zero change nothing |
| Finalizing.RetryFindsTheJob | apps/api/intake/finalize.js:34-71 | after an accepted finalize, whatever happened since, the same user and key get that job for the same payload, a conflict for another, and nothing changes |
| Finalizing.FinalizeIff | apps/api/intake/finalize.js:23-71 | a sound request gets the user's job under the key if its payload is the same, a conflict if not, a new job with one pending validation task if there is none and the intake accepts; the refusals come in order and change nothing |
| Finalizing.JobMoves | apps/api/intake/finalize.js:73-150 | every event gives every job its fate: validation queues and reserves, submission consumes or, when cancelled, gives back, cancelling and rolling back mark and give back; its tasks become pending and done exactly as told |
| Finalizing.JobsStay | apps/api/intake/finalize.js:23-150 | jobs are made by an accepted request alone, and none is taken away |
| Finalizing.OutboxesEmpty | apps/api/intake/finalize.js:73-119 | processing an outbox leaves none of its tasks pending |
| Finalizing.CanceledNeverConsumes | apps/api/intake/finalize.js:95-136 | a cancelled job that has not consumed does not consume in any run without a rollback of it |
| Finalizing.CanceledConsumesIffPending | apps/api/intake/finalize.js:130-148 | with rollbacks, some run makes it consume exactly when its validation task was pending |
| Finalizing.RollbackRevivesPending | apps/api/intake/finalize.js:138-148 | rollback, validation and submission are such a run |
| Finalizing.ValidateReserves | apps/api/intake/finalize.js:73-93 | processing the validation outbox reserves quota and queues every waiting job that is not cancelled |
| Finalizing.SubmitConsumes | apps/api/intake/finalize.js:95-119 | processing the provider outbox consumes the reservation of every queued job |
| Finalizing.FinalizeService.constructor | apps/api/intake/finalize.js:12-16 | jobs, outboxes and quota start empty |
| Finalizing.FinalizeService.FinalizeJob | apps/api/intake/finalize.js:23-71 | refusals in order, the existing job for a known key, else a new job with one validation task |
| Finalizing.FinalizeService.GetQuota | apps/api/intake/finalize.js:18-21 | a user's quota, entered as zeros on first use |
| Finalizing.FinalizeService.ProcessValidationOutbox | apps/api/intake/finalize.js:73-93 | handles each pending task once, in order, and counts them |
| Finalizing.FinalizeService.ProcessProviderOutbox | apps/api/intake/finalize.js:95-119 | handles each pending task once, in order, and counts them |
| Finalizing.FinalizeService.ReleaseQuota | apps/api/intake/finalize.js:121-128 | gives back a held reservation and records the release |
| Finalizing.FinalizeService.CancelJob | apps/api/intake/finalize.js:130-136 | marks the job cancelled and releases its reservation |
| Finalizing.FinalizeService.RollbackValidation | apps/api/intake/finalize.js:138-148 | marks the job failed, releases, and settles its provider tasks |
| Sessions.LogoutEnds | apps/api/auth/password-auth.js:313-322 | no access token drawn before a logout opens a session of that user after it, whatever came between |
| Sessions.LogoutEndsRefresh | apps/api/auth/password-auth.js:313-322 | nor does any refresh token |
| Sessions.RetiredForGood | apps/api/auth/password-auth.js:281-287 | a spent refresh token is reuse ever after, on any device |
| Sessions.AccessExpires | apps/api/auth/password-auth.js:301-311 | an access token is honoured for at most fifteen minutes from when it is drawn |
| Sessions.NewTokensWork | apps/api/auth/password-auth.js:253-311 | the tokens of a new session are honoured for its own user and device exactly while they last |
| Sessions.AuthorizeIff | apps/api/auth/password-auth.js:301-311 | an access token opens exactly the session it belongs to, while that lasts |
| Sessions.CheckRefreshIff | apps/api/auth/password-auth.js:281-291 | a refresh token is reuse if spent, and otherwise good, expired or of another device exactly as its own session says |
| Sessions.SpendEnds | apps/api/auth/password-auth.js:292-295 | spending a refresh token ends its session and no other |
| Sessions.IssueKeeps | apps/api/auth/password-auth.js:253-279 | a new session enters both maps and nothing else changes |
| Sessions.SpendKeeps | apps/api/auth/password-auth.js:293-295 | retiring a refresh token takes its session out of both maps |
| Sessions.SessionTable.IssueSession | apps/api/auth/password-auth.js:253-279 | adds the session to both maps |
| Sessions.SessionTable.LogoutAllOf | apps/api/auth/password-auth.js:313-322 | removes exactly the user's sessions from both maps |
| Sessions.SessionTable.SpendSession | apps/api/auth/password-auth.js:293-295 | removes the session and retires its refresh token |
| MagicAuth.Always | apps/api/auth/index.js:14-121 | in every run the access map and the refresh map hold the same sessions, spent tokens are apart, sessions belong to the account of their email, accounts differ |
| MagicAuth.LinkWorksOnce | apps/api/auth/index.js:40-50 | a link that signed in is a replay ever after |
| MagicAuth.AskIff | apps/api/auth/index.js:25-38 | a link is sent exactly for an email and a device from an allowed origin or none, for ten minutes, unused |
| MagicAuth.VerifyIff | apps/api/auth/index.js:40-50 | a link signs in its email's account if and only if it is on record, unused, in time, on its device and with its code; the refusals have their exact conditions and change nothing |
| MagicAuth.RenewIff | apps/api/auth/index.js:78-95 | a refresh token renews exactly the live session it belongs to, on its device and in time |
| MagicAuth.TokensAreEarned | apps/api/auth/index.js:14-121 | over every run whatever an access token opens was opened by a link that stood or by renewing a live session |
| MagicAuth.RefreshWorksOnce | apps/api/auth/index.js:78-95 | a refresh token that renewed is reuse ever after |
| MagicAuth.LogoutIsFinal | apps/api/auth/index.js:107-116 | no token drawn before a logout opens that user's session after it |
| MagicAuth.ReuseSweepsDevice | apps/api/auth/index.js:78-85 | reuse ends, for good, every session of every user with a session on the presented device, and touches no other user |
| MagicAuth.SweepEnds | apps/api/auth/index.js:81-83 | the sweep, logging out one user after another, leaves exactly the sessions of users not on the device |
| MagicAuth.TokensExpire | apps/api/auth/index.js:97-105 | no access token is honoured longer than fifteen minutes after it was drawn |
| MagicAuth.MagicAuthService.constructor | apps/api/auth/index.js:14-23 | the service starts empty |
| MagicAuth.MagicAuthService.RequestMagicLink | apps/api/auth/index.js:25-38 | records a new unused link for the lower-cased email, or refuses |
| MagicAuth.MagicAuthService.UpsertUser | apps/api/auth/index.js:118-121 | finds the account of an email or numbers a new one |
| MagicAuth.MagicAuthService.VerifyMagicLink | apps/api/auth/index.js:40-50 | burns the link and signs its account in, or refuses in the code's order |
| MagicAuth.MagicAuthService.SweepDevice | apps/api/auth/index.js:81-83 | logs out the users found on the device in a copy of the sessions |
| MagicAuth.MagicAuthService.RefreshSession | apps/api/auth/index.js:78-95 | renews, sweeps or refuses |
| MagicAuth.MagicAuthService.LogoutUser | apps/api/auth/index.js:107-116 | ends the user's sessions |
| PasswordAuth.Always | apps/api/auth/password-auth.js:25-322 | in every run both maps hold the same sessions, spent tokens are apart, sessions belong to their account, and an email, an identifier and a provider identity belong to at most one account |
| PasswordAuth.CodeWorksOnce | apps/api/auth/password-auth.js:99-136 | a code that signed in or changed a password never does either again |
| PasswordAuth.VerifyIff | apps/api/auth/password-auth.js:180-205 | a code signs in u if and only if nonce, code and device are given, the nonce is on record for something other than a reset, unused and in time, the code is the one mailed, and u is the account of its email; it is used up, and every refusal changes nothing |
| PasswordAuth.VerifyRefusal | apps/api/auth/password-auth.js:180-193 | each refusal of a code has its exact condition |
| PasswordAuth.ResetIff | apps/api/auth/password-auth.js:99-136 | a password changes if and only if a timely unused reset code and a strong password are given, and all sessions of that account and no others end |
| PasswordAuth.LoginIff | apps/api/auth/password-auth.js:74-86 | login mails a code if and only if the password is the one the account stores; the purpose tells whether the email is verified |
| PasswordAuth.RegisterIff | apps/api/auth/password-auth.js:46-72 | an account is added and mailed a code exactly for a new valid email and a strong password |
| PasswordAuth.AskResetIff | apps/api/auth/password-auth.js:88-97 | a reset code is mailed exactly to the email of an account |
| PasswordAuth.ProviderIff | apps/api/auth/password-auth.js:207-251 | a provider signs in exactly a verified identity, to the account linked to it, else of its email, else a new one; other accounts stay as they are |
| PasswordAuth.RenewIff | apps/api/auth/password-auth.js:281-299 | a refresh token renews exactly the live session it belongs to, on its device and in time |
| PasswordAuth.TokensAreEarned | apps/api/auth/password-auth.js:25-311 | over every run whatever an access token opens was opened by a good code, a verified provider identity, or renewing a live session |
| PasswordAuth.IsEmailIff | apps/api/auth/password-auth.js:398-400 | an email is three parts without space or at sign, joined by an at sign and a dot |
| PasswordAuth.StrongPasswordIff | apps/api/auth/password-auth.js:424-440 | ten characters with one of each of four kinds and no white space |
| PasswordAuth.PurposesStayApart | apps/api/auth/password-auth.js:180-190 | a reset code never signs in and any other never changes a password |
| PasswordAuth.PasswordChangesOnlyByCode | apps/api/auth/password-auth.js:99-136 | a password changes only on an unused reset code in time, mailed to that account, and to the strong password given |
| PasswordAuth.RefreshWorksOnce | apps/api/auth/password-auth.js:281-299 | a refresh token that renewed is reuse ever after |
| PasswordAuth.SignOutIsFinal | apps/api/auth/password-auth.js:123-129 | after a logout or a password reset no earlier token of the user works |
| PasswordAuth.ReuseSignsOutOne | apps/api/auth/password-auth.js:281-287 | reuse signs out the user of the oldest session on the device and nobody else; the device is left clear exactly when its sessions were of one user |
| PasswordAuth.ReuseLeavesTheOther | apps/api/auth/password-auth.js:281-303 | from the empty service, two users sign in on one device, the second renews, and the spent token is presented again: reuse is answered, the first user is signed out and the second's new token still opens their session there |
| PasswordAuth.TwoUsersMaySignIn | apps/api/auth/password-auth.js:207-214 | two identities, emails and a device for which that run happens |
| PasswordAuth.NoUserMissing | apps/api/auth/password-auth.js:120-121 | codes and sessions always find their account |
| PasswordAuth.AccountKeeps | apps/api/auth/password-auth.js:216-245 | linking an identity keeps it with one account |
| PasswordAuth.TokensExpire | apps/api/auth/password-auth.js:301-311 | no access token is honoured longer than fifteen minutes after it was drawn |
| PasswordAuth.NormalizeIdempotent | apps/api/auth/password-auth.js:394-396 | normalizing an email twice is normalizing it once |
| PasswordAuth.PasswordAuthService.constructor | apps/api/auth/password-auth.js:25-35 | the service starts empty |
| PasswordAuth.PasswordAuthService.SendOtp | apps/api/auth/password-auth.js:138-178 | records a code, and forgets it when its mail fails |
| PasswordAuth.PasswordAuthService.RegisterUser | apps/api/auth/password-auth.js:46-72 | adds an account for a new valid email with a strong password and sends a code |
| PasswordAuth.PasswordAuthService.LoginUser | apps/api/auth/password-auth.js:74-85 | sends a code on the right password |
| PasswordAuth.PasswordAuthService.RequestPasswordReset | apps/api/auth/password-auth.js:88-96 | sends a reset code to a known email |
| PasswordAuth.PasswordAuthService.ResetPassword | apps/api/auth/password-auth.js:99-136 | burns the code, sets the password and signs the user out everywhere, or refuses in order |
| PasswordAuth.PasswordAuthService.VerifyCode | apps/api/auth/password-auth.js:180-205 | takes the verifying step of the model, whose answer `VerifyIff` and `VerifyRefusal` state |
| PasswordAuth.PasswordAuthService.AuthenticateProvider | apps/api/auth/password-auth.js:207-251 | signs in the account linked to the identity, else of the email, else a new one |
| PasswordAuth.PasswordAuthService.RefreshSession | apps/api/auth/password-auth.js:281-299 | renews, signs one user out on reuse, or refuses |
| ProtocolNames.SanitizedIsProtocolName | packages/provider-adapter/protocol-names.js:11-31 | an accepted display name becomes 1 to 64 safe characters, not a directory and not a device name |
| ProtocolNames.SanitizeIff | packages/provider-adapter/protocol-names.js:11-31 | a display name is refused exactly as missing, for controls, as absolute or as sensitive, the first that holds, and is else shown as the last piece of its path |
| ProtocolNames.SafeNameKept | packages/provider-adapter/protocol-names.js:17-30 | a name that can go on the wire as it is goes as it is |
| ProtocolNames.CollapseRun | packages/provider-adapter/protocol-names.js:21 | a run of unsafe characters becomes one underscore |
| ProtocolNames.NeutralIs | packages/provider-adapter/protocol-names.js:22-24 | directory names become file and device names get a prefix |
| ProtocolNames.IsReservedIff | packages/provider-adapter/protocol-names.js:24 | the reserved names are the twenty-two device names, alone or before a dot, in any case |
| ProtocolNames.ShortenIs | packages/provider-adapter/protocol-names.js:25-28 | a long name keeps its beginning and extension around a digest of the whole |
| ProtocolNames.CandidateIs | packages/provider-adapter/protocol-names.js:43-51 | the names tried are the name itself and then the name with a number before its extension |
| ProtocolNames.ManifestNames | packages/provider-adapter/protocol-names.js:33-69 | every file has its own entry with its bytes, group and id, under the first of the names made from its display name that no earlier file has, and shown with that display name |
| ProtocolNames.CandidatesDiffer | packages/provider-adapter/protocol-names.js:45-53 | no two candidate names of a file agree, even ignoring case |
| ProtocolNames.TriesAreBounded | packages/provider-adapter/protocol-names.js:47-53 | while all candidates so far are in use there have been no more of them than names in use |
| ProtocolNames.FirstFree | packages/provider-adapter/protocol-names.js:45-53 | the first free candidate comes within that bound, and every earlier one is in use |
| ProtocolNames.ManifestLists | packages/provider-adapter/protocol-names.js:33-65 | a manifest lists each group's own files in order with their byte counts, under names that differ pairwise within and across groups ignoring case |
| ProtocolNames.FilesRefused | packages/provider-adapter/protocol-names.js:42-59 | a group's files are refused exactly when one of its display names is; renaming never fails |
| ProtocolNames.ChooseName | packages/provider-adapter/protocol-names.js:45-53 | the renaming loop ends with the first free candidate |
| ProtocolNames.BuildProtocolManifest | packages/provider-adapter/protocol-names.js:33-81 | the nested loops build the model's manifest |
| JobCommands.TranscriptReadsBack | packages/provider-adapter/job-commands.js:18-83 | reading a transcript's text back gives the groups with their identifiers, each with its own files in order and each file's own byte count |
| JobCommands.TranscriptTells | packages/provider-adapter/job-commands.js:38-74 | every transcript opens with the job's own user, language word, threshold, result count, title, directory mode and base files, and closes with query and end |
| JobCommands.MapJobIff | packages/provider-adapter/job-commands.js:18-29 | which jobs are refused, and for which of the reasons in order |
| JobCommands.FileLineParses | packages/provider-adapter/job-commands.js:57-63 | a file line cut at its last space gives back the name and the byte count, whatever the name |
| JobCommands.OwnBytes | packages/provider-adapter/job-commands.js:56 | looked up by name, a file is found with its own bytes because names differ |
| JobCommands.ClampInt | packages/provider-adapter/job-commands.js:85-89 | an integer is kept when between 1 and 1000 and replaced by the bound it is beyond otherwise; the default when not set, 1 when not an integer |
| JobCommands.MapJobToCommands | packages/provider-adapter/job-commands.js:18-83 | the commands, or the first refusal in the code's order |
| JobCommands.GroupCommands | packages/provider-adapter/job-commands.js:52-66 | the bracketed file lines of all groups |
| RunLifecycle.DeadlineHolds | packages/ui/run-lifecycle/index.js:78-202 | over any sequence of advancing, saving and recovering, from however old a save, a look five budgets after the start finds the run ended |
| RunLifecycle.ChangesBounded | packages/ui/run-lifecycle/index.js:128-166 | each change lowers the rank, so a run changes at most five times, and an ended one never, retries included |
| RunLifecycle.CreditReleasedIffNeverWaited | packages/ui/run-lifecycle/index.js:144-218 | an ended run returns its credit exactly when it never entered `wait` |
| RunLifecycle.SaveKeepsPhase | packages/ui/run-lifecycle/index.js:169-211 | saving and recovering in time keeps the phase, but for a timeout before submission, which becomes a failure |
| RunLifecycle.SaveKeepsCreditIff | packages/ui/run-lifecycle/index.js:169-218 | it keeps the decision about credit exactly for runs that did not fail or get cancelled after waiting |
| RunLifecycle.CreditReturnedAfterSubmission | packages/ui/run-lifecycle/index.js:169-218 | a run that fails while waiting keeps its credit, and returns it once saved and recovered |
| RunLifecycle.RankFalls | packages/ui/run-lifecycle/index.js:128-166 | every change that advancing makes lowers the rank of the phase, and an ended run is not changed, so the table's retry transitions, which would raise it, are never taken |
| RunLifecycle.AdvanceInTime | packages/ui/run-lifecycle/index.js:128-166 | before the deadline next moves a run on by one phase, fail and cancel end it, a timeout ends it while waiting, and nothing else moves it; the time, the code and whether it was submitted are kept as told |
| RunLifecycle.AdvanceLate | packages/ui/run-lifecycle/index.js:110-137 | past the deadline any event times the run out, uncertain exactly if it was submitted |
| RunLifecycle.EndedRuns | packages/ui/run-lifecycle/index.js:132-134 | an ended run is left alone |
| RunLifecycle.RecoverIs | packages/ui/run-lifecycle/index.js:169-202 | what a saved run is recovered as, in time or late |
| RunLifecycle.HappyPath | packages/ui/run-lifecycle/index.js:128-166 | a run moved on in time goes through the phases in order, is saved under their statuses, and succeeds on the fifth move |
| RunLifecycle.NoPhaseSkipped | packages/ui/run-lifecycle/index.js:128-166 | no run comes to a phase without going through every phase before it |
| RateLimiting.FewerThanTwice | apps/api/security/boundaries.js:91-102 | with a clock that does not go back, fewer than twice the limit are admitted in any half-open minute |
| RateLimiting.BoundIsMet | apps/api/security/boundaries.js:91-102 | for every limit a burst admits one less than twice the limit in such a minute |
| RateLimiting.RefusedOnlyAtLimit | apps/api/security/boundaries.js:99-101 | a request is refused only after the limit was admitted within the minute that ends with it |
| RateLimiting.AdmittedIff | apps/api/security/boundaries.js:95-101 | a request is admitted exactly when it is among the first of its window |
| RateLimiting.KeyIsItsOwnIff | apps/api/security/boundaries.js:92 | a request has its bucket to its own tenant and route if and only if neither of the two holds a colon |
| RateLimiting.KeysCollide | apps/api/security/boundaries.js:92 | two tenants, one with a colon, under one key |
| RateLimiting.RateLimiter.CheckRateLimit | apps/api/security/boundaries.js:91-102 | the reply and the remainder depend on the times of this key's requests alone, as counted by window |
| Checksums.CrcIsRemainder | scripts/generate-extension-icons.js:12-21 | the checksum is the inverted remainder of section 3.4 of RFC 2083, and no other polynomial is that remainder |
| Checksums.StepIsTimesX | scripts/generate-extension-icons.js:17 | one turn of the inner loop multiplies by x modulo the generator |
| Checksums.PolynomialIsGenerator | scripts/generate-extension-icons.js:17 | the constant is the generator's coefficients reflected |
| Checksums.RemainderUnique | scripts/generate-extension-icons.js:12-21 | division by the generator leaves one remainder |
| Checksums.StepInjective | scripts/generate-extension-icons.js:17 | the turn loses nothing: different registers stay different |
| Checksums.BurstsAreSeen | scripts/generate-extension-icons.js:12-21 | buffers of one length that differ within four consecutive bytes have different checksums |
| Checksums.Crc32 | scripts/generate-extension-icons.js:12-21 | the nested loops compute that checksum |
| Checksums.PixelLands | scripts/generate-extension-icons.js:71-85 | pixel (x, y) lies at y(4 size + 1) + 1 + 4x and each row starts with a zero byte |
| Checksums.RenderScanLines | scripts/generate-extension-icons.js:71-85 | every byte of the buffer is written once, in order, with its filter byte or channel |
| Intake.NormalizedIsPlain | apps/api/intake/ingest.js:39-60 | an accepted path has segments that are not empty, `.` or `..`, unless it is empty, which happens exactly when the entry is all dots and slashes |
| Intake.NormalizeIff | apps/api/intake/ingest.js:39-60 | a path is refused as empty, absolute, with controls, leading away or too long, the first that holds, and is else accepted |
| Intake.PlainPathKept | apps/api/intake/ingest.js:39-60 | a path of plain pieces is accepted as it is |
| Intake.DotSlashIsAccepted | apps/api/intake/ingest.js:39-60 | `./` is accepted as the empty path |
| Intake.AcceptedManifest | apps/api/intake/ingest.js:92-236 | one file for each member in order with its bytes, within the caps on count, bytes and depth, on distinct paths; after each archive the expansion so far is within the ratio; derived groups are at least two and partition the files |
| Intake.AcceptedPathsArePlain | apps/api/intake/ingest.js:180-220 | each accepted path is plain and within the depth cap, unless it is the empty path |
| Intake.NamedFilesExist | apps/api/intake/ingest.js:239-252 | groups the caller names hold accepted files only, one for each reference |
| Intake.MemberIff | apps/api/intake/ingest.js:180-220 | a member is refused for the first of its reasons that holds, and otherwise becomes one file with its path, name, depth, bytes and key |
| Intake.ArchiveIff | apps/api/intake/ingest.js:101-131 | an archive is refused for a member named as an archive, for its first unfit member, or for expanding beyond the ratio |
| Intake.IngestIff | apps/api/intake/ingest.js:140-178 | accepted uploads make a manifest unless they are too many, share a path, or cannot be grouped |
| Intake.IngestMembers | apps/api/intake/ingest.js:113-122 | accepts members in order up to the first refusal |
| Intake.IngestUpload | apps/api/intake/ingest.js:101-138 | an archive is refused for a nested archive, a member or its ratio; a flat object for itself |
| Intake.HasCollision | apps/api/intake/ingest.js:146-153 | finds whether two files share a path |
| Intake.IngestObjects | apps/api/intake/ingest.js:92-178 | the manifest, or the first refusal in the code's order |
| Buckets.CollectPartitions | apps/api/intake/ingest.js:226-231 | collecting under keys puts each thing in exactly the bucket of its key, in order |
| Buckets.CollectAll | apps/api/intake/ingest.js:226-231 | the collecting loop |
| Grouping.EachItemOnce | packages/ui/grouping/index.js:30-63 | every accepted item that is not a base file is in exactly one suggested group, and no other item in any |
| Grouping.FoldersStayWhole | packages/ui/grouping/index.js:20-63 | two items share a group exactly when they share a top-level folder |
| Grouping.ArchiveBranchIsIdle | packages/ui/grouping/index.js:40-43 | the archive's own branch is never taken: a hint always makes a folder |
| Grouping.FolderIff | packages/ui/grouping/index.js:20-50 | accepted items that are not base files go by the first of two or more pieces of their path, else by their hint |
| Grouping.SuggestGroups | packages/ui/grouping/index.js:30-80 | each cluster becomes a group with its files in order, and empty groups are added up to two |
| Grouping.EditsConserve | packages/ui/grouping/index.js:117-142 | no run of moves, merges, splits and reorders loses or doubles a file, and identifiers stay distinct |
| Grouping.MoveOutcome | packages/ui/group-builder/index.js:45-56 | a move takes the first file with the key out of one group and puts it last in the other, and needs both groups and the file |
| Grouping.MergeOutcome | packages/ui/grouping/index.js:117-127 | a merge puts the source's files after the target's and drops the source alone, and needs two different groups |
| Grouping.SplitOutcome | packages/ui/grouping/index.js:129-142 | a split takes exactly the chosen files into a new last group, and needs the group and a chosen file |
| Grouping.MergeConserves | packages/ui/grouping/index.js:117-127 | merging moves all files of the source and drops it alone |
| Grouping.SplitConserves | packages/ui/grouping/index.js:129-142 | splitting divides one group's files in two |
| Grouping.MoveConserves | packages/ui/group-builder/index.js:46-56 | moving takes one file from one group to another |
| Grouping.ReorderIffPermutation | packages/ui/group-builder/index.js:58-67 | a list without repetition is accepted exactly when it is a permutation of the identifiers, and that is the new order |
| Grouping.ReorderAcceptedIff | packages/ui/group-builder/index.js:58-67 | a list is accepted if and only if it is as long as the groups and names only groups there are, repeated or not |
| Grouping.RepeatedReorderLoses | packages/ui/group-builder/index.js:58-67 | an accepted list keeps the groups exactly when it repeats none |
| Grouping.SecondGroupIsLost | packages/ui/group-builder/index.js:58-67 | of two groups, naming the first twice is accepted, doubles its files and loses those of the second |
| Entitlements.NothingFromNothing | apps/api/commerce/entitlements.js:53-122 | in every run without support overrides, runs consumed plus runs left are at most the runs of the user's accepted purchases; what is left is between zero and one purchase, and zero when refunded or disputed |
| Entitlements.RedeliveryChangesNothing | apps/api/commerce/entitlements.js:53-95 | an accepted event delivered again, or a new event for a paid session, changes no entitlement, however much later |
| Entitlements.SessionPaysOnce | apps/api/commerce/entitlements.js:92-108 | a checkout session is paid out at most once in a whole run |
| Entitlements.DeliveryRefused | apps/api/commerce/entitlements.js:36-66 | a delivery is refused exactly for its date, its signature, its body, or being seen before, in this order |
| Entitlements.NoticeTaken | apps/api/commerce/entitlements.js:66-122 | a new authentic notice grants fifteen runs exactly on the approved price and version for a user and an unpaid session, takes everything back on a refund or dispute, and is remembered exactly when accepted |
| Entitlements.IssuedIff | apps/api/commerce/entitlements.js:146-161 | a token is issued exactly to an active account that is not overdrawn |
| Entitlements.ConsumedIff | apps/api/commerce/entitlements.js:182-196 | a run is consumed exactly by an active account with one left, without a claim of its own, on a token that is honoured if one is given |
| Entitlements.OverriddenIff | apps/api/commerce/entitlements.js:124-138 | support sets status and runs left exactly when user, actor and reason are named |
| Entitlements.EntitlementService.constructor | apps/api/commerce/entitlements.js:15-30 | the service starts empty |
| Entitlements.EntitlementService.ReceiveWebhook | apps/api/commerce/entitlements.js:53-84 | checks signature, body and replay in order, applies the event, and marks it only when accepted |
| Entitlements.EntitlementService.RecordPurchase | apps/api/commerce/entitlements.js:86-111 | a new active record and its session, a duplicate, or a refusal |
| Entitlements.EntitlementService.RecordStatus | apps/api/commerce/entitlements.js:113-122 | a refund or dispute takes what is left |
| Entitlements.EntitlementService.IssueLicenseToken | apps/api/commerce/entitlements.js:146-161 | a token for an active account |
| Entitlements.TokenHonouredIff | apps/api/commerce/entitlements.js:146-180 | after any run, a token issued for a user and device is honoured if and only if it is presented for that user, for that device or with either left blank, no later than its lifetime and the offline grace, and the account is then active |
| Entitlements.UnissuedIsRefused | apps/api/commerce/entitlements.js:163-166 | a token never issued in a run is invalid at every time |
| Entitlements.RefundStopsTokens | apps/api/commerce/entitlements.js:163-197 | once a refund or dispute is taken, no token of the user is honoured and no run consumed |
| Entitlements.EntitlementService.ConsumeOneRun | apps/api/commerce/entitlements.js:182-196 | one run less on an active account with one left |
| Entitlements.EntitlementService.ApplySupportOverride | apps/api/commerce/entitlements.js:124-138 | sets status and remaining runs as told |

## Left out

- Sockets, TLS, HTTP, mail, file persistence, browser storage and pages: only byte channels and in-memory state are modelled.
- Ciphers, hashes and random draws: ideal ciphers open under the sealing key only, hashes are one-to-one, draws are new.
- Characters: one character is one octet; UTF-8, UTF-16 and Unicode normalization are not modelled, so white space is the ASCII kind.
- Items, files, jobs and sessions are values found by index or key, not heap objects; aliasing between an array and a map of the program is expressed by the invariants that tie them.
- `LineParsing`: decoding never fails, so "invalid-encoding" does not arise; timer length and the caller's clock are not modelled.
- `MockServing`: only the "protocol" script; handling a line and writing its reply is one step; the bytes of a socket's back-pressure are not modelled.
- `LiveSubmit`: the transport, the failure classifier and the allowed-URL patterns other than the one the mock answers with; the digits of a number in exponent form beyond its shape.
- `WireSession`: the language is a non-empty word without white space, as the protocol needs; timeouts, aborts and closing are events of `LineParsing` and do not occur in the session's interleavings.
- `FairQueueing`: intake and provider items share one list with a credential or none; estimates, `openedAt` and identifiers as text.
- `Transfers`: one transfer and one run at a time; checksums of results are the result's success; upload sessions and their clean-up.
- `Vaults`: audits, masks and creation times; the order of records in a backup.
- `Finalizing`: the manifest, the consent record and the payload enter as one hash and one intake outcome; the transient statuses within one loop turn.
- `Sessions`: persistence of accounts across restarts, device trials and the listing of users.
- `MagicAuth`: the entitlement check and the owner and device checks of `authorize`.
- `PasswordAuth`: recording a code, mailing it and forgetting it when the mail fails is one step, although the program awaits the mail between.
- `ProtocolNames`: the scan of the serialized manifest for path fragments is a parameter, and the digest of a long name six safe characters.
- `JobCommands`: byte counts are printed in full, which for numbers of 10^21 and more the program does not do; language names that the look-up would inherit ("constructor") are not modelled and count as unknown.
- `RunLifecycle`: result references, view models and the labels of the demo; phases, events and statuses are looked up in plain objects, and names such a look-up would inherit ("toString", "constructor") are not modelled and count as absent.
- `RateLimiting`: the other checks of the gate.
- `Checksums`: the geometry of a pixel is a parameter; deflating and chunk headers.
- `Intake`: content inspection (binary, encoding, declared type) enters as three findings of a member; the sandbox record; sizes are natural numbers; labels are not cut.
- `Grouping`: switching modes, renaming and previews; identifiers and captions of the empty groups.
- `Entitlements`: audits and the terms of the offer other than price, runs and version.
- Job state tables, failure tables, retention, results, sandboxed workers, live pair composition, user interface copy and release tooling: mostly look-ups or single flags.
