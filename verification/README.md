# Verified model of the edge gateway's delivery path

The gateway turns bank transactions into anonymised signals, answers `202` once a
signal is durably queued, and delivers it later, at least once, with an audit record
for every confirmed delivery. This project models that path and proves what its code
and comments promise, together with the exact conditions under which some of the
promises hold.

Check it with `dafny verify dfyconfig.toml`.

## How it is laid out

**The protocol.** `Protocol.dfy` is a transition system: any number of `Enqueue` calls,
each with its own program counter between `s.mu.Unlock()` and the return; one forwarder;
the redelivery guard; process crashes and power losses. Every system call is one step and
its result is a parameter of the step. A file has visible contents and a durable half:
whether its contents are flushed, and the set of places its name may be found after the
power fails. `History.dfy` is the log of what the outside world saw. The invariants live in
`Safety.dfy` (files), `Ledger.dfy` (deliveries, audits and removals), `Items.dfy` (the guard,
item by item), `Depth.dfy` (the counter) and `Order.dfy` (FIFO, wake-ups). `Witness.dfy` holds
the runs that break a promise when a hypothesis is dropped.

**The classes.** `AuditForward.dfy` (`RedeliveryGuard`, `AuditingForward`,
`AuditingSyncForward`) and `Spool.dfy` (`Spool`) have the fields and methods of the code.
`Spool` carries a ghost copy of the protocol's state and the list of steps taken so far;
`Valid()` says the fields agree with that state and that the steps lead to it from the start,
so everything proved of runs holds of the object (`Accountable`, `Bounded`). `Listing.dfy` ties
directory entries and sorted names to the protocol's head, `SpoolNames.dfy` proves what the
file names encode, `Drain.dfy` is the `Run` loop on a `Spool` while nothing is added.

**Spool and audit log together.** `Compliance.dfy` runs the protocol and the day-file writer side by side:
Record's outcome is what the writer makes of its system calls. `SyncCalls.dfy` is the wrapper without a
spool, called concurrently.

**The rest.** `DayFile.dfy` is the day-file state machine shared by the audit log and the
local sink; `DirSync.dfy` the race it relies on; `Geohash.dfy` the bisection and its decoder;
`Retry.dfy` the bounded retry; `Mosaic.dfy` the keyed identity messages.

## Hypotheses, made explicit

`Protocol.Config` holds the settings and the assumptions about the environment, and each
theorem asks only for those it needs:

- `Durable()`: fsync is on, or the power does not fail. Without it `Witness.FsyncOffLosesAccepted`
  loses an accepted signal.
- `removeWorks`: `os.Remove` of a queue file succeeds. The code ignores the error; without it the
  counter undercounts, its underflow guard fires and the signal is delivered again by the same process
  (`Witness.FailedRemoveUndercounts`). `Depth.DepthExact` says that nothing else upsets the counter.
- `headStable`: no smaller name is committed while a head is being retried or its audit is owed.
- `steadyClock`: the clock never goes back. `laterRestarts`: it reads later in each new process than in
  the one before. Together they make names fresh (`Order.ReservedNameIsFresh`); elsewhere freshness is a
  guard of the reservation step.
- `clearOnDead`: the OnDead hook clears the guard, as `cmd/gateway/main.go` wires it.

## Where the code and its comments disagree

- `cmd/gateway/audit.go:174-178` argues that the guarded item is always the one being retried.
  `Enqueue` picks its name under the lock and renames later, so a smaller name can appear while
  the head's audit is owed; with equal payloads it is then audited and removed without ever having
  been delivered (`Witness.LateCommitBreaksTheGuard`). `Items.SkipExact` gives the exact condition.
- `internal/dirsync/dirsync.go:107-119` says the exclusive create closes the window in which nobody
  fsyncs the directory. It does not: when the creator dies before its fsync, the name stays undurable
  under both protocols (`DirSync.ExclusiveOrphan`). What the exclusive create does give is a
  unique creator (`DirSync.UniqueCreator`, with the exact condition for the orphan).
- `internal/auditlog/auditlog.go:234-246` expects a retry after a failed directory fsync to make the
  record durable. The handle and the day are already set, so the retry skips that fsync
  (`DayFile.FailedDirSyncIsNeverRepeated`), and a signal can leave the queue with its only audit line
  under a name that a power loss takes (`Compliance.RemovedUnaudited`).
- `docs/signal-schema-v2.md:394-397` promises original submission order. It holds for producers that
  do not overlap (`Order.NonOverlappingFifo`), and on a clock tie only while the sequence numbers
  compare as their digits do (`SpoolNames.TieOrderExact`, `SpoolNames.MillionthOvertakes`);
  `Witness.OverlapOvertakes` shows the rest.
- The delays of the retry are `250 * 2^(i-1)` ms exactly for the first 36 retries; from the 37th on
  the `time.Duration` wraps around. The upper bound on the total holds for every number of retries,
  since wrapping only shortens a wait.

## Model

| member | source | states |
|---|---|---|
| Ledger.NoAcceptedSignalLost | internal/spool/spool.go:209-295 | Over every interleaving, crash and power loss (with fsync on), a signal whose Enqueue returned nil is queued or in dead/ with its whole payload, or was removed after a confirmed delivery of its digest. |
| Ledger.QueueHoldsWholePayloads | internal/spool/spool.go:318-340 | With fsync on, or without power losses, a file under its final name always holds one whole enqueued payload. |
| Ledger.RemovedAfterRecord | cmd/gateway/audit.go:195-216 | In every run, with no hypothesis: the event before each removal of a delivered file is Record returning nil for the bytes the file held (without auditing: their confirmed delivery). |
| Ledger.RemovalsNeverExceed | internal/spool/spool.go:423-436 | In every run, digest by digest: removals never outnumber audit records (without auditing: deliveries), nor audit records the deliveries. |
| Ledger.DeliveryConservation | cmd/gateway/audit.go:117-148 | In every reachable state, counted by digest: confirmed deliveries = audit records + confirmations lost (overwritten, cleared by OnDead, wiped by a restart) + the one the guard holds. No assumption on the head. |
| Ledger.AuditSoundness | cmd/gateway/audit.go:195-216 | Every line ever written to the audit file, even one whose fsync failed, comes after a confirmed delivery of bytes with its digest. |
| Ledger.RunBalanced | internal/spool/spool.go:423-436 | The invariant behind these is kept by every step: the in-memory guard equals the guard replayed from the log, and a file about to be removed has just been licensed, whatever it holds. |
| History.Conservation | cmd/gateway/audit.go:126-148 | A guard that is only ever audited for what it holds loses no confirmation uncounted. |
| History.RestartBetween | cmd/gateway/audit.go:181-188 | Where each process delivers a signal at most once, two deliveries of one signal have a process start between them. |
| Items.ItemSoundness | cmd/gateway/audit.go:164-179 | With a stable head and a working remove, whatever fsync is set to and whatever loses power: a set guard holds the digest of the current head, which this process delivered; nothing is delivered twice by one process, and nothing is removed without its own delivery. |
| Items.SkipExact | cmd/gateway/audit.go:174-178 | With no such assumption, in every run with the OnDead hook: a delivery is skipped for the item that was itself delivered if and only if the item's name does not precede the guarded one; the guarded item was always delivered by this process. |
| Witness.LateCommitBreaksTheGuard | internal/spool/spool.go:210-228 | A run with the hook in place in which a name committed late is audited and removed undelivered, and the other signal is delivered twice by one process. |
| Witness.OverlapOvertakes | internal/spool/spool.go:210-228 | A run in which the forwarder works on a signal while one reserved earlier, with a smaller name, is queued behind it. |
| Witness.HookIsNeeded | cmd/gateway/main.go:239-252 | Without the clear in OnDead, even with a stable head, a signal that was never delivered is audited and removed. |
| Witness.FsyncOffLosesAccepted | internal/spool/spool.go:342-350 | With fsync off, a power loss can take an accepted signal that was never delivered. |
| Witness.FailedRemoveUndercounts | internal/spool/spool.go:435-436 | With auditing or without: one failed os.Remove leaves a queued file that depth does not count, the same process delivers it again, and the next removal meets the underflow guard. |
| Safety.RunSound | internal/spool/spool.go:209-295 | Every step of every run keeps, file by file, the relation between a call's program counter, where its file is, what is durable, and what the caller was told. |
| Depth.DepthConservation | internal/spool/spool.go:474-481 | In every run in which no removal of a queue file fails: depth = queued files + reservations neither committed nor given back + the file on its way out; the queue never exceeds max(maxDepth, what New found); decDepth never sees zero. |
| Depth.DepthExact | internal/spool/spool.go:435-436 | The equation holds in every state of a run if and only if no removal of a queue file fails in it. |
| Order.NonOverlappingFifo | internal/spool/spool.go:403-416 | With a clock that never goes back: if Enqueue(a) had returned before Enqueue(b) started, the forwarder never has b in hand while a is queued, on a tie provided the sequence numbers compare as digits. |
| Order.Fifo | docs/signal-schema-v2.md:394-397 | The same from the outside: a signal whose Enqueue had returned when another reserved its name is never queued while that other is forwarded, whatever ran before and after. |
| Order.ReservedNameIsFresh | internal/spool/spool.go:215-217 | In every run with a clock that also reads later in each new process, the next name is new, and later than every name in use. |
| Order.NoLostWakeUp | internal/spool/spool.go:228-243 | In every run, with no hypothesis: a forwarder parked while a file is queued has a token waiting, or an Enqueue is between its rename and its send. |
| SpoolNames.NameOrder | internal/spool/spool.go:217 | For clock readings below 2^63, string order of two names is order of the readings, and on a tie the order of the printed sequence numbers. |
| SpoolNames.NameOrderSmallSeq | internal/spool/spool.go:217 | It is the order of (nanos, seq) when the readings differ or both numbers are below a million. |
| SpoolNames.TieOrderExact | internal/spool/spool.go:215-217 | On a tie, names order as the sequence numbers s < t if and only if s does not exceed the leading digits of t. |
| SpoolNames.MillionthOvertakes | internal/spool/spool.go:215-217 | The first counterexample: 1000000 sorts before 999999 on a tie. |
| SpoolNames.FileNameInjective | internal/spool/spool.go:217 | Different (nanos, seq) give different names. |
| SpoolNames.ParseSpoolTimeRoundTrip | internal/spool/spool.go:527-537 | The parse of a name gives back exactly its nanos, and fails exactly when they do not fit an int64. |
| SpoolNames.ParseSpoolTimeOf | internal/spool/spool.go:527-537 | Of any name, the parse reads what comes before the first dash, and fails when there is no dash or nothing before it. |
| SpoolNames.NameShape | internal/spool/spool.go:217 | A name is twenty digits of the reading, a dash, six digits of the sequence number, and ".json". |
| Listing.ReadDir | internal/spool/spool.go:459-462 | The entries hold each queued file under its name, each temp file under its name with ".tmp", the directory dead, and nothing twice. |
| Listing.ListPending | internal/spool/spool.go:458-472 | The result is sorted and holds exactly the names of the entries that are no directories and end in ".json", as often as they occur. |
| Listing.ListedIsQueued | internal/spool/spool.go:463-470 | A name is listed if and only if a committed file bears it: no temp file and nothing in dead/ gets in. |
| Listing.ListingHead | internal/spool/spool.go:403-414 | The first listed name is the protocol's head, and there is none if and only if the queue is empty. |
| Listing.ListingCount | internal/spool/spool.go:137-141 | The number of listed names is the number of queued files, which is what New counts. |
| Listing.SortSorted | internal/spool/spool.go:470 | The sort used by the listing yields an ordered permutation. |
| AuditForward.RedeliveryGuard.Clear | cmd/gateway/audit.go:144-148 | Nothing is held afterwards. |
| AuditForward.RedeliveryGuard.MarkDelivered | cmd/gateway/audit.go:134-138 | This digest is held afterwards. |
| AuditForward.RecordedKeeps | cmd/gateway/audit.go:206-214 | A Record call for the pending digest keeps every line backed by a delivery, adds one audit exactly on success, and leaves the digest pending exactly on failure. |
| AuditForward.AuditingForward.Forward | cmd/gateway/audit.go:195-216 | Delivers unless the guard holds the digest, then audits; exact result, guard, failure count and log in every case; the guard stays what a replay of the log gives and no line precedes its delivery. |
| AuditForward.AuditingForward.OnDead | cmd/gateway/main.go:241-252 | Clears the guard and keeps the invariant. |
| AuditForward.AuditingForward.Ledgered | cmd/gateway/audit.go:155-188 | In every valid object: deliveries = audits + lost + held. |
| AuditForward.AuditingSyncForward.Forward | cmd/gateway/audit.go:252-265 | Delivers, then audits, with no guard; no line precedes its delivery. |
| SyncCalls.ConcurrentAuditSoundness | cmd/gateway/audit.go:252-265 | However any number of synchronous calls interleave, each audit line comes after a confirmed delivery of bytes with its digest. |
| SyncCalls.ReturnedNil | cmd/gateway/audit.go:252-265 | A synchronous call returns nil if and only if its record has completed, and then it was delivered, once, and audited. |
| Compliance.RemovedIsAudited | cmd/gateway/audit.go:150-162 | Spool and audit log together, with auditing on: the line of every removed signal is readable and on stable storage, whatever crashed or lost power since, unless a power loss took a file whose directory fsync had failed; with working directory fsyncs, always, under a durable name. |
| Compliance.RemovedUnaudited | internal/auditlog/auditlog.go:231-252 | The exception happens: a signal is delivered, audited on a retry after a failed directory fsync, and removed; a power loss leaves no trace of it. |
| SpoolQueue.Spool.constructor | internal/spool/spool.go:122-144 | A new process on what a crash or power loss left: depth counts the queued files, the guard is empty, the oldest time is the head's, and the object continues the run. |
| SpoolQueue.New | internal/spool/spool.go:122-144 | No spool exactly when the directory cannot be made or listed; else the one above. |
| SpoolQueue.Spool.ReserveName | internal/spool/spool.go:210-218 | From any reachable state: full exactly at the limit and then nothing changes; else the name is reserved and counted. |
| SpoolQueue.Spool.Enqueue | internal/spool/spool.go:209-295 | The methods above in the order of the code. Full exactly at the limit and then nothing changes; nil exactly when every system call that is due has succeeded, and exactly then the signal counts as accepted; the directory fsync's error exactly when that call alone failed, the signal being committed all the same; with fsync off nothing is counted as a directory-fsync failure. Exact new directory, counters and wake token; an accepted payload is whole under its own name and, with fsync, contents and name are durable; other files are untouched; the whole is a run of the protocol. |
| SpoolQueue.Spool.CommitFile | internal/spool/spool.go:227-294 | From any reachable state: an error with nothing committed exactly when the rename fails, nil exactly when the call counts as accepted, and the consecutive directory-fsync failures. |
| SpoolQueue.Spool.WriteTempFile | internal/spool/spool.go:321-340 | From any reachable state: succeeds exactly when create, write, fsync (if on) and close do; the temp file then holds the payload, flushed with fsync on; no other file or call is touched. |
| SpoolQueue.Spool.Rename | internal/spool/spool.go:228-232 | From any reachable state in which the temp file is closed: the file is in the queue under its name, or nothing changed. |
| SpoolQueue.Spool.Undo | internal/spool/spool.go:223-226 | From any reachable state in which the call failed: the temp file is gone if it could be removed, and the reservation is given back. |
| SpoolQueue.Spool.Publish | internal/spool/spool.go:240-294 | From any reachable state after the rename: the wake token is there; nil exactly when fsync is off or the directory fsync succeeded, and exactly then the call counts as accepted; the failure count is raised, reset or, with fsync off, left alone. |
| SpoolQueue.EnqueueRun | internal/spool/spool.go:209-295 | From any state with room, the steps of one Enqueue form a run, whose end state is given exactly, for every combination of failures. |
| SpoolQueue.Spool.DecDepth | internal/spool/spool.go:474-480 | Decrements, never below zero. |
| SpoolQueue.Spool.ListOldest | internal/spool/spool.go:501-515 | The head is the first queued file, and the oldest time is exactly its enqueue time, or none when nothing is queued. |
| SpoolQueue.OldestNeverHidden | internal/spool/spool.go:487-511 | A backlog is never reported as none: an unreadable first name stands for the epoch. |
| SpoolQueue.Spool.ForwardOldest | internal/spool/spool.go:403-445 | One attempt on the head, in terms of the system calls: delivered (or recognised by the guard), audited and removed; or rejected or unreadable and dead-lettered; or left in place; with the exact directory, depth, guard, audit failures and deliveries in every case; progress is reported exactly when the attempt was not a retryable failure, even if the removal or the dead-lettering failed; the whole is a run of the protocol. |
| SpoolQueue.Spool.DeadLetter | internal/spool/spool.go:447-456 | A failed rename changes nothing; else the file is in dead/, counted out, and the guard forgets. |
| SpoolQueue.HeadRun | internal/spool/spool.go:403-445 | The steps of one attempt form a run, whose end state (directory, depth, guard, log) is given exactly, for every combination of results. |
| SpoolQueue.Spool.AwaitWork | internal/spool/spool.go:379-386 | A parked forwarder wakes by the token, which it consumes, or by the timer, or stops with nothing changed when the context is done. |
| SpoolQueue.Spool.AwaitBackoff | internal/spool/spool.go:387-397 | After the backoff the head is tried again; a done context stops with nothing changed. |
| SpoolQueue.Spool.Accountable | internal/spool/spool.go:209-295 | In every valid object an accepted signal is in the queue or dead/, whole, or was removed after a confirmed delivery. |
| SpoolQueue.Spool.Bounded | internal/spool/spool.go:137-141 | In every valid object the queue is at most depth, and at most max(maxDepth, what New found). |
| Drain.Run | internal/spool/spool.go:367-401 | While nothing is added and file operations work, whatever retryable failures each signal meets (listing, delivery, or an audit record with or without its line): the loop ends with an empty queue; signals leave once each, oldest first, after their own failures; each wait is min(2^k, 30) s after k failures since the last progress; the waits add up to the closed forms; directory, guard and deliveries are what the turns make of them. |
| Drain.EachOnce | cmd/gateway/audit.go:164-188 | Each signal of a drained queue has left it: delivered exactly once if it was accepted at any attempt, not again if its audit alone was owed from the start, never twice; in dead/ exactly if it was unreadable, or rejected before any delivery, else gone. |
| Drain.Fated | cmd/gateway/audit.go:195-216 | Half-way through a drain: how often each signal has been delivered, and where its file is. |
| Drain.Tracked | cmd/gateway/audit.go:117-148 | The guard is told exactly by the failures the head has met. |
| Drain.TotalWaitExact | internal/spool/spool.go:387-398 | Over any history paced so, the total wait is the sum of W(f), W(m) = 2^m - 1 up to 5 failures and 31 + 30(m - 5) beyond. |
| DayFile.AppendDurable | internal/auditlog/auditlog.go:212-259 | When Record returns nil its line is the last of the day's file and all of that file is durable; the file's name is durable if and only if it already was or this call created the file. |
| DayFile.FailedDirSyncIsNeverRepeated | internal/auditlog/auditlog.go:231-252 | A run in which the directory fsync fails, the retry is acknowledged without it, and a power loss takes the acknowledged line. |
| DayFile.DayFilesReadable | internal/auditlog/auditlog.go:206-259 | Over rollovers, failed opens, restarts and power losses: an open handle is on the recorded day's file; splitting at newlines gives back the lines written, in order, the acknowledged ones among them and durable; a name is durable if and only if a directory fsync succeeded since the file was created. |
| DayFile.RunGrows | internal/dirsync/dirsync.go:124-142 | Without a power loss contents only ever grow by extension. |
| DayFile.PowerLossKeeps | internal/auditlog/auditlog.go:254-258 | In a file whose name is durable, a power loss keeps each acknowledged line where it was. |
| DayFile.SplitRender | internal/auditlog/auditlog.go:203-204 | Splitting what was rendered from newline-free lines gives the lines. |
| DayFile.Writer.Append | cmd/gateway/sink.go:71-111 | Returns nil exactly when the handle was open on the day's file, or the file could be opened and, if new, its name made durable, and the write and the data fsync succeeded; a line is added exactly when the write was reached and succeeded, bytes become durable exactly on nil, other files keep theirs; handle, day and names in every case. |
| DayFile.AppendOutcome | internal/auditlog/auditlog.go:212-258 | The same of the step the lemmas about runs are about. |
| DayFile.Writer.Close | internal/auditlog/auditlog.go:262-272 | The handle is gone, the files are untouched. |
| DirSync.UniqueCreator | internal/dirsync/dirsync.go:124-142 | For any interleaving of any writers, exactly one is told it created a file that comes to exist, no open loses data (it opens for appending), and the name is left undurable with nobody to fsync it if and only if that creator was lost before its fsync. |
| DirSync.ExclusiveOrphan | internal/dirsync/dirsync.go:107-119 | A schedule of the exclusive create in which the creator dies and nobody fsyncs the directory. |
| DirSync.StatThenOpenOrphan | internal/dirsync/dirsync.go:99-111 | The same for stat-then-open. |
| DirSync.StatThenOpenTwoCreators | internal/dirsync/dirsync.go:99-111 | Stat-then-open lets two writers both believe they created the file. |
| DirSync.TruncatingOpenLosesData | internal/dirsync/dirsync.go:124-142 | Opening with truncation instead would have a unique creator too, and lose data. |
| Geohash.Geohash | internal/processor/anonymizer.go:410-453 | For every valid point and precision the result is the hash the theorems below are about, exactly that long and made of digits and lower-case letters other than a, i, l, o; ZONE_UNKNOWN exactly otherwise. |
| Geohash.RankOfLetter | internal/processor/anonymizer.go:403-404 | The table holds the digits and the lower-case letters other than a, i, l, o, each at the place its order among them gives. |
| Geohash.HashCorner | internal/processor/anonymizer.go:426-449 | The south-west corner of the cell, read off the letters of any hash: the even bits of their ranks are the binary digits of the longitude's share of 360 degrees, the odd ones those of the latitude's share of 180. |
| Geohash.Encode | internal/processor/anonymizer.go:416-452 | The loop alone, for any point: one bit of the bisection a turn, one character every five. |
| Geohash.HashNamesCell | internal/processor/anonymizer.go:427-442 | Every valid point lies in the cell its hash decodes to, and another has the same hash if and only if it lies in that cell (half-open, closed at the top edge). |
| Geohash.EveryStringIsAHash | internal/processor/anonymizer.go:404 | Every string over the alphabet is the hash of the centre of its cell. |
| Geohash.HashPrefix | internal/processor/anonymizer.go:426-449 | The hash of length p is a prefix of that of length q, for p up to q. |
| Geohash.HashCellSize | internal/processor/anonymizer.go:428-442 | The cell of p characters measures 360/2^ceil(5p/2) by 180/2^floor(5p/2) degrees. |
| Geohash.PackingAgrees | internal/processor/anonymizer.go:430-447 | Five bits or-ed into place make the same number as their sum, below 32. |
| Retry.ForwardWithRetry | internal/adapters/outbound.go:147-174 | At most n + 1 attempts, all but the last answered transiently; success exactly when the last was accepted; a hopeless answer ends it; cancellation only between attempts; the elapsed time is that of the attempts plus exactly 250(2^(made-1) - 1) ms up to 37 attempts, and on a cancellation the part of the next delay that was waited. |
| Retry.ElapsedExact | internal/adapters/outbound.go:149-157 | The same closed forms of the elapsed time, for any attempts and any cancellation. |
| Retry.RetryBudget | internal/adapters/outbound.go:116-119 | With 2500 ms attempts, n retries take at most 2500(n + 1) + 250(2^n - 1) ms, for every n, cancelled or not; 8250 ms for two. |
| Retry.Classify | internal/adapters/outbound.go:65-114 | 200 and 201 are accepted; requests that cannot be made and any 4xx but 429 are never retried; 429, 5xx and transport errors are. |
| Retry.BackoffExact | internal/adapters/outbound.go:151 | The delay is 250 * 2^(i-1) ms if and only if i is at most 36, and never waits longer. |
| Retry.DelayTimeExact | internal/adapters/outbound.go:149-157 | The delays add up to 250(2^n - 1) ms exactly for n up to 36, and to no more for any n. |
| Mosaic.NormalizeID | internal/processor/anonymizer.go:370-379 | The result has one character for each of the input that is not white space, a dash or a dot, in order, each the upper case of the one it stands for. |
| Mosaic.NormaliseAlike | internal/processor/anonymizer.go:368-379 | Two IDs normalise alike if and only if what is kept of them agrees up to upper case. |
| Mosaic.NameWoven | internal/processor/anonymizer.go:381-385 | A normalised name is the words of the upper-cased name, with one space between any two, whatever white space there was. |
| Mosaic.KeyMaterialSeparates | internal/processor/anonymizer.go:361-366 | Without a pepper the salt is the key; for one salt, keys are equal if and only if the peppers are; for salts without '\|', if and only if both are. |
| Mosaic.MosaicsMeet | internal/processor/anonymizer.go:580-612 | Across gateways, for HMAC injective in key and message: regional national-ID mosaics meet exactly for one pepper and one ID, whatever the salts; bank-keyed and fallback ones exactly for one key and one ID or record; the bases never meet; scope and basis say which is which. |
| Mosaic.IdentitySeparates | internal/processor/anonymizer.go:598-612 | At one bank-keyed gateway two transactions share an identity mosaic if and only if basis and normalised identity agree, when normalised internal IDs contain no '\|'. |
| Mosaic.PipeConfuses | internal/processor/anonymizer.go:609 | The proviso is exact: for every transaction whose normalised internal ID contains a '\|' there is another identity with the same mosaic. |
| Mosaic.LocalCollision | internal/processor/anonymizer.go:609 | Two fallback messages are equal if and only if the records are, or one ID takes over a '\|' and the start of the other's name. |
| Mosaic.DestinationIsTheirIdentity | internal/processor/anonymizer.go:731-740 | A destination mosaic is the counterparty's own identity mosaic for equal normalised national IDs: under the same secrets in bank keying, under any salts with one pepper in regional keying. |
| Mosaic.DestinationOnlyTheirs | internal/processor/anonymizer.go:731-740 | And only theirs, at one bank-keyed gateway: it equals an identity mosaic if and only if that is of the normalised national ID. |
| Mosaic.DestinationSeparates | internal/processor/anonymizer.go:731-745 | There is a destination mosaic exactly when something names the counterparty; at one bank-keyed gateway two are equal exactly for one normalised ID of one kind. |
| Mosaic.DestinationsMeet | internal/processor/anonymizer.go:731-745 | Across gateways: destination mosaics of national IDs meet exactly for one pepper and one ID in regional keying, one key and one ID in bank keying; those of internal IDs exactly for one key and one ID, whatever the keying; scope and basis say which is which. |
| Mosaic.FallbackDestinationMatchesNobody | internal/processor/anonymizer.go:741-745 | At one bank-keyed gateway a fallback destination mosaic equals no identity mosaic, when the counterparty's normalised ID contains no '\|'. |

## Left out

- The power-loss model takes a rename as atomic and lets any subset of unsynced directory operations survive. Since dead/ is never fsynced, a dead-lettered file may be back in the queue after a power loss; the safety theorem allows for it.
- A write either writes everything or fails; a failed write of the temp file may leave any bytes. In the day files a failed write leaves nothing.
- SpoolQueue.Spool.Enqueue: its own contract describes a call that no other call interrupts. The methods it is made of start from any reachable state, so other calls may come between them; the steps inside one of them interleave in the protocol only. `sync.Mutex` itself is not modelled.
- Drain.Run: nothing is enqueued while it runs, and removals and dead-letter renames succeed; a failed dead-letter rename, which the code reports as progress without a wait, is in ForwardOldest.
- Geohash.Geohash: bits are added into `ch` instead of or-ed; PackingAgrees shows that it is the same number. Coordinates are reals with a NaN and infinities beside them: the midpoints of the bisection are dyadic multiples of 45 and exact in float64 at the precisions used.
- DayFile.Writer.Append: Logger and localSink are one class, since they differ only in the file name and the line; the contents of an audit record are not modelled.
- AuditForward.AuditingSyncForward.Forward: one call at a time; SyncCalls has them interleave.
- Compliance.RemovedIsAudited: a Record call, with the directory fsync of a new file, is one step; a crash inside it is a failed one followed by a crash.
- JSON, SHA-256 and HMAC: payloads are bytes, the digest any function that is never empty, HMAC any function injective in its message for a fixed key where that is said. A payload whose JSON does not parse is a Record call that writes no line.
- Unicode: `unicode.IsSpace` and `unicode.ToUpper` are parameters with the few properties the proofs use.
- The `uint64` wrap-around of the sequence number and the int64 limit of the clock are out of reach of the model: the counter is unbounded, the clock stays below 2^63 nanoseconds.
- The context check at the top of the Run loop, metrics, hooks other than OnDead, and logging.
- HTTP handlers, configuration, TLS, static pages, BucketTimestamp, MapToTier, Validate and the signal-id source: plumbing or single-branch tests.
