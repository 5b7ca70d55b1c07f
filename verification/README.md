# A model of the FDC+ disk server, with proofs

The firmware serves floppy and hard disk images to an FDC+ disk controller over a serial
line or TCP. The images are files on an SD card or files behind a TNFS session; the same
card is open to a command line, an FTP server and a TNFS server. This project models that
system in Dafny and proves what it is meant to keep.

- **Disk module.** `DiskCore` holds the mount table, the one shared track buffer with its
  one-entry cache, and the bodies of the two track operations as they run inside the disk
  lock. `DiskMachine` is the module as a concurrent machine: any number of caller tasks and
  the worker, three locks (the mount lock recursive) and the job queue, a step being what a
  task does between two lock operations. `DiskLocks`, `DiskJobs`, `DiskBackings`, `DiskData`,
  `DiskWriters` and `DiskNames` prove the invariants that every step keeps, `DiskTheorems`,
  `DiskOwnership` and `DiskAcks` the results for every run: whatever tasks, the worker and
  handles on the card's files do. `DiskCalls`, `DiskMounts` and `DiskAnswers` follow whole
  calls from their start to their answer: what an OK means. `DiskRefusals` says what any other
  answer means. `DiskHandles` shows what a file handle opened for writing
  does to an image that is mounted later, and `DiskGuard` joins the guard's comparison of text
  to the paths of the machine. `DiskDevice` is the same table as a class updated in place, for
  the single task that serves the controller; its card may fail at any access.
- **FDC+ engine.** `Fdc` is the engine's class, its buffers and loop, over a line that may
  bring any bytes with any timing and a card that may fail at any moment. `FdcController` is
  the simple controller over four byte arrays that the engine is proved to implement, and
  `FdcLine` says what the bytes on the line make it do in terms of those bytes alone.
  `TcpHandover` is the passing of a TCP client from the listener to the fdc task.
- **TNFS.** `TnfsLink` is one client and one server with a network that loses and duplicates
  datagrams between them, `TnfsHistories` the exact conditions for commands to be executed
  exactly once. `TnfsProto` is what both sides share. `TnfsFile` is the client's chunked
  reading and writing over it, `TnfsSessions` the server's session table, `TnfsDir` directory
  listing in batches, `TnfsList` the client's loop over such a listing, and `TnfsFraming` the
  cutting of replies out of a byte stream.
- **Names and text.** `SdPath`, `SdIdentity` and `SdCanonical` are canonical paths on the
  card and the test that protects mounted images; `Wildcard` the glob matcher, `Tokenizer`
  the in-place command line tokenizer, `Batch` nested batch files, and `BatchScripts` what
  such files mean as their authors write them. `Protocol` and `Bytes` are
  the block format and the byte-level vocabulary.

Where time passes in the firmware the model has a free choice: a receive window may close
anywhere, a wait may end at any moment, and every lock is given to any waiting task.

Five properties turned out to need a condition. For each the exact condition is proved, with
an input or a run that fails without it:

- The glob matcher tests a character for equality before it looks for `*`. It agrees with
  the meaning of every pattern exactly when the name holds no `*`
  (`Wildcard.MatcherIsExact`); it never accepts wrongly.
- A TNFS client advances its sequence number only on success, so a command whose code was
  given up on since the last success looks like a retransmission of the earlier one. A
  client's history is executed exactly once under all network behaviours if and only if it
  issues no such command (`TnfsHistories.ExactlyOnceIffNoBurntIssue`). In the file client it
  is the LSEEK that can be repeated this way, after which a read comes from the wrong place
  (`TnfsFile.GivenUpSeekMisleads`): a seek is safe if and only if no LSEEK to another place
  was given up on since the last success (`TnfsFile.SeekIsSafeIff`).
- A TNFS session that ends because the server's link drops takes the cached reply with it.
  That is harmless if and only if no copy of the MOUNT can still arrive
  (`TnfsHistories.SessionEndIsHarmlessIff`); otherwise the MOUNT can be executed twice.
- A TNFS server answers READ at the end of a file with the status alone, while the client on
  a byte stream waits for a count; every other reply is cut out of the stream exactly
  (`TnfsFraming.FramingInvertsBuilding`).
- The guard on mounted images is given back as soon as a file is open, and FatFs is built
  without file locking (DESIGN.md:800). Once an image is mounted, every read answered from it
  is true, whatever else happens, if and only if no handle was open for writing on it when it
  was opened for mounting (`DiskHandles.MountIsSafeIff`). Otherwise the cache can go stale and
  a read returns bytes that the image no longer has (`DiskHandles.WriterMakesReadsStale`).
  Jobs, sessions, locks, the guard and progress are not touched by this, and a drive on whose
  image no such handle has written keeps all its guarantees, too: the results about bytes say
  "untouched" for that.

Where a comment and the code disagree the model follows the code: the comment at
src/disk/sd.c:126-130 refuses a trailing slash and the loop lets it by; the "line too long"
branch at src/cli/commands.c:1785-1792 also takes a last line that has no newline, which is
so never run.

## Model

| member | source | states |
|---|---|---|
| `Bytes.Wr16` | include/tnfs_proto.h:102-115 | a 16-bit word written to the wire reads back as itself |
| `Bytes.Wr32` | include/tnfs_proto.h:106-122 | so does a 32-bit word |
| `Bytes.Wr16Inverts` | include/protocol.h:58-67 | two wire bytes and their word determine each other |
| `Protocol.Checksum16` | include/protocol.h:48-55 | the accumulator that wraps at every byte is the true sum modulo 2^16 |
| `Protocol.BlockFinalize` | include/protocol.h:70-73 | a finalized block is valid and its first eight bytes are untouched |
| `Protocol.CheckBlock` | include/protocol.h:76-79 | accepts exactly the valid blocks |
| `Protocol.OneByteErrorDetected` | include/protocol.h:44-79 | a valid block with any one of its eight bytes changed is not valid |
| `Protocol.BoundsAreExact` | include/protocol.h:97-121 | the guarded 32-bit bounds test admits exactly the tracks inside the image, with no wrap in the offset |
| `Protocol.StatusBitmap` | include/protocol.h:133-142 | bit n is set exactly when drive n is mounted, all higher bits are clear |
| `DiskCore.CheckTrackExact` | src/disk/disk.c:800-817 | a track request passes exactly when its bytes lie in the image mounted on that drive and its length is 1 to 8192 |
| `DiskCore.ReadLockedIsCorrect` | src/disk/disk.c:832-882 | a read answered OK gives the mounted image's bytes, from the card always and from the cache if nothing else has written to the image; a read past the file's end fails; the cache stays as true as it was even after a card fault; nothing is written |
| `DiskCore.WriteLockedIsCorrect` | src/disk/disk.c:884-920 | a write answered OK puts exactly the track into exactly one image, in place unless something else has cut it short; any other answer without a fault changes none; the cache stays as true as it was |
| `DiskCore.SecondReadIsFree` | src/disk/disk.c:822-856 | a track just read is read again without the card or the worker, and with the same bytes |
| `DiskCore.ReadAfterWriteIsFree` | src/disk/disk.c:906-919 | a local track just written is read without the card, as what was written |
| `DiskMachine.Holder` | src/disk/disk.c:734-746 | the guard's loop finds a drive whose local image the change touches, or there is none |
| `DiskLocks.KeepsLocks` | src/disk/disk.c:205-220 | in every step each lock is held by exactly the task whose position says so, the recursive mount lock as often as that task has taken it |
| `DiskJobs.KeepsJobs` | src/disk/disk.c:263-285 | every step keeps each job with exactly one party that will free it, and no pointer to a freed job |
| `DiskBackings.KeepsBackings` | src/disk/disk.c:543-561 | every step keeps each open backing with exactly one owner: a slot, a task, a close job or the worker |
| `DiskWriters.KeepsInv` | src/disk/disk.c:822-945 | every step of every task, and of every handle on the card, keeps all invariants: locks, jobs, backings, cache coherence, transfers, mounted files |
| `DiskWriters.RunsKeepInv` | src/disk/disk.c:565-1016 | so they hold in every state of every run from the empty table |
| `DiskWriters.KeepsClean` | src/disk/disk.c:723-754 | a local backing that nothing else has written to, or has a handle to write to, stays so in every step for as long as it is mounted or about to be |
| `DiskWriters.CarefulRunsAreClean` | src/net/tnfs_server.c:374-385 | in a run in which no image is opened for mounting while a handle is open for writing on it, nothing but the drive itself ever writes to a mounted image |
| `DiskTheorems.ReadReturnsMountedBytes` | src/disk/disk.c:832-882 | in every run a read answered OK is of a track of the mounted image and returns the bytes that the image has at a step of the call, unless it was answered from the cache and the drive is not untouched; remote drives always are |
| `DiskTheorems.CacheShowsMountedImage` | src/disk/disk.c:195-201 | a valid cache entry always names a mounted drive and a track inside its image, and is that image's current bytes if the drive is untouched and no write to it is in flight |
| `DiskTheorems.RemoteWriteIsAtomic` | src/disk/disk.c:324-359 | a remote write takes effect for readers in one step, and exactly as the track write it is |
| `DiskTheorems.LocalWriteIsAtomic` | src/disk/disk.c:906-919 | a local write takes effect in the step that answers OK: in place on an untouched drive, and past the end of a file that something else has cut short |
| `DiskTheorems.OnlyWritesChangeImages` | src/disk/disk.c:287-427 | no other step, of any task, changes what readers see of a mounted image; only a write through a handle on that very image can |
| `DiskTheorems.AcknowledgedWriteIsStored` | src/disk/disk.c:900-904 | a remote write whose caller sees OK was marked as stored by the worker, with this caller's track and bytes |
| `DiskTheorems.StoredMeansTransferred` | src/disk/disk.c:340-359 | a job counts as stored only by a transfer that replaced exactly its track in the image of a session of the job's drive, which no other drive shows |
| `DiskAcks.LookFinds` | src/disk/disk.c:324-339 | the worker transfers only with the backing that is mounted on the job's drive when it looks |
| `DiskAcks.AcknowledgedWriteReachedItsDrive` | src/disk/disk.c:324-539 | in every run an OK to a remote write has two earlier steps of the same call behind it: the worker finds a session mounted on the caller's drive, and exactly the caller's track is replaced by the caller's bytes in that session's image and no other drive's |
| `DiskNames.KeepsNames` | src/disk/disk.c:402-426 | every step keeps what is mounted, or about to be, named after what it was opened from |
| `DiskNames.DriveShowsItsName` | src/disk/disk.c:402-426 | in every run the file or session on a mounted drive was opened from the name that the drive has now: a session opened for a URL the drive no longer has is never put on it |
| `DiskCalls.UnmountUnmounts` | src/disk/disk.c:689-711 | an unmount is answered OK for every drive there is, and at some state of the call the slot was empty |
| `DiskCalls.ConfigureConfigures` | src/disk/disk.c:605-632 | a drive that is given a URL has had it, with nothing mounted, at some state of the call, whatever the answer |
| `DiskCalls.SweepEmpties` | src/disk/disk.c:996-1012 | the sweep takes the session off every remote drive, which keeps its URL, and touches no other drive |
| `DiskCalls.SweepSweeps` | src/disk/disk.c:996-1016 | when the link is lost there is a state of the call at which no remote drive is mounted |
| `DiskCalls.RemountVisits` | src/disk/disk.c:977-994 | when the link is back every drive is visited, and a session is asked for exactly for those that wait for one |
| `DiskCalls.PostedJobIsTheCallers` | src/disk/disk.c:451-482 | what a caller queues is a job for its own drive and track, with its own bytes, or for the backing it has to get rid of |
| `DiskMounts.MountMounts` | src/disk/disk.c:634-687 | a local mount answered OK has found and opened that very file within the call and put it on the drive, writable and with the size it had; one that is refused has left the drive empty |
| `DiskMounts.ChangeIsHonest` | src/cli/commands.c:864-988 | a guarded change answered OK was made, at a moment when no drive showed the file; one answered busy met a drive that did; any other changed nothing |
| `DiskMounts.ChangeDoesJustThat` | src/cli/commands.c:864-988 | a delete takes away one file, opening for writing empties, makes or leaves one, and every other file is as it was |
| `DiskMounts.RenameMovesAll` | src/cli/commands.c:927-957 | a rename moves the file, or the folder with all it holds, and nothing else |
| `DiskAnswers.MountAnswerIsHonest` | src/disk/disk.c:362-427 | a remote mount answered OK: the worker looked at the drive within the call, and at a later state of it the drive was mounted from the URL it had at the look, or had been given to something else |
| `DiskAnswers.ReadCallIsHonest` | src/disk/disk.c:832-882 | from the start of a read call to its OK: the bytes are those that the drive's image shows at some state of the call |
| `DiskAnswers.WriteCallIsHonest` | src/disk/disk.c:884-920 | from the start of a write call to its OK, local or remote: exactly the caller's bytes were put at the caller's track of the image that the drive had mounted, within the call |
| `DiskAnswers.ConfigureIsHonest` | src/disk/disk.c:605-632 | an OK to configuring a drive: the link was down and the mount is left for later, or the worker has dealt with it |
| `DiskRefusals.LookIsExact` | src/disk/disk.c:288-376 | what the worker does with a job it takes up: nothing is opened or transferred without the link, and with it exactly what the drive can take; a mount whose drive does not wait is done |
| `DiskRefusals.ReadRefusalIsExplained` | src/disk/disk.c:832-882 | a read not answered OK has a cause in the call, and its code says which: the request does not fit the mounted image, the card failed or the file is cut short, no job or none in time, the link down or the drive changed when the worker looked, a failed transfer, or another track in the cache since |
| `DiskRefusals.WriteRefusalIsExplained` | src/disk/disk.c:884-920 | the same for a write, with the read-only drive as one more cause |
| `DiskRefusals.ConfigureRefusalIsExplained` | src/disk/disk.c:605-632 | the same for configuring a drive, where the server's refusal is one of the causes |
| `DiskHandles.MountIsSafeIff` | src/disk/disk.c:634-687 | wherever an image that is not empty is opened for mounting with the track lock free: in every continuation of the run every OK read of it is true, for as long as it is open, if and only if no handle is open for writing on it |
| `DiskHandles.MountedImageIsSafeIff` | src/disk/disk.c:723-754 | a mounted SD image is changed by its own drive's writes alone if and only if no handle is open for writing on it |
| `DiskHandles.HandleWriteMakesCacheStale` | src/net/tnfs_server.c:374-385 | in every such state some write through the handle leaves a valid cache entry that the image no longer agrees with, and the next read of that track is answered from it |
| `DiskHandles.WriterMakesReadsStale` | src/cli/commands.c:959-988 | from every state in which some task is between calls and the two locks are free, any file with a handle open for writing that no other drive shows, any drive, name and track: a continuation that mounts the file, reads the track, writes through the handle, and has the next read answered wrongly |
| `DiskGuard.HitIsTouch` | src/disk/disk.c:738-745 | the guard's test on the text of two names says whether the change is to the mounted image or to a folder on the way to it, as the machine's guard asks |
| `DiskGuard.FindHolder` | src/disk/disk.c:734-746 | the guard's loop over the slots, on text, finds the drive that the machine's guard finds, or none exactly when no mounted local image would be touched |
| `DiskOwnership.JobIsFreedOnce` | src/disk/disk.c:502-539 | a job is freed by its creator while the creator still waits, by the worker otherwise, and nobody refers to it afterwards |
| `DiskOwnership.EveryJobHasOneOwner` | src/disk/disk.c:263-285 | in every reachable state each job belongs to its creator or to the worker's side, never to both or neither |
| `DiskOwnership.MountedIffInstalled` | src/disk/disk.c:605-711 | a drive is mounted exactly when a backing is installed, and its remote flag is that backing's kind |
| `DiskOwnership.BackingIsClosedOnce` | src/disk/disk.c:543-561 | remote sessions are closed by the worker, local files by the task that took them out; after the close nothing refers to the backing |
| `DiskOwnership.LostOnlyIfUnscheduled` | src/disk/disk.c:553-561 | a session is lost only when its close job could not be made or queued |
| `DiskOwnership.ChangesSpareMountedImages` | src/disk/disk.c:723-754 | when a delete, rename or write-open takes effect, nothing it touches is or holds a local image mounted at that moment |
| `DiskOwnership.GuardIsExact` | src/disk/disk.c:734-746 | the guard refuses exactly the changes that would touch a mounted local image |
| `DiskOwnership.GuardIsHeldToItsRelease` | src/disk/disk.c:723-754 | from the check on, whatever other tasks do, the mount lock stays with the guarding task, taken once, up to the one step that ends the guard and frees it |
| `DiskOwnership.CheckIsReleasedOnce` | src/cli/commands.c:864-988 | a task that guards a change holds the mount lock exactly once, and a task between calls holds no lock |
| `DiskOwnership.LockHolderCanMove` | src/disk/disk.c:502-561 | whoever holds the track lock or the job mutex can take its next step: neither is held across a wait |
| `DiskOwnership.NoDeadlock` | src/disk/disk.c:205-220 | in every reachable state with work left some task can take a step that is neither a new call nor a wait given up; writes through file handles do not count as steps of a task |
| `DiskDevice.Disk.Check` | src/disk/disk.c:801-817 | the error code of the first test that fails, and OK exactly for tracks inside the mounted image |
| `DiskDevice.Disk.ReadTrack` | src/disk/disk.c:832-882 | the in-place read is the locked read of the table: OK only for tracks inside the image, with that image's bytes, and otherwise refused there only when the card fails |
| `DiskDevice.Disk.WriteTrack` | src/disk/disk.c:884-920 | the in-place write is the locked write of the table: OK exactly for tracks inside the image that the card takes, and then exactly one image has exactly these bytes replaced |
| `FdcController.Block` | src/fdc/fdc.c:323-329 | every block that is sent passes its own check and carries the given mnemonic and words |
| `FdcController.TurnAccounts` | src/fdc/fdc.c:702-742 | the event of a turn is what the bytes taken off the line say, whatever the timing |
| `FdcController.StatusTellsTheTruth` | src/fdc/fdc.c:435-457 | the write status is 0 exactly when the disk took the write; every other event leaves every disk as it was, but for a card fault during a write, which spares the other disks and the size of that one |
| `FdcController.RunsAreGenuine` | src/fdc/fdc.c:702-742 | the events of every run are what consecutive pieces of the line say, and together the pieces are exactly what the run took off the front of the line |
| `FdcController.DisksHoldLastWritten` | src/fdc/fdc.c:392-458 | in every run each byte of each disk is what the last acknowledged write to it left, or the byte that was there at first, unless the card has failed a write to that disk since |
| `FdcController.ReadReflectsWrites` | src/fdc/fdc.c:358-390 | a READ answer carries, byte for byte, the last acknowledged writes, under the same proviso, followed by the 16-bit sum of what it carries |
| `FdcController.EventAtAddress` | src/fdc/fdc.c:435-457 | what each event does to each byte of each disk |
| `FdcController.EveryBlockIsValid` | src/fdc/fdc.c:405-457 | apart from track data all output is valid blocks, and a write status follows only a "ready" |
| `FdcLine.ReadOnTheLine` | src/fdc/fdc.c:358-390 | a valid READ block that comes in time is answered with exactly the track of its drive, cut out of the image at track times length, and the sum of those bytes, low byte first, when the track is there and the card works, and with silence otherwise |
| `FdcLine.StatOnTheLine` | src/fdc/fdc.c:333-350 | STAT is answered with a checked block that names the mounted drives, drive 0 in the lowest bit |
| `FdcLine.WritOnTheLine` | src/fdc/fdc.c:392-458 | WRIT with its data: ready, and then status 2 for a wrong sum, 3 for a track that is not there or a card that fails, and else 0, with exactly the track replaced on 0 and nothing but the failed drive changed otherwise |
| `FdcLine.UnreadyOnTheLine` | src/fdc/fdc.c:398-413 | WRIT for a drive or length that cannot be served is answered "not ready", and nothing more is taken off the line |
| `FdcLine.CutOnTheLine` | src/fdc/fdc.c:416-430 | WRIT without its data in full: ready, no status, and nothing is written |
| `FdcLine.OtherOnTheLine` | src/fdc/fdc.c:460-477 | a bad checksum or another command is passed over in silence |
| `FdcLine.SilenceOnTheLine` | src/fdc/fdc.c:717-729 | without a whole block in time nothing is sent or written |
| `Fdc.Engine.Recv` | src/fdc/fdc.c:208-225 | the receive loop puts exactly the bytes that arrive in time, in whatever pieces, into the buffer and takes no others off the line |
| `Fdc.Engine.ReceiveTrack` | src/fdc/fdc.c:416-436 | whether the track data came in full, and whether its checksum fits |
| `Fdc.Engine.Stat` | src/fdc/fdc.c:333-350 | STAT is answered with the controller's bitmap block and changes nothing |
| `Fdc.Engine.Read` | src/fdc/fdc.c:358-384 | READ is answered with the controller's track and sum, or with silence, also when the card fails |
| `Fdc.Engine.Write` | src/fdc/fdc.c:392-458 | WRIT is the controller's: ready test, data, write and status, for every way the data may come in |
| `Fdc.Engine.Dispatch` | src/fdc/fdc.c:460-477 | a valid block is taken for the one command its mnemonic names |
| `Fdc.Engine.Poll` | src/fdc/fdc.c:702-742 | one turn of the loop is one turn of the controller in event, effect, output and bytes taken |
| `Fdc.Engine.Serve` | src/fdc/fdc.c:690-743 | any number of turns on any line, with a card that fails at any turns, is the controller's run on that line |
| `TcpHandover.KeepsPlaced` | src/fdc/fdc.c:580-660 | every step of listener and fdc task keeps each socket in its place |
| `TcpHandover.EverySocketInOnePlace` | src/net/fdc_tcp.c:76-94 | every accepted socket is with the listener, refused, pending, adopted or closed, in exactly one of these, and none is closed twice |
| `TcpHandover.OneClientAtATime` | src/fdc/fdc.c:580-597 | pending and adopted clients exclude each other, and a client is taken exactly when there is none, nor one being dropped |
| `TcpHandover.CountersTellTheClient` | src/fdc/fdc.c:620-660 | connects minus disconnects is 1 exactly while a client is counted in, shifted by a clear in the middle |
| `TcpHandover.TransactionsKeepTheirTransport` | src/fdc/fdc.c:297-320 | all input and output of a transaction goes over one transport, never over a closed socket |
| `TcpHandover.PendingIsServedNext` | src/fdc/fdc.c:640-661 | a client that is pending when the fdc task is at the top of its loop has the next transaction |
| `TcpHandover.DeadIsDroppedNext` | src/fdc/fdc.c:620-645 | a client that is dead or kicked there is closed before the next transaction begins |
| `TcpHandover.BrokenIsDropped` | src/fdc/fdc.c:240-292 | a client on which an input or output has failed, or that was kicked, has no later transaction: it is closed before the next one begins |
| `TcpHandover.LiveStaysNext` | src/fdc/fdc.c:640-661 | one that is neither has the next transaction as well |
| `TcpHandover.NobodyMeansUart` | src/fdc/fdc.c:297-320 | with nobody to serve since then the next transaction is on the UART |
| `TcpHandover.TaskGetsToServe` | src/fdc/fdc.c:690-743 | outside a transaction the task always has exactly one step to take, and each brings it nearer to the next |
| `TcpHandover.LinkDownIsAsked` | src/net/fdc_tcp.c:76-94 | when the link goes down under an adopted client, the listener does not listen again before it has asked for it to be dropped |
| `TnfsLink.TakesItsOwnReply` | src/net/tnfs.c:181-196 | the reply that matches number and code is the reply to the command under way |
| `TnfsLink.NewIsNotTheCached` | src/net/tnfs_server.c:971-982 | a later command is never taken for the cached one, across the wrap of the 8-bit number |
| `TnfsLink.StepKeeps` | src/net/tnfs_server.c:954-983 | every step of client, network and server keeps the protocol's invariants, as long as the client's history answers no burnt code |
| `TnfsLink.ExactlyOnce` | src/net/tnfs.c:204-243 | however datagrams are lost and duplicated and sessions end, commands are executed in issue order, none twice, and each accepted reply is that of its own execution; also past commands given up on, as long as no code given up on is answered again before another success |
| `TnfsLink.InStepUntilGiveUp` | src/net/tnfs.c:204-243 | until the first give-up the server has executed exactly the client's commands, at most one behind it |
| `TnfsHistories.ExactlyOnceIffNoBurntSuccess` | src/net/tnfs.c:204-243 | for every history of a client, all network behaviours of it are exactly-once if and only if no command in it is answered whose code was given up on since the last answer |
| `TnfsHistories.ExactlyOnceIffNoBurntIssue` | src/net/tnfs.c:236-242 | the same for a client that does not know which of its commands will be answered: if and only if it never issues such a code again |
| `TnfsHistories.MistakenTurn` | src/net/tnfs_server.c:973-980 | wherever the code of the cached reply is issued again under the same number, it can be answered with that reply and is never executed |
| `TnfsHistories.BurntSuccessFails` | src/net/tnfs.c:224-242 | every history that answers a burnt code has a run in which that answer is the old one |
| `TnfsHistories.HistoryHappens` | src/net/tnfs.c:204-243 | every history that a client can go through happens in some run, with a MOUNT given up on as well |
| `TnfsHistories.SessionEndIsHarmlessIff` | src/net/tnfs_server.c:175-193 | wherever a live session ends, everything after it is exactly-once if and only if no MOUNT can arrive any more |
| `TnfsHistories.MountRunsTwice` | src/net/tnfs_server.c:985-988 | whenever one can, there is a continuation in which the MOUNT is executed a second time |
| `TnfsHistories.LinkLossRepeatsMount` | src/net/tnfs_server.c:955-989 | that happens: MOUNT executed, reply lost, link lost and regained, MOUNT sent again |
| `TnfsHistories.TwoLossesDoNoHarm` | src/net/tnfs.c:204-243 | any two losses in a row, of requests or of replies, do a command no harm, the MOUNT included: the third transmission is answered by the command's own reply, and the command was executed once |
| `TnfsFile.Session.Serve` | src/net/tnfs_server.c:967-982 | a request is executed on the file and cached, or replayed without touching the file |
| `TnfsFile.WrittenAt` | src/net/tnfs_server.c:441-448 | a write replaces exactly the bytes from its position on |
| `TnfsFile.ReadTellsTheEnd` | src/net/tnfs_server.c:396-423 | a READ says end of file exactly at the end, and else gives some of the bytes from the position on |
| `TnfsFile.SeekIsHonestUnlessReplayed` | src/net/tnfs_server.c:468-498 | an LSEEK answered OK has moved the position exactly when it was not taken for an earlier one elsewhere |
| `TnfsFile.GivenUpSeekMisleads` | src/net/tnfs.c:483-501 | after an LSEEK that was executed but given up on, the next one is answered OK and the read after it returns bytes from the old place |
| `TnfsFile.SeekIsSafeIff` | src/net/tnfs.c:483-501 | whatever became of the requests given up on since the last success, an LSEEK answered OK has moved the position, if and only if none of them was a valid LSEEK to another place |
| `TnfsFile.SeekIsSafeIffNotBurnt` | src/net/tnfs.c:236-242 | the same on command codes: seeks are safe after anything given up on, if and only if LSEEK is not among the codes |
| `TnfsFile.OutcomeIs` | src/net/tnfs.c:204-243 | what Ok, a failure to send and a timeout say of the transmissions there were |
| `TnfsFile.RemoteFile.Command` | src/net/tnfs.c:204-243 | up to three transmissions with losses both ways: how it ends is decided by the first that is answered or cannot be sent; an answered command was executed once, and the answer is its own |
| `TnfsFile.RemoteFile.SeekTo` | src/net/tnfs.c:483-501 | after Ok the server's position is the one asked for, and an LSEEK was sent only if the position was not known to be right |
| `TnfsFile.RemoteFile.ReadAt` | src/net/tnfs.c:503-541 | Ok means that the buffer holds exactly the file's bytes at the offset, despite short reads and replays, and the file is unchanged; an error means that a command went unanswered or was not answered with a success; on a network that answers one transmission in three, and with the bytes there, the answer is Ok |
| `TnfsFile.RemoteFile.WriteAt` | src/net/tnfs.c:543-583 | Ok means that exactly the file's bytes from the offset on are replaced, once, and the known size follows; an error leaves some first part written and has the same causes; on such a network the answer is Ok |
| `TnfsSessions.SidsFindOne` | src/net/tnfs_server.c:130-142 | at most one session answers to an id |
| `TnfsSessions.HandleIsInOnePlace` | src/net/tnfs_server.c:144-161 | every handle ever given out is in exactly one entry of one session, or has been closed exactly once |
| `TnfsSessions.Server.FindSession` | src/net/tnfs_server.c:130-142 | finds a session of that id and peer, or there is none |
| `TnfsSessions.Server.FreeSession` | src/net/tnfs_server.c:144-161 | closes exactly what the session left open and frees its slot alone |
| `TnfsSessions.Server.NextSid` | src/net/tnfs_server.c:195-213 | an id that is nonzero and nobody's, within two draws more than there are sessions, across the 16-bit wrap |
| `TnfsSessions.Server.HandleMount` | src/net/tnfs_server.c:855-926 | a retransmitted MOUNT gets its session back; any other is put off exactly when all slots are taken, is refused with all slots as they were when its path is, and else gets a slot of its own |
| `TnfsSessions.Server.OpenFile` | src/net/tnfs_server.c:351-393 | the new handle goes into a free entry of that session alone; an error changes nothing |
| `TnfsSessions.Server.OpenDir` | src/net/tnfs_server.c:616-639 | the same for a directory handle |
| `TnfsSessions.Server.CloseFile` | src/net/tnfs_server.c:451-466 | closes exactly the handle in that entry and frees the entry, or refuses |
| `TnfsSessions.Server.CloseDir` | src/net/tnfs_server.c:799-814 | the same for a directory handle |
| `TnfsSessions.Server.ReapIdle` | src/net/tnfs_server.c:184-193 | frees exactly the sessions that were idle too long |
| `TnfsSessions.Server.DropAll` | src/net/tnfs_server.c:175-182 | afterwards every handle ever given out has been closed, once |
| `TnfsDir.Batch` | src/net/tnfs_server.c:764-786 | a batch fits the datagram, is no larger than wanted, and is empty only when nothing is left |
| `TnfsDir.ListingShows` | src/net/tnfs_server.c:298-327 | a listing shows exactly the entries whose names do not begin with a dot and match the pattern |
| `TnfsDir.ListingIsLossless` | src/net/tnfs_server.c:713-797 | for any sequence of READDIR and READDIRX requests the batches together are the visible entries in order, and an empty reply comes exactly at the end |
| `TnfsDir.FilterIsTallied` | src/net/tnfs_server.c:298-327 | stepping through the directory one entry at a time meets the visible entries one after the other |
| `TnfsDir.DirSlot.constructor` | src/net/tnfs_server.c:684-705 | a listing starts at the first visible entry; "" and "*" match all |
| `TnfsDir.DirSlot.CountVisible` | src/net/tnfs_server.c:693-705 | OPENDIRX's count is the number of entries the listing will return, modulo 2^16 |
| `TnfsDir.DirSlot.Next` | src/net/tnfs_server.c:286-330 | the next entry of the listing, the stashed one first; none exactly at the end |
| `TnfsDir.DirSlot.ReadDir` | src/net/tnfs_server.c:713-740 | one name, or end of file exactly when nothing is left |
| `TnfsDir.DirSlot.ReadDirX` | src/net/tnfs_server.c:742-797 | the reply holds exactly the next batch and fits the datagram; on its bytes: the status, the count, the position, and the end-of-directory flag set exactly when nothing is left and fewer came than were wanted |
| `TnfsDir.EntryOnTheWire` | src/net/tnfs_server.c:778-786 | each field of an entry is at its place in the reply, low byte first: flags, size, and the two times, then the name |
| `TnfsList.Entries` | src/net/tnfs.c:647-667 | the client's loop over one reply reads what the reply says |
| `TnfsList.ListExtended` | src/net/tnfs.c:632-671 | the client's listing against the server's slot: the callback sees every visible entry once and in order, and the loop ends after one request more than there are entries |
| `TnfsFraming.Response` | src/net/tnfs.c:87-178 | the client's reading loops take off the stream exactly the length that command and status determine |
| `TnfsFraming.FramingInvertsBuilding` | src/net/tnfs.c:87-178 | on every reply the server's handlers can build, followed by anything, the client takes exactly that reply, if and only if it is not a READ at end of file |
| `TnfsFraming.EntriesDecodeBack` | src/net/tnfs.c:647-667 | the client reads out of a READDIRX reply exactly the entries that were put in |
| `SdPath.SplitJoin` | src/disk/sd.c:183-191 | cutting a joined path at its slashes gives its components back |
| `SdIdentity.CanonicalNamesThePlace` | src/disk/sd.c:157-240 | a canonical name is the short names on the way to what the path means, and nothing of its spelling |
| `SdIdentity.SameTextIffSamePlace` | src/disk/sd.c:216-220 | two paths have the same canonical text, with or without regard to case, exactly when they mean the same file or folder |
| `SdIdentity.CanonicalIsIdempotent` | src/disk/sd.c:157-240 | a canonical name is its own canonical name |
| `SdIdentity.CanonicalFailsOnlyIfMissing` | src/disk/sd.c:205-225 | with room in the two buffers a path has a canonical name exactly when it names something that is there |
| `SdIdentity.CharTestIsAncestry` | src/disk/disk.c:734-745 | the guard's character comparison up to a slash is: the mounted image itself, or a folder on the way to it |
| `SdCanonical.CutAtLastSlash` | src/disk/sd.c:195-203 | the strrchr and truncation on one buffer |
| `SdCanonical.Pop` | src/disk/sd.c:195-204 | ".." takes exactly the last component off both buffers, and leaves the root |
| `SdCanonical.Push` | src/disk/sd.c:205-232 | an existing component that fits goes onto both buffers under its short name, keeping them in step |
| `SdCanonical.Canonicalize` | src/disk/sd.c:157-240 | the loop over both buffers computes the fold over the path's components, for every path and every failure |
| `SdCanonical.PathOnCard` | src/disk/sd.c:120-155 | accepts exactly relative names without "..", backslash or inner empty components; a trailing slash gets by |
| `SdCanonical.AcceptedStaysInside` | src/disk/sd.c:125-145 | an accepted name never leads out of the folder it starts from |
| `SdCanonical.AcceptedIffProper` | src/disk/sd.c:120-155 | a name of components between slashes, with a trailing slash or not, is accepted exactly if it has no backslash and no component is empty or ".." |
| `Wildcard.MatchCI` | include/wildcard.h:16-41 | terminates; on a name without `*` answers what the pattern means, and never accepts wrongly on any string |
| `Wildcard.RunIsSound` | include/wildcard.h:21-35 | an accepting run has found a match, whatever the string |
| `Wildcard.RunIsComplete` | include/wildcard.h:26-35 | backtracking to the last star alone loses no match |
| `Wildcard.MatcherIsExact` | include/wildcard.h:22-26 | the matcher is right for every pattern if and only if the string holds no `*` |
| `Wildcard.PlainPatternIsSpelling` | include/wildcard.h:13-24 | a pattern without wildcards matches exactly the names spelt like it, capitals or not |
| `Wildcard.CaseMakesNoDifference` | include/wildcard.h:13-24 | capitals make no difference to any pattern, in the pattern or in the name |
| `Tokenizer.CutWord` | src/cli/cli.c:137-154 | the write cursor never passes the read cursor; the argument lands in place, and neither the unread part nor anything before it changes |
| `Tokenizer.Tokenize` | src/cli/cli.c:129-155 | argv points to exactly the arguments that the line means, inside the line and without overlap |
| `Tokenizer.WordsInvertWriting` | src/cli/cli.c:122-155 | any arguments, pieced together from quoted and bare text with any blanks around, tokenize back to themselves, up to the limit |
| `Tokenizer.QuotingRoundTrips` | src/cli/cli.c:122-155 | quoted arguments joined by blanks tokenize back to themselves |
| `Batch.ReadLine` | src/cli/commands.c:1778-1793 | lines that end in a newline and fit the buffer come through whole; others are dropped to their end |
| `Batch.Shell.RunFile` | src/cli/commands.c:1771-1808 | a batch runs line by line to its end, terminates, and leaves directory and depth as they were |
| `Batch.Shell.Execute` | src/cli/commands.c:1834-1847 | nested batches put directory and depth back, and add to the transcript what the batch means |
| `Batch.Shell.Dispatch` | src/cli/cli.c:117-175 | the same for a command line, with batches that run themselves or each other |
| `Batch.BatchStaysBelow` | src/cli/commands.c:1739-1763 | a batch named inside a batch is in the running batch's folder or below it, when the names fit |
| `Batch.DispatchedNests` | src/cli/commands.c:1834-1847 | nothing a line sets off runs more than four deep, and every batch runs in a folder that extends the one it was started from |
| `BatchScripts.ScriptsDoWhatTheyMean` | src/cli/commands.c:1771-1847 | a batch file of commands, comments, empty and overlong lines, however indented and ended: each command is shown and then run with the arguments that were written, in order, and batches that it names run in their own folders at their place |
| `BatchScripts.FolderOfPath` | src/cli/commands.c:1813-1832 | the folder of a resolved path is all of it between the card's root and the last name |
| `BatchScripts.NamedFileWins` | src/cli/commands.c:1739-1763 | a file of the very name wins over one with ".bat", and without either there is no batch |

## Left out

- Hardware and system calls: the UART, LEDs, timers, SPI, lwIP sockets and FatFs itself. They are the byte line, the images, the folder tree and the free choices of the model.
- Over-the-air update, HTTP, the console's telnet parser, configuration, help, statistics other than the TCP counters, and `dir` formatting: none of them touches the disks' bytes, the protocols' state or the guard.
- `disk_automount`: a boot step that overwrites a slot without disposing of its backing; runs start from an empty table.
- `disk_copy_track_buffer` and the `dump` command: one more reader of the buffer under the same lock.
- Two drives on one image, and a remote server whose files other parties change: opening an image that another drive shows is not a step of the model.
- `DiskTheorems.ReadReturnsMountedBytes`: says nothing of a cached track of a drive whose image something else has written to; `DiskHandles` has what is true of those.
- What lies between the end of a file that was cut short and a write past it: zeros here, on FatFs whatever the card had there. A read past the end leaves the file as it is.
- The canonical name that `disk_mount` falls back to when its own lookup fails, and the guard's "free" answer when a lookup fails for another reason than a missing file: canonicalising fails only for what is not there.
- A card whose file names have no short name, or two equal ones in a folder; FatFs's trimming of trailing dots and blanks in names.
- The FTP server's own code: its guarded delete, rename and open follow the same check, change and release as the command line's, and are the same steps.
- `DiskTheorems.AcknowledgedWriteIsStored`: says nothing of a remote write that was not acknowledged; such a write may still take effect later, and may be torn.
- `DiskDevice.Disk.ReadTrack`: drives are local; remote drives are in the concurrent machine.
- `DiskDevice.Disk.WriteTrack`: the same.
- `FdcController.TurnAccounts`: the bytes behind a WRIT whose data did not come in full may be any bytes, since the flush that follows throws away whatever has arrived.
- `FdcController.DisksHoldLastWritten`: once the card has failed a write to a disk, nothing is said of that disk's bytes until they are written again; a failed write may tear the whole image.
- `Fdc.Engine.Recv`: the deadline is a choice of the line, not a clock.
- `Fdc.Engine.Poll`: the loop's baud changes, its taking up and dropping of TCP clients (`TcpHandover`) and its loopback test are not part of the turn.
- `Fdc.Engine.Serve`: mounts do not change during the run; LEDs and counters are not modelled.
- `TcpHandover.OneClientAtATime`: does not say that a link-down request drops a client that is still pending, because adopting it clears the request.
- `TnfsLink.ExactlyOnce`: datagrams are lost and duplicated but not reordered; over TCP, where a broken stream is fatal, nothing is retransmitted.
- Opening and closing a remote file (`tnfs_open`, `tnfs_close`): URL parsing, the UDP probe before TCP, and the query of the size are straight sequences of commands.
- A MOUNT that is refused for its path: the reply is sent to an address that has not been set, so the model sends none.
- `TnfsFile.RemoteFile.ReadAt`: holds unless an LSEEK was given up on since the last success; the seek follows POSIX, so a position past the end of the file is kept as it is.
- `TnfsFile.RemoteFile.WriteAt`: the same condition; requests given up on earlier may take effect first, and the file they leave is named in the contract.
- `TnfsList.ListExtended`: every command is answered; a listing one of whose commands fails ends with what it has shown so far.
- `TnfsDir.DirSlot.CountVisible`: the directory does not change between the count and the listing.
- Names longer than their buffers, which the server and `batch_dir_of` cut silently; file names of more than 255 bytes.
- `Batch.Shell.Execute`: batch files do not change while they run, hold no NUL, and one console runs a batch at a time; commands other than `exec` are entries in the transcript.
