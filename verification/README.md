# GameHQ: provider protocol, start-up and sounds

A Dafny model of three parts of GameHQ, and proofs about them.

**The share provider** (`integrations/share-provider/sample_provider.py`). `Bytes` and `Framing` hold the frame
format: a four-byte little-endian length and 1 to 65536 bytes of payload. `Framing.TakeFrom` takes one frame off a
buffer, `Framing.Decode` decodes a whole byte string at once, and `Framing.Drive` is the incremental reader. `Link` is
one direction of the pipe as a machine with any interleaving of short writes and partial reads. `Connections` is the
`Connection` class itself. `Trace` is the protocol as a language of events (sent, decoded, refused, copied);
`Language` says what every accepted sequence has, in terms of functions that read the sequence without the automaton.
`Disks` and `Samples` are the files and the `Sample` class; every session is proved to stay in the language, to run
every job it opened, and to send results that are true of what that job did to the files. `Retries` is `connect` and
`run`.

**Starting the program** (`src/main.cpp`, `src/app/App.cpp`). `Cleanup` is the `.update` folder and the clean-up method.
`Launch` is any number of processes following `main` step by step over one data folder, each of which may die between
any two steps: the lock, the crash marker, post-update validation, and the clean-up of a completed update, with all
races between a start's decision and its removals. `Desktop` is the `App` object: requests that come before there is a
window, the end of post-update validation, and giving the foreground back.

**The sounds** (`assets/sounds`). `Sounds` is the mixing of parts into a growing buffer, the clamp to 16 bits, and the
exact three-fold boost.

## How to read it

JSON is a parameter: `Settings.parse` turns a payload into a message or nothing, `Settings.encode` turns a message into
a payload, and nothing is assumed about either. So is which file a path names: `Settings.fileOf` may send two spellings
to one file. `Json` values are compared as Python's `==` compares them. What the operating system or GameHQ decides
(how much a write takes, what arrives and when, whether a file operation fails) is chosen freely at each step, so a
contract holds for all of it. A connection has a `life`: how often the provider can look at the pipe before the peer is
gone. It is arbitrary, so every finite run is covered, also of a session that would go on for ever.

Every event of a session carries a stamp: the bytes that had arrived when it was put on record (`Connections.Stamped`,
part of `Connection.Valid` and of every session of a run). A chunk is marked late exactly if its stamp holds the open
job's cancel, not decoded yet. `Trace` lets no chunk follow a late one, so a session that does not look for a cancel is
not in the language, and `Connections.CancelIsHeeded` counts from the bytes.

## What the proofs found

* A job that names its own destination as its source, possibly by another spelling, is emptied by opening the
  destination and still reports `copied`. `Samples.CopiedIsFaithful` gives the exact condition under which `copied` means
  a faithful copy, `Samples.SelfCopyLosesTheFile` a job that fails it: GameHQ's path and the folder given to the provider
  differ in letter case only.
* The test on the file name lets "." and ".." pass; `Messages.DestinationIsInFolder` says what the destination is then.
* A frame that is not a message ends a session with exit code 5, as documented, but during a job's copy loop it
  leaves `run_job`, `session` and `run` as an exception nothing catches (`Samples.BrokenJob`, with a session in
  `Samples.BadFrameBreaksJob`); a part of the copy stays on disk (`Samples.BrokenJobLeavesPart`). So does anything to be
  sent that does not fit in one frame (`Samples.EscapeIsExact`, with a session in `Samples.LongAnswerBreaksSession`).
  `Retries.Run` ends in `Crashed` exactly if its last session did one of the two. Neither is in the program's list of exit
  codes.
* A job that fails with `copy_failed` removes whatever stands at the destination, also a copy an earlier job left
  there: that survives exactly if the removal is refused (`Samples.EarlierCopySurvives`, with the jobs in
  `Samples.FailedJobTakesEarlierCopy`).
* A `job.start` opens a job exactly if the handshake is done and no job is open (`Language.StartOpens`); one that is
  decoded while a job is running is never answered (`Language.AnsweredStart`, with a session in
  `Language.SecondStartIsDropped`).
* `--exit-after-jobs` accepts a negative number and then leaves after any one job (`Messages.FinishedCount`).
* A start that fails before it has looked at the crash marker still removes it on its way out, and the next start
  finds none: a dead run's marker is found exactly if nobody removed it (`Launch.EvidenceIsFound`), and who does so
  before anybody looked has not looked either (`Launch.RemoverNeverLooked`; a history is `Launch.FailedStartHidesACrash`).
* A start decides to clean up before it has the lock. So a second one that decided as well may go on removing after
  the first has removed the phase file and died (`Launch.SecondCleanerMayBeLeft`); what is left is left for good exactly if
  there is no such process (`Launch.PhaseGoneForGood`).

## Model

| member | source | states |
|---|---|---|
| Bytes.Le32 | integrations/share-provider/sample_provider.py:116 | the length prefix decodes to the length it was made from |
| Bytes.Le32UnLe32 | integrations/share-provider/sample_provider.py:128 | every four bytes are the prefix of the length they announce |
| Bytes.Le32IsLittleEndian | integrations/share-provider/sample_provider.py:116 | each of the four bytes, the lowest first |
| Bytes.Le16IsLittleEndian | assets/sounds/generate_boost.py:30 | the two bytes of a sample in two's complement, the lower first |
| Bytes.UnLe16IsLittleEndian | assets/sounds/generate_boost.py:26 | the sample two bytes stand for |
| Framing.FrameBytes | integrations/share-provider/sample_provider.py:111-116 | what a message of 1 to 65536 bytes looks like on the wire, byte by byte |
| Framing.TakeFromBytes | integrations/share-provider/sample_provider.py:125-141 | what taking a frame does, told by the bytes of the buffer: a length of zero or above 65536 is bad, a shorter buffer is incomplete, else the payload is a message or a bad one |
| Framing.DecodeFrames | integrations/share-provider/sample_provider.py:125-141 | any list of frames is decoded to its own payloads in order, whatever follows it |
| Framing.DecodeSplits | integrations/share-provider/sample_provider.py:125-141 | conversely, any byte string is exactly the frames decoded from it and what is left over |
| Framing.DecodeMore | integrations/share-provider/sample_provider.py:125-141 | further bytes never change what was decoded; after a bad length nothing is ever decoded again; a bad payload is skipped at the next frame boundary |
| Framing.DriveIsDecode | integrations/share-provider/sample_provider.py:125-162 | for every byte string and every split into chunks, reading frame by frame gives the messages, the bad frames and the leftover of the one-shot decoder |
| Framing.IncompleteIsShort | integrations/share-provider/sample_provider.py:125-132 | a buffer with no whole frame and no bad length holds at most 65539 bytes |
| Link.StepConserves | integrations/share-provider/sample_provider.py:94-162 | no step loses, doubles or reorders a byte between sender and receiver |
| Link.EndToEnd | integrations/share-provider/sample_provider.py:94-162 | over every interleaving the messages delivered are a prefix of those sent; all of them once everything is drained; the reader is never stuck; its buffer stays within 131075 bytes |
| Link.Progress | integrations/share-provider/sample_provider.py:94-162 | until everything is delivered some step is possible |
| Link.StepWorks | integrations/share-provider/sample_provider.py:94-162 | every step uses up work, so every run reaches its end |
| Connections.Connection.constructor | integrations/share-provider/sample_provider.py:75-80 | a new connection starts with an empty buffer |
| Connections.Connection.Available | integrations/share-provider/sample_provider.py:88-92 | reports all that is waiting, or that the pipe is gone |
| Connections.Connection.TakeFrame | integrations/share-provider/sample_provider.py:125-141 | does what `TakeFrom` says: a bad length leaves the buffer, a bad payload is taken off first, a message is the first one pending |
| Connections.Connection.Receive | integrations/share-provider/sample_provider.py:143-162 | ends; reads at most 65540 times; returns the first pending message; returns none only if no whole frame was there and the time was up |
| Connections.Connection.WriteAll | integrations/share-provider/sample_provider.py:94-109 | for all short writes emits exactly its input, or a prefix of it and an error; each write is given all that is left, or in fragmented mode the next one to seven bytes |
| Connections.Connection.Send | integrations/share-provider/sample_provider.py:111-119 | sends one frame or nothing that counts; refuses exactly the messages that do not fit |
| Connections.Connection.SendMany | integrations/share-provider/sample_provider.py:121-123 | counts as the same messages sent one by one; refuses all if one does not fit |
| Connections.StreamIsFrames | integrations/share-provider/sample_provider.py:111-123 | the bytes of any messages sent are the frames of their payloads in order |
| Connections.AccountedMore | integrations/share-provider/sample_provider.py:143-162 | arriving bytes only add messages behind those already pending |
| Connections.AccountedTaken | integrations/share-provider/sample_provider.py:133-134 | taking a frame moves the first pending message to the decoded ones |
| Connections.Connection.HeardWhatArrived | integrations/share-provider/sample_provider.py:125-162 | at any time what a session decoded and what is still pending make up all messages that arrived; messages behind a cancel stay pending |
| Connections.Connection.PeerGetsWhatWasSent | integrations/share-provider/sample_provider.py:94-123 | what was written decodes to exactly the messages the session sent |
| Connections.CancelIsHeeded | integrations/share-provider/sample_provider.py:274-297 | for every session: once the open job's cancel is among the bytes that had arrived at some event, at most one more chunk (of at most 65536 bytes) is copied before the job's result, and then that is not success |
| Connections.Connection.AtMostOneChunkAfterCancel | integrations/share-provider/sample_provider.py:143-162 | the same for what any valid connection has on record, whose stamps are bytes that did arrive |
| Connections.CancelWaits | integrations/share-provider/sample_provider.py:283-297 | as long as a job goes on copying, a cancel that has arrived stays among the messages to be decoded: it is neither lost nor passed over |
| Messages.BaseNameIsPlain | integrations/share-provider/sample_provider.py:261-263 | the file-name test accepts exactly non-empty names without separators and drive |
| Messages.DestinationIsInFolder | integrations/share-provider/sample_provider.py:261-265 | an accepted job's copy is a direct child of its target's folder exactly if the name is neither "." nor ".."; those are the folder itself and the one above it |
| Messages.GoodJobMeans | integrations/share-provider/sample_provider.py:246-263 | which jobs are gone on with, in terms of the fields of the message |
| Messages.DestinationIsSpelled | integrations/share-provider/sample_provider.py:264-265 | the destination is the folder given, the target's id and the name, joined by separators |
| Messages.TargetFolderIsBelow | integrations/share-provider/sample_provider.py:264 | a target's folder is the one of its id below the folder given |
| Messages.FinishedCount | integrations/share-provider/sample_provider.py:355 | the session is finished exactly if the positive count is reached, or the count is negative |
| Messages.Found | integrations/share-provider/sample_provider.py:222-226 | an answer lists the targets that match the query and no others |
| Messages.FoundInOrder | integrations/share-provider/sample_provider.py:222-226 | an answer keeps the order of the configured targets and lists each as often as it is configured |
| Trace.PrefixAccepted | integrations/share-provider/sample_provider.py:309-365 | the protocol language is closed under cutting a session off at any point |
| Language.InvHolds | integrations/share-provider/sample_provider.py:229-365 | the automaton's state agrees with what the sequence itself says: the open job, its messages and bytes, the results, the requests owed |
| Language.Opening | integrations/share-provider/sample_provider.py:314-348 | `hello` is first and only first; nothing else is sent before `hello.ack` was decoded |
| Language.AnsweredNext | integrations/share-provider/sample_provider.py:296-297 | a target request decoded after the ack is answered by the very next event, also inside a job |
| Language.AnsweredOnce | integrations/share-provider/sample_provider.py:221-226 | the answers are those of the requests decoded since the ack, each once, in order |
| Language.AnswersMatch | integrations/share-provider/sample_provider.py:221-226 | each answer carries the id of its request and lists exactly the configured targets that match its query, in their order |
| Language.JobEcho | integrations/share-provider/sample_provider.py:236-244 | every message about a job echoes the id and token of the one open job, and a result closes it |
| Language.StartOpens | integrations/share-provider/sample_provider.py:329-352 | a decoded `job.start` opens a job exactly if the handshake is done and no job is open, and otherwise changes nothing |
| Language.AnsweredStart | integrations/share-provider/sample_provider.py:236-244 | every message about a job goes back to a `job.start` that found no job open, with its id and token |
| Language.OpenCounts | integrations/share-provider/sample_provider.py:352-365 | every job that was opened has had its one result, but for the open one, which was opened last |
| Language.SecondStartIsDropped | integrations/share-provider/sample_provider.py:283-297 | a session in which a second `job.start` comes during a job and gets no answer |
| Language.JobShape | integrations/share-provider/sample_provider.py:252-306 | one `preparing` first, then `transferring` with the bytes copied so far, strictly growing; a result refuses the job before that or ends it after |
| Language.CopiedExactly | integrations/share-provider/sample_provider.py:268-306 | `copied` is reported only with exactly `sizeBytes` bytes copied, or none if the file is its own destination |
| Language.CancelledExactly | integrations/share-provider/sample_provider.py:289-295 | `cancelled` directly answers a `job.cancel` with the job id and the token of the open job, and carries both |
| Language.CancelStops | integrations/share-provider/sample_provider.py:289-295 | a `job.cancel` with the open job's id and token is followed by its result, `cancelled` or `copy_failed` |
| Language.OthersAreIgnored | integrations/share-provider/sample_provider.py:283-297 | any other cancel, and every other message the place has no use for, changes nothing |
| Language.ErrorMeans | integrations/share-provider/sample_provider.py:329-338 | an error outside a job ends the session with 3 if it says `protocol_incompatible`, else with 2 before the ack, else changes nothing |
| Language.RefusalMeans | integrations/share-provider/sample_provider.py:322-338 | a refusal with 2 or 3 is for an error just decoded, with 5 for a bad frame, and outside a job |
| Language.UnknownFollowsAck | integrations/share-provider/sample_provider.py:339-345 | the unknown message follows directly on every ack outside a job if the option is set, and is sent at no other time |
| Language.ChunkSizes | integrations/share-provider/sample_provider.py:275-280 | a chunk is 65536 bytes, or what is left of the announced size if that is less |
| Language.GoodbyeIsLast | integrations/share-provider/sample_provider.py:354-365 | `goodbye` is the last event and directly follows the result that reached the count |
| Language.FinishedLeaves | integrations/share-provider/sample_provider.py:354-365 | a result is followed by `goodbye` exactly if it reached the count |
| Language.GarbledIsLast | integrations/share-provider/sample_provider.py:322-325 | a refused frame is the last thing met: with no job open the session is refused with 5, otherwise it breaks off inside that job |
| Samples.Sample.AnswerTargets | integrations/share-provider/sample_provider.py:222-226 | sends the one answer to a request |
| Samples.Sample.Drain | integrations/share-provider/sample_provider.py:285-297 | stops quietly only with no message pending and no late chunk, at a matching cancel, or with an exception that fits what was being done |
| Samples.Sample.CopyChunk | integrations/share-provider/sample_provider.py:275-281 | after each round the destination holds exactly the bytes counted and reported |
| Samples.Sample.CopyChunks | integrations/share-provider/sample_provider.py:274-297 | ends with the whole content copied, stopped by a cancel, or with a prefix |
| Samples.Sample.OpenFiles | integrations/share-provider/sample_provider.py:267-272 | makes sure of the target's folder, then opens the files only if the source has the announced size; opening empties the destination |
| Samples.Sample.CloseCopy | integrations/share-provider/sample_provider.py:291-293 | both files are closed; a stopped copy is removed, or the operation fails |
| Samples.Sample.TryCopy | integrations/share-provider/sample_provider.py:266-297 | what each way out of the `try` block leaves of the files, of the operations refused, of the removals tried and of the protocol; an `OSError` exactly for one refused operation; `file_changed` only if the size differs; no file stays open |
| Samples.Sample.RunJob | integrations/share-provider/sample_provider.py:252-306 | comes to exactly one result the protocol allows, or to an exception that fits the phase; the files are as `JobFiles` says for that, for the removals this job tried and what was refused; no other file changes, none stays open, and no folder is made but the target's, for a good job; the exception for a lost pipe exactly if the pipe failed |
| Samples.CopiedIsFaithful | integrations/share-provider/sample_provider.py:268-306 | after `copied` the destination equals the source as it was if and only if the two paths name different files or the source was empty |
| Samples.OutcomeIsExact | integrations/share-provider/sample_provider.py:246-306 | which result a job comes to, told by its fields, the size of its file and what the system refused: `bad_job`, `bad_file`, `copy_failed`, `file_changed`, or copied or cancelled |
| Samples.FailsExactlyIfRefused | integrations/share-provider/sample_provider.py:266-304 | a good job that comes to a report reports `copy_failed` exactly if the system refused one of the operations it asked for |
| Samples.SelfCopyLosesTheFile | integrations/share-provider/sample_provider.py:259-268 | a job whose path and destination differ in letter case only: `copied` is sent and the file is empty |
| Samples.EarlierCopySurvives | integrations/share-provider/sample_provider.py:298-304 | a copy an earlier job reported is still there after a later `copy_failed` at that place exactly if the system refused that job's removal |
| Samples.FailedJobTakesEarlierCopy | integrations/share-provider/sample_provider.py:298-304 | two such jobs, of which the second names a missing file and takes the first one's copy away |
| Samples.ResultsAreTrue | integrations/share-provider/sample_provider.py:352-365 | for every result in a session: the job it answers, the one open there, was run, that run came to this result, and `JobFiles` holds of what it did |
| Samples.LeftInJob | integrations/share-provider/sample_provider.py:298-306 | an exception that leaves a session while a job is open leaves it in the run of that job, the last: it came out of the job, or was over sending its report |
| Samples.EscapeIsExact | integrations/share-provider/sample_provider.py:111-141 | an exception is for a frame that is not a message exactly if the session broke off in a job over one; where one thing was to be sent, it is for not fitting exactly if that does not fit; no exception after `goodbye` or a refusal |
| Samples.EndIsExact | integrations/share-provider/sample_provider.py:309-365 | the last phase of the protocol and the way the session ended determine each other |
| Samples.ExitCodes | integrations/share-provider/sample_provider.py:322-365 | the exit code read off the log: 3 exactly for a last error that says `protocol_incompatible`, 2 exactly for another one before the ack, 0 exactly after `goodbye`, 5 only for a bad frame outside a job or for want of an ack |
| Samples.BrokenJob | integrations/share-provider/sample_provider.py:322-325 | a session ends in the exception for a bad frame exactly if that frame was the last thing met while a job was open; with none open it ends with 5 |
| Samples.BrokenJobLeavesPart | integrations/share-provider/sample_provider.py:266-297 | then the last run is that of the open job, it ended in this exception, and a part of the copy is left at its destination |
| Samples.BadFrameBreaksJob | integrations/share-provider/sample_provider.py:283-297 | a session in which a bad frame comes during a job: it can end in no other way |
| Samples.LongAnswerBreaksSession | integrations/share-provider/sample_provider.py:111-119 | a session in which the answer to a search does not fit in a frame: it can end only in that exception |
| Samples.Sample.Handle | integrations/share-provider/sample_provider.py:329-351 | what one message does to the session; it is run as a job exactly if it is a `job.start` after the ack |
| Samples.Sample.Announce | integrations/share-provider/sample_provider.py:356-365 | sends the result and, if it was the last, `goodbye` with or after it; what does not fit is named |
| Samples.Sample.ServeJob | integrations/share-provider/sample_provider.py:352-365 | runs this job, counts it, sends its report, and leaves exactly if the count is reached |
| Samples.Sample.Session | integrations/share-provider/sample_provider.py:309-368 | every session stays in the protocol language, with a stamp on every event; 0 exactly after `goodbye` with the count reached; 2, 3 and 5 as the last event says, 5 without an ack exactly at the first time nothing comes after the timeout; an exception exactly as `Escapes` says, for a lost pipe exactly if the pipe failed; it ran the jobs its log opened, one run each in order, its results are their reports, each did to the files what it says, and nothing else touched them |
| Retries.Connect | integrations/share-provider/sample_provider.py:165-179 | sleeps less than the timeout and one second in all; gives up only after the deadline; never reuses a buffer |
| Retries.DelayLevelsOff | integrations/share-provider/sample_provider.py:178-179 | from the fourth retry on the delay is one second |
| Retries.TotalDelayClosedForm | integrations/share-provider/sample_provider.py:165-179 | after k >= 4 retries the sleeps add up to 1.5 + (k - 4) seconds |
| Retries.Backoff | integrations/share-provider/sample_provider.py:371-380 | the backoff stays between 0.2 and 2 seconds and never shrinks |
| Retries.BackoffLevelsOff | integrations/share-provider/sample_provider.py:371-380 | the backoff is 0.2, 0.4, 0.8 and 1.6 seconds, and 2 seconds from the fourth failed attempt on |
| Retries.Attend | integrations/share-provider/sample_provider.py:382-388 | one session of a run, with its record, its jobs and the files before and after |
| Retries.Run | integrations/share-provider/sample_provider.py:370-392 | the end is that of the last session, unless `run` tries again after it; each pause is the backoff after exactly the attempts that failed before it, and the clock has moved by all of them; sessions hand on job count and files; it stops watching only after all attempts |
| Retries.RunEndIsExact | integrations/share-provider/sample_provider.py:370-392 | 0, 2 and 3 exactly if the last session ended so; 5 exactly for a session refused with 5 or a lost pipe, without reconnect; 4 only without a session; `Crashed` exactly for any other exception; a session is followed by another only if it may be retried |
| Retries.ChainedCounts | integrations/share-provider/sample_provider.py:353-392 | over a whole run the jobs done are the results sent, and at most one more for each session |
| Cleanup.UpdateFolder.CleanCompletedUpdateArtifacts | src/main.cpp:64-77 | removes exactly the artifacts reached, in their order, but those that will not go |
| Cleanup.RemovedIs | src/main.cpp:67-76 | the phase file goes after everything but the transaction file |
| Launch.LockMoves | src/main.cpp:353-363 | a process gets the lock only when it is free and gives up only its own |
| Launch.LockHolds | src/main.cpp:351-392 | in every history at most one process is past the lock, and lock and marker are what the record of deeds says |
| Launch.LeavingUnmarks | src/main.cpp:386-447 | a process that wrote the marker and left in order has in between removed it or been refused that |
| Launch.MarkerTellsOfADeath | src/app/App.cpp:111-120 | `init` finds the marker exactly if it was written and not removed since; its writer was another process, which died or was refused the removal |
| Launch.OnlyTheHolderTouchesTheMarker | src/main.cpp:386-392 | only the holder of the lock writes or removes the marker |
| Launch.EvidenceIsFound | src/main.cpp:386-392 | a marker a run wrote is found by a later start exactly if nobody removed it in between |
| Launch.RemoverNeverLooked | src/main.cpp:395-447 | whoever else removes it before any start has looked has not looked itself |
| Launch.FailedStartHidesACrash | src/app/App.cpp:97-108 | a history in which a start whose folders cannot be made hides a crash |
| Launch.TurnedAwayDidNothing | src/main.cpp:354-384 | a start that never gets the lock does nothing, and one refused the mutex only takes the lock and gives it up |
| Launch.RefusedLeavesQuietly | src/main.cpp:374-384 | from the refusal on, over every history, it does nothing but give the lock up |
| Launch.MoveIsPermitted | src/main.cpp:395-436 | every step of every process keeps the order of deeds |
| Launch.ProcsHold | src/main.cpp:288-447 | the order of deeds holds in every history, whoever crashes when |
| Launch.NextIsExact | src/main.cpp:351-447 | in every history, what a process can do next is exactly what follows in `main` and `init` on what it did last, given lock and marker |
| Launch.StartGate | src/main.cpp:304-333 | a start goes on exactly if the update before it is over, and cleans up exactly if that was healthy or rolled back |
| Launch.TokenIsThere | src/main.cpp:411-421 | a committed token stays in the folder until it is deleted |
| Launch.TokenComesLast | src/main.cpp:409-424 | a token is committed only in a validation run, after `init` succeeded, the window elapsed and the greeting was recorded, in this order |
| Launch.TokenMeansHealthy | src/main.cpp:409-424 | a token in the folder was committed by a validation run in which `init` succeeded, the window elapsed and the greeting was recorded |
| Launch.InputStartsOnce | src/app/App.cpp:314-350 | capture input starts at most once, and in a validation run only after the token |
| Launch.TokenOrDelete | src/main.cpp:409-432 | no run both publishes a token and deletes rollback material |
| Launch.CleaningIsCleanup | src/main.cpp:425-432 | the clean-up of a running process, seen after any number of removals and whatever other processes do meanwhile, has left the folder as `CleanCompletedUpdateArtifacts` got as far |
| Launch.NeverInterrupted | src/main.cpp:56-77 | over every history of racing, dying processes and failing removals without a new update, no start is judged interrupted, and any start decides to clean up again while the phase file is there |
| Launch.LeftForGood | src/main.cpp:64-77 | over every such history, once the phase file is gone all that is there is what would not go, the transaction file, the log, and a token committed since |
| Launch.CrashesStrandOnlyTheTransaction | src/main.cpp:64-77 | with crashes and races but no failed removal and no new token, only `transaction.json` can be stranded |
| Launch.RetryFinishes | src/main.cpp:425-432 | a process that got through its clean-up has left nothing but the log and what would not go (and a token committed since) |
| Launch.PhaseGoneForGood | src/main.cpp:330-333 | once the phase file is gone, an artifact can still be removed in some history exactly if a live process had decided to clean up and has not got past it |
| Launch.SecondCleanerMayBeLeft | src/main.cpp:330-354 | a history of two starts that leaves such a process |
| Desktop.App.ShowWindow | src/app/App.cpp:352-364 | shows the window, or remembers that it was asked for |
| Desktop.App.OpenGallery | src/app/App.cpp:434-448 | shows the gallery page and the window, or remembers it |
| Desktop.App.ToggleDesktopWindow | src/app/App.cpp:386-432 | remembers and gives back the foreground as `AfterToggle` and `ToggleEffects` say |
| Desktop.App.FinishInit | src/app/App.cpp:304-324 | hands pending requests over once, and starts the input unless the build has yet to prove itself |
| Desktop.App.HealthWindowOver | src/main.cpp:409-424 | the timer of a validation run: greeting, then token, then, if that was committed, the end of validation |
| Desktop.ValidationOrder | src/app/App.cpp:314-350 | from the end of `init` to the end of the health window, whatever is asked for meanwhile: capture input starts exactly if the token is committed, directly after it, and the greeting comes directly before it |
| Desktop.TimerOtherwise | src/app/App.cpp:330-350 | outside validation the timer changes nothing, and input that runs is not started again |
| Desktop.App.CompletePostUpdateValidation | src/app/App.cpp:339-350 | ends validation and starts the input if it was not started |
| Desktop.RequestsAreRemembered | src/app/App.cpp:352-391 | before the window exists each kind of request is remembered exactly if it came |
| Desktop.NoLostActivation | src/app/App.cpp:304-324 | a successful start shows the window exactly if anything was asked for, the gallery page exactly if that was, each once, and starts the input exactly if it is no validation run |
| Desktop.StaysSettled | src/app/App.cpp:352-448 | once the window exists no request is ever left waiting |
| Desktop.ToggleMeans | src/app/App.cpp:386-432 | what a toggle does in each state, told by the system's answers: hide and give the foreground back, or show and remember whom it was taken from |
| Desktop.TargetIsRemembered | src/app/App.cpp:399-427 | the return address is the last one remembered and not used up; no address means no owner |
| Desktop.FocusGoesBackOnce | src/app/App.cpp:396-411 | the app gives the foreground only to a remembered window whose owner is still the one recorded, and doing so uses the memory up |
| Desktop.EachIsUsedOnce | src/app/App.cpp:396-411 | two times the foreground is given back, it goes to windows remembered at different times, the second after the first was given back |
| Desktop.FocusGoesBackExactly | src/app/App.cpp:396-411 | with our window in front, a toggle gives the foreground back exactly if a remembered window stands and its owner is still the one recorded |
| Sounds.Mix | assets/sounds/generate_sounds.py:37-45 | the buffer is as long as the last part reaches, and each sample is the sum of the parts there |
| Sounds.SilentAfterEnd | assets/sounds/generate_sounds.py:37-45 | beyond its length a mix is silent |
| Sounds.OnePart | assets/sounds/generate_sounds.py:39-44 | a part begins 44100 samples a second behind its offset and is heard as it is |
| Sounds.OrderDoesNotMatter | assets/sounds/generate_sounds.py:37-45 | over real numbers the order of the parts changes neither samples nor length |
| Sounds.HeadroomIsThird | assets/sounds/generate_boost.py:27-29 | three times some samples stay within 16 bits exactly if no sample exceeds 10922 |
| Sounds.QuantizeIsClose | assets/sounds/generate_sounds.py:22 | the clamp fits 16 bits, in range falls short of the exact value by less than one step and is never louder, takes the nearest end out of range, and treats both signs alike |
| Sounds.UnpackPack | assets/sounds/generate_boost.py:26-30 | packing and unpacking 16-bit samples gives them back |
| Sounds.PackUnpack | assets/sounds/generate_boost.py:26-30 | a payload is determined by its samples |
| Sounds.BoostIsExact | assets/sounds/generate_boost.py:26-30 | the tool accepts exactly non-empty sounds with no sample beyond 10922, and then stores three times each sample in as many bytes |
| Sounds.BoostIsReversible | assets/sounds/generate_boost.py:27-30 | each original sample comes back by exact division |
| Sounds.CheckAcceptsTriples | assets/sounds/generate_boost.py:32-35 | `--check` accepts exactly the payloads whose samples are three times the original's |

## Left out

- JSON text, Windows pipes, argument parsing and the log: foreign code or output only. `str.strip` and `str.lower` in the target search are the parameter `matches`.
- `--silent-job` and `--crash-on-job`: test switches that never return.
- Samples.Sample.TryCopy: closing a file while another exception leaves the `with` block is taken to succeed; a source is not changed by others during its copy; which file a path names does not change while the provider runs; `Disk` knows of directories only which ones were made sure of, so a destination that is one (a name of "." or "..") may be written here, while the system refuses to open it and the job ends in `copy_failed`, and a source that is one cannot end in `file_changed`, as it can in the program; strings the file system cannot take at all (an embedded null) are not modelled.
- Messages.DestinationIsInFolder: parts of a path are walked as `os.path.normpath` does; names Windows treats specially (trailing dots and spaces, devices, streams) are the operating system's.
- Framing.TakeFrom: a payload nested so deeply that `json.loads` raises `RecursionError` also leaves the session loop as an exception; here every payload is a message or is not.
- Connections.Connection.WriteAll: every write takes at least one byte, and a pipe on which a write failed stays broken.
- Connections.Connection.Receive: bytes are seen to arrive when the pipe is looked at, during sleeps, writes and file operations; the clock is a real number; how long `session` waits for a message (0.2 s) and sleeps between looks (5 ms) is stated nowhere but in the bodies.
- Retries.Run: watched for an arbitrary number of attempts; a run that never ends is covered by its prefixes.
- Launch: a state machine rather than a method, because its properties are about many processes and a crash between any two steps. The portable-profile import, the update helper's own work and the update lock (`UpdateMaintenance`) are environment: a start they stop never appears. The reads a start decides by are one step, and so is one removal.
- Cleanup.UpdateFolder.CleanCompletedUpdateArtifacts: a directory that is only partly removed counts as still there.
- Desktop.App.FinishInit: of `App::init` only the marker (in `Launch`) and the end; the signal wiring and the services are not modelled.
- Sounds.Mix: samples are real numbers, so rounding is not modelled; offsets are not negative. `tone`, WAV headers and their comparison in `--check` are not modelled.
- Message dialogs, localized text and the QML user interface.
