/** The provider: answering target requests, running jobs, one session from hello to goodbye. */
module Samples {
  import opened Options
  import opened Bytes
  import opened Framing
  import opened Messages
  import opened Trace
  import opened Language
  import opened Connections
  import opened Disks

  /** What can leave a job or a session other than by a result: the pipe failed, while something was
      being sent or while listening; GameHQ sent something that is not a message; or something to be
      sent did not fit in a frame. */
  datatype Escape = PipeLost(sending: Option<Output>) | NotAMessage | DoesNotFit(o: Output)

  datatype JobEnd = Report(o: Output) | JobEscaped(why: Escape)

  datatype CopyEnd = Done | Stopped | Changed | OsError | CopyEscaped(why: Escape)

  datatype ChunkEnd = EndOfFile | ChunkCopied(size: nat) | ChunkFailed | ChunkEscaped(why: Escape)

  datatype DrainEnd = Quiet | CancelSeen | DrainEscaped(why: Escape)

  datatype SessionEnd = Exit(code: nat) | SessionEscaped(why: Escape)

  function EscapeOf(r: SendEnd, o: Output): Escape {
    if r.TooBig? then DoesNotFit(o) else PipeLost(Some(o))
  }

  /** `job` is still open in phase `p`, with `done` jobs before it. */
  predicate InJob(p: Phase, job: Message, done: nat) {
    match p
    case Started(j, d) => j == job && d == done
    case Copying(j, _, _, _, _, d) => j == job && d == done
    case OwingInJob(_, j, _, _, _, d) => j == job && d == done
    case Stopping(j, d) => j == job && d == done
    case Aborted(j, d) => j == job && d == done
    case _ => false
  }

  /** Between two messages of its job, the session may always report a failed copy. */
  predicate AtRest(p: Phase) {
    p.Started? || (p.Copying? && p.stage != Written && !p.late) || p.Stopping?
  }

  lemma AtRestInJob(p: Phase)
    requires AtRest(p)
    ensures InJob(p, p.job, p.done)
  {
  }

  /** The session reads from the pipe in this phase. */
  predicate Listens(p: Phase) {
    p.Waiting? || p.Ready? || (p.Copying? && p.stage == Draining)
  }

  /** `o` is something the session sends in phase `p`. A `goodbye` that goes out together with a
      result is due before that result. */
  ghost predicate Owes(cfg: Settings, p: Phase, o: Output) {
    || Next(cfg, p, Sent(o)) != Wrong
    || (o == Goodbye && cfg.coalesceGoodbye && AtRest(p) && Finished(cfg, p.done + 1))
  }

  /** When which exception leaves the session in phase `p`. */
  ghost predicate Escapes(cfg: Settings, why: Escape, p: Phase) {
    match why
    case NotAMessage => p.Aborted?
    case DoesNotFit(o) => Owes(cfg, p, o) && !Fits(Encode(cfg, o))
    case PipeLost(None) => Listens(p)
    case PipeLost(Some(o)) => Owes(cfg, p, o) && Fits(Encode(cfg, o))
  }

  lemma EscapesSending(cfg: Settings, p: Phase, o: Output, r: SendEnd)
    requires Next(cfg, p, Sent(o)) != Wrong && (r.TooBig? <==> !Fits(Encode(cfg, o)))
    ensures Escapes(cfg, EscapeOf(r, o), p)
    ensures EscapeOf(r, o).PipeLost? <==> !r.TooBig?
  {
  }

  /** The one thing to be sent in phase `p`, where there is only one. */
  function Owed(cfg: Settings, p: Phase): Option<Output> {
    match p
    case Fresh(_) => Some(Hello)
    case Announce(_) => Some(FutureThing)
    case Owing(request, _) => Some(Answer(cfg, request))
    case OwingInJob(request, _, _, _, _, _) => Some(Answer(cfg, request))
    case Copying(job, total, copied, _, Written, _) => Some(Transferring(job.jobId, job.token, copied, total))
    case Closing(_) => Some(Goodbye)
    case _ => None
  }

  /** An exception is for a frame that is not a message exactly if the session broke off in a job
      over one; where one thing was to be sent, it is for that not fitting exactly if it does not. */
  lemma EscapeIsExact(cfg: Settings, why: Escape, p: Phase)
    requires Escapes(cfg, why, p)
    ensures why.NotAMessage? <==> p.Aborted?
    ensures var o := Owed(cfg, p); o.Some? ==> (why.DoesNotFit? <==> !Fits(Encode(cfg, o.value)))
    ensures !p.Left? && !p.Refused? && p != Wrong
  {
  }

  /** In phase `p` the session may send `o` and has then done one job more. */
  ghost predicate Allows(cfg: Settings, p: Phase, o: Output, done: nat) {
    Next(cfg, p, Sent(o)) == AfterResult(cfg, done + 1)
  }

  lemma AllowsEarly(cfg: Settings, job: Message, done: nat, outcome: Outcome)
    requires EarlyFailure(outcome)
    ensures Allows(cfg, Started(job, done), Result(job.jobId, job.token, outcome), done)
  {
  }

  lemma AllowedAtRest(cfg: Settings, p: Phase, o: Output, done: nat)
    requires Allows(cfg, p, o, done) && o.Result?
    ensures AtRest(p)
  {
  }

  lemma AllowsFailed(cfg: Settings, p: Phase)
    requires AtRest(p)
    ensures Allows(cfg, p, Result(p.job.jobId, p.job.token, Failed("copy_failed")), p.done)
  {
  }

  lemma AllowsCopied(cfg: Settings, p: Phase)
    requires AtRest(p) && p.Copying? && p.copied == Whole(cfg, p.job, p.total)
    ensures Allows(cfg, p, Result(p.job.jobId, p.job.token, Copied), p.done)
  {
  }

  lemma AfterPreparing(cfg: Settings, job: Message, done: nat)
    requires GoodJob(cfg, job) && job.file.sizeBytes.Number? && job.file.sizeBytes.number >= 0
    ensures Next(cfg, Started(job, done), Sent(Preparing(job.jobId, job.token)))
         == Copying(job, job.file.sizeBytes.number, 0, false, Prepared, done)
  {
  }

  lemma AllowsCancelled(cfg: Settings, job: Message, done: nat)
    ensures Allows(cfg, Stopping(job, done), Result(job.jobId, job.token, Cancelled), done)
  {
  }

  /** What the drain loop's messages do to the protocol. */
  lemma DrainNext(cfg: Settings, p: Phase, m: Message)
    requires p.Copying? && p.stage == Draining
    ensures var owing := OwingInJob(m, p.job, p.total, p.copied, p.late, p.done);
            && Next(cfg, owing, Sent(Answer(cfg, m))) == p
            && Next(cfg, p, Got(m)) == if Cancels(m, p.job) then Stopping(p.job, p.done)
                                       else if m.kind == "targets.request" then owing else p
  {
  }

  lemma DrainGarbled(cfg: Settings, p: Phase)
    requires p.Copying? && p.stage == Draining
    ensures forall consumed :: Next(cfg, p, Garbled(consumed)) == Aborted(p.job, p.done)
  {
  }

  /** What copying and reporting one chunk do to the protocol. */
  lemma ChunkNext(cfg: Settings, p: Phase, size: nat, late: bool)
    requires p.Copying? && p.stage != Written && !p.late && 1 <= size && size == NextChunk(p.total - p.copied)
    ensures var q := p.(copied := p.copied + size, late := late, stage := Written);
            && Next(cfg, p, Chunk(size, late)) == q
            && Next(cfg, q, Sent(Transferring(p.job.jobId, p.job.token, q.copied, p.total))) == q.(stage := Draining)
  {
  }

  lemma WholeIs(cfg: Settings, job: Message, total: nat)
    requires GoodJob(cfg, job)
    ensures Whole(cfg, job, total) == if SourceFile(cfg, job) == CopyFile(cfg, job) then 0 else total
  {
  }

  // -- what a job does to the files ----------------------------------------------------------

  /** One run of `run_job`: how it ended, the files before and after it, the removals it tried, and
      what the system refused to do for it. */
  datatype JobRun = JobRun(
    job: Message, end: JobEnd, before: Files, after: Files, tried: seq<Removal>, refused: seq<Operation>)

  /** The removals of the `try` block that ended so: only a stopped copy is removed there. */
  predicate RemovalsBy(end: CopyEnd, destination: FileId, before: seq<Removal>, after: seq<Removal>) {
    if end.Stopped? then after == before + [Removal(destination, true)]
    else after == before || (end.OsError? && after == before + [Removal(destination, false)])
  }

  lemma NoneRemoved(destination: FileId, removals: seq<Removal>)
    ensures forall end: CopyEnd :: !end.Stopped? ==> RemovalsBy(end, destination, removals, removals)
  {
  }

  /** What was refused in the `try` block that ended so: one operation if it ended in an `OSError`. */
  predicate RefusedBy(end: CopyEnd, before: seq<Operation>, after: seq<Operation>) {
    before <= after && |after| == |before| + if end.OsError? then 1 else 0
  }

  /** A part of the copy is left at the destination. */
  ghost predicate PartLeft(source: FileId, destination: FileId, before: Files, after: Files) {
    && source in before && destination in after
    && after[destination] <= if source == destination then [] else before[source]
  }

  /** One operation was refused; then the copy was removed, unless the system refused that too. */
  predicate TriedToRemove(destination: FileId, run: JobRun) {
    && run.tried != []
    && var last := run.tried[|run.tried| - 1];
       && |run.refused| == (if last.ok then 1 else 2)
       && last.file == destination
       && (last.ok ==> destination !in run.after)
       && (!last.ok && destination in run.before ==> destination in run.after)
  }

  /** What an outcome says about the files. */
  ghost predicate ReportedFiles(cfg: Settings, run: JobRun, outcome: Outcome)
    requires GoodJob(cfg, run.job)
  {
    var source, destination := SourceFile(cfg, run.job), CopyFile(cfg, run.job);
    match outcome
    case Copied =>
      && source in run.before && destination in run.after && run.tried == [] && run.refused == []
      && run.job.file.sizeBytes == Number(|run.before[source]|)
      && run.after[destination] == if source == destination then [] else run.before[source]
    case Cancelled =>
      destination !in run.after && run.tried == [Removal(destination, true)] && run.refused == []
    case Failed(code) =>
      || (code == "file_changed" && run.after == run.before && run.tried == [] && run.refused == []
          && source in run.before && run.job.file.sizeBytes != Number(|run.before[source]|))
      || (code == "copy_failed" && TriedToRemove(destination, run))
  }

  /** What a job that is not good is refused with. */
  function Refusal(cfg: Settings, job: Message): Outcome {
    Failed(if HasTarget(cfg, job.targetId) && job.file.File? then "bad_file" else "bad_job")
  }

  /** What the files look like when `run_job` is over. */
  ghost predicate JobFiles(cfg: Settings, run: JobRun) {
    var job := run.job;
    && (run.end.Report? ==> run.end.o.Result? && run.end.o.jobId == job.jobId && run.end.o.token == job.token)
    && if !GoodJob(cfg, job) then
         && run.after == run.before && run.tried == [] && run.refused == [] && run.end.Report?
         && run.end.o.outcome == Refusal(cfg, job)
       else
         && OthersKept(run.after, run.before, CopyFile(cfg, job))
         && match run.end
            case JobEscaped(_) =>
              && PartLeft(SourceFile(cfg, job), CopyFile(cfg, job), run.before, run.after)
              && run.tried == [] && run.refused == []
            case Report(o) => ReportedFiles(cfg, run, o.outcome)
  }

  lemma FilesRefused(cfg: Settings, run: JobRun)
    requires !GoodJob(cfg, run.job) && run.after == run.before && run.tried == [] && run.refused == []
    requires run.end.Report? && run.end.o == Result(run.job.jobId, run.job.token, Refusal(cfg, run.job))
    ensures JobFiles(cfg, run)
  {
  }

  lemma FilesTried(cfg: Settings, run: JobRun)
    requires GoodJob(cfg, run.job) && OthersKept(run.after, run.before, CopyFile(cfg, run.job))
    requires run.end.JobEscaped? ==>
               && PartLeft(SourceFile(cfg, run.job), CopyFile(cfg, run.job), run.before, run.after)
               && run.tried == [] && run.refused == []
    requires run.end.Report? ==>
               && run.end.o.Result? && run.end.o.jobId == run.job.jobId && run.end.o.token == run.job.token
               && ReportedFiles(cfg, run, run.end.o.outcome)
    ensures JobFiles(cfg, run)
  {
  }

  predicate Reported(run: JobRun, outcome: Outcome) {
    run.end.Report? && run.end.o.Result? && run.end.o.outcome == outcome
  }

  /** A good job that comes to a report reports `copy_failed` exactly if the system refused one of the
      operations it asked for. */
  lemma FailsExactlyIfRefused(cfg: Settings, run: JobRun)
    requires JobFiles(cfg, run) && GoodJob(cfg, run.job) && run.end.Report?
    ensures Reported(run, Failed("copy_failed")) <==> run.refused != []
  {
  }

  /** Which result a job comes to, if it comes to one: `bad_job` exactly if its target is not configured
      or it describes no file; else `bad_file` exactly if path or name will not do; else `copy_failed`
      exactly if the system refused something; else `file_changed` exactly if the size differs; else
      it is copied or was cancelled. */
  lemma OutcomeIsExact(cfg: Settings, run: JobRun)
    requires JobFiles(cfg, run) && run.end.Report?
    ensures run.end.o.Result? && run.end.o.jobId == run.job.jobId && run.end.o.token == run.job.token
    ensures var job, outcome := run.job, run.end.o.outcome;
            var known := exists t :: t in cfg.targets && job.targetId == Text(t.id);
            var named := job.file.File? && job.file.path.Text? && job.file.fileName.Text?
                         && var name := job.file.fileName.text;
                            && name != "" && '/' !in name && '\\' !in name
                            && !(|name| >= 2 && name[1] == ':');
            if !known || job.file.NoFile? then outcome == Failed("bad_job")
            else if !named then outcome == Failed("bad_file")
            else if run.refused != [] then outcome == Failed("copy_failed")
            else if outcome == Cancelled then true
            else
              var source := cfg.fileOf(job.file.path.text);
              source in run.before && outcome == if job.file.sizeBytes == Number(|run.before[source]|) then Copied
                                                 else Failed("file_changed")
  {
    GoodJobMeans(cfg, run.job);
  }

  /** A job that reports `copied` has left a faithful copy exactly if it did not copy a file that
      has content onto itself, under whatever name. */
  lemma CopiedIsFaithful(cfg: Settings, run: JobRun)
    requires JobFiles(cfg, run) && Reported(run, Copied)
    ensures GoodJob(cfg, run.job)
    ensures var source, destination := cfg.fileOf(run.job.file.path.text), cfg.fileOf(Destination(cfg, run.job));
            source in run.before && destination in run.after &&
            (run.after[destination] == run.before[source] <==> source != destination || run.before[source] == [])
  {
  }

  const ASKED := "C:\\Temp\\s\\inbox\\a.png"
  const MEANT := "c:\\temp\\s\\inbox\\a.png"

  /** Such a job: the folder was given in another letter case than GameHQ's path, and one byte is
      lost that `copied` says is there twice. */
  lemma SelfCopyLosesTheFile(cfg: Settings, ack: Message) returns (run: JobRun, log: seq<Event>)
    requires cfg.destDir == "c:\\temp\\s" && Target("inbox", "Inbox") in cfg.targets
    requires FileOf(cfg, ASKED) == FileOf(cfg, MEANT)
    requires ack.kind == "hello.ack" && !cfg.sendUnknownType && cfg.exitAfterJobs == 0
    ensures GoodJob(cfg, run.job) && run.job.file.path == Text(ASKED) && Destination(cfg, run.job) == MEANT
    ensures JobFiles(cfg, run) && Reported(run, Copied)
    ensures |run.before[SourceFile(cfg, run.job)]| == 1 && run.after[SourceFile(cfg, run.job)] == []
    ensures After(cfg, Fresh(0), log) == Ready(1) && log[|log| - 1] == Sent(run.end.o)
  {
    hide After;
    var job := Message("job.start", Text("1"), Text("t"), Null, Null, Null, Text("inbox"),
                       File(Text(ASKED), Text("a.png"), Number(1)));
    assert Target("inbox", "Inbox").id == "inbox";
    var folder := TargetFolder(cfg, "inbox");
    assert folder == "c:\\temp\\s\\inbox";
    assert Destination(cfg, job) == MEANT;
    var file := FileOf(cfg, ASKED);
    var report := Result(job.jobId, job.token, Copied);
    run := JobRun(job, Report(report), map[file := [0]], map[file := []], [], []);
    log := JobBegins(cfg, ack, job);
    AfterOne(cfg, Fresh(0), log, Sent(report));
    log := log + [Sent(report)];
  }

  /** A copy left by one job is still there after a later job to the same place has failed exactly
      if the system refused that job the removal. */
  lemma EarlierCopySurvives(cfg: Settings, earlier: JobRun, later: JobRun)
    requires JobFiles(cfg, earlier) && JobFiles(cfg, later) && later.before == earlier.after
    requires Reported(earlier, Copied) && Reported(later, Failed("copy_failed"))
    requires GoodJob(cfg, earlier.job) && GoodJob(cfg, later.job)
    requires CopyFile(cfg, later.job) == CopyFile(cfg, earlier.job)
    ensures later.tried != []
    ensures CopyFile(cfg, earlier.job) in later.after <==> !later.tried[|later.tried| - 1].ok
  {
  }

  /** Such jobs: the second names a file that is not there, and takes the first one's copy away. */
  lemma FailedJobTakesEarlierCopy(cfg: Settings, first: Message, second: Message, content: seq<byte>)
    returns (earlier: JobRun, later: JobRun)
    requires GoodJob(cfg, first) && GoodJob(cfg, second) && CopyFile(cfg, second) == CopyFile(cfg, first)
    requires !SelfCopy(cfg, first) && first.file.sizeBytes == Number(|content|)
    requires SourceFile(cfg, second) !in {SourceFile(cfg, first), CopyFile(cfg, first)}
    ensures JobFiles(cfg, earlier) && JobFiles(cfg, later) && later.before == earlier.after
    ensures Reported(earlier, Copied)
    ensures CopyFile(cfg, first) in earlier.after && earlier.after[CopyFile(cfg, first)] == content
    ensures Reported(later, Failed("copy_failed")) && SourceFile(cfg, second) !in later.before
    ensures CopyFile(cfg, first) !in later.after
  {
    var source, copy := SourceFile(cfg, first), CopyFile(cfg, first);
    var both: Files := map[source := content, copy := content];
    earlier := JobRun(first, Report(Result(first.jobId, first.token, Copied)), map[source := content], both, [], []);
    later := JobRun(second, Report(Result(second.jobId, second.token, Failed("copy_failed"))), both, both - {copy},
                    [Removal(copy, true)], [Operation.GetSize]);
  }

  // -- what a session's jobs did ---------------------------------------------------------------

  /** Each job did to the files what it says, and between jobs nothing happened to them. */
  ghost predicate Ledger(cfg: Settings, runs: seq<JobRun>, first: Files, last: Files) {
    if runs == [] then first == last
    else
      var run := runs[|runs| - 1];
      run.after == last && JobFiles(cfg, run) && Ledger(cfg, runs[..|runs| - 1], first, run.before)
  }

  lemma LedgerMore(cfg: Settings, runs: seq<JobRun>, first: Files, run: JobRun)
    requires Ledger(cfg, runs, first, run.before) && JobFiles(cfg, run)
    ensures Ledger(cfg, runs + [run], first, run.after)
  {
    assert (runs + [run])[..|runs|] == runs;
  }

  lemma NoLedger(cfg: Settings, files: Files)
    ensures Ledger(cfg, [], files, files)
  {
  }

  lemma {:induction false} LedgerAt(cfg: Settings, runs: seq<JobRun>, first: Files, last: Files, n: nat)
    requires Ledger(cfg, runs, first, last) && n < |runs|
    ensures JobFiles(cfg, runs[n])
    ensures n == |runs| - 1 ==> runs[n].after == last
    decreases |runs|
  {
    hide JobFiles;
    if n < |runs| - 1 {
      LedgerAt(cfg, runs[..|runs| - 1], first, runs[|runs| - 1].before, n);
    }
  }

  /** A job that ended so has not told GameHQ, because this exception left the session: its own, or
      one over sending its report or the `goodbye` with it. */
  predicate Untold(end: JobEnd, why: Escape) {
    match end
    case JobEscaped(w) => w == why
    case Report(o) => why in {PipeLost(Some(o)), DoesNotFit(o), DoesNotFit(Goodbye)}
  }

  /** The results told are the reports of the jobs, one each, in order; the last job alone may not have
      told its own, and only if an exception left the session. */
  predicate Told(told: seq<Output>, runs: seq<JobRun>, why: Option<Escape>) {
    && |told| <= |runs| <= |told| + 1
    && (forall k :: 0 <= k < |told| ==> runs[k].end == Report(told[k]))
    && (|told| < |runs| ==> why.Some? && Untold(runs[|told|].end, why.value))
  }

  function Jobs(runs: seq<JobRun>): (jobs: seq<Message>)
    ensures |jobs| == |runs| && forall k :: 0 <= k < |runs| ==> jobs[k] == runs[k].job
  {
    seq(|runs|, k requires 0 <= k < |runs| => runs[k].job)
  }

  /** The runs of `run_job` in a session: one for each `job.start` that opened a job, and what they did
      to the files and told GameHQ is all there is of both. */
  ghost predicate Truthful(cfg: Settings, log: seq<Event>, runs: seq<JobRun>, first: Files, last: Files,
                           why: Option<Escape>) {
    Jobs(runs) == Opened(log) && Ledger(cfg, runs, first, last) && Told(SentResults(log), runs, why)
  }

  function WhyOf(end: SessionEnd): Option<Escape> {
    if end.SessionEscaped? then Some(end.why) else None
  }

  lemma ResultsMore(log: seq<Event>, e: Event)
    ensures SentResults(log + [e]) == if IsResult(e) then SentResults(log) + [e.o] else SentResults(log)
    ensures !e.Got? ==> Opened(log + [e]) == Opened(log)
  {
    assert (log + [e])[..|log|] == log;
  }

  /** Every result GameHQ is sent is true of the files: the job it answers was run, that run came to
      this result, and `JobFiles` holds of what it did. */
  lemma ResultsAreTrue(cfg: Settings, done: nat, log: seq<Event>, runs: seq<JobRun>, first: Files, last: Files,
                       why: Option<Escape>, i: nat)
    returns (n: nat)
    requires Accepted(cfg, done, log) && Truthful(cfg, log, runs, first, last, why)
    requires i < |log| && IsResult(log[i])
    ensures n < |runs| && Open(log[..i]) == Some(runs[n].job)
    ensures runs[n].end == Report(log[i].o) && JobFiles(cfg, runs[n])
  {
    hide Ledger, JobFiles, SentResults, Opened, Accepted, Jobs;
    PrefixAccepted(cfg, done, log, i);
    OpenCounts(cfg, done, log[..i]);
    var job := JobEcho(cfg, done, log, i);
    RecordsGrow(log[..i], log);
    RecordsGrow(log[..i + 1], log);
    assert log[..i + 1] == log[..i] + [log[i]];
    ResultsMore(log[..i], log[i]);
    n := |SentResults(log[..i])|;
    assert SentResults(log)[n] == log[i].o && Opened(log)[n] == job;
    LedgerAt(cfg, runs, first, last, n);
  }

  /** An exception that leaves a session while a job is open leaves it in the run of that job, the last
      one: the exception came out of the job, or its report could not be sent. */
  lemma LeftInJob(cfg: Settings, done: nat, log: seq<Event>, runs: seq<JobRun>, first: Files, last: Files,
                  why: Option<Escape>)
    requires Accepted(cfg, done, log) && Truthful(cfg, log, runs, first, last, why) && Open(log).Some?
    ensures runs != [] && why.Some?
    ensures var run := runs[|runs| - 1];
            run.job == Open(log).value && run.after == last && JobFiles(cfg, run) && Untold(run.end, why.value)
  {
    hide Ledger, JobFiles, Jobs;
    OpenCounts(cfg, done, log);
    LedgerAt(cfg, runs, first, last, |runs| - 1);
  }

  /** As long as no job is done or opened, no result is sent and no job was opened. */
  lemma SameDone(cfg: Settings, before: nat, log: seq<Event>, more: seq<Event>)
    requires log <= more && Accepted(cfg, before, log) && Accepted(cfg, before, more)
    requires var p, q := After(cfg, Fresh(before), log), After(cfg, Fresh(before), more);
             p.done == q.done && OpenIn(p).Some? == OpenIn(q).Some?
    ensures SentResults(log) == SentResults(more) && Opened(log) == Opened(more)
  {
    hide After, SentResults, Opened;
    AckAt(cfg, before, log, |log|);
    AckAt(cfg, before, more, |more|);
    CountAt(cfg, before, log, |log|);
    CountAt(cfg, before, more, |more|);
    assert log[..|log|] == log && more[..|more|] == more;
    OpenCounts(cfg, before, log);
    OpenCounts(cfg, before, more);
    RecordsGrow(log, more);
  }

  // -- where a session stands -------------------------------------------------------------------

  /** Where the session loop stands between two messages. */
  function Serving(acked: bool, done: nat): Phase {
    if acked then Ready(done) else Waiting(done)
  }

  /** A message decoded between two others opens a job exactly if it is a `job.start` and the handshake
      is done. */
  lemma OpensJob(cfg: Settings, before: nat, log: seq<Event>, acked: bool, done: nat, m: Message)
    requires After(cfg, Fresh(before), log) == Serving(acked, done)
    ensures Opened(log + [Got(m)]) == if acked && m.kind == "job.start" then Opened(log) + [m] else Opened(log)
    ensures SentResults(log + [Got(m)]) == SentResults(log)
  {
    ResultsMore(log, Got(m));
    AckAt(cfg, before, log, |log|);
    assert log[..|log|] == log && (log + [Got(m)])[..|log|] == log;
  }

  lemma HelloOpens(cfg: Settings, done: nat)
    ensures Next(cfg, Fresh(done), Sent(Hello)) == Serving(false, done)
  {
  }

  lemma GarbledEnds(cfg: Settings, acked: bool, done: nat)
    ensures forall consumed :: Next(cfg, Serving(acked, done), Garbled(consumed)) == Refused(5, done)
  {
  }

  lemma ClosingLeaves(cfg: Settings, done: nat)
    ensures Next(cfg, Closing(done), Sent(Goodbye)) == Trace.Left(done)
  {
  }

  /** How a session ends in phase `p`, having counted the jobs from `before` to `done`. */
  ghost predicate EndsWith(cfg: Settings, p: Phase, end: SessionEnd, before: nat, done: nat) {
    && p != Wrong && p.done <= done <= p.done + 1
    && (p.Closing? ==> !cfg.coalesceGoodbye)
    && match end
       case SessionEscaped(why) => Escapes(cfg, why, p)
       case Exit(code) =>
         || (code == 0 && p == Trace.Left(done) && done > before && Finished(cfg, done))
         || (code in {2, 3, 5} && p == Refused(code, done))
         || (code == 5 && p == Waiting(done))
  }

  /** The ends of a session in its loop, and before it. */
  lemma LoopEnds(cfg: Settings, acked: bool, before: nat, done: nat)
    ensures EndsWith(cfg, Serving(acked, done), SessionEscaped(PipeLost(None)), before, done)
    ensures EndsWith(cfg, Refused(5, done), Exit(5), before, done)
    ensures !acked ==> EndsWith(cfg, Serving(acked, done), Exit(5), before, done)
    ensures acked ==> !Serving(acked, done).Waiting?
  {
  }

  predicate InTime(cfg: Settings, started: real, quiet: seq<real>) {
    forall k :: 0 <= k < |quiet| ==> quiet[k] - started <= cfg.connectTimeout
  }

  /** A session that is still waiting for its acknowledgement has ended for that, with 5, exactly if the
      last time nothing came was later than the timeout allows; no time before was. */
  predicate Patient(cfg: Settings, started: real, quiet: seq<real>, end: SessionEnd) {
    quiet != [] ==>
      && (forall k :: 0 <= k < |quiet| - 1 ==> quiet[k] - started <= cfg.connectTimeout)
      && (end == Exit(5) <==> quiet[|quiet| - 1] - started > cfg.connectTimeout)
  }

  lemma EndsSince(cfg: Settings, p: Phase, end: SessionEnd, first: nat, before: nat, done: nat)
    requires EndsWith(cfg, p, end, before, done) && first <= before
    ensures EndsWith(cfg, p, end, first, done)
  {
  }

  lemma HelloEnds(cfg: Settings, done: nat, r: SendEnd)
    requires r.TooBig? <==> !Fits(Encode(cfg, Hello))
    ensures EndsWith(cfg, Fresh(done), SessionEscaped(EscapeOf(r, Hello)), done, done)
  {
    EscapesSending(cfg, Fresh(done), Hello, r);
  }

  /** The last phase tells how the session ended, and the other way round. */
  lemma EndIsExact(cfg: Settings, p: Phase, end: SessionEnd, before: nat, done: nat)
    requires EndsWith(cfg, p, end, before, done)
    ensures end == Exit(0) <==> p.Left?
    ensures p.Refused? ==> end == Exit(p.code)
    ensures end == SessionEscaped(NotAMessage) <==> p.Aborted?
    ensures end.Exit? ==> end.code in {0, 2, 3, 5}
  {
    if end.SessionEscaped? {
      EscapeIsExact(cfg, end.why, p);
    }
  }

  /** What handling one message means for the files and the results: nothing, or one job's run. */
  ghost predicate Served(cfg: Settings, served: Option<JobRun>, why: Option<Escape>, before: Files, after: Files,
                         told: seq<Output>, tells: seq<Output>)
  {
    match served
    case None => before == after && told == tells
    case Some(run) =>
      && JobFiles(cfg, run) && run.before == before && run.after == after
      && if tells == told then why.Some? && Untold(run.end, why.value)
         else run.end.Report? && tells == told + [run.end.o]
  }

  function EscapeIn(ended: Option<SessionEnd>): Option<Escape> {
    if ended.Some? then WhyOf(ended.value) else None
  }

  lemma NoneServed(cfg: Settings, why: Option<Escape>, files: Files, told: seq<Output>)
    ensures Served(cfg, None, why, files, files, told, told)
  {
  }

  function WithRun(runs: seq<JobRun>, served: Option<JobRun>): seq<JobRun> {
    match served
    case None => runs
    case Some(run) => runs + [run]
  }

  lemma NothingYet(cfg: Settings, log: seq<Event>, files: Files, why: Option<Escape>)
    requires log == [] || log == [Sent(Hello)]
    ensures Truthful(cfg, log, [], files, files, why)
  {
    NoLedger(cfg, files);
    ResultsMore([], Sent(Hello));
    assert [] + [Sent(Hello)] == [Sent(Hello)];
  }

  /** One more event that neither opens a job nor is a result. */
  lemma TruthfulMore(cfg: Settings, log: seq<Event>, runs: seq<JobRun>, first: Files, last: Files, e: Event,
                     why: Option<Escape>)
    requires Truthful(cfg, log, runs, first, last, None) && !e.Got? && !IsResult(e)
    ensures Truthful(cfg, log, runs, first, last, why) && Truthful(cfg, log + [e], runs, first, last, why)
  {
    hide Ledger, Jobs, Opened, SentResults;
    ResultsMore(log, e);
  }

  lemma TruthfulServed(cfg: Settings, log: seq<Event>, more: seq<Event>, runs: seq<JobRun>, served: Option<JobRun>,
                       first: Files, before: Files, after: Files, why: Option<Escape>)
    requires Truthful(cfg, log, runs, first, before, None)
    requires Served(cfg, served, why, before, after, SentResults(log), SentResults(more))
    requires Opened(more) == Opened(log) + if served.Some? then [served.value.job] else []
    ensures Truthful(cfg, more, WithRun(runs, served), first, after, why)
  {
    hide Ledger, JobFiles, Opened, SentResults;
    assert Opened(log) + [] == Opened(log);
    if served.Some? {
      LedgerMore(cfg, runs, first, served.value);
      assert Jobs(runs + [served.value]) == Jobs(runs) + [served.value.job];
    }
  }

  lemma TwoFit(cfg: Settings, a: Output, b: Output)
    ensures AllFit(cfg, [a, b]) <==> Fits(Encode(cfg, a)) && Fits(Encode(cfg, b))
  {
    assert [a, b][0] == a && [a, b][1] == b;
  }

  /** Which exit code a session ends with, read off its log: 3 for an error that says the protocols do
      not fit, 2 for any other before the acknowledgement, 0 after `goodbye`, and 5 only for a bad
      frame outside a job or for want of an acknowledgement. */
  lemma ExitCodes(cfg: Settings, before: nat, log: seq<Event>, end: SessionEnd, done: nat)
    requires Accepted(cfg, before, log) && EndsWith(cfg, After(cfg, Fresh(before), log), end, before, done)
    ensures var n := |log| - 1;
            && (end == Exit(3) <==>
                  && log != [] && log[n].Got? && log[n].m.kind == "error" && Open(log[..n]) == None
                  && log[n].m.code == Text("protocol_incompatible"))
            && (end == Exit(2) <==>
                  && log != [] && log[n].Got? && log[n].m.kind == "error" && !Acked(log[..n])
                  && log[n].m.code != Text("protocol_incompatible"))
            && (end == Exit(0) <==> log != [] && log[n] == Sent(Goodbye))
            && (end == Exit(5) ==> log != [] && ((log[n].Garbled? && Open(log[..n]) == None) || !Acked(log)))
            && (end.Exit? ==> end.code in {0, 2, 3, 5})
  {
    hide Next, After, Open, Acked;
    var q := After(cfg, Fresh(before), log);
    EndIsExact(cfg, q, end, before, done);
    AckAt(cfg, before, log, |log|);
    assert log[..|log|] == log;
    if log != [] {
      var n := |log| - 1;
      assert log[..n + 1] == log;
      var p := At(cfg, before, log, n);
      GoodbyeCloses(cfg, p, log[n]);
      LeftOnlyBy(cfg, p, log[n]);
      if log[n].Got? && log[n].m.kind == "error" && Open(log[..n]) == None {
        ErrorMeans(cfg, before, log, n);
      }
      if q.Refused? {
        RefusalMeans(cfg, before, log);
      }
    }
  }

  lemma OnlyGarbledAborts(cfg: Settings, p: Phase, e: Event)
    requires !e.Garbled?
    ensures !Next(cfg, p, e).Aborted?
  {
  }

  /** A session is left with an exception for a frame that is not a message exactly if such a frame
      was the last thing it met, in a job; where no job was open, it ends with 5. */
  lemma BrokenJob(cfg: Settings, before: nat, log: seq<Event>, end: SessionEnd, done: nat)
    requires Accepted(cfg, before, log) && EndsWith(cfg, After(cfg, Fresh(before), log), end, before, done)
    ensures var last := |log| - 1;
            && (end == SessionEscaped(NotAMessage) <==> log != [] && log[last].Garbled? && Open(log[..last]).Some?)
            && (log != [] && log[last].Garbled? && Open(log[..last]) == None ==> end == Exit(5))
  {
    EndIsExact(cfg, After(cfg, Fresh(before), log), end, before, done);
    if log != [] {
      var last := |log| - 1;
      assert log[..|log|] == log;
      var p := At(cfg, before, log, last);
      if log[last].Garbled? {
        GarbledIsLast(cfg, before, log, last);
      } else {
        OnlyGarbledAborts(cfg, p, log[last]);
      }
    }
  }

  /** Then the last run is that of the open job, it ended in this exception, and a part of the copy is
      left at its destination. */
  lemma BrokenJobLeavesPart(cfg: Settings, before: nat, log: seq<Event>, end: SessionEnd, done: nat,
                            runs: seq<JobRun>, first: Files, last: Files)
    requires Accepted(cfg, before, log) && EndsWith(cfg, After(cfg, Fresh(before), log), end, before, done)
    requires Truthful(cfg, log, runs, first, last, WhyOf(end)) && end == SessionEscaped(NotAMessage)
    ensures runs != []
    ensures var run := runs[|runs| - 1];
            && Open(log) == Some(run.job) && run.end == JobEscaped(NotAMessage) && GoodJob(cfg, run.job)
            && PartLeft(SourceFile(cfg, run.job), CopyFile(cfg, run.job), run.before, last)
  {
    hide Truthful;
    EndIsExact(cfg, After(cfg, Fresh(before), log), end, before, done);
    AckAt(cfg, before, log, |log|);
    assert log[..|log|] == log;
    LeftInJob(cfg, before, log, runs, first, last, WhyOf(end));
  }

  /** Such a session: a frame that is not a message comes during a job. */
  lemma BadFrameBreaksJob(cfg: Settings, ack: Message, job: Message) returns (log: seq<Event>)
    requires ack.kind == "hello.ack" && job.kind == "job.start" && !cfg.sendUnknownType
    requires GoodJob(cfg, job) && job.file.sizeBytes == Number(1)
    ensures log != [] && log[|log| - 1] == Garbled(true) && After(cfg, Fresh(0), log) == Aborted(job, 0)
    ensures forall end, done :: EndsWith(cfg, Aborted(job, 0), end, 0, done) ==> end == SessionEscaped(NotAMessage)
  {
    hide After, GoodJob;
    var start := JobCopies(cfg, ack, job);
    AfterOne(cfg, Fresh(0), start, Garbled(true));
    assert Next(cfg, Copying(job, 1, 1, false, Draining, 0), Garbled(true)) == Aborted(job, 0);
    log := start + [Garbled(true)];
    forall end, done | EndsWith(cfg, Aborted(job, 0), end, 0, done) ensures end == SessionEscaped(NotAMessage) {
      EndIsExact(cfg, Aborted(job, 0), end, 0, done);
    }
  }

  /** And one in which the answer to a search does not fit in a frame. */
  lemma LongAnswerBreaksSession(cfg: Settings, ack: Message, request: Message) returns (log: seq<Event>)
    requires ack.kind == "hello.ack" && request.kind == "targets.request" && !cfg.sendUnknownType
    requires !Fits(Encode(cfg, Answer(cfg, request)))
    ensures log == [Sent(Hello), Got(ack), Got(request)] && After(cfg, Fresh(0), log) == Owing(request, 0)
    ensures forall end, done ::
              EndsWith(cfg, Owing(request, 0), end, 0, done) ==> end == SessionEscaped(DoesNotFit(Answer(cfg, request)))
  {
    hide After, Answer;
    AfterTwo(cfg, Fresh(0), Sent(Hello), Got(ack));
    log := [Sent(Hello), Got(ack)] + [Got(request)];
    AfterOne(cfg, Fresh(0), [Sent(Hello), Got(ack)], Got(request));
    assert Next(cfg, Ready(0), Got(request)) == Owing(request, 0);
  }

  lemma BadName(name: Json)
    ensures name.Text? && (name.text == "" || BaseName(name.text) != name.text) ==> !PlainName(name.text)
  {
    if name.Text? {
      BaseNameIsPlain(name.text);
    }
  }

  class Sample {
    const cfg: Settings
    const disk: Disk
    var jobsDone: nat

    constructor (cfg: Settings, disk: Disk)
      ensures this.cfg == cfg && this.disk == disk && jobsDone == 0
    {
      this.cfg, this.disk, jobsDone := cfg, disk, 0;
    }

    /** `answer_targets`. */
    method AnswerTargets(conn: Connection, request: Message) returns (r: SendEnd)
      requires conn.Valid() && conn.cfg == cfg && !conn.Down()
      modifies conn`outbound, conn`broken, conn`inbound, conn`arrived, conn`pending, conn`clock
      modifies conn`log, conn`stamps, conn`phase
      ensures conn.Down() <==> r.Broken?
      ensures conn.Valid() && old(conn.pending) <= conn.pending && conn.clock >= old(conn.clock)
      ensures if r.Delivered? then conn.phase == Next(cfg, old(conn.phase), Sent(Answer(cfg, request)))
              else conn.phase == old(conn.phase)
      ensures r.TooBig? <==> !Fits(Encode(cfg, Answer(cfg, request)))
      ensures old(conn.log) <= conn.log
    {
      hide Connection.Valid, Next;
      r := conn.Send(Answer(cfg, request));
    }

    /** The loop between two chunks: takes messages until none is there, or the job's cancel is. */
    method Drain(conn: Connection, job: Message) returns (end: DrainEnd)
      requires conn.Valid() && conn.cfg == cfg && !conn.Down()
      requires conn.phase.Copying? && conn.phase.job == job && conn.phase.stage == Draining
      requires conn.phase.late ==> Due(conn.pending, job)
      modifies conn
      ensures conn.clock >= old(conn.clock)
      ensures conn.Valid() && (conn.Down() <==> end.DrainEscaped? && end.why.PipeLost?)
      ensures old(conn.log) <= conn.log
      ensures end.Quiet? ==> conn.phase == old(conn.phase) && !conn.phase.late && conn.life < old(conn.life)
      ensures end.Quiet? ==> conn.pending == []
      ensures end.CancelSeen? ==> conn.phase == Stopping(job, old(conn.phase.done))
      ensures end.CancelSeen? ==>
                conn.life < old(conn.life) || (conn.life == old(conn.life) && |conn.buffer| < |old(conn.buffer)|)
      ensures end.DrainEscaped? ==> InJob(conn.phase, job, old(conn.phase.done)) && Escapes(cfg, end.why, conn.phase)
    {
      hide Connection.Valid, Next, Answer;
      ghost var p := conn.phase;
      DrainGarbled(cfg, p);
      while true
        invariant conn.Valid() && !conn.Down() && conn.phase == p && old(conn.log) <= conn.log
        invariant conn.clock >= old(conn.clock)
        invariant p.late ==> Due(conn.pending, job)
        invariant conn.life < old(conn.life) || (conn.life == old(conn.life) && |conn.buffer| <= |old(conn.buffer)|)
        decreases conn.life, |conn.buffer|
      {
        ghost var pending := conn.pending;
        var r := conn.Receive(0.0);
        match r {
          case Lost => return DrainEscaped(PipeLost(None));
          case Malformed => return DrainEscaped(NotAMessage);
          case Nothing => return Quiet;
          case Heard(m) =>
            DrainNext(cfg, p, m);
            if Cancels(m, job) {
              return CancelSeen;
            }
            if p.late {
              DueGrows(pending, [Good(m)] + conn.pending, job);
              DueLater(m, conn.pending, job);
            }
            ghost var rest := conn.pending;
            if m.kind == "targets.request" {
              var sent := AnswerTargets(conn, m);
              if !sent.Delivered? {
                EscapesSending(cfg, conn.phase, Answer(cfg, m), sent);
                return DrainEscaped(EscapeOf(sent, Answer(cfg, m)));
              }
            }
            if p.late {
              DueGrows(rest, conn.pending, job);
            }
        }
      }
    }

    // Reads the next chunk of the source and writes it behind what is there.
    method MoveChunk(source: FileId, destination: FileId, copied: nat, ghost content: seq<byte>)
      returns (ok: bool, size: nat)
      requires source in disk.files && disk.files[source] == content && copied <= |content|
      requires destination in disk.files && disk.files[destination] == content[..copied]
      requires source == destination ==> content == []
      modifies disk`files, disk`refused
      ensures destination in disk.files && OthersKept(disk.files, old(disk.files), destination)
      ensures RefusedBy(if ok then Done else OsError, old(disk.refused), disk.refused)
      ensures ok ==> size == NextChunk(|content| - copied)
      ensures ok ==> disk.files[destination] == content[..copied + size]
      ensures ok && size == 0 ==> disk.files == old(disk.files)
    {
      hide OthersKept;
      OthersSame(disk.files, destination);
      var chunk;
      ok, chunk := disk.Read(source, copied, CHUNK);
      size := |chunk|;
      if ok && chunk != [] {
        ok := disk.Append(destination, chunk);
        assert content[..copied] + chunk == content[..copied + |chunk|];
      }
    }

    /** One round of the copy loop up to the report: read, write, tell GameHQ. */
    method CopyChunk(conn: Connection, job: Message, source: FileId, destination: FileId, total: nat, copied: nat,
                     ghost content: seq<byte>)
      returns (end: ChunkEnd)
      requires conn.Valid() && conn.cfg == cfg && !conn.Down()
      requires conn.phase.Copying? && conn.phase.job == job && conn.phase.stage != Written && !conn.phase.late
      requires conn.phase.copied == copied <= |content| <= conn.phase.total == total
      requires source in disk.files && disk.files[source] == content
      requires destination in disk.files && disk.files[destination] == content[..copied]
      requires source == destination ==> content == []
      requires source != destination ==> |content| == total
      modifies conn`outbound, conn`broken, conn`inbound, conn`arrived, conn`pending, conn`clock
      modifies conn`log, conn`stamps, conn`phase, disk`files, disk`refused
      ensures conn.clock >= old(conn.clock)
      ensures conn.Valid() && old(conn.log) <= conn.log
      ensures conn.Down() <==> end.ChunkEscaped? && end.why.PipeLost?
      ensures RefusedBy(if end.ChunkFailed? then OsError else Done, old(disk.refused), disk.refused)
      ensures destination in disk.files && OthersKept(disk.files, old(disk.files), destination)
      ensures end.EndOfFile? ==> copied == |content| && disk.files == old(disk.files) && conn.phase == old(conn.phase)
      ensures end.ChunkFailed? ==> conn.phase == old(conn.phase)
      ensures end.ChunkCopied? || end.ChunkEscaped? ==>
                && conn.phase.Copying? && copied < conn.phase.copied <= |content|
                && conn.phase == old(conn.phase).(copied := conn.phase.copied, late := conn.phase.late,
                                                  stage := conn.phase.stage)
                && disk.files[destination] == content[..conn.phase.copied]
      ensures end.ChunkEscaped? ==> Escapes(cfg, end.why, conn.phase)
      ensures end.ChunkCopied? ==>
                && end.size == conn.phase.copied - copied
                && conn.phase.stage == Draining
                && (conn.phase.late ==> Due(conn.pending, job))
    {
      hide Connection.Valid, Next, Due, OthersKept, Escapes, RefusedBy;
      var ok, size := MoveChunk(source, destination, copied, content);
      if !ok {
        return ChunkFailed;
      }
      if size == 0 {
        return EndOfFile;
      }
      var report := Transferring(job.jobId, job.token, copied + size, total);
      conn.Arrive();
      ChunkNext(cfg, conn.phase, size, Due(conn.pending, job));
      conn.NoteChunk(size, job);
      ghost var pending := conn.pending;
      var sent := conn.Send(report);
      if !sent.Delivered? {
        EscapesSending(cfg, conn.phase, report, sent);
        return ChunkEscaped(EscapeOf(sent, report));
      }
      if conn.phase.late {
        DueGrows(pending, conn.pending, job);
      }
      return ChunkCopied(size);
    }

    /** The copy loop of `run_job`, with source and destination open. */
    method CopyChunks(conn: Connection, job: Message, source: FileId, destination: FileId, total: nat,
                      ghost content: seq<byte>)
      returns (end: CopyEnd)
      requires conn.Valid() && conn.cfg == cfg && !conn.Down()
      requires conn.phase.Copying? && conn.phase.job == job && conn.phase.stage == Prepared
      requires conn.phase.copied == 0 && !conn.phase.late && conn.phase.total == total
      requires |content| <= total
      requires source in disk.files && destination in disk.files
      requires disk.files[source] == content && disk.files[destination] == []
      requires source == destination ==> content == []
      requires source != destination ==> |content| == total
      modifies conn, disk`files, disk`refused
      ensures conn.clock >= old(conn.clock)
      ensures conn.Valid() && old(conn.log) <= conn.log
      ensures conn.Down() <==> end.CopyEscaped? && end.why.PipeLost?
      ensures RefusedBy(end, old(disk.refused), disk.refused)
      ensures destination in disk.files && OthersKept(disk.files, old(disk.files), destination)
      ensures end.Done? ==> disk.files[destination] == content
      ensures !end.Changed?
      ensures end.Done? || end.OsError? ==>
                && conn.phase.Copying? && conn.phase.stage != Written && !conn.phase.late
                && conn.phase.job == job && conn.phase.done == old(conn.phase.done) && conn.phase.total == total
      ensures end.Done? ==> conn.phase.copied == |content|
      ensures end.Stopped? ==> conn.phase == Stopping(job, old(conn.phase.done))
      ensures end.CopyEscaped? ==> InJob(conn.phase, job, old(conn.phase.done)) && Escapes(cfg, end.why, conn.phase)
      ensures end.CopyEscaped? ==> disk.files[destination] <= content
      ensures !end.CopyEscaped? ==>
                conn.life < old(conn.life) || (conn.life == old(conn.life) && |conn.buffer| <= |old(conn.buffer)|)
    {
      hide Connection.Valid, Next, Escapes;
      var copied := 0;
      ghost var p := conn.phase;
      while true
        invariant conn.Valid() && !conn.Down() && old(conn.log) <= conn.log && copied <= |content|
        invariant disk.refused == old(disk.refused) && conn.clock >= old(conn.clock)
        invariant conn.phase.Copying? && conn.phase == p.(copied := copied, stage := conn.phase.stage)
        invariant conn.phase.stage != Written
        invariant source in disk.files && disk.files[source] == content
        invariant destination in disk.files && disk.files[destination] == content[..copied]
        invariant OthersKept(disk.files, old(disk.files), destination)
        invariant conn.life < old(conn.life) || (conn.life == old(conn.life) && |conn.buffer| <= |old(conn.buffer)|)
        decreases |content| - copied
      {
        ghost var files := disk.files;
        var r := CopyChunk(conn, job, source, destination, total, copied, content);
        match r {
          case ChunkFailed => return OsError;
          case EndOfFile => return Done;
          case ChunkEscaped(why) => return CopyEscaped(why);
          case ChunkCopied(size) => copied := copied + size;
        }
        if source != destination {
          OtherFile(disk.files, files, destination, source);
        }
        var drained := Drain(conn, job);
        match drained {
          case DrainEscaped(why) => return CopyEscaped(why);
          case CancelSeen => return Stopped;
          case Quiet =>
        }
      }
    }

    /** What the copy of `source` to a file of its own, or onto itself, comes to. */
    ghost function CopyOf(files: Files, source: FileId, destination: FileId): seq<byte>
      requires source in files
    {
      if source == destination then [] else files[source]
    }

    // The steps up to the open files: `Done` if both are open, with the size to copy.
    method OpenFiles(job: Message, source: FileId, destination: FileId) returns (r: CopyEnd, total: nat)
      requires job.targetId.Text? && job.file.File?
      modifies disk`files, disk`refused, disk`open, disk`folders
      ensures if r.Done? then disk.open == old(disk.open) + {source, destination} else disk.open <= old(disk.open)
      ensures disk.folders <= old(disk.folders) + {TargetFolder(cfg, job.targetId.text)}
      ensures !r.OsError? ==> TargetFolder(cfg, job.targetId.text) in disk.folders
      ensures RefusedBy(r, old(disk.refused), disk.refused)
      ensures r.Done? || r.Changed? || r.OsError?
      ensures OthersKept(disk.files, old(disk.files), destination)
      ensures r.Changed? ==> disk.files == old(disk.files)
      ensures r.Changed? ==> source in old(disk.files) && job.file.sizeBytes != Number(|old(disk.files)[source]|)
      ensures r.OsError? && destination in old(disk.files) ==> destination in disk.files
      ensures r.Done? ==>
                && source in old(disk.files) && source in disk.files && destination in disk.files
                && total == |old(disk.files)[source]| && job.file.sizeBytes == Number(total)
                && disk.files[destination] == [] && disk.files[source] == CopyOf(old(disk.files), source, destination)
    {
      total := 0;
      var made := disk.MakeFolder(TargetFolder(cfg, job.targetId.text));
      if !made {
        return OsError, 0;
      }
      var sized;
      sized, total := disk.GetSize(source);
      if !sized {
        return OsError, 0;
      }
      if job.file.sizeBytes != Number(total) {
        return Changed, total;
      }
      var reading := disk.OpenRead(source);
      if !reading {
        return OsError, 0;
      }
      var writing := disk.OpenWrite(destination);
      if !writing {
        disk.Release(source);
      }
      return if writing then Done else OsError, total;
    }

    // Leaves the `with` block: closes the copy, and removes it if the job was cancelled.
    method CloseCopy(source: FileId, destination: FileId, end: CopyEnd) returns (r: CopyEnd)
      requires destination in disk.files
      modifies disk`files, disk`removals, disk`refused, disk`open
      ensures disk.open == old(disk.open) - {source, destination}
      ensures OthersKept(disk.files, old(disk.files), destination)
      ensures r == end || ((end.Done? || end.Stopped?) && r.OsError?)
      ensures r == end && !r.Stopped? ==> disk.files == old(disk.files)
      ensures r.Stopped? <==> destination !in disk.files
      ensures RemovalsBy(r, destination, old(disk.removals), disk.removals)
      ensures old(disk.refused) <= disk.refused && |disk.refused| == |old(disk.refused)| + if r == end then 0 else 1
    {
      disk.Release(source);
      if end.Done? || end.Stopped? {
        var closed := disk.Close(destination);
        if !closed {
          return OsError;
        }
      } else {
        disk.Release(destination);
      }
      if end.Stopped? {
        var removed := disk.Remove(destination);
        if !removed {
          return OsError;
        }
      }
      return end;
    }

    // The `try` block once both files are open: copies, closes them, and removes a stopped copy.
    method CopyOpened(conn: Connection, job: Message, source: FileId, destination: FileId, total: nat,
                      ghost content: seq<byte>)
      returns (end: CopyEnd)
      requires conn.Valid() && conn.cfg == cfg && !conn.Down() && conn.phase.Started? && conn.phase.job == job
      requires GoodJob(cfg, job) && source == SourceFile(cfg, job) && destination == CopyFile(cfg, job)
      requires job.file.sizeBytes == Number(total)
      requires source in disk.files && disk.files[source] == content
      requires destination in disk.files && disk.files[destination] == []
      requires if source == destination then content == [] else |content| == total
      modifies conn, disk`files, disk`removals, disk`refused, disk`open
      ensures conn.clock >= old(conn.clock)
      ensures conn.Valid() && old(conn.log) <= conn.log
      ensures OthersKept(disk.files, old(disk.files), destination)
      ensures RemovalsBy(end, destination, old(disk.removals), disk.removals)
      ensures RefusedBy(end, old(disk.refused), disk.refused)
      ensures disk.open == old(disk.open) - {source, destination}
      ensures conn.Down() <==> end.CopyEscaped? && end.why.PipeLost?
      ensures !end.CopyEscaped? ==> !conn.phase.Aborted?
      ensures !end.CopyEscaped? ==>
                conn.life < old(conn.life) || (conn.life == old(conn.life) && |conn.buffer| <= |old(conn.buffer)|)
      ensures InJob(conn.phase, job, old(conn.phase.done))
      ensures !end.Changed? && (end.Stopped? <==> destination !in disk.files)
      ensures end.Done? ==>
                && disk.files[destination] == content
                && Allows(cfg, conn.phase, Result(job.jobId, job.token, Copied), old(conn.phase.done))
      ensures end.Stopped? ==> conn.phase == Stopping(job, old(conn.phase.done))
      ensures end.OsError? ==>
                Allows(cfg, conn.phase, Result(job.jobId, job.token, Failed("copy_failed")), old(conn.phase.done))
      ensures end.CopyEscaped? ==> Escapes(cfg, end.why, conn.phase) && disk.files[destination] <= content
    {
      hide Connection.Valid, Next, Allows, Destination, Whole, PlainName, OthersKept, HasTarget, InJob;
      hide SourceFile, CopyFile, Escapes, EscapeOf, AtRest, RemovalsBy;
      NoneRemoved(destination, disk.removals);
      AtRestInJob(conn.phase);
      ghost var before := disk.files;
      OthersSame(before, destination);
      AllowsFailed(cfg, Stopping(job, conn.phase.done));
      AfterPreparing(cfg, job, conn.phase.done);
      var sent := conn.Send(Preparing(job.jobId, job.token));
      if !sent.Delivered? {
        EscapesSending(cfg, conn.phase, Preparing(job.jobId, job.token), sent);
        disk.Release(source);
        disk.Release(destination);
        return CopyEscaped(EscapeOf(sent, Preparing(job.jobId, job.token)));
      }
      end := CopyChunks(conn, job, source, destination, total, content);
      if end.Done? {
        WholeIs(cfg, job, total);
        AllowsCopied(cfg, conn.phase);
      }
      if !end.CopyEscaped? {
        AtRestInJob(conn.phase);
        AllowsFailed(cfg, conn.phase);
      }
      ghost var copied := disk.files;
      end := CloseCopy(source, destination, end);
      OthersTwice(disk.files, copied, before, destination);
    }

    /** The `try` block of `run_job`. Closing a file while another exception is on its way out of
        the block is taken to succeed. */
    method TryCopy(conn: Connection, job: Message, source: FileId, destination: FileId) returns (end: CopyEnd)
      requires conn.Valid() && conn.cfg == cfg && !conn.Down() && conn.phase.Started? && conn.phase.job == job
      requires GoodJob(cfg, job) && source == SourceFile(cfg, job) && destination == CopyFile(cfg, job)
      modifies conn, disk
      ensures disk.open <= old(disk.open)
      ensures disk.folders <= old(disk.folders) + {TargetFolder(cfg, job.targetId.text)}
      ensures !end.OsError? ==> TargetFolder(cfg, job.targetId.text) in disk.folders
      ensures conn.clock >= old(conn.clock)
      ensures conn.Valid() && old(conn.log) <= conn.log
      ensures OthersKept(disk.files, old(disk.files), destination)
      ensures RemovalsBy(end, destination, old(disk.removals), disk.removals)
      ensures RefusedBy(end, old(disk.refused), disk.refused)
      ensures conn.Down() <==> end.CopyEscaped? && end.why.PipeLost?
      ensures !end.CopyEscaped? ==> !conn.phase.Aborted?
      ensures !end.CopyEscaped? ==>
                conn.life < old(conn.life) || (conn.life == old(conn.life) && |conn.buffer| <= |old(conn.buffer)|)
      ensures InJob(conn.phase, job, old(conn.phase.done))
      ensures end.Changed? ==> disk.files == old(disk.files) && conn.phase == old(conn.phase)
      ensures end.Changed? ==> source in old(disk.files) && job.file.sizeBytes != Number(|old(disk.files)[source]|)
      ensures end.OsError? && destination in old(disk.files) ==> destination in disk.files
      ensures end.Done? ==>
                && source in old(disk.files) && job.file.sizeBytes == Number(|old(disk.files)[source]|)
                && destination in disk.files && disk.files[destination] == CopyOf(old(disk.files), source, destination)
                && Allows(cfg, conn.phase, Result(job.jobId, job.token, Copied), old(conn.phase.done))
      ensures end.Stopped? ==> destination !in disk.files && conn.phase == Stopping(job, old(conn.phase.done))
      ensures end.OsError? ==>
                Allows(cfg, conn.phase, Result(job.jobId, job.token, Failed("copy_failed")), old(conn.phase.done))
      ensures end.CopyEscaped? ==> Escapes(cfg, end.why, conn.phase)
      ensures end.CopyEscaped? ==>
                && source in old(disk.files) && destination in disk.files
                && disk.files[destination] <= CopyOf(old(disk.files), source, destination)
    {
      hide Connection.Valid, Next, Allows, Destination, PlainName, OthersKept, InJob;
      hide SourceFile, CopyFile, Escapes, AtRest, RemovalsBy;
      NoneRemoved(destination, disk.removals);
      AtRestInJob(conn.phase);
      ghost var before := disk.files;
      OthersSame(before, destination);
      AllowsFailed(cfg, conn.phase);
      var ready, total := OpenFiles(job, source, destination);
      match ready {
        case OsError => return OsError;
        case Changed => return Changed;
        case _ =>
      }
      ghost var emptied := disk.files;
      end := CopyOpened(conn, job, source, destination, total, disk.files[source]);
      OthersTwice(disk.files, emptied, before, destination);
    }

    /** `run_job`: what a job's report says about the files, and what an exception leaves behind. */
    method RunJob(conn: Connection, job: Message) returns (end: JobEnd, ghost run: JobRun)
      requires conn.Valid() && conn.cfg == cfg && !conn.Down() && conn.phase.Started? && conn.phase.job == job
      modifies conn, disk
      ensures disk.open <= old(disk.open)
      ensures disk.folders <=
                old(disk.folders) + if GoodJob(cfg, job) then {TargetFolder(cfg, job.targetId.text)} else {}
      ensures conn.clock >= old(conn.clock)
      ensures conn.Valid() && old(conn.log) <= conn.log
      ensures InJob(conn.phase, job, old(conn.phase.done))
      ensures end.JobEscaped? ==> Escapes(cfg, end.why, conn.phase)
      ensures end.Report? ==> end.o.Result? && Allows(cfg, conn.phase, end.o, old(conn.phase.done))
      ensures GoodJob(cfg, job) && end.Report? && end.o.outcome != Failed("copy_failed") ==>
                TargetFolder(cfg, job.targetId.text) in disk.folders
      ensures end.Report? ==> !conn.phase.Aborted?
      ensures end.Report? ==>
                conn.life < old(conn.life) || (conn.life == old(conn.life) && |conn.buffer| <= |old(conn.buffer)|)
      ensures run.job == job && run.end == end && run.before == old(disk.files) && run.after == disk.files
      ensures disk.removals == old(disk.removals) + run.tried && disk.refused == old(disk.refused) + run.refused
      ensures conn.Down() <==> end.JobEscaped? && end.why.PipeLost?
      ensures JobFiles(cfg, run)
    {
      hide Connection.Valid, Next, JobFiles, Allows, Owes, Escapes;
      if !HasTarget(cfg, job.targetId) || job.file.NoFile? {
        AllowsEarly(cfg, job, conn.phase.done, Failed("bad_job"));
        end := Report(Result(job.jobId, job.token, Failed("bad_job")));
        run := JobRun(job, end, disk.files, disk.files, [], []);
        FilesRefused(cfg, run);
        return;
      }
      var name := job.file.fileName;
      if !job.file.path.Text? || !name.Text? || name.text == "" || BaseName(name.text) != name.text {
        BadName(name);
        AllowsEarly(cfg, job, conn.phase.done, Failed("bad_file"));
        end := Report(Result(job.jobId, job.token, Failed("bad_file")));
        run := JobRun(job, end, disk.files, disk.files, [], []);
        FilesRefused(cfg, run);
        return;
      }
      BaseNameIsPlain(name.text);
      end, run := RunGoodJob(conn, job);
    }

    // The rest of `run_job`, for a job whose target and file name are good.
    method RunGoodJob(conn: Connection, job: Message) returns (end: JobEnd, ghost run: JobRun)
      requires conn.Valid() && conn.cfg == cfg && !conn.Down() && conn.phase.Started? && conn.phase.job == job
      requires GoodJob(cfg, job)
      modifies conn, disk
      ensures disk.open <= old(disk.open)
      ensures disk.folders <= old(disk.folders) + {TargetFolder(cfg, job.targetId.text)}
      ensures conn.clock >= old(conn.clock)
      ensures conn.Valid() && old(conn.log) <= conn.log
      ensures InJob(conn.phase, job, old(conn.phase.done))
      ensures end.JobEscaped? ==> Escapes(cfg, end.why, conn.phase)
      ensures end.Report? ==> end.o.Result? && Allows(cfg, conn.phase, end.o, old(conn.phase.done))
      ensures GoodJob(cfg, job) && end.Report? && end.o.outcome != Failed("copy_failed") ==>
                TargetFolder(cfg, job.targetId.text) in disk.folders
      ensures end.Report? ==> !conn.phase.Aborted?
      ensures end.Report? ==>
                conn.life < old(conn.life) || (conn.life == old(conn.life) && |conn.buffer| <= |old(conn.buffer)|)
      ensures run.job == job && run.end == end && run.before == old(disk.files) && run.after == disk.files
      ensures disk.removals == old(disk.removals) + run.tried && disk.refused == old(disk.refused) + run.refused
      ensures conn.Down() <==> end.JobEscaped? && end.why.PipeLost?
      ensures JobFiles(cfg, run)
    {
      hide Connection.Valid, Next, JobFiles, Allows, Owes, Escapes, GoodJob, Destination, OthersKept;
      ghost var before, removals, refused := disk.files, disk.removals, disk.refused;
      var destination := CopyFile(cfg, job);
      AllowsEarly(cfg, job, conn.phase.done, Failed("file_changed"));
      AllowsCancelled(cfg, job, conn.phase.done);
      var tried := TryCopy(conn, job, SourceFile(cfg, job), destination);
      match tried {
        case Done => end := Report(Result(job.jobId, job.token, Copied));
        case Stopped => end := Report(Result(job.jobId, job.token, Cancelled));
        case Changed => end := Report(Result(job.jobId, job.token, Failed("file_changed")));
        case CopyEscaped(why) => end := JobEscaped(why);
        case OsError =>
          ghost var copied := disk.files;
          var removed := disk.Remove(destination);
          OthersTwice(disk.files, copied, before, destination);
          end := Report(Result(job.jobId, job.token, Failed("copy_failed")));
      }
      run := JobRun(job, end, before, disk.files, disk.removals[|removals|..], disk.refused[|refused|..]);
      assert disk.removals == removals + run.tried && disk.refused == refused + run.refused;
      FilesTried(cfg, run);
    }

    /** `session`: one connection's lifetime. All it shows is in the protocol language; the exit code
        or exception says how it ended; every job it opened was run, and its results are those runs'. */
    method Session(conn: Connection) returns (end: SessionEnd, ghost runs: seq<JobRun>, ghost started: real)
      requires conn.Valid() && conn.cfg == cfg && conn.before == jobsDone && conn.phase == Fresh(jobsDone)
      requires conn.log == [] && conn.quiet == [] && !conn.Down()
      modifies this`jobsDone, conn, disk
      ensures conn.clock >= old(conn.clock)
      ensures conn.Valid() && Accepted(cfg, old(jobsDone), conn.log)
      ensures jobsDone >= old(jobsDone) && EndsWith(cfg, conn.phase, end, old(jobsDone), jobsDone)
      ensures end == Exit(5) && conn.phase.Waiting? ==> conn.clock > old(conn.clock) + cfg.connectTimeout
      ensures old(conn.clock) <= started && (conn.phase.Waiting? ==> Patient(cfg, started, conn.quiet, end))
      ensures conn.Down() <==> end.SessionEscaped? && end.why.PipeLost?
      ensures Truthful(cfg, conn.log, runs, old(disk.files), disk.files, WhyOf(end))
    {
      hide Connection.Valid, After, Next, Truthful, Escapes, Serving;
      conn.Arrive();
      HelloOpens(cfg, jobsDone);
      var sent := conn.Send(Hello);
      NothingYet(cfg, conn.log, disk.files, None);
      started := conn.clock;
      if sent.Delivered? {
        end, runs := Converse(conn);
      } else {
        HelloEnds(cfg, jobsDone, sent);
        end, runs := SessionEscaped(EscapeOf(sent, Hello)), [];
        NothingYet(cfg, conn.log, disk.files, WhyOf(end));
      }
      conn.PhaseIsAfter();
    }

    // The loop of `session`.
    method Converse(conn: Connection) returns (end: SessionEnd, ghost runs: seq<JobRun>)
      requires conn.Valid() && conn.cfg == cfg && !conn.Down() && conn.phase == Serving(false, jobsDone)
      requires Truthful(cfg, conn.log, [], disk.files, disk.files, None) && conn.quiet == []
      modifies this`jobsDone, conn, disk
      ensures conn.Valid() && jobsDone >= old(jobsDone) && EndsWith(cfg, conn.phase, end, old(jobsDone), jobsDone)
      ensures conn.clock >= old(conn.clock)
      ensures end == Exit(5) && conn.phase.Waiting? ==> conn.clock > old(conn.clock) + cfg.connectTimeout
      ensures conn.phase.Waiting? ==> Patient(cfg, old(conn.clock), conn.quiet, end)
      ensures conn.Down() <==> end.SessionEscaped? && end.why.PipeLost?
      ensures Truthful(cfg, conn.log, runs, old(disk.files), disk.files, WhyOf(end))
    {
      hide Connection.Valid, Next, After, Truthful, SentResults, Opened, Served, WithRun, EndsWith, Serving;
      runs := [];
      var acked, started := false, conn.clock;
      while true
        invariant conn.Valid() && !conn.Down() && jobsDone >= old(jobsDone) && conn.phase == Serving(acked, jobsDone)
        invariant Truthful(cfg, conn.log, runs, old(disk.files), disk.files, None)
        invariant started == old(conn.clock) <= conn.clock
        invariant !acked ==> InTime(cfg, started, conn.quiet)
        decreases conn.life, |conn.buffer|
      {
        GarbledEnds(cfg, acked, jobsDone);
        LoopEnds(cfg, acked, old(jobsDone), jobsDone);
        conn.PhaseIsAfter();
        ghost var log, files, before := conn.log, disk.files, jobsDone;
        var r := conn.Receive(0.2);
        match r {
          case Lost =>
            TruthfulMore(cfg, log, runs, old(disk.files), files, Garbled(true), Some(PipeLost(None)));
            return SessionEscaped(PipeLost(None)), runs;
          case Malformed =>
            TruthfulMore(cfg, log, runs, old(disk.files), files, conn.log[|log|], None);
            assert conn.log == log + [conn.log[|log|]];
            return Exit(5), runs;
          case Nothing =>
            if !acked && conn.clock - started > cfg.connectTimeout {
              return Exit(5), runs;
            }
          case Heard(m) =>
            OpensJob(cfg, conn.before, log, acked, jobsDone, m);
            var ended;
            ghost var served;
            acked, ended, served := Handle(conn, acked, m);
            TruthfulServed(cfg, log, conn.log, runs, served, old(disk.files), files, disk.files, EscapeIn(ended));
            runs := WithRun(runs, served);
            if ended.Some? {
              EndsSince(cfg, conn.phase, ended.value, old(jobsDone), before, jobsDone);
              return ended.value, runs;
            }
        }
      }
    }

    // What `session` does with one message.
    method Handle(conn: Connection, acked: bool, m: Message)
      returns (ackedNow: bool, ended: Option<SessionEnd>, ghost served: Option<JobRun>)
      requires conn.Valid() && conn.cfg == cfg && !conn.Down()
      requires conn.phase == Next(cfg, Serving(acked, jobsDone), Got(m))
      modifies this`jobsDone, conn, disk
      ensures conn.clock >= old(conn.clock)
      ensures conn.Valid() && jobsDone >= old(jobsDone)
      ensures ended.None? ==> conn.phase == Serving(ackedNow, jobsDone)
      ensures ended.None? ==>
                conn.life < old(conn.life) || (conn.life == old(conn.life) && |conn.buffer| <= |old(conn.buffer)|)
      ensures ended.Some? ==> EndsWith(cfg, conn.phase, ended.value, old(jobsDone), jobsDone) && ended.value != Exit(5)
      ensures conn.Down() <==> EscapeIn(ended).Some? && EscapeIn(ended).value.PipeLost?
      ensures Served(cfg, served, EscapeIn(ended), old(disk.files), disk.files,
                     SentResults(old(conn.log)), SentResults(conn.log))
      ensures Opened(conn.log) == Opened(old(conn.log))
      ensures if acked then ackedNow && !conn.phase.Waiting? else conn.quiet == old(conn.quiet)
      ensures if acked && m.kind == "job.start" then served.Some? && served.value.job == m else served == None
    {
      hide Connection.Valid, Finished, NextCopying, NextStarted, Answer, Served, SentResults, Opened, Owes;
      hide Escapes, After;
      ackedNow, ended, served := acked, None, None;
      if m.kind == "error" {
        if m.code == Text("protocol_incompatible") {
          ended := Some(Exit(3));
        } else if !acked {
          ended := Some(Exit(2));
        }
      } else if m.kind == "hello.ack" {
        ackedNow := true;
        if cfg.sendUnknownType {
          ResultsMore(conn.log, Sent(FutureThing));
          var thing := conn.Send(FutureThing);
          if !thing.Delivered? {
            EscapesSending(cfg, conn.phase, FutureThing, thing);
            ended := Some(SessionEscaped(EscapeOf(thing, FutureThing)));
          }
        }
      } else if acked && m.kind == "targets.request" {
        ghost var log := conn.log;
        conn.PhaseIsAfter();
        var answered := AnswerTargets(conn, m);
        conn.PhaseIsAfter();
        SameDone(cfg, conn.before, log, conn.log);
        if !answered.Delivered? {
          EscapesSending(cfg, conn.phase, Answer(cfg, m), answered);
          ended := Some(SessionEscaped(EscapeOf(answered, Answer(cfg, m))));
        }
      } else if acked && m.kind == "job.start" {
        var finished, why;
        finished, why, served := ServeJob(conn, m);
        if why.Some? {
          ended := Some(SessionEscaped(why.value));
        } else if finished {
          ended := Some(Exit(0));
        }
        assert EscapeIn(ended) == why;
        return;
      }
      NoneServed(cfg, EscapeIn(ended), disk.files, SentResults(conn.log));
    }

    // The `job.start` branch of `session`: runs the job, reports it and leaves if it was the last.
    method ServeJob(conn: Connection, job: Message)
      returns (finished: bool, why: Option<Escape>, ghost served: Option<JobRun>)
      requires conn.Valid() && conn.cfg == cfg && !conn.Down() && conn.phase == Started(job, jobsDone)
      modifies this`jobsDone, conn, disk
      ensures conn.clock >= old(conn.clock)
      ensures conn.Valid() && conn.phase != Wrong && conn.phase.done <= jobsDone
      ensures !conn.phase.Waiting? && (conn.phase.Closing? ==> !cfg.coalesceGoodbye)
      ensures jobsDone >= old(jobsDone)
      ensures why.None? ==> jobsDone == old(jobsDone) + 1 && finished == Finished(cfg, jobsDone)
      ensures why.None? ==> conn.phase == if finished then Trace.Left(jobsDone) else Ready(jobsDone)
      ensures why.None? && finished && !cfg.coalesceGoodbye ==> conn.clock >= old(conn.clock) + 0.1
      ensures why.None? ==>
                conn.life < old(conn.life) || (conn.life == old(conn.life) && |conn.buffer| <= |old(conn.buffer)|)
      ensures why.Some? ==> Escapes(cfg, why.value, conn.phase) && jobsDone <= conn.phase.done + 1
      ensures conn.Down() <==> why.Some? && why.value.PipeLost?
      ensures Served(cfg, served, why, old(disk.files), disk.files, SentResults(old(conn.log)), SentResults(conn.log))
      ensures served.Some? && served.value.job == job && Opened(conn.log) == Opened(old(conn.log))
    {
      hide Connection.Valid, Next, JobFiles, Escapes, Owes, SentResults, Opened, After;
      why, finished := None, false;
      ghost var log := conn.log;
      conn.PhaseIsAfter();
      var end;
      ghost var run;
      end, run := RunJob(conn, job);
      conn.PhaseIsAfter();
      SameDone(cfg, conn.before, log, conn.log);
      served := Some(run);
      if end.JobEscaped? {
        return false, Some(end.why), served;
      }
      AllowedAtRest(cfg, conn.phase, end.o, jobsDone);
      jobsDone := jobsDone + 1;
      finished := Finished(cfg, jobsDone);
      why := Announce(conn, end.o, finished);
    }

    // Sends a job's report, and `goodbye` with or after it if it was the last job.
    method Announce(conn: Connection, report: Output, finished: bool) returns (why: Option<Escape>)
      requires conn.Valid() && conn.cfg == cfg && !conn.Down() && finished == Finished(cfg, jobsDone) && report.Result?
      requires AtRest(conn.phase) && conn.phase.done + 1 == jobsDone
      requires Next(cfg, conn.phase, Sent(report)) == AfterResult(cfg, jobsDone)
      modifies conn`outbound, conn`broken, conn`inbound, conn`arrived, conn`pending, conn`clock
      modifies conn`log, conn`stamps, conn`phase
      ensures conn.clock >= old(conn.clock)
      ensures conn.Valid() && conn.phase != Wrong && conn.phase.done <= jobsDone
      ensures !conn.phase.Waiting? && (conn.phase.Closing? ==> !cfg.coalesceGoodbye)
      ensures why.None? ==> conn.phase == if finished then Trace.Left(jobsDone) else Ready(jobsDone)
      ensures why.None? && finished && !cfg.coalesceGoodbye ==> conn.clock >= old(conn.clock) + 0.1
      ensures why.Some? ==> Escapes(cfg, why.value, conn.phase) && jobsDone <= conn.phase.done + 1
      ensures conn.Down() <==> why.Some? && why.value.PipeLost?
      ensures SentResults(conn.log) == SentResults(old(conn.log)) + [report]
              || (why.Some? && Untold(Report(report), why.value) && SentResults(conn.log) == SentResults(old(conn.log)))
      ensures Opened(conn.log) == Opened(old(conn.log))
    {
      hide Connection.Valid, After, Next, SentResults, Opened, Encode;
      ClosingLeaves(cfg, jobsDone);
      ghost var log := conn.log;
      ResultsMore(log, Sent(report));
      ResultsMore(log + [Sent(report)], Sent(Goodbye));
      if finished && cfg.coalesceGoodbye {
        AfterTwo(cfg, conn.phase, Sent(report), Sent(Goodbye));
        assert SentEvents([report, Goodbye]) == [Sent(report), Sent(Goodbye)];
        assert log + [Sent(report), Sent(Goodbye)] == log + [Sent(report)] + [Sent(Goodbye)];
        TwoFit(cfg, report, Goodbye);
        var both := conn.SendMany([report, Goodbye]);
        if both.Delivered? {
          return None;
        }
        return Some(EscapeOf(both, if Fits(Encode(cfg, report)) && both.TooBig? then Goodbye else report));
      }
      var reported := conn.Send(report);
      if !reported.Delivered? {
        return Some(EscapeOf(reported, report));
      }
      if finished {
        var left := conn.Send(Goodbye);
        if !left.Delivered? {
          return Some(EscapeOf(left, Goodbye));
        }
        conn.Sleep(0.1);
      }
      return None;
    }
  }
}
