/** What every sequence of the protocol language has, whatever GameHQ sends and whenever it ends. */
module Language {
  import opened Options
  import opened Messages
  import opened Trace

  // -- reading a sequence of events, without the automaton ------------------------------

  predicate IsAck(e: Event) {
    e.Got? && e.m.kind == "hello.ack"
  }

  predicate IsResult(e: Event) {
    e.Sent? && e.o.Result?
  }

  predicate Acked(log: seq<Event>) {
    exists k :: 0 <= k < |log| && IsAck(log[k])
  }

  /** The job that was started and has had no result yet. */
  function Open(log: seq<Event>): Option<Message> {
    if log == [] then None
    else
      var before, e := log[..|log| - 1], log[|log| - 1];
      match e
      case Got(m) => if m.kind == "job.start" && Acked(before) && Open(before) == None then Some(m) else Open(before)
      case Sent(o) => if o.Result? then None else Open(before)
      case _ => Open(before)
  }

  /** Messages about the open job so far. */
  function JobMessages(log: seq<Event>): seq<Output> {
    if log == [] || Open(log) == None then []
    else
      var before, e := log[..|log| - 1], log[|log| - 1];
      if e.Sent? && !e.o.TargetsResult? then JobMessages(before) + [e.o] else JobMessages(before)
  }

  /** Bytes copied for the open job so far. */
  function JobBytes(log: seq<Event>): nat {
    if log == [] || Open(log) == None then 0
    else
      var before, e := log[..|log| - 1], log[|log| - 1];
      if e.Chunk? then JobBytes(before) + e.size else JobBytes(before)
  }

  function Results(log: seq<Event>): nat {
    if log == [] then 0
    else
      var before, e := log[..|log| - 1], log[|log| - 1];
      Results(before) + if e.Sent? && e.o.Result? then 1 else 0
  }

  /** The results themselves. */
  function SentResults(log: seq<Event>): (os: seq<Output>)
    ensures |os| == Results(log)
  {
    if log == [] then []
    else
      var before, e := log[..|log| - 1], log[|log| - 1];
      if e.Sent? && e.o.Result? then SentResults(before) + [e.o] else SentResults(before)
  }

  /** The messages that opened a job. */
  function Opened(log: seq<Event>): seq<Message> {
    if log == [] then []
    else
      var before, e := log[..|log| - 1], log[|log| - 1];
      if e.Got? && e.m.kind == "job.start" && Acked(before) && Open(before) == None then Opened(before) + [e.m]
      else Opened(before)
  }

  lemma {:induction false} RecordsGrow(log: seq<Event>, more: seq<Event>)
    requires log <= more
    ensures SentResults(log) <= SentResults(more) && Opened(log) <= Opened(more)
  {
    if log != more {
      var before := more[..|more| - 1];
      assert log <= before;
      RecordsGrow(log, before);
    } else {
      assert log == more;
    }
  }

  /** Target requests decoded after the acknowledgement. */
  function Requests(log: seq<Event>): seq<Message> {
    if log == [] then []
    else
      var before, e := log[..|log| - 1], log[|log| - 1];
      if e.Got? && e.m.kind == "targets.request" && Acked(before) then Requests(before) + [e.m] else Requests(before)
  }

  function Answers(log: seq<Event>): seq<Output> {
    if log == [] then []
    else
      var before, e := log[..|log| - 1], log[|log| - 1];
      if e.Sent? && e.o.TargetsResult? then Answers(before) + [e.o] else Answers(before)
  }

  function AnswerAll(cfg: Settings, requests: seq<Message>): seq<Output> {
    seq(|requests|, k requires 0 <= k < |requests| => Answer(cfg, requests[k]))
  }

  /** One `preparing`, then `transferring` messages with strictly growing counts up to `copied`. */
  predicate Progress(job: Message, total: nat, copied: int, ms: seq<Output>) {
    ms != [] &&
    var last := ms[|ms| - 1];
    if |ms| == 1 then last == Preparing(job.jobId, job.token)
    else
      && last.Transferring? && last.jobId == job.jobId && last.token == job.token
      && last.total == total && 0 < last.copied <= copied
      && Progress(job, total, last.copied - 1, ms[..|ms| - 1])
  }

  lemma ProgressMore(job: Message, total: nat, copied: nat, ms: seq<Output>)
    requires 0 < copied && Progress(job, total, copied - 1, ms)
    ensures Progress(job, total, copied, ms + [Transferring(job.jobId, job.token, copied, total)])
  {
    assert (ms + [Transferring(job.jobId, job.token, copied, total)])[..|ms|] == ms;
  }

  lemma ProgressStart(job: Message, total: nat)
    ensures Progress(job, total, 0, [Preparing(job.jobId, job.token)])
  {
  }

  lemma ProgressMono(job: Message, total: nat, copied: int, more: int, ms: seq<Output>)
    requires copied <= more && Progress(job, total, copied, ms)
    ensures Progress(job, total, more, ms)
  {
  }

  // -- the link between the automaton and these readings ---------------------------------

  function OpenIn(p: Phase): Option<Message> {
    match p
    case Started(job, _) => Some(job)
    case Copying(job, _, _, _, _, _) => Some(job)
    case OwingInJob(_, job, _, _, _, _) => Some(job)
    case Stopping(job, _) => Some(job)
    case Aborted(job, _) => Some(job)
    case _ => None
  }

  predicate AckedIn(p: Phase) {
    !p.Fresh? && !p.Waiting? && !p.Refused? && !p.Wrong?
  }

  function OwedIn(cfg: Settings, p: Phase): seq<Output> {
    if p.Owing? || p.OwingInJob? then [Answer(cfg, p.request)] else []
  }

  /** A job that got as far as copying: `bytes` of its file are copied and reported. */
  predicate Underway(cfg: Settings, job: Message, reported: int, bytes: nat, ms: seq<Output>) {
    && GoodJob(cfg, job) && job.file.sizeBytes.Number? && bytes <= job.file.sizeBytes.number
    && Progress(job, job.file.sizeBytes.number, reported, ms)
  }

  /** Where the messages about the open job stand. */
  predicate JobIn(cfg: Settings, p: Phase, ms: seq<Output>, bytes: nat) {
    match p
    case Started(_, _) => ms == [] && bytes == 0
    case Copying(job, total, copied, _, stage, _) =>
      && bytes == copied && job.file.File? && job.file.sizeBytes == Number(total)
      && (stage == Written ==> copied > 0)
      && Underway(cfg, job, if stage == Written then copied - 1 else copied, copied, ms)
    case OwingInJob(_, job, total, copied, _, _) =>
      bytes == copied && job.file.File? && job.file.sizeBytes == Number(total) && Underway(cfg, job, copied, copied, ms)
    case Stopping(job, _) => Underway(cfg, job, bytes, bytes, ms)
    case _ => true
  }

  predicate AckInv(log: seq<Event>, p: Phase) {
    && (p.Fresh? <==> log == [])
    && (AckedIn(p) ==> Acked(log)) && (p.Fresh? || p.Waiting? ==> !Acked(log))
    && Open(log) == OpenIn(p)
  }

  predicate AnswerInv(cfg: Settings, log: seq<Event>, p: Phase) {
    AnswerAll(cfg, Requests(log)) == Answers(log) + OwedIn(cfg, p)
  }

  predicate Inv(cfg: Settings, done: nat, log: seq<Event>, p: Phase) {
    && p != Wrong && p.done == done + Results(log)
    && AckInv(log, p)
    && AnswerInv(cfg, log, p)
    && JobIn(cfg, p, JobMessages(log), JobBytes(log))
  }

  lemma AckedMore(log: seq<Event>, e: Event)
    ensures Acked(log + [e]) <==> Acked(log) || IsAck(e)
  {
    var more := log + [e];
    if Acked(log) {
      var k :| 0 <= k < |log| && IsAck(log[k]);
      assert IsAck(more[k]);
    }
    if IsAck(e) {
      assert IsAck(more[|log|]);
    }
    if Acked(more) && !IsAck(e) {
      var k :| 0 <= k < |more| && IsAck(more[k]);
      assert IsAck(log[k]);
    }
  }

  lemma Readings(cfg: Settings, log: seq<Event>, e: Event)
    ensures var more := log + [e];
      && (Open(more) == match e
           case Got(m) => if m.kind == "job.start" && Acked(log) && Open(log) == None then Some(m) else Open(log)
           case Sent(o) => if o.Result? then None else Open(log)
           case _ => Open(log))
      && JobMessages(more) == (if Open(more) == None then []
           else if e.Sent? && !e.o.TargetsResult? then JobMessages(log) + [e.o] else JobMessages(log))
      && JobBytes(more) == (if Open(more) == None then 0
           else if e.Chunk? then JobBytes(log) + e.size else JobBytes(log))
      && Results(more) == Results(log) + (if e.Sent? && e.o.Result? then 1 else 0)
      && Answers(more) == Answers(log) + (if e.Sent? && e.o.TargetsResult? then [e.o] else [])
      && Requests(more) == Requests(log) + (if e.Got? && e.m.kind == "targets.request" && Acked(log) then [e.m] else [])
  {
    assert (log + [e])[..|log|] == log;
  }

  lemma NoJobNoBytes(log: seq<Event>)
    ensures Open(log) == None ==> JobMessages(log) == [] && JobBytes(log) == 0
  {
  }

  lemma AckStep(cfg: Settings, log: seq<Event>, p: Phase, e: Event)
    requires AckInv(log, p) && Next(cfg, p, e) != Wrong
    ensures AckInv(log + [e], Next(cfg, p, e))
  {
    AckedMore(log, e);
    Readings(cfg, log, e);
  }

  lemma AnswerAllMore(cfg: Settings, requests: seq<Message>, m: Message)
    ensures AnswerAll(cfg, requests + [m]) == AnswerAll(cfg, requests) + [Answer(cfg, m)]
  {
  }

  lemma AnswerStep(cfg: Settings, log: seq<Event>, p: Phase, e: Event)
    requires AckInv(log, p) && AnswerInv(cfg, log, p) && Next(cfg, p, e) != Wrong
    ensures AnswerInv(cfg, log + [e], Next(cfg, p, e))
  {
    Readings(cfg, log, e);
    var q := Next(cfg, p, e);
    if e.Got? && e.m.kind == "targets.request" && Acked(log) {
      AnswerAllMore(cfg, Requests(log), e.m);
      assert OwedIn(cfg, p) == [] && OwedIn(cfg, q) == [Answer(cfg, e.m)];
    } else if e.Sent? && e.o.TargetsResult? {
      assert OwedIn(cfg, p) == [e.o] && OwedIn(cfg, q) == [];
    } else {
      assert OwedIn(cfg, p) == [] && OwedIn(cfg, q) == [];
    }
  }

  lemma StartedStep(cfg: Settings, p: Phase, ms: seq<Output>, bytes: nat, e: Event)
    requires p.Started? && JobIn(cfg, p, ms, bytes) && Next(cfg, p, e) != Wrong && !IsResult(e)
    ensures JobIn(cfg, Next(cfg, p, e), ms + [e.o], bytes)
  {
    ProgressStart(p.job, p.job.file.sizeBytes.number);
    assert ms + [e.o] == [Preparing(p.job.jobId, p.job.token)];
  }

  lemma ChunkStep(cfg: Settings, p: Phase, ms: seq<Output>, bytes: nat, e: Event)
    requires p.Copying? && e.Chunk? && JobIn(cfg, p, ms, bytes) && Next(cfg, p, e) != Wrong
    ensures JobIn(cfg, Next(cfg, p, e), ms, bytes + e.size)
  {
    ProgressMono(p.job, p.total, p.copied, p.copied + e.size - 1, ms);
  }

  lemma ReportStep(cfg: Settings, p: Phase, ms: seq<Output>, bytes: nat, e: Event)
    requires p.Copying? && e.Sent? && !IsResult(e) && JobIn(cfg, p, ms, bytes) && Next(cfg, p, e) != Wrong
    ensures !e.o.TargetsResult? && JobIn(cfg, Next(cfg, p, e), ms + [e.o], bytes)
  {
    ProgressMore(p.job, p.total, p.copied, ms);
  }

  lemma HeardStep(cfg: Settings, p: Phase, ms: seq<Output>, bytes: nat, e: Event)
    requires p.Copying? && (e.Got? || e.Garbled?) && JobIn(cfg, p, ms, bytes) && Next(cfg, p, e) != Wrong
    ensures JobIn(cfg, Next(cfg, p, e), ms, bytes)
  {
    var q := Next(cfg, p, e);
    assert p.stage == Draining;
    assert Underway(cfg, p.job, bytes, bytes, ms);
    assert q == p || q.OwingInJob? || q.Stopping? || q.Aborted?;
  }

  lemma OtherStep(cfg: Settings, p: Phase, ms: seq<Output>, bytes: nat, e: Event)
    requires !p.Copying? && (p.Started? ==> IsResult(e)) && JobIn(cfg, p, ms, bytes) && Next(cfg, p, e) != Wrong
    ensures OpenIn(Next(cfg, p, e)) != None && OpenIn(p) != None
            ==> e.Sent? && e.o.TargetsResult? && JobIn(cfg, Next(cfg, p, e), ms, bytes)
    ensures OpenIn(Next(cfg, p, e)) == None || OpenIn(p) == None ==> JobIn(cfg, Next(cfg, p, e), [], 0)
  {
  }

  lemma ResultStep(cfg: Settings, p: Phase, e: Event)
    requires p.Copying? && IsResult(e) && Next(cfg, p, e) != Wrong
    ensures OpenIn(Next(cfg, p, e)) == None && JobIn(cfg, Next(cfg, p, e), [], 0)
  {
  }

  lemma JobStep(cfg: Settings, p: Phase, ms: seq<Output>, bytes: nat, e: Event)
    requires JobIn(cfg, p, ms, bytes) && Next(cfg, p, e) != Wrong
    requires OpenIn(p) == None ==> ms == [] && bytes == 0
    ensures var open := OpenIn(Next(cfg, p, e));
            JobIn(cfg, Next(cfg, p, e),
              if open == None then [] else if e.Sent? && !e.o.TargetsResult? then ms + [e.o] else ms,
              if open == None then 0 else if e.Chunk? then bytes + e.size else bytes)
  {
    if p.Copying? {
      if e.Chunk? {
        ChunkStep(cfg, p, ms, bytes, e);
      } else if IsResult(e) {
        ResultStep(cfg, p, e);
      } else if e.Sent? {
        ReportStep(cfg, p, ms, bytes, e);
      } else {
        HeardStep(cfg, p, ms, bytes, e);
      }
    } else if p.Started? && !IsResult(e) {
      StartedStep(cfg, p, ms, bytes, e);
    } else {
      OtherStep(cfg, p, ms, bytes, e);
    }
  }

  lemma CountStep(cfg: Settings, p: Phase, e: Event)
    requires p != Wrong && Next(cfg, p, e) != Wrong
    ensures Next(cfg, p, e).done == p.done + if e.Sent? && e.o.Result? then 1 else 0
  {
  }

  lemma {:induction false} InvHolds(cfg: Settings, done: nat, log: seq<Event>)
    requires Accepted(cfg, done, log)
    ensures Inv(cfg, done, log, After(cfg, Fresh(done), log))
  {
    if log != [] {
      var before, e := log[..|log| - 1], log[|log| - 1];
      assert log == before + [e];
      InvHolds(cfg, done, before);
      var p := After(cfg, Fresh(done), before);
      AckStep(cfg, before, p, e);
      AnswerStep(cfg, before, p, e);
      Readings(cfg, before, e);
      NoJobNoBytes(before);
      JobStep(cfg, p, JobMessages(before), JobBytes(before), e);
      CountStep(cfg, p, e);
    }
  }

  lemma AckAt(cfg: Settings, done: nat, log: seq<Event>, i: nat)
    requires Accepted(cfg, done, log) && i <= |log|
    ensures AckInv(log[..i], After(cfg, Fresh(done), log[..i]))
    ensures AnswerInv(cfg, log[..i], After(cfg, Fresh(done), log[..i]))
  {
    PrefixAccepted(cfg, done, log, i);
    InvHolds(cfg, done, log[..i]);
  }

  /** The automaton's state in front of event `i`. */
  lemma At(cfg: Settings, done: nat, log: seq<Event>, i: nat) returns (p: Phase)
    requires Accepted(cfg, done, log) && i < |log|
    ensures p == After(cfg, Fresh(done), log[..i]) && AckInv(log[..i], p)
    ensures Next(cfg, p, log[i]) != Wrong && After(cfg, Fresh(done), log[..i + 1]) == Next(cfg, p, log[i])
  {
    p := After(cfg, Fresh(done), log[..i]);
    AckAt(cfg, done, log, i);
    PrefixAccepted(cfg, done, log, i + 1);
    assert log[..i + 1] == log[..i] + [log[i]];
    AfterOne(cfg, Fresh(done), log[..i], log[i]);
  }

  lemma JobAt(cfg: Settings, done: nat, log: seq<Event>, i: nat)
    requires Accepted(cfg, done, log) && i <= |log|
    ensures var p := After(cfg, Fresh(done), log[..i]);
            p != Wrong && JobIn(cfg, p, JobMessages(log[..i]), JobBytes(log[..i])) && p.done == done + Results(log[..i])
  {
    PrefixAccepted(cfg, done, log, i);
    InvHolds(cfg, done, log[..i]);
  }

  // -- what an accepted sequence says ------------------------------------------------------

  /** `hello` comes first and once; nothing else is sent before the acknowledgement. */
  lemma Opening(cfg: Settings, done: nat, log: seq<Event>, i: nat)
    requires Accepted(cfg, done, log) && i < |log|
    ensures i == 0 <==> log[i] == Sent(Hello)
    ensures i > 0 && log[i].Sent? ==> Acked(log[..i])
  {
    var p := At(cfg, done, log, i);
  }

  /** A target request decoded after the acknowledgement is answered by the very next event. */
  lemma AnsweredNext(cfg: Settings, done: nat, log: seq<Event>, i: nat)
    requires Accepted(cfg, done, log) && i + 1 < |log| && Acked(log[..i])
    requires log[i].Got? && log[i].m.kind == "targets.request"
    ensures log[i + 1] == Sent(Answer(cfg, log[i].m))
  {
    var p := At(cfg, done, log, i);
    var q := At(cfg, done, log, i + 1);
  }

  lemma OwedWhenHeard(cfg: Settings, p: Phase, e: Event)
    requires OwedIn(cfg, Next(cfg, p, e)) != []
    ensures e.Got?
  {
  }

  /** No target request is lost, answered twice or answered out of order: the answers are those
      of the requests decoded since the acknowledgement, but for one decoded just now. */
  lemma AnsweredOnce(cfg: Settings, done: nat, log: seq<Event>)
    requires Accepted(cfg, done, log)
    ensures var owed := AnswerAll(cfg, Requests(log));
            Answers(log) == owed || (owed != [] && Answers(log) == owed[..|owed| - 1])
    ensures log != [] && !log[|log| - 1].Got? ==> Answers(log) == AnswerAll(cfg, Requests(log))
  {
    hide Next;
    var p := After(cfg, Fresh(done), log);
    AckAt(cfg, done, log, |log|);
    assert log[..|log|] == log;
    assert Answers(log) + [] == Answers(log);
    if OwedIn(cfg, p) != [] {
      assert (Answers(log) + OwedIn(cfg, p))[..|Answers(log)|] == Answers(log);
      var q := At(cfg, done, log, |log| - 1);
      OwedWhenHeard(cfg, q, log[|log| - 1]);
    }
  }

  /** Each answer carries the id of its request, and lists the configured targets that match its query,
      in their order. */
  lemma AnswersMatch(cfg: Settings, done: nat, log: seq<Event>, k: nat)
    requires Accepted(cfg, done, log) && k < |Answers(log)|
    ensures k < |Requests(log)| && Answers(log)[k].TargetsResult?
    ensures var answer, request := Answers(log)[k], Requests(log)[k];
            && answer.requestId == request.requestId
            && answer.found == Found(cfg, request.query, cfg.targets)
            && forall t :: t in answer.found <==> t in cfg.targets && cfg.matches(request.query, t.name)
  {
    AnsweredOnce(cfg, done, log);
  }

  predicate AboutJob(o: Output) {
    o.Preparing? || o.Transferring? || o.Result?
  }

  lemma EchoIn(cfg: Settings, p: Phase, o: Output)
    requires Next(cfg, p, Sent(o)) != Wrong && AboutJob(o)
    ensures OpenIn(p).Some? && o.jobId == OpenIn(p).value.jobId && o.token == OpenIn(p).value.token
  {
    hide GoodJob;
  }

  /** Every message about a job carries the id and token of the one open job, and a result closes
      it: a job has at most one result, and a message about it never comes after that. */
  lemma JobEcho(cfg: Settings, done: nat, log: seq<Event>, i: nat) returns (job: Message)
    requires Accepted(cfg, done, log) && i < |log| && log[i].Sent? && AboutJob(log[i].o)
    ensures Open(log[..i]) == Some(job)
    ensures log[i].o.jobId == job.jobId && log[i].o.token == job.token
    ensures log[i].o.Result? ==> Open(log[..i + 1]) == None
  {
    hide Next, After, Acked, Accepted;
    var p := At(cfg, done, log, i);
    EchoIn(cfg, p, log[i].o);
    job := OpenIn(p).value;
    assert log[..i + 1][..i] == log[..i];
  }

  /** A decoded `job.start` opens a job exactly if the handshake is done and no job is open; in any
      other case it changes nothing. */
  lemma StartOpens(cfg: Settings, done: nat, log: seq<Event>, i: nat)
    requires Accepted(cfg, done, log) && i < |log| && log[i].Got? && log[i].m.kind == "job.start"
    ensures var p, q := After(cfg, Fresh(done), log[..i]), After(cfg, Fresh(done), log[..i + 1]);
            if Acked(log[..i]) && Open(log[..i]) == None then q.Started? && q.job == log[i].m else q == p && !q.Started?
  {
    var p := At(cfg, done, log, i);
  }

  /** The open job was opened by a `job.start` that came when none was open. */
  lemma {:induction false} OpenedBy(log: seq<Event>) returns (n: nat)
    requires Open(log).Some?
    ensures n < |log| && log[n] == Got(Open(log).value) && log[n].m.kind == "job.start"
    ensures Acked(log[..n]) && Open(log[..n]) == None
  {
    var last := |log| - 1;
    if Open(log[..last]) == None {
      n := last;
    } else {
      n := OpenedBy(log[..last]);
      assert log[..last][..n] == log[..n];
    }
  }

  /** So every message about a job goes back to a `job.start` that found no job open, and one that
      came while another job ran gets no answer of its own. */
  lemma AnsweredStart(cfg: Settings, done: nat, log: seq<Event>, i: nat) returns (n: nat)
    requires Accepted(cfg, done, log) && i < |log| && log[i].Sent? && AboutJob(log[i].o)
    ensures n < i && log[n].Got? && log[n].m.kind == "job.start" && Acked(log[..n]) && Open(log[..n]) == None
    ensures log[i].o.jobId == log[n].m.jobId && log[i].o.token == log[n].m.token
  {
    var job := JobEcho(cfg, done, log, i);
    n := OpenedBy(log[..i]);
    assert log[..i][..n] == log[..n];
  }

  /** From the acknowledgement to the first message about a job. */
  lemma JobBegins(cfg: Settings, ack: Message, job: Message) returns (log: seq<Event>)
    requires ack.kind == "hello.ack" && job.kind == "job.start" && !cfg.sendUnknownType
    requires GoodJob(cfg, job) && job.file.sizeBytes == Number(1)
    ensures log == [Sent(Hello), Got(ack), Got(job), Sent(Preparing(job.jobId, job.token))]
    ensures After(cfg, Fresh(0), log) == Copying(job, 1, 0, false, Prepared, 0)
  {
    hide After, GoodJob;
    var preparing := Sent(Preparing(job.jobId, job.token));
    AfterTwo(cfg, Fresh(0), Sent(Hello), Got(ack));
    AfterOne(cfg, Fresh(0), [Sent(Hello), Got(ack)], Got(job));
    assert Next(cfg, Ready(0), Got(job)) == Started(job, 0);
    log := [Sent(Hello), Got(ack)] + [Got(job)];
    AfterOne(cfg, Fresh(0), log, preparing);
    assert Next(cfg, Started(job, 0), preparing) == Copying(job, 1, 0, false, Prepared, 0);
    log := log + [preparing];
  }

  /** From there to the job's one byte copied and reported. */
  lemma JobCopies(cfg: Settings, ack: Message, job: Message) returns (log: seq<Event>)
    requires ack.kind == "hello.ack" && job.kind == "job.start" && !cfg.sendUnknownType
    requires GoodJob(cfg, job) && job.file.sizeBytes == Number(1)
    ensures log == [Sent(Hello), Got(ack), Got(job), Sent(Preparing(job.jobId, job.token)), Chunk(1, false),
                    Sent(Transferring(job.jobId, job.token, 1, 1))]
    ensures After(cfg, Fresh(0), log) == Copying(job, 1, 1, false, Draining, 0)
  {
    hide After, GoodJob;
    var start := JobBegins(cfg, ack, job);
    var chunk, told := Chunk(1, false), Sent(Transferring(job.jobId, job.token, 1, 1));
    AfterOne(cfg, Fresh(0), start, chunk);
    var written := Copying(job, 1, 1, false, Written, 0);
    assert Next(cfg, Copying(job, 1, 0, false, Prepared, 0), chunk) == written;
    AfterOne(cfg, Fresh(0), start + [chunk], told);
    assert Next(cfg, written, told) == written.(stage := Draining);
    log := start + [chunk] + [told];
  }

  /** A session in which a second `job.start` arrives during a job: it ends with a result for the
      first, is back to waiting for work, and has said nothing about the second. */
  lemma SecondStartIsDropped(cfg: Settings, ack: Message, job: Message, second: Message) returns (log: seq<Event>)
    requires ack.kind == "hello.ack" && job.kind == second.kind == "job.start" && second.jobId != job.jobId
    requires GoodJob(cfg, job) && job.file.sizeBytes == Number(1) && !SelfCopy(cfg, job)
    requires !cfg.sendUnknownType && cfg.exitAfterJobs == 0
    ensures Got(second) in log && After(cfg, Fresh(0), log) == Ready(1)
    ensures forall e :: e in log && e.Sent? && AboutJob(e.o) ==> e.o.jobId == job.jobId
  {
    hide After, GoodJob, SelfCopy;
    var start := JobCopies(cfg, ack, job);
    var result := Sent(Result(job.jobId, job.token, Copied));
    var draining := Copying(job, 1, 1, false, Draining, 0);
    AfterOne(cfg, Fresh(0), start, Got(second));
    assert Next(cfg, draining, Got(second)) == draining;
    AfterOne(cfg, Fresh(0), start + [Got(second)], result);
    assert Next(cfg, draining, result) == Ready(1);
    log := start + [Got(second)] + [result];
    assert log[6] == Got(second);
  }

  /** Every job that was opened has had its one result, but for the open one, which was opened last. */
  lemma {:induction false} OpenCounts(cfg: Settings, done: nat, log: seq<Event>)
    requires Accepted(cfg, done, log)
    ensures |Opened(log)| == Results(log) + if Open(log).Some? then 1 else 0
    ensures Open(log).Some? ==> Opened(log)[|Opened(log)| - 1] == Open(log).value
  {
    if log != [] {
      var last := |log| - 1;
      PrefixAccepted(cfg, done, log, last);
      OpenCounts(cfg, done, log[..last]);
      assert log == log[..last] + [log[last]];
      Readings(cfg, log[..last], log[last]);
      if IsResult(log[last]) {
        var job := JobEcho(cfg, done, log, last);
      }
    }
  }

  /** `preparing` is a job's first message; `transferring` messages follow it, counting up what was
      copied; a result either refuses the job before that or comes after them. */
  lemma JobShape(cfg: Settings, done: nat, log: seq<Event>, i: nat)
    requires Accepted(cfg, done, log) && i < |log| && log[i].Sent? && AboutJob(log[i].o)
    ensures var before := JobMessages(log[..i]);
            match log[i].o
            case Preparing(_, _) => before == []
            case Transferring(_, _, copied, _) => before != [] && copied == JobBytes(log[..i])
            case Result(_, _, outcome) =>
              if before == [] then EarlyFailure(outcome)
              else
                && Open(log[..i]).Some?
                && Underway(cfg, Open(log[..i]).value, JobBytes(log[..i]), JobBytes(log[..i]), before)
  {
    JobAt(cfg, done, log, i);
    var p := At(cfg, done, log, i);
  }

  /** `copied` is reported only when exactly `sizeBytes` bytes were copied. The one exception is a job
      whose file is its own destination: there nothing is copied. A cancel decoded behind the last
      chunk still wins over it. */
  lemma CopiedExactly(cfg: Settings, done: nat, log: seq<Event>, i: nat)
    requires Accepted(cfg, done, log) && i < |log| && log[i].Sent? && log[i].o.Result?
    requires log[i].o.outcome == Copied
    ensures Open(log[..i]).Some?
    ensures var job := Open(log[..i]).value;
            GoodJob(cfg, job) && job.file.sizeBytes.Number? &&
            JobBytes(log[..i]) == if SelfCopy(cfg, job) then 0 else job.file.sizeBytes.number
  {
    JobAt(cfg, done, log, i);
    var p := At(cfg, done, log, i);
  }

  /** `cancelled` directly answers a cancel that names the open job by id and token, and carries both. */
  lemma CancelledExactly(cfg: Settings, done: nat, log: seq<Event>, i: nat)
    requires Accepted(cfg, done, log) && i < |log| && log[i].Sent? && log[i].o.Result?
    requires log[i].o.outcome == Cancelled
    ensures Open(log[..i]).Some? && i > 0 && log[i - 1].Got?
    ensures var m, job, o := log[i - 1].m, Open(log[..i]).value, log[i].o;
            && m.kind == "job.cancel"
            && m.jobId == job.jobId == o.jobId && m.token == job.token == o.token
  {
    var p := At(cfg, done, log, i);
    var q := At(cfg, done, log, i - 1);
  }

  /** Conversely, nothing comes between such a cancel and the result: no message behind it is
      decoded, nothing more is copied. */
  lemma CancelStops(cfg: Settings, done: nat, log: seq<Event>, i: nat)
    requires Accepted(cfg, done, log) && i + 1 < |log| && log[i].Got?
    requires Open(log[..i]).Some? && log[i].m.kind == "job.cancel"
    requires log[i].m.jobId == Open(log[..i]).value.jobId && log[i].m.token == Open(log[..i]).value.token
    ensures log[i + 1].Sent? && log[i + 1].o.Result?
    ensures log[i + 1].o.outcome in {Cancelled, Failed("copy_failed")}
  {
    var p := At(cfg, done, log, i);
    var q := At(cfg, done, log, i + 1);
  }

  /** What is ignored: before the acknowledgement, all but that and errors; with no job open, what is
      none of the four kinds a session knows, a cancel among them; in a job, all but target requests
      and the cancel with this job's id and this job's token. */
  lemma OthersAreIgnored(cfg: Settings, done: nat, log: seq<Event>, i: nat)
    requires Accepted(cfg, done, log) && i < |log| && log[i].Got?
    requires var m, job := log[i].m, Open(log[..i]);
             if job.Some? then
               && m.kind != "targets.request"
               && !(m.kind == "job.cancel" && m.jobId == job.value.jobId && m.token == job.value.token)
             else if Acked(log[..i]) then m.kind !in {"error", "hello.ack", "targets.request", "job.start"}
             else m.kind !in {"error", "hello.ack"}
    ensures After(cfg, Fresh(done), log[..i + 1]) == After(cfg, Fresh(done), log[..i])
  {
    var p := At(cfg, done, log, i);
  }

  /** What an error means while no job is open. */
  lemma ErrorMeans(cfg: Settings, done: nat, log: seq<Event>, i: nat)
    requires Accepted(cfg, done, log) && i < |log| && log[i].Got? && log[i].m.kind == "error" && Open(log[..i]) == None
    ensures var p, q := After(cfg, Fresh(done), log[..i]), After(cfg, Fresh(done), log[..i + 1]);
            if log[i].m.code == Text("protocol_incompatible") then q.Refused? && q.code == 3
            else if !Acked(log[..i]) then q.Refused? && q.code == 2
            else q == p
  {
    var p := At(cfg, done, log, i);
  }

  /** Conversely, a refusal with 2 or 3 is for an error just decoded, with 5 for a bad frame. */
  lemma RefusalMeans(cfg: Settings, done: nat, log: seq<Event>)
    requires Accepted(cfg, done, log) && After(cfg, Fresh(done), log).Refused?
    ensures log != []
    ensures var last, code := log[|log| - 1], After(cfg, Fresh(done), log).code;
            && Open(log[..|log| - 1]) == None
            && code in {2, 3, 5}
            && (code == 5 ==> last.Garbled?)
            && (code != 5 ==> last.Got? && last.m.kind == "error")
  {
    assert log[..|log|] == log;
    if log != [] {
      var p := At(cfg, done, log, |log| - 1);
    }
  }

  /** With the option set, and only then, the unknown message follows directly on every acknowledgement
      decoded outside a job. */
  lemma UnknownFollowsAck(cfg: Settings, done: nat, log: seq<Event>, i: nat)
    requires Accepted(cfg, done, log) && i + 1 < |log|
    ensures log[i + 1] == Sent(FutureThing)
       <==> cfg.sendUnknownType && log[i].Got? && log[i].m.kind == "hello.ack" && Open(log[..i]) == None
  {
    var p := At(cfg, done, log, i);
    var q := At(cfg, done, log, i + 1);
  }

  /** A chunk is 65536 bytes, or what is left of the file's announced size if that is less. */
  lemma ChunkSizes(cfg: Settings, done: nat, log: seq<Event>, i: nat)
    requires Accepted(cfg, done, log) && i < |log| && log[i].Chunk?
    ensures Open(log[..i]).Some?
    ensures var job, copied := Open(log[..i]).value, JobBytes(log[..i]);
            && job.file.File? && job.file.sizeBytes.Number?
            && var rest := job.file.sizeBytes.number - copied;
               0 < rest && log[i].size == if rest < 65536 then rest else 65536
  {
    JobAt(cfg, done, log, i);
    var p := At(cfg, done, log, i);
  }

  /** A phase in which this job's cancel has arrived and a chunk was copied since. */
  predicate LateIn(p: Phase) {
    || (p.Copying? && p.late && p.stage != Prepared) || (p.OwingInJob? && p.late)
    || p.Stopping? || p.Aborted?
  }

  lemma LateNext(cfg: Settings, p: Phase, e: Event)
    requires LateIn(p) && Next(cfg, p, e) != Wrong
    ensures !e.Chunk?
    ensures if IsResult(e) then e.o.outcome in {Cancelled, Failed("copy_failed")} else LateIn(Next(cfg, p, e))
  {
  }

  lemma LateBegins(cfg: Settings, p: Phase, e: Event)
    requires e.Chunk? && e.late && Next(cfg, p, e) != Wrong
    ensures LateIn(Next(cfg, p, e))
  {
  }

  lemma {:induction false} LateStays(cfg: Settings, done: nat, log: seq<Event>, i: nat, j: nat)
    requires Accepted(cfg, done, log) && i < j <= |log| && log[i].Chunk? && log[i].late
    requires forall k :: i < k < j ==> !IsResult(log[k])
    ensures LateIn(After(cfg, Fresh(done), log[..j]))
    decreases j
  {
    hide Next, After, LateIn, AckInv, Accepted;
    var p := At(cfg, done, log, j - 1);
    if j == i + 1 {
      LateBegins(cfg, p, log[i]);
    } else {
      LateStays(cfg, done, log, i, j - 1);
      assert !IsResult(log[j - 1]);
      LateNext(cfg, p, log[j - 1]);
    }
  }

  /** Cancellation is prompt: the chunk being copied while the cancel is already there is the last
      one of the job, and the job does not report success. */
  lemma CancelIsPrompt(cfg: Settings, done: nat, log: seq<Event>, i: nat, j: nat)
    requires Accepted(cfg, done, log) && i < j < |log| && log[i].Chunk? && log[i].late
    requires forall k :: i < k < j ==> !IsResult(log[k])
    ensures !log[j].Chunk? && log[i].size <= CHUNK
    ensures IsResult(log[j]) ==> log[j].o.outcome in {Cancelled, Failed("copy_failed")}
  {
    LateStays(cfg, done, log, i, j);
    var o := At(cfg, done, log, i);
    var p := At(cfg, done, log, j);
    LateNext(cfg, p, log[j]);
  }

  /** A frame that is not a message is the last thing decoded: the session is refused with 5 if no
      job is open, and is left in the middle of the job if one is. */
  lemma GarbledIsLast(cfg: Settings, done: nat, log: seq<Event>, i: nat)
    requires Accepted(cfg, done, log) && i < |log| && log[i].Garbled?
    ensures i + 1 == |log|
    ensures var p := After(cfg, Fresh(done), log);
            if Open(log[..i]) == None then p.Refused? && p.code == 5 else p.Aborted? && Open(log[..i]) == Some(p.job)
  {
    var p := At(cfg, done, log, i);
    if i + 1 < |log| {
      var q := At(cfg, done, log, i + 1);
    }
    assert log[..|log|] == log;
  }

  lemma ClosingNext(cfg: Settings, p: Phase, e: Event)
    requires Next(cfg, p, e) != Wrong
    ensures Next(cfg, p, e).Closing? ==> IsResult(e) && Finished(cfg, Next(cfg, p, e).done)
    ensures IsResult(e) ==> Next(cfg, p, e) == AfterResult(cfg, Next(cfg, p, e).done)
  {
  }

  lemma CountAt(cfg: Settings, done: nat, log: seq<Event>, i: nat)
    requires Accepted(cfg, done, log) && i <= |log|
    ensures After(cfg, Fresh(done), log[..i]) != Wrong
    ensures After(cfg, Fresh(done), log[..i]).done == done + Results(log[..i])
  {
    JobAt(cfg, done, log, i);
  }

  lemma GoodbyeCloses(cfg: Settings, p: Phase, e: Event)
    requires Next(cfg, p, e) != Wrong
    ensures !p.Left? && !p.Refused?
    ensures e == Sent(Goodbye) ==> p.Closing? && Next(cfg, p, e).Left?
    ensures (p.Closing? ==> e == Sent(Goodbye)) && (p.Ready? ==> e != Sent(Goodbye))
  {
  }

  lemma LeftOnlyBy(cfg: Settings, p: Phase, e: Event)
    ensures Next(cfg, p, e).Left? ==> e == Sent(Goodbye)
  {
  }

  /** `goodbye` is the last event, comes directly after the result that made the count, and is
      what follows every such result. */
  lemma GoodbyeIsLast(cfg: Settings, done: nat, log: seq<Event>, i: nat)
    requires Accepted(cfg, done, log) && i < |log| && log[i] == Sent(Goodbye)
    ensures i + 1 == |log| && i > 0 && IsResult(log[i - 1])
    ensures Finished(cfg, done + Results(log[..i]))
  {
    hide Next, After, Acked, Open, Accepted, Results;
    var p := At(cfg, done, log, i);
    GoodbyeCloses(cfg, p, log[i]);
    assert i > 0;
    var q := At(cfg, done, log, i - 1);
    ClosingNext(cfg, q, log[i - 1]);
    CountAt(cfg, done, log, i);
    if i + 1 < |log| {
      var r := At(cfg, done, log, i + 1);
      GoodbyeCloses(cfg, r, log[i + 1]);
    }
  }

  /** A result is followed by `goodbye`, or nothing at all, exactly if it made the count. */
  lemma FinishedLeaves(cfg: Settings, done: nat, log: seq<Event>, i: nat)
    requires Accepted(cfg, done, log) && i + 1 < |log| && IsResult(log[i])
    ensures log[i + 1] == Sent(Goodbye) <==> Finished(cfg, done + Results(log[..i + 1]))
  {
    hide Next, After, Acked, Open, Accepted, Results;
    var p := At(cfg, done, log, i);
    ClosingNext(cfg, p, log[i]);
    CountAt(cfg, done, log, i + 1);
    var q := At(cfg, done, log, i + 1);
    GoodbyeCloses(cfg, q, log[i + 1]);
  }
}
