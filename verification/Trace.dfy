/**
 * The protocol as a language: which sequences of sending, decoding and copying one session may
 * show. `Next` is the automaton; the lemmas below say what every sequence it accepts has.
 */
module Trace {
  import opened Messages

  const CHUNK: nat := 65536

  datatype Event =
    | Sent(o: Output)
    | Got(m: Message)              // a message was decoded
    | Garbled(consumed: bool)      // a frame was refused: bad payload (consumed) or bad length
    | Chunk(size: nat, late: bool) // bytes were copied; `late`: this job's cancel had wholly arrived

  /** Where a running job stands between two of its messages. */
  datatype Stage = Prepared | Written | Draining

  datatype Phase =
    | Fresh(done: nat)
    | Waiting(done: nat)
    | Announce(done: nat)
    | Ready(done: nat)
    | Owing(request: Message, done: nat)
    | Started(job: Message, done: nat)
    | Copying(job: Message, total: nat, copied: nat, late: bool, stage: Stage, done: nat)
    | OwingInJob(request: Message, job: Message, total: nat, copied: nat, late: bool, done: nat)
    | Stopping(job: Message, done: nat)
    | Closing(done: nat)
    | Left(done: nat)
    | Refused(code: nat, done: nat)
    | Aborted(job: Message, done: nat)
    | Wrong

  function AfterAck(cfg: Settings, done: nat): Phase {
    if cfg.sendUnknownType then Announce(done) else Ready(done)
  }

  function AfterResult(cfg: Settings, done: nat): Phase {
    if Finished(cfg, done) then Closing(done) else Ready(done)
  }

  function NextWaiting(cfg: Settings, done: nat, e: Event): Phase {
    match e
    case Got(m) =>
      if m.kind == "error" then Refused(if m.code == Text("protocol_incompatible") then 3 else 2, done)
      else if m.kind == "hello.ack" then AfterAck(cfg, done)
      else Waiting(done)
    case Garbled(_) => Refused(5, done)
    case _ => Wrong
  }

  function NextReady(cfg: Settings, done: nat, e: Event): Phase {
    match e
    case Got(m) =>
      if m.kind == "error" then
        if m.code == Text("protocol_incompatible") then Refused(3, done) else Ready(done)
      else if m.kind == "hello.ack" then AfterAck(cfg, done)
      else if m.kind == "targets.request" then Owing(m, done)
      else if m.kind == "job.start" then Started(m, done)
      else Ready(done)
    case Garbled(_) => Refused(5, done)
    case _ => Wrong
  }

  predicate EarlyFailure(outcome: Outcome) {
    outcome in {Failed("bad_job"), Failed("bad_file"), Failed("file_changed"), Failed("copy_failed")}
  }

  function NextStarted(cfg: Settings, job: Message, done: nat, e: Event): Phase {
    match e
    case Sent(Preparing(id, token)) =>
      if id == job.jobId && token == job.token && GoodJob(cfg, job)
         && job.file.sizeBytes.Number? && job.file.sizeBytes.number >= 0
      then Copying(job, job.file.sizeBytes.number, 0, false, Prepared, done) else Wrong
    case Sent(Result(id, token, outcome)) =>
      if id == job.jobId && token == job.token && EarlyFailure(outcome)
      then AfterResult(cfg, done + 1) else Wrong
    case _ => Wrong
  }

  /** How much of a job's file is copied when it may report success. */
  function Whole(cfg: Settings, job: Message, total: nat): nat {
    if SelfCopy(cfg, job) then 0 else total
  }

  /** How much is read of `rest` bytes at once. */
  function NextChunk(rest: int): int {
    if CHUNK <= rest then CHUNK else rest
  }

  function NextCopying(cfg: Settings, p: Phase, e: Event): Phase
    requires p.Copying?
  {
    if p.stage == Written then
      if e == Sent(Transferring(p.job.jobId, p.job.token, p.copied, p.total))
      then p.(stage := Draining) else Wrong
    else
      match e
      case Chunk(size, late) =>
        if !p.late && 1 <= size && size == NextChunk(p.total - p.copied)
        then p.(stage := Written, copied := p.copied + size, late := late) else Wrong
      case Sent(Result(id, token, outcome)) =>
        if id == p.job.jobId && token == p.job.token && !p.late
           && (outcome == Failed("copy_failed")
               || (outcome == Copied && p.copied == Whole(cfg, p.job, p.total)))
        then AfterResult(cfg, p.done + 1) else Wrong
      case Got(m) =>
        if p.stage == Prepared then Wrong
        else if Cancels(m, p.job) then Stopping(p.job, p.done)
        else if m.kind == "targets.request" then OwingInJob(m, p.job, p.total, p.copied, p.late, p.done)
        else p
      case Garbled(_) => if p.stage == Prepared then Wrong else Aborted(p.job, p.done)
      case _ => Wrong
  }

  /** One step of the language. */
  function Next(cfg: Settings, p: Phase, e: Event): Phase {
    match p
    case Fresh(done) => if e == Sent(Hello) then Waiting(done) else Wrong
    case Waiting(done) => NextWaiting(cfg, done, e)
    case Announce(done) => if e == Sent(FutureThing) then Ready(done) else Wrong
    case Ready(done) => NextReady(cfg, done, e)
    case Owing(request, done) => if e == Sent(Answer(cfg, request)) then Ready(done) else Wrong
    case Started(job, done) => NextStarted(cfg, job, done, e)
    case Copying(_, _, _, _, _, _) => NextCopying(cfg, p, e)
    case OwingInJob(request, job, total, copied, late, done) =>
      if e == Sent(Answer(cfg, request)) then Copying(job, total, copied, late, Draining, done) else Wrong
    case Stopping(job, done) =>
      if e in {Sent(Result(job.jobId, job.token, Cancelled)),
               Sent(Result(job.jobId, job.token, Failed("copy_failed")))}
      then AfterResult(cfg, done + 1) else Wrong
    case Closing(done) => if e == Sent(Goodbye) then Left(done) else Wrong
    case Left(_) => Wrong
    case Refused(_, _) => Wrong
    case Aborted(_, _) => Wrong
    case Wrong => Wrong
  }

  function After(cfg: Settings, p: Phase, log: seq<Event>): Phase {
    if log == [] then p else Next(cfg, After(cfg, p, log[..|log| - 1]), log[|log| - 1])
  }

  lemma AfterOne(cfg: Settings, p: Phase, log: seq<Event>, e: Event)
    ensures After(cfg, p, log + [e]) == Next(cfg, After(cfg, p, log), e)
  {
    assert (log + [e])[..|log|] == log;
  }

  lemma AfterSingle(cfg: Settings, p: Phase, e: Event)
    ensures After(cfg, p, [e]) == Next(cfg, p, e)
  {
    AfterOne(cfg, p, [], e);
    assert [] + [e] == [e];
  }

  lemma AfterTwo(cfg: Settings, p: Phase, e: Event, f: Event)
    ensures After(cfg, p, [e, f]) == Next(cfg, Next(cfg, p, e), f)
  {
    AfterSingle(cfg, p, e);
    AfterOne(cfg, p, [e], f);
    assert [e] + [f] == [e, f];
  }

  /** What a session that began with `done` jobs behind it may show. */
  predicate Accepted(cfg: Settings, done: nat, log: seq<Event>) {
    After(cfg, Fresh(done), log) != Wrong
  }

  /** Every prefix of an accepted sequence is accepted: the language is a safety property, so it
      also holds of a session that is cut off at any point. */
  lemma {:induction false} PrefixAccepted(cfg: Settings, done: nat, log: seq<Event>, n: nat)
    requires Accepted(cfg, done, log) && n <= |log|
    ensures Accepted(cfg, done, log[..n])
  {
    if n < |log| {
      PrefixAccepted(cfg, done, log[..|log| - 1], n);
      assert log[..|log| - 1][..n] == log[..n];
    } else {
      assert log[..n] == log;
    }
  }
}
