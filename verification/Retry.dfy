/** Opening the pipe with growing delays, and reconnecting after a session has ended. */
module Retries {
  import opened Bytes
  import opened Messages
  import opened Trace
  import opened Language
  import opened Connections
  import opened Disks
  import opened Samples

  function Min(a: real, b: real): real {
    if a <= b then a else b
  }

  /** The delay before attempt `k + 1`: 0.1 s, doubled each time, never more than a second. */
  function Delay(k: nat): (d: real)
    ensures 0.1 <= d <= 1.0
  {
    if k == 0 then 0.1 else Min(Delay(k - 1) * 2.0, 1.0)
  }

  /** All delays before attempt `k`. */
  function TotalDelay(k: nat): (t: real)
    ensures t >= 0.0
  {
    if k == 0 then 0.0 else TotalDelay(k - 1) + Delay(k - 1)
  }

  lemma {:induction false} DelayLevelsOff(k: nat)
    requires k >= 4
    ensures Delay(k) == 1.0
  {
    if k == 4 {
      assert Delay(1) == 0.2 && Delay(2) == 0.4 && Delay(3) == 0.8;
    } else {
      DelayLevelsOff(k - 1);
    }
  }

  /** After four attempts the delays add up to a second and a half, and to one more each time. */
  lemma {:induction false} TotalDelayClosedForm(k: nat)
    ensures k >= 4 ==> TotalDelay(k) == 1.5 + (k - 4) as real
    ensures k < 4 ==> TotalDelay(k) == [0.0, 0.1, 0.3, 0.7][k]
  {
    if k == 4 {
      TotalDelayClosedForm(3);
      assert Delay(3) == 0.8 by {
        assert Delay(1) == 0.2 && Delay(2) == 0.4;
      }
    } else if k > 4 {
      TotalDelayClosedForm(k - 1);
      DelayLevelsOff(k - 1);
    } else if k > 0 {
      TotalDelayClosedForm(k - 1);
      assert Delay(0) == 0.1 && Delay(1) == 0.2 && Delay(2) == 0.4;
    }
  }

  /** The backoff after `k` failed attempts to connect. */
  function Backoff(k: nat): (b: real)
    ensures 0.2 <= b <= 2.0
    ensures k > 0 ==> Backoff(k - 1) <= b
  {
    if k == 0 then 0.2 else Min(Backoff(k - 1) * 2.0, 2.0)
  }

  lemma {:induction false} BackoffLevelsOff(k: nat)
    ensures k >= 4 ==> Backoff(k) == 2.0
    ensures k < 4 ==> Backoff(k) == [0.2, 0.4, 0.8, 1.6][k]
  {
    if k > 0 {
      BackoffLevelsOff(k - 1);
    }
  }

  /** How many of these attempts to connect failed. */
  function Failures(failed: seq<bool>): nat {
    if failed == [] then 0
    else Failures(failed[..|failed| - 1]) + if failed[|failed| - 1] then 1 else 0
  }

  /** The pause after each attempt is set by the failed attempts before it. */
  ghost predicate Paused(failed: seq<bool>, pauses: seq<real>) {
    |pauses| == |failed| && forall k :: 0 <= k < |pauses| ==> pauses[k] == Backoff(Failures(failed[..k]))
  }

  lemma PausedMore(failed: seq<bool>, pauses: seq<real>, f: bool)
    requires Paused(failed, pauses)
    ensures Paused(failed + [f], pauses + [Backoff(Failures(failed))])
    ensures Failures(failed + [f]) == Failures(failed) + if f then 1 else 0
    ensures f ==> Backoff(Failures(failed + [f])) == Min(Backoff(Failures(failed)) * 2.0, 2.0)
  {
    assert (failed + [f])[..|failed|] == failed;
    forall k | 0 <= k < |pauses| ensures (failed + [f])[..k] == failed[..k] {
    }
  }

  function Total(pauses: seq<real>): real {
    if pauses == [] then 0.0 else Total(pauses[..|pauses| - 1]) + pauses[|pauses| - 1]
  }

  lemma TotalMore(pauses: seq<real>, pause: real)
    ensures Total(pauses + [pause]) == Total(pauses) + pause
  {
    assert (pauses + [pause])[..|pauses|] == pauses;
  }

  /** `connect`: a fresh connection, or nothing once the deadline is past. `slept` is what the
      sleeps asked for; the clock shows at least that much. */
  method Connect(cfg: Settings, ghost jobs: nat, clock: real)
    returns (conn: Connection?, now: real, attempts: nat, ghost slept: real)
    ensures now >= clock + slept && attempts > 0
    ensures slept == TotalDelay(attempts - 1)
    ensures slept == 0.0 || slept < cfg.connectTimeout + 1.0
    ensures conn == null ==> now >= clock + cfg.connectTimeout
    ensures conn != null ==> fresh(conn) && conn.Valid() && conn.cfg == cfg && conn.before == jobs
    ensures conn != null ==> conn.buffer == [] && conn.log == [] && conn.phase == Fresh(jobs) && !conn.Down()
    ensures conn != null ==> conn.quiet == [] && conn.clock == now
  {
    var deadline := clock + cfg.connectTimeout;
    var delay := 0.1;
    now, attempts, slept := clock, 0, 0.0;
    while true
      invariant now >= clock + slept
      invariant delay == Delay(attempts) && slept == TotalDelay(attempts)
      invariant attempts == 0 || slept < cfg.connectTimeout + 1.0
      decreases (deadline - now) * 10.0
    {
      var listening: bool, passing: real, life: int := *, *, *;
      attempts := attempts + 1;
      if passing > 0.0 {
        now := now + passing;
      }
      if listening && life >= 0 {
        conn := new Connection(cfg, jobs, now, life);
        return;
      }
      if now >= deadline {
        conn := null;
        return;
      }
      now, slept := now + delay, slept + delay;
      delay := Min(delay * 2.0, 1.0);
    }
  }

  /** How the program ends: an exit code, an exception nothing catches, or not within `steps`. */
  datatype RunEnd = ExitCode(code: nat) | Crashed(why: Escape) | StillRunning

  /** What one session hands to the next: the job count and the files. */
  datatype Standing = Standing(jobs: nat, files: Files)

  /** One session of a run: its record, its jobs and its end. */
  datatype Episode = Episode(
    before: Standing, log: seq<Event>, stamps: seq<seq<byte>>, arrived: seq<byte>, runs: seq<JobRun>, after: Standing,
    end: SessionEnd)

  /** A session after which `run` tries again, if it may: refused with 5, or the pipe was lost. */
  predicate Retried(e: Episode) {
    e.end == Exit(5) || (e.end.SessionEscaped? && e.end.why.PipeLost?)
  }

  /** What `run` makes of the last session. */
  function EndOf(end: SessionEnd): RunEnd {
    match end
    case Exit(code) => ExitCode(code)
    case SessionEscaped(PipeLost(_)) => ExitCode(5)
    case SessionEscaped(why) => Crashed(why)
  }

  predicate LastSent(log: seq<Event>, o: Output) {
    log != [] && log[|log| - 1] == Sent(o)
  }

  lemma LeftSaidGoodbye(cfg: Settings, done: nat, log: seq<Event>)
    ensures After(cfg, Fresh(done), log).Left? ==> LastSent(log, Goodbye)
  {
    if log != [] {
      var p := After(cfg, Fresh(done), log[..|log| - 1]);
      LeftOnlyBy(cfg, p, log[|log| - 1]);
    }
  }

  /** The session kept to the protocol and said with each event what had arrived; its results are
      those of its jobs, and nothing else touched the files. */
  ghost predicate GoodEpisode(cfg: Settings, e: Episode) {
    && Accepted(cfg, e.before.jobs, e.log) && Stamped(cfg, e.log, e.stamps, e.arrived)
    && EndsWith(cfg, After(cfg, Fresh(e.before.jobs), e.log), e.end, e.before.jobs, e.after.jobs)
    && Truthful(cfg, e.log, e.runs, e.before.files, e.after.files, WhyOf(e.end))
  }

  /** The sessions of a run, each beginning where the one before it ended. */
  ghost predicate Chained(cfg: Settings, episodes: seq<Episode>, first: Standing, last: Standing) {
    if episodes == [] then first == last
    else
      var e := episodes[|episodes| - 1];
      e.after == last && GoodEpisode(cfg, e) && Chained(cfg, episodes[..|episodes| - 1], first, e.before)
  }

  lemma ChainedMore(cfg: Settings, episodes: seq<Episode>, first: Standing, e: Episode)
    requires Chained(cfg, episodes, first, e.before) && GoodEpisode(cfg, e)
    ensures Chained(cfg, episodes + [e], first, e.after)
  {
    assert (episodes + [e])[..|episodes|] == episodes;
  }

  lemma NothingChained(cfg: Settings, first: Standing)
    ensures Chained(cfg, [], first, first)
  {
  }

  lemma NothingPaused()
    ensures Paused([], []) && Total([]) == 0.0 && Failures([]) == 0 && Backoff(Failures([])) == 0.2
  {
  }

  /** The results sent over a run. */
  function ResultsOf(episodes: seq<Episode>): nat {
    if episodes == [] then 0
    else ResultsOf(episodes[..|episodes| - 1]) + Results(episodes[|episodes| - 1].log)
  }

  /** Over a whole run: jobs done are results sent, and one more at most for each session. */
  lemma {:induction false} ChainedCounts(cfg: Settings, episodes: seq<Episode>, first: Standing, last: Standing)
    requires Chained(cfg, episodes, first, last)
    ensures first.jobs + ResultsOf(episodes) <= last.jobs <= first.jobs + ResultsOf(episodes) + |episodes|
  {
    hide Stamped, Truthful, Escapes;
    if episodes != [] {
      var e := episodes[|episodes| - 1];
      ChainedCounts(cfg, episodes[..|episodes| - 1], first, e.before);
      CountAt(cfg, e.before.jobs, e.log, |e.log|);
      assert e.log[..|e.log|] == e.log;
    }
  }

  lemma EndOfEpisode(cfg: Settings, e: Episode)
    requires GoodEpisode(cfg, e)
    ensures e.end.Exit? ==> e.end.code in {0, 2, 3, 5}
    ensures e.end == Exit(0) ==> LastSent(e.log, Goodbye) && Finished(cfg, e.after.jobs) && e.after.jobs > e.before.jobs
  {
    hide Stamped, Truthful, Escapes;
    LeftSaidGoodbye(cfg, e.before.jobs, e.log);
  }

  /** How `run` ends after these sessions: as the last one did, unless it would try again after it or
      never got one. */
  predicate EndsAfter(cfg: Settings, episodes: seq<Episode>, end: RunEnd) {
    && (forall k :: 0 <= k < |episodes| - 1 ==> cfg.reconnect && Retried(episodes[k]))
    && if episodes != [] && !(cfg.reconnect && Retried(episodes[|episodes| - 1]))
       then end == EndOf(episodes[|episodes| - 1].end)
       else end == StillRunning || (end == ExitCode(4) && !cfg.reconnect && episodes == [])
  }

  /** What each end of a run means: 0, 2 and 3 are the last session's; 5 is, without reconnecting, for
      a session refused with 5 or a lost pipe; 4 is, without reconnecting, for no session at all. */
  lemma RunEndIsExact(cfg: Settings, episodes: seq<Episode>, first: Standing, last: Standing, end: RunEnd)
    requires Chained(cfg, episodes, first, last) && EndsAfter(cfg, episodes, end)
    ensures end.ExitCode? ==> end.code in (if cfg.reconnect then {0, 2, 3} else {0, 2, 3, 4, 5})
    ensures forall code :: code in {0, 2, 3} ==>
              (end == ExitCode(code) <==> episodes != [] && episodes[|episodes| - 1].end == Exit(code))
    ensures end == ExitCode(5) <==>
              && !cfg.reconnect && episodes != []
              && var session := episodes[|episodes| - 1].end;
                 session == Exit(5) || (session.SessionEscaped? && session.why.PipeLost?)
    ensures end == ExitCode(4) ==> !cfg.reconnect && episodes == []
    ensures end.Crashed? <==> episodes != [] && episodes[|episodes| - 1].end.SessionEscaped?
                              && !episodes[|episodes| - 1].end.why.PipeLost?
    ensures end == ExitCode(0) ==> Finished(cfg, last.jobs) && last.jobs > first.jobs
    ensures end == ExitCode(0) ==> LastSent(episodes[|episodes| - 1].log, Goodbye)
    ensures forall k :: 0 <= k < |episodes| - 1 ==>
              && cfg.reconnect
              && (episodes[k].end == Exit(5) || (episodes[k].end.SessionEscaped? && episodes[k].end.why.PipeLost?))
  {
    hide GoodEpisode, Finished, LastSent;
    if episodes != [] {
      var e := episodes[|episodes| - 1];
      EndOfEpisode(cfg, e);
      ChainedCounts(cfg, episodes[..|episodes| - 1], first, e.before);
    }
  }

  // Holds one session and keeps a record of it.
  method Attend(sample: Sample, conn: Connection) returns (session: SessionEnd, ghost e: Episode)
    requires conn.Valid() && conn.cfg == sample.cfg && conn.before == sample.jobsDone
    requires conn.phase == Fresh(sample.jobsDone) && conn.log == [] && conn.quiet == [] && !conn.Down()
    modifies sample`jobsDone, conn, sample.disk
    ensures GoodEpisode(sample.cfg, e) && e.end == session && conn.clock >= old(conn.clock)
    ensures e.before == old(Standing(sample.jobsDone, sample.disk.files))
    ensures e.after == Standing(sample.jobsDone, sample.disk.files)
    ensures old(sample.jobsDone) <= sample.jobsDone
    ensures session.Exit? ==> session.code in {0, 2, 3, 5}
    ensures session == Exit(0) ==>
              && Finished(sample.cfg, sample.jobsDone) && sample.jobsDone > old(sample.jobsDone)
              && LastSent(e.log, Goodbye)
  {
    hide InputSound, OutputSound, Stamped, EndsWith, Truthful;
    ghost var before, runs := Standing(sample.jobsDone, sample.disk.files), [];
    ghost var started;
    session, runs, started := sample.Session(conn);
    conn.PhaseIsAfter();
    e := Episode(before, conn.log, conn.stamps, conn.arrived, runs, Standing(sample.jobsDone, sample.disk.files),
                 session);
    EndOfEpisode(sample.cfg, e);
  }

  // The loop of `run`.
  method Watch(sample: Sample, clock: real, steps: nat)
    returns (end: RunEnd, now: real, ghost episodes: seq<Episode>, ghost failed: seq<bool>, ghost pauses: seq<real>)
    modifies sample`jobsDone, sample.disk
    ensures Chained(sample.cfg, episodes, old(Standing(sample.jobsDone, sample.disk.files)),
                    Standing(sample.jobsDone, sample.disk.files))
    ensures Paused(failed, pauses) && now >= clock + Total(pauses)
    ensures end == StillRunning ==> |failed| == steps && |episodes| == |failed| - Failures(failed)
    ensures EndsAfter(sample.cfg, episodes, end)
  {
    hide Chained, GoodEpisode, Connection.Valid, Finished, Paused, Failures, Backoff, LastSent, Total;
    ghost var first := Standing(sample.jobsDone, sample.disk.files);
    NothingPaused();
    NothingChained(sample.cfg, first);
    var cfg := sample.cfg;
    var backoff, left := 0.2, steps;
    now := clock;
    episodes, failed, pauses := [], [], [];
    while left > 0
      invariant cfg == sample.cfg && Chained(cfg, episodes, first, Standing(sample.jobsDone, sample.disk.files))
      invariant Paused(failed, pauses) && backoff == Backoff(Failures(failed)) && now >= clock + Total(pauses)
      invariant forall e :: e in episodes ==> Retried(e)
      invariant left >= 0 && |failed| + left == steps && |episodes| == |failed| - Failures(failed)
      invariant left < steps ==> cfg.reconnect
      invariant !cfg.reconnect ==> episodes == []
    {
      left := left - 1;
      var conn, later, attempts, slept := Connect(cfg, sample.jobsDone, now);
      now := later;
      if conn == null {
        if !cfg.reconnect {
          return ExitCode(4), now, episodes, failed, pauses;
        }
        PausedMore(failed, pauses, true);
        TotalMore(pauses, backoff);
        now, failed, pauses := now + backoff, failed + [true], pauses + [backoff];
        backoff := Min(backoff * 2.0, 2.0);
      } else {
        var session, e := Attend(sample, conn);
        ChainedMore(cfg, episodes, first, e);
        episodes := episodes + [e];
        now := conn.clock;
        match session {
          case SessionEscaped(PipeLost(_)) =>
            if !cfg.reconnect {
              return ExitCode(5), now, episodes, failed, pauses;
            }
          case SessionEscaped(why) =>
            return Crashed(why), now, episodes, failed, pauses;
          case Exit(code) =>
            if code == 0 || !cfg.reconnect || code == 2 || code == 3 {
              return ExitCode(code), now, episodes, failed, pauses;
            }
        }
        PausedMore(failed, pauses, false);
        TotalMore(pauses, backoff);
        now, failed, pauses := now + backoff, failed + [false], pauses + [backoff];
      }
    }
    return StillRunning, now, episodes, failed, pauses;
  }

  /** `run`: connects, holds a session, and with `--reconnect` does so again. `steps` bounds how
      many attempts are watched; it is arbitrary. The end is that of the last session, unless `run`
      would try again, or never got a session. */
  method Run(sample: Sample, clock: real, steps: nat)
    returns (end: RunEnd, now: real, ghost episodes: seq<Episode>, ghost failed: seq<bool>, ghost pauses: seq<real>)
    modifies sample`jobsDone, sample.disk
    ensures Chained(sample.cfg, episodes, old(Standing(sample.jobsDone, sample.disk.files)),
                    Standing(sample.jobsDone, sample.disk.files))
    ensures sample.jobsDone >= old(sample.jobsDone)
    ensures Paused(failed, pauses) && now >= clock + Total(pauses)
    ensures end == StillRunning ==> |failed| == steps && |episodes| == |failed| - Failures(failed)
    ensures EndsAfter(sample.cfg, episodes, end)
    ensures end.ExitCode? ==> end.code in (if sample.cfg.reconnect then {0, 2, 3} else {0, 2, 3, 4, 5})
    ensures end.Crashed? <==> episodes != [] && episodes[|episodes| - 1].end.SessionEscaped?
                              && !episodes[|episodes| - 1].end.why.PipeLost?
    ensures end == ExitCode(5) ==> episodes != [] && Retried(episodes[|episodes| - 1])
    ensures end == ExitCode(0) ==> Finished(sample.cfg, sample.jobsDone) && sample.jobsDone > old(sample.jobsDone)
    ensures end == ExitCode(0) ==> LastSent(episodes[|episodes| - 1].log, Goodbye)
  {
    ghost var first := Standing(sample.jobsDone, sample.disk.files);
    end, now, episodes, failed, pauses := Watch(sample, clock, steps);
    RunEndIsExact(sample.cfg, episodes, first, Standing(sample.jobsDone, sample.disk.files), end);
    ChainedCounts(sample.cfg, episodes, first, Standing(sample.jobsDone, sample.disk.files));
  }
}
