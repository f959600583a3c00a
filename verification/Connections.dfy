/**
 * One open pipe: framing in both directions over reads and writes of any size.
 *
 * The operating system and GameHQ choose how much each write takes, how much each read gives,
 * which bytes arrive and when, and when the pipe fails. `life` bounds how often the provider can
 * look at the pipe before the peer is gone; it is arbitrary, so every finite run is covered.
 */
module Connections {
  import opened Bytes
  import opened Framing
  import opened Messages
  import opened Trace
  import opened Language

  datatype Received = Nothing | Heard(m: Message) | Malformed | Lost

  datatype SendEnd = Delivered | TooBig | Broken

  const BUFFER_LIMIT: nat := MAX_FRAME + 3 + READ_LIMIT

  /** The bytes one message puts on the wire; none if it does not fit in a frame. */
  function FrameOf(cfg: Settings, o: Output): seq<byte> {
    if Fits(Encode(cfg, o)) then Frame(Encode(cfg, o)) else []
  }

  function Stream(cfg: Settings, os: seq<Output>): seq<byte> {
    if os == [] then [] else Stream(cfg, os[..|os| - 1]) + FrameOf(cfg, os[|os| - 1])
  }

  lemma StreamMore(cfg: Settings, os: seq<Output>, o: Output)
    ensures Stream(cfg, os + [o]) == Stream(cfg, os) + FrameOf(cfg, o)
  {
    assert (os + [o])[..|os|] == os;
  }

  lemma Associates(a: seq<byte>, b: seq<byte>, c: seq<byte>)
    ensures a + (b + c) == (a + b) + c
  {
  }

  function WithInput(items: seq<Item<Message>>, e: Event): seq<Item<Message>> {
    if e.Got? then items + [Good(e.m)] else if e.Garbled? && e.consumed then items + [Bad] else items
  }

  /** What was decoded, and what was sent, in a sequence of events. */
  function Inputs(log: seq<Event>): seq<Item<Message>> {
    if log == [] then [] else WithInput(Inputs(log[..|log| - 1]), log[|log| - 1])
  }

  function WithOutput(os: seq<Output>, e: Event): seq<Output> {
    if e.Sent? then os + [e.o] else os
  }

  function Outputs(log: seq<Event>): seq<Output> {
    if log == [] then [] else WithOutput(Outputs(log[..|log| - 1]), log[|log| - 1])
  }

  lemma LogMore(log: seq<Event>, e: Event)
    ensures Inputs(log + [e]) == WithInput(Inputs(log), e)
    ensures Outputs(log + [e]) == WithOutput(Outputs(log), e)
  {
    assert (log + [e])[..|log|] == log;
  }

  function SentEvents(os: seq<Output>): seq<Event> {
    seq(|os|, k requires 0 <= k < |os| => Sent(os[k]))
  }

  /** This job's cancel is among the messages that have arrived and are not decoded yet. */
  ghost predicate Due(items: seq<Item<Message>>, job: Message) {
    exists k :: 0 <= k < |items| && items[k].Good? && Cancels(items[k].m, job)
  }

  lemma DueGrows(a: seq<Item<Message>>, b: seq<Item<Message>>, job: Message)
    requires a <= b && Due(a, job)
    ensures Due(b, job)
  {
    var k :| 0 <= k < |a| && a[k].Good? && Cancels(a[k].m, job);
    assert b[k] == a[k];
  }

  lemma DueLater(m: Message, items: seq<Item<Message>>, job: Message)
    requires Due([Good(m)] + items, job) && !Cancels(m, job)
    ensures Due(items, job)
  {
    var all := [Good(m)] + items;
    var k :| 0 <= k < |all| && all[k].Good? && Cancels(all[k].m, job);
    assert items[k - 1] == all[k];
  }

  /** Nothing arrived is lost: all of it is decoded, buffered or waiting in the pipe. */
  ghost predicate Accounted(cfg: Settings, arrived: seq<byte>, decoded: seq<Item<Message>>, ahead: seq<byte>) {
    Decode(cfg.parse, arrived) == Before(decoded, Decode(cfg.parse, ahead))
  }

  lemma AccountedMore(cfg: Settings, arrived: seq<byte>, decoded: seq<Item<Message>>, ahead: seq<byte>, more: seq<byte>)
    requires Accounted(cfg, arrived, decoded, ahead)
    ensures Accounted(cfg, arrived + more, decoded, ahead + more)
    ensures Decode(cfg.parse, ahead).items <= Decode(cfg.parse, ahead + more).items
  {
    var d := Decode(cfg.parse, ahead);
    DecodeMore(cfg.parse, arrived, more);
    DecodeMore(cfg.parse, ahead, more);
    if !d.stuck {
      BeforeBefore(decoded, d.items, Decode(cfg.parse, d.rest + more));
    }
  }

  lemma AccountedTaken(cfg: Settings, arrived: seq<byte>, decoded: seq<Item<Message>>, buffer: seq<byte>,
                       inbound: seq<byte>)
    requires Accounted(cfg, arrived, decoded, buffer + inbound) && HoldsFrame(buffer)
    ensures var n := 4 + Announced(buffer);
            var item := Classify(cfg.parse, buffer[4..n]);
            && Accounted(cfg, arrived, decoded + [item], buffer[n..] + inbound)
            && Decode(cfg.parse, buffer + inbound).items == [item] + Decode(cfg.parse, buffer[n..] + inbound).items
  {
    var n := 4 + Announced(buffer);
    var item := Classify(cfg.parse, buffer[4..n]);
    DecodeFirst(cfg.parse, buffer, inbound);
    BeforeBefore(decoded, [item], Decode(cfg.parse, buffer[n..] + inbound));
  }

  /** Everything `Valid` says about the bytes, as a relation between values. */
  ghost predicate InputSound(cfg: Settings, arrived: seq<byte>, log: seq<Event>, ahead: seq<byte>,
                             pending: seq<Item<Message>>) {
    && Accounted(cfg, arrived, Inputs(log), ahead)
    && pending == Decode(cfg.parse, ahead).items
  }

  predicate AllFit(cfg: Settings, os: seq<Output>) {
    forall k :: 0 <= k < |os| ==> Fits(Encode(cfg, os[k]))
  }

  ghost predicate OutputSound(cfg: Settings, log: seq<Event>, outbound: seq<byte>, broken: bool) {
    && AllFit(cfg, Outputs(log))
    && Stream(cfg, Outputs(log)) <= outbound
    && (!broken ==> outbound == Stream(cfg, Outputs(log)))
  }

  /** An event that decodes nothing leaves the input account alone. */
  lemma InputKept(cfg: Settings, arrived: seq<byte>, log: seq<Event>, ahead: seq<byte>, pending: seq<Item<Message>>,
                  e: Event)
    requires InputSound(cfg, arrived, log, ahead, pending)
    requires !e.Got? && !(e.Garbled? && e.consumed)
    ensures InputSound(cfg, arrived, log + [e], ahead, pending)
  {
    LogMore(log, e);
  }

  /** A frame taken off the buffer is the first message pending. */
  lemma InputTaken(cfg: Settings, arrived: seq<byte>, log: seq<Event>, buffer: seq<byte>, inbound: seq<byte>,
                   pending: seq<Item<Message>>)
    returns (item: Item<Message>, later: seq<Item<Message>>)
    requires InputSound(cfg, arrived, log, buffer + inbound, pending) && HoldsFrame(buffer)
    ensures item == Classify(cfg.parse, buffer[4..4 + Announced(buffer)])
    ensures pending == [item] + later
    ensures InputSound(cfg, arrived, log + [if item.Good? then Got(item.m) else Garbled(true)],
                       buffer[4 + Announced(buffer)..] + inbound, later)
  {
    var n := 4 + Announced(buffer);
    item := Classify(cfg.parse, buffer[4..n]);
    later := Decode(cfg.parse, buffer[n..] + inbound).items;
    AccountedTaken(cfg, arrived, Inputs(log), buffer, inbound);
    LogMore(log, if item.Good? then Got(item.m) else Garbled(true));
  }

  lemma InputArrives(cfg: Settings, arrived: seq<byte>, log: seq<Event>, buffer: seq<byte>, inbound: seq<byte>,
                     pending: seq<Item<Message>>, more: seq<byte>) returns (now: seq<Item<Message>>)
    requires InputSound(cfg, arrived, log, buffer + inbound, pending)
    ensures InputSound(cfg, arrived + more, log, buffer + (inbound + more), now) && pending <= now
  {
    AccountedMore(cfg, arrived, Inputs(log), buffer + inbound, more);
    assert buffer + inbound + more == buffer + (inbound + more);
    now := Decode(cfg.parse, buffer + (inbound + more)).items;
  }

  lemma InputArrived(cfg: Settings, arrived: seq<byte>, log: seq<Event>, ahead: seq<byte>, pending: seq<Item<Message>>)
    requires InputSound(cfg, arrived, log, ahead, pending)
    ensures Decode(cfg.parse, arrived).items == Inputs(log) + pending
  {
  }

  lemma OutputKept(cfg: Settings, log: seq<Event>, outbound: seq<byte>, broken: bool, e: Event)
    requires OutputSound(cfg, log, outbound, broken) && !e.Sent?
    ensures OutputSound(cfg, log + [e], outbound, broken)
  {
    LogMore(log, e);
  }

  lemma OutputSentOne(cfg: Settings, log: seq<Event>, outbound: seq<byte>, o: Output)
    requires OutputSound(cfg, log, outbound, false) && Fits(Encode(cfg, o))
    ensures OutputSound(cfg, log + [Sent(o)], outbound + FrameOf(cfg, o), false)
    ensures Inputs(log + [Sent(o)]) == Inputs(log)
  {
    LogMore(log, Sent(o));
    StreamMore(cfg, Outputs(log), o);
  }

  lemma {:induction false} OutputSent(cfg: Settings, log: seq<Event>, outbound: seq<byte>, os: seq<Output>)
    requires OutputSound(cfg, log, outbound, false) && AllFit(cfg, os)
    ensures OutputSound(cfg, log + SentEvents(os), outbound + Stream(cfg, os), false)
    ensures Inputs(log + SentEvents(os)) == Inputs(log)
  {
    hide OutputSound, Inputs;
    if os == [] {
      assert log + SentEvents(os) == log && outbound + Stream(cfg, os) == outbound;
    } else {
      var init, o := os[..|os| - 1], os[|os| - 1];
      OutputSent(cfg, log, outbound, init);
      OutputSentOne(cfg, log + SentEvents(init), outbound + Stream(cfg, init), o);
      assert log + SentEvents(os) == log + SentEvents(init) + [Sent(o)];
      Associates(outbound, Stream(cfg, init), FrameOf(cfg, o));
    }
  }

  lemma InputSent(cfg: Settings, arrived: seq<byte>, log: seq<Event>, ahead: seq<byte>, pending: seq<Item<Message>>,
                  os: seq<Output>)
    requires InputSound(cfg, arrived, log, ahead, pending)
    requires Inputs(log + SentEvents(os)) == Inputs(log)
    ensures InputSound(cfg, arrived, log + SentEvents(os), ahead, pending)
  {
  }

  lemma OutputFailed(cfg: Settings, log: seq<Event>, outbound: seq<byte>, broken: bool, more: seq<byte>)
    requires OutputSound(cfg, log, outbound, broken) && outbound <= more
    ensures OutputSound(cfg, log, more, true)
  {
  }

  lemma {:induction false} AfterMany(cfg: Settings, p: Phase, log: seq<Event>, more: seq<Event>)
    ensures After(cfg, p, log + more) == After(cfg, After(cfg, p, log), more)
  {
    hide Next;
    if more == [] {
      assert log + more == log;
    } else {
      var init := more[..|more| - 1];
      AfterMany(cfg, p, log, init);
      assert log + more == (log + init) + [more[|more| - 1]];
      AfterOne(cfg, p, log + init, more[|more| - 1]);
    }
  }

  /** The payloads of messages that fit. */
  function Payloads(cfg: Settings, os: seq<Output>): seq<Payload>
    requires AllFit(cfg, os)
  {
    seq(|os|, k requires 0 <= k < |os| => Encode(cfg, os[k]))
  }

  /** Sending messages one by one, or several in one write, gives the same stream of frames. */
  lemma {:induction false} StreamIsFrames(cfg: Settings, os: seq<Output>)
    requires AllFit(cfg, os)
    ensures Stream(cfg, os) == Frames(Payloads(cfg, os))
  {
    if os != [] {
      var init, o := os[..|os| - 1], os[|os| - 1];
      StreamIsFrames(cfg, init);
      var last: Payload := Encode(cfg, o);
      assert Payloads(cfg, os) == Payloads(cfg, init) + [last];
      FramesAppend(Payloads(cfg, init), [last]);
      assert Frames([last]) == Frame(last) + Frames([]);
      assert Frames([last]) == Frame(last);
    }
  }

  // -- what had arrived when -------------------------------------------------------------------

  /** A cancel of `job` is among the messages of `stamp`, behind the first `decoded` of them. */
  ghost predicate CancelArrived(cfg: Settings, stamp: seq<byte>, decoded: nat, job: Message) {
    var items := Decode(cfg.parse, stamp).items;
    exists k :: decoded <= k < |items| && items[k].Good? && Cancels(items[k].m, job)
  }

  lemma DueHasArrived(cfg: Settings, arrived: seq<byte>, log: seq<Event>, ahead: seq<byte>,
                      pending: seq<Item<Message>>, job: Message)
    requires InputSound(cfg, arrived, log, ahead, pending)
    ensures Due(pending, job) <==> CancelArrived(cfg, arrived, |Inputs(log)|, job)
  {
    var items, n := Decode(cfg.parse, arrived).items, |Inputs(log)|;
    InputArrived(cfg, arrived, log, ahead, pending);
    if Due(pending, job) {
      var k :| 0 <= k < |pending| && pending[k].Good? && Cancels(pending[k].m, job);
      assert items[n + k] == pending[k];
    }
    if CancelArrived(cfg, arrived, n, job) {
      var k :| n <= k < |items| && items[k].Good? && Cancels(items[k].m, job);
      assert pending[k - n] == items[k];
    }
  }

  /** `stamp` can be what had arrived when event `e` was put on record behind `before`: what is
      decoded has arrived, and a chunk is late exactly if the open job's cancel had arrived. */
  ghost predicate StampFits(cfg: Settings, before: seq<Event>, e: Event, stamp: seq<byte>) {
    && WithInput(Inputs(before), e) <= Decode(cfg.parse, stamp).items
    && (e.Chunk? ==>
          && Open(before).Some?
          && (e.late <==> CancelArrived(cfg, stamp, |Inputs(before)|, Open(before).value)))
  }

  /** Each event carries what had arrived when it was put on record, and that only grew. */
  ghost predicate Stamped(cfg: Settings, log: seq<Event>, stamps: seq<seq<byte>>, arrived: seq<byte>)
    decreases |log|
  {
    && |stamps| == |log|
    && (log != [] ==>
          var last := |log| - 1;
          && stamps[last] <= arrived && StampFits(cfg, log[..last], log[last], stamps[last])
          && Stamped(cfg, log[..last], stamps[..last], stamps[last]))
  }

  lemma StampedMore(cfg: Settings, log: seq<Event>, stamps: seq<seq<byte>>, arrived: seq<byte>, e: Event)
    requires Stamped(cfg, log, stamps, arrived) && StampFits(cfg, log, e, arrived)
    ensures Stamped(cfg, log + [e], stamps + [arrived], arrived)
  {
    assert (log + [e])[..|log|] == log && (stamps + [arrived])[..|log|] == stamps;
  }

  lemma StampedLater(cfg: Settings, log: seq<Event>, stamps: seq<seq<byte>>, arrived: seq<byte>, more: seq<byte>)
    requires Stamped(cfg, log, stamps, arrived)
    ensures Stamped(cfg, log, stamps, arrived + more)
  {
  }

  lemma StampedTaken(cfg: Settings, arrived: seq<byte>, log: seq<Event>, stamps: seq<seq<byte>>, ahead: seq<byte>,
                     pending: seq<Item<Message>>, e: Event)
    requires Stamped(cfg, log, stamps, arrived) && InputSound(cfg, arrived, log + [e], ahead, pending) && !e.Chunk?
    ensures Stamped(cfg, log + [e], stamps + [arrived], arrived)
  {
    hide Stamped;
    LogMore(log, e);
    StampedMore(cfg, log, stamps, arrived, e);
  }

  /** The sending of several messages, all recorded at once. */
  lemma {:induction false} StampedSent(cfg: Settings, log: seq<Event>, stamps: seq<seq<byte>>, arrived: seq<byte>,
                                       os: seq<Output>)
    returns (more: seq<seq<byte>>)
    requires Stamped(cfg, log, stamps, arrived) && Inputs(log) <= Decode(cfg.parse, arrived).items
    ensures Stamped(cfg, log + SentEvents(os), stamps + more, arrived)
    ensures Inputs(log + SentEvents(os)) == Inputs(log)
  {
    hide Stamped, Inputs;
    if os == [] {
      more := [];
      assert log + SentEvents(os) == log && stamps + more == stamps;
    } else {
      var init, o := os[..|os| - 1], os[|os| - 1];
      var some := StampedSent(cfg, log, stamps, arrived, init);
      var sofar := log + SentEvents(init);
      LogMore(sofar, Sent(o));
      StampedMore(cfg, sofar, stamps + some, arrived, Sent(o));
      assert log + SentEvents(os) == sofar + [Sent(o)];
      more := some + [arrived];
      assert stamps + more == stamps + some + [arrived];
    }
  }

  lemma {:induction false} StampedAt(cfg: Settings, log: seq<Event>, stamps: seq<seq<byte>>, arrived: seq<byte>, i: nat)
    requires Stamped(cfg, log, stamps, arrived) && i < |log|
    ensures |stamps| == |log| && StampFits(cfg, log[..i], log[i], stamps[i])
    ensures stamps[i] <= if i + 1 < |log| then stamps[i + 1] else arrived
    decreases |log|
  {
    hide StampFits;
    var last := |log| - 1;
    if i < last {
      StampedAt(cfg, log[..last], stamps[..last], stamps[last], i);
      assert log[..last][..i] == log[..i];
    }
  }

  lemma {:induction false} StampGrows(cfg: Settings, log: seq<Event>, stamps: seq<seq<byte>>, arrived: seq<byte>,
                                      i: nat)
    requires Stamped(cfg, log, stamps, arrived) && i < |log|
    ensures stamps[i] <= arrived
    decreases |log| - i
  {
    StampedAt(cfg, log, stamps, arrived, i);
    if i + 1 < |log| {
      StampGrows(cfg, log, stamps, arrived, i + 1);
    }
  }

  /** More arrived bytes keep every message that was there. */
  lemma DecodeGrows(cfg: Settings, a: seq<byte>, b: seq<byte>)
    requires a <= b
    ensures Decode(cfg.parse, a).items <= Decode(cfg.parse, b).items
  {
    DecodeMore(cfg.parse, a, b[|a|..]);
    assert a + b[|a|..] == b;
  }

  /** One event after which the job is still open, and which did not decode its cancel, leaves the
      cancel waiting. */
  lemma StillDue(cfg: Settings, before: seq<Event>, e: Event, stamp: seq<byte>, next: seq<byte>, job: Message)
    requires CancelArrived(cfg, stamp, |Inputs(before)|, job)
    requires StampFits(cfg, before, e, stamp) && stamp <= next
    requires !(e.Got? && Cancels(e.m, job))
    ensures CancelArrived(cfg, next, |Inputs(before + [e])|, job)
  {
    var items, later := Decode(cfg.parse, stamp).items, Decode(cfg.parse, next).items;
    var k :| |Inputs(before)| <= k < |items| && items[k].Good? && Cancels(items[k].m, job);
    DecodeGrows(cfg, stamp, next);
    LogMore(before, e);
    assert later[k] == items[k];
    if |Inputs(before + [e])| > |Inputs(before)| {
      assert items[|Inputs(before)|] == WithInput(Inputs(before), e)[|Inputs(before)|];
    }
  }

  /** As long as a job goes on copying, a cancel that has arrived goes on waiting to be decoded. */
  lemma {:induction false} CancelWaits(cfg: Settings, done: nat, log: seq<Event>, stamps: seq<seq<byte>>,
                                       arrived: seq<byte>,
                                       i: nat, k: nat, a: nat)
    requires Accepted(cfg, done, log) && Stamped(cfg, log, stamps, arrived)
    requires i <= k <= a < |log| && Open(log[..i]).Some?
    requires CancelArrived(cfg, stamps[i], |Inputs(log[..i])|, Open(log[..i]).value)
    requires (forall n :: i <= n < a ==> !IsResult(log[n])) && log[a].Chunk?
    ensures Open(log[..k]) == Open(log[..i])
    ensures CancelArrived(cfg, stamps[k], |Inputs(log[..k])|, Open(log[..i]).value)
    decreases k
  {
    hide Stamped, StampFits, CancelArrived, Accepted;
    if k > i {
      var j := k - 1;
      CancelWaits(cfg, done, log, stamps, arrived, i, j, a);
      StampedAt(cfg, log, stamps, arrived, j);
      assert log[..k] == log[..j] + [log[j]];
      Readings(cfg, log[..j], log[j]);
      assert !IsResult(log[j]);
      if log[j].Got? && Cancels(log[j].m, Open(log[..i]).value) {
        CancelStops(cfg, done, log, j);
        assert false;
      }
      StillDue(cfg, log[..j], log[j], stamps[j], stamps[k], Open(log[..i]).value);
    }
  }

  /** Cancellation is prompt, counted from the bytes: once the open job's cancel has wholly arrived,
      one more chunk at most is copied before the job's result, and that does not report success. */
  lemma CancelIsHeeded(cfg: Settings, done: nat, log: seq<Event>, stamps: seq<seq<byte>>, arrived: seq<byte>,
                       i: nat, a: nat, b: nat)
    requires Accepted(cfg, done, log) && Stamped(cfg, log, stamps, arrived)
    requires i <= a < b < |log| && Open(log[..i]).Some?
    requires CancelArrived(cfg, stamps[i], |Inputs(log[..i])|, Open(log[..i]).value)
    requires (forall k :: i <= k < b ==> !IsResult(log[k])) && log[a].Chunk?
    ensures !log[b].Chunk? && log[a].size <= CHUNK
    ensures IsResult(log[b]) ==> log[b].o.outcome in {Cancelled, Failed("copy_failed")}
  {
    hide Stamped, CancelArrived, Accepted;
    CancelWaits(cfg, done, log, stamps, arrived, i, a, a);
    StampedAt(cfg, log, stamps, arrived, a);
    CancelIsPrompt(cfg, done, log, a, b);
  }

  class Connection {
    const cfg: Settings
    ghost const before: nat       // jobs done on earlier connections

    var buffer: seq<byte>
    var inbound: seq<byte>        // arrived in the pipe, not read
    var outbound: seq<byte>       // taken by the operating system
    var clock: real
    var life: nat
    var broken: bool              // a write has failed
    ghost var gone: bool          // the pipe was found closed, or a read failed

    ghost var arrived: seq<byte>  // everything that ever arrived
    ghost var pending: seq<Item<Message>>  // what has wholly arrived and is not decoded yet
    ghost var log: seq<Event>
    ghost var stamps: seq<seq<byte>>       // what had arrived at each event
    ghost var phase: Phase
    ghost var readCount: nat
    ghost var quiet: seq<real>             // the clock each time `receive` found nothing

    ghost predicate Valid()
      reads this
    {
      && |buffer| <= BUFFER_LIMIT
      && phase == After(cfg, Fresh(before), log)
      && InputSound(cfg, arrived, log, buffer + inbound, pending)
      && OutputSound(cfg, log, outbound, broken)
      && Stamped(cfg, log, stamps, arrived)
    }

    /** The pipe has failed. */
    ghost predicate Down()
      reads this
    {
      broken || gone
    }

    constructor (cfg: Settings, ghost before: nat, clock: real, life: nat)
      ensures Valid() && this.cfg == cfg && this.before == before && this.clock == clock && this.life == life
      ensures buffer == [] && log == [] && phase == Fresh(before) && !Down() && quiet == []
    {
      this.cfg, this.before, this.clock, this.life := cfg, before, clock, life;
      buffer, inbound, outbound, broken := [], [], [], false;
      arrived, pending, log, stamps, phase, readCount := [], [], [], [], Fresh(before), 0;
      gone, quiet := false, [];
    }

    /** Time passes and bytes may arrive. */
    method Arrive()
      requires Valid()
      modifies this`inbound, this`arrived, this`pending, this`clock
      ensures Valid() && clock >= old(clock)
      ensures old(pending) <= pending
      ensures old(inbound) <= inbound
    {
      hide InputSound, OutputSound, Stamped, After;
      var more: seq<byte> := *;
      var delay: real := *;
      ghost var now := InputArrives(cfg, arrived, log, buffer, inbound, pending, more);
      StampedLater(cfg, log, stamps, arrived, more);
      inbound, arrived, pending := inbound + more, arrived + more, now;
      if delay > 0.0 {
        clock := clock + delay;
      }
    }

    /** `time.sleep`: at least as long as asked for. */
    method Sleep(duration: real)
      requires Valid()
      modifies this`inbound, this`arrived, this`pending, this`clock
      ensures Valid() && clock >= old(clock) + duration && clock >= old(clock)
      ensures old(pending) <= pending
    {
      Arrive();
      if duration > 0.0 {
        clock := clock + duration;
      }
    }

    /** Part of the open job's file was copied. */
    ghost method NoteChunk(size: nat, job: Message)
      requires Valid() && phase.Copying? && phase.job == job
      modifies this`log, this`stamps, this`phase
      ensures Valid() && log == old(log) + [Chunk(size, Due(pending, job))]
      ensures phase == Next(cfg, old(phase), Chunk(size, Due(pending, job)))
    {
      hide InputSound, OutputSound, Stamped, After, Next;
      AckAt(cfg, before, log, |log|);
      assert log[..|log|] == log;
      DueHasArrived(cfg, arrived, log, buffer + inbound, pending, job);
      Note(Chunk(size, Due(pending, job)));
    }

    // Puts on record an event that leaves the bytes alone.
    ghost method Note(e: Event)
      requires Valid() && !e.Got? && !(e.Garbled? && e.consumed) && !e.Sent?
      requires e.Chunk? ==> Open(log).Some? && (e.late <==> CancelArrived(cfg, arrived, |Inputs(log)|, Open(log).value))
      modifies this`log, this`stamps, this`phase
      ensures Valid() && log == old(log) + [e] && phase == Next(cfg, old(phase), e)
    {
      hide InputSound, OutputSound, Stamped, After, Next;
      InputArrived(cfg, arrived, log, buffer + inbound, pending);
      StampedMore(cfg, log, stamps, arrived, e);
      InputKept(cfg, arrived, log, buffer + inbound, pending, e);
      OutputKept(cfg, log, outbound, broken, e);
      AfterOne(cfg, Fresh(before), log, e);
      log, stamps, phase := log + [e], stamps + [arrived], Next(cfg, phase, e);
    }

    // Puts on record that nothing was there to receive.
    ghost method NoteQuiet()
      requires Valid()
      modifies this`quiet
      ensures Valid() && quiet == old(quiet) + [clock]
    {
      quiet := quiet + [clock];
    }

    /** `PeekNamedPipe`. */
    method Available() returns (open: bool, waiting: nat)
      requires Valid()
      modifies this`inbound, this`arrived, this`pending, this`clock, this`life, this`gone
      ensures Valid() && clock >= old(clock) && life <= old(life)
      ensures gone <==> old(gone) || !open
      ensures old(pending) <= pending
      ensures open ==> life < old(life) && waiting == |inbound|
    {
      open, waiting := *, 0;
      if life == 0 || !open {
        open, gone := false, true;
        return;
      }
      life := life - 1;
      Arrive();
      waiting := |inbound|;
    }

    /** One read of what is waiting, `limit` bytes of it at most: any number of them, or a failure. */
    method ReadSome(waiting: nat) returns (ok: bool, ghost limit: nat)
      requires Valid() && 1 <= waiting <= |inbound| && |buffer| <= MAX_FRAME + 3
      modifies this`buffer, this`inbound, this`readCount, this`gone
      ensures Valid() && readCount <= old(readCount) + 1
      ensures gone <==> old(gone) || !ok
      ensures limit == if waiting < 65536 then waiting else 65536
      ensures ok ==> |old(buffer)| + 1 <= |buffer| <= |old(buffer)| + limit
      ensures !ok ==> buffer == old(buffer) && readCount == old(readCount)
    {
      hide InputSound, OutputSound, Stamped, After, Next;
      var most := if waiting < READ_LIMIT then waiting else READ_LIMIT;
      ok, limit := *, most;
      if !ok {
        gone := true;
        return;
      }
      var n: int := *;
      if n < 1 || n > most {
        n := most;
      }
      assert inbound == inbound[..n] + inbound[n..];
      assert buffer + inbound == (buffer + inbound[..n]) + inbound[n..];
      buffer, inbound, readCount := buffer + inbound[..n], inbound[n..], readCount + 1;
    }

    /** `_take_frame`. A bad length leaves the buffer alone; a bad payload is taken off it first. */
    method TakeFrame() returns (t: Take<Message>)
      requires Valid()
      modifies this`buffer, this`pending, this`log, this`stamps, this`phase
      ensures Valid() && t == TakeFrom(cfg.parse, old(buffer))
      ensures t.Taken? || t.BadPayload? ==> buffer == t.rest && |buffer| < |old(buffer)|
      ensures t.Incomplete? || t.BadLength? ==> buffer == old(buffer) && pending == old(pending)
      ensures t.Taken? ==> log == old(log) + [Got(t.m)] && phase == Next(cfg, old(phase), Got(t.m))
      ensures t.Taken? ==> old(pending) == [Good(t.m)] + pending
      ensures t.BadPayload? ==> log == old(log) + [Garbled(true)] && phase == Next(cfg, old(phase), Garbled(true))
      ensures t.BadLength? ==> log == old(log) + [Garbled(false)] && phase == Next(cfg, old(phase), Garbled(false))
      ensures t.Incomplete? ==> log == old(log) && phase == old(phase)
    {
      hide InputSound, OutputSound, Stamped, After, Next;
      if |buffer| < 4 {
        return Incomplete;
      }
      var length := Announced(buffer);
      if length == 0 || length > MAX_FRAME {
        Note(Garbled(false));
        return BadLength;
      }
      if |buffer| < 4 + length {
        return Incomplete;
      }
      var payload, rest := buffer[4..4 + length], buffer[4 + length..];
      var message := Parse(cfg, payload);
      ghost var e := if message.Some? then Got(message.value) else Garbled(true);
      ghost var item, later := InputTaken(cfg, arrived, log, buffer, inbound, pending);
      OutputKept(cfg, log, outbound, broken, e);
      AfterOne(cfg, Fresh(before), log, e);
      StampedTaken(cfg, arrived, log, stamps, rest + inbound, later, e);
      buffer, pending, log, stamps, phase := rest, later, log + [e], stamps + [arrived], Next(cfg, phase, e);
      return match message case Some(m) => Taken(m, rest) case None => BadPayload(rest);
    }

    /** `receive`: the next message, or nothing once `timeout` has passed. The measure is what is
        missing of a whole frame, then the time to the deadline. */
    method Receive(timeout: real) returns (r: Received)
      requires Valid()
      modifies this`buffer, this`inbound, this`arrived, this`pending, this`clock, this`life, this`log
      modifies this`stamps, this`phase, this`readCount, this`gone, this`quiet
      ensures Valid() && life <= old(life) && clock >= old(clock)
      ensures readCount <= old(readCount) + MAX_FRAME + 4
      ensures gone <==> old(gone) || r.Lost?
      ensures quiet == if r.Nothing? then old(quiet) + [clock] else old(quiet)
      ensures r.Heard? ==> log == old(log) + [Got(r.m)] && phase == Next(cfg, old(phase), Got(r.m))
      ensures r.Heard? ==> old(pending) <= [Good(r.m)] + pending
      ensures r.Heard? ==> life < old(life) || |buffer| < |old(buffer)|
      ensures r.Malformed? ==> exists consumed ::
                log == old(log) + [Garbled(consumed)] && phase == Next(cfg, old(phase), Garbled(consumed))
      ensures r.Nothing? || r.Lost? ==> log == old(log) && phase == old(phase)
      ensures r.Nothing? ==> old(pending) == pending == [] && inbound == [] && life < old(life)
      ensures r.Nothing? ==> TakeFrom(cfg.parse, buffer).Incomplete? && clock >= old(clock) + timeout
    {
      hide Next, Valid;
      var deadline := clock + timeout;
      while true
        invariant Valid() && log == old(log) && phase == old(phase) && gone == old(gone)
        invariant quiet == old(quiet)
        invariant old(pending) <= pending
        invariant life <= old(life) && clock >= old(clock)
        invariant life == old(life) ==> buffer == old(buffer)
        invariant readCount + |old(buffer)| <= old(readCount) + |buffer|
        invariant readCount <= old(readCount) + MAX_FRAME + 4
        decreases MAX_FRAME + 4 - |buffer|, (deadline - clock) * 200.0
      {
        var t := TakeFrame();
        match t {
          case Taken(m, _) => return Heard(m);
          case BadPayload(_) => return Malformed;
          case BadLength => return Malformed;
          case Incomplete =>
        }
        IncompleteIsShort(cfg.parse, buffer);
        var open, waiting := Available();
        if !open {
          return Lost;
        }
        if waiting > 0 {
          var ok;
          ghost var limit;
          ok, limit := ReadSome(waiting);
          if !ok {
            return Lost;
          }
        } else {
          if clock >= deadline {
            NothingAhead();
            NoteQuiet();
            return Nothing;
          }
          Sleep(0.005);
        }
      }
    }

    /** `_write_all`: hands over all of `data` in pieces of any size, or fails after some of it. `asked`
        is how much each write was given, and from where on: everything left, or in fragmented mode
        between one and seven bytes of it. */
    method WriteAll(data: seq<byte>) returns (ok: bool, ghost asked: seq<(nat, nat)>)
      modifies this`outbound
      ensures ok ==> outbound == old(outbound) + data
      ensures !ok ==> old(outbound) <= outbound && outbound <= old(outbound) + data
      ensures forall a :: a in asked ==> a.0 < |data|
      ensures forall a :: a in asked && !cfg.fragmentWrites ==> a.1 == |data| - a.0
      ensures forall a :: a in asked && cfg.fragmentWrites ==>
                a.1 == if 1 + a.0 % 7 < |data| - a.0 then 1 + a.0 % 7 else |data| - a.0
    {
      var view := data;
      asked := [];
      while view != []
        invariant |view| <= |data| && view == data[|data| - |view|..]
        invariant outbound == old(outbound) + data[..|data| - |view|]
        invariant forall a :: a in asked ==> a.0 < |data|
        invariant forall a :: a in asked && !cfg.fragmentWrites ==> a.1 == |data| - a.0
        invariant forall a :: a in asked && cfg.fragmentWrites ==>
                    a.1 == if 1 + a.0 % 7 < |data| - a.0 then 1 + a.0 % 7 else |data| - a.0
        decreases |view|
      {
        var limit := |view|;
        if cfg.fragmentWrites {
          var step := 1 + (|data| - |view|) % 7;
          limit := if step < |view| then step else |view|;
        }
        asked := asked + [(|data| - |view|, limit)];
        var fine: bool, written: int := *, *;
        if written < 1 || written > limit {
          written := limit;
        }
        if !fine {
          return false, asked;
        }
        outbound, view := outbound + view[..written], view[written..];
      }
      return true, asked;
    }

    /** `send`: one frame, or none of it counts as sent. */
    method Send(o: Output) returns (r: SendEnd)
      requires Valid()
      modifies this`outbound, this`broken, this`inbound, this`arrived, this`pending, this`clock
      modifies this`log, this`stamps, this`phase
      ensures Valid() && clock >= old(clock)
      ensures old(pending) <= pending
      ensures r.Delivered? ==> log == old(log) + [Sent(o)] && phase == Next(cfg, old(phase), Sent(o))
      ensures !r.Delivered? ==> log == old(log) && phase == old(phase)
      ensures r.TooBig? <==> !Fits(Encode(cfg, o))
      ensures broken <==> old(broken) || r.Broken?
    {
      hide InputSound, OutputSound, Stamped, After, Next;
      if !Fits(Encode(cfg, o)) {
        return TooBig;
      }
      var ok := SendFrames(Frame(Encode(cfg, o)), [o]);
      assert SentEvents([o]) == [Sent(o)];
      AfterSingle(cfg, old(phase), Sent(o));
      return if ok then Delivered else Broken;
    }

    // Writes the frames of `os` and puts them on record if all of it was taken.
    method SendFrames(data: seq<byte>, ghost os: seq<Output>) returns (ok: bool)
      requires Valid() && data == Stream(cfg, os) && AllFit(cfg, os)
      modifies this`outbound, this`broken, this`inbound, this`arrived, this`pending, this`clock
      modifies this`log, this`stamps, this`phase
      ensures Valid() && clock >= old(clock)
      ensures old(pending) <= pending
      ensures ok ==> log == old(log) + SentEvents(os) && phase == After(cfg, old(phase), SentEvents(os))
      ensures !ok ==> log == old(log) && phase == old(phase)
      ensures broken <==> old(broken) || !ok
    {
      hide InputSound, OutputSound, Stamped, Next, After, Stream;
      if broken {
        return false;
      }
      ghost var start := outbound;
      ghost var asked;
      ok, asked := WriteAll(data);
      if ok {
        OutputSent(cfg, log, start, os);
        InputSent(cfg, arrived, log, buffer + inbound, pending, os);
        AfterMany(cfg, Fresh(before), log, SentEvents(os));
        InputArrived(cfg, arrived, log, buffer + inbound, pending);
        ghost var more := StampedSent(cfg, log, stamps, arrived, os);
        log, stamps, phase := log + SentEvents(os), stamps + more, After(cfg, phase, SentEvents(os));
        Arrive();
      } else {
        OutputFailed(cfg, log, start, false, outbound);
        broken := true;
      }
    }

    /** `send_many`: several frames in one write. The stream is that of sending them one by one. */
    method SendMany(os: seq<Output>) returns (r: SendEnd)
      requires Valid()
      modifies this`outbound, this`broken, this`inbound, this`arrived, this`pending, this`clock
      modifies this`log, this`stamps, this`phase
      ensures Valid() && clock >= old(clock)
      ensures r.Delivered? ==> log == old(log) + SentEvents(os) && phase == After(cfg, old(phase), SentEvents(os))
      ensures !r.Delivered? ==> log == old(log) && phase == old(phase)
      ensures r.TooBig? <==> !AllFit(cfg, os)
      ensures broken <==> old(broken) || r.Broken?
    {
      hide InputSound, OutputSound, Stamped, After, Next;
      var data, i := [], 0;
      while i < |os|
        modifies {}
        invariant i <= |os| && data == Stream(cfg, os[..i])
        invariant AllFit(cfg, os[..i])
      {
        var payload := Encode(cfg, os[i]);
        assert os[..i + 1] == os[..i] + [os[i]];
        if !Fits(payload) {
          return TooBig;
        }
        StreamMore(cfg, os[..i], os[i]);
        data, i := data + Frame(payload), i + 1;
      }
      assert os[..i] == os;
      var ok := SendFrames(data, os);
      return if ok then Delivered else Broken;
    }

    lemma PhaseIsAfter()
      requires Valid()
      ensures phase == After(cfg, Fresh(before), log)
    {
    }

    lemma NothingAhead()
      requires Valid() && TakeFrom(cfg.parse, buffer) == Incomplete && inbound == []
      ensures pending == []
    {
      assert buffer + inbound == buffer;
    }

    /** The session's record and the bytes agree, whatever was written and read in between: what it
        decoded is what arrived first, and the rest of what wholly arrived is still pending. */
    lemma HeardWhatArrived()
      requires Valid()
      ensures Decode(cfg.parse, arrived).items == Inputs(log) + pending
      ensures |buffer| <= 131075
    {
    }

    /** What `CancelIsHeeded` says, for what this connection has put on record. */
    lemma AtMostOneChunkAfterCancel(i: nat, a: nat, b: nat)
      requires Valid() && phase != Wrong && i <= a < b < |log| && Open(log[..i]).Some?
      requires |stamps| == |log| && CancelArrived(cfg, stamps[i], |Inputs(log[..i])|, Open(log[..i]).value)
      requires (forall k :: i <= k < b ==> !IsResult(log[k])) && log[a].Chunk?
      ensures !log[b].Chunk? && log[a].size <= CHUNK && stamps[i] <= arrived
      ensures IsResult(log[b]) ==> log[b].o.outcome in {Cancelled, Failed("copy_failed")}
    {
      CancelIsHeeded(cfg, before, log, stamps, arrived, i, a, b);
      StampGrows(cfg, log, stamps, arrived, i);
    }

    /** GameHQ, taking frames off what was written, gets the payloads of what the session sent, in
        order, and nothing else while no write has failed. */
    lemma PeerGetsWhatWasSent()
      requires Valid()
      ensures AllFit(cfg, Outputs(log))
      ensures Frames(Payloads(cfg, Outputs(log))) <= outbound
      ensures !broken ==> outbound == Frames(Payloads(cfg, Outputs(log)))
      ensures !broken ==>
                Decode(Intact, outbound) == Decoded(ClassifyAll(Intact, Payloads(cfg, Outputs(log))), [], false)
    {
      var payloads := Payloads(cfg, Outputs(log));
      StreamIsFrames(cfg, Outputs(log));
      DecodeFrames(Intact, payloads, []);
      assert Frames(payloads) + [] == Frames(payloads);
      assert Decode(Intact, []) == Decoded([], [], false);
      assert ClassifyAll(Intact, payloads) + [] == ClassifyAll(Intact, payloads);
    }
  }
}
