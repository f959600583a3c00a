/**
 * One direction of the pipe from end to end: a writer that hands frames to the operating
 * system in pieces of any size, the bytes on their way, and a reader that picks them up in
 * chunks of any size. Every interleaving of the two is a run of this machine.
 */
module Link {
  import opened Bytes
  import opened Framing

  datatype Link = Link(
    todo: seq<Payload>,      // messages the writer has still to start
    view: seq<byte>,         // what `_write_all` has not handed over of the current frame
    pipe: seq<byte>,         // handed over, not yet read
    buffer: seq<byte>,       // read, not yet taken as a frame
    delivered: seq<Payload>) // frames taken

  datatype Step = Begin | Write(n: nat) | Read(n: nat) | Deliver

  predicate Enabled(s: Link, step: Step) {
    match step
    case Begin => s.view == [] && s.todo != []
    case Write(n) => 1 <= n <= |s.view|
    case Read(n) => TakeFrom(Intact, s.buffer).Incomplete? && 1 <= n <= |s.pipe| && n <= READ_LIMIT
    case Deliver => HoldsFrame(s.buffer)
  }

  function After(s: Link, step: Step): Link
    requires Enabled(s, step)
  {
    match step
    case Begin => s.(view := Frame(s.todo[0]), todo := s.todo[1..])
    case Write(n) => s.(view := s.view[n..], pipe := s.pipe + s.view[..n])
    case Read(n) => s.(pipe := s.pipe[n..], buffer := s.buffer + s.pipe[..n])
    case Deliver =>
      var n := 4 + Announced(s.buffer);
      var payload: Payload := s.buffer[4..n];
      s.(buffer := s.buffer[n..], delivered := s.delivered + [payload])
  }

  /** A run: any enabled steps, in any order. */
  ghost predicate Run(s: Link, steps: seq<Step>, t: Link)
    decreases |steps|
  {
    if steps == [] then s == t
    else Enabled(s, steps[0]) && Run(After(s, steps[0]), steps[1..], t)
  }

  function Start(messages: seq<Payload>): Link {
    Link(messages, [], [], [], [])
  }

  /** All bytes there are, from the oldest to the newest. */
  function InOrder(s: Link): seq<byte> {
    Frames(s.delivered) + (s.buffer + (s.pipe + (s.view + Frames(s.todo))))
  }

  /** Every byte of every frame is in exactly one place. */
  ghost predicate Conserved(messages: seq<Payload>, s: Link) {
    && Frames(messages) == InOrder(s)
    && |s.buffer| <= MAX_FRAME + 3 + READ_LIMIT
  }

  // `n` bytes move from the front of `b` to the end of `a`.
  lemma Moved(a: seq<byte>, b: seq<byte>, n: nat, rest: seq<byte>)
    requires n <= |b|
    ensures a + (b + rest) == (a + b[..n]) + (b[n..] + rest)
  {
    assert b == b[..n] + b[n..];
  }

  lemma DeliverMoves(s: Link)
    requires Enabled(s, Deliver)
    ensures InOrder(After(s, Deliver)) == InOrder(s)
  {
    var n := 4 + Announced(s.buffer);
    var payload: Payload := s.buffer[4..n];
    Le32OfAnnounced(s.buffer);
    assert s.buffer[..n] == Frame(payload);
    FramesAppend(s.delivered, [payload]);
    assert Frames([payload]) == Frame(payload) + Frames([]);
    assert Frames([payload]) == Frame(payload);
    Moved(Frames(s.delivered), s.buffer, n, s.pipe + (s.view + Frames(s.todo)));
  }

  lemma StepConserves(messages: seq<Payload>, s: Link, step: Step)
    requires Conserved(messages, s) && Enabled(s, step)
    ensures Conserved(messages, After(s, step))
  {
    match step
    case Begin =>
      assert s.view + Frames(s.todo) == Frames(s.todo);
    case Write(n) =>
      Moved(s.pipe, s.view, n, Frames(s.todo));
    case Read(n) =>
      Moved(s.buffer, s.pipe, n, s.view + Frames(s.todo));
      IncompleteIsShort(Intact, s.buffer);
    case Deliver =>
      DeliverMoves(s);
  }

  /** Conservation of bytes over every interleaving. */
  lemma {:induction false} RunConserves(messages: seq<Payload>, s: Link, steps: seq<Step>, t: Link)
    requires Conserved(messages, s) && Run(s, steps, t)
    ensures Conserved(messages, t)
    decreases |steps|
  {
    if steps != [] {
      StepConserves(messages, s, steps[0]);
      RunConserves(messages, After(s, steps[0]), steps[1..], t);
    }
  }

  lemma SameItems(ps: seq<Payload>, qs: seq<Payload>)
    requires ClassifyAll(Intact, ps) <= ClassifyAll(Intact, qs)
    ensures ps <= qs
  {
    forall k | 0 <= k < |ps| ensures ps[k] == qs[k] {
      assert ClassifyAll(Intact, ps)[k] == ClassifyAll(Intact, qs)[k];
    }
  }

  lemma BeforeNothing(items: seq<Item<seq<byte>>>)
    ensures Before(items, Decode(Intact, [])) == Decoded(items, [], false)
  {
    assert Decode(Intact, []) == Decoded([], [], false);
    assert items + [] == items;
  }

  lemma ConservedDecodes(messages: seq<Payload>, s: Link) returns (ahead: seq<byte>)
    requires Conserved(messages, s)
    ensures ahead == s.buffer + (s.pipe + (s.view + Frames(s.todo)))
    ensures ClassifyAll(Intact, messages) == ClassifyAll(Intact, s.delivered) + Decode(Intact, ahead).items
    ensures Decode(Intact, ahead).rest == []
  {
    ahead := s.buffer + (s.pipe + (s.view + Frames(s.todo)));
    var whole := Frames(messages);
    assert whole + [] == whole;
    DecodeFrames(Intact, messages, []);
    BeforeNothing(ClassifyAll(Intact, messages));
    DecodeFrames(Intact, s.delivered, ahead);
  }

  /** What has been delivered is always what was sent first, in order, and the reader is never
      stuck; once nothing is left to write or to read, everything has been delivered. */
  lemma EndToEnd(messages: seq<Payload>, steps: seq<Step>, t: Link)
    requires Run(Start(messages), steps, t)
    ensures t.delivered <= messages
    ensures !BadAnnouncement(t.buffer)
    ensures t.todo == [] && t.view == [] && t.pipe == [] && !HoldsFrame(t.buffer)
            ==> t.delivered == messages && t.buffer == []
    ensures |t.buffer| <= 131075
  {
    assert Conserved(messages, Start(messages)) by {
      assert InOrder(Start(messages)) == Frames(messages);
    }
    RunConserves(messages, Start(messages), steps, t);
    var ahead := ConservedDecodes(messages, t);
    SameItems(t.delivered, messages);
    DecodeMore(Intact, t.buffer, t.pipe + (t.view + Frames(t.todo)));
    if t.todo == [] && t.view == [] && t.pipe == [] && !HoldsFrame(t.buffer) {
      assert ahead == t.buffer;
      SameItems(messages, t.delivered);
    }
  }

  /** No run gets stuck before that: while something is left, some step is enabled. */
  lemma Progress(messages: seq<Payload>, steps: seq<Step>, t: Link)
    requires Run(Start(messages), steps, t)
    requires t.delivered != messages
    ensures exists step :: Enabled(t, step)
  {
    EndToEnd(messages, steps, t);
    if HoldsFrame(t.buffer) {
      assert Enabled(t, Deliver);
    } else if t.pipe != [] {
      assert Enabled(t, Read(1));
    } else if t.view != [] {
      assert Enabled(t, Write(1));
    } else {
      assert Enabled(t, Begin);
    }
  }

  /** Work left: every step uses some of it, so every run can be finished. */
  ghost function Work(s: Link): nat {
    3 * |Frames(s.todo)| + 3 * |s.view| + 2 * |s.pipe| + |s.buffer| + |s.todo|
  }

  lemma StepWorks(s: Link, step: Step)
    requires Enabled(s, step)
    ensures Work(After(s, step)) < Work(s)
  {
    if step == Begin {
      assert |Frames(s.todo)| == |Frame(s.todo[0])| + |Frames(s.todo[1..])|;
    }
  }
}
