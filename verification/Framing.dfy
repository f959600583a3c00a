/** The length-prefixed frame format, read frame by frame and read all at once. */
module Framing {
  import opened Options
  import opened Bytes

  const MAX_FRAME: nat := 65536

  /** The most one read asks for. */
  const READ_LIMIT: nat := 65536

  /** What one frame may carry. */
  type Payload = p: seq<byte> | 1 <= |p| <= MAX_FRAME witness [0]

  predicate Fits(p: seq<byte>) {
    1 <= |p| <= MAX_FRAME
  }

  function Frame(p: Payload): (bs: seq<byte>)
    ensures |bs| == 4 + |p|
  {
    Le32(|p|) + p
  }

  function Frames(ps: seq<Payload>): seq<byte> {
    if ps == [] then [] else Frame(ps[0]) + Frames(ps[1..])
  }

  lemma FramesAppend(ps: seq<Payload>, qs: seq<Payload>)
    ensures Frames(ps + qs) == Frames(ps) + Frames(qs)
  {
    if ps == [] {
      assert ps + qs == qs;
    } else {
      assert (ps + qs)[1..] == ps[1..] + qs;
      FramesAppend(ps[1..], qs);
    }
  }

  /** The length a buffer announces. */
  function Announced(buffer: seq<byte>): nat
    requires |buffer| >= 4
  {
    UnLe32(buffer[..4])
  }

  predicate BadAnnouncement(buffer: seq<byte>) {
    |buffer| >= 4 && (Announced(buffer) == 0 || Announced(buffer) > MAX_FRAME)
  }

  predicate HoldsFrame(buffer: seq<byte>) {
    |buffer| >= 4 && !BadAnnouncement(buffer) && |buffer| >= 4 + Announced(buffer)
  }

  /** What one attempt to take a frame does: the outcome and the buffer it leaves. */
  datatype Take<+M> =
    | Incomplete
    | BadLength
    | BadPayload(rest: seq<byte>)
    | Taken(m: M, rest: seq<byte>)

  function TakeFrom<M>(parse: seq<byte> -> Option<M>, buffer: seq<byte>): Take<M> {
    if |buffer| < 4 then Incomplete
    else if BadAnnouncement(buffer) then BadLength
    else if |buffer| < 4 + Announced(buffer) then Incomplete
    else
      var payload, rest := buffer[4..4 + Announced(buffer)], buffer[4 + Announced(buffer)..];
      match parse(payload)
      case Some(m) => Taken(m, rest)
      case None => BadPayload(rest)
  }

  /** What goes over the wire, byte by byte. */
  lemma FrameBytes(p: Payload)
    ensures 1 <= |p| <= 65536
    ensures Frame(p)[0] == |p| % 256 && Frame(p)[1] == |p| / 256 % 256
    ensures Frame(p)[2] == |p| / 65536 && Frame(p)[3] == 0
    ensures Frame(p)[4..] == p
  {
    Le32IsLittleEndian(|p|);
  }

  /** What is read off a buffer, byte by byte: the length is bad if it is zero or above 65536, the frame
      is there if that many bytes follow the header, and it is a message if they parse. */
  lemma TakeFromBytes<M>(parse: seq<byte> -> Option<M>, b: seq<byte>)
    ensures |b| < 4 ==> TakeFrom(parse, b) == Incomplete
    ensures |b| >= 4 ==>
              var n := b[0] as int + 256 * b[1] as int + 65536 * b[2] as int + 16777216 * b[3] as int;
              if n == 0 || n > 65536 then TakeFrom(parse, b) == BadLength
              else if |b| < 4 + n then TakeFrom(parse, b) == Incomplete
              else TakeFrom(parse, b) == if parse(b[4..4 + n]).None? then BadPayload(b[4 + n..])
                                         else Taken(parse(b[4..4 + n]).value, b[4 + n..])
  {
    if |b| >= 4 {
      assert b[..4][0] == b[0] && b[..4][1] == b[1] && b[..4][2] == b[2] && b[..4][3] == b[3];
    }
  }

  /** Payloads as they are: where JSON does not matter, every payload is a message. */
  function Intact(p: seq<byte>): Option<seq<byte>> {
    Some(p)
  }

  /** What a decoder reports about one frame. */
  datatype Item<+M> = Good(m: M) | Bad

  function Classify<M>(parse: seq<byte> -> Option<M>, p: seq<byte>): Item<M> {
    match parse(p)
    case Some(m) => Good(m)
    case None => Bad
  }

  function ClassifyAll<M>(parse: seq<byte> -> Option<M>, ps: seq<Payload>): (items: seq<Item<M>>)
    ensures |items| == |ps|
    ensures forall k :: 0 <= k < |ps| ==> items[k] == Classify(parse, ps[k])
  {
    if ps == [] then [] else [Classify(parse, ps[0])] + ClassifyAll(parse, ps[1..])
  }

  /** All frames of a byte string, what is left after them, and whether a bad length is next. */
  datatype Decoded<+M> = Decoded(items: seq<Item<M>>, rest: seq<byte>, stuck: bool)

  function Before<M>(items: seq<Item<M>>, d: Decoded<M>): Decoded<M> {
    d.(items := items + d.items)
  }

  lemma BeforeBefore<M>(xs: seq<Item<M>>, ys: seq<Item<M>>, d: Decoded<M>)
    ensures Before(xs, Before(ys, d)) == Before(xs + ys, d)
    ensures Before([], d) == d
  {
    assert xs + (ys + d.items) == xs + ys + d.items;
    assert [] + d.items == d.items;
  }

  /** The batch decoder: one pass over a complete byte string. */
  function Decode<M>(parse: seq<byte> -> Option<M>, bs: seq<byte>): (d: Decoded<M>)
    ensures d.stuck <==> BadAnnouncement(d.rest)
    ensures !HoldsFrame(d.rest)
    decreases |bs|
  {
    if !HoldsFrame(bs) then
      Decoded([], bs, BadAnnouncement(bs))
    else
      var n := 4 + Announced(bs);
      Before([Classify(parse, bs[4..n])], Decode(parse, bs[n..]))
  }

  /** A frame in front of a byte string is decoded first, and the rest as if it stood alone. */
  lemma DecodeFrame<M>(parse: seq<byte> -> Option<M>, p: Payload, tail: seq<byte>)
    ensures HoldsFrame(Frame(p) + tail)
    ensures Decode(parse, Frame(p) + tail) == Before([Classify(parse, p)], Decode(parse, tail))
  {
    var bs := Frame(p) + tail;
    assert bs[..4] == Le32(|p|);
    assert bs[4..4 + |p|] == p;
    assert bs[4 + |p|..] == tail;
  }

  /** Every list of frames is decoded to its own payloads, whatever follows. */
  lemma {:induction false} DecodeFrames<M>(parse: seq<byte> -> Option<M>, ps: seq<Payload>, tail: seq<byte>)
    ensures Decode(parse, Frames(ps) + tail) == Before(ClassifyAll(parse, ps), Decode(parse, tail))
  {
    if ps == [] {
      assert Frames(ps) + tail == tail;
    } else {
      var more := Frames(ps[1..]) + tail;
      assert Frames(ps) + tail == Frame(ps[0]) + more;
      DecodeFrame(parse, ps[0], more);
      DecodeFrames(parse, ps[1..], tail);
      BeforeBefore([Classify(parse, ps[0])], ClassifyAll(parse, ps[1..]), Decode(parse, tail));
    }
  }

  lemma Le32OfAnnounced(bs: seq<byte>)
    requires |bs| >= 4
    ensures Le32(Announced(bs)) == bs[..4]
  {
    Le32UnLe32(bs[..4]);
  }

  /** Conversely, what was decoded is exactly the frames the byte string begins with. */
  lemma {:induction false} DecodeSplits<M>(parse: seq<byte> -> Option<M>, bs: seq<byte>) returns (ps: seq<Payload>)
    ensures bs == Frames(ps) + Decode(parse, bs).rest
    ensures Decode(parse, bs).items == ClassifyAll(parse, ps)
    decreases |bs|
  {
    if !HoldsFrame(bs) {
      ps := [];
    } else {
      var n := 4 + Announced(bs);
      var p: Payload := bs[4..n];
      Le32OfAnnounced(bs);
      assert bs == Frame(p) + bs[n..];
      var qs := DecodeSplits(parse, bs[n..]);
      ps := [p] + qs;
      assert ps[1..] == qs;
    }
  }

  lemma AnnouncedStays(a: seq<byte>, b: seq<byte>)
    requires |a| >= 4
    ensures Announced(a + b) == Announced(a)
    ensures BadAnnouncement(a + b) <==> BadAnnouncement(a)
  {
    assert (a + b)[..4] == a[..4];
  }

  /** One frame of the batch decoder, with more bytes behind it. */
  lemma DecodeFirst<M>(parse: seq<byte> -> Option<M>, a: seq<byte>, b: seq<byte>)
    requires HoldsFrame(a)
    ensures HoldsFrame(a + b)
    ensures var n := 4 + Announced(a);
            Decode(parse, a + b) == Before([Classify(parse, a[4..n])], Decode(parse, a[n..] + b))
  {
    var n, ab := 4 + Announced(a), a + b;
    AnnouncedStays(a, b);
    assert ab[4..n] == a[4..n];
    assert ab[n..] == a[n..] + b;
  }

  lemma BeforeMore<M>(first: Item<M>, d: Decoded<M>, b: seq<byte>, parse: seq<byte> -> Option<M>)
    ensures Before([first], Before(d.items, Decode(parse, d.rest + b)))
         == Before(Before([first], d).items, Decode(parse, d.rest + b))
  {
    BeforeBefore([first], d.items, Decode(parse, d.rest + b));
  }

  /** More bytes never change what was already decoded; a bad length is never got past. */
  lemma {:induction false} DecodeMore<M>(parse: seq<byte> -> Option<M>, a: seq<byte>, b: seq<byte>)
    ensures var d := Decode(parse, a);
            Decode(parse, a + b) == if d.stuck then d.(rest := d.rest + b)
                                    else Before(d.items, Decode(parse, d.rest + b))
    decreases |a|
  {
    if HoldsFrame(a) {
      var n := 4 + Announced(a);
      DecodeMore(parse, a[n..], b);
      DecodeFirst(parse, a, b);
      DecodeFirst(parse, a, []);
      assert a + [] == a && a[n..] + [] == a[n..];
      BeforeMore(Classify(parse, a[4..n]), Decode(parse, a[n..]), b, parse);
    } else if BadAnnouncement(a) {
      AnnouncedStays(a, b);
    } else {
      BeforeBefore([], [], Decode(parse, a + b));
    }
  }

  function Concat(chunks: seq<seq<byte>>): seq<byte> {
    if chunks == [] then [] else chunks[0] + Concat(chunks[1..])
  }

  /** The incremental decoder: take frames while there are any, then append the next chunk. */
  function Drive<M>(parse: seq<byte> -> Option<M>, buffer: seq<byte>, chunks: seq<seq<byte>>): Decoded<M>
    decreases |chunks|, |buffer|
  {
    match TakeFrom(parse, buffer)
    case Taken(m, rest) => Before([Good(m)], Drive(parse, rest, chunks))
    case BadPayload(rest) => Before([Bad], Drive(parse, rest, chunks))
    case BadLength => Decoded([], buffer + Concat(chunks), true)
    case Incomplete =>
      if chunks == [] then Decoded([], buffer, false)
      else Drive(parse, buffer + chunks[0], chunks[1..])
  }

  /** However the bytes are cut into chunks, taking frames as they come decodes the whole string:
      the same messages, the same bad frames in the same places, the same bytes left over. */
  lemma {:induction false} DriveIsDecode<M>(parse: seq<byte> -> Option<M>, buffer: seq<byte>, chunks: seq<seq<byte>>)
    ensures Drive(parse, buffer, chunks) == Decode(parse, buffer + Concat(chunks))
    decreases |chunks|, |buffer|
  {
    var tail := Concat(chunks);
    var take := TakeFrom(parse, buffer);
    if take.Taken? || take.BadPayload? {
      DriveIsDecode(parse, take.rest, chunks);
      DecodeFirst(parse, buffer, tail);
    } else if take.BadLength? {
      DecodeMore(parse, buffer, tail);
    } else if chunks == [] {
      assert buffer + tail == buffer;
    } else {
      DriveIsDecode(parse, buffer + chunks[0], chunks[1..]);
      assert buffer + tail == buffer + chunks[0] + Concat(chunks[1..]);
    }
  }

  /** A buffer that holds no whole frame and no bad length is short, so few reads complete it. */
  lemma IncompleteIsShort<M>(parse: seq<byte> -> Option<M>, buffer: seq<byte>)
    requires TakeFrom(parse, buffer) == Incomplete
    ensures |buffer| <= MAX_FRAME + 3
    ensures Decode(parse, buffer) == Decoded([], buffer, false)
  {
  }
}
