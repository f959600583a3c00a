/** The interface sounds: mixing parts into a buffer, and 16-bit PCM with its exact boost. */
module Sounds {
  import opened Options
  import opened Bytes

  const RATE: nat := 44100

  datatype Part = Part(offsetMs: nat, samples: seq<real>)

  /** The first sample a part touches. */
  function StartOf(p: Part): nat {
    RATE * p.offsetMs / 1000
  }

  /** What one part has at sample `k`: silence where it is not. */
  function At(p: Part, k: nat): real {
    if StartOf(p) <= k < StartOf(p) + |p.samples| then p.samples[k - StartOf(p)] else 0.0
  }

  function SumAt(parts: seq<Part>, k: nat): real {
    if parts == [] then 0.0 else SumAt(parts[..|parts| - 1], k) + At(parts[|parts| - 1], k)
  }

  function Max(a: nat, b: nat): nat {
    if a <= b then b else a
  }

  /** Where the last part ends. */
  function Length(parts: seq<Part>): nat {
    if parts == [] then 0
    else
      var last := parts[|parts| - 1];
      Max(Length(parts[..|parts| - 1]), StartOf(last) + |last.samples|)
  }

  /** A part begins 44100 samples a second behind its offset, and is heard as it is. */
  lemma OnePart(p: Part, k: nat)
    ensures var start := 441 * p.offsetMs / 10;
            && Length([p]) == start + |p.samples|
            && SumAt([p], k) == if start <= k < start + |p.samples| then p.samples[k - start] else 0.0
  {
    assert [p][..0] == [];
    assert StartOf(p) == 441 * p.offsetMs / 10;
  }

  lemma {:induction false} SilentAfterEnd(parts: seq<Part>, k: nat)
    requires k >= Length(parts)
    ensures SumAt(parts, k) == 0.0
  {
    if parts != [] {
      SilentAfterEnd(parts[..|parts| - 1], k);
    }
  }

  /** `mix`: adds the parts into a growing buffer. The result is their pointwise sum. */
  method Mix(parts: seq<Part>) returns (out: seq<real>)
    ensures |out| == Length(parts)
    ensures forall k :: 0 <= k < |out| ==> out[k] == SumAt(parts, k)
  {
    out := [];
    var n := 0;
    while n < |parts|
      invariant n <= |parts| && |out| == Length(parts[..n])
      invariant forall k :: 0 <= k < |out| ==> out[k] == SumAt(parts[..n], k)
    {
      var part := parts[n];
      var start := StartOf(part);
      forall k | k >= |out| ensures k >= 0 ==> SumAt(parts[..n], k) == 0.0 {
        if k >= 0 {
          SilentAfterEnd(parts[..n], k);
        }
      }
      if |out| < start + |part.samples| {
        out := out + seq(start + |part.samples| - |out|, _ => 0.0);
      }
      assert forall k :: 0 <= k < |out| ==> out[k] == SumAt(parts[..n], k);
      var i := 0;
      while i < |part.samples|
        invariant i <= |part.samples| && |out| == Max(Length(parts[..n]), start + |part.samples|)
        invariant forall k :: start <= k < start + i ==> out[k] == SumAt(parts[..n], k) + part.samples[k - start]
        invariant forall k :: 0 <= k < |out| && !(start <= k < start + i) ==> out[k] == SumAt(parts[..n], k)
      {
        out := out[start + i := out[start + i] + part.samples[i]];
        i := i + 1;
      }
      assert parts[..n + 1][..n] == parts[..n] && parts[..n + 1][n] == part;
      n := n + 1;
    }
    assert parts[..n] == parts;
  }

  lemma RestOf(parts: seq<Part>, i: nat)
    requires i < |parts| - 1
    ensures var rest, init := parts[..i] + parts[i + 1..], parts[..|parts| - 1];
            rest[..|rest| - 1] == init[..i] + init[i + 1..] && rest[|rest| - 1] == parts[|parts| - 1]
  {
  }

  /** Taking one part out of the list takes exactly its samples out of the sum. */
  lemma {:induction false} Without(parts: seq<Part>, i: nat, k: nat)
    requires i < |parts|
    ensures SumAt(parts, k) == SumAt(parts[..i] + parts[i + 1..], k) + At(parts[i], k)
    decreases |parts|
  {
    hide At;
    var last := |parts| - 1;
    var rest := parts[..i] + parts[i + 1..];
    if i == last {
      assert rest == parts[..last];
    } else {
      Without(parts[..last], i, k);
      RestOf(parts, i);
    }
  }

  lemma {:induction false} LengthWithout(parts: seq<Part>, i: nat)
    requires i < |parts|
    ensures Length(parts) == Max(Length(parts[..i] + parts[i + 1..]), StartOf(parts[i]) + |parts[i].samples|)
    decreases |parts|
  {
    hide StartOf;
    var last := |parts| - 1;
    var rest := parts[..i] + parts[i + 1..];
    if i == last {
      assert rest == parts[..last];
    } else {
      LengthWithout(parts[..last], i);
      RestOf(parts, i);
    }
  }

  lemma SameWithout(ps: seq<Part>, qs: seq<Part>) returns (i: nat)
    requires ps != [] && multiset(ps) == multiset(qs)
    ensures i < |qs| && qs[i] == ps[|ps| - 1]
    ensures multiset(ps[..|ps| - 1]) == multiset(qs[..i] + qs[i + 1..])
  {
    var last := ps[|ps| - 1];
    assert ps == ps[..|ps| - 1] + [last];
    assert last in multiset(qs);
    i :| 0 <= i < |qs| && qs[i] == last;
    assert qs == qs[..i] + [last] + qs[i + 1..];
    assert multiset(ps) == multiset(ps[..|ps| - 1]) + multiset{last};
    assert multiset(qs) == multiset(qs[..i]) + multiset{last} + multiset(qs[i + 1..]);
    assert multiset(ps[..|ps| - 1]) == multiset(ps) - multiset{last};
    assert multiset(qs[..i] + qs[i + 1..]) == multiset(qs) - multiset{last};
  }

  /** The order of the parts does not matter. */
  lemma {:induction false} OrderDoesNotMatter(ps: seq<Part>, qs: seq<Part>, k: nat)
    requires multiset(ps) == multiset(qs)
    ensures SumAt(ps, k) == SumAt(qs, k) && Length(ps) == Length(qs)
    decreases |ps|
  {
    if ps == [] {
      assert |multiset(qs)| == 0;
    } else {
      var i := SameWithout(ps, qs);
      OrderDoesNotMatter(ps[..|ps| - 1], qs[..i] + qs[i + 1..], k);
      Without(qs, i, k);
      LengthWithout(qs, i);
    }
  }

  // -- 16-bit samples ---------------------------------------------------------------------------

  /** Python's `int`: towards zero. */
  function Truncate(x: real): int {
    if x >= 0.0 then x.Floor else -((-x).Floor)
  }

  /** The clamp in `render`. */
  function Quantize(s: real): (v: int)
    ensures IsInt16(v)
  {
    var v := Truncate(s * 32767.0);
    if v > 32767 then 32767 else if v < -32767 then -32767 else v
  }

  /** A sample in range loses less than one step, one out of range becomes the nearest end, and the
      clamp treats both signs alike. */
  lemma QuantizeIsClose(s: real)
    ensures 0.0 <= s <= 1.0 ==> s * 32767.0 - 1.0 < Quantize(s) as real <= s * 32767.0
    ensures s >= 1.0 ==> Quantize(s) == 32767
    ensures s <= -1.0 ==> Quantize(s) == -32767
    ensures Quantize(-s) == -Quantize(s)
  {
    var x := s * 32767.0;
    assert (-s) * 32767.0 == -x;
    assert Truncate(-x) == -Truncate(x);
  }

  predicate AllInt16(vs: seq<int>) {
    forall v :: v in vs ==> IsInt16(v)
  }

  function Pack(vs: seq<int>): (bs: seq<byte>)
    requires AllInt16(vs)
    ensures |bs| == 2 * |vs|
  {
    if vs == [] then [] else Le16(vs[0]) + Pack(vs[1..])
  }

  function Unpack(bs: seq<byte>): (vs: seq<int>)
    requires |bs| % 2 == 0
    ensures |vs| == |bs| / 2 && AllInt16(vs)
  {
    if bs == [] then [] else [UnLe16(bs[..2])] + Unpack(bs[2..])
  }

  lemma {:induction false} UnpackPack(vs: seq<int>)
    requires AllInt16(vs)
    ensures Unpack(Pack(vs)) == vs
  {
    if vs != [] {
      UnpackPack(vs[1..]);
      Le16RoundTrip(vs[0]);
      assert Pack(vs)[..2] == Le16(vs[0]) && Pack(vs)[2..] == Pack(vs[1..]);
    }
  }

  lemma {:induction false} PackUnpack(bs: seq<byte>)
    requires |bs| % 2 == 0
    ensures Pack(Unpack(bs)) == bs
  {
    if bs != [] {
      PackUnpack(bs[2..]);
      assert Unpack(bs)[1..] == Unpack(bs[2..]);
      assert bs == bs[..2] + bs[2..];
    }
  }

  function Smallest(vs: seq<int>): (m: int)
    requires vs != []
    ensures m in vs && forall v :: v in vs ==> m <= v
  {
    if |vs| == 1 then vs[0]
    else
      var m := Smallest(vs[1..]);
      assert forall v :: v in vs <==> v == vs[0] || v in vs[1..];
      if vs[0] <= m then vs[0] else m
  }

  function Largest(vs: seq<int>): (m: int)
    requires vs != []
    ensures m in vs && forall v :: v in vs ==> v <= m
  {
    if |vs| == 1 then vs[0]
    else
      var m := Largest(vs[1..]);
      assert forall v :: v in vs <==> v == vs[0] || v in vs[1..];
      if vs[0] >= m then vs[0] else m
  }

  function Triple(vs: seq<int>): (ts: seq<int>)
    ensures |ts| == |vs|
  {
    seq(|vs|, k requires 0 <= k < |vs| => 3 * vs[k])
  }

  /** No sample exceeds a third of what 16 bits hold. */
  predicate Moderate(samples: seq<int>) {
    forall s :: s in samples ==> -10922 <= s <= 10922
  }

  predicate Headroom(boosted: seq<int>)
    requires boosted != []
  {
    Smallest(boosted) >= -32768 && Largest(boosted) <= 32767
  }

  /** The boosted payload, or nothing if there is no headroom for it. */
  function Boost(raw: seq<byte>): Option<seq<byte>>
    requires |raw| % 2 == 0
  {
    var boosted := Triple(Unpack(raw));
    if boosted == [] || !Headroom(boosted) then None
    else Some(Pack(boosted))
  }

  /** `--check`: the stored payload is the one the tool would write. */
  predicate Check(raw: seq<byte>, stored: seq<byte>)
    requires |raw| % 2 == 0
  {
    Boost(raw) == Some(stored)
  }

  /** Three times some samples stay within 16 bits exactly if no sample exceeds 10922. */
  lemma HeadroomIsThird(samples: seq<int>)
    requires samples != []
    ensures Headroom(Triple(samples)) <==> Moderate(samples)
  {
    hide Smallest, Largest;
    var boosted := Triple(samples);
    var low, high := Smallest(boosted), Largest(boosted);
    var i :| 0 <= i < |boosted| && boosted[i] == low;
    var j :| 0 <= j < |boosted| && boosted[j] == high;
    assert samples[i] in samples && samples[j] in samples;
    assert low == 3 * samples[i] && high == 3 * samples[j];
    if low >= -32768 && high <= 32767 {
      forall s | s in samples ensures -10922 <= s <= 10922 {
        var k :| 0 <= k < |samples| && samples[k] == s;
        assert boosted[k] in boosted && boosted[k] == 3 * s;
      }
    }
  }

  /** The tool accepts a sound exactly if it has samples and none of them exceeds 10922; then the
      payload is as long as the original and holds three times each sample. */
  lemma BoostIsExact(raw: seq<byte>)
    requires |raw| % 2 == 0
    ensures Boost(raw).Some? <==> raw != [] && Moderate(Unpack(raw))
    ensures Boost(raw).Some? ==> |Boost(raw).value| == |raw| && Unpack(Boost(raw).value) == Triple(Unpack(raw))
  {
    hide Triple, Moderate;
    var samples := Unpack(raw);
    if raw != [] {
      HeadroomIsThird(samples);
    }
    if Boost(raw).Some? {
      UnpackPack(Triple(samples));
    }
  }

  /** The original comes back by exact division, so a payload belongs to one sound only. */
  lemma BoostIsReversible(raw: seq<byte>, k: nat)
    requires |raw| % 2 == 0 && Boost(raw).Some? && k < |Unpack(raw)|
    ensures |Boost(raw).value| == |raw|
    ensures Unpack(Boost(raw).value)[k] % 3 == 0 && Unpack(Boost(raw).value)[k] / 3 == Unpack(raw)[k]
  {
    hide Boost, Unpack;
    BoostIsExact(raw);
    assert Triple(Unpack(raw))[k] == 3 * Unpack(raw)[k];
  }

  /** `--check` accepts exactly the payloads whose samples are three times the original's. */
  lemma CheckAcceptsTriples(raw: seq<byte>, stored: seq<byte>)
    requires |raw| % 2 == 0 && |stored| % 2 == 0
    ensures Check(raw, stored) <==> raw != [] && Unpack(stored) == Triple(Unpack(raw))
  {
    BoostIsExact(raw);
    if raw != [] && Unpack(stored) == Triple(Unpack(raw)) {
      var samples := Unpack(raw);
      forall s | s in samples ensures -10922 <= s <= 10922 {
        var k :| 0 <= k < |samples| && samples[k] == s;
        assert Unpack(stored)[k] in Unpack(stored);
      }
      PackUnpack(stored);
    }
  }
}
