/** Fixed-width little-endian integers. */
module Bytes {
  import opened Types

  /** `256^n`. */
  function Span(n: nat): (s: nat)
    ensures s >= 1
  {
    if n == 0 then 1 else 256 * Span(n - 1)
  }

  /** The `n` low bytes of `x`, least significant first. */
  function ToLe(x: nat, n: nat): (b: seq<Byte>)
    ensures |b| == n
  {
    if n == 0 then [] else [x % 256] + ToLe(x / 256, n - 1)
  }

  function FromLe(b: seq<Byte>): (x: nat)
    ensures x < Span(|b|)
  {
    if b == [] then 0 else b[0] + 256 * FromLe(b[1..])
  }

  lemma {:induction false} LeRoundTrip(x: nat, n: nat)
    requires x < Span(n)
    ensures FromLe(ToLe(x, n)) == x
  {
    if n > 0 {
      LeRoundTrip(x / 256, n - 1);
      assert ToLe(x, n)[1..] == ToLe(x / 256, n - 1);
    }
  }

  lemma {:induction false} LeUnique(b: seq<Byte>)
    ensures ToLe(FromLe(b), |b|) == b
  {
    if b != [] {
      LeUnique(b[1..]);
      assert (b[0] + 256 * FromLe(b[1..])) % 256 == b[0];
      assert (b[0] + 256 * FromLe(b[1..])) / 256 == FromLe(b[1..]);
    }
  }

  lemma Spans()
    ensures Span(1) == 256 && Span(4) == U32_MAX + 1 && Span(8) == U64_MAX + 1
  {
    assert Span(4) == 256 * Span(3) && Span(3) == 256 * Span(2) && Span(2) == 256 * Span(1);
    assert Span(8) == 256 * Span(7) && Span(7) == 256 * Span(6) && Span(6) == 256 * Span(5) && Span(5) == 256 * Span(4);
  }

  lemma U64RoundTrip(x: nat)
    requires x <= U64_MAX
    ensures FromLe(ToLe(x, 8)) == x
  {
    Spans();
    LeRoundTrip(x, 8);
  }

  lemma U32RoundTrip(x: nat)
    requires x <= U32_MAX
    ensures FromLe(ToLe(x, 4)) == x
  {
    Spans();
    LeRoundTrip(x, 4);
  }

  /** The first field and what follows it. */
  lemma Split(a: seq<Byte>, b: seq<Byte>, c: seq<Byte>)
    ensures (a + b + c)[..|a|] == a && (a + b + c)[|a|..] == b + c
  {
  }

  // ------------------------------------------------------------ lists of ids

  /** Eight bytes per id. */
  function PutIds(ids: seq<PeerId>): (b: seq<Byte>)
    ensures |b| == 8 * |ids|
  {
    if ids == [] then [] else ToLe(ids[0], 8) + PutIds(ids[1..])
  }

  function GetIds(b: seq<Byte>, count: nat): (ids: seq<PeerId>)
    requires |b| >= 8 * count
    ensures |ids| == count
  {
    if count == 0 then [] else [FromLe(b[..8])] + GetIds(b[8..], count - 1)
  }

  predicate Ids64(ids: seq<PeerId>) {
    forall i :: 0 <= i < |ids| ==> ids[i] <= U64_MAX
  }

  lemma {:induction false} IdsRoundTrip(ids: seq<PeerId>, rest: seq<Byte>)
    requires Ids64(ids)
    ensures GetIds(PutIds(ids) + rest, |ids|) == ids
  {
    if ids != [] {
      U64RoundTrip(ids[0]);
      Split(ToLe(ids[0], 8), PutIds(ids[1..]), rest);
      IdsRoundTrip(ids[1..], rest);
    }
  }
}
