/** Types shared by every part of the model. */
module Types {

  /** Largest value of the source's 64-bit terms and indexes. */
  const U64_MAX: nat := 0xFFFF_FFFF_FFFF_FFFF

  /** Largest value of the source's 32-bit wire fields. */
  const U32_MAX: nat := 0xFFFF_FFFF

  type Byte = b: int | 0 <= b < 256

  type PeerId = nat

  datatype Option<+T> = None | Some(value: T)

  datatype Result<+T> = Ok(value: T) | Err

  /** A log entry: its term, its one-based index and an uninterpreted payload. */
  datatype Entry = Entry(term: nat, index: nat, payload: seq<Byte>)

  /** Leader-side replication progress of one peer. */
  datatype Progress = Progress(next: nat, matched: nat)

  function Min(a: int, b: int): int { if a <= b then a else b }

  function Max(a: int, b: int): int { if a <= b then b else a }

  /** `u64::saturating_add`. */
  function SatAdd(a: nat, b: nat): nat { if a + b <= U64_MAX then a + b else U64_MAX }

  /** `u64::saturating_sub`. */
  function SatSub(a: nat, b: nat): nat { if a <= b then 0 else a - b }

  /** No element occurs twice. */
  predicate Distinct<T(==)>(s: seq<T>) {
    forall i, j :: 0 <= i < j < |s| ==> s[i] != s[j]
  }

  function Elements<T>(s: seq<T>): set<T> {
    set x | x in s
  }

  /** `xs`, then what of `ys` is not there yet. */
  function Union(xs: seq<PeerId>, ys: seq<PeerId>): seq<PeerId>
    decreases |ys|
  {
    if ys == [] then xs else Union(if ys[0] in xs then xs else xs + [ys[0]], ys[1..])
  }

  /**
   Always true. A predicate stated as `forall k :: Key(k) ==> ...` unfolds only
   where a proof mentions `Key`, which keeps long proofs about it cheap.
   */
  predicate Key(k: nat) { k >= 0 }
}
