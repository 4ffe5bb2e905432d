/** Agreement of logs on a prefix. */
module Prefix {
  import opened Types

  /** Both logs reach index `k` and agree on every entry up to it. */
  predicate Same(a: seq<Entry>, b: seq<Entry>, k: nat) {
    k == 0 || (k <= |a| && k <= |b| && a[k - 1] == b[k - 1] && Same(a, b, k - 1))
  }

  /** `a` is a prefix of `b`. */
  predicate Cut(a: seq<Entry>, b: seq<Entry>) {
    Same(a, b, |a|)
  }

  lemma {:induction false} SameAt(a: seq<Entry>, b: seq<Entry>, k: nat, i: nat)
    requires Same(a, b, k) && i < k
    ensures i < |a| && i < |b| && a[i] == b[i]
    decreases k
  {
    if i < k - 1 { SameAt(a, b, k - 1, i); }
  }

  lemma {:induction false} SameLess(a: seq<Entry>, b: seq<Entry>, k: nat, j: nat)
    requires Same(a, b, k) && j <= k
    ensures Same(a, b, j)
    decreases k
  {
    if j < k { SameLess(a, b, k - 1, j); }
  }

  lemma {:induction false} SameTrans(a: seq<Entry>, b: seq<Entry>, c: seq<Entry>, k: nat)
    requires Same(a, b, k) && Same(b, c, k)
    ensures Same(a, c, k)
  {
    if k > 0 { SameTrans(a, b, c, k - 1); }
  }

  lemma {:induction false} SameSym(a: seq<Entry>, b: seq<Entry>, k: nat)
    requires Same(a, b, k)
    ensures Same(b, a, k)
  {
    if k > 0 { SameSym(a, b, k - 1); }
  }

  /** Pointwise agreement is `Same`. */
  lemma {:induction false} SameFrom(a: seq<Entry>, b: seq<Entry>, k: nat)
    requires k <= |a| && k <= |b| && forall i :: 0 <= i < k ==> a[i] == b[i]
    ensures Same(a, b, k)
  {
    if k > 0 { SameFrom(a, b, k - 1); }
  }

  lemma SameSelf(a: seq<Entry>, k: nat)
    requires k <= |a|
    ensures Same(a, a, k)
  {
    SameFrom(a, a, k);
  }

  /** Agreement as equality of slices. */
  lemma SameSlices(a: seq<Entry>, b: seq<Entry>, k: nat)
    ensures Same(a, b, k) <==> k <= |a| && k <= |b| && a[..k] == b[..k]
  {
    if Same(a, b, k) {
      if k > 0 { SameAt(a, b, k, k - 1); }
      forall i | 0 <= i < k
        ensures a[..k][i] == b[..k][i]
      {
        SameAt(a, b, k, i);
      }
    } else if k <= |a| && k <= |b| && a[..k] == b[..k] {
      assert forall i :: 0 <= i < k ==> a[..k][i] == b[..k][i];
      SameFrom(a, b, k);
    }
  }

  lemma CutTrans(a: seq<Entry>, b: seq<Entry>, c: seq<Entry>)
    requires Cut(a, b) && Cut(b, c)
    ensures Cut(a, c)
  {
    CutShorter(a, b);
    SameLess(b, c, |b|, |a|);
    SameTrans(a, b, c, |a|);
  }

  lemma CutShorter(a: seq<Entry>, b: seq<Entry>)
    requires Cut(a, b)
    ensures |a| <= |b|
  {
    if a != [] { SameAt(a, b, |a|, |a| - 1); }
  }

  /** Appending extends. */
  lemma CutAppend(a: seq<Entry>, more: seq<Entry>)
    ensures Cut(a, a + more)
  {
    SameFrom(a, a + more, |a|);
  }

  /** A slice from the start is a prefix, and agrees as far as it goes. */
  lemma CutOf(a: seq<Entry>, k: nat)
    requires k <= |a|
    ensures Cut(a[..k], a) && |a[..k]| == k
  {
    SameFrom(a[..k], a, k);
  }

  /** Two prefixes of one log agree as far as both go. */
  lemma CutsMeet(a: seq<Entry>, b: seq<Entry>, l: seq<Entry>, k: nat)
    requires Cut(a, l) && Cut(b, l) && k <= |a| && k <= |b|
    ensures Same(a, b, k)
    ensures forall i :: 0 <= i < k ==> a[i] == b[i]
  {
    SameLess(a, l, |a|, k);
    SameLess(b, l, |b|, k);
    SameSym(b, l, k);
    SameTrans(a, l, b, k);
    forall i | 0 <= i < k
      ensures a[i] == b[i]
    {
      SameAt(a, b, k, i);
    }
  }
}
