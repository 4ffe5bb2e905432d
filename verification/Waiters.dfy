/** Writers waiting for their entry to commit, and the two ways the run loop releases them. */
module Waiters {
  import opened Types

  datatype Waiter = Waiter(index: nat, slot: nat)

  /** Remove position `i`, filling the hole with the last element. */
  function SwapRemove(ws: seq<Waiter>, i: nat): (r: seq<Waiter>)
    requires i < |ws|
    ensures |r| == |ws| - 1
  {
    ws[i := ws[|ws| - 1]][..|ws| - 1]
  }

  lemma SwapRemoveKeeps(ws: seq<Waiter>, i: nat)
    requires i < |ws|
    ensures multiset(ws) == multiset(SwapRemove(ws, i)) + multiset{ws[i]}
    ensures forall j :: 0 <= j < i ==> SwapRemove(ws, i)[j] == ws[j]
  {
    var n := |ws| - 1;
    var moved := ws[i := ws[n]];
    assert ws == ws[..n] + [ws[n]];
    assert moved == moved[..n] + [moved[n]];
    if i < n { assert moved[..n] == ws[..n][i := ws[n]]; }
  }

  /** Moving one waiter out conserves the whole. */
  lemma MovedOut(ws: seq<Waiter>, out: seq<Waiter>, i: nat)
    requires i < |ws|
    ensures multiset(SwapRemove(ws, i)) + multiset(out + [ws[i]]) == multiset(ws) + multiset(out)
    ensures forall j :: 0 <= j < i ==> SwapRemove(ws, i)[j] == ws[j]
  {
    SwapRemoveKeeps(ws, i);
    assert multiset(out + [ws[i]]) == multiset(out) + multiset{ws[i]};
  }

  /** The slow path from position `i`: which waiters stay, in which order. */
  function Sweep(ws: seq<Waiter>, i: nat, commit: nat): seq<Waiter>
    requires i <= |ws|
    decreases |ws| - i
  {
    if i == |ws| then ws
    else if ws[i].index <= commit then Sweep(SwapRemove(ws, i), i, commit)
    else Sweep(ws, i + 1, commit)
  }

  function Due(ws: seq<Waiter>, commit: nat): multiset<Waiter> {
    if ws == [] then multiset{}
    else (if ws[0].index <= commit then multiset{ws[0]} else multiset{}) + Due(ws[1..], commit)
  }

  lemma {:induction false} DueIs(ws: seq<Waiter>, commit: nat, w: Waiter)
    ensures Due(ws, commit)[w] == if w.index <= commit then multiset(ws)[w] else 0
  {
    if ws != [] {
      DueIs(ws[1..], commit, w);
      assert ws == [ws[0]] + ws[1..];
    }
  }

  /** Every waiter is due. */
  predicate AllDue(ws: seq<Waiter>, commit: nat) {
    forall i :: 0 <= i < |ws| ==> ws[i].index <= commit
  }

  /** What one drain releases. */
  function Released(ws: seq<Waiter>, commit: nat): multiset<Waiter> {
    if ws != [] && ws[|ws| - 1].index <= commit then multiset(ws) else Due(ws, commit)
  }

  /** A split into kept and released by the commit index is the due ones and the rest. */
  lemma SplitIsDue(ws: seq<Waiter>, kept: seq<Waiter>, out: seq<Waiter>, commit: nat)
    requires multiset(kept) + multiset(out) == multiset(ws)
    requires (forall w :: w in kept ==> w.index > commit) && (forall w :: w in out ==> w.index <= commit)
    ensures multiset(out) == Due(ws, commit)
  {
    forall w: Waiter
      ensures multiset(out)[w] == Due(ws, commit)[w]
    {
      DueIs(ws, commit, w);
      if w.index > commit {
        assert w !in out;
      } else {
        assert w !in kept;
      }
      assert multiset(ws)[w] == multiset(kept)[w] + multiset(out)[w];
    }
  }

  class CommitWaiters {
    var waiting: seq<Waiter>
    var released: seq<Waiter>

    constructor ()
      ensures waiting == [] && released == []
    {
      waiting, released := [], [];
    }

    /** Release what is committed. No waiter is lost or released twice; the fast path releases everyone. */
    method Drain(commit: nat)
      modifies this`waiting, this`released
      ensures old(released) <= released
      ensures multiset(waiting) + multiset(released[|old(released)|..]) == multiset(old(waiting))
      ensures multiset(released[|old(released)|..]) == Released(old(waiting), commit)
      ensures old(waiting) != [] && old(waiting)[|old(waiting)| - 1].index <= commit ==>
                waiting == [] && released == old(released) + old(waiting)
      ensures old(waiting) != [] && old(waiting)[|old(waiting)| - 1].index > commit ==>
                waiting == Sweep(old(waiting), 0, commit)
      ensures old(waiting) == [] || old(waiting)[|old(waiting)| - 1].index > commit ==>
                && (forall w :: w in waiting ==> w.index > commit)
                && (forall w :: w in released[|old(released)|..] ==> w.index <= commit)
    {
      if waiting == [] { return; }
      if waiting[|waiting| - 1].index <= commit {
        released := released + waiting;
        waiting := [];
        return;
      }
      ghost var before, n := waiting, |released|;
      SweepAll(commit);
      SplitIsDue(before, waiting, released[n..], commit);
    }

    method SweepAll(commit: nat)
      modifies this`waiting, this`released
      ensures waiting == Sweep(old(waiting), 0, commit) && old(released) <= released
      ensures multiset(waiting) + multiset(released[|old(released)|..]) == multiset(old(waiting))
      ensures forall w :: w in waiting ==> w.index > commit
      ensures forall w :: w in released[|old(released)|..] ==> w.index <= commit
    {
      var i := 0;
      ghost var out: seq<Waiter> := [];
      while i < |waiting|
        invariant i <= |waiting| && Sweep(waiting, i, commit) == Sweep(old(waiting), 0, commit)
        invariant released == old(released) + out && multiset(waiting) + multiset(out) == multiset(old(waiting))
        invariant forall j :: 0 <= j < i ==> waiting[j].index > commit
        invariant forall w :: w in out ==> w.index <= commit
        decreases |waiting| - i
      {
        if waiting[i].index <= commit {
          MovedOut(waiting, out, i);
          released, out := released + [waiting[i]], out + [waiting[i]];
          waiting := SwapRemove(waiting, i);
        } else {
          i := i + 1;
        }
      }
    }
  }

  /** A drain releases exactly the committed waiters if and only if the last waiter is not due or all are. */
  lemma DrainExactIff(ws: seq<Waiter>, commit: nat)
    ensures Released(ws, commit) == Due(ws, commit) <==> ws == [] || ws[|ws| - 1].index > commit || AllDue(ws, commit)
  {
    if ws != [] && ws[|ws| - 1].index <= commit {
      forall w: Waiter
        ensures Due(ws, commit)[w] == if w.index <= commit then multiset(ws)[w] else 0
      {
        DueIs(ws, commit, w);
      }
      if !AllDue(ws, commit) {
        var i :| 0 <= i < |ws| && ws[i].index > commit;
        assert ws[i] in multiset(ws);
      }
    }
  }

  /** Waiters in the order of their indexes: the fast path is exact. */
  lemma InOrderIsExact(ws: seq<Waiter>, commit: nat)
    requires forall i, j :: 0 <= i < j < |ws| ==> ws[i].index <= ws[j].index
    ensures Released(ws, commit) == Due(ws, commit)
  {
    DrainExactIff(ws, commit);
  }

  /**
   The slow path does not keep that order: of five waiters in order, a drain at 2
   leaves 5, 4, 3, and the next drain at 3 releases all of them.
   */
  lemma OrderIsLost(ws: seq<Waiter>)
    requires |ws| == 5 && forall i :: 0 <= i < 5 ==> ws[i].index == i + 1
    ensures Sweep(ws, 0, 2) == [ws[4], ws[3], ws[2]]
    ensures Released(Sweep(ws, 0, 2), 3) != Due(Sweep(ws, 0, 2), 3)
  {
    var a := SwapRemove(ws, 0);
    assert a == [ws[4], ws[1], ws[2], ws[3]];
    var b := SwapRemove(a, 1);
    assert b == [ws[4], ws[3], ws[2]];
    assert Sweep(b, 3, 2) == b;
    assert Sweep(b, 2, 2) == b;
    assert Sweep(b, 1, 2) == b;
    assert Sweep(a, 1, 2) == b && Sweep(a, 0, 2) == b;
    DrainExactIff(b, 3);
    assert !AllDue(b, 3);
  }
}
