/** A node's log: what storage holds, the ring of recent terms and the cached tip. */
module NodeLog {
  import opened Types
  import opened Arena
  import M = Membership

  // ---------------------------------------------------------------- storage

  /** Stored entries carry consecutive indexes, starting above 0 and ending well below the largest one. */
  predicate Contiguous(es: seq<Entry>) {
    && (forall k {:trigger es[k]} :: 0 <= k < |es| ==> es[k].index == es[0].index + k)
    && (es != [] ==> 1 <= es[0].index && es[0].index + |es| < U64_MAX)
  }

  function StoredEntry(es: seq<Entry>, i: nat): Option<Entry> {
    if es != [] && es[0].index <= i < es[0].index + |es| then Some(es[i - es[0].index]) else None
  }

  function StoredTerm(es: seq<Entry>, i: nat): Option<nat> {
    var e := StoredEntry(es, i);
    if e.Some? then Some(e.value.term) else None
  }

  /** Index and term of the last stored entry. */
  function Last(es: seq<Entry>): (nat, nat) {
    if es == [] then (0, 0) else (es[|es| - 1].index, es[|es| - 1].term)
  }

  /** Delete every entry from `from` on. */
  function CutFrom(es: seq<Entry>, from: nat): seq<Entry> {
    if es == [] || from <= es[0].index then []
    else if from >= es[0].index + |es| then es
    else es[..from - es[0].index]
  }

  /** Delete every entry below `upTo`. */
  function CutBelow(es: seq<Entry>, upTo: nat): seq<Entry> {
    if es == [] || upTo <= es[0].index then es
    else if upTo >= es[0].index + |es| then []
    else es[upTo - es[0].index..]
  }

  /** Where a batch that follows `prev` can land: inside the stored range or right after it. */
  predicate Reachable(es: seq<Entry>, prev: nat) {
    es == [] || es[0].index <= prev + 1 <= es[0].index + |es|
  }

  // ------------------------------------------------------------------- merging

  /** How many leading entries of the batch are already stored with the same term. */
  function Matching(es: seq<Entry>, batch: seq<Entry>): (k: nat)
    ensures k <= |batch|
    ensures forall j :: 0 <= j < k ==> StoredTerm(es, batch[j].index) == Some(batch[j].term)
    ensures k < |batch| ==> StoredTerm(es, batch[k].index) != Some(batch[k].term)
  {
    if batch == [] || StoredTerm(es, batch[0].index) != Some(batch[0].term) then 0
    else 1 + Matching(es, batch[1..])
  }

  /** The log after a batch: unchanged if it all matches, else cut at the first difference and continued with the batch. */
  function Merged(es: seq<Entry>, batch: seq<Entry>): seq<Entry> {
    var k := Matching(es, batch);
    if k == |batch| then es else CutFrom(es, batch[k].index) + batch[k..]
  }

  /** A batch of consecutive entries right after `prev`. */
  predicate Follows(batch: seq<Entry>, prev: nat) {
    Contiguous(batch) && (batch != [] ==> batch[0].index == prev + 1)
  }

  /** Two runs of entries, one right after the other. */
  lemma Joined(a: seq<Entry>, b: seq<Entry>, i: nat)
    requires Contiguous(a) && Contiguous(b) && (a != [] && b != [] ==> a[0].index + |a| == b[0].index)
    ensures Contiguous(a + b)
    ensures StoredTerm(a + b, i) == if StoredTerm(a, i).Some? then StoredTerm(a, i) else StoredTerm(b, i)
  {
    var r := a + b;
    if a != [] && b != [] {
      assert forall k :: |a| <= k < |r| ==> r[k] == b[k - |a|];
    } else {
      assert r == a || r == b;
    }
  }

  /** The merged log is contiguous, unchanged up to `prev`, and has the batch's terms on the batch's range. */
  lemma MergedIs(es: seq<Entry>, prev: nat, batch: seq<Entry>, i: nat)
    requires Contiguous(es) && Follows(batch, prev) && Reachable(es, prev)
    ensures Contiguous(Merged(es, batch))
    ensures i <= prev ==> StoredTerm(Merged(es, batch), i) == StoredTerm(es, i)
    ensures prev < i <= prev + |batch| ==> StoredTerm(Merged(es, batch), i) == Some(batch[i - prev - 1].term)
  {
    var k := Matching(es, batch);
    if k < |batch| {
      CutReaches(es, prev, batch, k);
      SuffixFollows(batch, prev, k);
      Joined(CutFrom(es, batch[k].index), batch[k..], i);
      CutTerm(es, batch[k].index, i);
    }
    if prev < i <= prev + k { assert StoredTerm(es, batch[i - prev - 1].index) == Some(batch[i - prev - 1].term); }
  }

  lemma SuffixFollows(batch: seq<Entry>, prev: nat, k: nat)
    requires Follows(batch, prev) && k < |batch|
    ensures Contiguous(batch[k..]) && batch[k..][0].index == prev + 1 + k
  {
    assert forall j :: 0 <= j < |batch| - k ==> batch[k..][j] == batch[k + j];
  }

  lemma CutTerm(es: seq<Entry>, from: nat, i: nat)
    requires Contiguous(es)
    ensures StoredTerm(CutFrom(es, from), i) == if i < from then StoredTerm(es, i) else None
  {
  }

  /** What stays of the log reaches exactly up to the first differing entry. */
  lemma CutReaches(es: seq<Entry>, prev: nat, batch: seq<Entry>, k: nat)
    requires Contiguous(es) && Follows(batch, prev) && Reachable(es, prev) && k < |batch|
    requires forall j :: 0 <= j < k ==> StoredTerm(es, batch[j].index) == Some(batch[j].term)
    ensures var base := CutFrom(es, batch[k].index);
            && Contiguous(base)
            && (base == [] ==> es == [] || es[0].index == batch[k].index)
            && (base != [] ==> base[0] == es[0] && base[0].index + |base| == batch[k].index)
            && (forall j :: 0 <= j < |base| ==> base[j] == es[j])
  {
    if k > 0 { assert StoredTerm(es, batch[k - 1].index).Some?; }
  }

  /** Entries that already match are kept as they are, and a batch that matches throughout changes nothing. */
  lemma MergedKeeps(es: seq<Entry>, prev: nat, batch: seq<Entry>, k: nat)
    requires Contiguous(es) && Follows(batch, prev) && Reachable(es, prev) && k == Matching(es, batch)
    ensures k == |batch| ==> Merged(es, batch) == es
    ensures forall j :: 0 <= j < |es| && es[j].index <= prev + k ==> j < |Merged(es, batch)| && Merged(es, batch)[j] == es[j]
  {
    if k < |batch| { CutReaches(es, prev, batch, k); }
  }

  lemma {:induction false} AllMatching(es: seq<Entry>, batch: seq<Entry>)
    requires forall j :: 0 <= j < |batch| ==> StoredTerm(es, batch[j].index) == Some(batch[j].term)
    ensures Matching(es, batch) == |batch|
  {
    if batch != [] { AllMatching(es, batch[1..]); }
  }

  /** Receiving the same batch again changes nothing. */
  lemma MergedTwice(es: seq<Entry>, prev: nat, batch: seq<Entry>)
    requires Contiguous(es) && Follows(batch, prev) && Reachable(es, prev)
    ensures Merged(Merged(es, batch), batch) == Merged(es, batch)
  {
    var r := Merged(es, batch);
    forall j | 0 <= j < |batch|
      ensures StoredTerm(r, batch[j].index) == Some(batch[j].term)
    {
      MergedIs(es, prev, batch, batch[j].index);
    }
    AllMatching(r, batch);
  }

  // ------------------------------------------------------------ adopted changes

  /** The latest configuration change among the entries. */
  function LastChange(es: seq<Entry>): Option<M.Change> {
    if es == [] then None
    else
      var ch := M.Decode(es[|es| - 1].payload);
      if ch.Some? then ch else LastChange(es[..|es| - 1])
  }

  // --------------------------------------------------------- seeded batches

  /** A seeded batch: the headers in one block, the payloads back to back in another. */
  datatype Head = Head(term: nat, index: nat, len: nat)

  function TotalLen(hs: seq<Head>): nat {
    if hs == [] then 0 else hs[0].len + TotalLen(hs[1..])
  }

  function Unseed(hs: seq<Head>, bytes: seq<Byte>): (es: seq<Entry>)
    requires TotalLen(hs) == |bytes|
    ensures |es| == |hs|
    ensures forall k :: 0 <= k < |hs| ==> es[k].term == hs[k].term && es[k].index == hs[k].index
  {
    if hs == [] then []
    else [Entry(hs[0].term, hs[0].index, bytes[..hs[0].len])] + Unseed(hs[1..], bytes[hs[0].len..])
  }

  /** Pairing headers with payload slices. */
  function Zip(hs: seq<Head>, payloads: seq<seq<Byte>>): (es: seq<Entry>)
    requires |hs| == |payloads|
    ensures |es| == |hs|
    ensures forall k :: 0 <= k < |hs| ==> es[k] == Entry(hs[k].term, hs[k].index, payloads[k])
  {
    if hs == [] then [] else [Entry(hs[0].term, hs[0].index, payloads[0])] + Zip(hs[1..], payloads[1..])
  }

  // ---------------------------------------------------------------- live object

  /** Every answer of the ring is the stored one. */
  ghost predicate Right(w: Window, es: seq<Entry>) {
    forall i: nat {:trigger Lookup(w, i)} :: Lookup(w, i).Some? ==> Lookup(w, i) == StoredTerm(es, i)
  }

  lemma RightAfterCut(w: Window, es: seq<Entry>, from: nat)
    requires Right(w, es) && Contiguous(es)
    ensures Right(Cutoff(w, from), CutFrom(es, from))
  {
    forall i: nat | Lookup(Cutoff(w, from), i).Some?
      ensures Lookup(Cutoff(w, from), i) == StoredTerm(CutFrom(es, from), i)
    {
      CutoffLookup(w, from, i);
      CutTerm(es, from, i);
    }
  }

  lemma RightAfterJoin(w: Window, es: seq<Entry>, more: seq<Entry>)
    requires Right(w, es) && Contiguous(es) && Contiguous(more)
    requires es != [] && more != [] ==> es[0].index + |es| == more[0].index
    ensures Right(w, es + more)
  {
    forall i: nat | Lookup(w, i).Some?
      ensures Lookup(w, i) == StoredTerm(es + more, i)
    {
      Joined(es, more, i);
    }
  }

  lemma RightAfterAppend(w: Window, capacity: nat, es: seq<Entry>, i: nat, t: nat)
    requires Right(w, es) && |w.terms| <= capacity && StoredTerm(es, i) == Some(t)
    ensures Right(Extend(w, capacity, i, t), es)
  {
    if capacity > 0 {
      forall j: nat | Lookup(Extend(w, capacity, i, t), j).Some?
        ensures Lookup(Extend(w, capacity, i, t), j) == StoredTerm(es, j)
      {
        ExtendLookup(w, capacity, i, t, j);
      }
    }
  }

  class Log {
    var entries: seq<Entry>
    const arena: LogMetadataArena
    var tipIndex: nat
    var tipTerm: nat
    var boundaryIndex: nat
    var boundaryTerm: nat

    ghost predicate Valid()
      reads this, arena, arena.slots
    {
      arena.Valid() && Contiguous(entries) && Right(arena.View(), entries)
    }

    /** The cached tip is the stored one; with nothing stored it is the snapshot boundary. */
    predicate TipOk()
      reads this
    {
      (tipIndex, tipTerm) == if entries != [] then Last(entries) else (boundaryIndex, boundaryTerm)
    }

    /** The remembered boundary does not contradict storage. */
    predicate BoundaryOk()
      reads this
    {
      boundaryIndex == 0 || StoredTerm(entries, boundaryIndex) == None || StoredTerm(entries, boundaryIndex) == Some(boundaryTerm)
    }

    constructor (capacity: nat)
      ensures Valid() && TipOk() && BoundaryOk() && entries == [] && (boundaryIndex, boundaryTerm) == (0, 0)
      ensures fresh(arena) && fresh(arena.slots)
    {
      arena := new LogMetadataArena(capacity);
      entries := [];
      tipIndex, tipTerm, boundaryIndex, boundaryTerm := 0, 0, 0, 0;
    }

    /** The ring first, then storage. */
    method LocalTerm(i: nat) returns (t: Option<nat>)
      requires Valid()
      ensures t == StoredTerm(entries, i)
    {
      t := arena.GetTerm(i);
      if t.None? { t := StoredTerm(entries, i); }
    }

    /** Like `LocalTerm`, remembering a storage hit. */
    method Recall(i: nat) returns (t: Option<nat>)
      requires Valid()
      modifies arena, arena.slots
      ensures Valid() && t == StoredTerm(entries, i)
    {
      t := arena.GetTerm(i);
      if t.None? {
        t := StoredTerm(entries, i);
        if t.Some? && t.value > 0 {
          ghost var w := arena.View();
          arena.Append(i, t.value);
          RightAfterAppend(w, arena.slots.Length, entries, i, t.value);
        }
      }
    }

    /** Term of an index for building an append: tip, ring, boundary, storage; a storage hit is remembered. */
    method TermAt(i: nat) returns (t: Result<nat>)
      requires Valid() && TipOk() && BoundaryOk() && i < U64_MAX
      modifies arena, arena.slots
      ensures Valid()
      ensures i == 0 ==> t == Ok(0)
      ensures i > 0 && StoredTerm(entries, i).Some? ==> t == Ok(StoredTerm(entries, i).value)
      ensures i > 0 && StoredTerm(entries, i).None? ==>
                t == if i == boundaryIndex then Ok(boundaryTerm) else Err
    {
      if i == 0 { return Ok(0); }
      if i == tipIndex { return Ok(tipTerm); }
      var known := arena.GetTerm(i);
      if known.Some? { return Ok(known.value); }
      if i == boundaryIndex { return Ok(boundaryTerm); }
      var stored := StoredTerm(entries, i);
      if stored.None? { return Err; }
      ghost var w := arena.View();
      arena.Append(i, stored.value);
      RightAfterAppend(w, arena.slots.Length, entries, i, stored.value);
      return Ok(stored.value);
    }

    method Truncate(from: nat)
      requires Valid() && from < U64_MAX
      modifies this`entries, this`tipIndex, this`tipTerm, arena, arena.slots
      ensures Valid() && entries == CutFrom(old(entries), from) && (tipIndex, tipTerm) == Last(entries)
    {
      RightAfterCut(arena.View(), entries, from);
      entries := CutFrom(entries, from);
      arena.TruncateSuffix(from);
      tipIndex, tipTerm := Last(entries).0, Last(entries).1;
    }

    /** Store a run of entries, note their terms and move the tip. */
    method Store(more: seq<Entry>)
      requires Valid() && Contiguous(more) && more != []
      requires entries != [] ==> entries[0].index + |entries| == more[0].index
      modifies this`entries, this`tipIndex, this`tipTerm, arena, arena.slots
      ensures Valid() && TipOk() && entries == old(entries) + more
    {
      RightAfterJoin(arena.View(), entries, more);
      Joined(entries, more, 0);
      ghost var before := entries;
      entries := entries + more;
      for k := 0 to |more|
        invariant Valid() && entries == before + more
      {
        ghost var w := arena.View();
        assert StoredTerm(entries, more[k].index) == Some(more[k].term) by {
          Joined(before, more, more[k].index);
        }
        arena.Append(more[k].index, more[k].term);
        RightAfterAppend(w, arena.slots.Length, entries, more[k].index, more[k].term);
      }
      tipIndex, tipTerm := more[|more| - 1].index, more[|more| - 1].term;
    }

    /**
     The conflict scan over the headers of a batch: stops at a header out of step
     with `prev`, at the first conflicting entry, or at the first missing one.
     */
    method Scan(prev: nat, hs: seq<Head>) returns (ok: bool, from: nat, conflict: bool)
      requires Valid() && prev < U64_MAX - |hs|
      ensures ok ==> from <= |hs| && (forall j :: 0 <= j < from ==> StoredTerm(entries, hs[j].index) == Some(hs[j].term))
      ensures ok && from < |hs| ==> StoredTerm(entries, hs[from].index) != Some(hs[from].term)
      ensures ok ==> (conflict <==> from < |hs| && StoredTerm(entries, hs[from].index).Some?)
      ensures ok ==> forall j :: 0 <= j <= from && j < |hs| ==> hs[j].index == prev + 1 + j
      ensures !ok ==> exists j :: 0 <= j < |hs| && hs[j].index != prev + 1 + j
    {
      from, conflict := |hs|, false;
      var start := SatAdd(prev, 1);
      for k := 0 to |hs|
        invariant from == |hs| && !conflict
        invariant forall j :: 0 <= j < k ==>
                    hs[j].index == prev + 1 + j && StoredTerm(entries, hs[j].index) == Some(hs[j].term)
      {
        if hs[k].index != SatAdd(start, k) { return false, 0, false; }
        var local := LocalTerm(hs[k].index);
        if local.Some? {
          if local.value != hs[k].term { return true, k, true; }
        } else {
          return true, k, false;
        }
      }
      return true, |hs|, false;
    }

    /** Cut at a conflict, then store the rest of the batch. */
    method Take(prev: nat, ghost batch: seq<Entry>, rest: seq<Entry>, ghost from: nat, conflict: bool)
      requires Valid() && TipOk() && Follows(batch, prev) && Reachable(entries, prev)
      requires from == Matching(entries, batch) && rest == batch[from..]
      requires conflict <==> from < |batch| && StoredTerm(entries, batch[from].index).Some?
      modifies this`entries, this`tipIndex, this`tipTerm, arena, arena.slots
      ensures Valid() && TipOk() && entries == Merged(old(entries), batch)
    {
      if rest != [] {
        CutReaches(entries, prev, batch, from);
        SuffixFollows(batch, prev, from);
        if conflict { Truncate(rest[0].index); }
        Store(rest);
      }
    }

    /** Merge a batch whose entries and payloads are interleaved. */
    method ApplyAppend(prev: nat, batch: seq<Entry>) returns (ok: bool, adopted: Option<M.Change>)
      requires Valid() && TipOk() && Contiguous(batch) && prev < U64_MAX - |batch| && Reachable(entries, prev)
      modifies this`entries, this`tipIndex, this`tipTerm, arena, arena.slots
      ensures Valid() && TipOk()
      ensures ok <==> Follows(batch, prev)
      ensures !ok ==> entries == old(entries) && adopted == None
      ensures ok ==> entries == Merged(old(entries), batch) && adopted == LastChange(batch[Matching(old(entries), batch)..])
    {
      var hs := Heads(batch);
      var from, conflict;
      ok, from, conflict := Scan(prev, hs);
      if !ok { return false, None; }
      MatchingIs(entries, batch, from);
      Take(prev, batch, batch[from..], from, conflict);
      adopted := LatestChange(batch[from..]);
    }

    /** Merge a batch whose headers and payloads are in separate blocks. */
    method ApplyAppendSeeded(prev: nat, hs: seq<Head>, bytes: seq<Byte>) returns (ok: bool, adopted: Option<M.Change>)
      requires Valid() && TipOk() && TotalLen(hs) == |bytes| && Contiguous(Unseed(hs, bytes))
      requires prev < U64_MAX - |hs| && Reachable(entries, prev)
      modifies this`entries, this`tipIndex, this`tipTerm, arena, arena.slots
      ensures Valid() && TipOk()
      ensures ok <==> Follows(Unseed(hs, bytes), prev)
      ensures !ok ==> entries == old(entries) && adopted == None
      ensures ok ==> entries == Merged(old(entries), Unseed(hs, bytes))
      ensures ok ==> adopted == LastChange(Unseed(hs, bytes)[Matching(old(entries), Unseed(hs, bytes))..])
    {
      ghost var batch := Unseed(hs, bytes);
      var from, conflict;
      ok, from, conflict := Scan(prev, hs);
      if !ok { return false, None; }
      MatchingIs(entries, batch, from);
      var payloads := Slices(hs, bytes, from);
      var rest := Zip(hs[from..], payloads);
      assert rest == batch[from..];
      Take(prev, batch, rest, from, conflict);
      adopted := ForwardChange(rest);
    }

    /** Append a leader's batch of payloads and answer the last index. */
    method AppendPropose(term: nat, payloads: seq<seq<Byte>>) returns (last: Result<nat>)
      requires Valid() && TipOk() && tipIndex + |payloads| + 1 < U64_MAX
      modifies this`entries, this`tipIndex, this`tipTerm, arena, arena.slots
      ensures Valid() && TipOk()
      ensures payloads == [] <==> last == Err
      ensures payloads == [] ==> entries == old(entries)
      ensures payloads != [] ==> last == Ok(old(tipIndex) + |payloads|) && |entries| == |old(entries)| + |payloads|
      ensures payloads != [] ==> entries[..|old(entries)|] == old(entries)
      ensures forall k :: 0 <= k < |payloads| ==>
                entries[|old(entries)| + k] == Entry(term, old(tipIndex) + 1 + k, payloads[k])
    {
      var batch: seq<Entry> := [];
      var next := SatAdd(tipIndex, 1);
      for k := 0 to |payloads|
        invariant next == tipIndex + 1 + k && |batch| == k
        invariant forall j :: 0 <= j < k ==> batch[j] == Entry(term, tipIndex + 1 + j, payloads[j])
      {
        batch := batch + [Entry(term, next, payloads[k])];
        next := next + 1;
      }
      if batch == [] { return Err; }
      Store(batch);
      return Ok(tipIndex);
    }

    /** Re-anchor the log at a restored or installed snapshot. */
    method Restore(index: nat, term: nat)
      requires Valid() && 0 < index < U64_MAX - 1
      modifies this, arena, arena.slots
      ensures Valid() && (tipIndex, tipTerm) == (index, term) && (boundaryIndex, boundaryTerm) == (index, term)
      ensures entries == Restored(old(entries), index, term)
    {
      var local := StoredTerm(entries, index);
      if local.Some? && local.value != term {
        entries := CutFrom(entries, 1);
      } else {
        entries := CutBelow(entries, SatAdd(index, 1));
      }
      arena.Clear(SatAdd(index, 1));
      tipIndex, tipTerm, boundaryIndex, boundaryTerm := index, term, index, term;
    }
  }

  function Heads(batch: seq<Entry>): (hs: seq<Head>)
    ensures |hs| == |batch|
    ensures forall k :: 0 <= k < |hs| ==> hs[k] == Head(batch[k].term, batch[k].index, |batch[k].payload|)
  {
    seq(|batch|, k requires 0 <= k < |batch| => Head(batch[k].term, batch[k].index, |batch[k].payload|))
  }

  lemma {:induction false} MatchingIs(es: seq<Entry>, batch: seq<Entry>, from: nat)
    requires from <= |batch| && (forall j :: 0 <= j < from ==> StoredTerm(es, batch[j].index) == Some(batch[j].term))
    requires from < |batch| ==> StoredTerm(es, batch[from].index) != Some(batch[from].term)
    ensures Matching(es, batch) == from
  {
  }

  /** The backward search for the latest change. */
  method LatestChange(es: seq<Entry>) returns (ch: Option<M.Change>)
    ensures ch == LastChange(es)
  {
    var n: nat := |es|;
    assert es[..n] == es;
    while n > 0
      invariant n <= |es| && LastChange(es) == LastChange(es[..n])
    {
      ch := M.Decode(es[n - 1].payload);
      if ch.Some? { return; }
      n := n - 1;
      assert es[..n + 1][..n] == es[..n];
    }
    return None;
  }

  /** The forward search, keeping the last hit, finds the same. */
  method ForwardChange(es: seq<Entry>) returns (ch: Option<M.Change>)
    ensures ch == LastChange(es)
  {
    ch := None;
    for k := 0 to |es|
      invariant ch == LastChange(es[..k])
    {
      var here := M.Decode(es[k].payload);
      assert es[..k + 1][..k] == es[..k];
      if here.Some? { ch := here; }
    }
    assert es[..|es|] == es;
  }

  /** The payload slices from position `from` on, found by walking the lengths. */
  method Slices(hs: seq<Head>, bytes: seq<Byte>, from: nat) returns (payloads: seq<seq<Byte>>)
    requires TotalLen(hs) == |bytes| && from <= |hs|
    ensures |payloads| == |hs| - from
    ensures forall k :: 0 <= k < |payloads| ==> payloads[k] == Unseed(hs, bytes)[from + k].payload
  {
    payloads := [];
    var rest := bytes;
    for k := 0 to |hs|
      invariant TotalLen(hs[k..]) == |rest| && Unseed(hs, bytes)[k..] == Unseed(hs[k..], rest)
      invariant |payloads| == if k <= from then 0 else k - from
      invariant forall j :: 0 <= j < |payloads| ==> payloads[j] == Unseed(hs, bytes)[from + j].payload
    {
      assert hs[k..][1..] == hs[k + 1..];
      assert Unseed(hs, bytes)[k] == Unseed(hs, bytes)[k..][0];
      if k >= from { payloads := payloads + [rest[..hs[k].len]]; }
      assert Unseed(hs, bytes)[k + 1..] == Unseed(hs, bytes)[k..][1..];
      rest := rest[hs[k].len..];
    }
  }

  // -------------------------------------------------------------- snapshots

  /** What storage holds after a restore: nothing if the boundary conflicts, else what lies above it. */
  function Restored(es: seq<Entry>, index: nat, term: nat): seq<Entry> {
    var local := StoredTerm(es, index);
    if local.Some? && local.value != term then CutFrom(es, 1) else CutBelow(es, index + 1)
  }

  /** After a restore the cached tip is the stored one exactly when storage kept nothing above the boundary. */
  lemma RestoreTipIff(es: seq<Entry>, index: nat, term: nat)
    requires Contiguous(es) && 0 < index < U64_MAX - 1
    ensures (if Restored(es, index, term) != [] then Last(Restored(es, index, term)) == (index, term) else true)
       <==> (|| (StoredTerm(es, index).Some? && StoredTerm(es, index).value != term)
             || es == [] || es[|es| - 1].index <= index)
  {
  }

  /** The input that fails: the snapshot ends at 1, storage keeps entry 2, and the cached tip says 1. */
  lemma RestoreHidesTip(a: Entry, b: Entry)
    requires a.index == 1 && b.index == 2
    ensures Contiguous([a, b]) && Restored([a, b], 1, a.term) == [b] && Last([b]) != (1, a.term)
  {
    assert [a, b][1..] == [b];
  }
}
