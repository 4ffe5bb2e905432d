/** The state machine as a fold of the committed log, across apply, compaction, restore and restart. */
module ApplyLoop {
  import opened Types
  import NL = NodeLog
  import M = Membership

  /** Control entries are consumed by the membership layer. */
  predicate IsControl(payload: seq<Byte>) {
    payload == M.NOOP || M.Decode(payload).Some?
  }

  /** The state after the first `k` entries of the committed log. */
  function Fold<S>(init: S, step: (S, nat, seq<Byte>) -> S, committed: seq<Entry>, k: nat): S
    requires k <= |committed|
  {
    if k == 0 then init
    else
      var before := Fold(init, step, committed, k - 1);
      if IsControl(committed[k - 1].payload) then before else step(before, k, committed[k - 1].payload)
  }

  lemma {:induction false} FoldOfPrefix<S>(init: S, step: (S, nat, seq<Byte>) -> S, a: seq<Entry>, b: seq<Entry>, k: nat)
    requires k <= |a| && a <= b
    ensures Fold(init, step, a, k) == Fold(init, step, b, k)
  {
    if k > 0 { FoldOfPrefix(init, step, a, b, k - 1); }
  }

  /**
   The state is the fold up to what was applied, or further where the machine's own
   cursor is. A durable machine is where its cursor is; another has none.
   */
  ghost predicate At<S>(init: S, step: (S, nat, seq<Byte>) -> S, committed: seq<Entry>, durable: bool,
                        state: S, applied: nat, cursor: nat)
  {
    && applied <= |committed| && cursor <= |committed|
    && state == Fold(init, step, committed, Max(applied, cursor))
    && (if durable then state == Fold(init, step, committed, cursor) else cursor == 0)
  }

  /** The same under a key, so that proofs about storage need not unfold the fold. */
  ghost predicate FoldedTo<S>(init: S, step: (S, nat, seq<Byte>) -> S, committed: seq<Entry>, durable: bool,
                              state: S, applied: nat, cursor: nat)
  {
    forall k: nat {:trigger Key(k)} :: Key(k) ==> At(init, step, committed, durable, state, applied, cursor)
  }

  lemma FoldedIsAt<S>(init: S, step: (S, nat, seq<Byte>) -> S, committed: seq<Entry>, durable: bool,
                      state: S, applied: nat, cursor: nat)
    ensures FoldedTo(init, step, committed, durable, state, applied, cursor)
       <==> At(init, step, committed, durable, state, applied, cursor)
  {
    assert Key(0);
  }

  lemma FoldedMore<S>(init: S, step: (S, nat, seq<Byte>) -> S, committed: seq<Entry>, more: seq<Entry>, durable: bool,
                      state: S, applied: nat, cursor: nat)
    requires FoldedTo(init, step, committed, durable, state, applied, cursor)
    ensures FoldedTo(init, step, committed + more, durable, state, applied, cursor)
  {
    FoldedIsAt(init, step, committed, durable, state, applied, cursor);
    FoldedIsAt(init, step, committed + more, durable, state, applied, cursor);
    FoldOfPrefix(init, step, committed, committed + more, Max(applied, cursor));
    FoldOfPrefix(init, step, committed, committed + more, cursor);
  }

  /** A machine that has not applied anything in this process: a durable one is still where its cursor is. */
  lemma FoldedAnew<S>(init: S, step: (S, nat, seq<Byte>) -> S, committed: seq<Entry>, durable: bool,
                      state: S, applied: nat, cursor: nat)
    requires FoldedTo(init, step, committed, durable, state, applied, cursor)
    ensures FoldedTo(init, step, committed, durable, if durable then state else init, 0, cursor)
  {
    FoldedIsAt(init, step, committed, durable, state, applied, cursor);
    FoldedIsAt(init, step, committed, durable, if durable then state else init, 0, cursor);
  }

  /** One more committed entry: a control entry, one the cursor is past, or one the machine takes. */
  lemma FoldedNext<S>(init: S, step: (S, nat, seq<Byte>) -> S, committed: seq<Entry>, durable: bool,
                      state: S, applied: nat, cursor: nat)
    requires FoldedTo(init, step, committed, durable, state, applied, cursor) && applied < |committed|
    ensures var payload, next := committed[applied].payload, applied + 1;
            if IsControl(payload) || (durable && next <= cursor)
            then FoldedTo(init, step, committed, durable, state, next, cursor)
            else FoldedTo(init, step, committed, durable, step(state, next, payload), next, if durable then next else cursor)
  {
    var payload, next := committed[applied].payload, applied + 1;
    FoldedIsAt(init, step, committed, durable, state, applied, cursor);
    FoldedIsAt(init, step, committed, durable, state, next, cursor);
    FoldedIsAt(init, step, committed, durable, step(state, next, payload), next, if durable then next else cursor);
  }

  /** A saved snapshot: its boundary, the state, and how far the state machine itself had recorded its effects. */
  datatype Snapshot<S> = Snapshot(index: nat, term: nat, state: S, cursor: nat)

  // ------------------------------------------------------------------ storage

  /** What storage holds up to `k` is what was committed. */
  ghost predicate HoldsCommitted(es: seq<Entry>, committed: seq<Entry>, k: nat) {
    forall i {:trigger es[i]} :: 0 <= i < |es| && es[i].index <= k ==> 1 <= es[i].index <= |committed| && es[i] == committed[es[i].index - 1]
  }

  /** Consecutive entries that agree with the committed log up to `k`, under a key like the fold. */
  ghost predicate Held(es: seq<Entry>, committed: seq<Entry>, k: nat) {
    forall key: nat {:trigger Key(key)} :: Key(key) ==> NL.Contiguous(es) && HoldsCommitted(es, committed, k)
  }

  lemma HeldIs(es: seq<Entry>, committed: seq<Entry>, k: nat)
    ensures Held(es, committed, k) <==> NL.Contiguous(es) && HoldsCommitted(es, committed, k)
  {
    assert Key(0);
  }

  /** Snapshot and log together reach `high`: the log takes up where the snapshot ends, or earlier, and goes on to `high`. */
  predicate Covers(es: seq<Entry>, boundary: nat, high: nat) {
    if es == [] then high <= boundary
    else es[0].index <= boundary + 1 && Max(boundary, high) < es[0].index + |es|
  }

  /** So every index between them is stored. */
  lemma CoversEach(es: seq<Entry>, boundary: nat, high: nat, i: nat)
    requires Covers(es, boundary, high) && boundary < i <= high
    ensures NL.StoredEntry(es, i).Some?
  {
  }

  /** Cutting below keeps every entry from the cut on. */
  lemma CutBelowKeeps(es: seq<Entry>, upTo: nat, i: nat)
    requires NL.Contiguous(es)
    ensures NL.Contiguous(NL.CutBelow(es, upTo))
    ensures NL.StoredEntry(NL.CutBelow(es, upTo), i) == if i < upTo then None else NL.StoredEntry(es, i)
  {
  }

  lemma CutHolds(es: seq<Entry>, committed: seq<Entry>, k: nat, upTo: nat)
    requires NL.Contiguous(es) && HoldsCommitted(es, committed, k)
    ensures HoldsCommitted(NL.CutBelow(es, upTo), committed, k)
  {
    var r := NL.CutBelow(es, upTo);
    if r != [] && r != es {
      assert forall i :: 0 <= i < |r| ==> r[i] == es[i + (upTo - es[0].index)];
    }
  }

  /** Cutting below the boundary keeps the rest, and the reach. */
  lemma CutAll(es: seq<Entry>, committed: seq<Entry>, boundary: nat, high: nat, upTo: nat)
    requires Held(es, committed, high) && Covers(es, boundary, high) && upTo <= boundary <= high
    ensures var r := NL.CutBelow(es, upTo);
            && Held(r, committed, high) && Covers(r, boundary, high)
            && forall i: nat :: NL.StoredEntry(r, i) != NL.StoredEntry(es, i) ==> i < upTo
  {
    HeldIs(es, committed, high);
    HeldIs(NL.CutBelow(es, upTo), committed, high);
    CutBelowKeeps(es, upTo, 0);
    CutHolds(es, committed, high, upTo);
    forall i: nat
      ensures NL.StoredEntry(NL.CutBelow(es, upTo), i) != NL.StoredEntry(es, i) ==> i < upTo
    {
      CutBelowKeeps(es, upTo, i);
    }
  }

  /** The entry an index names is the committed one. */
  lemma StoredIsCommitted(es: seq<Entry>, committed: seq<Entry>, k: nat, i: nat)
    requires Held(es, committed, k) && i <= k && NL.StoredEntry(es, i).Some?
    ensures 1 <= i <= |committed| && NL.StoredEntry(es, i).value == committed[i - 1]
  {
    HeldIs(es, committed, k);
    var j := i - es[0].index;
    assert es[j].index == i;
  }

  lemma CutThrough(es: seq<Entry>, committed: seq<Entry>, k: nat, index: nat)
    requires NL.Contiguous(es) && HoldsCommitted(es, committed, k)
    ensures HoldsCommitted(NL.CutBelow(es, index + 1), committed, Max(k, index))
  {
    CutHolds(es, committed, k, index + 1);
    var r := NL.CutBelow(es, index + 1);
    assert forall i :: 0 <= i < |r| ==> r[i].index > index;
  }

  lemma RestoredHolds(es: seq<Entry>, committed: seq<Entry>, k: nat, index: nat, term: nat)
    requires Held(es, committed, k) && index > 0
    ensures Held(NL.Restored(es, index, term), committed, Max(k, index))
  {
    HeldIs(es, committed, k);
    CutBelowKeeps(es, index + 1, 0);
    CutThrough(es, committed, k, index);
  }

  /** A true snapshot never conflicts with an entry known to be committed. */
  lemma NoConflict(es: seq<Entry>, committed: seq<Entry>, high: nat, index: nat)
    requires Held(es, committed, high) && 0 < index <= high && index <= |committed|
    ensures NL.Restored(es, index, committed[index - 1].term) == NL.CutBelow(es, index + 1)
  {
    if NL.StoredEntry(es, index).Some? { StoredIsCommitted(es, committed, high, index); }
  }

  /**
   Installing a true snapshot leaves everything once committed within reach exactly
   when it is not older than the one it replaces, or the log still holds the entry
   that follows it.
   */
  lemma InstallKeepsIff(es: seq<Entry>, committed: seq<Entry>, boundary: nat, high: nat, index: nat)
    requires Held(es, committed, high) && Covers(es, boundary, high) && boundary <= high
    requires 0 < index <= |committed|
    ensures Covers(NL.Restored(es, index, committed[index - 1].term), index, Max(high, index))
       <==> index >= boundary || NL.StoredEntry(es, index + 1).Some?
  {
    HeldIs(es, committed, high);
    if index <= high { NoConflict(es, committed, high, index); }
  }

  /** Restoring the snapshot on disk keeps everything committed in reach. */
  lemma RestoreKeeps(es: seq<Entry>, committed: seq<Entry>, high: nat, index: nat)
    requires Held(es, committed, high) && Covers(es, index, high) && 0 < index <= high && index <= |committed|
    ensures var r := NL.Restored(es, index, committed[index - 1].term);
            Held(r, committed, high) && Covers(r, index, high)
  {
    RestoredHolds(es, committed, high, index, committed[index - 1].term);
    InstallKeepsIff(es, committed, index, high, index);
  }

  /** The next index above the boundary is stored, as committed. */
  lemma NextStored(es: seq<Entry>, committed: seq<Entry>, boundary: nat, high: nat, i: nat)
    requires Held(es, committed, high) && Covers(es, boundary, high) && boundary < i <= high
    ensures i <= |committed| && NL.StoredEntry(es, i) == Some(committed[i - 1])
  {
    CoversEach(es, boundary, high, i);
    StoredIsCommitted(es, committed, high, i);
  }

  /** A late, older install strands the node: two entries committed and restored, then the snapshot of the first again. */
  lemma LateInstallStrands(a: Entry, b: Entry)
    requires a.index == 1 && b.index == 2
    ensures var es := NL.Restored([a, b], 2, b.term);
            && Covers(es, 2, 2)
            && !Covers(NL.Restored(es, 1, a.term), 1, 2) && NL.StoredEntry(NL.Restored(es, 1, a.term), 2) == None
  {
  }

  /** Where the batch first differs from storage lies above everything committed. */
  lemma DiffersAbove(es: seq<Entry>, committed: seq<Entry>, boundary: nat, high: nat, prev: nat, batch: seq<Entry>)
    requires Held(es, committed, high) && Covers(es, boundary, high)
    requires NL.Follows(batch, prev) && HoldsCommitted(batch, committed, high)
    requires if es == [] then prev == boundary else NL.Reachable(es, prev)
    ensures var k := NL.Matching(es, batch); k < |batch| ==> batch[k].index > high
  {
    var k := NL.Matching(es, batch);
    if k < |batch| && batch[k].index <= high {
      HeldIs(es, committed, high);
      CoversEachBatch(es, boundary, high, batch[k].index);
      StoredIsCommitted(es, committed, high, batch[k].index);
      assert false;
    }
  }

  lemma CoversEachBatch(es: seq<Entry>, boundary: nat, high: nat, i: nat)
    requires Covers(es, boundary, high) && i <= high
    requires if es == [] then i > boundary else es[0].index <= i
    ensures NL.StoredEntry(es, i).Some?
  {
  }

  /** Storing a batch that agrees with what was committed changes nothing up to `high` and stays in reach. */
  lemma StoreKeeps(es: seq<Entry>, committed: seq<Entry>, boundary: nat, high: nat, prev: nat, batch: seq<Entry>)
    requires Held(es, committed, high) && Covers(es, boundary, high) && boundary <= high
    requires NL.Follows(batch, prev) && HoldsCommitted(batch, committed, high)
    requires if es == [] then prev == boundary else NL.Reachable(es, prev)
    ensures Held(NL.Merged(es, batch), committed, high) && Covers(NL.Merged(es, batch), boundary, high)
  {
    HeldIs(es, committed, high);
    HeldIs(NL.Merged(es, batch), committed, high);
    var k := NL.Matching(es, batch);
    DiffersAbove(es, committed, boundary, high, prev, batch);
    NL.MergedIs(es, prev, batch, 0);
    if k < |batch| {
      var base := NL.CutFrom(es, batch[k].index);
      NL.CutReaches(es, prev, batch, k);
      var r := base + batch[k..];
      forall i | 0 <= i < |r| && r[i].index <= high
        ensures 1 <= r[i].index <= |committed| && r[i] == committed[r[i].index - 1]
      {
        if i < |base| { assert r[i] == es[i]; }
      }
    }
  }

  lemma HeldMore(es: seq<Entry>, a: seq<Entry>, more: seq<Entry>, k: nat, k': nat)
    requires Held(es, a, k) && k <= k' && (k < k' ==> HoldsCommitted(es, a + more, k'))
    ensures Held(es, a + more, k')
  {
    HeldIs(es, a, k);
    HeldIs(es, a + more, k');
  }

  /** The limits that drive compaction. */
  datatype Limits = Limits(entries: nat, bytes: nat, retain: nat)

  class Applier<S> {
    const init: S
    const step: (S, nat, seq<Byte>) -> S
    const limits: Limits
    /** Whether the state machine keeps its effects, and how far they reach, across restarts. */
    const durable: bool
    var machine: S
    var cursor: nat
    var commit: nat
    var lastApplied: nat
    var entries: seq<Entry>
    var snapshot: Option<Snapshot<S>>
    var debtEntries: nat
    var debtBytes: nat
    var leading: bool
    var voters: seq<PeerId>
    var self: PeerId
    var progress: map<PeerId, Progress>
    var installing: bool
    /** The log the cluster agreed on, and the highest index this node ever knew committed, in any process. */
    ghost var committed: seq<Entry>
    ghost var high: nat

    function Boundary(): nat
      reads this`snapshot
    {
      if snapshot.Some? then snapshot.value.index else 0
    }

    ghost predicate Folded(state: S, applied: nat, cursor: nat)
      reads this`committed
    {
      FoldedTo(init, step, committed, durable, state, applied, cursor)
    }

    ghost predicate SnapshotOk(s: Snapshot<S>)
      reads this`committed
    {
      0 < s.index <= |committed| && s.term == committed[s.index - 1].term && Folded(s.state, s.index, s.cursor)
    }

    /** Machine and snapshot are folds of the committed log, and storage agrees with it. */
    ghost predicate Core()
      reads this
    {
      && lastApplied <= commit <= high <= |committed| && |committed| < U64_MAX - 1
      && Held(entries, committed, high)
      && Folded(machine, lastApplied, cursor)
      && Boundary() <= high && (snapshot.Some? ==> SnapshotOk(snapshot.value))
    }

    /** ... and everything the node ever knew committed is in the snapshot or in the log. */
    ghost predicate Valid()
      reads this
    {
      Core() && Covers(entries, Boundary(), high)
    }

    constructor (init: S, step: (S, nat, seq<Byte>) -> S, limits: Limits, durable: bool, self: PeerId, voters: seq<PeerId>)
      ensures Valid() && lastApplied == 0 && entries == [] && committed == []
    {
      this.init, this.step, this.limits, this.durable := init, step, limits, durable;
      machine, cursor, commit, lastApplied, entries, snapshot := init, 0, 0, 0, [], None;
      debtEntries, debtBytes, leading, installing := 0, 0, false, false;
      this.self, this.voters, progress, committed, high := self, voters, map[], [], 0;
      new;
      HeldIs([], [], 0);
      FoldedIsAt(init, step, committed, durable, machine, 0, 0);
    }

    /** Consensus moves the commit index, to something known already or over entries storage holds. */
    method AdvanceCommit(k: nat, ghost more: seq<Entry>)
      requires Valid() && commit <= k <= |committed + more| && |committed + more| < U64_MAX - 1
      requires k > high ==> NL.StoredEntry(entries, k).Some? && HoldsCommitted(entries, committed + more, k)
      modifies this`commit, this`committed, this`high
      ensures Valid() && commit == k && committed == old(committed) + more && high == Max(old(high), k)
    {
      FoldedMore(init, step, committed, more, durable, machine, lastApplied, cursor);
      if snapshot.Some? {
        var s := snapshot.value;
        FoldedMore(init, step, committed, more, durable, s.state, s.index, s.cursor);
      }
      HeldMore(entries, committed, more, high, Max(high, k));
      committed := committed + more;
      commit := k;
      if high < k { high := k; }
    }

    /** A batch from a leader or of its own: it agrees with what is committed, and meets the log or the snapshot. */
    method Store(prev: nat, batch: seq<Entry>)
      requires Valid() && NL.Follows(batch, prev) && HoldsCommitted(batch, committed, high)
      requires if entries == [] then prev == Boundary() else NL.Reachable(entries, prev)
      modifies this`entries
      ensures Valid() && entries == NL.Merged(old(entries), batch)
    {
      StoreKeeps(entries, committed, Boundary(), high, prev, batch);
      entries := NL.Merged(entries, batch);
    }

    /** A restarted process keeps storage and snapshot, and the machine only if it is durable itself. */
    method Restart()
      requires Valid()
      modifies this`machine, this`commit, this`lastApplied, this`debtEntries, this`debtBytes, this`leading, this`progress, this`installing
      ensures Valid() && lastApplied == 0 && commit == 0
      ensures machine == if durable then old(machine) else init
    {
      FoldedAnew(init, step, committed, durable, machine, lastApplied, cursor);
      if !durable { machine := init; }
      commit, lastApplied := 0, 0;
      debtEntries, debtBytes, leading, progress, installing := 0, 0, false, map[], false;
    }

    /** A snapshot arrived whole from a leader. Older ones are saved like newer ones. */
    method SaveInstalled(s: Snapshot<S>)
      requires Valid() && SnapshotOk(s)
      modifies this`snapshot, this`commit, this`entries, this`high
      ensures Core() && snapshot == Some(s) && commit == Max(old(commit), s.index) && high == Max(old(high), s.index)
      ensures entries == NL.Restored(old(entries), s.index, s.term)
      ensures Valid() <==> s.index >= old(Boundary()) || NL.StoredEntry(old(entries), s.index + 1).Some?
    {
      RestoredHolds(entries, committed, high, s.index, s.term);
      InstallKeepsIff(entries, committed, Boundary(), high, s.index);
      snapshot := Some(s);
      if commit < s.index { commit := s.index; }
      if high < s.index { high := s.index; }
      entries := NL.Restored(entries, s.index, s.term);
    }

    /** Take over the state of the on-disk snapshot, and drop the log below it. */
    method TakeSnapshot()
      requires Valid() && snapshot.Some? && snapshot.value.index > lastApplied
      modifies this`machine, this`cursor, this`commit, this`lastApplied, this`entries
      ensures Valid() && lastApplied == snapshot.value.index && commit == Max(old(commit), lastApplied)
      ensures machine == snapshot.value.state && entries == NL.Restored(old(entries), lastApplied, snapshot.value.term)
    {
      var s := snapshot.value;
      RestoreKeeps(entries, committed, high, s.index);
      machine, cursor := s.state, s.cursor;
      if commit < s.index { commit := s.index; }
      lastApplied := s.index;
      entries := NL.Restored(entries, s.index, s.term);
    }

    /** Jump to the on-disk snapshot if it is ahead. */
    method RestoreFromSnapshot() returns (restored: bool)
      requires Valid()
      modifies this`machine, this`cursor, this`commit, this`lastApplied, this`entries, this`debtEntries, this`debtBytes
      ensures Valid() && commit >= old(commit) && lastApplied >= old(lastApplied) && lastApplied >= Boundary()
      ensures restored <==> snapshot.Some? && snapshot.value.index > old(lastApplied)
      ensures restored ==> lastApplied == snapshot.value.index && entries == NL.Restored(old(entries), lastApplied, snapshot.value.term)
      ensures restored ==> machine == snapshot.value.state && commit == Max(old(commit), lastApplied)
      ensures !restored ==> lastApplied == old(lastApplied) && entries == old(entries) && commit == old(commit)
    {
      if snapshot.None? || snapshot.value.index <= lastApplied { return false; }
      TakeSnapshot();
      debtEntries, debtBytes := 0, 0;
      return true;
    }

    /** The machine takes the entry, unless it is durable and has taken it before. */
    method ApplyAt(index: nat, payload: seq<Byte>)
      requires 0 < index <= |committed| && payload == committed[index - 1].payload && !IsControl(payload)
      requires Folded(machine, index - 1, cursor)
      modifies this`machine, this`cursor
      ensures Folded(machine, index, cursor) && cursor >= old(cursor)
      ensures durable && index <= old(cursor) ==> machine == old(machine) && cursor == old(cursor)
    {
      FoldedNext(init, step, committed, durable, machine, index - 1, cursor);
      if durable && index <= cursor { return; }
      machine := step(machine, index, payload);
      if durable { cursor := index; }
    }

    /** A control entry goes to the membership layer, any other to the machine. */
    method Consume(index: nat, payload: seq<Byte>)
      requires 0 < index <= |committed| && payload == committed[index - 1].payload
      requires Folded(machine, index - 1, cursor)
      modifies this`machine, this`cursor
      ensures Folded(machine, index, cursor)
    {
      if IsControl(payload) {
        FoldedNext(init, step, committed, durable, machine, index - 1, cursor);
      } else {
        ApplyAt(index, payload);
      }
    }

    /** Apply the next committed entry; storage has it. */
    method ApplyOne()
      requires Valid() && Boundary() <= lastApplied < commit
      modifies this`machine, this`cursor, this`lastApplied, this`debtEntries, this`debtBytes
      ensures Valid() && lastApplied == old(lastApplied) + 1
    {
      var next := lastApplied + 1;
      NextStored(entries, committed, Boundary(), high, next);
      var e := NL.StoredEntry(entries, next).value;
      Consume(next, e.payload);
      lastApplied := next;
      debtEntries := debtEntries + 1;
      debtBytes := debtBytes + |e.payload|;
    }

    /** The apply batch: restore, walk the committed entries, compact. It always gets to the commit index. */
    method ApplyCommitted()
      requires Valid()
      modifies this
      ensures Valid() && lastApplied == commit == Max(old(commit), old(Boundary()))
      ensures committed == old(committed) && high == old(high)
      ensures At(init, step, committed, durable, machine, lastApplied, cursor)
    {
      var _ := RestoreFromSnapshot();
      while lastApplied < commit
        invariant Valid() && commit == Max(old(commit), old(Boundary())) && Boundary() == old(Boundary()) <= lastApplied
        invariant committed == old(committed) && high == old(high)
        decreases commit - lastApplied
      {
        ApplyOne();
      }
      var _ := MaybeCompact();
      FoldedIsAt(init, step, committed, durable, machine, lastApplied, cursor);
    }

    /**
     A restarted node gets back: once consensus tells it a commit index it knew
     before, or any lower one, one apply batch brings the machine there, each
     entry taken once more or, by a durable machine, not again.
     */
    method RestartAndReplay(k: nat)
      requires Valid() && k <= high
      modifies this
      ensures Valid() && lastApplied == commit == Max(k, old(Boundary())) && committed == old(committed)
      ensures At(init, step, committed, durable, machine, lastApplied, cursor)
    {
      Restart();
      assert committed + [] == committed;
      AdvanceCommit(k, []);
      ApplyCommitted();
    }

    /** The lowest index every voter is known to hold, capped by what is applied; a follower knows only itself. */
    method Horizon() returns (h: nat)
      ensures h <= lastApplied
      ensures leading ==> forall v :: v in voters && v != self ==> h <= (if v in progress then progress[v].matched else 0)
      ensures h == lastApplied || (leading && exists v :: v in voters && v != self && h == (if v in progress then progress[v].matched else 0))
    {
      h := lastApplied;
      if leading {
        for i := 0 to |voters|
          invariant h <= lastApplied
          invariant forall j :: 0 <= j < i && voters[j] != self ==> h <= (if voters[j] in progress then progress[voters[j]].matched else 0)
          invariant h == lastApplied || exists v :: v in voters && v != self && h == (if v in progress then progress[v].matched else 0)
        {
          if voters[i] != self {
            var matched := if voters[i] in progress then progress[voters[i]].matched else 0;
            if matched < h { h := matched; }
          }
        }
      }
    }

    /** Snapshot at `lastApplied` and drop a safe prefix, when the debt asks for it. */
    method MaybeCompact() returns (ran: bool)
      requires Valid()
      modifies this`snapshot, this`entries, this`debtEntries, this`debtBytes
      ensures Valid()
      ensures !ran ==> entries == old(entries) && snapshot == old(snapshot)
      ensures ran ==> lastApplied > 0 && snapshot.Some? && snapshot.value.index == lastApplied && snapshot.value.state == machine
      ensures forall i: nat :: NL.StoredEntry(entries, i) != NL.StoredEntry(old(entries), i) ==> i < lastApplied
      ensures leading ==> forall i: nat, v :: v in voters && v != self && NL.StoredEntry(entries, i) != NL.StoredEntry(old(entries), i) ==>
                i < (if v in progress then progress[v].matched else 0)
    {
      var byEntries := limits.entries != 0 && debtEntries >= limits.entries;
      var byBytes := limits.bytes != 0 && debtBytes >= limits.bytes;
      if !byEntries && !byBytes { return false; }
      if installing || lastApplied == 0 { return false; }
      if snapshot.Some? && snapshot.value.index >= lastApplied {
        debtEntries, debtBytes := 0, 0;
        return false;
      }
      var horizon := Horizon();
      var upTo := SatSub(horizon, limits.retain);
      Compact(upTo);
      return true;
    }

    method SaveOwn()
      requires Valid() && Boundary() < lastApplied
      modifies this`snapshot, this`debtEntries, this`debtBytes
      ensures Valid() && snapshot.Some? && snapshot.value.index == lastApplied && snapshot.value.state == machine
    {
      NextStored(entries, committed, Boundary(), high, lastApplied);
      var boundary := NL.StoredEntry(entries, lastApplied).value;
      snapshot := Some(Snapshot(lastApplied, boundary.term, machine, cursor));
      debtEntries, debtBytes := 0, 0;
    }

    method Compact(upTo: nat)
      requires Valid() && upTo <= lastApplied && Boundary() < lastApplied
      modifies this`snapshot, this`entries, this`debtEntries, this`debtBytes
      ensures Valid() && snapshot.Some? && snapshot.value.index == lastApplied && snapshot.value.state == machine
      ensures forall i: nat :: NL.StoredEntry(entries, i) != NL.StoredEntry(old(entries), i) ==> i < upTo
    {
      SaveOwn();
      CutAll(entries, committed, Boundary(), high, upTo);
      if upTo > 0 { entries := NL.CutBelow(entries, upTo); }
    }
  }
}
