/**
 Majorities: the vote predicate, the commit-quorum index and the joint
 (two-majority) forms of both.
 */
module Quorums {
  import opened Types

  /** Size of a strict majority of `n` voters. */
  function Quorum(n: nat): nat { n / 2 + 1 }

  /** The effective voter configuration: one list, or an old/new pair in transition. */
  datatype Voters = Simple(peers: seq<PeerId>) | Joint(older: seq<PeerId>, newer: seq<PeerId>)

  // ---------------------------------------------------------------- votes

  /** How many members of `subset` occur in `granted`. */
  function CountIn(subset: seq<PeerId>, granted: seq<PeerId>): nat {
    if subset == [] then 0
    else (if subset[0] in granted then 1 else 0) + CountIn(subset[1..], granted)
  }

  predicate SubsetVoteMajority(subset: seq<PeerId>, granted: seq<PeerId>) {
    CountIn(subset, granted) >= Quorum(|subset|)
  }

  /** The shared majority predicate: the plain form counts the list, the joint form counts each side. */
  predicate VoterMajority(voters: Voters, granted: seq<PeerId>) {
    match voters
    case Simple(peers) => |granted| >= Quorum(|peers|)
    case Joint(older, newer) => SubsetVoteMajority(older, granted) && SubsetVoteMajority(newer, granted)
  }

  // --------------------------------------------------------- commit index

  /** The index a voter is known to hold: the leader's own tip, a peer's match index, or 0. */
  function AckOf(progress: map<PeerId, Progress>, self: PeerId, last: nat, p: PeerId): nat {
    if p == self then last else if p in progress then progress[p].matched else 0
  }

  function Acks(progress: map<PeerId, Progress>, self: PeerId, last: nat, subset: seq<PeerId>): (r: seq<nat>)
    ensures |r| == |subset|
    ensures forall i :: 0 <= i < |r| ==> r[i] == AckOf(progress, self, last, subset[i])
  {
    if subset == [] then []
    else [AckOf(progress, self, last, subset[0])] + Acks(progress, self, last, subset[1..])
  }

  function InsertDesc(x: nat, s: seq<nat>): (r: seq<nat>)
    ensures |r| == |s| + 1
  {
    if s == [] || x >= s[0] then [x] + s else [s[0]] + InsertDesc(x, s[1..])
  }

  /** The library sort used by the source, largest first. */
  function SortDesc(s: seq<nat>): (r: seq<nat>)
    ensures |r| == |s|
  {
    if s == [] then [] else InsertDesc(s[0], SortDesc(s[1..]))
  }

  predicate Descending(s: seq<nat>) {
    forall i, j :: 0 <= i < j < |s| ==> s[i] >= s[j]
  }

  /** How many values are at least `k`. */
  function CountAtLeast(s: seq<nat>, k: nat): (c: nat)
    ensures c <= |s|
  {
    if s == [] then 0 else (if s[0] >= k then 1 else 0) + CountAtLeast(s[1..], k)
  }

  /** Sort the acks and pick the quorum-th largest. */
  function QuorumIndex(progress: map<PeerId, Progress>, self: PeerId, last: nat, subset: seq<PeerId>): Option<nat> {
    if subset == [] then None
    else Some(SortDesc(Acks(progress, self, last, subset))[Quorum(|subset|) - 1])
  }

  /** A strict majority of `subset` has acknowledged index `k`. */
  predicate MajorityAcked(progress: map<PeerId, Progress>, self: PeerId, last: nat, subset: seq<PeerId>, k: nat) {
    CountAtLeast(Acks(progress, self, last, subset), k) >= Quorum(|subset|)
  }

  lemma {:induction false} InsertKeepsOrder(x: nat, s: seq<nat>)
    requires Descending(s)
    ensures Descending(InsertDesc(x, s))
    ensures forall y :: y in InsertDesc(x, s) <==> y == x || y in s
  {
    if s == [] || x >= s[0] {
    } else {
      InsertKeepsOrder(x, s[1..]);
      var t := InsertDesc(x, s[1..]);
      assert s == [s[0]] + s[1..];
      forall j | 0 <= j < |t|
        ensures s[0] >= t[j]
      {
        assert t[j] in t;
        if t[j] != x {
          var i :| 0 <= i < |s[1..]| && s[1..][i] == t[j];
          assert s[i + 1] == t[j];
        }
      }
    }
  }

  lemma {:induction false} InsertCounts(x: nat, s: seq<nat>, k: nat)
    ensures CountAtLeast(InsertDesc(x, s), k) == (if x >= k then 1 else 0) + CountAtLeast(s, k)
  {
    if s == [] || x >= s[0] {
      assert ([x] + s)[1..] == s;
    } else {
      InsertCounts(x, s[1..], k);
      assert ([s[0]] + InsertDesc(x, s[1..]))[1..] == InsertDesc(x, s[1..]);
    }
  }

  /** Sorting orders the acks without changing how many reach any index. */
  lemma {:induction false} SortIsFaithful(s: seq<nat>, k: nat)
    ensures Descending(SortDesc(s))
    ensures CountAtLeast(SortDesc(s), k) == CountAtLeast(s, k)
  {
    if s != [] {
      SortIsFaithful(s[1..], k);
      InsertKeepsOrder(s[0], SortDesc(s[1..]));
      InsertCounts(s[0], SortDesc(s[1..]), k);
    }
  }

  /** In a descending list, position `i` separates the values that reach `k` from those that do not. */
  lemma {:induction false} DescendingCount(s: seq<nat>, i: nat, k: nat)
    requires Descending(s) && i < |s|
    ensures CountAtLeast(s, k) > i <==> s[i] >= k
  {
    if i == 0 {
      if s[0] < k { NoneReach(s, k); }
    } else {
      assert s[0] >= s[i];
      DescendingCount(s[1..], i - 1, k);
      if s[0] < k { NoneReach(s, k); }
    }
  }

  lemma {:induction false} NoneReach(s: seq<nat>, k: nat)
    requires forall i :: 0 <= i < |s| ==> s[i] < k
    ensures CountAtLeast(s, k) == 0
  {
    if s != [] { NoneReach(s[1..], k); }
  }

  /** The commit rule: sort-and-pick is the greatest index a strict majority acknowledged. */
  lemma QuorumIndexIsGreatest(progress: map<PeerId, Progress>, self: PeerId, last: nat, subset: seq<PeerId>, k: nat)
    requires subset != []
    ensures QuorumIndex(progress, self, last, subset).Some?
    ensures k <= QuorumIndex(progress, self, last, subset).value <==> MajorityAcked(progress, self, last, subset, k)
  {
    var acks := Acks(progress, self, last, subset);
    SortIsFaithful(acks, k);
    DescendingCount(SortDesc(acks), Quorum(|subset|) - 1, k);
  }

  /** The joint rule: the smaller side index is the greatest index both majorities reach. */
  lemma JointIndexIsGreatest(progress: map<PeerId, Progress>, self: PeerId, last: nat,
                             older: seq<PeerId>, newer: seq<PeerId>, k: nat)
    requires older != [] && newer != []
    ensures k <= Min(QuorumIndex(progress, self, last, older).value, QuorumIndex(progress, self, last, newer).value)
       <==> MajorityAcked(progress, self, last, older, k) && MajorityAcked(progress, self, last, newer, k)
  {
    QuorumIndexIsGreatest(progress, self, last, older, k);
    QuorumIndexIsGreatest(progress, self, last, newer, k);
  }

  /** Whether `k` satisfies the commit quorum of the effective configuration, via the picked index. */
  predicate MeetsCommitQuorum(voters: Voters, progress: map<PeerId, Progress>, self: PeerId, last: nat, k: nat) {
    match voters
    case Simple(peers) =>
      var q := QuorumIndex(progress, self, last, peers);
      q.Some? && q.value >= k
    case Joint(older, newer) =>
      var o := QuorumIndex(progress, self, last, older);
      var n := QuorumIndex(progress, self, last, newer);
      o.Some? && o.value >= k && n.Some? && n.value >= k
  }

  /** The propose-time predicate is exactly the counting predicate (an empty side never passes). */
  lemma MeetsIsCounting(voters: Voters, progress: map<PeerId, Progress>, self: PeerId, last: nat, k: nat)
    ensures MeetsCommitQuorum(voters, progress, self, last, k) <==>
            match voters
            case Simple(peers) => peers != [] && MajorityAcked(progress, self, last, peers, k)
            case Joint(older, newer) =>
              older != [] && newer != [] &&
              MajorityAcked(progress, self, last, older, k) && MajorityAcked(progress, self, last, newer, k)
  {
    match voters
    case Simple(peers) =>
      if peers != [] { QuorumIndexIsGreatest(progress, self, last, peers, k); }
    case Joint(older, newer) =>
      if older != [] { QuorumIndexIsGreatest(progress, self, last, older, k); }
      if newer != [] { QuorumIndexIsGreatest(progress, self, last, newer, k); }
  }

  /** How many peers the configuration replicates to, the leader included. */
  function PeerCount(voters: Voters): nat {
    match voters
    case Simple(peers) => |peers|
    case Joint(older, newer) => |Union(older, newer)|
  }

  /** The index the run loop would commit: the plain one, or the smaller of the two sides; none if a side is empty. */
  function CommitIndex(voters: Voters, progress: map<PeerId, Progress>, self: PeerId, last: nat): Option<nat> {
    match voters
    case Simple(peers) => QuorumIndex(progress, self, last, peers)
    case Joint(older, newer) =>
      var o := QuorumIndex(progress, self, last, older);
      var n := QuorumIndex(progress, self, last, newer);
      if o.Some? && n.Some? then Some(Min(o.value, n.value)) else None
  }

  /** It is the greatest index that satisfies the commit quorum, and there is none exactly when no index does. */
  lemma CommitIndexIsGreatest(voters: Voters, progress: map<PeerId, Progress>, self: PeerId, last: nat, k: nat)
    ensures CommitIndex(voters, progress, self, last).Some? <==> MeetsCommitQuorum(voters, progress, self, last, 0)
    ensures CommitIndex(voters, progress, self, last).Some? ==>
              (k <= CommitIndex(voters, progress, self, last).value <==> MeetsCommitQuorum(voters, progress, self, last, k))
  {
  }

  /** The gather loop of the source: refill the ack buffer, sort it, pick. */
  method SubsetQuorumIndex(progress: map<PeerId, Progress>, self: PeerId, subset: seq<PeerId>, last: nat)
    returns (q: Option<nat>)
    ensures q == QuorumIndex(progress, self, last, subset)
    ensures q.Some? <==> subset != []
    ensures q.Some? ==> forall k: nat :: k <= q.value <==> MajorityAcked(progress, self, last, subset, k)
  {
    if subset == [] {
      return None;
    }
    var acks: seq<nat> := [];
    for i := 0 to |subset|
      invariant |acks| == i
      invariant forall j :: 0 <= j < i ==> acks[j] == AckOf(progress, self, last, subset[j])
    {
      var p := subset[i];
      var m := if p == self then last else if p in progress then progress[p].matched else 0;
      acks := acks + [m];
    }
    assert acks == Acks(progress, self, last, subset);
    acks := SortDesc(acks);
    q := Some(acks[Quorum(|subset|) - 1]);
    forall k: nat
      ensures k <= q.value <==> MajorityAcked(progress, self, last, subset, k)
    {
      QuorumIndexIsGreatest(progress, self, last, subset, k);
    }
  }

  // -------------------------------------------------------- intersections

  /** The members of `s` in `x` form a strict majority of `s`. */
  ghost predicate MajorityOf(s: seq<PeerId>, x: set<PeerId>) {
    |Elements(s) * x| >= Quorum(|s|)
  }

  lemma {:induction false} DistinctSize(s: seq<PeerId>)
    requires Distinct(s)
    ensures |Elements(s)| == |s|
  {
    if s != [] {
      DistinctSize(s[1..]);
      assert Elements(s) == {s[0]} + Elements(s[1..]);
      assert s[0] !in Elements(s[1..]);
    } else {
      assert Elements(s) == {};
    }
  }

  /** Two majorities of one duplicate-free list share a member. */
  lemma MajoritiesMeet(s: seq<PeerId>, x: set<PeerId>, y: set<PeerId>) returns (p: PeerId)
    requires Distinct(s) && MajorityOf(s, x) && MajorityOf(s, y)
    ensures p in s && p in x && p in y
  {
    DistinctSize(s);
    var a, b := Elements(s) * x, Elements(s) * y;
    if a * b == {} {
      assert |a + b| == |a| + |b|;
      SubsetSize(a + b, Elements(s));
      assert false;
    }
    p :| p in a * b;
  }

  lemma {:induction false} SubsetSize(a: set<PeerId>, b: set<PeerId>)
    requires a <= b
    ensures |a| <= |b|
    decreases |a|
  {
    if a != {} {
      var x :| x in a;
      SubsetSize(a - {x}, b - {x});
    }
  }

  lemma {:induction false} CountIsIntersection(s: seq<PeerId>, granted: seq<PeerId>)
    requires Distinct(s)
    ensures CountIn(s, granted) == |Elements(s) * Elements(granted)|
  {
    if s == [] {
      assert Elements(s) * Elements(granted) == {};
    } else {
      CountIsIntersection(s[1..], granted);
      var rest := Elements(s[1..]) * Elements(granted);
      if s[0] in granted {
        assert Elements(s) * Elements(granted) == {s[0]} + rest;
        assert s[0] !in rest;
      } else {
        assert Elements(s) * Elements(granted) == rest;
      }
    }
  }

  /** The members of `s` known to hold index `k`. */
  function Ackers(progress: map<PeerId, Progress>, self: PeerId, last: nat, s: seq<PeerId>, k: nat): set<PeerId> {
    set p | p in s && AckOf(progress, self, last, p) >= k
  }

  lemma {:induction false} CountAcksIsIntersection(progress: map<PeerId, Progress>, self: PeerId, last: nat,
                                                  s: seq<PeerId>, k: nat)
    requires Distinct(s)
    ensures CountAtLeast(Acks(progress, self, last, s), k) == |Ackers(progress, self, last, s, k)|
  {
    var x := Ackers(progress, self, last, s, k);
    if s == [] {
      assert x == {};
    } else {
      CountAcksIsIntersection(progress, self, last, s[1..], k);
      AckersSplit(progress, self, last, s, k);
      var acks := Acks(progress, self, last, s);
      assert acks[1..] == Acks(progress, self, last, s[1..]);
    }
  }

  lemma AckersSplit(progress: map<PeerId, Progress>, self: PeerId, last: nat, s: seq<PeerId>, k: nat)
    requires Distinct(s) && s != []
    ensures |Ackers(progress, self, last, s, k)|
         == (if AckOf(progress, self, last, s[0]) >= k then 1 else 0) + |Ackers(progress, self, last, s[1..], k)|
  {
    var rest := Ackers(progress, self, last, s[1..], k);
    assert s == [s[0]] + s[1..];
    if AckOf(progress, self, last, s[0]) >= k {
      assert Ackers(progress, self, last, s, k) == {s[0]} + rest;
      assert s[0] !in rest;
    } else {
      assert Ackers(progress, self, last, s, k) == rest;
    }
  }

  /** Every voter list of a configuration is duplicate-free. */
  predicate WellFormed(v: Voters) {
    match v
    case Simple(peers) => Distinct(peers)
    case Joint(older, newer) => Distinct(older) && Distinct(newer)
  }

  predicate IsVoter(v: Voters, p: PeerId) {
    match v
    case Simple(peers) => p in peers
    case Joint(older, newer) => p in older || p in newer
  }

  /** `granted` is a list the vote collector can build: distinct voters of `v`. */
  predicate VoteList(v: Voters, granted: seq<PeerId>) {
    Distinct(granted) && forall p :: p in granted ==> IsVoter(v, p)
  }

  /** Successive configurations of one membership change: equal, or joined through the joint pair. */
  predicate Adjacent(a: Voters, b: Voters) {
    || a == b
    || (a.Simple? && b.Joint? && (a.peers == b.older || a.peers == b.newer))
    || (b.Simple? && a.Joint? && (b.peers == a.older || b.peers == a.newer))
  }

  /** `side` is one of the lists a configuration takes majorities of. */
  predicate SideOf(v: Voters, side: seq<PeerId>) {
    match v
    case Simple(peers) => side == peers
    case Joint(older, newer) => side == older || side == newer
  }

  lemma VotesCoverSide(v: Voters, granted: seq<PeerId>, side: seq<PeerId>)
    requires WellFormed(v) && VoteList(v, granted) && VoterMajority(v, granted) && SideOf(v, side)
    ensures MajorityOf(side, Elements(granted))
  {
    if v.Simple? {
      DistinctSize(granted);
      assert Elements(side) * Elements(granted) == Elements(granted);
    } else {
      CountIsIntersection(side, granted);
    }
  }

  lemma AcksCoverSide(v: Voters, progress: map<PeerId, Progress>, self: PeerId, last: nat, k: nat, side: seq<PeerId>)
    requires WellFormed(v) && MeetsCommitQuorum(v, progress, self, last, k) && SideOf(v, side)
    ensures MajorityOf(side, Ackers(progress, self, last, side, k))
  {
    MeetsIsCounting(v, progress, self, last, k);
    CountAcksIsIntersection(progress, self, last, side, k);
    var ackers := Ackers(progress, self, last, side, k);
    assert Elements(side) * ackers == ackers;
  }

  /**
   The hand-off: any vote list that wins under one configuration and any acks
   that commit under an equal or adjacent one share a voter.
   */
  lemma HandOff(vv: Voters, granted: seq<PeerId>, av: Voters,
                progress: map<PeerId, Progress>, self: PeerId, last: nat, k: nat) returns (p: PeerId)
    requires WellFormed(vv) && WellFormed(av) && Adjacent(vv, av)
    requires VoteList(vv, granted) && VoterMajority(vv, granted)
    requires MeetsCommitQuorum(av, progress, self, last, k)
    ensures IsVoter(vv, p) && IsVoter(av, p) && p in granted && AckOf(progress, self, last, p) >= k
  {
    var side := if vv.Simple? then vv.peers else if av.Simple? then av.peers else vv.older;
    VotesCoverSide(vv, granted, side);
    AcksCoverSide(av, progress, self, last, k, side);
    p := MajoritiesMeet(side, Elements(granted), Ackers(progress, self, last, side, k));
  }

  /**
   A bare majority of the union is not enough: with three old voters, three new
   ones and one in common, the three new voters are a majority of the union,
   yet none of them holds an index committed by the two old-only voters.
   */
  lemma UnionMajorityMisses(older: seq<PeerId>, newer: seq<PeerId>, progress: map<PeerId, Progress>, last: nat)
    requires older == [1, 2, 3] && newer == [3, 4, 5] && last > 0
    requires progress == map[2 := Progress(last + 1, last)]
    ensures VoteList(Joint(older, newer), newer)
    ensures Elements(older) + Elements(newer) == {1, 2, 3, 4, 5} && |newer| >= Quorum(5)
    ensures MeetsCommitQuorum(Simple(older), progress, 1, last, last)
    ensures forall p :: p in newer ==> AckOf(progress, 1, last, p) < last
    ensures !VoterMajority(Joint(older, newer), newer)
  {
    OldSideCommits(older, progress, last);
    CommonVoterIsNoMajority(older, newer);
  }

  lemma OldSideCommits(older: seq<PeerId>, progress: map<PeerId, Progress>, last: nat)
    requires older == [1, 2, 3] && progress == map[2 := Progress(last + 1, last)] && last > 0
    ensures MeetsCommitQuorum(Simple(older), progress, 1, last, last)
  {
    CountAcksIsIntersection(progress, 1, last, older, last);
    assert Ackers(progress, 1, last, older, last) == {1, 2};
    MeetsIsCounting(Simple(older), progress, 1, last, last);
  }

  lemma CommonVoterIsNoMajority(older: seq<PeerId>, newer: seq<PeerId>)
    requires older == [1, 2, 3] && newer == [3, 4, 5]
    ensures !SubsetVoteMajority(older, newer)
  {
    CountIsIntersection(older, newer);
    assert Elements(older) * Elements(newer) == {3};
  }
}
