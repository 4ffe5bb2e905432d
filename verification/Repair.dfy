/** Leader-side progress: its bounds in every run, and the walk-back that repairs a follower. */
module Repair {
  import opened Types
  import opened Quorums
  import opened NodeSpec
  import opened Cluster
  import opened Prefix
  import ES = ElectionSafety
  import LM = LogMatching
  import CS = CommitSafety
  import SM = StateMachineSafety

  // ----------------------------------------------------------------- exchanges

  /** One append sent from the peer's `next` with the whole backlog, answered, and the answer processed. */
  function Exchange(lead: Node, self: PeerId, peer: PeerId, fol: Node): (Node, Node)
    requires peer in lead.progress && 1 <= lead.progress[peer].next <= |lead.log| + 1
  {
    var prev := lead.progress[peer].next - 1;
    var prevTerm := if prev == 0 then 0 else lead.log[prev - 1].term;
    var (fol', r) := OnAppendRequest(fol, lead.term, self, prev, prevTerm, lead.commit, lead.log[prev..]);
    (if r.Silent? then lead else OnAppendReply(lead, peer, r.term, r.success, r.matched), fol')
  }

  /** The leader and follower can be in one run: their logs match, and the follower is not ahead in term. */
  predicate Pair(lead: Node, fol: Node) {
    && lead.role == Leader && fol.term <= lead.term
    && LM.Agree(fol.log, lead.log) && Indexed(lead.log) && Indexed(fol.log)
    && |lead.log| < U64_MAX && |fol.log| < U64_MAX
  }

  /** The leader's consistency check on the follower's log at the position it would send from. */
  predicate Passes(lead: Node, peer: PeerId, fol: Node)
    requires peer in lead.progress && 1 <= lead.progress[peer].next <= |lead.log| + 1
  {
    var prev := lead.progress[peer].next - 1;
    PrevOk(fol.log, prev, if prev == 0 then 0 else lead.log[prev - 1].term)
  }

  lemma TipOfIndexed(log: seq<Entry>)
    requires Indexed(log)
    ensures TipIndex(log) == |log|
  {
  }

  /** Merging the leader's backlog from an agreed position. */
  lemma BacklogMerges(log: seq<Entry>, lead: seq<Entry>, prev: nat, prevTerm: nat) returns (log': seq<Entry>)
    requires LM.Agree(log, lead) && Indexed(log) && Indexed(lead) && |lead| < U64_MAX && prev <= |lead|
    requires prevTerm == (if prev == 0 then 0 else lead[prev - 1].term) && PrevOk(log, prev, prevTerm)
    ensures Merge(log, prev, lead[prev..]) == Ok(log')
    ensures Cut(lead, log') && |log'| >= |lead| && TipIndex(log') == |log'|
  {
    assert lead[prev..] == lead[prev..prev + |lead[prev..]|];
    LM.MergeFollowsLead(log, lead, prev, prevTerm, lead[prev..]);
    log' := LM.Followed(log, lead, |lead|);
    FollowedWhole(log, lead);
    TipOfIndexed(log');
  }

  lemma FollowerAccepts(lead: Node, self: PeerId, prev: nat, prevTerm: nat, fol: Node, log': seq<Entry>)
    requires fol.term <= lead.term && prev <= |lead.log| && PrevOk(fol.log, prev, prevTerm)
    requires Merge(fol.log, prev, lead.log[prev..]) == Ok(log') && TipIndex(log') == |log'|
    ensures var (fol', r) := OnAppendRequest(fol, lead.term, self, prev, prevTerm, lead.commit, lead.log[prev..]);
            fol'.log == log' && r == Reply(lead.term, true, |log'|)
  {
  }

  lemma LeaderHears(lead: Node, peer: PeerId, matched: nat)
    requires lead.role == Leader && peer in lead.progress && 1 <= lead.progress[peer].next <= |lead.log| + 1
    requires Indexed(lead.log) && |lead.log| < U64_MAX && matched >= |lead.log|
    ensures var lead' := OnAppendReply(lead, peer, lead.term, true, matched);
            && lead'.log == lead.log && peer in lead'.progress
            && lead'.progress[peer].matched >= |lead.log| && lead'.progress[peer].next == |lead.log| + 1
  {
    TipOfIndexed(lead.log);
  }

  /** An accepted exchange leaves the leader's log a prefix of the follower's, and the leader knows it. */
  lemma Accepts(lead: Node, self: PeerId, peer: PeerId, fol: Node)
    requires Pair(lead, fol) && peer in lead.progress && 1 <= lead.progress[peer].next <= |lead.log| + 1
    requires Passes(lead, peer, fol)
    ensures var (lead', fol') := Exchange(lead, self, peer, fol);
            && Cut(lead.log, fol'.log) && lead'.log == lead.log && peer in lead'.progress
            && lead'.progress[peer].matched >= |lead.log| && lead'.progress[peer].next == |lead.log| + 1
  {
    var prev := lead.progress[peer].next - 1;
    var prevTerm := if prev == 0 then 0 else lead.log[prev - 1].term;
    var log' := BacklogMerges(fol.log, lead.log, prev, prevTerm);
    FollowerAccepts(lead, self, prev, prevTerm, fol, log');
    LeaderHears(lead, peer, |log'|);
  }

  /** Following the whole of a leader's log. */
  lemma FollowedWhole(log: seq<Entry>, lead: seq<Entry>)
    requires Indexed(log) && Indexed(lead)
    ensures var log' := LM.Followed(log, lead, |lead|);
            Cut(lead, log') && Indexed(log') && |log'| >= |lead|
  {
    if Same(log, lead, |lead|) {
      SameSym(log, lead, |lead|);
      CutShorter(lead, log);
    } else {
      assert lead[..|lead|] == lead;
      SameSelf(lead, |lead|);
    }
  }

  /**
   A rejected exchange lowers `next` by exactly one, if and only if the hint is
   not below what the leader believes matched; otherwise it changes nothing.
   */
  lemma Rejects(lead: Node, self: PeerId, peer: PeerId, fol: Node)
    requires Pair(lead, fol) && peer in lead.progress && 1 <= lead.progress[peer].next <= |lead.log| + 1
    requires !Passes(lead, peer, fol)
    ensures var (lead', fol') := Exchange(lead, self, peer, fol);
            var p := lead.progress[peer];
            var hint := Min(|fol.log|, p.next - 2);
            && fol'.log == fol.log && p.next >= 2
            && (hint >= p.matched ==> lead' == lead.(progress := lead.progress[peer := p.(next := p.next - 1)]))
            && (hint < p.matched ==> lead' == lead)
  {
    TipOfIndexed(fol.log);
    TipOfIndexed(lead.log);
  }

  // ------------------------------------------------------------------ walk-back

  /** `k` exchanges in a row. */
  function Exchanges(lead: Node, self: PeerId, peer: PeerId, fol: Node, k: nat): (Node, Node)
    decreases k
  {
    if k == 0 || peer !in lead.progress || !(1 <= lead.progress[peer].next <= |lead.log| + 1) then (lead, fol)
    else
      var (lead', fol') := Exchange(lead, self, peer, fol);
      Exchanges(lead', self, peer, fol', k - 1)
  }

  lemma OneMore(lead: Node, self: PeerId, peer: PeerId, fol: Node, k: nat)
    requires peer in lead.progress && 1 <= lead.progress[peer].next <= |lead.log| + 1
    ensures var (lead', fol') := Exchange(lead, self, peer, fol);
            Exchanges(lead, self, peer, fol, k + 1) == Exchanges(lead', self, peer, fol', k)
  {
  }

  /** After `j` exchanges the follower is as before and `next` is `j` lower. */
  predicate WalkedBack(lead: Node, self: PeerId, peer: PeerId, fol: Node, j: nat) {
    var (l, f) := Exchanges(lead, self, peer, fol, j);
    peer in lead.progress && peer in l.progress && l.progress[peer].next == lead.progress[peer].next - j && f.log == fol.log
  }

  /** The leader's log is a prefix of the follower's and the leader knows it. */
  predicate Repaired(lead: Node, self: PeerId, peer: PeerId, fol: Node, k: nat) {
    var (l, f) := Exchanges(lead, self, peer, fol, k);
    Cut(lead.log, f.log) && l.log == lead.log && peer in l.progress && l.progress[peer].matched >= |lead.log|
  }

  lemma FinalRound(lead: Node, self: PeerId, peer: PeerId, fol: Node)
    requires Pair(lead, fol) && peer in lead.progress && 1 <= lead.progress[peer].next <= |lead.log| + 1
    requires Passes(lead, peer, fol)
    ensures Repaired(lead, self, peer, fol, 1)
  {
    Accepts(lead, self, peer, fol);
    OneMore(lead, self, peer, fol, 0);
  }

  lemma NoRound(lead: Node, self: PeerId, peer: PeerId, fol: Node)
    requires peer in lead.progress
    ensures WalkedBack(lead, self, peer, fol, 0)
  {
  }

  /** One exchange that only walks back; under a key, so that proofs about rounds do not unfold the handlers. */
  ghost predicate WalksTo(lead: Node, self: PeerId, peer: PeerId, fol: Node, lead1: Node, fol1: Node) {
    forall key: nat {:trigger Key(key)} :: Key(key) ==>
      && peer in lead.progress && 1 <= lead.progress[peer].next <= |lead.log| + 1
      && (lead1, fol1) == Exchange(lead, self, peer, fol) && lead1.log == lead.log && fol1.log == fol.log
      && peer in lead1.progress && lead1.progress[peer].next == lead.progress[peer].next - 1
  }

  /** What holds from after such an exchange holds from before it, one exchange later. */
  lemma EarlierRound(lead: Node, self: PeerId, peer: PeerId, fol: Node, lead1: Node, fol1: Node, k: nat)
    requires WalksTo(lead, self, peer, fol, lead1, fol1)
    ensures Repaired(lead1, self, peer, fol1, k) ==> Repaired(lead, self, peer, fol, k + 1)
    ensures WalkedBack(lead1, self, peer, fol1, k) ==> WalkedBack(lead, self, peer, fol, k + 1)
  {
    assert Key(0);
    OneMore(lead, self, peer, fol, k);
  }

  /**
   What the leader has recorded leaves room for repair: the walk-back can get down
   to a position where the logs agree. It cannot pass below the recorded match.
   */
  predicate Reparable(lead: Node, peer: PeerId, fol: Node)
    requires peer in lead.progress && 1 <= lead.progress[peer].next <= |lead.log| + 1
  {
    var p := lead.progress[peer];
    if p.matched <= p.next - 1
    then PrevOk(fol.log, p.matched, if p.matched == 0 then 0 else lead.log[p.matched - 1].term)
    else Passes(lead, peer, fol)
  }

  /** A position where the check passes has the leader's entries up to it, so it passes everywhere below. */
  lemma PassesBelow(log: seq<Entry>, lead: seq<Entry>, prev: nat, at: nat)
    requires LM.Agree(log, lead) && at <= prev <= |lead|
    requires PrevOk(log, prev, if prev == 0 then 0 else lead[prev - 1].term)
    ensures PrevOk(log, at, if at == 0 then 0 else lead[at - 1].term)
  {
    if at > 0 {
      assert log[prev - 1].term == lead[prev - 1].term;
      SameAt(log, lead, prev, at - 1);
    }
  }

  /** While repair is possible, a rejected exchange lowers `next` by one and keeps it possible. */
  lemma WalksBack(lead: Node, self: PeerId, peer: PeerId, fol: Node) returns (lead': Node, fol': Node)
    requires Pair(lead, fol) && peer in lead.progress && 1 <= lead.progress[peer].next <= |lead.log| + 1
    requires Reparable(lead, peer, fol) && !Passes(lead, peer, fol)
    ensures (lead', fol') == Exchange(lead, self, peer, fol) && Pair(lead', fol') && fol'.log == fol.log
    ensures lead'.log == lead.log && peer in lead'.progress
    ensures lead.progress[peer].next >= 2 && lead'.progress[peer].next == lead.progress[peer].next - 1
    ensures Reparable(lead', peer, fol')
  {
    Rejects(lead, self, peer, fol);
    lead', fol' := Exchange(lead, self, peer, fol).0, Exchange(lead, self, peer, fol).1;
  }

  lemma EarlierWalks(lead: Node, self: PeerId, peer: PeerId, fol: Node, lead1: Node, fol1: Node, k: nat)
    requires WalksTo(lead, self, peer, fol, lead1, fol1) && peer in lead.progress
    requires forall j {:trigger WalkedBack(lead1, self, peer, fol1, j)} :: 0 <= j < k ==> WalkedBack(lead1, self, peer, fol1, j)
    ensures forall j {:trigger WalkedBack(lead, self, peer, fol, j)} :: 0 <= j < k + 1 ==> WalkedBack(lead, self, peer, fol, j)
  {
    forall j | 0 <= j < k + 1
      ensures WalkedBack(lead, self, peer, fol, j)
    {
      if j == 0 {
        NoRound(lead, self, peer, fol);
      } else {
        EarlierRound(lead, self, peer, fol, lead1, fol1, j - 1);
      }
    }
  }

  /** After how many exchanges the follower is repaired, all before the last having only walked back. */
  ghost function RepairRounds(lead: Node, self: PeerId, peer: PeerId, fol: Node): iset<nat> {
    iset k: nat | Repaired(lead, self, peer, fol, k) && forall j: nat :: j < k ==> WalkedBack(lead, self, peer, fol, j)
  }

  /** Repair is possible; under a key, so that the induction does not unfold it. */
  ghost predicate Ready(lead: Node, peer: PeerId, fol: Node) {
    forall key: nat {:trigger Key(key)} :: Key(key) ==>
      Pair(lead, fol) && peer in lead.progress && 1 <= lead.progress[peer].next <= |lead.log| + 1 && Reparable(lead, peer, fol)
  }

  lemma RoundsEarlier(lead: Node, self: PeerId, peer: PeerId, fol: Node, lead1: Node, fol1: Node)
    requires WalksTo(lead, self, peer, fol, lead1, fol1) && peer in lead.progress
    ensures forall k: nat :: k in RepairRounds(lead1, self, peer, fol1) ==> k + 1 in RepairRounds(lead, self, peer, fol)
  {
    forall k: nat | k in RepairRounds(lead1, self, peer, fol1)
      ensures k + 1 in RepairRounds(lead, self, peer, fol)
    {
      EarlierRound(lead, self, peer, fol, lead1, fol1, k);
      EarlierWalks(lead, self, peer, fol, lead1, fol1, k);
    }
  }

  /** Either the next exchange repairs, or it walks back and repair stays possible. */
  lemma OneRound(lead: Node, self: PeerId, peer: PeerId, fol: Node) returns (done: bool, lead1: Node, fol1: Node)
    requires Ready(lead, peer, fol)
    ensures peer in lead.progress && lead.progress[peer].next >= 1
    ensures done ==> 1 in RepairRounds(lead, self, peer, fol)
    ensures !done ==> Ready(lead1, peer, fol1) && peer in lead1.progress && lead1.progress[peer].next == lead.progress[peer].next - 1
    ensures !done ==> forall k: nat :: k in RepairRounds(lead1, self, peer, fol1) ==> k + 1 in RepairRounds(lead, self, peer, fol)
  {
    assert Key(0);
    done, lead1, fol1 := Passes(lead, peer, fol), lead, fol;
    if done {
      NoRound(lead, self, peer, fol);
      FinalRound(lead, self, peer, fol);
    } else {
      lead1, fol1 := WalksBack(lead, self, peer, fol);
      RoundsEarlier(lead, self, peer, fol, lead1, fol1);
    }
  }

  lemma {:induction false} RepairsFrom(lead: Node, self: PeerId, peer: PeerId, fol: Node, next: nat) returns (k: nat)
    requires Ready(lead, peer, fol) && peer in lead.progress && lead.progress[peer].next == next
    ensures 1 <= k <= next && k in RepairRounds(lead, self, peer, fol)
    decreases next
  {
    var done, lead1, fol1 := OneRound(lead, self, peer, fol);
    if done {
      k := 1;
    } else {
      k := RepairsFrom(lead1, self, peer, fol1, next - 1);
      k := k + 1;
    }
  }

  /**
   Repair: with in-order delivery, where repair is possible, some number of
   exchanges not above `next` makes the leader's log a prefix of the follower's;
   every exchange before the last lowers `next` by one.
   */
  lemma Repairs(lead: Node, self: PeerId, peer: PeerId, fol: Node) returns (k: nat)
    requires Pair(lead, fol) && peer in lead.progress && 1 <= lead.progress[peer].next <= |lead.log| + 1
    requires Reparable(lead, peer, fol)
    ensures 1 <= k <= lead.progress[peer].next && Repaired(lead, self, peer, fol, k)
    ensures forall j {:trigger WalkedBack(lead, self, peer, fol, j)} :: 0 <= j < k ==> WalkedBack(lead, self, peer, fol, j)
  {
    k := RepairsFrom(lead, self, peer, fol, lead.progress[peer].next);
  }

  /** Where the hint is below the recorded match, nothing ever changes again. */
  lemma {:induction false} Stalls(lead: Node, self: PeerId, peer: PeerId, fol: Node, k: nat)
    requires Pair(lead, fol) && peer in lead.progress && 1 <= lead.progress[peer].next <= |lead.log| + 1
    requires !Passes(lead, peer, fol) && Min(|fol.log|, lead.progress[peer].next - 2) < lead.progress[peer].matched
    ensures Exchanges(lead, self, peer, fol, k).0 == lead && Exchanges(lead, self, peer, fol, k).1.log == fol.log
    decreases k
  {
    if k > 0 {
      Rejects(lead, self, peer, fol);
      var fol1 := Exchange(lead, self, peer, fol).1;
      StalledPair(lead, self, peer, fol);
      Stalls(lead, self, peer, fol1, k - 1);
      OneMore(lead, self, peer, fol, k - 1);
    }
  }

  lemma StalledPair(lead: Node, self: PeerId, peer: PeerId, fol: Node)
    requires Pair(lead, fol) && peer in lead.progress && 1 <= lead.progress[peer].next <= |lead.log| + 1
    requires !Passes(lead, peer, fol)
    ensures Pair(lead, Exchange(lead, self, peer, fol).1)
  {
    Rejects(lead, self, peer, fol);
  }

  /** Where repair is not possible the follower's log stays as it is, however many exchanges follow. */
  lemma {:induction false} NeverRepairs(lead: Node, self: PeerId, peer: PeerId, fol: Node, k: nat)
    requires Pair(lead, fol) && peer in lead.progress && 1 <= lead.progress[peer].next <= |lead.log| + 1
    requires !Reparable(lead, peer, fol)
    ensures Exchanges(lead, self, peer, fol, k).1.log == fol.log && !Repaired(lead, self, peer, fol, k)
    decreases k
  {
    NotPassing(lead, peer, fol);
    if k > 0 {
      var lead1, fol1 := StaysBeyond(lead, self, peer, fol);
      NeverRepairs(lead1, self, peer, fol1, k - 1);
      OneMore(lead, self, peer, fol, k - 1);
    }
  }

  /** Beyond repair the check does not pass, so the leader's log is no prefix of the follower's. */
  lemma NotPassing(lead: Node, peer: PeerId, fol: Node)
    requires Pair(lead, fol) && peer in lead.progress && 1 <= lead.progress[peer].next <= |lead.log| + 1
    requires !Reparable(lead, peer, fol)
    ensures !Passes(lead, peer, fol) && !Cut(lead.log, fol.log)
  {
    var p := lead.progress[peer];
    if Passes(lead, peer, fol) { PassesBelow(fol.log, lead.log, p.next - 1, p.matched); }
    if Cut(lead.log, fol.log) { PrefixPasses(lead.log, fol.log, p.next - 1); }
  }

  lemma PrefixPasses(lead: seq<Entry>, log: seq<Entry>, prev: nat)
    requires Cut(lead, log) && prev <= |lead|
    ensures PrevOk(log, prev, if prev == 0 then 0 else lead[prev - 1].term)
  {
    if prev > 0 { SameAt(lead, log, |lead|, prev - 1); }
  }

  lemma StaysBeyond(lead: Node, self: PeerId, peer: PeerId, fol: Node) returns (lead': Node, fol': Node)
    requires Pair(lead, fol) && peer in lead.progress && 1 <= lead.progress[peer].next <= |lead.log| + 1
    requires !Reparable(lead, peer, fol) && !Passes(lead, peer, fol)
    ensures (lead', fol') == Exchange(lead, self, peer, fol) && Pair(lead', fol') && fol'.log == fol.log
    ensures lead'.log == lead.log && peer in lead'.progress && 1 <= lead'.progress[peer].next <= |lead.log| + 1
    ensures !Reparable(lead', peer, fol')
  {
    Rejects(lead, self, peer, fol);
    lead', fol' := Exchange(lead, self, peer, fol).0, Exchange(lead, self, peer, fol).1;
  }

  /** In-order exchanges repair the follower if and only if the recorded match leaves room for it. */
  lemma RepairsIff(lead: Node, self: PeerId, peer: PeerId, fol: Node)
    requires Pair(lead, fol) && peer in lead.progress && 1 <= lead.progress[peer].next <= |lead.log| + 1
    ensures Reparable(lead, peer, fol) <==> exists k {:trigger Repaired(lead, self, peer, fol, k)} ::
              0 <= k <= lead.progress[peer].next && Repaired(lead, self, peer, fol, k)
    ensures !Reparable(lead, peer, fol) ==> forall k: nat {:trigger Repaired(lead, self, peer, fol, k)} ::
              !Repaired(lead, self, peer, fol, k) && Exchanges(lead, self, peer, fol, k).1.log == fol.log
  {
    if Reparable(lead, peer, fol) {
      var k := Repairs(lead, self, peer, fol);
    } else {
      forall k: nat
        ensures !Repaired(lead, self, peer, fol, k) && Exchanges(lead, self, peer, fol, k).1.log == fol.log
      {
        NeverRepairs(lead, self, peer, fol, k);
      }
    }
  }

  // ------------------------------------------------------ bounds in every run

  /** Only a leader tracks peers, and each `next` stays within its log or right after it. */
  predicate BoundOk(nd: Node) {
    && (nd.progress != map[] ==> nd.role == Leader)
    && (forall p :: p in nd.progress ==> 1 <= nd.progress[p].next <= |nd.log| + 1)
  }

  ghost predicate BoundInv(c: State) {
    forall n {:trigger BoundOk(c.nodes[n])} :: n in c.nodes ==> BoundOk(c.nodes[n])
  }

  lemma ReplyBound(nd: Node, src: PeerId, sentLast: nat, term: nat, success: bool, matched: nat)
    requires BoundOk(nd) && TipIndex(nd.log) == |nd.log| < U64_MAX
    ensures BoundOk(OnAppendReply(nd, src, term, success, matched))
    ensures BoundOk(OnPendingReply(nd, src, sentLast, term, success, matched))
  {
  }

  lemma OwnBound(ms: Members, c: State, s: Step)
    requires Enabled(ms, c, s) && KeepsVote(c, s) && !s.DeliverAppend? && BoundOk(c.nodes[s.n])
    requires !s.DeliverAppendReply? && !s.DeliverPendingReply?
    requires TipIndex(c.nodes[s.n].log) == |c.nodes[s.n].log| < U64_MAX
    ensures s.n in Apply(ms, c, s).nodes && BoundOk(Apply(ms, c, s).nodes[s.n])
  {
  }

  /** A node that follows tracks nobody: the term's leader does not hear from itself. */
  lemma FollowerBound(c: State, n: PeerId, m: Msg)
    requires n in c.nodes && BoundOk(c.nodes[n]) && ES.LeadInv(c)
    requires m.Append? && LM.AppendOk(c.hist, m) && m.src != n
    ensures BoundOk(OnAppendRequest(c.nodes[n], m.term, m.leader, m.prevIndex, m.prevTerm, m.commit, m.entries).0)
  {
  }

  lemma BoundStep(ms: Members, c: State, s: Step)
    requires BoundInv(c) && LM.Inv(c) && ES.Inv(ms, c) && Enabled(ms, c, s) && KeepsVote(c, s)
    ensures s.n in Apply(ms, c, s).nodes && BoundOk(Apply(ms, c, s).nodes[s.n])
  {
    assert BoundOk(c.nodes[s.n]) && LM.NodeOk(c.hist, s.n, c.nodes[s.n]);
    LM.AnchoredLength(c.hist, c.nodes[s.n].log);
    match s
    case DeliverAppend(n, m) =>
      assert LM.MsgOk(c.hist, m);
      FollowerBound(c, n, m);
    case DeliverAppendReply(n, m) =>
      ReplyBound(CountRoundAck(c.nodes[n], ms.voters, m.src, m.term, m.probe), m.src, 0, m.term, m.success, m.matched);
    case DeliverPendingReply(n, m, sentLast) =>
      ReplyBound(c.nodes[n], m.src, sentLast, m.term, m.success, m.matched);
    case _ => OwnBound(ms, c, s);
  }

  lemma OthersSame(ms: Members, c: State, s: Step)
    requires Enabled(ms, c, s)
    ensures ES.OnlyNode(c, s.n, Apply(ms, c, s))
  {
  }

  /** In every run with binding votes, `1 <= next <= last + 1` for every peer any node tracks. */
  lemma {:induction false} NextStaysInBounds(ms: Members, ids: set<PeerId>, steps: seq<Step>)
    requires VoteSafeRun(ms, ids, steps)
    ensures Exec(ms, ids, steps).Some? && BoundInv(Exec(ms, ids, steps).value)
  {
    LM.RunKeeps(ms, ids, steps);
    if steps != [] {
      var front := steps[..|steps| - 1];
      NextStaysInBounds(ms, ids, front);
      LM.RunKeeps(ms, ids, front);
      var c, s := Exec(ms, ids, front).value, steps[|steps| - 1];
      BoundStep(ms, c, s);
      OthersSame(ms, c, s);
      BoundSpreads(c, s.n, Apply(ms, c, s));
    }
  }

  lemma BoundSpreads(c: State, n: PeerId, c': State)
    requires BoundInv(c) && ES.OnlyNode(c, n, c') && BoundOk(c'.nodes[n])
    ensures BoundInv(c')
  {
    forall p | p in c'.nodes
      ensures BoundOk(c'.nodes[p])
    {
      if p != n { assert BoundOk(c.nodes[p]); }
    }
  }

  // ------------------------------------------------------- repair in every run

  /** What a leader has recorded for a node in no later term, that node holds. */
  lemma MatchIsHeld(ms: Members, c: State, n: PeerId, p: PeerId)
    requires CS.FullInv(ms, c) && n in c.nodes && p in c.nodes && c.nodes[n].role == Leader
    requires p in c.nodes[n].progress && c.nodes[p].term <= c.nodes[n].term
    ensures Same(c.nodes[n].log, c.nodes[p].log, c.nodes[n].progress[p].matched)
  {
    var nd := c.nodes[n];
    var k := nd.progress[p].matched;
    if k > 0 {
      assert CS.NodeOk(ms, c.hist, nd);
      assert CS.ProgressOk(c.hist, nd.term, p, nd.progress[p]);
      CS.LeaderIsRightful(c, n);
      AckIsHeld(c, p, nd.term, k);
    }
  }

  /** An acknowledgement holds as long as its giver is in no later term. */
  lemma AckIsHeld(c: State, p: PeerId, t: nat, k: nat)
    requires CS.AcksInv(c) && CS.Acked(c.hist, p, t, k) && p in c.nodes && c.nodes[p].term <= t && t in c.hist.tlog
    ensures Same(c.hist.tlog[t], c.nodes[p].log, k)
  {
    assert CS.AckOk(c, At(p, t));
    assert CS.Kept(c.hist, c.nodes[p].log, t, k, c.nodes[p].term);
  }

  lemma LogsPair(ms: Members, c: State, n: PeerId, p: PeerId)
    requires CS.FullInv(ms, c) && n in c.nodes && p in c.nodes
    requires c.nodes[n].role == Leader && c.nodes[p].term <= c.nodes[n].term
    ensures Pair(c.nodes[n], c.nodes[p])
  {
    assert LM.NodeOk(c.hist, n, c.nodes[n]) && LM.NodeOk(c.hist, p, c.nodes[p]);
    LM.AnchoredAgree(c.hist, c.nodes[p].log, c.nodes[n].log);
    LM.AnchoredAgree(c.hist, c.nodes[n].log, c.nodes[p].log);
    LM.AnchoredLength(c.hist, c.nodes[n].log);
    LM.AnchoredLength(c.hist, c.nodes[p].log);
  }

  /** A follower that holds what was recorded can be repaired. */
  lemma HeldIsReparable(lead: Node, peer: PeerId, fol: Node)
    requires peer in lead.progress && 1 <= lead.progress[peer].next <= |lead.log| + 1
    requires Same(lead.log, fol.log, lead.progress[peer].matched)
    ensures Reparable(lead, peer, fol)
  {
    var at := Min(lead.progress[peer].matched, lead.progress[peer].next - 1);
    if at > 0 { SameAt(lead.log, fol.log, lead.progress[peer].matched, at - 1); }
  }

  /**
   Repair in every run the safety theorems cover: at any moment, a leader that goes
   on exchanging appends with a tracked peer in no later term has repaired it after
   at most `next` exchanges.
   */
  lemma EveryRunRepairs(ms: Members, ids: set<PeerId>, steps: seq<Step>, n: PeerId, p: PeerId) returns (k: nat)
    requires AckSafeRun(ms, ids, steps) && Exec(ms, ids, steps).Some?
    requires var c := Exec(ms, ids, steps).value;
             && n in c.nodes && p in c.nodes && c.nodes[n].role == Leader && p in c.nodes[n].progress
             && c.nodes[p].term <= c.nodes[n].term
    ensures var c := Exec(ms, ids, steps).value;
            && 1 <= k <= c.nodes[n].progress[p].next <= |c.nodes[n].log| + 1
            && c.nodes[n].progress[p].matched <= |c.nodes[n].log|
            && Repaired(c.nodes[n], n, p, c.nodes[p], k)
  {
    var c := Exec(ms, ids, steps).value;
    SM.RunKeeps(ms, ids, steps);
    AckSafeIsVoteSafe(ms, ids, steps);
    NextStaysInBounds(ms, ids, steps);
    MatchIsHeld(ms, c, n, p);
    LogsPair(ms, c, n, p);
    k := TrackedRepairs(c.nodes[n], n, p, c.nodes[p]);
  }

  lemma TrackedRepairs(lead: Node, self: PeerId, peer: PeerId, fol: Node) returns (k: nat)
    requires Pair(lead, fol) && peer in lead.progress && BoundOk(lead)
    requires Same(lead.log, fol.log, lead.progress[peer].matched)
    ensures 1 <= k <= lead.progress[peer].next <= |lead.log| + 1 && lead.progress[peer].matched <= |lead.log|
    ensures Repaired(lead, self, peer, fol, k)
  {
    if lead.progress[peer].matched > 0 {
      SameAt(lead.log, fol.log, lead.progress[peer].matched, lead.progress[peer].matched - 1);
    }
    HeldIsReparable(lead, peer, fol);
    k := Repairs(lead, self, peer, fol);
  }
}
