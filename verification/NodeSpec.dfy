/**
 What each handler of a node does to the node's state, as functions.
 `RaftNode` in RaftNode.dfy is the imperative form and is proved equal to them;
 `Cluster` in Cluster.dfy composes them into whole runs.
 */
module NodeSpec {
  import opened Types
  import opened Quorums

  datatype Role = Follower | Candidate | Leader

  /** One ReadIndex confirmation round: its term, its token, the acks so far and the recorded read point. */
  datatype Round = Round(term: nat, probe: nat, acks: seq<PeerId>, readIndex: nat)

  /**
   A node. `term`, `votedFor` and `log` are durable; the rest is lost on restart.
   `responders` and `granted` are the vote collector's working lists.
   */
  datatype Node = Node(
    term: nat, votedFor: Option<PeerId>, log: seq<Entry>,
    role: Role, leaderId: Option<PeerId>, commit: nat, progress: map<PeerId, Progress>,
    responders: seq<PeerId>, granted: seq<PeerId>, probe: nat, round: Option<Round>)

  datatype Msg =
    | RequestVote(src: PeerId, dst: PeerId, term: nat, cand: PeerId, lastIndex: nat, lastTerm: nat)
    | VoteResp(src: PeerId, dst: PeerId, term: nat, grant: bool)
    | Append(src: PeerId, dst: PeerId, term: nat, leader: PeerId, prevIndex: nat, prevTerm: nat,
             commit: nat, entries: seq<Entry>, probe: nat)
    | AppendResp(src: PeerId, dst: PeerId, term: nat, success: bool, matched: nat, probe: nat)

  /** The fixed membership of a run. */
  datatype Members = Members(voters: seq<PeerId>, learners: seq<PeerId>)

  const FreshNode: Node :=
    Node(0, None, [], Follower, None, 0, map[], [], [], 0, None)

  // ------------------------------------------------------------------ logs

  function TermOf(log: seq<Entry>, i: nat): Option<nat> {
    if 1 <= i <= |log| then Some(log[i - 1].term) else None
  }

  function TipIndex(log: seq<Entry>): nat { if log == [] then 0 else log[|log| - 1].index }

  function TipTerm(log: seq<Entry>): nat { if log == [] then 0 else log[|log| - 1].term }

  /** Entry `i` of the list carries index `i + 1`. */
  predicate Indexed(log: seq<Entry>) {
    forall i :: 0 <= i < |log| ==> log[i].index == i + 1
  }

  /** The receiver's consistency check on the entry before the batch. */
  predicate PrevOk(log: seq<Entry>, prevIndex: nat, prevTerm: nat) {
    prevIndex == 0 || TermOf(log, prevIndex) == Some(prevTerm)
  }

  /**
   The conflict scan from entry `k` on: a batch out of step with `prevIndex` is
   refused; the first missing or conflicting entry cuts the log there and takes
   the rest of the batch as it is; a batch that matches throughout changes nothing.
   */
  function Scan(log: seq<Entry>, prevIndex: nat, entries: seq<Entry>, k: nat): Result<seq<Entry>>
    requires k <= |entries|
    decreases |entries| - k
  {
    if k == |entries| then Ok(log)
    else if entries[k].index != SatAdd(SatAdd(prevIndex, 1), k) then Err
    else match TermOf(log, entries[k].index)
         case Some(t) =>
           if t == entries[k].term then Scan(log, prevIndex, entries, k + 1)
           else Ok(log[..entries[k].index - 1] + entries[k..])
         case None => Ok(log + entries[k..])
  }

  function Merge(log: seq<Entry>, prevIndex: nat, entries: seq<Entry>): Result<seq<Entry>> {
    Scan(log, prevIndex, entries, 0)
  }

  // -------------------------------------------------------- roles and votes

  /** Stop leading without touching durable state. */
  function Demote(n: Node): Node {
    n.(role := Follower, leaderId := None, progress := map[])
  }

  /** Adopt a term: the vote is cleared and saved, then the node is demoted. */
  function StepDown(n: Node, t: nat): Node {
    Demote(n.(term := t, votedFor := None))
  }

  function Observe(n: Node, t: nat): Node {
    if t > n.term then StepDown(n, t) else n
  }

  /** A process restart keeps only the durable fields. */
  function Reboot(n: Node): Node {
    FreshNode.(term := n.term, votedFor := n.votedFor, log := n.log)
  }

  function StartCampaign(n: Node, self: PeerId): Node {
    n.(role := Candidate, leaderId := None, term := SatAdd(n.term, 1), votedFor := Some(self),
       responders := [], granted := [self])
  }

  predicate UpToDate(lastIndex: nat, lastTerm: nat, log: seq<Entry>) {
    lastTerm > TipTerm(log) || (lastTerm == TipTerm(log) && lastIndex >= TipIndex(log))
  }

  predicate CanVote(n: Node, term: nat, cand: PeerId, lastIndex: nat, lastTerm: nat) {
    term == n.term && UpToDate(lastIndex, lastTerm, n.log) && (n.votedFor == None || n.votedFor == Some(cand))
  }

  function OnVoteRequest(n: Node, term: nat, cand: PeerId, lastIndex: nat, lastTerm: nat): (Node, bool) {
    var n1 := Observe(n, term);
    if CanVote(n1, term, cand, lastIndex, lastTerm) then (n1.(votedFor := Some(cand)), true) else (n1, false)
  }

  /** One vote response: a campaigning node counts each responder once; any node adopts a higher term. */
  function OnVoteReply(n: Node, voters: seq<PeerId>, src: PeerId, term: nat, grant: bool): Node {
    if n.role != Candidate then Observe(n, term)
    else if src in n.responders then n
    else
      var n1 := n.(responders := n.responders + [src]);
      if term > n.term then StepDown(n1, term)
      else if term == n.term && grant && src in voters then n1.(granted := n.granted + [src])
      else n1
  }

  function FreshProgress(members: Members, self: PeerId, last: nat): map<PeerId, Progress> {
    map p | p in Elements(members.voters + members.learners) && p != self :: Progress(SatAdd(last, 1), 0)
  }

  function TakeLead(n: Node, members: Members, self: PeerId): Node {
    n.(role := Leader, leaderId := Some(self), progress := FreshProgress(members, self, TipIndex(n.log)))
  }

  // ------------------------------------------------------------ replication

  /** The entries a leader builds for a batch of payloads. */
  function NewEntries(term: nat, last: nat, payloads: seq<seq<Byte>>): seq<Entry> {
    seq(|payloads|, i requires 0 <= i < |payloads| => Entry(term, last + 1 + i, payloads[i]))
  }

  function LeaderAppend(n: Node, members: Members, self: PeerId, payloads: seq<seq<Byte>>): Node {
    n.(progress := if n.progress == map[] then FreshProgress(members, self, TipIndex(n.log)) else n.progress,
       log := n.log + NewEntries(n.term, TipIndex(n.log), payloads))
  }

  /** What the receiver answers; no answer when the batch is refused as malformed. */
  datatype Reply = Silent | Reply(term: nat, success: bool, matched: nat)

  function OnAppendRequest(n: Node, term: nat, leader: PeerId, prevIndex: nat, prevTerm: nat,
                           leaderCommit: nat, entries: seq<Entry>): (Node, Reply)
  {
    if term < n.term then (n, Reply(n.term, false, TipIndex(n.log)))
    else
      var n1 := Observe(n, term).(role := Follower, leaderId := Some(leader));
      if !PrevOk(n1.log, prevIndex, prevTerm) then
        (n1, Reply(n1.term, false, Min(TipIndex(n1.log), SatSub(prevIndex, 1))))
      else
        match Merge(n1.log, prevIndex, entries)
        case Err => (n1, Silent)
        case Ok(log) =>
          var tip := TipIndex(log);
          var commit := if leaderCommit > n1.commit then Min(leaderCommit, tip) else n1.commit;
          (n1.(log := log, commit := commit), Reply(n1.term, true, tip))
  }

  function Rewind(next: nat, hint: nat, cap: nat): nat {
    Min(Max(Max(SatSub(next, 1), SatAdd(hint, 1)), 1), cap)
  }

  /** The ordinary response handler. The response's term is only compared for being higher. */
  function OnAppendReply(n: Node, src: PeerId, term: nat, success: bool, matched: nat): Node {
    if term > n.term then StepDown(n, term)
    else if n.role != Leader || src !in n.progress then n
    else
      var cap := SatAdd(TipIndex(n.log), 1);
      var p := n.progress[src];
      if success then
        var next := Min(SatAdd(matched, 1), cap);
        n.(progress := n.progress[src := Progress(Max(p.next, next), Max(p.matched, matched))])
      else if matched >= p.matched then
        n.(progress := n.progress[src := Progress(Rewind(p.next, matched, cap), p.matched)])
      else n
  }

  /** The response handler of the propose-time gather, for a peer whose last send ended at `sentLast`. */
  function OnPendingReply(n: Node, src: PeerId, sentLast: nat, term: nat, success: bool, matched: nat): Node {
    if term > n.term then StepDown(n, term)
    else if src !in n.progress then n
    else
      var cap := SatAdd(TipIndex(n.log), 1);
      var p := n.progress[src];
      if success then
        if matched < sentLast then n
        else n.(progress := n.progress[src := Progress(Min(SatAdd(matched, 1), cap), matched)])
      else if matched < p.matched then n
      else n.(progress := n.progress[src := Progress(Rewind(p.next, matched, cap), p.matched)])
  }

  /** The run-loop commit advance; it consults no role, only progress, tip and terms. */
  function AdvanceCommit(n: Node, voters: Voters, self: PeerId): Node {
    if PeerCount(voters) > 1 && n.progress == map[] then n
    else if TipIndex(n.log) <= n.commit then n
    else match CommitIndex(voters, n.progress, self, TipIndex(n.log))
         case None => n
         case Some(q) =>
           if q <= n.commit then n
           else
             var t := TermOf(n.log, q);
             if (if t.Some? then t.value else 0) == n.term then n.(commit := q) else n
  }

  /**
   The commit rule, plain and joint: the index never falls, and where it moves it
   moves to the greatest index that satisfies the commit quorum, whose entry is of
   the current term. It stays within the leader's log even when followers report
   longer ones; a leader's term is above 0.
   */
  lemma AdvanceRule(n: Node, voters: Voters, self: PeerId, k: nat)
    requires TipIndex(n.log) == |n.log|
    ensures var c := AdvanceCommit(n, voters, self).commit;
            && c >= n.commit && AdvanceCommit(n, voters, self) == n.(commit := c)
            && (c > n.commit ==>
                  && (k <= c <==> MeetsCommitQuorum(voters, n.progress, self, |n.log|, k))
                  && (c <= |n.log| || n.term == 0)
                  && (c <= |n.log| ==> n.log[c - 1].term == n.term))
  {
    CommitIndexIsGreatest(voters, n.progress, self, |n.log|, k);
  }

  /** ... and it does move whenever the quorum index is new, on the log and of the current term. */
  lemma AdvanceMoves(n: Node, voters: Voters, self: PeerId, k: nat)
    requires TipIndex(n.log) == |n.log| && (PeerCount(voters) <= 1 || n.progress != map[])
    requires n.commit < k <= |n.log| && n.log[k - 1].term == n.term
    requires MeetsCommitQuorum(voters, n.progress, self, |n.log|, k)
    requires !MeetsCommitQuorum(voters, n.progress, self, |n.log|, k + 1)
    ensures AdvanceCommit(n, voters, self).commit == k
  {
    CommitIndexIsGreatest(voters, n.progress, self, |n.log|, k);
    CommitIndexIsGreatest(voters, n.progress, self, |n.log|, k + 1);
  }

  /** In a joint configuration what is committed has a majority on each side. */
  lemma JointAdvance(n: Node, older: seq<PeerId>, newer: seq<PeerId>, self: PeerId)
    requires TipIndex(n.log) == |n.log|
    ensures var c := AdvanceCommit(n, Joint(older, newer), self).commit;
            c > n.commit ==>
              && older != [] && newer != []
              && MajorityAcked(n.progress, self, |n.log|, older, c) && MajorityAcked(n.progress, self, |n.log|, newer, c)
  {
    var c := AdvanceCommit(n, Joint(older, newer), self).commit;
    AdvanceRule(n, Joint(older, newer), self, c);
    MeetsIsCounting(Joint(older, newer), n.progress, self, |n.log|, c);
  }

  // -------------------------------------------------------------- ReadIndex

  /** The next token: a 32-bit counter that skips 0. */
  function NextProbe(probe: nat): nat {
    if (probe + 1) % (U32_MAX + 1) == 0 then 1 else (probe + 1) % (U32_MAX + 1)
  }

  function BeginRound(n: Node, self: PeerId): Node {
    var probe := NextProbe(n.probe);
    n.(probe := probe, round := Some(Round(n.term, probe, [self], n.commit)))
  }

  /** Count a response toward the active round: right term, right token, a voter, not yet counted. */
  function CountRoundAck(n: Node, voters: seq<PeerId>, src: PeerId, term: nat, probe: nat): Node {
    if n.round.Some? && term == n.round.value.term && probe == n.round.value.probe
       && src in voters && src !in n.round.value.acks
    then n.(round := Some(n.round.value.(acks := n.round.value.acks + [src])))
    else n
  }

  predicate RoundConfirmed(n: Node, voters: seq<PeerId>) {
    && n.round.Some? && n.role == Leader && n.term == n.round.value.term
    && VoterMajority(Simple(voters), n.round.value.acks)
  }
}
