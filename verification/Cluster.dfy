/**
 The cluster as a labelled transition system. Messages, once sent, stay in
 `net`: a message may be delivered any number of times, in any order, or never.
 */
module Cluster {
  import opened Types
  import opened Quorums
  import opened NodeSpec

  /** A voter in a term. */
  datatype At = At(peer: PeerId, term: nat)

  /** A recorded vote: for whom, and the voter's log when it was cast. */
  datatype Ballot = Ballot(cand: PeerId, log: seq<Entry>)

  /** A recorded election: the winner, who elected it, and its log at that moment. */
  datatype Won = Won(leader: PeerId, quorum: set<PeerId>, base: seq<Entry>)

  /**
   What has happened so far. No step reads the history; it exists so that
   properties of whole runs can be stated.
   `tlog[t]` is the log of the leader of term `t`, as far as it got;
   `acks[At(v, t)]` the highest index `v` acknowledged to that leader;
   `done[t]` the highest index committed in term `t`.
   */
  datatype History = History(
    ballots: map<At, Ballot>, wins: map<nat, Won>, tlog: map<nat, seq<Entry>>,
    acks: map<At, nat>, done: map<nat, nat>)

  datatype State = State(nodes: map<PeerId, Node>, net: set<Msg>, hist: History)

  datatype Step =
    | Campaign(n: PeerId)
    | DeliverVoteRequest(n: PeerId, m: Msg)
    | DeliverVoteReply(n: PeerId, m: Msg)
    | Win(n: PeerId)
    | SeeTerm(n: PeerId, t: nat)
    | Propose(n: PeerId, payloads: seq<seq<Byte>>)
    | SendAppend(n: PeerId, dst: PeerId, prev: nat, count: nat)
    | DeliverAppend(n: PeerId, m: Msg)
    | DeliverAppendReply(n: PeerId, m: Msg)
    | DeliverPendingReply(n: PeerId, m: Msg, sentLast: nat)
    | Commit(n: PeerId)
    | FastCommit(n: PeerId, k: nat)
    | StartRound(n: PeerId)
    | SoftDemote(n: PeerId)
    | Restart(n: PeerId)
    | Abdicate(n: PeerId)

  /** Voters are distinct, every member has a node. */
  predicate WfMembers(ms: Members, ids: set<PeerId>) {
    Distinct(ms.voters) && Elements(ms.voters) <= ids && Elements(ms.learners) <= ids
  }

  function Init(ids: set<PeerId>): State {
    State(map i | i in ids :: FreshNode, {}, History(map[], map[], map[], map[], map[]))
  }

  // ---------------------------------------------------------------- history

  function RecordBallot(h: History, v: PeerId, t: nat, cand: PeerId, log: seq<Entry>): History {
    if At(v, t) in h.ballots then h else h.(ballots := h.ballots[At(v, t) := Ballot(cand, log)])
  }

  function RecordAck(h: History, v: PeerId, t: nat, k: nat): History {
    var was := if At(v, t) in h.acks then h.acks[At(v, t)] else 0;
    h.(acks := h.acks[At(v, t) := Max(was, k)])
  }

  function RecordWin(h: History, n: PeerId, t: nat, granted: seq<PeerId>, log: seq<Entry>): History {
    if t in h.wins then h
    else RecordAck(h.(wins := h.wins[t := Won(n, Elements(granted), log)], tlog := h.tlog[t := log]), n, t, |log|)
  }

  function RecordLog(h: History, n: PeerId, t: nat, log: seq<Entry>): History {
    RecordAck(h.(tlog := h.tlog[t := log]), n, t, |log|)
  }

  function RecordDone(h: History, t: nat, k: nat): History {
    var was := if t in h.done then h.done[t] else 0;
    h.(done := h.done[t := Max(was, k)])
  }

  // ------------------------------------------------------------------ steps

  predicate Enabled(ms: Members, c: State, s: Step) {
    s.n in c.nodes &&
    var nd := c.nodes[s.n];
    match s
    case Campaign(n) => nd.role != Leader && n in ms.voters
    case DeliverVoteRequest(n, m) => m in c.net && m.RequestVote? && m.dst == n
    case DeliverVoteReply(n, m) => m in c.net && m.VoteResp? && m.dst == n
    case Win(n) => nd.role == Candidate && VoterMajority(Simple(ms.voters), nd.granted)
    case SeeTerm(n, t) => nd.term < t <= U64_MAX
    case Propose(n, payloads) =>
      nd.role == Leader && payloads != [] && |nd.log| + |payloads| < U64_MAX
    case SendAppend(n, dst, prev, count) =>
      nd.role == Leader && dst in c.nodes && dst != n && prev + count <= |nd.log|
    case DeliverAppend(n, m) => m in c.net && m.Append? && m.dst == n
    case DeliverAppendReply(n, m) => m in c.net && m.AppendResp? && m.dst == n
    case DeliverPendingReply(n, m, _) => m in c.net && m.AppendResp? && m.dst == n
    case Commit(n) => true
    case FastCommit(n, k) =>
      && nd.role == Leader && nd.commit < k <= |nd.log| && nd.log[k - 1].term == nd.term
      && MajorityAcked(nd.progress, n, TipIndex(nd.log), ms.voters, k)
    case StartRound(n) => nd.role == Leader
    case SoftDemote(n) => true
    case Restart(n) => true
    case Abdicate(n) => nd.role == Leader
  }

  function VoteRequests(ids: set<PeerId>, voters: seq<PeerId>, n: PeerId, nd: Node): set<Msg> {
    set p | p in ids && p in voters && p != n ::
      RequestVote(n, p, nd.term, n, TipIndex(nd.log), TipTerm(nd.log))
  }

  function AppendMsg(nd: Node, n: PeerId, dst: PeerId, prev: nat, count: nat): Msg
    requires prev + count <= |nd.log|
  {
    var prevTerm := if prev == 0 then 0 else nd.log[prev - 1].term;
    Append(n, dst, nd.term, n, prev, prevTerm, nd.commit, nd.log[prev..prev + count], nd.probe)
  }

  function Reply2Msg(n: PeerId, m: Msg, r: Reply): set<Msg>
    requires m.Append?
  {
    if r.Silent? then {} else {AppendResp(n, m.src, r.term, r.success, r.matched, m.probe)}
  }

  function Update(c: State, n: PeerId, nd: Node, out: set<Msg>, h: History): State {
    State(c.nodes[n := nd], c.net + out, h)
  }

  function Apply(ms: Members, c: State, s: Step): State
    requires Enabled(ms, c, s)
  {
    var nd, h := c.nodes[s.n], c.hist;
    match s
    case Campaign(n) =>
      var nd' := StartCampaign(nd, n);
      Update(c, n, nd', VoteRequests(c.nodes.Keys, ms.voters, n, nd'), RecordBallot(h, n, nd'.term, n, nd.log))
    case DeliverVoteRequest(n, m) =>
      var (nd', grant) := OnVoteRequest(nd, m.term, m.cand, m.lastIndex, m.lastTerm);
      Update(c, n, nd', {VoteResp(n, m.src, nd'.term, grant)},
             if grant then RecordBallot(h, n, m.term, m.cand, nd.log) else h)
    case DeliverVoteReply(n, m) =>
      Update(c, n, OnVoteReply(nd, ms.voters, m.src, m.term, m.grant), {}, h)
    case Win(n) =>
      Update(c, n, TakeLead(nd, ms, n), {}, RecordWin(h, n, nd.term, nd.granted, nd.log))
    case SeeTerm(n, t) =>
      Update(c, n, StepDown(nd, t), {}, h)
    case Propose(n, payloads) =>
      var nd' := LeaderAppend(nd, ms, n, payloads);
      Update(c, n, nd', {}, RecordLog(h, n, nd.term, nd'.log))
    case SendAppend(n, dst, prev, count) =>
      Update(c, n, nd, {AppendMsg(nd, n, dst, prev, count)}, h)
    case DeliverAppend(n, m) =>
      var (nd', r) := OnAppendRequest(nd, m.term, m.leader, m.prevIndex, m.prevTerm, m.commit, m.entries);
      Update(c, n, nd', Reply2Msg(n, m, r),
             if r.Reply? && r.success then RecordAck(h, n, r.term, r.matched) else h)
    case DeliverAppendReply(n, m) =>
      var nd1 := CountRoundAck(nd, ms.voters, m.src, m.term, m.probe);
      Update(c, n, OnAppendReply(nd1, m.src, m.term, m.success, m.matched), {}, h)
    case DeliverPendingReply(n, m, sentLast) =>
      Update(c, n, OnPendingReply(nd, m.src, sentLast, m.term, m.success, m.matched), {}, h)
    case Commit(n) =>
      var nd' := AdvanceCommit(nd, Simple(ms.voters), n);
      Update(c, n, nd', {}, if nd'.commit != nd.commit then RecordDone(h, nd.term, nd'.commit) else h)
    case FastCommit(n, k) =>
      Update(c, n, nd.(commit := k), {}, RecordDone(h, nd.term, k))
    case StartRound(n) =>
      Update(c, n, BeginRound(nd, n), {}, h)
    case SoftDemote(n) =>
      Update(c, n, Demote(nd), {}, h)
    case Restart(n) =>
      Update(c, n, Reboot(nd), {}, h)
    case Abdicate(n) =>
      Update(c, n, StepDown(nd, nd.term), {}, h)
  }

  // ------------------------------------------------------------------- runs

  /** Take the steps one after another from the initial state; `None` if one is not enabled. */
  function Exec(ms: Members, ids: set<PeerId>, steps: seq<Step>): Option<State> {
    if steps == [] then Some(Init(ids))
    else
      var c := Exec(ms, ids, steps[..|steps| - 1]);
      var s := steps[|steps| - 1];
      if c.Some? && Enabled(ms, c.value, s) then Some(Apply(ms, c.value, s)) else None
  }

  // ------------------------------------------------- conditions on the steps

  /** `n` is the recorded winner of term `t`. */
  predicate Led(h: History, n: PeerId, t: nat) {
    t in h.wins && h.wins[t].leader == n
  }

  /** A node that led a term, and gave up its vote in it with the leadership, votes for another in the same term. */
  predicate VotesAgain(c: State, s: Step) {
    s.DeliverVoteRequest? && s.n in c.nodes && s.m.RequestVote? && Led(c.hist, s.n, s.m.term) &&
    OnVoteRequest(c.nodes[s.n], s.m.term, s.m.cand, s.m.lastIndex, s.m.lastTerm).1
  }

  /** The step casts a second vote in one term: an abdicated leader's, or that of a campaign that cannot raise the term. */
  predicate ReusesVote(c: State, s: Step) {
    VotesAgain(c, s) ||
    (s.Campaign? && s.n in c.nodes && c.nodes[s.n].term == U64_MAX &&
     c.nodes[s.n].votedFor.Some? && c.nodes[s.n].votedFor != Some(s.n))
  }

  /** The step neither casts a second vote in one term nor campaigns again in the last one. */
  predicate KeepsVote(c: State, s: Step) {
    !VotesAgain(c, s) && (s.Campaign? && s.n in c.nodes ==> c.nodes[s.n].term < U64_MAX)
  }

  /**
   An accepted append leaves the receiver's tip on the sender's log: the log of
   the message's term has an entry of the same term at the acknowledged index.
   */
  predicate TipOnLeaderLog(c: State, s: Step) {
    s.DeliverAppend? && s.n in c.nodes && s.m.Append? ==>
      var m := s.m;
      var (nd', r) := OnAppendRequest(c.nodes[s.n], m.term, m.leader, m.prevIndex, m.prevTerm, m.commit, m.entries);
      r.Reply? && r.success && r.matched > 0 ==>
        m.term in c.hist.tlog && TermOf(c.hist.tlog[m.term], r.matched) == Some(TipTerm(nd'.log))
  }

  /**
   A processed success is of the node's own term or a later one, or changes nothing
   the node counts: it does not lead, does not track the sender, or has recorded
   at least as much already.
   */
  predicate FreshReply(c: State, s: Step) {
    (s.DeliverAppendReply? || s.DeliverPendingReply?) && s.n in c.nodes && s.m.AppendResp? && s.m.success ==>
      var nd := c.nodes[s.n];
      || s.m.term >= nd.term || nd.role != Leader || s.m.src !in nd.progress
      || s.m.matched <= nd.progress[s.m.src].matched
  }

  /** A run from well-formed members in which no step reuses a vote. */
  predicate BindingRun(ms: Members, ids: set<PeerId>, steps: seq<Step>) {
    if steps == [] then WfMembers(ms, ids)
    else
      var front, s := steps[..|steps| - 1], steps[|steps| - 1];
      BindingRun(ms, ids, front) &&
      var c := Exec(ms, ids, front);
      c.Some? && Enabled(ms, c.value, s) && !ReusesVote(c.value, s)
  }

  /** A run from well-formed members in which every step meets the vote condition. */
  predicate VoteSafeRun(ms: Members, ids: set<PeerId>, steps: seq<Step>) {
    if steps == [] then WfMembers(ms, ids)
    else
      var front, s := steps[..|steps| - 1], steps[|steps| - 1];
      VoteSafeRun(ms, ids, front) &&
      var c := Exec(ms, ids, front);
      c.Some? && Enabled(ms, c.value, s) && KeepsVote(c.value, s)
  }

  /** A run in which every step also meets both acknowledgement conditions. */
  predicate AckSafeRun(ms: Members, ids: set<PeerId>, steps: seq<Step>) {
    if steps == [] then WfMembers(ms, ids)
    else
      var front, s := steps[..|steps| - 1], steps[|steps| - 1];
      AckSafeRun(ms, ids, front) &&
      var c := Exec(ms, ids, front);
      c.Some? && Enabled(ms, c.value, s) && KeepsVote(c.value, s)
      && TipOnLeaderLog(c.value, s) && FreshReply(c.value, s)
  }

  lemma {:induction false} VoteSafeIsBinding(ms: Members, ids: set<PeerId>, steps: seq<Step>)
    requires VoteSafeRun(ms, ids, steps)
    ensures BindingRun(ms, ids, steps)
  {
    if steps != [] { VoteSafeIsBinding(ms, ids, steps[..|steps| - 1]); }
  }

  lemma {:induction false} AckSafeIsVoteSafe(ms: Members, ids: set<PeerId>, steps: seq<Step>)
    requires AckSafeRun(ms, ids, steps)
    ensures VoteSafeRun(ms, ids, steps)
  {
    if steps != [] { AckSafeIsVoteSafe(ms, ids, steps[..|steps| - 1]); }
  }
}
