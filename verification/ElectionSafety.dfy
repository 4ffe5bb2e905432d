/** At most one node ever leads a term. */
module ElectionSafety {
  import opened Types
  import opened Quorums
  import opened NodeSpec
  import opened Cluster

  // ------------------------------------------------------------- invariants

  /** Messages travel between distinct members; a candidate names itself. */
  ghost predicate NetInv(c: State) {
    forall m :: m in c.net ==>
      m.src in c.nodes && m.dst in c.nodes && m.src != m.dst && (m.RequestVote? ==> m.cand == m.src)
  }

  /** The voter still has its vote for `cand`, or had it for itself, won the term with it and gave it up. */
  predicate Binds(h: History, a: At, cand: PeerId, nd: Node) {
    nd.votedFor == Some(cand) || (nd.votedFor == None && cand == a.peer && Led(h, a.peer, a.term))
  }

  /** A recorded vote binds the voter until it moves to a later term. */
  ghost predicate BallotInv(c: State) {
    forall a :: a in c.hist.ballots ==>
      && a.peer in c.nodes && a.term <= c.nodes[a.peer].term
      && (a.term == c.nodes[a.peer].term ==> Binds(c.hist, a, c.hist.ballots[a].cand, c.nodes[a.peer]))
  }

  /** A durable vote is a recorded one. */
  ghost predicate VotedInv(c: State) {
    forall n :: n in c.nodes && c.nodes[n].votedFor.Some? ==>
      var a := At(n, c.nodes[n].term);
      a in c.hist.ballots && c.hist.ballots[a].cand == c.nodes[n].votedFor.value
  }

  /** A granting response stands for a recorded vote for its addressee. */
  ghost predicate GrantInv(c: State) {
    forall m :: m in c.net && m.VoteResp? && m.grant ==>
      At(m.src, m.term) in c.hist.ballots && c.hist.ballots[At(m.src, m.term)].cand == m.dst
  }

  /** `p` voted for `n` in term `t`. */
  ghost predicate Voted(h: History, p: PeerId, t: nat, n: PeerId) {
    At(p, t) in h.ballots && h.ballots[At(p, t)].cand == n
  }

  /** What a campaigning node has collected. */
  ghost predicate CandidateOk(ms: Members, h: History, n: PeerId, nd: Node) {
    && Distinct(nd.granted) && n in nd.granted && n !in nd.responders && n in ms.voters
    && (forall p :: p in nd.granted ==> p in ms.voters && (p == n || p in nd.responders))
    && (forall p :: p in nd.granted ==> Voted(h, p, nd.term, n))
    && nd.votedFor == Some(n)
  }

  ghost predicate CandidateInv(ms: Members, c: State) {
    forall n {:trigger CandidateOk(ms, c.hist, n, c.nodes[n])} ::
      n in c.nodes && c.nodes[n].role == Candidate ==> CandidateOk(ms, c.hist, n, c.nodes[n])
  }

  /** A recorded election was carried by a majority of recorded votes. */
  ghost predicate WonOk(ms: Members, c: State, t: nat)
    requires t in c.hist.wins
  {
    var w := c.hist.wins[t];
    && MajorityOf(ms.voters, w.quorum) && w.quorum <= Elements(ms.voters)
    && (forall p :: p in w.quorum ==> Voted(c.hist, p, t, w.leader))
    && w.leader in c.nodes && w.leader in w.quorum
  }

  ghost predicate WinInv(ms: Members, c: State) {
    forall t {:trigger WonOk(ms, c, t)} :: t in c.hist.wins ==> WonOk(ms, c, t)
  }

  /** A leader is the recorded winner of its term. */
  ghost predicate LeadInv(c: State) {
    forall n :: n in c.nodes && c.nodes[n].role == Leader ==>
      c.nodes[n].term in c.hist.wins && c.hist.wins[c.nodes[n].term].leader == n
  }

  /** Terms fit their 64 bits. */
  ghost predicate TermInv(c: State) {
    && (forall n {:trigger c.nodes[n].term} :: n in c.nodes ==> c.nodes[n].term <= U64_MAX)
    && (forall m {:trigger m.term} :: m in c.net ==> m.term <= U64_MAX)
  }

  /** What every step that reuses no vote keeps. */
  ghost predicate BindInv(ms: Members, c: State) {
    && WfMembers(ms, c.nodes.Keys) && TermInv(c)
    && NetInv(c) && BallotInv(c) && VotedInv(c) && GrantInv(c)
    && CandidateInv(ms, c) && WinInv(ms, c) && LeadInv(c)
  }

  /** A winner campaigns no more in the term it won. */
  ghost predicate WinnersRest(c: State) {
    forall t :: t in c.hist.wins ==>
      var w := c.hist.wins[t].leader;
      w in c.nodes && c.nodes[w].term == t ==> c.nodes[w].role != Candidate
  }

  ghost predicate Inv(ms: Members, c: State) {
    BindInv(ms, c) && WinnersRest(c)
  }

  // ------------------------------------------------------- shapes of a step

  /** Only node `n` changes. */
  ghost predicate OnlyNode(c: State, n: PeerId, c': State) {
    && n in c.nodes && c'.nodes.Keys == c.nodes.Keys
    && (forall p :: p in c.nodes && p != n ==> c'.nodes[p] == c.nodes[p])
  }

  /** Old votes stay recorded; only the vote of `n` in its new term may be added. */
  ghost predicate VotesGrow(c: State, n: PeerId, c': State)
    requires n in c'.nodes
  {
    && (forall a :: a in c.hist.ballots ==> a in c'.hist.ballots && c'.hist.ballots[a] == c.hist.ballots[a])
    && (forall a :: a in c'.hist.ballots && a !in c.hist.ballots ==> a == At(n, c'.nodes[n].term))
  }

  /** The node leads only where it led. */
  ghost predicate LeadsAsBefore(nd: Node, nd': Node) {
    nd'.role == Leader ==> nd.role == Leader && nd'.term == nd.term
  }

  lemma WinsKept(ms: Members, c: State, n: PeerId, c': State)
    requires WinInv(ms, c) && LeadInv(c)
    requires OnlyNode(c, n, c') && VotesGrow(c, n, c') && LeadsAsBefore(c.nodes[n], c'.nodes[n])
    requires c'.hist.wins == c.hist.wins
    ensures WinInv(ms, c') && LeadInv(c')
  {
    forall t | t in c'.hist.wins
      ensures WonOk(ms, c', t)
    {
      assert WonOk(ms, c, t);
      var w := c.hist.wins[t];
      assert forall q :: q in w.quorum ==> Voted(c.hist, q, t, w.leader) ==> Voted(c'.hist, q, t, w.leader);
    }
  }

  lemma CandidatesKept(ms: Members, c: State, n: PeerId, c': State)
    requires CandidateInv(ms, c)
    requires OnlyNode(c, n, c') && VotesGrow(c, n, c')
    requires c'.nodes[n].role == Candidate ==> CandidateOk(ms, c'.hist, n, c'.nodes[n])
    ensures CandidateInv(ms, c')
  {
    forall p | p in c'.nodes && c'.nodes[p].role == Candidate
      ensures CandidateOk(ms, c'.hist, p, c'.nodes[p])
    {
      if p != n { CandidateStays(ms, c.hist, c'.hist, p, c.nodes[p]); }
    }
  }

  lemma CandidateStays(ms: Members, h: History, h': History, n: PeerId, nd: Node)
    requires CandidateOk(ms, h, n, nd)
    requires forall a :: a in h.ballots ==> a in h'.ballots && h'.ballots[a] == h.ballots[a]
    ensures CandidateOk(ms, h', n, nd)
  {
    assert forall q :: q in nd.granted ==> Voted(h, q, nd.term, n) ==> Voted(h', q, nd.term, n);
  }

  // --------------------------------------------------------------- quiet steps

  /** The node keeps its vote, or enters a later term without one. */
  ghost predicate VoteStays(nd: Node, nd': Node) {
    || (nd'.term == nd.term && nd'.votedFor == nd.votedFor)
    || (nd'.term > nd.term && nd'.votedFor == None)
  }

  /** The node neither votes, campaigns nor wins; a leader may give up its vote with its leadership. */
  ghost predicate QuietNode(nd: Node, nd': Node) {
    && (|| VoteStays(nd, nd')
        || (nd.role == Leader && nd'.role == Follower && nd'.term == nd.term && nd'.votedFor == None))
    && (nd'.role != Follower ==>
          && nd'.role == nd.role && nd'.term == nd.term
          && nd'.granted == nd.granted && nd'.responders == nd.responders)
  }

  ghost predicate QuietStep(c: State, n: PeerId, c': State) {
    && OnlyNode(c, n, c') && QuietNode(c.nodes[n], c'.nodes[n])
    && c'.hist.ballots == c.hist.ballots && c'.hist.wins == c.hist.wins
    && (forall m :: m in c'.net && m !in c.net ==>
          (m.Append? || m.AppendResp?) && m.src == n && m.dst in c.nodes && m.dst != n)
  }

  /** A leader voted for itself in its term. */
  lemma LeaderVotedForItself(ms: Members, c: State, n: PeerId)
    requires WinInv(ms, c) && LeadInv(c) && n in c.nodes && c.nodes[n].role == Leader
    ensures Led(c.hist, n, c.nodes[n].term) && Voted(c.hist, n, c.nodes[n].term, n)
  {
    assert WonOk(ms, c, c.nodes[n].term);
  }

  lemma QuietKeepsVotes(c: State, n: PeerId, c': State)
    requires NetInv(c) && BallotInv(c) && VotedInv(c) && GrantInv(c) && QuietStep(c, n, c')
    requires c.nodes[n].role == Leader ==> Led(c.hist, n, c.nodes[n].term) && Voted(c.hist, n, c.nodes[n].term, n)
    ensures NetInv(c') && BallotInv(c') && VotedInv(c') && GrantInv(c')
  {
  }

  lemma QuietKeeps(ms: Members, c: State, n: PeerId, c': State)
    requires BindInv(ms, c) && QuietStep(c, n, c') && TermInv(c')
    ensures BindInv(ms, c')
  {
    if c.nodes[n].role == Leader { LeaderVotedForItself(ms, c, n); }
    QuietKeepsVotes(c, n, c');
    WinsKept(ms, c, n, c');
    if c'.nodes[n].role == Candidate { assert CandidateOk(ms, c.hist, n, c.nodes[n]); }
    CandidatesKept(ms, c, n, c');
  }

  // -------------------------------------------------------- the voting steps

  /** The campaign's vote is new, or the same vote of the last term again. */
  ghost predicate OwnBallot(c: State, n: PeerId, c': State)
    requires n in c.nodes
  {
    var a := At(n, SatAdd(c.nodes[n].term, 1));
    c'.hist.ballots == (if a in c.hist.ballots then c.hist.ballots else c.hist.ballots[a := Ballot(n, c.nodes[n].log)])
  }

  /** A campaign only sends vote requests. */
  ghost predicate AsksForVotes(c: State, n: PeerId, c': State) {
    && c.net <= c'.net
    && (forall m :: m in c'.net && m !in c.net ==>
          m.RequestVote? && m.cand == n && m.src == n && m.dst in c.nodes && m.dst != n)
  }

  lemma CampaignShape(ms: Members, c: State, n: PeerId)
    requires WfMembers(ms, c.nodes.Keys) && Enabled(ms, c, Campaign(n))
    ensures var c' := Apply(ms, c, Campaign(n));
            && OnlyNode(c, n, c') && OwnBallot(c, n, c') && c'.hist.wins == c.hist.wins
            && c'.nodes[n] == StartCampaign(c.nodes[n], n) && AsksForVotes(c, n, c')
  {
  }

  /** What `n` finds recorded for the term it campaigns in is its own vote. */
  lemma OwnVote(c: State, n: PeerId)
    requires BallotInv(c) && TermInv(c) && n in c.nodes && !ReusesVote(c, Campaign(n))
    ensures var a := At(n, SatAdd(c.nodes[n].term, 1)); a in c.hist.ballots ==> c.hist.ballots[a].cand == n
  {
  }

  lemma CampaignKeepsVotes(ms: Members, c: State, n: PeerId, c': State)
    requires TermInv(c) && BallotInv(c) && VotedInv(c) && n in ms.voters && !ReusesVote(c, Campaign(n))
    requires OnlyNode(c, n, c') && OwnBallot(c, n, c') && c'.nodes[n] == StartCampaign(c.nodes[n], n)
    requires c'.hist.wins == c.hist.wins
    ensures BallotInv(c') && VotedInv(c') && VotesGrow(c, n, c') && CandidateOk(ms, c'.hist, n, c'.nodes[n])
  {
    OwnVote(c, n);
    OwnBallotBinds(c, n, c');
    NewCandidate(ms, c'.hist, n, c.nodes[n]);
  }

  lemma OwnBallotBinds(c: State, n: PeerId, c': State)
    requires TermInv(c) && BallotInv(c) && n in c.nodes && !ReusesVote(c, Campaign(n))
    requires OnlyNode(c, n, c') && OwnBallot(c, n, c') && c'.nodes[n] == StartCampaign(c.nodes[n], n)
    requires c'.hist.wins == c.hist.wins
    ensures BallotInv(c')
  {
    OwnVote(c, n);
  }

  lemma NewCandidate(ms: Members, h: History, n: PeerId, nd: Node)
    requires n in ms.voters && At(n, SatAdd(nd.term, 1)) in h.ballots && h.ballots[At(n, SatAdd(nd.term, 1))].cand == n
    ensures CandidateOk(ms, h, n, StartCampaign(nd, n))
  {
    assert Voted(h, n, SatAdd(nd.term, 1), n);
  }

  lemma CampaignKeepsNet(c: State, n: PeerId, c': State)
    requires NetInv(c) && GrantInv(c) && OnlyNode(c, n, c') && VotesGrow(c, n, c') && AsksForVotes(c, n, c')
    ensures NetInv(c') && GrantInv(c')
  {
  }

  lemma CampaignKeeps(ms: Members, c: State, n: PeerId)
    requires BindInv(ms, c) && Enabled(ms, c, Campaign(n)) && !ReusesVote(c, Campaign(n))
    requires TermInv(Apply(ms, c, Campaign(n)))
    ensures BindInv(ms, Apply(ms, c, Campaign(n)))
  {
    var c' := Apply(ms, c, Campaign(n));
    CampaignShape(ms, c, n);
    CampaignKeepsVotes(ms, c, n, c');
    CampaignKeepsNet(c, n, c');
    WinsKept(ms, c, n, c');
    CandidatesKept(ms, c, n, c');
  }

  /** A vote request leaves the voter's role or demotes it, and adds at most its vote of the current term. */
  lemma VoteRequestShape(ms: Members, c: State, n: PeerId, m: Msg)
    requires Enabled(ms, c, DeliverVoteRequest(n, m))
    ensures var c' := Apply(ms, c, DeliverVoteRequest(n, m));
            && OnlyNode(c, n, c') && VotesGrow(c, n, c') && c'.hist.wins == c.hist.wins
            && LeadsAsBefore(c.nodes[n], c'.nodes[n])
    ensures var nd, nd' := c.nodes[n], Apply(ms, c, DeliverVoteRequest(n, m)).nodes[n];
            nd'.role == Candidate ==>
              && nd.role == Candidate && nd'.term == nd.term && nd'.granted == nd.granted
              && nd'.responders == nd.responders && (nd.votedFor.Some? ==> nd'.votedFor == nd.votedFor)
  {
  }

  /** The voter adopts the candidate's term and votes for it; the grant answers the candidate. */
  ghost predicate GrantingStep(c: State, n: PeerId, t: nat, cand: PeerId, c': State) {
    && OnlyNode(c, n, c') && cand in c.nodes && cand != n && c'.hist.wins == c.hist.wins
    && c'.nodes[n].term == t && c.nodes[n].term <= t && c'.nodes[n].votedFor == Some(cand)
    && (c.nodes[n].term == t ==> c.nodes[n].votedFor == None || c.nodes[n].votedFor == Some(cand))
    && c'.net == c.net + {VoteResp(n, cand, t, true)}
    && c'.hist.ballots == (if At(n, t) in c.hist.ballots then c.hist.ballots
                           else c.hist.ballots[At(n, t) := Ballot(cand, c.nodes[n].log)])
  }

  lemma GrantKeepsVotes(c: State, n: PeerId, t: nat, cand: PeerId, c': State)
    requires NetInv(c) && BallotInv(c) && VotedInv(c) && GrantInv(c) && GrantingStep(c, n, t, cand, c')
    requires !Led(c.hist, n, t)
    ensures NetInv(c') && BallotInv(c') && VotedInv(c') && GrantInv(c')
  {
    assert At(n, t) in c'.hist.ballots && c'.hist.ballots[At(n, t)].cand == cand;
  }

  lemma VoteRequestKeepsVotes(ms: Members, c: State, n: PeerId, m: Msg)
    requires NetInv(c) && BallotInv(c) && VotedInv(c) && GrantInv(c) && Enabled(ms, c, DeliverVoteRequest(n, m))
    requires !VotesAgain(c, DeliverVoteRequest(n, m))
    ensures var c' := Apply(ms, c, DeliverVoteRequest(n, m));
            NetInv(c') && BallotInv(c') && VotedInv(c') && GrantInv(c')
  {
    var c' := Apply(ms, c, DeliverVoteRequest(n, m));
    if OnVoteRequest(c.nodes[n], m.term, m.cand, m.lastIndex, m.lastTerm).1 {
      GrantKeepsVotes(c, n, m.term, m.cand, c');
    } else {
      DenialKeepsVotes(c, n, m.src, c');
    }
  }

  /** A refusal may adopt the term but casts no vote. */
  lemma DenialKeepsVotes(c: State, n: PeerId, dst: PeerId, c': State)
    requires NetInv(c) && BallotInv(c) && VotedInv(c) && GrantInv(c)
    requires OnlyNode(c, n, c') && VoteStays(c.nodes[n], c'.nodes[n])
    requires c'.hist.ballots == c.hist.ballots && c'.hist.wins == c.hist.wins
    requires dst in c.nodes && dst != n && c'.net == c.net + {VoteResp(n, dst, c'.nodes[n].term, false)}
    ensures NetInv(c') && BallotInv(c') && VotedInv(c') && GrantInv(c')
  {
  }

  lemma VoteRequestKeeps(ms: Members, c: State, n: PeerId, m: Msg)
    requires BindInv(ms, c) && Enabled(ms, c, DeliverVoteRequest(n, m)) && TermInv(Apply(ms, c, DeliverVoteRequest(n, m)))
    requires !VotesAgain(c, DeliverVoteRequest(n, m))
    ensures BindInv(ms, Apply(ms, c, DeliverVoteRequest(n, m)))
  {
    var c' := Apply(ms, c, DeliverVoteRequest(n, m));
    VoteRequestShape(ms, c, n, m);
    WinsKept(ms, c, n, c');
    if c'.nodes[n].role == Candidate { CandidateStays(ms, c.hist, c'.hist, n, c.nodes[n]); }
    CandidatesKept(ms, c, n, c');
    VoteRequestKeepsVotes(ms, c, n, m);
  }

  /** A response is noted, counted, or ends the campaign. */
  lemma VoteReplyCounts(ms: Members, c: State, n: PeerId, m: Msg)
    requires NetInv(c) && GrantInv(c) && CandidateInv(ms, c) && Enabled(ms, c, DeliverVoteReply(n, m))
    requires c.nodes[n].role == Candidate
    ensures var nd' := Apply(ms, c, DeliverVoteReply(n, m)).nodes[n];
            nd'.role == Candidate ==> CandidateOk(ms, c.hist, n, nd')
  {
    var nd := c.nodes[n];
    var nd' := Apply(ms, c, DeliverVoteReply(n, m)).nodes[n];
    assert CandidateOk(ms, c.hist, n, nd);
    if nd'.role == Candidate && nd' != nd {
      assert nd'.responders == nd.responders + [m.src];
      assert nd'.granted == nd.granted || (nd'.granted == nd.granted + [m.src] && Voted(c.hist, m.src, nd.term, n));
    }
  }

  lemma VoteReplyShape(ms: Members, c: State, n: PeerId, m: Msg)
    requires Enabled(ms, c, DeliverVoteReply(n, m))
    ensures var c' := Apply(ms, c, DeliverVoteReply(n, m));
            && OnlyNode(c, n, c') && c'.net == c.net && c'.hist == c.hist
            && LeadsAsBefore(c.nodes[n], c'.nodes[n])
            && (|| (c'.nodes[n].term == c.nodes[n].term && c'.nodes[n].votedFor == c.nodes[n].votedFor)
                || (c'.nodes[n].term > c.nodes[n].term && c'.nodes[n].votedFor == None))
            && (c'.nodes[n].role == Candidate ==> c.nodes[n].role == Candidate)
  {
  }

  lemma VoteReplyKeeps(ms: Members, c: State, n: PeerId, m: Msg)
    requires BindInv(ms, c) && Enabled(ms, c, DeliverVoteReply(n, m)) && TermInv(Apply(ms, c, DeliverVoteReply(n, m)))
    ensures BindInv(ms, Apply(ms, c, DeliverVoteReply(n, m)))
  {
    var c' := Apply(ms, c, DeliverVoteReply(n, m));
    VoteReplyShape(ms, c, n, m);
    WinsKept(ms, c, n, c');
    if c'.nodes[n].role == Candidate { VoteReplyCounts(ms, c, n, m); }
    CandidatesKept(ms, c, n, c');
  }

  /** Winning a term twice would need two disjoint majorities, or the same node to campaign again. */
  lemma WinIsOwn(ms: Members, c: State, n: PeerId)
    requires Distinct(ms.voters) && CandidateInv(ms, c) && WinInv(ms, c) && Enabled(ms, c, Win(n))
    ensures c.nodes[n].term in c.hist.wins ==> c.hist.wins[c.nodes[n].term].leader == n
    ensures MajorityOf(ms.voters, Elements(c.nodes[n].granted))
  {
    var nd := c.nodes[n];
    assert CandidateOk(ms, c.hist, n, nd);
    VotesCoverSide(Simple(ms.voters), nd.granted, ms.voters);
    if nd.term in c.hist.wins {
      var w := c.hist.wins[nd.term];
      assert WonOk(ms, c, nd.term);
      var p := MajoritiesMeet(ms.voters, Elements(nd.granted), w.quorum);
      assert Voted(c.hist, p, nd.term, n) && Voted(c.hist, p, nd.term, w.leader);
    }
  }

  lemma WinIsNew(ms: Members, c: State, n: PeerId)
    requires Distinct(ms.voters) && CandidateInv(ms, c) && WinInv(ms, c) && WinnersRest(c) && Enabled(ms, c, Win(n))
    ensures c.nodes[n].term !in c.hist.wins
    ensures MajorityOf(ms.voters, Elements(c.nodes[n].granted))
  {
    WinIsOwn(ms, c, n);
  }

  /** Winning changes the winner's role and records the election; nothing else the invariant reads. */
  ghost predicate WinningStep(c: State, n: PeerId, c': State) {
    && OnlyNode(c, n, c')
    && c'.nodes[n].role == Leader && c'.nodes[n].term == c.nodes[n].term
    && c'.nodes[n].votedFor == c.nodes[n].votedFor
    && c'.net == c.net && c'.hist.ballots == c.hist.ballots
    && c'.hist.wins == c.hist.wins[c.nodes[n].term := Won(n, Elements(c.nodes[n].granted), c.nodes[n].log)]
  }

  lemma WinShape(ms: Members, c: State, n: PeerId)
    requires Enabled(ms, c, Win(n)) && c.nodes[n].term !in c.hist.wins
    ensures WinningStep(c, n, Apply(ms, c, Win(n)))
  {
  }

  lemma WinningKeepsWins(ms: Members, c: State, n: PeerId, c': State)
    requires WinInv(ms, c) && LeadInv(c) && CandidateInv(ms, c)
    requires WinningStep(c, n, c') && c.nodes[n].role == Candidate && c.nodes[n].term !in c.hist.wins
    requires MajorityOf(ms.voters, Elements(c.nodes[n].granted))
    ensures WinInv(ms, c') && LeadInv(c')
  {
    var nd := c.nodes[n];
    assert CandidateOk(ms, c.hist, n, nd);
    assert forall p :: p in nd.granted ==> Voted(c.hist, p, nd.term, n) ==> Voted(c'.hist, p, nd.term, n);
    assert WonOk(ms, c', nd.term);
    forall t | t in c.hist.wins
      ensures WonOk(ms, c', t)
    {
      assert WonOk(ms, c, t);
      var w := c.hist.wins[t];
      assert forall p :: p in w.quorum ==> Voted(c.hist, p, t, w.leader) ==> Voted(c'.hist, p, t, w.leader);
    }
  }

  /** A second win of the same term records nothing. */
  ghost predicate WinningAgain(c: State, n: PeerId, c': State) {
    && OnlyNode(c, n, c') && c'.net == c.net && c'.hist == c.hist
    && c'.nodes[n].term == c.nodes[n].term && c'.nodes[n].votedFor == c.nodes[n].votedFor
    && c'.nodes[n].role == Leader
  }

  lemma WinAgainShape(ms: Members, c: State, n: PeerId)
    requires Enabled(ms, c, Win(n)) && c.nodes[n].term in c.hist.wins
    ensures WinningAgain(c, n, Apply(ms, c, Win(n)))
  {
  }

  /** Neither kind of win touches what the votes say. */
  lemma WinKeepsVotes(c: State, n: PeerId, c': State)
    requires TermInv(c) && NetInv(c) && BallotInv(c) && VotedInv(c) && GrantInv(c)
    requires OnlyNode(c, n, c') && c'.net == c.net && c'.hist.ballots == c.hist.ballots
    requires forall t :: t in c.hist.wins ==> t in c'.hist.wins && c'.hist.wins[t] == c.hist.wins[t]
    requires c'.nodes[n].term == c.nodes[n].term && c'.nodes[n].votedFor == c.nodes[n].votedFor
    ensures TermInv(c') && NetInv(c') && BallotInv(c') && VotedInv(c') && GrantInv(c')
  {
  }

  lemma WinningAgainKeepsWins(ms: Members, c: State, n: PeerId, c': State)
    requires WinInv(ms, c) && LeadInv(c) && WinningAgain(c, n, c')
    requires c.nodes[n].term in c.hist.wins && c.hist.wins[c.nodes[n].term].leader == n
    ensures WinInv(ms, c') && LeadInv(c')
  {
    forall t | t in c'.hist.wins
      ensures WonOk(ms, c', t)
    {
      assert WonOk(ms, c, t);
    }
  }

  lemma WinKeeps(ms: Members, c: State, n: PeerId)
    requires BindInv(ms, c) && Enabled(ms, c, Win(n))
    ensures BindInv(ms, Apply(ms, c, Win(n)))
  {
    var c' := Apply(ms, c, Win(n));
    WinIsOwn(ms, c, n);
    if c.nodes[n].term in c.hist.wins {
      WinAgainShape(ms, c, n);
      WinningAgainKeepsWins(ms, c, n, c');
    } else {
      WinShape(ms, c, n);
      WinningKeepsWins(ms, c, n, c');
    }
    WinKeepsVotes(c, n, c');
    CandidatesKept(ms, c, n, c');
  }

  // ------------------------------------------------------ when a vote binds

  /** The second vote of a node that led the term contradicts its recorded one. */
  lemma SecondVote(ms: Members, c: State, n: PeerId, m: Msg)
    requires NetInv(c) && WinInv(ms, c) && Enabled(ms, c, DeliverVoteRequest(n, m))
    requires VotesAgain(c, DeliverVoteRequest(n, m))
    ensures !BallotInv(Apply(ms, c, DeliverVoteRequest(n, m)))
  {
    assert WonOk(ms, c, m.term);
    assert Voted(c.hist, n, m.term, n);
    assert At(n, m.term) in Apply(ms, c, DeliverVoteRequest(n, m)).hist.ballots;
  }

  lemma LastTermCampaign(ms: Members, c: State, n: PeerId)
    requires BallotInv(c) && VotedInv(c) && Enabled(ms, c, Campaign(n)) && c.nodes[n].term == U64_MAX
    ensures BallotInv(Apply(ms, c, Campaign(n))) <==> c.nodes[n].votedFor == None || c.nodes[n].votedFor == Some(n)
  {
    var c' := Apply(ms, c, Campaign(n));
    var a := At(n, U64_MAX);
    if c.nodes[n].votedFor.Some? && c.nodes[n].votedFor != Some(n) {
      assert a in c'.hist.ballots && c'.hist.ballots[a] == c.hist.ballots[a];
    }
  }

  /** Recorded votes go on binding their voters exactly when the step does not reuse one. */
  lemma VotesBindIff(ms: Members, c: State, s: Step)
    requires BindInv(ms, c) && Enabled(ms, c, s)
    ensures BallotInv(Apply(ms, c, s)) <==> !ReusesVote(c, s)
  {
    if VotesAgain(c, s) {
      SecondVote(ms, c, s.n, s.m);
    } else if s.Campaign? && c.nodes[s.n].term == U64_MAX {
      LastTermCampaign(ms, c, s.n);
    } else {
      StepBinds(ms, c, s);
    }
  }

  // -------------------------------------------------------------- every step

  predicate IsVotingStep(s: Step) {
    s.Campaign? || s.DeliverVoteRequest? || s.DeliverVoteReply? || s.Win?
  }

  lemma AppendHandlersAreQuiet(nd: Node, term: nat, leader: PeerId, prevIndex: nat, prevTerm: nat, commit: nat,
                               entries: seq<Entry>, src: PeerId, success: bool, matched: nat, sentLast: nat)
    ensures QuietNode(nd, OnAppendRequest(nd, term, leader, prevIndex, prevTerm, commit, entries).0)
    ensures QuietNode(nd, OnAppendReply(nd, src, term, success, matched))
    ensures QuietNode(nd, OnPendingReply(nd, src, sentLast, term, success, matched))
  {
  }

  lemma AppendShape(ms: Members, c: State, n: PeerId, m: Msg)
    requires NetInv(c) && Enabled(ms, c, DeliverAppend(n, m))
    ensures QuietStep(c, n, Apply(ms, c, DeliverAppend(n, m)))
  {
    AppendHandlersAreQuiet(c.nodes[n], m.term, m.leader, m.prevIndex, m.prevTerm, m.commit, m.entries, 0, false, 0, 0);
  }

  lemma AppendReplyShape(ms: Members, c: State, n: PeerId, m: Msg)
    requires Enabled(ms, c, DeliverAppendReply(n, m))
    ensures QuietStep(c, n, Apply(ms, c, DeliverAppendReply(n, m)))
  {
    var nd1 := CountRoundAck(c.nodes[n], ms.voters, m.src, m.term, m.probe);
    AppendHandlersAreQuiet(nd1, m.term, 0, 0, 0, 0, [], m.src, m.success, m.matched, 0);
  }

  lemma PendingReplyShape(ms: Members, c: State, n: PeerId, m: Msg, sentLast: nat)
    requires Enabled(ms, c, DeliverPendingReply(n, m, sentLast))
    ensures QuietStep(c, n, Apply(ms, c, DeliverPendingReply(n, m, sentLast)))
  {
    AppendHandlersAreQuiet(c.nodes[n], m.term, 0, 0, 0, 0, [], m.src, m.success, m.matched, sentLast);
  }

  lemma QuietShape(ms: Members, c: State, s: Step)
    requires NetInv(c) && Enabled(ms, c, s) && !IsVotingStep(s)
    ensures QuietStep(c, s.n, Apply(ms, c, s))
  {
    match s
    case DeliverAppend(n, m) => AppendShape(ms, c, n, m);
    case DeliverAppendReply(n, m) => AppendReplyShape(ms, c, n, m);
    case DeliverPendingReply(n, m, sentLast) => PendingReplyShape(ms, c, n, m, sentLast);
    case _ => LocalShape(ms, c, s);
  }

  lemma LocalShape(ms: Members, c: State, s: Step)
    requires Enabled(ms, c, s) && !IsVotingStep(s)
    requires !s.DeliverAppend? && !s.DeliverAppendReply? && !s.DeliverPendingReply?
    ensures QuietStep(c, s.n, Apply(ms, c, s))
  {
  }

  lemma TermsFit(ms: Members, c: State, s: Step)
    requires TermInv(c) && Enabled(ms, c, s)
    ensures TermInv(Apply(ms, c, s))
  {
  }

  lemma StepBinds(ms: Members, c: State, s: Step)
    requires BindInv(ms, c) && Enabled(ms, c, s) && !ReusesVote(c, s)
    ensures BindInv(ms, Apply(ms, c, s))
  {
    TermsFit(ms, c, s);
    if IsVotingStep(s) {
      match s
      case Campaign(n) => CampaignKeeps(ms, c, n);
      case DeliverVoteRequest(n, m) => VoteRequestKeeps(ms, c, n, m);
      case DeliverVoteReply(n, m) => VoteReplyKeeps(ms, c, n, m);
      case Win(n) => WinKeeps(ms, c, n);
    } else {
      QuietShape(ms, c, s);
      QuietKeeps(ms, c, s.n, Apply(ms, c, s));
    }
  }

  /** Candidacy is entered only in a later term; only a candidate wins, and then it leads. */
  lemma RoleMoves(ms: Members, c: State, s: Step)
    requires Enabled(ms, c, s) && KeepsVote(c, s)
    ensures var c' := Apply(ms, c, s); var nd, nd' := c.nodes[s.n], c'.nodes[s.n];
            && OnlyNode(c, s.n, c')
            && (nd'.role == Candidate ==> nd'.term > nd.term || (nd'.term == nd.term && nd.role == Candidate))
            && (forall t :: t in c'.hist.wins && t !in c.hist.wins ==>
                  c'.hist.wins[t].leader == s.n && nd'.term == t && nd'.role == Leader)
            && (forall t :: t in c.hist.wins ==> t in c'.hist.wins && c'.hist.wins[t] == c.hist.wins[t])
  {
  }

  /** A node that won a term has reached it. */
  lemma WinnerReached(ms: Members, c: State, t: nat)
    requires BallotInv(c) && WinInv(ms, c) && t in c.hist.wins
    ensures c.hist.wins[t].leader in c.nodes && t <= c.nodes[c.hist.wins[t].leader].term
  {
    assert WonOk(ms, c, t);
    assert Voted(c.hist, c.hist.wins[t].leader, t, c.hist.wins[t].leader);
  }

  lemma StepRests(ms: Members, c: State, s: Step)
    requires Inv(ms, c) && Enabled(ms, c, s) && KeepsVote(c, s)
    ensures WinnersRest(Apply(ms, c, s))
  {
    var c' := Apply(ms, c, s);
    RoleMoves(ms, c, s);
    forall t | t in c'.hist.wins
      ensures var w := c'.hist.wins[t].leader; w in c'.nodes && c'.nodes[w].term == t ==> c'.nodes[w].role != Candidate
    {
      if t in c.hist.wins { WinnerReached(ms, c, t); }
    }
  }

  lemma StepKeeps(ms: Members, c: State, s: Step)
    requires Inv(ms, c) && Enabled(ms, c, s) && KeepsVote(c, s)
    ensures Inv(ms, Apply(ms, c, s))
  {
    StepBinds(ms, c, s);
    StepRests(ms, c, s);
  }

  lemma {:induction false} RunKeeps(ms: Members, ids: set<PeerId>, steps: seq<Step>)
    requires VoteSafeRun(ms, ids, steps)
    ensures Exec(ms, ids, steps).Some?
    ensures Inv(ms, Exec(ms, ids, steps).value) && Exec(ms, ids, steps).value.nodes.Keys == ids
  {
    if steps != [] {
      var front := steps[..|steps| - 1];
      RunKeeps(ms, ids, front);
      StepKeeps(ms, Exec(ms, ids, front).value, steps[|steps| - 1]);
    }
  }

  lemma {:induction false} RunBinds(ms: Members, ids: set<PeerId>, steps: seq<Step>)
    requires BindingRun(ms, ids, steps)
    ensures Exec(ms, ids, steps).Some? && BindInv(ms, Exec(ms, ids, steps).value)
  {
    if steps != [] {
      var front := steps[..|steps| - 1];
      RunBinds(ms, ids, front);
      StepBinds(ms, Exec(ms, ids, front).value, steps[|steps| - 1]);
    }
  }

  // --------------------------------------------------------------- the theorems

  lemma {:induction false} PrefixOfRun(ms: Members, ids: set<PeerId>, steps: seq<Step>, i: nat)
    requires VoteSafeRun(ms, ids, steps) && i <= |steps|
    ensures VoteSafeRun(ms, ids, steps[..i])
  {
    if i < |steps| {
      var front := steps[..|steps| - 1];
      PrefixOfRun(ms, ids, front, i);
      assert front[..i] == steps[..i];
    } else {
      assert steps[..i] == steps;
    }
  }

  lemma {:induction false} PrefixBinds(ms: Members, ids: set<PeerId>, steps: seq<Step>, i: nat)
    requires BindingRun(ms, ids, steps) && i <= |steps|
    ensures BindingRun(ms, ids, steps[..i])
  {
    if i < |steps| {
      var front := steps[..|steps| - 1];
      PrefixBinds(ms, ids, front, i);
      assert front[..i] == steps[..i];
    } else {
      assert steps[..i] == steps;
    }
  }

  lemma StepRecords(ms: Members, c: State, s: Step)
    requires Enabled(ms, c, s)
    ensures var c' := Apply(ms, c, s);
            forall t :: t in c.hist.wins ==> t in c'.hist.wins && c'.hist.wins[t] == c.hist.wins[t]
  {
  }

  /** Elections, once recorded, stay recorded. */
  lemma {:induction false} WinsStay(ms: Members, ids: set<PeerId>, steps: seq<Step>, i: nat)
    requires Exec(ms, ids, steps).Some? && i <= |steps|
    ensures Exec(ms, ids, steps[..i]).Some?
    ensures var c, c' := Exec(ms, ids, steps[..i]).value, Exec(ms, ids, steps).value;
            forall t :: t in c.hist.wins ==> t in c'.hist.wins && c'.hist.wins[t] == c.hist.wins[t]
  {
    if i < |steps| {
      var front := steps[..|steps| - 1];
      WinsStay(ms, ids, front, i);
      assert front[..i] == steps[..i];
      StepRecords(ms, Exec(ms, ids, front).value, steps[|steps| - 1]);
    } else {
      assert steps[..i] == steps;
    }
  }

  /**
   Election safety: in a run whose steps reuse no vote, a node leading a term at one
   moment and a node leading the same term at any other moment are the same node,
   whatever was lost, duplicated, delayed or reordered.
   */
  lemma OneLeaderPerTerm(ms: Members, ids: set<PeerId>, steps: seq<Step>, i: nat, j: nat, a: PeerId, b: PeerId)
    requires BindingRun(ms, ids, steps) && i <= |steps| && j <= |steps|
    requires Exec(ms, ids, steps[..i]).Some? && Exec(ms, ids, steps[..j]).Some?
    requires var x, y := Exec(ms, ids, steps[..i]).value, Exec(ms, ids, steps[..j]).value;
             && a in x.nodes && x.nodes[a].role == Leader
             && b in y.nodes && y.nodes[b].role == Leader && y.nodes[b].term == x.nodes[a].term
    ensures a == b
  {
    PrefixBinds(ms, ids, steps, i);
    PrefixBinds(ms, ids, steps, j);
    RunBinds(ms, ids, steps[..i]);
    RunBinds(ms, ids, steps[..j]);
    RunBinds(ms, ids, steps);
    WinsStay(ms, ids, steps, i);
    WinsStay(ms, ids, steps, j);
  }

  lemma LeaderVotes(ms: Members, c: State, n: PeerId)
    requires WinInv(ms, c) && LeadInv(c) && n in c.nodes && c.nodes[n].role == Leader
    ensures n in ms.voters
  {
    assert WonOk(ms, c, c.nodes[n].term);
  }

  /** Whoever leads is one of the voters, at every moment of a run. */
  lemma LeadersVote(ms: Members, ids: set<PeerId>, steps: seq<Step>, n: PeerId)
    requires BindingRun(ms, ids, steps) && Exec(ms, ids, steps).Some?
    requires n in Exec(ms, ids, steps).value.nodes && Exec(ms, ids, steps).value.nodes[n].role == Leader
    ensures n in ms.voters
  {
    RunBinds(ms, ids, steps);
    LeaderVotes(ms, Exec(ms, ids, steps).value, n);
  }
}
