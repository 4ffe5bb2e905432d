/** Following a leader keeps what was acknowledged; no two nodes ever commit different entries at one index. */
module StateMachineSafety {
  import opened Types
  import opened Quorums
  import opened NodeSpec
  import opened Cluster
  import opened Prefix
  import ES = ElectionSafety
  import LM = LogMatching
  import opened CommitSafety

  // ---------------------------------------------------------- accepted appends

  /**
   The tip condition is exactly what an acknowledgement needs: a log in a run has
   the leader's term at its own tip index if and only if it is a prefix of the
   leader's log.
   */
  lemma TipMeansPrefix(h: History, log: seq<Entry>, t: nat)
    requires LM.TermsInv(h) && LM.Anchored(h.tlog, log) && t in h.wins && t in h.tlog && log != []
    ensures TermOf(h.tlog[t], |log|) == Some(TipTerm(log)) <==> Cut(log, h.tlog[t])
  {
    LM.TermLogAnchored(h, t);
    if TermOf(h.tlog[t], |log|) == Some(TipTerm(log)) {
      LM.SameTermSamePrefix(h, log, h.tlog[t], |log| - 1);
    }
    if Cut(log, h.tlog[t]) { SameAt(log, h.tlog[t], |log|, |log| - 1); }
  }

  /**
   An acknowledgement that does not reach past the entries of its request always
   meets the condition: only a surviving tail of the receiver can break it.
   */
  lemma AckWithinRequest(c: State, n: PeerId, m: Msg)
    requires n in c.nodes && m.Append? && LM.AppendOk(c.hist, m) && LM.TermsInv(c.hist)
    requires LM.Anchored(c.hist.tlog, c.nodes[n].log)
    requires var (nd', r) := OnAppendRequest(c.nodes[n], m.term, m.leader, m.prevIndex, m.prevTerm, m.commit, m.entries);
             |nd'.log| <= m.prevIndex + |m.entries|
    ensures TipOnLeaderLog(c, DeliverAppend(n, m))
  {
    var h, nd, lead, e := c.hist, c.nodes[n], c.hist.tlog[m.term], m.prevIndex + |m.entries|;
    var (nd', r) := OnAppendRequest(nd, m.term, m.leader, m.prevIndex, m.prevTerm, m.commit, m.entries);
    AppendOutcome(h, nd, m);
    if Accepted(h, nd, m, nd', r) && nd'.log != [] {
      ShortIsPrefix(nd.log, lead, e);
      FollowedAnchored(h, nd.log, m.term, e);
      LM.AnchoredLength(h, nd'.log);
      TipMeansPrefix(h, nd'.log, m.term);
    }
  }

  lemma ShortIsPrefix(log: seq<Entry>, lead: seq<Entry>, e: nat)
    requires e <= |lead| && |LM.Followed(log, lead, e)| <= e
    ensures Cut(LM.Followed(log, lead, e), lead)
  {
    if Same(log, lead, e) { SameLess(log, lead, e, |log|); } else { CutOf(lead, e); }
  }

  /** A prefix both logs share survives following one from the other. */
  lemma FollowKeeps(p: seq<Entry>, log: seq<Entry>, lead: seq<Entry>, e: nat, k: nat)
    requires e <= |lead| && Same(p, log, k) && Same(p, lead, k)
    ensures Same(p, LM.Followed(log, lead, e), k)
  {
    if !Same(log, lead, e) {
      SameSym(p, log, k);
      SameTrans(log, p, lead, k);
      if k > e { SameLess(log, lead, k, e); }
      CutOf(lead, e);
      SameSym(lead[..e], lead, e);
      SameLess(lead, lead[..e], e, k);
      SameTrans(p, lead, lead[..e], k);
    }
  }

  /** What an accepted append does. */
  ghost predicate Accepted(h: History, nd: Node, m: Msg, nd': Node, r: Reply)
    requires m.Append? && LM.AppendOk(h, m)
  {
    && m.term >= nd.term && nd'.term == m.term && nd'.role == Follower
    && nd'.log == LM.Followed(nd.log, h.tlog[m.term], m.prevIndex + |m.entries|)
    && r == Reply(m.term, true, TipIndex(nd'.log))
    && nd'.commit == (if m.commit > nd.commit then Min(m.commit, TipIndex(nd'.log)) else nd.commit)
    && (nd'.progress == map[] || (nd'.progress == nd.progress && nd.term == m.term))
  }

  /** ... and one that is not accepted. */
  predicate Refused(nd: Node, nd': Node, r: Reply) {
    && nd'.log == nd.log && nd'.commit == nd.commit && nd'.term >= nd.term
    && (r.Silent? || !r.success)
    && (nd'.progress == map[] || (nd'.progress == nd.progress && nd'.term == nd.term))
  }

  /** The handler once the check has passed and the merge is known. */
  lemma AcceptedNode(nd: Node, term: nat, leader: PeerId, prevIndex: nat, prevTerm: nat, commit: nat, entries: seq<Entry>,
                     log': seq<Entry>)
    requires term >= nd.term && PrevOk(nd.log, prevIndex, prevTerm) && Merge(nd.log, prevIndex, entries) == Ok(log')
    ensures var (nd', r) := OnAppendRequest(nd, term, leader, prevIndex, prevTerm, commit, entries);
            && nd'.term == term && nd'.role == Follower && nd'.log == log' && r == Reply(term, true, TipIndex(log'))
            && nd'.commit == (if commit > nd.commit then Min(commit, TipIndex(log')) else nd.commit)
            && (nd'.progress == map[] || (nd'.progress == nd.progress && nd.term == term))
  {
  }

  lemma RefusedNode(nd: Node, term: nat, leader: PeerId, prevIndex: nat, prevTerm: nat, commit: nat, entries: seq<Entry>)
    requires term < nd.term || !PrevOk(nd.log, prevIndex, prevTerm)
    ensures var (nd', r) := OnAppendRequest(nd, term, leader, prevIndex, prevTerm, commit, entries); Refused(nd, nd', r)
  {
  }

  lemma AcceptOutcome(h: History, nd: Node, m: Msg)
    requires m.Append? && LM.AppendOk(h, m) && m.term >= nd.term && PrevOk(nd.log, m.prevIndex, m.prevTerm)
    requires LM.Agree(nd.log, h.tlog[m.term]) && Indexed(h.tlog[m.term]) && |h.tlog[m.term]| < U64_MAX
    ensures var (nd', r) := OnAppendRequest(nd, m.term, m.leader, m.prevIndex, m.prevTerm, m.commit, m.entries);
            Accepted(h, nd, m, nd', r)
  {
    LM.MergeFollows(h, nd.log, m);
    AcceptedNode(nd, m.term, m.leader, m.prevIndex, m.prevTerm, m.commit, m.entries,
                 LM.Followed(nd.log, h.tlog[m.term], m.prevIndex + |m.entries|));
  }

  lemma AppendOutcome(h: History, nd: Node, m: Msg)
    requires m.Append? && LM.AppendOk(h, m) && LM.TermsInv(h) && LM.Anchored(h.tlog, nd.log)
    ensures var (nd', r) := OnAppendRequest(nd, m.term, m.leader, m.prevIndex, m.prevTerm, m.commit, m.entries);
            Accepted(h, nd, m, nd', r) || Refused(nd, nd', r)
  {
    if m.term >= nd.term && PrevOk(nd.log, m.prevIndex, m.prevTerm) {
      LM.LeadAgrees(h, nd.log, m);
      AcceptOutcome(h, nd, m);
    } else {
      RefusedNode(nd, m.term, m.leader, m.prevIndex, m.prevTerm, m.commit, m.entries);
    }
  }

  /** The accepting node's log is a prefix of the leader's, and its acknowledgement is recorded. */
  ghost predicate AcceptStep(c: State, n: PeerId, m: Msg, c': State)
    requires m.Append? && LM.AppendOk(c.hist, m)
  {
    ES.OnlyNode(c, n, c') &&
    var nd, nd', lead := c.nodes[n], c'.nodes[n], c.hist.tlog[m.term];
    && Accepted(c.hist, nd, m, nd', Reply(m.term, true, |nd'.log|))
    && TipIndex(nd'.log) == |nd'.log| && Cut(nd'.log, lead)
    && c'.hist == RecordAck(c.hist, n, m.term, |nd'.log|)
    && c'.net == c.net + {AppendResp(n, m.src, m.term, true, |nd'.log|, m.probe)}
  }

  /** What the follower acknowledged to this leader before is still there. */
  lemma SameTermAck(c: State, n: PeerId, m: Msg, c': State)
    requires m.Append? && LM.AppendOk(c.hist, m) && AcceptStep(c, n, m, c')
    requires At(n, m.term) in c.hist.acks && AckOk(c, At(n, m.term))
    ensures c.hist.acks[At(n, m.term)] <= |c'.nodes[n].log|
  {
    var nd, lead, was := c.nodes[n], c.hist.tlog[m.term], c.hist.acks[At(n, m.term)];
    assert Kept(c.hist, nd.log, m.term, was, nd.term);
    assert Same(lead, nd.log, was);
    SameSelf(lead, was);
    FollowKeeps(lead, nd.log, lead, m.prevIndex + |m.entries|, was);
    if was > 0 { SameAt(lead, c'.nodes[n].log, was, was - 1); }
  }

  /** What it acknowledged to earlier leaders is still there, or this leader started without it. */
  lemma EarlierAckKept(c: State, n: PeerId, m: Msg, c': State, t: nat, k: nat)
    requires m.Append? && LM.AppendOk(c.hist, m) && LM.TermsInv(c.hist) && AcceptStep(c, n, m, c')
    requires t in c.hist.tlog && t < m.term && Kept(c.hist, c.nodes[n].log, t, k, c.nodes[n].term)
    ensures Kept(c.hist, c'.nodes[n].log, t, k, m.term)
  {
    var h, nd, lead := c.hist, c.nodes[n], c.hist.tlog[m.term];
    if Same(h.tlog[t], nd.log, k) {
      if Same(h.tlog[t], lead, k) {
        FollowKeeps(h.tlog[t], nd.log, lead, m.prevIndex + |m.entries|, k);
      } else {
        LeaderLacks(h, t, k, m.term);
      }
    } else {
      var u: nat :| t < u <= nd.term && Lacks(h, t, k, u);
      assert u <= m.term;
    }
  }

  lemma LeaderLacks(h: History, t: nat, k: nat, u: nat)
    requires LM.TermsInv(h) && t in h.tlog && u in h.wins && u in h.tlog && !Same(h.tlog[t], h.tlog[u], k)
    ensures Lacks(h, t, k, u)
  {
    var base := h.wins[u].base;
    assert LM.TermOk(h, u);
    if Same(h.tlog[t], base, k) {
      if k > 0 { SameAt(h.tlog[t], base, k, k - 1); }
      SameLess(base, h.tlog[u], |base|, k);
      SameTrans(h.tlog[t], base, h.tlog[u], k);
    }
  }

  lemma AckGrows(h: History, v: PeerId, t: nat, k: nat)
    ensures Grows(h, RecordAck(h, v, t, k))
  {
    LM.GrowsSelf(h);
  }

  lemma NewAckOk(c: State, n: PeerId, m: Msg, c': State)
    requires m.Append? && LM.AppendOk(c.hist, m) && AcceptStep(c, n, m, c') && AcksInv(c)
    ensures At(n, m.term) in c'.hist.acks && AckOk(c', At(n, m.term))
  {
    var a, lead, log' := At(n, m.term), c.hist.tlog[m.term], c'.nodes[n].log;
    if a in c.hist.acks {
      assert AckOk(c, a);
      SameTermAck(c, n, m, c');
    }
    CutShorter(log', lead);
    forall k: nat | k <= c'.hist.acks[a]
      ensures Kept(c'.hist, log', m.term, k, m.term)
    {
      SameLess(log', lead, |log'|, k);
      SameSym(log', lead, k);
    }
  }

  lemma EarlierAckOk(c: State, n: PeerId, m: Msg, c': State, a: At)
    requires m.Append? && LM.AppendOk(c.hist, m) && LM.TermsInv(c.hist) && AcceptStep(c, n, m, c')
    requires a in c.hist.acks && AckOk(c, a) && a.peer == n && a.term != m.term
    ensures a in c'.hist.acks && AckOk(c', a)
  {
    AckGrows(c.hist, n, m.term, |c'.nodes[n].log|);
    forall k: nat | k <= c'.hist.acks[a]
      ensures Kept(c'.hist, c'.nodes[n].log, a.term, k, m.term)
    {
      assert Kept(c.hist, c.nodes[n].log, a.term, k, c.nodes[n].term);
      EarlierAckKept(c, n, m, c', a.term, k);
      KeptStays(c.hist, c'.hist, c'.nodes[n].log, a.term, k, m.term, m.term);
    }
  }

  lemma AcceptAcks(c: State, n: PeerId, m: Msg, c': State)
    requires m.Append? && LM.AppendOk(c.hist, m) && LM.TermsInv(c.hist) && AcceptStep(c, n, m, c') && AcksInv(c)
    ensures OwnAcksOnly(c, n, c') && OwnAcksOk(c', n)
  {
    forall a | a in c'.hist.acks && a.peer == n
      ensures AckOk(c', a)
    {
      if a.term == m.term {
        NewAckOk(c, n, m, c');
      } else {
        assert AckOk(c, a);
        EarlierAckOk(c, n, m, c', a);
      }
    }
  }

  /** A commit index learned from the leader is committed on the leader's log. */
  lemma LearnedCommit(ms: Members, h: History, lead: seq<Entry>, log': seq<Entry>, commit: nat, t: nat)
    requires Cut(log', lead) && commit <= |lead| && Backed(ms, h, lead, commit, t)
    ensures Backed(ms, h, log', Min(commit, |log'|), t)
  {
    SameLess(log', lead, |log'|, Min(commit, |log'|));
    BackedMoves(ms, h, lead, log', commit, Min(commit, |log'|), t);
  }

  /** Following a later leader keeps what was already committed. */
  lemma HeldCommit(ms: Members, c: State, log: seq<Entry>, commit: nat, b: nat, t': nat, e: nat)
    requires Sound(ms, c) && Backed(ms, c.hist, log, commit, b) && b <= t' && commit <= |log|
    requires t' in c.hist.wins && t' in c.hist.tlog && e <= |c.hist.tlog[t']|
    ensures var log' := LM.Followed(log, c.hist.tlog[t'], e);
            commit <= |log'| && Same(log', log, commit)
  {
    if commit > 0 {
      var lead := c.hist.tlog[t'];
      var t: nat, k: nat :| t <= b && BackedBy(ms, c.hist, log, commit, t, k);
      CompleteInTerm(ms, c, log, commit, t, k, t');
      SameSelf(log, commit);
      FollowKeeps(log, log, lead, e, commit);
      var log' := LM.Followed(log, lead, e);
      SameAt(log, log', commit, commit - 1);
      SameSym(log, log', commit);
    }
  }

  /** The commit index an accepting follower ends up with: its own, or what it learned as far as its log goes. */
  lemma ChosenCommit(ms: Members, h: History, nd: Node, t: nat, log': seq<Entry>, heard: nat)
    requires nd.term <= t && Backed(ms, h, nd.log, nd.commit, nd.term) && nd.commit <= |log'| && Same(log', nd.log, nd.commit)
    requires t in h.tlog && Cut(log', h.tlog[t]) && heard <= |h.tlog[t]| && Backed(ms, h, h.tlog[t], heard, t)
    ensures Backed(ms, h, log', if heard > nd.commit then Min(heard, |log'|) else nd.commit, t)
  {
    if heard > nd.commit {
      LearnedCommit(ms, h, h.tlog[t], log', heard, t);
    } else {
      BackedMoves(ms, h, nd.log, log', nd.commit, nd.commit, nd.term);
      LM.GrowsSelf(h);
      BackedStays(ms, h, h, log', nd.commit, nd.term, t);
    }
  }

  /** The follower's commit index does not fall and stays on committed entries. */
  lemma AcceptCommit(ms: Members, c: State, nd: Node, t: nat, e: nat, heard: nat)
    requires Sound(ms, c) && t in c.hist.wins && t in c.hist.tlog && e <= |c.hist.tlog[t]| && nd.term <= t
    requires nd.commit <= |nd.log| && Backed(ms, c.hist, nd.log, nd.commit, nd.term)
    requires heard <= |c.hist.tlog[t]| && Backed(ms, c.hist, c.hist.tlog[t], heard, t)
    requires Cut(LM.Followed(nd.log, c.hist.tlog[t], e), c.hist.tlog[t])
    ensures var log' := LM.Followed(nd.log, c.hist.tlog[t], e);
            var commit' := if heard > nd.commit then Min(heard, |log'|) else nd.commit;
            nd.commit <= commit' <= |log'| && Backed(ms, c.hist, log', commit', t)
  {
    var log' := LM.Followed(nd.log, c.hist.tlog[t], e);
    HeldCommit(ms, c, nd.log, nd.commit, nd.term, t, e);
    ChosenCommit(ms, c.hist, nd, t, log', heard);
  }

  /** Nobody follows while it tracks progress: the term's leader does not hear from itself. */
  lemma AcceptTrack(c: State, n: PeerId, m: Msg, c': State, h: History)
    requires n in c.nodes && m.Append? && LM.AppendOk(c.hist, m) && m.src != n && ES.LeadInv(c)
    requires c.nodes[n].progress != map[] ==> c.nodes[n].role == Leader
    requires AcceptStep(c, n, m, c')
    ensures TrackOk(h, c'.nodes[n])
  {
  }

  lemma AcceptNodeOk(ms: Members, c: State, n: PeerId, m: Msg, c': State)
    requires NodesInv(ms, c) && Sound(ms, c) && ES.LeadInv(c) && AdvertOk(ms, c.hist, m)
    requires m.Append? && m.src != n && LM.AppendOk(c.hist, m) && AcceptStep(c, n, m, c')
    ensures NodeOk(ms, c'.hist, c'.nodes[n])
  {
    var nd' := c'.nodes[n];
    assert NodeOk(ms, c.hist, c.nodes[n]);
    AckGrows(c.hist, n, m.term, |nd'.log|);
    AcceptCommit(ms, c, c.nodes[n], m.term, m.prevIndex + |m.entries|, m.commit);
    BackedStays(ms, c.hist, c'.hist, nd'.log, nd'.commit, nd'.term, nd'.term);
    AcceptTrack(c, n, m, c', c'.hist);
  }

  lemma AcceptKeeps(ms: Members, c: State, n: PeerId, m: Msg, c': State)
    requires Inv(ms, c) && Sound(ms, c) && ES.LeadInv(c) && ES.BallotInv(c')
    requires m in c.net && m.Append? && m.src != n && LM.AppendOk(c.hist, m) && AcceptStep(c, n, m, c')
    ensures Inv(ms, c')
  {
    assert AdvertOk(ms, c.hist, m);
    AcceptNodeOk(ms, c, n, m, c');
    AcceptAcks(c, n, m, c');
    AckStepKeeps(ms, c, n, m.term, |c'.nodes[n].log|, m.src, m.probe, c');
  }

  /** A step that records one acknowledgement and answers with it. */
  lemma AckStepKeeps(ms: Members, c: State, n: PeerId, t: nat, k: nat, dst: PeerId, probe: nat, c': State)
    requires Inv(ms, c) && ES.OnlyNode(c, n, c') && ES.BallotInv(c') && NodeOk(ms, c'.hist, c'.nodes[n])
    requires OwnAcksOnly(c, n, c') && OwnAcksOk(c', n)
    requires c'.hist == RecordAck(c.hist, n, t, k) && c'.net == c.net + {AppendResp(n, dst, t, true, k, probe)}
    ensures Inv(ms, c')
  {
    AckGrows(c.hist, n, t, k);
    SelfSame(c.hist, c'.hist);
    DoneStay(ms, c.hist, c'.hist);
    Assemble(ms, c, n, c');
  }

  /** A delivered append either plainly leaves log and commit alone, or is an accepting step. */
  lemma AppendShape(ms: Members, c: State, n: PeerId, m: Msg)
    requires Enabled(ms, c, DeliverAppend(n, m)) && TipOnLeaderLog(c, DeliverAppend(n, m))
    requires LM.AppendOk(c.hist, m) && LM.TermsInv(c.hist)
    requires LM.Anchored(c.hist.tlog, c.nodes[n].log)
    ensures var c' := Apply(ms, c, DeliverAppend(n, m));
            || AcceptStep(c, n, m, c')
            || (&& PlainStep(c, n, c') && c'.nodes[n].commit == c.nodes[n].commit
                && (c'.nodes[n].progress == map[]
                    || (c'.nodes[n].progress == c.nodes[n].progress && c'.nodes[n].term == c.nodes[n].term)))
  {
    var nd, h := c.nodes[n], c.hist;
    var (nd', r) := OnAppendRequest(nd, m.term, m.leader, m.prevIndex, m.prevTerm, m.commit, m.entries);
    AppendOutcome(h, nd, m);
    if Accepted(h, nd, m, nd', r) {
      FollowedAnchored(h, nd.log, m.term, m.prevIndex + |m.entries|);
      LM.AnchoredLength(h, nd'.log);
      if nd'.log != [] { TipMeansPrefix(h, nd'.log, m.term); }
    }
  }

  lemma FollowedAnchored(h: History, log: seq<Entry>, t: nat, e: nat)
    requires LM.TermsInv(h) && LM.Anchored(h.tlog, log) && t in h.wins && t in h.tlog && e <= |h.tlog[t]|
    ensures LM.Anchored(h.tlog, LM.Followed(log, h.tlog[t], e))
  {
    LM.CutOfTermOk(h, t, e);
  }

  lemma RefusedTrack(c: State, n: PeerId, m: Msg, nd': Node)
    requires n in c.nodes && m.Append? && LM.AppendOk(c.hist, m) && m.src != n && ES.LeadInv(c)
    requires TrackOk(c.hist, c.nodes[n])
    requires nd' == OnAppendRequest(c.nodes[n], m.term, m.leader, m.prevIndex, m.prevTerm, m.commit, m.entries).0
    ensures TrackOk(c.hist, nd')
  {
    if nd'.progress != map[] {
      TrackStaysOk(c.hist, c.nodes[n], nd');
    }
  }

  lemma AppendKeeps(ms: Members, c: State, n: PeerId, m: Msg)
    requires FullInv(ms, c) && Enabled(ms, c, DeliverAppend(n, m)) && TipOnLeaderLog(c, DeliverAppend(n, m))
    requires ES.BallotInv(Apply(ms, c, DeliverAppend(n, m)))
    ensures Inv(ms, Apply(ms, c, DeliverAppend(n, m)))
  {
    var c' := Apply(ms, c, DeliverAppend(n, m));
    assert LM.MsgOk(c.hist, m) && LM.NodeOk(c.hist, n, c.nodes[n]);
    AppendShape(ms, c, n, m);
    if AcceptStep(c, n, m, c') {
      AcceptKeeps(ms, c, n, m, c');
    } else {
      assert NodeOk(ms, c.hist, c.nodes[n]);
      LM.AppendShape(ms, c, n, m);
      RefusedTrack(c, n, m, c'.nodes[n]);
      PlainKeeps(ms, c, n, c');
    }
  }

  // -------------------------------------------------------------- every step

  lemma StepKeeps(ms: Members, c: State, s: Step)
    requires FullInv(ms, c) && Enabled(ms, c, s) && KeepsVote(c, s) && TipOnLeaderLog(c, s) && FreshReply(c, s)
    requires ES.Inv(ms, Apply(ms, c, s)) && LM.Grows(c.hist, Apply(ms, c, s).hist)
    ensures Inv(ms, Apply(ms, c, s))
  {
    var c' := Apply(ms, c, s);
    match s
    case Campaign(n) => CampaignKeeps(ms, c, n);
    case DeliverVoteRequest(n, m) => VoteRequestKeeps(ms, c, n, m);
    case Win(n) =>
      ES.WinIsNew(ms, c, n);
      WinKeeps(ms, c, n);
    case Propose(n, payloads) => ProposeKeeps(ms, c, n, payloads);
    case SendAppend(n, dst, prev, count) => SendKeeps(ms, c, n, dst, prev, count);
    case DeliverAppend(n, m) => AppendKeeps(ms, c, n, m);
    case DeliverAppendReply(n, m) =>
      AppendReplyShape(ms, c, n, m);
      ReplyKeeps(ms, c, n, m, c');
    case DeliverPendingReply(n, m, sentLast) =>
      PendingReplyShape(ms, c, n, m, sentLast);
      ReplyKeeps(ms, c, n, m, c');
    case Commit(n) => CommitKeeps(ms, c, n);
    case FastCommit(n, k) => FastCommitKeeps(ms, c, n, k);
    case _ => PlainStepKeeps(ms, c, s);
  }

  lemma CampaignKeeps(ms: Members, c: State, n: PeerId)
    requires FullInv(ms, c) && Enabled(ms, c, Campaign(n)) && KeepsVote(c, Campaign(n))
    requires ES.BallotInv(Apply(ms, c, Campaign(n)))
    ensures Inv(ms, Apply(ms, c, Campaign(n)))
  {
    assert NodeOk(ms, c.hist, c.nodes[n]);
    CampaignShape(ms, c, n);
    LM.CampaignShape(ms, c, n);
    CastKeeps(ms, c, n, n, Apply(ms, c, Campaign(n)));
  }

  lemma PlainStepKeeps(ms: Members, c: State, s: Step)
    requires Inv(ms, c) && Enabled(ms, c, s) && IsPlain(s) && ES.BallotInv(Apply(ms, c, s))
    ensures Inv(ms, Apply(ms, c, s))
  {
    assert NodeOk(ms, c.hist, c.nodes[s.n]);
    PlainShape(ms, c, s);
    TrackStaysOk(c.hist, c.nodes[s.n], Apply(ms, c, s).nodes[s.n]);
    PlainKeeps(ms, c, s.n, Apply(ms, c, s));
  }

  lemma {:induction false} RunKeeps(ms: Members, ids: set<PeerId>, steps: seq<Step>)
    requires AckSafeRun(ms, ids, steps)
    ensures Exec(ms, ids, steps).Some? && FullInv(ms, Exec(ms, ids, steps).value)
  {
    AckSafeIsVoteSafe(ms, ids, steps);
    LM.RunKeeps(ms, ids, steps);
    if steps != [] {
      var front := steps[..|steps| - 1];
      RunKeeps(ms, ids, front);
      var c, s := Exec(ms, ids, front).value, steps[|steps| - 1];
      LM.StepKeeps(ms, c, s);
      StepKeeps(ms, c, s);
    }
  }

  // ------------------------------------------------------------ along the run

  lemma StepAcksGrow(ms: Members, c: State, s: Step)
    requires Enabled(ms, c, s)
    ensures AcksGrow(c.hist, Apply(ms, c, s).hist)
  {
  }

  lemma {:induction false} PrefixOfRun(ms: Members, ids: set<PeerId>, steps: seq<Step>, i: nat)
    requires AckSafeRun(ms, ids, steps) && i <= |steps|
    ensures AckSafeRun(ms, ids, steps[..i])
  {
    if i < |steps| {
      var front := steps[..|steps| - 1];
      PrefixOfRun(ms, ids, front, i);
      assert front[..i] == steps[..i];
    } else {
      assert steps[..i] == steps;
    }
  }

  lemma {:induction false} RunAcksGrow(ms: Members, ids: set<PeerId>, steps: seq<Step>, i: nat)
    requires AckSafeRun(ms, ids, steps) && i <= |steps|
    requires Exec(ms, ids, steps[..i]).Some? && Exec(ms, ids, steps).Some?
    ensures AcksGrow(Exec(ms, ids, steps[..i]).value.hist, Exec(ms, ids, steps).value.hist)
  {
    if i < |steps| {
      var front := steps[..|steps| - 1];
      assert front[..i] == steps[..i];
      RunAcksGrow(ms, ids, front, i);
      StepAcksGrow(ms, Exec(ms, ids, front).value, steps[|steps| - 1]);
    } else {
      assert steps[..i] == steps;
    }
  }

  /** What a node had committed at moment `i` is committed in the whole run's history. */
  lemma BackedAtEnd(ms: Members, ids: set<PeerId>, steps: seq<Step>, i: nat, a: PeerId)
    requires AckSafeRun(ms, ids, steps) && i <= |steps|
    requires Exec(ms, ids, steps[..i]).Some? && a in Exec(ms, ids, steps[..i]).value.nodes
    ensures Exec(ms, ids, steps).Some?
    ensures var nd := Exec(ms, ids, steps[..i]).value.nodes[a];
            nd.commit <= |nd.log| && Backed(ms, Exec(ms, ids, steps).value.hist, nd.log, nd.commit, nd.term)
  {
    PrefixOfRun(ms, ids, steps, i);
    RunKeeps(ms, ids, steps[..i]);
    RunKeeps(ms, ids, steps);
    AckSafeIsVoteSafe(ms, ids, steps);
    LM.RunGrows(ms, ids, steps, i);
    RunAcksGrow(ms, ids, steps, i);
    var x, y := Exec(ms, ids, steps[..i]).value, Exec(ms, ids, steps).value;
    var nd := x.nodes[a];
    assert NodeOk(ms, x.hist, nd);
    BackedStays(ms, x.hist, y.hist, nd.log, nd.commit, nd.term, nd.term);
  }

  // ------------------------------------------------------------- the theorems

  /**
   State machine safety: what node `a` had committed at one moment of a run and
   what node `b` had committed at any other moment agree, entry by entry, as far
   as both go.
   */
  lemma CommitsAgree(ms: Members, ids: set<PeerId>, steps: seq<Step>, i: nat, j: nat, a: PeerId, b: PeerId, k: nat)
    requires AckSafeRun(ms, ids, steps) && i <= |steps| && j <= |steps|
    requires Exec(ms, ids, steps[..i]).Some? && Exec(ms, ids, steps[..j]).Some?
    requires a in Exec(ms, ids, steps[..i]).value.nodes && b in Exec(ms, ids, steps[..j]).value.nodes
    requires var x, y := Exec(ms, ids, steps[..i]).value.nodes[a], Exec(ms, ids, steps[..j]).value.nodes[b];
             k <= x.commit && k <= y.commit
    ensures var x, y := Exec(ms, ids, steps[..i]).value.nodes[a], Exec(ms, ids, steps[..j]).value.nodes[b];
            k <= |x.log| && k <= |y.log| && x.log[..k] == y.log[..k]
  {
    var x, y := Exec(ms, ids, steps[..i]).value.nodes[a], Exec(ms, ids, steps[..j]).value.nodes[b];
    BackedAtEnd(ms, ids, steps, i, a);
    BackedAtEnd(ms, ids, steps, j, b);
    RunKeeps(ms, ids, steps);
    var z := Exec(ms, ids, steps).value;
    BackedAgree(ms, z, x.log, x.commit, x.term, y.log, y.commit, y.term);
    SameLess(x.log, y.log, Min(x.commit, y.commit), k);
    SameSlices(x.log, y.log, k);
  }

  /** A leader's log starts with the log it was elected with, at every moment of its term. */
  lemma LeaderStartsFromBase(ms: Members, ids: set<PeerId>, steps: seq<Step>, j: nat, b: PeerId)
    requires AckSafeRun(ms, ids, steps) && j <= |steps|
    requires Exec(ms, ids, steps[..j]).Some? && b in Exec(ms, ids, steps[..j]).value.nodes
    requires Exec(ms, ids, steps[..j]).value.nodes[b].role == Leader
    ensures Exec(ms, ids, steps).Some?
    ensures var nd, h := Exec(ms, ids, steps[..j]).value.nodes[b], Exec(ms, ids, steps).value.hist;
            nd.term in h.wins && Cut(h.wins[nd.term].base, nd.log)
  {
    PrefixOfRun(ms, ids, steps, j);
    RunKeeps(ms, ids, steps[..j]);
    AckSafeIsVoteSafe(ms, ids, steps);
    LM.RunGrows(ms, ids, steps, j);
    var x := Exec(ms, ids, steps[..j]).value;
    LeaderIsRightful(x, b);
    assert LM.TermOk(x.hist, x.nodes[b].term);
  }

  /**
   Leader completeness: everything node `a` had committed at any moment is in the
   log of every leader of a later term, at every moment of its leadership.
   */
  lemma LaterLeadersHaveIt(ms: Members, ids: set<PeerId>, steps: seq<Step>, i: nat, j: nat, a: PeerId, b: PeerId)
    requires AckSafeRun(ms, ids, steps) && i <= |steps| && j <= |steps|
    requires Exec(ms, ids, steps[..i]).Some? && Exec(ms, ids, steps[..j]).Some?
    requires a in Exec(ms, ids, steps[..i]).value.nodes && b in Exec(ms, ids, steps[..j]).value.nodes
    requires var x, y := Exec(ms, ids, steps[..i]).value.nodes[a], Exec(ms, ids, steps[..j]).value.nodes[b];
             y.role == Leader && y.term > x.term
    ensures var x, y := Exec(ms, ids, steps[..i]).value.nodes[a], Exec(ms, ids, steps[..j]).value.nodes[b];
            x.commit <= |x.log| && x.commit <= |y.log| && y.log[..x.commit] == x.log[..x.commit]
  {
    var x, y := Exec(ms, ids, steps[..i]).value.nodes[a], Exec(ms, ids, steps[..j]).value.nodes[b];
    BackedAtEnd(ms, ids, steps, i, a);
    LeaderStartsFromBase(ms, ids, steps, j, b);
    RunKeeps(ms, ids, steps);
    var z := Exec(ms, ids, steps).value;
    if x.commit > 0 {
      var t: nat, k: nat :| t <= x.term && BackedBy(ms, z.hist, x.log, x.commit, t, k);
      LeaderComplete(ms, z, t, k, y.term);
      ThroughBase(x.log, z.hist.tlog[t], z.hist.wins[y.term].base, y.log, x.commit, k);
      SameSlices(x.log, y.log, x.commit);
    }
  }

  lemma OtherCommits(ms: Members, c: State, s: Step, p: PeerId)
    requires Enabled(ms, c, s) && p in c.nodes && s != Restart(p) && !(s.DeliverAppend? && s.n == p)
    ensures p in Apply(ms, c, s).nodes && Apply(ms, c, s).nodes[p].commit >= c.nodes[p].commit
  {
    if s.Commit? { AdvanceShape(c.nodes[s.n], ms.voters, s.n); }
  }

  lemma FollowerCommits(ms: Members, c: State, n: PeerId, m: Msg)
    requires FullInv(ms, c) && Enabled(ms, c, DeliverAppend(n, m)) && TipOnLeaderLog(c, DeliverAppend(n, m))
    ensures Apply(ms, c, DeliverAppend(n, m)).nodes[n].commit >= c.nodes[n].commit
  {
    assert LM.MsgOk(c.hist, m) && LM.NodeOk(c.hist, n, c.nodes[n]) && NodeOk(ms, c.hist, c.nodes[n]);
    assert AdvertOk(ms, c.hist, m);
    AppendShape(ms, c, n, m);
    AppendCommit(ms, c, n, m, Apply(ms, c, DeliverAppend(n, m)));
  }

  lemma AppendCommit(ms: Members, c: State, n: PeerId, m: Msg, c': State)
    requires Sound(ms, c) && m.Append? && LM.AppendOk(c.hist, m) && AdvertOk(ms, c.hist, m)
    requires n in c.nodes && n in c'.nodes && CommitOk(ms, c.hist, c.nodes[n])
    requires AcceptStep(c, n, m, c') || c'.nodes[n].commit == c.nodes[n].commit
    ensures c'.nodes[n].commit >= c.nodes[n].commit
  {
    if AcceptStep(c, n, m, c') {
      AcceptRaises(ms, c, c.nodes[n], m.term, m.prevIndex + |m.entries|, m.commit, c'.nodes[n]);
    }
  }

  lemma AcceptRaises(ms: Members, c: State, nd: Node, t: nat, e: nat, heard: nat, nd': Node)
    requires Sound(ms, c) && t in c.hist.wins && t in c.hist.tlog && e <= |c.hist.tlog[t]| && nd.term <= t
    requires nd.commit <= |nd.log| && Backed(ms, c.hist, nd.log, nd.commit, nd.term)
    requires nd'.log == LM.Followed(nd.log, c.hist.tlog[t], e)
    requires nd'.commit == (if heard > nd.commit then Min(heard, |nd'.log|) else nd.commit)
    ensures nd'.commit >= nd.commit
  {
    HeldCommit(ms, c, nd.log, nd.commit, nd.term, t, e);
  }

  /** A commit index is only ever lost with the process: no other step of a run lowers it. */
  lemma CommitNeverLowered(ms: Members, ids: set<PeerId>, steps: seq<Step>, s: Step, p: PeerId)
    requires AckSafeRun(ms, ids, steps + [s]) && p in ids && s != Restart(p)
    ensures Exec(ms, ids, steps).Some? && Exec(ms, ids, steps + [s]).Some?
    ensures var c, c' := Exec(ms, ids, steps).value, Exec(ms, ids, steps + [s]).value;
            p in c.nodes && p in c'.nodes && c'.nodes[p].commit >= c.nodes[p].commit
  {
    assert (steps + [s])[..|steps|] == steps;
    RunKeeps(ms, ids, steps);
    AckSafeIsVoteSafe(ms, ids, steps);
    ES.RunKeeps(ms, ids, steps);
    var c := Exec(ms, ids, steps).value;
    if s.DeliverAppend? && s.n == p {
      FollowerCommits(ms, c, p, s.m);
    } else {
      OtherCommits(ms, c, s, p);
    }
  }

  /** Outside the append handler a log only grows. */
  lemma OtherLogs(ms: Members, c: State, s: Step, p: PeerId)
    requires Enabled(ms, c, s) && KeepsVote(c, s) && p in c.nodes && !(s.DeliverAppend? && s.n == p)
    ensures var c' := Apply(ms, c, s);
            p in c'.nodes && c'.nodes[p].term >= c.nodes[p].term && c.nodes[p].log <= c'.nodes[p].log
  {
  }

  /** A follower that takes over a leader's entries keeps what is committed on its own log. */
  lemma AcceptHolds(ms: Members, c: State, n: PeerId, m: Msg, c': State, k: nat, b: nat)
    requires Sound(ms, c) && m.Append? && LM.AppendOk(c.hist, m) && n in c.nodes
    requires AcceptStep(c, n, m, c') || PlainStep(c, n, c')
    requires k <= |c.nodes[n].log| && Backed(ms, c.hist, c.nodes[n].log, k, b) && b <= c.nodes[n].term
    ensures n in c'.nodes && c'.nodes[n].term >= c.nodes[n].term && Same(c'.nodes[n].log, c.nodes[n].log, k)
  {
    FollowHolds(ms, c, c.nodes[n].log, k, b, m, c'.nodes[n].log);
  }

  lemma FollowHolds(ms: Members, c: State, log: seq<Entry>, k: nat, b: nat, m: Msg, log': seq<Entry>)
    requires Sound(ms, c) && m.Append? && LM.AppendOk(c.hist, m)
    requires k <= |log| && Backed(ms, c.hist, log, k, b)
    requires log' == log || (b <= m.term && log' == LM.Followed(log, c.hist.tlog[m.term], m.prevIndex + |m.entries|))
    ensures Same(log', log, k)
  {
    if log' == log {
      SameSelf(log, k);
    } else {
      HeldCommit(ms, c, log, k, b, m.term, m.prevIndex + |m.entries|);
    }
  }

  lemma AppendHolds(ms: Members, c: State, n: PeerId, m: Msg, k: nat, b: nat)
    requires FullInv(ms, c) && Enabled(ms, c, DeliverAppend(n, m)) && TipOnLeaderLog(c, DeliverAppend(n, m))
    requires k <= |c.nodes[n].log| && Backed(ms, c.hist, c.nodes[n].log, k, b) && b <= c.nodes[n].term
    ensures var c' := Apply(ms, c, DeliverAppend(n, m));
            n in c'.nodes && c'.nodes[n].term >= c.nodes[n].term && Same(c'.nodes[n].log, c.nodes[n].log, k)
  {
    assert LM.MsgOk(c.hist, m) && LM.NodeOk(c.hist, n, c.nodes[n]);
    AppendShape(ms, c, n, m);
    AcceptHolds(ms, c, n, m, Apply(ms, c, DeliverAppend(n, m)), k, b);
  }

  lemma StepHolds(ms: Members, c: State, s: Step, p: PeerId, k: nat, b: nat)
    requires FullInv(ms, c) && Enabled(ms, c, s) && KeepsVote(c, s) && TipOnLeaderLog(c, s) && p in c.nodes
    requires k <= |c.nodes[p].log| && Backed(ms, c.hist, c.nodes[p].log, k, b) && b <= c.nodes[p].term
    ensures var c' := Apply(ms, c, s);
            p in c'.nodes && c'.nodes[p].term >= c.nodes[p].term && Same(c'.nodes[p].log, c.nodes[p].log, k)
  {
    if s.DeliverAppend? && s.n == p {
      AppendHolds(ms, c, p, s.m, k, b);
    } else {
      OtherLogs(ms, c, s, p);
      SameFrom(Apply(ms, c, s).nodes[p].log, c.nodes[p].log, k);
    }
  }

  lemma {:induction false} RunHolds(ms: Members, ids: set<PeerId>, steps: seq<Step>, i: nat, p: PeerId)
    requires AckSafeRun(ms, ids, steps) && i <= |steps| && p in ids
    ensures Exec(ms, ids, steps[..i]).Some? && Exec(ms, ids, steps).Some?
    ensures var c, c' := Exec(ms, ids, steps[..i]).value, Exec(ms, ids, steps).value;
            p in c.nodes && p in c'.nodes && c.nodes[p].term <= c'.nodes[p].term
            && Same(c'.nodes[p].log, c.nodes[p].log, c.nodes[p].commit)
    decreases |steps|
  {
    RunKeeps(ms, ids, steps);
    if i < |steps| {
      var front := steps[..|steps| - 1];
      assert front[..i] == steps[..i];
      RunHolds(ms, ids, front, i, p);
      RunKeeps(ms, ids, front);
      BackedAtEnd(ms, ids, front, i, p);
      var x, c := Exec(ms, ids, steps[..i]).value.nodes[p], Exec(ms, ids, front).value;
      BackedMoves(ms, c.hist, x.log, c.nodes[p].log, x.commit, x.commit, x.term);
      StepHolds(ms, c, steps[|steps| - 1], p, x.commit, x.term);
      SameTrans(Exec(ms, ids, steps).value.nodes[p].log, c.nodes[p].log, x.log, x.commit);
    } else {
      assert steps[..i] == steps;
      AckSafeIsVoteSafe(ms, ids, steps);
      ES.RunKeeps(ms, ids, steps);
      BackedAtEnd(ms, ids, steps, i, p);
      SameSelf(Exec(ms, ids, steps).value.nodes[p].log, Exec(ms, ids, steps).value.nodes[p].commit);
    }
  }

  /**
   Durability of commits: what a node had committed at moment `i` is in its own log
   at every later moment `j`, whatever leaders it followed and however often it
   restarted in between.
   */
  lemma CommittedIsKept(ms: Members, ids: set<PeerId>, steps: seq<Step>, i: nat, j: nat, p: PeerId)
    requires AckSafeRun(ms, ids, steps) && i <= j <= |steps| && p in ids
    ensures Exec(ms, ids, steps[..i]).Some? && Exec(ms, ids, steps[..j]).Some?
    ensures var c, c' := Exec(ms, ids, steps[..i]).value, Exec(ms, ids, steps[..j]).value;
            && p in c.nodes && p in c'.nodes && c.nodes[p].commit <= |c.nodes[p].log|
            && c.nodes[p].commit <= |c'.nodes[p].log|
            && c'.nodes[p].log[..c.nodes[p].commit] == c.nodes[p].log[..c.nodes[p].commit]
  {
    PrefixOfRun(ms, ids, steps, j);
    assert steps[..j][..i] == steps[..i];
    RunHolds(ms, ids, steps[..j], i, p);
    var x, y := Exec(ms, ids, steps[..i]).value.nodes[p], Exec(ms, ids, steps[..j]).value.nodes[p];
    SameSlices(y.log, x.log, x.commit);
  }
}
