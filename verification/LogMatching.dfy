/** Logs that share an index and a term agree on everything up to it. */
module LogMatching {
  import opened Types
  import opened Quorums
  import opened NodeSpec
  import opened Cluster
  import opened Prefix
  import ES = ElectionSafety

  // ------------------------------------------------------------- invariants

  /** The log is a prefix of what the leader of its last term wrote. */
  predicate Anchored(tlog: map<nat, seq<Entry>>, log: seq<Entry>) {
    log == [] || (log[|log| - 1].term in tlog && Cut(log, tlog[log[|log| - 1].term]))
  }

  predicate LastBelow(log: seq<Entry>, t: nat) {
    log == [] || log[|log| - 1].term < t
  }

  predicate NodeLogOk(tlog: map<nat, seq<Entry>>, nd: Node) {
    Anchored(tlog, nd.log) && LastBelow(nd.log, nd.term + 1)
  }

  /** A candidate still has the log it campaigned with, and all of it is older than its term. */
  predicate CandidateLogOk(h: History, n: PeerId, nd: Node) {
    nd.role == Candidate ==>
      At(n, nd.term) in h.ballots && h.ballots[At(n, nd.term)].log == nd.log && LastBelow(nd.log, nd.term)
  }

  /** While the winner of a term is in that term, its log is the term's log. */
  predicate LeaderLogOk(h: History, n: PeerId, nd: Node) {
    nd.term in h.wins && h.wins[nd.term].leader == n ==> nd.term in h.tlog && nd.log == h.tlog[nd.term]
  }

  predicate NodeOk(h: History, n: PeerId, nd: Node) {
    NodeLogOk(h.tlog, nd) && CandidateLogOk(h, n, nd) && LeaderLogOk(h, n, nd)
  }

  /** A vote is for a candidate whose campaign log was at least as up to date as the voter's. */
  predicate BallotOk(h: History, a: At)
    requires a in h.ballots
  {
    var b := h.ballots[a];
    var own := At(b.cand, a.term);
    && Anchored(h.tlog, b.log)
    && own in h.ballots && h.ballots[own].cand == b.cand
    && UpToDate(TipIndex(h.ballots[own].log), TipTerm(h.ballots[own].log), b.log)
  }

  /** From position `from` on, entries are of term `t` and carry their positions. */
  predicate Tail(log: seq<Entry>, from: nat, t: nat) {
    forall i :: from <= i < |log| ==> log[i].term == t && log[i].index == i + 1
  }

  /** The log of a term is the winner's campaign log followed by entries of that term. */
  predicate TermOk(h: History, t: nat)
    requires t in h.wins
  {
    var w := h.wins[t];
    && t in h.tlog && |h.tlog[t]| < U64_MAX
    && Anchored(h.tlog, w.base) && LastBelow(w.base, t)
    && Cut(w.base, h.tlog[t]) && Tail(h.tlog[t], |w.base|, t)
    && At(w.leader, t) in h.ballots && h.ballots[At(w.leader, t)].log == w.base
  }

  /** An append message carries a contiguous piece of its term's log and the term before it. */
  predicate AppendOk(h: History, m: Msg)
    requires m.Append?
  {
    && m.term in h.wins && m.term in h.tlog && m.src == h.wins[m.term].leader && m.leader == m.src
    && m.prevIndex + |m.entries| <= |h.tlog[m.term]|
    && m.entries == h.tlog[m.term][m.prevIndex..m.prevIndex + |m.entries|]
    && (m.prevIndex > 0 ==> h.tlog[m.term][m.prevIndex - 1].term == m.prevTerm)
  }

  predicate RequestOk(h: History, m: Msg)
    requires m.RequestVote?
  {
    var a := At(m.src, m.term);
    && a in h.ballots && h.ballots[a].cand == m.src
    && m.lastIndex == TipIndex(h.ballots[a].log) && m.lastTerm == TipTerm(h.ballots[a].log)
  }

  predicate MsgOk(h: History, m: Msg) {
    (m.Append? ==> AppendOk(h, m)) && (m.RequestVote? ==> RequestOk(h, m))
  }

  ghost predicate NodesInv(c: State) {
    forall n {:trigger NodeOk(c.hist, n, c.nodes[n])} :: n in c.nodes ==> NodeOk(c.hist, n, c.nodes[n])
  }

  ghost predicate BallotsInv(h: History) {
    forall a {:trigger BallotOk(h, a)} :: a in h.ballots ==> BallotOk(h, a)
  }

  ghost predicate TermsInv(h: History) {
    h.tlog.Keys == h.wins.Keys && forall t {:trigger TermOk(h, t)} :: t in h.wins ==> TermOk(h, t)
  }

  ghost predicate MsgsInv(c: State) {
    forall m {:trigger MsgOk(c.hist, m)} :: m in c.net ==> MsgOk(c.hist, m)
  }

  ghost predicate Inv(c: State) {
    NodesInv(c) && BallotsInv(c.hist) && TermsInv(c.hist) && MsgsInv(c)
  }

  // ------------------------------------------------------------- monotonicity

  ghost predicate Extends(tlog: map<nat, seq<Entry>>, tlog': map<nat, seq<Entry>>) {
    forall t :: t in tlog ==> t in tlog' && Cut(tlog[t], tlog'[t])
  }

  ghost predicate KeepsBallots(h: History, h': History) {
    forall a :: a in h.ballots ==> a in h'.ballots && h'.ballots[a] == h.ballots[a]
  }

  ghost predicate KeepsWins(h: History, h': History) {
    forall t :: t in h.wins ==> t in h'.wins && h'.wins[t] == h.wins[t]
  }

  /** The history only grows. */
  ghost predicate Grows(h: History, h': History) {
    Extends(h.tlog, h'.tlog) && KeepsBallots(h, h') && KeepsWins(h, h')
  }

  lemma ExtendsSelf(tlog: map<nat, seq<Entry>>)
    ensures Extends(tlog, tlog)
  {
    forall t | t in tlog
      ensures Cut(tlog[t], tlog[t])
    {
      SameSelf(tlog[t], |tlog[t]|);
    }
  }

  lemma AnchoredStays(tlog: map<nat, seq<Entry>>, tlog': map<nat, seq<Entry>>, log: seq<Entry>)
    requires Anchored(tlog, log) && Extends(tlog, tlog')
    ensures Anchored(tlog', log)
  {
    if log != [] {
      var t := log[|log| - 1].term;
      CutTrans(log, tlog[t], tlog'[t]);
    }
  }

  lemma BallotStays(h: History, h': History, a: At)
    requires Extends(h.tlog, h'.tlog) && KeepsBallots(h, h') && a in h.ballots && BallotOk(h, a)
    ensures BallotOk(h', a)
  {
    AnchoredStays(h.tlog, h'.tlog, h.ballots[a].log);
  }

  lemma CutSlice(a: seq<Entry>, b: seq<Entry>, i: nat, j: nat)
    requires Cut(a, b) && i <= j <= |a|
    ensures j <= |b| && a[i..j] == b[i..j] && (i > 0 ==> a[i - 1] == b[i - 1])
  {
    CutShorter(a, b);
    forall x | 0 <= x < |a|
      ensures a[x] == b[x]
    {
      SameAt(a, b, |a|, x);
    }
  }

  lemma MsgStays(h: History, h': History, m: Msg)
    requires Grows(h, h') && MsgOk(h, m)
    ensures MsgOk(h', m)
  {
    if m.Append? {
      var l, l' := h.tlog[m.term], h'.tlog[m.term];
      var e := m.prevIndex + |m.entries|;
      CutSlice(l, l', m.prevIndex, e);
    }
  }

  lemma TermStays(h: History, h': History, t: nat)
    requires Grows(h, h') && t in h.wins && TermOk(h, t) && h'.tlog[t] == h.tlog[t]
    ensures TermOk(h', t)
  {
    AnchoredStays(h.tlog, h'.tlog, h.wins[t].base);
  }

  /** Only the log of a term `n` won may have changed. */
  ghost predicate OnlyOwnTerms(h: History, h': History, n: PeerId) {
    forall t :: t in h'.wins && (t !in h.wins || t !in h.tlog || t !in h'.tlog || h'.tlog[t] != h.tlog[t]) ==>
      h'.wins[t].leader == n
  }

  lemma NodesStay(c: State, n: PeerId, c': State)
    requires NodesInv(c) && ES.OnlyNode(c, n, c') && Grows(c.hist, c'.hist) && OnlyOwnTerms(c.hist, c'.hist, n)
    requires NodeOk(c'.hist, n, c'.nodes[n])
    ensures NodesInv(c')
  {
    forall p | p in c'.nodes
      ensures NodeOk(c'.hist, p, c'.nodes[p])
    {
      if p != n {
        assert NodeOk(c.hist, p, c.nodes[p]);
        AnchoredStays(c.hist.tlog, c'.hist.tlog, c.nodes[p].log);
      }
    }
  }

  lemma BallotsStay(h: History, h': History)
    requires BallotsInv(h) && Grows(h, h')
    requires forall a :: a in h'.ballots && a !in h.ballots ==> BallotOk(h', a)
    ensures BallotsInv(h')
  {
    forall a | a in h'.ballots
      ensures BallotOk(h', a)
    {
      if a in h.ballots { BallotStays(h, h', a); }
    }
  }

  lemma MsgsStay(c: State, c': State)
    requires MsgsInv(c) && Grows(c.hist, c'.hist)
    requires forall m :: m in c'.net && m !in c.net ==> MsgOk(c'.hist, m)
    ensures MsgsInv(c')
  {
    forall m | m in c'.net
      ensures MsgOk(c'.hist, m)
    {
      if m in c.net { MsgStays(c.hist, c'.hist, m); }
    }
  }

  lemma TermsStay(h: History, h': History)
    requires TermsInv(h) && Grows(h, h') && h'.wins == h.wins && h'.tlog == h.tlog
    ensures TermsInv(h')
  {
    forall t | t in h'.wins
      ensures TermOk(h', t)
    {
      TermStays(h, h', t);
    }
  }

  /** What a step has to show: its own node, votes and messages are in order and the history grew. */
  lemma Assemble(c: State, n: PeerId, c': State)
    requires Inv(c) && ES.OnlyNode(c, n, c') && Grows(c.hist, c'.hist) && OnlyOwnTerms(c.hist, c'.hist, n)
    requires TermsInv(c'.hist) && NodeOk(c'.hist, n, c'.nodes[n])
    requires forall a :: a in c'.hist.ballots && a !in c.hist.ballots ==> BallotOk(c'.hist, a)
    requires forall m :: m in c'.net && m !in c.net ==> MsgOk(c'.hist, m)
    ensures Inv(c')
  {
    NodesStay(c, n, c');
    BallotsStay(c.hist, c'.hist);
    MsgsStay(c, c');
  }

  // --------------------------------------------------- steps that keep the log

  /** The same votes, elections and term logs. */
  ghost predicate SameLogs(h: History, h': History) {
    h'.ballots == h.ballots && h'.wins == h.wins && h'.tlog == h.tlog
  }

  /** No log, vote, election or log-carrying message is touched; a later term may be entered. */
  ghost predicate LogQuiet(c: State, n: PeerId, c': State) {
    && ES.OnlyNode(c, n, c') && SameLogs(c.hist, c'.hist)
    && c'.nodes[n].log == c.nodes[n].log && c'.nodes[n].term >= c.nodes[n].term
    && (c'.nodes[n].role == Candidate ==> c.nodes[n].role == Candidate && c'.nodes[n].term == c.nodes[n].term)
    && (forall m :: m in c'.net && m !in c.net ==> m.VoteResp? || m.AppendResp?)
  }

  /** Entering a later term, a node has not won it. */
  lemma NewTermIsNotWon(ms: Members, c: State, n: PeerId, t: nat)
    requires ES.WinInv(ms, c) && ES.BallotInv(c) && n in c.nodes && t > c.nodes[n].term
    ensures t in c.hist.wins ==> c.hist.wins[t].leader != n
  {
    if t in c.hist.wins {
      var w := c.hist.wins[t];
      assert ES.WonOk(ms, c, t);
      assert At(w.leader, t) in c.hist.ballots;
    }
  }

  lemma LaterTermOk(ms: Members, c: State, n: PeerId, nd': Node)
    requires ES.WinInv(ms, c) && ES.BallotInv(c) && n in c.nodes && NodeOk(c.hist, n, c.nodes[n])
    requires nd'.log == c.nodes[n].log && nd'.term >= c.nodes[n].term
    requires nd'.role == Candidate ==> c.nodes[n].role == Candidate && nd'.term == c.nodes[n].term
    ensures NodeOk(c.hist, n, nd')
  {
    if nd'.term > c.nodes[n].term { NewTermIsNotWon(ms, c, n, nd'.term); }
  }

  lemma SameLogsKeep(h: History, h': History, n: PeerId)
    requires TermsInv(h) && SameLogs(h, h')
    ensures Grows(h, h') && OnlyOwnTerms(h, h', n) && TermsInv(h')
  {
    ExtendsSelf(h.tlog);
    TermsStay(h, h');
  }

  lemma LogQuietKeeps(ms: Members, c: State, n: PeerId, c': State)
    requires Inv(c) && ES.WinInv(ms, c) && ES.BallotInv(c) && LogQuiet(c, n, c')
    ensures Inv(c')
  {
    LaterTermOk(ms, c, n, c'.nodes[n]);
    SameLogsKeep(c.hist, c'.hist, n);
    Assemble(c, n, c');
  }

  // ----------------------------------------------------------------- voting

  /** `n` has cast a vote for `cand` in the term it is now in; nothing else moved. */
  ghost predicate CastStep(c: State, n: PeerId, cand: PeerId, c': State) {
    && ES.OnlyNode(c, n, c') && c'.hist.wins == c.hist.wins && c'.hist.tlog == c.hist.tlog
    && c'.nodes[n].log == c.nodes[n].log && c'.nodes[n].term >= c.nodes[n].term
    && At(n, c'.nodes[n].term) !in c.hist.ballots
    && c'.hist.ballots == c.hist.ballots[At(n, c'.nodes[n].term) := Ballot(cand, c.nodes[n].log)]
  }

  lemma CastGrows(c: State, n: PeerId, cand: PeerId, c': State)
    requires CastStep(c, n, cand, c') && TermsInv(c.hist)
    ensures Grows(c.hist, c'.hist) && OnlyOwnTerms(c.hist, c'.hist, n) && TermsInv(c'.hist)
  {
    ExtendsSelf(c.hist.tlog);
    TermsStay(c.hist, c'.hist);
  }

  lemma CampaignShape(ms: Members, c: State, n: PeerId)
    requires ES.BallotInv(c) && Enabled(ms, c, Campaign(n)) && KeepsVote(c, Campaign(n))
    ensures var c' := Apply(ms, c, Campaign(n));
            && CastStep(c, n, n, c') && c'.nodes[n].term == c.nodes[n].term + 1
            && (forall m :: m in c'.net && m !in c.net ==>
                  m.RequestVote? && m.src == n && m.term == c'.nodes[n].term
                  && m.lastIndex == TipIndex(c.nodes[n].log) && m.lastTerm == TipTerm(c.nodes[n].log))
  {
  }

  lemma CampaignKeeps(ms: Members, c: State, n: PeerId, c': State)
    requires Inv(c) && ES.WinInv(ms, c) && ES.BallotInv(c)
    requires CastStep(c, n, n, c') && c'.nodes[n].term == c.nodes[n].term + 1
    requires forall m :: m in c'.net && m !in c.net ==>
               m.RequestVote? && m.src == n && m.term == c'.nodes[n].term
               && m.lastIndex == TipIndex(c.nodes[n].log) && m.lastTerm == TipTerm(c.nodes[n].log)
    ensures Inv(c')
  {
    assert NodeOk(c.hist, n, c.nodes[n]);
    NewTermIsNotWon(ms, c, n, c'.nodes[n].term);
    CastGrows(c, n, n, c');
    Assemble(c, n, c');
  }

  /** What a vote request changes. */
  lemma VoteRequestShape(ms: Members, c: State, n: PeerId, m: Msg)
    requires Enabled(ms, c, DeliverVoteRequest(n, m))
    ensures var c' := Apply(ms, c, DeliverVoteRequest(n, m));
            && (c'.nodes[n].role == Candidate ==> c.nodes[n].role == Candidate && c'.nodes[n].term == c.nodes[n].term)
            && (forall x :: x in c'.net && x !in c.net ==> x.VoteResp?)
            && (LogQuiet(c, n, c') ||
                (CastStep(c, n, m.cand, c') && c'.nodes[n].term == m.term
                 && UpToDate(m.lastIndex, m.lastTerm, c.nodes[n].log)))
  {
  }

  lemma CastBallotOk(c: State, n: PeerId, m: Msg, c': State)
    requires BallotsInv(c.hist) && m.RequestVote? && m.cand == m.src && RequestOk(c.hist, m)
    requires CastStep(c, n, m.cand, c') && c'.nodes[n].term == m.term && Anchored(c.hist.tlog, c.nodes[n].log)
    requires UpToDate(m.lastIndex, m.lastTerm, c.nodes[n].log)
    ensures BallotOk(c'.hist, At(n, m.term))
  {
  }

  lemma CastKeeps(ms: Members, c: State, n: PeerId, m: Msg, c': State)
    requires Inv(c) && ES.WinInv(ms, c) && ES.BallotInv(c)
    requires m.RequestVote? && m.cand == m.src && RequestOk(c.hist, m)
    requires CastStep(c, n, m.cand, c') && c'.nodes[n].term == m.term
    requires c'.nodes[n].role == Candidate ==> c.nodes[n].role == Candidate && c'.nodes[n].term == c.nodes[n].term
    requires forall x :: x in c'.net && x !in c.net ==> x.VoteResp?
    requires UpToDate(m.lastIndex, m.lastTerm, c.nodes[n].log)
    ensures Inv(c')
  {
    LaterTermOk(ms, c, n, c'.nodes[n]);
    CastBallotOk(c, n, m, c');
    CastNodeOk(c, n, m.cand, c');
    CastAssemble(c, n, m.cand, c');
  }

  lemma CastNodeOk(c: State, n: PeerId, cand: PeerId, c': State)
    requires CastStep(c, n, cand, c') && NodeOk(c.hist, n, c'.nodes[n])
    ensures NodeOk(c'.hist, n, c'.nodes[n])
  {
  }

  lemma CastAssemble(c: State, n: PeerId, cand: PeerId, c': State)
    requires Inv(c) && CastStep(c, n, cand, c') && NodeOk(c'.hist, n, c'.nodes[n])
    requires BallotOk(c'.hist, At(n, c'.nodes[n].term))
    requires forall x :: x in c'.net && x !in c.net ==> x.VoteResp?
    ensures Inv(c')
  {
    CastGrows(c, n, cand, c');
    Assemble(c, n, c');
  }

  // ------------------------------------------------------------ log structure

  /**
   Every entry of an anchored log sits where the leader of its term put it, on
   top of the same prefix, carries its position, and is no newer than the last.
   */
  lemma {:induction false} EntryFacts(h: History, log: seq<Entry>, i: nat)
    requires TermsInv(h) && Anchored(h.tlog, log) && i < |log|
    ensures log[i].term in h.wins && log[i].term in h.tlog && Same(log, h.tlog[log[i].term], i + 1)
    ensures log[i].index == i + 1 && log[i].term <= log[|log| - 1].term
    decreases log[|log| - 1].term
  {
    var t := log[|log| - 1].term;
    assert TermOk(h, t);
    var base, l := h.wins[t].base, h.tlog[t];
    if i < |base| {
      CutsMeet(log, base, l, i + 1);
      EntryFacts(h, base, i);
      SameTrans(log, base, h.tlog[base[i].term], i + 1);
    } else {
      SameLess(log, l, |log|, i + 1);
    }
  }

  /** The heart of log matching: same index, same term, same prefix. */
  lemma SameTermSamePrefix(h: History, a: seq<Entry>, b: seq<Entry>, i: nat)
    requires TermsInv(h) && Anchored(h.tlog, a) && Anchored(h.tlog, b)
    requires i < |a| && i < |b| && a[i].term == b[i].term
    ensures Same(a, b, i + 1)
  {
    EntryFacts(h, a, i);
    EntryFacts(h, b, i);
    var l := h.tlog[a[i].term];
    SameSym(b, l, i + 1);
    SameTrans(a, l, b, i + 1);
  }

  lemma PrefixAnchored(h: History, log: seq<Entry>, k: nat)
    requires TermsInv(h) && Anchored(h.tlog, log) && k <= |log|
    ensures Anchored(h.tlog, log[..k])
  {
    if k > 0 {
      EntryFacts(h, log, k - 1);
      CutOf(log, k);
      SameTrans(log[..k], log, h.tlog[log[k - 1].term], k);
    }
  }

  lemma TermLogAnchored(h: History, t: nat)
    requires TermsInv(h) && t in h.wins
    ensures t in h.tlog && Anchored(h.tlog, h.tlog[t]) && LastBelow(h.tlog[t], t + 1) && |h.tlog[t]| < U64_MAX
  {
    assert TermOk(h, t);
    var l, base := h.tlog[t], h.wins[t].base;
    CutShorter(base, l);
    if l != [] && |l| == |base| {
      SameSlices(base, l, |l|);
      assert l == l[..|l|] == base[..|l|] == base;
    } else {
      SameSelf(l, |l|);
    }
  }

  lemma AnchoredLength(h: History, log: seq<Entry>)
    requires Anchored(h.tlog, log) && TermsInv(h)
    ensures |log| < U64_MAX && TipIndex(log) == |log|
  {
    if log != [] {
      var t := log[|log| - 1].term;
      EntryFacts(h, log, |log| - 1);
      CutShorter(log, h.tlog[t]);
      assert |h.tlog[t]| < U64_MAX by { TermLogAnchored(h, t); }
    }
  }

  // ---------------------------------------------------------- leader's own log

  /** Term logs that change at most at `t` extend if that one does. */
  lemma SameTermLogs(tlog: map<nat, seq<Entry>>, tlog': map<nat, seq<Entry>>, t: nat)
    requires forall u :: u in tlog && u != t ==> u in tlog' && tlog'[u] == tlog[u]
    requires t in tlog ==> t in tlog' && Cut(tlog[t], tlog'[t])
    ensures Extends(tlog, tlog')
  {
    forall u | u in tlog
      ensures u in tlog' && Cut(tlog[u], tlog'[u])
    {
      if u != t { SameSelf(tlog[u], |tlog[u]|); }
    }
  }

  /** A winner's log becomes the log of its fresh term. */
  lemma WinGrows(h: History, n: PeerId, t: nat, log: seq<Entry>, q: set<PeerId>, h': History)
    requires TermsInv(h) && t !in h.wins && |log| < U64_MAX && Anchored(h.tlog, log) && LastBelow(log, t)
    requires At(n, t) in h.ballots && h.ballots[At(n, t)].log == log
    requires h'.ballots == h.ballots && h'.wins == h.wins[t := Won(n, q, log)] && h'.tlog == h.tlog[t := log]
    ensures Grows(h, h') && OnlyOwnTerms(h, h', n) && TermsInv(h')
  {
    SameTermLogs(h.tlog, h'.tlog, t);
    assert TermOk(h', t) by {
      AnchoredStays(h.tlog, h'.tlog, log);
      SameSelf(log, |log|);
    }
    forall u | u in h'.wins
      ensures TermOk(h', u)
    {
      if u != t { TermStays(h, h', u); }
    }
  }

  ghost predicate WinStep(c: State, n: PeerId, c': State) {
    && ES.OnlyNode(c, n, c') && c'.net == c.net && c'.hist.ballots == c.hist.ballots
    && c'.nodes[n].log == c.nodes[n].log && c'.nodes[n].term == c.nodes[n].term && c'.nodes[n].role == Leader
    && c'.hist.wins == c.hist.wins[c.nodes[n].term := Won(n, Elements(c.nodes[n].granted), c.nodes[n].log)]
    && c'.hist.tlog == c.hist.tlog[c.nodes[n].term := c.nodes[n].log]
  }

  lemma WinShape(ms: Members, c: State, n: PeerId)
    requires Enabled(ms, c, Win(n)) && c.nodes[n].term !in c.hist.wins
    ensures WinStep(c, n, Apply(ms, c, Win(n)))
  {
  }

  lemma WinKeeps(c: State, n: PeerId, c': State)
    requires Inv(c) && WinStep(c, n, c') && c.nodes[n].role == Candidate && c.nodes[n].term !in c.hist.wins
    ensures Inv(c') && Grows(c.hist, c'.hist)
  {
    var nd := c.nodes[n];
    assert NodeOk(c.hist, n, nd);
    AnchoredLength(c.hist, nd.log);
    WinGrows(c.hist, n, nd.term, nd.log, Elements(nd.granted), c'.hist);
    AnchoredStays(c.hist.tlog, c'.hist.tlog, nd.log);
    Assemble(c, n, c');
  }

  /** Appending entries of the leader's own term to the term's log keeps the term logs in order. */
  lemma GrowTerm(h: History, h': History, t: nat, more: seq<Entry>)
    requires TermsInv(h) && t in h.wins && h'.ballots == h.ballots && h'.wins == h.wins
    requires t in h.tlog && h'.tlog == h.tlog[t := h.tlog[t] + more]
    requires |h.tlog[t]| + |more| < U64_MAX
    requires forall i :: 0 <= i < |more| ==> more[i].term == t && more[i].index == |h.tlog[t]| + 1 + i
    ensures Grows(h, h') && TermsInv(h')
  {
    GrownLog(h.tlog[t], h.wins[t].base, t, more) by { assert TermOk(h, t); }
    assert TermOk(h, t);
    SameTermLogs(h.tlog, h'.tlog, t);
    assert TermOk(h', t) by { AnchoredStays(h.tlog, h'.tlog, h.wins[t].base); }
    forall u | u in h'.wins
      ensures TermOk(h', u)
    {
      if u != t { TermStays(h, h', u); }
    }
  }

  lemma GrownLog(l: seq<Entry>, base: seq<Entry>, t: nat, more: seq<Entry>)
    requires Cut(base, l) && Tail(l, |base|, t)
    requires forall i :: 0 <= i < |more| ==> more[i].term == t && more[i].index == |l| + 1 + i
    ensures Cut(l, l + more) && Cut(base, l + more) && Tail(l + more, |base|, t)
  {
    CutAppend(l, more);
    CutTrans(base, l, l + more);
  }

  ghost predicate ProposeStep(c: State, n: PeerId, more: seq<Entry>, c': State) {
    && ES.OnlyNode(c, n, c') && c'.net == c.net
    && c'.hist.ballots == c.hist.ballots && c'.hist.wins == c.hist.wins
    && c'.nodes[n].log == c.nodes[n].log + more && c'.nodes[n].term == c.nodes[n].term && c'.nodes[n].role == Leader
    && c'.hist.tlog == c.hist.tlog[c.nodes[n].term := c.nodes[n].log + more]
    && |c.nodes[n].log| + |more| < U64_MAX
    && (forall i :: 0 <= i < |more| ==> more[i].term == c.nodes[n].term && more[i].index == |c.nodes[n].log| + 1 + i)
  }

  lemma ProposeShape(ms: Members, c: State, n: PeerId, payloads: seq<seq<Byte>>)
    requires Enabled(ms, c, Propose(n, payloads)) && TipIndex(c.nodes[n].log) == |c.nodes[n].log|
    ensures ProposeStep(c, n, NewEntries(c.nodes[n].term, |c.nodes[n].log|, payloads), Apply(ms, c, Propose(n, payloads)))
  {
  }

  lemma ProposeKeeps(c: State, n: PeerId, more: seq<Entry>, c': State)
    requires Inv(c) && ES.LeadInv(c) && ProposeStep(c, n, more, c') && c.nodes[n].role == Leader
    ensures Inv(c') && Grows(c.hist, c'.hist)
  {
    var t := c.nodes[n].term;
    assert NodeOk(c.hist, n, c.nodes[n]);
    GrowTerm(c.hist, c'.hist, t, more);
    TermLogAnchored(c'.hist, t);
    Assemble(c, n, c');
  }

  /** The message a leader sends is a piece of its term's log. */
  lemma SentOk(h: History, nd: Node, n: PeerId, dst: PeerId, prev: nat, count: nat)
    requires nd.term in h.wins && h.wins[nd.term].leader == n && nd.term in h.tlog && nd.log == h.tlog[nd.term]
    requires prev + count <= |nd.log|
    ensures MsgOk(h, AppendMsg(nd, n, dst, prev, count))
  {
  }

  lemma SendKeeps(c: State, m: Msg, c': State)
    requires Inv(c) && MsgOk(c.hist, m) && c' == c.(net := c.net + {m})
    ensures Inv(c')
  {
  }

  // ------------------------------------------------------------- follower side

  /** Following the leader from an agreed prefix. */
  lemma CutOnto(log: seq<Entry>, lead: seq<Entry>, at: nat, e: nat)
    requires at <= e <= |lead| && Same(log, lead, at)
    ensures at <= |log| && log[..at] + lead[at..e] == lead[..e]
  {
    SameSlices(log, lead, at);
    assert lead[..at] + lead[at..e] == lead[..e];
  }

  /** Where two logs hold entries of one term at one index, they agree up to it. */
  predicate Agree(a: seq<Entry>, b: seq<Entry>) {
    forall i :: 0 <= i < |a| && i < |b| && a[i].term == b[i].term ==> Same(a, b, i + 1)
  }

  /** The log after following the leader's log up to `e`: itself if it already agrees that far, else the leader's cut. */
  function Followed(log: seq<Entry>, lead: seq<Entry>, e: nat): seq<Entry>
    requires e <= |lead|
  {
    if Same(log, lead, e) then log else lead[..e]
  }

  /** The scan follows the leader's log: from an agreed prefix it ends at the log itself or at a cut of the leader's. */
  lemma {:induction false} ScanFollows(log: seq<Entry>, lead: seq<Entry>, prev: nat, entries: seq<Entry>, k: nat)
    requires Agree(log, lead) && Indexed(lead)
    requires k <= |entries| && prev + |entries| <= |lead| < U64_MAX && entries == lead[prev..prev + |entries|]
    requires Same(log, lead, prev + k)
    ensures Scan(log, prev, entries, k) == Ok(Followed(log, lead, prev + |entries|))
    decreases |entries| - k
  {
    var e := prev + |entries|;
    if k < |entries| {
      var at := prev + k;
      assert entries[k] == lead[at] && lead[at].index == at + 1;
      ScanHere(log, prev, entries, k);
      if at < |log| && log[at].term == lead[at].term {
        ScanFollows(log, lead, prev, entries, k + 1);
      } else {
        assert entries[k..] == lead[at..e];
        CutsHere(log, lead, at, e);
      }
    }
  }

  /** One entry of the scan, in step with `prev`. */
  lemma ScanHere(log: seq<Entry>, prev: nat, entries: seq<Entry>, k: nat)
    requires k < |entries| && entries[k].index == prev + k + 1 <= U64_MAX
    ensures var at := prev + k;
            Scan(log, prev, entries, k) ==
              if at < |log| && log[at].term == entries[k].term then Scan(log, prev, entries, k + 1)
              else if at < |log| then Ok(log[..at] + entries[k..])
              else Ok(log + entries[k..])
  {
  }

  /** Where the logs part, the leader's cut takes over. */
  lemma CutsHere(log: seq<Entry>, lead: seq<Entry>, at: nat, e: nat)
    requires at < e <= |lead| && Same(log, lead, at) && !(at < |log| && log[at].term == lead[at].term)
    ensures at <= |log| && Followed(log, lead, e) == log[..at] + lead[at..e]
    ensures at == |log| ==> log[..at] == log
  {
    CutOnto(log, lead, at, e);
    if Same(log, lead, e) {
      SameAt(log, lead, e, at);
      assert false;
    }
  }

  /** Any two anchored logs agree, and carry their positions. */
  lemma AnchoredAgree(h: History, a: seq<Entry>, b: seq<Entry>)
    requires TermsInv(h) && Anchored(h.tlog, a) && Anchored(h.tlog, b)
    ensures Agree(a, b) && Indexed(b)
  {
    forall i | 0 <= i < |a| && i < |b| && a[i].term == b[i].term
      ensures Same(a, b, i + 1)
    {
      SameTermSamePrefix(h, a, b, i);
    }
    forall i | 0 <= i < |b|
      ensures b[i].index == i + 1
    {
      EntryFacts(h, b, i);
    }
  }

  /** Following a leader's append: the consistency check passes only on an agreed prefix, and the merge follows the leader. */
  lemma MergeFollowsLead(log: seq<Entry>, lead: seq<Entry>, prev: nat, prevTerm: nat, entries: seq<Entry>)
    requires Agree(log, lead) && Indexed(lead)
    requires prev + |entries| <= |lead| < U64_MAX && entries == lead[prev..prev + |entries|]
    requires (prev > 0 ==> lead[prev - 1].term == prevTerm) && PrevOk(log, prev, prevTerm)
    ensures Same(log, lead, prev)
    ensures Merge(log, prev, entries) == Ok(Followed(log, lead, prev + |entries|))
  {
    if prev > 0 {
      assert log[prev - 1].term == lead[prev - 1].term;
    }
    ScanFollows(log, lead, prev, entries, 0);
  }

  lemma LeadAgrees(h: History, log: seq<Entry>, m: Msg)
    requires m.Append? && AppendOk(h, m) && TermsInv(h) && Anchored(h.tlog, log)
    ensures Agree(log, h.tlog[m.term]) && Indexed(h.tlog[m.term]) && |h.tlog[m.term]| < U64_MAX
  {
    TermLogAnchored(h, m.term);
    AnchoredAgree(h, log, h.tlog[m.term]);
  }

  /** What accepting a leader's append does to a log: nothing, or it becomes a cut of the leader's log. */
  lemma MergeFollows(h: History, log: seq<Entry>, m: Msg)
    requires m.Append? && AppendOk(h, m)
    requires Agree(log, h.tlog[m.term]) && Indexed(h.tlog[m.term]) && |h.tlog[m.term]| < U64_MAX
    requires PrevOk(log, m.prevIndex, m.prevTerm)
    ensures Same(log, h.tlog[m.term], m.prevIndex)
    ensures Merge(log, m.prevIndex, m.entries) == Ok(Followed(log, h.tlog[m.term], m.prevIndex + |m.entries|))
  {
    MergeFollowsLead(log, h.tlog[m.term], m.prevIndex, m.prevTerm, m.entries);
  }

  /** The receiving node after the handler: its log is as `MergeFollows` says, its term at least the message's. */
  ghost predicate Received(h: History, nd: Node, m: Msg, nd': Node)
    requires m.Append? && AppendOk(h, m)
  {
    && nd'.term == Max(nd.term, m.term)
    && (nd'.log == nd.log || (nd'.term == m.term && nd'.log == h.tlog[m.term][..m.prevIndex + |m.entries|]))
    && (m.term >= nd.term ==> nd'.role == Follower)
    && (m.term < nd.term ==> nd' == nd)
  }

  lemma AppendedLog(h: History, nd: Node, m: Msg)
    requires m.Append? && AppendOk(h, m) && TermsInv(h) && Anchored(h.tlog, nd.log)
    ensures Received(h, nd, m, OnAppendRequest(nd, m.term, m.leader, m.prevIndex, m.prevTerm, m.commit, m.entries).0)
  {
    if m.term >= nd.term && PrevOk(nd.log, m.prevIndex, m.prevTerm) {
      LeadAgrees(h, nd.log, m);
      MergeFollows(h, nd.log, m);
    }
  }

  ghost predicate AppendStep(c: State, n: PeerId, m: Msg, c': State)
    requires m.Append?
  {
    && ES.OnlyNode(c, n, c')
    && c'.nodes[n] == OnAppendRequest(c.nodes[n], m.term, m.leader, m.prevIndex, m.prevTerm, m.commit, m.entries).0
    && SameLogs(c.hist, c'.hist)
    && (forall x :: x in c'.net && x !in c.net ==> x.AppendResp?)
  }

  lemma AppendShape(ms: Members, c: State, n: PeerId, m: Msg)
    requires Enabled(ms, c, DeliverAppend(n, m))
    ensures AppendStep(c, n, m, Apply(ms, c, DeliverAppend(n, m)))
  {
  }

  /** A cut of a term's log is anchored and no newer than the term. */
  lemma CutOfTermOk(h: History, t: nat, e: nat)
    requires TermsInv(h) && t in h.wins && t in h.tlog && e <= |h.tlog[t]|
    ensures Anchored(h.tlog, h.tlog[t][..e]) && LastBelow(h.tlog[t][..e], t + 1)
  {
    TermLogAnchored(h, t);
    PrefixAnchored(h, h.tlog[t], e);
    if e > 0 {
      EntryFacts(h, h.tlog[t], e - 1);
    }
  }

  lemma CutNodeOk(h: History, n: PeerId, m: Msg, nd': Node)
    requires TermsInv(h) && m.Append? && AppendOk(h, m) && m.src != n
    requires nd'.role == Follower && nd'.term == m.term
    requires nd'.log == h.tlog[m.term][..m.prevIndex + |m.entries|]
    ensures NodeOk(h, n, nd')
  {
    CutOfTermOk(h, m.term, m.prevIndex + |m.entries|);
  }

  lemma AppendKeepsNode(ms: Members, c: State, n: PeerId, m: Msg, nd': Node)
    requires n in c.nodes && NodeOk(c.hist, n, c.nodes[n]) && TermsInv(c.hist)
    requires m.Append? && AppendOk(c.hist, m) && m.src != n
    requires ES.WinInv(ms, c) && ES.BallotInv(c)
    requires Received(c.hist, c.nodes[n], m, nd')
    ensures NodeOk(c.hist, n, nd')
  {
    if nd'.log == c.nodes[n].log {
      LaterTermOk(ms, c, n, nd');
    } else {
      CutNodeOk(c.hist, n, m, nd');
    }
  }

  lemma NodeMoveKeeps(c: State, n: PeerId, c': State)
    requires Inv(c) && ES.OnlyNode(c, n, c') && SameLogs(c.hist, c'.hist) && NodeOk(c.hist, n, c'.nodes[n])
    requires forall x :: x in c'.net && x !in c.net ==> x.AppendResp?
    ensures Inv(c')
  {
    SameLogsKeep(c.hist, c'.hist, n);
    Assemble(c, n, c');
  }

  lemma AppendKeeps(ms: Members, c: State, n: PeerId, m: Msg, c': State)
    requires Inv(c) && ES.WinInv(ms, c) && ES.BallotInv(c)
    requires m in c.net && m.Append? && m.src != n && AppendStep(c, n, m, c')
    ensures Inv(c')
  {
    assert MsgOk(c.hist, m) && NodeOk(c.hist, n, c.nodes[n]);
    AppendedLog(c.hist, c.nodes[n], m);
    AppendKeepsNode(ms, c, n, m, c'.nodes[n]);
    NodeMoveKeeps(c, n, c');
  }

  // -------------------------------------------------------------- every step

  /** Steps that touch no log, vote or election. */
  predicate IsPlainStep(s: Step) {
    !s.Campaign? && !s.DeliverVoteRequest? && !s.Win? && !s.Propose? && !s.SendAppend? && !s.DeliverAppend?
  }

  lemma PlainShape(ms: Members, c: State, s: Step)
    requires Enabled(ms, c, s) && KeepsVote(c, s) && IsPlainStep(s)
    ensures LogQuiet(c, s.n, Apply(ms, c, s))
  {
  }

  lemma StepKeeps(ms: Members, c: State, s: Step)
    requires Inv(c) && ES.Inv(ms, c) && Enabled(ms, c, s) && KeepsVote(c, s)
    ensures Inv(Apply(ms, c, s)) && Grows(c.hist, Apply(ms, c, s).hist)
  {
    var c' := Apply(ms, c, s);
    match s
    case Campaign(n) =>
      CampaignShape(ms, c, n);
      CampaignKeeps(ms, c, n, c');
      CastGrows(c, n, n, c');
    case DeliverVoteRequest(n, m) => VoteRequestKeeps(ms, c, n, m);
    case Win(n) =>
      ES.WinIsNew(ms, c, n);
      WinShape(ms, c, n);
      WinKeeps(c, n, c');
    case Propose(n, payloads) =>
      AnchoredLength(c.hist, c.nodes[n].log) by { assert NodeOk(c.hist, n, c.nodes[n]); }
      ProposeShape(ms, c, n, payloads);
      ProposeKeeps(c, n, NewEntries(c.nodes[n].term, |c.nodes[n].log|, payloads), c');
    case SendAppend(n, dst, prev, count) => SendAppendKeeps(ms, c, n, dst, prev, count);
    case DeliverAppend(n, m) =>
      AppendShape(ms, c, n, m);
      AppendKeeps(ms, c, n, m, c');
      SameLogsKeep(c.hist, c'.hist, n);
    case _ =>
      PlainShape(ms, c, s);
      LogQuietKeeps(ms, c, s.n, c');
      SameLogsKeep(c.hist, c'.hist, s.n);
  }

  lemma VoteRequestKeeps(ms: Members, c: State, n: PeerId, m: Msg)
    requires Inv(c) && ES.Inv(ms, c) && Enabled(ms, c, DeliverVoteRequest(n, m))
    ensures Inv(Apply(ms, c, DeliverVoteRequest(n, m)))
    ensures Grows(c.hist, Apply(ms, c, DeliverVoteRequest(n, m)).hist)
  {
    var c' := Apply(ms, c, DeliverVoteRequest(n, m));
    VoteRequestShape(ms, c, n, m);
    if LogQuiet(c, n, c') {
      LogQuietKeeps(ms, c, n, c');
      SameLogsKeep(c.hist, c'.hist, n);
    } else {
      assert MsgOk(c.hist, m);
      CastKeeps(ms, c, n, m, c');
      CastGrows(c, n, m.cand, c');
    }
  }

  lemma SendAppendShape(ms: Members, c: State, n: PeerId, dst: PeerId, prev: nat, count: nat)
    requires Enabled(ms, c, SendAppend(n, dst, prev, count))
    ensures Apply(ms, c, SendAppend(n, dst, prev, count))
         == c.(net := c.net + {AppendMsg(c.nodes[n], n, dst, prev, count)})
  {
    assert c.nodes[n := c.nodes[n]] == c.nodes;
  }

  lemma SendAppendKeeps(ms: Members, c: State, n: PeerId, dst: PeerId, prev: nat, count: nat)
    requires Inv(c) && ES.LeadInv(c) && Enabled(ms, c, SendAppend(n, dst, prev, count))
    ensures Inv(Apply(ms, c, SendAppend(n, dst, prev, count)))
    ensures Grows(c.hist, Apply(ms, c, SendAppend(n, dst, prev, count)).hist)
  {
    SendAppendShape(ms, c, n, dst, prev, count);
    var m := AppendMsg(c.nodes[n], n, dst, prev, count);
    SentOk(c.hist, c.nodes[n], n, dst, prev, count) by { assert NodeOk(c.hist, n, c.nodes[n]); }
    SendKeeps(c, m, Apply(ms, c, SendAppend(n, dst, prev, count)));
    GrowsSelf(c.hist);
  }

  lemma {:induction false} RunKeeps(ms: Members, ids: set<PeerId>, steps: seq<Step>)
    requires VoteSafeRun(ms, ids, steps)
    ensures Exec(ms, ids, steps).Some?
    ensures Inv(Exec(ms, ids, steps).value) && ES.Inv(ms, Exec(ms, ids, steps).value)
  {
    ES.RunKeeps(ms, ids, steps);
    if steps != [] {
      var front := steps[..|steps| - 1];
      RunKeeps(ms, ids, front);
      StepKeeps(ms, Exec(ms, ids, front).value, steps[|steps| - 1]);
    }
  }

  lemma GrowsTrans(a: History, b: History, c: History)
    requires Grows(a, b) && Grows(b, c)
    ensures Grows(a, c)
  {
    forall t | t in a.tlog
      ensures t in c.tlog && Cut(a.tlog[t], c.tlog[t])
    {
      CutTrans(a.tlog[t], b.tlog[t], c.tlog[t]);
    }
  }

  lemma GrowsSelf(a: History)
    ensures Grows(a, a)
  {
    ExtendsSelf(a.tlog);
  }

  /** Along a run the history grows. */
  lemma {:induction false} RunGrows(ms: Members, ids: set<PeerId>, steps: seq<Step>, i: nat)
    requires VoteSafeRun(ms, ids, steps) && i <= |steps|
    ensures Exec(ms, ids, steps[..i]).Some? && Exec(ms, ids, steps).Some?
    ensures Grows(Exec(ms, ids, steps[..i]).value.hist, Exec(ms, ids, steps).value.hist)
  {
    RunKeeps(ms, ids, steps);
    if i < |steps| {
      var front := steps[..|steps| - 1];
      RunGrows(ms, ids, front, i);
      assert front[..i] == steps[..i];
      RunKeeps(ms, ids, front);
      StepKeeps(ms, Exec(ms, ids, front).value, steps[|steps| - 1]);
      GrowsTrans(Exec(ms, ids, steps[..i]).value.hist, Exec(ms, ids, front).value.hist,
                 Exec(ms, ids, steps).value.hist);
    } else {
      assert steps[..i] == steps;
      GrowsSelf(Exec(ms, ids, steps).value.hist);
    }
  }

  // -------------------------------------------------------------- the theorem

  lemma LogAt(ms: Members, ids: set<PeerId>, steps: seq<Step>, i: nat, a: PeerId)
    requires VoteSafeRun(ms, ids, steps) && i <= |steps|
    requires Exec(ms, ids, steps[..i]).Some? && a in Exec(ms, ids, steps[..i]).value.nodes
    ensures Exec(ms, ids, steps).Some?
    ensures Anchored(Exec(ms, ids, steps).value.hist.tlog, Exec(ms, ids, steps[..i]).value.nodes[a].log)
  {
    ES.PrefixOfRun(ms, ids, steps, i);
    RunKeeps(ms, ids, steps[..i]);
    RunGrows(ms, ids, steps, i);
    var x := Exec(ms, ids, steps[..i]).value;
    assert NodeOk(x.hist, a, x.nodes[a]);
    AnchoredStays(x.hist.tlog, Exec(ms, ids, steps).value.hist.tlog, x.nodes[a].log);
  }

  lemma MatchUpTo(h: History, x: seq<Entry>, y: seq<Entry>, k: nat)
    requires TermsInv(h) && Anchored(h.tlog, x) && Anchored(h.tlog, y)
    requires 1 <= k <= |x| && k <= |y| && x[k - 1].term == y[k - 1].term
    ensures x[..k] == y[..k] && x[k - 1].index == k
  {
    SameTermSamePrefix(h, x, y, k - 1);
    SameSlices(x, y, k);
    EntryFacts(h, x, k - 1);
  }

  /**
   Log matching: if the log of `a` at one moment of a run and the log of `b` at
   any other moment hold entries of the same term at index `k`, the two logs are
   equal up to and including `k`. Every entry carries its own position.
   */
  lemma LogsMatch(ms: Members, ids: set<PeerId>, steps: seq<Step>, i: nat, j: nat, a: PeerId, b: PeerId, k: nat)
    requires VoteSafeRun(ms, ids, steps) && i <= |steps| && j <= |steps|
    requires Exec(ms, ids, steps[..i]).Some? && Exec(ms, ids, steps[..j]).Some?
    requires a in Exec(ms, ids, steps[..i]).value.nodes && b in Exec(ms, ids, steps[..j]).value.nodes
    requires var x, y := Exec(ms, ids, steps[..i]).value.nodes[a].log, Exec(ms, ids, steps[..j]).value.nodes[b].log;
             1 <= k <= |x| && k <= |y| && x[k - 1].term == y[k - 1].term
    ensures var x, y := Exec(ms, ids, steps[..i]).value.nodes[a].log, Exec(ms, ids, steps[..j]).value.nodes[b].log;
            x[..k] == y[..k] && x[k - 1].index == k
  {
    var x, y := Exec(ms, ids, steps[..i]).value.nodes[a].log, Exec(ms, ids, steps[..j]).value.nodes[b].log;
    RunKeeps(ms, ids, steps);
    var h := Exec(ms, ids, steps).value.hist;
    assert Anchored(h.tlog, x) by { LogAt(ms, ids, steps, i, a); }
    assert Anchored(h.tlog, y) by { LogAt(ms, ids, steps, j, b); }
    MatchUpTo(h, x, y, k);
  }
}
