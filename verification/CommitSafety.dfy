/** Committed entries stay: leader completeness and state-machine safety. */
module CommitSafety {
  import opened Types
  import opened Quorums
  import opened NodeSpec
  import opened Cluster
  import opened Prefix
  import ES = ElectionSafety
  import LM = LogMatching

  // ------------------------------------------------------------ acknowledged

  /** The leader of term `u` started without the first `k` entries of term `t`'s log. */
  ghost predicate Lacks(h: History, t: nat, k: nat, u: nat)
    requires t in h.tlog
  {
    u in h.wins && !Same(h.tlog[t], h.wins[u].base, k)
  }

  /** Some leader of a term in `(t, bound]` started without them. */
  ghost predicate Superseded(h: History, t: nat, k: nat, bound: nat)
    requires t in h.tlog
  {
    exists u {:trigger Lacks(h, t, k, u)} :: t < u <= bound && Lacks(h, t, k, u)
  }

  /** The log still has the first `k` entries of term `t`'s log, unless a later leader without them intervened. */
  ghost predicate Kept(h: History, log: seq<Entry>, t: nat, k: nat, bound: nat)
    requires t in h.tlog
  {
    Same(h.tlog[t], log, k) || Superseded(h, t, k, bound)
  }

  /** `v` acknowledged index `k` in term `t`. */
  predicate Acked(h: History, v: PeerId, t: nat, k: nat) {
    At(v, t) in h.acks && k <= h.acks[At(v, t)]
  }

  /** An acknowledgement names entries of its term's log, and the acknowledger has kept them. */
  ghost predicate AckOk(c: State, a: At)
    requires a in c.hist.acks
  {
    && a.peer in c.nodes && a.term <= c.nodes[a.peer].term && a.term in c.hist.tlog
    && c.hist.acks[a] <= |c.hist.tlog[a.term]|
    && (forall k: nat {:trigger Kept(c.hist, c.nodes[a.peer].log, a.term, k, c.nodes[a.peer].term)} ::
          k <= c.hist.acks[a] ==> Kept(c.hist, c.nodes[a.peer].log, a.term, k, c.nodes[a.peer].term))
  }

  ghost predicate AcksInv(c: State) {
    forall a {:trigger AckOk(c, a)} :: a in c.hist.acks ==> AckOk(c, a)
  }

  /** The vote counts: it was cast before its term was won, or it helped win it. */
  predicate Live(h: History, a: At) {
    a.term !in h.wins || a.peer in h.wins[a.term].quorum
  }

  /** When the voter cast the vote, its log still had what it had acknowledged, or a leader between intervened. */
  ghost predicate BallotKept(h: History, a: At, t: nat, k: nat)
    requires a in h.ballots
  {
    t < a.term && Live(h, a) && Acked(h, a.peer, t, k) ==>
      t in h.tlog && Kept(h, h.ballots[a].log, t, k, a.term - 1)
  }

  ghost predicate BallotsKept(h: History) {
    forall a, t: nat, k: nat {:trigger BallotKept(h, a, t, k)} :: a in h.ballots ==> BallotKept(h, a, t, k)
  }

  // --------------------------------------------------------------- committed

  function AckSet(ms: Members, h: History, t: nat, k: nat): set<PeerId> {
    set v | v in ms.voters && Acked(h, v, t, k)
  }

  /** Entry `k` of term `t`'s log is of term `t` and a majority acknowledged it in that term. */
  ghost predicate Committed(ms: Members, h: History, t: nat, k: nat) {
    && t in h.tlog && 1 <= k <= |h.tlog[t]| && h.tlog[t][k - 1].term == t
    && MajorityOf(ms.voters, AckSet(ms, h, t, k))
  }

  /** The first `n` entries of `log` are part of what was committed as entry `k` of term `t`. */
  ghost predicate BackedBy(ms: Members, h: History, log: seq<Entry>, n: nat, t: nat, k: nat) {
    Committed(ms, h, t, k) && n <= k && Same(log, h.tlog[t], n)
  }

  /** The first `n` entries of `log` were committed in a term up to `bound`. */
  ghost predicate Backed(ms: Members, h: History, log: seq<Entry>, n: nat, bound: nat) {
    n == 0 || exists t: nat, k: nat {:trigger BackedBy(ms, h, log, n, t, k)} ::
                t <= bound && BackedBy(ms, h, log, n, t, k)
  }

  // ------------------------------------------------------- leader completeness

  /** What an election needs from the rest of the history. */
  ghost predicate Sound(ms: Members, c: State) {
    && Distinct(ms.voters) && ES.WinInv(ms, c)
    && LM.TermsInv(c.hist) && LM.BallotsInv(c.hist) && BallotsKept(c.hist)
  }

  /** A candidate as up to date as a voter of the same last term has what the voter has. */
  lemma SameLastTerm(h: History, p: seq<Entry>, k: nat, mine: seq<Entry>, theirs: seq<Entry>)
    requires LM.Anchored(h.tlog, mine) && LM.Anchored(h.tlog, theirs) && Same(p, theirs, k) && k <= |theirs|
    requires mine != [] && theirs != [] && TipTerm(mine) == TipTerm(theirs) && |mine| >= |theirs|
    ensures Same(p, mine, k)
  {
    CutsMeet(theirs, mine, h.tlog[TipTerm(mine)], k);
    SameTrans(p, theirs, mine, k);
  }

  /** A log whose last entry is of term `u` has everything the leader of `u` started from. */
  lemma LaterLastTerm(h: History, p: seq<Entry>, k: nat, mine: seq<Entry>)
    requires LM.TermsInv(h) && LM.Anchored(h.tlog, mine) && mine != []
    requires TipTerm(mine) in h.wins && Same(p, h.wins[TipTerm(mine)].base, k) && k <= |h.wins[TipTerm(mine)].base|
    ensures Same(p, mine, k)
  {
    var u := TipTerm(mine);
    assert LM.TermOk(h, u);
    var base, l := h.wins[u].base, h.tlog[u];
    if |mine| <= |base| {
      CutsMeet(mine, base, l, |mine|);
      LM.EntryFacts(h, base, |mine| - 1);
      assert false;
    }
    CutsMeet(base, mine, l, k);
    SameTrans(p, base, mine, k);
  }

  /** The voter through which a committed entry reaches a later election. */
  lemma Witness(ms: Members, c: State, t: nat, k: nat, t': nat) returns (v: PeerId)
    requires Sound(ms, c) && Committed(ms, c.hist, t, k) && t < t' && t' in c.hist.wins
    ensures var h, a := c.hist, At(v, t');
            && a in h.ballots && LM.BallotOk(h, a)
            && h.ballots[a].cand == h.wins[t'].leader && Kept(h, h.ballots[a].log, t, k, t' - 1)
  {
    var h := c.hist;
    assert ES.WonOk(ms, c, t');
    v := MajoritiesMeet(ms.voters, AckSet(ms, h, t, k), h.wins[t'].quorum);
    assert ES.Voted(h, v, t', h.wins[t'].leader);
    assert BallotKept(h, At(v, t'), t, k);
  }

  /** The step of leader completeness: the election log has the entries if every leader between had them. */
  lemma NextLeaderHas(h: History, t: nat, k: nat, mine: seq<Entry>, theirs: seq<Entry>)
    requires LM.TermsInv(h) && LM.Anchored(h.tlog, mine) && LM.Anchored(h.tlog, theirs)
    requires t in h.tlog && 1 <= k <= |h.tlog[t]| && h.tlog[t][k - 1].term == t && Same(h.tlog[t], theirs, k)
    requires UpToDate(TipIndex(mine), TipTerm(mine), theirs)
    requires mine != [] && t < TipTerm(mine) && TipTerm(mine) in h.wins ==> !Lacks(h, t, k, TipTerm(mine))
    ensures Same(h.tlog[t], mine, k)
  {
    SameAt(h.tlog[t], theirs, k, k - 1);
    LM.EntryFacts(h, theirs, k - 1);
    LM.AnchoredLength(h, theirs);
    LM.AnchoredLength(h, mine);
    if TipTerm(mine) == TipTerm(theirs) {
      SameLastTerm(h, h.tlog[t], k, mine, theirs);
    } else {
      LM.EntryFacts(h, mine, |mine| - 1);
      SameAt(h.tlog[t], h.wins[TipTerm(mine)].base, k, k - 1);
      LaterLastTerm(h, h.tlog[t], k, mine);
    }
  }

  /** Leader completeness: what was committed in a term is in the log every later leader starts from. */
  lemma {:induction false} LeaderComplete(ms: Members, c: State, t: nat, k: nat, t': nat)
    requires Sound(ms, c) && Committed(ms, c.hist, t, k) && t < t' && t' in c.hist.wins
    ensures Same(c.hist.tlog[t], c.hist.wins[t'].base, k)
    decreases t'
  {
    var h := c.hist;
    var v := Witness(ms, c, t, k, t');
    forall u: nat | t < u < t'
      ensures !Lacks(h, t, k, u)
    {
      if u in h.wins { LeaderComplete(ms, c, t, k, u); }
    }
    assert LM.TermOk(h, t');
    NextLeaderHas(h, t, k, h.wins[t'].base, h.ballots[At(v, t')].log);
  }

  /** ... and therefore in the log of every term from then on. */
  lemma CompleteInTerm(ms: Members, c: State, log: seq<Entry>, n: nat, t: nat, k: nat, t': nat)
    requires Sound(ms, c) && BackedBy(ms, c.hist, log, n, t, k) && t <= t' && t' in c.hist.wins
    ensures t' in c.hist.tlog && Same(log, c.hist.tlog[t'], n)
  {
    if t < t' {
      LeaderComplete(ms, c, t, k, t');
      assert LM.TermOk(c.hist, t');
      ThroughBase(log, c.hist.tlog[t], c.hist.wins[t'].base, c.hist.tlog[t'], n, k);
    }
  }

  lemma ThroughBase(log: seq<Entry>, l: seq<Entry>, base: seq<Entry>, l': seq<Entry>, n: nat, k: nat)
    requires Same(log, l, n) && n <= k && Same(l, base, k) && Cut(base, l')
    ensures Same(log, l', n)
  {
    if k > 0 { SameAt(l, base, k, k - 1); }
    SameLess(l, base, k, n);
    SameTrans(log, l, base, n);
    SameLess(base, l', |base|, n);
    SameTrans(log, base, l', n);
  }

  /** Any two committed prefixes agree as far as both go. */
  lemma BackedAgree(ms: Members, c: State, a: seq<Entry>, n: nat, b1: nat, b: seq<Entry>, m: nat, b2: nat)
    requires Sound(ms, c) && Backed(ms, c.hist, a, n, b1) && Backed(ms, c.hist, b, m, b2)
    ensures Same(a, b, if n <= m then n else m)
  {
    var h := c.hist;
    if n > 0 && m > 0 {
      var t: nat, k: nat :| t <= b1 && BackedBy(ms, h, a, n, t, k);
      var u: nat, j: nat :| u <= b2 && BackedBy(ms, h, b, m, u, j);
      if t <= u {
        CompleteInTerm(ms, c, a, n, t, k, u);
        Through(a, b, h.tlog[u], n, m);
      } else {
        CompleteInTerm(ms, c, b, m, u, j, t);
        Through(a, b, h.tlog[t], n, m);
      }
    }
  }

  lemma Through(a: seq<Entry>, b: seq<Entry>, l: seq<Entry>, n: nat, m: nat)
    requires Same(a, l, n) && Same(b, l, m)
    ensures Same(a, b, if n <= m then n else m)
  {
    var k := if n <= m then n else m;
    SameLess(a, l, n, k);
    SameLess(b, l, m, k);
    SameSym(b, l, k);
    SameTrans(a, l, b, k);
  }

  // -------------------------------------------------------------- invariants

  /** A successful response stands for an acknowledgement. */
  predicate ReplyOk(h: History, m: Msg) {
    m.AppendResp? && m.success && m.matched > 0 ==> Acked(h, m.src, m.term, m.matched)
  }

  predicate ProgressOk(h: History, t: nat, p: PeerId, pr: Progress) {
    pr.matched > 0 ==> Acked(h, p, t, pr.matched)
  }

  /** Only a leader tracks progress, and what it has counted was acknowledged in its term. */
  ghost predicate TrackOk(h: History, nd: Node) {
    && (nd.progress != map[] ==> nd.role == Leader)
    && (forall p {:trigger ProgressOk(h, nd.term, p, nd.progress[p])} ::
          p in nd.progress ==> ProgressOk(h, nd.term, p, nd.progress[p]))
  }

  /** The leader of a term stands behind the whole of its own log. */
  predicate SelfAck(h: History, t: nat)
    requires t in h.wins
  {
    t in h.tlog && Acked(h, h.wins[t].leader, t, |h.tlog[t]|)
  }

  ghost predicate CommitOk(ms: Members, h: History, nd: Node) {
    nd.commit <= |nd.log| && Backed(ms, h, nd.log, nd.commit, nd.term)
  }

  /** The commit index a leader advertises is backed on the term's log. */
  ghost predicate AdvertOk(ms: Members, h: History, m: Msg) {
    m.Append? ==>
      m.term in h.tlog && m.commit <= |h.tlog[m.term]| && Backed(ms, h, h.tlog[m.term], m.commit, m.term)
  }

  ghost predicate MsgInv(ms: Members, c: State) {
    && (forall m {:trigger ReplyOk(c.hist, m)} :: m in c.net ==> ReplyOk(c.hist, m))
    && (forall m {:trigger AdvertOk(ms, c.hist, m)} :: m in c.net ==> AdvertOk(ms, c.hist, m))
  }

  ghost predicate NodeOk(ms: Members, h: History, nd: Node) {
    TrackOk(h, nd) && CommitOk(ms, h, nd)
  }

  ghost predicate NodesInv(ms: Members, c: State) {
    forall n {:trigger NodeOk(ms, c.hist, c.nodes[n])} :: n in c.nodes ==> NodeOk(ms, c.hist, c.nodes[n])
  }

  ghost predicate SelfInv(h: History) {
    forall t {:trigger SelfAck(h, t)} :: t in h.wins ==> SelfAck(h, t)
  }

  ghost predicate DoneInv(ms: Members, h: History) {
    forall t {:trigger Committed(ms, h, t, h.done[t])} :: t in h.done ==> Committed(ms, h, t, h.done[t])
  }

  ghost predicate Inv(ms: Members, c: State) {
    && AcksInv(c) && BallotsKept(c.hist) && SelfInv(c.hist)
    && MsgInv(ms, c) && NodesInv(ms, c) && DoneInv(ms, c.hist)
  }

  /** All three layers. */
  ghost predicate FullInv(ms: Members, c: State) {
    ES.Inv(ms, c) && LM.Inv(c) && Inv(ms, c)
  }

  // ------------------------------------------------------------- monotonicity

  ghost predicate AcksGrow(h: History, h': History) {
    forall a :: a in h.acks ==> a in h'.acks && h.acks[a] <= h'.acks[a]
  }

  ghost predicate Grows(h: History, h': History) {
    LM.Grows(h, h') && AcksGrow(h, h')
  }

  lemma SameStays(h: History, h': History, t: nat, log: seq<Entry>, k: nat)
    requires LM.Grows(h, h') && t in h.tlog && k <= |h.tlog[t]|
    ensures t in h'.tlog
    ensures Same(h.tlog[t], log, k) <==> Same(h'.tlog[t], log, k)
  {
    var l, l' := h.tlog[t], h'.tlog[t];
    SameLess(l, l', |l|, k);
    SameSym(l, l', k);
    if Same(l, log, k) { SameTrans(l', l, log, k); }
    if Same(l', log, k) { SameTrans(l, l', log, k); }
  }

  lemma KeptStays(h: History, h': History, log: seq<Entry>, t: nat, k: nat, b: nat, b': nat)
    requires LM.Grows(h, h') && t in h.tlog && k <= |h.tlog[t]| && b <= b' && Kept(h, log, t, k, b)
    ensures t in h'.tlog && Kept(h', log, t, k, b')
  {
    SameStays(h, h', t, log, k);
    if Superseded(h, t, k, b) {
      var u: nat :| t < u <= b && Lacks(h, t, k, u);
      SameStays(h, h', t, h.wins[u].base, k);
      assert Lacks(h', t, k, u);
    }
  }

  lemma CommittedStays(ms: Members, h: History, h': History, t: nat, k: nat)
    requires Grows(h, h') && Committed(ms, h, t, k)
    ensures Committed(ms, h', t, k)
  {
    SameAt(h.tlog[t], h'.tlog[t], |h.tlog[t]|, k - 1);
    CutShorter(h.tlog[t], h'.tlog[t]);
    var x, y := AckSet(ms, h, t, k), AckSet(ms, h', t, k);
    assert x <= y;
    SubsetSize(Elements(ms.voters) * x, Elements(ms.voters) * y);
  }

  lemma BackedStays(ms: Members, h: History, h': History, log: seq<Entry>, n: nat, b: nat, b': nat)
    requires Grows(h, h') && Backed(ms, h, log, n, b) && b <= b'
    ensures Backed(ms, h', log, n, b')
  {
    if n > 0 {
      var t: nat, k: nat :| t <= b && BackedBy(ms, h, log, n, t, k);
      CommittedStays(ms, h, h', t, k);
      SameLess(h.tlog[t], h'.tlog[t], |h.tlog[t]|, n);
      SameTrans(log, h.tlog[t], h'.tlog[t], n);
      assert BackedBy(ms, h', log, n, t, k);
    }
  }

  /** A committed prefix of one log is committed as a prefix of any log that agrees that far. */
  lemma BackedMoves(ms: Members, h: History, log: seq<Entry>, log': seq<Entry>, n: nat, n': nat, b: nat)
    requires Backed(ms, h, log, n, b) && n' <= n && Same(log', log, n')
    ensures Backed(ms, h, log', n', b)
  {
    if n' > 0 {
      var t: nat, k: nat :| t <= b && BackedBy(ms, h, log, n, t, k);
      SameLess(log, h.tlog[t], n, n');
      SameTrans(log', log, h.tlog[t], n');
      assert BackedBy(ms, h, log', n', t, k);
    }
  }

  lemma AdvertStays(ms: Members, h: History, h': History, m: Msg)
    requires Grows(h, h') && AdvertOk(ms, h, m)
    ensures AdvertOk(ms, h', m)
  {
    if m.Append? {
      var l, l' := h.tlog[m.term], h'.tlog[m.term];
      CutShorter(l, l');
      BackedStays(ms, h, h', l, m.commit, m.term, m.term);
      SameLess(l, l', |l|, m.commit);
      SameSym(l, l', m.commit);
      BackedMoves(ms, h', l, l', m.commit, m.commit, m.term);
    }
  }

  lemma NodeStays(ms: Members, h: History, h': History, nd: Node)
    requires Grows(h, h') && NodeOk(ms, h, nd)
    ensures NodeOk(ms, h', nd)
  {
    BackedStays(ms, h, h', nd.log, nd.commit, nd.term, nd.term);
    forall p | p in nd.progress
      ensures ProgressOk(h', nd.term, p, nd.progress[p])
    {
      assert ProgressOk(h, nd.term, p, nd.progress[p]);
    }
  }

  // ----------------------------------------------------------- the frame rule

  /** Acknowledgements changed only for `n`, in the term it is now in. */
  ghost predicate OwnAcksOnly(c: State, n: PeerId, c': State)
    requires n in c'.nodes
  {
    forall a :: a in c'.hist.acks && (a !in c.hist.acks || c'.hist.acks[a] != c.hist.acks[a]) ==>
      a == At(n, c'.nodes[n].term)
  }

  ghost predicate OwnAcksOk(c': State, n: PeerId) {
    forall a {:trigger AckOk(c', a)} :: a in c'.hist.acks && a.peer == n ==> AckOk(c', a)
  }

  lemma AcksStay(c: State, n: PeerId, c': State)
    requires AcksInv(c) && ES.OnlyNode(c, n, c') && Grows(c.hist, c'.hist) && OwnAcksOnly(c, n, c') && OwnAcksOk(c', n)
    ensures AcksInv(c')
  {
    forall a | a in c'.hist.acks
      ensures AckOk(c', a)
    {
      if a.peer != n {
        assert AckOk(c, a);
        AckStays(c, c', a);
      }
    }
  }

  lemma AckStays(c: State, c': State, a: At)
    requires a in c.hist.acks && AckOk(c, a) && a in c'.hist.acks && c'.hist.acks[a] == c.hist.acks[a]
    requires a.peer in c'.nodes && c'.nodes[a.peer].log == c.nodes[a.peer].log
    requires c'.nodes[a.peer].term >= c.nodes[a.peer].term && LM.Grows(c.hist, c'.hist)
    ensures AckOk(c', a)
  {
    var nd, nd' := c.nodes[a.peer], c'.nodes[a.peer];
    CutShorter(c.hist.tlog[a.term], c'.hist.tlog[a.term]);
    forall k: nat | k <= c'.hist.acks[a]
      ensures Kept(c'.hist, nd'.log, a.term, k, nd'.term)
    {
      assert Kept(c.hist, nd.log, a.term, k, nd.term);
      KeptStays(c.hist, c'.hist, nd.log, a.term, k, nd.term, nd'.term);
    }
  }

  lemma OldBallotStays(c: State, n: PeerId, c': State, a: At, t: nat, k: nat)
    requires AcksInv(c) && Grows(c.hist, c'.hist) && n in c'.nodes && OwnAcksOnly(c, n, c')
    requires a in c.hist.ballots && BallotKept(c.hist, a, t, k) && (a.peer == n ==> a.term <= c'.nodes[n].term)
    ensures BallotKept(c'.hist, a, t, k)
  {
    var h, h' := c.hist, c'.hist;
    if t < a.term && Live(h', a) && Acked(h', a.peer, t, k) {
      assert Acked(h, a.peer, t, k) && Live(h, a);
      assert AckOk(c, At(a.peer, t));
      KeptStays(h, h', h.ballots[a].log, t, k, a.term - 1, a.term - 1);
    }
  }

  lemma BallotsStay(c: State, n: PeerId, c': State)
    requires AcksInv(c) && BallotsKept(c.hist) && Grows(c.hist, c'.hist) && n in c'.nodes && OwnAcksOnly(c, n, c')
    requires ES.BallotInv(c')
    requires forall a, t: nat, k: nat {:trigger BallotKept(c'.hist, a, t, k)} ::
               a in c'.hist.ballots && a !in c.hist.ballots ==> BallotKept(c'.hist, a, t, k)
    ensures BallotsKept(c'.hist)
  {
    forall a, t: nat, k: nat | a in c'.hist.ballots
      ensures BallotKept(c'.hist, a, t, k)
    {
      if a in c.hist.ballots {
        assert BallotKept(c.hist, a, t, k);
        OldBallotStays(c, n, c', a, t, k);
      }
    }
  }

  lemma MsgsStay(ms: Members, c: State, c': State)
    requires MsgInv(ms, c) && Grows(c.hist, c'.hist)
    requires forall m :: m in c'.net && m !in c.net ==> ReplyOk(c'.hist, m) && AdvertOk(ms, c'.hist, m)
    ensures MsgInv(ms, c')
  {
    forall m | m in c'.net
      ensures ReplyOk(c'.hist, m)
    {
      if m in c.net { assert ReplyOk(c.hist, m); }
    }
    forall m | m in c'.net
      ensures AdvertOk(ms, c'.hist, m)
    {
      if m in c.net {
        assert AdvertOk(ms, c.hist, m);
        AdvertStays(ms, c.hist, c'.hist, m);
      }
    }
  }

  lemma NodesStay(ms: Members, c: State, n: PeerId, c': State)
    requires NodesInv(ms, c) && ES.OnlyNode(c, n, c') && Grows(c.hist, c'.hist) && NodeOk(ms, c'.hist, c'.nodes[n])
    ensures NodesInv(ms, c')
  {
    forall p | p in c'.nodes
      ensures NodeOk(ms, c'.hist, c'.nodes[p])
    {
      if p != n {
        assert NodeOk(ms, c.hist, c.nodes[p]);
        NodeStays(ms, c.hist, c'.hist, c.nodes[p]);
      }
    }
  }

  lemma SelfStay(h: History, h': History)
    requires SelfInv(h) && Grows(h, h')
    requires forall t :: t in h'.wins && (t !in h.wins || t !in h.tlog || h'.tlog[t] != h.tlog[t]) ==> SelfAck(h', t)
    ensures SelfInv(h')
  {
    forall t | t in h'.wins
      ensures SelfAck(h', t)
    {
      if t in h.wins { assert SelfAck(h, t); }
    }
  }

  lemma DoneStay(ms: Members, h: History, h': History)
    requires DoneInv(ms, h) && Grows(h, h')
    requires forall t :: t in h'.done && (t !in h.done || h'.done[t] != h.done[t]) ==> Committed(ms, h', t, h'.done[t])
    ensures DoneInv(ms, h')
  {
    forall t | t in h'.done
      ensures Committed(ms, h', t, h'.done[t])
    {
      if t in h.done && h'.done[t] == h.done[t] {
        assert Committed(ms, h, t, h.done[t]);
        CommittedStays(ms, h, h', t, h.done[t]);
      }
    }
  }

  /** What a step has to show about the node it moves. */
  lemma Assemble(ms: Members, c: State, n: PeerId, c': State)
    requires Inv(ms, c) && ES.OnlyNode(c, n, c') && Grows(c.hist, c'.hist) && ES.BallotInv(c')
    requires OwnAcksOnly(c, n, c') && OwnAcksOk(c', n) && NodeOk(ms, c'.hist, c'.nodes[n])
    requires forall a, t: nat, k: nat {:trigger BallotKept(c'.hist, a, t, k)} ::
               a in c'.hist.ballots && a !in c.hist.ballots ==> BallotKept(c'.hist, a, t, k)
    requires forall m :: m in c'.net && m !in c.net ==> ReplyOk(c'.hist, m) && AdvertOk(ms, c'.hist, m)
    requires SelfInv(c'.hist) && DoneInv(ms, c'.hist)
    ensures Inv(ms, c')
  {
    AcksStay(c, n, c');
    BallotsStay(c, n, c');
    MsgsStay(ms, c, c');
    NodesStay(ms, c, n, c');
  }

  lemma OwnAcksStay(c: State, n: PeerId, c': State)
    requires AcksInv(c) && LM.Grows(c.hist, c'.hist) && c'.hist.acks == c.hist.acks
    requires n in c.nodes && n in c'.nodes
    requires c'.nodes[n].log == c.nodes[n].log && c'.nodes[n].term >= c.nodes[n].term
    ensures Grows(c.hist, c'.hist) && OwnAcksOnly(c, n, c') && OwnAcksOk(c', n)
  {
    forall a | a in c'.hist.acks && a.peer == n
      ensures AckOk(c', a)
    {
      assert AckOk(c, a);
      AckStays(c, c', a);
    }
  }

  // ----------------------------------------- steps that keep log, votes and acks

  /** Log, history and append traffic stay; the commit index stays or is forgotten. */
  ghost predicate PlainStep(c: State, n: PeerId, c': State) {
    && ES.OnlyNode(c, n, c') && c'.hist == c.hist
    && c'.nodes[n].log == c.nodes[n].log && c'.nodes[n].term >= c.nodes[n].term
    && (c'.nodes[n].commit == c.nodes[n].commit || c'.nodes[n].commit == 0)
    && (forall m :: m in c'.net && m !in c.net ==> m.VoteResp? || (m.AppendResp? && !m.success))
  }

  lemma PlainKeeps(ms: Members, c: State, n: PeerId, c': State)
    requires Inv(ms, c) && PlainStep(c, n, c') && TrackOk(c.hist, c'.nodes[n]) && ES.BallotInv(c')
    ensures Inv(ms, c')
  {
    LM.GrowsSelf(c.hist);
    OwnAcksStay(c, n, c');
    assert NodeOk(ms, c.hist, c.nodes[n]);
    if c'.nodes[n].commit > 0 {
      BackedStays(ms, c.hist, c.hist, c.nodes[n].log, c.nodes[n].commit, c.nodes[n].term, c'.nodes[n].term);
    }
    Assemble(ms, c, n, c');
  }

  /** Progress is forgotten, or stays with the leadership it belongs to. */
  predicate TrackStays(nd: Node, nd': Node) {
    nd'.progress == map[] || (nd'.progress == nd.progress && nd'.term == nd.term && nd'.role == nd.role)
  }

  lemma TrackStaysOk(h: History, nd: Node, nd': Node)
    requires TrackOk(h, nd) && TrackStays(nd, nd')
    ensures TrackOk(h, nd')
  {
    forall p | p in nd'.progress
      ensures ProgressOk(h, nd'.term, p, nd'.progress[p])
    {
      assert ProgressOk(h, nd.term, p, nd.progress[p]);
    }
  }

  predicate IsPlain(s: Step) {
    s.DeliverVoteReply? || s.SeeTerm? || s.StartRound? || s.SoftDemote? || s.Restart? || s.Abdicate?
  }

  lemma PlainShape(ms: Members, c: State, s: Step)
    requires Enabled(ms, c, s) && IsPlain(s)
    requires c.nodes[s.n].progress != map[] ==> c.nodes[s.n].role == Leader
    ensures PlainStep(c, s.n, Apply(ms, c, s)) && TrackStays(c.nodes[s.n], Apply(ms, c, s).nodes[s.n])
  {
  }

  /** The new progress record of `src` after a response, if it changed, counts what was counted or acknowledged. */
  predicate TrackUpdate(nd: Node, nd': Node, src: PeerId, success: bool, matched: nat) {
    || TrackStays(nd, nd')
    || (&& nd'.term == nd.term && nd'.role == nd.role && src in nd.progress && src in nd'.progress
        && nd'.progress == nd.progress[src := nd'.progress[src]]
        && (nd'.progress[src].matched == nd.progress[src].matched || (success && nd'.progress[src].matched == matched)))
  }

  lemma TrackUpdateOk(h: History, nd: Node, nd': Node, m: Msg)
    requires TrackOk(h, nd) && m.AppendResp? && TrackUpdate(nd, nd', m.src, m.success, m.matched)
    requires ReplyOk(h, m)
    requires m.success && nd'.term == nd.term ==>
               m.term == nd.term || m.src !in nd.progress || m.matched <= nd.progress[m.src].matched
    ensures TrackOk(h, nd')
  {
    if TrackStays(nd, nd') {
      TrackStaysOk(h, nd, nd');
    } else {
      forall p | p in nd'.progress
        ensures ProgressOk(h, nd'.term, p, nd'.progress[p])
      {
        assert ProgressOk(h, nd.term, p, nd.progress[p]);
      }
    }
  }

  lemma ReplyUpdates(nd: Node, src: PeerId, sentLast: nat, term: nat, success: bool, matched: nat)
    ensures TrackUpdate(nd, OnAppendReply(nd, src, term, success, matched), src, success, matched)
    ensures TrackUpdate(nd, OnPendingReply(nd, src, sentLast, term, success, matched), src, success, matched)
  {
  }

  lemma AppendReplyShape(ms: Members, c: State, n: PeerId, m: Msg)
    requires Enabled(ms, c, DeliverAppendReply(n, m))
    ensures var c' := Apply(ms, c, DeliverAppendReply(n, m));
            && PlainStep(c, n, c') && TrackUpdate(c.nodes[n], c'.nodes[n], m.src, m.success, m.matched)
            && (m.term > c.nodes[n].term ==> c'.nodes[n].term == m.term)
  {
    ReplyUpdates(CountRoundAck(c.nodes[n], ms.voters, m.src, m.term, m.probe), m.src, 0, m.term, m.success, m.matched);
  }

  lemma PendingReplyShape(ms: Members, c: State, n: PeerId, m: Msg, sentLast: nat)
    requires Enabled(ms, c, DeliverPendingReply(n, m, sentLast))
    ensures var c' := Apply(ms, c, DeliverPendingReply(n, m, sentLast));
            && PlainStep(c, n, c') && TrackUpdate(c.nodes[n], c'.nodes[n], m.src, m.success, m.matched)
            && (m.term > c.nodes[n].term ==> c'.nodes[n].term == m.term)
  {
    ReplyUpdates(c.nodes[n], m.src, sentLast, m.term, m.success, m.matched);
  }

  lemma ReplyKeeps(ms: Members, c: State, n: PeerId, m: Msg, c': State)
    requires Inv(ms, c) && ES.BallotInv(c') && m in c.net && m.AppendResp?
    requires PlainStep(c, n, c') && TrackUpdate(c.nodes[n], c'.nodes[n], m.src, m.success, m.matched)
    requires m.term > c.nodes[n].term ==> c'.nodes[n].term == m.term
    requires m.success ==> var nd := c.nodes[n];
               || m.term >= nd.term || nd.role != Leader || m.src !in nd.progress
               || m.matched <= nd.progress[m.src].matched
    ensures Inv(ms, c')
  {
    assert NodeOk(ms, c.hist, c.nodes[n]) && ReplyOk(c.hist, m);
    TrackUpdateOk(c.hist, c.nodes[n], c'.nodes[n], m);
    PlainKeeps(ms, c, n, c');
  }

  /**
   Counting a success of an earlier term is sound exactly when it claims no more
   than is recorded, or no more than the peer acknowledged in the leader's own term.
   */
  lemma StaleReplyIff(h: History, nd: Node, src: PeerId, term: nat, matched: nat)
    requires TrackOk(h, nd) && nd.role == Leader && src in nd.progress && term < nd.term
    ensures TrackOk(h, OnAppendReply(nd, src, term, true, matched)) <==>
            matched <= nd.progress[src].matched || Acked(h, src, nd.term, matched)
  {
    var nd' := OnAppendReply(nd, src, term, true, matched);
    assert ProgressOk(h, nd.term, src, nd.progress[src]);
    CountedAt(h, nd, nd', src);
  }

  /** The gather's handler takes the claim as it is, also a lower one, unless it is below what was sent. */
  lemma StalePendingReplyIff(h: History, nd: Node, src: PeerId, sentLast: nat, term: nat, matched: nat)
    requires TrackOk(h, nd) && nd.role == Leader && src in nd.progress && term < nd.term
    ensures TrackOk(h, OnPendingReply(nd, src, sentLast, term, true, matched)) <==>
            matched < sentLast || matched <= nd.progress[src].matched || Acked(h, src, nd.term, matched)
  {
    var nd' := OnPendingReply(nd, src, sentLast, term, true, matched);
    assert ProgressOk(h, nd.term, src, nd.progress[src]);
    CountedAt(h, nd, nd', src);
  }

  /** Changing one record keeps the tracking sound exactly when the new record is true. */
  lemma CountedAt(h: History, nd: Node, nd': Node, src: PeerId)
    requires TrackOk(h, nd) && nd'.role == nd.role == Leader && nd'.term == nd.term && src in nd'.progress
    requires nd'.progress == nd.progress[src := nd'.progress[src]]
    ensures TrackOk(h, nd') <==> ProgressOk(h, nd.term, src, nd'.progress[src])
  {
    if ProgressOk(h, nd.term, src, nd'.progress[src]) {
      forall p | p in nd'.progress
        ensures ProgressOk(h, nd'.term, p, nd'.progress[p])
      {
        if p != src { assert ProgressOk(h, nd.term, p, nd.progress[p]); }
      }
    }
  }

  // ------------------------------------------------------------------- voting

  lemma ElectorVoted(ms: Members, c: State, t: nat, p: PeerId)
    requires ES.WinInv(ms, c) && t in c.hist.wins && p in c.hist.wins[t].quorum
    ensures At(p, t) in c.hist.ballots
  {
    assert ES.WonOk(ms, c, t);
    assert ES.Voted(c.hist, p, t, c.hist.wins[t].leader);
  }

  /** A fresh vote: the voter still has what it acknowledged before. */
  lemma NewBallotKept(ms: Members, c: State, n: PeerId, cand: PeerId, c': State, t: nat, k: nat)
    requires AcksInv(c) && ES.WinInv(ms, c) && LM.CastStep(c, n, cand, c') && LM.Grows(c.hist, c'.hist)
    requires c'.hist.acks == c.hist.acks
    ensures BallotKept(c'.hist, At(n, c'.nodes[n].term), t, k)
  {
    var h, h', nd, t' := c.hist, c'.hist, c.nodes[n], c'.nodes[n].term;
    var a := At(n, t');
    if t < t' && Live(h', a) && Acked(h', n, t, k) {
      assert AckOk(c, At(n, t));
      if t' in h.wins {
        ElectorVoted(ms, c, t', n);
        assert false;
      }
      assert Kept(h, nd.log, t, k, nd.term);
      if !Same(h.tlog[t], nd.log, k) {
        var u: nat :| t < u <= nd.term && Lacks(h, t, k, u);
        assert u <= t' - 1;
      }
      KeptStays(h, h', nd.log, t, k, t' - 1, t' - 1);
    }
  }

  lemma CastKeeps(ms: Members, c: State, n: PeerId, cand: PeerId, c': State)
    requires Inv(ms, c) && LM.TermsInv(c.hist) && ES.WinInv(ms, c) && ES.BallotInv(c') && LM.CastStep(c, n, cand, c')
    requires c'.hist.acks == c.hist.acks && c'.hist.done == c.hist.done
    requires c'.nodes[n].commit == c.nodes[n].commit && TrackStays(c.nodes[n], c'.nodes[n])
    requires forall m :: m in c'.net && m !in c.net ==> m.VoteResp? || m.RequestVote?
    ensures Inv(ms, c')
  {
    LM.CastGrows(c, n, cand, c');
    OwnAcksStay(c, n, c');
    forall a, t: nat, k: nat | a in c'.hist.ballots && a !in c.hist.ballots
      ensures BallotKept(c'.hist, a, t, k)
    {
      NewBallotKept(ms, c, n, cand, c', t, k);
    }
    assert NodeOk(ms, c.hist, c.nodes[n]);
    MovedNodeOk(ms, c.hist, c'.hist, c.nodes[n], c'.nodes[n]);
    SelfStay(c.hist, c'.hist);
    DoneStay(ms, c.hist, c'.hist);
    Assemble(ms, c, n, c');
  }

  lemma MovedNodeOk(ms: Members, h: History, h': History, nd: Node, nd': Node)
    requires NodeOk(ms, h, nd) && Grows(h, h') && TrackStays(nd, nd')
    requires nd'.log == nd.log && nd'.commit == nd.commit && nd'.term >= nd.term
    ensures NodeOk(ms, h', nd')
  {
    NodeStays(ms, h, h', nd);
    TrackStaysOk(h', nd, nd');
    BackedStays(ms, h, h', nd.log, nd.commit, nd.term, nd'.term);
  }

  lemma CampaignShape(ms: Members, c: State, n: PeerId)
    requires Enabled(ms, c, Campaign(n)) && (c.nodes[n].progress != map[] ==> c.nodes[n].role == Leader)
    ensures var c' := Apply(ms, c, Campaign(n));
            && c'.hist.acks == c.hist.acks && c'.hist.done == c.hist.done
            && c'.nodes[n].commit == c.nodes[n].commit && TrackStays(c.nodes[n], c'.nodes[n])
            && (forall m :: m in c'.net && m !in c.net ==> m.RequestVote?)
  {
  }

  lemma VoteRequestShape(ms: Members, c: State, n: PeerId, m: Msg)
    requires Enabled(ms, c, DeliverVoteRequest(n, m))
    ensures var c' := Apply(ms, c, DeliverVoteRequest(n, m));
            && c'.hist.acks == c.hist.acks && c'.hist.done == c.hist.done
            && c'.nodes[n].commit == c.nodes[n].commit && TrackStays(c.nodes[n], c'.nodes[n])
            && (c'.hist == c.hist || LM.CastStep(c, n, m.cand, c')) && (c'.hist == c.hist ==> PlainStep(c, n, c'))
            && (forall x :: x in c'.net && x !in c.net ==> x.VoteResp?)
  {
  }

  lemma VoteRequestKeeps(ms: Members, c: State, n: PeerId, m: Msg)
    requires Inv(ms, c) && LM.TermsInv(c.hist) && ES.WinInv(ms, c)
    requires Enabled(ms, c, DeliverVoteRequest(n, m)) && ES.BallotInv(Apply(ms, c, DeliverVoteRequest(n, m)))
    ensures Inv(ms, Apply(ms, c, DeliverVoteRequest(n, m)))
  {
    var c' := Apply(ms, c, DeliverVoteRequest(n, m));
    VoteRequestShape(ms, c, n, m);
    if c'.hist == c.hist {
      assert NodeOk(ms, c.hist, c.nodes[n]);
      TrackStaysOk(c.hist, c.nodes[n], c'.nodes[n]);
      PlainKeeps(ms, c, n, c');
    } else {
      CastKeeps(ms, c, n, m.cand, c');
    }
  }

  // ------------------------------------------------------------- the leader's log

  /** The node's own log becomes its term's log; it acknowledges all of it. */
  ghost predicate OwnLogStep(c: State, n: PeerId, c': State) {
    && ES.OnlyNode(c, n, c') && c'.net == c.net && c'.hist.ballots == c.hist.ballots && c'.hist.done == c.hist.done
    && c'.nodes[n].term == c.nodes[n].term && c'.nodes[n].commit == c.nodes[n].commit
    && Cut(c.nodes[n].log, c'.nodes[n].log)
    && c'.hist.tlog == c.hist.tlog[c.nodes[n].term := c'.nodes[n].log]
    && c'.hist.acks == c.hist.acks[At(n, c.nodes[n].term) := |c'.nodes[n].log|]
  }

  lemma OwnLogAcks(c: State, n: PeerId, c': State)
    requires AcksInv(c) && OwnLogStep(c, n, c') && LM.Grows(c.hist, c'.hist)
    ensures OwnAcksOk(c', n)
  {
    forall a | a in c'.hist.acks && a.peer == n
      ensures AckOk(c', a)
    {
      if a.term == c.nodes[n].term {
        WholeLogAcked(c', n, a);
      } else {
        assert AckOk(c, a);
        LongerLogAck(c, n, c', a);
      }
    }
  }

  lemma WholeLogAcked(c: State, n: PeerId, a: At)
    requires n in c.nodes && a == At(n, c.nodes[n].term) && a in c.hist.acks && a.term in c.hist.tlog
    requires c.hist.tlog[a.term] == c.nodes[n].log && c.hist.acks[a] == |c.nodes[n].log|
    ensures AckOk(c, a)
  {
    forall k: nat | k <= c.hist.acks[a]
      ensures Kept(c.hist, c.nodes[n].log, a.term, k, c.nodes[n].term)
    {
      SameSelf(c.nodes[n].log, k);
    }
  }

  lemma LongerLogAck(c: State, n: PeerId, c': State, a: At)
    requires a in c.hist.acks && AckOk(c, a) && a.peer == n && a in c'.hist.acks && c'.hist.acks[a] == c.hist.acks[a]
    requires n in c'.nodes && Cut(c.nodes[n].log, c'.nodes[n].log) && c'.nodes[n].term == c.nodes[n].term
    requires LM.Grows(c.hist, c'.hist)
    ensures AckOk(c', a)
  {
    var log, log' := c.nodes[n].log, c'.nodes[n].log;
    CutShorter(c.hist.tlog[a.term], c'.hist.tlog[a.term]);
    forall k: nat | k <= c'.hist.acks[a]
      ensures Kept(c'.hist, log', a.term, k, c'.nodes[n].term)
    {
      assert Kept(c.hist, log, a.term, k, c.nodes[n].term);
      KeptLonger(c.hist, log, log', a.term, k, c.nodes[n].term);
      KeptStays(c.hist, c'.hist, log', a.term, k, c.nodes[n].term, c'.nodes[n].term);
    }
  }

  lemma KeptLonger(h: History, log: seq<Entry>, log': seq<Entry>, t: nat, k: nat, b: nat)
    requires t in h.tlog && Kept(h, log, t, k, b) && Cut(log, log')
    ensures Kept(h, log', t, k, b)
  {
    if Same(h.tlog[t], log, k) {
      if k > 0 { SameAt(h.tlog[t], log, k, k - 1); }
      SameLess(log, log', |log|, k);
      SameTrans(h.tlog[t], log, log', k);
    }
  }

  /** The leader's own acknowledgement never reached past its log. */
  lemma OwnLogKeeps(ms: Members, c: State, n: PeerId, c': State)
    requires Inv(ms, c) && OwnLogStep(c, n, c') && LM.Grows(c.hist, c'.hist) && ES.BallotInv(c')
    requires At(n, c.nodes[n].term) in c.hist.acks ==> c.hist.acks[At(n, c.nodes[n].term)] <= |c'.nodes[n].log|
    requires c.nodes[n].term in c'.hist.wins && c'.hist.wins[c.nodes[n].term].leader == n
    requires c'.hist.wins.Keys == c.hist.wins.Keys + {c.nodes[n].term}
    requires TrackOk(c'.hist, c'.nodes[n])
    ensures Inv(ms, c')
  {
    assert Grows(c.hist, c'.hist);
    OwnLogAcks(c, n, c');
    OwnLogCommit(ms, c, n, c');
    SelfStay(c.hist, c'.hist) by { OwnSelfAck(c, n, c'); }
    DoneStay(ms, c.hist, c'.hist);
    Assemble(ms, c, n, c');
  }

  lemma OwnSelfAck(c: State, n: PeerId, c': State)
    requires OwnLogStep(c, n, c') && SelfInv(c.hist)
    requires c.nodes[n].term in c'.hist.wins && c'.hist.wins[c.nodes[n].term].leader == n
    requires c'.hist.wins.Keys == c.hist.wins.Keys + {c.nodes[n].term}
    ensures forall t :: t in c'.hist.wins && (t !in c.hist.wins || t !in c.hist.tlog || c'.hist.tlog[t] != c.hist.tlog[t]) ==>
              SelfAck(c'.hist, t)
  {
    forall t | t in c'.hist.wins && (t !in c.hist.wins || t !in c.hist.tlog || c'.hist.tlog[t] != c.hist.tlog[t])
      ensures SelfAck(c'.hist, t)
    {
      if t in c.hist.wins { assert SelfAck(c.hist, t); }
    }
  }

  lemma OwnLogCommit(ms: Members, c: State, n: PeerId, c': State)
    requires NodesInv(ms, c) && OwnLogStep(c, n, c') && Grows(c.hist, c'.hist)
    ensures CommitOk(ms, c'.hist, c'.nodes[n])
  {
    var nd, nd' := c.nodes[n], c'.nodes[n];
    assert NodeOk(ms, c.hist, nd);
    CutShorter(nd.log, nd'.log);
    BackedStays(ms, c.hist, c'.hist, nd.log, nd.commit, nd.term, nd.term);
    SameLess(nd.log, nd'.log, |nd.log|, nd.commit);
    SameSym(nd.log, nd'.log, nd.commit);
    BackedMoves(ms, c'.hist, nd.log, nd'.log, nd.commit, nd.commit, nd.term);
  }

  lemma FreshTrackOk(h: History, ms: Members, n: PeerId, last: nat, nd: Node)
    requires nd.role == Leader && nd.progress == FreshProgress(ms, n, last)
    ensures TrackOk(h, nd)
  {
  }

  lemma WinShape(ms: Members, c: State, n: PeerId)
    requires Enabled(ms, c, Win(n)) && c.nodes[n].term !in c.hist.wins && At(n, c.nodes[n].term) !in c.hist.acks
    ensures var c' := Apply(ms, c, Win(n));
            && OwnLogStep(c, n, c') && c'.nodes[n].role == Leader
            && c'.nodes[n].progress == FreshProgress(ms, n, TipIndex(c.nodes[n].log))
            && c.nodes[n].term in c'.hist.wins && c'.hist.wins[c.nodes[n].term].leader == n
            && c'.hist.wins.Keys == c.hist.wins.Keys + {c.nodes[n].term}
  {
    SameSelf(c.nodes[n].log, |c.nodes[n].log|);
  }

  lemma AckedTermHasLog(c: State, a: At)
    requires AcksInv(c) && a in c.hist.acks
    ensures a.term in c.hist.tlog && c.hist.acks[a] <= |c.hist.tlog[a.term]|
  {
    assert AckOk(c, a);
  }

  lemma WinKeeps(ms: Members, c: State, n: PeerId)
    requires Inv(ms, c) && LM.TermsInv(c.hist) && Enabled(ms, c, Win(n)) && c.nodes[n].term !in c.hist.wins
    requires LM.Grows(c.hist, Apply(ms, c, Win(n)).hist) && ES.BallotInv(Apply(ms, c, Win(n)))
    ensures Inv(ms, Apply(ms, c, Win(n)))
  {
    var c' := Apply(ms, c, Win(n));
    if At(n, c.nodes[n].term) in c.hist.acks {
      AckedTermHasLog(c, At(n, c.nodes[n].term));
      assert false;
    }
    WinShape(ms, c, n);
    FreshTrackOk(c'.hist, ms, n, TipIndex(c.nodes[n].log), c'.nodes[n]);
    OwnLogKeeps(ms, c, n, c');
  }

  lemma ProposeShape(ms: Members, c: State, n: PeerId, payloads: seq<seq<Byte>>)
    requires Enabled(ms, c, Propose(n, payloads))
    requires At(n, c.nodes[n].term) in c.hist.acks ==> c.hist.acks[At(n, c.nodes[n].term)] <= |c.nodes[n].log|
    ensures var c' := Apply(ms, c, Propose(n, payloads));
            && OwnLogStep(c, n, c') && c'.nodes[n].role == Leader && c'.hist.wins == c.hist.wins
            && |c'.nodes[n].log| >= |c.nodes[n].log|
            && (c'.nodes[n].progress == c.nodes[n].progress
                || c'.nodes[n].progress == FreshProgress(ms, n, TipIndex(c.nodes[n].log)))
  {
    CutAppend(c.nodes[n].log, NewEntries(c.nodes[n].term, TipIndex(c.nodes[n].log), payloads));
  }

  lemma ProposeTrack(ms: Members, c: State, n: PeerId, c': State)
    requires NodesInv(ms, c) && n in c.nodes && n in c'.nodes && Grows(c.hist, c'.hist)
    requires c'.nodes[n].term == c.nodes[n].term && c'.nodes[n].role == Leader
    requires c'.nodes[n].progress == c.nodes[n].progress
             || c'.nodes[n].progress == FreshProgress(ms, n, TipIndex(c.nodes[n].log))
    ensures TrackOk(c'.hist, c'.nodes[n])
  {
    assert NodeOk(ms, c.hist, c.nodes[n]);
    NodeStays(ms, c.hist, c'.hist, c.nodes[n]);
    if c'.nodes[n].progress == c.nodes[n].progress {
      forall p | p in c'.nodes[n].progress
        ensures ProgressOk(c'.hist, c'.nodes[n].term, p, c'.nodes[n].progress[p])
      {
        assert ProgressOk(c'.hist, c.nodes[n].term, p, c.nodes[n].progress[p]);
      }
    } else {
      FreshTrackOk(c'.hist, ms, n, TipIndex(c.nodes[n].log), c'.nodes[n]);
    }
  }

  lemma ProposeKeeps(ms: Members, c: State, n: PeerId, payloads: seq<seq<Byte>>)
    requires FullInv(ms, c) && Enabled(ms, c, Propose(n, payloads))
    requires LM.Grows(c.hist, Apply(ms, c, Propose(n, payloads)).hist) && ES.BallotInv(Apply(ms, c, Propose(n, payloads)))
    ensures Inv(ms, Apply(ms, c, Propose(n, payloads)))
  {
    var c' := Apply(ms, c, Propose(n, payloads));
    var t := c.nodes[n].term;
    assert LM.NodeOk(c.hist, n, c.nodes[n]);
    if At(n, t) in c.hist.acks { assert AckOk(c, At(n, t)); }
    ProposeShape(ms, c, n, payloads);
    ProposeTrack(ms, c, n, c');
    OwnLogKeeps(ms, c, n, c');
  }

  lemma SendKeeps(ms: Members, c: State, n: PeerId, dst: PeerId, prev: nat, count: nat)
    requires FullInv(ms, c) && Enabled(ms, c, SendAppend(n, dst, prev, count))
    ensures Inv(ms, Apply(ms, c, SendAppend(n, dst, prev, count)))
  {
    var m := AppendMsg(c.nodes[n], n, dst, prev, count);
    LM.SendAppendShape(ms, c, n, dst, prev, count);
    assert LM.NodeOk(c.hist, n, c.nodes[n]) && NodeOk(ms, c.hist, c.nodes[n]);
    SentKeeps(ms, c, m, Apply(ms, c, SendAppend(n, dst, prev, count)));
  }

  lemma SentKeeps(ms: Members, c: State, m: Msg, c': State)
    requires Inv(ms, c) && AdvertOk(ms, c.hist, m) && m.Append? && c' == c.(net := c.net + {m})
    ensures Inv(ms, c')
  {
    LM.GrowsSelf(c.hist);
    forall a | a in c'.hist.acks
      ensures AckOk(c', a)
    {
      assert AckOk(c, a);
    }
    MsgsStay(ms, c, c');
  }

  // --------------------------------------------------------------- committing

  /** The node is the recorded leader of its term and holds the term's log. */
  predicate Rightful(h: History, n: PeerId, nd: Node) {
    && nd.term in h.wins && nd.term in h.tlog && h.wins[nd.term].leader == n && nd.log == h.tlog[nd.term]
  }

  lemma LeaderIsRightful(c: State, n: PeerId)
    requires LM.NodesInv(c) && ES.LeadInv(c) && n in c.nodes && c.nodes[n].role == Leader
    ensures Rightful(c.hist, n, c.nodes[n])
  {
    assert LM.NodeOk(c.hist, n, c.nodes[n]);
  }

  /** The only voter leads every term its log has entries of. */
  lemma SoleVoterIsRightful(ms: Members, c: State, n: PeerId)
    requires LM.NodesInv(c) && LM.TermsInv(c.hist) && ES.WinInv(ms, c) && n in c.nodes && ms.voters == [n]
    requires c.nodes[n].log != [] && TipTerm(c.nodes[n].log) == c.nodes[n].term
    ensures Rightful(c.hist, n, c.nodes[n])
  {
    var nd := c.nodes[n];
    assert LM.NodeOk(c.hist, n, nd);
    LM.EntryFacts(c.hist, nd.log, |nd.log| - 1);
    assert ES.WonOk(ms, c, nd.term);
    assert Elements(ms.voters) == {n};
  }

  /** Whoever the leader counts as holding `k` acknowledged `k` in its term. */
  lemma CountedIsAcked(h: History, n: PeerId, nd: Node, p: PeerId, k: nat)
    requires Rightful(h, n, nd) && SelfInv(h) && TrackOk(h, nd) && 1 <= k
    requires AckOf(nd.progress, n, |nd.log|, p) >= k
    ensures Acked(h, p, nd.term, k)
  {
    if p == n {
      assert SelfAck(h, nd.term);
    } else {
      assert ProgressOk(h, nd.term, p, nd.progress[p]);
    }
  }

  lemma CountedMajority(ms: Members, h: History, n: PeerId, nd: Node, k: nat)
    requires Rightful(h, n, nd) && SelfInv(h) && TrackOk(h, nd) && 1 <= k && Distinct(ms.voters)
    requires MajorityAcked(nd.progress, n, |nd.log|, ms.voters, k)
    ensures MajorityOf(ms.voters, AckSet(ms, h, nd.term, k))
  {
    CountAcksIsIntersection(nd.progress, n, |nd.log|, ms.voters, k);
    var x, y := Ackers(nd.progress, n, |nd.log|, ms.voters, k), AckSet(ms, h, nd.term, k);
    forall p | p in x
      ensures p in Elements(ms.voters) * y
    {
      CountedIsAcked(h, n, nd, p, k);
    }
    SubsetSize(x, Elements(ms.voters) * y);
  }

  /** A majority has someone, and what was acknowledged is on the leader's log. */
  lemma CountedIsOnLog(ms: Members, c: State, n: PeerId, k: nat)
    requires n in c.nodes && AcksInv(c) && Rightful(c.hist, n, c.nodes[n])
    requires MajorityOf(ms.voters, AckSet(ms, c.hist, c.nodes[n].term, k))
    ensures k <= |c.nodes[n].log|
  {
    var x := Elements(ms.voters) * AckSet(ms, c.hist, c.nodes[n].term, k);
    assert |x| > 0;
    var v :| v in x;
    assert AckOk(c, At(v, c.nodes[n].term));
  }

  /** The node's commit index moved to a newly committed entry; nothing else but the record of it changed. */
  ghost predicate CommitStep(c: State, n: PeerId, k: nat, c': State) {
    && ES.OnlyNode(c, n, c') && c'.net == c.net && c'.nodes[n] == c.nodes[n].(commit := k)
    && c.nodes[n].commit < k
    && c'.hist == RecordDone(c.hist, c.nodes[n].term, k)
  }

  lemma CommitNodeOk(ms: Members, h: History, h': History, n: PeerId, nd: Node, k: nat)
    requires NodeOk(ms, h, nd) && Grows(h, h') && Rightful(h, n, nd) && Committed(ms, h, nd.term, k)
    ensures NodeOk(ms, h', nd.(commit := k))
  {
    var l' := h'.tlog[nd.term];
    NodeStays(ms, h, h', nd);
    CommitTrack(h', nd, k);
    CommittedStays(ms, h, h', nd.term, k);
    SameLess(nd.log, l', |nd.log|, k);
    assert BackedBy(ms, h', nd.log, k, nd.term, k);
  }

  lemma CommitStepKeeps(ms: Members, c: State, n: PeerId, k: nat, c': State)
    requires Inv(ms, c) && CommitStep(c, n, k, c') && ES.BallotInv(c')
    requires Rightful(c.hist, n, c.nodes[n]) && Committed(ms, c.hist, c.nodes[n].term, k)
    ensures Inv(ms, c')
  {
    var nd := c.nodes[n];
    GrowsByDone(c.hist, nd.term, k);
    OwnAcksStay(c, n, c');
    assert NodeOk(ms, c.hist, nd);
    CommitNodeOk(ms, c.hist, c'.hist, n, nd, k);
    SelfSame(c.hist, c'.hist);
    NewDone(ms, c.hist, nd.term, k);
    DoneStay(ms, c.hist, c'.hist);
    Assemble(ms, c, n, c');
  }

  lemma SelfSame(h: History, h': History)
    requires SelfInv(h) && h'.wins == h.wins && h'.tlog == h.tlog && AcksGrow(h, h')
    ensures SelfInv(h')
  {
    forall t | t in h'.wins
      ensures SelfAck(h', t)
    {
      assert SelfAck(h, t);
    }
  }

  lemma CommitTrack(h: History, nd: Node, k: nat)
    requires TrackOk(h, nd)
    ensures TrackOk(h, nd.(commit := k))
  {
    forall p | p in nd.progress
      ensures ProgressOk(h, nd.term, p, nd.progress[p])
    {
    }
  }

  lemma GrowsByDone(h: History, t: nat, k: nat)
    ensures Grows(h, RecordDone(h, t, k))
  {
    LM.GrowsSelf(h);
  }

  lemma NewDone(ms: Members, h: History, t: nat, k: nat)
    requires DoneInv(ms, h) && Committed(ms, h, t, k)
    ensures var h' := RecordDone(h, t, k);
            forall u :: u in h'.done && (u !in h.done || h'.done[u] != h.done[u]) ==> Committed(ms, h', u, h'.done[u])
  {
    GrowsByDone(h, t, k);
    CommittedStays(ms, h, RecordDone(h, t, k), t, k);
  }

  lemma RightfulCommits(ms: Members, c: State, n: PeerId, k: nat)
    requires n in c.nodes && Rightful(c.hist, n, c.nodes[n]) && Distinct(ms.voters) && k >= 1
    requires AcksInv(c) && SelfInv(c.hist) && TrackOk(c.hist, c.nodes[n])
    requires MajorityAcked(c.nodes[n].progress, n, |c.nodes[n].log|, ms.voters, k)
    requires k <= |c.nodes[n].log| ==> c.nodes[n].log[k - 1].term == c.nodes[n].term
    ensures Committed(ms, c.hist, c.nodes[n].term, k)
  {
    CountedMajority(ms, c.hist, n, c.nodes[n], k);
    CountedIsOnLog(ms, c, n, k);
  }

  lemma FastCommitShape(ms: Members, c: State, n: PeerId, k: nat)
    requires Enabled(ms, c, FastCommit(n, k))
    ensures CommitStep(c, n, k, Apply(ms, c, FastCommit(n, k)))
  {
  }

  lemma TipIsLength(c: State, n: PeerId)
    requires LM.NodesInv(c) && LM.TermsInv(c.hist) && n in c.nodes
    ensures TipIndex(c.nodes[n].log) == |c.nodes[n].log|
  {
    assert LM.NodeOk(c.hist, n, c.nodes[n]);
    LM.AnchoredLength(c.hist, c.nodes[n].log);
  }

  lemma LeaderCommits(ms: Members, c: State, n: PeerId, k: nat)
    requires LM.NodesInv(c) && LM.TermsInv(c.hist) && ES.LeadInv(c) && Distinct(ms.voters)
    requires AcksInv(c) && SelfInv(c.hist) && NodesInv(ms, c)
    requires n in c.nodes && c.nodes[n].role == Leader && 1 <= k <= |c.nodes[n].log|
    requires c.nodes[n].log[k - 1].term == c.nodes[n].term
    requires MajorityAcked(c.nodes[n].progress, n, TipIndex(c.nodes[n].log), ms.voters, k)
    ensures Rightful(c.hist, n, c.nodes[n]) && Committed(ms, c.hist, c.nodes[n].term, k)
  {
    LeaderIsRightful(c, n);
    TipIsLength(c, n);
    assert NodeOk(ms, c.hist, c.nodes[n]);
    RightfulCommits(ms, c, n, k);
  }

  lemma FastCommitKeeps(ms: Members, c: State, n: PeerId, k: nat)
    requires FullInv(ms, c) && Enabled(ms, c, FastCommit(n, k)) && ES.BallotInv(Apply(ms, c, FastCommit(n, k)))
    ensures Inv(ms, Apply(ms, c, FastCommit(n, k)))
  {
    LeaderCommits(ms, c, n, k);
    FastCommitShape(ms, c, n, k);
    CommitStepKeeps(ms, c, n, k, Apply(ms, c, FastCommit(n, k)));
  }

  /** The run loop's advance changes nothing, or moves to a majority-held index whose entry is of the current term. */
  lemma AdvanceShape(nd: Node, voters: seq<PeerId>, n: PeerId)
    ensures var nd' := AdvanceCommit(nd, Simple(voters), n);
            || nd' == nd
            || (&& voters != [] && nd'.commit > nd.commit && nd' == nd.(commit := nd'.commit)
                && MajorityAcked(nd.progress, n, TipIndex(nd.log), voters, nd'.commit)
                && (|voters| == 1 || nd.progress != map[]) && nd.log != []
                && (nd'.commit <= |nd.log| ==> nd.log[nd'.commit - 1].term == nd.term))
  {
    if voters != [] {
      var q := QuorumIndex(nd.progress, n, TipIndex(nd.log), voters);
      QuorumIndexIsGreatest(nd.progress, n, TipIndex(nd.log), voters, q.value);
    }
  }

  /** Counting alone: with nobody tracked, a sole voter's majority is the voter itself. */
  lemma SoleMajority(n: PeerId, last: nat, voters: seq<PeerId>, k: nat)
    requires |voters| == 1 && k >= 1 && MajorityAcked(map[], n, last, voters, k)
    ensures voters == [n] && k <= last
  {
    var acks := Acks(map[], n, last, voters);
    assert acks == [AckOf(map[], n, last, voters[0])];
    assert CountAtLeast(acks, k) == (if acks[0] >= k then 1 else 0) + CountAtLeast(acks[1..], k);
  }

  lemma CommitterIsRightful(ms: Members, c: State, n: PeerId, k: nat)
    requires FullInv(ms, c) && n in c.nodes && k >= 1
    requires MajorityAcked(c.nodes[n].progress, n, |c.nodes[n].log|, ms.voters, k) && ms.voters != []
    requires |ms.voters| == 1 || c.nodes[n].progress != map[]
    requires k <= |c.nodes[n].log| ==> c.nodes[n].log[k - 1].term == c.nodes[n].term
    ensures Rightful(c.hist, n, c.nodes[n])
  {
    var nd := c.nodes[n];
    assert NodeOk(ms, c.hist, nd) && LM.NodeOk(c.hist, n, nd);
    if nd.progress != map[] {
      LeaderIsRightful(c, n);
    } else {
      SoleMajority(n, |nd.log|, ms.voters, k);
      LM.EntryFacts(c.hist, nd.log, k - 1);
      SoleVoterIsRightful(ms, c, n);
    }
  }

  lemma CommitShape(ms: Members, c: State, n: PeerId)
    requires Enabled(ms, c, Commit(n))
    ensures var c', nd' := Apply(ms, c, Commit(n)), AdvanceCommit(c.nodes[n], Simple(ms.voters), n);
            && (nd'.commit == c.nodes[n].commit ==> PlainStep(c, n, c') && c'.nodes[n] == c.nodes[n])
            && (nd'.commit != c.nodes[n].commit ==> CommitStep(c, n, nd'.commit, c'))
  {
    AdvanceShape(c.nodes[n], ms.voters, n);
  }

  lemma CommitKeeps(ms: Members, c: State, n: PeerId)
    requires FullInv(ms, c) && Enabled(ms, c, Commit(n)) && ES.BallotInv(Apply(ms, c, Commit(n)))
    ensures Inv(ms, Apply(ms, c, Commit(n)))
  {
    var nd := c.nodes[n];
    var k := AdvanceCommit(nd, Simple(ms.voters), n).commit;
    CommitShape(ms, c, n);
    assert NodeOk(ms, c.hist, nd);
    if k == nd.commit {
      PlainKeeps(ms, c, n, Apply(ms, c, Commit(n)));
    } else {
      AdvanceShape(nd, ms.voters, n);
      TipIsLength(c, n);
      CommitterIsRightful(ms, c, n, k);
      RightfulCommits(ms, c, n, k);
      CommitStepKeeps(ms, c, n, k, Apply(ms, c, Commit(n)));
    }
  }
}
