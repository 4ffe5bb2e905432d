/** Linearizable reads: a confirmed round proves nobody had superseded the leader when the round began. */
module ReadIndex {
  import opened Types
  import opened Quorums
  import opened NodeSpec
  import opened Cluster
  import opened Prefix
  import ES = ElectionSafety
  import LM = LogMatching
  import CS = CommitSafety
  import SM = StateMachineSafety

  // ------------------------------------------------------------------ tokens

  /** How many confirmation rounds `n` has begun. */
  function Rounds(steps: seq<Step>, n: PeerId): nat {
    if steps == [] then 0
    else Rounds(steps[..|steps| - 1], n) + (if steps[|steps| - 1] == StartRound(n) then 1 else 0)
  }

  /** The process of `n` runs through: it is never restarted and its token counter does not wrap. */
  predicate OneProcess(steps: seq<Step>, n: PeerId) {
    Restart(n) !in steps && Rounds(steps, n) <= U32_MAX
  }

  /** The token is the number of rounds begun; nothing sent by `n` or answered to it carries a later one. */
  ghost predicate TokenInv(c: State, n: PeerId, rounds: nat) {
    && n in c.nodes && c.nodes[n].probe == rounds
    && (forall m :: m in c.net && m.Append? && m.src == n ==> m.probe <= rounds)
    && (forall m :: m in c.net && m.AppendResp? && m.dst == n ==> m.probe <= rounds)
  }

  lemma TokenStep(ms: Members, c: State, s: Step, n: PeerId, rounds: nat)
    requires TokenInv(c, n, rounds) && Enabled(ms, c, s) && s != Restart(n)
    requires s == StartRound(n) ==> rounds < U32_MAX
    ensures TokenInv(Apply(ms, c, s), n, if s == StartRound(n) then rounds + 1 else rounds)
  {
  }

  lemma {:induction false} TokensCountRounds(ms: Members, ids: set<PeerId>, steps: seq<Step>, n: PeerId)
    requires Exec(ms, ids, steps).Some? && n in ids && OneProcess(steps, n)
    ensures TokenInv(Exec(ms, ids, steps).value, n, Rounds(steps, n))
  {
    if steps != [] {
      var front := steps[..|steps| - 1];
      assert forall x :: x in front ==> x in steps;
      TokensCountRounds(ms, ids, front, n);
      TokenStep(ms, Exec(ms, ids, front).value, steps[|steps| - 1], n, Rounds(front, n));
    }
  }

  // ---------------------------------------------------------------- one round

  /** An answer that `n` would count, at the term it has in `c0` and with token `p`, came from a node in no later term. */
  predicate AnswerFresh(c0: State, n: PeerId, p: nat, m: Msg) {
    m.AppendResp? && m.dst == n && m.probe == p && n in c0.nodes && m.term == c0.nodes[n].term ==>
      m.src in c0.nodes && c0.nodes[m.src].term <= m.term
  }

  /** Nothing already buffered would be counted falsely by a round that `n` begins now. */
  ghost predicate NoStaleAnswer(c: State, n: PeerId) {
    n in c.nodes &&
    forall m {:trigger AnswerFresh(c, n, NextProbe(c.nodes[n].probe), m)} :: m in c.net ==>
      AnswerFresh(c, n, NextProbe(c.nodes[n].probe), m)
  }

  ghost predicate TermsRise(c0: State, c: State) {
    forall v :: v in c0.nodes ==> v in c.nodes && c0.nodes[v].term <= c.nodes[v].term
  }

  /** The round's record: who was counted was, when the round began, in no later term than the round's. */
  ghost predicate RoundOk(ms: Members, c0: State, n: PeerId, r: Round) {
    && n in c0.nodes && c0.nodes[n].term == r.term && c0.nodes[n].commit == r.readIndex
    && Distinct(r.acks)
    && (forall v :: v in r.acks ==> v in c0.nodes && c0.nodes[v].term <= r.term && (v == n || v in ms.voters))
  }

  /** The round begun at `c0` with token `p` is the active one. */
  ghost predicate RoundInv(ms: Members, c0: State, c: State, n: PeerId, p: nat) {
    && n in c.nodes && c.nodes[n].round.Some? && c.nodes[n].round.value.probe == p
    && RoundOk(ms, c0, n, c.nodes[n].round.value)
    && TermsRise(c0, c)
    && (forall m {:trigger AnswerFresh(c0, n, p, m)} :: m in c.net ==> AnswerFresh(c0, n, p, m))
  }

  lemma TermsOnlyRise(ms: Members, c: State, s: Step)
    requires Enabled(ms, c, s) && KeepsVote(c, s)
    ensures TermsRise(c, Apply(ms, c, s))
  {
  }

  /** Whatever an append is answered with, the answer names the receiver's term and the request's token. */
  lemma AnswersAreTruthful(ms: Members, c: State, s: Step, m: Msg)
    requires Enabled(ms, c, s) && m in Apply(ms, c, s).net && m !in c.net && m.AppendResp?
    ensures m.src in c.nodes && c.nodes[m.src].term <= m.term
  {
  }

  lemma CountedOnce(ms: Members, c0: State, c: State, n: PeerId, p: nat, m: Msg)
    requires RoundInv(ms, c0, c, n, p) && m in c.net && m.AppendResp? && m.dst == n
    ensures var nd' := CountRoundAck(c.nodes[n], ms.voters, m.src, m.term, m.probe);
            nd'.round.Some? && nd'.round.value.probe == p && RoundOk(ms, c0, n, nd'.round.value)
  {
    assert AnswerFresh(c0, n, p, m);
    var r := c.nodes[n].round.value;
    var r' := CountRoundAck(c.nodes[n], ms.voters, m.src, m.term, m.probe).round.value;
    assert r' == r || r'.acks == r.acks + [m.src];
  }

  lemma RoundStays(ms: Members, c: State, s: Step, n: PeerId)
    requires Enabled(ms, c, s) && n in c.nodes && s != Restart(n) && s != StartRound(n)
    ensures n in Apply(ms, c, s).nodes
    ensures Apply(ms, c, s).nodes[n].round ==
            (if s.DeliverAppendReply? && s.n == n
             then CountRoundAck(c.nodes[n], ms.voters, s.m.src, s.m.term, s.m.probe).round
             else c.nodes[n].round)
  {
  }

  lemma RoundStep(ms: Members, c0: State, c: State, s: Step, n: PeerId, p: nat)
    requires RoundInv(ms, c0, c, n, p) && c.nodes.Keys == c0.nodes.Keys
    requires Enabled(ms, c, s) && KeepsVote(c, s) && s != Restart(n) && s != StartRound(n)
    ensures RoundInv(ms, c0, Apply(ms, c, s), n, p)
  {
    var c' := Apply(ms, c, s);
    TermsOnlyRise(ms, c, s);
    RoundStays(ms, c, s, n);
    if s.DeliverAppendReply? && s.n == n { CountedOnce(ms, c0, c, n, p, s.m); }
    forall m | m in c'.net
      ensures AnswerFresh(c0, n, p, m)
    {
      if m !in c.net && m.AppendResp? { AnswersAreTruthful(ms, c, s, m); }
    }
  }

  /** A round begins well exactly when no buffered answer is stale. */
  lemma RoundBeginsIff(ms: Members, c0: State, n: PeerId)
    requires Enabled(ms, c0, StartRound(n))
    ensures RoundInv(ms, c0, Apply(ms, c0, StartRound(n)), n, NextProbe(c0.nodes[n].probe)) <==> NoStaleAnswer(c0, n)
  {
    var c, p := Apply(ms, c0, StartRound(n)), NextProbe(c0.nodes[n].probe);
    assert c.nodes[n].round.value.acks == [n] && c.net == c0.net;
    forall m | m in c.net
      ensures RoundInv(ms, c0, c, n, p) ==> AnswerFresh(c0, n, p, m)
      ensures NoStaleAnswer(c0, n) ==> AnswerFresh(c0, n, p, m)
    {
    }
  }

  lemma {:induction false} RoundsSplit(steps: seq<Step>, s: nat, n: PeerId)
    requires s <= |steps|
    ensures Rounds(steps[..s], n) <= Rounds(steps, n)
    ensures s < |steps| && steps[s] == StartRound(n) ==> Rounds(steps[..s], n) < Rounds(steps, n)
  {
    if s < |steps| {
      var front := steps[..|steps| - 1];
      RoundsSplit(front, s, n);
      assert front[..s] == steps[..s];
    } else {
      assert steps[..s] == steps;
    }
  }

  /** `n` begins a round at step `s` and neither restarts nor begins another until the end. */
  predicate RoundRun(steps: seq<Step>, s: nat, n: PeerId) {
    && s < |steps| && steps[s] == StartRound(n)
    && (forall j :: s < j < |steps| ==> steps[j] != StartRound(n) && steps[j] != Restart(n))
  }

  /** The token of the round begun in `c`. */
  function Token(c: State, n: PeerId): nat
    requires n in c.nodes
  {
    NextProbe(c.nodes[n].probe)
  }

  lemma {:induction false} RoundRuns(ms: Members, ids: set<PeerId>, steps: seq<Step>, s: nat, n: PeerId)
    requires VoteSafeRun(ms, ids, steps) && RoundRun(steps, s, n)
    requires Exec(ms, ids, steps[..s]).Some? && NoStaleAnswer(Exec(ms, ids, steps[..s]).value, n)
    ensures Exec(ms, ids, steps).Some?
    ensures RoundInv(ms, Exec(ms, ids, steps[..s]).value, Exec(ms, ids, steps).value, n,
                     Token(Exec(ms, ids, steps[..s]).value, n))
    decreases |steps|
  {
    ES.RunKeeps(ms, ids, steps);
    ES.PrefixOfRun(ms, ids, steps, s);
    ES.RunKeeps(ms, ids, steps[..s]);
    var c0 := Exec(ms, ids, steps[..s]).value;
    var front := steps[..|steps| - 1];
    if s == |steps| - 1 {
      RoundBeginsIff(ms, c0, n);
    } else {
      assert front[..s] == steps[..s];
      RoundRuns(ms, ids, front, s, n);
      ES.RunKeeps(ms, ids, front);
      RoundStep(ms, c0, Exec(ms, ids, front).value, steps[|steps| - 1], n, Token(c0, n));
    }
  }

  // ------------------------------------------------------------- the theorems

  /** A majority that is in no later term than `t` leaves room for no later election. */
  lemma MajorityHoldsBack(ms: Members, c: State, acks: seq<PeerId>, t: nat, t': nat)
    requires ES.WinInv(ms, c) && ES.BallotInv(c) && Distinct(ms.voters)
    requires VoteList(Simple(ms.voters), acks) && VoterMajority(Simple(ms.voters), acks)
    requires forall v :: v in acks ==> v in c.nodes && c.nodes[v].term <= t
    requires t' in c.hist.wins
    ensures t' <= t
  {
    assert ES.WonOk(ms, c, t');
    VotesCoverSide(Simple(ms.voters), acks, ms.voters);
    var v := MajoritiesMeet(ms.voters, Elements(acks), c.hist.wins[t'].quorum);
    assert ES.Voted(c.hist, v, t', c.hist.wins[t'].leader);
  }

  /**
   ReadIndex freshness: if the round `n` began at step `s` is confirmed at the end
   of the run, no election of a later term had been won when the round began,
   provided no answer buffered at that moment was stale.
   */
  lemma NobodyHadTakenOver(ms: Members, ids: set<PeerId>, steps: seq<Step>, s: nat, n: PeerId, t': nat)
    requires VoteSafeRun(ms, ids, steps) && RoundRun(steps, s, n)
    requires Exec(ms, ids, steps[..s]).Some? && NoStaleAnswer(Exec(ms, ids, steps[..s]).value, n)
    requires Exec(ms, ids, steps).Some?
    requires n in Exec(ms, ids, steps).value.nodes && RoundConfirmed(Exec(ms, ids, steps).value.nodes[n], ms.voters)
    requires t' in Exec(ms, ids, steps[..s]).value.hist.wins
    ensures t' <= Exec(ms, ids, steps).value.nodes[n].round.value.term
  {
    RoundRuns(ms, ids, steps, s, n);
    ES.PrefixOfRun(ms, ids, steps, s);
    ES.RunKeeps(ms, ids, steps[..s]);
    ES.RunKeeps(ms, ids, steps);
    var c0, c := Exec(ms, ids, steps[..s]).value, Exec(ms, ids, steps).value;
    var r := c.nodes[n].round.value;
    ES.LeaderVotes(ms, c, n);
    MajorityHoldsBack(ms, c0, r.acks, r.term, t');
  }

  // ----------------------------------------------------------- the read point

  /** Some leader up to `term` recorded committing index `k` or more. */
  ghost predicate Covered(h: History, term: nat, k: nat) {
    k == 0 || exists t :: t in h.done && t <= term && k <= h.done[t]
  }

  /** Every commit index a node holds or advertises was committed by some leader. */
  ghost predicate CoverInv(c: State) {
    && (forall n {:trigger c.nodes[n].commit} :: n in c.nodes ==> Covered(c.hist, c.nodes[n].term, c.nodes[n].commit))
    && (forall m {:trigger m.commit} :: m in c.net && m.Append? ==> Covered(c.hist, m.term, m.commit))
  }

  /** A leader knows everything committed in its own term. */
  ghost predicate LeadDone(c: State) {
    forall n {:trigger c.nodes[n].role} :: n in c.nodes && c.nodes[n].role == Leader && c.nodes[n].term in c.hist.done ==>
      c.hist.done[c.nodes[n].term] <= c.nodes[n].commit
  }

  ghost predicate DoneGrows(h: History, h': History) {
    forall t :: t in h.done ==> t in h'.done && h.done[t] <= h'.done[t]
  }

  lemma StaysCovered(h: History, h': History, term: nat, term': nat, k: nat)
    requires Covered(h, term, k) && DoneGrows(h, h') && term <= term'
    ensures Covered(h', term', k)
  {
  }

  lemma StepDoneGrows(ms: Members, c: State, s: Step)
    requires Enabled(ms, c, s)
    ensures DoneGrows(c.hist, Apply(ms, c, s).hist)
  {
  }

  /** Where a commit index comes from: kept, forgotten, recorded now, or learned from a message. */
  ghost predicate CommitSource(c: State, s: Step, c': State)
    requires s.n in c.nodes && s.n in c'.nodes
  {
    var nd, nd' := c.nodes[s.n], c'.nodes[s.n];
    && nd'.term >= nd.term
    && (|| nd'.commit <= nd.commit
        || (nd'.term in c'.hist.done && nd'.commit <= c'.hist.done[nd'.term])
        || (s.DeliverAppend? && s.m in c.net && s.m.Append? && s.m.term <= nd'.term && nd'.commit <= s.m.commit))
    && (forall m :: m in c'.net && m !in c.net && m.Append? ==> m.term == nd.term && m.commit == nd.commit)
  }

  lemma AppendCommitSource(ms: Members, c: State, n: PeerId, m: Msg)
    requires Enabled(ms, c, DeliverAppend(n, m))
    ensures CommitSource(c, DeliverAppend(n, m), Apply(ms, c, DeliverAppend(n, m)))
  {
  }

  lemma CommitCommitSource(ms: Members, c: State, n: PeerId)
    requires Enabled(ms, c, Commit(n))
    ensures CommitSource(c, Commit(n), Apply(ms, c, Commit(n)))
  {
  }

  lemma OtherCommitSource(ms: Members, c: State, s: Step)
    requires Enabled(ms, c, s) && KeepsVote(c, s) && !s.DeliverAppend? && !s.Commit?
    ensures CommitSource(c, s, Apply(ms, c, s))
  {
  }

  lemma CommitSources(ms: Members, c: State, s: Step)
    requires Enabled(ms, c, s) && KeepsVote(c, s)
    ensures ES.OnlyNode(c, s.n, Apply(ms, c, s)) && CommitSource(c, s, Apply(ms, c, s))
  {
    match s
    case DeliverAppend(n, m) => AppendCommitSource(ms, c, n, m);
    case Commit(n) => CommitCommitSource(ms, c, n);
    case _ => OtherCommitSource(ms, c, s);
  }

  lemma CoveredBelow(h: History, term: nat, k: nat, j: nat)
    requires Covered(h, term, k) && j <= k
    ensures Covered(h, term, j)
  {
  }

  lemma CoverStep(c: State, s: Step, c': State)
    requires CoverInv(c) && ES.OnlyNode(c, s.n, c') && DoneGrows(c.hist, c'.hist) && CommitSource(c, s, c')
    ensures CoverInv(c')
  {
    var nd, nd' := c.nodes[s.n], c'.nodes[s.n];
    StaysCovered(c.hist, c'.hist, nd.term, nd.term, nd.commit);
    StaysCovered(c.hist, c'.hist, nd.term, nd'.term, nd.commit);
    if nd'.commit <= nd.commit {
      CoveredBelow(c'.hist, nd'.term, nd.commit, nd'.commit);
    } else if s.DeliverAppend? && s.m in c.net && s.m.Append? && s.m.term <= nd'.term && nd'.commit <= s.m.commit {
      StaysCovered(c.hist, c'.hist, s.m.term, nd'.term, s.m.commit);
      CoveredBelow(c'.hist, nd'.term, s.m.commit, nd'.commit);
    }
    assert Covered(c'.hist, nd'.term, nd'.commit);
    forall p | p in c'.nodes
      ensures Covered(c'.hist, c'.nodes[p].term, c'.nodes[p].commit)
    {
      if p != s.n { StaysCovered(c.hist, c'.hist, c.nodes[p].term, c.nodes[p].term, c.nodes[p].commit); }
    }
    forall m | m in c'.net && m.Append?
      ensures Covered(c'.hist, m.term, m.commit)
    {
      if m in c.net { StaysCovered(c.hist, c'.hist, m.term, m.term, m.commit); }
    }
  }

  /** Only the leader of a term records commits in it, and then knows them. */
  ghost predicate DoneByLeader(c: State, n: PeerId, c': State)
    requires n in c.nodes && n in c'.nodes
  {
    var nd, nd' := c.nodes[n], c'.nodes[n];
    && (nd'.role == Leader && nd.role == Leader && nd'.term == nd.term ==> nd'.commit >= nd.commit)
    && (nd'.role == Leader && !(nd.role == Leader && nd'.term == nd.term) ==> nd'.term !in c'.hist.done)
    && (|| c'.hist.done == c.hist.done
        || (&& CS.Rightful(c.hist, n, nd) && nd'.term == nd.term && nd'.role == nd.role && nd.commit < nd'.commit
            && c'.hist.done == RecordDone(c.hist, nd.term, nd'.commit).done))
  }

  lemma LeadDoneStep(c: State, n: PeerId, c': State)
    requires LeadDone(c) && ES.LeadInv(c) && ES.OnlyNode(c, n, c') && DoneByLeader(c, n, c')
    ensures LeadDone(c')
  {
    forall p | p in c'.nodes && c'.nodes[p].role == Leader && c'.nodes[p].term in c'.hist.done
      ensures c'.hist.done[c'.nodes[p].term] <= c'.nodes[p].commit
    {
    }
  }

  lemma WinNotDone(ms: Members, c: State, n: PeerId)
    requires CS.DoneInv(ms, c.hist) && LM.TermsInv(c.hist) && n in c.nodes && c.nodes[n].term !in c.hist.wins
    ensures c.nodes[n].term !in c.hist.done
  {
    if c.nodes[n].term in c.hist.done { DoneWasWon(ms, c, c.nodes[n].term); }
  }

  lemma DoneWasWon(ms: Members, c: State, t: nat)
    requires CS.DoneInv(ms, c.hist) && LM.TermsInv(c.hist) && t in c.hist.done
    ensures t in c.hist.wins && CS.Committed(ms, c.hist, t, c.hist.done[t])
  {
    assert CS.Committed(ms, c.hist, t, c.hist.done[t]);
  }

  lemma QuietDone(ms: Members, c: State, s: Step)
    requires Enabled(ms, c, s) && KeepsVote(c, s) && !s.Win? && !s.Commit? && !s.FastCommit?
    ensures DoneByLeader(c, s.n, Apply(ms, c, s))
  {
  }

  lemma WinDone(ms: Members, c: State, n: PeerId)
    requires Enabled(ms, c, Win(n)) && c.nodes[n].term !in c.hist.done
    ensures DoneByLeader(c, n, Apply(ms, c, Win(n)))
  {
  }

  lemma CommitDone(ms: Members, c: State, n: PeerId)
    requires CS.FullInv(ms, c) && Enabled(ms, c, Commit(n))
    ensures DoneByLeader(c, n, Apply(ms, c, Commit(n)))
  {
    var nd := c.nodes[n];
    var k := AdvanceCommit(nd, Simple(ms.voters), n).commit;
    CS.CommitShape(ms, c, n);
    if k != nd.commit {
      CS.AdvanceShape(nd, ms.voters, n);
      CS.TipIsLength(c, n);
      CS.CommitterIsRightful(ms, c, n, k);
    }
  }

  lemma FastCommitDone(ms: Members, c: State, n: PeerId, k: nat)
    requires CS.FullInv(ms, c) && Enabled(ms, c, FastCommit(n, k))
    ensures DoneByLeader(c, n, Apply(ms, c, FastCommit(n, k)))
  {
    CS.FastCommitShape(ms, c, n, k);
    CS.LeaderIsRightful(c, n);
  }

  lemma DoneStep(ms: Members, c: State, s: Step)
    requires CS.FullInv(ms, c) && Enabled(ms, c, s) && KeepsVote(c, s)
    ensures s.n in Apply(ms, c, s).nodes && DoneByLeader(c, s.n, Apply(ms, c, s))
  {
    match s
    case Win(n) =>
      ES.WinIsNew(ms, c, n);
      WinNotDone(ms, c, n);
      WinDone(ms, c, n);
    case Commit(n) => CommitDone(ms, c, n);
    case FastCommit(n, k) => FastCommitDone(ms, c, n, k);
    case _ => QuietDone(ms, c, s);
  }

  lemma {:induction false} RunCovers(ms: Members, ids: set<PeerId>, steps: seq<Step>)
    requires AckSafeRun(ms, ids, steps)
    ensures Exec(ms, ids, steps).Some? && CoverInv(Exec(ms, ids, steps).value) && LeadDone(Exec(ms, ids, steps).value)
  {
    SM.RunKeeps(ms, ids, steps);
    if steps != [] {
      var front := steps[..|steps| - 1];
      RunCovers(ms, ids, front);
      SM.RunKeeps(ms, ids, front);
      var c, s := Exec(ms, ids, front).value, steps[|steps| - 1];
      CommitSources(ms, c, s);
      StepDoneGrows(ms, c, s);
      CoverStep(c, s, Apply(ms, c, s));
      DoneStep(ms, c, s);
      LeadDoneStep(c, s.n, Apply(ms, c, s));
    }
  }

  lemma {:induction false} RunDoneGrows(ms: Members, ids: set<PeerId>, steps: seq<Step>, i: nat)
    requires i <= |steps| && Exec(ms, ids, steps[..i]).Some? && Exec(ms, ids, steps).Some?
    ensures DoneGrows(Exec(ms, ids, steps[..i]).value.hist, Exec(ms, ids, steps).value.hist)
  {
    if i < |steps| {
      var front := steps[..|steps| - 1];
      assert front[..i] == steps[..i];
      RunDoneGrows(ms, ids, front, i);
      StepDoneGrows(ms, Exec(ms, ids, front).value, steps[|steps| - 1]);
    } else {
      assert steps[..i] == steps;
    }
  }

  /** The guard of a read: the newest committed entry is of the leader's own term. */
  predicate ReadGuard(nd: Node) {
    nd.commit > 0 && TermOf(nd.log, nd.commit) == Some(nd.term)
  }

  /** A leader that meets the guard has committed past everything its predecessors committed. */
  lemma GuardCovers(ms: Members, c: State, n: PeerId, t: nat)
    requires CS.FullInv(ms, c) && LeadDone(c) && n in c.nodes && c.nodes[n].role == Leader && ReadGuard(c.nodes[n])
    requires t in c.hist.done && t <= c.nodes[n].term
    ensures c.hist.done[t] <= c.nodes[n].commit
  {
    var nd, h := c.nodes[n], c.hist;
    DoneWasWon(ms, c, t);
    CS.LeaderIsRightful(c, n);
    if t < nd.term {
      CS.LeaderComplete(ms, c, t, h.done[t], nd.term);
      PastBase(h, nd, h.done[t], t);
    }
  }

  lemma PastBase(h: History, nd: Node, k: nat, t: nat)
    requires LM.TermsInv(h) && nd.term in h.wins && nd.term in h.tlog && nd.log == h.tlog[nd.term] && ReadGuard(nd)
    requires t in h.tlog && k > 0 && Same(h.tlog[t], h.wins[nd.term].base, k)
    ensures k <= nd.commit
  {
    var base := h.wins[nd.term].base;
    assert LM.TermOk(h, nd.term);
    SameAt(h.tlog[t], base, k, k - 1);
    if nd.commit < k {
      SameAt(base, nd.log, |base|, nd.commit - 1);
      LM.EntryFacts(h, base, nd.commit - 1);
      assert false;
    }
  }

  /**
   Linearizability of the read point: when a round that began at step `s` under
   the guard is confirmed, the recorded read index is at least every commit
   index any node had held at any moment up to `s`.
   */
  lemma ReadPointCovers(ms: Members, ids: set<PeerId>, steps: seq<Step>, s: nat, n: PeerId, i: nat, b: PeerId)
    requires AckSafeRun(ms, ids, steps) && RoundRun(steps, s, n) && i <= s
    requires Exec(ms, ids, steps[..i]).Some? && b in Exec(ms, ids, steps[..i]).value.nodes
    requires Exec(ms, ids, steps[..s]).Some? && NoStaleAnswer(Exec(ms, ids, steps[..s]).value, n)
    requires ReadGuard(Exec(ms, ids, steps[..s]).value.nodes[n])
    requires Exec(ms, ids, steps).Some? && n in Exec(ms, ids, steps).value.nodes
    requires RoundConfirmed(Exec(ms, ids, steps).value.nodes[n], ms.voters)
    ensures Exec(ms, ids, steps[..i]).value.nodes[b].commit <= Exec(ms, ids, steps).value.nodes[n].round.value.readIndex
  {
    AckSafeIsVoteSafe(ms, ids, steps);
    RoundRuns(ms, ids, steps, s, n);
    SM.PrefixOfRun(ms, ids, steps, s);
    SM.PrefixOfRun(ms, ids, steps, i);
    var x, c0 := Exec(ms, ids, steps[..i]).value, Exec(ms, ids, steps[..s]).value;
    RunCovers(ms, ids, steps[..i]);
    assert Covered(x.hist, x.nodes[b].term, x.nodes[b].commit);
    if x.nodes[b].commit > 0 {
      var t :| t in x.hist.done && t <= x.nodes[b].term && x.nodes[b].commit <= x.hist.done[t];
      assert steps[..s][..i] == steps[..i];
      RunDoneGrows(ms, ids, steps[..s], i);
      StartedAsLeader(ms, ids, steps, s, n);
      CoversAt(ms, ids, steps, s, n, t);
    }
  }

  lemma StartedAsLeader(ms: Members, ids: set<PeerId>, steps: seq<Step>, s: nat, n: PeerId)
    requires VoteSafeRun(ms, ids, steps) && s < |steps| && steps[s] == StartRound(n)
    ensures Exec(ms, ids, steps[..s]).Some? && n in Exec(ms, ids, steps[..s]).value.nodes
    ensures Exec(ms, ids, steps[..s]).value.nodes[n].role == Leader
  {
    ES.PrefixOfRun(ms, ids, steps, s + 1);
    assert steps[..s + 1][..s] == steps[..s];
  }

  lemma CoversAt(ms: Members, ids: set<PeerId>, steps: seq<Step>, s: nat, n: PeerId, t: nat)
    requires AckSafeRun(ms, ids, steps) && RoundRun(steps, s, n)
    requires Exec(ms, ids, steps[..s]).Some? && NoStaleAnswer(Exec(ms, ids, steps[..s]).value, n)
    requires ReadGuard(Exec(ms, ids, steps[..s]).value.nodes[n])
    requires Exec(ms, ids, steps[..s]).value.nodes[n].role == Leader
    requires Exec(ms, ids, steps).Some? && n in Exec(ms, ids, steps).value.nodes
    requires RoundConfirmed(Exec(ms, ids, steps).value.nodes[n], ms.voters)
    requires t in Exec(ms, ids, steps[..s]).value.hist.done
    ensures Exec(ms, ids, steps[..s]).value.hist.done[t] <= Exec(ms, ids, steps).value.nodes[n].round.value.readIndex
  {
    AckSafeIsVoteSafe(ms, ids, steps);
    SM.PrefixOfRun(ms, ids, steps, s);
    SM.RunKeeps(ms, ids, steps[..s]);
    RunCovers(ms, ids, steps[..s]);
    RoundRuns(ms, ids, steps, s, n);
    var c0 := Exec(ms, ids, steps[..s]).value;
    DoneWasWon(ms, c0, t);
    NobodyHadTakenOver(ms, ids, steps, s, n, t);
    GuardCovers(ms, c0, n, t);
  }

  // ------------------------------------------------- where no answer is stale

  /** Tokens that count rounds are new: within one process the condition holds at every round. */
  lemma NewTokenIsFresh(c: State, n: PeerId, rounds: nat)
    requires TokenInv(c, n, rounds) && rounds < U32_MAX
    ensures NoStaleAnswer(c, n)
  {
    forall m | m in c.net
      ensures AnswerFresh(c, n, NextProbe(c.nodes[n].probe), m)
    {
    }
  }

  lemma OneProcessIsFresh(ms: Members, ids: set<PeerId>, steps: seq<Step>, s: nat, n: PeerId)
    requires n in ids && s < |steps| && steps[s] == StartRound(n) && OneProcess(steps, n)
    requires Exec(ms, ids, steps[..s]).Some?
    ensures NoStaleAnswer(Exec(ms, ids, steps[..s]).value, n)
  {
    assert forall x :: x in steps[..s] ==> x in steps;
    RoundsSplit(steps, s, n);
    TokensCountRounds(ms, ids, steps[..s], n);
    NewTokenIsFresh(Exec(ms, ids, steps[..s]).value, n, Rounds(steps[..s], n));
  }

  /** Both theorems for a process that runs through: never restarted, its token counter not wrapped. */
  lemma ReadsInOneProcess(ms: Members, ids: set<PeerId>, steps: seq<Step>, s: nat, n: PeerId, i: nat, b: PeerId, t': nat)
    requires AckSafeRun(ms, ids, steps) && n in ids && RoundRun(steps, s, n) && OneProcess(steps, n) && i <= s
    requires Exec(ms, ids, steps[..i]).Some? && b in Exec(ms, ids, steps[..i]).value.nodes
    requires Exec(ms, ids, steps[..s]).Some? && n in Exec(ms, ids, steps[..s]).value.nodes
    requires Exec(ms, ids, steps).Some? && n in Exec(ms, ids, steps).value.nodes
    requires RoundConfirmed(Exec(ms, ids, steps).value.nodes[n], ms.voters)
    ensures var c0, r := Exec(ms, ids, steps[..s]).value, Exec(ms, ids, steps).value.nodes[n].round.value;
            && (t' in c0.hist.wins ==> t' <= r.term)
            && (ReadGuard(c0.nodes[n]) ==> Exec(ms, ids, steps[..i]).value.nodes[b].commit <= r.readIndex)
  {
    OneProcessIsFresh(ms, ids, steps, s, n);
    AckSafeIsVoteSafe(ms, ids, steps);
    if t' in Exec(ms, ids, steps[..s]).value.hist.wins { NobodyHadTakenOver(ms, ids, steps, s, n, t'); }
    if ReadGuard(Exec(ms, ids, steps[..s]).value.nodes[n]) { ReadPointCovers(ms, ids, steps, s, n, i, b); }
  }
}
