/**
 Runs that show each condition of the safety theorems is needed: every run here
 meets all conditions but one, and the conclusion fails.
 */
module Counterexamples {
  import opened Types
  import opened Quorums
  import opened NodeSpec
  import opened Cluster
  import ES = ElectionSafety
  import Repair
  import ReadIndex

  /** Which conditions the steps of a run keep to. */
  datatype Rules = Rules(once: bool, terms: bool, tips: bool, replies: bool)

  predicate Meets(r: Rules, c: State, s: Step) {
    && (r.once ==> !VotesAgain(c, s))
    && (r.terms ==> (s.Campaign? && s.n in c.nodes ==> c.nodes[s.n].term < U64_MAX))
    && (r.tips ==> TipOnLeaderLog(c, s)) && (r.replies ==> FreshReply(c, s))
  }

  /** A run from well-formed members that keeps to the given conditions. */
  predicate RunUnder(ms: Members, ids: set<PeerId>, r: Rules, steps: seq<Step>) {
    if steps == [] then WfMembers(ms, ids)
    else
      var front, s := steps[..|steps| - 1], steps[|steps| - 1];
      RunUnder(ms, ids, r, front) &&
      var c := Exec(ms, ids, front);
      c.Some? && Enabled(ms, c.value, s) && Meets(r, c.value, s)
  }

  /** With all conditions this is the hypothesis of the safety theorems. */
  lemma {:induction false} AllRules(ms: Members, ids: set<PeerId>, steps: seq<Step>)
    ensures RunUnder(ms, ids, Rules(true, true, true, true), steps) <==> AckSafeRun(ms, ids, steps)
    ensures RunUnder(ms, ids, Rules(true, true, false, false), steps) <==> VoteSafeRun(ms, ids, steps)
  {
    if steps != [] { AllRules(ms, ids, steps[..|steps| - 1]); }
  }

  /** The run ends in `c`. Stated under a key, so that proofs about long runs unfold it only in `Unfold` and `Fold`. */
  ghost predicate Reaches(ms: Members, ids: set<PeerId>, r: Rules, steps: seq<Step>, c: State) {
    forall k: nat {:trigger Key(k)} :: Key(k) ==> RunUnder(ms, ids, r, steps) && Exec(ms, ids, steps) == Some(c)
  }

  lemma Unfold(ms: Members, ids: set<PeerId>, r: Rules, steps: seq<Step>, c: State)
    requires Reaches(ms, ids, r, steps, c)
    ensures RunUnder(ms, ids, r, steps) && Exec(ms, ids, steps) == Some(c)
  {
    assert Key(0);
  }

  lemma Fold(ms: Members, ids: set<PeerId>, r: Rules, steps: seq<Step>, c: State)
    requires RunUnder(ms, ids, r, steps) && Exec(ms, ids, steps) == Some(c)
    ensures Reaches(ms, ids, r, steps, c)
  {
  }

  /** Two moments of one run. */
  lemma Moments(ms: Members, ids: set<PeerId>, r: Rules, first: seq<Step>, x: State, steps: seq<Step>, y: State)
    requires Reaches(ms, ids, r, first, x) && Reaches(ms, ids, r, steps, y) && first <= steps
    ensures RunUnder(ms, ids, r, steps) && Exec(ms, ids, steps[..|first|]) == Some(x) && Exec(ms, ids, steps) == Some(y)
  {
    assert steps[..|first|] == first;
    Unfold(ms, ids, r, first, x);
    Unfold(ms, ids, r, steps, y);
  }

  lemma Take(ms: Members, ids: set<PeerId>, r: Rules, steps: seq<Step>, c: State, s: Step)
    requires Reaches(ms, ids, r, steps, c) && Enabled(ms, c, s) && Meets(r, c, s)
    ensures Reaches(ms, ids, r, steps + [s], Apply(ms, c, s))
  {
    Unfold(ms, ids, r, steps, c);
    assert (steps + [s])[..|steps|] == steps;
    Fold(ms, ids, r, steps + [s], Apply(ms, c, s));
  }

  // ----------------------------------------------------------------- elections

  /** Nothing was lost: messages stay, and so do elections and term logs. */
  ghost predicate Quiet(c: State, c': State) {
    c.net <= c'.net && c'.hist.tlog == c.hist.tlog && c'.hist.wins == c.hist.wins
  }

  function Request(a: PeerId, v: PeerId, nd: Node): Msg {
    RequestVote(a, v, nd.term, a, TipIndex(nd.log), TipTerm(nd.log))
  }

  lemma Stand(ms: Members, ids: set<PeerId>, r: Rules, steps: seq<Step>, c: State, a: PeerId)
    returns (steps': seq<Step>, c': State)
    requires Reaches(ms, ids, r, steps, c) && a in ms.voters && a in c.nodes && c.nodes[a].role != Leader
    requires r.terms ==> c.nodes[a].term < U64_MAX
    ensures Reaches(ms, ids, r, steps', c') && steps <= steps' && Quiet(c, c')
    ensures c'.nodes == c.nodes[a := StartCampaign(c.nodes[a], a)]
    ensures forall v :: v in ms.voters && v in c.nodes && v != a ==> Request(a, v, c'.nodes[a]) in c'.net
  {
    c', steps' := Apply(ms, c, Campaign(a)), steps + [Campaign(a)];
    Take(ms, ids, r, steps, c, Campaign(a));
  }

  /** Whoever won a term has reached it, whatever the rules. */
  ghost predicate WinnersReached(c: State) {
    ES.TermInv(c) && forall t :: t in c.hist.wins ==> c.hist.wins[t].leader in c.nodes && t <= c.nodes[c.hist.wins[t].leader].term
  }

  lemma TermRises(ms: Members, c: State, s: Step)
    requires Enabled(ms, c, s) && ES.TermInv(c)
    ensures ES.OnlyNode(c, s.n, Apply(ms, c, s)) && c.nodes[s.n].term <= Apply(ms, c, s).nodes[s.n].term
  {
  }

  lemma NewWinner(ms: Members, c: State, s: Step)
    requires Enabled(ms, c, s)
    ensures var c' := Apply(ms, c, s);
            forall t :: t in c'.hist.wins && t !in c.hist.wins ==> c'.hist.wins[t].leader == s.n && t == c.nodes[s.n].term
  {
  }

  lemma WinnersMove(ms: Members, c: State, s: Step)
    requires Enabled(ms, c, s) && WinnersReached(c)
    ensures WinnersReached(Apply(ms, c, s))
  {
    TermRises(ms, c, s);
    NewWinner(ms, c, s);
    ES.StepRecords(ms, c, s);
    ES.TermsFit(ms, c, s);
  }

  lemma {:induction false} RunReaches(ms: Members, ids: set<PeerId>, steps: seq<Step>)
    requires Exec(ms, ids, steps).Some?
    ensures WinnersReached(Exec(ms, ids, steps).value)
  {
    if steps != [] {
      var front := steps[..|steps| - 1];
      RunReaches(ms, ids, front);
      WinnersMove(ms, Exec(ms, ids, front).value, steps[|steps| - 1]);
    }
  }

  /** A vote in a term the voter has not reached is its first in that term. */
  lemma VotesFirst(ms: Members, ids: set<PeerId>, r: Rules, steps: seq<Step>, c: State, v: PeerId, m: Msg)
    requires Reaches(ms, ids, r, steps, c) && v in c.nodes && m.RequestVote? && c.nodes[v].term < m.term
    ensures !VotesAgain(c, DeliverVoteRequest(v, m))
  {
    Unfold(ms, ids, r, steps, c);
    RunReaches(ms, ids, steps);
  }

  /** `v` grants its vote to the candidate `a`, which counts it. */
  lemma Vote(ms: Members, ids: set<PeerId>, r: Rules, steps: seq<Step>, c: State, a: PeerId, v: PeerId)
    returns (steps': seq<Step>, c': State)
    requires Reaches(ms, ids, r, steps, c) && a in c.nodes && v in c.nodes && a != v && v in ms.voters
    requires c.nodes[a].role == Candidate && v !in c.nodes[a].responders && Request(a, v, c.nodes[a]) in c.net
    requires c.nodes[v].term < c.nodes[a].term || (c.nodes[v].term == c.nodes[a].term && c.nodes[v].votedFor == None)
    requires UpToDate(TipIndex(c.nodes[a].log), TipTerm(c.nodes[a].log), c.nodes[v].log)
    requires r.once ==> c.nodes[v].term < c.nodes[a].term
    ensures Reaches(ms, ids, r, steps', c') && steps <= steps' && Quiet(c, c')
    ensures var nd := c.nodes[a];
            c'.nodes == c.nodes[v := Observe(c.nodes[v], nd.term).(votedFor := Some(a))]
                               [a := nd.(responders := nd.responders + [v], granted := nd.granted + [v])]
  {
    var m, g := Request(a, v, c.nodes[a]), VoteResp(v, a, c.nodes[a].term, true);
    var s1, s2 := DeliverVoteRequest(v, m), DeliverVoteReply(a, g);
    var c1 := Granted(ms, c, a, v);
    if r.once { VotesFirst(ms, ids, r, steps, c, v, m); }
    Take(ms, ids, r, steps, c, s1);
    Counted(ms, c1, a, v);
    c', steps' := Apply(ms, c1, s2), steps + [s1] + [s2];
    Take(ms, ids, r, steps + [s1], c1, s2);
  }

  lemma Granted(ms: Members, c: State, a: PeerId, v: PeerId) returns (c': State)
    requires a in c.nodes && v in c.nodes && a != v && Request(a, v, c.nodes[a]) in c.net
    requires c.nodes[v].term < c.nodes[a].term || (c.nodes[v].term == c.nodes[a].term && c.nodes[v].votedFor == None)
    requires UpToDate(TipIndex(c.nodes[a].log), TipTerm(c.nodes[a].log), c.nodes[v].log)
    ensures Enabled(ms, c, DeliverVoteRequest(v, Request(a, v, c.nodes[a])))
    ensures c' == Apply(ms, c, DeliverVoteRequest(v, Request(a, v, c.nodes[a])))
    ensures c'.nodes == c.nodes[v := Observe(c.nodes[v], c.nodes[a].term).(votedFor := Some(a))] && Quiet(c, c')
    ensures VoteResp(v, a, c.nodes[a].term, true) in c'.net
  {
    c' := Apply(ms, c, DeliverVoteRequest(v, Request(a, v, c.nodes[a])));
  }

  lemma Counted(ms: Members, c: State, a: PeerId, v: PeerId)
    requires a in c.nodes && c.nodes[a].role == Candidate && v !in c.nodes[a].responders && v in ms.voters
    requires VoteResp(v, a, c.nodes[a].term, true) in c.net
    ensures Enabled(ms, c, DeliverVoteReply(a, VoteResp(v, a, c.nodes[a].term, true)))
    ensures var c' := Apply(ms, c, DeliverVoteReply(a, VoteResp(v, a, c.nodes[a].term, true)));
            var nd := c.nodes[a];
            && c'.nodes == c.nodes[a := nd.(responders := nd.responders + [v], granted := nd.granted + [v])]
            && c'.net == c.net && c'.hist == c.hist
  {
  }

  lemma Lead(ms: Members, ids: set<PeerId>, r: Rules, steps: seq<Step>, c: State, a: PeerId)
    returns (steps': seq<Step>, c': State)
    requires Reaches(ms, ids, r, steps, c) && a in c.nodes && c.nodes[a].role == Candidate
    requires |c.nodes[a].granted| >= Quorum(|ms.voters|)
    ensures Reaches(ms, ids, r, steps', c') && steps <= steps' && c'.net == c.net
    ensures c'.nodes == c.nodes[a := TakeLead(c.nodes[a], ms, a)]
    ensures c.nodes[a].term !in c.hist.wins ==>
              && c'.hist.tlog == c.hist.tlog[c.nodes[a].term := c.nodes[a].log]
              && c'.hist.wins.Keys == c.hist.wins.Keys + {c.nodes[a].term}
  {
    c', steps' := Apply(ms, c, Win(a)), steps + [Win(a)];
    Take(ms, ids, r, steps, c, Win(a));
  }

  function Voter(nd: Node, t: nat, a: PeerId): Node {
    Observe(nd, t).(votedFor := Some(a))
  }

  function Winner(ms: Members, nd: Node, a: PeerId, vs: seq<PeerId>): Node {
    TakeLead(StartCampaign(nd, a).(responders := vs, granted := [a] + vs), ms, a)
  }

  /** `v` would vote for `a` if `a` campaigned now; under `once`, because it has not reached the term. */
  predicate WouldVote(r: Rules, c: State, a: PeerId, v: PeerId) {
    && a in c.nodes && v in c.nodes && a != v && c.nodes[a].role != Leader
    && var t := SatAdd(c.nodes[a].term, 1);
       && (c.nodes[v].term < t || (!r.once && c.nodes[v].term == t && c.nodes[v].votedFor == None))
       && UpToDate(TipIndex(c.nodes[a].log), TipTerm(c.nodes[a].log), c.nodes[v].log)
  }

  /** Campaigning and collecting one vote. */
  lemma Backing(ms: Members, ids: set<PeerId>, r: Rules, steps: seq<Step>, c: State, a: PeerId, v: PeerId)
    returns (steps': seq<Step>, c': State)
    requires Reaches(ms, ids, r, steps, c) && a in ms.voters && v in ms.voters && WouldVote(r, c, a, v)
    requires r.terms ==> c.nodes[a].term < U64_MAX
    ensures Reaches(ms, ids, r, steps', c') && steps <= steps' && Quiet(c, c')
    ensures c'.nodes == c.nodes[v := Voter(c.nodes[v], SatAdd(c.nodes[a].term, 1), a)]
                               [a := StartCampaign(c.nodes[a], a).(responders := [v], granted := [a, v])]
    ensures forall p :: p in ms.voters && p in c.nodes && p != a ==> Request(a, p, c'.nodes[a]) in c'.net
  {
    var c1;
    steps', c1 := Stand(ms, ids, r, steps, c, a);
    steps', c' := Vote(ms, ids, r, steps', c1, a, v);
    var none: seq<PeerId> := [];
    assert none + [v] == [v] && [a] + [v] == [a, v];
  }

  /** In a cluster of three, one vote elects. */
  lemma Elect(ms: Members, ids: set<PeerId>, r: Rules, steps: seq<Step>, c: State, a: PeerId, v: PeerId)
    returns (steps': seq<Step>, c': State)
    requires Reaches(ms, ids, r, steps, c) && a in ms.voters && v in ms.voters && |ms.voters| == 3 && WouldVote(r, c, a, v)
    requires r.terms ==> c.nodes[a].term < U64_MAX
    ensures Reaches(ms, ids, r, steps', c') && steps <= steps' && c.net <= c'.net
    ensures c'.nodes == c.nodes[v := Voter(c.nodes[v], SatAdd(c.nodes[a].term, 1), a)][a := Winner(ms, c.nodes[a], a, [v])]
    ensures SatAdd(c.nodes[a].term, 1) !in c.hist.wins ==>
              && c'.hist.tlog == c.hist.tlog[SatAdd(c.nodes[a].term, 1) := c.nodes[a].log]
              && c'.hist.wins.Keys == c.hist.wins.Keys + {SatAdd(c.nodes[a].term, 1)}
  {
    var c1;
    steps', c1 := Backing(ms, ids, r, steps, c, a, v);
    steps', c' := Lead(ms, ids, r, steps', c1, a);
    assert [a] + [v] == [a, v];
  }

  /** In a cluster of five it takes two. */
  lemma ElectByTwo(ms: Members, ids: set<PeerId>, r: Rules, steps: seq<Step>, c: State, a: PeerId, v: PeerId, w: PeerId)
    returns (steps': seq<Step>, c': State)
    requires Reaches(ms, ids, r, steps, c) && a in ms.voters && v in ms.voters && w in ms.voters && |ms.voters| == 5
    requires v != w && WouldVote(r, c, a, v) && WouldVote(r, c, a, w) && (r.terms ==> c.nodes[a].term < U64_MAX)
    ensures Reaches(ms, ids, r, steps', c') && steps <= steps' && c.net <= c'.net
    ensures var t := SatAdd(c.nodes[a].term, 1);
            c'.nodes == c.nodes[v := Voter(c.nodes[v], t, a)][w := Voter(c.nodes[w], t, a)]
                               [a := Winner(ms, c.nodes[a], a, [v, w])]
    ensures SatAdd(c.nodes[a].term, 1) !in c.hist.wins ==>
              && c'.hist.tlog == c.hist.tlog[SatAdd(c.nodes[a].term, 1) := c.nodes[a].log]
              && c'.hist.wins.Keys == c.hist.wins.Keys + {SatAdd(c.nodes[a].term, 1)}
  {
    var c1, c2;
    steps', c1 := Backing(ms, ids, r, steps, c, a, v);
    steps', c2 := Vote(ms, ids, r, steps', c1, a, w);
    assert [v] + [w] == [v, w] && [a, v] + [w] == [a, v, w] == [a] + [v, w];
    steps', c' := Lead(ms, ids, r, steps', c2, a);
  }

  // -------------------------------------------------------------- replication

  lemma Proposes(ms: Members, ids: set<PeerId>, r: Rules, steps: seq<Step>, c: State, n: PeerId)
    returns (steps': seq<Step>, c': State)
    requires Reaches(ms, ids, r, steps, c) && n in c.nodes && c.nodes[n].role == Leader && c.nodes[n].progress != map[]
    requires |c.nodes[n].log| + 1 < U64_MAX && TipIndex(c.nodes[n].log) == |c.nodes[n].log|
    ensures Reaches(ms, ids, r, steps', c') && steps <= steps' && c'.net == c.net && c'.hist.wins == c.hist.wins
    ensures var nd := c.nodes[n];
            var log' := nd.log + [Entry(nd.term, |nd.log| + 1, [])];
            c'.nodes == c.nodes[n := nd.(log := log')] && c'.hist.tlog == c.hist.tlog[nd.term := log']
  {
    var s, nd := Propose(n, [[]]), c.nodes[n];
    Take(ms, ids, r, steps, c, s);
    c', steps' := Apply(ms, c, s), steps + [s];
    assert NewEntries(nd.term, |nd.log|, [[]]) == [Entry(nd.term, |nd.log| + 1, [])];
  }

  lemma Sends(ms: Members, ids: set<PeerId>, r: Rules, steps: seq<Step>, c: State, n: PeerId, dst: PeerId)
    returns (steps': seq<Step>, c': State, m: Msg)
    requires Reaches(ms, ids, r, steps, c) && n in c.nodes && c.nodes[n].role == Leader && dst in c.nodes && dst != n
    ensures Reaches(ms, ids, r, steps', c') && steps <= steps' && Quiet(c, c') && c'.nodes == c.nodes
    ensures var nd := c.nodes[n];
            m in c'.net && m == Append(n, dst, nd.term, n, 0, 0, nd.commit, nd.log, nd.probe)
  {
    var s := SendAppend(n, dst, 0, |c.nodes[n].log|);
    Take(ms, ids, r, steps, c, s);
    c', steps' := Apply(ms, c, s), steps + [s];
    m := AppendMsg(c.nodes[n], n, dst, 0, |c.nodes[n].log|);
    assert c.nodes[n := c.nodes[n]] == c.nodes;
    assert c.nodes[n].log[0..0 + |c.nodes[n].log|] == c.nodes[n].log;
  }

  lemma Receives(ms: Members, ids: set<PeerId>, r: Rules, steps: seq<Step>, c: State, m: Msg, nd': Node, matched: nat)
    returns (steps': seq<Step>, c': State)
    requires Reaches(ms, ids, r, steps, c) && m in c.net && m.Append? && m.dst in c.nodes
    requires r.tips ==> TipOnLeaderLog(c, DeliverAppend(m.dst, m))
    requires OnAppendRequest(c.nodes[m.dst], m.term, m.leader, m.prevIndex, m.prevTerm, m.commit, m.entries)
          == (nd', Reply(m.term, true, matched))
    ensures Reaches(ms, ids, r, steps', c') && steps <= steps' && Quiet(c, c')
    ensures c'.nodes == c.nodes[m.dst := nd']
    ensures AppendResp(m.dst, m.src, m.term, true, matched, m.probe) in c'.net
  {
    var s := DeliverAppend(m.dst, m);
    Take(ms, ids, r, steps, c, s);
    c', steps' := Apply(ms, c, s), steps + [s];
  }

  /** The leader once it has counted `src` as holding `matched`, its first answer. */
  function Heard(nd: Node, src: PeerId, matched: nat): Node
    requires src in nd.progress
  {
    var next := Max(nd.progress[src].next, Min(SatAdd(matched, 1), SatAdd(TipIndex(nd.log), 1)));
    nd.(progress := nd.progress[src := Progress(next, matched)])
  }

  /** The sender counts the answer; no confirmation round is under way. */
  lemma Hears(ms: Members, ids: set<PeerId>, r: Rules, steps: seq<Step>, c: State, m: Msg)
    returns (steps': seq<Step>, c': State)
    requires Reaches(ms, ids, r, steps, c) && m in c.net && m.AppendResp? && m.success && m.dst in c.nodes
    requires c.nodes[m.dst].round == None && c.nodes[m.dst].role == Leader && m.src in c.nodes[m.dst].progress
    requires m.term <= c.nodes[m.dst].term && (r.replies ==> m.term == c.nodes[m.dst].term)
    requires c.nodes[m.dst].progress[m.src].matched == 0
    ensures Reaches(ms, ids, r, steps', c') && steps <= steps' && Quiet(c, c')
    ensures c'.nodes == c.nodes[m.dst := Heard(c.nodes[m.dst], m.src, m.matched)]
  {
    var s := DeliverAppendReply(m.dst, m);
    Take(ms, ids, r, steps, c, s);
    c', steps' := Apply(ms, c, s), steps + [s];
  }

  /** The run loop commits the whole log once a majority holds it. */
  lemma Commits(ms: Members, ids: set<PeerId>, r: Rules, steps: seq<Step>, c: State, n: PeerId)
    returns (steps': seq<Step>, c': State)
    requires Reaches(ms, ids, r, steps, c) && n in c.nodes && c.nodes[n].progress != map[] && ms.voters != []
    requires var nd := c.nodes[n]; var k := |nd.log|;
             && k > nd.commit && nd.log[k - 1].index == k && nd.log[k - 1].term == nd.term
             && MajorityAcked(nd.progress, n, k, ms.voters, k) && !MajorityAcked(nd.progress, n, k, ms.voters, k + 1)
    ensures Reaches(ms, ids, r, steps', c') && steps <= steps' && Quiet(c, c')
    ensures c'.nodes == c.nodes[n := c.nodes[n].(commit := |c.nodes[n].log|)]
  {
    var nd, s := c.nodes[n], Commit(n);
    QuorumIndexIsGreatest(nd.progress, n, |nd.log|, ms.voters, |nd.log|);
    QuorumIndexIsGreatest(nd.progress, n, |nd.log|, ms.voters, |nd.log| + 1);
    Take(ms, ids, r, steps, c, s);
    c', steps' := Apply(ms, c, s), steps + [s];
  }

  lemma Observes(ms: Members, ids: set<PeerId>, r: Rules, steps: seq<Step>, c: State, n: PeerId, t: nat)
    returns (steps': seq<Step>, c': State)
    requires Reaches(ms, ids, r, steps, c) && n in c.nodes && c.nodes[n].term < t <= U64_MAX
    ensures Reaches(ms, ids, r, steps', c') && steps <= steps' && c'.net == c.net && c'.hist == c.hist
    ensures c'.nodes == c.nodes[n := StepDown(c.nodes[n], t)]
  {
    Take(ms, ids, r, steps, c, SeeTerm(n, t));
    c', steps' := Apply(ms, c, SeeTerm(n, t)), steps + [SeeTerm(n, t)];
  }

  /** The node takes the leader's whole log: its own was empty or differs from the first entry on. */
  lemma Overwritten(nd: Node, m: Msg) returns (nd': Node)
    requires m.Append? && m.prevIndex == 0 && nd.term <= m.term && m.commit == 0
    requires m.entries != [] && m.entries[0].index == 1 && m.entries[|m.entries| - 1].index == |m.entries|
    requires nd.log == [] || nd.log[0].term != m.entries[0].term
    ensures OnAppendRequest(nd, m.term, m.leader, m.prevIndex, m.prevTerm, m.commit, m.entries)
         == (nd', Reply(m.term, true, |m.entries|))
    ensures nd'.log == m.entries && nd'.term == m.term && nd'.role == Follower
    ensures nd'.commit == nd.commit && nd'.round == nd.round && nd'.probe == nd.probe
  {
    nd' := Observe(nd, m.term).(role := Follower, leaderId := Some(m.leader), log := m.entries);
    var none: seq<Entry> := [];
    assert nd.log[..0] + m.entries[0..] == m.entries && none + m.entries[0..] == m.entries;
  }

  /** The leader's whole log reaches a follower that has nothing of it. */
  lemma Sent(ms: Members, ids: set<PeerId>, r: Rules, steps: seq<Step>, c: State, a: PeerId, f: PeerId)
    returns (steps': seq<Step>, c': State, nd': Node)
    requires Reaches(ms, ids, r, steps, c) && a in c.nodes && f in c.nodes && a != f && c.nodes[a].role == Leader
    requires var log := c.nodes[a].log; log != [] && log[0].index == 1 && log[|log| - 1].index == |log|
    requires c.nodes[f].log == [] || c.nodes[f].log[0].term != c.nodes[a].log[0].term
    requires c.nodes[f].term <= c.nodes[a].term && c.nodes[a].probe == 0 && c.nodes[a].commit == 0
    requires r.tips ==> c.nodes[a].term in c.hist.tlog && c.hist.tlog[c.nodes[a].term] == c.nodes[a].log
    ensures Reaches(ms, ids, r, steps', c') && steps <= steps' && Quiet(c, c')
    ensures nd'.log == c.nodes[a].log && nd'.term == c.nodes[a].term && nd'.role == Follower
    ensures nd'.commit == c.nodes[f].commit && nd'.round == c.nodes[f].round && nd'.probe == c.nodes[f].probe
    ensures c'.nodes == c.nodes[f := nd']
    ensures AppendResp(f, a, c.nodes[a].term, true, |c.nodes[a].log|, 0) in c'.net
  {
    var c1, m;
    steps', c1, m := Sends(ms, ids, r, steps, c, a, f);
    nd' := Overwritten(c.nodes[f], m);
    steps', c' := Receives(ms, ids, r, steps', c1, m, nd', |c.nodes[a].log|);
  }

  // -------------------------------------------------------- an ordinary run

  lemma OrdinaryLead(ms: Members, ids: set<PeerId>, r: Rules) returns (steps: seq<Step>, c: State)
    requires ms == Members([1, 2, 3], []) && ids == {1, 2, 3}
    ensures Reaches(ms, ids, r, steps, c) && c.nodes.Keys == ids && c.nodes[2] == Voter(FreshNode, 1, 1)
    ensures c.nodes[1] == Winner(ms, FreshNode, 1, [2]).(log := [Entry(1, 1, [])])
    ensures 1 in c.hist.tlog && c.hist.tlog[1] == c.nodes[1].log
  {
    Fold(ms, ids, r, [], Init(ids));
    var c0;
    steps, c0 := Elect(ms, ids, r, [], Init(ids), 1, 2);
    assert 2 in c0.nodes[1].progress;
    steps, c := Proposes(ms, ids, r, steps, c0, 1);
  }

  /** The conditions can be met: a run that keeps to all of them elects a leader, replicates an entry and commits it. */
  lemma OrdinaryRun(ms: Members, ids: set<PeerId>) returns (steps: seq<Step>)
    requires ms == Members([1, 2, 3], []) && ids == {1, 2, 3}
    ensures RunUnder(ms, ids, Rules(true, true, true, true), steps) && Exec(ms, ids, steps).Some?
    ensures var c := Exec(ms, ids, steps).value;
            1 in c.nodes && c.nodes[1].role == Leader && c.nodes[1].commit == 1 && |c.nodes[1].log| == 1
  {
    var r := Rules(true, true, true, true);
    var c0, c1, c2, c3, nd2;
    steps, c0 := OrdinaryLead(ms, ids, r);
    assert 2 in c0.nodes[1].progress && 3 in c0.nodes[1].progress;
    steps, c1, nd2 := Sent(ms, ids, r, steps, c0, 1, 2);
    steps, c2 := Hears(ms, ids, r, steps, c1, AppendResp(2, 1, 1, true, 1, 0));
    assert Elements(ms.voters) == {1, 2, 3};
    TwoOfThree(c2.nodes[1].progress, 1, 2, 3, 1, ms.voters);
    steps, c3 := Commits(ms, ids, r, steps, c2, 1);
    Unfold(ms, ids, r, steps, c3);
  }

  // ------------------------------------------------- same-term step-down

  /**
   The second vote of an abdicated leader is enough for two leaders of one term:
   node 1 leads term 1 after some prefix of the run, steps down in it and votes for
   node 3, which leads term 1 at the end.
   */
  lemma StepDownGivesTwoLeaders(ms: Members, ids: set<PeerId>) returns (steps: seq<Step>, i: nat)
    requires ms == Members([1, 2, 3], []) && ids == {1, 2, 3}
    ensures i <= |steps| && RunUnder(ms, ids, Rules(false, true, true, true), steps)
    ensures Exec(ms, ids, steps[..i]).Some? && Exec(ms, ids, steps).Some?
    ensures var x, y := Exec(ms, ids, steps[..i]).value, Exec(ms, ids, steps).value;
            && 1 in x.nodes && x.nodes[1].role == Leader && x.nodes[1].term == 1
            && 3 in y.nodes && y.nodes[3].role == Leader && y.nodes[3].term == 1
  {
    var r := Rules(false, true, true, true);
    Fold(ms, ids, r, [], Init(ids));
    var first, c1 := Elect(ms, ids, r, [], Init(ids), 1, 2);
    var second, c2 := StepsDown(ms, ids, r, first, c1, 1);
    var c3;
    steps, c3 := Elect(ms, ids, r, second, c2, 3, 1);
    i := |first|;
    Moments(ms, ids, r, first, c1, steps, c3);
  }

  lemma StepsDown(ms: Members, ids: set<PeerId>, r: Rules, steps: seq<Step>, c: State, a: PeerId)
    returns (steps': seq<Step>, c': State)
    requires Reaches(ms, ids, r, steps, c) && a in c.nodes && c.nodes[a].role == Leader
    ensures Reaches(ms, ids, r, steps', c') && steps' == steps + [Abdicate(a)] && c'.net == c.net && c'.hist == c.hist
    ensures c'.nodes == c.nodes[a := StepDown(c.nodes[a], c.nodes[a].term)]
  {
    Take(ms, ids, r, steps, c, Abdicate(a));
    c', steps' := Apply(ms, c, Abdicate(a)), steps + [Abdicate(a)];
  }

  /** Abdicating alone does no harm: a run that keeps to all conditions in which node 1 abdicates and node 2 leads next. */
  lemma AbdicationIsCovered(ms: Members, ids: set<PeerId>) returns (steps: seq<Step>)
    requires ms == Members([1, 2, 3], []) && ids == {1, 2, 3}
    ensures RunUnder(ms, ids, Rules(true, true, true, true), steps) && Exec(ms, ids, steps).Some?
    ensures Abdicate(1) in steps
    ensures var c := Exec(ms, ids, steps).value; 2 in c.nodes && c.nodes[2].role == Leader && c.nodes[2].term == 2
  {
    var r := Rules(true, true, true, true);
    Fold(ms, ids, r, [], Init(ids));
    var first, c1 := Elect(ms, ids, r, [], Init(ids), 1, 2);
    var second, c2 := StepsDown(ms, ids, r, first, c1, 1);
    var c3;
    steps, c3 := Elect(ms, ids, r, second, c2, 2, 3);
    assert steps[|first|] == second[|first|];
    Unfold(ms, ids, r, steps, c3);
  }

  /** A campaign at the last term reuses it: two leaders of term 2^64 - 1. */
  lemma LastTermGivesTwoLeaders(ms: Members, ids: set<PeerId>) returns (steps: seq<Step>, i: nat)
    requires ms == Members([1, 2, 3], []) && ids == {1, 2, 3}
    ensures i <= |steps| && RunUnder(ms, ids, Rules(true, false, true, true), steps)
    ensures Exec(ms, ids, steps[..i]).Some? && Exec(ms, ids, steps).Some?
    ensures var x, y := Exec(ms, ids, steps[..i]).value, Exec(ms, ids, steps).value;
            && 1 in x.nodes && x.nodes[1].role == Leader && x.nodes[1].term == U64_MAX
            && 2 in y.nodes && y.nodes[2].role == Leader && y.nodes[2].term == U64_MAX
  {
    var r := Rules(true, false, true, true);
    var first, c1 := LastTermFirst(ms, ids, r);
    var c2;
    steps, c2 := Elect(ms, ids, r, first, c1, 2, 3);
    i := |first|;
    Moments(ms, ids, r, first, c1, steps, c2);
  }

  lemma LastTermFirst(ms: Members, ids: set<PeerId>, r: Rules) returns (steps: seq<Step>, c: State)
    requires ms == Members([1, 2, 3], []) && ids == {1, 2, 3}
    ensures Reaches(ms, ids, r, steps, c) && c.nodes.Keys == ids
    ensures c.nodes[1].role == Leader && c.nodes[1].term == U64_MAX
    ensures c.nodes[2] == Voter(FreshNode, U64_MAX, 1) && c.nodes[3] == FreshNode
  {
    Fold(ms, ids, r, [], Init(ids));
    var c0;
    steps, c0 := Observes(ms, ids, r, [], Init(ids), 1, U64_MAX - 1);
    steps, c := Elect(ms, ids, r, steps, c0, 1, 2);
  }

  // ------------------------------------------------------ acknowledging a tail

  /** Node 2 holds an entry only it has, from term 1; node 1 leads term 2 with an empty log; node 3 elected both. */
  ghost predicate TailSetup(ms: Members, c: State) {
    && c.nodes.Keys == {1, 2, 3}
    && c.nodes[1] == Winner(ms, StepDown(FreshNode, 1), 1, [3])
    && c.nodes[2] == Winner(ms, FreshNode, 2, [3]).(log := [Entry(1, 1, [])])
    && c.nodes[3] == Voter(Voter(FreshNode, 1, 2), 2, 1)
  }

  lemma TailAlone(ms: Members, ids: set<PeerId>, r: Rules) returns (steps: seq<Step>, c: State)
    requires ms == Members([1, 2, 3], []) && ids == {1, 2, 3}
    ensures Reaches(ms, ids, r, steps, c) && c.nodes.Keys == ids && c.nodes[1] == FreshNode
    ensures c.nodes[2] == Winner(ms, FreshNode, 2, [3]).(log := [Entry(1, 1, [])])
    ensures c.nodes[3] == Voter(FreshNode, 1, 2)
  {
    Fold(ms, ids, r, [], Init(ids));
    var c0;
    steps, c0 := Elect(ms, ids, r, [], Init(ids), 2, 3);
    assert 1 in c0.nodes[2].progress;
    steps, c := Proposes(ms, ids, r, steps, c0, 2);
  }

  lemma TailFirst(ms: Members, ids: set<PeerId>, r: Rules) returns (steps: seq<Step>, c: State)
    requires ms == Members([1, 2, 3], []) && ids == {1, 2, 3}
    ensures Reaches(ms, ids, r, steps, c) && TailSetup(ms, c)
  {
    var c0, c1;
    steps, c0 := TailAlone(ms, ids, r);
    steps, c1 := Observes(ms, ids, r, steps, c0, 1, 1);
    steps, c := Elect(ms, ids, r, steps, c1, 1, 3);
  }

  /** Node 2 answers a heartbeat with its own tip. */
  lemma TailAnswers(ms: Members, ids: set<PeerId>, r: Rules, steps: seq<Step>, c: State)
    returns (steps': seq<Step>, c': State, nd': Node)
    requires ms == Members([1, 2, 3], []) && !r.tips && Reaches(ms, ids, r, steps, c) && TailSetup(ms, c)
    ensures Reaches(ms, ids, r, steps', c') && c'.nodes == c.nodes[2 := nd']
    ensures AppendResp(2, 1, 2, true, 1, 0) in c'.net
    ensures nd'.role == Follower && nd'.term == 2 && nd'.log == [Entry(1, 1, [])] && nd'.commit == 0
    ensures nd'.round == None && nd'.probe == 0
  {
    var c1, m;
    steps', c1, m := Sends(ms, ids, r, steps, c, 1, 2);
    nd' := OnAppendRequest(c1.nodes[2], m.term, m.leader, m.prevIndex, m.prevTerm, m.commit, m.entries).0;
    steps', c' := Receives(ms, ids, r, steps', c1, m, nd', 1);
  }

  lemma TwoOfThree(progress: map<PeerId, Progress>, self: PeerId, p: PeerId, q: PeerId, k: nat, voters: seq<PeerId>)
    requires Distinct(voters) && Elements(voters) == {self, p, q} && |voters| == 3 && self != p && self != q && p != q
    requires p in progress && progress[p].matched == k && q in progress && progress[q].matched == 0 && k > 0
    ensures MajorityAcked(progress, self, k, voters, k) && !MajorityAcked(progress, self, k, voters, k + 1)
  {
    Held(progress, self, k, voters, k, {self, p});
    Held(progress, self, k, voters, k + 1, {});
  }

  /** The number of voters that hold an index. */
  lemma Held(progress: map<PeerId, Progress>, self: PeerId, last: nat, voters: seq<PeerId>, k: nat, who: set<PeerId>)
    requires Distinct(voters)
    requires forall v :: v in who <==> v in Elements(voters) && AckOf(progress, self, last, v) >= k
    ensures MajorityAcked(progress, self, last, voters, k) <==> |who| >= Quorum(|voters|)
  {
    CountAcksIsIntersection(progress, self, last, voters, k);
    assert Ackers(progress, self, last, voters, k) == who;
  }

  /** Node 1 appends, counts node 2's tip and commits an entry only node 1 has. */
  lemma TailCounts(ms: Members, ids: set<PeerId>, r: Rules, steps: seq<Step>, c: State)
    returns (steps': seq<Step>, c': State, nd': Node)
    requires ms == Members([1, 2, 3], []) && Reaches(ms, ids, r, steps, c) && 1 in c.nodes
    requires c.nodes[1] == Winner(ms, StepDown(FreshNode, 1), 1, [3]) && AppendResp(2, 1, 2, true, 1, 0) in c.net
    ensures Reaches(ms, ids, r, steps', c') && c'.nodes == c.nodes[1 := nd']
    ensures nd'.log == [Entry(2, 1, [])] && nd'.commit == 1 && nd'.role == Leader && nd'.term == 2
    ensures 2 in nd'.progress && nd'.progress[2] == Progress(2, 1)
  {
    var c1, c2;
    assert 2 in c.nodes[1].progress && 3 in c.nodes[1].progress;
    steps', c1 := Proposes(ms, ids, r, steps, c, 1);
    steps', c2 := Hears(ms, ids, r, steps', c1, AppendResp(2, 1, 2, true, 1, 0));
    assert Elements(ms.voters) == {1, 2, 3};
    TwoOfThree(c2.nodes[1].progress, 1, 2, 3, 1, ms.voters);
    steps', c' := Commits(ms, ids, r, steps', c2, 1);
    nd' := c'.nodes[1];
  }

  /** Node 2 becomes leader without the entry and commits others in its place. */
  lemma TailWins(ms: Members, ids: set<PeerId>, r: Rules, steps: seq<Step>, c: State)
    returns (steps': seq<Step>, c': State, nd2: Node, nd3: Node)
    requires ms == Members([1, 2, 3], []) && Reaches(ms, ids, r, steps, c) && 2 in c.nodes && 3 in c.nodes
    requires c.nodes[2].role == Follower && c.nodes[2].term == 2 && c.nodes[2].log == [Entry(1, 1, [])]
    requires c.nodes[2].commit == 0 && c.nodes[2].round == None && c.nodes[2].probe == 0
    requires c.nodes[3] == Voter(Voter(FreshNode, 1, 2), 2, 1)
    ensures Reaches(ms, ids, r, steps', c') && c'.nodes == c.nodes[3 := nd3][2 := nd2]
    ensures nd2.role == Leader && nd2.term == 3 && nd2.log == [Entry(1, 1, []), Entry(3, 2, [])] && nd2.commit == 0
    ensures nd2.round == None && nd2.probe == 0 && nd2.progress == FreshProgress(ms, 2, 1)
    ensures nd3.log == [] && nd3.term == 3
  {
    var c1;
    steps', c1 := Elect(ms, ids, r, steps, c, 2, 3);
    assert 3 in c1.nodes[2].progress;
    steps', c' := Proposes(ms, ids, r, steps', c1, 2);
    nd2, nd3 := c'.nodes[2], c'.nodes[3];
    assert [Entry(1, 1, [])] + [Entry(3, 2, [])] == [Entry(1, 1, []), Entry(3, 2, [])];
  }

  lemma TailCommits(ms: Members, ids: set<PeerId>, r: Rules, steps: seq<Step>, c: State)
    returns (steps': seq<Step>, c': State)
    requires ms == Members([1, 2, 3], []) && !r.tips && Reaches(ms, ids, r, steps, c) && c.nodes.Keys == {1, 2, 3}
    requires c.nodes[2].role == Leader && c.nodes[2].term == 3 && c.nodes[2].commit == 0
    requires c.nodes[2].log == [Entry(1, 1, []), Entry(3, 2, [])]
    requires c.nodes[2].round == None && c.nodes[2].probe == 0 && c.nodes[2].progress == FreshProgress(ms, 2, 1)
    requires c.nodes[3].log == [] && c.nodes[3].term == 3
    ensures Reaches(ms, ids, r, steps', c') && 1 in c'.nodes && c'.nodes[1] == c.nodes[1]
    ensures 2 in c'.nodes && c'.nodes[2].log == c.nodes[2].log && c'.nodes[2].commit == 2
  {
    var c1, c2, nd3;
    assert 1 in c.nodes[2].progress && 3 in c.nodes[2].progress;
    steps', c1, nd3 := Sent(ms, ids, r, steps, c, 2, 3);
    steps', c2 := Hears(ms, ids, r, steps', c1, AppendResp(3, 2, 3, true, 2, 0));
    assert Elements(ms.voters) == {1, 2, 3};
    TwoOfThree(c2.nodes[2].progress, 2, 3, 1, 2, ms.voters);
    steps', c' := Commits(ms, ids, r, steps', c2, 2);
  }

  /**
   Acknowledging one's own tip is not enough: every vote binds and every answer
   is of the current term, yet nodes 1 and 2 commit different entries at index 1.
   */
  lemma OwnTipLosesCommits(ms: Members, ids: set<PeerId>) returns (steps: seq<Step>)
    requires ms == Members([1, 2, 3], []) && ids == {1, 2, 3}
    ensures RunUnder(ms, ids, Rules(true, true, false, true), steps) && Exec(ms, ids, steps).Some?
    ensures var c := Exec(ms, ids, steps).value;
            && 1 in c.nodes && 2 in c.nodes && c.nodes[1].commit >= 1 && c.nodes[2].commit >= 1
            && |c.nodes[1].log| >= 1 && |c.nodes[2].log| >= 1 && c.nodes[1].log[0] != c.nodes[2].log[0]
  {
    var r := Rules(true, true, false, true);
    var c, nd1, nd2, nd3;
    steps, c := TailFirst(ms, ids, r);
    steps, c, nd2 := TailAnswers(ms, ids, r, steps, c);
    steps, c, nd1 := TailCounts(ms, ids, r, steps, c);
    steps, c, nd2, nd3 := TailWins(ms, ids, r, steps, c);
    steps, c := TailCommits(ms, ids, r, steps, c);
    Unfold(ms, ids, r, steps, c);
  }

  /** The recorded match is above everything the logs agree on, so no exchange gets through. */
  lemma TailStalls(lead: Node, fol: Node, k: nat)
    requires lead.role == Leader && lead.term == 2 && lead.log == [Entry(2, 1, [])]
    requires 2 in lead.progress && lead.progress[2] == Progress(2, 1)
    requires fol.term == 2 && fol.log == [Entry(1, 1, [])]
    ensures !Repair.Reparable(lead, 2, fol)
    ensures Repair.Exchanges(lead, 1, 2, fol, k).0 == lead && Repair.Exchanges(lead, 1, 2, fol, k).1.log == fol.log
  {
    Repair.Stalls(lead, 1, 2, fol, k);
  }

  /**
   A falsely recorded match also ends repair: in the same run the leader, node 1,
   holds an entry that node 2 lacks, and no number of exchanges delivers it.
   */
  lemma OwnTipStallsRepair(ms: Members, ids: set<PeerId>) returns (steps: seq<Step>)
    requires ms == Members([1, 2, 3], []) && ids == {1, 2, 3}
    ensures RunUnder(ms, ids, Rules(true, true, false, true), steps) && Exec(ms, ids, steps).Some?
    ensures var c := Exec(ms, ids, steps).value;
            && 1 in c.nodes && 2 in c.nodes && c.nodes[1].role == Leader && c.nodes[2].term <= c.nodes[1].term
            && |c.nodes[1].log| == 1 && c.nodes[1].log[0] !in c.nodes[2].log
            && (forall k: nat :: Repair.Exchanges(c.nodes[1], 1, 2, c.nodes[2], k).0 == c.nodes[1]
                              && Repair.Exchanges(c.nodes[1], 1, 2, c.nodes[2], k).1.log == c.nodes[2].log)
  {
    var r := Rules(true, true, false, true);
    var c, nd1, nd2;
    steps, c := TailFirst(ms, ids, r);
    steps, c, nd2 := TailAnswers(ms, ids, r, steps, c);
    steps, c, nd1 := TailCounts(ms, ids, r, steps, c);
    Unfold(ms, ids, r, steps, c);
    forall k: nat
      ensures Repair.Exchanges(nd1, 1, 2, nd2, k).0 == nd1 && Repair.Exchanges(nd1, 1, 2, nd2, k).1.log == nd2.log
    {
      TailStalls(nd1, nd2, k);
    }
  }

  // -------------------------------------------------------------- stale answers

  const E11: Entry := Entry(1, 1, [])
  const E12: Entry := Entry(1, 2, [])
  const E21: Entry := Entry(2, 1, [])
  const E32: Entry := Entry(3, 2, [])

  predicate FiveNodes(ms: Members, c: State) {
    ms == Members([1, 2, 3, 4, 5], []) && c.nodes.Keys == {1, 2, 3, 4, 5}
  }

  /** No commit, no read round, no token yet. */
  predicate Plain(nd: Node) {
    nd.commit == 0 && nd.round == None && nd.probe == 0
  }

  /** Node 1 led term 1; node 2 has its two entries and the acknowledgement is on its way. */
  ghost predicate StaleA(ms: Members, c: State) {
    && FiveNodes(ms, c) && c.hist.wins.Keys == {1}
    && Plain(c.nodes[1]) && c.nodes[1].log == [E11, E12] && c.nodes[1].term == 1
    && c.nodes[2].log == [E11, E12] && c.nodes[2].term == 1 && c.nodes[2].role == Follower
    && c.nodes[3] == Voter(FreshNode, 1, 1) && c.nodes[4] == FreshNode && c.nodes[5] == FreshNode
    && AppendResp(2, 1, 1, true, 2, 0) in c.net
  }

  lemma StaleLed(ms: Members, ids: set<PeerId>, r: Rules) returns (steps: seq<Step>, c: State)
    requires ms == Members([1, 2, 3, 4, 5], []) && ids == {1, 2, 3, 4, 5}
    ensures Reaches(ms, ids, r, steps, c) && c.hist.wins.Keys == {1} && c.nodes.Keys == ids
    ensures c.hist.tlog == map[1 := []]
    ensures c.nodes[1] == Winner(ms, FreshNode, 1, [2, 3]) && 2 in c.nodes[1].progress
    ensures c.nodes[2] == Voter(FreshNode, 1, 1) && c.nodes[3] == c.nodes[2]
    ensures c.nodes[4] == FreshNode && c.nodes[5] == FreshNode
  {
    Fold(ms, ids, r, [], Init(ids));
    steps, c := ElectByTwo(ms, ids, r, [], Init(ids), 1, 2, 3);
  }

  lemma StaleFirst(ms: Members, ids: set<PeerId>, r: Rules) returns (steps: seq<Step>, c: State)
    requires ms == Members([1, 2, 3, 4, 5], []) && ids == {1, 2, 3, 4, 5}
    ensures Reaches(ms, ids, r, steps, c) && StaleA(ms, c)
  {
    var c0, c1, c2, nd2;
    steps, c0 := StaleLed(ms, ids, r);
    steps, c1 := Proposes(ms, ids, r, steps, c0, 1);
    steps, c2 := Proposes(ms, ids, r, steps, c1, 1);
    assert c2.nodes[1].log == [E11, E12];
    steps, c, nd2 := Sent(ms, ids, r, steps, c2, 1, 2);
  }

  /** Winning a fresh term with two votes and appending one entry. */
  lemma TakesOver(ms: Members, ids: set<PeerId>, r: Rules, steps: seq<Step>, c: State, a: PeerId, v: PeerId, w: PeerId, t: nat)
    returns (steps': seq<Step>, c': State, nd: Node)
    requires Reaches(ms, ids, r, steps, c) && a in ms.voters && v in ms.voters && w in ms.voters && |ms.voters| == 5
    requires v != w && WouldVote(r, c, a, v) && WouldVote(r, c, a, w) && c.nodes[a].term + 1 == t < U64_MAX && t !in c.hist.wins
    requires TipIndex(c.nodes[a].log) == |c.nodes[a].log| < U64_MAX - 1
    ensures Reaches(ms, ids, r, steps', c') && steps <= steps' && c.net <= c'.net
    ensures c'.hist.wins.Keys == c.hist.wins.Keys + {t} && t in c'.hist.tlog && c'.hist.tlog[t] == nd.log
    ensures c'.nodes == c.nodes[v := Voter(c.nodes[v], t, a)][w := Voter(c.nodes[w], t, a)][a := nd]
    ensures nd.role == Leader && nd.term == t && nd.log == c.nodes[a].log + [Entry(t, |c.nodes[a].log| + 1, [])]
    ensures nd.progress == FreshProgress(ms, a, |c.nodes[a].log|)
    ensures nd.commit == c.nodes[a].commit && nd.round == c.nodes[a].round && nd.probe == c.nodes[a].probe
  {
    var c1;
    steps', c1 := ElectByTwo(ms, ids, r, steps, c, a, v, w);
    assert v in c1.nodes[a].progress;
    steps', c' := Proposes(ms, ids, r, steps', c1, a);
    nd := c'.nodes[a];
  }

  /** Node 3 led term 2 and overwrote node 1. */
  ghost predicate StaleB(ms: Members, c: State) {
    && FiveNodes(ms, c) && c.hist.wins.Keys == {1, 2}
    && Plain(c.nodes[1]) && c.nodes[1].log == [E21] && c.nodes[1].term == 2 && c.nodes[1].role == Follower
    && c.nodes[2].log == [E11, E12] && c.nodes[2].term == 1 && c.nodes[2].role == Follower
    && c.nodes[3].log == [E21] && c.nodes[3].term == 2
    && c.nodes[4] == Voter(FreshNode, 2, 3) && c.nodes[5] == Voter(FreshNode, 2, 3)
    && AppendResp(2, 1, 1, true, 2, 0) in c.net
  }

  lemma StaleSecond(ms: Members, ids: set<PeerId>, r: Rules, steps: seq<Step>, c: State)
    returns (steps': seq<Step>, c': State)
    requires Reaches(ms, ids, r, steps, c) && StaleA(ms, c)
    ensures Reaches(ms, ids, r, steps', c') && StaleB(ms, c')
  {
    var c1, nd3, nd1;
    steps', c1, nd3 := TakesOver(ms, ids, r, steps, c, 3, 4, 5, 2);
    assert nd3.log == [E21];
    steps', c', nd1 := Sent(ms, ids, r, steps', c1, 3, 1);
  }

  /** Node 1 leads term 3 with a new entry at index 2; node 4 has it too. */
  ghost predicate StaleC(ms: Members, c: State) {
    && FiveNodes(ms, c) && c.hist.wins.Keys == {1, 2, 3}
    && Plain(c.nodes[1]) && c.nodes[1].log == [E21, E32] && c.nodes[1].term == 3 && c.nodes[1].role == Leader
    && c.nodes[1].progress == FreshProgress(ms, 1, 1)
    && c.nodes[2].log == [E11, E12] && c.nodes[2].term == 1 && c.nodes[2].role == Follower
    && c.nodes[3].log == [E21] && c.nodes[3].term == 2
    && c.nodes[5] == Voter(Voter(FreshNode, 2, 3), 3, 1)
    && AppendResp(2, 1, 1, true, 2, 0) in c.net && AppendResp(4, 1, 3, true, 2, 0) in c.net
  }

  lemma StaleThird(ms: Members, ids: set<PeerId>, r: Rules, steps: seq<Step>, c: State)
    returns (steps': seq<Step>, c': State)
    requires Reaches(ms, ids, r, steps, c) && StaleB(ms, c)
    ensures Reaches(ms, ids, r, steps', c') && StaleC(ms, c')
  {
    var c1, nd1, nd4;
    steps', c1, nd1 := TakesOver(ms, ids, r, steps, c, 1, 4, 5, 3);
    assert nd1.log == [E21, E32];
    steps', c', nd4 := Sent(ms, ids, r, steps', c1, 1, 4);
  }

  lemma ThreeOfFive(progress: map<PeerId, Progress>, voters: seq<PeerId>)
    requires voters == [1, 2, 3, 4, 5] && progress.Keys == {2, 3, 4, 5}
    requires progress[2].matched == 2 && progress[4].matched == 2 && progress[3].matched == 0 && progress[5].matched == 0
    ensures MajorityAcked(progress, 1, 2, voters, 2) && !MajorityAcked(progress, 1, 2, voters, 3)
  {
    Held(progress, 1, 2, voters, 2, {1, 2, 4});
    Held(progress, 1, 2, voters, 3, {});
  }

  lemma StaleCounts(ms: Members, ids: set<PeerId>, r: Rules, steps: seq<Step>, c: State)
    returns (steps': seq<Step>, c': State, nd1: Node)
    requires !r.replies && Reaches(ms, ids, r, steps, c) && StaleC(ms, c)
    ensures Reaches(ms, ids, r, steps', c') && c'.nodes == c.nodes[1 := nd1]
    ensures nd1 == c.nodes[1].(progress := nd1.progress) && nd1.progress.Keys == {2, 3, 4, 5}
    ensures nd1.progress[2].matched == 2 && nd1.progress[4].matched == 2
    ensures nd1.progress[3].matched == 0 && nd1.progress[5].matched == 0
  {
    var c1;
    assert c.nodes[1].progress.Keys == {2, 3, 4, 5};
    steps', c1 := Hears(ms, ids, r, steps, c, AppendResp(4, 1, 3, true, 2, 0));
    steps', c' := Hears(ms, ids, r, steps', c1, AppendResp(2, 1, 1, true, 2, 0));
    nd1 := c'.nodes[1];
  }

  /** The old answer of node 2 counts toward the new entry, which is then committed with two real copies of five. */
  lemma StaleFourth(ms: Members, ids: set<PeerId>, r: Rules, steps: seq<Step>, c: State)
    returns (steps': seq<Step>, c': State, nd1: Node)
    requires !r.replies && Reaches(ms, ids, r, steps, c) && StaleC(ms, c)
    ensures Reaches(ms, ids, r, steps', c') && c'.nodes == c.nodes[1 := nd1]
    ensures nd1.commit == 2 && nd1.log == [E21, E32] && nd1.term == 3
  {
    var c1;
    steps', c1, nd1 := StaleCounts(ms, ids, r, steps, c);
    ThreeOfFive(nd1.progress, ms.voters);
    steps', c' := Commits(ms, ids, r, steps', c1, 1);
    nd1 := c'.nodes[1];
  }

  /**
   Counting an answer of an earlier term is not enough: every vote binds and every
   acknowledged tip is on the sender's log, yet node 3 leads term 4 without the
   entry node 1 committed in term 3.
   */
  lemma StaleAnswerLosesCommits(ms: Members, ids: set<PeerId>) returns (steps: seq<Step>)
    requires ms == Members([1, 2, 3, 4, 5], []) && ids == {1, 2, 3, 4, 5}
    ensures RunUnder(ms, ids, Rules(true, true, true, false), steps) && Exec(ms, ids, steps).Some?
    ensures var c := Exec(ms, ids, steps).value;
            && 1 in c.nodes && 3 in c.nodes && c.nodes[1].commit == 2 && |c.nodes[1].log| == 2
            && c.nodes[3].role == Leader && c.nodes[3].term > c.nodes[1].term && |c.nodes[3].log| < c.nodes[1].commit
  {
    var r := Rules(true, true, true, false);
    var c, nd1;
    steps, c := StaleFirst(ms, ids, r);
    steps, c := StaleSecond(ms, ids, r, steps, c);
    steps, c := StaleThird(ms, ids, r, steps, c);
    steps, c, nd1 := StaleFourth(ms, ids, r, steps, c);
    steps, c := Observes(ms, ids, r, steps, c, 3, 3);
    steps, c := ElectByTwo(ms, ids, r, steps, c, 3, 2, 5);
    Unfold(ms, ids, r, steps, c);
  }

  // ------------------------------------------------------- read rounds and restarts

  lemma Begins(ms: Members, ids: set<PeerId>, r: Rules, steps: seq<Step>, c: State, n: PeerId)
    returns (steps': seq<Step>, c': State)
    requires Reaches(ms, ids, r, steps, c) && n in c.nodes && c.nodes[n].role == Leader
    ensures Reaches(ms, ids, r, steps', c') && steps' == steps + [StartRound(n)] && Quiet(c, c')
    ensures c'.nodes == c.nodes[n := BeginRound(c.nodes[n], n)]
  {
    Take(ms, ids, r, steps, c, StartRound(n));
    c', steps' := Apply(ms, c, StartRound(n)), steps + [StartRound(n)];
  }

  lemma Restarts(ms: Members, ids: set<PeerId>, r: Rules, steps: seq<Step>, c: State, n: PeerId)
    returns (steps': seq<Step>, c': State)
    requires Reaches(ms, ids, r, steps, c) && n in c.nodes
    ensures Reaches(ms, ids, r, steps', c') && steps <= steps' && Quiet(c, c')
    ensures c'.nodes == c.nodes[n := Reboot(c.nodes[n])]
  {
    Take(ms, ids, r, steps, c, Restart(n));
    c', steps' := Apply(ms, c, Restart(n)), steps + [Restart(n)];
  }

  /** A node in a later term refuses the append, with its own term and the request's token. */
  lemma Refuses(ms: Members, ids: set<PeerId>, r: Rules, steps: seq<Step>, c: State, m: Msg)
    returns (steps': seq<Step>, c': State)
    requires Reaches(ms, ids, r, steps, c) && m in c.net && m.Append? && m.dst in c.nodes && m.term < c.nodes[m.dst].term
    requires c.nodes[m.dst].log == []
    ensures Reaches(ms, ids, r, steps', c') && steps <= steps' && Quiet(c, c') && c'.nodes == c.nodes
    ensures AppendResp(m.dst, m.src, c.nodes[m.dst].term, false, 0, m.probe) in c'.net
  {
    var s := DeliverAppend(m.dst, m);
    Take(ms, ids, r, steps, c, s);
    c', steps' := Apply(ms, c, s), steps + [s];
    assert c.nodes[m.dst := c.nodes[m.dst]] == c.nodes;
  }

  /** Node 1 led term 1, sent an append with token 1, restarted and leads term 2; node 2 refuses the old append only now. */
  lemma OldToken(ms: Members, ids: set<PeerId>, r: Rules) returns (steps: seq<Step>, c: State)
    requires ms == Members([1, 2, 3], []) && ids == {1, 2, 3}
    ensures Reaches(ms, ids, r, steps, c) && c.nodes.Keys == ids && c.hist.wins.Keys == {1}
    ensures Append(1, 2, 1, 1, 0, 0, 0, [], 1) in c.net
    ensures c.nodes[1] == FreshNode.(term := 1, votedFor := Some(1))
    ensures c.nodes[2] == Voter(FreshNode, 1, 1) && c.nodes[3] == FreshNode
  {
    Fold(ms, ids, r, [], Init(ids));
    var c1, c2, c3, m;
    steps, c1 := Elect(ms, ids, r, [], Init(ids), 1, 2);
    steps, c2 := Begins(ms, ids, r, steps, c1, 1);
    steps, c3, m := Sends(ms, ids, r, steps, c2, 1, 2);
    steps, c := Restarts(ms, ids, r, steps, c3, 1);
  }

  lemma TokenReturns(ms: Members, ids: set<PeerId>, r: Rules) returns (steps: seq<Step>, c: State)
    requires ms == Members([1, 2, 3], []) && ids == {1, 2, 3}
    ensures Reaches(ms, ids, r, steps, c) && c.nodes.Keys == ids && 3 in c.hist.wins
    ensures AppendResp(2, 1, 2, false, 0, 1) in c.net
    ensures c.nodes[1] == Winner(ms, FreshNode.(term := 1, votedFor := Some(1)), 1, [2]) && c.nodes[2].term == 3
  {
    var c1, c2, c3, c4;
    steps, c1 := OldToken(ms, ids, r);
    steps, c2 := Elect(ms, ids, r, steps, c1, 1, 2);
    steps, c3 := Refuses(ms, ids, r, steps, c2, Append(1, 2, 1, 1, 0, 0, 0, [], 1));
    steps, c4 := Observes(ms, ids, r, steps, c3, 3, 2);
    steps, c := Elect(ms, ids, r, steps, c4, 3, 2);
  }

  /** The buffered answer completes the round. */
  lemma Confirms(ms: Members, ids: set<PeerId>, r: Rules, steps: seq<Step>, c: State, nd: Node)
    returns (steps': seq<Step>, c': State)
    requires ms == Members([1, 2, 3], []) && Reaches(ms, ids, r, steps, c) && 1 in c.nodes
    requires AppendResp(2, 1, 2, false, 0, 1) in c.net && c.nodes[1] == BeginRound(nd, 1)
    requires nd.role == Leader && nd.term == 2 && nd.probe == 0
    ensures Reaches(ms, ids, r, steps', c') && steps <= steps' && 1 in c'.nodes && RoundConfirmed(c'.nodes[1], ms.voters)
    ensures c'.nodes[1].round.value.term == 2
  {
    var s := DeliverAppendReply(1, AppendResp(2, 1, 2, false, 0, 1));
    Take(ms, ids, r, steps, c, s);
    c', steps' := Apply(ms, c, s), steps + [s];
    assert c'.nodes[1].round.value.acks == [1] + [2];
  }

  /**
   A restart breaks the freshness of read rounds: all conditions of the safety
   theorems hold, the round begun at step `s` is confirmed, and yet an election
   of a later term had been won before `s`.
   */
  lemma RestartConfirmsStaleRound(ms: Members, ids: set<PeerId>) returns (steps: seq<Step>, s: nat)
    requires ms == Members([1, 2, 3], []) && ids == {1, 2, 3}
    ensures s < |steps| && steps[s] == StartRound(1) && RunUnder(ms, ids, Rules(true, true, true, true), steps)
    ensures Exec(ms, ids, steps[..s]).Some? && Exec(ms, ids, steps).Some?
    ensures var c0, c := Exec(ms, ids, steps[..s]).value, Exec(ms, ids, steps).value;
            && 1 in c.nodes && RoundConfirmed(c.nodes[1], ms.voters)
            && 3 in c0.hist.wins && c.nodes[1].round.value.term < 3 && !ReadIndex.NoStaleAnswer(c0, 1)
  {
    var r := Rules(true, true, true, true);
    var before, c0, c;
    before, c0, steps, c := StaleRound(ms, ids, r);
    s := |before|;
    Moments(ms, ids, r, before, c0, steps, c);
  }

  lemma StaleRound(ms: Members, ids: set<PeerId>, r: Rules)
    returns (before: seq<Step>, c0: State, steps: seq<Step>, c: State)
    requires ms == Members([1, 2, 3], []) && ids == {1, 2, 3}
    ensures Reaches(ms, ids, r, before, c0) && Reaches(ms, ids, r, steps, c)
    ensures before + [StartRound(1)] <= steps && steps[|before|] == StartRound(1) && 3 in c0.hist.wins
    ensures 1 in c.nodes && RoundConfirmed(c.nodes[1], ms.voters) && c.nodes[1].round.value.term == 2
    ensures !ReadIndex.NoStaleAnswer(c0, 1)
  {
    var c1;
    before, c0 := TokenReturns(ms, ids, r);
    assert !ReadIndex.AnswerFresh(c0, 1, NextProbe(c0.nodes[1].probe), AppendResp(2, 1, 2, false, 0, 1));
    steps, c1 := Begins(ms, ids, r, before, c0, 1);
    steps, c := Confirms(ms, ids, r, steps, c1, c0.nodes[1]);
    assert steps[|before|] == (before + [StartRound(1)])[|before|];
  }
}
