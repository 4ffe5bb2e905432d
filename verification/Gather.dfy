/** The propose-time ack counter: a cheap count that stands for the commit quorum. */
module Gather {
  import opened Types
  import opened Quorums
  import opened NodeSpec

  /** The proposing node, the peers still awaited with the last index sent to each, and the counter. */
  datatype Gathering = Gathering(node: Node, pending: map<PeerId, nat>, accepted: nat)

  /** A frame that arrives while gathering: an append response, or anything else that may show a higher term. */
  datatype Frame = Answer(src: PeerId, term: nat, success: bool, matched: nat) | Sighting(term: nat)

  /** The response brings a pending peer to the batch end. */
  predicate Completes(g: Gathering, target: nat, f: Frame) {
    && f.Answer? && f.src in g.pending && f.term <= g.node.term && f.src in g.node.progress
    && f.success && f.matched >= g.pending[f.src] && f.matched >= target
  }

  /** One frame: pending peers go through the gather's handler, others through the ordinary one. */
  function Process(g: Gathering, voters: seq<PeerId>, target: nat, f: Frame): Gathering {
    if f.Sighting? then g.(node := Observe(g.node, f.term))
    else if f.src !in g.pending then g.(node := OnAppendReply(g.node, f.src, f.term, f.success, f.matched))
    else
      var node := OnPendingReply(g.node, f.src, g.pending[f.src], f.term, f.success, f.matched);
      if Completes(g, target, f)
      then Gathering(node, g.pending - {f.src}, g.accepted + if f.src in voters then 1 else 0)
      else g.(node := node)
  }

  function ProcessAll(g: Gathering, voters: seq<PeerId>, target: nat, fs: seq<Frame>): Gathering
    decreases |fs|
  {
    if fs == [] then g else ProcessAll(Process(g, voters, target, fs[0]), voters, target, fs[1..])
  }

  // -------------------------------------------------------------- the counter

  /** `v` holds the batch, as far as the leader knows. */
  predicate Holds(node: Node, v: PeerId, target: nat) {
    v in node.progress && node.progress[v].matched >= target
  }

  /** The counter is one more than the number of distinct voters in `done`, none of which is awaited any more. */
  ghost predicate Counts(g: Gathering, voters: seq<PeerId>, self: PeerId, target: nat, done: set<PeerId>) {
    && g.accepted == 1 + |done| && self !in done && self !in g.pending
    && (forall v :: v in done ==> v in voters && v !in g.pending && Holds(g.node, v, target))
  }

  /** The node still leads the term it proposed in. */
  predicate StillLeads(g: Gathering, t: nat) { g.node.role == Leader && g.node.term == t }

  /** Leadership of the term, once lost, does not come back while gathering. */
  lemma LostStaysLost(g: Gathering, voters: seq<PeerId>, target: nat, f: Frame, t: nat)
    requires StillLeads(Process(g, voters, target, f), t)
    ensures StillLeads(g, t)
  {
  }

  /** One frame counts at most one more voter, and only one that now holds the batch. */
  lemma ProcessCounts(g: Gathering, voters: seq<PeerId>, self: PeerId, target: nat, f: Frame, t: nat, done: set<PeerId>)
    returns (done': set<PeerId>)
    requires Counts(g, voters, self, target, done) && StillLeads(Process(g, voters, target, f), t)
    ensures Counts(Process(g, voters, target, f), voters, self, target, done')
  {
    LostStaysLost(g, voters, target, f, t);
    done' := if Completes(g, target, f) && f.src in voters then done + {f.src} else done;
  }

  lemma {:induction false} ProcessAllCounts(g: Gathering, voters: seq<PeerId>, self: PeerId, target: nat, fs: seq<Frame>, t: nat,
                                            done: set<PeerId>) returns (done': set<PeerId>)
    requires Counts(g, voters, self, target, done) && StillLeads(ProcessAll(g, voters, target, fs), t)
    ensures Counts(ProcessAll(g, voters, target, fs), voters, self, target, done')
    decreases |fs|
  {
    if fs == [] {
      done' := done;
    } else {
      var g1 := Process(g, voters, target, fs[0]);
      AlwaysLed(g1, voters, target, fs[1..], t);
      var done1 := ProcessCounts(g, voters, self, target, fs[0], t, done);
      done' := ProcessAllCounts(g1, voters, self, target, fs[1..], t, done1);
    }
  }

  lemma {:induction false} AlwaysLed(g: Gathering, voters: seq<PeerId>, target: nat, fs: seq<Frame>, t: nat)
    requires StillLeads(ProcessAll(g, voters, target, fs), t)
    ensures StillLeads(g, t)
    decreases |fs|
  {
    if fs != [] {
      AlwaysLed(Process(g, voters, target, fs[0]), voters, target, fs[1..], t);
      LostStaysLost(g, voters, target, fs[0], t);
    }
  }

  /** What the counter proves about the voters: all it claims, minus the leader's own ack if it does not vote. */
  lemma CounterBound(g: Gathering, voters: seq<PeerId>, self: PeerId, last: nat, target: nat, done: set<PeerId>)
    requires Distinct(voters) && Counts(g, voters, self, target, done) && target <= last
    ensures CountAtLeast(Acks(g.node.progress, self, last, voters), target) >= g.accepted - (if self in voters then 0 else 1)
  {
    CountAcksIsIntersection(g.node.progress, self, last, voters, target);
    var ackers := Ackers(g.node.progress, self, last, voters, target);
    var mine := if self in voters then done + {self} else done;
    assert |mine| == g.accepted - (if self in voters then 0 else 1);
    forall v | v in mine
      ensures v in ackers
    {
      if v != self { assert Holds(g.node, v, target); }
    }
    SubsetSize(mine, ackers);
  }

  /**
   The fast counter refines the quorum index: after any frames, in any order and
   with any repetition, if the node still leads its term and votes itself, a
   counter at the majority means a majority of the voters holds the batch.
   */
  lemma FastCountIsQuorum(g: Gathering, voters: seq<PeerId>, self: PeerId, target: nat, fs: seq<Frame>, t: nat)
    requires Distinct(voters) && self in voters && g.accepted == 1 && self !in g.pending
    requires StillLeads(ProcessAll(g, voters, target, fs), t)
    requires target <= TipIndex(g.node.log)
    requires ProcessAll(g, voters, target, fs).accepted >= Quorum(|voters|)
    ensures var g' := ProcessAll(g, voters, target, fs);
            MajorityAcked(g'.node.progress, self, TipIndex(g'.node.log), voters, target)
  {
    var done := ProcessAllCounts(g, voters, self, target, fs, t, {});
    LogStays(g, voters, target, fs);
    CounterBound(ProcessAll(g, voters, target, fs), voters, self, TipIndex(g.node.log), target, done);
  }

  lemma {:induction false} LogStays(g: Gathering, voters: seq<PeerId>, target: nat, fs: seq<Frame>)
    ensures ProcessAll(g, voters, target, fs).node.log == g.node.log
    decreases |fs|
  {
    if fs != [] { LogStays(Process(g, voters, target, fs[0]), voters, target, fs[1..]); }
  }

  /** Voters that hold the batch without having been counted: they did before the proposal, or answered out of turn. */
  function Uncounted(g: Gathering, voters: seq<PeerId>, self: PeerId, target: nat, done: set<PeerId>): set<PeerId> {
    set v | v in voters && v != self && v !in done && Holds(g.node, v, target)
  }

  /** The holders are the counted voters, the ones left out, and the leader if it votes. */
  lemma HoldersSplit(g: Gathering, voters: seq<PeerId>, self: PeerId, last: nat, target: nat, done: set<PeerId>)
    requires Counts(g, voters, self, target, done) && 0 < target <= last
    ensures var mine := if self in voters then done + {self} else done;
            Ackers(g.node.progress, self, last, voters, target) == mine + Uncounted(g, voters, self, target, done)
  {
    var ackers := Ackers(g.node.progress, self, last, voters, target);
    var mine := if self in voters then done + {self} else done;
    forall v
      ensures v in mine + Uncounted(g, voters, self, target, done) <==> v in ackers
    {
      if v != self { assert v in done ==> Holds(g.node, v, target); }
    }
  }

  /**
   The exact condition: a majority holds the batch if and only if the counter,
   without the leader's own ack unless the leader votes, reaches the majority
   together with the voters it left out.
   */
  lemma CounterIsExact(g: Gathering, voters: seq<PeerId>, self: PeerId, last: nat, target: nat, done: set<PeerId>)
    requires Distinct(voters) && Counts(g, voters, self, target, done) && 0 < target <= last
    ensures MajorityAcked(g.node.progress, self, last, voters, target) <==>
            g.accepted + |Uncounted(g, voters, self, target, done)| >= Quorum(|voters|) + (if self in voters then 0 else 1)
  {
    CountAcksIsIntersection(g.node.progress, self, last, voters, target);
    HoldersSplit(g, voters, self, last, target, done);
    var others := Uncounted(g, voters, self, target, done);
    assert self in voters ==> |done + {self}| == |done| + 1;
    assert done !! others && done + {self} !! others;
  }

  /** The counter lags behind: node 2, whose first send failed, holds the batch and makes the majority without being counted. */
  lemma UnawaitedHolder(g: Gathering)
    requires g.node.role == Leader && g.node.term == 1 && g.node.log == [Entry(1, 1, [])]
    requires g.node.progress == map[2 := Progress(1, 0), 3 := Progress(1, 0)]
    requires g.pending == map[3 := 1] && g.accepted == 1
    ensures var g' := Process(g, [1, 2, 3], 1, Answer(2, 1, true, 1));
            && StillLeads(g', 1) && g'.accepted < Quorum(|[1, 2, 3]|)
            && MajorityAcked(g'.node.progress, 1, TipIndex(g'.node.log), [1, 2, 3], 1)
  {
    var g' := Process(g, [1, 2, 3], 1, Answer(2, 1, true, 1));
    CountAcksIsIntersection(g'.node.progress, 1, 1, [1, 2, 3], 1);
    assert Ackers(g'.node.progress, 1, 1, [1, 2, 3], 1) == {1, 2};
  }

  /** A learner's answer, a second answer and an answer of a refused append leave the counter alone. */
  lemma NoCount(g: Gathering, voters: seq<PeerId>, target: nat, f: Frame)
    requires f.Answer? && (f.src !in voters || f.src !in g.pending || !f.success)
    ensures Process(g, voters, target, f).accepted == g.accepted
  {
  }

  /** The gather loop: frames until the counter is reached, nobody is awaited, or the frames run out. */
  method GatherAcks(start: Gathering, voters: seq<PeerId>, self: PeerId, needed: nat, target: nat, frames: seq<Frame>)
    returns (g: Gathering, used: nat)
    requires start.accepted == 1 && self !in start.pending && Distinct(voters) && self in voters
    requires target <= TipIndex(start.node.log) && needed == Quorum(|voters|)
    ensures used <= |frames| && g == ProcessAll(start, voters, target, frames[..used])
    ensures g.accepted >= needed || g.pending == map[] || used == |frames|
    ensures g.accepted >= needed && g.node.role == Leader ==>
              MajorityAcked(g.node.progress, self, TipIndex(g.node.log), voters, target)
  {
    g, used := start, 0;
    while g.accepted < needed && g.pending != map[] && used < |frames|
      invariant used <= |frames| && g == ProcessAll(start, voters, target, frames[..used])
    {
      ProcessOneMore(start, voters, target, frames[..used], frames[used]);
      assert frames[..used + 1] == frames[..used] + [frames[used]];
      g := Process(g, voters, target, frames[used]);
      used := used + 1;
    }
    if g.accepted >= needed && g.node.role == Leader {
      FastCountIsQuorum(start, voters, self, target, frames[..used], g.node.term);
    }
  }

  lemma {:induction false} ProcessOneMore(g: Gathering, voters: seq<PeerId>, target: nat, fs: seq<Frame>, f: Frame)
    ensures ProcessAll(g, voters, target, fs + [f]) == Process(ProcessAll(g, voters, target, fs), voters, target, f)
    decreases |fs|
  {
    if fs == [] {
      assert (fs + [f])[1..] == [];
    } else {
      assert (fs + [f])[1..] == fs[1..] + [f];
      ProcessOneMore(Process(g, voters, target, fs[0]), voters, target, fs[1..], f);
    }
  }
}
