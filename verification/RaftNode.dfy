/** The live node: every handler, in place, is exactly the function the cluster model composes. */
module RaftNode {
  import opened Types
  import opened Quorums
  import opened NodeSpec
  import NL = NodeLog

  /** The log reaches back to index 1. */
  predicate Whole(es: seq<Entry>) {
    NL.Contiguous(es) && (es != [] ==> es[0].index == 1)
  }

  lemma WholeFacts(es: seq<Entry>, i: nat)
    requires Whole(es)
    ensures TermOf(es, i) == NL.StoredTerm(es, i) && TipIndex(es) == |es| && Indexed(es)
    ensures NL.Last(es) == (TipIndex(es), TipTerm(es))
  {
    forall k | 0 <= k < |es|
      ensures es[k].index == k + 1
    {
    }
  }

  /** Whether the batch is refused, and what it leaves, is the scan of the specification. */
  lemma MergeIsMerged(es: seq<Entry>, prev: nat, batch: seq<Entry>)
    requires Whole(es) && NL.Contiguous(batch) && prev < U64_MAX - |batch| && prev <= |es|
    ensures Merge(es, prev, batch) == if NL.Follows(batch, prev) then Ok(NL.Merged(es, batch)) else Err
    ensures NL.Follows(batch, prev) ==> Whole(NL.Merged(es, batch))
  {
    if NL.Follows(batch, prev) {
      ScanIsMerged(es, prev, batch, 0);
      NL.MergedIs(es, prev, batch, 0);
      var k := NL.Matching(es, batch);
      if k < |batch| { NL.CutReaches(es, prev, batch, k); }
    }
  }

  lemma {:induction false} ScanIsMerged(es: seq<Entry>, prev: nat, batch: seq<Entry>, k: nat)
    requires Whole(es) && NL.Follows(batch, prev) && prev < U64_MAX - |batch| && NL.Reachable(es, prev)
    requires k <= NL.Matching(es, batch)
    ensures Scan(es, prev, batch, k) == Ok(NL.Merged(es, batch))
    decreases |batch| - k
  {
    if k < NL.Matching(es, batch) {
      WholeFacts(es, batch[k].index);
      ScanIsMerged(es, prev, batch, k + 1);
    } else if k < |batch| {
      MergedDiffers(es, prev, batch, k);
      ScanStops(es, prev, batch, k, NL.Merged(es, batch));
    }
  }

  /** The scan at the first entry that differs. */
  lemma ScanStops(es: seq<Entry>, prev: nat, batch: seq<Entry>, k: nat, merged: seq<Entry>)
    requires k < |batch| && batch[k].index == prev + 1 + k && prev < U64_MAX - |batch|
    requires TermOf(es, batch[k].index) != Some(batch[k].term)
    requires merged == if TermOf(es, batch[k].index).Some? then es[..batch[k].index - 1] + batch[k..] else es + batch[k..]
    ensures Scan(es, prev, batch, k) == Ok(merged)
  {
  }

  lemma MergedDiffers(es: seq<Entry>, prev: nat, batch: seq<Entry>, k: nat)
    requires Whole(es) && NL.Follows(batch, prev) && NL.Reachable(es, prev)
    requires k == NL.Matching(es, batch) < |batch|
    ensures batch[k].index == prev + 1 + k && TermOf(es, batch[k].index) == NL.StoredTerm(es, batch[k].index)
    ensures NL.Merged(es, batch) == if TermOf(es, batch[k].index).Some?
                                    then es[..batch[k].index - 1] + batch[k..] else es + batch[k..]
  {
    WholeFacts(es, batch[k].index);
    NL.CutReaches(es, prev, batch, k);
    FirstDifference(es, batch, k);
  }

  lemma FirstDifference(es: seq<Entry>, batch: seq<Entry>, k: nat)
    requires Whole(es) && k < |batch| && k == NL.Matching(es, batch) && batch[k].index >= 1
    requires var base := NL.CutFrom(es, batch[k].index);
             && (base == [] ==> es == [] || es[0].index == batch[k].index)
             && (base != [] ==> base[0] == es[0] && base[0].index + |base| == batch[k].index)
    ensures NL.Merged(es, batch) == if NL.StoredTerm(es, batch[k].index).Some?
                                    then es[..batch[k].index - 1] + batch[k..] else es + batch[k..]
  {
    var base := NL.CutFrom(es, batch[k].index);
    if es == [] {
      assert base + batch[k..] == es + batch[k..];
    }
  }

  lemma Proposed(es: seq<Entry>, es': seq<Entry>, term: nat, payloads: seq<seq<Byte>>)
    requires Whole(es) && NL.Contiguous(es') && |es'| == |es| + |payloads| && es'[..|es|] == es
    requires forall k :: 0 <= k < |payloads| ==> es'[|es| + k] == Entry(term, |es| + 1 + k, payloads[k])
    ensures es' == es + NewEntries(term, TipIndex(es), payloads) && Whole(es') && TipIndex(es') == |es'|
  {
    WholeFacts(es, 0);
    var more := NewEntries(term, TipIndex(es), payloads);
    forall i | 0 <= i < |es'|
      ensures es'[i] == (es + more)[i]
    {
      if i < |es| { assert es'[i] == es'[..|es|][i]; } else { assert es'[i] == es'[|es| + (i - |es|)]; }
    }
    WholeFacts(es', 0);
  }

  class Raft {
    const id: PeerId
    const members: Members
    const joint: Option<(seq<PeerId>, seq<PeerId>)>
    const log: NL.Log
    var term: nat
    var votedFor: Option<PeerId>
    var role: Role
    var leaderId: Option<PeerId>
    var commit: nat
    var progress: map<PeerId, Progress>
    var responders: seq<PeerId>
    var granted: seq<PeerId>
    var probe: nat
    var round: Option<Round>

    ghost predicate Valid()
      reads this, log, log.arena, log.arena.slots
    {
      && log.Valid() && log.TipOk() && Whole(log.entries)
      && (log.boundaryIndex, log.boundaryTerm) == (0, 0)
      && (joint.Some? ==> members.voters == Union(joint.value.0, joint.value.1))
    }

    /** The effective configuration: the pair while a transition is active, else the voters. */
    function Effective(): Voters {
      if joint.Some? then Joint(joint.value.0, joint.value.1) else Simple(members.voters)
    }

    ghost function State(): Node
      reads this, log
    {
      Node(term, votedFor, log.entries, role, leaderId, commit, progress, responders, granted, probe, round)
    }

    /** Votes are counted once each, from voters that answered and from the node itself. */
    ghost predicate VotesOk()
      reads this
    {
      Distinct(granted) && forall p :: p in granted ==> p == id || (p in responders && p in members.voters)
    }

    /** Round answers are counted once each, from voters and the node itself. */
    ghost predicate RoundOk()
      reads this
    {
      round.Some? ==>
        Distinct(round.value.acks) && forall p :: p in round.value.acks ==> p == id || p in members.voters
    }

    constructor (id: PeerId, members: Members, joint: Option<(seq<PeerId>, seq<PeerId>)>, capacity: nat)
      requires joint.Some? ==> members.voters == Union(joint.value.0, joint.value.1)
      ensures Valid() && State() == FreshNode && this.id == id && this.members == members && this.joint == joint
    {
      this.id, this.members, this.joint := id, members, joint;
      log := new NL.Log(capacity);
      term, votedFor, role, leaderId, commit := 0, None, Follower, None, 0;
      progress, responders, granted, probe, round := map[], [], [], 0, None;
    }

    method StopLeading()
      requires Valid()
      modifies this
      ensures Valid() && State() == Demote(old(State()))
    {
      role, leaderId, progress := Follower, None, map[];
    }

    method AdoptTerm(t: nat)
      requires Valid()
      modifies this
      ensures Valid() && State() == StepDown(old(State()), t)
      ensures role == Follower && votedFor == None && log.entries == old(log.entries) && commit == old(commit)
    {
      term, votedFor := t, None;
      StopLeading();
    }

    method StandForElection()
      requires Valid()
      modifies this
      ensures Valid() && State() == StartCampaign(old(State()), id)
      ensures VotesOk() && votedFor == Some(id) && (old(term) < U64_MAX ==> term > old(term))
    {
      role, leaderId := Candidate, None;
      term := SatAdd(term, 1);
      votedFor := Some(id);
      responders, granted := [], [id];
    }

    method HandleVoteRequest(t: nat, cand: PeerId, lastIndex: nat, lastTerm: nat) returns (grant: bool)
      requires Valid()
      modifies this
      ensures Valid() && (State(), grant) == OnVoteRequest(old(State()), t, cand, lastIndex, lastTerm)
    {
      if t > term { AdoptTerm(t); }
      WholeFacts(log.entries, 0);
      var myIndex, myTerm := log.tipIndex, log.tipTerm;
      var upToDate := lastTerm > myTerm || (lastTerm == myTerm && lastIndex >= myIndex);
      var canVote := votedFor == None || votedFor == Some(cand);
      grant := t == term && upToDate && canVote;
      if grant { votedFor := Some(cand); }
    }

    method HandleVoteReply(src: PeerId, t: nat, grant: bool)
      requires Valid()
      modifies this
      ensures Valid() && State() == OnVoteReply(old(State()), members.voters, src, t, grant)
      ensures old(VotesOk()) && src != id ==> VotesOk()
      ensures granted != old(granted) ==> src in members.voters && src !in old(responders) && grant && t == term == old(term)
    {
      if role != Candidate {
        if t > term { AdoptTerm(t); }
        return;
      }
      if src in responders { return; }
      responders := responders + [src];
      if t > term {
        AdoptTerm(t);
      } else if t == term && grant && src in members.voters {
        granted := granted + [src];
      }
    }

    /** Fresh progress for every other member. */
    method InitProgress()
      requires Valid()
      modifies this`progress
      ensures Valid() && progress == FreshProgress(members, id, TipIndex(log.entries))
    {
      WholeFacts(log.entries, 0);
      progress := map[];
      var all := members.voters + members.learners;
      for i := 0 to |all|
        invariant forall p :: p in progress <==> p in all[..i] && p != id
        invariant forall p :: p in progress ==> progress[p] == Progress(SatAdd(log.tipIndex, 1), 0)
      {
        assert all[..i + 1] == all[..i] + [all[i]];
        if all[i] != id { progress := progress[all[i] := Progress(SatAdd(log.tipIndex, 1), 0)]; }
      }
      assert all[..|all|] == all;
    }

    method BecomeLeader()
      requires Valid()
      modifies this
      ensures Valid() && State() == TakeLead(old(State()), members, id)
    {
      role, leaderId := Leader, Some(id);
      InitProgress();
    }

    method AppendBatch(payloads: seq<seq<Byte>>) returns (last: Result<nat>)
      requires Valid() && |log.entries| + |payloads| + 1 < U64_MAX
      modifies this, log, log.arena, log.arena.slots
      ensures Valid() && State() == LeaderAppend(old(State()), members, id, payloads)
      ensures payloads != [] ==> last == Ok(TipIndex(log.entries))
    {
      if progress == map[] { InitProgress(); }
      last := AppendLog(payloads);
    }

    method AppendLog(payloads: seq<seq<Byte>>) returns (last: Result<nat>)
      requires Valid() && |log.entries| + |payloads| + 1 < U64_MAX
      modifies log, log.arena, log.arena.slots
      ensures Valid() && log.entries == old(log.entries) + NewEntries(term, TipIndex(old(log.entries)), payloads)
      ensures payloads != [] ==> last == Ok(TipIndex(log.entries))
    {
      ghost var es := log.entries;
      WholeFacts(es, 0);
      last := log.AppendPropose(term, payloads);
      assert log.entries[..|es|] == es;
      Proposed(es, log.entries, term, payloads);
    }

    /** The part of the append handler after the consistency check passed. */
    method Accept(prev: nat, leaderCommit: nat, batch: seq<Entry>) returns (r: Reply)
      requires Valid() && NL.Contiguous(batch) && prev < U64_MAX - |batch| && prev <= |log.entries|
      modifies this`commit, log, log.arena, log.arena.slots
      ensures Valid() && Whole(log.entries)
      ensures match Merge(old(log.entries), prev, batch)
              case Err => r == Silent && log.entries == old(log.entries) && commit == old(commit)
              case Ok(es) =>
                && r == Reply(term, true, TipIndex(es)) && log.entries == es
                && commit == if leaderCommit > old(commit) then Min(leaderCommit, TipIndex(es)) else old(commit)
    {
      WholeFacts(log.entries, 0);
      MergeIsMerged(log.entries, prev, batch);
      var merged, _ := log.ApplyAppend(prev, batch);
      if !merged { return Silent; }
      WholeFacts(log.entries, 0);
      if leaderCommit > commit { commit := Min(leaderCommit, log.tipIndex); }
      return Reply(term, true, log.tipIndex);
    }

    method PrevMatches(prev: nat, prevTerm: nat) returns (ok: bool)
      requires Valid()
      ensures ok <==> PrevOk(log.entries, prev, prevTerm)
    {
      WholeFacts(log.entries, prev);
      if prev == 0 { return true; }
      var t := log.LocalTerm(prev);
      return t == Some(prevTerm) || (t == None && (log.tipIndex, log.tipTerm) == (prev, prevTerm));
    }

    /** A current or later term's leader is acknowledged. */
    method FollowLeader(t: nat, leader: PeerId)
      requires Valid() && t >= term
      modifies this
      ensures Valid() && State() == Observe(old(State()), t).(role := Follower, leaderId := Some(leader))
    {
      if t > term { AdoptTerm(t); }
      role, leaderId := Follower, Some(leader);
    }

    method HandleAppend(t: nat, leader: PeerId, prev: nat, prevTerm: nat, leaderCommit: nat, batch: seq<Entry>)
      returns (r: Reply)
      requires Valid() && NL.Contiguous(batch) && prev < U64_MAX - |batch|
      modifies this, log, log.arena, log.arena.slots
      ensures Valid() && (State(), r) == OnAppendRequest(old(State()), t, leader, prev, prevTerm, leaderCommit, batch)
    {
      WholeFacts(log.entries, prev);
      if t < term { return Reply(term, false, log.tipIndex); }
      FollowLeader(t, leader);
      var ok := PrevMatches(prev, prevTerm);
      if !ok { return Reply(term, false, Min(log.tipIndex, SatSub(prev, 1))); }
      r := Accept(prev, leaderCommit, batch);
    }

    method HandleAppendReply(src: PeerId, t: nat, success: bool, matched: nat)
      requires Valid()
      modifies this
      ensures Valid() && State() == OnAppendReply(old(State()), src, t, success, matched)
    {
      WholeFacts(log.entries, 0);
      if t > term {
        AdoptTerm(t);
        return;
      }
      if role != Leader || src !in progress { return; }
      var cap := SatAdd(log.tipIndex, 1);
      var p := progress[src];
      if success {
        if matched > p.matched { p := p.(matched := matched); }
        var next := Min(SatAdd(matched, 1), cap);
        if next > p.next { p := p.(next := next); }
        progress := progress[src := p];
      } else if matched >= p.matched {
        progress := progress[src := p.(next := Rewind(p.next, matched, cap))];
      }
    }

    /** The gather's handler; `completed` when the peer now holds `target`. */
    method HandlePendingReply(src: PeerId, sentLast: nat, target: nat, t: nat, success: bool, matched: nat)
      returns (completed: bool)
      requires Valid()
      modifies this
      ensures Valid() && State() == OnPendingReply(old(State()), src, sentLast, t, success, matched)
      ensures completed <==> t <= old(term) && src in old(progress) && success && matched >= sentLast && matched >= target
    {
      WholeFacts(log.entries, 0);
      completed := false;
      if t > term {
        AdoptTerm(t);
        return;
      }
      if src !in progress { return; }
      var cap := SatAdd(log.tipIndex, 1);
      var p := progress[src];
      if success {
        if matched < sentLast { return; }
        progress := progress[src := Progress(Min(SatAdd(matched, 1), cap), matched)];
        completed := matched >= target;
      } else {
        if matched < p.matched { return; }
        progress := progress[src := Progress(Rewind(p.next, matched, cap), p.matched)];
      }
    }

    /** One side, or the smaller of both sides of a joint configuration. */
    method QuorumOf() returns (q: Option<nat>)
      requires Valid()
      ensures q == CommitIndex(Effective(), progress, id, log.tipIndex)
    {
      if joint.None? {
        q := SubsetQuorumIndex(progress, id, members.voters, log.tipIndex);
        return;
      }
      var o := SubsetQuorumIndex(progress, id, joint.value.0, log.tipIndex);
      if o.None? { return None; }
      var n := SubsetQuorumIndex(progress, id, joint.value.1, log.tipIndex);
      if n.None? { return None; }
      return Some(Min(o.value, n.value));
    }

    /** The term at `q`: the cached tip's, or the ring's or storage's; 0 where there is none. */
    method TermAt(q: nat) returns (t: nat)
      requires Valid() && q > 0
      modifies log.arena, log.arena.slots
      ensures Valid() && var known := TermOf(log.entries, q); t == if known.Some? then known.value else 0
    {
      WholeFacts(log.entries, q);
      if q == log.tipIndex { return log.tipTerm; }
      var known := log.Recall(q);
      return if known.Some? then known.value else 0;
    }

    method TryAdvanceCommit()
      requires Valid()
      modifies this, log.arena, log.arena.slots
      ensures Valid() && State() == AdvanceCommit(old(State()), Effective(), id)
    {
      WholeFacts(log.entries, 0);
      if |members.voters| > 1 && progress == map[] { return; }
      if log.tipIndex <= commit { return; }
      var q := QuorumOf();
      if q.None? || q.value <= commit { return; }
      var t := TermAt(q.value);
      if t == term { commit := q.value; }
    }

    method StartReadRound()
      requires Valid()
      modifies this
      ensures Valid() && State() == BeginRound(old(State()), id)
      ensures 1 <= probe <= U32_MAX && (old(probe) <= U32_MAX ==> probe != old(probe)) && RoundOk()
    {
      probe := (probe + 1) % (U32_MAX + 1);
      if probe == 0 { probe := 1; }
      round := Some(Round(term, probe, [id], commit));
    }

    method CountAnswer(src: PeerId, t: nat, echoed: nat)
      requires Valid()
      modifies this
      ensures Valid() && State() == CountRoundAck(old(State()), members.voters, src, t, echoed)
      ensures old(RoundOk()) ==> RoundOk()
      ensures round.Some? ==> old(round).Some? && round.value.readIndex == old(round).value.readIndex
                              && |old(round).value.acks| <= |round.value.acks| <= |old(round).value.acks| + 1
    {
      if round.None? { return; }
      var r := round.value;
      if t == r.term && echoed == r.probe && src in members.voters && src !in r.acks {
        round := Some(r.(acks := r.acks + [src]));
      }
    }
  }
}
