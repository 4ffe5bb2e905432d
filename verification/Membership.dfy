/** Configuration changes: the control entry on the log and what adopting it does to the member lists. */
module Membership {
  import opened Types
  import opened Bytes

  const MAGIC: Byte := 0xC0
  const VERSION: Byte := 1
  const NOOP_DISCRIMINANT: Byte := 0x7F
  const HEADER_LEN: nat := 12

  datatype Phase = JointPhase | FinalPhase | AddLearners | RemoveLearners

  /** A control entry: the phase and the two id lists it carries. */
  datatype Change = Change(phase: Phase, older: seq<PeerId>, newer: seq<PeerId>)

  // ------------------------------------------------------------- wire layout

  function Tag(p: Phase): Byte {
    match p
    case JointPhase => 1
    case FinalPhase => 2
    case AddLearners => 3
    case RemoveLearners => 4
  }

  function PhaseOf(b: Byte): Option<Phase> {
    if b == 1 then Some(JointPhase)
    else if b == 2 then Some(FinalPhase)
    else if b == 3 then Some(AddLearners)
    else if b == 4 then Some(RemoveLearners)
    else None
  }

  /** Magic, version, tag, a reserved byte and both list lengths, truncated to 32 bits. */
  function Header(ch: Change, pad: Byte): (b: seq<Byte>)
    ensures |b| == HEADER_LEN
  {
    [MAGIC, VERSION, Tag(ch.phase), pad] + ToLe(|ch.older|, 4) + ToLe(|ch.newer|, 4)
  }

  function Encode(ch: Change): seq<Byte> {
    Header(ch, 0) + (PutIds(ch.older) + PutIds(ch.newer))
  }

  /** The leader's no-op entry. */
  const NOOP: seq<Byte> := [MAGIC, VERSION, NOOP_DISCRIMINANT, 0]

  /** A payload that is no control entry decodes to `None`; bytes after the lists are ignored. */
  function Decode(b: seq<Byte>): Option<Change> {
    if |b| < HEADER_LEN || b[0] != MAGIC || b[1] != VERSION || PhaseOf(b[2]).None? then None
    else
      var n, m := FromLe(b[4..8]), FromLe(b[8..12]);
      if |b| < HEADER_LEN + 8 * n + 8 * m then None
      else Some(Change(PhaseOf(b[2]).value, GetIds(b[12..], n), GetIds(b[12 + 8 * n..], m)))
  }

  /** The lists fit the wire: 32-bit lengths, 64-bit ids. */
  predicate Encodable(ch: Change) {
    |ch.older| <= U32_MAX && |ch.newer| <= U32_MAX && Ids64(ch.older) && Ids64(ch.newer)
  }

  lemma HeaderFields(ch: Change, pad: Byte, rest: seq<Byte>)
    requires |ch.older| <= U32_MAX && |ch.newer| <= U32_MAX
    ensures var b := Header(ch, pad) + rest;
            && b[0] == MAGIC && b[1] == VERSION && b[2] == Tag(ch.phase) && b[3] == pad && b[12..] == rest
            && FromLe(b[4..8]) == |ch.older| && FromLe(b[8..12]) == |ch.newer|
  {
    var b := Header(ch, pad) + rest;
    U32RoundTrip(|ch.older|);
    U32RoundTrip(|ch.newer|);
    assert b[4..8] == ToLe(|ch.older|, 4);
    assert b[8..12] == ToLe(|ch.newer|, 4);
  }

  /** Decoding gives back what was encoded, whatever follows it. */
  lemma RoundTrip(ch: Change, rest: seq<Byte>)
    requires Encodable(ch)
    ensures Decode(Encode(ch) + rest) == Some(ch)
  {
    var ids := PutIds(ch.older) + (PutIds(ch.newer) + rest);
    var b := Header(ch, 0) + ids;
    assert Encode(ch) + rest == b;
    HeaderFields(ch, 0, ids);
    IdsRoundTrip(ch.older, PutIds(ch.newer) + rest);
    IdsRoundTrip(ch.newer, rest);
    assert b[12 + 8 * |ch.older|..] == ids[8 * |ch.older|..] == PutIds(ch.newer) + rest;
  }

  lemma {:induction false} IdsUnique(b: seq<Byte>, count: nat)
    requires |b| >= 8 * count
    ensures PutIds(GetIds(b, count)) == b[..8 * count] && Ids64(GetIds(b, count))
  {
    if count > 0 {
      IdsUnique(b[8..], count - 1);
      LeUnique(b[..8]);
      Spans();
      assert b[..8] + b[8..][..8 * (count - 1)] == b[..8 * count];
    }
  }

  /** Whatever decodes starts with the encoding of what it decodes to, up to the reserved byte. */
  lemma DecodeIsEncoding(b: seq<Byte>)
    requires Decode(b).Some?
    ensures var ch := Decode(b).value;
            && Encodable(ch) && |Encode(ch)| <= |b|
            && Header(ch, b[3]) + (PutIds(ch.older) + PutIds(ch.newer)) == b[..|Encode(ch)|]
  {
    var ch := Decode(b).value;
    var n, m := |ch.older|, |ch.newer|;
    Spans();
    IdsUnique(b[12..], n);
    IdsUnique(b[12 + 8 * n..], m);
    DecodedHeader(b);
    assert b[12..][..8 * n] + b[12 + 8 * n..][..8 * m] == b[12..12 + 8 * n + 8 * m];
    assert b[..12] + b[12..12 + 8 * n + 8 * m] == b[..12 + 8 * n + 8 * m];
  }

  lemma DecodedHeader(b: seq<Byte>)
    requires Decode(b).Some?
    ensures Header(Decode(b).value, b[3]) == b[..12]
  {
    LeUnique(b[4..8]);
    LeUnique(b[8..12]);
    assert b[..12] == [b[0], b[1], b[2], b[3]] + b[4..8] + b[8..12];
  }

  /** The two families of control entries are never confused. */
  lemma NoopIsNoChange(ch: Change)
    ensures Decode(NOOP) == None && Encode(ch) != NOOP
  {
  }

  /** The encoder's loop over one list. */
  method PushIds(out: seq<Byte>, ids: seq<PeerId>) returns (b: seq<Byte>)
    ensures b == out + PutIds(ids)
  {
    b := out;
    for i := 0 to |ids|
      invariant b + PutIds(ids[i..]) == out + PutIds(ids)
    {
      b := b + ToLe(ids[i], 8);
      assert ids[i..][1..] == ids[i + 1..];
    }
  }

  method EncodeEntry(ch: Change) returns (b: seq<Byte>)
    ensures b == Encode(ch)
    ensures Encodable(ch) ==> Decode(b) == Some(ch)
  {
    b := PushIds(Header(ch, 0), ch.older);
    b := PushIds(b, ch.newer);
    if Encodable(ch) {
      RoundTrip(ch, []);
      assert b + [] == b;
    }
  }

  /** The decoder's loop: ids from a moving cursor. */
  method TakeIds(b: seq<Byte>, start: nat, count: nat) returns (ids: seq<PeerId>, cursor: nat)
    requires start + 8 * count <= |b|
    ensures ids == GetIds(b[start..], count) && cursor == start + 8 * count
  {
    ids, cursor := [], start;
    for i := 0 to count
      invariant cursor == start + 8 * i && |ids| == i
      invariant ids + GetIds(b[cursor..], count - i) == GetIds(b[start..], count)
    {
      ids := ids + [FromLe(b[cursor..cursor + 8])];
      assert b[cursor..][..8] == b[cursor..cursor + 8] && b[cursor..][8..] == b[cursor + 8..];
      cursor := cursor + 8;
    }
  }

  method DecodeEntry(b: seq<Byte>) returns (ch: Option<Change>)
    ensures ch == Decode(b)
  {
    if |b| < HEADER_LEN || b[0] != MAGIC || b[1] != VERSION { return None; }
    var phase := PhaseOf(b[2]);
    if phase.None? { return None; }
    var n, m := FromLe(b[4..8]), FromLe(b[8..12]);
    if |b| < HEADER_LEN + 8 * n + 8 * m { return None; }
    var older, cursor := TakeIds(b, HEADER_LEN, n);
    var newer, _ := TakeIds(b, cursor, m);
    return Some(Change(phase.value, older, newer));
  }

  // --------------------------------------------------------- effective members

  /** Voters (the union during a joint transition), learners, and the joint pair. */
  datatype Config = Config(peers: seq<PeerId>, learners: seq<PeerId>, joint: Option<(seq<PeerId>, seq<PeerId>)>)

  function Without(xs: seq<PeerId>, gone: seq<PeerId>): seq<PeerId> {
    if xs == [] then [] else (if xs[0] in gone then [] else [xs[0]]) + Without(xs[1..], gone)
  }

  function WithLearners(learners: seq<PeerId>, peers: seq<PeerId>, more: seq<PeerId>): seq<PeerId>
    decreases |more|
  {
    if more == [] then learners
    else WithLearners(if more[0] in peers || more[0] in learners then learners else learners + [more[0]], peers, more[1..])
  }

  /** Adopting an entry; a final phase without voters is refused. */
  function Adopt(c: Config, ch: Change): Result<Config> {
    match ch.phase
    case JointPhase =>
      var peers := Union(ch.older, ch.newer);
      Ok(Config(peers, Without(c.learners, peers), Some((ch.older, ch.newer))))
    case FinalPhase =>
      if ch.newer == [] then Err else Ok(Config(ch.newer, Without(c.learners, ch.newer), None))
    case AddLearners => Ok(c.(learners := WithLearners(c.learners, c.peers, ch.newer)))
    case RemoveLearners => Ok(c.(learners := Without(c.learners, ch.newer)))
  }

  predicate WfChange(ch: Change) {
    Distinct(ch.older) && Distinct(ch.newer)
  }

  /** Lists are duplicate-free and disjoint; an active pair means the voters are exactly its union. */
  ghost predicate WfConfig(c: Config) {
    && Distinct(c.peers) && Distinct(c.learners)
    && (forall p :: p in c.peers ==> p !in c.learners)
    && (c.joint.Some? ==>
          && Distinct(c.joint.value.0) && Distinct(c.joint.value.1)
          && (forall p :: p in c.peers <==> p in c.joint.value.0 || p in c.joint.value.1))
  }

  lemma {:induction false} UnionIs(xs: seq<PeerId>, ys: seq<PeerId>)
    requires Distinct(xs)
    ensures Distinct(Union(xs, ys))
    ensures forall p :: p in Union(xs, ys) <==> p in xs || p in ys
    decreases |ys|
  {
    if ys != [] {
      UnionIs(if ys[0] in xs then xs else xs + [ys[0]], ys[1..]);
      assert ys == [ys[0]] + ys[1..];
    }
  }

  lemma {:induction false} WithoutIs(xs: seq<PeerId>, gone: seq<PeerId>)
    ensures forall p :: p in Without(xs, gone) <==> p in xs && p !in gone
    ensures Distinct(xs) ==> Distinct(Without(xs, gone))
    ensures (forall p :: p in xs ==> p !in gone) <==> Without(xs, gone) == xs
  {
    if xs != [] {
      WithoutIs(xs[1..], gone);
      assert xs == [xs[0]] + xs[1..];
      WithoutShorter(xs[1..], gone);
    }
  }

  lemma {:induction false} WithoutShorter(xs: seq<PeerId>, gone: seq<PeerId>)
    ensures |Without(xs, gone)| <= |xs|
  {
    if xs != [] { WithoutShorter(xs[1..], gone); }
  }

  lemma {:induction false} WithLearnersIs(learners: seq<PeerId>, peers: seq<PeerId>, more: seq<PeerId>)
    requires Distinct(learners)
    ensures Distinct(WithLearners(learners, peers, more))
    ensures forall p :: p in WithLearners(learners, peers, more) <==> p in learners || (p in more && p !in peers)
    decreases |more|
  {
    if more != [] {
      WithLearnersIs(if more[0] in peers || more[0] in learners then learners else learners + [more[0]], peers, more[1..]);
      assert more == [more[0]] + more[1..];
    }
  }

  /** Adopting any well-formed entry keeps the configuration well-formed. */
  lemma AdoptKeepsWf(c: Config, ch: Change)
    requires WfConfig(c) && WfChange(ch) && Adopt(c, ch).Ok?
    ensures WfConfig(Adopt(c, ch).value)
  {
    match ch.phase
    case JointPhase =>
      UnionIs(ch.older, ch.newer);
      WithoutIs(c.learners, Union(ch.older, ch.newer));
    case FinalPhase => WithoutIs(c.learners, ch.newer);
    case AddLearners => WithLearnersIs(c.learners, c.peers, ch.newer);
    case RemoveLearners => WithoutIs(c.learners, ch.newer);
  }

  // ------------------------------------------------------------------ reverts

  function RevertJoint(c: Config, peers: seq<PeerId>): Config { c.(peers := peers, joint := None) }

  function RevertLearners(c: Config, learners: seq<PeerId>): Config { c.(learners := learners) }

  /** Undoing an activation that never reached the log keeps the configuration well-formed. */
  lemma RevertKeepsWf(c: Config, ch: Change)
    requires WfConfig(c) && WfChange(ch) && Adopt(c, ch).Ok?
    ensures ch.phase.JointPhase? ==> WfConfig(RevertJoint(Adopt(c, ch).value, c.peers))
    ensures ch.phase.AddLearners? || ch.phase.RemoveLearners? ==> RevertLearners(Adopt(c, ch).value, c.learners) == c
  {
    if ch.phase.JointPhase? { WithoutIs(c.learners, Union(ch.older, ch.newer)); }
  }

  /**
   Undoing a joint activation restores the configuration exactly when the entry
   promotes no learner: a promoted learner ends up in neither list.
   */
  lemma RevertJointRestoresIff(c: Config, ch: Change)
    requires WfConfig(c) && c.joint.None? && ch.phase == JointPhase && ch.older == c.peers
    ensures RevertJoint(Adopt(c, ch).value, c.peers) == c <==> forall p :: p in ch.newer ==> p !in c.learners
  {
    UnionIs(ch.older, ch.newer);
    WithoutIs(c.learners, Union(ch.older, ch.newer));
  }

  /** The input that fails: learner 3 is promoted, the promotion reverted, and 3 is no member any more. */
  lemma PromotedLearnerIsLost()
    ensures var c, ch := Config([1, 2], [3], None), Change(JointPhase, [1, 2], [1, 2, 3]);
            && WfConfig(c) && WfChange(ch) && Adopt(c, ch).Ok?
            && 3 in MembersOf(c) && 3 !in MembersOf(RevertJoint(Adopt(c, ch).value, c.peers))
  {
    var c, ch := Config([1, 2], [3], None), Change(JointPhase, [1, 2], [1, 2, 3]);
    UnionIs(ch.older, ch.newer);
    WithoutIs(c.learners, Union(ch.older, ch.newer));
    assert 3 in ch.newer;
  }

  // --------------------------------------------------------- leader's progress

  function MembersOf(c: Config): set<PeerId> { Elements(c.peers) + Elements(c.learners) }

  /** A leader tracks exactly the members other than itself. */
  predicate Tracks(progress: map<PeerId, Progress>, c: Config, self: PeerId) {
    progress.Keys == MembersOf(c) - {self}
  }

  /** Members keep their progress, new ones start at the tip, others are dropped. */
  function Reconciled(progress: map<PeerId, Progress>, c: Config, self: PeerId, last: nat): map<PeerId, Progress> {
    map p | p in (progress.Keys * MembersOf(c)) + (MembersOf(c) - {self}) ::
      if p in progress then progress[p] else Progress(SatAdd(last, 1), 0)
  }

  /**
   Over an activation and its revert the leader's progress comes back, except
   that removed learners start over.
   */
  lemma RevertProgress(progress: map<PeerId, Progress>, c: Config, ch: Change, self: PeerId, last: nat)
    requires WfConfig(c) && Tracks(progress, c, self) && WfChange(ch) && Adopt(c, ch).Ok?
    ensures var mid := Reconciled(progress, Adopt(c, ch).value, self, last);
            var back := Reconciled(mid, c, self, last);
            && Tracks(mid, Adopt(c, ch).value, self) && Tracks(back, c, self)
            && (forall p :: p in back ==>
                  back[p] == if p in MembersOf(Adopt(c, ch).value) then progress[p] else Progress(SatAdd(last, 1), 0))
  {
  }

  // ----------------------------------------------------------------- histories

  /** What can happen to a leader's member lists: an entry is adopted, or adopted and undone because it never reached the log. */
  datatype Event = Adopted(ch: Change) | Abandoned(ch: Change)

  datatype View = View(config: Config, progress: map<PeerId, Progress>)

  /** The two activations a leader undoes: a joint one outside a transition, and any learner change. */
  predicate Undoable(c: Config, ch: Change) {
    (ch.phase == JointPhase && c.joint == None) || ch.phase == AddLearners || ch.phase == RemoveLearners
  }

  function After(v: View, e: Event, self: PeerId, last: nat): View {
    match Adopt(v.config, e.ch)
    case Err => v
    case Ok(next) =>
      var mid := Reconciled(v.progress, next, self, last);
      if e.Adopted? || !Undoable(v.config, e.ch) then View(next, mid)
      else
        var back := if e.ch.phase == JointPhase then RevertJoint(next, v.config.peers) else RevertLearners(next, v.config.learners);
        View(back, Reconciled(mid, back, self, last))
  }

  function AfterAll(v: View, events: seq<Event>, self: PeerId, last: nat): View
    decreases |events|
  {
    if events == [] then v else AfterAll(After(v, events[0], self, last), events[1..], self, last)
  }

  lemma AfterKeeps(v: View, e: Event, self: PeerId, last: nat)
    requires WfConfig(v.config) && Tracks(v.progress, v.config, self) && WfChange(e.ch)
    ensures WfConfig(After(v, e, self, last).config)
    ensures Tracks(After(v, e, self, last).progress, After(v, e, self, last).config, self)
  {
    if Adopt(v.config, e.ch).Ok? {
      AdoptKeepsWf(v.config, e.ch);
      RevertKeepsWf(v.config, e.ch);
    }
  }

  /** Whatever well-formed entries arrive and are undone, the lists stay duplicate-free, disjoint and tracked. */
  lemma {:induction false} HistoryKeeps(v: View, events: seq<Event>, self: PeerId, last: nat)
    requires WfConfig(v.config) && Tracks(v.progress, v.config, self)
    requires forall i :: 0 <= i < |events| ==> WfChange(events[i].ch)
    ensures WfConfig(AfterAll(v, events, self, last).config)
    ensures Tracks(AfterAll(v, events, self, last).progress, AfterAll(v, events, self, last).config, self)
    decreases |events|
  {
    if events != [] {
      AfterKeeps(v, events[0], self, last);
      HistoryKeeps(After(v, events[0], self, last), events[1..], self, last);
    }
  }

  // -------------------------------------------------------------- the live node

  class Group {
    const self: PeerId
    var config: Config
    var leading: bool
    var progress: map<PeerId, Progress>
    var last: nat

    ghost predicate Valid()
      reads this
    {
      WfConfig(config) && (leading ==> Tracks(progress, config, self))
    }

    constructor (self: PeerId, config: Config)
      requires WfConfig(config)
      ensures Valid() && this.self == self && this.config == config && !leading
    {
      this.self, this.config := self, config;
      leading, progress, last := false, map[], 0;
    }

    method MergePeers(older: seq<PeerId>, newer: seq<PeerId>) returns (merged: seq<PeerId>)
      ensures merged == Union(older, newer)
    {
      merged := older;
      for i := 0 to |newer|
        invariant Union(merged, newer[i..]) == Union(older, newer)
      {
        if newer[i] !in merged { merged := merged + [newer[i]]; }
        assert newer[i..][1..] == newer[i + 1..];
      }
    }

    method Retain(xs: seq<PeerId>, gone: seq<PeerId>) returns (kept: seq<PeerId>)
      ensures kept == Without(xs, gone)
    {
      kept := [];
      for i := 0 to |xs|
        invariant kept + Without(xs[i..], gone) == Without(xs, gone)
      {
        if xs[i] !in gone { kept := kept + [xs[i]]; }
        assert xs[i..][1..] == xs[i + 1..];
      }
    }

    method PushLearners(more: seq<PeerId>)
      modifies this`config
      ensures config == old(config).(learners := WithLearners(old(config).learners, old(config).peers, more))
    {
      ghost var want := WithLearners(config.learners, config.peers, more);
      for i := 0 to |more|
        invariant config.peers == old(config).peers && config.joint == old(config).joint
        invariant WithLearners(config.learners, config.peers, more[i..]) == want
      {
        if more[i] !in config.peers && more[i] !in config.learners {
          config := config.(learners := config.learners + [more[i]]);
        }
        assert more[i..][1..] == more[i + 1..];
      }
    }

    /** Drop stale entries, then add missing ones. */
    method Reconcile()
      modifies this`progress
      ensures progress == Reconciled(old(progress), config, self, last)
    {
      var members := config.peers + config.learners;
      progress := map p | p in progress && (p in config.peers || p in config.learners) :: progress[p];
      ghost var kept := progress;
      for i := 0 to |members|
        invariant forall p :: p in progress <==> p in kept || (p in members[..i] && p != self)
        invariant forall p :: p in progress ==>
                    progress[p] == if p in kept then kept[p] else Progress(SatAdd(last, 1), 0)
      {
        var p := members[i];
        assert members[..i + 1] == members[..i] + [p];
        if p != self && p !in progress { progress := progress[p := Progress(SatAdd(last, 1), 0)]; }
      }
      assert members[..|members|] == members;
    }

    /** Adopt an entry; a leader that is no longer a voter steps down in its own term. */
    method Apply(ch: Change) returns (ok: bool, steppedDown: bool)
      requires Valid() && WfChange(ch)
      modifies this
      ensures Valid() && last == old(last)
      ensures ok <==> Adopt(old(config), ch).Ok?
      ensures !ok ==> config == old(config) && leading == old(leading) && progress == old(progress)
      ensures ok ==> config == Adopt(old(config), ch).value
      ensures steppedDown <==> ok && old(leading) && self !in config.peers
      ensures leading <==> old(leading) && !steppedDown
      ensures ok && leading ==> progress == Reconciled(old(progress), config, self, last)
    {
      if Adopt(config, ch).Ok? { AdoptKeepsWf(config, ch); }
      ok, steppedDown := true, false;
      match ch.phase {
        case JointPhase =>
          var merged := MergePeers(ch.older, ch.newer);
          var learners := Retain(config.learners, merged);
          config := Config(merged, learners, Some((ch.older, ch.newer)));
        case FinalPhase =>
          if ch.newer == [] { return false, false; }
          var learners := Retain(config.learners, ch.newer);
          config := Config(ch.newer, learners, None);
        case AddLearners => PushLearners(ch.newer);
        case RemoveLearners =>
          var learners := Retain(config.learners, ch.newer);
          config := config.(learners := learners);
      }
      if leading { Reconcile(); }
      if leading && self !in config.peers {
        steppedDown, leading, progress := true, false, map[];
      }
    }

    /** Undo a joint activation whose entry never reached the log. */
    method UndoJoint(peers: seq<PeerId>)
      requires Valid() && WfConfig(RevertJoint(config, peers))
      modifies this`config, this`progress
      ensures Valid() && config == RevertJoint(old(config), peers)
      ensures progress == if leading then Reconciled(old(progress), config, self, last) else old(progress)
    {
      config := config.(peers := peers, joint := None);
      if leading { Reconcile(); }
    }

    /** Undo a learner activation whose entry never reached the log. */
    method UndoLearners(learners: seq<PeerId>)
      requires Valid() && WfConfig(RevertLearners(config, learners))
      modifies this`config, this`progress
      ensures Valid() && config == RevertLearners(old(config), learners)
      ensures progress == if leading then Reconciled(old(progress), config, self, last) else old(progress)
    {
      config := config.(learners := learners);
      if leading { Reconcile(); }
    }
  }
}
