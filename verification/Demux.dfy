/** Many groups over one transport: frames of other groups are parked until their owner or the driver takes them. */
module Demux {
  import opened Types

  const MAX_INBOX_FRAMES: nat := 1024
  const MAX_POOL_BUFS: nat := 64
  const MAX_FRAME_SIZE: nat := 64 * 1024

  type Frame = seq<Byte>
  type Group = nat

  /** How many frames wait for `g`. */
  function Waiting(inboxes: map<Group, seq<Frame>>, g: Group): nat {
    if g in inboxes then |inboxes[g]| else 0
  }

  /** `load` has each group once per frame parked for it, so its size is the number of parked frames. */
  ghost predicate Tallies(load: multiset<Group>, inboxes: map<Group, seq<Frame>>) {
    forall g {:trigger Waiting(inboxes, g)} :: load[g] == Waiting(inboxes, g)
  }

  /** Everyone with frames is queued. */
  ghost predicate Queued(inboxes: map<Group, seq<Frame>>, ready: seq<Group>) {
    forall g {:trigger Waiting(inboxes, g)} :: Waiting(inboxes, g) > 0 ==> g in ready
  }

  /** No inbox is over its limit. */
  ghost predicate Bounded(inboxes: map<Group, seq<Frame>>) {
    forall g {:trigger Waiting(inboxes, g)} :: Waiting(inboxes, g) <= MAX_INBOX_FRAMES
  }

  /** What has left a group's inbox is a prefix of what it was sent, and the rest is parked in order. */
  ghost predicate InOrder(inboxes: map<Group, seq<Frame>>, sent: map<Group, seq<Frame>>, taken: map<Group, seq<Frame>>) {
    && sent.Keys == inboxes.Keys && taken.Keys == inboxes.Keys
    && (forall g {:trigger sent[g]} :: g in inboxes ==> sent[g] == taken[g] + inboxes[g])
  }

  /** All of it, stated under a key so that only the lemmas below unfold it. */
  ghost predicate Sound(inboxes: map<Group, seq<Frame>>, ready: seq<Group>, load: multiset<Group>,
                        sent: map<Group, seq<Frame>>, taken: map<Group, seq<Frame>>) {
    forall k: nat {:trigger Key(k)} :: Key(k) ==>
      Tallies(load, inboxes) && Queued(inboxes, ready) && Bounded(inboxes) && InOrder(inboxes, sent, taken)
  }

  lemma AtGroup(inboxes: map<Group, seq<Frame>>, ready: seq<Group>, load: multiset<Group>,
                sent: map<Group, seq<Frame>>, taken: map<Group, seq<Frame>>, g: Group)
    requires Sound(inboxes, ready, load, sent, taken) && g in inboxes
    ensures g in sent && g in taken && sent[g] == taken[g] + inboxes[g] && |inboxes[g]| <= MAX_INBOX_FRAMES
    ensures inboxes[g] != [] ==> g in ready
  {
    assert Key(0);
    assert Waiting(inboxes, g) == |inboxes[g]|;
  }

  /** Changing one inbox keeps everything in order and moves the total by the change. */
  lemma Put(inboxes: map<Group, seq<Frame>>, ready: seq<Group>, load: multiset<Group>,
            sent: map<Group, seq<Frame>>, taken: map<Group, seq<Frame>>,
            g: Group, q: seq<Frame>, s: seq<Frame>, t: seq<Frame>, ready': seq<Group>)
    requires Sound(inboxes, ready, load, sent, taken) && |q| <= MAX_INBOX_FRAMES && s == t + q
    requires (forall h :: h in ready ==> h in ready') && (q != [] ==> g in ready')
    ensures Sound(inboxes[g := q], ready', load[g := |q|], sent[g := s], taken[g := t])
    ensures |load[g := |q|]| == |load| - Waiting(inboxes, g) + |q|
  {
    assert Key(0);
    assert load[g] == Waiting(inboxes, g);
    var tally, after := load[g := |q|], inboxes[g := q];
    forall h
      ensures tally[h] == Waiting(after, h) && Waiting(after, h) <= MAX_INBOX_FRAMES
      ensures Waiting(after, h) > 0 ==> h in ready'
    {
      assert load[h] == Waiting(inboxes, h);
    }
  }

  lemma Enqueued(inboxes: map<Group, seq<Frame>>, ready: seq<Group>, load: multiset<Group>,
                 sent: map<Group, seq<Frame>>, taken: map<Group, seq<Frame>>, g: Group, f: Frame) returns (load': multiset<Group>)
    requires Sound(inboxes, ready, load, sent, taken) && g in inboxes && g in sent && |inboxes[g]| < MAX_INBOX_FRAMES
    ensures var ready' := if inboxes[g] == [] then ready + [g] else ready;
            Sound(inboxes[g := inboxes[g] + [f]], ready', load', sent[g := sent[g] + [f]], taken)
    ensures |load'| == |load| + 1
  {
    AtGroup(inboxes, ready, load, sent, taken, g);
    var q, ready' := inboxes[g] + [f], if inboxes[g] == [] then ready + [g] else ready;
    Put(inboxes, ready, load, sent, taken, g, q, sent[g] + [f], taken[g], ready');
    assert taken == taken[g := taken[g]];
    load' := load[g := |q|];
  }

  lemma Dequeued(inboxes: map<Group, seq<Frame>>, ready: seq<Group>, load: multiset<Group>,
                 sent: map<Group, seq<Frame>>, taken: map<Group, seq<Frame>>, g: Group) returns (load': multiset<Group>)
    requires Sound(inboxes, ready, load, sent, taken) && g in inboxes && g in taken && inboxes[g] != []
    ensures Sound(inboxes[g := inboxes[g][1..]], ready, load', sent, taken[g := taken[g] + [inboxes[g][0]]])
    ensures |load'| + 1 == |load|
  {
    AtGroup(inboxes, ready, load, sent, taken, g);
    var f, rest := inboxes[g][0], inboxes[g][1..];
    assert sent[g] == taken[g] + [f] + rest;
    Put(inboxes, ready, load, sent, taken, g, rest, sent[g], taken[g] + [f], ready);
    assert sent == sent[g := sent[g]];
    load' := load[g := |rest|];
  }

  /** Removing a group discards what waited for it. */
  lemma Drop(inboxes: map<Group, seq<Frame>>, ready: seq<Group>, load: multiset<Group>,
             sent: map<Group, seq<Frame>>, taken: map<Group, seq<Frame>>, g: Group)
    requires Sound(inboxes, ready, load, sent, taken)
    ensures Sound(inboxes - {g}, ready, load[g := 0], sent - {g}, taken - {g})
    ensures |load[g := 0]| == |load| - Waiting(inboxes, g)
  {
    assert Key(0);
    assert load[g] == Waiting(inboxes, g);
    var tally, after := load[g := 0], inboxes - {g};
    forall h
      ensures tally[h] == Waiting(after, h) && Waiting(after, h) <= MAX_INBOX_FRAMES
      ensures Waiting(after, h) > 0 ==> h in ready
    {
      assert load[h] == Waiting(inboxes, h);
    }
  }

  /** A head of the queue with nothing waiting can go. */
  lemma Trim(inboxes: map<Group, seq<Frame>>, ready: seq<Group>, load: multiset<Group>,
             sent: map<Group, seq<Frame>>, taken: map<Group, seq<Frame>>)
    requires Sound(inboxes, ready, load, sent, taken) && ready != [] && Waiting(inboxes, ready[0]) == 0
    ensures Sound(inboxes, ready[1..], load, sent, taken)
  {
    assert Key(0);
    assert ready == [ready[0]] + ready[1..];
  }

  /** Moving the head to the back, or dropping it when nothing waits for it any more. */
  lemma Rotate(inboxes: map<Group, seq<Frame>>, ready: seq<Group>, load: multiset<Group>,
               sent: map<Group, seq<Frame>>, taken: map<Group, seq<Frame>>)
    requires Sound(inboxes, ready, load, sent, taken) && ready != []
    ensures Sound(inboxes, if Waiting(inboxes, ready[0]) > 0 then ready[1..] + [ready[0]] else ready[1..], load, sent, taken)
  {
    assert Key(0);
    assert ready == [ready[0]] + ready[1..];
  }

  /** The total is zero exactly when every inbox is empty; otherwise somebody is queued. */
  lemma SomeoneQueued(inboxes: map<Group, seq<Frame>>, ready: seq<Group>, load: multiset<Group>,
                      sent: map<Group, seq<Frame>>, taken: map<Group, seq<Frame>>)
    requires Sound(inboxes, ready, load, sent, taken)
    ensures |load| == 0 <==> forall g :: g in inboxes ==> inboxes[g] == []
    ensures |load| > 0 ==> ready != []
  {
    assert Key(0);
    if |load| == 0 {
      forall g | g in inboxes
        ensures inboxes[g] == []
      {
        assert load[g] == Waiting(inboxes, g);
      }
    } else {
      var g :| g in load;
      assert load[g] == Waiting(inboxes, g);
    }
  }

  /** Buffers kept for reuse after one comes back. */
  function Recycled(pool: nat): nat {
    if pool < MAX_POOL_BUFS then pool + 1 else pool
  }

  /** What became of a parked frame. */
  datatype ParkResult = Parked | UnknownGroup | Overflow

  datatype Pop = Nothing | Popped(group: Group, frame: Frame) | TooSmall(owner: Group)

  class DemuxShared {
    var inboxes: map<Group, seq<Frame>>
    var ready: seq<Group>
    var pool: nat
    var pending: nat
    var unknownGroup: nat
    var overflowDropped: nat

    // What each registered group was sent and what left its inbox since it registered,
    // and how many frames were parked, handed out and discarded in all. A frame that
    // leaves for a buffer too small for it is discarded, not handed out.
    ghost var load: multiset<Group>
    ghost var sent: map<Group, seq<Frame>>
    ghost var taken: map<Group, seq<Frame>>
    ghost var parks: nat
    ghost var pops: nat
    ghost var discarded: nat

    /** The counter is the number of parked frames, whoever has frames is queued, and every park is accounted for. */
    ghost predicate Valid()
      reads this
    {
      && Sound(inboxes, ready, load, sent, taken) && pending == |load| && pool <= MAX_POOL_BUFS
      && parks == pops + discarded + pending + unknownGroup + overflowDropped
    }

    constructor ()
      ensures Valid() && inboxes == map[] && pending == 0
    {
      inboxes, ready, pool, pending, unknownGroup, overflowDropped := map[], [], 0, 0, 0, 0;
      load, sent, taken, parks, pops, discarded := multiset{}, map[], map[], 0, 0, 0;
    }

    method Register(g: Group)
      requires Valid()
      modifies this
      ensures Valid() && pending == old(pending)
      ensures inboxes == if g in old(inboxes) then old(inboxes) else old(inboxes)[g := []]
    {
      if g !in inboxes {
        Put(inboxes, ready, load, sent, taken, g, [], [], [], ready);
        load, inboxes, sent, taken := load[g := 0], inboxes[g := []], sent[g := []], taken[g := []];
      }
    }

    method Unregister(g: Group)
      requires Valid()
      modifies this
      ensures Valid() && inboxes == old(inboxes) - {g}
      ensures discarded == old(discarded) + if g in old(inboxes) then |old(inboxes)[g]| else 0
    {
      if g in inboxes {
        Drop(inboxes, ready, load, sent, taken, g);
        load, discarded := load[g := 0], discarded + |inboxes[g]|;
        pending := pending - |inboxes[g]|;
        inboxes, sent, taken := inboxes - {g}, sent - {g}, taken - {g};
      } else {
        assert inboxes - {g} == inboxes;
      }
    }

    /** A frame for a registered group with room is queued last; anything else is counted and dropped. */
    method Park(g: Group, frame: Frame) returns (r: ParkResult)
      requires Valid()
      modifies this
      ensures Valid() && parks == old(parks) + 1 && pops == old(pops) && discarded == old(discarded)
      ensures r == if |frame| > MAX_FRAME_SIZE || g !in old(inboxes) then UnknownGroup
                   else if |old(inboxes)[g]| >= MAX_INBOX_FRAMES then Overflow else Parked
      ensures r == Parked ==> inboxes == old(inboxes)[g := old(inboxes)[g] + [frame]]
      ensures r != Parked ==> inboxes == old(inboxes)
      ensures unknownGroup == old(unknownGroup) + if r == UnknownGroup then 1 else 0
      ensures overflowDropped == old(overflowDropped) + if r == Overflow then 1 else 0
    {
      parks := parks + 1;
      if |frame| > MAX_FRAME_SIZE || g !in inboxes {
        unknownGroup := unknownGroup + 1;
        return UnknownGroup;
      }
      if pool > 0 { pool := pool - 1; }
      if |inboxes[g]| >= MAX_INBOX_FRAMES {
        pool := Recycled(pool);
        overflowDropped := overflowDropped + 1;
        return Overflow;
      }
      AtGroup(inboxes, ready, load, sent, taken, g);
      Enqueue(g, frame);
      return Parked;
    }

    method Enqueue(g: Group, frame: Frame)
      requires Sound(inboxes, ready, load, sent, taken) && pending == |load|
      requires g in inboxes && g in sent && |inboxes[g]| < MAX_INBOX_FRAMES
      modifies this`inboxes, this`ready, this`pending, this`load, this`sent
      ensures Sound(inboxes, ready, load, sent, taken) && pending == |load| == old(pending) + 1
      ensures inboxes == old(inboxes)[g := old(inboxes)[g] + [frame]] && sent == old(sent)[g := old(sent)[g] + [frame]]
    {
      var wasEmpty := inboxes[g] == [];
      var q := inboxes[g] + [frame];
      var queue := if wasEmpty then ready + [g] else ready;
      load := Enqueued(inboxes, ready, load, sent, taken, g, frame);
      inboxes, sent := inboxes[g := q], sent[g := sent[g] + [frame]];
      ready := queue;
      pending := pending + 1;
    }

    method Dequeue(g: Group) returns (frame: Frame)
      requires Sound(inboxes, ready, load, sent, taken) && pending == |load|
      requires g in inboxes && inboxes[g] != [] && g in taken
      modifies this`inboxes, this`pending, this`taken, this`load
      ensures Sound(inboxes, ready, load, sent, taken) && pending == |load| == old(pending) - 1
      ensures frame == old(inboxes)[g][0] && inboxes == old(inboxes)[g := old(inboxes)[g][1..]]
      ensures taken == old(taken)[g := old(taken)[g] + [frame]]
    {
      frame := inboxes[g][0];
      var rest := inboxes[g][1..];
      load := Dequeued(inboxes, ready, load, sent, taken, g);
      taken := taken[g := taken[g] + [frame]];
      inboxes := inboxes[g := rest];
      pending := pending - 1;
    }

    /** Hand out the oldest frame of a group; too small a buffer loses it. */
    method TakeFirst(g: Group, room: nat) returns (r: Pop)
      requires Valid() && g in inboxes && inboxes[g] != [] && g in taken
      modifies this`inboxes, this`pending, this`pool, this`taken, this`pops, this`discarded, this`load
      ensures Valid() && inboxes == old(inboxes)[g := old(inboxes)[g][1..]]
      ensures r == if |old(inboxes)[g][0]| > room then TooSmall(g) else Popped(g, old(inboxes)[g][0])
      ensures pops == old(pops) + (if r.Popped? then 1 else 0) && discarded == old(discarded) + if r.TooSmall? then 1 else 0
    {
      var frame := Dequeue(g);
      pool := Recycled(pool);
      if |frame| > room {
        discarded := discarded + 1;
        return TooSmall(g);
      }
      pops := pops + 1;
      return Popped(g, frame);
    }

    /** A group's own receive: its oldest parked frame, if any. Stale heads of the ready queue are dropped on the way. */
    method TryPop(g: Group, room: nat) returns (r: Pop)
      requires Valid()
      modifies this
      ensures Valid() && parks == old(parks)
      ensures pops == old(pops) + (if r.Popped? then 1 else 0) && discarded == old(discarded) + if r.TooSmall? then 1 else 0
      ensures r.Nothing? <==> g !in old(inboxes) || old(inboxes)[g] == []
      ensures r.Nothing? ==> inboxes == old(inboxes)
      ensures !r.Nothing? ==>
                && inboxes == old(inboxes)[g := old(inboxes)[g][1..]]
                && r == if |old(inboxes)[g][0]| > room then TooSmall(g) else Popped(g, old(inboxes)[g][0])
    {
      SomeoneQueued(inboxes, ready, load, sent, taken);
      if pending == 0 { return Nothing; }
      while ready != [] && !(ready[0] in inboxes && inboxes[ready[0]] != [])
        invariant Valid() && inboxes == old(inboxes) && (parks, pops, discarded) == old((parks, pops, discarded))
        decreases |ready|
      {
        Trim(inboxes, ready, load, sent, taken);
        ready := ready[1..];
      }
      if g !in inboxes || inboxes[g] == [] { return Nothing; }
      AtGroup(inboxes, ready, load, sent, taken, g);
      r := TakeFirst(g, room);
    }

    /** The driver's drain: the next queued group with a frame. It finds nothing exactly when nothing is parked. */
    method PopParked(room: nat) returns (r: Pop)
      requires Valid()
      modifies this
      ensures Valid() && parks == old(parks)
      ensures pops == old(pops) + (if r.Popped? then 1 else 0) && discarded == old(discarded) + if r.TooSmall? then 1 else 0
      ensures r.Nothing? <==> old(pending) == 0
      ensures r.Nothing? ==> inboxes == old(inboxes)
      ensures !r.Nothing? ==>
                var g := if r.Popped? then r.group else r.owner;
                && g in old(inboxes) && old(inboxes)[g] != []
                && inboxes == old(inboxes)[g := old(inboxes)[g][1..]]
                && r == if |old(inboxes)[g][0]| > room then TooSmall(g) else Popped(g, old(inboxes)[g][0])
    {
      SomeoneQueued(inboxes, ready, load, sent, taken);
      if pending == 0 { return Nothing; }
      while !(ready[0] in inboxes && inboxes[ready[0]] != [])
        invariant Valid() && inboxes == old(inboxes) && (parks, pops, discarded) == old((parks, pops, discarded))
        invariant pending == old(pending) && ready != []
        decreases |ready|
      {
        Trim(inboxes, ready, load, sent, taken);
        ready := ready[1..];
        SomeoneQueued(inboxes, ready, load, sent, taken);
      }
      var g := ready[0];
      AtGroup(inboxes, ready, load, sent, taken, g);
      r := TakeFirst(g, room);
      Rotate(inboxes, ready, load, sent, taken);
      ready := if inboxes[g] != [] then ready[1..] + [g] else ready[1..];
    }
  }
}
