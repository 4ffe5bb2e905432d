/** Snapshots sent in chunks: the follower's buffer and the leader's sending loop. */
module SnapshotTransfer {
  import opened Types

  datatype Meta = Meta(index: nat, term: nat)

  /** What a follower has buffered from one sender. */
  datatype Buffer = Buffer(meta: Meta, bytes: seq<Byte>)

  datatype Chunk = Chunk(meta: Meta, offset: nat, bytes: seq<Byte>, last: bool)

  /** The response, and whether the whole snapshot was saved. */
  datatype Answer = Answer(accepted: bool, next: nat)

  datatype Outcome = Outcome(pending: Option<Buffer>, answer: Answer, saved: Option<Buffer>)

  /** The buffer a chunk is judged against: a chunk at offset 0 or of another snapshot starts over. */
  function Opened(p: Option<Buffer>, ch: Chunk): Buffer {
    if p.None? || ch.offset == 0 || p.value.meta != ch.meta then Buffer(ch.meta, []) else p.value
  }

  function Receive(p: Option<Buffer>, ch: Chunk, cap: nat): Outcome {
    var b := Opened(p, ch);
    if |b.bytes| != ch.offset then Outcome(Some(b), Answer(false, |b.bytes|), None)
    else if |b.bytes| + |ch.bytes| > cap then Outcome(None, Answer(false, 0), None)
    else
      var grown := b.(bytes := b.bytes + ch.bytes);
      if ch.last then Outcome(None, Answer(true, |grown.bytes|), Some(grown))
      else Outcome(Some(grown), Answer(true, |grown.bytes|), None)
  }

  // ------------------------------------------------------------- any delivery

  /** The chunk is a piece of the sender's snapshot for its meta, and marked last exactly at the end. */
  ghost predicate Genuine(snap: Meta -> seq<Byte>, ch: Chunk) {
    && ch.offset + |ch.bytes| <= |snap(ch.meta)|
    && ch.bytes == snap(ch.meta)[ch.offset..ch.offset + |ch.bytes|]
    && (ch.last <==> ch.offset + |ch.bytes| == |snap(ch.meta)|)
  }

  ghost predicate PrefixOk(snap: Meta -> seq<Byte>, p: Option<Buffer>) {
    p.Some? ==> p.value.bytes <= snap(p.value.meta)
  }

  /** One genuine chunk, whatever was buffered before: the buffer stays a prefix, and what is saved is the whole. */
  lemma ReceiveKeepsPrefix(snap: Meta -> seq<Byte>, p: Option<Buffer>, ch: Chunk, cap: nat)
    requires PrefixOk(snap, p) && Genuine(snap, ch)
    ensures PrefixOk(snap, Receive(p, ch, cap).pending)
    ensures Receive(p, ch, cap).saved.Some? ==>
              Receive(p, ch, cap).saved.value == Buffer(ch.meta, snap(ch.meta))
  {
    var b := Opened(p, ch);
    var s := snap(ch.meta);
    if |b.bytes| == ch.offset {
      assert b.bytes == s[..ch.offset];
      assert b.bytes + ch.bytes == s[..ch.offset + |ch.bytes|];
      assert s[..|s|] == s;
    }
  }

  /** What can happen at the follower: a chunk arrives, or a stalled transfer is dropped. */
  datatype Event = Arrives(ch: Chunk) | Evicted

  /** The buffer after the events, and everything that was saved on the way. */
  function Deliver(p: Option<Buffer>, events: seq<Event>, cap: nat): (Option<Buffer>, seq<Buffer>)
    decreases |events|
  {
    if events == [] then (p, [])
    else if events[0].Evicted? then Deliver(None, events[1..], cap)
    else
      var o := Receive(p, events[0].ch, cap);
      var (q, saved) := Deliver(o.pending, events[1..], cap);
      (q, (if o.saved.Some? then [o.saved.value] else []) + saved)
  }

  /**
   Under any loss, duplication, reordering and eviction of one sender's chunks,
   the buffer is a prefix of the sender's snapshot for its meta, and every saved
   snapshot is the sender's, whole.
   */
  lemma {:induction false} AnyDelivery(snap: Meta -> seq<Byte>, p: Option<Buffer>, events: seq<Event>, cap: nat)
    requires PrefixOk(snap, p) && (forall i :: 0 <= i < |events| && events[i].Arrives? ==> Genuine(snap, events[i].ch))
    ensures PrefixOk(snap, Deliver(p, events, cap).0)
    ensures forall b :: b in Deliver(p, events, cap).1 ==> b.bytes == snap(b.meta)
    decreases |events|
  {
    if events != [] {
      if events[0].Evicted? {
        AnyDelivery(snap, None, events[1..], cap);
      } else {
        ReceiveKeepsPrefix(snap, p, events[0].ch, cap);
        AnyDelivery(snap, Receive(p, events[0].ch, cap).pending, events[1..], cap);
      }
    }
  }

  // --------------------------------------------------------------- the follower

  class Follower {
    var pending: map<PeerId, Buffer>
    var saved: Option<Buffer>
    const cap: nat

    function Of(from: PeerId): Option<Buffer>
      reads this
    {
      if from in pending then Some(pending[from]) else None
    }

    constructor (cap: nat)
      ensures pending == map[] && saved == None && this.cap == cap
    {
      this.cap, pending, saved := cap, map[], None;
    }

    /** The chunk handler; other senders' buffers are left alone. */
    method Handle(from: PeerId, ch: Chunk) returns (a: Answer)
      modifies this
      ensures var o := Receive(old(Of(from)), ch, cap);
              && a == o.answer && Of(from) == o.pending
              && saved == if o.saved.Some? then o.saved else old(saved)
      ensures forall p :: p != from ==> Of(p) == old(Of(p))
    {
      if from !in pending { pending := pending[from := Buffer(ch.meta, [])]; }
      if ch.offset == 0 || pending[from].meta != ch.meta { pending := pending[from := Buffer(ch.meta, [])]; }
      var b := pending[from];
      if |b.bytes| != ch.offset { return Answer(false, |b.bytes|); }
      if |b.bytes| + |ch.bytes| > cap {
        pending := pending - {from};
        return Answer(false, 0);
      }
      b := b.(bytes := b.bytes + ch.bytes);
      pending := pending[from := b];
      if ch.last {
        pending := pending - {from};
        saved := Some(b);
      }
      return Answer(true, |b.bytes|);
    }
  }

  function NextChunk(meta: Meta, snap: seq<Byte>, offset: nat, size: nat): Chunk
    requires offset <= |snap|
  {
    var end := Min(offset + size, |snap|);
    Chunk(meta, offset, snap[offset..end], end == |snap|)
  }

  lemma NextChunkGenuine(meta: Meta, snap: seq<Byte>, offset: nat, size: nat)
    requires offset <= |snap| && size > 0
    ensures var ch := NextChunk(meta, snap, offset, size);
            && ch.offset + |ch.bytes| <= |snap| && ch.bytes == snap[ch.offset..ch.offset + |ch.bytes|]
            && (ch.last <==> ch.offset + |ch.bytes| == |snap|)
            && (!ch.last ==> |ch.bytes| > 0)
  {
  }

  // ---------------------------------------------------------------- the sender

  /** The sender between answers: where the next chunk starts, and how many answers in a row brought nothing. */
  datatype Sending = Sending(offset: nat, idle: nat)

  datatype Ending = Waiting | Installed | TermChanged | PastTotal | NoProgress | NotLeader | TimedOut

  /** What reaches the sender: an answer of the peer with its term, another frame that may end leadership, or silence. */
  datatype Inbound = Answered(term: nat, answer: Answer) | OtherFrame(leads: bool) | Silence

  /** One answer to the chunk in flight; `last` tells whether that chunk was the last. */
  function Judge(s: Sending, last: bool, total: nat, max: nat, a: Answer): (Ending, Sending) {
    if a.next > total then (PastTotal, s)
    else if a.accepted && (last || a.next >= total) then (Installed, s)
    else if a.accepted && a.next > s.offset then (Waiting, Sending(a.next, 0))
    else if s.idle + 1 >= max then (NoProgress, s)
    else (Waiting, Sending(a.next, s.idle + 1))
  }

  function OnInbound(s: Sending, last: bool, total: nat, max: nat, term: nat, e: Inbound): (Ending, Sending) {
    match e
    case Answered(t, a) => if t > term then (TermChanged, s) else Judge(s, last, total, max, a)
    case OtherFrame(leads) => (if leads then Waiting else NotLeader, s)
    case Silence => (TimedOut, s)
  }

  /** The peer's answers among what arrived. */
  function Answers(es: seq<Inbound>): seq<Answer> {
    if es == [] then []
    else
      var e := es[|es| - 1];
      Answers(es[..|es| - 1]) + if e.Answered? then [e.answer] else []
  }

  /** An answer that does not take the transfer further than where its chunk started. */
  predicate Idle(ch: Chunk, a: Answer) {
    !(a.accepted && a.next > ch.offset)
  }

  /** The last `k` of the answers, each to the chunk sent before it, were idle. */
  predicate IdleTail(sent: seq<Chunk>, answers: seq<Answer>, k: nat) {
    k <= |answers| <= |sent| && forall i :: |answers| - k <= i < |answers| ==> Idle(sent[i], answers[i])
  }

  /** Why the loop ended, in terms of the last thing received and of the chunk in flight. */
  predicate Caused(result: Ending, e: Inbound, last: bool, total: nat, term: nat) {
    match result
    case Waiting => e.Answered? || e == OtherFrame(true)
    case Installed => e.Answered? && e.term <= term && e.answer.accepted && e.answer.next <= total && (last || e.answer.next == total)
    case TermChanged => e.Answered? && e.term > term
    case PastTotal => e.Answered? && e.term <= term && e.answer.next > total
    case NoProgress => e.Answered? && e.term <= term && e.answer.next <= total && !(e.answer.accepted && (last || e.answer.next == total))
    case NotLeader => e == OtherFrame(false)
    case TimedOut => e.Silence?
  }

  lemma EachCause(s: Sending, last: bool, total: nat, max: nat, term: nat, e: Inbound)
    ensures Caused(OnInbound(s, last, total, max, term, e).0, e, last, total, term)
  {
  }

  /** Every chunk is a piece of the snapshot, the first from its start, each other one from where an answer said. */
  ghost predicate Stream(meta: Meta, snap: seq<Byte>, sent: seq<Chunk>, answers: seq<Answer>) {
    && sent != [] && sent[0].offset == 0 && |answers| <= |sent| <= |answers| + 1
    && (forall i :: 0 <= i < |sent| ==> sent[i].meta == meta && Genuine(m => snap, sent[i]))
    && (forall i :: 0 < i < |sent| ==> sent[i].offset == answers[i - 1].next)
  }

  /** The sender waits for an answer to the chunk it sent last. */
  ghost predicate InFlight(meta: Meta, snap: seq<Byte>, size: nat, max: nat, s: Sending, sent: seq<Chunk>, answers: seq<Answer>) {
    && Stream(meta, snap, sent, answers) && |sent| == |answers| + 1
    && s.offset <= |snap| && sent[|sent| - 1] == NextChunk(meta, snap, s.offset, size)
    && s.idle < max && IdleTail(sent, answers, s.idle)
  }

  lemma FirstChunk(meta: Meta, snap: seq<Byte>, size: nat, max: nat)
    requires size > 0 && max > 0
    ensures InFlight(meta, snap, size, max, Sending(0, 0), [NextChunk(meta, snap, 0, size)], [])
  {
    NextChunkGenuine(meta, snap, 0, size);
  }

  lemma ChunkFollows(meta: Meta, snap: seq<Byte>, size: nat, max: nat, s: Sending, sent: seq<Chunk>, answers: seq<Answer>, a: Answer)
    requires InFlight(meta, snap, size, max, s, sent, answers) && size > 0
    requires Judge(s, sent[|sent| - 1].last, |snap|, max, a).0 == Waiting
    ensures var s' := Judge(s, sent[|sent| - 1].last, |snap|, max, a).1;
            && s'.offset <= |snap|
            && InFlight(meta, snap, size, max, s', sent + [NextChunk(meta, snap, s'.offset, size)], answers + [a])
  {
    var s' := Judge(s, sent[|sent| - 1].last, |snap|, max, a).1;
    NextChunkGenuine(meta, snap, s'.offset, size);
  }

  lemma LastAnswer(meta: Meta, snap: seq<Byte>, size: nat, max: nat, s: Sending, sent: seq<Chunk>, answers: seq<Answer>, a: Answer)
    requires InFlight(meta, snap, size, max, s, sent, answers)
    ensures Stream(meta, snap, sent, answers + [a])
    ensures Judge(s, sent[|sent| - 1].last, |snap|, max, a).0 == NoProgress ==> IdleTail(sent, answers + [a], max)
  {
  }

  lemma AnswersNext(es: seq<Inbound>, k: nat)
    requires k < |es|
    ensures Answers(es[..k + 1]) == Answers(es[..k]) + if es[k].Answered? then [es[k].answer] else []
  {
    assert es[..k + 1][..k] == es[..k];
  }

  /** What is received ends the loop ... */
  lemma InboundEnds(meta: Meta, snap: seq<Byte>, size: nat, max: nat, term: nat, s: Sending, sent: seq<Chunk>, es: seq<Inbound>, k: nat)
    requires k < |es| && InFlight(meta, snap, size, max, s, sent, Answers(es[..k]))
    ensures Stream(meta, snap, sent, Answers(es[..k + 1]))
    ensures OnInbound(s, sent[|sent| - 1].last, |snap|, max, term, es[k]).0 == NoProgress ==> IdleTail(sent, Answers(es[..k + 1]), max)
  {
    AnswersNext(es, k);
    if es[k].Answered? { LastAnswer(meta, snap, size, max, s, sent, Answers(es[..k]), es[k].answer); }
  }

  /** ... or has the next chunk sent if it is an answer, and changes nothing otherwise. */
  lemma InboundGoesOn(meta: Meta, snap: seq<Byte>, size: nat, max: nat, term: nat, s: Sending, sent: seq<Chunk>, es: seq<Inbound>, k: nat)
    requires k < |es| && size > 0 && InFlight(meta, snap, size, max, s, sent, Answers(es[..k]))
    requires OnInbound(s, sent[|sent| - 1].last, |snap|, max, term, es[k]).0 == Waiting
    ensures var s' := OnInbound(s, sent[|sent| - 1].last, |snap|, max, term, es[k]).1;
            && s'.offset <= |snap|
            && var sent' := if es[k].Answered? then sent + [NextChunk(meta, snap, s'.offset, size)] else sent;
               InFlight(meta, snap, size, max, s', sent', Answers(es[..k + 1]))
  {
    AnswersNext(es, k);
    if es[k].Answered? {
      ChunkFollows(meta, snap, size, max, s, sent, Answers(es[..k]), es[k].answer);
    } else {
      assert Answers(es[..k + 1]) == Answers(es[..k]);
    }
  }

  /**
   The sending loop over whatever arrives. Every answer that does not end it has the
   next chunk sent, from where the answer says; it gives up when the allowance is used
   up by the answers received last.
   */
  method SendSnapshot(meta: Meta, snap: seq<Byte>, chunkBytes: nat, maxAttempts: nat, term: nat, inbound: seq<Inbound>)
    returns (result: Ending, sent: seq<Chunk>, used: nat)
    ensures used <= |inbound| && Stream(meta, snap, sent, Answers(inbound[..used]))
    ensures result == Waiting ==> used == |inbound|
    ensures result != Waiting ==> used > 0 && Caused(result, inbound[used - 1], sent[|sent| - 1].last, |snap|, term)
    ensures result == NoProgress ==> IdleTail(sent, Answers(inbound[..used]), Max(maxAttempts, 1))
  {
    var size, max := Max(chunkBytes, 1), Max(maxAttempts, 1);
    var s := Sending(0, 0);
    FirstChunk(meta, snap, size, max);
    sent, used, result := [NextChunk(meta, snap, 0, size)], 0, Waiting;
    while used < |inbound|
      invariant used <= |inbound| && result == Waiting
      invariant InFlight(meta, snap, size, max, s, sent, Answers(inbound[..used]))
    {
      var e := inbound[used];
      var (r, s') := OnInbound(s, sent[|sent| - 1].last, |snap|, max, term, e);
      EachCause(s, sent[|sent| - 1].last, |snap|, max, term, e);
      if r != Waiting {
        InboundEnds(meta, snap, size, max, term, s, sent, inbound, used);
        return r, sent, used + 1;
      }
      InboundGoesOn(meta, snap, size, max, term, s, sent, inbound, used);
      used := used + 1;
      s := s';
      if e.Answered? { sent := sent + [NextChunk(meta, snap, s.offset, size)]; }
    }
  }

  /**
   What success means: the sender takes an answer as the end of the transfer, but an
   answer of the follower, to whichever chunk, comes with the snapshot saved if and
   only if it names the whole length.
   */
  lemma InstalledIsSavedIff(snap: Meta -> seq<Byte>, p: Option<Buffer>, ch: Chunk, cap: nat, s: Sending, last: bool, max: nat)
    requires PrefixOk(snap, p) && Genuine(snap, ch)
    requires Judge(s, last, |snap(ch.meta)|, max, Receive(p, ch, cap).answer).0 == Installed
    ensures Receive(p, ch, cap).saved == Some(Buffer(ch.meta, snap(ch.meta)))
       <==> Receive(p, ch, cap).answer.next == |snap(ch.meta)|
  {
    ReceiveKeepsPrefix(snap, p, ch, cap);
  }

  /** The input that fails: two chunks, the answer to the first delivered twice, the last chunk lost. */
  lemma RepeatedAnswerEndsEarly(meta: Meta, a: Byte, b: Byte, cap: nat, max: nat)
    requires cap >= 2
    ensures var snap := [a, b];
            var o := Receive(None, NextChunk(meta, snap, 0, 1), cap);
            var first := Judge(Sending(0, 0), NextChunk(meta, snap, 0, 1).last, 2, max, o.answer);
            && first.0 == Waiting && NextChunk(meta, snap, first.1.offset, 1).last
            && Judge(first.1, true, 2, max, o.answer).0 == Installed && o.saved == None
  {
  }

  // ------------------------------------------------------------------ lockstep

  /** The sender, the follower's buffer for it and the result so far. */
  datatype Session = Session(s: Sending, p: Option<Buffer>, result: Ending)

  /** One chunk sent, handled and answered. */
  function Round(meta: Meta, snap: seq<Byte>, size: nat, cap: nat, max: nat, x: Session): Session {
    if x.result != Waiting || x.s.offset > |snap| then x
    else
      var ch := NextChunk(meta, snap, x.s.offset, size);
      var o := Receive(x.p, ch, cap);
      var (r, s') := Judge(x.s, ch.last, |snap|, max, o.answer);
      Session(s', o.pending, r)
  }

  function Rounds(meta: Meta, snap: seq<Byte>, size: nat, cap: nat, max: nat, x: Session, k: nat): Session
    decreases k
  {
    if k == 0 then x else Rounds(meta, snap, size, cap, max, Round(meta, snap, size, cap, max, x), k - 1)
  }

  /** Follower and sender are in step: the follower holds exactly what was acknowledged. */
  predicate InStep(meta: Meta, snap: seq<Byte>, x: Session) {
    && x.result == Waiting && x.s.offset <= |snap|
    && (x.s.offset > 0 ==> x.p == Some(Buffer(meta, snap[..x.s.offset])))
  }

  /** What a round in step does: the chunk is taken, and is the last or not, or it does not fit. */
  lemma RoundInStep(meta: Meta, snap: seq<Byte>, size: nat, cap: nat, max: nat, x: Session)
    requires InStep(meta, snap, x) && size > 0
    ensures var end := Min(x.s.offset + size, |snap|);
            Round(meta, snap, size, cap, max, x) ==
            if end > cap then
              Session(if x.s.idle + 1 >= max then x.s else Sending(0, x.s.idle + 1), None,
                      if x.s.idle + 1 >= max then NoProgress else Waiting)
            else if end == |snap| then Session(x.s, None, Installed)
            else Session(Sending(end, 0), Some(Buffer(meta, snap[..end])), Waiting)
  {
    var ch := NextChunk(meta, snap, x.s.offset, size);
    var b := Opened(x.p, ch);
    assert b.bytes == snap[..x.s.offset];
    assert b.bytes + ch.bytes == snap[..Min(x.s.offset + size, |snap|)];
  }

  /** The transfer ends with this result. */
  predicate EndsWith(meta: Meta, snap: seq<Byte>, size: nat, cap: nat, max: nat, x: Session, k: nat, r: Ending) {
    Rounds(meta, snap, size, cap, max, x, k).result == r
  }

  /** A snapshot the follower can hold arrives whole. */
  lemma {:induction false} FittingArrives(meta: Meta, snap: seq<Byte>, size: nat, cap: nat, max: nat, x: Session) returns (k: nat)
    requires InStep(meta, snap, x) && size > 0 && |snap| <= cap
    ensures EndsWith(meta, snap, size, cap, max, x, k, Installed)
    decreases |snap| - x.s.offset
  {
    RoundInStep(meta, snap, size, cap, max, x);
    var x' := Round(meta, snap, size, cap, max, x);
    if x'.result == Installed {
      k := 1;
      assert Rounds(meta, snap, size, cap, max, x', 0) == x';
    } else {
      var j := FittingArrives(meta, snap, size, cap, max, x');
      k := j + 1;
    }
  }

  /** Where already the first chunk does not fit, the sender gives up after its allowance. */
  lemma {:induction false} FirstChunkGivesUp(meta: Meta, snap: seq<Byte>, size: nat, cap: nat, max: nat, x: Session) returns (k: nat)
    requires InStep(meta, snap, x) && x.s.offset == 0 && size > 0 && Min(size, |snap|) > cap && x.s.idle < max
    ensures EndsWith(meta, snap, size, cap, max, x, k, NoProgress)
    decreases max - x.s.idle
  {
    RoundInStep(meta, snap, size, cap, max, x);
    var x' := Round(meta, snap, size, cap, max, x);
    if x'.result == NoProgress {
      k := 1;
      assert Rounds(meta, snap, size, cap, max, x', 0) == x';
    } else {
      var j := FirstChunkGivesUp(meta, snap, size, cap, max, x');
      k := j + 1;
    }
  }

  /** An allowance of one ends it at the first chunk that does not fit. */
  lemma {:induction false} OneAttemptGivesUp(meta: Meta, snap: seq<Byte>, size: nat, cap: nat, x: Session) returns (k: nat)
    requires InStep(meta, snap, x) && size > 0 && |snap| > cap
    ensures EndsWith(meta, snap, size, cap, 1, x, k, NoProgress)
    decreases |snap| - x.s.offset
  {
    RoundInStep(meta, snap, size, cap, 1, x);
    var x' := Round(meta, snap, size, cap, 1, x);
    if x'.result == NoProgress {
      k := 1;
      assert Rounds(meta, snap, size, cap, 1, x', 0) == x';
    } else {
      var j := OneAttemptGivesUp(meta, snap, size, cap, x');
      k := j + 1;
    }
  }

  /** Otherwise the first chunk is taken again and again, each time resetting the count, and it never ends. */
  lemma {:induction false} TooLargeCycles(meta: Meta, snap: seq<Byte>, size: nat, cap: nat, max: nat, x: Session, k: nat)
    requires InStep(meta, snap, x) && size > 0 && |snap| > cap && Min(size, |snap|) <= cap && max >= 2
    requires x.s.idle <= 1 && (x.s.offset > 0 ==> x.s.idle == 0)
    ensures EndsWith(meta, snap, size, cap, max, x, k, Waiting)
    decreases k
  {
    if k > 0 {
      RoundInStep(meta, snap, size, cap, max, x);
      TooLargeCycles(meta, snap, size, cap, max, Round(meta, snap, size, cap, max, x), k - 1);
    }
  }

  /**
   When a transfer in lockstep ends, whatever was buffered before: if and only if
   the snapshot fits the follower's limit, or its first chunk alone does not, or a
   single answer without progress is enough to give up. In the first case it ends
   with the snapshot installed, in the others it is given up.
   */
  lemma LockstepEndsIff(meta: Meta, snap: seq<Byte>, size: nat, cap: nat, max: nat, p: Option<Buffer>)
    requires size > 0 && max > 0
    ensures var x := Session(Sending(0, 0), p, Waiting);
            && ((exists k: nat :: Rounds(meta, snap, size, cap, max, x, k).result != Waiting)
                <==> |snap| <= cap || Min(size, |snap|) > cap || max == 1)
            && (|snap| <= cap ==> exists k: nat :: EndsWith(meta, snap, size, cap, max, x, k, Installed))
            && (|snap| > cap && (Min(size, |snap|) > cap || max == 1) ==>
                  exists k: nat :: EndsWith(meta, snap, size, cap, max, x, k, NoProgress))
  {
    var x := Session(Sending(0, 0), p, Waiting);
    if |snap| <= cap {
      var k := FittingArrives(meta, snap, size, cap, max, x);
      assert Rounds(meta, snap, size, cap, max, x, k).result != Waiting;
    } else if Min(size, |snap|) > cap {
      var k := FirstChunkGivesUp(meta, snap, size, cap, max, x);
      assert Rounds(meta, snap, size, cap, max, x, k).result != Waiting;
    } else if max == 1 {
      var k := OneAttemptGivesUp(meta, snap, size, cap, x);
      assert Rounds(meta, snap, size, cap, max, x, k).result != Waiting;
    } else {
      forall k: nat
        ensures Rounds(meta, snap, size, cap, max, x, k).result == Waiting
      {
        TooLargeCycles(meta, snap, size, cap, max, x, k);
      }
    }
  }
}
