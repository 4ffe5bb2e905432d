/** Whole frames: header, fixed body, variable tail; the contiguous and the vectored encoder. */
module Frames {
  import opened Types
  import opened Bytes
  import opened Codec
  import NL = NodeLog

  const RAFT_MAGIC: nat := 0x52414654
  const RAFT_VERSION: nat := 1

  /** The fixed part of both append messages; `token` is the read-confirmation token. */
  datatype AppendHead = AppendHead(term: nat, leader: nat, prevIndex: nat, prevTerm: nat, commit: nat, count: nat, token: nat)

  /** Messages as handed to the encoders and as returned by the decoder. Reserved bytes are kept as numbers. */
  datatype Message =
    | RequestVote(term: nat, cand: nat, lastIndex: nat, lastTerm: nat)
    | RequestVoteResp(term: nat, granted: nat, pad: nat)
    | PreVote(term: nat, cand: nat, lastIndex: nat, lastTerm: nat)
    | PreVoteResp(term: nat, granted: nat, pad: nat)
    | AppendRaw(head: AppendHead, bytes: seq<Byte>)
    | AppendVectored(head: AppendHead, entries: seq<Entry>)
    | AppendResp(term: nat, matched: nat, success: nat, pad: nat)
    | Seeded(head: AppendHead, headers: seq<Byte>, payloads: seq<Byte>)
    | SeededVectored(head: AppendHead, headers: seq<Byte>, pieces: seq<seq<Byte>>)
    | InstallSnapshot(term: nat, leader: nat, lastIndex: nat, lastTerm: nat, offset: nat, chunkLen: nat, done: nat, pad: nat,
                      bytes: seq<Byte>)
    | InstallSnapshotResp(term: nat, next: nat, accepted: nat, pad: nat)
    | TimeoutNow(term: nat, leader: nat)
    | Custom(bytes: seq<Byte>)
    | CustomResponse(bytes: seq<Byte>)

  datatype Inbound = Inbound(from: nat, group: nat, message: Message)

  function Kind(m: Message): nat {
    match m
    case RequestVote(_, _, _, _) => 1
    case RequestVoteResp(_, _, _) => 2
    case AppendRaw(_, _) => 3
    case AppendVectored(_, _) => 3
    case AppendResp(_, _, _, _) => 4
    case InstallSnapshot(_, _, _, _, _, _, _, _, _) => 5
    case InstallSnapshotResp(_, _, _, _) => 6
    case Custom(_) => 7
    case CustomResponse(_) => 8
    case Seeded(_, _, _) => 9
    case SeededVectored(_, _, _) => 9
    case PreVote(_, _, _, _) => 10
    case PreVoteResp(_, _, _) => 11
    case TimeoutNow(_, _) => 12
  }

  function HeadWords(h: AppendHead): seq<Word> {
    [Word(8, h.term), Word(8, h.leader), Word(8, h.prevIndex), Word(8, h.prevTerm), Word(8, h.commit), Word(4, h.count), Word(4, h.token)]
  }

  /** The fixed body of a message. */
  function Fixed(m: Message): seq<Word> {
    match m
    case RequestVote(t, c, i, lt) => [Word(8, t), Word(8, c), Word(8, i), Word(8, lt)]
    case PreVote(t, c, i, lt) => [Word(8, t), Word(8, c), Word(8, i), Word(8, lt)]
    case RequestVoteResp(t, g, p) => [Word(8, t), Word(1, g), Word(7, p)]
    case PreVoteResp(t, g, p) => [Word(8, t), Word(1, g), Word(7, p)]
    case AppendRaw(h, _) => HeadWords(h)
    case AppendVectored(h, _) => HeadWords(h)
    case Seeded(h, _, _) => HeadWords(h)
    case SeededVectored(h, _, _) => HeadWords(h)
    case AppendResp(t, k, s, p) => [Word(8, t), Word(8, k), Word(1, s), Word(7, p)]
    case InstallSnapshot(t, l, i, lt, o, n, d, p, _) =>
      [Word(8, t), Word(8, l), Word(8, i), Word(8, lt), Word(8, o), Word(4, n), Word(1, d), Word(3, p)]
    case InstallSnapshotResp(t, o, a, p) => [Word(8, t), Word(8, o), Word(1, a), Word(7, p)]
    case TimeoutNow(t, l) => [Word(8, t), Word(8, l)]
    case Custom(_) => []
    case CustomResponse(_) => []
  }

  function Join(pieces: seq<seq<Byte>>): seq<Byte> {
    if pieces == [] then [] else pieces[0] + Join(pieces[1..])
  }

  /** What follows the fixed body. */
  function Tail(m: Message): seq<Byte> {
    match m
    case AppendRaw(_, b) => b
    case AppendVectored(_, es) => PutEntries(es)
    case Seeded(_, hs, ps) => hs + ps
    case SeededVectored(_, hs, pieces) => hs + Join(pieces)
    case InstallSnapshot(_, _, _, _, _, _, _, _, b) => b
    case Custom(b) => b
    case CustomResponse(b) => b
    case _ => []
  }

  function Body(m: Message): seq<Byte> { Put(Fixed(m)) + Tail(m) }

  function FrameHeader(from: nat, group: nat, kind: nat, len: nat): seq<Word> {
    [Word(4, RAFT_MAGIC), Word(1, RAFT_VERSION), Word(1, kind), Word(2, 0), Word(8, from), Word(4, len), Word(4, 0), Word(8, group)]
  }

  const HEADER: seq<nat> := [4, 1, 1, 2, 8, 4, 4, 8]

  /** The contiguous frame of the default group; a body or payload too long for its length field is refused. */
  function Encode(from: nat, m: Message): Result<seq<Byte>> {
    if |Body(m)| > U32_MAX then Err else Ok(Put(FrameHeader(from, 0, Kind(m), |Body(m)|)) + Body(m))
  }

  // ------------------------------------------------------------------- decoding

  function WidthsOf(kind: nat): Option<seq<nat>> {
    if kind == 1 || kind == 10 then Some([8, 8, 8, 8])
    else if kind == 2 || kind == 11 then Some([8, 1, 7])
    else if kind == 3 || kind == 9 then Some([8, 8, 8, 8, 8, 4, 4])
    else if kind == 4 || kind == 6 then Some([8, 8, 1, 7])
    else if kind == 5 then Some([8, 8, 8, 8, 8, 4, 1, 3])
    else if kind == 12 then Some([8, 8])
    else if kind == 7 || kind == 8 then Some([])
    else None
  }

  function HeadOf(v: seq<nat>): AppendHead
    requires |v| == 7
  {
    AppendHead(v[0], v[1], v[2], v[3], v[4], v[5], v[6])
  }

  /** Total payload length the seeded headers declare. */
  function SeedLen(headers: seq<Byte>, count: nat): nat
    requires |headers| == ENTRY_HEADER_SIZE * count
  {
    HeaderSize();
    if count == 0 then 0 else Get(ENTRY_HEADER, headers)[2] + SeedLen(headers[ENTRY_HEADER_SIZE..], count - 1)
  }

  /** The message of a kind from its fixed values and tail; trailing or missing bytes are refused. */
  function Build(kind: nat, v: seq<nat>, tail: seq<Byte>): Result<Message>
    requires WidthsOf(kind).Some? && |v| == |WidthsOf(kind).value|
  {
    if kind == 3 then
      if ValidBody(v[5], tail) then Ok(AppendRaw(HeadOf(v), tail)) else Err
    else if kind == 9 then
      var n := ENTRY_HEADER_SIZE * v[5];
      if |tail| < n || SeedLen(tail[..n], v[5]) != |tail[n..]| then Err else Ok(Seeded(HeadOf(v), tail[..n], tail[n..]))
    else if kind == 5 then
      if |tail| != v[5] then Err else Ok(InstallSnapshot(v[0], v[1], v[2], v[3], v[4], v[5], v[6], v[7], tail))
    else if kind == 7 then Ok(Custom(tail))
    else if kind == 8 then Ok(CustomResponse(tail))
    else if tail != [] then Err
    else if kind == 1 then Ok(RequestVote(v[0], v[1], v[2], v[3]))
    else if kind == 2 then Ok(RequestVoteResp(v[0], v[1], v[2]))
    else if kind == 4 then Ok(AppendResp(v[0], v[1], v[2], v[3]))
    else if kind == 6 then Ok(InstallSnapshotResp(v[0], v[1], v[2], v[3]))
    else if kind == 10 then Ok(PreVote(v[0], v[1], v[2], v[3]))
    else if kind == 11 then Ok(PreVoteResp(v[0], v[1], v[2]))
    else Ok(TimeoutNow(v[0], v[1]))
  }

  function DecodeBody(kind: nat, body: seq<Byte>): Result<Message> {
    match WidthsOf(kind)
    case None => Err
    case Some(ws) =>
      if |body| < Size(ws) then Err else Build(kind, Get(ws, body), body[Size(ws)..])
  }

  function Decode(frame: seq<Byte>): Result<Inbound> {
    if |frame| < Size(HEADER) then Err
    else
      var h := Get(HEADER, frame);
      var body := frame[Size(HEADER)..];
      if h[0] != RAFT_MAGIC || h[1] != RAFT_VERSION || h[5] != |body| then Err
      else match DecodeBody(h[2], body)
           case Err => Err
           case Ok(m) => Ok(Inbound(h[4], h[7], m))
  }

  // ----------------------------------------------------------------- round trip

  /** What the receiver sees: batched entries and pieces arrive as one block. */
  function Received(m: Message): Message {
    match m
    case AppendVectored(h, es) => AppendRaw(h, PutEntries(es))
    case SeededVectored(h, hs, pieces) => Seeded(h, hs, Join(pieces))
    case _ => m
  }

  /** The message is one a node can build: fields fit, counts and lengths say what is there. */
  predicate Wf(m: Message) {
    && Fits(Fixed(m))
    && match m
       case AppendRaw(h, b) => ValidBody(h.count, b)
       case AppendVectored(h, es) => h.count == |es| && forall i :: 0 <= i < |es| ==> Entry64(es[i])
       case Seeded(h, hs, ps) => |hs| == ENTRY_HEADER_SIZE * h.count && SeedLen(hs, h.count) == |ps|
       case SeededVectored(h, hs, pieces) => |hs| == ENTRY_HEADER_SIZE * h.count && SeedLen(hs, h.count) == |Join(pieces)|
       case InstallSnapshot(_, _, _, _, _, n, _, _, b) => n == |b|
       case _ => true
  }

  lemma KindWidths(m: Message)
    ensures WidthsOf(Kind(m)) == Some(Widths(Fixed(m))) && Kind(m) < 256
  {
    assert Widths(Fixed(m)) == WidthsOf(Kind(m)).value;
  }

  /** Building from the message's own values gives the message back. */
  lemma BuildBack(m: Message)
    requires Wf(m)
    ensures WidthsOf(Kind(m)).Some? && |WidthsOf(Kind(m)).value| == |Values(Fixed(m))|
    ensures Build(Kind(m), Values(Fixed(m)), Tail(m)) == Ok(Received(m))
  {
    KindWidths(m);
    match m
    case AppendVectored(h, es) => EntriesRoundTrip(es);
    case Seeded(h, hs, ps) => assert (hs + ps)[..|hs|] == hs && (hs + ps)[|hs|..] == ps;
    case SeededVectored(h, hs, pieces) =>
      assert (hs + Join(pieces))[..|hs|] == hs && (hs + Join(pieces))[|hs|..] == Join(pieces);
    case _ =>
  }

  lemma BodyBack(m: Message)
    requires Wf(m)
    ensures DecodeBody(Kind(m), Body(m)) == Ok(Received(m))
  {
    KindWidths(m);
    PutGet(Fixed(m), Tail(m));
    BuildBack(m);
    assert Body(m)[|Put(Fixed(m))|..] == Tail(m);
  }

  lemma FrameBack(from: nat, group: nat, kind: nat, body: seq<Byte>)
    requires from <= U64_MAX && group <= U64_MAX && kind < 256 && |body| <= U32_MAX
    ensures var frame := Put(FrameHeader(from, group, kind, |body|)) + body;
            && |frame| >= Size(HEADER) && frame[Size(HEADER)..] == body
            && Get(HEADER, frame) == [RAFT_MAGIC, RAFT_VERSION, kind, 0, from, |body|, 0, group]
  {
    var ws := FrameHeader(from, group, kind, |body|);
    HeaderFits(from, group, kind, |body|);
    PutGet(ws, body);
    assert Widths(ws) == HEADER;
    assert Values(ws) == [RAFT_MAGIC, RAFT_VERSION, kind, 0, from, |body|, 0, group];
  }

  lemma HeaderFits(from: nat, group: nat, kind: nat, len: nat)
    requires from <= U64_MAX && group <= U64_MAX && kind < 256 && len <= U32_MAX
    ensures Fits(FrameHeader(from, group, kind, len))
  {
    Spans();
    assert Span(2) == 256 * Span(1);
  }

  /** Decoding an encoded message gives back the sender and the message, in received form. */
  lemma RoundTrip(from: nat, m: Message)
    requires from <= U64_MAX && Wf(m) && Encode(from, m).Ok?
    ensures Decode(Encode(from, m).value) == Ok(Inbound(from, 0, Received(m)))
  {
    KindWidths(m);
    FrameBack(from, 0, Kind(m), Body(m));
    BodyBack(m);
  }

  /** ... and the entries of a batch are exactly the ones sent. */
  lemma EntriesArrive(from: nat, h: AppendHead, es: seq<Entry>)
    requires from <= U64_MAX && Wf(AppendVectored(h, es)) && Encode(from, AppendVectored(h, es)).Ok?
    ensures var d := Decode(Encode(from, AppendVectored(h, es)).value);
            d.Ok? && d.value.message.AppendRaw? && d.value.message.head == h
            && GetEntries(d.value.message.bytes, d.value.message.head.count) == es
  {
    RoundTrip(from, AppendVectored(h, es));
    EntriesRoundTrip(es);
  }

  /** Any append frame that decodes iterates to exactly its entry count. */
  lemma DecodedIterates(frame: seq<Byte>)
    requires Decode(frame).Ok? && Decode(frame).value.message.AppendRaw?
    ensures var m := Decode(frame).value.message; |GetEntries(m.bytes, m.head.count)| == m.head.count
  {
    var m := Decode(frame).value.message;
    ValidIterates(m.head.count, m.bytes);
  }

  // -------------------------------------------------------------- read tokens

  /** The reserved bytes of a response: the request's token, then zeros. */
  function EchoPad(token: nat): nat { FromLe(ToLe(token, 4) + [0, 0, 0]) }

  /** The token a leader reads out of a response. */
  function Echoed(pad: nat): nat { FromLe(ToLe(pad, 7)[..4]) }

  /** The token survives the echo. */
  lemma EchoBack(token: nat)
    requires token <= U32_MAX
    ensures Echoed(EchoPad(token)) == token
  {
    var b := ToLe(token, 4) + [0, 0, 0];
    LeUnique(b);
    U32RoundTrip(token);
    assert b[..4] == ToLe(token, 4);
  }

  // ------------------------------------------------------------ seeded batches

  /** The entry headers of a seeded block. */
  function HeadsOf(headers: seq<Byte>, count: nat): (hs: seq<NL.Head>)
    requires |headers| == ENTRY_HEADER_SIZE * count
    ensures |hs| == count
  {
    HeaderSize();
    if count == 0 then []
    else
      var v := Get(ENTRY_HEADER, headers);
      [NL.Head(v[0], v[1], v[2])] + HeadsOf(headers[ENTRY_HEADER_SIZE..], count - 1)
  }

  lemma {:induction false} HeadsLen(headers: seq<Byte>, count: nat)
    requires |headers| == ENTRY_HEADER_SIZE * count
    ensures NL.TotalLen(HeadsOf(headers, count)) == SeedLen(headers, count)
  {
    if count > 0 {
      HeadsLen(headers[ENTRY_HEADER_SIZE..], count - 1);
      assert HeadsOf(headers, count)[1..] == HeadsOf(headers[ENTRY_HEADER_SIZE..], count - 1);
    }
  }

  /** A seeded frame that decodes has exactly `count` headers, and they use up the payload block. */
  lemma SeededIterates(frame: seq<Byte>)
    requires Decode(frame).Ok? && Decode(frame).value.message.Seeded?
    ensures var m := Decode(frame).value.message;
            |m.headers| == ENTRY_HEADER_SIZE * m.head.count && NL.TotalLen(HeadsOf(m.headers, m.head.count)) == |m.payloads|
  {
    var m := Decode(frame).value.message;
    HeadsLen(m.headers, m.head.count);
  }

  function PutHeads(es: seq<Entry>): seq<Byte> {
    if es == [] then [] else Put(EntryHeader(es[0])) + PutHeads(es[1..])
  }

  function Payloads(es: seq<Entry>): seq<seq<Byte>> {
    if es == [] then [] else [es[0].payload] + Payloads(es[1..])
  }

  lemma HeadBack(e: Entry, rest: seq<Byte>)
    requires Entry64(e)
    ensures |Put(EntryHeader(e))| == ENTRY_HEADER_SIZE && Size(ENTRY_HEADER) == ENTRY_HEADER_SIZE
    ensures Get(ENTRY_HEADER, Put(EntryHeader(e)) + rest) == [e.term, e.index, |e.payload|, 0]
  {
    Spans();
    HeaderSize();
    var ws := EntryHeader(e);
    assert Fits(ws);
    assert Widths(ws) == ENTRY_HEADER;
    PutGet(ws, rest);
    assert Values(ws) == [e.term, e.index, |e.payload|, 0];
  }

  /** A seeded batch built from entries is read back as those entries. */
  lemma {:induction false} SeededBack(es: seq<Entry>)
    requires forall i :: 0 <= i < |es| ==> Entry64(es[i])
    ensures |PutHeads(es)| == ENTRY_HEADER_SIZE * |es|
    ensures NL.TotalLen(HeadsOf(PutHeads(es), |es|)) == |Join(Payloads(es))|
    ensures NL.Unseed(HeadsOf(PutHeads(es), |es|), Join(Payloads(es))) == es
  {
    if es != [] {
      SeededBack(es[1..]);
      HeadBack(es[0], PutHeads(es[1..]));
      var b, ps := PutHeads(es), Join(Payloads(es));
      assert b[ENTRY_HEADER_SIZE..] == PutHeads(es[1..]);
      assert Payloads(es)[1..] == Payloads(es[1..]);
      var hs := HeadsOf(b, |es|);
      assert hs[1..] == HeadsOf(PutHeads(es[1..]), |es| - 1);
      assert ps[..|es[0].payload|] == es[0].payload && ps[|es[0].payload|..] == Join(Payloads(es[1..]));
    }
  }

  /** Sent in seeded form, the same entries arrive. */
  lemma SeededArrives(from: nat, h: AppendHead, es: seq<Entry>)
    requires from <= U64_MAX && Fits(HeadWords(h)) && h.count == |es| && (forall i :: 0 <= i < |es| ==> Entry64(es[i]))
    requires Encode(from, SeededVectored(h, PutHeads(es), Payloads(es))).Ok?
    ensures Decode(Encode(from, SeededVectored(h, PutHeads(es), Payloads(es))).value)
         == Ok(Inbound(from, 0, Seeded(h, PutHeads(es), Join(Payloads(es)))))
  {
    SeededBack(es);
    HeadsLen(PutHeads(es), |es|);
    RoundTrip(from, SeededVectored(h, PutHeads(es), Payloads(es)));
  }

  // -------------------------------------------------------- what decodes, encodes

  /** The fixed values of a built message are the values it was built from. */
  lemma BuiltFrom(kind: nat, v: seq<nat>, tail: seq<Byte>)
    requires WidthsOf(kind).Some? && |v| == |WidthsOf(kind).value| && Build(kind, v, tail).Ok?
    ensures var m := Build(kind, v, tail).value;
            Kind(m) == kind && Tail(m) == tail && Fixed(m) == Fields(WidthsOf(kind).value, v)
  {
    var m := Build(kind, v, tail).value;
    if kind == 9 { assert tail[..ENTRY_HEADER_SIZE * v[5]] + tail[ENTRY_HEADER_SIZE * v[5]..] == tail; }
    assert Fixed(m) == Fields(WidthsOf(kind).value, v);
  }

  lemma BodyAgain(kind: nat, body: seq<Byte>)
    requires DecodeBody(kind, body).Ok?
    ensures Kind(DecodeBody(kind, body).value) == kind && Body(DecodeBody(kind, body).value) == body
  {
    var ws := WidthsOf(kind).value;
    var v := Get(ws, body);
    BuiltFrom(kind, v, body[Size(ws)..]);
    GetPut(ws, body);
    assert body[..Size(ws)] + body[Size(ws)..] == body;
  }

  /** The header fields the decoder does not look at, and the group, as the contiguous encoder writes them. */
  predicate Canonical(frame: seq<Byte>) {
    |frame| >= Size(HEADER) && Get(HEADER, frame)[3] == 0 && Get(HEADER, frame)[6] == 0 && Get(HEADER, frame)[7] == 0
  }

  lemma HeaderAgain(frame: seq<Byte>, from: nat, kind: nat, len: nat)
    requires |frame| >= Size(HEADER) && Get(HEADER, frame) == [RAFT_MAGIC, RAFT_VERSION, kind, 0, from, len, 0, 0]
    ensures Put(FrameHeader(from, 0, kind, len)) == frame[..Size(HEADER)]
  {
    GetPut(HEADER, frame);
    assert FrameHeader(from, 0, kind, len) == Fields(HEADER, Get(HEADER, frame));
  }

  lemma Opened(frame: seq<Byte>) returns (kind: nat, from: nat)
    requires Decode(frame).Ok? && Canonical(frame)
    ensures DecodeBody(kind, frame[Size(HEADER)..]) == Ok(Decode(frame).value.message) && Decode(frame).value.from == from
    ensures Get(HEADER, frame) == [RAFT_MAGIC, RAFT_VERSION, kind, 0, from, |frame[Size(HEADER)..]|, 0, 0]
  {
    var h := Get(HEADER, frame);
    kind, from := h[2], h[4];
    EightOf(h);
  }

  lemma EightOf(h: seq<nat>)
    requires |h| == 8
    ensures h == [h[0], h[1], h[2], h[3], h[4], h[5], h[6], h[7]]
  {
  }

  /** A frame that decodes and has nothing in the ignored fields is the encoding of what it decodes to. */
  lemma DecodeThenEncode(frame: seq<Byte>)
    requires Decode(frame).Ok? && Canonical(frame) && |frame| <= U32_MAX
    ensures Encode(Decode(frame).value.from, Decode(frame).value.message) == Ok(frame)
  {
    var kind, from := Opened(frame);
    Reencodes(frame, kind, from, Decode(frame).value.message);
  }

  lemma Reencodes(frame: seq<Byte>, kind: nat, from: nat, m: Message)
    requires Size(HEADER) <= |frame| <= U32_MAX && DecodeBody(kind, frame[Size(HEADER)..]) == Ok(m)
    requires Get(HEADER, frame) == [RAFT_MAGIC, RAFT_VERSION, kind, 0, from, |frame[Size(HEADER)..]|, 0, 0]
    ensures Encode(from, m) == Ok(frame)
  {
    BodyAgain(kind, frame[Size(HEADER)..]);
    EncodeAgain(frame, from, m);
  }

  lemma EncodeAgain(frame: seq<Byte>, from: nat, m: Message)
    requires Size(HEADER) <= |frame| <= U32_MAX && Body(m) == frame[Size(HEADER)..]
    requires Get(HEADER, frame) == [RAFT_MAGIC, RAFT_VERSION, Kind(m), 0, from, |Body(m)|, 0, 0]
    ensures Encode(from, m) == Ok(frame)
  {
    HeaderAgain(frame, from, Kind(m), |Body(m)|);
    Rejoin(frame, Size(HEADER));
  }

  lemma Rejoin(frame: seq<Byte>, n: nat)
    requires n <= |frame|
    ensures frame[..n] + frame[n..] == frame
  {
  }

  // ------------------------------------------------------------- vectored form

  function NonEmpty(b: seq<Byte>): seq<seq<Byte>> { if b == [] then [] else [b] }

  function NonEmptyPieces(pieces: seq<seq<Byte>>): seq<seq<Byte>> {
    if pieces == [] then [] else NonEmpty(pieces[0]) + NonEmptyPieces(pieces[1..])
  }

  /** Entry headers and payloads, interleaved; empty payloads contribute no slice. */
  function EntrySlices(es: seq<Entry>): seq<seq<Byte>> {
    if es == [] then [] else [Put(EntryHeader(es[0]))] + NonEmpty(es[0].payload) + EntrySlices(es[1..])
  }

  /** The slices handed to vectored output. A batch's entry count is taken from the batch, not from the head. */
  function Slices(from: nat, group: nat, m: Message): Result<seq<seq<Byte>>> {
    if |Body(m)| > U32_MAX then Err
    else
      var header := Put(FrameHeader(from, group, Kind(m), |Body(m)|));
      match m
      case AppendVectored(h, es) => Ok([header + Put(HeadWords(h.(count := |es|)))] + EntrySlices(es))
      case SeededVectored(h, hs, pieces) => Ok([header, Put(Fixed(m))] + NonEmpty(hs) + NonEmptyPieces(pieces))
      case Seeded(h, hs, ps) => Ok([header, Put(Fixed(m))] + NonEmpty(hs) + NonEmpty(ps))
      case Custom(b) => Ok([header] + NonEmpty(b))
      case CustomResponse(b) => Ok([header] + NonEmpty(b))
      case _ => Ok([header, Put(Fixed(m))] + NonEmpty(Tail(m)))
  }

  lemma {:induction false} JoinSplit(a: seq<seq<Byte>>, b: seq<seq<Byte>>)
    ensures Join(a + b) == Join(a) + Join(b)
  {
    if a == [] {
      assert a + b == b;
    } else {
      assert (a + b)[1..] == a[1..] + b;
      JoinSplit(a[1..], b);
    }
  }

  lemma JoinOne(b: seq<Byte>)
    ensures Join([b]) == b && Join(NonEmpty(b)) == b
  {
    assert [b][1..] == [];
  }

  lemma {:induction false} JoinPieces(pieces: seq<seq<Byte>>)
    ensures Join(NonEmptyPieces(pieces)) == Join(pieces)
  {
    if pieces != [] {
      JoinPieces(pieces[1..]);
      JoinOne(pieces[0]);
      JoinSplit(NonEmpty(pieces[0]), NonEmptyPieces(pieces[1..]));
    }
  }

  lemma {:induction false} JoinEntries(es: seq<Entry>)
    ensures Join(EntrySlices(es)) == PutEntries(es)
  {
    if es != [] {
      JoinEntries(es[1..]);
      var h, p := [Put(EntryHeader(es[0]))], NonEmpty(es[0].payload);
      JoinOne(Put(EntryHeader(es[0])));
      JoinOne(es[0].payload);
      JoinSplit(h + p, EntrySlices(es[1..]));
      JoinSplit(h, p);
    }
  }

  lemma JoinTwo(a: seq<Byte>, b: seq<Byte>, rest: seq<seq<Byte>>)
    ensures Join([a, b] + rest) == a + b + Join(rest)
  {
    JoinSplit([a, b], rest);
    assert [a, b] == [a] + [b];
    JoinSplit([a], [b]);
    JoinOne(a);
    JoinOne(b);
  }

  lemma JoinBatch(header: seq<Byte>, h: AppendHead, es: seq<Entry>)
    ensures Join([header + Put(HeadWords(h))] + EntrySlices(es)) == header + Body(AppendVectored(h, es))
  {
    JoinFirst(header + Put(HeadWords(h)), EntrySlices(es));
    JoinEntries(es);
    assert header + Put(HeadWords(h)) + PutEntries(es) == header + (Put(HeadWords(h)) + PutEntries(es));
  }

  lemma JoinFirst(a: seq<Byte>, rest: seq<seq<Byte>>)
    ensures Join([a] + rest) == a + Join(rest)
  {
    assert ([a] + rest)[1..] == rest;
  }

  lemma JoinSeeded(header: seq<Byte>, head: seq<Byte>, hs: seq<Byte>, pieces: seq<seq<Byte>>)
    ensures Join([header, head] + NonEmpty(hs) + NonEmptyPieces(pieces)) == header + (head + (hs + Join(pieces)))
  {
    JoinTwo(header, head, NonEmpty(hs) + NonEmptyPieces(pieces));
    JoinSplit(NonEmpty(hs), NonEmptyPieces(pieces));
    JoinOne(hs);
    JoinPieces(pieces);
    assert [header, head] + NonEmpty(hs) + NonEmptyPieces(pieces) == [header, head] + (NonEmpty(hs) + NonEmptyPieces(pieces));
  }

  lemma JoinBlocks(header: seq<Byte>, head: seq<Byte>, hs: seq<Byte>, ps: seq<Byte>)
    ensures Join([header, head] + NonEmpty(hs) + NonEmpty(ps)) == header + (head + (hs + ps))
  {
    JoinTwo(header, head, NonEmpty(hs) + NonEmpty(ps));
    JoinSplit(NonEmpty(hs), NonEmpty(ps));
    JoinOne(hs);
    JoinOne(ps);
    assert [header, head] + NonEmpty(hs) + NonEmpty(ps) == [header, head] + (NonEmpty(hs) + NonEmpty(ps));
  }

  lemma JoinPlain(header: seq<Byte>, head: seq<Byte>, tail: seq<Byte>)
    ensures Join([header, head] + NonEmpty(tail)) == header + (head + tail)
  {
    JoinTwo(header, head, NonEmpty(tail));
    JoinOne(tail);
  }

  /** A batch whose head states its true count. */
  function Counted(m: Message): Message {
    if m.AppendVectored? then AppendVectored(m.head.(count := |m.entries|), m.entries) else m
  }

  /** The joined slices are the frame with the group in its header and, for a batch, the batch's own count. */
  lemma JoinedSlices(from: nat, group: nat, m: Message)
    requires Slices(from, group, m).Ok?
    ensures Join(Slices(from, group, m).value) == Put(FrameHeader(from, group, Kind(m), |Body(m)|)) + Body(Counted(m))
  {
    var header := Put(FrameHeader(from, group, Kind(m), |Body(m)|));
    match m
    case AppendVectored(h, es) => JoinBatch(header, h.(count := |es|), es);
    case SeededVectored(h, hs, pieces) => JoinSeeded(header, Put(Fixed(m)), hs, pieces);
    case Seeded(h, hs, ps) => JoinBlocks(header, Put(Fixed(m)), hs, ps);
    case Custom(b) => JoinCustom(header, b);
    case CustomResponse(b) => JoinCustom(header, b);
    case _ => JoinPlain(header, Put(Fixed(m)), Tail(m));
  }

  lemma JoinCustom(header: seq<Byte>, b: seq<Byte>)
    ensures Join([header] + NonEmpty(b)) == header + ([] + b)
  {
    JoinSplit([header], NonEmpty(b));
    JoinOne(header);
    JoinOne(b);
  }

  lemma HeadsDiffer(h: AppendHead, n: nat)
    requires Fits(HeadWords(h)) && n <= U32_MAX
    ensures Put(HeadWords(h)) == Put(HeadWords(h.(count := n))) <==> h.count == n
  {
    var a, b := HeadWords(h), HeadWords(h.(count := n));
    Spans();
    assert forall i :: 0 <= i < |a| && i != 5 ==> b[i] == a[i];
    PutGet(a, []);
    PutGet(b, []);
    assert Widths(a) == Widths(b);
    assert Put(a) + [] == Put(a) && Put(b) + [] == Put(b);
    assert Values(a)[5] == h.count && Values(b)[5] == n;
  }

  /** For the default group the two encoders agree byte for byte, if and only if a batch's head states its true count. */
  lemma VectoredIsContiguousIff(from: nat, m: Message)
    requires Encode(from, m).Ok? && Fits(Fixed(m)) && (m.AppendVectored? ==> |m.entries| <= U32_MAX)
    ensures Slices(from, 0, m).Ok?
    ensures Join(Slices(from, 0, m).value) == Encode(from, m).value <==> (m.AppendVectored? ==> m.head.count == |m.entries|)
  {
    JoinedSlices(from, 0, m);
    if m.AppendVectored? {
      BatchIff(Put(FrameHeader(from, 0, Kind(m), |Body(m)|)), m.head, m.entries);
    }
  }

  /** The input that fails: a head that announces one entry before an empty batch. */
  lemma WrongCountDiffers(from: nat)
    ensures var m := AppendVectored(AppendHead(1, 1, 0, 0, 0, 1, 0), []);
            && Encode(from, m).Ok? && Slices(from, 0, m).Ok?
            && Join(Slices(from, 0, m).value) != Encode(from, m).value
  {
    var m := AppendVectored(AppendHead(1, 1, 0, 0, 0, 1, 0), []);
    Spans();
    PutSize(Fixed(m));
    VectoredIsContiguousIff(from, m);
  }

  lemma BatchIff(header: seq<Byte>, h: AppendHead, es: seq<Entry>)
    requires Fits(HeadWords(h)) && |es| <= U32_MAX
    ensures header + Body(AppendVectored(h.(count := |es|), es)) == header + Body(AppendVectored(h, es)) <==> h.count == |es|
  {
    var a, b := HeadWords(h.(count := |es|)), HeadWords(h);
    HeadsDiffer(h, |es|);
    PutSize(a);
    PutSize(b);
    assert Widths(a) == Widths(b);
    SameMiddle(header, Put(a), Put(b), PutEntries(es));
  }

  lemma SameMiddle(x: seq<Byte>, a: seq<Byte>, b: seq<Byte>, t: seq<Byte>)
    requires |a| == |b|
    ensures x + (a + t) == x + (b + t) <==> a == b
  {
    if x + (a + t) == x + (b + t) {
      assert a == (x + (a + t))[|x|..|x| + |a|];
      assert b == (x + (b + t))[|x|..|x| + |b|];
    }
  }

  // -------------------------------------------------------------- the encoders

  /** `copy_from_slice` at an offset. */
  method CopyInto(buf: array<Byte>, at: nat, bytes: seq<Byte>) returns (end: nat)
    requires at + |bytes| <= buf.Length
    modifies buf
    ensures end == at + |bytes| && buf[..end] == old(buf[..at]) + bytes && buf[end..] == old(buf[end..])
  {
    end := at + |bytes|;
    forall i | 0 <= i < |bytes| { buf[at + i] := bytes[i]; }
  }

  method CopyEntry(buf: array<Byte>, at: nat, e: Entry) returns (end: nat)
    requires at + |Put(EntryHeader(e))| + |e.payload| <= buf.Length
    modifies buf
    ensures end == at + |Put(EntryHeader(e))| + |e.payload|
    ensures buf[..end] == old(buf[..at]) + (Put(EntryHeader(e)) + e.payload) && buf[end..] == old(buf[end..])
  {
    end := CopyInto(buf, at, Put(EntryHeader(e)));
    ghost var mid := buf[end..];
    var done := CopyInto(buf, end, e.payload);
    assert old(buf[done..]) == mid[|e.payload|..];
    end := done;
  }

  lemma {:induction false} MoreEntries(prefix: seq<Byte>, es: seq<Entry>, k: nat)
    requires k < |es|
    ensures prefix + PutEntries(es[k..]) == prefix + (Put(EntryHeader(es[k])) + es[k].payload) + PutEntries(es[k + 1..])
  {
    assert es[k..][1..] == es[k + 1..] && es[k..][0] == es[k];
  }

  /** Writes entry headers and payloads into the buffer at a moving offset. */
  method FillEntries(buf: array<Byte>, start: nat, es: seq<Entry>) returns (end: nat)
    requires start + |PutEntries(es)| <= buf.Length
    modifies buf
    ensures end == start + |PutEntries(es)|
    ensures buf[..end] == old(buf[..start]) + PutEntries(es) && buf[end..] == old(buf[end..])
  {
    end := start;
    ghost var was := buf[..];
    assert es[0..] == es;
    for k := 0 to |es|
      invariant start <= end && end + |PutEntries(es[k..])| == start + |PutEntries(es)|
      invariant buf[..end] + PutEntries(es[k..]) == was[..start] + PutEntries(es)
      invariant buf[end..] == was[end..]
    {
      MoreEntries(buf[..end], es, k);
      MoreEntries([], es, k);
      ghost var tail := buf[end..];
      var next := CopyEntry(buf, end, es[k]);
      assert buf[next..] == tail[next - end..];
      end := next;
    }
    assert es[|es|..] == [];
  }

  method BatchLength(h: AppendHead, es: seq<Entry>) returns (len: nat)
    ensures len == |Body(AppendVectored(h, es))|
  {
    len := |Put(HeadWords(h))|;
    assert es[0..] == es;
    for k := 0 to |es|
      invariant len + |PutEntries(es[k..])| == |Body(AppendVectored(h, es))|
    {
      MoreEntries([], es, k);
      len := len + |Put(EntryHeader(es[k]))| + |es[k].payload|;
    }
    assert es[|es|..] == [];
  }

  method PushEntries(first: seq<seq<Byte>>, es: seq<Entry>) returns (slices: seq<seq<Byte>>)
    ensures slices == first + EntrySlices(es)
  {
    slices := first;
    assert es[0..] == es;
    for k := 0 to |es|
      invariant slices + EntrySlices(es[k..]) == first + EntrySlices(es)
    {
      assert es[k..][1..] == es[k + 1..] && es[k..][0] == es[k];
      slices := slices + ([Put(EntryHeader(es[k]))] + NonEmpty(es[k].payload));
    }
    assert es[|es|..] == [];
    assert slices + [] == slices;
  }

  /** Collects the slices of a batch. */
  method CollectBatch(from: nat, group: nat, h: AppendHead, es: seq<Entry>) returns (out: Result<seq<seq<Byte>>>)
    ensures out == Slices(from, group, AppendVectored(h, es))
  {
    var len := BatchLength(h, es);
    if len > U32_MAX { return Err; }
    var slices := PushEntries([Put(FrameHeader(from, group, 3, len)) + Put(HeadWords(h.(count := |es|)))], es);
    return Ok(slices);
  }
}
