/** The wire codec: frames, message bodies, log entries, and the two encoders. */
module Codec {
  import opened Types
  import opened Bytes

  // ----------------------------------------------------------- fixed layouts

  /** An unsigned field of `width` bytes. */
  datatype Word = Word(width: nat, value: nat)

  function Put(ws: seq<Word>): seq<Byte> {
    if ws == [] then [] else ToLe(ws[0].value, ws[0].width) + Put(ws[1..])
  }

  function Widths(ws: seq<Word>): (r: seq<nat>)
    ensures |r| == |ws| && forall i :: 0 <= i < |r| ==> r[i] == ws[i].width
  {
    seq(|ws|, i requires 0 <= i < |ws| => ws[i].width)
  }

  function Values(ws: seq<Word>): (r: seq<nat>)
    ensures |r| == |ws| && forall i :: 0 <= i < |r| ==> r[i] == ws[i].value
  {
    seq(|ws|, i requires 0 <= i < |ws| => ws[i].value)
  }

  function Size(widths: seq<nat>): nat {
    if widths == [] then 0 else widths[0] + Size(widths[1..])
  }

  function Get(widths: seq<nat>, b: seq<Byte>): (r: seq<nat>)
    requires |b| >= Size(widths)
    ensures |r| == |widths|
  {
    if widths == [] then [] else [FromLe(b[..widths[0]])] + Get(widths[1..], b[widths[0]..])
  }

  predicate Fits(ws: seq<Word>) {
    forall i :: 0 <= i < |ws| ==> ws[i].value < Span(ws[i].width)
  }

  /** A layout read back gives the values written, and what follows it. */
  lemma {:induction false} PutGet(ws: seq<Word>, rest: seq<Byte>)
    requires Fits(ws)
    ensures |Put(ws)| == Size(Widths(ws))
    ensures Get(Widths(ws), Put(ws) + rest) == Values(ws)
  {
    if ws != [] {
      PutGet(ws[1..], rest);
      assert Widths(ws)[1..] == Widths(ws[1..]) && Values(ws)[1..] == Values(ws[1..]);
      LeRoundTrip(ws[0].value, ws[0].width);
      Split(ToLe(ws[0].value, ws[0].width), Put(ws[1..]), rest);
      assert Values(ws) == [ws[0].value] + Values(ws[1..]);
    }
  }

  lemma {:induction false} PutSize(ws: seq<Word>)
    ensures |Put(ws)| == Size(Widths(ws))
  {
    if ws != [] {
      PutSize(ws[1..]);
      assert Widths(ws)[1..] == Widths(ws[1..]);
    }
  }

  /** Fields of the given widths holding the given values. */
  function Fields(widths: seq<nat>, values: seq<nat>): (ws: seq<Word>)
    requires |widths| == |values|
    ensures |ws| == |widths| && forall i :: 0 <= i < |ws| ==> ws[i] == Word(widths[i], values[i])
  {
    seq(|widths|, i requires 0 <= i < |widths| => Word(widths[i], values[i]))
  }

  /** What was read, written again, is the bytes read. */
  lemma {:induction false} GetPut(widths: seq<nat>, b: seq<Byte>)
    requires |b| >= Size(widths)
    ensures Put(Fields(widths, Get(widths, b))) == b[..Size(widths)] && Fits(Fields(widths, Get(widths, b)))
  {
    if widths != [] {
      var ws := Fields(widths, Get(widths, b));
      var n := widths[0];
      GetPut(widths[1..], b[n..]);
      assert Get(widths, b)[1..] == Get(widths[1..], b[n..]);
      assert ws[1..] == Fields(widths[1..], Get(widths[1..], b[n..]));
      LeUnique(b[..n]);
      assert b[..n] + b[n..][..Size(widths[1..])] == b[..Size(widths)];
    }
  }

  // ------------------------------------------------------------ log entries

  const ENTRY_HEADER: seq<nat> := [8, 8, 4, 4]
  const ENTRY_HEADER_SIZE: nat := 24

  function EntryHeader(e: Entry): seq<Word> {
    [Word(8, e.term), Word(8, e.index), Word(4, |e.payload|), Word(4, 0)]
  }

  predicate Entry64(e: Entry) {
    e.term <= U64_MAX && e.index <= U64_MAX && |e.payload| <= U32_MAX
  }

  /** Header, payload, header, payload. */
  function PutEntries(es: seq<Entry>): seq<Byte> {
    if es == [] then [] else Put(EntryHeader(es[0])) + es[0].payload + PutEntries(es[1..])
  }

  lemma HeaderSize()
    ensures Size(ENTRY_HEADER) == ENTRY_HEADER_SIZE
  {
    assert Size(ENTRY_HEADER) == 8 + Size(ENTRY_HEADER[1..]);
    assert ENTRY_HEADER[1..] == [8, 4, 4] && ENTRY_HEADER[2..] == [4, 4] && ENTRY_HEADER[3..] == [4];
  }

  /** One step of the entry iterator: an entry and the bytes after it, or the end. */
  function NextEntry(b: seq<Byte>): Option<(Entry, seq<Byte>)> {
    HeaderSize();
    if |b| < ENTRY_HEADER_SIZE then None
    else
      var h := Get(ENTRY_HEADER, b);
      var rest := b[ENTRY_HEADER_SIZE..];
      if |rest| < h[2] then None else Some((Entry(h[0], h[1], rest[..h[2]]), rest[h[2]..]))
  }

  /** Up to `count` entries; the iterator stops early at a short header or payload. */
  function GetEntries(b: seq<Byte>, count: nat): seq<Entry> {
    if count == 0 then []
    else match NextEntry(b)
         case None => []
         case Some(p) => [p.0] + GetEntries(p.1, count - 1)
  }

  /** Exactly `count` entries and nothing after them. */
  predicate ValidBody(count: nat, b: seq<Byte>) {
    if count == 0 then b == []
    else match NextEntry(b)
         case None => false
         case Some(p) => ValidBody(count - 1, p.1)
  }

  lemma NextOfPut(e: Entry, rest: seq<Byte>)
    requires Entry64(e)
    ensures NextEntry(Put(EntryHeader(e)) + e.payload + rest) == Some((e, rest))
  {
    Spans();
    HeaderSize();
    var ws := EntryHeader(e);
    assert Fits(ws);
    assert Widths(ws) == ENTRY_HEADER;
    PutGet(ws, e.payload + rest);
    var b := Put(ws) + e.payload + rest;
    assert b == Put(ws) + (e.payload + rest);
    assert b[ENTRY_HEADER_SIZE..] == e.payload + rest;
    assert (e.payload + rest)[..|e.payload|] == e.payload && (e.payload + rest)[|e.payload|..] == rest;
  }

  /** The iterator yields exactly the entries that were written, and the body validates. */
  lemma {:induction false} EntriesRoundTrip(es: seq<Entry>)
    requires forall i :: 0 <= i < |es| ==> Entry64(es[i])
    ensures GetEntries(PutEntries(es), |es|) == es && ValidBody(|es|, PutEntries(es))
  {
    if es != [] {
      NextOfPut(es[0], PutEntries(es[1..]));
      EntriesRoundTrip(es[1..]);
      OneEntry(PutEntries(es), es[0], PutEntries(es[1..]), |es| - 1);
    }
  }

  lemma OneEntry(b: seq<Byte>, e: Entry, rest: seq<Byte>, count: nat)
    requires NextEntry(b) == Some((e, rest))
    ensures GetEntries(b, count + 1) == [e] + GetEntries(rest, count)
    ensures ValidBody(count + 1, b) <==> ValidBody(count, rest)
  {
  }

  /** Whatever validates iterates to exactly its count. */
  lemma {:induction false} ValidIterates(count: nat, b: seq<Byte>)
    requires ValidBody(count, b)
    ensures |GetEntries(b, count)| == count
  {
    if count > 0 { ValidIterates(count - 1, NextEntry(b).value.1); }
  }

  /** The validator's loop. */
  method ValidateBody(count: nat, body: seq<Byte>) returns (ok: bool)
    ensures ok <==> ValidBody(count, body)
  {
    var rest := body;
    var left := count;
    while left > 0
      invariant ValidBody(count, body) <==> ValidBody(left, rest)
    {
      var step := NextEntry(rest);
      if step.None? { return false; }
      rest, left := step.value.1, left - 1;
    }
    return rest == [];
  }

  class EntryIter {
    var payload: seq<Byte>
    var remaining: nat

    constructor (payload: seq<Byte>, count: nat)
      ensures this.payload == payload && remaining == count
    {
      this.payload, remaining := payload, count;
    }

    /** What is still to come. */
    function Rest(): seq<Entry>
      reads this
    {
      GetEntries(payload, remaining)
    }

    method Next() returns (e: Option<Entry>)
      modifies this
      ensures e.Some? <==> old(Rest()) != []
      ensures e.Some? ==> old(Rest()) == [e.value] + Rest()
      ensures e.None? ==> Rest() == []
    {
      if remaining == 0 { return None; }
      var step := NextEntry(payload);
      if step.None? { return None; }
      payload, remaining := step.value.1, remaining - 1;
      return Some(step.value.0);
    }
  }
}
