/** The ring of recent log terms, and the contiguous window it stands for. */
module Arena {
  import opened Types

  /** Terms of consecutive indexes from `base` on. */
  datatype Window = Window(base: nat, terms: seq<nat>)

  function Lookup(w: Window, index: nat): Option<nat> {
    if w.base <= index < w.base + |w.terms| then Some(w.terms[index - w.base]) else None
  }

  /** Appending in sequence slides the window; anything else starts a new one. */
  function Extend(w: Window, capacity: nat, index: nat, term: nat): Window {
    if capacity == 0 then w
    else if w.terms == [] || index != w.base + |w.terms| then Window(index, [term])
    else if |w.terms| == capacity then Window(w.base + 1, w.terms[1..] + [term])
    else Window(w.base, w.terms + [term])
  }

  function Cutoff(w: Window, from: nat): Window {
    if w.terms == [] then w
    else if from <= w.base then Window(from, [])
    else if from < w.base + |w.terms| then Window(w.base, w.terms[..from - w.base])
    else w
  }

  /** After an append the new index is known, and nothing is known that was not known or appended. */
  lemma ExtendLookup(w: Window, capacity: nat, index: nat, term: nat, i: nat)
    requires capacity > 0 && |w.terms| <= capacity
    ensures Lookup(Extend(w, capacity, index, term), index) == Some(term)
    ensures i != index && Lookup(Extend(w, capacity, index, term), i).Some? ==>
              Lookup(Extend(w, capacity, index, term), i) == Lookup(w, i)
    ensures |Extend(w, capacity, index, term).terms| <= capacity
  {
  }

  /** Cutting forgets exactly the indexes from `from` on. */
  lemma CutoffLookup(w: Window, from: nat, i: nat)
    ensures Lookup(Cutoff(w, from), i) == if i < from then Lookup(w, i) else None
    ensures from <= w.base ==> Lookup(Cutoff(w, from), i) == None
  {
  }

  /** Position of the `i`-th slot of the ring. */
  function At(head: nat, i: nat, cap: nat): nat
    requires cap > 0
  {
    (head + i) % cap
  }

  lemma AtIs(head: nat, i: nat, cap: nat)
    requires head < cap && i <= cap
    ensures At(head, i, cap) == if head + i < cap then head + i else head + i - cap
  {
    if head + i >= cap {
      assert head + i == 1 * cap + (head + i - cap);
      ModOf(head + i - cap, cap);
    }
  }

  lemma ModOf(r: nat, cap: nat)
    requires r <= cap && cap > 0
    ensures (cap + r) % cap == if r < cap then r else 0
  {
  }

  datatype Slot = Slot(term: nat, index: nat, generation: nat)

  function Bump(g: nat): nat { (g + 1) % (U32_MAX + 1) }

  class LogMetadataArena {
    const slots: array<Slot>
    var head: nat
    var len: nat
    var base: nat
    var generation: nat

    /** Each live slot carries the index of its place in the window. */
    ghost predicate Valid()
      reads this, slots
    {
      && len <= slots.Length && (slots.Length > 0 ==> head < slots.Length) && base + len <= U64_MAX
      && (forall i {:trigger At(head, i, slots.Length)} :: 0 <= i < len ==> slots[At(head, i, slots.Length)].index == base + i)
    }

    ghost function View(): (w: Window)
      requires Valid()
      reads this, slots
      ensures w.base == base && |w.terms| == len
    {
      Window(base, seq(len, i requires 0 <= i < len && Valid() reads this, slots => slots[At(head, i, slots.Length)].term))
    }

    constructor (capacity: nat)
      ensures Valid() && fresh(slots) && slots.Length == capacity && View() == Window(0, [])
    {
      slots := new Slot[capacity](_ => Slot(0, 0, 0));
      head, len, base, generation := 0, 0, 0, 1;
    }

    method Clear(newBase: nat)
      requires Valid() && newBase <= U64_MAX
      modifies this, slots
      ensures Valid() && View() == Window(newBase, [])
    {
      BumpRange(0, len);
      head, len, base := 0, 0, newBase;
      generation := Bump(generation);
    }

    /** Retire the slots of a range of positions: only their generation tags move. */
    method BumpRange(lo: nat, hi: nat)
      requires Valid() && lo <= hi <= len
      modifies slots
      ensures Valid() && View() == old(View())
    {
      var cap := slots.Length;
      ghost var w := View();
      for i := lo to hi
        invariant Valid() && View() == w
      {
        var idx := At(head, i, cap);
        slots[idx] := slots[idx].(generation := Bump(slots[idx].generation));
        assert View().terms == w.terms;
      }
    }

    method GetTerm(index: nat) returns (t: Option<nat>)
      requires Valid()
      ensures t == Lookup(View(), index)
    {
      var cap := slots.Length;
      if cap == 0 || len == 0 { return None; }
      if index >= base && index < SatAdd(base, len) {
        var offset := index - base;
        var slot := slots[At(head, offset, cap)];
        if slot.index == index { return Some(slot.term); }
      }
      return None;
    }

    method TruncateSuffix(from: nat)
      requires Valid() && from <= U64_MAX
      modifies this, slots
      ensures Valid() && View() == Cutoff(old(View()), from)
    {
      if len == 0 { return; }
      if from <= base {
        Clear(from);
        return;
      }
      if from < SatAdd(base, len) {
        ghost var w := View();
        var newLen := from - base;
        BumpRange(newLen, len);
        len := newLen;
        assert View().terms == w.terms[..newLen];
      }
    }

    /** Forget the oldest entry of a full ring. */
    method Evict()
      requires Valid() && 0 < len == slots.Length
      modifies this, slots
      ensures Valid() && View() == Window(old(base) + 1, old(View()).terms[1..])
    {
      var cap := slots.Length;
      ghost var w := View();
      ghost var h := head;
      slots[head] := slots[head].(generation := Bump(slots[head].generation));
      head := (head + 1) % cap;
      base := SatAdd(base, 1);
      len := len - 1;
      forall i | 0 <= i < len
        ensures At(head, i, cap) == At(h, i + 1, cap)
      {
        Shift(h, i, cap);
      }
      assert View().terms == w.terms[1..];
    }

    method Append(index: nat, term: nat)
      requires Valid() && index < U64_MAX
      modifies this, slots
      ensures Valid() && View() == Extend(old(View()), slots.Length, index, term)
    {
      var cap := slots.Length;
      if cap == 0 { return; }
      if len == 0 { base := index; }
      if index != SatAdd(base, len) { Clear(index); }
      if len == cap { Evict(); }
      Write(index, term);
    }

    method Write(index: nat, term: nat)
      requires Valid() && len < slots.Length && index == base + len < U64_MAX
      modifies this, slots
      ensures Valid() && View() == Window(old(base), old(View()).terms + [term])
    {
      var cap := slots.Length;
      ghost var w := View();
      var idx := At(head, len, cap);
      forall i | 0 <= i < len
        ensures At(head, i, cap) != idx
      {
        Apart(head, i, len, cap);
      }
      slots[idx] := Slot(term, index, generation);
      len := len + 1;
      assert View().terms == w.terms + [term];
    }
  }

  lemma Shift(head: nat, i: nat, cap: nat)
    requires head < cap && i < cap
    ensures At((head + 1) % cap, i, cap) == At(head, i + 1, cap)
  {
    AtIs(head, 1, cap);
    AtIs((head + 1) % cap, i, cap);
    AtIs(head, i + 1, cap);
  }

  lemma Apart(head: nat, i: nat, j: nat, cap: nat)
    requires head < cap && i < j < cap
    ensures At(head, i, cap) != At(head, j, cap)
  {
    AtIs(head, i, cap);
    AtIs(head, j, cap);
  }
}
