/** Go slices over shared backing arrays: copying a slice shares its array, and append may write where others look. */
module Slices {

  /** A slice header; arrays are named by the order of their allocation. */
  datatype Slice = Slice(base: nat, len: nat, cap: nat)

  const NIL := Slice(0, 0, 0)

  /** A backing array: its capacity, and the cells written so far. */
  datatype Backing<T> = Backing(cap: nat, cells: seq<T>)

  type Heap<T> = seq<Backing<T>>

  predicate Fits<T>(h: Heap<T>, l: Slice) {
    l == NIL || (l.base < |h| && 0 < l.len <= |h[l.base].cells| <= l.cap == h[l.base].cap)
  }

  /** The entries that a header shows. */
  function Contents<T>(h: Heap<T>, l: Slice): seq<T> {
    if l.base < |h| && l.len <= |h[l.base].cells| then h[l.base].cells[..l.len] else []
  }

  predicate Spare(l: Slice) { l.len < l.cap }

  /** The header that append returns: the list's own array where that has room, and else the next one allocated. */
  function Grown(l: Slice, arrays: nat, extra: nat): Slice {
    if Spare(l) then l.(len := l.len + 1) else Slice(arrays, l.len + 1, l.len + 1 + extra)
  }

  function Overwritten<T>(cells: seq<T>, i: nat, x: T): seq<T> {
    if i < |cells| then cells[i := x] else cells + [x]
  }

  /** The arrays after append: the entry goes behind the list's own length, whatever is there. */
  function Written<T>(h: Heap<T>, l: Slice, x: T, extra: nat): Heap<T> {
    if !Spare(l) then h + [Backing(l.len + 1 + extra, Contents(h, l) + [x])]
    else if l.base < |h| && l.len <= |h[l.base].cells| then
      h[l.base := Backing(h[l.base].cap, Overwritten(h[l.base].cells, l.len, x))]
    else h
  }

  /** The list appended to gains its entry... */
  lemma Appends<T>(h: Heap<T>, l: Slice, x: T, extra: nat)
    requires Fits(h, l)
    ensures var h', l' := Written(h, l, x, extra), Grown(l, |h|, extra);
            Fits(h', l') && Contents(h', l') == Contents(h, l) + [x]
  {}

  /** Another list of the same array reaches behind the one that is appended to. */
  predicate Overlooks(l: Slice, m: Slice) { Spare(l) && m.base == l.base && l.len < m.len }

  /** ...and any other list keeps its entries, save the one cell written, if it reaches that far. */
  lemma OthersSee<T>(h: Heap<T>, l: Slice, x: T, extra: nat, m: Slice)
    requires Fits(h, l) && Fits(h, m)
    ensures var h' := Written(h, l, x, extra);
            Fits(h', m) && |Contents(h, m)| == m.len &&
            Contents(h', m) == if Overlooks(l, m) then Overwritten(Contents(h, m), l.len, x) else Contents(h, m)
  {}
}
