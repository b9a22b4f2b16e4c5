/** Mapping a range of the projected history back to the canonical one. */
module Projection {
  datatype Range = Range(start: nat, end: nat)

  /** A projected item stands for one canonical message, or for a whole range
      that was compacted into a checkpoint. */
  datatype Item = Canonical(index: nat) | Tombstone(index: nat) | Checkpoint(source: Range)

  function Start(item: Item): nat {
    match item
    case Canonical(i) => i
    case Tombstone(i) => i
    case Checkpoint(r) => r.start
  }

  function End(item: Item): nat {
    match item
    case Canonical(i) => i + 1
    case Tombstone(i) => i + 1
    case Checkpoint(r) => r.end
  }

  /** Indexing an empty range or one beyond the items panics. */
  function MapProjectedRange(items: seq<Item>, range: Range): Range
    requires range.start < |items| && 0 < range.end <= |items|
  {
    Range(Start(items[range.start]), End(items[range.end - 1]))
  }

  /** The items cover the history without gap or overlap. */
  ghost predicate Tiles(items: seq<Item>) {
    && (forall i | 0 <= i < |items| :: Start(items[i]) <= End(items[i]))
    && (forall i | 0 < i < |items| :: Start(items[i]) == End(items[i - 1]))
  }

  /** The item stands for the k-th canonical message. */
  predicate Spans(item: Item, k: nat) {
    match item
    case Canonical(i) => k == i
    case Tombstone(i) => k == i
    case Checkpoint(r) => Holds(r, k)
  }

  predicate Holds(range: Range, k: nat) { range.start <= k < range.end }

  lemma {:induction false} Ascending(items: seq<Item>, i: nat, j: nat)
    requires Tiles(items) && i < j < |items|
    ensures End(items[i]) <= Start(items[j])
    decreases j
  {
    if i + 1 < j {
      Ascending(items, i, j - 1);
    }
  }

  lemma {:induction false} SomeItemSpans(items: seq<Item>, a: nat, b: nat, k: nat) returns (i: nat)
    requires Tiles(items) && a < b <= |items| && Start(items[a]) <= k < End(items[b - 1])
    ensures a <= i < b && Spans(items[i], k)
    decreases b
  {
    if Start(items[b - 1]) <= k {
      i := b - 1;
    } else {
      assert b - 1 > a && Start(items[b - 1]) == End(items[b - 2]);
      i := SomeItemSpans(items, a, b - 1, k);
    }
  }

  /** Over a tiling, the mapped range holds exactly the canonical positions that
      the projected items of the range stand for. */
  lemma {:induction false} MappedIsUnion(items: seq<Item>, range: Range, k: nat)
    requires Tiles(items) && range.start < range.end <= |items|
    ensures Holds(MapProjectedRange(items, range), k)
       <==> exists i :: range.start <= i < range.end && Spans(items[i], k)
  {
    if Holds(MapProjectedRange(items, range), k) {
      var i := SomeItemSpans(items, range.start, range.end, k);
    }
    if exists i :: range.start <= i < range.end && Spans(items[i], k) {
      var i :| range.start <= i < range.end && Spans(items[i], k);
      if range.start < i {
        Ascending(items, range.start, i);
      }
      if i < range.end - 1 {
        Ascending(items, i, range.end - 1);
      }
    }
  }

  /** Mapping a range in two halves splits the mapped range at one point. */
  lemma {:induction false} MappedSplits(items: seq<Item>, range: Range, middle: nat)
    requires Tiles(items) && range.start < middle < range.end <= |items|
    ensures var left, right, whole := MapProjectedRange(items, Range(range.start, middle)),
              MapProjectedRange(items, Range(middle, range.end)), MapProjectedRange(items, range);
      && whole.start == left.start && left.end == right.start && right.end == whole.end
      && left.start <= left.end <= right.end
  {
    if range.start < middle - 1 {
      Ascending(items, range.start, middle - 1);
    }
    if middle < range.end - 1 {
      Ascending(items, middle, range.end - 1);
    }
  }
}
