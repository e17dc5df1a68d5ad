/**
  The indexed 4-ary heap (structs/quadheap.go).

  The public state is the ghost sequence `arrivals`, the ordered map of module `Schedule`.
  Sequence numbers are 64-bit in the array and unbounded nowhere else: renumbering and the
  reset on an empty heap leave `arrivals` alone, so no caller can see them.
*/
module QuadHeaps {
  import opened Types
  import opened Schedule

  const MAX_UINT64 := 0xffff_ffff_ffff_ffff
  /** A Go slice length is a signed 64-bit integer. */
  const MAX_LENGTH := 0x7fff_ffff_ffff_ffff

  datatype Entry<K, V> = Entry(item: Item<K, V>, sequence: nat)

  predicate Less<K, V>(a: Entry<K, V>, b: Entry<K, V>) {
    a.item.when < b.item.when || (a.item.when == b.item.when && a.sequence < b.sequence)
  }

  function Parent(i: nat): nat
    requires i > 0
  {
    (i - 1) / 4
  }

  // ---------- heap order ----------

  ghost predicate Ordered<K, V>(items: seq<Entry<K, V>>, j: nat)
    requires 0 < j < |items|
  {
    !Less(items[j], items[Parent(j)])
  }

  ghost predicate HeapOrder<K, V>(items: seq<Entry<K, V>>) {
    forall j :: 0 < j < |items| ==> Ordered(items, j)
  }

  /** Below the parent of `i`, whatever `i` itself holds. */
  ghost predicate GrandchildrenOrdered<K, V>(items: seq<Entry<K, V>>, i: nat)
    requires i < |items|
  {
    0 < i ==> forall j :: i < j < |items| && Parent(j) == i ==> !Less(items[j], items[Parent(i)])
  }

  /** Heap order except that entry `i` may be too small for its place. */
  ghost predicate OrderedButUp<K, V>(items: seq<Entry<K, V>>, i: nat) {
    && i < |items|
    && (forall j :: 0 < j < |items| && j != i ==> Ordered(items, j))
    && GrandchildrenOrdered(items, i)
  }

  /** Heap order except that entry `i` may be too large for its place. */
  ghost predicate OrderedButDown<K, V>(items: seq<Entry<K, V>>, i: nat) {
    && i < |items|
    && (forall j :: 0 < j < |items| && Parent(j) != i ==> Ordered(items, j))
    && GrandchildrenOrdered(items, i)
  }

  /** Heap order around a freshly written entry `i`. */
  ghost predicate OrderedAround<K, V>(items: seq<Entry<K, V>>, i: nat) {
    && i < |items|
    && (forall j :: 0 < j < |items| && j != i && Parent(j) != i ==> Ordered(items, j))
    && GrandchildrenOrdered(items, i)
  }

  function Swapped<T>(s: seq<T>, i: nat, j: nat): (r: seq<T>)
    requires i < |s| && j < |s|
    ensures |r| == |s|
  {
    s[i := s[j]][j := s[i]]
  }

  lemma UpStep<K, V>(items: seq<Entry<K, V>>, i: nat)
    requires OrderedButUp(items, i) && 0 < i && Less(items[i], items[Parent(i)])
    ensures OrderedButUp(Swapped(items, i, Parent(i)), Parent(i))
  {
    var p := Parent(i);
    var r := Swapped(items, i, p);
    forall j | 0 < j < |r| && j != p ensures Ordered(r, j) {
      assert j != i ==> Ordered(items, j);
    }
    forall j | p < j < |r| && Parent(j) == p && 0 < p ensures !Less(r[j], r[Parent(p)]) {
      assert Ordered(items, p);
      assert j != i ==> Ordered(items, j);
    }
  }

  lemma DownStep<K, V>(items: seq<Entry<K, V>>, i: nat, least: nat)
    requires OrderedButDown(items, i) && i < least < |items| && Parent(least) == i
    requires Less(items[least], items[i])
    requires forall j :: i < j < |items| && Parent(j) == i ==> !Less(items[j], items[least])
    ensures OrderedButDown(Swapped(items, i, least), least)
  {
  }

  lemma AppendedButUp<K, V>(items: seq<Entry<K, V>>, e: Entry<K, V>)
    requires HeapOrder(items)
    ensures OrderedButUp(items + [e], |items|)
  {
    var r := items + [e];
    forall j | 0 < j < |items| ensures Ordered(r, j) {
      assert Ordered(items, j);
    }
  }

  lemma DropLastKeepsHeap<K, V>(items: seq<Entry<K, V>>)
    requires HeapOrder(items) && items != []
    ensures HeapOrder(items[..|items| - 1])
  {
    var r := items[..|items| - 1];
    forall j | 0 < j < |r| ensures Ordered(r, j) {
      assert Ordered(items, j);
    }
  }

  lemma AroundUpdate<K, V>(items: seq<Entry<K, V>>, i: nat, e: Entry<K, V>)
    requires HeapOrder(items) && i < |items|
    ensures OrderedAround(items[i := e], i)
  {
    var r := items[i := e];
    forall j | 0 < j < |r| && j != i && Parent(j) != i ensures Ordered(r, j) {
      assert Ordered(items, j);
    }
    forall j | i < j < |r| && Parent(j) == i && 0 < i ensures !Less(r[j], r[Parent(i)]) {
      assert Ordered(items, j) && Ordered(items, i);
    }
  }

  /** Moving the last entry into the hole at `i`. */
  lemma AroundRemoval<K, V>(items: seq<Entry<K, V>>, i: nat)
    requires HeapOrder(items) && i < |items| - 1
    ensures OrderedAround(Filled(items, i), i)
  {
    AroundUpdate(items, i, items[|items| - 1]);
    var u := items[i := items[|items| - 1]];
    var r := u[..|items| - 1];
    forall j | 0 < j < |r| && j != i && Parent(j) != i ensures Ordered(r, j) {
      assert Ordered(u, j);
    }
  }

  lemma AroundIsUpOrDown<K, V>(items: seq<Entry<K, V>>, i: nat)
    requires OrderedAround(items, i)
    ensures if i > 0 && Less(items[i], items[Parent(i)]) then OrderedButUp(items, i) else OrderedButDown(items, i)
  {
  }

  /** The root is the minimum of the whole array. */
  lemma {:induction false} RootIsLeast<K, V>(items: seq<Entry<K, V>>, j: nat)
    requires HeapOrder(items) && j < |items|
    ensures !Less(items[j], items[0])
  {
    if j > 0 {
      assert Ordered(items, j);
      RootIsLeast(items, Parent(j));
    }
  }

  // ---------- the key index ----------

  ghost predicate Indexed<K, V>(items: seq<Entry<K, V>>, indexes: map<K, nat>) {
    && (forall i :: 0 <= i < |items| ==> items[i].item.key in indexes && indexes[items[i].item.key] == i)
    && (forall k :: k in indexes ==> indexes[k] < |items| && items[indexes[k]].item.key == k)
  }

  /** The entry of every key. */
  ghost function Table<K, V>(items: seq<Entry<K, V>>, indexes: map<K, nat>): map<K, Entry<K, V>>
    requires Indexed(items, indexes)
  {
    map k | k in indexes :: items[indexes[k]]
  }

  function SwappedIndexes<K, V>(items: seq<Entry<K, V>>, indexes: map<K, nat>, i: nat, j: nat): map<K, nat>
    requires i < |items| && j < |items|
  {
    indexes[items[j].item.key := i][items[i].item.key := j]
  }

  lemma SwapKeepsTable<K, V>(items: seq<Entry<K, V>>, indexes: map<K, nat>, i: nat, j: nat)
    requires Indexed(items, indexes) && i < |items| && j < |items| && i != j
    ensures Indexed(Swapped(items, i, j), SwappedIndexes(items, indexes, i, j))
    ensures Table(Swapped(items, i, j), SwappedIndexes(items, indexes, i, j)) == Table(items, indexes)
  {
  }

  lemma AppendTable<K, V>(items: seq<Entry<K, V>>, indexes: map<K, nat>, e: Entry<K, V>)
    requires Indexed(items, indexes) && e.item.key !in indexes
    ensures Indexed(items + [e], indexes[e.item.key := |items|])
    ensures Table(items + [e], indexes[e.item.key := |items|]) == Table(items, indexes)[e.item.key := e]
  {
  }

  lemma WriteTable<K, V>(items: seq<Entry<K, V>>, indexes: map<K, nat>, i: nat, e: Entry<K, V>)
    requires Indexed(items, indexes) && i < |items| && items[i].item.key == e.item.key
    ensures Indexed(items[i := e], indexes)
    ensures Table(items[i := e], indexes) == Table(items, indexes)[e.item.key := e]
  {
  }

  lemma DropLastTable<K, V>(items: seq<Entry<K, V>>, indexes: map<K, nat>)
    requires Indexed(items, indexes) && items != []
    ensures var last, key := |items| - 1, items[|items| - 1].item.key;
            && Indexed(items[..last], indexes - {key})
            && Table(items[..last], indexes - {key}) == Table(items, indexes) - {key}
  {
  }

  lemma MoveLastTable<K, V>(items: seq<Entry<K, V>>, indexes: map<K, nat>, i: nat)
    requires Indexed(items, indexes) && i < |items| - 1
    ensures Indexed(Filled(items, i), FilledIndexes(items, indexes, i))
    ensures Table(Filled(items, i), FilledIndexes(items, indexes, i)) == Table(items, indexes) - {items[i].item.key}
  {
  }

  // ---------- agreement with the arrivals ----------

  ghost predicate NumberedBelow<K, V>(table: map<K, Entry<K, V>>, bound: nat) {
    forall k :: k in table ==> table[k].sequence < bound
  }

  /** The table holds the arrived items, numbered in arrival order. */
  ghost predicate Agrees<K, V>(table: map<K, Entry<K, V>>, arrivals: seq<Item<K, V>>) {
    && (forall i :: 0 <= i < |arrivals| ==>
          arrivals[i].key in table && table[arrivals[i].key].item == arrivals[i])
    && (forall i, j :: 0 <= i < j < |arrivals| ==>
          table[arrivals[i].key].sequence < table[arrivals[j].key].sequence)
    && (forall k :: k in table ==> HasKey(arrivals, k))
  }

  lemma AgreesDistinct<K, V>(table: map<K, Entry<K, V>>, arrivals: seq<Item<K, V>>)
    requires Agrees(table, arrivals)
    ensures DistinctKeys(arrivals)
    ensures forall k :: k in table <==> HasKey(arrivals, k)
  {
  }

  lemma InsertAgrees<K, V>(table: map<K, Entry<K, V>>, arrivals: seq<Item<K, V>>, e: Entry<K, V>)
    requires Agrees(table, arrivals) && e.item.key !in table
    requires forall k :: k in table ==> table[k].sequence < e.sequence
    ensures Agrees(table[e.item.key := e], arrivals + [e.item])
  {
    var table', arrivals' := table[e.item.key := e], arrivals + [e.item];
    forall k | k in table' ensures HasKey(arrivals', k) {
      if k == e.item.key {
        assert arrivals'[|arrivals|].key == k;
      } else {
        var i := PlaceOf(arrivals, k);
        assert arrivals'[i].key == k;
      }
    }
  }

  lemma UpdateAgrees<K, V>(table: map<K, Entry<K, V>>, arrivals: seq<Item<K, V>>, e: Entry<K, V>)
    requires Agrees(table, arrivals) && e.item.key in table && table[e.item.key].sequence == e.sequence
    ensures HasKey(arrivals, e.item.key)
    ensures Agrees(table[e.item.key := e], arrivals[PlaceOf(arrivals, e.item.key) := e.item])
  {
    AgreesDistinct(table, arrivals);
    var p := PlaceOf(arrivals, e.item.key);
    var arrivals' := arrivals[p := e.item];
    forall k | k in table ensures HasKey(arrivals', k) {
      var i := PlaceOf(arrivals, k);
      assert arrivals'[i].key == k;
    }
  }

  lemma RemoveAgrees<K, V>(table: map<K, Entry<K, V>>, arrivals: seq<Item<K, V>>, key: K)
    requires Agrees(table, arrivals) && key in table
    ensures HasKey(arrivals, key) && Agrees(table - {key}, Removed(arrivals, key))
  {
    AgreesDistinct(table, arrivals);
    WithoutAgrees(table, arrivals, PlaceOf(arrivals, key));
  }

  lemma WithoutAgrees<K, V>(table: map<K, Entry<K, V>>, arrivals: seq<Item<K, V>>, p: nat)
    requires Agrees(table, arrivals) && DistinctKeys(arrivals) && p < |arrivals|
    ensures Agrees(table - {arrivals[p].key}, Without(arrivals, p))
  {
    var rest, table' := Without(arrivals, p), table - {arrivals[p].key};
    assert forall i :: 0 <= i < |rest| ==> rest[i] == arrivals[if i < p then i else i + 1];
    forall k | k in table' ensures HasKey(rest, k) {
      StillThere(arrivals, p, k);
    }
  }

  lemma StillThere<K, V>(arrivals: seq<Item<K, V>>, p: nat, k: K)
    requires p < |arrivals| && HasKey(arrivals, k) && arrivals[p].key != k
    ensures HasKey(Without(arrivals, p), k)
  {
    var i := PlaceOf(arrivals, k);
    assert Without(arrivals, p)[if i < p then i else i - 1] == arrivals[i];
  }

  ghost predicate SameOrder<K, V>(table: map<K, Entry<K, V>>, table': map<K, Entry<K, V>>) {
    && table'.Keys == table.Keys
    && (forall k :: k in table ==> table'[k].item == table[k].item)
    && (forall k, l :: k in table && l in table && table[k].sequence < table[l].sequence ==>
          table'[k].sequence < table'[l].sequence)
  }

  lemma RenumberAgrees<K, V>(table: map<K, Entry<K, V>>, table': map<K, Entry<K, V>>, arrivals: seq<Item<K, V>>)
    requires Agrees(table, arrivals) && SameOrder(table, table')
    ensures Agrees(table', arrivals)
  {
  }

  /** The top of the heap is the earliest arrival among the least deadlines. */
  lemma RootIsEarliest<K, V>(items: seq<Entry<K, V>>, indexes: map<K, nat>, arrivals: seq<Item<K, V>>)
    requires HeapOrder(items) && Indexed(items, indexes) && Agrees(Table(items, indexes), arrivals)
    requires items != []
    ensures arrivals != [] && arrivals[Earliest(arrivals)] == items[0].item
  {
    var table := Table(items, indexes);
    assert HasKey(arrivals, items[0].item.key);
    var e := PlaceOf(arrivals, items[0].item.key);
    forall i | 0 <= i < |arrivals|
      ensures arrivals[e].when < arrivals[i].when || (arrivals[e].when == arrivals[i].when && e <= i)
    {
      RootIsLeast(items, indexes[arrivals[i].key]);
      assert table[arrivals[i].key] == items[indexes[arrivals[i].key]];
    }
    EarliestUnique(arrivals, e);
  }

  lemma UpdateKeeps<K, V>(items: seq<Entry<K, V>>, indexes: map<K, nat>, nextSeq: nat, arrivals: seq<Item<K, V>>, i: nat, e: Entry<K, V>)
    requires Indexed(items, indexes) && HeapOrder(items) && i < |items|
    requires NumberedBelow(Table(items, indexes), nextSeq) && Agrees(Table(items, indexes), arrivals)
    requires e.item.key == items[i].item.key && e.sequence == items[i].sequence
    ensures Indexed(items[i := e], indexes) && OrderedAround(items[i := e], i)
    ensures NumberedBelow(Table(items[i := e], indexes), nextSeq)
    ensures Agrees(Table(items[i := e], indexes), Updated(arrivals, e.item.key, e.item.value, e.item.when))
    ensures HasKey(arrivals, e.item.key)
    ensures |Updated(arrivals, e.item.key, e.item.value, e.item.when)| == |arrivals|
  {
    assert Table(items, indexes)[e.item.key] == items[i];
    UpdateAgrees(Table(items, indexes), arrivals, e);
    WriteTable(items, indexes, i, e);
    AroundUpdate(items, i, e);
  }

  function Filled<T>(s: seq<T>, i: nat): (r: seq<T>)
    requires i < |s| - 1
    ensures |r| == |s| - 1
  {
    s[i := s[|s| - 1]][..|s| - 1]
  }

  function FilledIndexes<K, V>(items: seq<Entry<K, V>>, indexes: map<K, nat>, i: nat): map<K, nat>
    requires i < |items| - 1
  {
    (indexes - {items[i].item.key})[items[|items| - 1].item.key := i]
  }

  lemma FillKeeps<K, V>(items: seq<Entry<K, V>>, indexes: map<K, nat>, nextSeq: nat, arrivals: seq<Item<K, V>>, i: nat)
    requires Indexed(items, indexes) && HeapOrder(items) && i < |items| - 1
    requires NumberedBelow(Table(items, indexes), nextSeq) && Agrees(Table(items, indexes), arrivals)
    ensures Indexed(Filled(items, i), FilledIndexes(items, indexes, i)) && OrderedAround(Filled(items, i), i)
    ensures NumberedBelow(Table(Filled(items, i), FilledIndexes(items, indexes, i)), nextSeq)
    ensures Agrees(Table(Filled(items, i), FilledIndexes(items, indexes, i)), Removed(arrivals, items[i].item.key))
    ensures HasKey(arrivals, items[i].item.key)
  {
    RemoveAgrees(Table(items, indexes), arrivals, items[i].item.key);
    MoveLastTable(items, indexes, i);
    AroundRemoval(items, i);
  }

  lemma DropKeeps<K, V>(items: seq<Entry<K, V>>, indexes: map<K, nat>, nextSeq: nat, arrivals: seq<Item<K, V>>, key: K)
    requires Indexed(items, indexes) && HeapOrder(items) && items != [] && key == items[|items| - 1].item.key
    requires NumberedBelow(Table(items, indexes), nextSeq) && Agrees(Table(items, indexes), arrivals) && |items| == |arrivals|
    ensures var items', indexes' := items[..|items| - 1], indexes - {key};
            && Indexed(items', indexes') && HeapOrder(items')
            && NumberedBelow(Table(items', indexes'), nextSeq)
            && (items' == [] ==> NumberedBelow(Table(items', indexes'), 0))
            && Agrees(Table(items', indexes'), Removed(arrivals, key)) && |items'| == |Removed(arrivals, key)|
  {
    RemoveAgrees(Table(items, indexes), arrivals, key);
    DropLastTable(items, indexes);
    DropLastKeepsHeap(items);
  }

  // ---------- renumbering ----------

  ghost predicate DistinctSequences<K, V>(items: seq<Entry<K, V>>) {
    forall i, j :: 0 <= i < j < |items| ==> items[i].sequence != items[j].sequence
  }

  lemma AgreesDistinctSequences<K, V>(items: seq<Entry<K, V>>, indexes: map<K, nat>, arrivals: seq<Item<K, V>>)
    requires Indexed(items, indexes) && Agrees(Table(items, indexes), arrivals)
    ensures DistinctSequences(items)
  {
    var table := Table(items, indexes);
    forall i, j | 0 <= i < j < |items| ensures items[i].sequence != items[j].sequence {
      var k, l := items[i].item.key, items[j].item.key;
      assert table[k] == items[i] && table[l] == items[j];
      var p, q := PlaceOf(arrivals, k), PlaceOf(arrivals, l);
      assert p < q || q < p;
    }
  }

  ghost predicate AscendingSequences<K, V>(items: seq<Entry<K, V>>, order: seq<nat>) {
    && (forall k :: 0 <= k < |order| ==> order[k] < |items|)
    && (forall k, l :: 0 <= k < l < |order| ==> items[order[k]].sequence < items[order[l]].sequence)
  }

  ghost predicate Covers(order: seq<nat>, n: nat) {
    forall i :: 0 <= i < n ==> i in order
  }

  /** `order` lists the first `n` positions by ascending sequence number. */
  ghost predicate SortedPositions<K, V>(items: seq<Entry<K, V>>, n: nat, order: seq<nat>) {
    && AscendingSequences(items, order)
    && Covers(order, n)
    && forall k :: 0 <= k < |order| ==> order[k] < n
  }

  lemma InsertCovers(order: seq<nat>, n: nat, p: nat)
    requires Covers(order, n) && p <= |order|
    ensures Covers(order[..p] + [n] + order[p..], n + 1)
  {
    forall i | 0 <= i < n + 1 ensures i in order[..p] + [n] + order[p..] {
      assert i < n ==> i in order;
      assert order == order[..p] + order[p..];
    }
  }

  lemma InsertAscending<K, V>(items: seq<Entry<K, V>>, order: seq<nat>, n: nat, p: nat)
    requires AscendingSequences(items, order) && n < |items| && p <= |order|
    requires forall k :: 0 <= k < p ==> items[order[k]].sequence < items[n].sequence
    requires p < |order| ==> items[order[p]].sequence > items[n].sequence
    ensures AscendingSequences(items, order[..p] + [n] + order[p..])
  {
  }

  /** Items keep key, value and deadline, and the entry at `order[s]` gets number `s`. */
  ghost predicate RenumberedBy<K, V>(items: seq<Entry<K, V>>, items': seq<Entry<K, V>>, order: seq<nat>) {
    && |items'| == |items|
    && (forall i :: 0 <= i < |items| ==> items'[i].item == items[i].item)
    && (forall s :: 0 <= s < |order| ==> order[s] < |items| && items'[order[s]].sequence == s)
  }

  lemma RenumberingIsIsomorphic<K, V>(items: seq<Entry<K, V>>, items': seq<Entry<K, V>>, order: seq<nat>, i: nat, j: nat)
    requires SortedPositions(items, |items|, order) && RenumberedBy(items, items', order)
    requires i < |items| && j < |items|
    ensures items'[i].sequence < |order|
    ensures items[i].sequence < items[j].sequence <==> items'[i].sequence < items'[j].sequence
  {
    assert i in order && j in order;
    var s :| 0 <= s < |order| && order[s] == i;
    var t :| 0 <= t < |order| && order[t] == j;
  }

  lemma RenumberingKeepsHeap<K, V>(items: seq<Entry<K, V>>, items': seq<Entry<K, V>>, order: seq<nat>)
    requires SortedPositions(items, |items|, order) && RenumberedBy(items, items', order) && HeapOrder(items)
    ensures HeapOrder(items')
  {
    forall j | 0 < j < |items'| ensures Ordered(items', j) {
      assert Ordered(items, j);
      RenumberingIsIsomorphic(items, items', order, j, Parent(j));
    }
  }

  lemma RenumberingKeepsTable<K, V>(items: seq<Entry<K, V>>, items': seq<Entry<K, V>>, order: seq<nat>, indexes: map<K, nat>)
    requires SortedPositions(items, |items|, order) && RenumberedBy(items, items', order) && Indexed(items, indexes)
    ensures Indexed(items', indexes)
    ensures SameOrder(Table(items, indexes), Table(items', indexes))
    ensures NumberedBelow(Table(items', indexes), |order|)
  {
    var table, table' := Table(items, indexes), Table(items', indexes);
    forall k, l | k in table && l in table && table[k].sequence < table[l].sequence
      ensures table'[k].sequence < table'[l].sequence
    {
      RenumberingIsIsomorphic(items, items', order, indexes[k], indexes[l]);
    }
    forall k | k in table' ensures table'[k].sequence < |order| {
      RenumberingIsIsomorphic(items, items', order, indexes[k], indexes[k]);
    }
  }

  // ---------- the heap ----------

  class QuadHeap<K(==), V> {
    var items: seq<Entry<K, V>>
    var indexes: map<K, nat>
    var nextSeq: nat
    ghost var arrivals: seq<Item<K, V>>

    ghost predicate Valid()
      reads this
    {
      && Indexed(items, indexes)
      && HeapOrder(items)
      && NumberedBelow(Table(items, indexes), nextSeq) && nextSeq <= MAX_UINT64
      && Agrees(Table(items, indexes), arrivals) && |items| == |arrivals|
    }

    constructor ()
      ensures Valid() && arrivals == []
    {
      items, indexes, nextSeq := [], map[], 0;
      arrivals := [];
    }

    method Len() returns (n: nat)
      requires Valid()
      ensures n == |arrivals|
    {
      n := |items|;
    }

    method Insert(key: K, value: V, when: int) returns (inserted: bool)
      requires Valid() && |arrivals| < MAX_LENGTH
      modifies this
      ensures Valid()
      ensures inserted <==> !HasKey(old(arrivals), key)
      ensures arrivals == Inserted(old(arrivals), key, value, when)
    {
      AgreesDistinct(Table(items, indexes), arrivals);
      if key in indexes {
        return false;
      }
      if nextSeq == MAX_UINT64 {
        RenumberSequences();
      }
      Append(key, value, when);
      return true;
    }

    /** The part of `Insert` that follows its two checks. */
    method Append(key: K, value: V, when: int)
      requires Valid() && key !in indexes && nextSeq < MAX_UINT64
      modifies this
      ensures Valid() && arrivals == old(arrivals) + [Item(key, value, when)]
    {
      var entry := Entry(Item(key, value, when), nextSeq);
      InsertAgrees(Table(items, indexes), arrivals, entry);
      AppendTable(items, indexes, entry);
      AppendedButUp(items, entry);
      arrivals := arrivals + [entry.item];
      items := items + [entry];
      nextSeq := nextSeq + 1;
      indexes := indexes[key := |items| - 1];
      SiftUp(|items| - 1);
    }

    method Peek() returns (r: Option<Item<K, V>>)
      requires Valid()
      ensures r == if arrivals == [] then None else Some(arrivals[Earliest(arrivals)])
    {
      if |items| == 0 {
        return None;
      }
      RootIsEarliest(items, indexes, arrivals);
      return Some(items[0].item);
    }

    method Pop() returns (r: Option<Item<K, V>>)
      requires Valid()
      modifies this
      ensures Valid()
      ensures old(arrivals) == [] ==> r == None && arrivals == []
      ensures old(arrivals) != [] ==>
                r == Some(old(arrivals)[Earliest(old(arrivals))]) && arrivals == Popped(old(arrivals))
    {
      if |items| == 0 {
        return None;
      }
      RootIsEarliest(items, indexes, arrivals);
      AgreesDistinct(Table(items, indexes), arrivals);
      RemoveEarliestIsPop(arrivals);
      var item := RemoveAt(0);
      return Some(item);
    }

    method Update(key: K, value: V, when: int) returns (updated: bool)
      requires Valid()
      modifies this
      ensures Valid()
      ensures updated <==> HasKey(old(arrivals), key)
      ensures arrivals == Updated(old(arrivals), key, value, when)
    {
      AgreesDistinct(Table(items, indexes), arrivals);
      if key !in indexes {
        return false;
      }
      UpdateAt(indexes[key], Item(key, value, when));
      return true;
    }

    /** The entry keeps its sequence. */
    method UpdateAt(i: nat, item: Item<K, V>)
      requires Valid() && i < |items| && items[i].item.key == item.key
      modifies this
      ensures Valid() && HasKey(old(arrivals), item.key)
      ensures arrivals == Updated(old(arrivals), item.key, item.value, item.when)
    {
      var entry := Entry(item, items[i].sequence);
      UpdateKeeps(items, indexes, nextSeq, arrivals, i, entry);
      items := items[i := entry];
      ghost var table := Table(items, indexes);
      arrivals := Updated(arrivals, item.key, item.value, item.when);
      Fix(i);
      assert Table(items, indexes) == table;
    }

    method Upsert(key: K, value: V, when: int) returns (inserted: bool)
      requires Valid() && |arrivals| < MAX_LENGTH
      modifies this
      ensures Valid()
      ensures inserted <==> !HasKey(old(arrivals), key)
      ensures arrivals == Upserted(old(arrivals), key, value, when)
    {
      var updated := Update(key, value, when);
      if updated {
        return false;
      }
      var _ := Insert(key, value, when);
      return true;
    }

    method Remove(key: K) returns (removed: bool)
      requires Valid()
      modifies this
      ensures Valid()
      ensures removed <==> HasKey(old(arrivals), key)
      ensures arrivals == Removed(old(arrivals), key)
    {
      AgreesDistinct(Table(items, indexes), arrivals);
      if key !in indexes {
        return false;
      }
      var _ := RemoveAt(indexes[key]);
      return true;
    }

    /** Array, index and table stay in step; only the heap order is restored. */
    method SiftUp(start: nat)
      requires Indexed(items, indexes) && OrderedButUp(items, start)
      modifies this`items, this`indexes
      ensures Indexed(items, indexes) && HeapOrder(items) && |items| == old(|items|)
      ensures Table(items, indexes) == old(Table(items, indexes))
    {
      var i: nat := start;
      while i > 0
        invariant Indexed(items, indexes) && OrderedButUp(items, i) && |items| == old(|items|)
        invariant Table(items, indexes) == old(Table(items, indexes))
      {
        var parent := (i - 1) / 4;
        if !Less(items[i], items[parent]) {
          assert Ordered(items, i);
          return;
        }
        UpStep(items, i);
        Swap(i, parent);
        i := parent;
      }
    }

    method SiftDown(start: nat)
      requires Indexed(items, indexes) && OrderedButDown(items, start)
      modifies this`items, this`indexes
      ensures Indexed(items, indexes) && HeapOrder(items) && |items| == old(|items|)
      ensures Table(items, indexes) == old(Table(items, indexes))
    {
      var i := start;
      while true
        invariant Indexed(items, indexes) && OrderedButDown(items, i) && |items| == old(|items|)
        invariant Table(items, indexes) == old(Table(items, indexes))
        decreases |items| - i
      {
        var least := LeastOfFamily(i);
        if least == i {
          return;
        }
        DownStep(items, i, least);
        Swap(i, least);
        i := least;
      }
    }

    /** The loop over the at most four children in `siftDown`. */
    method LeastOfFamily(i: nat) returns (least: nat)
      requires i < |items|
      ensures i <= least < |items| && (i < least ==> Parent(least) == i && Less(items[least], items[i]))
      ensures forall j :: i < j < |items| && Parent(j) == i ==> !Less(items[j], items[least])
    {
      least := i;
      var firstChild := 4 * i + 1;
      var child := firstChild;
      while child < firstChild + 4 && child < |items|
        invariant firstChild <= child <= firstChild + 4
        invariant i <= least < |items| && (i < least ==> Parent(least) == i && Less(items[least], items[i]))
        invariant forall j :: firstChild <= j < child && j < |items| ==> !Less(items[j], items[least])
      {
        if Less(items[child], items[least]) {
          least := child;
        }
        child := child + 1;
      }
    }

    method Swap(i: nat, j: nat)
      requires Indexed(items, indexes) && i < |items| && j < |items| && i != j
      modifies this`items, this`indexes
      ensures items == Swapped(old(items), i, j) && Indexed(items, indexes)
      ensures Table(items, indexes) == old(Table(items, indexes))
    {
      SwapKeepsTable(items, indexes, i, j);
      items := items[i := items[j]][j := items[i]];
      indexes := indexes[items[i].item.key := i][items[j].item.key := j];
    }

    method Fix(i: nat)
      requires Indexed(items, indexes) && OrderedAround(items, i)
      modifies this`items, this`indexes
      ensures Indexed(items, indexes) && HeapOrder(items) && |items| == old(|items|)
      ensures Table(items, indexes) == old(Table(items, indexes))
    {
      AroundIsUpOrDown(items, i);
      if i > 0 && Less(items[i], items[(i - 1) / 4]) {
        SiftUp(i);
        return;
      }
      SiftDown(i);
    }

    method RemoveAt(i: nat) returns (item: Item<K, V>)
      requires Valid() && i < |items|
      modifies this
      ensures Valid()
      ensures item == old(items[i].item) && arrivals == Removed(old(arrivals), item.key)
    {
      item := items[i].item;
      if i == |items| - 1 {
        DropLast();
      } else {
        FillFromLast(i);
      }
    }

    /** `removeAt` of the last position. */
    method DropLast()
      requires Valid() && 0 < |items|
      modifies this
      ensures Valid() && arrivals == Removed(old(arrivals), old(items[|items| - 1].item.key))
    {
      var last := |items| - 1;
      var key := items[last].item.key;
      DropKeeps(items, indexes, nextSeq, arrivals, key);
      arrivals := Removed(arrivals, key);
      indexes := indexes - {key};
      items := items[..last];
      nextSeq := if |items| == 0 then 0 else nextSeq;
    }

    /** `removeAt` of any other position: the last entry fills the hole. */
    method FillFromLast(i: nat)
      requires Valid() && i < |items| - 1
      modifies this
      ensures Valid() && arrivals == Removed(old(arrivals), old(items[i].item.key))
    {
      ghost var removed := Removed(arrivals, items[i].item.key);
      FillKeeps(items, indexes, nextSeq, arrivals, i);
      MoveLast(i);
      arrivals := removed;
      Fix(i);
    }

    method MoveLast(i: nat)
      requires i < |items| - 1
      modifies this`items, this`indexes
      ensures items == Filled(old(items), i) && indexes == FilledIndexes(old(items), old(indexes), i)
    {
      var last := |items| - 1;
      indexes := indexes - {items[i].item.key};
      items := items[i := items[last]];
      items := items[..last];
      indexes := indexes[items[i].item.key := i];
    }

    /** Positions by ascending sequence number, as the library sort orders them. */
    method SequenceOrder() returns (order: seq<nat>)
      requires DistinctSequences(items)
      ensures SortedPositions(items, |items|, order) && |order| == |items|
    {
      order := [];
      for i := 0 to |items|
        invariant SortedPositions(items, i, order) && |order| == i
      {
        var p := PlaceBySequence(order, i);
        InsertCovers(order, i, p);
        InsertAscending(items, order, i, p);
        order := order[..p] + [i] + order[p..];
      }
    }

    method PlaceBySequence(order: seq<nat>, i: nat) returns (p: nat)
      requires DistinctSequences(items) && AscendingSequences(items, order) && i < |items|
      requires forall k :: 0 <= k < |order| ==> order[k] < i
      ensures p <= |order| && forall k :: 0 <= k < p ==> items[order[k]].sequence < items[i].sequence
      ensures p < |order| ==> items[order[p]].sequence > items[i].sequence
    {
      p := 0;
      while p < |order| && items[order[p]].sequence < items[i].sequence
        invariant p <= |order|
        invariant forall k :: 0 <= k < p ==> items[order[k]].sequence < items[i].sequence
      {
        p := p + 1;
      }
    }

    /** No caller can tell: the arrivals are the same and `nextSeq` is back at the length. */
    method RenumberSequences()
      requires Valid() && |items| < MAX_LENGTH
      modifies this`items, this`nextSeq
      ensures Valid() && |items| == old(|items|) && nextSeq == |items|
    {
      AgreesDistinctSequences(items, indexes, arrivals);
      ghost var was := items;
      var order := SequenceOrder();
      for s := 0 to |order|
        invariant RenumberedBy(was, items, order[..s])
      {
        items := items[order[s] := items[order[s]].(sequence := s)];
      }
      assert order[..|order|] == order;
      nextSeq := |items|;
      RenumberingKeepsHeap(was, items, order);
      RenumberingKeepsTable(was, items, order, indexes);
      RenumberAgrees(Table(was, indexes), Table(items, indexes), arrivals);
    }
  }
}
