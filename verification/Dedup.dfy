/**
  The bounded duplicate filter (core/dedup.go) over a circular buffer (structs/ring.go).

  `Accept` is one step of the filter on the window of remembered ids; `Ring` and `Dedup`
  are the in-place code proved against it.
*/
module DedupFilter {
  import opened Types

  // ---------- the filter on values ----------

  function Accept(window: seq<MessageId>, limit: nat, id: MessageId): seq<MessageId>
    requires 0 < limit
  {
    if id in window then window
    else if |window| >= limit then window[1..] + [id]
    else window + [id]
  }

  function AcceptAll(window: seq<MessageId>, limit: nat, ids: seq<MessageId>): seq<MessageId>
    requires 0 < limit
  {
    if ids == [] then window
    else Accept(AcceptAll(window, limit, ids[..|ids| - 1]), limit, ids[|ids| - 1])
  }

  ghost predicate Distinct<T>(s: seq<T>) {
    forall i, j :: 0 <= i < j < |s| ==> s[i] != s[j]
  }

  function Newest<T>(s: seq<T>, n: nat): (r: seq<T>) {
    if |s| <= n then s else s[|s| - n..]
  }

  /** The ids a fresh filter accepted, in order, when offered `ids`. */
  function Accepted(limit: nat, ids: seq<MessageId>): seq<MessageId>
    requires 0 < limit
  {
    if ids == [] then []
    else
      var before, id := ids[..|ids| - 1], ids[|ids| - 1];
      Accepted(limit, before) + (if id in AcceptAll([], limit, before) then [] else [id])
  }

  lemma NewestNext<T>(s: seq<T>, limit: nat, x: T)
    requires 0 < limit
    ensures Newest(s + [x], limit)
         == if |Newest(s, limit)| >= limit then Newest(s, limit)[1..] + [x] else Newest(s, limit) + [x]
  {
  }

  /** The filter remembers exactly the last `limit` ids it accepted, oldest first. */
  lemma {:induction false} WindowIsNewestAccepted(limit: nat, ids: seq<MessageId>)
    requires 0 < limit
    ensures AcceptAll([], limit, ids) == Newest(Accepted(limit, ids), limit)
  {
    if ids != [] {
      var before, id := ids[..|ids| - 1], ids[|ids| - 1];
      WindowIsNewestAccepted(limit, before);
      NewestNext(Accepted(limit, before), limit, id);
      assert Accepted(limit, before) + [] == Accepted(limit, before);
    }
  }

  /** An id is accepted a second time only after at least `limit` newer acceptances. */
  lemma {:induction false} AcceptedAgainOnlyAfterEviction(limit: nat, ids: seq<MessageId>, i: nat, j: nat)
    requires 0 < limit && i < j < |Accepted(limit, ids)|
    requires Accepted(limit, ids)[i] == Accepted(limit, ids)[j]
    ensures j - i - 1 >= limit
  {
    var before, id := ids[..|ids| - 1], ids[|ids| - 1];
    var accepted := Accepted(limit, before);
    if j < |accepted| {
      AcceptedAgainOnlyAfterEviction(limit, before, i, j);
    } else {
      WindowIsNewestAccepted(limit, before);
      var window := Newest(accepted, limit);
      assert accepted[i] !in window;
      forall p | |accepted| - |window| <= p < |accepted| ensures accepted[p] != accepted[i] {
        assert accepted[p] == window[p - (|accepted| - |window|)];
      }
    }
  }

  lemma {:induction false} WindowStaysDistinct(window: seq<MessageId>, limit: nat, ids: seq<MessageId>)
    requires 0 < limit && Distinct(window)
    ensures Distinct(AcceptAll(window, limit, ids))
  {
    if ids != [] {
      WindowStaysDistinct(window, limit, ids[..|ids| - 1]);
    }
  }

  /** Restoring distinct ids keeps the newest that fit, in their order. */
  lemma {:induction false} RestoreKeepsNewest(limit: nat, ids: seq<MessageId>)
    requires 0 < limit && Distinct(ids)
    ensures AcceptAll([], limit, ids) == Newest(ids, limit)
  {
    if ids != [] {
      var before, id := ids[..|ids| - 1], ids[|ids| - 1];
      RestoreKeepsNewest(limit, before);
      assert id !in Newest(before, limit) by {
        assert forall k :: 0 <= k < |before| ==> before[k] != id;
      }
      NewestNext(before, limit, id);
      assert before + [id] == ids;
    }
  }

  /** The snapshot round trip: into a filter at least as large nothing is lost or reordered,
      so every later answer is the same while the capacities are. */
  lemma SnapshotRoundTrip(limit: nat, restored: nat, ids: seq<MessageId>, later: seq<MessageId>)
    requires 0 < limit && 0 < restored
    ensures var saved := AcceptAll([], limit, ids);
            && AcceptAll([], restored, saved) == Newest(saved, restored)
            && (limit <= restored ==> AcceptAll([], restored, saved) == saved)
            && (limit == restored ==>
                  AcceptAll(AcceptAll([], restored, saved), restored, later) == AcceptAll(saved, limit, later))
  {
    var saved := AcceptAll([], limit, ids);
    WindowStaysDistinct([], limit, ids);
    RestoreKeepsNewest(restored, saved);
    WindowIsNewestAccepted(limit, ids);
  }

  function IdsOf(ids: seq<MessageId>): (r: set<MessageId>)
    ensures forall id :: id in r <==> id in ids
  {
    set id | id in ids
  }

  lemma IdsAppended(ids: seq<MessageId>, id: MessageId)
    ensures IdsOf(ids + [id]) == IdsOf(ids) + {id}
  {
  }

  /** What two filters of different size have made of the same snapshot and the same ids. */
  ghost predicate Compared(limit: nat, window: seq<MessageId>, larger: seq<MessageId>, seen: set<MessageId>) {
    && |window| <= limit
    && (if |seen| <= limit then larger == window && IdsOf(window) == seen && |window| == |seen| else limit < |larger|)
  }

  lemma {:induction false} SizesCompared(limit: nat, restored: nat, saved: seq<MessageId>, later: seq<MessageId>)
    requires 0 < limit < restored && Distinct(saved) && |saved| <= limit
    ensures Compared(limit, AcceptAll(saved, limit, later), AcceptAll(saved, restored, later), IdsOf(saved) + IdsOf(later))
  {
    if later == [] {
      DistinctSize(saved);
      assert IdsOf(saved) + IdsOf(later) == IdsOf(saved);
    } else {
      var before, id := later[..|later| - 1], later[|later| - 1];
      SizesCompared(limit, restored, saved, before);
      assert later == before + [id];
      IdsAppended(before, id);
      var seen := IdsOf(saved) + IdsOf(before);
      assert IdsOf(saved) + IdsOf(later) == seen + {id};
      OneMoreCompared(limit, restored, AcceptAll(saved, limit, before), AcceptAll(saved, restored, before), seen, id);
    }
  }

  lemma OneMoreCompared(limit: nat, restored: nat, window: seq<MessageId>, larger: seq<MessageId>, seen: set<MessageId>, id: MessageId)
    requires 0 < limit < restored && Compared(limit, window, larger, seen)
    ensures Compared(limit, Accept(window, limit, id), Accept(larger, restored, id), seen + {id})
  {
    if id in seen {
      assert seen + {id} == seen;
    } else if |seen| <= limit {
      IdsAppended(window, id);
    }
  }

  lemma {:induction false} DistinctSize(ids: seq<MessageId>)
    requires Distinct(ids)
    ensures |IdsOf(ids)| == |ids|
  {
    if ids != [] {
      var before, id := ids[..|ids| - 1], ids[|ids| - 1];
      DistinctSize(before);
      assert ids == before + [id];
      IdsAppended(before, id);
    }
  }

  /** Restored into a larger filter, a snapshot leads to the same window later on exactly as
      long as all ids together, those in the snapshot and those since, fit the old one. */
  lemma LargerFilterAgrees(limit: nat, restored: nat, saved: seq<MessageId>, later: seq<MessageId>)
    requires 0 < limit < restored && Distinct(saved) && |saved| <= limit
    ensures AcceptAll(AcceptAll([], restored, saved), restored, later) == AcceptAll(saved, limit, later)
       <==> |IdsOf(saved) + IdsOf(later)| <= limit
  {
    RestoreKeepsNewest(restored, saved);
    SizesCompared(limit, restored, saved, later);
  }

  /** Beyond that a larger filter may even forget an id the old one would still know: an id
      it did not have to accept again is evicted by its first acceptance. */
  lemma LargerFilterCanForgetSooner(a: MessageId, b: MessageId, c: MessageId, d: MessageId)
    requires Distinct([a, b, c, d])
    ensures AcceptAll([a, b], 2, [c, a, d]) == [a, d] && AcceptAll([a, b], 3, [c, a, d]) == [b, c, d]
  {
    ThreeAccepted([a, b], 2, c, a, d);
    ThreeAccepted([a, b], 3, c, a, d);
    assert a != b && a != c && a != d && b != c && b != d && c != d by {
      var all := [a, b, c, d];
      assert all[0] != all[1] && all[0] != all[2] && all[0] != all[3] && all[1] != all[2] && all[1] != all[3] && all[2] != all[3];
    }
    assert Accept([a, b], 2, c) == [b, c] && Accept([b, c], 2, a) == [c, a] && Accept([c, a], 2, d) == [a, d];
    assert Accept([a, b], 3, c) == [a, b, c] && Accept([a, b, c], 3, a) == [a, b, c] && Accept([a, b, c], 3, d) == [b, c, d];
  }

  lemma ThreeAccepted(window: seq<MessageId>, limit: nat, x: MessageId, y: MessageId, z: MessageId)
    requires 0 < limit
    ensures AcceptAll(window, limit, [x, y, z]) == Accept(Accept(Accept(window, limit, x), limit, y), limit, z)
  {
    assert [x, y, z][..2] == [x, y] && [x, y][..1] == [x] && [x][..0] == [];
    assert AcceptAll(window, limit, [x]) == Accept(window, limit, x);
    assert AcceptAll(window, limit, [x, y]) == Accept(Accept(window, limit, x), limit, y);
  }

  // ---------- the circular buffer ----------

  lemma Wrap(x: nat, length: nat)
    requires 0 < length && x < 2 * length
    ensures x % length == if x < length then x else x - length
  {
  }

  class Ring<T(0)> {
    const items: array<T>
    var head: nat
    var size: nat
    ghost var contents: seq<T>

    ghost predicate Valid()
      reads this, items
    {
      && size <= items.Length && |contents| == size
      && (if items.Length == 0 then head == 0 else head < items.Length)
      && forall i :: 0 <= i < size ==> contents[i] == items[Slot(i)]
    }

    /** Where the value at distance `i` from the oldest one is kept. */
    function Slot(i: nat): (s: nat)
      requires head < items.Length && i <= items.Length
      reads this
      ensures s < items.Length
    {
      if head + i < items.Length then head + i else head + i - items.Length
    }

    /** A non-positive capacity makes a ring that retains nothing. */
    constructor (capacity: int)
      ensures Valid() && fresh(items) && contents == []
      ensures items.Length == if capacity < 0 then 0 else capacity
    {
      items := new T[if capacity < 0 then 0 else capacity];
      head, size := 0, 0;
      contents := [];
    }

    method Full() returns (full: bool)
      requires Valid()
      ensures full <==> 0 < items.Length == |contents|
    {
      full := size == items.Length && items.Length > 0;
    }

    method Push(value: T) returns (evicted: Option<T>)
      requires Valid()
      modifies this, items
      ensures Valid()
      ensures items.Length == 0 ==> evicted == None && contents == []
      ensures items.Length > 0 && old(|contents|) < items.Length ==>
                evicted == None && contents == old(contents) + [value]
      ensures items.Length > 0 && old(|contents|) == items.Length ==>
                evicted == Some(old(contents)[0]) && contents == old(contents)[1..] + [value]
    {
      if items.Length == 0 {
        return None;
      }
      if size == items.Length {
        evicted := Some(items[head]);
        items[head] := value;
        Wrap(head + 1, items.Length);
        head := (head + 1) % items.Length;
        contents := contents[1..] + [value];
        return;
      }
      var index := (head + size) % items.Length;
      Wrap(head + size, items.Length);
      items[index] := value;
      size := size + 1;
      contents := contents + [value];
      return None;
    }

    method Peek() returns (r: Option<T>)
      requires Valid()
      ensures r == if contents == [] then None else Some(contents[0])
    {
      if size == 0 {
        return None;
      }
      return Some(items[head]);
    }

    method Pop() returns (r: Option<T>)
      requires Valid()
      modifies this, items
      ensures Valid()
      ensures old(contents) == [] ==> r == None && contents == []
      ensures old(contents) != [] ==> r == Some(old(contents)[0]) && contents == old(contents)[1..]
    {
      if size == 0 {
        return None;
      }
      r := Some(items[head]);
      var zero: T := *;
      items[head] := zero;
      Wrap(head + 1, items.Length);
      head := (head + 1) % items.Length;
      size := size - 1;
      contents := contents[1..];
      if size == 0 {
        head := 0;
      }
    }

    method At(offset: int) returns (r: Option<T>)
      requires Valid()
      ensures r == if 0 <= offset < |contents| then Some(contents[offset]) else None
    {
      if offset < 0 || offset >= size {
        return None;
      }
      Wrap(head + offset, items.Length);
      return Some(items[(head + offset) % items.Length]);
    }

    method Values() returns (values: seq<T>)
      requires Valid()
      ensures values == contents
    {
      values := [];
      for i := 0 to size
        invariant values == contents[..i]
      {
        Wrap(head + i, items.Length);
        values := values + [items[(head + i) % items.Length]];
      }
    }

    method Clear()
      requires Valid()
      modifies this, items
      ensures Valid() && contents == []
    {
      var zero: T := *;
      for i := 0 to items.Length
      {
        items[i] := zero;
      }
      head, size := 0, 0;
      contents := [];
    }
  }

  // ---------- the filter ----------

  class Dedup {
    const queue: Ring<MessageId>
    var queued: set<MessageId>

    /** With room for at least one id the set and the buffer hold the same ids. */
    ghost predicate Valid()
      reads this, queue, queue.items
    {
      && queue.Valid()
      && (queue.items.Length == 0 ==> queue.contents == [])
      && (queue.items.Length > 0 ==>
            Distinct(queue.contents) && forall id :: id in queued <==> id in queue.contents)
    }

    constructor (limit: int)
      ensures Valid() && fresh(queue) && fresh(queue.items) && queue.contents == [] && queued == {}
      ensures queue.items.Length == if limit < 0 then 0 else limit
    {
      queue := new Ring(limit);
      queued := {};
    }

    method Add(id: MessageId) returns (accepted: bool)
      requires Valid()
      modifies this, queue, queue.items
      ensures Valid()
      ensures accepted <==> id !in old(queued)
      ensures queue.items.Length > 0 ==> queue.contents == Accept(old(queue.contents), queue.items.Length, id)
      ensures queue.items.Length == 0 ==> queue.contents == [] && queued == old(queued) + {id}
    {
      if id in queued {
        return false;
      }
      var full := queue.Full();
      if full {
        var value := queue.Pop();
        if value.Some? {
          queued := queued - {value.value};
        }
      }
      var _ := queue.Push(id);
      queued := queued + {id};
      return true;
    }

    method Has(id: MessageId) returns (has: bool)
      requires Valid()
      ensures has <==> id in queued
      ensures queue.items.Length > 0 ==> (has <==> id in queue.contents)
    {
      has := id in queued;
    }

    method Reset()
      requires Valid()
      modifies this, queue, queue.items
      ensures Valid() && queue.contents == [] && queued == {}
    {
      queue.Clear();
      queued := {};
    }

    method Ids() returns (ids: seq<MessageId>)
      requires Valid()
      ensures ids == queue.contents
    {
      ids := queue.Values();
    }

    method Restore(ids: seq<MessageId>)
      requires Valid()
      modifies this, queue, queue.items
      ensures Valid()
      ensures queue.items.Length > 0 ==> queue.contents == AcceptAll([], queue.items.Length, ids)
      ensures queue.items.Length == 0 ==> queued == (set id | id in ids)
    {
      Reset();
      for i := 0 to |ids|
        invariant Valid()
        invariant queue.items.Length > 0 ==> queue.contents == AcceptAll([], queue.items.Length, ids[..i])
        invariant queue.items.Length == 0 ==> queued == set id | id in ids[..i]
      {
        assert ids[..i + 1][..i] == ids[..i];
        assert ids[..i + 1] == ids[..i] + [ids[i]];
        var _ := Add(ids[i]);
      }
      assert ids[..|ids|] == ids;
    }
  }

  /**
    The bound and the agreement of set and buffer need a positive limit: with limit 0 the
    buffer discards every id and the set keeps them all, so a snapshot forgets what `Has`
    still answers.
  */
  method ZeroLimitForgetsInSnapshot(id: MessageId) returns (has: bool, ids: seq<MessageId>)
    ensures has && ids == []
  {
    var d := new Dedup(0);
    var _ := d.Add(id);
    has := d.Has(id);
    ids := d.Ids();
  }
}
