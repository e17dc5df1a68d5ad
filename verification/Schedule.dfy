/**
  The ordered map a `QuadHeap` stands for: its items listed in order of arrival.  No
  sequence number appears here, so nothing here can wrap, be reset or be renumbered.
*/
module Schedule {
  import opened Types

  datatype Item<K, V> = Item(key: K, value: V, when: int)

  ghost predicate HasKey<K, V>(arrivals: seq<Item<K, V>>, key: K) {
    exists i :: 0 <= i < |arrivals| && arrivals[i].key == key
  }

  ghost predicate DistinctKeys<K, V>(arrivals: seq<Item<K, V>>) {
    forall i, j | 0 <= i < |arrivals| && 0 <= j < |arrivals| :: arrivals[i].key == arrivals[j].key ==> i == j
  }

  ghost function PlaceOf<K, V>(arrivals: seq<Item<K, V>>, key: K): (i: nat)
    requires HasKey(arrivals, key)
    ensures i < |arrivals| && arrivals[i].key == key
  {
    var i :| 0 <= i < |arrivals| && arrivals[i].key == key; i
  }

  function Without<T>(s: seq<T>, i: nat): (r: seq<T>)
    requires i < |s|
    ensures |r| == |s| - 1
  {
    s[..i] + s[i + 1..]
  }

  /** The least deadline, and among equal deadlines the earliest arrival. */
  ghost predicate IsEarliest<K, V>(arrivals: seq<Item<K, V>>, e: nat) {
    && e < |arrivals|
    && forall i :: 0 <= i < |arrivals| ==>
         arrivals[e].when < arrivals[i].when || (arrivals[e].when == arrivals[i].when && e <= i)
  }

  ghost function Earliest<K, V>(arrivals: seq<Item<K, V>>): (e: nat)
    requires arrivals != []
    ensures IsEarliest(arrivals, e)
  {
    if |arrivals| == 1 then 0
    else
      var n := |arrivals| - 1;
      var e := Earliest(arrivals[..n]);
      assert forall i :: 0 <= i < n ==> arrivals[i] == arrivals[..n][i];
      if arrivals[n].when < arrivals[e].when then n else e
  }

  lemma EarliestUnique<K, V>(arrivals: seq<Item<K, V>>, e: nat)
    requires IsEarliest(arrivals, e)
    ensures e == Earliest(arrivals)
  {
  }

  ghost function Inserted<K, V>(arrivals: seq<Item<K, V>>, key: K, value: V, when: int): seq<Item<K, V>> {
    if HasKey(arrivals, key) then arrivals else arrivals + [Item(key, value, when)]
  }

  /** An update keeps the arrival rank of the entry. */
  ghost function Updated<K, V>(arrivals: seq<Item<K, V>>, key: K, value: V, when: int): seq<Item<K, V>> {
    if HasKey(arrivals, key) then arrivals[PlaceOf(arrivals, key) := Item(key, value, when)] else arrivals
  }

  ghost function Upserted<K, V>(arrivals: seq<Item<K, V>>, key: K, value: V, when: int): seq<Item<K, V>> {
    if HasKey(arrivals, key) then Updated(arrivals, key, value, when) else Inserted(arrivals, key, value, when)
  }

  ghost function Removed<K, V>(arrivals: seq<Item<K, V>>, key: K): seq<Item<K, V>> {
    if HasKey(arrivals, key) then Without(arrivals, PlaceOf(arrivals, key)) else arrivals
  }

  ghost function Popped<K, V>(arrivals: seq<Item<K, V>>): seq<Item<K, V>>
    requires arrivals != []
  {
    Without(arrivals, Earliest(arrivals))
  }

  // ---------- by key ----------

  /** What the map holds for a key. */
  ghost function Lookup<K, V>(arrivals: seq<Item<K, V>>, key: K): Option<Item<K, V>> {
    if HasKey(arrivals, key) then Some(arrivals[PlaceOf(arrivals, key)]) else None
  }

  lemma LookupAt<K, V>(arrivals: seq<Item<K, V>>, i: nat)
    requires DistinctKeys(arrivals) && i < |arrivals|
    ensures Lookup(arrivals, arrivals[i].key) == Some(arrivals[i])
  {
    assert HasKey(arrivals, arrivals[i].key);
  }

  /** An upsert leaves exactly the given item under its key, where the key was or else last,
      and everything else in its place. */
  lemma UpsertReplaces<K, V>(arrivals: seq<Item<K, V>>, key: K, value: V, when: int)
    requires DistinctKeys(arrivals)
    ensures var r := Upserted(arrivals, key, value, when);
            var i := if HasKey(arrivals, key) then PlaceOf(arrivals, key) else |arrivals|;
            && DistinctKeys(r) && |r| == (if HasKey(arrivals, key) then |arrivals| else |arrivals| + 1)
            && r[i] == Item(key, value, when)
            && forall j :: 0 <= j < |arrivals| && j != i ==> r[j] == arrivals[j] && r[j].key != key
    ensures Lookup(Upserted(arrivals, key, value, when), key) == Some(Item(key, value, when))
  {
    var r := Upserted(arrivals, key, value, when);
    if !HasKey(arrivals, key) {
      forall j | 0 <= j < |arrivals| ensures arrivals[j].key != key {}
    }
    LookupAt(r, if HasKey(arrivals, key) then PlaceOf(arrivals, key) else |arrivals|);
  }

  lemma UpsertLeavesOthers<K, V>(arrivals: seq<Item<K, V>>, key: K, value: V, when: int, other: K)
    requires DistinctKeys(arrivals) && other != key
    ensures Lookup(Upserted(arrivals, key, value, when), other) == Lookup(arrivals, other)
  {
    var r := Upserted(arrivals, key, value, when);
    UpsertReplaces(arrivals, key, value, when);
    if HasKey(arrivals, other) {
      LookupAt(r, PlaceOf(arrivals, other));
    }
  }

  /** An insertion leaves a known key alone, an update an unknown one. */
  lemma InsertOrUpdate<K, V>(arrivals: seq<Item<K, V>>, key: K, value: V, when: int)
    ensures Inserted(arrivals, key, value, when) == if HasKey(arrivals, key) then arrivals else Upserted(arrivals, key, value, when)
    ensures Updated(arrivals, key, value, when) == if HasKey(arrivals, key) then Upserted(arrivals, key, value, when) else arrivals
  {
  }

  /** A removal takes out the item under the key and no other. */
  lemma RemoveForgets<K, V>(arrivals: seq<Item<K, V>>, key: K, other: K)
    requires DistinctKeys(arrivals)
    ensures DistinctKeys(Removed(arrivals, key))
    ensures Lookup(Removed(arrivals, key), other) == if other == key then None else Lookup(arrivals, other)
  {
    var r := Removed(arrivals, key);
    if HasKey(arrivals, key) {
      var p := PlaceOf(arrivals, key);
      assert forall j :: 0 <= j < |r| ==> r[j] == arrivals[if j < p then j else j + 1];
      if other != key && HasKey(arrivals, other) {
        var q := PlaceOf(arrivals, other);
        LookupAt(r, if q < p then q else q - 1);
      }
    }
  }

  // ---------- draining ----------

  /** The items in the order in which repeated pops return them. */
  ghost function Drain<K, V>(arrivals: seq<Item<K, V>>): (r: seq<Item<K, V>>)
    ensures |r| == |arrivals|
    decreases |arrivals|
  {
    if arrivals == [] then [] else [arrivals[Earliest(arrivals)]] + Drain(Popped(arrivals))
  }

  /** What is left after `n` pops. */
  ghost function PopMany<K, V>(arrivals: seq<Item<K, V>>, n: nat): (r: seq<Item<K, V>>)
    requires n <= |arrivals|
    ensures |r| == |arrivals| - n
    decreases n
  {
    if n == 0 then arrivals else PopMany(Popped(arrivals), n - 1)
  }

  ghost predicate SortedByWhen<K, V>(items: seq<Item<K, V>>) {
    forall i, j :: 0 <= i < j < |items| ==> items[i].when <= items[j].when
  }

  lemma MultisetWithout<T>(s: seq<T>, i: nat)
    requires i < |s|
    ensures multiset(s) == multiset{s[i]} + multiset(Without(s, i))
  {
    assert s == s[..i] + [s[i]] + s[i + 1..];
  }

  lemma {:induction false} DrainIsPermutation<K, V>(arrivals: seq<Item<K, V>>)
    ensures multiset(Drain(arrivals)) == multiset(arrivals)
    decreases |arrivals|
  {
    if arrivals != [] {
      DrainIsPermutation(Popped(arrivals));
      MultisetWithout(arrivals, Earliest(arrivals));
    }
  }

  lemma InSameMultiset<T>(s: seq<T>, t: seq<T>, x: T)
    requires multiset(s) == multiset(t) && x in s
    ensures x in t
  {
    assert x in multiset(s);
    assert x in multiset(t);
  }

  lemma {:induction false} DrainIsSorted<K, V>(arrivals: seq<Item<K, V>>)
    ensures SortedByWhen(Drain(arrivals))
    decreases |arrivals|
  {
    if arrivals != [] {
      var rest := Popped(arrivals);
      DrainIsSorted(rest);
      DrainIsPermutation(rest);
      forall j | 0 <= j < |Drain(rest)| ensures arrivals[Earliest(arrivals)].when <= Drain(rest)[j].when {
        InSameMultiset(Drain(rest), rest, Drain(rest)[j]);
        var i :| 0 <= i < |rest| && rest[i] == Drain(rest)[j];
        assert rest[i] in arrivals;
      }
    }
  }

  /** The items due at one deadline, in the order given. */
  function AtDeadline<K, V>(items: seq<Item<K, V>>, when: int): seq<Item<K, V>> {
    if items == [] then []
    else AtDeadline(items[..|items| - 1], when)
         + (if items[|items| - 1].when == when then [items[|items| - 1]] else [])
  }

  lemma {:induction false} AtDeadlineConcat<K, V>(s: seq<Item<K, V>>, t: seq<Item<K, V>>, when: int)
    ensures AtDeadline(s + t, when) == AtDeadline(s, when) + AtDeadline(t, when)
    decreases |t|
  {
    if t == [] {
      assert s + t == s;
    } else {
      var n := |t| - 1;
      AtDeadlineConcat(s, t[..n], when);
      assert (s + t)[..|s + t| - 1] == s + t[..n];
    }
  }

  lemma {:induction false} NoneAtDeadline<K, V>(s: seq<Item<K, V>>, when: int)
    requires forall i :: 0 <= i < |s| ==> s[i].when != when
    ensures AtDeadline(s, when) == []
  {
    if s != [] { NoneAtDeadline(s[..|s| - 1], when); }
  }

  /** Removing an entry takes it out of its own tie and reorders no other. */
  lemma RemovalKeepsTies<K, V>(arrivals: seq<Item<K, V>>, i: nat, when: int)
    requires i < |arrivals|
    ensures AtDeadline(arrivals, when)
         == AtDeadline(arrivals[..i], when)
            + (if arrivals[i].when == when then [arrivals[i]] else [])
            + AtDeadline(arrivals[i + 1..], when)
    ensures AtDeadline(Without(arrivals, i), when)
         == AtDeadline(arrivals[..i], when) + AtDeadline(arrivals[i + 1..], when)
  {
    var x := [arrivals[i]];
    assert arrivals == (arrivals[..i] + x) + arrivals[i + 1..];
    AtDeadlineConcat(arrivals[..i] + x, arrivals[i + 1..], when);
    AtDeadlineConcat(arrivals[..i], x, when);
    AtDeadlineConcat(arrivals[..i], arrivals[i + 1..], when);
    assert x[..0] == [];
  }

  /** The earliest item leads its tie. */
  lemma EarliestLeadsTie<K, V>(arrivals: seq<Item<K, V>>, e: nat, when: int)
    requires IsEarliest(arrivals, e)
    ensures AtDeadline(arrivals, when) == AtDeadline([arrivals[e]], when) + AtDeadline(Without(arrivals, e), when)
  {
    var before, after := AtDeadline(arrivals[..e], when), AtDeadline(arrivals[e + 1..], when);
    RemovalKeepsTies(arrivals, e, when);
    OneAtDeadline(arrivals[e], when);
    if arrivals[e].when == when {
      NoneAtDeadline(arrivals[..e], when);
      assert [] + [arrivals[e]] + after == [arrivals[e]] + ([] + after);
    } else {
      assert before + [] + after == [] + (before + after);
    }
  }

  /** Ties are drained in arrival order. */
  lemma {:induction false} DrainIsStable<K, V>(arrivals: seq<Item<K, V>>, when: int)
    ensures AtDeadline(Drain(arrivals), when) == AtDeadline(arrivals, when)
    decreases |arrivals|
  {
    if arrivals != [] {
      DrainIsStable(Popped(arrivals), when);
      AtDeadlineConcat([arrivals[Earliest(arrivals)]], Drain(Popped(arrivals)), when);
      EarliestLeadsTie(arrivals, Earliest(arrivals), when);
    }
  }

  lemma OneAtDeadline<K, V>(x: Item<K, V>, when: int)
    ensures AtDeadline([x], when) == if x.when == when then [x] else []
  {
  }

  lemma {:induction false} PopManyDrains<K, V>(arrivals: seq<Item<K, V>>, n: nat)
    requires n <= |arrivals|
    ensures Drain(PopMany(arrivals, n)) == Drain(arrivals)[n..]
    decreases n
  {
    if n > 0 {
      PopManyDrains(Popped(arrivals), n - 1);
      var rest := Drain(Popped(arrivals));
      assert Drain(arrivals)[n..] == rest[n - 1..];
    }
  }

  lemma {:induction false} PopManyLast<K, V>(arrivals: seq<Item<K, V>>, n: nat)
    requires n < |arrivals|
    ensures PopMany(arrivals, n + 1) == Popped(PopMany(arrivals, n))
    ensures Drain(arrivals)[n] == PopMany(arrivals, n)[Earliest(PopMany(arrivals, n))]
    decreases n
  {
    if n > 0 {
      PopManyLast(Popped(arrivals), n - 1);
    }
  }

  /** A pop takes the earliest item, so removing by key the item at the top is a pop. */
  lemma RemoveEarliestIsPop<K, V>(arrivals: seq<Item<K, V>>)
    requires arrivals != [] && DistinctKeys(arrivals)
    ensures HasKey(arrivals, arrivals[Earliest(arrivals)].key)
    ensures Removed(arrivals, arrivals[Earliest(arrivals)].key) == Popped(arrivals)
  {
  }
}
