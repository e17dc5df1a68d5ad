/**
  The in-flight window of a shard (core/inflight.go): every dispatched offset is kept,
  indexed by offset and by actor, until a saved snapshot of its actor releases it.

  `Window` is the value of the window and `AfterComplete` says declaratively what a batch
  of completions does to it.  Class `Inflight` is the loop code, proved against them.
*/
module InflightWindow {
  import opened Types

  datatype Completion = Completion(actorId: ActorId, maxOffset: Offset)

  datatype Window = Window(
    windowLimit: int,
    minOffset: Offset,
    maxOffset: Offset,
    offsetActor: map<Offset, ActorId>,
    actorOffsets: map<ActorId, seq<Offset>>)

  datatype Completed = Completed(window: Window, nextOffset: Offset, advanced: bool)

  const INFLIGHT_WINDOW_LIMIT := 4096

  function Empty(limit: int): Window {
    Window(limit, -1, -1, map[], map[])
  }

  // ---------- the invariant ----------

  ghost predicate NoDuplicates(list: seq<Offset>) {
    forall i, j :: 0 <= i < j < |list| ==> list[i] != list[j]
  }

  function ListOf(w: Window, a: ActorId): seq<Offset> {
    if a in w.actorOffsets then w.actorOffsets[a] else []
  }

  /** The two indexes hold the same (offset, actor) pairs, and no list is empty or repeats. */
  ghost predicate IndexesAgree(w: Window) {
    && (forall a, o {:trigger o in ListOf(w, a)} ::
          o in ListOf(w, a) <==> o in w.offsetActor && w.offsetActor[o] == a)
    && (forall a :: a in w.actorOffsets ==> w.actorOffsets[a] != [] && NoDuplicates(w.actorOffsets[a]))
  }

  ghost predicate Valid(w: Window) {
    && IndexesAgree(w)
    && (w.offsetActor == map[] ==> w.minOffset == -1 && w.maxOffset == -1)
    && (w.offsetActor != map[] ==> w.minOffset in w.offsetActor)
    && (forall o :: o in w.offsetActor ==> 0 <= o <= w.maxOffset)
  }

  /** The window is determined by its ends and its per-actor lists. */
  lemma SameLists(v: Window, w: Window)
    requires IndexesAgree(v) && IndexesAgree(w)
    requires forall a :: ListOf(v, a) == ListOf(w, a)
    ensures v.offsetActor == w.offsetActor && v.actorOffsets == w.actorOffsets
  {
    forall o | o in v.offsetActor ensures o in w.offsetActor && w.offsetActor[o] == v.offsetActor[o] {
      assert o in ListOf(v, v.offsetActor[o]);
      assert o in ListOf(w, v.offsetActor[o]);
    }
    forall o | o in w.offsetActor ensures o in v.offsetActor {
      assert o in ListOf(w, w.offsetActor[o]);
      assert o in ListOf(v, w.offsetActor[o]);
    }
    forall a | a in v.actorOffsets ensures a in w.actorOffsets && v.actorOffsets[a] == w.actorOffsets[a] {
      assert ListOf(v, a) == ListOf(w, a);
    }
    forall a | a in w.actorOffsets ensures a in v.actorOffsets {
      assert ListOf(v, a) == ListOf(w, a);
    }
    assert v.offsetActor.Keys == w.offsetActor.Keys;
    assert v.actorOffsets.Keys == w.actorOffsets.Keys;
  }

  /** The per-actor lists are non-empty and partition the keys of a valid window. */
  lemma ListsPartitionWindow(w: Window, o: Offset)
    requires Valid(w)
    ensures o in w.offsetActor <==> exists a :: a in w.actorOffsets && o in w.actorOffsets[a]
    ensures forall a, b | a in w.actorOffsets && b in w.actorOffsets
              :: o in w.actorOffsets[a] && o in w.actorOffsets[b] ==> a == b
  {
    if o in w.offsetActor {
      assert o in ListOf(w, w.offsetActor[o]);
    }
    forall a | a in w.actorOffsets && o in w.actorOffsets[a]
      ensures o in w.offsetActor && w.offsetActor[o] == a
    {
      assert o in ListOf(w, a);
    }
  }

  // ---------- what the operations do ----------

  predicate Full(w: Window, offset: Offset) {
    && offset !in w.offsetActor
    && (w.maxOffset - w.minOffset >= w.windowLimit
        || (w.minOffset != -1 && offset - w.minOffset >= w.windowLimit))
  }

  function Add(w: Window, offset: Offset, a: ActorId): Window {
    var list := ListOf(w, a);
    w.(offsetActor := w.offsetActor[offset := a],
       minOffset := if w.minOffset == -1 then offset else w.minOffset,
       maxOffset := if w.maxOffset == -1 || offset > w.maxOffset then offset else w.maxOffset,
       actorOffsets := w.actorOffsets[a := if offset in list then list else list + [offset]])
  }

  ghost predicate SameReceiver(w: Window, offset: Offset, a: ActorId) {
    offset in w.offsetActor ==> w.offsetActor[offset] == a
  }

  lemma AddKeepsValid(w: Window, offset: Offset, a: ActorId)
    requires Valid(w) && 0 <= offset && SameReceiver(w, offset, a)
    ensures Valid(Add(w, offset, a))
  {
    var w' := Add(w, offset, a);
    assert NoDuplicates(w'.actorOffsets[a]) by {
      if a in w.actorOffsets { assert NoDuplicates(w.actorOffsets[a]); }
    }
    forall b, o ensures o in ListOf(w', b) <==> o in w'.offsetActor && w'.offsetActor[o] == b {
      assert o in ListOf(w, b) <==> o in w.offsetActor && w.offsetActor[o] == b;
    }
    assert offset in w'.offsetActor;
  }

  /** Least element of a non-empty set of offsets. */
  ghost function MinOf(s: set<Offset>): (m: Offset)
    requires s != {}
    ensures m in s && forall x :: x in s ==> m <= x
  {
    var x := Pick(s);
    if s == {x} then x
    else
      var y := MinOf(s - {x});
      assert s == {x} + (s - {x});
      if x < y then x else y
  }

  lemma MinOfUnique(s: set<Offset>, m: Offset)
    requires m in s && forall x :: x in s ==> m <= x
    ensures m == MinOf(s)
  {
  }

  /** How many leading elements are at most `m`: the break in the loop of `remove`. */
  function Lead(list: seq<Offset>, m: Offset): (k: nat)
    ensures k <= |list|
    ensures forall i :: 0 <= i < k ==> list[i] <= m
    ensures k < |list| ==> list[k] > m
  {
    if list == [] || list[0] > m then 0 else 1 + Lead(list[1..], m)
  }

  /** `Lead` is the only number with its three properties. */
  lemma LeadUnique(list: seq<Offset>, m: Offset, k: nat)
    requires k <= |list|
    requires forall i :: 0 <= i < k ==> list[i] <= m
    requires k < |list| ==> list[k] > m
    ensures k == Lead(list, m)
  {
  }

  type Reaches = map<ActorId, Offset>

  /** Merges one more completion into the furthest offset known per actor. */
  function Extend(reach: Reaches, a: ActorId, m: Offset): Reaches {
    reach[a := if a in reach && reach[a] > m then reach[a] else m]
  }

  /** Furthest offset completed for each actor by a list of completions. */
  function Reach(list: seq<Completion>): Reaches {
    if list == [] then map[]
    else var last := list[|list| - 1]; Extend(Reach(list[..|list| - 1]), last.actorId, last.maxOffset)
  }

  function Cut(w: Window, reach: Reaches, a: ActorId): (k: nat)
    ensures k <= |ListOf(w, a)|
  {
    if a in reach then Lead(ListOf(w, a), reach[a]) else 0
  }

  ghost predicate Released(w: Window, reach: Reaches, o: Offset) {
    o in w.offsetActor && o in ListOf(w, w.offsetActor[o])[..Cut(w, reach, w.offsetActor[o])]
  }

  /** The window when every actor's list is cut at its reach and nothing else changes. */
  ghost function AfterRemovals(w: Window, reach: Reaches): (r: Window) {
    w.(offsetActor := map o | o in w.offsetActor && !Released(w, reach, o) :: w.offsetActor[o],
       actorOffsets := map a | a in w.actorOffsets && Cut(w, reach, a) < |w.actorOffsets[a]| ::
                         w.actorOffsets[a][Cut(w, reach, a)..])
  }

  /** What `Complete` computes, as a function of the reach of its argument alone. */
  ghost function AfterComplete(w: Window, reach: Reaches): Completed {
    var r := AfterRemovals(w, reach);
    if r.offsetActor == map[] then
      if w.maxOffset < 0 then Completed(r, 0, false)
      else Completed(r.(minOffset := -1, maxOffset := -1), w.maxOffset + 1, true)
    else if w.minOffset in w.offsetActor && w.minOffset !in r.offsetActor then
      var m := MinOf(r.offsetActor.Keys);
      Completed(r.(minOffset := m), m, m > w.minOffset)
    else
      Completed(r, w.minOffset, false)
  }

  lemma NoDuplicatesSplit(list: seq<Offset>, k: nat, o: Offset)
    requires NoDuplicates(list) && k <= |list|
    ensures o in list <==> o in list[..k] || o in list[k..]
    ensures !(o in list[..k] && o in list[k..])
    ensures NoDuplicates(list[k..])
  {
  }

  lemma ReleasedIffInLead(w: Window, reach: Reaches, a: ActorId, o: Offset)
    requires IndexesAgree(w) && o in ListOf(w, a)
    ensures Released(w, reach, o) <==> o in ListOf(w, a)[..Cut(w, reach, a)]
    ensures Released(w, reach, o) <==> o !in ListOf(w, a)[Cut(w, reach, a)..]
    ensures Released(w, reach, o) ==> a in reach && o <= reach[a]
  {
  }

  lemma CutList(w: Window, reach: Reaches, a: ActorId)
    ensures ListOf(AfterRemovals(w, reach), a) == ListOf(w, a)[Cut(w, reach, a)..]
  {
  }

  lemma RemovalsKeepIndexes(w: Window, reach: Reaches)
    requires IndexesAgree(w)
    ensures IndexesAgree(AfterRemovals(w, reach))
  {
    var r := AfterRemovals(w, reach);
    forall a, o ensures o in ListOf(r, a) <==> o in r.offsetActor && r.offsetActor[o] == a {
      CutList(w, reach, a);
      if o in ListOf(w, a) {
        ReleasedIffInLead(w, reach, a, o);
      }
    }
    forall a | a in r.actorOffsets ensures NoDuplicates(r.actorOffsets[a]) {
      NoDuplicatesSplit(w.actorOffsets[a], Cut(w, reach, a), 0);
    }
  }

  /** What the loop of `remove` has done when it stops after `k` offsets. */
  ghost function FirstDropped(w: Window, a: ActorId, k: nat): Window
    requires k <= |ListOf(w, a)|
  {
    w.(offsetActor := w.offsetActor - (set j | 0 <= j < k :: ListOf(w, a)[j]),
       actorOffsets := if k == |ListOf(w, a)| then w.actorOffsets - {a}
                       else w.actorOffsets[a := ListOf(w, a)[k..]])
  }

  lemma FirstDroppedIsRemoval(w: Window, a: ActorId, upTo: Offset)
    requires IndexesAgree(w)
    ensures FirstDropped(w, a, Lead(ListOf(w, a), upTo)) == AfterRemovals(w, map[a := upTo])
  {
    var r, d := AfterRemovals(w, map[a := upTo]), FirstDropped(w, a, Lead(ListOf(w, a), upTo));
    assert d.offsetActor == r.offsetActor by {
      forall o | o in w.offsetActor ensures o in d.offsetActor <==> o in r.offsetActor {
        FirstDroppedReleased(w, a, upTo, o);
      }
    }
    assert d.actorOffsets == r.actorOffsets by {
      FirstDroppedLists(w, a, upTo);
    }
  }

  lemma FirstDroppedLists(w: Window, a: ActorId, upTo: Offset)
    requires IndexesAgree(w)
    ensures FirstDropped(w, a, Lead(ListOf(w, a), upTo)).actorOffsets == AfterRemovals(w, map[a := upTo]).actorOffsets
  {
  }

  lemma FirstDroppedReleased(w: Window, a: ActorId, upTo: Offset, o: Offset)
    requires IndexesAgree(w) && o in w.offsetActor
    ensures Released(w, map[a := upTo], o)
       <==> o in (set j | 0 <= j < Lead(ListOf(w, a), upTo) :: ListOf(w, a)[j])
  {
    var list, k := ListOf(w, a), Lead(ListOf(w, a), upTo);
    assert o in list[..k] <==> exists j :: 0 <= j < k && list[j] == o;
    assert o in ListOf(w, w.offsetActor[o]);
    assert o in list[..k] ==> o in list;
  }

  lemma CompleteKeepsValid(w: Window, reach: Reaches)
    requires Valid(w)
    ensures Valid(AfterComplete(w, reach).window)
  {
    var r, c := AfterRemovals(w, reach), AfterComplete(w, reach).window;
    RemovalsKeepIndexes(w, reach);
    SameIndexes(r, c);
  }

  lemma SameIndexes(v: Window, w: Window)
    requires IndexesAgree(v) && v.offsetActor == w.offsetActor && v.actorOffsets == w.actorOffsets
    ensures IndexesAgree(w)
  {
    forall a, o ensures o in ListOf(w, a) <==> o in w.offsetActor && w.offsetActor[o] == a {
      assert ListOf(w, a) == ListOf(v, a);
    }
  }

  /** Nothing leaves the window except offsets at or below the reach of their own actor. */
  lemma OnlyReachedLeave(w: Window, reach: Reaches, o: Offset)
    requires IndexesAgree(w) && o in w.offsetActor
    ensures o !in AfterComplete(w, reach).window.offsetActor
            ==> w.offsetActor[o] in reach && o <= reach[w.offsetActor[o]]
    ensures o in AfterComplete(w, reach).window.offsetActor
            ==> AfterComplete(w, reach).window.offsetActor[o] == w.offsetActor[o]
  {
  }

  lemma NothingAppears(w: Window, reach: Reaches, o: Offset)
    ensures o in AfterComplete(w, reach).window.offsetActor ==> o in w.offsetActor
  {
  }

  /** A committed next offset lies at or below everything in flight, and at most one past
      the largest offset the window has seen. */
  lemma NextOffsetIsSafe(w: Window, reach: Reaches)
    requires Valid(w) && AfterComplete(w, reach).advanced
    ensures forall o :: o in AfterComplete(w, reach).window.offsetActor ==> AfterComplete(w, reach).nextOffset <= o
    ensures w.minOffset < AfterComplete(w, reach).nextOffset <= w.maxOffset + 1
  {
  }

  /** It is as far as one can commit: any bound of what is in flight that does not go beyond
      what the window has seen lies at or below it. */
  lemma NextOffsetIsTight(w: Window, reach: Reaches, b: Offset)
    requires Valid(w) && AfterComplete(w, reach).advanced && b <= w.maxOffset + 1
    requires forall o :: o in AfterComplete(w, reach).window.offsetActor ==> b <= o
    ensures b <= AfterComplete(w, reach).nextOffset
  {
  }

  /** There is something to commit exactly when the first offset in flight has left and none
      of those that stay lies before it. */
  lemma AdvancesIff(w: Window, reach: Reaches)
    requires Valid(w)
    ensures AfterComplete(w, reach).advanced <==>
              && w.offsetActor != map[]
              && forall o :: o in AfterComplete(w, reach).window.offsetActor ==> w.minOffset < o
  {
    var r := AfterRemovals(w, reach);
    if r.offsetActor != map[] && w.minOffset !in r.offsetActor {
      assert MinOf(r.offsetActor.Keys) in r.offsetActor;
    }
  }

  /** The first offset in flight stays the bound as long as it is in flight, and the least of
      what is left takes its place; the largest seen is kept until nothing is left. */
  lemma EndsAfterComplete(w: Window, reach: Reaches)
    requires Valid(w)
    ensures var c := AfterComplete(w, reach).window;
            && (w.minOffset in c.offsetActor ==> c.minOffset == w.minOffset)
            && (w.minOffset !in c.offsetActor ==> forall o :: o in c.offsetActor ==> c.minOffset <= o)
            && (c.offsetActor != map[] ==> c.minOffset in c.offsetActor && c.maxOffset == w.maxOffset)
            && (c.offsetActor == map[] ==> c == Empty(w.windowLimit))
  {
    CompleteKeepsValid(w, reach);
    var c := AfterComplete(w, reach).window;
    if c.offsetActor == map[] { NothingListed(c); }
  }

  lemma ListedIsInFlight(w: Window, a: ActorId)
    requires Valid(w) && a in w.actorOffsets
    ensures w.offsetActor != map[]
  {
    assert ListOf(w, a)[0] in ListOf(w, a);
  }

  lemma NothingListed(w: Window)
    requires Valid(w) && w.offsetActor == map[]
    ensures w.actorOffsets == map[]
  {
    assert forall a :: a in w.actorOffsets ==> w.actorOffsets[a] != [];
    if w.actorOffsets.Keys != {} {
      ListedIsInFlight(w, Pick(w.actorOffsets.Keys));
    }
    assert w.actorOffsets.Keys == {};
  }

  ghost predicate ReachesAll(w: Window, reach: Reaches) {
    forall o :: o in w.offsetActor ==> w.offsetActor[o] in reach && o <= reach[w.offsetActor[o]]
  }

  /** Once everything in flight is reached nothing is left, and the commit is one past the
      largest offset seen. */
  lemma AllReachedCommitsAll(w: Window, reach: Reaches)
    requires Valid(w) && w.offsetActor != map[] && ReachesAll(w, reach)
    ensures AfterComplete(w, reach) == Completed(Empty(w.windowLimit), w.maxOffset + 1, true)
  {
    forall o | o in w.offsetActor ensures Released(w, reach, o) {
      var list := ListOf(w, w.offsetActor[o]);
      ReachedListLeaves(w, reach, w.offsetActor[o]);
      assert list[..|list|] == list && o in list;
    }
    forall a | a in w.actorOffsets ensures Cut(w, reach, a) == |w.actorOffsets[a]| {
      ReachedListLeaves(w, reach, a);
    }
    assert AfterRemovals(w, reach).offsetActor == map[];
    assert AfterRemovals(w, reach).actorOffsets == map[];
  }

  lemma ReachedListLeaves(w: Window, reach: Reaches, a: ActorId)
    requires IndexesAgree(w) && ReachesAll(w, reach)
    ensures Cut(w, reach, a) == |ListOf(w, a)|
  {
    var list := ListOf(w, a);
    forall i | 0 <= i < |list| ensures a in reach && list[i] <= reach[a] {
      assert list[i] in list;
    }
    if a in reach { LeadUnique(list, reach[a], |list|); }
    assert list != [] ==> list[0] in list;
  }

  /** A window is full for a new offset exactly when adding it would leave the span at its
      limit or beyond. */
  lemma FullIffTooWide(w: Window, offset: Offset, a: ActorId)
    requires Valid(w) && 0 < w.windowLimit && 0 <= offset
    ensures Full(w, offset) <==>
              offset !in w.offsetActor && Add(w, offset, a).maxOffset - Add(w, offset, a).minOffset >= w.windowLimit
  {
  }

  // ---------- order independence ----------

  /** Removing one more completion after a batch is removing the extended batch. */
  lemma RemoveAfterRemovals(w: Window, reach: Reaches, a: ActorId, m: Offset)
    requires IndexesAgree(w)
    ensures AfterRemovals(AfterRemovals(w, reach), map[a := m]) == AfterRemovals(w, Extend(reach, a, m))
  {
    var r := AfterRemovals(w, reach);
    var left, right := AfterRemovals(r, map[a := m]), AfterRemovals(w, Extend(reach, a, m));
    RemovalsKeepIndexes(w, reach);
    RemovalsKeepIndexes(r, map[a := m]);
    RemovalsKeepIndexes(w, Extend(reach, a, m));
    forall b ensures ListOf(left, b) == ListOf(right, b) {
      CutList(w, reach, b);
      CutList(r, map[a := m], b);
      CutList(w, Extend(reach, a, m), b);
      CutTwice(w, reach, r, a, m, b);
    }
    SameLists(left, right);
  }

  lemma CutTwice(w: Window, reach: Reaches, r: Window, a: ActorId, m: Offset, b: ActorId)
    requires ListOf(r, b) == ListOf(w, b)[Cut(w, reach, b)..]
    ensures ListOf(r, b)[Cut(r, map[a := m], b)..] == ListOf(w, b)[Cut(w, Extend(reach, a, m), b)..]
  {
  }

  lemma RemoveNone(w: Window)
    requires IndexesAgree(w)
    ensures AfterRemovals(w, Reach([])) == w
  {
  }

  /** One turn of the loop in `Complete`. */
  lemma RemoveOneMore(w: Window, list: seq<Completion>, i: nat)
    requires IndexesAgree(w) && i < |list|
    ensures AfterRemovals(AfterRemovals(w, Reach(list[..i])), map[list[i].actorId := list[i].maxOffset])
         == AfterRemovals(w, Reach(list[..i + 1]))
    ensures IndexesAgree(AfterRemovals(w, Reach(list[..i + 1])))
  {
    assert list[..i + 1][..i] == list[..i];
    RemoveAfterRemovals(w, Reach(list[..i]), list[i].actorId, list[i].maxOffset);
    RemovalsKeepIndexes(w, Reach(list[..i + 1]));
  }

  ghost predicate IsReach(list: seq<Completion>, reach: Reaches) {
    && (forall i :: 0 <= i < |list| ==> list[i].actorId in reach && list[i].maxOffset <= reach[list[i].actorId])
    && (forall a :: a in reach ==> Completion(a, reach[a]) in list)
  }

  lemma ReachIsFurthest(list: seq<Completion>)
    ensures IsReach(list, Reach(list))
  {
  }

  /** Two batches with the same completions, in whatever order and however often repeated,
      leave the same window and commit the same offset. */
  lemma CompleteIgnoresOrder(w: Window, first: seq<Completion>, second: seq<Completion>)
    requires forall c :: c in first <==> c in second
    ensures AfterComplete(w, Reach(first)) == AfterComplete(w, Reach(second))
  {
    ReachIsFurthest(first);
    ReachIsFurthest(second);
    var r, s := Reach(first), Reach(second);
    forall a | a in r ensures a in s && r[a] <= s[a] {
      assert Completion(a, r[a]) in second;
    }
    forall a | a in s ensures a in r && s[a] <= r[a] {
      assert Completion(a, s[a]) in first;
    }
    assert r == s;
  }

  lemma CompleteIgnoresPermutation(w: Window, first: seq<Completion>, second: seq<Completion>)
    requires multiset(first) == multiset(second)
    ensures AfterComplete(w, Reach(first)) == AfterComplete(w, Reach(second))
  {
    forall c ensures c in first <==> c in second {
      assert c in first <==> c in multiset(first);
      assert c in second <==> c in multiset(second);
    }
    CompleteIgnoresOrder(w, first, second);
  }

  // ---------- the loop code ----------

  class Inflight {
    const windowLimit: int
    var minOffset: Offset
    var maxOffset: Offset
    var offsetActor: map<Offset, ActorId>
    var actorOffsets: map<ActorId, seq<Offset>>

    ghost function View(): Window
      reads this
    {
      Window(windowLimit, minOffset, maxOffset, offsetActor, actorOffsets)
    }

    constructor (limit: int)
      ensures View() == Empty(limit) && Valid(View())
    {
      windowLimit := limit;
      minOffset, maxOffset := -1, -1;
      offsetActor, actorOffsets := map[], map[];
    }

    method IsFull(offset: Offset) returns (full: bool)
      requires Valid(View())
      ensures full <==> Full(View(), offset)
    {
      if offset in offsetActor {
        return false;
      }
      if maxOffset - minOffset >= windowLimit {
        return true;
      }
      if minOffset != -1 && offset - minOffset >= windowLimit {
        return true;
      }
      return false;
    }

    /** The window stays valid if the offset has one receiver. */
    method AddOffset(offset: Offset, actorId: ActorId)
      modifies this
      ensures View() == Add(old(View()), offset, actorId)
      ensures Valid(old(View())) && 0 <= offset && SameReceiver(old(View()), offset, actorId) ==> Valid(View())
    {
      if Valid(View()) && 0 <= offset && SameReceiver(View(), offset, actorId) {
        AddKeepsValid(View(), offset, actorId);
      }
      offsetActor := offsetActor[offset := actorId];
      if minOffset == -1 {
        minOffset := offset;
      }
      if maxOffset == -1 || offset > maxOffset {
        maxOffset := offset;
      }
      if actorId !in actorOffsets {
        actorOffsets := actorOffsets[actorId := []];
      }
      var list := actorOffsets[actorId];
      if offset !in list {
        list := list + [offset];
        actorOffsets := actorOffsets[actorId := list];
      }
      assert actorOffsets == Add(old(View()), offset, actorId).actorOffsets;
    }

    /** `slices.Min` is never given an empty list. */
    method GetMinOffset(actorId: ActorId) returns (r: Option<Offset>)
      requires Valid(View())
      ensures r.None? <==> forall o :: o in offsetActor ==> offsetActor[o] != actorId
      ensures r.Some? ==> r.value in offsetActor && offsetActor[r.value] == actorId
      ensures r.Some? ==> forall o :: o in offsetActor && offsetActor[o] == actorId ==> r.value <= o
    {
      if actorId !in actorOffsets {
        forall o | o in offsetActor ensures offsetActor[o] != actorId {
          assert o in ListOf(View(), offsetActor[o]);
        }
        return None;
      }
      var list := actorOffsets[actorId];
      var m := list[0];
      for i := 1 to |list|
        invariant m in list && forall j :: 0 <= j < i ==> m <= list[j]
      {
        if list[i] < m { m := list[i]; }
      }
      assert forall o :: o in ListOf(View(), actorId) <==> o in offsetActor && offsetActor[o] == actorId;
      return Some(m);
    }

    /** The loop of `remove`: drops the leading offsets up to the first one past `upTo`. */
    method DropLeading(offsets: seq<Offset>, upTo: Offset) returns (removed: nat, needAdvance: bool)
      requires forall j :: 0 <= j < |offsets| ==> offsets[j] in offsetActor
      modifies this`offsetActor
      ensures removed == Lead(offsets, upTo)
      ensures offsetActor == old(offsetActor) - (set j | 0 <= j < removed :: offsets[j])
      ensures needAdvance <==> minOffset in old(offsetActor) && minOffset !in offsetActor
    {
      removed, needAdvance := 0, false;
      for i := 0 to |offsets|
        invariant removed == i && forall j :: 0 <= j < i ==> offsets[j] <= upTo
        invariant offsetActor == old(offsetActor) - (set j | 0 <= j < removed :: offsets[j])
        invariant needAdvance <==> minOffset in old(offsetActor) && minOffset !in offsetActor
      {
        var offset := offsets[i];
        if offset > upTo {
          break;
        }
        offsetActor := offsetActor - {offset};
        removed := removed + 1;
        if offset == minOffset {
          needAdvance := true;
        }
      }
      LeadUnique(offsets, upTo, removed);
    }

    method Remove(actorId: ActorId, upTo: Offset) returns (needAdvance: bool)
      requires IndexesAgree(View())
      modifies this
      ensures View() == AfterRemovals(old(View()), map[actorId := upTo])
      ensures needAdvance <==> minOffset in old(offsetActor) && minOffset !in offsetActor
    {
      ghost var was := View();
      FirstDroppedIsRemoval(was, actorId, upTo);
      needAdvance := false;
      if actorId !in actorOffsets || |actorOffsets[actorId]| == 0 {
        assert View() == FirstDropped(was, actorId, 0);
        return;
      }
      var offsets := actorOffsets[actorId];
      assert forall j :: 0 <= j < |offsets| ==> offsets[j] in ListOf(was, actorId);
      var removed;
      removed, needAdvance := DropLeading(offsets, upTo);
      if removed == |offsets| {
        actorOffsets := actorOffsets - {actorId};
        return;
      }
      offsets := offsets[removed..];
      actorOffsets := actorOffsets[actorId := offsets];
    }

    method ResetMinOffset()
      requires forall o :: o in offsetActor ==> 0 <= o
      modifies this`minOffset
      ensures minOffset == if offsetActor == map[] then -1 else MinOf(offsetActor.Keys)
    {
      var newMinOffset := -1;
      var left := offsetActor.Keys;
      while left != {}
        invariant left <= offsetActor.Keys
        invariant newMinOffset == -1 <==> left == offsetActor.Keys
        invariant newMinOffset != -1 ==> newMinOffset in offsetActor
        invariant newMinOffset != -1 ==> forall o :: o in offsetActor && o !in left ==> newMinOffset <= o
        decreases left
      {
        var offset := Choose(left);
        if newMinOffset == -1 || offset < newMinOffset {
          newMinOffset := offset;
        }
        left := left - {offset};
      }
      if newMinOffset == -1 {
        assert offsetActor.Keys == {};
        minOffset := -1;
        return;
      }
      MinOfUnique(offsetActor.Keys, newMinOffset);
      minOffset := newMinOffset;
    }

    /** The loop at the head of `Complete`. */
    method RemoveAll(list: seq<Completion>) returns (needAdvance: bool)
      requires IndexesAgree(View())
      modifies this
      ensures View() == AfterRemovals(old(View()), Reach(list))
      ensures needAdvance <==> minOffset in old(offsetActor) && minOffset !in offsetActor
    {
      ghost var was := View();
      needAdvance := false;
      RemoveNone(was);
      for i := 0 to |list|
        invariant View() == AfterRemovals(was, Reach(list[..i])) && IndexesAgree(View())
        invariant needAdvance <==> minOffset in was.offsetActor && minOffset !in offsetActor
      {
        RemoveOneMore(was, list, i);
        var need := Remove(list[i].actorId, list[i].maxOffset);
        if need {
          needAdvance := true;
        }
      }
      assert list[..|list|] == list;
    }

    method Complete(list: seq<Completion>) returns (nextOffset: Offset, advanced: bool)
      requires Valid(View())
      modifies this
      ensures Valid(View())
      ensures Completed(View(), nextOffset, advanced) == AfterComplete(old(View()), Reach(list))
    {
      CompleteKeepsValid(View(), Reach(list));
      var needAdvance := RemoveAll(list);
      if |offsetActor| == 0 {
        if maxOffset < 0 {
          return 0, false;
        }
        nextOffset := maxOffset + 1;
        minOffset := -1;
        maxOffset := -1;
        return nextOffset, true;
      }
      if needAdvance {
        var before := minOffset;
        ResetMinOffset();
        nextOffset := minOffset;
        advanced := nextOffset > before;
        return nextOffset, advanced;
      }
      return minOffset, false;
    }
  }
}
