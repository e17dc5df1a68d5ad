/**
  The actor's timer (core/timer.go): a heap of pending items and one clock armed for the
  head.  Time is a whole number of seconds; a duration `d` set at `now` fires at `now + d`.
*/
module Timers {
  import opened Types
  import opened Schedule
  import opened QuadHeaps

  datatype TimerKey = TimerKey(text: string)

  // ---------- on values ----------

  datatype TimerState<V> = TimerState(arrivals: seq<Item<TimerKey, V>>, armed: Option<int>)

  ghost function NextDue<V>(arrivals: seq<Item<TimerKey, V>>): int
    requires arrivals != []
  {
    arrivals[Earliest(arrivals)].when
  }

  /** `Calibration`: armed for the head, or stopped. */
  ghost function Calibrated<V>(arrivals: seq<Item<TimerKey, V>>): TimerState<V> {
    TimerState(arrivals, if arrivals == [] then None else Some(NextDue(arrivals)))
  }

  ghost function Added<V>(t: TimerState<V>, key: TimerKey, task: V, when: int): TimerState<V> {
    var arrivals := Upserted(t.arrivals, key, task, when);
    if t.arrivals != [] && NextDue(t.arrivals) <= when then t.(arrivals := arrivals) else Calibrated(arrivals)
  }

  ghost function Deleted<V>(t: TimerState<V>, key: TimerKey): TimerState<V> {
    var arrivals := Removed(t.arrivals, key);
    if t.arrivals == [] || t.arrivals[Earliest(t.arrivals)].key != key then t.(arrivals := arrivals)
    else Calibrated(arrivals)
  }

  /** How many of the items, in draining order, are due. */
  ghost function DueCount<V>(drained: seq<Item<TimerKey, V>>, now: int): (n: nat)
    ensures n <= |drained|
    ensures forall i :: 0 <= i < n ==> drained[i].when <= now
    ensures n < |drained| ==> drained[n].when > now
  {
    if drained == [] || drained[0].when > now then 0 else 1 + DueCount(drained[1..], now)
  }

  /** In sorted order everything after the due prefix is not due. */
  lemma DueIsPrefix<V>(arrivals: seq<Item<TimerKey, V>>, now: int, i: nat)
    requires i < |arrivals|
    ensures Drain(arrivals)[i].when <= now <==> i < DueCount(Drain(arrivals), now)
  {
    DrainIsSorted(arrivals);
    DueOfSorted(Drain(arrivals), now, i);
  }

  lemma DueOfSorted<V>(drained: seq<Item<TimerKey, V>>, now: int, i: nat)
    requires SortedByWhen(drained) && i < |drained|
    ensures drained[i].when <= now <==> i < DueCount(drained, now)
  {
  }

  ghost function Moved<V>(arrivals: seq<Item<TimerKey, V>>, now: int, room: nat): (n: nat)
    ensures n <= |arrivals|
  {
    var due := DueCount(Drain(arrivals), now);
    if due <= room then due else room
  }

  /** The trigger loop with `room` free places in the mailbox. */
  ghost function Triggered<V>(t: TimerState<V>, now: int, room: nat): TimerState<V> {
    var left := PopMany(t.arrivals, Moved(t.arrivals, now, room));
    if DueCount(Drain(t.arrivals), now) <= room then Calibrated(left)
    else TimerState(left, Some(now + 1))
  }

  // ---------- never armed late ----------

  datatype TimerOp<V> =
    | AddOp(key: TimerKey, task: V, when: int)
    | DelOp(key: TimerKey)
    | TriggerOp(now: int, room: nat)

  ghost function Apply<V>(t: TimerState<V>, op: TimerOp<V>): TimerState<V> {
    match op
    case AddOp(key, task, when) => Added(t, key, task, when)
    case DelOp(key) => Deleted(t, key)
    case TriggerOp(now, room) => Triggered(t, now, room)
  }

  ghost function RunTimer<V>(ops: seq<TimerOp<V>>): TimerState<V> {
    if ops == [] then TimerState([], None) else Apply(RunTimer(ops[..|ops| - 1]), ops[|ops| - 1])
  }

  /** The moment of the last trigger that met a full mailbox with items still due. */
  ghost function LastFull<V>(ops: seq<TimerOp<V>>): Option<int> {
    if ops == [] then None
    else
      var before, op := ops[..|ops| - 1], ops[|ops| - 1];
      if op.TriggerOp? && DueCount(Drain(RunTimer(before).arrivals), op.now) > op.room then Some(op.now)
      else LastFull(before)
  }

  ghost predicate NotLate<V>(t: TimerState<V>, lastFull: Option<int>) {
    t.arrivals != [] ==>
      && t.armed.Some?
      && (t.armed.value <= NextDue(t.arrivals) || (lastFull.Some? && t.armed.value <= lastFull.value + 1))
  }

  lemma UpsertDue<V>(arrivals: seq<Item<TimerKey, V>>, key: TimerKey, task: V, when: int)
    requires arrivals != [] && NextDue(arrivals) <= when
    ensures Upserted(arrivals, key, task, when) != []
    ensures NextDue(arrivals) <= NextDue(Upserted(arrivals, key, task, when))
  {
  }

  lemma RemoveDue<V>(arrivals: seq<Item<TimerKey, V>>, key: TimerKey)
    requires arrivals != [] && Removed(arrivals, key) != []
    ensures NextDue(arrivals) <= NextDue(Removed(arrivals, key))
  {
  }

  /** For every run of adds, deletions and triggers, a pending item is woken for no later
      than its deadline, or one second after the last trigger that met a full mailbox. */
  lemma {:induction false} TimerNeverLate<V>(ops: seq<TimerOp<V>>)
    ensures NotLate(RunTimer(ops), LastFull(ops))
  {
    if ops != [] {
      var before, op := ops[..|ops| - 1], ops[|ops| - 1];
      var t := RunTimer(before);
      TimerNeverLate(before);
      match op
      case AddOp(key, task, when) =>
        if t.arrivals != [] && NextDue(t.arrivals) <= when { UpsertDue(t.arrivals, key, task, when); }
      case DelOp(key) =>
        if t.arrivals != [] && Removed(t.arrivals, key) != [] { RemoveDue(t.arrivals, key); }
      case TriggerOp(now, room) =>
    }
  }

  // ---------- armed for the head, and for nothing else ----------

  ghost predicate ArmedForHead<V>(t: TimerState<V>) {
    t.armed == if t.arrivals == [] then None else Some(NextDue(t.arrivals))
  }

  /** The two operations after which the clock is set for another moment than the head's
      deadline: an add that moves the only item with that deadline to a later one, and a
      trigger that leaves a due item behind. */
  ghost predicate PutsOff<V>(t: TimerState<V>, op: TimerOp<V>) {
    match op
    case AddOp(key, _, when) =>
      t.arrivals != [] &&
        var e := Earliest(t.arrivals);
        && t.arrivals[e].key == key && t.arrivals[e].when < when
        && forall i :: 0 <= i < |t.arrivals| && t.arrivals[i].when == t.arrivals[e].when ==> i == e
    case DelOp(_) => false
    case TriggerOp(now, room) => DueCount(Drain(t.arrivals), now) > room
  }

  lemma {:induction false} KeysStayDistinct<V>(ops: seq<TimerOp<V>>)
    ensures DistinctKeys(RunTimer(ops).arrivals)
  {
    if ops != [] {
      var t, op := RunTimer(ops[..|ops| - 1]), ops[|ops| - 1];
      KeysStayDistinct(ops[..|ops| - 1]);
      match op
      case AddOp(key, task, when) => UpsertReplaces(t.arrivals, key, task, when);
      case DelOp(key) => RemoveForgets(t.arrivals, key, key);
      case TriggerOp(now, room) => PopsStayDistinct(t.arrivals, Moved(t.arrivals, now, room));
    }
  }

  lemma {:induction false} PopsStayDistinct<V>(arrivals: seq<Item<TimerKey, V>>, n: nat)
    requires DistinctKeys(arrivals) && n <= |arrivals|
    ensures DistinctKeys(PopMany(arrivals, n))
    decreases n
  {
    if n > 0 {
      PopForgets(arrivals, arrivals[Earliest(arrivals)].key);
      PopsStayDistinct(Popped(arrivals), n - 1);
    }
  }

  lemma PopForgets<V>(arrivals: seq<Item<TimerKey, V>>, key: TimerKey)
    requires DistinctKeys(arrivals) && arrivals != []
    ensures DistinctKeys(Popped(arrivals))
    ensures key != arrivals[Earliest(arrivals)].key ==> Lookup(Popped(arrivals), key) == Lookup(arrivals, key)
  {
    RemoveEarliestIsPop(arrivals);
    RemoveForgets(arrivals, arrivals[Earliest(arrivals)].key, key);
  }

  lemma UpsertedHead<V>(arrivals: seq<Item<TimerKey, V>>, key: TimerKey, task: V, when: int)
    requires DistinctKeys(arrivals) && arrivals != [] && NextDue(arrivals) <= when
    ensures NextDue(Upserted(arrivals, key, task, when)) == NextDue(arrivals)
       <==> !PutsOff(TimerState(arrivals, None), AddOp(key, task, when))
  {
    var r, e := Upserted(arrivals, key, task, when), Earliest(arrivals);
    UpsertReplaces(arrivals, key, task, when);
    LookupAt(arrivals, e);
    var h := arrivals[e].when;
    if i :| 0 <= i < |arrivals| && arrivals[i].when == h && arrivals[i].key != key {
      assert r[i] == arrivals[i];
    }
    assert r[Earliest(r)].when >= h;
  }

  lemma RemovedHead<V>(arrivals: seq<Item<TimerKey, V>>, key: TimerKey)
    requires DistinctKeys(arrivals) && arrivals != [] && arrivals[Earliest(arrivals)].key != key
    ensures Removed(arrivals, key) != [] && NextDue(Removed(arrivals, key)) == NextDue(arrivals)
  {
    var r, head := Removed(arrivals, key), arrivals[Earliest(arrivals)];
    LookupAt(arrivals, Earliest(arrivals));
    RemoveForgets(arrivals, key, head.key);
    assert r[PlaceOf(r, head.key)] == head;
    RemoveDue(arrivals, key);
  }

  /** From a clock armed for the head, every operation but those two leaves it so. */
  lemma StaysArmedIff<V>(t: TimerState<V>, op: TimerOp<V>)
    requires ArmedForHead(t) && DistinctKeys(t.arrivals)
    ensures ArmedForHead(Apply(t, op)) <==> !PutsOff(t, op)
  {
    match op
    case AddOp(key, task, when) =>
      if t.arrivals != [] && NextDue(t.arrivals) <= when { UpsertedHead(t.arrivals, key, task, when); }
    case DelOp(key) =>
      if t.arrivals != [] && t.arrivals[Earliest(t.arrivals)].key != key { RemovedHead(t.arrivals, key); }
    case TriggerOp(now, room) =>
      if DueCount(Drain(t.arrivals), now) > room { LeftIsDue(t.arrivals, now, room); }
  }

  lemma LeftIsDue<V>(arrivals: seq<Item<TimerKey, V>>, now: int, room: nat)
    requires DueCount(Drain(arrivals), now) > room
    ensures PopMany(arrivals, room) != [] && NextDue(PopMany(arrivals, room)) <= now
  {
    PopManyLast(arrivals, room);
  }

  /** In every run without those two the clock is armed for exactly the head's deadline. */
  lemma {:induction false} TimerIsExact<V>(ops: seq<TimerOp<V>>)
    requires forall i :: 0 <= i < |ops| ==> !PutsOff(RunTimer(ops[..i]), ops[i])
    ensures ArmedForHead(RunTimer(ops))
  {
    if ops != [] {
      var before := ops[..|ops| - 1];
      forall i | 0 <= i < |before| ensures !PutsOff(RunTimer(before[..i]), before[i]) {
        assert before[..i] == ops[..i];
      }
      TimerIsExact(before);
      KeysStayDistinct(before);
      StaysArmedIff(RunTimer(before), ops[|ops| - 1]);
    }
  }

  /** In every run the clock is stopped exactly when nothing is pending. */
  lemma {:induction false} StoppedIffEmpty<V>(ops: seq<TimerOp<V>>)
    ensures RunTimer(ops).armed.None? <==> RunTimer(ops).arrivals == []
  {
    if ops != [] {
      var t, op := RunTimer(ops[..|ops| - 1]), ops[|ops| - 1];
      StoppedIffEmpty(ops[..|ops| - 1]);
      KeysStayDistinct(ops[..|ops| - 1]);
      match op
      case AddOp(key, task, when) => UpsertReplaces(t.arrivals, key, task, when);
      case DelOp(key) =>
        if t.arrivals != [] && t.arrivals[Earliest(t.arrivals)].key != key { RemovedHead(t.arrivals, key); }
      case TriggerOp(now, room) =>
        if DueCount(Drain(t.arrivals), now) > room { LeftIsDue(t.arrivals, now, room); }
    }
  }

  /** The operation leaves the head alone: it adds nothing before it and does not delete it. */
  ghost predicate BehindHead<V>(t: TimerState<V>, op: TimerOp<V>) {
    match op
    case AddOp(_, _, when) => t.arrivals != [] && NextDue(t.arrivals) <= when
    case DelOp(key) => t.arrivals != [] && t.arrivals[Earliest(t.arrivals)].key != key
    case TriggerOp(_, _) => false
  }

  lemma ClockStays<V>(t: TimerState<V>, op: TimerOp<V>)
    requires BehindHead(t, op)
    ensures Apply(t, op).armed == t.armed
  {
  }

  /** The trigger leaves something due behind. */
  ghost predicate LeavesDue<V>(t: TimerState<V>, op: TimerOp<V>) {
    op.TriggerOp? && DueCount(Drain(t.arrivals), op.now) > op.room
  }

  lemma ClockRetries<V>(t: TimerState<V>, op: TimerOp<V>)
    requires LeavesDue(t, op)
    ensures Apply(t, op).armed == Some(op.now + 1)
  {
  }

  /** The operation at `k` takes the timer from one state to the next and leaves the head alone. */
  ghost predicate StandsAt<V>(states: seq<TimerState<V>>, ops: seq<TimerOp<V>>, k: nat)
    requires k < |ops| && |states| == |ops| + 1
  {
    BehindHead(states[k], ops[k]) && states[k + 1] == Apply(states[k], ops[k])
  }

  /** After a trigger that left something due the clock is set for a second later, and stays so
      until something is added before the head, the head is deleted, or it fires. */
  lemma {:induction false} RetryStands<V>(states: seq<TimerState<V>>, ops: seq<TimerOp<V>>, n: nat)
    requires |states| == |ops| + 1 && 0 < n <= |ops| && LeavesDue(states[0], ops[0]) && states[1] == Apply(states[0], ops[0])
    requires forall k :: 1 <= k < n ==> StandsAt(states, ops, k)
    ensures states[n].armed == Some(ops[0].now + 1)
  {
    if n == 1 {
      ClockRetries(states[0], ops[0]);
    } else {
      RetryStands(states, ops, n - 1);
      assert StandsAt(states, ops, n - 1);
      ClockStays(states[n - 1], ops[n - 1]);
    }
  }

  // ---------- what is pending ----------

  /** The operation neither names the key nor comes when its item is due. */
  ghost predicate Spares<V>(op: TimerOp<V>, key: TimerKey, when: int) {
    match op
    case AddOp(k, _, _) => k != key
    case DelOp(k) => k != key
    case TriggerOp(now, _) => now < when
  }

  lemma {:induction false} PopsSpare<V>(arrivals: seq<Item<TimerKey, V>>, n: nat, now: int, item: Item<TimerKey, V>)
    requires DistinctKeys(arrivals) && n <= DueCount(Drain(arrivals), now) && n <= |arrivals|
    requires Lookup(arrivals, item.key) == Some(item) && now < item.when
    ensures Lookup(PopMany(arrivals, n), item.key) == Some(item)
    decreases n
  {
    if n > 0 {
      assert Drain(arrivals)[1..] == Drain(Popped(arrivals));
      assert Drain(arrivals)[0] == arrivals[Earliest(arrivals)];
      LookupAt(arrivals, Earliest(arrivals));
      PopForgets(arrivals, item.key);
      PopsSpare(Popped(arrivals), n - 1, now, item);
    }
  }

  /** Until it is due, deleted or added again, an added item stays pending as it was added:
      adding a known key again replaces its value and its deadline. */
  lemma {:induction false} AddedStaysPending<V>(ops: seq<TimerOp<V>>, i: nat, key: TimerKey, task: V, when: int)
    requires i < |ops| && ops[i] == AddOp(key, task, when)
    requires forall j :: i < j < |ops| ==> Spares(ops[j], key, when)
    ensures Lookup(RunTimer(ops).arrivals, key) == Some(Item(key, task, when))
  {
    var before, op := ops[..|ops| - 1], ops[|ops| - 1];
    var t := RunTimer(before);
    KeysStayDistinct(before);
    if i == |ops| - 1 {
      UpsertReplaces(t.arrivals, key, task, when);
    } else {
      AddedStaysPending(before, i, key, task, when);
      assert Spares(op, key, when);
      match op
      case AddOp(k, value, later) => UpsertLeavesOthers(t.arrivals, k, value, later, key);
      case DelOp(k) => RemoveForgets(t.arrivals, k, key);
      case TriggerOp(now, room) => PopsSpare(t.arrivals, Moved(t.arrivals, now, room), now, Item(key, task, when));
    }
  }

  // ---------- the timer ----------

  class Timer<V> {
    const heap: QuadHeap<TimerKey, V>
    var armed: Option<int>

    ghost predicate Valid()
      reads this, heap
    {
      heap.Valid()
    }

    ghost function View(): TimerState<V>
      reads this, heap
    {
      TimerState(heap.arrivals, armed)
    }

    constructor ()
      ensures Valid() && fresh(heap) && View() == TimerState([], None)
    {
      heap := new QuadHeap();
      armed := None;
    }

    method Add(key: TimerKey, task: V, when: int, now: int)
      requires Valid() && |heap.arrivals| < MAX_LENGTH
      modifies this, heap
      ensures Valid() && View() == Added(old(View()), key, task, when)
    {
      var peek := heap.Peek();
      var _ := heap.Upsert(key, task, when);
      if peek.Some? && peek.value.when <= when {
        return;
      }
      Calibration(now);
    }

    method Del(key: TimerKey, now: int)
      requires Valid()
      modifies this, heap
      ensures Valid() && View() == Deleted(old(View()), key)
    {
      var peek := heap.Peek();
      var _ := heap.Remove(key);
      if peek.None? || peek.value.key != key {
        return;
      }
      Calibration(now);
    }

    method Remove(key: TimerKey)
      requires Valid()
      modifies heap
      ensures Valid() && heap.arrivals == Removed(old(heap.arrivals), key)
    {
      var _ := heap.Remove(key);
    }

    method RetryAfter(delay: int, now: int)
      modifies this`armed
      ensures armed == Some(now + if delay <= 0 then 1 else delay)
    {
      var d := if delay <= 0 then 1 else delay;
      armed := Some(now + d);
    }

    method Calibration(now: int)
      requires Valid()
      modifies this`armed
      ensures View() == Calibrated(heap.arrivals)
    {
      var peek := heap.Peek();
      if peek.None? {
        armed := None;
        return;
      }
      armed := Some(now + (peek.value.when - now));
    }

    method Peek() returns (r: Option<Item<TimerKey, V>>)
      requires Valid()
      ensures r == if heap.arrivals == [] then None else Some(heap.arrivals[Earliest(heap.arrivals)])
    {
      r := heap.Peek();
    }
  }
}
