/**
  Whole runs of one in-flight window: any mix of `Add` and `Complete` calls, in the order
  the node issues them.
*/
module WindowRuns {
  import opened Types
  import opened InflightWindow

  datatype Op = AddOp(offset: Offset, actorId: ActorId) | CompleteOp(list: seq<Completion>)

  ghost function Step(w: Window, op: Op): Window {
    match op
    case AddOp(o, a) => Add(w, o, a)
    case CompleteOp(list) => AfterComplete(w, Reach(list)).window
  }

  ghost function After(limit: int, ops: seq<Op>): Window {
    if ops == [] then Empty(limit) else Step(After(limit, ops[..|ops| - 1]), ops[|ops| - 1])
  }

  /** Each offset has one receiver and no offset is negative: all a run has to respect. */
  ghost predicate OneReceiver(ops: seq<Op>) {
    && (forall i :: 0 <= i < |ops| && ops[i].AddOp? ==> 0 <= ops[i].offset)
    && (forall i, j | 0 <= i < |ops| && 0 <= j < |ops| && ops[i].AddOp? && ops[j].AddOp? ::
          ops[i].offset == ops[j].offset ==> ops[i].actorId == ops[j].actorId)
  }

  lemma AfterNext(limit: int, ops: seq<Op>, n: nat)
    requires n < |ops|
    ensures After(limit, ops[..n + 1]) == Step(After(limit, ops[..n]), ops[n])
  {
    assert ops[..n + 1][..n] == ops[..n];
  }

  ghost predicate AddedBefore(ops: seq<Op>, n: nat, o: Offset, a: ActorId)
    requires n <= |ops|
  {
    exists i :: 0 <= i < n && ops[i] == AddOp(o, a)
  }

  /** Over every run the two indexes agree and only added offsets are in flight. */
  lemma {:induction false} RunsStayValid(limit: int, ops: seq<Op>, n: nat)
    requires OneReceiver(ops) && n <= |ops|
    ensures Valid(After(limit, ops[..n]))
    ensures forall o :: o in After(limit, ops[..n]).offsetActor
              ==> AddedBefore(ops, n, o, After(limit, ops[..n]).offsetActor[o])
  {
    if n > 0 {
      RunsStayValid(limit, ops, n - 1);
      AfterNext(limit, ops, n - 1);
      var w, op := After(limit, ops[..n - 1]), ops[n - 1];
      forall o, a | AddedBefore(ops, n - 1, o, a) ensures AddedBefore(ops, n, o, a) {
        var i :| 0 <= i < n - 1 && ops[i] == AddOp(o, a);
      }
      match op
      case AddOp(o, a) =>
        assert AddedBefore(ops, n, o, a);
        AddKeepsValid(w, o, a);
      case CompleteOp(list) =>
        CompleteKeepsValid(w, Reach(list));
    }
  }

  ghost predicate Commits(limit: int, ops: seq<Op>, k: nat) {
    && k < |ops| && ops[k].CompleteOp?
    && AfterComplete(After(limit, ops[..k]), Reach(ops[k].list)).advanced
  }

  /** The next offset committed by the completion at `k`. */
  ghost function CommitAt(limit: int, ops: seq<Op>, k: nat): Offset
    requires Commits(limit, ops, k)
  {
    AfterComplete(After(limit, ops[..k]), Reach(ops[k].list)).nextOffset
  }

  /** The completion at `j` names `a` with an offset at or above `o`. */
  ghost predicate ReleasesAt(ops: seq<Op>, j: nat, o: Offset, a: ActorId) {
    j < |ops| && ops[j].CompleteOp? && exists c :: c in ops[j].list && c.actorId == a && o <= c.maxOffset
  }

  ghost predicate NothingInFlightBelow(w: Window, c: Offset) {
    forall o :: o in w.offsetActor ==> c <= o
  }

  /** The Add at `i` was followed, up to `k`, by a completion that releases its offset. */
  ghost predicate ReleasedAfter(ops: seq<Op>, i: nat, k: nat)
    requires i < |ops| && ops[i].AddOp?
  {
    exists j :: i < j <= k && ReleasesAt(ops, j, ops[i].offset, ops[i].actorId)
  }

  lemma {:induction false} InFlightUntilReleased(limit: int, ops: seq<Op>, i: nat, n: nat)
    requires OneReceiver(ops) && i < n <= |ops| && ops[i].AddOp?
    requires forall j :: i < j < n ==> !ReleasesAt(ops, j, ops[i].offset, ops[i].actorId)
    ensures ops[i].offset in After(limit, ops[..n]).offsetActor
    ensures After(limit, ops[..n]).offsetActor[ops[i].offset] == ops[i].actorId
    decreases n
  {
    AfterNext(limit, ops, n - 1);
    if i < n - 1 {
      InFlightUntilReleased(limit, ops, i, n - 1);
      RunsStayValid(limit, ops, n - 1);
      assert !ReleasesAt(ops, n - 1, ops[i].offset, ops[i].actorId);
      UnreleasedStays(After(limit, ops[..n - 1]), ops[n - 1], ops[i].offset, ops[i].actorId);
    }
  }

  lemma UnreleasedStays(w: Window, op: Op, o: Offset, a: ActorId)
    requires Valid(w) && o in w.offsetActor && w.offsetActor[o] == a
    requires op.AddOp? && op.offset == o ==> op.actorId == a
    requires op.CompleteOp? ==> forall c :: c in op.list && c.actorId == a ==> c.maxOffset < o
    ensures o in Step(w, op).offsetActor && Step(w, op).offsetActor[o] == a
  {
    if op.CompleteOp? {
      UnreachedStays(w, op.list, o);
    }
  }

  lemma UnreachedStays(w: Window, list: seq<Completion>, o: Offset)
    requires Valid(w) && o in w.offsetActor
    requires forall c :: c in list && c.actorId == w.offsetActor[o] ==> c.maxOffset < o
    ensures var after := AfterComplete(w, Reach(list)).window;
            o in after.offsetActor && after.offsetActor[o] == w.offsetActor[o]
  {
    OnlyReachedLeave(w, Reach(list), o);
    ReachIsFurthest(list);
  }

  /**
    Commit coverage.  A committed next offset is at most every offset in flight, and every
    Add of a smaller offset, the latest one included, was followed by a completion of its
    own actor that reached it.
  */
  lemma CommitCoverage(limit: int, ops: seq<Op>, k: nat)
    requires OneReceiver(ops) && Commits(limit, ops, k)
    ensures NothingInFlightBelow(After(limit, ops[..k + 1]), CommitAt(limit, ops, k))
    ensures forall i :: 0 <= i < k && ops[i].AddOp? && ops[i].offset < CommitAt(limit, ops, k) ==>
              ReleasedAfter(ops, i, k)
  {
    RunsStayValid(limit, ops, k);
    AfterNext(limit, ops, k);
    var w := After(limit, ops[..k]);
    NextOffsetIsSafe(w, Reach(ops[k].list));
    forall i | 0 <= i < k && ops[i].AddOp? && ops[i].offset < CommitAt(limit, ops, k)
      ensures ReleasedAfter(ops, i, k)
    {
      if !ReleasedAfter(ops, i, k) {
        InFlightUntilReleased(limit, ops, i, k + 1);
        assert false;
      }
    }
  }

  /** What is in flight was never exhausted from `i` to `k`. */
  ghost predicate BusyFrom(limit: int, ops: seq<Op>, i: nat, k: nat)
    requires k <= |ops|
  {
    forall j :: i < j <= k ==> After(limit, ops[..j]).offsetActor != map[]
  }

  lemma {:induction false} LargestSeen(limit: int, ops: seq<Op>, i: nat, k: nat)
    requires OneReceiver(ops) && i < k <= |ops| && ops[i].AddOp? && BusyFrom(limit, ops, i, k)
    ensures ops[i].offset <= After(limit, ops[..k]).maxOffset
    decreases k
  {
    AfterNext(limit, ops, k - 1);
    RunsStayValid(limit, ops, k - 1);
    var w := After(limit, ops[..k - 1]);
    if i < k - 1 {
      LargestSeen(limit, ops, i, k - 1);
    }
    assert After(limit, ops[..k]).offsetActor != map[];
    match ops[k - 1]
    case AddOp(o, a) =>
    case CompleteOp(list) => EndsAfterComplete(w, Reach(list));
  }

  /** A commit leaves nothing out: an offset added since the window was last empty is below it
      exactly when it is below everything left in flight. */
  lemma CommitReachesAllReleased(limit: int, ops: seq<Op>, k: nat, i: nat)
    requires OneReceiver(ops) && Commits(limit, ops, k) && i < k && ops[i].AddOp? && BusyFrom(limit, ops, i, k)
    ensures ops[i].offset < CommitAt(limit, ops, k)
       <==> NothingInFlightBelow(After(limit, ops[..k + 1]), ops[i].offset + 1)
  {
    RunsStayValid(limit, ops, k);
    AfterNext(limit, ops, k);
    LargestSeen(limit, ops, i, k);
    var w, reach := After(limit, ops[..k]), Reach(ops[k].list);
    NextOffsetIsSafe(w, reach);
    if NothingInFlightBelow(AfterComplete(w, reach).window, ops[i].offset + 1) {
      NextOffsetIsTight(w, reach, ops[i].offset + 1);
    }
  }

  // ---------- guarded runs ----------

  /** The next offsets committed by a run, in order. */
  ghost function CommitLog(limit: int, ops: seq<Op>): seq<Offset> {
    if ops == [] then []
    else
      var init, last := ops[..|ops| - 1], ops[|ops| - 1];
      CommitLog(limit, init) + CommitOf(After(limit, init), last)
  }

  ghost function CommitOf(w: Window, op: Op): seq<Offset> {
    if op.CompleteOp? && AfterComplete(w, Reach(op.list)).advanced then
      [AfterComplete(w, Reach(op.list)).nextOffset]
    else []
  }

  ghost function Last(log: seq<Offset>): Offset {
    if log == [] then -1 else log[|log| - 1]
  }

  /** An Add passes `Full` and is not below what is in flight, or already committed. */
  ghost predicate GuardedAdd(w: Window, committed: Offset, o: Offset) {
    && !Full(w, o)
    && (if w.offsetActor == map[] then committed <= o else w.minOffset <= o)
  }

  ghost predicate Guarded(limit: int, ops: seq<Op>) {
    forall i :: 0 <= i < |ops| ==> GuardedAt(limit, ops, i)
  }

  ghost predicate GuardedAt(limit: int, ops: seq<Op>, i: nat)
    requires i < |ops|
  {
    ops[i].AddOp? ==> GuardedAdd(After(limit, ops[..i]), Last(CommitLog(limit, ops[..i])), ops[i].offset)
  }

  ghost predicate ExactAndBounded(w: Window, committed: Offset) {
    && (forall o :: o in w.offsetActor ==> w.minOffset <= o)
    && (w.offsetActor != map[] ==> committed <= w.minOffset && w.maxOffset - w.minOffset < w.windowLimit)
  }

  lemma LimitIsFixed(limit: int, ops: seq<Op>)
    ensures After(limit, ops).windowLimit == limit
  {
  }

  lemma CommitLogNext(limit: int, ops: seq<Op>, n: nat)
    requires n < |ops|
    ensures CommitLog(limit, ops[..n + 1]) == CommitLog(limit, ops[..n]) + CommitOf(After(limit, ops[..n]), ops[n])
  {
    assert ops[..n + 1][..n] == ops[..n];
  }

  ghost predicate StrictlyIncreasing(log: seq<Offset>) {
    forall i, j :: 0 <= i < j < |log| ==> log[i] < log[j]
  }

  ghost predicate GuardKept(limit: int, ops: seq<Op>, n: nat)
    requires n <= |ops|
  {
    && ExactAndBounded(After(limit, ops[..n]), Last(CommitLog(limit, ops[..n])))
    && StrictlyIncreasing(CommitLog(limit, ops[..n]))
  }

  lemma GuardedNext(limit: int, ops: seq<Op>, n: nat, w: Window, log: seq<Offset>)
    requires n < |ops| && 0 < limit && w == After(limit, ops[..n]) && log == CommitLog(limit, ops[..n])
    requires Valid(w) && GuardKept(limit, ops, n) && GuardedAt(limit, ops, n) && (ops[n].AddOp? ==> 0 <= ops[n].offset)
    ensures GuardKept(limit, ops, n + 1)
  {
    AfterNext(limit, ops, n);
    CommitLogNext(limit, ops, n);
    LimitIsFixed(limit, ops[..n]);
    GuardedStep(w, log, ops[n]);
  }

  /** In a guarded run `minOffset` is the true minimum, the window spans less than its limit,
      and committed offsets strictly increase. */
  lemma {:induction false} GuardedRun(limit: int, ops: seq<Op>, n: nat)
    requires OneReceiver(ops) && Guarded(limit, ops) && 0 < limit && n <= |ops|
    ensures ExactAndBounded(After(limit, ops[..n]), Last(CommitLog(limit, ops[..n])))
    ensures StrictlyIncreasing(CommitLog(limit, ops[..n]))
  {
    if n > 0 {
      GuardedRun(limit, ops, n - 1);
      RunsStayValid(limit, ops, n - 1);
      assert GuardedAt(limit, ops, n - 1);
      GuardedNext(limit, ops, n - 1, After(limit, ops[..n - 1]), CommitLog(limit, ops[..n - 1]));
    }
  }

  lemma GuardedStep(w: Window, log: seq<Offset>, op: Op)
    requires Valid(w) && ExactAndBounded(w, Last(log)) && StrictlyIncreasing(log) && 0 < w.windowLimit
    requires op.AddOp? ==> 0 <= op.offset && GuardedAdd(w, Last(log), op.offset)
    ensures ExactAndBounded(Step(w, op), Last(log + CommitOf(w, op)))
    ensures StrictlyIncreasing(log + CommitOf(w, op))
  {
    match op
    case AddOp(o, a) =>
      assert log + [] == log;
      GuardedAddIsExact(w, o, a, Last(log));
    case CompleteOp(list) =>
      ExactComplete(w, Reach(list), Last(log));
      if AfterComplete(w, Reach(list)).advanced {
        Append(log, AfterComplete(w, Reach(list)).nextOffset);
      } else {
        assert log + [] == log;
      }
  }

  lemma Append(log: seq<Offset>, next: Offset)
    requires StrictlyIncreasing(log) && Last(log) < next
    ensures StrictlyIncreasing(log + [next]) && Last(log + [next]) == next
  {
  }

  lemma GuardedAddIsExact(w: Window, o: Offset, a: ActorId, committed: Offset)
    requires Valid(w) && ExactAndBounded(w, committed) && 0 < w.windowLimit && 0 <= o
    requires GuardedAdd(w, committed, o)
    ensures ExactAndBounded(Add(w, o, a), committed)
  {
  }

  lemma ExactComplete(w: Window, reach: Reaches, committed: Offset)
    requires Valid(w) && ExactAndBounded(w, committed)
    ensures var c := AfterComplete(w, reach);
            ExactAndBounded(c.window, if c.advanced then c.nextOffset else committed)
    ensures var c := AfterComplete(w, reach); c.advanced ==> committed < c.nextOffset
  {
  }

  /** After the window has emptied, an offset added and completed commits its successor; the
      commits go on increasing exactly when it is not below the last committed offset. */
  lemma CommitsGoBackIff(limit: int, ops: seq<Op>, o: Offset, a: ActorId)
    requires OneReceiver(ops) && After(limit, ops).offsetActor == map[] && 0 <= o
    ensures var before, after := CommitLog(limit, ops), CommitLog(limit, ops + AddThenComplete(o, a));
            && after == before + [o + 1]
            && (StrictlyIncreasing(after) <==> StrictlyIncreasing(before) && Last(before) <= o)
            && (o + 1 <= Last(before) <==> o < Last(before))
  {
    EmptiedWindow(limit, ops);
    AddThenCompleteCommits(limit, ops, o, a);
    IncreasesIff(CommitLog(limit, ops), o + 1);
  }

  lemma EmptiedWindow(limit: int, ops: seq<Op>)
    requires OneReceiver(ops) && After(limit, ops).offsetActor == map[]
    ensures After(limit, ops) == Empty(limit)
  {
    assert ops[..|ops|] == ops;
    RunsStayValid(limit, ops, |ops|);
    LimitIsFixed(limit, ops);
    NothingListed(After(limit, ops));
  }

  lemma IncreasesIff(log: seq<Offset>, next: Offset)
    requires 0 < next
    ensures StrictlyIncreasing(log + [next]) <==> StrictlyIncreasing(log) && Last(log) < next
  {
    var longer := log + [next];
    if StrictlyIncreasing(longer) {
      forall i, j | 0 <= i < j < |log| ensures log[i] < log[j] {
        assert longer[i] < longer[j];
      }
      assert log != [] ==> longer[|log| - 1] < longer[|log|];
    } else if StrictlyIncreasing(log) && Last(log) < next {
      Append(log, next);
    }
  }

  function AddThenComplete(o: Offset, a: ActorId): seq<Op> {
    [AddOp(o, a), CompleteOp([Completion(a, o)])]
  }

  lemma AddThenCompleteCommits(limit: int, ops: seq<Op>, o: Offset, a: ActorId)
    requires After(limit, ops) == Empty(limit) && 0 <= o
    ensures After(limit, ops + AddThenComplete(o, a)) == Empty(limit)
    ensures CommitLog(limit, ops + AddThenComplete(o, a)) == CommitLog(limit, ops) + [o + 1]
  {
    var n, all := |ops|, ops + AddThenComplete(o, a);
    assert all[..n] == ops && all[..n + 2] == all;
    AfterNext(limit, all, n);
    AfterNext(limit, all, n + 1);
    CommitLogNext(limit, all, n);
    CommitLogNext(limit, all, n + 1);
    LoneOffset(Empty(limit), o, a);
  }

  lemma LoneOffset(w: Window, o: Offset, a: ActorId)
    requires w == Empty(w.windowLimit) && 0 <= o
    ensures AfterComplete(Add(w, o, a), Reach([Completion(a, o)])) == Completed(w, o + 1, true)
  {
  }

  // ---------- ascending adds ----------

  ghost predicate Ascending(list: seq<Offset>) {
    forall i, j :: 0 <= i < j < |list| ==> list[i] < list[j]
  }

  /** With ascending per-actor adds a completion removes exactly the offsets it reaches. */
  lemma AscendingCutIsExact(w: Window, reach: Reaches, o: Offset)
    requires IndexesAgree(w) && o in w.offsetActor && Ascending(ListOf(w, w.offsetActor[o]))
    ensures var a := w.offsetActor[o];
            o !in AfterRemovals(w, reach).offsetActor <==> a in reach && o <= reach[a]
  {
    var a := w.offsetActor[o];
    assert o in ListOf(w, a);
    ReleasedIffInLead(w, reach, a, o);
    if a in reach {
      var list, k := ListOf(w, a), Lead(ListOf(w, a), reach[a]);
      var i :| 0 <= i < |list| && list[i] == o;
      assert o in list[..k] <== i < k;
      assert o in list[k..] <== k <= i by { if k <= i { assert list[k..][i - k] == o; } }
    }
  }

  ghost predicate AscendingAdds(limit: int, ops: seq<Op>) {
    forall i :: 0 <= i < |ops| && ops[i].AddOp? ==>
      var list := ListOf(After(limit, ops[..i]), ops[i].actorId);
      ops[i].offset in list || forall x :: x in list ==> x < ops[i].offset
  }

  lemma {:induction false} AscendingAddsKeepListsAscending(limit: int, ops: seq<Op>, n: nat, a: ActorId)
    requires AscendingAdds(limit, ops) && n <= |ops|
    ensures Ascending(ListOf(After(limit, ops[..n]), a))
  {
    if n > 0 {
      AscendingAddsKeepListsAscending(limit, ops, n - 1, a);
      AfterNext(limit, ops, n - 1);
      var w := After(limit, ops[..n - 1]);
      match ops[n - 1]
      case AddOp(o, b) => AddKeepsAscending(w, o, b, a);
      case CompleteOp(list) => CutKeepsAscending(w, Reach(list), a);
    }
  }

  lemma AddKeepsAscending(w: Window, o: Offset, b: ActorId, a: ActorId)
    requires Ascending(ListOf(w, a))
    requires o in ListOf(w, b) || forall x :: x in ListOf(w, b) ==> x < o
    ensures Ascending(ListOf(Add(w, o, b), a))
  {
    if a == b && o !in ListOf(w, a) {
      var list := ListOf(w, a);
      assert ListOf(Add(w, o, b), a) == list + [o];
      forall i | 0 <= i < |list| ensures list[i] < o { assert list[i] in list; }
    }
  }

  lemma CutKeepsAscending(w: Window, reach: Reaches, a: ActorId)
    requires Ascending(ListOf(w, a))
    ensures Ascending(ListOf(AfterComplete(w, reach).window, a))
  {
    var list, k := ListOf(w, a), Cut(w, reach, a);
    CutList(w, reach, a);
    SuffixAscending(list, k);
    SameListAfter(w, reach, a);
  }

  lemma SameListAfter(w: Window, reach: Reaches, a: ActorId)
    ensures ListOf(AfterComplete(w, reach).window, a) == ListOf(AfterRemovals(w, reach), a)
  {
  }

  lemma SuffixAscending(list: seq<Offset>, k: nat)
    requires Ascending(list) && k <= |list|
    ensures Ascending(list[k..])
  {
    forall i, j | 0 <= i < j < |list| - k ensures list[k..][i] < list[k..][j] {
      assert list[k..][i] == list[k + i] && list[k..][j] == list[k + j];
    }
  }
}
