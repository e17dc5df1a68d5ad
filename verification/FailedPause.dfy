/**
  A refused pause in a run with the constants of the code in which every seek goes back.  The
  node marks a shard as paused before it asks the broker, and only looks at the mark
  (core/node.go:214-227): if the broker refuses, messages keep coming and are dropped, and one
  that a restart has asked for again is dropped with them.
*/
module FailedPause {
  import opened Types
  import opened InflightWindow
  import opened ActorModel
  import opened Timers
  import opened NodeModel
  import opened NodeRuns
  import opened Delivery
  import opened Coverage
  import opened AtLeastOnce
  import opened Paths
  import opened Losses
  import opened Safety
  import opened OneShard
  import opened ForwardSeek

  // ---------- the log, the actors and the windows ----------

  const N1 := For(B, 1, "m1")
  const N2 := For(A, 2, "m2")
  const N3 := For(A, 3, "m3")
  const N4 := For(A, 4097, "m4")

  /** The last message is as far from the first as the window is wide. */
  function WideLog(): Env {
    Env(map[], Config(ACTOR_CHANNEL_CAP, ACTOR_DEDUP_CAP, {RUN}), INFLIGHT_WINDOW_LIMIT,
        map[0 := 1], map[0 := map[1 := N1, 2 := N2, 3 := N3, 4097 := N4]])
  }

  const H2 := History({2}, {N2.id})
  const HB := History({1}, {N1.id})
  const S2 := ActorSnapshot(A, 2, [N2.id], H2)
  const TB := ActorSnapshot(B, 1, [N1.id], HB)

  /** After handling one message. */
  function Done(m: Message, h: History, snapshot: Option<ActorSnapshot>, signals: seq<Signal>): NodeActor {
    NodeActor(false, snapshot, None, None, Proc0(m.receiver, [], m.offset, [m.id], Running, signals, h))
  }

  /** A on its way out, with message 3 to come back to. */
  function Stopping3(pending: Option<Offset>, phase: Phase, snapshot: Option<ActorSnapshot>, signals: seq<Signal>): NodeActor {
    NodeActor(true, snapshot, None, pending, Proc0(A, [], 2, [N2.id], phase, signals, H2))
  }

  const V1 := Window(INFLIGHT_WINDOW_LIMIT, 1, 1, map[1 := B], map[B := [1]])
  const V12 := Window(INFLIGHT_WINDOW_LIMIT, 1, 2, map[1 := B, 2 := A], map[B := [1], A := [2]])
  const V1b := V1.(maxOffset := 2)
  const V13 := Window(INFLIGHT_WINDOW_LIMIT, 1, 3, map[1 := B, 3 := A], map[B := [1], A := [3]])
  const V3 := Window(INFLIGHT_WINDOW_LIMIT, 3, 3, map[3 := A], map[A := [3]])

  lemma WindowAdds()
    ensures Add(W0, 1, B) == V1 && Add(V1, 2, A) == V12 && Add(V1b, 3, A) == V13
  {
    assert [] + [1] == [1] && [] + [2] == [2] && [] + [3] == [3];
  }

  lemma Cuts12()
    ensures Cut(V12, map[A := 2], A) == 1 && Cut(V12, map[A := 2], B) == 0
    ensures Released(V12, map[A := 2], 2) && !Released(V12, map[A := 2], 1)
  {
    assert Lead([2], 2) == 1;
    assert [2][..1] == [2];
  }

  lemma Completes12()
    ensures AfterComplete(V12, map[A := 2]) == Completed(V1b, 1, false)
  {
    Cuts12();
    assert [1][0..] == [1];
    var r := AfterRemovals(V12, map[A := 2]);
    assert r.offsetActor == map[1 := B];
    assert r.actorOffsets == map[B := [1]];
    assert 1 in r.offsetActor;
  }

  lemma Cuts13A()
    ensures Cut(V13, map[A := 2], A) == 0 && Cut(V13, map[A := 2], B) == 0
    ensures !Released(V13, map[A := 2], 1) && !Released(V13, map[A := 2], 3)
  {
    assert Lead([3], 2) == 0;
  }

  lemma Lists13A()
    ensures AfterRemovals(V13, map[A := 2]).actorOffsets == V13.actorOffsets
  {
    Cuts13A();
    assert [1][0..] == [1] && [3][0..] == [3];
  }

  lemma Offsets13A()
    ensures AfterRemovals(V13, map[A := 2]).offsetActor == V13.offsetActor
  {
    Cuts13A();
  }

  lemma Completes13A()
    ensures AfterComplete(V13, map[A := 2]) == Completed(V13, 1, false)
  {
    Lists13A();
    Offsets13A();
    assert 1 in V13.offsetActor;
  }

  lemma Cuts13B()
    ensures Cut(V13, map[B := 1], A) == 0 && Cut(V13, map[B := 1], B) == 1
    ensures Released(V13, map[B := 1], 1) && !Released(V13, map[B := 1], 3)
  {
    assert Lead([1], 1) == 1;
    assert [1][..1] == [1];
  }

  lemma Lists13B()
    ensures AfterRemovals(V13, map[B := 1]).actorOffsets == map[A := [3]]
  {
    Cuts13B();
    assert [3][0..] == [3];
  }

  lemma Offsets13B()
    ensures AfterRemovals(V13, map[B := 1]).offsetActor == map[3 := A]
  {
    Cuts13B();
  }

  lemma Completes13B()
    ensures AfterComplete(V13, map[B := 1]) == Completed(V3, 3, true)
  {
    Lists13B();
    Offsets13B();
    var r := AfterRemovals(V13, map[B := 1]);
    assert r.offsetActor.Keys == {3};
    assert 3 in r.offsetActor;
    MinOfUnique({3}, 3);
  }

  // ---------- the run ----------

  function Read(position: Offset): Partition {
    Partition(position, 4098, false, [])
  }

  function Shown(actors: Actors, w: Window, p: Partition, stored: set<ActorSnapshot>): Scene {
    Scene(0, actors, w, None, p, stored, map[])
  }

  function Marked(actors: Actors, p: Partition, past: map<ActorId, History>): Scene {
    Scene(0, actors, V13, Some(4097), p, {S2}, past)
  }

  ghost predicate ReachedBack(law: Law, v: Scene) {
    law in {NoSeekForward, CarefulSteps} && Reachable(law, WideLog(), Show(v))
  }

  const WAIT := New(N1)
  const IDLED := [Snapshot(S2), Signal.Idle]
  const ENDED := [Snapshot(S2), Signal.Stopped]
  const IDLED_B := [Snapshot(TB), Signal.Idle]

  lemma AlsoPuts(x: NodeActor, y: NodeActor)
    ensures map[][B := y] == map[B := y] && map[B := y][A := x] == Pair(x, y)
  {
  }

  lemma Comes(p: Partition, m: Message)
    requires m in {N1, N2, N3, N4} && p.position <= m.offset < p.polled
    requires p.position == m.offset || (m == N4 && 3 < p.position)
    ensures IsNext(WideLog(), p, 0, m) && ShardOf(WideLog(), m.receiver) == 0
  {
  }

  lemma DispatchesBoth(law: Law)
    requires law in {NoSeekForward, CarefulSteps}
    ensures ReachedBack(law, Shown(Pair(New(N2), WAIT), V12, Read(3), {}))
  {
    var v := Shown(map[], W0, Partition(1, 1, false, []), {});
    Begins(law, WideLog(), 0, v);
    Polls(law, WideLog(), v, 4098);
    WindowAdds();
    Comes(Read(1), N1);
    AlsoPuts(New(N2), WAIT);
    Dispatches(law, WideLog(), Shown(map[], W0, Read(1), {}), N1, WAIT);
    Comes(Read(2), N2);
    Dispatches(law, WideLog(), Shown(map[B := WAIT], V1, Read(2), {}), N2, New(N2));
  }

  lemma HandlesOne(m: Message, h: History)
    requires h == History({m.offset}, {m.id}) && m.command == RUN
    ensures Stepped(WideLog().config, New(m).proc, Handles) == Done(m, h, None, []).proc
  {
    assert [Network(m)][1..] == [];
    assert [] + [m.id] == [m.id];
    assert {} + {m.offset} == {m.offset} && {} + {m.id} == {m.id};
  }

  lemma HandlesSecond(law: Law)
    requires law in {NoSeekForward, CarefulSteps}
    ensures ReachedBack(law, Shown(Pair(Done(N2, H2, None, IDLED), WAIT), V12, Read(3), {}))
  {
    DispatchesBoth(law);
    var x, y, z := New(N2), Done(N2, H2, None, []), Done(N2, H2, None, IDLED);
    HandlesOne(N2, H2);
    Puts(x, WAIT, y);
    Acts(law, WideLog(), Shown(Pair(x, WAIT), V12, Read(3), {}), A, Handles, y);
    Puts(y, WAIT, z);
    Acts(law, WideLog(), Shown(Pair(y, WAIT), V12, Read(3), {}), A, Idles, z);
  }

  lemma KnowsSecond(law: Law)
    requires law in {NoSeekForward, CarefulSteps}
    ensures ReachedBack(law, Shown(Pair(Done(N2, H2, Some(S2), [Signal.Idle]), WAIT), V12, Read(3), {}))
  {
    HandlesSecond(law);
    var x, y := Done(N2, H2, None, IDLED), Done(N2, H2, Some(S2), [Signal.Idle]);
    Puts(x, WAIT, y);
    TakesSnapshot(law, WideLog(), Shown(Pair(x, WAIT), V12, Read(3), {}), A, S2, [Signal.Idle], y);
  }

  lemma SecondSaved(y: NodeActor, z: NodeActor)
    requires z == y.(snapshot := None)
    ensures AfterSaving(Shown(Pair(y, WAIT), V12, Read(3), {}), A, S2, V1b, Read(3)) == Shown(Pair(z, WAIT), V1b, Read(3), {S2})
  {
    Puts(y, WAIT, z);
    assert {} + {S2} == {S2};
  }

  lemma SavesSecond(law: Law)
    requires law in {NoSeekForward, CarefulSteps}
    ensures ReachedBack(law, Shown(Pair(Done(N2, H2, None, [Signal.Idle]), WAIT), V1b, Read(3), {S2}))
  {
    KnowsSecond(law);
    var y, z := Done(N2, H2, Some(S2), [Signal.Idle]), Done(N2, H2, None, [Signal.Idle]);
    Completes12();
    SecondSaved(y, z);
    Ticks(law, WideLog(), Shown(Pair(y, WAIT), V12, Read(3), {}), A, S2, V1b, Read(3));
  }

  /** A is told to stop, and message 3 comes for it. */
  lemma StopsSecond(law: Law)
    requires law in {NoSeekForward, CarefulSteps}
    ensures ReachedBack(law, Shown(Pair(Stopping3(Some(3), Running, None, []), WAIT), V13, Read(4), {S2}))
  {
    SavesSecond(law);
    var x, y, z := Done(N2, H2, None, [Signal.Idle]), Stopping3(None, Running, None, []), Stopping3(Some(3), Running, None, []);
    Puts(x, WAIT, y);
    IdleStops(law, WideLog(), Shown(Pair(x, WAIT), V1b, Read(3), {S2}), A, y);
    Comes(Read(3), N3);
    WindowAdds();
    Puts(y, WAIT, z);
    Dispatches(law, WideLog(), Shown(Pair(y, WAIT), V1b, Read(3), {S2}), N3, z);
  }

  lemma EndsSecond(law: Law)
    requires law in {NoSeekForward, CarefulSteps}
    ensures ReachedBack(law, Shown(Pair(Stopping3(Some(3), Finished, None, ENDED), WAIT), V13, Read(4), {S2}))
  {
    StopsSecond(law);
    var x, y, z := Stopping3(Some(3), Running, None, []), Stopping3(Some(3), Stopping, None, []), Stopping3(Some(3), Finished, None, ENDED);
    Puts(x, WAIT, y);
    Acts(law, WideLog(), Shown(Pair(x, WAIT), V13, Read(4), {S2}), A, TakesStop, y);
    Puts(y, WAIT, z);
    Acts(law, WideLog(), Shown(Pair(y, WAIT), V13, Read(4), {S2}), A, Finishes, z);
  }

  lemma SavesAgain(law: Law)
    requires law in {NoSeekForward, CarefulSteps}
    ensures ReachedBack(law, Shown(Pair(Stopping3(Some(3), Finished, None, [Signal.Stopped]), WAIT), V13, Read(4), {S2}))
  {
    EndsSecond(law);
    var x, y, z := Stopping3(Some(3), Finished, None, ENDED), Stopping3(Some(3), Finished, Some(S2), [Signal.Stopped]),
                   Stopping3(Some(3), Finished, None, [Signal.Stopped]);
    Puts(x, WAIT, y);
    TakesSnapshot(law, WideLog(), Shown(Pair(x, WAIT), V13, Read(4), {S2}), A, S2, [Signal.Stopped], y);
    Completes13A();
    Puts(y, WAIT, z);
    assert {S2} + {S2} == {S2};
    Ticks(law, WideLog(), Shown(Pair(y, WAIT), V13, Read(4), {S2}), A, S2, V13, Read(4));
  }

  /** The window is full for message 4097 and the broker does not pause; A is gone, and the
      position goes back to message 3. */
  lemma Unpaused(law: Law)
    requires law in {NoSeekForward, CarefulSteps}
    ensures ReachedBack(law, Marked(map[B := WAIT], Partition(3, 3, false, []), map[A := H2]))
  {
    SavesAgain(law);
    var x, y := Stopping3(Some(3), Finished, None, [Signal.Stopped]), Stopping3(Some(3), Finished, None, []);
    Comes(Read(4), N4);
    Refuses(law, WideLog(), Shown(Pair(x, WAIT), V13, Read(4), {S2}), N4);
    Puts(x, WAIT, y);
    Puts(y, WAIT, y);
    assert map[][A := H2] == map[A := H2];
    StoppedLeaves(law, WideLog(), Marked(Pair(x, WAIT), Read(4098), map[]), A, y, 3);
  }

  /** Message 3 is fetched again, and B has told what it has done. */
  const ASKED := Marked(map[B := Done(N1, HB, Some(TB), [Signal.Idle])], Read(3), map[A := H2])

  lemma AsksAgain(law: Law)
    requires law in {NoSeekForward, CarefulSteps}
    ensures ReachedBack(law, ASKED)
  {
    Unpaused(law);
    var x, y, z, p := Done(N1, HB, None, []), Done(N1, HB, None, IDLED_B), Done(N1, HB, Some(TB), [Signal.Idle]), Partition(3, 3, false, []);
    HandlesOne(N1, HB);
    Puts(x, WAIT, x);
    Acts(law, WideLog(), Marked(map[B := WAIT], p, map[A := H2]), B, Handles, x);
    Puts(x, x, y);
    Acts(law, WideLog(), Marked(map[B := x], p, map[A := H2]), B, Idles, y);
    Puts(y, y, z);
    TakesSnapshot(law, WideLog(), Marked(map[B := y], p, map[A := H2]), B, TB, [Signal.Idle], z);
    Polls(law, WideLog(), Marked(map[B := z], p, map[A := H2]), 4098);
  }

  const PASSED := Scene(0, map[B := Done(N1, HB, None, [Signal.Idle])], V3, None, Partition(4097, 4097, false, [3]), {S2, TB}, map[A := H2])

  /** When B's snapshot is saved message 3 is the oldest in flight, and reading resumes behind it. */
  lemma Resumes(position: Offset)
    ensures AfterSaving(ASKED.(p := Read(position)), B, TB, V3, Read(position).(commits := [3])) == PASSED
    ensures Saving(V13, Read(position), B, TB, V3, Read(position).(commits := [3]))
  {
    var x := Done(N1, HB, Some(TB), [Signal.Idle]);
    Completes13B();
    Puts(x, x, Done(N1, HB, None, [Signal.Idle]));
    assert {S2} + {TB} == {S2, TB};
    assert [] + [3] == [3];
  }

  /** Message 3 is dropped, and the one that found the window full as well. */
  lemma ResumesBehind()
    ensures Reachable(NoSeekForward, WideLog(), Show(PASSED))
  {
    AsksAgain(NoSeekForward);
    Comes(Read(3), N3);
    Drops(WideLog(), ASKED, N3);
    Comes(Read(4), N4);
    Drops(WideLog(), ASKED.(p := Read(4)), N4);
    Resumes(4098);
    Ticks(NoSeekForward, WideLog(), ASKED.(p := Read(4098)), B, TB, V3, Read(4098).(commits := [3]));
  }

  // ---------- what it leads to ----------

  lemma Window3IsOk()
    ensures WindowOk(WideLog(), 0, V3)
  {
    forall a, o ensures o in ListOf(V3, a) <==> o in V3.offsetActor && V3.offsetActor[o] == a {
      assert ListOf(V3, a) == if a == A then [3] else [];
    }
    assert NoDuplicates([3]);
    assert LogAt(WideLog(), 0, 3) == Some(N3);
    assert 3 in V3.offsetActor;
  }

  lemma SnapshotsAreHonest()
    ensures StoredOk(WideLog(), Show(PASSED))
  {
    assert HonestSnapshot(WideLog(), A, S2, H2);
    assert HonestSnapshot(WideLog(), B, TB, HB);
  }

  lemma ThirdIsPassed()
    ensures Passed(WideLog(), Show(PASSED), 0, 3)
  {
    Window3IsOk();
    assert LogAt(WideLog(), 0, 3) == Some(N3);
  }

  lemma ThirdIsUndelivered()
    ensures InLog(WideLog(), 0, 3) && !Delivered(WideLog(), Show(PASSED), 0, 3)
  {
    assert LogAt(WideLog(), 0, 3) == Some(N3);
    assert HistoryOf(Show(PASSED), A) == H2;
  }

  lemma WideLogGoesOn()
    ensures InLog(WideLog(), 0, 3) && GoesOn(WideLog(), Show(PASSED), 0, 3, N4)
  {
    assert LogAt(WideLog(), 0, 3) == Some(N3) && LogAt(WideLog(), 0, 4097) == Some(N4);
    assert ListOf(V3, A) == [3];
  }

  lemma WideLogIsFixed()
    ensures FixedReceivers(WideLog())
    ensures WideLog().config == Ensured(Config(0, 0, {RUN})) && WideLog().windowLimit == INFLIGHT_WINDOW_LIMIT
  {
  }

  /**
    With one fixed receiver per offset, positive offsets, and seeks that succeed and never go
    forward, one refused pause is enough: a run commits past message 3, which no handler has
    seen.
  */
  lemma FailedPausesLose() returns (n: Node)
    ensures FixedReceivers(WideLog())
    ensures WideLog().config == Ensured(Config(0, 0, {RUN})) && WideLog().windowLimit == INFLIGHT_WINDOW_LIMIT
    ensures Reachable(NoSeekForward, WideLog(), n) && Lost(WideLog(), n, 0, 3)
  {
    WideLogIsFixed();
    ResumesBehind();
    SnapshotsAreHonest();
    ThirdIsPassed();
    ThirdIsUndelivered();
    WideLogGoesOn();
    n := PassedIsLost(NoSeekForward, WideLog(), Show(PASSED), 0, 3, N4);
    LeadsTwice(NoSeekForward, WideLog(), Initial(), Show(PASSED), n);
  }

  lemma NothingElseDropped()
    ensures forall y :: InLog(WideLog(), 0, y) && 3 < y < 4097 ==> Delivered(WideLog(), Show(ASKED), 0, y)
    ensures InLog(WideLog(), 0, 3) && !Delivered(WideLog(), Show(ASKED), 0, 3)
  {
    assert LogAt(WideLog(), 0, 3) == Some(N3);
    assert HistoryOf(Show(ASKED), A) == H2;
  }

  /** All steps up to the drop of message 3 are careful, the refused pause included; after it,
      careful steps are not enough. */
  lemma OneDropIsEnough()
    ensures Reachable(CarefulSteps, WideLog(), Show(ASKED)) && AlwaysHandledAfter(WideLog(), Show(ASKED))
    ensures var dropped := Show(ASKED.(p := Read(4)));
            IsStep(WideLog(), Show(ASKED), Dispatch(N3, CALM), dropped) && !AlwaysHandledAfter(WideLog(), dropped)
  {
    WideLogIsFixed();
    AsksAgain(CarefulSteps);
    ReachableKept(WideLog(), Show(ASKED));
    KeptIsAlwaysHandled(WideLog(), Show(ASKED));
    var dropped := ASKED.(p := Read(4));
    Comes(Read(3), N3);
    DropStep(WideLog(), ASKED, N3);
    Resumes(4);
    SavesThere(WideLog(), dropped, B, TB, V3, Read(4).(commits := [3]), CALM.(saved := {B}));
    SavedActor(WideLog(), dropped, B, TB, CALM.(saved := {B}));
    ThirdIsPassed();
    WideLogGoesOn();
    NothingElseDropped();
    DropIsSafeIff(WideLog(), Show(ASKED), 0, N3, CALM, Show(dropped), B, Show(PASSED), N4);
  }
}
