/**
  A forward seek that the node makes with the constants of the code and no failing call.  It
  seeks to the oldest in-flight offset of an idle actor without looking at the read position
  (core/node.go:302-319); after another actor's restart has moved the position back, that is a
  seek forward, and `Losses.PassedIsLost` does the rest.
*/
module ForwardSeek {
  import opened Types
  import opened InflightWindow
  import opened ActorModel
  import opened Timers
  import opened NodeModel
  import opened NodeRuns
  import opened Delivery
  import opened Coverage
  import opened AtLeastOnce
  import opened Paths
  import opened Losses
  import opened Safety
  import opened OneShard

  // ---------- the log, the actors and the windows ----------

  const A := ActorId("a")
  const B := ActorId("b")
  const RUN := Command("run")

  function For(a: ActorId, x: Offset, id: string): Message {
    Message(x, a, MessageId(id), RUN)
  }

  const M1 := For(A, 1, "m1")
  const M2 := For(A, 2, "m2")
  const M3 := For(B, 3, "m3")
  const M4 := For(A, 4, "m4")

  /** Messages 1, 2 and 4 are for one actor, 3 for another. */
  function Log(): Env {
    Env(map[], Config(ACTOR_CHANNEL_CAP, ACTOR_DEDUP_CAP, {RUN}), INFLIGHT_WINDOW_LIMIT,
        map[0 := 1], map[0 := map[1 := M1, 2 := M2, 3 := M3, 4 := M4]])
  }

  const H1 := History({1}, {M1.id})
  const S1 := ActorSnapshot(A, 1, [M1.id], H1)
  const SB := ActorSnapshot(B, 0, [], NO_HISTORY)
  const IDLING := [Snapshot(S1), Signal.Idle]
  const STOPPED := [Snapshot(S1), Signal.Stopped]
  const IDLING_B := [Snapshot(SB), Signal.Idle]

  /** An actor with its mailbox, after what it has handled. */
  function Proc0(a: ActorId, box: seq<Mail>, offset: Offset, dedup: seq<MessageId>, phase: Phase, signals: seq<Signal>, h: History): Proc {
    Proc(a, box, false, offset, dedup, TimerState([], None), phase, signals, h)
  }

  function New(m: Message): NodeActor {
    NodeActor(false, None, None, None, Proc0(m.receiver, [Network(m)], 0, [], Running, [], NO_HISTORY))
  }

  /** A after message 1, and on its way out with message 2 to come back to. */
  function Busy(snapshot: Option<ActorSnapshot>, signals: seq<Signal>): NodeActor {
    NodeActor(false, snapshot, None, None, Proc0(A, [], 1, [M1.id], Running, signals, H1))
  }

  function Going(pending: Option<Offset>, phase: Phase, snapshot: Option<ActorSnapshot>, signals: seq<Signal>): NodeActor {
    NodeActor(true, snapshot, None, pending, Proc0(A, [], 1, [M1.id], phase, signals, H1))
  }

  /** B, which handles nothing. */
  function Waiting(snapshot: Option<ActorSnapshot>, box: seq<Mail>, signals: seq<Signal>): NodeActor {
    NodeActor(false, snapshot, None, None, Proc0(B, box, 0, [], Running, signals, NO_HISTORY))
  }

  const W0 := Empty(INFLIGHT_WINDOW_LIMIT)
  const W1 := Window(INFLIGHT_WINDOW_LIMIT, 1, 1, map[1 := A], map[A := [1]])
  const W2 := Window(INFLIGHT_WINDOW_LIMIT, 2, 2, map[2 := A], map[A := [2]])
  const W3 := Window(INFLIGHT_WINDOW_LIMIT, 2, 3, map[2 := A, 3 := B], map[A := [2], B := [3]])

  lemma FirstAdds()
    ensures Add(W0, 1, A) == W1 && Add(W0, 2, A) == W2
  {
    assert [] + [1] == [1] && [] + [2] == [2];
  }

  lemma LaterAdds()
    ensures Add(W2, 3, B) == W3
  {
    assert [] + [3] == [3];
  }

  lemma FirstReleased()
    ensures AfterComplete(W1, map[A := 1]) == Completed(W0, 2, true)
  {
    assert ListOf(W1, A) == [1] && Lead([1], 1) == 1;
    assert Released(W1, map[A := 1], 1);
  }

  lemma Uncut()
    ensures Cut(W3, map[A := 1], A) == 0 && Cut(W3, map[A := 1], B) == 0
    ensures !Released(W3, map[A := 1], 2) && !Released(W3, map[A := 1], 3)
  {
    assert Lead([2], 1) == 0;
  }

  lemma NothingRemoved()
    ensures AfterRemovals(W3, map[A := 1]).offsetActor == W3.offsetActor
    ensures AfterRemovals(W3, map[A := 1]).actorOffsets == W3.actorOffsets
  {
    Uncut();
    assert [2][0..] == [2] && [3][0..] == [3];
  }

  lemma NothingReleased()
    ensures AfterComplete(W3, map[A := 1]) == Completed(W3, 2, false)
  {
    NothingRemoved();
    assert 2 in W3.offsetActor;
  }

  // ---------- the run ----------

  function Pair(x: NodeActor, y: NodeActor): Actors {
    map[A := x, B := y]
  }

  lemma Puts(x: NodeActor, y: NodeActor, z: NodeActor)
    ensures map[A := x][A := z] == map[A := z] && map[][A := x] == map[A := x] && map[A := x][B := y] == Pair(x, y)
    ensures Pair(x, y)[A := z] == Pair(z, y) && Pair(x, y)[B := z] == Pair(x, z)
    ensures Pair(x, y) - {A} == map[B := y] && map[B := y][B := z] == map[B := z]
  {
  }

  /** Read up to `position`, fetched up to 5. */
  function At(position: Offset, commits: seq<Offset>): Partition {
    Partition(position, 5, false, commits)
  }

  function Early(actors: Actors, w: Window, p: Partition): Scene {
    Scene(0, actors, w, None, p, {}, map[])
  }

  function Later(actors: Actors, w: Window, p: Partition): Scene {
    Scene(0, actors, w, None, p, {S1}, map[])
  }

  function Final(b: NodeActor, p: Partition): Scene {
    Scene(0, map[B := b], W3, None, p, {S1}, map[A := H1])
  }

  ghost predicate Reached(law: Law, v: Scene) {
    Reachable(law, Log(), Show(v))
  }

  lemma Arrives(p: Partition, m: Message)
    requires p.position == m.offset < p.polled && m in {M1, M2, M3, M4}
    ensures IsNext(Log(), p, 0, m) && ShardOf(Log(), m.receiver) == 0
  {
  }

  lemma DispatchesFirst(law: Law)
    ensures Reached(law, Early(map[A := New(M1)], W1, At(2, [])))
  {
    var v := Early(map[], W0, Partition(1, 1, false, []));
    Begins(law, Log(), 0, v);
    Polls(law, Log(), v, 5);
    Arrives(At(1, []), M1);
    FirstAdds();
    Puts(New(M1), New(M1), New(M1));
    Dispatches(law, Log(), Early(map[], W0, At(1, [])), M1, New(M1));
  }

  lemma HandlesFirst(law: Law)
    ensures Reached(law, Early(map[A := Busy(None, IDLING)], W1, At(2, [])))
  {
    DispatchesFirst(law);
    assert [Network(M1)][1..] == [] && [] + [M1.id] == [M1.id];
    Puts(New(M1), New(M1), Busy(None, []));
    Acts(law, Log(), Early(map[A := New(M1)], W1, At(2, [])), A, Handles, Busy(None, []));
    Puts(Busy(None, []), New(M1), Busy(None, IDLING));
    Acts(law, Log(), Early(map[A := Busy(None, [])], W1, At(2, [])), A, Idles, Busy(None, IDLING));
  }

  lemma SavesFirst(law: Law)
    ensures Reached(law, Later(map[A := Busy(None, [Signal.Idle])], W0, At(2, [2])))
  {
    HandlesFirst(law);
    var known := Busy(Some(S1), [Signal.Idle]);
    Puts(Busy(None, IDLING), New(M1), known);
    TakesSnapshot(law, Log(), Early(map[A := Busy(None, IDLING)], W1, At(2, [])), A, S1, [Signal.Idle], known);
    FirstReleased();
    Puts(known, New(M1), Busy(None, [Signal.Idle]));
    assert {} + {S1} == {S1} && [] + [2] == [2];
    Ticks(law, Log(), Early(map[A := known], W1, At(2, [])), A, S1, W0, At(2, [2]));
  }

  lemma Stops(law: Law)
    ensures Reached(law, Later(map[A := Going(Some(2), Running, None, [])], W2, At(3, [2])))
  {
    SavesFirst(law);
    var stopping := Going(None, Running, None, []);
    Puts(Busy(None, [Signal.Idle]), New(M1), stopping);
    IdleStops(law, Log(), Later(map[A := Busy(None, [Signal.Idle])], W0, At(2, [2])), A, stopping);
    Arrives(At(2, [2]), M2);
    FirstAdds();
    Puts(stopping, New(M1), Going(Some(2), Running, None, []));
    Dispatches(law, Log(), Later(map[A := stopping], W0, At(2, [2])), M2, Going(Some(2), Running, None, []));
  }

  lemma StartsOther(law: Law)
    ensures Reached(law, Later(Pair(Going(Some(2), Running, None, []), Waiting(None, [Network(M3)], IDLING_B)), W3, At(4, [2])))
  {
    Stops(law);
    var a, b := Going(Some(2), Running, None, []), Waiting(None, [Network(M3)], []);
    Arrives(At(3, [2]), M3);
    LaterAdds();
    Puts(a, b, Waiting(None, [Network(M3)], IDLING_B));
    Dispatches(law, Log(), Later(map[A := a], W2, At(3, [2])), M3, b);
    Acts(law, Log(), Later(Pair(a, b), W3, At(4, [2])), B, Idles, Waiting(None, [Network(M3)], IDLING_B));
  }

  lemma FirstEnds(law: Law)
    ensures Reached(law, Later(Pair(Going(Some(2), Finished, Some(S1), [Signal.Stopped]), Waiting(None, [Network(M3)], IDLING_B)), W3, At(4, [2])))
  {
    StartsOther(law);
    var b := Waiting(None, [Network(M3)], IDLING_B);
    var x, y, z := Going(Some(2), Running, None, []), Going(Some(2), Stopping, None, []), Going(Some(2), Finished, None, STOPPED);
    Puts(x, b, y);
    Acts(law, Log(), Later(Pair(x, b), W3, At(4, [2])), A, TakesStop, y);
    Puts(y, b, z);
    Acts(law, Log(), Later(Pair(y, b), W3, At(4, [2])), A, Finishes, z);
    Puts(z, b, Going(Some(2), Finished, Some(S1), [Signal.Stopped]));
    TakesSnapshot(law, Log(), Later(Pair(z, b), W3, At(4, [2])), A, S1, [Signal.Stopped],
                  Going(Some(2), Finished, Some(S1), [Signal.Stopped]));
  }

  /** The position goes back to message 2, which came while A was stopping. */
  lemma FirstLeaves(law: Law)
    ensures Reached(law, Final(Waiting(None, [Network(M3)], IDLING_B), Partition(2, 2, false, [2])))
  {
    FirstEnds(law);
    var b, x, y := Waiting(None, [Network(M3)], IDLING_B), Going(Some(2), Finished, Some(S1), [Signal.Stopped]), Going(Some(2), Finished, Some(S1), []);
    NothingReleased();
    var v := Later(Pair(x, b), W3, At(4, [2]));
    StoppedSaves(law, Log(), v, A, y, S1, 2, W3, At(4, [2]));
    AfterLeaving(b, x, y);
  }

  lemma AfterLeaving(b: NodeActor, x: NodeActor, y: NodeActor)
    requires y.proc.history == H1
    ensures Left(AfterSaving(Put(Later(Pair(x, b), W3, At(4, [2])), A, y), A, S1, W3, At(4, [2])), A, 2)
         == Final(b, Partition(2, 2, false, [2]))
  {
    Puts(x, b, y);
    Puts(y, b, y.(snapshot := None));
    Puts(y.(snapshot := None), b, b);
    assert {S1} + {S1} == {S1};
    assert map[][A := H1] == map[A := H1];
  }

  const BEFORE := Final(Waiting(Some(SB), [Network(M3)], [Signal.Idle]), Partition(2, 2, false, [2]))

  lemma TellsIdle(law: Law)
    ensures Reached(law, BEFORE)
  {
    FirstLeaves(law);
    var x, y := Waiting(None, [Network(M3)], IDLING_B), Waiting(Some(SB), [Network(M3)], [Signal.Idle]);
    Puts(x, x, y);
    TakesSnapshot(law, Log(), Final(x, BEFORE.p), B, SB, [Signal.Idle], y);
  }

  /** The node seeks to message 3 for B and so skips message 2. */
  const SKIPPED := Final(Waiting(Some(SB), [Network(M3)], []), Partition(3, 3, false, [2]))

  lemma SkipStep()
    ensures IsStep(Log(), Show(BEFORE), TakeIdle(B, CALM), Show(SKIPPED))
    ensures RecycleTarget(Taken(Show(BEFORE), B), B, 0) == Some(3)
  {
    Puts(BEFORE.actors[B], BEFORE.actors[B], SKIPPED.actors[B]);
    IdleSeekStep(Log(), BEFORE, B, 3, SKIPPED.actors[B]);
  }

  // ---------- what it leads to ----------

  lemma WindowAgrees()
    ensures IndexesAgree(W3)
  {
    forall a, o ensures o in ListOf(W3, a) <==> o in W3.offsetActor && W3.offsetActor[o] == a {
      assert ListOf(W3, a) == if a == A then [2] else if a == B then [3] else [];
    }
    assert NoDuplicates([2]) && NoDuplicates([3]);
  }

  lemma WindowIsOk()
    ensures WindowOk(Log(), 0, W3)
  {
    WindowAgrees();
    assert LogAt(Log(), 0, 2) == Some(M2) && LogAt(Log(), 0, 3) == Some(M3);
    assert 2 in W3.offsetActor;
  }

  lemma SnapshotIsHonest()
    ensures StoredOk(Log(), Show(SKIPPED))
  {
    assert HonestSnapshot(Log(), A, S1, H1);
  }

  lemma IsPassed()
    ensures Passed(Log(), Show(SKIPPED), 0, 2)
  {
    WindowIsOk();
    assert LogAt(Log(), 0, 2) == Some(M2);
  }

  lemma IsUndelivered()
    ensures InLog(Log(), 0, 2) && !Delivered(Log(), Show(SKIPPED), 0, 2)
  {
    assert LogAt(Log(), 0, 2) == Some(M2);
    assert HistoryOf(Show(SKIPPED), A) == H1;
  }

  lemma LogGoesOn()
    ensures InLog(Log(), 0, 2) && GoesOn(Log(), Show(SKIPPED), 0, 2, M4)
  {
    assert LogAt(Log(), 0, 2) == Some(M2) && LogAt(Log(), 0, 3) == Some(M3) && LogAt(Log(), 0, 4) == Some(M4);
    assert ListOf(W3, A) == [2];
  }

  lemma LogIsFixed()
    ensures FixedReceivers(Log())
    ensures Log().config == Ensured(Config(0, 0, {RUN})) && Log().windowLimit == INFLIGHT_WINDOW_LIMIT
  {
  }

  /**
    With one fixed receiver per offset, positive offsets and no failing call, at-least-once
    delivery still depends on what seeks skip: a run commits past message 2, which no handler
    has seen.
  */
  lemma ForwardSeeksLose() returns (n: Node)
    ensures FixedReceivers(Log())
    ensures Log().config == Ensured(Config(0, 0, {RUN})) && Log().windowLimit == INFLIGHT_WINDOW_LIMIT
    ensures Reachable(NoCallFails, Log(), n) && Lost(Log(), n, 0, 2)
  {
    LogIsFixed();
    TellsIdle(NoCallFails);
    SkipStep();
    LeadsOn(NoCallFails, Log(), Initial(), Show(BEFORE), TakeIdle(B, CALM), Show(SKIPPED));
    SnapshotIsHonest();
    IsPassed();
    IsUndelivered();
    LogGoesOn();
    n := PassedIsLost(NoCallFails, Log(), Show(SKIPPED), 0, 2, M4);
    LeadsTwice(NoCallFails, Log(), Initial(), Show(SKIPPED), n);
  }

  lemma NothingElseSkipped()
    ensures forall y :: InLog(Log(), 0, y) && 2 <= y < 3 && y != 2 ==> Delivered(Log(), Show(BEFORE), 0, y)
    ensures InLog(Log(), 0, 2) && !Delivered(Log(), Show(BEFORE), 0, 2)
  {
    assert LogAt(Log(), 0, 2) == Some(M2);
    assert HistoryOf(Show(BEFORE), A) == H1;
  }

  /** All steps up to that seek are careful; after it, careful steps are not enough. */
  lemma OneSeekIsEnough()
    ensures Reachable(CarefulSteps, Log(), Show(BEFORE)) && AlwaysHandledAfter(Log(), Show(BEFORE))
    ensures IsStep(Log(), Show(BEFORE), TakeIdle(B, CALM), Show(SKIPPED)) && !AlwaysHandledAfter(Log(), Show(SKIPPED))
  {
    LogIsFixed();
    TellsIdle(CarefulSteps);
    ReachableKept(Log(), Show(BEFORE));
    KeptIsAlwaysHandled(Log(), Show(BEFORE));
    SkipStep();
    IsPassed();
    LogGoesOn();
    NothingElseSkipped();
    IdleSeekIsSafeIff(Log(), Show(BEFORE), B, CALM, Taken(Show(BEFORE), B), Show(SKIPPED), 0, 3, 2, M4);
  }
}
