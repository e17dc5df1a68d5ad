/**
  At-least-once delivery over whole runs: pauses, rewinds, recycling, stops, restarts and
  crashes included, a committed offset leaves nothing behind.
*/
module AtLeastOnce {
  import opened Types
  import opened InflightWindow
  import opened ActorModel
  import opened NodeModel
  import opened NodeRuns
  import opened NodeIndex
  import opened Delivery
  import opened Coverage
  import opened CoverageSteps
  import opened CoverageDispatch
  import opened CoverageSaves

  // ---------- what the broker is asked to keep ----------

  /** The calls a message can be lost by do not fail. */
  ghost predicate NothingFails(act: Action) {
    match act
    case Dispatch(_, io) => !io.startFails
    case TakeReady(_, io) => !io.seekFails
    case TakeStopped(_, io) => !io.seekFails
    case _ => true
  }

  ghost function AfterSave(env: Env, n: Node, act: Action): Node
    requires act.TakeStopped? && HasSignal(n, act.actor)
  {
    SnapshotOne(env, Taken(n, act.actor), act.actor, act.io)
  }

  ghost predicate PauseIsGiven(env: Env, n: Node, a: ActorId) {
    a in n.actors && n.actors[a].pause.Some? ==> GivenSoFar(env, n, a)
  }

  ghost predicate PendingIsGiven(env: Env, n: Node, a: ActorId) {
    a in n.actors && n.actors[a].pending.Some? && !n.stopping ==> GivenSoFar(env, n, a)
  }

  /** The message an actor was to be started for has been given to an earlier instance. */
  ghost predicate StartIsGiven(env: Env, n: Node, m: Message) {
    var s := ShardOf(env, m.receiver);
    InTurn(env, n, m) && Listening(n, s) && m.receiver !in n.actors ==>
      InLog(env, s, m.offset) && Delivered(env, n, s, m.offset) && Accounted(env, n.stored, n.shards[s].inflight, s, m.offset + 1)
  }

  /** Where such a call does fail, nothing is owed that it would have brought back. */
  ghost predicate FailsHarmlessly(env: Env, n: Node, act: Action) {
    match act
    case Dispatch(m, io) => io.startFails ==> StartIsGiven(env, n, m)
    case TakeReady(a, io) => io.seekFails ==> PauseIsGiven(env, n, a)
    case TakeStopped(a, io) => io.seekFails && HasSignal(n, a) ==> PendingIsGiven(env, AfterSave(env, n, act), a)
    case _ => true
  }

  lemma NothingFailsHarmlessly(env: Env, n: Node, act: Action)
    requires NothingFails(act)
    ensures FailsHarmlessly(env, n, act)
  {
  }

  /** What a read position passes over in the step, by a seek or because its shard is marked
      as paused, has been delivered, and so has what a message that comes out of turn passes
      over.  A stopped actor can cause two seeks, one to resume its shard and one to what came
      for it meanwhile. */
  ghost predicate PassesDelivered(env: Env, n: Node, act: Action, n': Node) {
    match act
    case Dispatch(m, _) => OrderIsHarmless(env, n, m)
    case Subscribe(_) => true
    case Crash => true
    case TakeStopped(a, io) =>
      HasSignal(n, a) ==> HarmlessMoves(env, n, AfterSave(env, n, act)) && HarmlessMoves(env, AfterSave(env, n, act), n')
    case _ => HarmlessMoves(env, n, n')
  }

  ghost predicate Careful(env: Env, n: Node, act: Action, n': Node) {
    FailsHarmlessly(env, n, act) && PassesDelivered(env, n, act, n')
  }

  /** The contract as the broker states it: no seek moves a read position forward. */
  ghost predicate Backward(n: Node, n': Node) {
    forall s :: s in n.partitions ==> PartitionOf(n', s).position <= n.partitions[s].position
  }

  /** The message that found the window of a paused shard full, if it comes after `m`. */
  ghost predicate BelowMark(env: Env, n: Node, m: Message) {
    var s := ShardOf(env, m.receiver);
    s in n.registerShards && s in n.shards && n.shards[s].pause.Some? && m.offset < n.shards[s].pause.value
  }

  ghost predicate NeverForward(env: Env, n: Node, act: Action, n': Node) {
    match act
    case Dispatch(m, _) => InTurn(env, n, m) && !BelowMark(env, n, m)
    case Subscribe(_) => true
    case Crash => true
    case TakeStopped(a, io) =>
      HasSignal(n, a) ==> Backward(n, AfterSave(env, n, act)) && Backward(AfterSave(env, n, act), n')
    case _ => Backward(n, n')
  }

  lemma BackwardIsHarmless(env: Env, n: Node, act: Action, n': Node)
    requires NeverForward(env, n, act, n')
    ensures PassesDelivered(env, n, act, n')
  {
  }

  // ---------- the remaining steps ----------

  lemma SubscribedShardOk(env: Env, n: Node, s: ShardId)
    requires FixedReceivers(env) && CommitsOk(env, n)
    ensures var p := PartitionOf(n, s);
            ShardOk(env, s, NodeShard({}, Empty(env.windowLimit), None),
                    Sought(p, Checkpoint(env, p, s)).(paused := false), true, n.stored)
  {
  }

  lemma SubscribedShards(env: Env, n: Node, s: ShardId, n': Node)
    requires FixedReceivers(env) && ShardsOk(env, n) && HeldAccounted(env, n) && CommitsOk(env, n) && IndexesMatch(env, n)
    requires s !in n.shards && n' == Subscribed(env, n, s)
    ensures ShardsOk(env, n') && HeldAccounted(env, n') && CommitsOk(env, n')
  {
    SubscribedShardOk(env, n, s);
    assert forall t :: t != s ==> PartitionOf(n', t) == PartitionOf(n, t);
    forall t | t in n'.shards && t != s
      ensures ShardOk(env, t, n'.shards[t], PartitionOf(n', t), t in n'.registerShards, n'.stored)
    {
      assert ShardOk(env, t, n.shards[t], PartitionOf(n, t), t in n.registerShards, n.stored);
    }
  }

  lemma SubscribedActors(env: Env, n: Node, s: ShardId, n': Node)
    requires ActorsOk(env, n) && IndexesMatch(env, n) && s !in n.shards && n' == Subscribed(env, n, s)
    ensures ActorsOk(env, n')
  {
  }

  lemma SubscribedPositions(env: Env, n: Node, s: ShardId, n': Node)
    requires FixedReceivers(env) && PositionsOk(env, n) && StoredOk(env, n) && CommitsOk(env, n)
    requires s !in n.shards && n' == Subscribed(env, n, s)
    ensures PositionsOk(env, n')
  {
  }

  lemma Subscribes(env: Env, n: Node, s: ShardId, n': Node)
    requires FixedReceivers(env) && Inv(env, n) && IndexesMatch(env, n) && s !in n.shards && n' == Subscribed(env, n, s)
    ensures Inv(env, n')
  {
    SubscribedActors(env, n, s, n');
    SubscribedShards(env, n, s, n');
    SubscribedPositions(env, n, s, n');
    assert forall a :: HistoryOf(n', a) == HistoryOf(n, a);
    SameHistories(env, n, n');
  }

  lemma Crashes(env: Env, n: Node, n': Node)
    requires Inv(env, n) && n' == Crashed(n)
    ensures Inv(env, n')
  {
  }

  lemma StopsAll(env: Env, n: Node, n': Node)
    requires Inv(env, n) && n' == BeforeStop(n)
    ensures Inv(env, n')
  {
    if !n.stopping {
      var stopped := StopActors(n.(stopping := true, registerShards := {}), ActorsOfShards(n));
      StoppedActors(env, n, stopped);
      StoppedRest(env, n, stopped);
      SameNodeInv(env, stopped, n');
    }
  }

  lemma StoppedActors(env: Env, n: Node, n': Node)
    requires ActorsOk(env, n) && n' == StopActors(n.(stopping := true, registerShards := {}), ActorsOfShards(n))
    ensures ActorsOk(env, n')
    ensures forall b :: HistoryOf(n', b) == HistoryOf(n, b)
    ensures forall b :: b in n'.actors ==> b in n.actors && Held(n'.actors[b]) == Held(n.actors[b])
  {
    forall a | a in n'.actors ensures NodeActorOk(env, a, n'.actors[a], false) {
      assert NodeActorOk(env, a, n.actors[a], ShardOf(env, a) in n.registerShards);
    }
  }

  lemma StoppedRest(env: Env, n: Node, n': Node)
    requires Inv(env, n) && n'.stored == n.stored && n'.shards == n.shards && n'.partitions == n.partitions
    requires n'.registerShards == {} && n'.stopping && n'.disableActors == n.disableActors
    requires forall b :: HistoryOf(n', b) == HistoryOf(n, b)
    requires forall b :: b in n'.actors ==> b in n.actors && Held(n'.actors[b]) == Held(n.actors[b])
    ensures Simple(n') && HistoriesOk(env, n') && StoredOk(env, n') && ShardsOk(env, n') && HeldAccounted(env, n')
    ensures PositionsOk(env, n') && CommitsOk(env, n')
  {
  }

  lemma Exits(env: Env, n: Node, io: Io, n': Node)
    requires FixedReceivers(env) && Inv(env, n) && IndexesMatch(env, n)
    requires n' == SnapshotBatch(env, n, io).(exited := true) && HarmlessMoves(env, n, n')
    ensures Inv(env, n')
  {
    var saved := SnapshotBatch(env, n, io);
    assert HarmlessMoves(env, n, saved) by { ExitMoves(env, n, saved, n'); }
    Batches(env, n, io, saved);
    SameNodeInv(env, saved, n');
  }

  lemma ExitMoves(env: Env, n: Node, saved: Node, n': Node)
    requires n' == saved.(exited := true) && HarmlessMoves(env, n, n')
    ensures HarmlessMoves(env, n, saved)
  {
  }

  /** Fields the invariant does not look at. */
  lemma SameNodeInv(env: Env, n: Node, n': Node)
    requires Inv(env, n) && n' == n.(exited := n'.exited, endSignals := n'.endSignals)
    ensures Inv(env, n')
  {
    assert forall t :: PartitionOf(n', t) == PartitionOf(n, t);
    SameActors(env, n, n');
    assert forall a :: HistoryOf(n', a) == HistoryOf(n, a);
    SameHistories(env, n, n');
  }

  lemma Batches(env: Env, n: Node, io: Io, n': Node)
    requires FixedReceivers(env) && Inv(env, n) && IndexesMatch(env, n)
    requires n' == SnapshotBatch(env, n, io) && HarmlessMoves(env, n, n')
    ensures Inv(env, n')
  {
    if !io.saveFails {
      Saves(env, n, SavedActors(n, io.saved), io, n');
    }
  }

  lemma SavesOne(env: Env, n: Node, a: ActorId, io: Io, n': Node)
    requires FixedReceivers(env) && Inv(env, n) && IndexesMatch(env, n)
    requires n' == SnapshotOne(env, n, a, io) && HarmlessMoves(env, n, n')
    ensures Inv(env, n')
  {
    if !io.saveFails {
      Saves(env, n, SavedActors(n, {a}), io, n');
    }
  }

  // ---------- an idle actor ----------

  lemma TargetAccounted(env: Env, n: Node, a: ActorId)
    requires ShardsOk(env, n) && HeldAccounted(env, n) && a in n.actors && ShardOf(env, a) in n.shards
    ensures var s := ShardOf(env, a);
            RecycleTarget(n, a, s).Some? ==> Accounted(env, n.stored, n.shards[s].inflight, s, RecycleTarget(n, a, s).value)
  {
  }

  lemma RecycleStops(env: Env, n: Node, a: ActorId, io: Io, n': Node)
    requires FixedReceivers(env) && Inv(env, n) && IndexesMatch(env, n) && a in n.actors
    requires RecycleTarget(n, a, ShardOf(env, a)).None? && n' == RecycleActor(env, n, a, io) && HarmlessMoves(env, n, n')
    ensures Inv(env, n')
  {
    if n.actors[a].snapshot.Some? {
      var saved := SnapshotBatch(env, n, io);
      BatchHeld(env, n, io, saved);
      StopMoves(env, n, saved, {a}, n');
      Batches(env, n, io, saved);
      StopsOne(env, saved, a, n');
    } else {
      StopsOne(env, n, a, n');
    }
  }

  lemma BatchHeld(env: Env, n: Node, io: Io, n': Node)
    requires n' == SnapshotBatch(env, n, io)
    ensures n'.actors.Keys == n.actors.Keys
    ensures forall b :: b in n.actors ==> n'.actors[b].pause == n.actors[b].pause
  {
  }

  lemma StopMoves(env: Env, n: Node, saved: Node, ids: set<ActorId>, n': Node)
    requires n' == StopActors(saved, ids) && HarmlessMoves(env, n, n')
    ensures HarmlessMoves(env, n, saved)
  {
  }

  lemma SeekMoves(env: Env, n: Node, s: ShardId, q: Offset, n': Node)
    requires s in n.partitions && n' == Seek(n, s, q, false) && HarmlessMoves(env, n, n')
    ensures JumpIsHarmless(env, n, s, q)
  {
  }

  lemma Recycles(env: Env, n: Node, a: ActorId, io: Io, n': Node)
    requires FixedReceivers(env) && Inv(env, n) && IndexesMatch(env, n) && a in n.actors
    requires n' == RecycleActor(env, n, a, io) && HarmlessMoves(env, n, n')
    ensures Inv(env, n')
  {
    var s := ShardOf(env, a);
    var target := RecycleTarget(n, a, s);
    if target.Some? {
      TargetAccounted(env, n, a);
      if !io.seekFails {
        SeekMoves(env, n, s, target.value, n');
        Seeks(env, n, s, target.value, false, n');
      }
    } else {
      RecycleStops(env, n, a, io, n');
    }
  }

  // ---------- a stopped actor ----------

  lemma LeavesAfterSave(env: Env, n: Node, a: ActorId, pending: Option<Offset>, io: Io, removed: Node, n': Node)
    requires FixedReceivers(env) && Inv(env, n) && IndexesMatch(env, n) && ShutsDown(n) && a in n.actors
    requires n.actors[a].proc.phase == Finished && n.actors[a].pending == pending
    requires removed == RemoveActor(env, n, a) && HarmlessMoves(env, n, n')
    requires Repaid(env, n, a, !n.stopping && pending.Some? && !io.seekFails)
    requires n' == if n.stopping then HandleEnding(removed)
                   else if pending.Some? then Seek(removed, ShardOf(env, a), pending.value, io.seekFails) else removed
    ensures Inv(env, n')
  {
    RemoveIsGone(env, n, a, removed);
    var unended := n'.(endSignals := removed.endSignals);
    EndingAside(env, n, n', unended);
    Leaves(env, n, a, !n.stopping && pending.Some? && !io.seekFails, unended);
    SameNodeInv(env, unended, n');
  }

  lemma EndingAside(env: Env, n: Node, n': Node, unended: Node)
    requires unended == n'.(endSignals := unended.endSignals) && HarmlessMoves(env, n, n')
    ensures HarmlessMoves(env, n, unended)
  {
  }

  lemma SaveKeepsRest(env: Env, n: Node, a: ActorId, io: Io, saved: Node)
    requires a in n.actors && saved == SnapshotOne(env, n, a, io)
    ensures a in saved.actors && saved.actors[a].pending == n.actors[a].pending
    ensures saved.actors[a].proc == n.actors[a].proc && saved.stopping == n.stopping
  {
  }

  lemma TakesStopped(env: Env, n: Node, a: ActorId, io: Io, saved: Node, n': Node)
    requires FixedReceivers(env) && Inv(env, n) && IndexesMatch(env, n) && ShutsDown(n) && a in n.actors
    requires n.actors[a].proc.phase == Finished
    requires saved == SnapshotOne(env, n, a, io) && HarmlessMoves(env, n, saved) && HarmlessMoves(env, saved, n')
    requires io.seekFails ==> PendingIsGiven(env, saved, a)
    requires n' == ReceiveStopped(env, n, a, io)
    ensures Inv(env, n')
  {
    SaveKeepsRest(env, n, a, io, saved);
    SavesOne(env, n, a, io, saved);
    OneShape(env, n, a, io);
    SameShapeKeeps(env, n, saved);
    LeavesAfterSave(env, saved, a, n.actors[a].pending, io, RemoveActor(env, saved, a), n');
  }

  // ---------- every step ----------

  lemma TakenMoves(env: Env, n: Node, a: ActorId, n': Node)
    requires HasSignal(n, a) && HarmlessMoves(env, n, n')
    ensures HarmlessMoves(env, Taken(n, a), n')
  {
  }

  ghost predicate KeptSoFar(env: Env, n: Node) {
    FixedReceivers(env) && Inv(env, n) && IndexesMatch(env, n) && ShutsDown(n)
  }

  lemma ReadyKeeps(env: Env, n: Node, a: ActorId, io: Io, taken: Node, n': Node)
    requires KeptSoFar(env, n) && HasSignal(n, a) && taken == Taken(n, a)
    requires n' == ReceiveReady(env, taken, a, io) && HarmlessMoves(env, n, n')
    requires io.seekFails ==> PauseIsGiven(env, n, a)
    ensures Inv(env, n')
  {
    TakesSignal(env, n, a, taken);
    TakenKeeps(env, n, a);
    TakenMoves(env, n, a, n');
    EndsPause(env, taken, a, io, n');
  }

  lemma IdleKeeps(env: Env, n: Node, a: ActorId, io: Io, taken: Node, n': Node)
    requires KeptSoFar(env, n) && HasSignal(n, a) && taken == Taken(n, a) && ShardOf(env, a) in n.shards
    requires n' == RecycleActor(env, taken, a, io) && HarmlessMoves(env, n, n')
    ensures Inv(env, n')
  {
    TakesSignal(env, n, a, taken);
    TakenKeeps(env, n, a);
    TakenMoves(env, n, a, n');
    Recycles(env, taken, a, io, n');
  }

  lemma SnapshotKeeps(env: Env, n: Node, a: ActorId, taken: Node, n': Node)
    requires KeptSoFar(env, n) && HasSignal(n, a) && taken == Taken(n, a) && NextSignal(n, a).Snapshot?
    requires n' == ReceiveSnapshot(taken, a, NextSignal(n, a).snapshot)
    ensures Inv(env, n')
  {
    TakesSignal(env, n, a, taken);
    KeepsSnapshot(env, taken, a, NextSignal(n, a).snapshot, n');
  }

  lemma StoppedKeepsInv(env: Env, n: Node, a: ActorId, io: Io, taken: Node, saved: Node, n': Node)
    requires KeptSoFar(env, n) && HasSignal(n, a) && taken == Taken(n, a) && NextSignal(n, a).Stopped?
    requires saved == SnapshotOne(env, taken, a, io) && n' == ReceiveStopped(env, taken, a, io)
    requires io.seekFails ==> PendingIsGiven(env, saved, a)
    requires HarmlessMoves(env, n, saved) && HarmlessMoves(env, saved, n')
    ensures Inv(env, n')
  {
    TakesSignal(env, n, a, taken);
    TakenKeeps(env, n, a);
    TakenMoves(env, n, a, saved);
    TakesStopped(env, taken, a, io, saved, n');
  }

  lemma SeekingStepKeeps(env: Env, n: Node, act: Action, n': Node)
    requires KeptSoFar(env, n) && IsStep(env, n, act, n') && Careful(env, n, act, n')
    requires act.TakeReady? || act.TakeIdle?
    ensures Inv(env, n')
  {
    match act
    case TakeReady(a, io) => ReadyKeeps(env, n, a, io, Taken(n, a), n');
    case TakeIdle(a, io) => IdleKeeps(env, n, a, io, Taken(n, a), n');
  }

  lemma AliveKeeps(env: Env, n: Node, a: ActorId, n': Node)
    requires KeptSoFar(env, n) && HasSignal(n, a) && n' == Taken(n, a)
    ensures Inv(env, n')
  {
    TakesSignal(env, n, a, n');
  }

  lemma SignalStepKeeps(env: Env, n: Node, act: Action, n': Node)
    requires KeptSoFar(env, n) && IsStep(env, n, act, n') && (act.TakeAlive? || act.TakeSnapshot?)
    ensures Inv(env, n')
  {
    match act
    case TakeAlive(a) => AliveKeeps(env, n, a, n');
    case TakeSnapshot(a) => SnapshotKeeps(env, n, a, Taken(n, a), n');
  }

  lemma ActorStepKeeps(env: Env, n: Node, act: Action, n': Node)
    requires KeptSoFar(env, n) && IsStep(env, n, act, n') && act.ActorStep?
    ensures Inv(env, n')
  {
    ProcSteps(env, n, act.actor, act.step, n');
  }

  lemma NodeStepKeeps(env: Env, n: Node, act: Action, n': Node)
    requires KeptSoFar(env, n) && IsStep(env, n, act, n') && Careful(env, n, act, n')
    requires act.SnapshotTick? || act.Stop? || act.Exit?
    ensures Inv(env, n')
  {
    match act
    case SnapshotTick(io) => Batches(env, n, io, n');
    case Stop => StopsAll(env, n, n');
    case Exit(io) => Exits(env, n, io, n');
  }

  lemma LogStepKeeps(env: Env, n: Node, act: Action, n': Node)
    requires KeptSoFar(env, n) && IsStep(env, n, act, n') && Careful(env, n, act, n')
    requires act.Subscribe? || act.Poll? || act.Dispatch?
    ensures Inv(env, n')
  {
    match act
    case Subscribe(s) => Subscribes(env, n, s, n');
    case Poll(s, upTo) => Polls(env, n, s, upTo, n');
    case Dispatch(m, io) => DispatchKeepsInv(env, n, m, io, n');
  }

  /** The message next in the log, or one out of turn. */
  lemma DispatchKeepsInv(env: Env, n: Node, m: Message, io: Io, n': Node)
    requires KeptSoFar(env, n) && LogAt(env, ShardOf(env, m.receiver), m.offset) == Some(m)
    requires n' == Dispatcher(env, Read(env, n, m), m, io)
    requires OrderIsHarmless(env, n, m) && (io.startFails ==> StartIsGiven(env, n, m))
    ensures Inv(env, n')
  {
    var s := ShardOf(env, m.receiver);
    if io.startFails && Listening(n, s) && m.receiver !in n.actors && !Full(n.shards[s].inflight, m.offset) {
      FailedStartKeeps(env, n, s, m, io, n');
    } else if InTurn(env, n, m) {
      StartsOrNot(env, n, m, io, n');
      DispatcherDoes(env, n, s, m, io.(startFails := false), n');
      Dispatches(env, n, s, m, io.pauseFails, n');
    } else {
      StartsOrNot(env, n, m, io, n');
      StaleKeeps(env, n, s, m, io.(startFails := false), n');
    }
  }

  lemma StartsOrNot(env: Env, n: Node, m: Message, io: Io, n': Node)
    requires n.disableActors == {} && n' == Dispatcher(env, Read(env, n, m), m, io)
    requires var s := ShardOf(env, m.receiver);
             !(io.startFails && Listening(n, s) && m.receiver !in n.actors && !Full(n.shards[s].inflight, m.offset))
    ensures n' == Dispatcher(env, Read(env, n, m), m, io.(startFails := false))
  {
  }

  lemma FailedStartKeeps(env: Env, n: Node, s: ShardId, m: Message, io: Io, n': Node)
    requires KeptSoFar(env, n) && s == ShardOf(env, m.receiver) && Listening(n, s) && m.receiver !in n.actors
    requires io.startFails && !Full(n.shards[s].inflight, m.offset) && StartIsGiven(env, n, m)
    requires n' == Dispatcher(env, Read(env, n, m), m, io)
    ensures Inv(env, n')
  {
    if InTurn(env, n, m) {
      Advances(env, n, s, m, n');
    }
  }

  lemma StepKeepsInv(env: Env, n: Node, act: Action, n': Node)
    requires FixedReceivers(env) && Inv(env, n) && IndexesMatch(env, n) && ShutsDown(n)
    requires IsStep(env, n, act, n') && Careful(env, n, act, n')
    ensures Inv(env, n')
  {
    if act.Subscribe? || act.Poll? || act.Dispatch? {
      LogStepKeeps(env, n, act, n');
    } else if act.TakeReady? || act.TakeIdle? {
      SeekingStepKeeps(env, n, act, n');
    } else if act.TakeAlive? || act.TakeSnapshot? {
      SignalStepKeeps(env, n, act, n');
    } else if act.ActorStep? {
      ActorStepKeeps(env, n, act, n');
    } else if act.TakeStopped? {
      StoppedKeepsInv(env, n, act.actor, act.io, Taken(n, act.actor), AfterSave(env, n, act), n');
    } else if act.Crash? {
      Crashes(env, n, n');
    } else {
      NodeStepKeeps(env, n, act, n');
    }
  }

  ghost predicate CarefulRun(env: Env, states: seq<Node>, acts: seq<Action>) {
    && IsRun(env, states, acts)
    && forall i :: 0 <= i < |acts| ==> Careful(env, states[i], acts[i], states[i + 1])
  }

  lemma InitialInv(env: Env)
    requires FixedReceivers(env)
    ensures Inv(env, Initial())
  {
  }

  lemma {:induction false} RunsKeepInv(env: Env, states: seq<Node>, acts: seq<Action>, i: nat)
    requires FixedReceivers(env) && CarefulRun(env, states, acts) && i < |states|
    ensures Inv(env, states[i])
  {
    if i == 0 {
      InitialInv(env);
    } else {
      RunsKeepInv(env, states, acts, i - 1);
      RunsKeepIndexes(env, states, acts, i - 1);
      assert IsStep(env, states[i - 1], acts[i - 1], states[i]);
      assert Careful(env, states[i - 1], acts[i - 1], states[i]);
      StepKeepsInv(env, states[i - 1], acts[i - 1], states[i]);
    }
  }

  /** The message at `x` went through `handleNetwork` (and so through its handler, if its
      command has one) before a snapshot of its actor was taken that reaches `x` and that
      the store has since reported saved. */
  ghost predicate HandledAndSaved(env: Env, n: Node, shard: ShardId, x: Offset)
    requires LogAt(env, shard, x).Some?
  {
    var m := LogAt(env, shard, x).value;
    exists s :: s in n.stored && Covers(s, m.receiver, x)
      && (m.command in env.config.handlers ==> m.id in s.history.ran)
  }

  /**
    At-least-once.  Whatever a careful run has committed of a partition, at any time, every
    message below it was handled before the saved snapshot that released it was taken.
  */
  lemma CommittedIsHandled(env: Env, states: seq<Node>, acts: seq<Action>, i: nat, s: ShardId, k: nat, x: Offset)
    requires FixedReceivers(env) && CarefulRun(env, states, acts) && i < |states|
    requires s in states[i].partitions && k < |states[i].partitions[s].commits|
    requires LogAt(env, s, x).Some? && x < states[i].partitions[s].commits[k]
    ensures HandledAndSaved(env, states[i], s, x)
  {
    RunsKeepInv(env, states, acts, i);
    var n, m := states[i], LogAt(env, s, x).value;
    assert CoveredBelow(env, n.stored, s, n.partitions[s].commits[k]);
    assert InLog(env, s, x);
    var snapshot :| snapshot in n.stored && Covers(snapshot, m.receiver, x);
    assert HonestSnapshot(env, snapshot.actorId, snapshot, HistoryOf(n, snapshot.actorId));
    assert Sent(env, m.receiver, x);
  }

  /** In particular under the contract of the broker, which moves no read position forward. */
  lemma CommittedIsHandledBackward(env: Env, states: seq<Node>, acts: seq<Action>, i: nat, s: ShardId, k: nat, x: Offset)
    requires FixedReceivers(env) && IsRun(env, states, acts) && i < |states|
    requires forall j :: 0 <= j < |acts| ==> NothingFails(acts[j]) && NeverForward(env, states[j], acts[j], states[j + 1])
    requires s in states[i].partitions && k < |states[i].partitions[s].commits|
    requires LogAt(env, s, x).Some? && x < states[i].partitions[s].commits[k]
    ensures HandledAndSaved(env, states[i], s, x)
  {
    forall j | 0 <= j < |acts| ensures Careful(env, states[j], acts[j], states[j + 1]) {
      BackwardIsHarmless(env, states[j], acts[j], states[j + 1]);
    }
    CommittedIsHandled(env, states, acts, i, s, k, x);
  }
}
