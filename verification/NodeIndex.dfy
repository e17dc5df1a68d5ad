/**
  The node's two indexes of its actors and its shutdown, over whole runs.
*/
module NodeIndex {
  import opened Types
  import opened InflightWindow
  import opened ActorModel
  import opened NodeModel
  import opened NodeRuns

  /** An actor is known to the node exactly when its shard lists it; registered shards exist. */
  ghost predicate IndexesMatch(env: Env, n: Node) {
    && (forall a :: a in n.actors ==> ShardOf(env, a) in n.shards && a in n.shards[ShardOf(env, a)].actors)
    && (forall s, a :: s in n.shards && a in n.shards[s].actors ==> ShardOf(env, a) == s && a in n.actors)
    && n.registerShards <= n.shards.Keys <= n.partitions.Keys
  }

  /** A stopping node has told all its actors, and has signalled its end once they are gone. */
  ghost predicate ShutsDown(n: Node) {
    && (n.exited ==> n.stopping)
    && (n.stopping ==> n.registerShards == {} && forall a :: a in n.actors ==> n.actors[a].stopping)
    && n.endSignals == if n.stopping && n.actors == map[] then 1 else 0
  }

  /** Nothing that the two predicates look at has changed. */
  ghost predicate SameShape(n: Node, n': Node) {
    && n'.registerShards == n.registerShards && n'.stopping == n.stopping && n'.exited == n.exited
    && n'.endSignals == n.endSignals
    && n'.actors.Keys == n.actors.Keys && n'.shards.Keys == n.shards.Keys
    && n.partitions.Keys <= n'.partitions.Keys
    && (forall s :: s in n.shards ==> n'.shards[s].actors == n.shards[s].actors)
    && (forall a :: a in n.actors ==> (n.actors[a].stopping ==> n'.actors[a].stopping))
  }

  lemma SameShapeKeeps(env: Env, n: Node, n': Node)
    requires SameShape(n, n') && IndexesMatch(env, n) && ShutsDown(n)
    ensures IndexesMatch(env, n') && ShutsDown(n')
  {
  }

  lemma EmptyByKeys<K, V>(m: map<K, V>, m': map<K, V>)
    requires m.Keys == m'.Keys
    ensures m == map[] <==> m' == map[]
  {
  }

  lemma SameShapeTwice(n: Node, m: Node, n': Node)
    requires SameShape(n, m) && SameShape(m, n')
    ensures SameShape(n, n')
  {
  }

  lemma ReleasedShape(env: Env, n: Node, done: set<ActorId>, s: ShardId, io: Io)
    requires s in n.shards
    ensures ReleasedOn(env, n, done, s, io).shard.actors == n.shards[s].actors
  {
  }

  lemma SavedShape(env: Env, n: Node, done: set<ActorId>, io: Io)
    ensures SameShape(n, Saved(env, n, done, io))
  {
    forall s | s in n.shards ensures ReleasedOn(env, n, done, s, io).shard.actors == n.shards[s].actors {
      ReleasedShape(env, n, done, s, io);
    }
  }

  lemma BatchShape(env: Env, n: Node, io: Io)
    ensures SameShape(n, SnapshotBatch(env, n, io))
  {
    SavedShape(env, n, SavedActors(n, io.saved), io);
  }

  lemma OneShape(env: Env, n: Node, a: ActorId, io: Io)
    ensures SameShape(n, SnapshotOne(env, n, a, io))
  {
    SavedShape(env, n, SavedActors(n, {a}), io);
  }

  lemma RecycleShape(env: Env, n: Node, a: ActorId, io: Io)
    requires a in n.actors && ShardOf(env, a) in n.shards
    ensures SameShape(n, RecycleActor(env, n, a, io))
  {
    var target := RecycleTarget(n, a, ShardOf(env, a));
    if target.Some? {
      SeekShape(n, ShardOf(env, a), target.value, io.seekFails);
    } else if n.actors[a].snapshot.Some? {
      BatchShape(env, n, io);
      StopShape(SnapshotBatch(env, n, io), {a});
      SameShapeTwice(n, SnapshotBatch(env, n, io), StopActors(SnapshotBatch(env, n, io), {a}));
    } else {
      StopShape(n, {a});
    }
  }

  lemma SeekShape(n: Node, shard: ShardId, offset: Offset, fails: bool)
    ensures SameShape(n, Seek(n, shard, offset, fails))
  {
  }

  lemma StopShape(n: Node, ids: set<ActorId>)
    ensures SameShape(n, StopActors(n, ids))
  {
  }

  lemma StartKeeps(env: Env, n: Node, a: ActorId)
    requires IndexesMatch(env, n) && ShutsDown(n)
    requires ShardOf(env, a) in n.registerShards && a !in n.actors
    ensures IndexesMatch(env, StartActor(n, a, ShardOf(env, a))) && ShutsDown(StartActor(n, a, ShardOf(env, a)))
  {
  }

  lemma RemoveKeeps(env: Env, n: Node, a: ActorId)
    requires IndexesMatch(env, n) && ShutsDown(n) && a in n.actors
    ensures IndexesMatch(env, RemoveActor(env, n, a))
    ensures var n' := RemoveActor(env, n, a); ShutsDown(if n.stopping then HandleEnding(n') else n')
  {
    var n' := RemoveActor(env, n, a);
    RemoveKeepsIndexes(env, n, a);
    assert n'.actors.Keys == n.actors.Keys - {a};
    assert n.actors != map[];
    if n'.actors == map[] {} else {}
  }

  lemma RemoveKeepsIndexes(env: Env, n: Node, a: ActorId)
    requires IndexesMatch(env, n) && a in n.actors
    ensures IndexesMatch(env, RemoveActor(env, n, a))
    ensures RemoveActor(env, n, a).stopping == n.stopping
  {
    var shard := ShardOf(env, a);
    if n.shards[shard].actors - {a} == {} && shard !in n.registerShards {
      assert forall b :: b in n.actors && b != a ==> ShardOf(env, b) != shard || b in n.shards[shard].actors - {a};
    } else {
    }
  }

  /** The last actor of a shard that is not registered takes the shard with it, and no other
      actor does. */
  lemma LastTakesShard(env: Env, n: Node, a: ActorId)
    requires IndexesMatch(env, n) && a in n.actors
    ensures var n', s := RemoveActor(env, n, a), ShardOf(env, a);
            && n'.actors == n.actors - {a}
            && (s in n'.shards <==> s in n.registerShards || exists b :: b in n.actors && b != a && ShardOf(env, b) == s)
            && forall t :: t in n.shards && t != s ==> t in n'.shards && n'.shards[t] == n.shards[t]
  {
    var s := ShardOf(env, a);
    if n.shards[s].actors - {a} != {} {
      var b := Pick(n.shards[s].actors - {a});
      assert b in n.actors && ShardOf(env, b) == s;
    }
  }

  lemma AddShape(n: Node, shard: ShardId, offset: Offset, a: ActorId)
    requires shard in n.shards
    ensures SameShape(n, AddInflight(n, shard, offset, a))
  {
  }

  lemma OfferShape(env: Env, n: Node, a: ActorId, m: Message)
    requires a in n.actors
    ensures SameShape(n, Offer(env, n, a, m))
  {
  }

  lemma DeadLetterShape(n: Node, shard: ShardId, m: Message, io: Io)
    requires shard in n.shards
    ensures SameShape(n, DeadLetter(n, shard, m, io))
  {
  }

  lemma DispatchKeeps(env: Env, n: Node, m: Message, io: Io)
    requires IndexesMatch(env, n) && ShutsDown(n)
    ensures IndexesMatch(env, Dispatcher(env, n, m, io)) && ShutsDown(Dispatcher(env, n, m, io))
  {
    var a, shard, n' := m.receiver, ShardOf(env, m.receiver), Dispatcher(env, n, m, io);
    if shard !in n.registerShards || n.shards[shard].pause.Some? {
    } else if Full(n.shards[shard].inflight, m.offset) {
      PauseShardShape(n, shard, m.offset, io.pauseFails);
      SameShapeKeeps(env, n, n');
    } else if a in n.disableActors {
      DeadLetterShape(n, shard, m, io);
      SameShapeKeeps(env, n, n');
    } else if a in n.actors {
      DeliverKeeps(env, n, shard, a, m);
    } else if !io.startFails {
      StartKeeps(env, n, a);
      DeliverKeeps(env, StartActor(n, a, shard), shard, a, m);
    }
  }

  lemma PauseShardShape(n: Node, shard: ShardId, offset: Offset, pauseFails: bool)
    requires shard in n.shards
    ensures SameShape(n, PauseShard(n, shard, offset, pauseFails))
  {
  }

  lemma DeliverKeeps(env: Env, n: Node, shard: ShardId, a: ActorId, m: Message)
    requires IndexesMatch(env, n) && ShutsDown(n) && shard in n.shards && a in n.actors
    ensures var n' := Offer(env, AddInflight(n, shard, m.offset, a), a, m); IndexesMatch(env, n') && ShutsDown(n')
  {
    var added := AddInflight(n, shard, m.offset, a);
    AddShape(n, shard, m.offset, a);
    SameShapeKeeps(env, n, added);
    OfferShape(env, added, a, m);
    SameShapeKeeps(env, added, Offer(env, added, a, m));
  }

  lemma StoppedKeeps(env: Env, n: Node, a: ActorId, io: Io)
    requires IndexesMatch(env, n) && ShutsDown(n) && a in n.actors
    ensures IndexesMatch(env, ReceiveStopped(env, n, a, io)) && ShutsDown(ReceiveStopped(env, n, a, io))
  {
    var saved := SnapshotOne(env, n, a, io);
    OneShape(env, n, a, io);
    SameShapeKeeps(env, n, saved);
    LeavingKeeps(env, saved, a, n.actors[a].pending, io, ReceiveStopped(env, n, a, io));
  }

  lemma LeavingKeeps(env: Env, n: Node, a: ActorId, pending: Option<Offset>, io: Io, n': Node)
    requires IndexesMatch(env, n) && ShutsDown(n) && a in n.actors
    requires var removed := RemoveActor(env, n, a);
             n' == if n.stopping then HandleEnding(removed)
                   else if pending.Some? then Seek(removed, ShardOf(env, a), pending.value, io.seekFails) else removed
    ensures IndexesMatch(env, n') && ShutsDown(n')
  {
    RemoveKeeps(env, n, a);
    AfterRemovalKeeps(env, RemoveActor(env, n, a), ShardOf(env, a), pending, io);
  }

  lemma AfterRemovalKeeps(env: Env, n: Node, shard: ShardId, pending: Option<Offset>, io: Io)
    requires !n.stopping && pending.Some? ==> IndexesMatch(env, n) && ShutsDown(n)
    ensures !n.stopping && pending.Some? ==>
              var n' := Seek(n, shard, pending.value, io.seekFails); IndexesMatch(env, n') && ShutsDown(n')
  {
  }

  lemma StopKeeps(env: Env, n: Node)
    requires IndexesMatch(env, n) && ShutsDown(n)
    ensures IndexesMatch(env, BeforeStop(n)) && ShutsDown(BeforeStop(n))
  {
    forall a | a in n.actors ensures a in ActorsOfShards(n) {
      assert ShardOf(env, a) in n.shards && a in n.shards[ShardOf(env, a)].actors;
    }
    EmptyByKeys(n.actors, StopActors(n.(stopping := true, registerShards := {}), ActorsOfShards(n)).actors);
  }

  lemma LocalKeeps(env: Env, n: Node, a: ActorId, p: Proc)
    requires IndexesMatch(env, n) && ShutsDown(n) && a in n.actors
    ensures IndexesMatch(env, WithProc(n, a, p)) && ShutsDown(WithProc(n, a, p))
  {
  }

  lemma ReadyShape(env: Env, n: Node, a: ActorId, io: Io)
    ensures SameShape(n, ReceiveReady(env, n, a, io))
  {
    if a in n.actors && n.actors[a].pause.Some? {
      var cleared := n.(actors := n.actors[a := n.actors[a].(pause := None)]);
      SeekShape(cleared, ShardOf(env, a), n.actors[a].pause.value, io.seekFails);
      SameShapeTwice(n, cleared, ReceiveReady(env, n, a, io));
    }
  }

  lemma TakenKeeps(env: Env, n: Node, a: ActorId)
    requires IndexesMatch(env, n) && ShutsDown(n) && HasSignal(n, a)
    ensures IndexesMatch(env, Taken(n, a)) && ShutsDown(Taken(n, a))
  {
  }

  lemma TakeReadyKeeps(env: Env, n: Node, a: ActorId, io: Io)
    requires IndexesMatch(env, n) && ShutsDown(n)
    ensures IndexesMatch(env, ReceiveReady(env, n, a, io)) && ShutsDown(ReceiveReady(env, n, a, io))
  {
  }

  lemma TakeIdleKeeps(env: Env, n: Node, a: ActorId, io: Io)
    requires IndexesMatch(env, n) && ShutsDown(n) && a in n.actors
    ensures IndexesMatch(env, RecycleActor(env, n, a, io)) && ShutsDown(RecycleActor(env, n, a, io))
  {
    RecycleShape(env, n, a, io);
    SameShapeKeeps(env, n, RecycleActor(env, n, a, io));
  }

  lemma TakeSnapshotKeeps(env: Env, n: Node, a: ActorId, s: ActorSnapshot)
    requires IndexesMatch(env, n) && ShutsDown(n)
    ensures IndexesMatch(env, ReceiveSnapshot(n, a, s)) && ShutsDown(ReceiveSnapshot(n, a, s))
  {
  }

  lemma BatchKeeps(env: Env, n: Node, io: Io)
    requires IndexesMatch(env, n) && ShutsDown(n)
    ensures IndexesMatch(env, SnapshotBatch(env, n, io)) && ShutsDown(SnapshotBatch(env, n, io))
  {
    BatchShape(env, n, io);
    SameShapeKeeps(env, n, SnapshotBatch(env, n, io));
  }

  lemma AdvancedKeeps(env: Env, n: Node, shard: ShardId, position: Offset)
    requires IndexesMatch(env, n) && ShutsDown(n)
    ensures IndexesMatch(env, Advanced(n, shard, position)) && ShutsDown(Advanced(n, shard, position))
  {
  }

  lemma SubscribeKeeps(env: Env, n: Node, shard: ShardId)
    requires IndexesMatch(env, n) && ShutsDown(n) && !n.stopping && shard !in n.shards
    ensures IndexesMatch(env, Subscribed(env, n, shard)) && ShutsDown(Subscribed(env, n, shard))
  {
  }

  lemma CrashKeeps(env: Env, n: Node)
    ensures IndexesMatch(env, Crashed(n)) && ShutsDown(Crashed(n))
  {
  }

  lemma NodeStepKeeps(env: Env, n: Node, act: Action, n': Node)
    requires UsableConfig(env.config) && IndexesMatch(env, n) && ShutsDown(n) && IsStep(env, n, act, n')
    requires act.TakeReady? || act.TakeIdle? || act.TakeAlive? || act.TakeSnapshot? || act.TakeStopped?
    ensures IndexesMatch(env, n') && ShutsDown(n')
  {
    TakenKeeps(env, n, act.actor);
    match act
    case TakeReady(a, io) => TakeReadyKeeps(env, Taken(n, a), a, io);
    case TakeIdle(a, io) => TakeIdleKeeps(env, Taken(n, a), a, io);
    case TakeAlive(a) =>
    case TakeSnapshot(a) => TakeSnapshotKeeps(env, Taken(n, a), a, NextSignal(n, a).snapshot);
    case TakeStopped(a, io) => StoppedKeeps(env, Taken(n, a), a, io);
  }

  lemma PolledKeeps(env: Env, n: Node, shard: ShardId, upTo: Offset)
    requires IndexesMatch(env, n) && ShutsDown(n)
    ensures IndexesMatch(env, Polled(n, shard, upTo)) && ShutsDown(Polled(n, shard, upTo))
  {
  }

  lemma DispatchStepKeeps(env: Env, n: Node, m: Message, io: Io, n': Node)
    requires IndexesMatch(env, n) && ShutsDown(n)
    requires n' == Dispatcher(env, Read(env, n, m), m, io)
    ensures IndexesMatch(env, n') && ShutsDown(n')
  {
    if InTurn(env, n, m) { AdvancedKeeps(env, n, ShardOf(env, m.receiver), m.offset + 1); }
    DispatchKeeps(env, Read(env, n, m), m, io);
  }

  lemma LogStepKeeps(env: Env, n: Node, act: Action, n': Node)
    requires UsableConfig(env.config) && IndexesMatch(env, n) && ShutsDown(n) && IsStep(env, n, act, n')
    requires act.Subscribe? || act.Poll? || act.Dispatch?
    ensures IndexesMatch(env, n') && ShutsDown(n')
  {
    match act
    case Subscribe(shard) => SubscribeKeeps(env, n, shard);
    case Poll(shard, upTo) => PolledKeeps(env, n, shard, upTo);
    case Dispatch(m, io) => DispatchStepKeeps(env, n, m, io, n');
  }

  lemma StepKeeps(env: Env, n: Node, act: Action, n': Node)
    requires UsableConfig(env.config) && IndexesMatch(env, n) && ShutsDown(n) && IsStep(env, n, act, n')
    ensures IndexesMatch(env, n') && ShutsDown(n')
  {
    match act
    case Subscribe(_) => LogStepKeeps(env, n, act, n');
    case Poll(_, _) => LogStepKeeps(env, n, act, n');
    case Dispatch(_, _) => LogStepKeeps(env, n, act, n');
    case SnapshotTick(io) => BatchKeeps(env, n, io);
    case Stop => StopKeeps(env, n);
    case Exit(io) =>
      BatchKeeps(env, n, io);
      BatchShape(env, n, io);
    case ActorStep(a, step) => LocalKeeps(env, n, a, Stepped(env.config, n.actors[a].proc, step));
    case Crash => CrashKeeps(env, n);
    case _ => NodeStepKeeps(env, n, act, n');
  }

  /** In every state of every run the two indexes match and shutdown is on course. */
  lemma {:induction false} RunsKeepIndexes(env: Env, states: seq<Node>, acts: seq<Action>, i: nat)
    requires IsRun(env, states, acts) && i < |states|
    ensures IndexesMatch(env, states[i]) && ShutsDown(states[i])
  {
    if i > 0 {
      RunsKeepIndexes(env, states, acts, i - 1);
      assert IsStep(env, states[i - 1], acts[i - 1], states[i]);
      StepKeeps(env, states[i - 1], acts[i - 1], states[i]);
    }
  }

  lemma StoppedShrinks(env: Env, n: Node, a: ActorId, io: Io)
    requires a in n.actors
    ensures ReceiveStopped(env, n, a, io).stopping == n.stopping
    ensures ReceiveStopped(env, n, a, io).actors.Keys == n.actors.Keys - {a}
  {
    var saved := SnapshotOne(env, n, a, io);
    OneShape(env, n, a, io);
    RemoveShrinks(env, saved, a);
    var removed := RemoveActor(env, saved, a);
    if n.stopping {
      assert ReceiveStopped(env, n, a, io) == HandleEnding(removed);
    } else if n.actors[a].pending.Some? {
      SeekShape(removed, ShardOf(env, a), n.actors[a].pending.value, io.seekFails);
    }
  }

  lemma RemoveShrinks(env: Env, n: Node, a: ActorId)
    requires a in n.actors
    ensures RemoveActor(env, n, a).stopping == n.stopping && RemoveActor(env, n, a).actors.Keys == n.actors.Keys - {a}
  {
    if ShardOf(env, a) in n.shards {} else {}
  }

  lemma DispatchStarts(env: Env, n: Node, m: Message, io: Io)
    requires n.registerShards == {}
    ensures Dispatcher(env, n, m, io) == n
  {
  }

  lemma StepShrinks(env: Env, n: Node, act: Action, n': Node)
    requires UsableConfig(env.config) && IndexesMatch(env, n) && ShutsDown(n) && IsStep(env, n, act, n')
    requires n.stopping && !act.Crash?
    ensures n'.stopping && n'.actors.Keys <= n.actors.Keys
  {
    match act
    case TakeReady(a, io) => ReadyShape(env, Taken(n, a), a, io);
    case TakeIdle(a, io) => RecycleShape(env, Taken(n, a), a, io);
    case TakeStopped(a, io) => StoppedShrinks(env, Taken(n, a), a, io);
    case SnapshotTick(io) => BatchShape(env, n, io);
    case Exit(io) => BatchShape(env, n, io);
    case Dispatch(m, io) => DispatchStarts(env, Read(env, n, m), m, io);
    case _ =>
  }

  /** Once the node is stopping no actor is started, and the end is signalled exactly once:
      not before the last actor is gone and never again after. */
  lemma {:induction false} ShutdownShrinks(env: Env, states: seq<Node>, acts: seq<Action>, i: nat, j: nat)
    requires IsRun(env, states, acts) && i <= j < |states| && states[i].stopping
    requires forall k :: i <= k < j ==> !acts[k].Crash?
    ensures states[j].stopping && states[j].actors.Keys <= states[i].actors.Keys
    ensures states[j].endSignals == if states[j].actors == map[] then 1 else 0
    decreases j
  {
    RunsKeepIndexes(env, states, acts, j);
    if i < j {
      ShutdownShrinks(env, states, acts, i, j - 1);
      RunsKeepIndexes(env, states, acts, j - 1);
      StepShrinks(env, states[j - 1], acts[j - 1], states[j]);
    }
  }
}
