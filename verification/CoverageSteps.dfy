/**
  Each kind of change a step makes to the node keeps the invariant of `Coverage`.
*/
module CoverageSteps {
  import opened Types
  import opened InflightWindow
  import opened ActorModel
  import opened NodeModel
  import opened NodeRuns
  import opened NodeIndex
  import opened Delivery
  import opened Coverage

  // ---------- one actor changes ----------

  /** Nothing given to the actor is taken back, and what was held back still is. */
  ghost predicate KeepsPromises(na: NodeActor, na': NodeActor) {
    && Grows(na.proc.history, na'.proc.history)
    && Reached(na.proc) <= Reached(na'.proc)
    && (Held(na).Some? ==> Held(na').Some? && Held(na').value <= Held(na).value)
  }

  lemma ActorHistories(n: Node, a: ActorId, na: NodeActor, n': Node, b: ActorId)
    requires a in n.actors && n' == n.(actors := n.actors[a := na]) && KeepsPromises(n.actors[a], na)
    ensures Grows(HistoryOf(n, b), HistoryOf(n', b)) && ReachedOf(n, b) <= ReachedOf(n', b)
    ensures b != a ==> HistoryOf(n', b) == HistoryOf(n, b)
  {
  }

  lemma ActorDelivered(env: Env, n: Node, a: ActorId, na: NodeActor, n': Node, s: ShardId, b: Offset)
    requires a in n.actors && n' == n.(actors := n.actors[a := na]) && KeepsPromises(n.actors[a], na)
    requires DeliveredBelow(env, n, s, b)
    ensures DeliveredBelow(env, n', s, b)
  {
  }

  lemma ActorChanges(env: Env, n: Node, a: ActorId, na: NodeActor, n': Node)
    requires Inv(env, n) && a in n.actors && n' == n.(actors := n.actors[a := na])
    requires KeepsPromises(n.actors[a], na)
    requires NodeActorOk(env, a, na, ShardOf(env, a) in n.registerShards)
    requires ShardOf(env, a) in n.shards && Held(na).Some? && Held(na) != Held(n.actors[a]) ==>
               Accounted(env, n.stored, n.shards[ShardOf(env, a)].inflight, ShardOf(env, a), Held(na).value)
    ensures Inv(env, n')
  {
    assert HistoriesOk(env, n') by {
      forall b ensures Knows(env, b, HistoryOf(n', b)) {
        ActorHistories(n, a, na, n', b);
      }
    }
    assert StoredOk(env, n') by {
      forall s | s in n'.stored ensures HonestSnapshot(env, s.actorId, s, HistoryOf(n', s.actorId)) {
        ActorHistories(n, a, na, n', s.actorId);
        HonestLater(env, s.actorId, s, HistoryOf(n, s.actorId), HistoryOf(n', s.actorId));
      }
    }
    assert PositionsOk(env, n') by {
      forall s | s in n'.registerShards && s in n'.shards
        ensures DeliveredBelow(env, n', s, Frontier(n'.shards[s], PartitionOf(n', s)))
      {
        ActorDelivered(env, n, a, na, n', s, Frontier(n.shards[s], PartitionOf(n, s)));
      }
    }
  }

  lemma ProcSteps(env: Env, n: Node, a: ActorId, step: ProcStep, n': Node)
    requires FixedReceivers(env) && Inv(env, n) && a in n.actors && CanStep(env.config, n.actors[a], step)
    requires n' == WithProc(n, a, Stepped(env.config, n.actors[a].proc, step))
    ensures Inv(env, n')
  {
    var na := n.actors[a];
    SteppedOk(env, a, na, step);
    var na' := na.(proc := Stepped(env.config, na.proc, step));
    if na.snapshot.Some? {
      HonestLater(env, a, na.snapshot.value, na.proc.history, na'.proc.history);
    }
    ActorChanges(env, n, a, na', n');
  }

  lemma SteppedOk(env: Env, a: ActorId, na: NodeActor, step: ProcStep)
    requires FixedReceivers(env) && ProcOk(env, a, na.proc) && CanStep(env.config, na, step)
    requires na.proc.phase != Running ==> na.stopping
    ensures var p := Stepped(env.config, na.proc, step);
            && ProcOk(env, a, p) && Grows(na.proc.history, p.history) && Reached(na.proc) <= Reached(p)
            && (p.phase != Running ==> na.stopping)
  {
    match step
    case Handles => HandledOk(env, a, na.proc);
    case Idles => IdleFiredOk(env, a, na.proc);
    case Alives => SignalledHonest(env, a, na.proc, Signal.Alive);
    case Triggers(now) => TriggerFiredOk(env, a, na.proc, now);
    case AddsTimer(_, _, _) =>
    case TakesStop =>
    case Finishes => FinishOk(env, a, na.proc);
  }

  lemma TakesSignal(env: Env, n: Node, a: ActorId, n': Node)
    requires Inv(env, n) && HasSignal(n, a) && n' == Taken(n, a)
    ensures Inv(env, n')
    ensures NextSignal(n, a).Snapshot? ==> HonestSnapshot(env, a, NextSignal(n, a).snapshot, n'.actors[a].proc.history)
    ensures NextSignal(n, a).Stopped? ==> n'.actors[a].proc.phase == Finished
  {
    TakenOk(env, a, n.actors[a].proc);
    ActorChanges(env, n, a, n'.actors[a], n');
  }

  lemma KeepsSnapshot(env: Env, n: Node, a: ActorId, s: ActorSnapshot, n': Node)
    requires Inv(env, n) && a in n.actors && HonestSnapshot(env, a, s, n.actors[a].proc.history)
    requires n' == ReceiveSnapshot(n, a, s)
    ensures Inv(env, n')
  {
    ActorChanges(env, n, a, n.actors[a].(snapshot := Some(s)), n');
  }

  lemma StopsOne(env: Env, n: Node, a: ActorId, n': Node)
    requires Inv(env, n) && a in n.actors && n' == StopActors(n, {a}) && n.actors[a].pause.None?
    ensures Inv(env, n')
  {
    var na := n.actors[a].(stopping := true);
    assert n'.actors == n.actors[a := na];
    ActorChanges(env, n, a, na, n');
  }

  // ---------- one read position moves ----------

  /** What a seek of `s` to `q` may jump over has been given to its receivers. */
  ghost predicate JumpIsHarmless(env: Env, n: Node, s: ShardId, q: Offset) {
    forall x {:trigger InLog(env, s, x)} :: InLog(env, s, x) && PartitionOf(n, s).position <= x < q ==> Delivered(env, n, s, x)
  }

  lemma SoughtShardOk(env: Env, shard: ShardId, s: NodeShard, p: Partition, registered: bool, stored: set<ActorSnapshot>, q: Offset)
    requires ShardOk(env, shard, s, p, registered, stored)
    requires Accounted(env, stored, s.inflight, shard, q)
    ensures ShardOk(env, shard, s, Sought(p, q), registered, stored)
  {
  }

  lemma SoughtPosition(env: Env, n: Node, s: ShardId, q: Offset)
    requires s in n.shards && DeliveredBelow(env, n, s, Frontier(n.shards[s], PartitionOf(n, s)))
    requires JumpIsHarmless(env, n, s, q)
    ensures DeliveredBelow(env, n, s, Frontier(n.shards[s], Sought(PartitionOf(n, s), q)))
  {
  }

  /** The parts of the invariant that only look at the actors. */
  lemma SameActors(env: Env, n: Node, n': Node)
    requires n'.actors == n.actors && n'.past == n.past
    ensures HistoriesOk(env, n) ==> HistoriesOk(env, n')
    ensures forall s, b :: DeliveredBelow(env, n, s, b) ==> DeliveredBelow(env, n', s, b)
  {
    assert forall a :: HistoryOf(n', a) == HistoryOf(n, a);
    forall s, b | DeliveredBelow(env, n, s, b) ensures DeliveredBelow(env, n', s, b) {
      forall x | InLog(env, s, x) && x < b ensures Delivered(env, n', s, x) {
        assert Delivered(env, n, s, x);
      }
    }
  }

  lemma Seeks(env: Env, n: Node, s: ShardId, q: Offset, fails: bool, n': Node)
    requires Inv(env, n) && s in n.shards && n' == Seek(n, s, q, fails)
    requires Accounted(env, n.stored, n.shards[s].inflight, s, q)
    requires JumpIsHarmless(env, n, s, q)
    ensures Inv(env, n')
  {
    if !fails {
      SameActors(env, n, n');
      SoughtShardOk(env, s, n.shards[s], PartitionOf(n, s), s in n.registerShards, n.stored, q);
      assert StoredOk(env, n') by { assert forall a :: HistoryOf(n', a) == HistoryOf(n, a); }
      if s in n.registerShards {
        SoughtPosition(env, n, s, q);
      }
      assert forall t :: t != s ==> PartitionOf(n', t) == PartitionOf(n, t);
    }
  }

  lemma Polls(env: Env, n: Node, s: ShardId, upTo: Offset, n': Node)
    requires Inv(env, n) && s in n.registerShards && !PartitionOf(n, s).paused && n' == Polled(n, s, upTo)
    ensures Inv(env, n')
  {
    SameActors(env, n, n');
    assert forall a :: HistoryOf(n', a) == HistoryOf(n, a);
    assert forall t :: t != s ==> PartitionOf(n', t) == PartitionOf(n, t);
  }

  // ---------- a pause ends ----------

  /** A step after which every jump of a read position is over delivered messages. */
  ghost predicate HarmlessMoves(env: Env, n: Node, n': Node) {
    forall s, x {:trigger InLog(env, s, x)} :: s in n.partitions && InLog(env, s, x) ==>
      n.partitions[s].position <= x < PartitionOf(n', s).position ==> Delivered(env, n', s, x)
  }

  /** Only `a` may have changed, and what counted as delivered to it still does. */
  ghost predicate SameButHeld(n: Node, a: ActorId, n': Node) {
    && (forall b :: HistoryOf(n', b) == HistoryOf(n, b) && ReachedOf(n', b) == ReachedOf(n, b))
    && (forall b :: b != a ==> (b in n'.actors <==> b in n.actors))
    && (forall b :: b != a && b in n.actors ==> Held(n'.actors[b]) == Held(n.actors[b]))
  }

  lemma DeliveredToOthers(env: Env, n: Node, a: ActorId, n': Node, s: ShardId, x: Offset)
    requires SameButHeld(n, a, n') && InLog(env, s, x) && Delivered(env, n, s, x)
    requires ReceiverAt(env, s, x) == a ==> x in ReachedOf(n, a)
    ensures Delivered(env, n', s, x)
  {
  }

  /** After the position went to `q`, below which `a` has been given everything, nothing
      below the frontier is owed, if the jump itself was harmless. */
  lemma PositionFor(env: Env, n: Node, a: ActorId, q: Offset, n': Node, s: ShardId)
    requires FixedReceivers(env) && SameButHeld(n, a, n') && HarmlessMoves(env, n, n')
    requires s in n.partitions && s in n.shards && s in n'.shards && n'.shards[s].pause == n.shards[s].pause
    requires DeliveredBelow(env, n, s, Frontier(n.shards[s], PartitionOf(n, s)))
    requires s == ShardOf(env, a) ==> UpTo(env, a, ReachedOf(n, a), q) && PartitionOf(n', s).position <= q
    ensures DeliveredBelow(env, n', s, Frontier(n'.shards[s], PartitionOf(n', s)))
  {
    forall x | InLog(env, s, x) && x < Frontier(n'.shards[s], PartitionOf(n', s)) ensures Delivered(env, n', s, x) {
      if x < n.partitions[s].position {
        assert Delivered(env, n, s, x);
        assert ReceiverAt(env, s, x) == a ==> Sent(env, a, x);
        DeliveredToOthers(env, n, a, n', s, x);
      }
    }
  }

  /** `n'` after the pause of `a` at `q` has ended and the position is back there. */
  ghost predicate PauseEnded(env: Env, n: Node, a: ActorId, q: Offset, n': Node) {
    && a in n.actors && n.actors[a].pause == Some(q)
    && n' == n.(actors := n.actors[a := n.actors[a].(pause := None)],
                partitions := n.partitions[ShardOf(env, a) := Sought(PartitionOf(n, ShardOf(env, a)), q)])
  }

  lemma EndedActors(env: Env, n: Node, a: ActorId, q: Offset, n': Node)
    requires ActorsOk(env, n) && PauseEnded(env, n, a, q, n')
    ensures ActorsOk(env, n') && UpTo(env, a, ReachedOf(n, a), q)
  {
  }

  lemma EndedSame(env: Env, n: Node, a: ActorId, q: Offset, n': Node)
    requires PauseEnded(env, n, a, q, n')
    ensures SameButHeld(n, a, n')
  {
  }

  lemma EndedHistories(env: Env, n: Node, a: ActorId, n': Node)
    requires HistoriesOk(env, n) && StoredOk(env, n) && SameButHeld(n, a, n') && n'.stored == n.stored
    ensures HistoriesOk(env, n') && StoredOk(env, n')
  {
  }

  lemma EndedShards(env: Env, n: Node, a: ActorId, q: Offset, n': Node)
    requires ShardsOk(env, n) && HeldAccounted(env, n) && CommitsOk(env, n) && PauseEnded(env, n, a, q, n')
    requires ActorsOk(env, n) && ShardOf(env, a) in n.shards && ShardOf(env, a) in n.partitions
    ensures ShardsOk(env, n') && HeldAccounted(env, n') && CommitsOk(env, n')
  {
  }

  /** Below the frontier of its shard nothing is owed to `a`. */
  ghost predicate GivenSoFar(env: Env, n: Node, a: ActorId) {
    var s := ShardOf(env, a);
    s in n.registerShards && s in n.shards ==> UpTo(env, a, ReachedOf(n, a), Frontier(n.shards[s], PartitionOf(n, s)))
  }

  lemma StaysDeliveredBelow(env: Env, n: Node, a: ActorId, n': Node, s: ShardId)
    requires FixedReceivers(env) && SameButHeld(n, a, n') && PartitionOf(n', s) == PartitionOf(n, s)
    requires s in n.shards && s in n'.shards && s in n.registerShards && n'.shards[s].pause == n.shards[s].pause
    requires DeliveredBelow(env, n, s, Frontier(n.shards[s], PartitionOf(n, s))) && GivenSoFar(env, n, a)
    ensures DeliveredBelow(env, n', s, Frontier(n'.shards[s], PartitionOf(n', s)))
  {
    forall x | InLog(env, s, x) && x < Frontier(n'.shards[s], PartitionOf(n', s)) ensures Delivered(env, n', s, x) {
      assert Delivered(env, n, s, x);
      assert ReceiverAt(env, s, x) == a ==> Sent(env, a, x);
      DeliveredToOthers(env, n, a, n', s, x);
    }
  }

  /** The pause is over, but the position did not go back: then nothing must be owed. */
  lemma Forgets(env: Env, n: Node, a: ActorId, n': Node)
    requires FixedReceivers(env) && Inv(env, n) && IndexesMatch(env, n) && a in n.actors && n.actors[a].pause.Some?
    requires n' == n.(actors := n.actors[a := n.actors[a].(pause := None)]) && GivenSoFar(env, n, a)
    ensures Inv(env, n')
  {
    assert NodeActorOk(env, a, n.actors[a], ShardOf(env, a) in n.registerShards);
    assert SameButHeld(n, a, n');
    EndedHistories(env, n, a, n');
    assert forall t :: PartitionOf(n', t) == PartitionOf(n, t);
    forall t | t in n'.registerShards && t in n'.shards
      ensures DeliveredBelow(env, n', t, Frontier(n'.shards[t], PartitionOf(n', t)))
    {
      StaysDeliveredBelow(env, n, a, n', t);
    }
  }

  lemma EndsPause(env: Env, n: Node, a: ActorId, io: Io, n': Node)
    requires FixedReceivers(env) && Inv(env, n) && IndexesMatch(env, n) && a in n.actors
    requires n' == ReceiveReady(env, n, a, io) && HarmlessMoves(env, n, n')
    requires io.seekFails && n.actors[a].pause.Some? ==> GivenSoFar(env, n, a)
    ensures Inv(env, n')
  {
    if n.actors[a].pause.Some? {
      if io.seekFails {
        Forgets(env, n, a, n');
      } else {
        EndedKeeps(env, n, a, n.actors[a].pause.value, n');
      }
    }
  }

  lemma EndedKeeps(env: Env, n: Node, a: ActorId, q: Offset, n': Node)
    requires FixedReceivers(env) && Inv(env, n) && IndexesMatch(env, n)
    requires PauseEnded(env, n, a, q, n') && HarmlessMoves(env, n, n')
    ensures Inv(env, n')
  {
    EndedActors(env, n, a, q, n');
    EndedSame(env, n, a, q, n');
    EndedHistories(env, n, a, n');
    EndedShards(env, n, a, q, n');
    forall t | t in n'.registerShards && t in n'.shards
      ensures DeliveredBelow(env, n', t, Frontier(n'.shards[t], PartitionOf(n', t)))
    {
      PositionFor(env, n, a, q, n', t);
    }
  }

  // ---------- an actor is gone ----------

  /** What `RemoveActor` leaves as it was. */
  ghost predicate Gone(n: Node, a: ActorId, n': Node) {
    && a in n.actors
    && n'.actors == n.actors - {a} && n'.past == n.past[a := n.actors[a].proc.history]
    && n'.stored == n.stored && n'.registerShards == n.registerShards && n'.stopping == n.stopping
    && n'.disableActors == n.disableActors - {a}
    && n'.shards.Keys <= n.shards.Keys
    && (forall s :: s in n'.shards ==>
          n'.shards[s].inflight == n.shards[s].inflight && n'.shards[s].pause == n.shards[s].pause)
  }

  lemma RemoveIsGone(env: Env, n: Node, a: ActorId, n': Node)
    requires a in n.actors && n' == RemoveActor(env, n, a)
    ensures Gone(n, a, n') && n'.partitions == n.partitions
  {
    if ShardOf(env, a) !in n.shards {
    } else if n.shards[ShardOf(env, a)].actors - {a} == {} && ShardOf(env, a) !in n.registerShards {
    } else {
    }
  }

  lemma GoneActors(env: Env, n: Node, a: ActorId, n': Node)
    requires ActorsOk(env, n) && HistoriesOk(env, n) && StoredOk(env, n) && Gone(n, a, n')
    requires n.actors[a].proc.phase == Finished
    ensures ActorsOk(env, n') && HistoriesOk(env, n') && StoredOk(env, n') && SameButHeld(n, a, n')
  {
    assert n.actors[a].proc.mailbox == [];
    assert forall b :: HistoryOf(n', b) == HistoryOf(n, b);
  }

  /** The actor's offsets stay accounted for, with the position where it was or at `q`. */
  lemma GoneShards(env: Env, n: Node, a: ActorId, n': Node, q: Offset)
    requires ShardsOk(env, n) && HeldAccounted(env, n) && Gone(n, a, n') && IndexesMatch(env, n)
    requires n'.partitions == n.partitions || (n'.partitions == n.partitions[ShardOf(env, a) := Sought(PartitionOf(n, ShardOf(env, a)), q)]
               && Accounted(env, n.stored, n.shards[ShardOf(env, a)].inflight, ShardOf(env, a), q))
    ensures ShardsOk(env, n') && HeldAccounted(env, n')
  {
    var s := ShardOf(env, a);
    if n'.partitions != n.partitions {
      SoughtShardOk(env, s, n.shards[s], PartitionOf(n, s), s in n.registerShards, n.stored, q);
    }
    assert forall t :: t != s ==> PartitionOf(n', t) == PartitionOf(n, t);
  }

  lemma GoneCommits(env: Env, n: Node, n': Node, s: ShardId, q: Offset)
    requires CommitsOk(env, n) && n'.stored == n.stored
    requires n'.partitions == n.partitions
             || (s in n.partitions && n'.partitions == n.partitions[s := Sought(n.partitions[s], q)])
    ensures CommitsOk(env, n')
  {
  }

  /** What came for `a` while it was stopping is sought, or nothing is owed to it. */
  ghost predicate Repaid(env: Env, n: Node, a: ActorId, sought: bool)
    requires a in n.actors
  {
    if sought then !n.stopping && n.actors[a].pending.Some?
    else n.stopping || n.actors[a].pending.None? || GivenSoFar(env, n, a)
  }

  lemma GonePositions(env: Env, n: Node, a: ActorId, sought: bool, n': Node)
    requires FixedReceivers(env) && ActorsOk(env, n) && PositionsOk(env, n) && IndexesMatch(env, n)
    requires Gone(n, a, n') && SameButHeld(n, a, n') && HarmlessMoves(env, n, n') && n.actors[a].stopping
    requires !n.stopping && Repaid(env, n, a, sought)
    requires n'.partitions == if sought
               then n.partitions[ShardOf(env, a) := Sought(PartitionOf(n, ShardOf(env, a)), n.actors[a].pending.value)]
               else n.partitions
    ensures PositionsOk(env, n')
  {
    if !sought && n.actors[a].pending.Some? {
      forall t | t in n'.registerShards && t in n'.shards
        ensures DeliveredBelow(env, n', t, Frontier(n'.shards[t], PartitionOf(n', t)))
      {
        StaysDeliveredBelow(env, n, a, n', t);
      }
    }
  }

  /** A stopped actor leaves; if messages came for it in the meantime the position goes back
      to the first of them. */
  lemma Leaves(env: Env, n: Node, a: ActorId, sought: bool, n': Node)
    requires FixedReceivers(env) && Inv(env, n) && IndexesMatch(env, n) && ShutsDown(n) && Gone(n, a, n')
    requires n.actors[a].proc.phase == Finished && HarmlessMoves(env, n, n') && Repaid(env, n, a, sought)
    requires n'.partitions == if sought
               then n.partitions[ShardOf(env, a) := Sought(PartitionOf(n, ShardOf(env, a)), n.actors[a].pending.value)]
               else n.partitions
    ensures Inv(env, n')
  {
    var q := if Held(n.actors[a]).Some? then Held(n.actors[a]).value else 0;
    assert NodeActorOk(env, a, n.actors[a], ShardOf(env, a) in n.registerShards);
    GoneActors(env, n, a, n');
    GoneShards(env, n, a, n', q);
    GoneCommits(env, n, n', ShardOf(env, a), q);
    assert n'.disableActors == {};
    if !n.stopping {
      GonePositions(env, n, a, sought, n');
    }
  }
}
