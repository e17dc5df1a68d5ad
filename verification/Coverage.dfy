/**
  The invariant behind at-least-once delivery, in parts: what each actor, each in-flight
  window, each read position and each commit owes.
*/
module Coverage {
  import opened Types
  import opened InflightWindow
  import opened ActorModel
  import opened NodeModel
  import opened Delivery

  /** Some saved snapshot of the receiver reaches `x` and was taken after `x` was handled. */
  ghost predicate Covered(env: Env, stored: set<ActorSnapshot>, shard: ShardId, x: Offset)
    requires LogAt(env, shard, x).Some?
  {
    exists s :: s in stored && Covers(s, ReceiverAt(env, shard, x), x)
  }

  predicate Covers(s: ActorSnapshot, a: ActorId, x: Offset) {
    s.actorId == a && x <= s.offset && x in s.history.handled
  }

  ghost predicate CoveredBelow(env: Env, stored: set<ActorSnapshot>, shard: ShardId, b: Offset) {
    forall x {:trigger InLog(env, shard, x)} :: InLog(env, shard, x) && x < b ==> Covered(env, stored, shard, x)
  }

  /** Everything below `b` is in flight or covered. */
  ghost predicate Accounted(env: Env, stored: set<ActorSnapshot>, w: Window, shard: ShardId, b: Offset) {
    forall x {:trigger InLog(env, shard, x)} :: InLog(env, shard, x) && x < b ==>
      x in w.offsetActor || Covered(env, stored, shard, x)
  }

  lemma CoveredLater(env: Env, stored: set<ActorSnapshot>, stored': set<ActorSnapshot>, shard: ShardId, x: Offset)
    requires stored <= stored' && LogAt(env, shard, x).Some? && Covered(env, stored, shard, x)
    ensures Covered(env, stored', shard, x)
  {
  }

  /** Below this offset nothing was dropped because the whole shard was paused. */
  function Frontier(s: NodeShard, p: Partition): Offset {
    if s.pause.Some? && s.pause.value < p.position then s.pause.value else p.position
  }

  /** The first offset the node has yet to give this actor, if it held one back. */
  function Held(na: NodeActor): Option<Offset> {
    if na.pause.Some? then na.pause else na.pending
  }

  // ---------- actors ----------

  ghost predicate NodeActorOk(env: Env, a: ActorId, na: NodeActor, registered: bool) {
    && ProcOk(env, a, na.proc)
    && (na.snapshot.Some? ==> HonestSnapshot(env, a, na.snapshot.value, na.proc.history))
    && (na.proc.phase != Running ==> na.stopping)
    && (na.pending.Some? ==> na.stopping && na.pause.None?)
    && (registered && na.stopping ==> na.pause.None?)
    && (Held(na).Some? ==> UpTo(env, a, Reached(na.proc), Held(na).value))
  }

  ghost predicate ActorsOk(env: Env, n: Node) {
    forall a :: a in n.actors ==>
      NodeActorOk(env, a, n.actors[a], ShardOf(env, a) in n.registerShards)
  }

  ghost predicate HistoriesOk(env: Env, n: Node) {
    forall a {:trigger HistoryOf(n, a)} :: Knows(env, a, HistoryOf(n, a))
  }

  ghost predicate StoredOk(env: Env, n: Node) {
    forall s :: s in n.stored ==> HonestSnapshot(env, s.actorId, s, HistoryOf(n, s.actorId))
  }

  // ---------- shards ----------

  ghost predicate WindowOk(env: Env, shard: ShardId, w: Window) {
    && Valid(w)
    && forall o :: o in w.offsetActor ==> ShardOf(env, w.offsetActor[o]) == shard && Sent(env, w.offsetActor[o], o)
  }

  ghost predicate ShardOk(env: Env, shard: ShardId, s: NodeShard, p: Partition, registered: bool, stored: set<ActorSnapshot>) {
    && WindowOk(env, shard, s.inflight)
    && Accounted(env, stored, s.inflight, shard, s.inflight.maxOffset + 1)
    && (s.pause.Some? ==> Accounted(env, stored, s.inflight, shard, s.pause.value))
    && (registered ==> Accounted(env, stored, s.inflight, shard, Frontier(s, p)))
  }

  ghost predicate ShardsOk(env: Env, n: Node) {
    forall s :: s in n.shards ==>
      ShardOk(env, s, n.shards[s], PartitionOf(n, s), s in n.registerShards, n.stored)
  }

  /** What an actor was denied lies within what the window accounts for. */
  ghost predicate HeldAccounted(env: Env, n: Node) {
    forall a :: a in n.actors && ShardOf(env, a) in n.shards && Held(n.actors[a]).Some? ==>
      Accounted(env, n.stored, n.shards[ShardOf(env, a)].inflight, ShardOf(env, a), Held(n.actors[a]).value)
  }

  // ---------- read positions ----------

  function ReachedOf(n: Node, a: ActorId): set<Offset> {
    if a in n.actors then Reached(n.actors[a].proc) else HistoryOf(n, a).handled
  }

  /** The message at `x` was given to its receiver or is held back for it. */
  ghost predicate Delivered(env: Env, n: Node, shard: ShardId, x: Offset)
    requires LogAt(env, shard, x).Some?
  {
    var a := ReceiverAt(env, shard, x);
    || x in ReachedOf(n, a)
    || (a in n.actors && Held(n.actors[a]).Some? && Held(n.actors[a]).value <= x)
  }

  ghost predicate DeliveredBelow(env: Env, n: Node, shard: ShardId, b: Offset) {
    forall x {:trigger InLog(env, shard, x)} :: InLog(env, shard, x) && x < b ==> Delivered(env, n, shard, x)
  }

  ghost predicate PositionsOk(env: Env, n: Node) {
    forall s :: s in n.registerShards && s in n.shards ==>
      DeliveredBelow(env, n, s, Frontier(n.shards[s], PartitionOf(n, s)))
  }

  // ---------- commits ----------

  ghost predicate CommitsOk(env: Env, n: Node) {
    forall s, i :: s in n.partitions && 0 <= i < |n.partitions[s].commits| ==>
      CoveredBelow(env, n.stored, s, n.partitions[s].commits[i])
  }

  /** Nothing disables an actor, and while the node runs all its shards are registered. */
  ghost predicate Simple(n: Node) {
    && n.disableActors == {}
    && (!n.stopping ==> n.shards.Keys <= n.registerShards)
  }

  ghost predicate Inv(env: Env, n: Node) {
    && Simple(n) && ActorsOk(env, n) && HistoriesOk(env, n) && StoredOk(env, n)
    && ShardsOk(env, n) && HeldAccounted(env, n) && PositionsOk(env, n) && CommitsOk(env, n)
  }
}
