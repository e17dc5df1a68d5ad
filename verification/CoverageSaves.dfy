/**
  Saving snapshots, releasing what they reach, committing and resuming keep the invariant.
*/
module CoverageSaves {
  import opened Types
  import opened InflightWindow
  import opened ActorModel
  import opened NodeModel
  import opened NodeRuns
  import opened NodeIndex
  import opened Delivery
  import opened Coverage
  import opened CoverageSteps

  // ---------- one shard ----------

  /** Every reach of `reach` is that of a saved, honest snapshot of an actor of `s`. */
  ghost predicate BackedBy(env: Env, s: ShardId, reach: Reaches, stored: set<ActorSnapshot>) {
    forall a :: a in reach ==>
      ShardOf(env, a) == s && exists snapshot :: snapshot in stored && Backs(env, snapshot, a, reach[a])
  }

  ghost predicate Backs(env: Env, snapshot: ActorSnapshot, a: ActorId, reach: Offset) {
    snapshot.actorId == a && snapshot.offset == reach && UpTo(env, a, snapshot.history.handled, reach + 1)
  }

  /** What leaves the window is covered. */
  lemma LeavingIsCovered(env: Env, s: ShardId, w: Window, reach: Reaches, stored: set<ActorSnapshot>, x: Offset)
    requires WindowOk(env, s, w) && BackedBy(env, s, reach, stored)
    requires x in w.offsetActor && x !in AfterComplete(w, reach).window.offsetActor
    ensures InLog(env, s, x) && Covered(env, stored, s, x)
  {
    var a := w.offsetActor[x];
    OnlyReachedLeave(w, reach, x);
    assert Sent(env, a, x);
    var snapshot :| snapshot in stored && Backs(env, snapshot, a, reach[a]);
    assert Covers(snapshot, a, x);
  }

  lemma CompletedWindow(env: Env, s: ShardId, w: Window, reach: Reaches, stored: set<ActorSnapshot>)
    requires WindowOk(env, s, w)
    ensures WindowOk(env, s, AfterComplete(w, reach).window)
  {
    CompleteKeepsValid(w, reach);
    forall o | o in AfterComplete(w, reach).window.offsetActor
      ensures o in w.offsetActor && AfterComplete(w, reach).window.offsetActor[o] == w.offsetActor[o]
    {
      NothingAppears(w, reach, o);
      OnlyReachedLeave(w, reach, o);
    }
  }

  lemma CompletedAccounted(env: Env, s: ShardId, w: Window, reach: Reaches, stored: set<ActorSnapshot>, stored': set<ActorSnapshot>, b: Offset)
    requires WindowOk(env, s, w) && BackedBy(env, s, reach, stored') && stored <= stored'
    requires Accounted(env, stored, w, s, b)
    ensures Accounted(env, stored', AfterComplete(w, reach).window, s, b)
  {
    forall x | InLog(env, s, x) && x < b && x !in AfterComplete(w, reach).window.offsetActor
      ensures Covered(env, stored', s, x)
    {
      if x in w.offsetActor {
        LeavingIsCovered(env, s, w, reach, stored', x);
      } else {
        CoveredLater(env, stored, stored', s, x);
      }
    }
  }

  /** A committed next offset has only covered messages below it. */
  lemma CommitIsCovered(env: Env, s: ShardId, w: Window, reach: Reaches, stored: set<ActorSnapshot>, stored': set<ActorSnapshot>)
    requires WindowOk(env, s, w) && BackedBy(env, s, reach, stored') && stored <= stored'
    requires Accounted(env, stored, w, s, w.maxOffset + 1) && AfterComplete(w, reach).advanced
    ensures CoveredBelow(env, stored', s, AfterComplete(w, reach).nextOffset)
  {
    NextOffsetIsSafe(w, reach);
    CompletedAccounted(env, s, w, reach, stored, stored', w.maxOffset + 1);
  }

  lemma NewMaxOffset(w: Window, reach: Reaches)
    ensures var w' := AfterComplete(w, reach).window; w'.maxOffset == w.maxOffset || w'.maxOffset == -1
  {
  }

  ghost predicate CommitsCovered(env: Env, stored: set<ActorSnapshot>, s: ShardId, p: Partition) {
    forall i :: 0 <= i < |p.commits| ==> CoveredBelow(env, stored, s, p.commits[i])
  }

  lemma CommitsCoveredLater(env: Env, stored: set<ActorSnapshot>, stored': set<ActorSnapshot>, s: ShardId, p: Partition)
    requires stored <= stored' && CommitsCovered(env, stored, s, p)
    ensures CommitsCovered(env, stored', s, p)
  {
  }

  lemma ShrunkShardOk(env: Env, s: ShardId, shard: NodeShard, p: Partition, registered: bool,
                      stored: set<ActorSnapshot>, stored': set<ActorSnapshot>, reach: Reaches, w': Window)
    requires FixedReceivers(env) && ShardOk(env, s, shard, p, registered, stored)
    requires BackedBy(env, s, reach, stored') && stored <= stored' && w' == AfterComplete(shard.inflight, reach).window
    ensures ShardOk(env, s, shard.(inflight := w'), p, registered, stored')
  {
    var w := shard.inflight;
    CompletedWindow(env, s, w, reach, stored');
    CompletedAccounted(env, s, w, reach, stored, stored', w.maxOffset + 1);
    NewMaxOffset(w, reach);
    if shard.pause.Some? { CompletedAccounted(env, s, w, reach, stored, stored', shard.pause.value); }
    if registered { CompletedAccounted(env, s, w, reach, stored, stored', Frontier(shard, p)); }
  }

  lemma CompletedShardOk(env: Env, s: ShardId, shard: NodeShard, p: Partition, registered: bool,
                         stored: set<ActorSnapshot>, stored': set<ActorSnapshot>, reach: Reaches, commitFails: bool, c: Outcome)
    requires FixedReceivers(env) && ShardOk(env, s, shard, p, registered, stored) && CommitsCovered(env, stored, s, p)
    requires BackedBy(env, s, reach, stored') && stored <= stored'
    requires c == CompletedShard(shard, p, reach, commitFails)
    ensures ShardOk(env, s, c.shard, c.partition, registered, stored') && CommitsCovered(env, stored', s, c.partition)
    ensures c.shard.pause == shard.pause && c.partition == p.(commits := c.partition.commits)
  {
    var after := AfterComplete(shard.inflight, reach);
    ShrunkShardOk(env, s, shard, p, registered, stored, stored', reach, after.window);
    CommitsCoveredLater(env, stored, stored', s, p);
    if after.advanced && !commitFails {
      CommitIsCovered(env, s, shard.inflight, reach, stored, stored');
      CommitAppended(env, s, c.shard, p, registered, stored', after.nextOffset);
    }
  }

  lemma CommitAppended(env: Env, s: ShardId, shard: NodeShard, p: Partition, registered: bool, stored: set<ActorSnapshot>, c: Offset)
    requires ShardOk(env, s, shard, p, registered, stored) && CommitsCovered(env, stored, s, p) && CoveredBelow(env, stored, s, c)
    ensures var p' := p.(commits := p.commits + [c]);
            ShardOk(env, s, shard, p', registered, stored) && CommitsCovered(env, stored, s, p')
  {
  }

  lemma ResumedShardOk(env: Env, s: ShardId, shard: NodeShard, p: Partition, registered: bool,
                       stored: set<ActorSnapshot>, rewindFails: bool, resumeFails: bool)
    requires ShardOk(env, s, shard, p, registered, stored) && CommitsCovered(env, stored, s, p)
    ensures var r := ResumedShard(shard, p, rewindFails, resumeFails);
            && ShardOk(env, s, r.shard, r.partition, registered, stored) && CommitsCovered(env, stored, s, r.partition)
            && r.shard.inflight == shard.inflight
            && ResumedFrom(shard, p, r)
  {
  }

  /** The position stays, or goes to the message that found the window full. */
  ghost predicate ResumedFrom(shard: NodeShard, p: Partition, r: Outcome) {
    || (r.shard.pause == shard.pause && r.partition.position == p.position)
    || (shard.pause.Some? && r.partition.position == shard.pause.value && (r.shard.pause == None || r.shard.pause == shard.pause))
  }

  lemma ReleasedShardOk(env: Env, s: ShardId, shard: NodeShard, p: Partition, registered: bool,
                        stored: set<ActorSnapshot>, stored': set<ActorSnapshot>, reach: Reaches, io: Io)
    requires FixedReceivers(env) && ShardOk(env, s, shard, p, registered, stored) && CommitsCovered(env, stored, s, p)
    requires BackedBy(env, s, reach, stored') && stored <= stored'
    ensures var r := ReleasedShard(shard, p, reach, s, io);
            && ShardOk(env, s, r.shard, r.partition, registered, stored') && CommitsCovered(env, stored', s, r.partition)
            && ResumedFrom(shard, p, r)
            && r.shard.inflight == AfterComplete(shard.inflight, reach).window
  {
    var c := CompletedShard(shard, p, reach, s in io.commitFails);
    CompletedShardOk(env, s, shard, p, registered, stored, stored', reach, s in io.commitFails, c);
    ResumedShardOk(env, s, c.shard, c.partition, registered, stored', s in io.rewindFails, s in io.resumeFails);
  }

  // ---------- the node ----------

  lemma SavedBacks(env: Env, n: Node, done: set<ActorId>, s: ShardId, stored: set<ActorSnapshot>)
    requires ActorsOk(env, n)
    requires forall a :: a in done && a in n.actors && n.actors[a].snapshot.Some? ==> n.actors[a].snapshot.value in stored
    ensures BackedBy(env, s, ReachOn(env, n, done, s), stored)
  {
  }

  lemma SavedShardOk(env: Env, n: Node, done: set<ActorId>, io: Io, s: ShardId, stored: set<ActorSnapshot>, r: Outcome)
    requires FixedReceivers(env) && ActorsOk(env, n) && ShardsOk(env, n) && CommitsOk(env, n)
    requires s in n.shards && s in n.partitions && n.stored <= stored && r == ReleasedOn(env, n, done, s, io)
    requires forall a :: a in done && a in n.actors && n.actors[a].snapshot.Some? ==> n.actors[a].snapshot.value in stored
    ensures ShardOk(env, s, r.shard, r.partition, s in n.registerShards, stored)
    ensures CommitsCovered(env, stored, s, r.partition) && ResumedFrom(n.shards[s], n.partitions[s], r)
    ensures forall b :: Accounted(env, n.stored, n.shards[s].inflight, s, b) ==> Accounted(env, stored, r.shard.inflight, s, b)
  {
    var reach := ReachOn(env, n, done, s);
    SavedBacks(env, n, done, s, stored);
    assert ShardOk(env, s, n.shards[s], PartitionOf(n, s), s in n.registerShards, n.stored);
    assert CommitsCovered(env, n.stored, s, n.partitions[s]);
    if reach == map[] {
      UntouchedShardOk(env, s, n.shards[s], n.partitions[s], s in n.registerShards, n.stored, stored);
    } else {
      ReleasedShardOk(env, s, n.shards[s], n.partitions[s], s in n.registerShards, n.stored, stored, reach, io);
      forall b | Accounted(env, n.stored, n.shards[s].inflight, s, b) ensures Accounted(env, stored, r.shard.inflight, s, b) {
        CompletedAccounted(env, s, n.shards[s].inflight, reach, n.stored, stored, b);
      }
    }
  }

  lemma UntouchedShardOk(env: Env, s: ShardId, shard: NodeShard, p: Partition, registered: bool,
                         stored: set<ActorSnapshot>, stored': set<ActorSnapshot>)
    requires ShardOk(env, s, shard, p, registered, stored) && CommitsCovered(env, stored, s, p) && stored <= stored'
    ensures ShardOk(env, s, shard, p, registered, stored') && CommitsCovered(env, stored', s, p)
    ensures forall b :: Accounted(env, stored, shard.inflight, s, b) ==> Accounted(env, stored', shard.inflight, s, b)
  {
  }

  lemma SavedHistories(env: Env, n: Node, done: set<ActorId>, io: Io, n': Node)
    requires n' == Saved(env, n, done, io)
    ensures forall b :: HistoryOf(n', b) == HistoryOf(n, b) && ReachedOf(n', b) == ReachedOf(n, b)
    ensures n'.actors.Keys == n.actors.Keys && forall b :: b in n.actors ==> Held(n'.actors[b]) == Held(n.actors[b])
  {
  }

  lemma SavedStored(env: Env, n: Node, done: set<ActorId>, io: Io, n': Node)
    requires ActorsOk(env, n) && StoredOk(env, n) && n' == Saved(env, n, done, io)
    requires forall b :: HistoryOf(n', b) == HistoryOf(n, b)
    ensures StoredOk(env, n')
  {
  }

  lemma SavedActorsOk(env: Env, n: Node, done: set<ActorId>, io: Io, n': Node)
    requires ActorsOk(env, n) && n' == Saved(env, n, done, io)
    ensures ActorsOk(env, n')
  {
    forall a | a in n'.actors ensures NodeActorOk(env, a, n'.actors[a], ShardOf(env, a) in n'.registerShards) {
      assert NodeActorOk(env, a, n.actors[a], ShardOf(env, a) in n.registerShards);
    }
  }

  lemma SavedShards(env: Env, n: Node, done: set<ActorId>, io: Io, n': Node)
    requires FixedReceivers(env) && ActorsOk(env, n) && ShardsOk(env, n) && HeldAccounted(env, n) && CommitsOk(env, n)
    requires IndexesMatch(env, n) && n' == Saved(env, n, done, io)
    requires n'.actors.Keys == n.actors.Keys && forall b :: b in n.actors ==> Held(n'.actors[b]) == Held(n.actors[b])
    ensures ShardsOk(env, n') && HeldAccounted(env, n') && CommitsOk(env, n')
    ensures forall s :: s in n.shards ==>
              ResumedFrom(n.shards[s], n.partitions[s], Outcome(n'.shards[s], PartitionOf(n', s), false))
    ensures forall s, b :: s in n.shards && Accounted(env, n.stored, n.shards[s].inflight, s, b) ==>
              Accounted(env, n'.stored, n'.shards[s].inflight, s, b)
  {
    forall s | s in n.shards
      ensures ShardOk(env, s, n'.shards[s], PartitionOf(n', s), s in n'.registerShards, n'.stored)
      ensures CommitsCovered(env, n'.stored, s, n'.partitions[s])
      ensures ResumedFrom(n.shards[s], n.partitions[s], Outcome(n'.shards[s], PartitionOf(n', s), false))
      ensures forall b :: Accounted(env, n.stored, n.shards[s].inflight, s, b) ==> Accounted(env, n'.stored, n'.shards[s].inflight, s, b)
    {
      SavedShardOk(env, n, done, io, s, n'.stored, ReleasedOn(env, n, done, s, io));
    }
    forall s | s in n'.partitions && s !in n.shards ensures CommitsCovered(env, n'.stored, s, n'.partitions[s]) {
      CommitsCoveredLater(env, n.stored, n'.stored, s, n.partitions[s]);
    }
  }

  lemma SavedPosition(env: Env, n: Node, n': Node, s: ShardId)
    requires forall b :: HistoryOf(n', b) == HistoryOf(n, b) && ReachedOf(n', b) == ReachedOf(n, b)
    requires n'.actors.Keys == n.actors.Keys && forall b :: b in n.actors ==> Held(n'.actors[b]) == Held(n.actors[b])
    requires s in n.partitions && s in n.shards && s in n'.shards && HarmlessMoves(env, n, n')
    requires ResumedFrom(n.shards[s], n.partitions[s], Outcome(n'.shards[s], PartitionOf(n', s), false))
    requires DeliveredBelow(env, n, s, Frontier(n.shards[s], PartitionOf(n, s)))
    ensures DeliveredBelow(env, n', s, Frontier(n'.shards[s], PartitionOf(n', s)))
  {
  }

  lemma Saves(env: Env, n: Node, done: set<ActorId>, io: Io, n': Node)
    requires FixedReceivers(env) && Inv(env, n) && IndexesMatch(env, n)
    requires n' == Saved(env, n, done, io) && HarmlessMoves(env, n, n')
    ensures Inv(env, n')
  {
    SavedHistories(env, n, done, io, n');
    SavedStored(env, n, done, io, n');
    SavedActorsOk(env, n, done, io, n');
    SavedShards(env, n, done, io, n');
    forall s | s in n'.registerShards && s in n'.shards
      ensures DeliveredBelow(env, n', s, Frontier(n'.shards[s], PartitionOf(n', s)))
    {
      SavedPosition(env, n, n', s);
    }
    assert n'.shards.Keys == n.shards.Keys;
  }
}
