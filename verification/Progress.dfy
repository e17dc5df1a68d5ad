/**
  What gets done: a stop drains the mailbox, a save that reaches everything in flight commits
  everything, a shard is paused exactly as long as it remembers where to resume, and reading
  starts where the commits end.
*/
module Progress {
  import opened Types
  import opened InflightWindow
  import opened ActorModel
  import opened NodeModel
  import opened NodeRuns
  import opened NodeIndex
  import opened Delivery
  import opened Coverage
  import opened AtLeastOnce
  import opened Paths
  import opened Losses

  // ---------- a stopping actor ----------

  lemma ActLeads(law: Law, env: Env, n: Node, k: Node, a: ActorId, step: ProcStep, p': Proc)
    requires UsableConfig(env.config) && Leads(law, env, n, k) && a in k.actors && CanStep(env.config, k.actors[a], step)
    requires p' == Stepped(env.config, k.actors[a].proc, step)
    ensures Leads(law, env, n, WithProc(k, a, p'))
  {
    assert Backward(k, WithProc(k, a, p'));
    BackwardLeads(law, env, n, k, ActorStep(a, step), WithProc(k, a, p'));
  }

  lemma TwiceWithProc(n: Node, a: ActorId, p: Proc, q: Proc)
    requires a in n.actors
    ensures WithProc(WithProc(n, a, p), a, q) == WithProc(n, a, q)
  {
  }

  /** Draining is handling the messages of the mailbox one by one. */
  lemma {:induction false} DrainLeads(law: Law, env: Env, n: Node, a: ActorId, p: Proc)
    requires UsableConfig(env.config) && a in n.actors && p.phase == Stopping && Leads(law, env, n, WithProc(n, a, p))
    ensures Leads(law, env, n, WithProc(n, a, Drained(env.config, p))) && Drained(env.config, p).phase == Stopping
    decreases |p.mailbox|
  {
    if p.mailbox != [] {
      var next := Handled(env.config, p);
      ActLeads(law, env, n, WithProc(n, a, p), a, Handles, next);
      TwiceWithProc(n, a, p, next);
      DrainLeads(law, env, n, a, next);
    }
  }

  /** The stop case of the actor loop is a run: the stop is taken, each message in the mailbox
      is handled, and the last snapshot and the stopped signal are sent. */
  lemma StopLeads(law: Law, env: Env, n: Node, a: ActorId)
    requires UsableConfig(env.config) && a in n.actors && n.actors[a].stopping && n.actors[a].proc.phase == Running
    ensures Leads(law, env, n, WithProc(n, a, Finish(Drained(env.config, n.actors[a].proc.(phase := Stopping)))))
  {
    var stopping := n.actors[a].proc.(phase := Stopping);
    var drained := Drained(env.config, stopping);
    LeadsToItself(law, env, n);
    ActLeads(law, env, n, n, a, TakesStop, stopping);
    DrainLeads(law, env, n, a, stopping);
    ActLeads(law, env, n, WithProc(n, a, drained), a, Finishes, Finish(drained));
    TwiceWithProc(n, a, drained, Finish(drained));
  }

  // ---------- a save ----------

  /** A save touches the actors saved and the shards they are on, and nothing else. */
  lemma SaveTouchesOnly(env: Env, n: Node, done: set<ActorId>, io: Io, n': Node)
    requires n' == Saved(env, n, done, io)
    ensures n'.actors.Keys == n.actors.Keys && n'.shards.Keys == n.shards.Keys && n'.partitions.Keys == n.partitions.Keys
    ensures n' == n.(actors := n'.actors, shards := n'.shards, partitions := n'.partitions, stored := n'.stored)
    ensures forall a :: a in n.actors ==>
              n'.actors[a] == if a in done then n.actors[a].(snapshot := None) else n.actors[a]
    ensures forall t :: t in n'.stored <==>
              t in n.stored || exists a :: a in done && a in n.actors && n.actors[a].snapshot == Some(t)
    ensures forall s :: s in n.shards && (forall a :: a in done && a in n.actors && n.actors[a].snapshot.Some? ==> ShardOf(env, a) != s) ==>
              n'.shards[s] == n.shards[s] && PartitionOf(n', s) == PartitionOf(n, s)
  {
    forall s | s in n.shards && (forall a :: a in done && a in n.actors && n.actors[a].snapshot.Some? ==> ShardOf(env, a) != s)
      ensures n'.shards[s] == n.shards[s] && PartitionOf(n', s) == PartitionOf(n, s)
    {
      assert ReachOn(env, n, done, s) == map[];
    }
  }

  /** The snapshots kept of the actors with something in flight at `s` are all saved, and they
      reach it. */
  ghost predicate AllSaved(env: Env, n: Node, done: set<ActorId>, s: ShardId)
    requires s in n.shards
  {
    forall o {:trigger o in n.shards[s].inflight.offsetActor} :: o in n.shards[s].inflight.offsetActor ==>
      var a := n.shards[s].inflight.offsetActor[o];
      && a in done && a in n.actors && ShardOf(env, a) == s
      && n.actors[a].snapshot.Some? && o <= n.actors[a].snapshot.value.offset
  }

  lemma AllSavedReachesAll(env: Env, n: Node, done: set<ActorId>, s: ShardId)
    requires s in n.shards && n.shards[s].inflight.minOffset in n.shards[s].inflight.offsetActor && AllSaved(env, n, done, s)
    ensures ReachesAll(n.shards[s].inflight, ReachOn(env, n, done, s)) && ReachOn(env, n, done, s) != map[]
  {
    var w := n.shards[s].inflight;
    assert w.offsetActor[w.minOffset] in ReachOn(env, n, done, s);
  }

  lemma ReleaseCommitsAll(s: NodeShard, p: Partition, reach: Reaches, shard: ShardId, io: Io)
    requires Valid(s.inflight) && s.inflight.offsetActor != map[] && ReachesAll(s.inflight, reach) && shard !in io.commitFails
    ensures var o := ReleasedShard(s, p, reach, shard, io);
            && o.shard.inflight == Empty(s.inflight.windowLimit)
            && o.partition.commits == p.commits + [s.inflight.maxOffset + 1]
  {
    AllReachedCommitsAll(s.inflight, reach);
  }

  lemma AllIsReleased(env: Env, n: Node, done: set<ActorId>, io: Io, s: ShardId) returns (o: Outcome)
    requires s in n.shards && s in n.partitions && s !in io.commitFails
    requires Valid(n.shards[s].inflight) && n.shards[s].inflight.offsetActor != map[] && AllSaved(env, n, done, s)
    ensures o == ReleasedOn(env, n, done, s, io)
    ensures o.shard.inflight == Empty(n.shards[s].inflight.windowLimit)
    ensures o.partition.commits == n.partitions[s].commits + [n.shards[s].inflight.maxOffset + 1]
  {
    AllSavedReachesAll(env, n, done, s);
    ReleaseCommitsAll(n.shards[s], n.partitions[s], ReachOn(env, n, done, s), s, io);
    o := ReleasedOn(env, n, done, s, io);
  }

  /** A save that reaches everything in flight leaves nothing in flight and commits one past the
      largest offset the window has seen. */
  lemma SaveCommitsAll(env: Env, n: Node, done: set<ActorId>, io: Io, n': Node, s: ShardId)
    requires n' == Saved(env, n, done, io) && s in n.shards && s in n.partitions && s !in io.commitFails
    requires Valid(n.shards[s].inflight) && n.shards[s].inflight.offsetActor != map[] && AllSaved(env, n, done, s)
    ensures s in n'.shards && n'.shards[s].inflight == Empty(n.shards[s].inflight.windowLimit)
    ensures s in n'.partitions
    ensures n'.partitions[s].commits == n.partitions[s].commits + [n.shards[s].inflight.maxOffset + 1]
  {
    var o := AllIsReleased(env, n, done, io, s);
  }

  /** After a save the shard reads on exactly when its commit, its seek and its resumption all
      succeeded, and then from the mark; otherwise the mark stays for the next save. */
  lemma ResumesIff(s: NodeShard, p: Partition, reach: Reaches, shard: ShardId, io: Io, o: Outcome)
    requires s.pause.Some? && o == ReleasedShard(s, p, reach, shard, io)
    ensures o.shard.pause.None? <==>
              && (AfterComplete(s.inflight, reach).advanced ==> shard !in io.commitFails)
              && shard !in io.rewindFails && shard !in io.resumeFails
    ensures o.shard.pause.None? ==> o.partition.position == o.partition.polled == s.pause.value && !o.partition.paused
    ensures o.shard.pause.Some? ==> o.shard.pause == s.pause && o.partition.paused == p.paused
    ensures o.failed <==> o.shard.pause.Some?
    ensures o.shard.actors == s.actors && o.shard.inflight == AfterComplete(s.inflight, reach).window
  {
  }

  /** A commit that fails is not counted, and then nothing else is tried. */
  lemma CommitsIff(s: NodeShard, p: Partition, reach: Reaches, shard: ShardId, io: Io, o: Outcome)
    requires o == ReleasedShard(s, p, reach, shard, io)
    ensures var c := AfterComplete(s.inflight, reach);
            && o.partition.commits == p.commits + (if c.advanced && shard !in io.commitFails then [c.nextOffset] else [])
            && (c.advanced && shard in io.commitFails ==> o.partition == p)
            && (s.pause.None? ==> o.shard.pause.None? && o.partition == p.(commits := o.partition.commits))
  {
    assert p.commits + [] == p.commits;
  }

  // ---------- reading starts where the commits end ----------

  /** What was committed is not read again, and what was not is. */
  lemma ReadsOnFromCommit(env: Env, n: Node, s: ShardId, n': Node)
    requires UsableConfig(env.config) && IsStep(env, n, Subscribe(s), n')
    ensures s in n'.partitions && !n'.partitions[s].paused && n'.partitions[s].commits == PartitionOf(n, s).commits
    ensures var p := n'.partitions[s];
            p.position == p.polled == if p.commits == [] then StartOf(env, s) else p.commits[|p.commits| - 1]
  {
  }

  // ---------- what handlers leave alone ----------

  /** Of actors only `a` and of shards and partitions only `s` may have changed. */
  ghost predicate TouchesOnly(n: Node, a: ActorId, s: ShardId, n': Node) {
    && n' == n.(actors := n'.actors, shards := n'.shards, partitions := n'.partitions)
    && (forall b :: b != a ==> (b in n'.actors <==> b in n.actors))
    && (forall b :: b != a && b in n.actors ==> n'.actors[b] == n.actors[b])
    && n'.shards.Keys == n.shards.Keys
    && (forall t :: t in n.shards && t != s ==> n'.shards[t] == n.shards[t])
    && (forall t :: t != s ==> PartitionOf(n', t) == PartitionOf(n, t))
    && PartitionOf(n', s).position == PartitionOf(n, s).position
  }

  lemma TouchesTwice(n: Node, a: ActorId, s: ShardId, k: Node, n': Node)
    requires TouchesOnly(n, a, s, k) && TouchesOnly(k, a, s, n')
    ensures TouchesOnly(n, a, s, n')
  {
  }

  lemma StartTouches(n: Node, a: ActorId, s: ShardId)
    requires s in n.shards
    ensures TouchesOnly(n, a, s, StartActor(n, a, s))
  {
  }

  lemma AddTouches(n: Node, a: ActorId, s: ShardId, offset: Offset)
    requires s in n.shards
    ensures TouchesOnly(n, a, s, AddInflight(n, s, offset, a))
  {
  }

  lemma OfferTouches(env: Env, n: Node, a: ActorId, s: ShardId, m: Message)
    requires a in n.actors
    ensures TouchesOnly(n, a, s, Offer(env, n, a, m))
  {
  }

  lemma PauseTouches(n: Node, a: ActorId, s: ShardId, offset: Offset, fails: bool)
    requires s in n.shards
    ensures TouchesOnly(n, a, s, PauseShard(n, s, offset, fails))
  {
  }

  lemma DeadLetterTouches(n: Node, s: ShardId, m: Message, io: Io)
    requires s in n.shards
    ensures TouchesOnly(n, m.receiver, s, DeadLetter(n, s, m, io))
  {
  }

  /** A dispatch touches the receiver and its shard, and nothing else of the node. */
  lemma DispatchTouchesOnly(env: Env, n: Node, m: Message, io: Io, n': Node)
    requires n' == Dispatcher(env, n, m, io)
    ensures TouchesOnly(n, m.receiver, ShardOf(env, m.receiver), n')
  {
    var a, s := m.receiver, ShardOf(env, m.receiver);
    if s !in n.registerShards || s !in n.shards || n.shards[s].pause.Some? {
    } else if Full(n.shards[s].inflight, m.offset) {
      PauseTouches(n, a, s, m.offset, io.pauseFails);
    } else if a in n.disableActors {
      DeadLetterTouches(n, s, m, io);
    } else if a !in n.actors && io.startFails {
    } else {
      var started := if a in n.actors then n else StartActor(n, a, s);
      StartTouches(n, a, s);
      DeliveryTouches(env, n, m, s, started, n');
    }
  }

  lemma DeliveryTouches(env: Env, n: Node, m: Message, s: ShardId, started: Node, n': Node)
    requires TouchesOnly(n, m.receiver, s, started) && s in started.shards && m.receiver in started.actors
    requires n' == Offer(env, AddInflight(started, s, m.offset, m.receiver), m.receiver, m)
    ensures TouchesOnly(n, m.receiver, s, n')
  {
    var added := AddInflight(started, s, m.offset, m.receiver);
    AddTouches(started, m.receiver, s, m.offset);
    OfferTouches(env, added, m.receiver, s, m);
    TouchesTwice(n, m.receiver, s, started, added);
    TouchesTwice(n, m.receiver, s, added, n');
  }

  /** An idle actor that may go is told to stop, and no other is; before that the node tries to
      save what it has, unless that actor has nothing to save. */
  lemma RecycleSavesFirst(env: Env, n: Node, a: ActorId, io: Io, saved: Node, n': Node)
    requires a in n.actors && ShardOf(env, a) in n.shards && RecycleTarget(n, a, ShardOf(env, a)).None?
    requires n.actors[a].snapshot.Some? && saved == SnapshotBatch(env, n, io) && n' == RecycleActor(env, n, a, io)
    ensures n'.actors.Keys == n.actors.Keys && n'.stored == saved.stored && n'.shards == saved.shards && n'.partitions == saved.partitions
    ensures n'.actors[a].stopping
    ensures forall b :: b in n.actors ==>
              && n'.actors[b].snapshot == saved.actors[b].snapshot
              && (b != a ==> n'.actors[b].stopping == n.actors[b].stopping)
  {
    SavedActorsStay(env, n, io, saved);
  }

  lemma SavedActorsStay(env: Env, n: Node, io: Io, saved: Node)
    requires saved == SnapshotBatch(env, n, io)
    ensures saved.actors.Keys == n.actors.Keys
    ensures forall b :: b in n.actors ==> saved.actors[b].stopping == n.actors[b].stopping
  {
  }

  /** What a stopped actor told last is saved before it leaves. */
  lemma LastIsSaved(env: Env, n: Node, a: ActorId, io: Io, saved: Node, n': Node)
    requires a in n.actors && n.actors[a].snapshot.Some? && !io.saveFails && n' == ReceiveStopped(env, n, a, io)
    requires saved == SnapshotOne(env, n, a, io)
    ensures n.actors[a].snapshot.value in saved.stored && n'.stored == saved.stored && n'.actors.Keys == n.actors.Keys - {a}
  {
    SaveTouchesOnly(env, n, SavedActors(n, {a}), io, saved);
    StoppedLeaves(env, n, a, io, saved, n');
  }

  lemma StoppedLeaves(env: Env, n: Node, a: ActorId, io: Io, saved: Node, n': Node)
    requires a in n.actors && saved == SnapshotOne(env, n, a, io) && saved.actors.Keys == n.actors.Keys
    requires n' == ReceiveStopped(env, n, a, io)
    ensures n'.stored == saved.stored && n'.actors.Keys == n.actors.Keys - {a}
  {
    RemovedLeaves(env, saved, a, RemoveActor(env, saved, a));
  }

  lemma RemovedLeaves(env: Env, n: Node, a: ActorId, n': Node)
    requires a in n.actors && n' == RemoveActor(env, n, a)
    ensures n'.stored == n.stored && n'.actors.Keys == n.actors.Keys - {a}
  {
  }

  /** What a dead letter leaves in flight, and what it commits. */
  function DeadLettered(w: Window, m: Message): (Window, Reaches) {
    (Add(w, m.offset, m.receiver), map[m.receiver := m.offset])
  }

  lemma DeadLetterDoes(n: Node, s: ShardId, m: Message, io: Io, n': Node)
    requires s in n.shards && n' == DeadLetter(n, s, m, io)
    ensures s in n'.shards && n'.actors == n.actors
    ensures var (added, reach) := DeadLettered(n.shards[s].inflight, m);
            var c := AfterComplete(added, reach);
            && n'.shards[s].inflight == c.window
            && PartitionOf(n', s).commits
               == if c.advanced && s !in io.commitFails then PartitionOf(n, s).commits + [c.nextOffset] else PartitionOf(n, s).commits
  {
  }

  lemma DeadLetterLeaves(w: Window, m: Message)
    requires Valid(w) && 0 <= m.offset && SameReceiver(w, m.offset, m.receiver)
    requires forall o :: o in ListOf(w, m.receiver) ==> o <= m.offset
    ensures var (added, reach) := DeadLettered(w, m);
            var c := AfterComplete(added, reach);
            && (forall o :: o in c.window.offsetActor <==> o in w.offsetActor && w.offsetActor[o] != m.receiver)
            && (w.offsetActor == map[] ==> c.advanced && c.nextOffset == m.offset + 1)
  {
    var (added, reach) := DeadLettered(w, m);
    AddKeepsValid(w, m.offset, m.receiver);
    AddedUpTo(w, m);
    DeadLetterReleases(added, m.offset, m.receiver);
    if w.offsetActor == map[] { AllReachedCommitsAll(added, reach); }
  }

  lemma AddedUpTo(w: Window, m: Message)
    requires forall o :: o in ListOf(w, m.receiver) ==> o <= m.offset
    ensures forall o :: o in ListOf(Add(w, m.offset, m.receiver), m.receiver) ==> o <= m.offset
  {
  }

  /** A message for a disabled actor is not in flight afterwards, nor is anything before it that
      was in flight for the actor, and alone in the window it is committed. */
  lemma DeadLetterCompletes(n: Node, s: ShardId, m: Message, io: Io, n': Node, w: Window)
    requires s in n.shards && n' == DeadLetter(n, s, m, io) && w == n.shards[s].inflight && Valid(w) && 0 <= m.offset
    requires SameReceiver(w, m.offset, m.receiver) && forall o :: o in ListOf(w, m.receiver) ==> o <= m.offset
    ensures s in n'.shards && n'.actors == n.actors
    ensures forall o :: o in n'.shards[s].inflight.offsetActor <==> o in w.offsetActor && w.offsetActor[o] != m.receiver
    ensures w.offsetActor == map[] && s !in io.commitFails ==> PartitionOf(n', s).commits == PartitionOf(n, s).commits + [m.offset + 1]
  {
    DeadLetterDoes(n, s, m, io, n');
    DeadLetterLeaves(w, m);
  }

  lemma DeadLetterReleases(w: Window, offset: Offset, a: ActorId)
    requires Valid(w) && forall o :: o in ListOf(w, a) ==> o <= offset
    ensures forall o :: o in AfterComplete(w, map[a := offset]).window.offsetActor <==> o in w.offsetActor && w.offsetActor[o] != a
  {
    forall o | o in w.offsetActor ensures Released(w, map[a := offset], o) <==> w.offsetActor[o] == a {
      AllOfOneReleased(w, offset, a, o);
    }
  }

  lemma AllOfOneReleased(w: Window, offset: Offset, a: ActorId, o: Offset)
    requires Valid(w) && o in w.offsetActor && forall p :: p in ListOf(w, a) ==> p <= offset
    ensures Released(w, map[a := offset], o) <==> w.offsetActor[o] == a
  {
    var list := ListOf(w, a);
    AllLead(list, offset);
    assert list[..|list|] == list;
    assert o in ListOf(w, w.offsetActor[o]);
  }

  /** Registering a shard that is there already keeps its actors, its window and its mark. */
  lemma StartShardKeeps(env: Env, n: Node, s: ShardId, n': Node)
    requires n' == StartShard(env, n, s)
    ensures n'.registerShards == n.registerShards + {s} && n'.actors == n.actors && n'.partitions == n.partitions
    ensures forall t :: t in n'.shards <==> t in n.shards || t == s
    ensures forall t :: t in n.shards ==> n'.shards[t] == n.shards[t]
    ensures s !in n.shards ==> n'.shards[s].actors == {} && n'.shards[s].inflight.offsetActor == map[] && n'.shards[s].pause.None?
  {
    if s !in n.shards {
      assert n'.shards == n.shards[s := NodeShard({}, Empty(env.windowLimit), None)];
    }
  }

  /** An idle actor with something in flight is read again from the oldest of it, and one that is
      only paused from where the pause began; neither is told to stop. */
  lemma RecycleSeeksOldest(env: Env, n: Node, a: ActorId, s: ShardId, io: Io, q: Offset, n': Node)
    requires a in n.actors && s == ShardOf(env, a) && s in n.shards && !io.seekFails && n' == RecycleActor(env, n, a, io)
    requires var list := ListOf(n.shards[s].inflight, a);
             if list != [] then q in list && forall o :: o in list ==> q <= o else n.actors[a].pause == Some(q)
    ensures n'.actors == n.actors && n'.shards == n.shards && s in n'.partitions
    ensures n'.partitions[s].position == n'.partitions[s].polled == q
  {
    var list := ListOf(n.shards[s].inflight, a);
    if list != [] {
      var offsets := set o | o in list;
      assert q in offsets;
      MinOfUnique(offsets, q);
    }
  }
}
