/** What a batch of saved snapshots amounts to, one actor and one shard at a time. */
module NodeBatch {
  import opened Types
  import opened InflightWindow
  import opened ActorModel
  import opened NodeModel

  function Ids(success: seq<ActorId>): (r: set<ActorId>)
    ensures forall a :: a in r <==> a in success
  {
    set a | a in success
  }

  function Disabled(actors: map<ActorId, NodeActor>, done: set<ActorId>): map<ActorId, NodeActor> {
    map a | a in actors :: if a in done then actors[a].(snapshot := None) else actors[a]
  }

  function Enabled(actors: map<ActorId, NodeActor>, ids: set<ActorId>): set<ActorId> {
    set a | a in actors && actors[a].snapshot.Some? && a in ids
  }

  function SnapshotsOf(actors: map<ActorId, NodeActor>, ids: set<ActorId>): set<ActorSnapshot> {
    set a | a in actors && actors[a].snapshot.Some? && a in ids :: actors[a].snapshot.value
  }

  function ReachIn(env: Env, actors: map<ActorId, NodeActor>, done: set<ActorId>, shard: ShardId): Reaches {
    map a | a in done && a in actors && actors[a].snapshot.Some? && ShardOf(env, a) == shard :: actors[a].snapshot.value.offset
  }

  /** `completed` lists what `done` completes, shard by shard. */
  ghost predicate CompletedFor(env: Env, actors: map<ActorId, NodeActor>, done: set<ActorId>, completed: map<ShardId, seq<Completion>>) {
    && (forall s :: s in completed <==> ReachIn(env, actors, done, s) != map[])
    && (forall s :: s in completed ==> Reach(completed[s]) == ReachIn(env, actors, done, s))
  }

  function ListFor(completed: map<ShardId, seq<Completion>>, s: ShardId): seq<Completion> {
    if s in completed then completed[s] else []
  }

  lemma ReachAppended(list: seq<Completion>, c: Completion)
    ensures Reach(list + [c]) == Extend(Reach(list), c.actorId, c.maxOffset)
  {
  }

  lemma ReachGrows(env: Env, actors: map<ActorId, NodeActor>, done: set<ActorId>, a: ActorId, s: ShardId)
    requires a in actors && actors[a].snapshot.Some? && a !in done
    ensures ReachIn(env, actors, done + {a}, s)
         == if ShardOf(env, a) == s then ReachIn(env, actors, done, s)[a := actors[a].snapshot.value.offset]
            else ReachIn(env, actors, done, s)
  {
  }

  lemma CompletedGrows(env: Env, actors: map<ActorId, NodeActor>, done: set<ActorId>, completed: map<ShardId, seq<Completion>>, a: ActorId)
    requires CompletedFor(env, actors, done, completed) && a in actors && actors[a].snapshot.Some? && a !in done
    ensures var s := ShardOf(env, a);
            CompletedFor(env, actors, done + {a},
                         completed[s := ListFor(completed, s) + [Completion(a, actors[a].snapshot.value.offset)]])
  {
    var s := ShardOf(env, a);
    ReachAppended(ListFor(completed, s), Completion(a, actors[a].snapshot.value.offset));
    forall t ensures ReachIn(env, actors, done + {a}, t)
                  == if s == t then ReachIn(env, actors, done, t)[a := actors[a].snapshot.value.offset]
                     else ReachIn(env, actors, done, t)
    {
      ReachGrows(env, actors, done, a, t);
    }
    assert ReachIn(env, actors, done, s)[a := actors[a].snapshot.value.offset] != map[];
  }

  /** One more reported id: it counts if its snapshot is still enabled. */
  lemma EnabledGrows(actors: map<ActorId, NodeActor>, success: seq<ActorId>, k: nat)
    requires k < |success|
    ensures var a, done := success[k], Enabled(actors, Ids(success[..k]));
            Enabled(actors, Ids(success[..k + 1]))
            == if a in actors && Disabled(actors, done)[a].snapshot.Some? then done + {a} else done
  {
  }

  lemma DisabledGrows(actors: map<ActorId, NodeActor>, done: set<ActorId>, a: ActorId)
    requires a in actors
    ensures Disabled(actors, done)[a := Disabled(actors, done)[a].(snapshot := None)] == Disabled(actors, done + {a})
  {
  }

  // ---------- the shards ----------

  ghost function OutcomeFor(s: NodeShard, p: Partition, completed: map<ShardId, seq<Completion>>, shard: ShardId, io: Io): Outcome {
    if shard in completed then ReleasedShard(s, p, Reach(completed[shard]), shard, io) else Outcome(s, p, false)
  }

  ghost predicate AllReleased(shards: map<ShardId, NodeShard>, partitions: map<ShardId, Partition>, completed: map<ShardId, seq<Completion>>, io: Io,
                              shards': map<ShardId, NodeShard>, partitions': map<ShardId, Partition>)
  {
    && shards'.Keys == shards.Keys && partitions'.Keys == partitions.Keys && shards.Keys <= partitions.Keys
    && (forall s :: s in shards ==>
          && shards'[s] == OutcomeFor(shards[s], partitions[s], completed, s, io).shard
          && partitions'[s] == OutcomeFor(shards[s], partitions[s], completed, s, io).partition)
    && (forall s :: s in partitions && s !in shards ==> partitions'[s] == partitions[s])
  }

  /** Releasing the listed shards one by one is what `NodeModel.Saved` does to all at once. */
  lemma ReleasedIsSaved(env: Env, n: Node, done: set<ActorId>, completed: map<ShardId, seq<Completion>>, io: Io, n': Node)
    requires CompletedFor(env, n.actors, done, completed)
    requires AllReleased(n.shards, n.partitions, completed, io, n'.shards, n'.partitions)
    ensures Saved(env, n, done, io).shards == n'.shards && Saved(env, n, done, io).partitions == n'.partitions
  {
    var saved := Saved(env, n, done, io);
    forall s | s in n.shards ensures saved.shards[s] == n'.shards[s] && saved.partitions[s] == n'.partitions[s] {
      assert ReachOn(env, n, done, s) == ReachIn(env, n.actors, done, s);
    }
    assert saved.shards.Keys == n.shards.Keys;
    assert n'.shards.Keys == n.shards.Keys;
    assert forall s :: s in saved.shards ==> saved.shards[s] == n'.shards[s];
    SameMap(saved.shards, n'.shards);
    SameMap(saved.partitions, n'.partitions);
  }

  lemma SameMap<K, V>(m: map<K, V>, m': map<K, V>)
    requires m.Keys == m'.Keys && forall k :: k in m ==> m[k] == m'[k]
    ensures m == m'
  {
  }

  lemma BatchIsSaved(env: Env, n: Node, ids: set<ActorId>, completed: map<ShardId, seq<Completion>>, io: Io, n': Node)
    requires CompletedFor(env, n.actors, Enabled(n.actors, ids), completed) && !io.saveFails && io.saved == ids
    requires AllReleased(n.shards, n.partitions, completed, io, n'.shards, n'.partitions)
    requires n' == n.(actors := Disabled(n.actors, Enabled(n.actors, ids)), stored := n.stored + SnapshotsOf(n.actors, ids),
                      shards := n'.shards, partitions := n'.partitions)
    ensures n' == SnapshotBatch(env, n, io)
  {
    assert SavedActors(n, ids) == Enabled(n.actors, ids);
    ReleasedIsSaved(env, n, Enabled(n.actors, ids), completed, io, n');
    var saved := Saved(env, n, Enabled(n.actors, ids), io);
    assert saved.actors == n'.actors;
    assert n'.stored == saved.stored by {
      forall s ensures s in SnapshotsOf(n.actors, ids)
                   <==> s in set a | a in Enabled(n.actors, ids) && a in n.actors && n.actors[a].snapshot.Some? :: n.actors[a].snapshot.value
      {
      }
    }
  }

  lemma OneMoreReleased(shards: map<ShardId, NodeShard>, partitions: map<ShardId, Partition>, some: map<ShardId, seq<Completion>>, io: Io,
                        shards1: map<ShardId, NodeShard>, partitions1: map<ShardId, Partition>,
                        shard: ShardId, list: seq<Completion>,
                        shards2: map<ShardId, NodeShard>, partitions2: map<ShardId, Partition>)
    requires AllReleased(shards, partitions, some, io, shards1, partitions1) && shard !in some
    requires shard !in shards1 ==> shards2 == shards1 && partitions2 == partitions1
    requires shard in shards1 ==>
               var o := ReleasedShard(shards1[shard], partitions1[shard], Reach(list), shard, io);
               shards2 == shards1[shard := o.shard] && partitions2 == partitions1[shard := o.partition]
    ensures AllReleased(shards, partitions, some[shard := list], io, shards2, partitions2)
  {
  }

  lemma NoneEnabled(env: Env, actors: map<ActorId, NodeActor>)
    ensures Enabled(actors, Ids([])) == {} && Disabled(actors, {}) == actors
    ensures CompletedFor(env, actors, {}, map[])
  {
  }

  lemma SnapshotsGrow(actors: map<ActorId, NodeActor>, left: set<ActorId>, a: ActorId)
    requires a in left && left <= actors.Keys
    ensures SnapshotsOf(actors, actors.Keys - (left - {a}))
         == SnapshotsOf(actors, actors.Keys - left) + if actors[a].snapshot.Some? then {actors[a].snapshot.value} else {}
  {
  }

  lemma PutSame<K, V>(m: map<K, V>, k: K)
    requires k in m
    ensures m[k := m[k]] == m
  {
  }

  lemma Twice<K, V>(m: map<K, V>, k: K, v: V, v': V)
    ensures m[k := v][k := v'] == m[k := v']
  {
  }

  /** The part of `completed` whose shards are not left. */
  function Without(completed: map<ShardId, seq<Completion>>, left: set<ShardId>): map<ShardId, seq<Completion>> {
    map s | s in completed && s !in left :: completed[s]
  }

  lemma WithoutLess(completed: map<ShardId, seq<Completion>>, left: set<ShardId>, s: ShardId)
    requires s in left && s in completed
    ensures s !in Without(completed, left)
    ensures Without(completed, left)[s := completed[s]] == Without(completed, left - {s})
  {
  }

  lemma WithoutAll(completed: map<ShardId, seq<Completion>>)
    ensures Without(completed, completed.Keys) == map[] && Without(completed, {}) == completed
  {
  }

  // ---------- one snapshot ----------

  lemma NothingSaved(env: Env, n: Node, a: ActorId, io: Io)
    requires a !in n.actors || n.actors[a].snapshot.None? || io.saveFails
    ensures SnapshotOne(env, n, a, io) == n
  {
    if !io.saveFails {
      assert SavedActors(n, {a}) == {};
      var saved := Saved(env, n, {}, io);
      assert forall s :: ReachOn(env, n, {}, s) == map[];
      SameMap(saved.shards, n.shards);
      SameMap(saved.partitions, n.partitions);
      SameMap(saved.actors, n.actors);
      assert saved.stored == n.stored;
    }
  }

  /** Disabling one snapshot and releasing its shard is saving the batch of that one. */
  lemma OneIsSaved(env: Env, n: Node, a: ActorId, shard: ShardId, io: Io, n': Node)
    requires a in n.actors && n.actors[a].snapshot.Some? && shard == ShardOf(env, a) && !io.saveFails
    requires n.shards.Keys <= n.partitions.Keys
    requires n' == n.(actors := n.actors[a := n.actors[a].(snapshot := None)], stored := n.stored + SnapshotsOf(n.actors, Ids([a])),
                      shards := n'.shards, partitions := n'.partitions)
    requires shard !in n.shards ==> n'.shards == n.shards && n'.partitions == n.partitions
    requires shard in n.shards ==>
               var o := ReleasedShard(n.shards[shard], n.partitions[shard], Reach([Completion(a, n.actors[a].snapshot.value.offset)]), shard, io);
               n'.shards == n.shards[shard := o.shard] && n'.partitions == n.partitions[shard := o.partition]
    ensures n' == SnapshotOne(env, n, a, io)
  {
    var list := [Completion(a, n.actors[a].snapshot.value.offset)];
    OneCompleted(env, n.actors, a);
    assert Disabled(n.actors, {a}) == n'.actors;
    var before: map<ShardId, seq<Completion>> := map[];
    OneMoreReleased(n.shards, n.partitions, before, io, n.shards, n.partitions, shard, list, n'.shards, n'.partitions);
    SameIo(env, n, a, io);
    OneReleasedIo(n.shards, n.partitions, before[shard := list], io, n'.shards, n'.partitions, io.(saved := {a}));
    BatchIsSaved(env, n, {a}, before[shard := list], io.(saved := {a}), n');
  }

  lemma OneCompleted(env: Env, actors: map<ActorId, NodeActor>, a: ActorId)
    requires a in actors && actors[a].snapshot.Some?
    ensures Ids([a]) == {a} && Enabled(actors, {a}) == {a}
    ensures CompletedFor(env, actors, {a}, map[][ShardOf(env, a) := [Completion(a, actors[a].snapshot.value.offset)]])
  {
    NoneEnabled(env, actors);
    CompletedGrows(env, actors, {}, map[], a);
    assert {} + {a} == {a};
    assert [] + [Completion(a, actors[a].snapshot.value.offset)] == [Completion(a, actors[a].snapshot.value.offset)];
  }

  lemma OneReleasedIo(shards: map<ShardId, NodeShard>, partitions: map<ShardId, Partition>, completed: map<ShardId, seq<Completion>>, io: Io,
                      shards': map<ShardId, NodeShard>, partitions': map<ShardId, Partition>, other: Io)
    requires AllReleased(shards, partitions, completed, io, shards', partitions') && other == io.(saved := other.saved)
    ensures AllReleased(shards, partitions, completed, other, shards', partitions')
  {
  }

  /** A single save does not look at the ids reported. */
  lemma SameIo(env: Env, n: Node, a: ActorId, io: Io)
    ensures SnapshotOne(env, n, a, io) == SnapshotBatch(env, n, io.(saved := {a}))
  {
    if !io.saveFails {
      var one, batch := SnapshotOne(env, n, a, io), SnapshotBatch(env, n, io.(saved := {a}));
      SameMap(one.shards, batch.shards);
      SameMap(one.partitions, batch.partitions);
    }
  }

  // ---------- stopping ----------

  function StoppedIn(actors: map<ActorId, NodeActor>, ids: set<ActorId>): map<ActorId, NodeActor> {
    map a | a in actors :: if a in ids then actors[a].(stopping := true) else actors[a]
  }

  lemma StoppedOne(actors: map<ActorId, NodeActor>, a: ActorId)
    ensures StoppedIn(actors, {a}) == if a in actors then actors[a := actors[a].(stopping := true)] else actors
  {
  }

  lemma StoppedNone(actors: map<ActorId, NodeActor>)
    ensures StoppedIn(actors, {}) == actors
  {
  }

  lemma StoppedTwice(actors: map<ActorId, NodeActor>, ids: set<ActorId>, more: set<ActorId>)
    ensures StoppedIn(StoppedIn(actors, ids), more) == StoppedIn(actors, ids + more)
  {
  }

  /** What `GetMinOffset` finds is the least offset in the actor's list. */
  lemma LeastIs(w: Window, a: ActorId, r: Option<Offset>)
    requires Valid(w)
    requires r.None? <==> forall o :: o in w.offsetActor ==> w.offsetActor[o] != a
    requires r.Some? ==> r.value in w.offsetActor && w.offsetActor[r.value] == a
    requires r.Some? ==> forall o :: o in w.offsetActor && w.offsetActor[o] == a ==> r.value <= o
    ensures r == LeastInflight(w, a)
  {
    assert forall o :: o in ListOf(w, a) <==> o in w.offsetActor && w.offsetActor[o] == a;
    if r.Some? {
      assert r.value in ListOf(w, a);
      MinOfUnique((set o | o in ListOf(w, a)), r.value);
    } else {
      assert ListOf(w, a) != [] ==> ListOf(w, a)[0] in ListOf(w, a);
    }
  }

  function ActorsIn(shards: map<ShardId, NodeShard>, ids: set<ShardId>): set<ActorId> {
    set s, a | s in shards && s in ids && a in shards[s].actors :: a
  }

  lemma ActorsGrow(shards: map<ShardId, NodeShard>, left: set<ShardId>, s: ShardId)
    requires s in left && left <= shards.Keys
    ensures ActorsIn(shards, shards.Keys - (left - {s})) == ActorsIn(shards, shards.Keys - left) + shards[s].actors
  {
  }

  lemma ActorsInNone(shards: map<ShardId, NodeShard>)
    ensures ActorsIn(shards, shards.Keys - shards.Keys) == {}
  {
  }

  lemma ActorsInAll(n: Node)
    ensures ActorsIn(n.shards, n.shards.Keys) == ActorsOfShards(n)
  {
  }

  lemma ReachOfOne(a: ActorId, m: Offset)
    ensures Reach([Completion(a, m)]) == map[a := m]
  {
  }

  lemma DeadLetterIs(n: Node, shard: ShardId, m: Message, io: Io, n': Node)
    requires shard in n.shards && shard in n.partitions
    requires var c := CompletedShard(NodeModel.AddInflight(n, shard, m.offset, m.receiver).shards[shard], n.partitions[shard],
                                     map[m.receiver := m.offset], shard in io.commitFails);
             n' == n.(shards := NodeModel.AddInflight(n, shard, m.offset, m.receiver).shards[shard := c.shard],
                      partitions := n.partitions[shard := c.partition])
    ensures n' == DeadLetter(n, shard, m, io)
  {
  }

  lemma StartedIs(n: Node, a: ActorId, shard: ShardId, n': Node)
    requires shard in n.shards && a !in n.actors
    requires n' == n.(actors := n.actors[a := NodeActor(false, None, None, None, NewProc(a, if a in n.past then n.past[a] else NO_HISTORY))],
                      shards := n.shards[shard := n.shards[shard].(actors := n.shards[shard].actors + {a})])
    ensures n' == StartActor(n, a, shard)
  {
  }

  lemma PausedIs(n: Node, shard: ShardId, offset: Offset, marked: Node, n': Node)
    requires shard in n.shards && shard in n.partitions && marked == PauseShard(n, shard, offset, true)
    requires n' == marked.(partitions := marked.partitions[shard := marked.partitions[shard].(paused := true)])
    ensures n' == PauseShard(n, shard, offset, false)
  {
  }
}
