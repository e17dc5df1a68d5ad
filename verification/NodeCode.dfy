/**
  The node as the code has it (core/node.go): handlers that update maps of shards and actors
  in place.  Each is proved to do to `View` what `NodeModel` says of it.

  The calls into the broker, the store and the factory are answered by an `Io`; what they
  change on the other side is kept in `partitions` and `stored`.
*/
module NodeCode {
  import opened Types
  import opened InflightWindow
  import opened ActorModel
  import opened NodeModel
  import opened NodeIndex
  import opened SnapshotNames
  import opened NodeBatch

  /** `NodeShard` with its window in place. */
  datatype Shard = Shard(actors: set<ActorId>, inflight: Inflight, pause: Option<Offset>)

  class Node {
    const env: Env
    var registerShards: set<ShardId>
    var shards: map<ShardId, Shard>
    var actors: map<ActorId, NodeActor>
    var disableActors: set<ActorId>
    var stopping: bool
    var endSignals: nat
    var exited: bool
    var partitions: map<ShardId, Partition>
    var stored: set<ActorSnapshot>
    var past: map<ActorId, History>

    ghost function Windows(): set<Inflight>
      reads this
    {
      set s | s in shards :: shards[s].inflight
    }

    ghost function ShardsView(): map<ShardId, NodeShard>
      reads this, Windows()
    {
      map s | s in shards :: NodeShard(shards[s].actors, shards[s].inflight.View(), shards[s].pause)
    }

    ghost function View(): NodeModel.Node
      reads this, Windows()
    {
      NodeModel.Node(registerShards, ShardsView(), actors, disableActors, stopping, endSignals, exited,
                     partitions, stored, past)
    }

    /** Each shard has a window of its own, and snapshots are kept under the id they carry. */
    ghost predicate Shaped()
      reads this
    {
      && (forall s, t :: s in shards && t in shards && s != t ==> shards[s].inflight != shards[t].inflight)
      && forall a :: a in actors ==> Named(a, actors[a])
    }

    /** Moreover the windows are valid and the partitions of all shards assigned. */
    ghost predicate Valid()
      reads this, Windows()
    {
      && Shaped()
      && (forall s :: s in shards ==> InflightWindow.Valid(shards[s].inflight.View()))
      && shards.Keys <= partitions.Keys
    }

    constructor (env: Env)
      ensures Valid() && View() == NodeModel.Idle({}, map[], map[]) && this.env == env
    {
      this.env := env;
      registerShards, shards, actors, disableActors := {}, map[], map[], {};
      stopping, endSignals, exited := false, 0, false;
      partitions, stored, past := map[], {}, map[];
    }

    // ---------- the broker ----------

    /** The broker has answered, and this is what it holds of `shard` now. */
    method Broker(shard: ShardId, p: Partition)
      requires Valid()
      modifies this`partitions
      ensures Valid() && Windows() == old(Windows())
      ensures ShardsView() == old(ShardsView()) && partitions == old(partitions)[shard := p]
    {
      partitions := partitions[shard := p];
      assert forall s :: s in shards ==> shards[s].inflight.View() == old(shards[s].inflight.View());
    }

    method Seek(shard: ShardId, offset: Offset, fails: bool)
      requires Valid()
      modifies this`partitions
      ensures Valid() && Windows() == old(Windows()) && View() == NodeModel.Seek(old(View()), shard, offset, fails)
    {
      if !fails {
        Broker(shard, Sought(if shard in partitions then partitions[shard] else Partition(0, 0, false, []), offset));
      }
    }

    /** The fields of a shard other than its window are set. */
    method PutShard(shard: ShardId, ids: set<ActorId>, pause: Option<Offset>)
      requires Valid() && shard in shards
      modifies this`shards
      ensures Valid() && Windows() == old(Windows()) && shards.Keys == old(shards.Keys)
      ensures ShardsView() == old(ShardsView())[shard := old(ShardsView())[shard].(actors := ids, pause := pause)]
    {
      shards := shards[shard := shards[shard].(actors := ids, pause := pause)];
      assert forall s :: s in shards ==> shards[s].inflight.View() == old(shards[s].inflight.View());
    }

    // ---------- completing and resuming ----------

    method CompleteWindow(shard: ShardId, list: seq<Completion>) returns (nextOffset: Offset, advanced: bool)
      requires Valid() && shard in shards
      modifies Windows()
      ensures Valid() && Windows() == old(Windows())
      ensures var c := AfterComplete(old(ShardsView())[shard].inflight, Reach(list));
              && nextOffset == c.nextOffset && advanced == c.advanced
              && ShardsView() == old(ShardsView())[shard := old(ShardsView())[shard].(inflight := c.window)]
    {
      ghost var before := ShardsView();
      nextOffset, advanced := shards[shard].inflight.Complete(list);
      forall s | s in shards && s != shard
        ensures shards[s].inflight.View() == before[s].inflight && InflightWindow.Valid(shards[s].inflight.View())
      {
        assert shards[s].inflight != shards[shard].inflight;
      }
      SameMap(ShardsView(), before[shard := before[shard].(inflight := shards[shard].inflight.View())]);
    }

    method CompleteOffset(shard: ShardId, list: seq<Completion>, commitFails: bool) returns (failed: bool)
      requires Valid()
      modifies this`partitions, Windows()
      ensures Valid() && Windows() == old(Windows())
      ensures shard !in shards ==> !failed && ShardsView() == old(ShardsView()) && partitions == old(partitions)
      ensures shard in shards ==>
                var o := CompletedShard(old(ShardsView())[shard], old(partitions[shard]), Reach(list), commitFails);
                && failed == o.failed && ShardsView() == old(ShardsView())[shard := o.shard]
                && partitions == old(partitions)[shard := o.partition]
    {
      if shard !in shards {
        return false;
      }
      failed := CompleteKnown(shard, list, commitFails);
    }

    /** The shard exists: its window is completed, and what that yields committed. */
    method CompleteKnown(shard: ShardId, list: seq<Completion>, commitFails: bool) returns (failed: bool)
      requires Valid() && shard in shards
      modifies this`partitions, Windows()
      ensures Valid() && Windows() == old(Windows())
      ensures var o := CompletedShard(old(ShardsView())[shard], old(partitions[shard]), Reach(list), commitFails);
              && failed == o.failed && ShardsView() == old(ShardsView())[shard := o.shard]
              && partitions == old(partitions)[shard := o.partition]
    {
      PutSame(partitions, shard);
      var nextOffset, advanced := CompleteWindow(shard, list);
      if !advanced {
        return false;
      }
      if commitFails {
        return true;
      }
      Broker(shard, partitions[shard].(commits := partitions[shard].commits + [nextOffset]));
      return false;
    }

    method ResumeOffset(shard: ShardId, rewindFails: bool, resumeFails: bool) returns (failed: bool)
      requires Valid()
      modifies this`partitions, this`shards
      ensures Valid() && shards.Keys == old(shards.Keys) && Windows() == old(Windows())
      ensures shard !in shards ==> !failed && ShardsView() == old(ShardsView()) && partitions == old(partitions)
      ensures shard in shards ==>
                var o := ResumedShard(old(ShardsView())[shard], old(partitions[shard]), rewindFails, resumeFails);
                && failed == o.failed && ShardsView() == old(ShardsView())[shard := o.shard]
                && partitions == old(partitions)[shard := o.partition]
    {
      if shard !in shards || shards[shard].pause.None? {
        return false;
      }
      var offset := shards[shard].pause.value;
      if rewindFails {
        return true;
      }
      Broker(shard, Sought(partitions[shard], offset));
      if resumeFails {
        return true;
      }
      Twice(old(partitions), shard, partitions[shard], partitions[shard].(paused := false));
      Broker(shard, partitions[shard].(paused := false));
      PutShard(shard, shards[shard].actors, None);
      return false;
    }

    /** Completes a list for one shard, and lets it read on if it was paused. */
    method Release(shard: ShardId, list: seq<Completion>, io: Io)
      requires Valid()
      modifies this`partitions, this`shards, Windows()
      ensures Valid() && shards.Keys == old(shards.Keys) && Windows() == old(Windows())
      ensures shard !in shards ==> ShardsView() == old(ShardsView()) && partitions == old(partitions)
      ensures shard in shards ==>
                var o := ReleasedShard(old(ShardsView())[shard], old(partitions[shard]), Reach(list), shard, io);
                ShardsView() == old(ShardsView())[shard := o.shard] && partitions == old(partitions)[shard := o.partition]
    {
      var failed := CompleteOffset(shard, list, shard in io.commitFails);
      if failed {
        return;
      }
      ghost var shards1, partitions1 := ShardsView(), partitions;
      failed := ResumeOffset(shard, shard in io.rewindFails, shard in io.resumeFails);
      if shard in shards {
        Twice(old(ShardsView()), shard, shards1[shard], ShardsView()[shard]);
        Twice(old(partitions), shard, partitions1[shard], partitions[shard]);
      }
    }

    // ---------- snapshots ----------

    /** The enabled snapshots, in whatever order the map of actors is walked. */
    method EnabledSnapshots() returns (snapshots: seq<ActorSnapshot>)
      ensures forall s :: s in snapshots <==> s in SnapshotsOf(actors, actors.Keys)
    {
      snapshots := [];
      var left := actors.Keys;
      while left != {}
        invariant left <= actors.Keys
        invariant forall s :: s in snapshots <==> s in SnapshotsOf(actors, actors.Keys - left)
        decreases left
      {
        var a := Choose(left);
        ghost var was := left;
        left := left - {a};
        SnapshotsGrow(actors, was, a);
        if actors[a].snapshot.Some? {
          snapshots := snapshots + [actors[a].snapshot.value];
        }
      }
      assert actors.Keys - left == actors.Keys;
    }

    /** The first loop of `snapshotBatch` over the reported ids: each snapshot still enabled
        is disabled and its completion filed under its shard. */
    method CollectCompleted(success: seq<ActorId>) returns (completed: map<ShardId, seq<Completion>>)
      requires Valid()
      modifies this`actors
      ensures Valid() && Windows() == old(Windows()) && ShardsView() == old(ShardsView())
      ensures actors == Disabled(old(actors), Enabled(old(actors), Ids(success)))
      ensures CompletedFor(env, old(actors), Enabled(old(actors), Ids(success)), completed)
    {
      completed := map[];
      ghost var was := actors;
      NoneEnabled(env, was);
      for k := 0 to |success|
        invariant actors == Disabled(was, Enabled(was, Ids(success[..k])))
        invariant CompletedFor(env, was, Enabled(was, Ids(success[..k])), completed)
      {
        var a := success[k];
        EnabledGrows(was, success, k);
        if a !in actors || actors[a].snapshot.None? {
          continue;
        }
        assert Named(a, was[a]);
        var snapshot, shard := actors[a].snapshot.value, ShardOf(env, actors[a].proc.id);
        ghost var done := Enabled(was, Ids(success[..k]));
        CompletedGrows(env, was, done, completed, a);
        DisabledGrows(was, done, a);
        actors := actors[a := actors[a].(snapshot := None)];
        completed := completed[shard := ListFor(completed, shard) + [Completion(snapshot.actorId, snapshot.offset)]];
      }
      assert success[..|success|] == success;
      assert forall s :: s in shards ==> shards[s].inflight.View() == old(shards[s].inflight.View());
    }

    /** The second loop, over the shards in whatever order. */
    method ReleaseAll(completed: map<ShardId, seq<Completion>>, io: Io)
      requires Valid()
      modifies this`partitions, this`shards, Windows()
      ensures Valid() && Windows() == old(Windows())
      ensures AllReleased(old(ShardsView()), old(partitions), completed, io, ShardsView(), partitions)
    {
      ghost var shards0, partitions0 := ShardsView(), partitions;
      WithoutAll(completed);
      var left := completed.Keys;
      while left != {}
        invariant Valid() && Windows() == old(Windows()) && left <= completed.Keys
        invariant AllReleased(shards0, partitions0, Without(completed, left), io, ShardsView(), partitions)
        decreases left
      {
        var shard := Choose(left);
        ghost var shards1, partitions1 := ShardsView(), partitions;
        Release(shard, completed[shard], io);
        OneMoreReleased(shards0, partitions0, Without(completed, left), io, shards1, partitions1,
                        shard, completed[shard], ShardsView(), partitions);
        WithoutLess(completed, left, shard);
        left := left - {shard};
      }
    }

    /** What the store does when it reports `success`. */
    method Store(success: seq<ActorId>)
      requires Valid()
      modifies this`stored
      ensures Valid() && Windows() == old(Windows()) && ShardsView() == old(ShardsView())
      ensures stored == old(stored) + SnapshotsOf(actors, Ids(success))
    {
      stored := stored + SnapshotsOf(actors, Ids(success));
      assert forall s :: s in shards ==> shards[s].inflight.View() == old(shards[s].inflight.View());
    }

    /** The reported snapshots are disabled and their shards released. */
    method FinishBatch(success: seq<ActorId>, io: Io) returns (ghost completed: map<ShardId, seq<Completion>>)
      requires Valid()
      modifies this`actors, this`stored, this`partitions, this`shards, Windows()
      ensures Valid() && Windows() == old(Windows())
      ensures actors == Disabled(old(actors), Enabled(old(actors), Ids(success)))
      ensures stored == old(stored) + SnapshotsOf(old(actors), Ids(success))
      ensures CompletedFor(env, old(actors), Enabled(old(actors), Ids(success)), completed)
      ensures AllReleased(old(ShardsView()), old(partitions), completed, io, ShardsView(), partitions)
    {
      Store(success);
      var list := CollectCompleted(success);
      ReleaseAll(list, io);
      completed := list;
    }

    method CompleteBatch(success: seq<ActorId>, io: Io)
      requires Valid() && io.saved == Ids(success) && !io.saveFails
      modifies this`actors, this`stored, this`partitions, this`shards, Windows()
      ensures Valid() && Windows() == old(Windows()) && View() == NodeModel.SnapshotBatch(env, old(View()), io)
    {
      ghost var was := View();
      ghost var completed := FinishBatch(success, io);
      BatchIsSaved(env, was, Ids(success), completed, io, View());
    }

    method SnapshotBatch(success: seq<ActorId>, io: Io)
      requires Valid() && io.saved == Ids(success)
      modifies this`actors, this`stored, this`partitions, this`shards, Windows()
      ensures Valid() && Windows() == old(Windows()) && View() == NodeModel.SnapshotBatch(env, old(View()), io)
    {
      var snapshots := EnabledSnapshots();
      if io.saveFails {
        return;
      }
      CompleteBatch(success, io);
    }

    method Snapshot(a: ActorId, io: Io)
      requires Valid()
      modifies this`actors, this`stored, this`partitions, this`shards, Windows()
      ensures Valid() && Windows() == old(Windows()) && View() == SnapshotOne(env, old(View()), a, io)
    {
      if a !in actors || actors[a].snapshot.None? || io.saveFails {
        NothingSaved(env, View(), a, io);
        return;
      }
      SnapshotEnabled(a, io);
    }

    method SnapshotEnabled(a: ActorId, io: Io)
      requires Valid() && a in actors && actors[a].snapshot.Some? && !io.saveFails
      modifies this`actors, this`stored, this`partitions, this`shards, Windows()
      ensures Valid() && Windows() == old(Windows()) && View() == SnapshotOne(env, old(View()), a, io)
    {
      ghost var was := View();
      var snapshot := actors[a].snapshot.value;
      assert Named(a, actors[a]);
      Store([a]);
      PutActor(a, actors[a].(snapshot := None));
      var shard := ShardOf(env, actors[a].proc.id);
      Release(shard, [Completion(snapshot.actorId, snapshot.offset)], io);
      OneIsSaved(env, was, a, shard, io, View());
    }

    // ---------- actors and shards ----------

    method PutActor(a: ActorId, na: NodeActor)
      requires Shaped() && Named(a, na)
      modifies this`actors
      ensures Shaped() && (old(Valid()) ==> Valid())
      ensures Windows() == old(Windows()) && ShardsView() == old(ShardsView())
      ensures actors == old(actors)[a := na]
    {
      actors := actors[a := na];
      assert forall s :: s in shards ==> shards[s].inflight.View() == old(shards[s].inflight.View());
    }

    method StopActor(a: ActorId)
      requires Valid()
      modifies this`actors
      ensures Valid() && Windows() == old(Windows()) && ShardsView() == old(ShardsView())
      ensures actors == StoppedIn(old(actors), {a})
    {
      StoppedOne(actors, a);
      if a !in actors {
        return;
      }
      assert Named(a, actors[a]);
      PutActor(a, actors[a].(stopping := true));
    }

    method StopAll(ids: set<ActorId>)
      requires Valid()
      modifies this`actors
      ensures Valid() && Windows() == old(Windows()) && ShardsView() == old(ShardsView())
      ensures actors == StoppedIn(old(actors), ids)
    {
      var left := ids;
      StoppedNone(actors);
      while left != {}
        invariant Valid() && Windows() == old(Windows()) && ShardsView() == old(ShardsView()) && left <= ids
        invariant actors == StoppedIn(old(actors), ids - left)
        decreases left
      {
        var a := Choose(left);
        StoppedTwice(old(actors), ids - left, {a});
        StopActor(a);
        assert ids - left + {a} == ids - (left - {a});
        left := left - {a};
      }
      assert ids - left == ids;
    }

    method StopShard(shard: ShardId)
      requires Valid()
      modifies this`actors
      ensures Valid() && Windows() == old(Windows()) && ShardsView() == old(ShardsView())
      ensures actors == StoppedIn(old(actors), if shard in shards then shards[shard].actors else {})
    {
      StoppedNone(actors);
      if shard !in shards {
        return;
      }
      StopAll(shards[shard].actors);
    }

    method HandleEnding()
      requires Valid()
      modifies this`endSignals
      ensures Valid() && Windows() == old(Windows()) && View() == NodeModel.HandleEnding(old(View()))
    {
      if actors == map[] {
        endSignals := endSignals + 1;
      }
      assert forall s :: s in shards ==> shards[s].inflight.View() == old(shards[s].inflight.View());
    }

    method RecycleActor(a: ActorId, success: seq<ActorId>, io: Io)
      requires Valid() && io.saved == Ids(success) && (a in actors ==> ShardOf(env, a) in shards)
      modifies this`actors, this`stored, this`partitions, this`shards, Windows()
      ensures Valid() && Windows() == old(Windows()) && View() == NodeModel.RecycleActor(env, old(View()), a, io)
    {
      if a !in actors {
        return;
      }
      var shard := ShardOf(env, a);
      var offset := KeepsFromStopping(a, shard);
      if offset.Some? {
        Seek(shard, offset.value, io.seekFails);
        return;
      }
      StopRecycled(a, success, io);
    }

    /** The oldest offset the actor has in flight, or else the one it is paused at. */
    method KeepsFromStopping(a: ActorId, shard: ShardId) returns (offset: Option<Offset>)
      requires Valid() && a in actors && shard in shards
      ensures offset == RecycleTarget(View(), a, shard)
    {
      offset := shards[shard].inflight.GetMinOffset(a);
      LeastIs(shards[shard].inflight.View(), a, offset);
      if offset.None? {
        offset := actors[a].pause;
      }
    }

    /** The actor has nothing in flight and is not paused. */
    method StopRecycled(a: ActorId, success: seq<ActorId>, io: Io)
      requires Valid() && io.saved == Ids(success) && a in actors
      modifies this`actors, this`stored, this`partitions, this`shards, Windows()
      ensures Valid() && Windows() == old(Windows())
      ensures View() == StopActors(if old(actors[a]).snapshot.Some? then NodeModel.SnapshotBatch(env, old(View()), io) else old(View()), {a})
    {
      if actors[a].snapshot.Some? {
        SnapshotBatch(success, io);
      }
      StopActor(a);
    }

    method ReceiveReady(a: ActorId, io: Io)
      requires Valid()
      modifies this`actors, this`partitions
      ensures Valid() && Windows() == old(Windows()) && View() == NodeModel.ReceiveReady(env, old(View()), a, io)
    {
      if a !in actors || actors[a].pause.None? {
        return;
      }
      assert Named(a, actors[a]);
      var offset := actors[a].pause.value;
      PutActor(a, actors[a].(pause := None));
      Seek(ShardOf(env, a), offset, io.seekFails);
    }

    method ReceiveSnapshot(a: ActorId, snapshot: ActorSnapshot)
      requires Valid() && snapshot.actorId == a
      modifies this`actors
      ensures Valid() && Windows() == old(Windows()) && View() == NodeModel.ReceiveSnapshot(old(View()), a, snapshot)
    {
      if a !in actors {
        return;
      }
      assert Named(a, actors[a]);
      PutActor(a, actors[a].(snapshot := Some(snapshot)));
    }

    // ---------- a stopped actor leaves ----------

    method DropShard(shard: ShardId)
      requires Valid()
      modifies this`shards
      ensures Valid() && Windows() <= old(Windows()) && ShardsView() == old(ShardsView()) - {shard}
    {
      shards := shards - {shard};
      assert forall s :: s in shards ==> shards[s].inflight.View() == old(shards[s].inflight.View());
    }

    method DropActor(a: ActorId)
      requires Valid() && a in actors
      modifies this`actors, this`disableActors, this`past
      ensures Valid() && Windows() == old(Windows()) && ShardsView() == old(ShardsView())
      ensures actors == old(actors) - {a} && disableActors == old(disableActors) - {a}
      ensures past == old(past)[a := old(actors[a]).proc.history]
    {
      disableActors := disableActors - {a};
      past := past[a := actors[a].proc.history];
      actors := actors - {a};
      assert forall s :: s in shards ==> shards[s].inflight.View() == old(shards[s].inflight.View());
    }

    method RemoveActor(a: ActorId)
      requires Valid() && a in actors
      modifies this`actors, this`disableActors, this`past, this`shards
      ensures Valid() && Windows() <= old(Windows()) && View() == NodeModel.RemoveActor(env, old(View()), a)
    {
      DropActor(a);
      var shard := ShardOf(env, a);
      if shard in shards {
        LeaveShard(shard, a);
      }
    }

    method LeaveShard(shard: ShardId, a: ActorId)
      requires Valid() && shard in shards
      modifies this`shards
      ensures Valid() && Windows() <= old(Windows())
      ensures var left := old(ShardsView())[shard].actors - {a};
              ShardsView() == if left == {} && shard !in registerShards then old(ShardsView()) - {shard}
                              else old(ShardsView())[shard := old(ShardsView())[shard].(actors := left)]
    {
      var left := shards[shard].actors - {a};
      if left == {} && shard !in registerShards {
        DropShard(shard);
      } else {
        PutShard(shard, left, shards[shard].pause);
      }
    }

    method ReceiveStopped(a: ActorId, io: Io)
      requires Valid()
      modifies this, Windows()
      ensures Valid() && Windows() <= old(Windows()) && View() == NodeModel.ReceiveStopped(env, old(View()), a, io)
    {
      if a !in actors {
        return;
      }
      var pending, ending := actors[a].pending, stopping;
      SaveAndRemove(a, io);
      if ending {
        HandleEnding();
        return;
      }
      if pending.None? {
        return;
      }
      Seek(ShardOf(env, a), pending.value, io.seekFails);
    }

    method SaveAndRemove(a: ActorId, io: Io)
      requires Valid() && a in actors
      modifies this`actors, this`disableActors, this`past, this`stored, this`partitions, this`shards, Windows()
      ensures Valid() && Windows() <= old(Windows())
      ensures View() == NodeModel.RemoveActor(env, SnapshotOne(env, old(View()), a, io), a)
    {
      Snapshot(a, io);
      RemoveActor(a);
    }

    // ---------- stopping ----------

    method Register(shard: ShardId)
      requires Valid()
      modifies this`registerShards
      ensures Valid() && Windows() == old(Windows()) && ShardsView() == old(ShardsView())
      ensures registerShards == old(registerShards) + {shard}
    {
      registerShards := registerShards + {shard};
      assert forall s :: s in shards ==> shards[s].inflight.View() == old(shards[s].inflight.View());
    }

    method AddShard(shard: ShardId)
      requires Valid() && shard !in shards
      modifies this`shards
      ensures Shaped() && (shard in partitions ==> Valid()) && fresh(Windows() - old(Windows()))
      ensures ShardsView() == old(ShardsView())[shard := NodeShard({}, Empty(env.windowLimit), None)]
    {
      var inflight := new Inflight(env.windowLimit);
      assert forall s :: s in shards ==> shards[s].inflight.View() == old(shards[s].inflight.View()) && shards[s].inflight != inflight;
      shards := shards[shard := Shard({}, inflight, None)];
    }

    method StartShard(shard: ShardId)
      requires Valid()
      modifies this`shards, this`registerShards
      ensures Shaped() && (shard in partitions ==> Valid()) && View() == NodeModel.StartShard(env, old(View()), shard)
      ensures fresh(Windows() - old(Windows()))
    {
      Register(shard);
      if shard in shards {
        return;
      }
      AddShard(shard);
    }

    method StopShards()
      requires Valid()
      modifies this`actors
      ensures Valid() && Windows() == old(Windows()) && ShardsView() == old(ShardsView())
      ensures actors == StoppedIn(old(actors), ActorsOfShards(old(View())))
    {
      ghost var sv, was := ShardsView(), actors;
      var left := shards.Keys;
      StoppedNone(actors);
      ActorsInNone(sv);
      ActorsInAll(View());
      while left != {}
        invariant Valid() && Windows() == old(Windows()) && ShardsView() == sv && left <= sv.Keys == shards.Keys
        invariant actors == StoppedIn(was, ActorsIn(sv, sv.Keys - left))
        decreases left
      {
        var shard := Choose(left);
        StoppedTwice(was, ActorsIn(sv, sv.Keys - left), sv[shard].actors);
        ActorsGrow(sv, left, shard);
        StopShard(shard);
        left := left - {shard};
      }
      assert sv.Keys - left == sv.Keys;
    }

    method ClearRegistered()
      requires Valid()
      modifies this`registerShards, this`stopping
      ensures Valid() && Windows() == old(Windows()) && View() == old(View()).(stopping := true, registerShards := {})
    {
      stopping := true;
      registerShards := {};
      assert forall s :: s in shards ==> shards[s].inflight.View() == old(shards[s].inflight.View());
    }

    method BeforeStop()
      requires Valid()
      modifies this`registerShards, this`stopping, this`actors, this`endSignals
      ensures Valid() && Windows() == old(Windows()) && View() == NodeModel.BeforeStop(old(View()))
    {
      if stopping {
        return;
      }
      ClearRegistered();
      StopShards();
      HandleEnding();
    }

    // ---------- dispatching ----------

    method MarkShard(shard: ShardId, offset: Offset)
      requires Valid() && shard in shards
      modifies this`shards
      ensures Valid() && Windows() == old(Windows()) && shards.Keys == old(shards.Keys)
      ensures View() == NodeModel.PauseShard(old(View()), shard, offset, true)
    {
      PutShard(shard, shards[shard].actors, FirstWins(shards[shard].pause, offset));
    }

    method PauseShard(shard: ShardId, offset: Offset, pauseFails: bool)
      requires Valid() && shard in shards
      modifies this`shards, this`partitions
      ensures Valid() && Windows() == old(Windows())
      ensures View() == NodeModel.PauseShard(old(View()), shard, offset, pauseFails)
    {
      ghost var was := View();
      MarkShard(shard, offset);
      if pauseFails {
        return;
      }
      ghost var marked := View();
      Broker(shard, partitions[shard].(paused := true));
      PausedIs(was, shard, offset, marked, View());
    }

    method AddInflight(shard: ShardId, offset: Offset, a: ActorId)
      requires Shaped() && shard in shards
      modifies Windows()
      ensures Shaped() && Windows() == old(Windows())
      ensures View() == NodeModel.AddInflight(old(View()), shard, offset, a)
      ensures old(Valid()) && 0 <= offset && SameReceiver(old(ShardsView())[shard].inflight, offset, a) ==> Valid()
    {
      shards[shard].inflight.AddOffset(offset, a);
      assert forall s :: s in shards && s != shard ==> shards[s].inflight.View() == old(shards[s].inflight.View());
    }

    /** A disabled actor's message is dead, and complete at once. */
    method DeadLetter(shard: ShardId, m: Message, io: Io)
      requires Valid() && shard in shards && 0 <= m.offset && SameReceiver(ShardsView()[shard].inflight, m.offset, m.receiver)
      modifies this`partitions, Windows()
      ensures Valid() && Windows() == old(Windows())
      ensures View() == NodeModel.DeadLetter(old(View()), shard, m, io)
    {
      ghost var was := View();
      AddInflight(shard, m.offset, m.receiver);
      var failed := CompleteOffset(shard, [Completion(m.receiver, m.offset)], shard in io.commitFails);
      ReachOfOne(m.receiver, m.offset);
      DeadLetterIs(was, shard, m, io, View());
    }

    method StartActor(a: ActorId, shard: ShardId, fails: bool) returns (ok: bool)
      requires Valid() && shard in shards && a !in actors
      modifies this`actors, this`shards
      ensures Valid() && Windows() == old(Windows()) && shards.Keys == old(shards.Keys) && ok == !fails
      ensures View() == if fails then old(View()) else NodeModel.StartActor(old(View()), a, shard)
    {
      if fails {
        return false;
      }
      EnterActor(a, shard);
      return true;
    }

    /** The new actor enters both indexes. */
    method EnterActor(a: ActorId, shard: ShardId)
      requires Valid() && shard in shards && a !in actors
      modifies this`actors, this`shards
      ensures Valid() && Windows() == old(Windows()) && shards.Keys == old(shards.Keys)
      ensures View() == NodeModel.StartActor(old(View()), a, shard)
    {
      ghost var was := View();
      PutActor(a, NodeActor(false, None, None, None, NewProc(a, if a in past then past[a] else NO_HISTORY)));
      PutShard(shard, shards[shard].actors + {a}, shards[shard].pause);
      StartedIs(was, a, shard, View());
    }

    method Offer(a: ActorId, m: Message)
      requires Shaped() && a in actors
      modifies this`actors
      ensures Shaped() && (old(Valid()) ==> Valid())
      ensures Windows() == old(Windows()) && View() == NodeModel.Offer(env, old(View()), a, m)
    {
      var actor := actors[a];
      assert Named(a, actor);
      if actor.stopping {
        PutActor(a, actor.(pending := FirstWins(actor.pending, m.offset)));
        return;
      }
      if actor.pause.Some? {
        SameMap(actors[a := actor], actors);
        return;
      }
      if |actor.proc.mailbox| < env.config.capacity {
        PutActor(a, actor.(proc := actor.proc.(mailbox := actor.proc.mailbox + [Network(m)])));
      } else {
        PutActor(a, actor.(pause := FirstWins(actor.pause, m.offset)));
      }
    }

    /** The actor is there: the message goes into the window and to the actor. */
    method Deliver(shard: ShardId, m: Message)
      requires Shaped() && shard in shards && m.receiver in actors
      modifies this`actors, Windows()
      ensures Shaped() && Windows() == old(Windows())
      ensures old(Valid()) && 0 <= m.offset && SameReceiver(old(ShardsView())[shard].inflight, m.offset, m.receiver) ==> Valid()
      ensures View() == NodeModel.Offer(env, NodeModel.AddInflight(old(View()), shard, m.offset, m.receiver), m.receiver, m)
    {
      AddInflight(shard, m.offset, m.receiver);
      Offer(m.receiver, m);
    }

    method StartAndDeliver(shard: ShardId, m: Message, fails: bool)
      requires Valid() && shard in shards && m.receiver !in actors
      modifies this`actors, this`shards, Windows()
      ensures Shaped() && Windows() == old(Windows())
      ensures 0 <= m.offset && SameReceiver(old(ShardsView())[shard].inflight, m.offset, m.receiver) ==> Valid()
      ensures View() == if fails then old(View()) else
                NodeModel.Offer(env, NodeModel.AddInflight(NodeModel.StartActor(old(View()), m.receiver, shard), shard, m.offset, m.receiver),
                                m.receiver, m)
    {
      var ok := StartActor(m.receiver, shard, fails);
      if !ok {
        return;
      }
      Deliver(shard, m);
    }

    /** The log has said before who receives this offset, if it was in flight. */
    ghost predicate Expected(m: Message)
      reads this, Windows()
    {
      0 <= m.offset && (ShardOf(env, m.receiver) in shards ==>
        SameReceiver(ShardsView()[ShardOf(env, m.receiver)].inflight, m.offset, m.receiver))
    }

    /** The window stays valid if the offset has one receiver.  A disabled actor's message is
        completed at once and needs that. */
    method Dispatcher(m: Message, io: Io)
      requires Valid() && (m.receiver in disableActors ==> Expected(m))
      modifies this`actors, this`shards, this`partitions, Windows()
      ensures Shaped() && Windows() == old(Windows()) && View() == NodeModel.Dispatcher(env, old(View()), m, io)
      ensures old(Expected(m)) ==> Valid()
    {
      var a, shard := m.receiver, ShardOf(env, m.receiver);
      if shard !in registerShards || shard !in shards {
        return;
      }
      if shards[shard].pause.Some? {
        return;
      }
      var full := shards[shard].inflight.IsFull(m.offset);
      if full {
        PauseShard(shard, m.offset, io.pauseFails);
        return;
      }
      if a in disableActors {
        DeadLetter(shard, m, io);
        return;
      }
      if a in actors {
        Deliver(shard, m);
      } else {
        StartAndDeliver(shard, m, io.startFails);
      }
    }
  }
}
