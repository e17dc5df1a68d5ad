/**
  A check the node can make itself: nothing in flight lies where the read position passes.
  Under it delivery is at least once, whichever way seeks go and whether or not pauses are
  refused.
*/
module Guards {
  import opened Types
  import opened InflightWindow
  import opened ActorModel
  import opened NodeModel
  import opened NodeRuns
  import opened NodeIndex
  import opened Delivery
  import opened Coverage
  import opened CoverageSteps
  import opened CoverageDispatch
  import opened CoverageSaves
  import opened AtLeastOnce

  /** No offset in flight lies between a read position and where a seek takes it. */
  ghost predicate SkipsNothing(n: Node, n': Node) {
    forall s, o :: s in n.partitions && s in n'.shards && o in n'.shards[s].inflight.offsetActor ==>
      n.partitions[s].position <= o ==> PartitionOf(n', s).position <= o
  }

  /** A message out of turn comes right after what the shard has dispatched or read at the
      latest, and its receiver has nothing in flight between the read position and it. */
  ghost predicate OvertakesNothing(env: Env, n: Node, m: Message) {
    var a, s := m.receiver, ShardOf(env, m.receiver);
    Listening(n, s) ==>
      var w, position := n.shards[s].inflight, PartitionOf(n, s).position;
      && (m.offset <= position || m.offset <= w.maxOffset + 1)
      && (Full(w, m.offset) || Holds(n, a)
          || forall o :: o in w.offsetActor && w.offsetActor[o] == a && position <= o ==> m.offset <= o)
  }

  /** No offset in flight is passed: by no seek, by dropping no message at a shard marked as
      paused, and by no message out of turn. */
  ghost predicate PassesNothingInFlight(env: Env, n: Node, act: Action, n': Node) {
    match act
    case Dispatch(m, _) =>
      if InTurn(env, n, m) then
        BelowMark(env, n, m) ==> m.offset !in n.shards[ShardOf(env, m.receiver)].inflight.offsetActor
      else OvertakesNothing(env, n, m)
    case Subscribe(_) => true
    case Crash => true
    case TakeStopped(a, io) =>
      HasSignal(n, a) ==> SkipsNothing(n, AfterSave(env, n, act)) && SkipsNothing(AfterSave(env, n, act), n')
    case _ => SkipsNothing(n, n')
  }

  // ---------- what is not in flight has been delivered ----------

  lemma NotInFlightIsDelivered(env: Env, n: Node, s: ShardId, w: Window, b: Offset, x: Offset)
    requires StoredOk(env, n) && Accounted(env, n.stored, w, s, b)
    requires InLog(env, s, x) && x < b && x !in w.offsetActor
    ensures Delivered(env, n, s, x)
  {
    var snapshot :| snapshot in n.stored && Covers(snapshot, ReceiverAt(env, s, x), x);
    assert HonestSnapshot(env, snapshot.actorId, snapshot, HistoryOf(n, snapshot.actorId));
  }

  /** Every seek goes to an offset below which all is in flight or covered. */
  ghost predicate SeeksAccounted(env: Env, n: Node, n': Node) {
    && StoredOk(env, n')
    && forall s :: s in n.partitions && PartitionOf(n', s).position > n.partitions[s].position ==>
         s in n'.shards && Accounted(env, n'.stored, n'.shards[s].inflight, s, PartitionOf(n', s).position)
  }

  lemma SkipsDelivered(env: Env, n: Node, n': Node)
    requires SeeksAccounted(env, n, n') && SkipsNothing(n, n')
    ensures HarmlessMoves(env, n, n')
  {
    forall s, x | s in n.partitions && InLog(env, s, x) && n.partitions[s].position <= x < PartitionOf(n', s).position
      ensures Delivered(env, n', s, x)
    {
      NotInFlightIsDelivered(env, n', s, n'.shards[s].inflight, PartitionOf(n', s).position, x);
    }
  }

  // ---------- the seeks ----------

  lemma SavesAccounted(env: Env, n: Node, done: set<ActorId>, io: Io, n': Node)
    requires FixedReceivers(env) && Inv(env, n) && IndexesMatch(env, n) && n' == Saved(env, n, done, io)
    ensures SeeksAccounted(env, n, n')
  {
    SavedHistories(env, n, done, io, n');
    SavedStored(env, n, done, io, n');
    SavedShards(env, n, done, io, n');
    forall s | s in n.partitions && PartitionOf(n', s).position > n.partitions[s].position
      ensures s in n'.shards && Accounted(env, n'.stored, n'.shards[s].inflight, s, PartitionOf(n', s).position)
    {
      assert ShardOk(env, s, n.shards[s], PartitionOf(n, s), s in n.registerShards, n.stored);
    }
  }

  lemma SeekAccounted(env: Env, n: Node, s: ShardId, q: Offset, fails: bool, n': Node)
    requires StoredOk(env, n) && s in n.shards && Accounted(env, n.stored, n.shards[s].inflight, s, q)
    requires n' == Seek(n, s, q, fails)
    ensures SeeksAccounted(env, n, n')
  {
    assert forall a :: HistoryOf(n', a) == HistoryOf(n, a);
    assert forall t :: t != s ==> PartitionOf(n', t) == PartitionOf(n, t);
  }

  lemma BatchAccounted(env: Env, n: Node, io: Io, n': Node)
    requires FixedReceivers(env) && Inv(env, n) && IndexesMatch(env, n) && n' == SnapshotBatch(env, n, io)
    ensures SeeksAccounted(env, n, n')
  {
    if !io.saveFails { SavesAccounted(env, n, SavedActors(n, io.saved), io, n'); }
  }

  lemma StopAccounted(env: Env, n: Node, saved: Node, ids: set<ActorId>, n': Node)
    requires SeeksAccounted(env, n, saved) && n' == StopActors(saved, ids)
    ensures SeeksAccounted(env, n, n')
  {
    assert forall a :: HistoryOf(n', a) == HistoryOf(saved, a);
    assert forall t :: PartitionOf(n', t) == PartitionOf(saved, t);
  }

  lemma RecycleAccounted(env: Env, n: Node, a: ActorId, io: Io, n': Node)
    requires FixedReceivers(env) && Inv(env, n) && IndexesMatch(env, n) && a in n.actors
    requires n' == RecycleActor(env, n, a, io)
    ensures SeeksAccounted(env, n, n')
  {
    var s := ShardOf(env, a);
    var target := RecycleTarget(n, a, s);
    if target.Some? {
      TargetAccounted(env, n, a);
      SeekAccounted(env, n, s, target.value, io.seekFails, n');
    } else {
      var saved := if n.actors[a].snapshot.Some? then SnapshotBatch(env, n, io) else n;
      BatchAccounted(env, n, io, SnapshotBatch(env, n, io));
      StopAccounted(env, n, saved, {a}, n');
    }
  }

  lemma ReadyAccounted(env: Env, n: Node, a: ActorId, io: Io, n': Node)
    requires FixedReceivers(env) && Inv(env, n) && IndexesMatch(env, n) && a in n.actors
    requires n' == ReceiveReady(env, n, a, io)
    ensures SeeksAccounted(env, n, n')
  {
    if n.actors[a].pause.Some? {
      var ended := n.(actors := n.actors[a := n.actors[a].(pause := None)]);
      assert forall b :: HistoryOf(ended, b) == HistoryOf(n, b);
      assert Held(n.actors[a]) == n.actors[a].pause;
      SeekAccounted(env, ended, ShardOf(env, a), n.actors[a].pause.value, io.seekFails, n');
    }
  }

  lemma SamePositions(env: Env, n: Node, n': Node)
    requires StoredOk(env, n) && n'.stored == n.stored && n'.partitions == n.partitions
    requires forall b :: HistoryOf(n', b) == HistoryOf(n, b)
    ensures SeeksAccounted(env, n, n')
  {
    assert forall t :: PartitionOf(n', t) == PartitionOf(n, t);
  }

  /** What `a` left behind is sought after it has gone. */
  lemma PendingAccounted(env: Env, n: Node, a: ActorId, q: Offset, fails: bool, removed: Node, n': Node)
    requires Inv(env, n) && IndexesMatch(env, n) && Gone(n, a, removed) && removed.partitions == n.partitions
    requires ShardOf(env, a) in removed.shards && Held(n.actors[a]) == Some(q)
    requires forall b :: HistoryOf(removed, b) == HistoryOf(n, b)
    requires n' == Seek(removed, ShardOf(env, a), q, fails)
    ensures SeeksAccounted(env, n, n')
  {
    SeekAccounted(env, removed, ShardOf(env, a), q, fails, n');
  }

  lemma LeaveAccounted(env: Env, n: Node, a: ActorId, io: Io, removed: Node, n': Node)
    requires FixedReceivers(env) && Inv(env, n) && IndexesMatch(env, n) && a in n.actors
    requires removed == RemoveActor(env, n, a)
    requires n' == if n.stopping then HandleEnding(removed)
                   else if n.actors[a].pending.Some? then Seek(removed, ShardOf(env, a), n.actors[a].pending.value, io.seekFails)
                   else removed
    ensures SeeksAccounted(env, n, n')
  {
    RemoveIsGone(env, n, a, removed);
    RemovedHistories(n, a, removed);
    if !n.stopping && n.actors[a].pending.Some? {
      assert NodeActorOk(env, a, n.actors[a], ShardOf(env, a) in n.registerShards);
      StaysRegistered(env, n, a);
      PendingAccounted(env, n, a, n.actors[a].pending.value, io.seekFails, removed, n');
    } else {
      RemovedHistories(n, a, n');
      SamePositions(env, n, n');
    }
  }

  lemma RemovedHistories(n: Node, a: ActorId, n': Node)
    requires a in n.actors && n'.actors == n.actors - {a} && n'.past == n.past[a := n.actors[a].proc.history]
    ensures forall b :: HistoryOf(n', b) == HistoryOf(n, b)
  {
  }

  lemma StaysRegistered(env: Env, n: Node, a: ActorId)
    requires IndexesMatch(env, n) && Simple(n) && !n.stopping && a in n.actors
    ensures ShardOf(env, a) in RemoveActor(env, n, a).shards
  {
  }

  // ---------- every step ----------

  /** Positions that stay pass nothing. */
  lemma StaysDelivered(env: Env, n: Node, n': Node)
    requires forall s :: s in n.partitions ==> PartitionOf(n', s).position <= n.partitions[s].position
    ensures HarmlessMoves(env, n, n')
  {
  }

  lemma TakenSkips(n: Node, a: ActorId, n': Node)
    requires HasSignal(n, a) && SkipsNothing(n, n')
    ensures SkipsNothing(Taken(n, a), n')
  {
  }

  lemma TakenHarmless(env: Env, n: Node, a: ActorId, n': Node)
    requires HasSignal(n, a) && HarmlessMoves(env, Taken(n, a), n')
    ensures HarmlessMoves(env, n, n')
  {
    assert Taken(n, a).partitions == n.partitions;
  }

  lemma ReadyGuarded(env: Env, n: Node, a: ActorId, io: Io, taken: Node, n': Node)
    requires KeptSoFar(env, n) && HasSignal(n, a) && taken == Taken(n, a)
    requires n' == ReceiveReady(env, taken, a, io) && SkipsNothing(n, n')
    ensures HarmlessMoves(env, n, n')
  {
    TakesSignal(env, n, a, taken);
    TakenKeeps(env, n, a);
    TakenSkips(n, a, n');
    ReadyAccounted(env, taken, a, io, n');
    SkipsDelivered(env, taken, n');
    TakenHarmless(env, n, a, n');
  }

  lemma IdleGuarded(env: Env, n: Node, a: ActorId, io: Io, taken: Node, n': Node)
    requires KeptSoFar(env, n) && HasSignal(n, a) && taken == Taken(n, a) && ShardOf(env, a) in n.shards
    requires n' == RecycleActor(env, taken, a, io) && SkipsNothing(n, n')
    ensures HarmlessMoves(env, n, n')
  {
    TakesSignal(env, n, a, taken);
    TakenKeeps(env, n, a);
    TakenSkips(n, a, n');
    RecycleAccounted(env, taken, a, io, n');
    SkipsDelivered(env, taken, n');
    TakenHarmless(env, n, a, n');
  }

  lemma StoppedGuarded(env: Env, n: Node, a: ActorId, io: Io, taken: Node, saved: Node, n': Node)
    requires KeptSoFar(env, n) && HasSignal(n, a) && taken == Taken(n, a) && NextSignal(n, a).Stopped?
    requires saved == SnapshotOne(env, taken, a, io) && n' == ReceiveStopped(env, taken, a, io)
    requires SkipsNothing(n, saved) && SkipsNothing(saved, n')
    ensures HarmlessMoves(env, n, saved) && HarmlessMoves(env, saved, n')
  {
    TakesSignal(env, n, a, taken);
    TakenKeeps(env, n, a);
    TakenSkips(n, a, saved);
    SavedGuarded(env, taken, a, io, saved);
    TakenHarmless(env, n, a, saved);
    SavesOne(env, taken, a, io, saved);
    OneShape(env, taken, a, io);
    SameShapeKeeps(env, taken, saved);
    SaveKeepsRest(env, taken, a, io, saved);
    LeaveAccounted(env, saved, a, io, RemoveActor(env, saved, a), n');
    SkipsDelivered(env, saved, n');
  }

  lemma SavedGuarded(env: Env, n: Node, a: ActorId, io: Io, saved: Node)
    requires FixedReceivers(env) && Inv(env, n) && IndexesMatch(env, n)
    requires saved == SnapshotOne(env, n, a, io) && SkipsNothing(n, saved)
    ensures HarmlessMoves(env, n, saved)
  {
    if !io.saveFails {
      SavesAccounted(env, n, SavedActors(n, {a}), io, saved);
      SkipsDelivered(env, n, saved);
    }
  }

  lemma ExitAccounted(env: Env, n: Node, saved: Node, n': Node)
    requires SeeksAccounted(env, n, saved) && n' == saved.(exited := n'.exited)
    ensures SeeksAccounted(env, n, n')
  {
    assert forall a :: HistoryOf(n', a) == HistoryOf(saved, a);
    assert forall t :: PartitionOf(n', t) == PartitionOf(saved, t);
  }

  lemma BatchGuarded(env: Env, n: Node, io: Io, saved: Node, n': Node)
    requires KeptSoFar(env, n) && saved == SnapshotBatch(env, n, io)
    requires n' == saved.(exited := n'.exited) && SkipsNothing(n, n')
    ensures HarmlessMoves(env, n, n')
  {
    BatchAccounted(env, n, io, saved);
    ExitAccounted(env, n, saved, n');
    SkipsDelivered(env, n, n');
  }

  lemma DropGuarded(env: Env, n: Node, m: Message, p: Partition)
    requires Inv(env, n) && IsNext(env, p, ShardOf(env, m.receiver), m)
    requires BelowMark(env, n, m) ==> m.offset !in n.shards[ShardOf(env, m.receiver)].inflight.offsetActor
    ensures DropIsHarmless(env, n, ShardOf(env, m.receiver), m)
  {
    var s := ShardOf(env, m.receiver);
    if BelowMark(env, n, m) {
      assert ShardOk(env, s, n.shards[s], PartitionOf(n, s), s in n.registerShards, n.stored);
      NotInFlightIsDelivered(env, n, s, n.shards[s].inflight, n.shards[s].pause.value, m.offset);
    }
  }

  lemma StaleGuarded(env: Env, n: Node, m: Message, s: ShardId)
    requires FixedReceivers(env) && Inv(env, n) && OvertakesNothing(env, n, m) && s == ShardOf(env, m.receiver)
    ensures StaleIsHarmless(env, n, s, m)
  {
    if Listening(n, s) {
      assert ShardOk(env, s, n.shards[s], PartitionOf(n, s), true, n.stored);
      if !Full(n.shards[s].inflight, m.offset) && !Holds(n, m.receiver) {
        forall x | Sent(env, m.receiver, x) && x < m.offset ensures x in ReachedOf(n, m.receiver) {
          SentBefore(env, n, s, m, x);
        }
      }
    }
  }

  lemma SentBefore(env: Env, n: Node, s: ShardId, m: Message, x: Offset)
    requires FixedReceivers(env) && Inv(env, n) && s == ShardOf(env, m.receiver) && Listening(n, s) && !Holds(n, m.receiver)
    requires Accounted(env, n.stored, n.shards[s].inflight, s, m.offset) && Sent(env, m.receiver, x) && x < m.offset
    requires var w := n.shards[s].inflight;
             forall o :: o in w.offsetActor && w.offsetActor[o] == m.receiver && PartitionOf(n, s).position <= o ==> m.offset <= o
    ensures x in ReachedOf(n, m.receiver)
  {
    var w := n.shards[s].inflight;
    if x in w.offsetActor {
      assert WindowOk(env, s, w);
      assert Sent(env, w.offsetActor[x], x);
      assert Delivered(env, n, s, x);
    } else {
      NotInFlightIsDelivered(env, n, s, w, m.offset, x);
    }
  }

  lemma QuietGuarded(env: Env, n: Node, act: Action, n': Node)
    requires UsableConfig(env.config) && IsStep(env, n, act, n')
    requires act.Poll? || act.TakeAlive? || act.TakeSnapshot? || act.Stop? || act.ActorStep?
    ensures HarmlessMoves(env, n, n')
  {
    StaysDelivered(env, n, n');
  }

  lemma DispatchGuarded(env: Env, n: Node, m: Message)
    requires FixedReceivers(env) && Inv(env, n)
    requires if InTurn(env, n, m) then
               BelowMark(env, n, m) ==> m.offset !in n.shards[ShardOf(env, m.receiver)].inflight.offsetActor
             else OvertakesNothing(env, n, m)
    ensures OrderIsHarmless(env, n, m)
  {
    if InTurn(env, n, m) {
      DropGuarded(env, n, m, n.partitions[ShardOf(env, m.receiver)]);
    } else {
      StaleGuarded(env, n, m, ShardOf(env, m.receiver));
    }
  }

  /** A step that meets the check passes over delivered messages only. */
  lemma GuardIsHarmless(env: Env, n: Node, act: Action, n': Node)
    requires KeptSoFar(env, n) && IsStep(env, n, act, n') && PassesNothingInFlight(env, n, act, n')
    ensures PassesDelivered(env, n, act, n')
  {
    if act.Dispatch? {
      DispatchGuarded(env, n, act.message);
    } else if act.TakeReady? {
      ReadyGuarded(env, n, act.actor, act.io, Taken(n, act.actor), n');
    } else if act.TakeIdle? {
      IdleGuarded(env, n, act.actor, act.io, Taken(n, act.actor), n');
    } else if act.TakeStopped? {
      StoppedGuarded(env, n, act.actor, act.io, Taken(n, act.actor), AfterSave(env, n, act), n');
    } else if act.SnapshotTick? || act.Exit? {
      BatchGuarded(env, n, act.io, SnapshotBatch(env, n, act.io), n');
    } else if !act.Subscribe? && !act.Crash? {
      QuietGuarded(env, n, act, n');
    }
  }

  ghost predicate GuardedRun(env: Env, states: seq<Node>, acts: seq<Action>) {
    && IsRun(env, states, acts)
    && forall i :: 0 <= i < |acts| ==> NothingFails(acts[i]) && PassesNothingInFlight(env, states[i], acts[i], states[i + 1])
  }

  lemma GuardedStep(env: Env, states: seq<Node>, acts: seq<Action>, i: nat)
    requires FixedReceivers(env) && GuardedRun(env, states, acts) && i < |acts| && Inv(env, states[i])
    ensures Careful(env, states[i], acts[i], states[i + 1]) && Inv(env, states[i + 1])
  {
    RunsKeepIndexes(env, states, acts, i);
    GuardedCare(env, states[i], acts[i], states[i + 1]);
  }

  lemma GuardedCare(env: Env, n: Node, act: Action, n': Node)
    requires KeptSoFar(env, n) && IsStep(env, n, act, n') && NothingFails(act) && PassesNothingInFlight(env, n, act, n')
    ensures Careful(env, n, act, n') && Inv(env, n')
  {
    GuardIsHarmless(env, n, act, n');
    NothingFailsHarmlessly(env, n, act);
    StepKeepsInv(env, n, act, n');
  }

  lemma {:induction false} GuardedRunsKeepInv(env: Env, states: seq<Node>, acts: seq<Action>, i: nat)
    requires FixedReceivers(env) && GuardedRun(env, states, acts) && i < |states|
    ensures Inv(env, states[i])
  {
    if i == 0 {
      InitialInv(env);
    } else {
      GuardedRunsKeepInv(env, states, acts, i - 1);
      GuardedStep(env, states, acts, i - 1);
    }
  }

  lemma GuardedRunIsCareful(env: Env, states: seq<Node>, acts: seq<Action>)
    requires FixedReceivers(env) && GuardedRun(env, states, acts)
    ensures CarefulRun(env, states, acts)
  {
    forall j | 0 <= j < |acts| ensures Careful(env, states[j], acts[j], states[j + 1]) {
      GuardedRunsKeepInv(env, states, acts, j);
      GuardedStep(env, states, acts, j);
    }
  }

  /**
    At-least-once under the node's own check: starts and the seeks that answer a ready or a
    stopped actor do not fail, and the read position passes no offset in flight.
  */
  lemma CommittedIsHandledGuarded(env: Env, states: seq<Node>, acts: seq<Action>, i: nat, s: ShardId, k: nat, x: Offset)
    requires FixedReceivers(env) && GuardedRun(env, states, acts) && i < |states|
    requires s in states[i].partitions && k < |states[i].partitions[s].commits|
    requires LogAt(env, s, x).Some? && x < states[i].partitions[s].commits[k]
    ensures HandledAndSaved(env, states[i], s, x)
  {
    GuardedRunIsCareful(env, states, acts);
    CommittedIsHandled(env, states, acts, i, s, k, x);
  }
}
