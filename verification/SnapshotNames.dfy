/**
  The node completes offsets under the actor id written in a snapshot (core/node.go:465-469,
  core/node.go:513-516).  In every run that is the id it keeps the snapshot under.
*/
module SnapshotNames {
  import opened Types
  import opened InflightWindow
  import opened ActorModel
  import opened NodeModel
  import opened NodeRuns
  import opened Delivery
  import opened Wakeups
  import NodeCommits

  ghost predicate NamedProc(a: ActorId, p: Proc) {
    && p.id == a
    && forall i :: 0 <= i < |p.signals| && p.signals[i].Snapshot? ==> p.signals[i].snapshot.actorId == a
  }

  ghost predicate Named(a: ActorId, na: NodeActor) {
    NamedProc(a, na.proc) && (na.snapshot.Some? ==> na.snapshot.value.actorId == a)
  }

  ghost predicate AllNamed(n: Node) {
    forall a :: a in n.actors ==> Named(a, n.actors[a])
  }

  /** Actors are as before, except that snapshots may be gone. */
  ghost predicate FewerSnapshots(n: Node, n': Node) {
    forall a :: a in n'.actors ==>
      a in n.actors && n'.actors[a].proc == n.actors[a].proc && n'.actors[a].snapshot in {None, n.actors[a].snapshot}
  }

  lemma FewerKeepNames(n: Node, n': Node)
    requires AllNamed(n) && FewerSnapshots(n, n')
    ensures AllNamed(n')
  {
  }

  lemma FewerTwice(n: Node, m: Node, n': Node)
    requires FewerSnapshots(n, m) && FewerSnapshots(m, n')
    ensures FewerSnapshots(n, n')
  {
  }

  lemma SavedFewer(env: Env, n: Node, done: set<ActorId>, io: Io)
    ensures FewerSnapshots(n, Saved(env, n, done, io))
  {
  }

  lemma StopFewer(n: Node, ids: set<ActorId>)
    ensures FewerSnapshots(n, StopActors(n, ids))
  {
  }

  lemma RecycleFewer(env: Env, n: Node, a: ActorId, io: Io, n': Node)
    requires a in n.actors && ShardOf(env, a) in n.shards && n' == RecycleActor(env, n, a, io)
    ensures FewerSnapshots(n, n')
  {
    if RecycleTarget(n, a, ShardOf(env, a)).Some? {
    } else if n.actors[a].snapshot.Some? {
      SavedFewer(env, n, SavedActors(n, io.saved), io);
      StopFewer(SnapshotBatch(env, n, io), {a});
      FewerTwice(n, SnapshotBatch(env, n, io), n');
    } else {
      StopFewer(n, {a});
    }
  }

  lemma StoppedFewer(env: Env, n: Node, a: ActorId, io: Io, n': Node)
    requires a in n.actors && n' == ReceiveStopped(env, n, a, io)
    ensures FewerSnapshots(n, n')
  {
    var saved := SnapshotOne(env, n, a, io);
    SavedFewer(env, n, SavedActors(n, {a}), io);
    assert a in saved.actors;
    RemoveMoves(env, saved, a);
    FewerTwice(n, saved, n');
  }

  lemma StoppingFewer(n: Node, n': Node)
    requires n' == BeforeStop(n)
    ensures FewerSnapshots(n, n')
  {
  }

  lemma TakenNamed(n: Node, a: ActorId)
    requires AllNamed(n) && HasSignal(n, a)
    ensures AllNamed(Taken(n, a))
    ensures NextSignal(n, a).Snapshot? ==> NextSignal(n, a).snapshot.actorId == a
  {
  }

  lemma SteppedNamed(c: Config, a: ActorId, na: NodeActor, step: ProcStep)
    requires UsableConfig(c) && Named(a, na) && CanStep(c, na, step)
    ensures NamedProc(a, Stepped(c, na.proc, step))
  {
  }

  lemma DispatchNamed(env: Env, n: Node, m: Message, io: Io, n': Node, at: Node)
    requires AllNamed(n) && at.actors == n.actors && n' == Dispatcher(env, at, m, io)
    ensures AllNamed(n')
  {
    DispatchMoves(env, at, m, io, n');
  }

  lemma SignalNamed(env: Env, n: Node, act: Action, n': Node, taken: Node)
    requires UsableConfig(env.config) && AllNamed(n) && IsStep(env, n, act, n')
    requires act.TakeIdle? || act.TakeStopped?
    requires taken == Taken(n, act.actor)
    ensures AllNamed(n')
  {
    TakenNamed(n, act.actor);
    if act.TakeIdle? {
      RecycleFewer(env, taken, act.actor, act.io, n');
    } else {
      StoppedFewer(env, taken, act.actor, act.io, n');
    }
    FewerKeepNames(taken, n');
  }

  lemma ReadNamed(env: Env, n: Node, act: Action, n': Node)
    requires UsableConfig(env.config) && AllNamed(n) && IsStep(env, n, act, n')
    requires act.TakeReady? || act.TakeAlive? || act.TakeSnapshot?
    ensures AllNamed(n')
  {
    TakenNamed(n, act.actor);
  }

  lemma RestNamed(env: Env, n: Node, act: Action, n': Node)
    requires UsableConfig(env.config) && AllNamed(n) && IsStep(env, n, act, n')
    requires act.Subscribe? || act.Poll? || act.SnapshotTick? || act.Exit? || act.Stop? || act.Crash?
    ensures AllNamed(n')
  {
    if act.Stop? {
      StoppingFewer(n, n');
    } else if act.SnapshotTick? || act.Exit? {
      SavedFewer(env, n, SavedActors(n, act.io.saved), act.io);
    }
    FewerKeepNames(n, n');
  }

  lemma StepKeepsNames(env: Env, n: Node, act: Action, n': Node)
    requires UsableConfig(env.config) && AllNamed(n) && IsStep(env, n, act, n')
    ensures AllNamed(n')
  {
    if act.Dispatch? {
      DispatchNamed(env, n, act.message, act.io, n', Read(env, n, act.message));
    } else if act.TakeIdle? || act.TakeStopped? {
      SignalNamed(env, n, act, n', Taken(n, act.actor));
    } else if act.TakeReady? || act.TakeAlive? || act.TakeSnapshot? {
      ReadNamed(env, n, act, n');
    } else if act.ActorStep? {
      SteppedNamed(env.config, act.actor, n.actors[act.actor], act.step);
    } else {
      RestNamed(env, n, act, n');
    }
  }

  lemma {:induction false} SnapshotsAreNamed(env: Env, states: seq<Node>, acts: seq<Action>, i: nat)
    requires IsRun(env, states, acts) && i < |states|
    ensures AllNamed(states[i])
  {
    if i > 0 {
      SnapshotsAreNamed(env, states, acts, i - 1);
      assert IsStep(env, states[i - 1], acts[i - 1], states[i]);
      StepKeepsNames(env, states[i - 1], acts[i - 1], states[i]);
    }
  }

  // ---------- commits rest on saved snapshots of the right actor ----------

  /** The step saves the snapshot kept of `a`, one of `a` itself that reaches `o`. */
  ghost predicate SavedFor(n: Node, act: Action, n': Node, a: ActorId, o: Offset) {
    && NodeCommits.SavesIn(act, a) && a in n.actors && n.actors[a].snapshot.Some?
    && var s := n.actors[a].snapshot.value;
       s in n'.stored && s.actorId == a && o <= s.offset
  }

  /** Step `k` saves a snapshot of `a` that reaches `o`, or `a` is disabled. */
  ghost predicate SavedAt(states: seq<Node>, acts: seq<Action>, k: nat, a: ActorId, o: Offset)
    requires k < |acts| && |states| == |acts| + 1
  {
    SavedFor(states[k], acts[k], states[k + 1], a, o) || a in states[k].disableActors
  }

  lemma ReleaseIsSaved(n: Node, act: Action, n': Node, a: ActorId, o: Offset)
    requires AllNamed(n) && NodeCommits.Released(n, act, n', a, o)
    ensures SavedFor(n, act, n', a, o) || a in n.disableActors
  {
  }

  /**
    For every offset below a committed one that was in flight in state `i`, such as right
    after it was last added, a step since has saved a snapshot of its own actor that reaches it.
  */
  lemma CommittedWasSaved(env: Env, states: seq<Node>, acts: seq<Action>, s: ShardId, j: nat, a: ActorId, o: Offset, i: nat)
    requires NodeCommits.OneReceiverEach(env) && IsRun(env, states, acts) && i <= j < |acts|
    requires NodeCommits.Lives(states, s, i, j + 1) && NodeCommits.InFlight(states[i], s, o) && Sent(env, a, o) && ShardOf(env, a) == s
    requires var was, now := PartitionOf(states[j], s).commits, PartitionOf(states[j + 1], s).commits;
             now != was && now != [] && o < now[|now| - 1]
    ensures exists k :: i <= k <= j && SavedAt(states, acts, k, a, o)
  {
    NodeCommits.CommitCoverage(env, states, acts, s, j, a, o, i);
    var k :| i <= k <= j && NodeCommits.ReleasedAt(states, acts, k, a, o);
    SnapshotsAreNamed(env, states, acts, k);
    ReleaseIsSaved(states[k], acts[k], states[k + 1], a, o);
    assert SavedAt(states, acts, k, a, o);
  }
}
