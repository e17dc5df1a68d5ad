/**
  A paused shard and its partition.  As long as no pause is refused, the node is never handed
  a message of a shard it holds paused from before the one that found the window full.
*/
module Marks {
  import opened Types
  import opened InflightWindow
  import opened ActorModel
  import opened NodeModel
  import opened NodeRuns
  import opened NodeIndex
  import opened Delivery
  import opened AtLeastOnce

  /** The partition is paused, and nothing that was polled lies below the mark. */
  ghost predicate MarkHolds(s: NodeShard, p: Partition) {
    s.pause.Some? ==> p.paused && (s.pause.value <= p.position || p.polled <= p.position)
  }

  ghost predicate MarksHold(n: Node) {
    forall s :: s in n.registerShards && s in n.shards ==> MarkHolds(n.shards[s], PartitionOf(n, s))
  }

  lemma NotBelowMark(env: Env, n: Node, m: Message)
    requires MarksHold(n) && IsNext(env, PartitionOf(n, ShardOf(env, m.receiver)), ShardOf(env, m.receiver), m)
    ensures !BelowMark(env, n, m)
  {
  }

  // ---------- what steps do to a mark and its partition ----------

  /** The mark is gone, and the partition with it no longer paused, or it stands while the
      position stays or is sought. */
  ghost predicate MarkKept(s: NodeShard, p: Partition, s': NodeShard, p': Partition) {
    && (s'.pause.Some? ==>
          && s'.pause == s.pause && p'.paused == p.paused
          && ((p'.position == p.position && p'.polled == p.polled) || p'.polled == p'.position))
    && (s'.pause.None? && p'.paused ==> s.pause.None? && p.paused)
  }

  ghost predicate MarksKept(n: Node, n': Node) {
    && n'.registerShards <= n.registerShards && n'.shards.Keys <= n.shards.Keys
    && forall s :: s in n'.shards ==> MarkKept(n.shards[s], PartitionOf(n, s), n'.shards[s], PartitionOf(n', s))
  }

  lemma KeptHold(n: Node, n': Node)
    requires MarksHold(n) && MarksKept(n, n')
    ensures MarksHold(n')
  {
  }

  lemma KeptTwice(n: Node, m: Node, n': Node)
    requires MarksKept(n, m) && MarksKept(m, n')
    ensures MarksKept(n, n')
  {
  }

  lemma SeekKept(n: Node, s: ShardId, q: Offset, fails: bool)
    ensures MarksKept(n, Seek(n, s, q, fails))
  {
    if fails {} else {}
  }

  lemma ReleasedKept(s: NodeShard, p: Partition, reach: Reaches, shard: ShardId, io: Io)
    ensures var o := ReleasedShard(s, p, reach, shard, io); MarkKept(s, p, o.shard, o.partition)
  {
  }

  lemma SavedKept(env: Env, n: Node, done: set<ActorId>, io: Io, n': Node)
    requires n' == Saved(env, n, done, io) && n.shards.Keys <= n.partitions.Keys
    ensures MarksKept(n, n')
  {
    forall s | s in n'.shards ensures MarkKept(n.shards[s], PartitionOf(n, s), n'.shards[s], PartitionOf(n', s)) {
      ReleasedKept(n.shards[s], PartitionOf(n, s), ReachOn(env, n, done, s), s, io);
    }
  }

  lemma BatchKept(env: Env, n: Node, io: Io)
    requires n.shards.Keys <= n.partitions.Keys
    ensures MarksKept(n, SnapshotBatch(env, n, io))
  {
    if !io.saveFails { SavedKept(env, n, SavedActors(n, io.saved), io, SnapshotBatch(env, n, io)); }
  }

  lemma StopKept(n: Node, ids: set<ActorId>)
    ensures MarksKept(n, StopActors(n, ids))
  {
  }

  lemma RecycleKept(env: Env, n: Node, a: ActorId, io: Io, n': Node)
    requires a in n.actors && ShardOf(env, a) in n.shards && n.shards.Keys <= n.partitions.Keys
    requires n' == RecycleActor(env, n, a, io)
    ensures MarksKept(n, n')
  {
    var target := RecycleTarget(n, a, ShardOf(env, a));
    if target.Some? {
      SeekKept(n, ShardOf(env, a), target.value, io.seekFails);
    } else if n.actors[a].snapshot.Some? {
      BatchKept(env, n, io);
      StopKept(SnapshotBatch(env, n, io), {a});
      KeptTwice(n, SnapshotBatch(env, n, io), n');
    } else {
      StopKept(n, {a});
    }
  }

  lemma RemoveKept(env: Env, n: Node, a: ActorId)
    requires a in n.actors
    ensures MarksKept(n, RemoveActor(env, n, a))
  {
    var shard := ShardOf(env, a);
    if shard !in n.shards {
    } else if n.shards[shard].actors - {a} == {} && shard !in n.registerShards {
    } else {
    }
  }

  lemma StoppedKept(env: Env, n: Node, a: ActorId, io: Io, saved: Node, removed: Node, n': Node)
    requires a in n.actors && n.shards.Keys <= n.partitions.Keys && n' == ReceiveStopped(env, n, a, io)
    requires saved == SnapshotOne(env, n, a, io) && removed == RemoveActor(env, saved, a)
    ensures MarksKept(n, n')
  {
    if !io.saveFails { SavedKept(env, n, SavedActors(n, {a}), io, saved); }
    RemoveKept(env, saved, a);
    KeptTwice(n, saved, removed);
    if n.stopping {
    } else if n.actors[a].pending.Some? {
      SeekKept(removed, ShardOf(env, a), n.actors[a].pending.value, io.seekFails);
      KeptTwice(n, removed, n');
    }
  }

  // ---------- the steps that do more ----------

  lemma SubscribeHolds(env: Env, n: Node, s: ShardId, n': Node)
    requires MarksHold(n) && s !in n.shards && n' == Subscribed(env, n, s)
    ensures MarksHold(n')
  {
    assert forall t :: t != s ==> PartitionOf(n', t) == PartitionOf(n, t);
  }

  lemma PollHolds(n: Node, s: ShardId, upTo: Offset, n': Node)
    requires MarksHold(n) && s in n.registerShards && !PartitionOf(n, s).paused && n' == Polled(n, s, upTo)
    ensures MarksHold(n')
  {
    assert forall t :: t != s ==> PartitionOf(n', t) == PartitionOf(n, t);
  }

  /** No mark changes, and of the partitions at most the commits. */
  ghost predicate Quiet(n: Node, n': Node) {
    && n'.registerShards == n.registerShards && n'.shards.Keys == n.shards.Keys
    && (forall t :: t in n.shards ==> n'.shards[t].pause == n.shards[t].pause)
    && (forall t :: PartitionOf(n', t).(commits := []) == PartitionOf(n, t).(commits := []))
  }

  lemma QuietHolds(n: Node, n': Node)
    requires MarksHold(n) && Quiet(n, n')
    ensures MarksHold(n')
  {
    forall t | t in n'.registerShards && t in n'.shards ensures MarkHolds(n'.shards[t], PartitionOf(n', t)) {
      assert MarkHolds(n.shards[t], PartitionOf(n, t));
      assert PartitionOf(n', t).(commits := []) == PartitionOf(n, t).(commits := []);
    }
  }

  lemma OfferQuiet(env: Env, n: Node, a: ActorId, s: ShardId, m: Message)
    requires s in n.shards && a in n.actors
    ensures Quiet(n, Offer(env, AddInflight(n, s, m.offset, a), a, m))
  {
  }

  lemma StartQuiet(n: Node, a: ActorId, s: ShardId)
    requires s in n.shards
    ensures Quiet(n, StartActor(n, a, s)) && StartActor(n, a, s).shards.Keys == n.shards.Keys
  {
  }

  lemma DeadLetterQuiet(n: Node, s: ShardId, m: Message, io: Io)
    requires s in n.shards
    ensures Quiet(n, DeadLetter(n, s, m, io))
  {
  }

  lemma AdvanceHolds(env: Env, n: Node, s: ShardId, m: Message)
    requires MarksHold(n) && IsNext(env, PartitionOf(n, s), s, m)
    ensures MarksHold(Advanced(n, s, m.offset + 1))
  {
    var n' := Advanced(n, s, m.offset + 1);
    assert forall t :: t != s ==> PartitionOf(n', t) == PartitionOf(n, t);
  }

  lemma PauseHolds(n: Node, s: ShardId, offset: Offset, n': Node)
    requires MarksHold(n) && s in n.shards && n.shards[s].pause.None? && offset < PartitionOf(n, s).position
    requires n' == PauseShard(n, s, offset, false)
    ensures MarksHold(n')
  {
    assert forall t :: t != s ==> PartitionOf(n', t) == PartitionOf(n, t);
  }

  lemma DispatcherHolds(env: Env, n: Node, m: Message, io: Io, n': Node)
    requires MarksHold(n) && !io.pauseFails && n' == Dispatcher(env, n, m, io)
    requires m.offset < PartitionOf(n, ShardOf(env, m.receiver)).position
    ensures MarksHold(n')
  {
    var a, s := m.receiver, ShardOf(env, m.receiver);
    if s !in n.registerShards || s !in n.shards || n.shards[s].pause.Some? {
    } else if Full(n.shards[s].inflight, m.offset) {
      PauseHolds(n, s, m.offset, n');
    } else if a in n.disableActors {
      DeadLetterQuiet(n, s, m, io);
      QuietHolds(n, n');
    } else if a !in n.actors && io.startFails {
    } else if a in n.actors {
      OfferQuiet(env, n, a, s, m);
      QuietHolds(n, n');
    } else {
      StartQuiet(n, a, s);
      OfferQuiet(env, StartActor(n, a, s), a, s, m);
      QuietHolds(n, StartActor(n, a, s));
      QuietHolds(StartActor(n, a, s), n');
    }
  }

  lemma DispatchHolds(env: Env, n: Node, m: Message, io: Io, n': Node)
    requires MarksHold(n) && !io.pauseFails
    requires IsNext(env, PartitionOf(n, ShardOf(env, m.receiver)), ShardOf(env, m.receiver), m)
    requires n' == Dispatcher(env, Advanced(n, ShardOf(env, m.receiver), m.offset + 1), m, io)
    ensures MarksHold(n')
  {
    var s := ShardOf(env, m.receiver);
    AdvanceHolds(env, n, s, m);
    DispatcherHolds(env, Advanced(n, s, m.offset + 1), m, io, n');
  }

  // ---------- every step ----------

  ghost predicate PauseRefused(act: Action) {
    act.Dispatch? && act.io.pauseFails
  }

  /** The dispatcher gets the message that is next in the log, as if seeks withdrew what was
      polled before them. */
  ghost predicate InTurnStep(env: Env, n: Node, act: Action) {
    act.Dispatch? ==> InTurn(env, n, act.message)
  }

  lemma SeekingHolds(env: Env, n: Node, act: Action, n': Node, taken: Node)
    requires UsableConfig(env.config) && MarksHold(n) && IndexesMatch(env, n) && IsStep(env, n, act, n')
    requires (act.TakeIdle? || act.TakeStopped?) && taken == Taken(n, act.actor)
    ensures MarksHold(n')
  {
    if act.TakeIdle? {
      RecycleKept(env, taken, act.actor, act.io, n');
    } else {
      var saved := SnapshotOne(env, taken, act.actor, act.io);
      StoppedKept(env, taken, act.actor, act.io, saved, RemoveActor(env, saved, act.actor), n');
    }
    KeptHold(taken, n');
  }

  lemma SignalHolds(env: Env, n: Node, act: Action, n': Node)
    requires UsableConfig(env.config) && MarksHold(n) && IsStep(env, n, act, n')
    requires act.TakeAlive? || act.TakeSnapshot?
    ensures MarksHold(n')
  {
    KeptHold(n, n');
  }

  lemma ReadyHolds(env: Env, n: Node, a: ActorId, io: Io, n': Node)
    requires MarksHold(n) && n' == ReceiveReady(env, n, a, io)
    ensures MarksHold(n')
  {
    if a in n.actors && n.actors[a].pause.Some? {
      var ended := n.(actors := n.actors[a := n.actors[a].(pause := None)]);
      SeekKept(ended, ShardOf(env, a), n.actors[a].pause.value, io.seekFails);
      KeptHold(ended, n');
    }
  }

  lemma NodeHolds(env: Env, n: Node, act: Action, n': Node)
    requires UsableConfig(env.config) && MarksHold(n) && IndexesMatch(env, n) && IsStep(env, n, act, n')
    requires act.SnapshotTick? || act.Exit? || act.Stop? || act.ActorStep? || act.Crash?
    ensures MarksHold(n')
  {
    if act.SnapshotTick? || act.Exit? {
      BatchKept(env, n, act.io);
      KeptHold(n, SnapshotBatch(env, n, act.io));
    } else {
      KeptHold(n, n');
    }
  }

  lemma StepKeepsMarks(env: Env, n: Node, act: Action, n': Node)
    requires UsableConfig(env.config) && MarksHold(n) && IndexesMatch(env, n)
    requires IsStep(env, n, act, n') && !PauseRefused(act) && InTurnStep(env, n, act)
    ensures MarksHold(n')
  {
    if act.Subscribe? {
      SubscribeHolds(env, n, act.shard, n');
    } else if act.Poll? {
      PollHolds(n, act.shard, act.upTo, n');
    } else if act.Dispatch? {
      DispatchHolds(env, n, act.message, act.io, n');
    } else if act.TakeIdle? || act.TakeStopped? {
      SeekingHolds(env, n, act, n', Taken(n, act.actor));
    } else if act.TakeReady? {
      ReadyHolds(env, Taken(n, act.actor), act.actor, act.io, n');
    } else if act.TakeAlive? || act.TakeSnapshot? {
      SignalHolds(env, n, act, n');
    } else {
      NodeHolds(env, n, act, n');
    }
  }

  lemma {:induction false} RunsKeepMarks(env: Env, states: seq<Node>, acts: seq<Action>, i: nat)
    requires IsRun(env, states, acts) && i < |states|
    requires forall j :: 0 <= j < i ==> !PauseRefused(acts[j]) && InTurnStep(env, states[j], acts[j])
    ensures MarksHold(states[i])
  {
    if i > 0 {
      RunsKeepMarks(env, states, acts, i - 1);
      RunsKeepIndexes(env, states, acts, i - 1);
      assert IsStep(env, states[i - 1], acts[i - 1], states[i]);
      StepKeepsMarks(env, states[i - 1], acts[i - 1], states[i]);
    }
  }

  /** Where no pause is refused and messages come in turn, no message is dropped that is not read again. */
  lemma UnrefusedDispatch(env: Env, states: seq<Node>, acts: seq<Action>, i: nat)
    requires IsRun(env, states, acts) && i < |acts| && acts[i].Dispatch?
    requires forall j :: 0 <= j <= i ==> !PauseRefused(acts[j]) && InTurnStep(env, states[j], acts[j])
    ensures !BelowMark(env, states[i], acts[i].message)
  {
    RunsKeepMarks(env, states, acts, i);
    assert IsStep(env, states[i], acts[i], states[i + 1]);
    NotBelowMark(env, states[i], acts[i].message);
  }

  // ---------- no pause is forgotten ----------

  /** Every partition that is paused has a mark to resume at. */
  ghost predicate PausesMarked(n: Node) {
    forall s :: s in n.registerShards && s in n.shards && PartitionOf(n, s).paused ==> n.shards[s].pause.Some?
  }

  lemma KeptMarked(n: Node, n': Node)
    requires PausesMarked(n) && MarksKept(n, n')
    ensures PausesMarked(n')
  {
    forall s | s in n'.registerShards && s in n'.shards && PartitionOf(n', s).paused ensures n'.shards[s].pause.Some? {
      assert MarkKept(n.shards[s], PartitionOf(n, s), n'.shards[s], PartitionOf(n', s));
    }
  }

  lemma QuietMarked(n: Node, n': Node)
    requires PausesMarked(n) && Quiet(n, n')
    ensures PausesMarked(n')
  {
    forall s | s in n'.registerShards && s in n'.shards && PartitionOf(n', s).paused ensures n'.shards[s].pause.Some? {
      assert PartitionOf(n', s).(commits := []) == PartitionOf(n, s).(commits := []);
    }
  }

  lemma MovedMarked(n: Node, n': Node)
    requires PausesMarked(n) && n' == n.(partitions := n'.partitions)
    requires forall s :: PartitionOf(n', s).paused == PartitionOf(n, s).paused
    ensures PausesMarked(n')
  {
  }

  lemma PauseMarked(n: Node, s: ShardId, offset: Offset, fails: bool, n': Node)
    requires PausesMarked(n) && s in n.shards && n' == PauseShard(n, s, offset, fails)
    ensures PausesMarked(n')
  {
    assert forall t :: t != s ==> PartitionOf(n', t) == PartitionOf(n, t);
  }

  lemma DispatcherMarked(env: Env, n: Node, m: Message, io: Io, n': Node)
    requires PausesMarked(n) && n' == Dispatcher(env, n, m, io)
    ensures PausesMarked(n')
  {
    var a, s := m.receiver, ShardOf(env, m.receiver);
    if s !in n.registerShards || s !in n.shards || n.shards[s].pause.Some? {
    } else if Full(n.shards[s].inflight, m.offset) {
      PauseMarked(n, s, m.offset, io.pauseFails, n');
    } else if a in n.disableActors {
      DeadLetterQuiet(n, s, m, io);
      QuietMarked(n, n');
    } else if a !in n.actors && io.startFails {
    } else if a in n.actors {
      OfferQuiet(env, n, a, s, m);
      QuietMarked(n, n');
    } else {
      StartQuiet(n, a, s);
      OfferQuiet(env, StartActor(n, a, s), a, s, m);
      QuietMarked(n, StartActor(n, a, s));
      QuietMarked(StartActor(n, a, s), n');
    }
  }

  lemma DispatchMarked(env: Env, n: Node, m: Message, io: Io, n': Node)
    requires PausesMarked(n) && n' == Dispatcher(env, Read(env, n, m), m, io)
    ensures PausesMarked(n')
  {
    if InTurn(env, n, m) { MovedMarked(n, Read(env, n, m)); }
    DispatcherMarked(env, Read(env, n, m), m, io, n');
  }

  lemma SubscribeMarked(env: Env, n: Node, s: ShardId, n': Node)
    requires PausesMarked(n) && s !in n.shards && n' == Subscribed(env, n, s)
    ensures PausesMarked(n')
  {
    assert forall t :: t != s ==> PartitionOf(n', t) == PartitionOf(n, t);
  }

  lemma SeekingMarked(env: Env, n: Node, act: Action, n': Node, taken: Node)
    requires UsableConfig(env.config) && PausesMarked(n) && IndexesMatch(env, n) && IsStep(env, n, act, n')
    requires (act.TakeIdle? || act.TakeStopped?) && taken == Taken(n, act.actor)
    ensures PausesMarked(n')
  {
    if act.TakeIdle? {
      RecycleKept(env, taken, act.actor, act.io, n');
    } else {
      var saved := SnapshotOne(env, taken, act.actor, act.io);
      StoppedKept(env, taken, act.actor, act.io, saved, RemoveActor(env, saved, act.actor), n');
    }
    KeptMarked(taken, n');
  }

  lemma ReadyMarked(env: Env, n: Node, a: ActorId, io: Io, n': Node)
    requires PausesMarked(n) && n' == ReceiveReady(env, n, a, io)
    ensures PausesMarked(n')
  {
    if a in n.actors && n.actors[a].pause.Some? {
      var ended := n.(actors := n.actors[a := n.actors[a].(pause := None)]);
      SeekKept(ended, ShardOf(env, a), n.actors[a].pause.value, io.seekFails);
      KeptMarked(ended, n');
    }
  }

  lemma BatchMarked(env: Env, n: Node, io: Io, n': Node)
    requires PausesMarked(n) && n.shards.Keys <= n.partitions.Keys && n' == SnapshotBatch(env, n, io)
    ensures PausesMarked(n') && PausesMarked(n'.(exited := true))
  {
    BatchKept(env, n, io);
    KeptMarked(n, n');
  }

  lemma LocalMarked(env: Env, n: Node, act: Action, n': Node)
    requires UsableConfig(env.config) && PausesMarked(n) && IsStep(env, n, act, n')
    requires act.TakeAlive? || act.TakeSnapshot? || act.ActorStep? || act.Stop? || act.Crash?
    ensures PausesMarked(n')
  {
  }

  lemma StepKeepsPauses(env: Env, n: Node, act: Action, n': Node)
    requires UsableConfig(env.config) && PausesMarked(n) && IndexesMatch(env, n) && IsStep(env, n, act, n')
    ensures PausesMarked(n')
  {
    if act.Subscribe? {
      SubscribeMarked(env, n, act.shard, n');
    } else if act.Poll? {
      MovedMarked(n, n');
    } else if act.Dispatch? {
      DispatchMarked(env, n, act.message, act.io, n');
    } else if act.TakeIdle? || act.TakeStopped? {
      SeekingMarked(env, n, act, n', Taken(n, act.actor));
    } else if act.TakeReady? {
      ReadyMarked(env, Taken(n, act.actor), act.actor, act.io, n');
    } else if act.SnapshotTick? || act.Exit? {
      BatchMarked(env, n, act.io, SnapshotBatch(env, n, act.io));
    } else {
      LocalMarked(env, n, act, n');
    }
  }

  /** In every run no partition of a registered shard is paused without the mark at which a
      later save resumes it, whichever calls fail. */
  lemma {:induction false} RunsKeepPauses(env: Env, states: seq<Node>, acts: seq<Action>, i: nat)
    requires IsRun(env, states, acts) && i < |states|
    ensures PausesMarked(states[i])
  {
    if i > 0 {
      RunsKeepPauses(env, states, acts, i - 1);
      RunsKeepIndexes(env, states, acts, i - 1);
      assert IsStep(env, states[i - 1], acts[i - 1], states[i]);
      StepKeepsPauses(env, states[i - 1], acts[i - 1], states[i]);
    }
  }

  // ---------- seeks and pauses that meet the broker's contract ----------

  /** No seek of the step moves a position forward. */
  ghost predicate SeeksBackward(env: Env, n: Node, act: Action, n': Node) {
    act.Dispatch? || NeverForward(env, n, act, n')
  }

  /** At-least-once under the contract of the broker alone: pauses are not refused, no seek
      moves a position forward, and what was polled before a seek does not come after it. */
  lemma CommittedIsHandledUnrefused(env: Env, states: seq<Node>, acts: seq<Action>, i: nat, s: ShardId, k: nat, x: Offset)
    requires FixedReceivers(env) && IsRun(env, states, acts) && i < |states|
    requires forall j :: 0 <= j < |acts| ==>
               && NothingFails(acts[j]) && !PauseRefused(acts[j])
               && SeeksBackward(env, states[j], acts[j], states[j + 1]) && InTurnStep(env, states[j], acts[j])
    requires s in states[i].partitions && k < |states[i].partitions[s].commits|
    requires LogAt(env, s, x).Some? && x < states[i].partitions[s].commits[k]
    ensures HandledAndSaved(env, states[i], s, x)
  {
    forall j | 0 <= j < |acts| ensures NothingFails(acts[j]) && NeverForward(env, states[j], acts[j], states[j + 1]) {
      if acts[j].Dispatch? { UnrefusedDispatch(env, states, acts, j); }
    }
    CommittedIsHandledBackward(env, states, acts, i, s, k, x);
  }
}
