/**
  The hypotheses of at-least-once delivery are exact for the steps that pass over a message:
  a forward seek, a drop at a shard whose pause was refused, and the dispatch of a message out
  of turn.
*/
module Safety {
  import opened Types
  import opened InflightWindow
  import opened ActorModel
  import opened NodeModel
  import opened NodeRuns
  import opened NodeIndex
  import opened Delivery
  import opened Coverage
  import opened CoverageSteps
  import opened CoverageDispatch
  import opened CoverageSaves
  import opened AtLeastOnce
  import opened Marks
  import opened Paths
  import opened Losses

  lemma LossIsNotHandled(env: Env, n: Node, n': Node, s: ShardId, x: Offset)
    requires Leads(CarefulSteps, env, n, n') && Lost(env, n', s, x)
    ensures !AlwaysHandledAfter(env, n)
  {
    var k: nat :| CommitsPast(env, n', s, k, x);
  }

  // ---------- seeks ----------

  lemma SameDelivered(env: Env, n: Node, n': Node, s: ShardId, x: Offset)
    requires n'.actors == n.actors && n'.past == n.past && InLog(env, s, x)
    ensures Delivered(env, n, s, x) <==> Delivered(env, n', s, x)
  {
    assert ReachedOf(n', ReceiverAt(env, s, x)) == ReachedOf(n, ReceiverAt(env, s, x));
  }

  lemma SoughtKept(env: Env, n: Node, s: ShardId, q: Offset, n': Node)
    requires KeptSoFar(env, n) && s in n.shards && n' == Seek(n, s, q, false)
    requires Accounted(env, n.stored, n.shards[s].inflight, s, q) && JumpIsHarmless(env, n, s, q)
    ensures KeptSoFar(env, n')
  {
    Seeks(env, n, s, q, false, n');
    SeekShape(n, s, q, false);
    SameShapeKeeps(env, n, n');
  }

  lemma SoughtStored(env: Env, n: Node, s: ShardId, q: Offset, n': Node)
    requires StoredOk(env, n) && n' == Seek(n, s, q, false)
    ensures StoredOk(env, n')
  {
    assert forall a :: HistoryOf(n', a) == HistoryOf(n, a);
  }

  /** A seek over the oldest offset in flight, and otherwise over delivered messages, is safe
      exactly when that offset was delivered. */
  lemma SeekIsSafeIff(env: Env, n: Node, s: ShardId, q: Offset, n': Node, x: Offset, m: Message)
    requires KeptSoFar(env, n) && s in n.shards && n' == Seek(n, s, q, false)
    requires Accounted(env, n.stored, n.shards[s].inflight, s, q)
    requires Passed(env, n', s, x) && GoesOn(env, n', s, x, m)
    requires forall y :: InLog(env, s, y) && PartitionOf(n, s).position <= y < q && y != x ==> Delivered(env, n, s, y)
    ensures AlwaysHandledAfter(env, n') <==> Delivered(env, n, s, x)
  {
    SameDelivered(env, n, n', s, x);
    if Delivered(env, n, s, x) {
      SoughtKept(env, n, s, q, n');
      KeptIsAlwaysHandled(env, n');
    } else {
      SoughtStored(env, n, s, q, n');
      var lost := PassedIsLost(CarefulSteps, env, n', s, x, m);
      LossIsNotHandled(env, n', lost, s, x);
    }
  }

  /** So it is for the seek with which the node answers an idle actor. */
  lemma IdleSeekIsSafeIff(env: Env, n: Node, b: ActorId, io: Io, taken: Node, n': Node, s: ShardId, q: Offset, x: Offset, m: Message)
    requires KeptSoFar(env, n) && IsStep(env, n, TakeIdle(b, io), n') && !io.seekFails
    requires taken == Taken(n, b) && s == ShardOf(env, b) && RecycleTarget(taken, b, s) == Some(q)
    requires Passed(env, n', s, x) && GoesOn(env, n', s, x, m)
    requires forall y :: InLog(env, s, y) && PartitionOf(n, s).position <= y < q && y != x ==> Delivered(env, n, s, y)
    ensures AlwaysHandledAfter(env, n') <==> Delivered(env, n, s, x)
  {
    TakesSignal(env, n, b, taken);
    TakenKeeps(env, n, b);
    TargetAccounted(env, taken, b);
    TakenDelivered(env, n, b, taken);
    SeekIsSafeIff(env, taken, s, q, n', x, m);
  }

  lemma TakenDelivered(env: Env, n: Node, b: ActorId, taken: Node)
    requires HasSignal(n, b) && taken == Taken(n, b)
    ensures taken.partitions == n.partitions
    ensures forall s, x :: InLog(env, s, x) ==> (Delivered(env, taken, s, x) <==> Delivered(env, n, s, x))
  {
    forall s, x | InLog(env, s, x) ensures Delivered(env, taken, s, x) <==> Delivered(env, n, s, x) {
      assert ReachedOf(taken, ReceiverAt(env, s, x)) == ReachedOf(n, ReceiverAt(env, s, x));
    }
  }

  // ---------- a refused pause ----------

  lemma DroppedKept(env: Env, n: Node, s: ShardId, d: Message, n': Node)
    requires KeptSoFar(env, n) && s == ShardOf(env, d.receiver) && s in n.partitions && s in n.shards && n.shards[s].pause.Some?
    requires IsNext(env, n.partitions[s], s, d) && DropIsHarmless(env, n, s, d) && n' == Advanced(n, s, d.offset + 1)
    ensures KeptSoFar(env, n')
  {
    Advances(env, n, s, d, n');
    AdvancedKeeps(env, n, s, d.offset + 1);
  }

  /** The save after which the shard reads on at the mark. */
  lemma ResumePasses(env: Env, n: Node, s: ShardId, b: ActorId, v: Offset, n': Node)
    requires s in n.shards && s in n.partitions && n.shards[s].pause == Some(v) && ShardOf(env, b) == s
    requires n' == Saved(env, n, {b}, CALM.(saved := {b}))
    requires forall y :: InLog(env, s, y) && n.partitions[s].position <= y < v ==> Delivered(env, n, s, y)
    ensures HarmlessMoves(env, n, n')
  {
    SavedHistories(env, n, {b}, CALM.(saved := {b}), n');
    forall t, y | t in n.partitions && InLog(env, t, y) && n.partitions[t].position <= y < PartitionOf(n', t).position
      ensures Delivered(env, n', t, y)
    {
      if t in n.shards && t != s { SavedElsewhere(env, n, b, t); }
      assert Delivered(env, n, t, y);
    }
  }

  lemma ResumeLeads(env: Env, n: Node, s: ShardId, b: ActorId, v: Offset, n': Node)
    requires UsableConfig(env.config) && s in n.shards && s in n.partitions && n.shards[s].pause == Some(v) && !n.exited
    requires b in n.actors && n.actors[b].snapshot.Some? && ShardOf(env, b) == s
    requires n' == SnapshotBatch(env, n, CALM.(saved := {b}))
    requires forall y :: InLog(env, s, y) && n.partitions[s].position <= y < v ==> Delivered(env, n, s, y)
    ensures Leads(CarefulSteps, env, n, n')
  {
    SavedHere(env, n, b, n.actors[b].snapshot.value);
    ResumePasses(env, n, s, b, v, n');
    LeadsToItself(CarefulSteps, env, n);
    LeadsOn(CarefulSteps, env, n, n, SnapshotTick(CALM.(saved := {b})), n');
  }

  lemma ResumeStored(env: Env, n: Node, b: ActorId, n': Node)
    requires ActorsOk(env, n) && StoredOk(env, n) && b in n.actors && n.actors[b].snapshot.Some?
    requires n' == SnapshotBatch(env, n, CALM.(saved := {b}))
    ensures StoredOk(env, n')
  {
    SavedHere(env, n, b, n.actors[b].snapshot.value);
    SavedHistories(env, n, {b}, CALM.(saved := {b}), n');
    SavedStored(env, n, {b}, CALM.(saved := {b}), n');
  }

  lemma ResumeDelivers(env: Env, n: Node, b: ActorId, n': Node, s: ShardId, x: Offset)
    requires n' == SnapshotBatch(env, n, CALM.(saved := {b})) && InLog(env, s, x) && Delivered(env, n', s, x)
    ensures Delivered(env, n, s, x)
  {
    SavedHistories(env, n, SavedActors(n, {b}), CALM.(saved := {b}), n');
  }

  /** The dispatcher drops the message at once. */
  lemma DropAdvances(env: Env, n: Node, s: ShardId, d: Message, io: Io, n': Node)
    requires s == ShardOf(env, d.receiver) && s in n.shards && n.shards[s].pause.Some?
    requires n' == Dispatcher(env, Advanced(n, s, d.offset + 1), d, io)
    ensures n' == Advanced(n, s, d.offset + 1)
  {
  }

  /**
    A message that is dropped in its turn at a shard marked as paused, before the one the shard will resume at, is
    safe to drop exactly when it was delivered: otherwise the next save that resumes the shard
    leaves it behind.
  */
  lemma DropIsSafeIff(env: Env, n: Node, s: ShardId, d: Message, io: Io, n': Node, b: ActorId, resumed: Node, m: Message)
    requires KeptSoFar(env, n) && IsStep(env, n, Dispatch(d, io), n') && s == ShardOf(env, d.receiver) && InTurn(env, n, d)
    requires s in n.registerShards && s in n.shards && n.shards[s].pause.Some? && d.offset < n.shards[s].pause.value
    requires forall y :: InLog(env, s, y) && d.offset < y < n.shards[s].pause.value ==> Delivered(env, n, s, y)
    requires b in n.actors && n.actors[b].snapshot.Some? && ShardOf(env, b) == s
    requires resumed == SnapshotBatch(env, n', CALM.(saved := {b}))
    requires Passed(env, resumed, s, d.offset) && GoesOn(env, resumed, s, d.offset, m)
    ensures AlwaysHandledAfter(env, n') <==> Delivered(env, n, s, d.offset)
  {
    var x, v := d.offset, n.shards[s].pause.value;
    DropAdvances(env, n, s, d, io, n');
    if Delivered(env, n, s, x) {
      DroppedKept(env, n, s, d, n');
      KeptIsAlwaysHandled(env, n');
    } else {
      DropLoses(env, n, s, d, n', b, resumed, m);
    }
  }

  lemma DropLoses(env: Env, n: Node, s: ShardId, d: Message, n': Node, b: ActorId, resumed: Node, m: Message)
    requires KeptSoFar(env, n) && s in n.partitions && n' == Advanced(n, s, d.offset + 1) && !n.exited
    requires s in n.shards && n.shards[s].pause.Some?
    requires forall y :: InLog(env, s, y) && d.offset < y < n.shards[s].pause.value ==> Delivered(env, n, s, y)
    requires b in n.actors && n.actors[b].snapshot.Some? && ShardOf(env, b) == s
    requires resumed == SnapshotBatch(env, n', CALM.(saved := {b}))
    requires Passed(env, resumed, s, d.offset) && GoesOn(env, resumed, s, d.offset, m) && !Delivered(env, n, s, d.offset)
    ensures !AlwaysHandledAfter(env, n')
  {
    var v := n.shards[s].pause.value;
    forall y | InLog(env, s, y) && n'.partitions[s].position <= y < v ensures Delivered(env, n', s, y) {
      SameDelivered(env, n, n', s, y);
    }
    AdvancedActors(env, n, s, d.offset + 1, n');
    SameDelivered(env, n, n', s, d.offset);
    ResumeLoses(env, n', s, b, v, resumed, d.offset, m);
  }

  lemma AdvancedActors(env: Env, n: Node, s: ShardId, position: Offset, n': Node)
    requires ActorsOk(env, n) && StoredOk(env, n) && n' == Advanced(n, s, position)
    ensures ActorsOk(env, n') && StoredOk(env, n')
  {
    assert forall a :: HistoryOf(n', a) == HistoryOf(n, a);
  }

  lemma ResumeLoses(env: Env, n: Node, s: ShardId, b: ActorId, v: Offset, resumed: Node, x: Offset, m: Message)
    requires FixedReceivers(env) && ActorsOk(env, n) && StoredOk(env, n)
    requires s in n.shards && s in n.partitions && n.shards[s].pause == Some(v) && !n.exited
    requires b in n.actors && n.actors[b].snapshot.Some? && ShardOf(env, b) == s
    requires resumed == SnapshotBatch(env, n, CALM.(saved := {b}))
    requires forall y :: InLog(env, s, y) && n.partitions[s].position <= y < v ==> Delivered(env, n, s, y)
    requires Passed(env, resumed, s, x) && GoesOn(env, resumed, s, x, m) && !Delivered(env, n, s, x)
    ensures !AlwaysHandledAfter(env, n)
  {
    ResumeLeads(env, n, s, b, v, resumed);
    ResumeStored(env, n, b, resumed);
    if Delivered(env, resumed, s, x) {
      ResumeDelivers(env, n, b, resumed, s, x);
    }
    var lost := PassedIsLost(CarefulSteps, env, resumed, s, x, m);
    LeadsTwice(CarefulSteps, env, n, resumed, lost);
    LossIsNotHandled(env, n, lost, s, x);
  }

  // ---------- a message out of turn ----------

  /** `m` reaches the node out of turn and is for the receiver of `x`: new, of a known command,
      within the window, and none of the receiver's offsets in flight is above it. */
  ghost predicate Overtakes(env: Env, n: Node, s: ShardId, x: Offset, m: Message)
    requires InLog(env, s, x) && s in n.shards
  {
    var a, w := ReceiverAt(env, s, x), n.shards[s].inflight;
    && m.receiver == a && m.command in env.config.handlers && x < m.offset
    && LogAt(env, s, m.offset) == Some(m) && !InTurn(env, n, m)
    && (a in n.actors ==> m.id !in n.actors[a].proc.dedup)
    && !Full(w, m.offset) && forall o :: o in ListOf(w, a) ==> o <= m.offset
  }

  lemma OvertakenIsLost(env: Env, n: Node, s: ShardId, x: Offset, m: Message, n': Node)
    requires FixedReceivers(env) && StoredOk(env, n) && Exposed(env, n, s, x) && Overtakes(env, n, s, x, m)
    requires n' == Dispatcher(env, n, m, CALM) && !Delivered(env, n, s, x)
    ensures !AlwaysHandledAfter(env, n')
  {
    Dispatched(env, n, s, m, n');
    var lost := MailedIsLost(CarefulSteps, env, n, n', s, x, m);
    LossIsNotHandled(env, n', lost, s, x);
  }

  lemma OvertakenKept(env: Env, n: Node, s: ShardId, x: Offset, m: Message, n': Node)
    requires KeptSoFar(env, n) && Exposed(env, n, s, x) && Overtakes(env, n, s, x, m)
    requires n' == Dispatcher(env, n, m, CALM) && Delivered(env, n, s, x)
    requires Accounted(env, n.stored, n.shards[s].inflight, s, m.offset)
    requires forall y :: Sent(env, m.receiver, y) && y < m.offset && y != x ==> y in ReachedOf(n, m.receiver)
    ensures KeptSoFar(env, n')
  {
    StaleKeeps(env, n, s, m, CALM, n');
    StepKeeps(env, n, Dispatch(m, CALM), n');
  }

  /**
    Let `x` be in flight with nothing of other actors in flight up to it, and `m` come out of
    turn for the same actor when all before `m` is in flight or covered and all sent to the
    actor before `m`, except perhaps `x`, was given to it.  Then `m` is safe to handle exactly
    when `x` was delivered.
  */
  lemma StaleIsSafeIff(env: Env, n: Node, s: ShardId, x: Offset, m: Message, n': Node)
    requires KeptSoFar(env, n) && IsStep(env, n, Dispatch(m, CALM), n')
    requires Exposed(env, n, s, x) && Overtakes(env, n, s, x, m)
    requires Accounted(env, n.stored, n.shards[s].inflight, s, m.offset)
    requires forall y :: Sent(env, m.receiver, y) && y < m.offset && y != x ==> y in ReachedOf(n, m.receiver)
    ensures AlwaysHandledAfter(env, n') <==> Delivered(env, n, s, x)
  {
    if Delivered(env, n, s, x) {
      OvertakenKept(env, n, s, x, m, n');
      KeptIsAlwaysHandled(env, n');
    } else {
      OvertakenIsLost(env, n, s, x, m, n');
    }
  }
}
