/**
  Which failing calls do harm: a failed start of an actor and a failed seek for one that is
  ready again.
*/
module Failures {
  import opened Types
  import opened InflightWindow
  import opened ActorModel
  import opened NodeModel
  import opened NodeRuns
  import opened NodeIndex
  import opened Delivery
  import opened Coverage
  import opened CoverageSteps
  import opened CoverageDispatch
  import opened AtLeastOnce
  import opened Paths
  import opened Losses
  import opened Safety

  // ---------- an actor does not start ----------

  /** Handling and saving `m` alone moves the commit past `x`. */
  ghost predicate MovesPast(w: Window, m: Message, x: Offset) {
    var c := AfterComplete(Add(w, m.offset, m.receiver), map[m.receiver := m.offset]);
    c.advanced && x < c.nextOffset
  }

  /** So it does when nothing else is in flight. */
  lemma AloneMovesPast(w: Window, m: Message, x: Offset)
    requires Valid(w) && w.offsetActor == map[] && 0 <= x < m.offset
    ensures MovesPast(w, m, x)
  {
    AloneIsReleased(w, m);
    assert AfterRemovals(Add(w, m.offset, m.receiver), map[m.receiver := m.offset]).offsetActor == map[];
  }

  lemma FirstIsIn(list: seq<Offset>)
    ensures list != [] ==> list[0] in list
  {
  }

  lemma AloneIsReleased(w: Window, m: Message)
    requires Valid(w) && w.offsetActor == map[]
    ensures Released(Add(w, m.offset, m.receiver), map[m.receiver := m.offset], m.offset)
  {
    var w', list := Add(w, m.offset, m.receiver), [m.offset];
    FirstIsIn(ListOf(w, m.receiver));
    assert ListOf(w, m.receiver) == [];
    assert [] + [m.offset] == list;
    LeadUnique(list, m.offset, 1);
    assert list[..1] == list;
  }

  /** The log goes on with a new message of a known command, which the commit follows past `x`. */
  ghost predicate Follows(env: Env, n: Node, s: ShardId, x: Offset, m: Message) {
    && CanCome(env, n, s, m) && MovesPast(n.shards[s].inflight, m, x)
    && m.command in env.config.handlers && m.id !in Before(n, m.receiver).proc.dedup
  }

  lemma FollowerCommits(law: Law, env: Env, n: Node, s: ShardId, x: Offset, m: Message) returns (n': Node, snapshot: ActorSnapshot)
    requires UsableConfig(env.config) && ActorsOk(env, n) && Follows(env, n, s, x, m) && InLog(env, s, x)
    ensures Leads(law, env, n, n') && n'.stored == n.stored + {snapshot} && snapshot.actorId == m.receiver
    ensures s in n'.partitions && |n'.partitions[s].commits| > 0
    ensures CommitsPast(env, n', s, |n'.partitions[s].commits| - 1, x)
  {
    var a, w := m.receiver, Add(n.shards[s].inflight, m.offset, m.receiver);
    var k := DispatchLeads(law, env, n, s, m);
    WorkingHere(n, s, a, Mailed(Before(n, a), m), w, k);
    n', snapshot := MailedIsSaved(law, env, k, s, a, Before(n, a), w, m);
    LeadsTwice(law, env, n, k, n');
    if a in n.actors { assert NodeActorOk(env, a, n.actors[a], s in n.registerShards); }
  }

  /** A message that no saved snapshot covers is not made up for by one for another actor. */
  lemma UncoveredIsLost(env: Env, n: Node, s: ShardId, x: Offset, m: Message)
    requires UsableConfig(env.config) && ActorsOk(env, n) && InLog(env, s, x) && Follows(env, n, s, x, m)
    requires m.receiver != ReceiverAt(env, s, x) && !Covered(env, n.stored, s, x)
    ensures !AlwaysHandledAfter(env, n)
  {
    var n', snapshot := FollowerCommits(CarefulSteps, env, n, s, x, m);
    assert !HandledAndSaved(env, n', s, x);
  }

  lemma FailedStart(env: Env, n: Node, s: ShardId, d: Message, io: Io, n': Node)
    requires s == ShardOf(env, d.receiver) && Listening(n, s) && d.receiver !in n.actors && n.disableActors == {}
    requires InTurn(env, n, d) && !Full(n.shards[s].inflight, d.offset) && io.startFails
    requires n' == Dispatcher(env, Read(env, n, d), d, io)
    ensures n' == Advanced(n, s, d.offset + 1)
  {
  }

  lemma CoveredIsGiven(env: Env, n: Node, s: ShardId, d: Message)
    requires KeptSoFar(env, n) && s == ShardOf(env, d.receiver) && Listening(n, s) && InTurn(env, n, d)
    requires LogAt(env, s, d.offset) == Some(d) && Covered(env, n.stored, s, d.offset)
    ensures StartIsGiven(env, n, d)
  {
    var snapshot :| snapshot in n.stored && Covers(snapshot, d.receiver, d.offset);
    assert HonestSnapshot(env, snapshot.actorId, snapshot, HistoryOf(n, snapshot.actorId));
    assert ShardOk(env, s, n.shards[s], PartitionOf(n, s), true, n.stored);
    NextAccounted(env, n.stored, n.shards[s].inflight, s, n.partitions[s], d);
  }

  /**
    When an actor does not start its message is dropped.  With a message for another actor next
    that moves the commit past it, that is safe exactly when a saved snapshot of an earlier
    instance covers it.
  */
  lemma FailedStartIsSafeIff(env: Env, n: Node, s: ShardId, d: Message, io: Io, n': Node, m: Message)
    requires KeptSoFar(env, n) && IsStep(env, n, Dispatch(d, io), n') && io.startFails && s == ShardOf(env, d.receiver)
    requires Listening(n, s) && InTurn(env, n, d) && d.receiver !in n.actors && !Full(n.shards[s].inflight, d.offset)
    requires Follows(env, n', s, d.offset, m) && m.receiver != d.receiver
    ensures InLog(env, s, d.offset)
    ensures AlwaysHandledAfter(env, n') <==> Covered(env, n.stored, s, d.offset)
  {
    FailedStart(env, n, s, d, io, n');
    if Covered(env, n.stored, s, d.offset) {
      CoveredIsGiven(env, n, s, d);
      FailedStartKeeps(env, n, s, d, io, n');
      StepKeeps(env, n, Dispatch(d, io), n');
      KeptIsAlwaysHandled(env, n');
    } else {
      AdvancedActors(env, n, s, d.offset + 1, n');
      UncoveredIsLost(env, n', s, d.offset, m);
    }
  }

  // ---------- the seek to a ready actor's message fails ----------

  lemma FailedReady(env: Env, n: Node, a: ActorId, na: NodeActor, io: Io, n': Node)
    requires ActorsOk(env, n) && StoredOk(env, n) && HasSignal(n, a) && n.actors[a] == na && na.pause.Some?
    requires n' == ReceiveReady(env, Taken(n, a), a, io) && io.seekFails
    ensures StoredOk(env, n')
    ensures a in n'.actors && Reached(n'.actors[a].proc) == Reached(na.proc) && Held(n'.actors[a]).None?
  {
    assert NodeActorOk(env, a, na, ShardOf(env, a) in n.registerShards);
    assert forall b :: HistoryOf(n', b) == HistoryOf(n, b);
  }

  /**
    The pause is over although the node could not seek back to the message that caused it.
    With the log going on for the actor, and all else sent to it before the read position given
    to it, that is safe exactly when that message was given to it too.
  */
  lemma FailedReadyIsSafeIff(env: Env, n: Node, a: ActorId, io: Io, n': Node, s: ShardId, x: Offset, m: Message)
    requires KeptSoFar(env, n) && IsStep(env, n, TakeReady(a, io), n') && io.seekFails && s == ShardOf(env, a)
    requires n.actors[a].pause == Some(x) && m.receiver == a
    requires Passed(env, n', s, x) && GoesOn(env, n', s, x, m)
    requires forall y :: Sent(env, a, y) && y < PartitionOf(n, s).position && y != x ==> y in ReachedOf(n, a)
    ensures AlwaysHandledAfter(env, n') <==> x in ReachedOf(n, a)
  {
    FailedReady(env, n, a, n.actors[a], io, n');
    if x in ReachedOf(n, a) {
      assert PauseIsGiven(env, n, a);
      ReadyKeeps(env, n, a, io, Taken(n, a), n');
      StepKeeps(env, n, TakeReady(a, io), n');
      KeptIsAlwaysHandled(env, n');
    } else {
      var lost := PassedIsLost(CarefulSteps, env, n', s, x, m);
      LossIsNotHandled(env, n', lost, s, x);
    }
  }
}
