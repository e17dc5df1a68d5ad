/**
  Dispatching the next message of a partition keeps the invariant.
*/
module CoverageDispatch {
  import opened Types
  import opened InflightWindow
  import opened ActorModel
  import opened NodeModel
  import opened NodeRuns
  import opened NodeIndex
  import opened Delivery
  import opened Coverage
  import opened CoverageSteps

  // ---------- nothing lies between the position and the next message ----------

  lemma NextAccounted(env: Env, stored: set<ActorSnapshot>, w: Window, s: ShardId, p: Partition, m: Message)
    requires Accounted(env, stored, w, s, p.position) && IsNext(env, p, s, m)
    ensures Accounted(env, stored, w, s, m.offset)
  {
  }

  lemma NextDelivered(env: Env, n: Node, s: ShardId, p: Partition, m: Message)
    requires DeliveredBelow(env, n, s, p.position) && IsNext(env, p, s, m)
    ensures DeliveredBelow(env, n, s, m.offset)
  {
  }

  /** An actor nothing is held back from has been given all that was sent to it so far. */
  lemma NextUpTo(env: Env, n: Node, s: ShardId, a: ActorId, b: Offset)
    requires DeliveredBelow(env, n, s, b) && ShardOf(env, a) == s
    requires a in n.actors ==> Held(n.actors[a]).None?
    ensures UpTo(env, a, ReachedOf(n, a), b)
  {
  }

  lemma NextIsRight(env: Env, s: ShardId, p: Partition, m: Message)
    requires FixedReceivers(env) && IsNext(env, p, s, m)
    ensures RightMessage(env, m.receiver, m) && ShardOf(env, m.receiver) == s && 0 < m.offset
  {
  }

  // ---------- a new actor ----------

  lemma StartActors(env: Env, n: Node, a: ActorId, s: ShardId, n': Node)
    requires FixedReceivers(env) && ActorsOk(env, n) && HistoriesOk(env, n)
    requires a !in n.actors && s in n.shards && n' == StartActor(n, a, s)
    ensures ActorsOk(env, n')
    ensures forall b :: HistoryOf(n', b) == HistoryOf(n, b) && ReachedOf(n', b) == ReachedOf(n, b)
  {
    assert Knows(env, a, HistoryOf(n, a));
    NewProcOk(env, a, HistoryOf(n, a));
  }

  lemma SameHistories(env: Env, n: Node, n': Node)
    requires forall b :: HistoryOf(n', b) == HistoryOf(n, b)
    requires HistoriesOk(env, n) && StoredOk(env, n) && n'.stored == n.stored
    ensures HistoriesOk(env, n') && StoredOk(env, n')
  {
  }

  lemma Starts(env: Env, n: Node, a: ActorId, s: ShardId, n': Node)
    requires FixedReceivers(env) && Inv(env, n) && a !in n.actors && s in n.shards && n' == StartActor(n, a, s)
    ensures Inv(env, n')
    ensures forall t, b :: DeliveredBelow(env, n, t, b) ==> DeliveredBelow(env, n', t, b)
  {
    StartActors(env, n, a, s, n');
    SameHistories(env, n, n');
    StartDelivers(env, n, a, n');
    StartShards(env, n, n');
    StartRest(env, n, a, s, n');
  }

  lemma StartRest(env: Env, n: Node, a: ActorId, s: ShardId, n': Node)
    requires Simple(n) && HeldAccounted(env, n) && CommitsOk(env, n) && PositionsOk(env, n)
    requires a !in n.actors && s in n.shards && n' == StartActor(n, a, s)
    requires forall t, b :: DeliveredBelow(env, n, t, b) ==> DeliveredBelow(env, n', t, b)
    ensures Simple(n') && HeldAccounted(env, n') && CommitsOk(env, n') && PositionsOk(env, n')
  {
  }

  lemma StartDelivers(env: Env, n: Node, a: ActorId, n': Node)
    requires a !in n.actors && forall b :: ReachedOf(n', b) == ReachedOf(n, b)
    requires forall b :: b in n.actors ==> b in n'.actors && n'.actors[b] == n.actors[b]
    ensures forall t, b :: DeliveredBelow(env, n, t, b) ==> DeliveredBelow(env, n', t, b)
  {
  }

  lemma StartShards(env: Env, n: Node, n': Node)
    requires ShardsOk(env, n) && n'.partitions == n.partitions && n'.stored == n.stored
    requires n'.registerShards == n.registerShards && n'.shards.Keys == n.shards.Keys
    requires forall t :: t in n.shards ==> n'.shards[t].inflight == n.shards[t].inflight && n'.shards[t].pause == n.shards[t].pause
    ensures ShardsOk(env, n')
  {
  }

  // ---------- the window grows ----------

  lemma AddedWindow(env: Env, stored: set<ActorSnapshot>, s: ShardId, w: Window, m: Message)
    requires WindowOk(env, s, w) && RightMessage(env, m.receiver, m) && ShardOf(env, m.receiver) == s && 0 < m.offset
    requires Accounted(env, stored, w, s, m.offset) && Accounted(env, stored, w, s, w.maxOffset + 1)
    ensures var w' := Add(w, m.offset, m.receiver);
            && WindowOk(env, s, w')
            && Accounted(env, stored, w', s, w'.maxOffset + 1) && Accounted(env, stored, w', s, m.offset + 1)
            && forall b :: Accounted(env, stored, w, s, b) ==> Accounted(env, stored, w', s, b)
  {
    var w' := Add(w, m.offset, m.receiver);
    if m.offset in w.offsetActor {
      assert Sent(env, w.offsetActor[m.offset], m.offset);
    }
    AddKeepsValid(w, m.offset, m.receiver);
  }

  lemma AddsShards(env: Env, n: Node, s: ShardId, m: Message, n': Node)
    requires ShardsOk(env, n) && HeldAccounted(env, n) && s in n.shards && n' == AddInflight(n, s, m.offset, m.receiver)
    requires RightMessage(env, m.receiver, m) && ShardOf(env, m.receiver) == s && 0 < m.offset
    requires Accounted(env, n.stored, n.shards[s].inflight, s, m.offset)
    ensures ShardsOk(env, n') && HeldAccounted(env, n')
    ensures Accounted(env, n'.stored, n'.shards[s].inflight, s, m.offset + 1)
  {
    AddedWindow(env, n.stored, s, n.shards[s].inflight, m);
    assert forall t :: PartitionOf(n', t) == PartitionOf(n, t);
    assert ShardOk(env, s, n.shards[s], PartitionOf(n, s), s in n.registerShards, n.stored);
  }

  lemma Adds(env: Env, n: Node, s: ShardId, m: Message, n': Node)
    requires FixedReceivers(env) && Inv(env, n) && s in n.shards && n' == AddInflight(n, s, m.offset, m.receiver)
    requires RightMessage(env, m.receiver, m) && ShardOf(env, m.receiver) == s && 0 < m.offset
    requires Accounted(env, n.stored, n.shards[s].inflight, s, m.offset)
    ensures Inv(env, n')
    ensures Accounted(env, n'.stored, n'.shards[s].inflight, s, m.offset + 1)
    ensures forall t, b :: DeliveredBelow(env, n, t, b) ==> DeliveredBelow(env, n', t, b)
  {
    AddsShards(env, n, s, m, n');
    SameActors(env, n, n');
    SameHistories(env, n, n');
    assert n'.shards.Keys == n.shards.Keys;
  }

  // ---------- the actor is offered the message ----------

  lemma OfferedOk(env: Env, a: ActorId, na: NodeActor, registered: bool, m: Message)
    requires NodeActorOk(env, a, na, registered) && registered && RightMessage(env, a, m)
    requires Held(na).None? ==> UpTo(env, a, Reached(na.proc), m.offset)
    ensures var na' := Offered(env.config.capacity, na, m);
            && NodeActorOk(env, a, na', registered) && KeepsPromises(na, na')
            && (m.offset in Reached(na'.proc) || (Held(na').Some? && Held(na').value <= m.offset))
            && (Held(na') != Held(na) ==> Held(na') == Some(m.offset))
  {
    assert Sent(env, a, m.offset);
    if !na.stopping && na.pause.None? && |na.proc.mailbox| < env.config.capacity {
      MailedOk(env, a, na.proc, m);
    }
  }

  lemma Offers(env: Env, n: Node, s: ShardId, a: ActorId, m: Message, n': Node)
    requires FixedReceivers(env) && Inv(env, n) && a in n.actors && n' == Offer(env, n, a, m)
    requires s in n.registerShards && s in n.shards && ShardOf(env, a) == s && RightMessage(env, a, m)
    requires Held(n.actors[a]).None? ==> UpTo(env, a, Reached(n.actors[a].proc), m.offset)
    requires Accounted(env, n.stored, n.shards[s].inflight, s, m.offset)
    ensures Inv(env, n') && Delivered(env, n', s, m.offset)
  {
    var na' := Offered(env.config.capacity, n.actors[a], m);
    OfferedOk(env, a, n.actors[a], true, m);
    ActorChanges(env, n, a, na', n');
  }

  // ---------- the position moves past the message ----------

  /** A message dropped at a paused shard before the one that found the window full has been
      given to its receiver already. */
  ghost predicate DropIsHarmless(env: Env, n: Node, s: ShardId, m: Message) {
    s in n.registerShards && s in n.shards && n.shards[s].pause.Some? && m.offset < n.shards[s].pause.value ==>
      InLog(env, s, m.offset) && Delivered(env, n, s, m.offset)
  }

  /** What has to be settled about the message before the position may move past it. */
  ghost predicate Settled(env: Env, n: Node, s: ShardId, m: Message) {
    && DropIsHarmless(env, n, s, m)
    && (s in n.registerShards && s in n.shards && n.shards[s].pause.None? ==>
          && InLog(env, s, m.offset) && Delivered(env, n, s, m.offset)
          && Accounted(env, n.stored, n.shards[s].inflight, s, m.offset + 1))
  }

  lemma AdvancedShardOk(env: Env, s: ShardId, shard: NodeShard, p: Partition, registered: bool, stored: set<ActorSnapshot>, m: Message)
    requires ShardOk(env, s, shard, p, registered, stored) && IsNext(env, p, s, m)
    requires registered && shard.pause.None? ==> Accounted(env, stored, shard.inflight, s, m.offset + 1)
    ensures ShardOk(env, s, shard, p.(position := m.offset + 1), registered, stored)
  {
  }

  lemma AdvancedPosition(env: Env, n: Node, s: ShardId, m: Message, n': Node)
    requires s in n.registerShards && s in n.shards && s in n.partitions && n' == Advanced(n, s, m.offset + 1)
    requires ShardOk(env, s, n.shards[s], PartitionOf(n, s), true, n.stored)
    requires DeliveredBelow(env, n, s, Frontier(n.shards[s], PartitionOf(n, s)))
    requires IsNext(env, PartitionOf(n, s), s, m) && Settled(env, n, s, m)
    ensures DeliveredBelow(env, n', s, Frontier(n'.shards[s], PartitionOf(n', s)))
  {
  }

  lemma Advances(env: Env, n: Node, s: ShardId, m: Message, n': Node)
    requires FixedReceivers(env) && Inv(env, n) && s in n.partitions && n' == Advanced(n, s, m.offset + 1)
    requires IsNext(env, PartitionOf(n, s), s, m) && Settled(env, n, s, m)
    ensures Inv(env, n')
  {
    SameActors(env, n, n');
    assert StoredOk(env, n') by { assert forall a :: HistoryOf(n', a) == HistoryOf(n, a); }
    assert forall t :: t != s ==> PartitionOf(n', t) == PartitionOf(n, t);
    if s in n.shards {
      AdvancedShardOk(env, s, n.shards[s], PartitionOf(n, s), s in n.registerShards, n.stored, m);
      if s in n.registerShards { AdvancedPosition(env, n, s, m, n'); }
    }
  }

  // ---------- the window is full ----------

  lemma PausedShardOk(env: Env, s: ShardId, shard: NodeShard, p: Partition, registered: bool, stored: set<ActorSnapshot>, m: Message, paused: bool)
    requires ShardOk(env, s, shard, p, registered, stored) && IsNext(env, p, s, m) && shard.pause.None? && registered
    ensures ShardOk(env, s, shard.(pause := Some(m.offset)), p.(position := m.offset + 1, paused := paused), registered, stored)
  {
  }

  lemma PausesShard(env: Env, n: Node, s: ShardId, m: Message, paused: bool, n': Node)
    requires FixedReceivers(env) && Inv(env, n) && s in n.partitions && s in n.shards && s in n.registerShards
    requires IsNext(env, PartitionOf(n, s), s, m) && n.shards[s].pause.None?
    requires n' == n.(shards := n.shards[s := n.shards[s].(pause := Some(m.offset))],
                      partitions := n.partitions[s := n.partitions[s].(position := m.offset + 1, paused := paused)])
    ensures Inv(env, n')
  {
    SameActors(env, n, n');
    assert StoredOk(env, n') by { assert forall a :: HistoryOf(n', a) == HistoryOf(n, a); }
    assert forall t :: t != s ==> PartitionOf(n', t) == PartitionOf(n, t);
    PausedShardOk(env, s, n.shards[s], PartitionOf(n, s), true, n.stored, m, paused);
    NextDelivered(env, n, s, PartitionOf(n, s), m);
  }

  // ---------- the whole dispatch ----------

  lemma DeliverKeeps(env: Env, n: Node, s: ShardId, m: Message, n': Node)
    requires FixedReceivers(env) && Inv(env, n) && s in n.partitions && s in n.shards && s in n.registerShards
    requires IsNext(env, PartitionOf(n, s), s, m) && n.shards[s].pause.None? && ShardOf(env, m.receiver) == s
    requires m.receiver in n.actors
    requires n' == Advanced(Offer(env, AddInflight(n, s, m.offset, m.receiver), m.receiver, m), s, m.offset + 1)
    ensures Inv(env, n')
  {
    NextIsRight(env, s, PartitionOf(n, s), m);
    NextAccounted(env, n.stored, n.shards[s].inflight, s, PartitionOf(n, s), m);
    NextDelivered(env, n, s, PartitionOf(n, s), m);
    var added := AddInflight(n, s, m.offset, m.receiver);
    Adds(env, n, s, m, added);
    var offered := Offer(env, added, m.receiver, m);
    OfferAndAdvance(env, added, s, m, offered, n');
  }

  lemma OfferAndAdvance(env: Env, n: Node, s: ShardId, m: Message, offered: Node, n': Node)
    requires FixedReceivers(env) && Inv(env, n) && s in n.partitions && s in n.shards && s in n.registerShards
    requires IsNext(env, PartitionOf(n, s), s, m) && ShardOf(env, m.receiver) == s && RightMessage(env, m.receiver, m)
    requires m.receiver in n.actors && offered == Offer(env, n, m.receiver, m) && n' == Advanced(offered, s, m.offset + 1)
    requires DeliveredBelow(env, n, s, m.offset) && Accounted(env, n.stored, n.shards[s].inflight, s, m.offset + 1)
    ensures Inv(env, n')
  {
    if Held(n.actors[m.receiver]).None? { NextUpTo(env, n, s, m.receiver, m.offset); }
    Offers(env, n, s, m.receiver, m, offered);
    Advances(env, offered, s, m, n');
  }

  lemma AdvanceCommutes(env: Env, n: Node, s: ShardId, position: Offset, m: Message)
    requires s in n.shards && m.receiver in n.actors
    ensures Offer(env, AddInflight(Advanced(n, s, position), s, m.offset, m.receiver), m.receiver, m)
         == Advanced(Offer(env, AddInflight(n, s, m.offset, m.receiver), m.receiver, m), s, position)
  {
  }

  lemma StartCommutes(n: Node, s: ShardId, position: Offset, a: ActorId)
    requires s in n.shards
    ensures StartActor(Advanced(n, s, position), a, s) == Advanced(StartActor(n, a, s), s, position)
  {
  }

  ghost predicate Listening(n: Node, s: ShardId) {
    s in n.registerShards && s in n.shards && n.shards[s].pause.None?
  }

  /** The dispatcher as one change of `n`, the position included. */
  ghost predicate DispatchOutcome(env: Env, n: Node, s: ShardId, m: Message, refused: bool, n': Node) {
    var a, position := m.receiver, m.offset + 1;
    if !Listening(n, s) then n' == Advanced(n, s, position)
    else if Full(n.shards[s].inflight, m.offset) then
      s in n.partitions
      && n' == n.(shards := n.shards[s := n.shards[s].(pause := Some(m.offset))],
                  partitions := n.partitions[s := n.partitions[s].(position := position, paused := !refused || n.partitions[s].paused)])
    else
      var started := if a in n.actors then n else StartActor(n, a, s);
      n' == Advanced(Offer(env, AddInflight(started, s, m.offset, a), a, m), s, position)
  }

  lemma DispatcherDelivers(env: Env, n: Node, s: ShardId, m: Message)
    requires s in n.shards
    ensures var a, position := m.receiver, m.offset + 1;
            var at := Advanced(n, s, position);
            Offer(env, AddInflight(if a in n.actors then at else StartActor(at, a, s), s, m.offset, a), a, m)
            == Advanced(Offer(env, AddInflight(if a in n.actors then n else StartActor(n, a, s), s, m.offset, a), a, m), s, position)
  {
    if m.receiver in n.actors {
      AdvanceCommutes(env, n, s, m.offset + 1, m);
    } else {
      StartCommutes(n, s, m.offset + 1, m.receiver);
      AdvanceCommutes(env, StartActor(n, m.receiver, s), s, m.offset + 1, m);
    }
  }

  lemma DispatcherDoes(env: Env, n: Node, s: ShardId, m: Message, io: Io, n': Node)
    requires s == ShardOf(env, m.receiver) && s in n.partitions && n.disableActors == {}
    requires n' == Dispatcher(env, Advanced(n, s, m.offset + 1), m, io) && !io.startFails
    ensures DispatchOutcome(env, n, s, m, io.pauseFails, n')
  {
    if Listening(n, s) && !Full(n.shards[s].inflight, m.offset) {
      DispatcherDelivers(env, n, s, m);
    }
  }

  lemma Dispatches(env: Env, n: Node, s: ShardId, m: Message, refused: bool, n': Node)
    requires FixedReceivers(env) && Inv(env, n) && s == ShardOf(env, m.receiver) && s in n.partitions
    requires IsNext(env, PartitionOf(n, s), s, m) && DispatchOutcome(env, n, s, m, refused, n') && DropIsHarmless(env, n, s, m)
    ensures Inv(env, n')
  {
    if !Listening(n, s) {
      Advances(env, n, s, m, n');
    } else if Full(n.shards[s].inflight, m.offset) {
      PausesShard(env, n, s, m, !refused || n.partitions[s].paused, n');
    } else if m.receiver in n.actors {
      DeliverKeeps(env, n, s, m, n');
    } else {
      Starts(env, n, m.receiver, s, StartActor(n, m.receiver, s));
      DeliverKeeps(env, StartActor(n, m.receiver, s), s, m, n');
    }
  }

  // ---------- a message out of turn ----------

  ghost predicate Holds(n: Node, a: ActorId) {
    a in n.actors && Held(n.actors[a]).Some?
  }

  /** A message out of turn, such as one polled before a seek, that a listening shard gets: all
      before it is in flight or covered, and its receiver has been given all that was sent to
      it before, or the node holds something back for it anyway. */
  ghost predicate StaleIsHarmless(env: Env, n: Node, s: ShardId, m: Message) {
    Listening(n, s) ==>
      && Accounted(env, n.stored, n.shards[s].inflight, s, m.offset)
      && (Full(n.shards[s].inflight, m.offset) || Holds(n, m.receiver) || UpTo(env, m.receiver, ReachedOf(n, m.receiver), m.offset))
  }

  ghost predicate OrderIsHarmless(env: Env, n: Node, m: Message) {
    var s := ShardOf(env, m.receiver);
    if InTurn(env, n, m) then DropIsHarmless(env, n, s, m) else StaleIsHarmless(env, n, s, m)
  }

  lemma StalePausedShards(env: Env, n: Node, s: ShardId, m: Message, pauseFails: bool, n': Node)
    requires ShardsOk(env, n) && PositionsOk(env, n) && CommitsOk(env, n) && HeldAccounted(env, n) && Listening(n, s) && s in n.partitions
    requires Accounted(env, n.stored, n.shards[s].inflight, s, m.offset) && n' == PauseShard(n, s, m.offset, pauseFails)
    requires forall t, b :: DeliveredBelow(env, n, t, b) ==> DeliveredBelow(env, n', t, b)
    ensures ShardsOk(env, n') && PositionsOk(env, n') && CommitsOk(env, n') && HeldAccounted(env, n')
  {
    assert forall t :: t != s ==> PartitionOf(n', t) == PartitionOf(n, t);
    assert ShardOk(env, s, n.shards[s], PartitionOf(n, s), true, n.stored);
    assert Frontier(n'.shards[s], PartitionOf(n', s)) <= Frontier(n.shards[s], PartitionOf(n, s));
  }

  lemma StalePauses(env: Env, n: Node, s: ShardId, m: Message, pauseFails: bool, n': Node)
    requires FixedReceivers(env) && Inv(env, n) && Listening(n, s) && s in n.partitions
    requires Accounted(env, n.stored, n.shards[s].inflight, s, m.offset) && n' == PauseShard(n, s, m.offset, pauseFails)
    ensures Inv(env, n')
  {
    SameActors(env, n, n');
    assert StoredOk(env, n') by { assert forall a :: HistoryOf(n', a) == HistoryOf(n, a); }
    StalePausedShards(env, n, s, m, pauseFails, n');
  }

  lemma StaleDelivers(env: Env, n: Node, s: ShardId, m: Message, n': Node)
    requires FixedReceivers(env) && Inv(env, n) && Listening(n, s) && m.receiver in n.actors
    requires RightMessage(env, m.receiver, m) && ShardOf(env, m.receiver) == s && 0 < m.offset
    requires Accounted(env, n.stored, n.shards[s].inflight, s, m.offset)
    requires Holds(n, m.receiver) || UpTo(env, m.receiver, ReachedOf(n, m.receiver), m.offset)
    requires n' == Offer(env, AddInflight(n, s, m.offset, m.receiver), m.receiver, m)
    ensures Inv(env, n')
  {
    var added := AddInflight(n, s, m.offset, m.receiver);
    Adds(env, n, s, m, added);
    Offers(env, added, s, m.receiver, m, n');
  }

  /** Such a message does no harm, whatever order messages come in. */
  lemma StaleKeeps(env: Env, n: Node, s: ShardId, m: Message, io: Io, n': Node)
    requires FixedReceivers(env) && Inv(env, n) && IndexesMatch(env, n) && s == ShardOf(env, m.receiver)
    requires LogAt(env, s, m.offset) == Some(m) && StaleIsHarmless(env, n, s, m) && !io.startFails
    requires n' == Dispatcher(env, n, m, io)
    ensures Inv(env, n')
  {
    if Listening(n, s) {
      if Full(n.shards[s].inflight, m.offset) {
        StalePauses(env, n, s, m, io.pauseFails, n');
      } else if m.receiver in n.actors {
        StaleDelivers(env, n, s, m, n');
      } else {
        StaleStarts(env, n, s, m, StartActor(n, m.receiver, s), n');
      }
    }
  }

  lemma StaleStarts(env: Env, n: Node, s: ShardId, m: Message, started: Node, n': Node)
    requires FixedReceivers(env) && Inv(env, n) && Listening(n, s) && m.receiver !in n.actors
    requires RightMessage(env, m.receiver, m) && ShardOf(env, m.receiver) == s && 0 < m.offset
    requires Accounted(env, n.stored, n.shards[s].inflight, s, m.offset)
    requires UpTo(env, m.receiver, ReachedOf(n, m.receiver), m.offset) && started == StartActor(n, m.receiver, s)
    requires n' == Offer(env, AddInflight(started, s, m.offset, m.receiver), m.receiver, m)
    ensures Inv(env, n')
  {
    Starts(env, n, m.receiver, s, started);
    StartActors(env, n, m.receiver, s, started);
    StaleDelivers(env, started, s, m, n');
  }
}
