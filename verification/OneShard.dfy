/**
  Runs of a node with one shard, step by step: what the concrete runs are made of.
*/
module OneShard {
  import opened Types
  import opened InflightWindow
  import opened ActorModel
  import opened NodeModel
  import opened NodeRuns
  import opened AtLeastOnce
  import opened Marks
  import opened Paths
  import opened Losses
  import NodeBatch

  type Actors = map<ActorId, NodeActor>

  datatype Scene = Scene(
    shard: ShardId, actors: Actors, window: Window, mark: Option<Offset>, p: Partition,
    stored: set<ActorSnapshot>, past: map<ActorId, History>)

  function Show(v: Scene): Node {
    Node({v.shard}, map[v.shard := NodeShard(v.actors.Keys, v.window, v.mark)], v.actors, {}, false, 0, false,
         map[v.shard := v.p], v.stored, v.past)
  }

  function Put(v: Scene, a: ActorId, na: NodeActor): Scene {
    v.(actors := v.actors[a := na])
  }

  lemma Replaced<K, V>(k: K, v: V, v': V)
    ensures map[k := v][k := v'] == map[k := v'] && map[][k := v] == map[k := v]
  {
  }

  lemma KeysKept<K, V>(m: map<K, V>, k: K, v: V)
    requires k in m
    ensures m[k := v].Keys == m.Keys
  {
  }

  /** A change of one actor, or of the partition without moving the position forward. */
  lemma Quiet(law: Law, env: Env, v: Scene, act: Action, v': Scene)
    requires Reachable(law, env, Show(v)) && UsableConfig(env.config) && IsStep(env, Show(v), act, Show(v')) && NothingFails(act)
    requires !act.Dispatch? && !act.TakeStopped? && v'.shard == v.shard && v'.p.position <= v.p.position
    ensures Reachable(law, env, Show(v'))
  {
    BackwardLeads(law, env, Initial(), Show(v), act, Show(v'));
  }

  lemma Begins(law: Law, env: Env, s: ShardId, v: Scene)
    requires UsableConfig(env.config)
    requires v == Scene(s, map[], Empty(env.windowLimit), None, Partition(StartOf(env, s), StartOf(env, s), false, []), {}, map[])
    ensures Reachable(law, env, Show(v))
  {
    LeadsToItself(law, env, Initial());
    Replaced(s, NodeShard({}, v.window, None), NodeShard({}, v.window, None));
    Replaced(s, v.p, v.p);
    assert {} + {s} == {s};
    assert v.actors.Keys == {};
    assert Show(v) == Subscribed(env, Initial(), s);
    CalmLeads(law, env, Initial(), Initial(), Subscribe(s), Show(v));
  }

  lemma Polls(law: Law, env: Env, v: Scene, upTo: Offset)
    requires Reachable(law, env, Show(v)) && UsableConfig(env.config) && !v.p.paused && v.p.polled <= upTo
    ensures Reachable(law, env, Show(v.(p := v.p.(polled := upTo))))
  {
    Replaced(v.shard, v.p, v.p.(polled := upTo));
    Quiet(law, env, v, Poll(v.shard, upTo), v.(p := v.p.(polled := upTo)));
  }

  lemma Acts(law: Law, env: Env, v: Scene, a: ActorId, step: ProcStep, next: NodeActor)
    requires Reachable(law, env, Show(v)) && UsableConfig(env.config) && a in v.actors && CanStep(env.config, v.actors[a], step)
    requires next == v.actors[a].(proc := Stepped(env.config, v.actors[a].proc, step))
    ensures Reachable(law, env, Show(Put(v, a, next)))
  {
    KeysKept(v.actors, a, next);
    Quiet(law, env, v, ActorStep(a, step), Put(v, a, next));
  }

  lemma TakesSnapshot(law: Law, env: Env, v: Scene, a: ActorId, s: ActorSnapshot, rest: seq<Signal>, next: NodeActor)
    requires Reachable(law, env, Show(v)) && UsableConfig(env.config) && a in v.actors
    requires v.actors[a].proc.signals == [Snapshot(s)] + rest
    requires next == v.actors[a].(snapshot := Some(s), proc := v.actors[a].proc.(signals := rest))
    ensures Reachable(law, env, Show(Put(v, a, next)))
  {
    assert v.actors[a].proc.signals[1..] == rest;
    assert v.actors[a := v.actors[a].(proc := v.actors[a].proc.(signals := rest))][a := next] == v.actors[a := next];
    KeysKept(v.actors, a, next);
    Quiet(law, env, v, TakeSnapshot(a), Put(v, a, next));
  }

  /** The node seeks back to what the ready actor was paused at. */
  lemma ReadyGoesBack(law: Law, env: Env, v: Scene, a: ActorId, q: Offset, rest: seq<Signal>, next: NodeActor)
    requires Reachable(law, env, Show(v)) && UsableConfig(env.config) && ShardOf(env, a) == v.shard && a in v.actors
    requires v.actors[a].proc.signals == [Signal.Ready] + rest && v.actors[a].pause == Some(q) && q <= v.p.position
    requires next == v.actors[a].(pause := None, proc := v.actors[a].proc.(signals := rest))
    ensures Reachable(law, env, Show(Put(v, a, next).(p := Sought(v.p, q))))
  {
    assert v.actors[a].proc.signals[1..] == rest;
    assert v.actors[a := v.actors[a].(proc := v.actors[a].proc.(signals := rest))][a := next] == v.actors[a := next];
    KeysKept(v.actors, a, next);
    Replaced(v.shard, v.p, Sought(v.p, q));
    Quiet(law, env, v, TakeReady(a, CALM), Put(v, a, next).(p := Sought(v.p, q)));
  }

  // ---------- dispatching ----------

  function Given(env: Env, v: Scene, m: Message): NodeActor {
    if m.receiver in v.actors then Offered(env.config.capacity, v.actors[m.receiver], m)
    else NodeActor(false, None, None, None, NewProc(m.receiver, if m.receiver in v.past then v.past[m.receiver] else NO_HISTORY)
                                              .(mailbox := [Network(m)]))
  }

  function Passing(v: Scene, m: Message): Scene {
    v.(p := v.p.(position := m.offset + 1))
  }

  /** The scene after the dispatch, in turn or not. */
  function WithGiven(v: Scene, m: Message, next: NodeActor): Scene {
    Put(v, m.receiver, next).(window := Add(v.window, m.offset, m.receiver))
  }

  lemma OffersThere(env: Env, v: Scene, m: Message, next: NodeActor)
    requires m.receiver in v.actors && next == Offered(env.config.capacity, v.actors[m.receiver], m)
    ensures Offer(env, AddInflight(Show(v), v.shard, m.offset, m.receiver), m.receiver, m)
         == Show(WithGiven(v, m, next))
  {
    KeysKept(v.actors, m.receiver, next);
    Replaced(v.shard, NodeShard(v.actors.Keys, v.window, v.mark),
             NodeShard(v.actors.Keys, Add(v.window, m.offset, m.receiver), v.mark));
  }

  lemma StartsThere(v: Scene, a: ActorId, blank: NodeActor)
    requires a !in v.actors && blank == NodeActor(false, None, None, None, NewProc(a, if a in v.past then v.past[a] else NO_HISTORY))
    ensures StartActor(Show(v), a, v.shard) == Show(Put(v, a, blank))
  {
    assert v.actors[a := blank].Keys == v.actors.Keys + {a};
    Replaced(v.shard, NodeShard(v.actors.Keys, v.window, v.mark), NodeShard(v.actors.Keys + {a}, v.window, v.mark));
  }

  lemma Delivers(env: Env, v: Scene, m: Message, next: NodeActor)
    requires UsableConfig(env.config) && ShardOf(env, m.receiver) == v.shard && v.mark.None? && !Full(v.window, m.offset)
    requires next == Given(env, v, m)
    ensures Dispatcher(env, Show(v), m, CALM) == Show(WithGiven(v, m, next))
  {
    if m.receiver in v.actors {
      OffersThere(env, v, m, next);
    } else {
      var blank := NodeActor(false, None, None, None, NewProc(m.receiver, if m.receiver in v.past then v.past[m.receiver] else NO_HISTORY));
      DeliversFirst(env, v, m, blank, next);
    }
  }

  lemma DeliversFirst(env: Env, v: Scene, m: Message, blank: NodeActor, next: NodeActor)
    requires m.receiver !in v.actors && ShardOf(env, m.receiver) == v.shard && v.mark.None? && !Full(v.window, m.offset)
    requires UsableConfig(env.config) && next == Given(env, v, m)
    requires blank == NodeActor(false, None, None, None, NewProc(m.receiver, if m.receiver in v.past then v.past[m.receiver] else NO_HISTORY))
    ensures Dispatcher(env, Show(v), m, CALM) == Show(WithGiven(v, m, next))
  {
    var started := Put(v, m.receiver, blank);
    StartsThere(v, m.receiver, blank);
    assert [] + [Network(m)] == [Network(m)];
    OffersThere(env, started, m, next);
    assert v.actors[m.receiver := blank][m.receiver := next] == v.actors[m.receiver := next];
  }

  lemma Dispatches(law: Law, env: Env, v: Scene, m: Message, next: NodeActor)
    requires Reachable(law, env, Show(v)) && UsableConfig(env.config) && ShardOf(env, m.receiver) == v.shard
    requires v.mark.None? && IsNext(env, v.p, v.shard, m) && !Full(v.window, m.offset) && next == Given(env, v, m)
    ensures Reachable(law, env, Show(Passing(WithGiven(v, m, next), m)))
  {
    PassesThere(v, m);
    Delivers(env, Passing(v, m), m, next);
    CalmDispatchLeads(law, env, Initial(), v.shard, m, Show(v), Show(Passing(WithGiven(v, m, next), m)));
  }

  lemma PassesThere(v: Scene, m: Message)
    ensures Advanced(Show(v), v.shard, m.offset + 1) == Show(Passing(v, m))
  {
    Replaced(v.shard, v.p, v.p.(position := m.offset + 1));
  }

  /** The window is full, and the broker refuses to pause. */
  lemma Refuses(law: Law, env: Env, v: Scene, m: Message)
    requires Reachable(law, env, Show(v)) && law in {NoSeekForward, CarefulSteps} && UsableConfig(env.config) && ShardOf(env, m.receiver) == v.shard
    requires v.mark.None? && IsNext(env, v.p, v.shard, m) && Full(v.window, m.offset)
    ensures Reachable(law, env, Show(Passing(v, m).(mark := Some(m.offset))))
  {
    var v' := Passing(v, m).(mark := Some(m.offset));
    Replaced(v.shard, v.p, v'.p);
    Replaced(v.shard, NodeShard(v.actors.Keys, v.window, None), NodeShard(v.actors.Keys, v.window, v'.mark));
    LeadsOn(law, env, Initial(), Show(v), Dispatch(m, CALM.(pauseFails := true)), Show(v'));
  }

  lemma DropStep(env: Env, v: Scene, m: Message)
    requires UsableConfig(env.config) && ShardOf(env, m.receiver) == v.shard && v.mark.Some? && IsNext(env, v.p, v.shard, m)
    ensures IsStep(env, Show(v), Dispatch(m, CALM), Show(Passing(v, m)))
  {
    Replaced(v.shard, v.p, v.p.(position := m.offset + 1));
  }

  lemma Drops(env: Env, v: Scene, m: Message)
    requires Reachable(NoSeekForward, env, Show(v)) && UsableConfig(env.config) && ShardOf(env, m.receiver) == v.shard
    requires v.mark.Some? && IsNext(env, v.p, v.shard, m)
    ensures Reachable(NoSeekForward, env, Show(Passing(v, m)))
  {
    DropStep(env, v, m);
    LeadsOn(NoSeekForward, env, Initial(), Show(v), Dispatch(m, CALM), Show(Passing(v, m)));
  }

  // ---------- idle actors ----------

  /** An idle actor with something in flight makes the node seek to it. */
  lemma IdleSeekStep(env: Env, v: Scene, a: ActorId, q: Offset, next: NodeActor)
    requires UsableConfig(env.config) && ShardOf(env, a) == v.shard && a in v.actors
    requires v.actors[a].proc.signals == [Signal.Idle] && ListOf(v.window, a) == [q]
    requires next == v.actors[a].(proc := v.actors[a].proc.(signals := []))
    ensures IsStep(env, Show(v), TakeIdle(a, CALM), Show(Put(v, a, next).(p := Sought(v.p, q))))
    ensures Taken(Show(v), a) == Show(Put(v, a, next)) && RecycleTarget(Taken(Show(v), a), a, v.shard) == Some(q)
  {
    KeysKept(v.actors, a, next);
    assert v.actors[a].proc.signals[1..] == [];
    var offsets := set o | o in ListOf(v.window, a);
    assert q in offsets && forall o :: o in offsets ==> q <= o;
    MinOfUnique(offsets, q);
    Replaced(v.shard, v.p, Sought(v.p, q));
  }

  /** An idle actor with nothing to wait for is told to stop. */
  lemma IdleStops(law: Law, env: Env, v: Scene, a: ActorId, next: NodeActor)
    requires Reachable(law, env, Show(v)) && UsableConfig(env.config) && ShardOf(env, a) == v.shard && a in v.actors
    requires v.actors[a].proc.signals == [Signal.Idle] && ListOf(v.window, a) == []
    requires v.actors[a].pause.None? && v.actors[a].snapshot.None?
    requires next == v.actors[a].(stopping := true, proc := v.actors[a].proc.(signals := []))
    ensures Reachable(law, env, Show(Put(v, a, next)))
  {
    KeysKept(v.actors, a, next);
    assert v.actors[a].proc.signals[1..] == [];
    var taken := Taken(Show(v), a);
    assert StopActors(taken, {a}).actors == v.actors[a := next];
    Quiet(law, env, v, TakeIdle(a, CALM), Put(v, a, next));
  }

  // ---------- saves ----------

  ghost predicate Saving(w: Window, p: Partition, a: ActorId, s: ActorSnapshot, w': Window, p': Partition) {
    var c := AfterComplete(w, map[a := s.offset]);
    w' == c.window && p' == if c.advanced then p.(commits := p.commits + [c.nextOffset]) else p
  }

  /** The commit, and for a marked shard the end of its pause. */
  function Resumed(mark: Option<Offset>, p: Partition): Partition {
    if mark.Some? then Sought(p, mark.value).(paused := false) else p
  }

  lemma Releases(env: Env, v: Scene, a: ActorId, s: ActorSnapshot, w': Window, p': Partition, io: Io)
    requires ShardOf(env, a) == v.shard && a in v.actors && v.actors[a].snapshot == Some(s) && io in {CALM, CALM.(saved := {a})}
    requires Saving(v.window, v.p, a, s, w', p')
    ensures ReleasedOn(env, Show(v), {a}, v.shard, io) == Outcome(NodeShard(v.actors.Keys, w', None), Resumed(v.mark, p'), false)
  {
    SavedHere(env, Show(v), a, s);
    assert a in ReachOn(env, Show(v), {a}, v.shard);
  }

  lemma SavedShard(env: Env, v: Scene, a: ActorId, io: Io)
    ensures Saved(env, Show(v), {a}, io).shards == map[v.shard := ReleasedOn(env, Show(v), {a}, v.shard, io).shard]
  {
    assert Show(v).shards.Keys == {v.shard};
  }

  lemma SavedPartition(env: Env, v: Scene, a: ActorId, io: Io)
    ensures Saved(env, Show(v), {a}, io).partitions == map[v.shard := ReleasedOn(env, Show(v), {a}, v.shard, io).partition]
  {
    assert Show(v).partitions.Keys == {v.shard};
  }

  lemma SavedActor(env: Env, v: Scene, a: ActorId, s: ActorSnapshot, io: Io)
    requires a in v.actors && v.actors[a].snapshot == Some(s)
    ensures SavedActors(Show(v), {a}) == {a}
    ensures Saved(env, Show(v), {a}, io).actors == v.actors[a := v.actors[a].(snapshot := None)]
    ensures Saved(env, Show(v), {a}, io).stored == v.stored + {s}
  {
  }

  function AfterSaving(v: Scene, a: ActorId, s: ActorSnapshot, w': Window, p': Partition): Scene
    requires a in v.actors
  {
    Put(v, a, v.actors[a].(snapshot := None)).(window := w', mark := None, p := Resumed(v.mark, p'), stored := v.stored + {s})
  }

  lemma SavesThere(env: Env, v: Scene, a: ActorId, s: ActorSnapshot, w': Window, p': Partition, io: Io)
    requires ShardOf(env, a) == v.shard && a in v.actors && v.actors[a].snapshot == Some(s) && io in {CALM, CALM.(saved := {a})}
    requires Saving(v.window, v.p, a, s, w', p')
    ensures Saved(env, Show(v), {a}, io) == Show(AfterSaving(v, a, s, w', p'))
  {
    SavedActor(env, v, a, s, io);
    Releases(env, v, a, s, w', p', io);
    SavedShard(env, v, a, io);
    SavedPartition(env, v, a, io);
    KeysKept(v.actors, a, v.actors[a].(snapshot := None));
  }

  /** The snapshot of `a` is saved; a shard marked as paused reads on at the mark. */
  lemma Ticks(law: Law, env: Env, v: Scene, a: ActorId, s: ActorSnapshot, w': Window, p': Partition)
    requires Reachable(law, env, Show(v)) && UsableConfig(env.config)
    requires ShardOf(env, a) == v.shard && a in v.actors && v.actors[a].snapshot == Some(s) && Saving(v.window, v.p, a, s, w', p')
    requires v.mark.Some? ==> v.mark.value <= v.p.position
    ensures Reachable(law, env, Show(AfterSaving(v, a, s, w', p')))
  {
    SavesThere(env, v, a, s, w', p', CALM.(saved := {a}));
    SavedActor(env, v, a, s, CALM.(saved := {a}));
    Quiet(law, env, v, SnapshotTick(CALM.(saved := {a})), AfterSaving(v, a, s, w', p'));
  }

  // ---------- stopped actors ----------

  function Left(v: Scene, a: ActorId, q: Offset): Scene
    requires a in v.actors
  {
    v.(actors := v.actors - {a}, p := Sought(v.p, q), past := v.past[a := v.actors[a].proc.history])
  }

  lemma LeavesThere(env: Env, v: Scene, a: ActorId)
    requires ShardOf(env, a) == v.shard && a in v.actors
    ensures RemoveActor(env, Show(v), a) == Show(Left(v, a, 0).(p := v.p))
  {
    assert (v.actors - {a}).Keys == v.actors.Keys - {a};
    Replaced(v.shard, NodeShard(v.actors.Keys, v.window, v.mark), NodeShard(v.actors.Keys - {a}, v.window, v.mark));
  }

  lemma LeavesAndSeeks(env: Env, n: Node, v: Scene, a: ActorId, q: Offset)
    requires ShardOf(env, a) == v.shard && a in v.actors && a in n.actors && n.actors[a].pending == Some(q) && !n.stopping
    requires SnapshotOne(env, n, a, CALM) == Show(v)
    ensures ReceiveStopped(env, n, a, CALM) == Show(Left(v, a, q))
  {
    LeavesThere(env, v, a);
    Replaced(v.shard, v.p, Sought(v.p, q));
  }

  lemma TakenThere(v: Scene, a: ActorId, next: NodeActor)
    requires a in v.actors && v.actors[a].proc.signals == [Signal.Stopped]
    requires next == v.actors[a].(proc := v.actors[a].proc.(signals := []))
    ensures HasSignal(Show(v), a) && NextSignal(Show(v), a) == Signal.Stopped && Taken(Show(v), a) == Show(Put(v, a, next))
  {
    assert v.actors[a].proc.signals[1..] == [];
    KeysKept(v.actors, a, next);
  }

  /** The position goes back, if it moves at all while `n` saves. */
  lemma StopsBackward(law: Law, env: Env, v: Scene, a: ActorId, saved: Scene, v': Scene)
    requires Reachable(law, env, Show(v)) && UsableConfig(env.config)
    requires IsStep(env, Show(v), TakeStopped(a, CALM), Show(v')) && AfterSave(env, Show(v), TakeStopped(a, CALM)) == Show(saved)
    requires saved.shard == v.shard == v'.shard && v'.p.position <= saved.p.position <= v.p.position
    ensures Reachable(law, env, Show(v'))
  {
    assert Backward(Show(v), Show(saved)) && Backward(Show(saved), Show(v'));
    CalmLeads(law, env, Initial(), Show(v), TakeStopped(a, CALM), Show(v'));
  }

  /** A stopped actor leaves, its last snapshot is saved, and what came for it is sought. */
  lemma StoppedSaves(law: Law, env: Env, v: Scene, a: ActorId, next: NodeActor, s: ActorSnapshot, q: Offset, w': Window, p': Partition)
    requires Reachable(law, env, Show(v)) && UsableConfig(env.config) && ShardOf(env, a) == v.shard && a in v.actors
    requires v.actors[a].proc.signals == [Signal.Stopped] && next == v.actors[a].(proc := v.actors[a].proc.(signals := []))
    requires v.actors[a].snapshot == Some(s) && v.actors[a].pending == Some(q) && Saving(v.window, v.p, a, s, w', p')
    requires v.mark.None? && q <= v.p.position
    ensures Reachable(law, env, Show(Left(AfterSaving(Put(v, a, next), a, s, w', p'), a, q)))
  {
    var taken := Put(v, a, next);
    TakenThere(v, a, next);
    SavesThere(env, taken, a, s, w', p', CALM);
    SavedActor(env, taken, a, s, CALM);
    LeavesAndSeeks(env, Show(taken), AfterSaving(taken, a, s, w', p'), a, q);
    StopsBackward(law, env, v, a, AfterSaving(taken, a, s, w', p'), Left(AfterSaving(taken, a, s, w', p'), a, q));
  }

  /** One whose last snapshot is saved already. */
  lemma StoppedLeaves(law: Law, env: Env, v: Scene, a: ActorId, next: NodeActor, q: Offset)
    requires Reachable(law, env, Show(v)) && UsableConfig(env.config) && ShardOf(env, a) == v.shard && a in v.actors
    requires v.actors[a].proc.signals == [Signal.Stopped] && next == v.actors[a].(proc := v.actors[a].proc.(signals := []))
    requires v.actors[a].snapshot == None && v.actors[a].pending == Some(q) && q <= v.p.position
    ensures Reachable(law, env, Show(Left(Put(v, a, next), a, q)))
  {
    var taken := Put(v, a, next);
    TakenThere(v, a, next);
    NodeBatch.NothingSaved(env, Show(taken), a, CALM);
    LeavesAndSeeks(env, Show(taken), taken, a, q);
    StopsBackward(law, env, v, a, taken, Left(taken, a, q));
  }
}
