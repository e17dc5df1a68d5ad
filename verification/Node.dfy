/**
  The node (core/node.go) as a value, with one function per handler.

  The node owns its shards and actors.  What it shares with others is kept beside it: the
  partitions as the broker sees them (read position, pause, commits), the snapshots the
  store has reported saved, and the state of each actor's goroutine.
*/
module NodeModel {
  import opened Types
  import opened InflightWindow
  import opened ActorModel

  /** What is fixed for a whole run: the placement of actors on shards, the configuration,
      and every message the partitions will ever hold. */
  datatype Env = Env(
    placement: map<ActorId, ShardId>,
    config: Config,
    windowLimit: int,
    starts: map<ShardId, Offset>,
    logs: map<ShardId, map<Offset, Message>>)

  /** `ActorShard`: some fixed function of the actor id. */
  function ShardOf(env: Env, a: ActorId): ShardId {
    if a in env.placement then env.placement[a] else 0
  }

  /** The first offset a partition still retains. */
  function StartOf(env: Env, shard: ShardId): Offset {
    if shard in env.starts then env.starts[shard] else 0
  }

  function LogAt(env: Env, shard: ShardId, x: Offset): Option<Message> {
    if shard in env.logs && x in env.logs[shard] then Some(env.logs[shard][x]) else None
  }

  datatype NodeActor = NodeActor(
    stopping: bool,
    snapshot: Option<ActorSnapshot>,
    pause: Option<Offset>,
    pending: Option<Offset>,
    proc: Proc)

  datatype NodeShard = NodeShard(actors: set<ActorId>, inflight: Window, pause: Option<Offset>)

  /** Messages below `position` have been dispatched since the last seek, those from there to
      `polled` are on their way to the node. */
  datatype Partition = Partition(position: Offset, polled: Offset, paused: bool, commits: seq<Offset>)

  datatype Node = Node(
    registerShards: set<ShardId>,
    shards: map<ShardId, NodeShard>,
    actors: map<ActorId, NodeActor>,
    disableActors: set<ActorId>,
    stopping: bool,
    endSignals: nat,
    exited: bool,
    partitions: map<ShardId, Partition>,
    stored: set<ActorSnapshot>,
    past: map<ActorId, History>)

  /** The outcome of the calls one handler makes to the factory, the store and the broker. */
  datatype Io = Io(
    startFails: bool,
    pauseFails: bool,
    seekFails: bool,
    saveFails: bool,
    saved: set<ActorId>,
    commitFails: set<ShardId>,
    rewindFails: set<ShardId>,
    resumeFails: set<ShardId>)

  const NO_HISTORY := History({}, {})

  function Idle(stored: set<ActorSnapshot>, partitions: map<ShardId, Partition>, past: map<ActorId, History>): Node {
    Node({}, map[], map[], {}, false, 0, false, partitions, stored, past)
  }

  function HistoryOf(n: Node, a: ActorId): History {
    if a in n.actors then n.actors[a].proc.history
    else if a in n.past then n.past[a]
    else NO_HISTORY
  }

  // ---------- the broker ----------

  function Sought(p: Partition, offset: Offset): Partition {
    p.(position := offset, polled := offset)
  }

  function PartitionOf(n: Node, shard: ShardId): Partition {
    if shard in n.partitions then n.partitions[shard] else Partition(0, 0, false, [])
  }

  function Seek(n: Node, shard: ShardId, offset: Offset, fails: bool): Node {
    if fails then n else n.(partitions := n.partitions[shard := Sought(PartitionOf(n, shard), offset)])
  }

  // ---------- completing and resuming one shard ----------

  datatype Outcome = Outcome(shard: NodeShard, partition: Partition, failed: bool)

  /** `completeOffset`: a failed commit is the only error. */
  ghost function CompletedShard(s: NodeShard, p: Partition, reach: Reaches, commitFails: bool): Outcome {
    var c := AfterComplete(s.inflight, reach);
    var s' := s.(inflight := c.window);
    if !c.advanced then Outcome(s', p, false)
    else if commitFails then Outcome(s', p, true)
    else Outcome(s', p.(commits := p.commits + [c.nextOffset]), false)
  }

  /** `resumeOffset`: back to the message that found the window full. */
  function ResumedShard(s: NodeShard, p: Partition, rewindFails: bool, resumeFails: bool): Outcome {
    if s.pause.None? then Outcome(s, p, false)
    else if rewindFails then Outcome(s, p, true)
    else if resumeFails then Outcome(s, Sought(p, s.pause.value), true)
    else Outcome(s.(pause := None), Sought(p, s.pause.value).(paused := false), false)
  }

  /** A commit that fails leaves the shard paused. */
  ghost function ReleasedShard(s: NodeShard, p: Partition, reach: Reaches, shard: ShardId, io: Io): Outcome {
    var c := CompletedShard(s, p, reach, shard in io.commitFails);
    if c.failed then c else ResumedShard(c.shard, c.partition, shard in io.rewindFails, shard in io.resumeFails)
  }

  // ---------- snapshots ----------

  /** The actors whose enabled snapshot the store reported saved. */
  function SavedActors(n: Node, ids: set<ActorId>): set<ActorId> {
    set a | a in n.actors && n.actors[a].snapshot.Some? && a in ids
  }

  function ReachOn(env: Env, n: Node, done: set<ActorId>, shard: ShardId): Reaches {
    map a | a in done && a in n.actors && n.actors[a].snapshot.Some? && ShardOf(env, a) == shard
      :: n.actors[a].snapshot.value.offset
  }

  ghost function ReleasedOn(env: Env, n: Node, done: set<ActorId>, shard: ShardId, io: Io): Outcome
    requires shard in n.shards
  {
    var reach := ReachOn(env, n, done, shard);
    if reach == map[] then Outcome(n.shards[shard], PartitionOf(n, shard), false)
    else ReleasedShard(n.shards[shard], PartitionOf(n, shard), reach, shard, io)
  }

  /** The snapshots of `done` are saved: each is disabled and its actor's offsets released. */
  ghost function Saved(env: Env, n: Node, done: set<ActorId>, io: Io): Node {
    n.(actors := map a | a in n.actors ::
                   if a in done then n.actors[a].(snapshot := None) else n.actors[a],
       stored := n.stored + (set a | a in done && a in n.actors && n.actors[a].snapshot.Some? :: n.actors[a].snapshot.value),
       shards := map s | s in n.shards :: ReleasedOn(env, n, done, s, io).shard,
       partitions := map s | s in n.partitions ::
                       if s in n.shards then ReleasedOn(env, n, done, s, io).partition else n.partitions[s])
  }

  ghost function SnapshotBatch(env: Env, n: Node, io: Io): Node {
    if io.saveFails then n else Saved(env, n, SavedActors(n, io.saved), io)
  }

  ghost function SnapshotOne(env: Env, n: Node, a: ActorId, io: Io): Node {
    if io.saveFails then n else Saved(env, n, SavedActors(n, {a}), io)
  }

  // ---------- actors and shards ----------

  function StartActor(n: Node, a: ActorId, shard: ShardId): Node
    requires shard in n.shards
  {
    n.(actors := n.actors[a := NodeActor(false, None, None, None, NewProc(a, HistoryOf(n, a)))],
       shards := n.shards[shard := n.shards[shard].(actors := n.shards[shard].actors + {a})])
  }

  function StopActors(n: Node, ids: set<ActorId>): Node {
    n.(actors := map a | a in n.actors :: if a in ids then n.actors[a].(stopping := true) else n.actors[a])
  }

  ghost function LeastInflight(w: Window, a: ActorId): Option<Offset> {
    if ListOf(w, a) == [] then None
    else
      var offsets := set o | o in ListOf(w, a);
      assert ListOf(w, a)[0] in offsets;
      Some(MinOf(offsets))
  }

  /** What keeps an idle actor from stopping: an offset in flight, or a pause. */
  ghost function RecycleTarget(n: Node, a: ActorId, shard: ShardId): Option<Offset>
    requires a in n.actors && shard in n.shards
  {
    var least := LeastInflight(n.shards[shard].inflight, a);
    if least.Some? then least else n.actors[a].pause
  }

  ghost function RecycleActor(env: Env, n: Node, a: ActorId, io: Io): Node
    requires a in n.actors ==> ShardOf(env, a) in n.shards
  {
    if a !in n.actors then n
    else
      var target := RecycleTarget(n, a, ShardOf(env, a));
      if target.Some? then Seek(n, ShardOf(env, a), target.value, io.seekFails)
      else if n.actors[a].snapshot.Some? then StopActors(SnapshotBatch(env, n, io), {a})
      else StopActors(n, {a})
  }

  function StartShard(env: Env, n: Node, shard: ShardId): Node {
    var n' := n.(registerShards := n.registerShards + {shard});
    if shard in n.shards then n'
    else n'.(shards := n.shards[shard := NodeShard({}, Empty(env.windowLimit), None)])
  }

  function ActorsOfShards(n: Node): set<ActorId> {
    set s, a | s in n.shards && a in n.shards[s].actors :: a
  }

  function HandleEnding(n: Node): Node {
    if n.actors == map[] then n.(endSignals := n.endSignals + 1) else n
  }

  function BeforeStop(n: Node): Node {
    if n.stopping then n
    else HandleEnding(StopActors(n.(stopping := true, registerShards := {}), ActorsOfShards(n)))
  }

  // ---------- the handlers ----------

  /** What becomes of a message for `na`: kept for its next start, dropped while it is paused,
      put into the mailbox, or the reason of a pause. */
  function Offered(capacity: int, na: NodeActor, m: Message): NodeActor {
    if na.stopping then na.(pending := FirstWins(na.pending, m.offset))
    else if na.pause.Some? then na
    else if |na.proc.mailbox| < capacity then na.(proc := na.proc.(mailbox := na.proc.mailbox + [Network(m)]))
    else na.(pause := FirstWins(na.pause, m.offset))
  }

  function Offer(env: Env, n: Node, a: ActorId, m: Message): Node
    requires a in n.actors
  {
    n.(actors := n.actors[a := Offered(env.config.capacity, n.actors[a], m)])
  }

  function AddInflight(n: Node, shard: ShardId, offset: Offset, a: ActorId): Node
    requires shard in n.shards
  {
    n.(shards := n.shards[shard := n.shards[shard].(inflight := Add(n.shards[shard].inflight, offset, a))])
  }

  function PauseShard(n: Node, shard: ShardId, offset: Offset, pauseFails: bool): Node
    requires shard in n.shards
  {
    var n' := n.(shards := n.shards[shard := n.shards[shard].(pause := FirstWins(n.shards[shard].pause, offset))]);
    if pauseFails then n'
    else n'.(partitions := n.partitions[shard := PartitionOf(n, shard).(paused := true)])
  }

  /** A disabled actor's message goes to the dead letters and is complete at once. */
  ghost function DeadLetter(n: Node, shard: ShardId, m: Message, io: Io): Node
    requires shard in n.shards
  {
    var n' := AddInflight(n, shard, m.offset, m.receiver);
    var c := CompletedShard(n'.shards[shard], PartitionOf(n, shard), map[m.receiver := m.offset], shard in io.commitFails);
    n'.(shards := n'.shards[shard := c.shard], partitions := n'.partitions[shard := c.partition])
  }

  ghost function Dispatcher(env: Env, n: Node, m: Message, io: Io): Node {
    var a, shard := m.receiver, ShardOf(env, m.receiver);
    if shard !in n.registerShards || shard !in n.shards then n
    else if n.shards[shard].pause.Some? then n
    else if Full(n.shards[shard].inflight, m.offset) then PauseShard(n, shard, m.offset, io.pauseFails)
    else if a in n.disableActors then DeadLetter(n, shard, m, io)
    else if a !in n.actors && io.startFails then n
    else
      var started := if a in n.actors then n else StartActor(n, a, shard);
      Offer(env, AddInflight(started, shard, m.offset, a), a, m)
  }

  function ReceiveSnapshot(n: Node, a: ActorId, snapshot: ActorSnapshot): Node {
    if a !in n.actors then n
    else n.(actors := n.actors[a := n.actors[a].(snapshot := Some(snapshot))])
  }

  function ReceiveReady(env: Env, n: Node, a: ActorId, io: Io): Node {
    if a !in n.actors || n.actors[a].pause.None? then n
    else
      Seek(n.(actors := n.actors[a := n.actors[a].(pause := None)]),
           ShardOf(env, a), n.actors[a].pause.value, io.seekFails)
  }

  /** The actor leaves both indexes; a shard nobody registers goes with its last actor. */
  function RemoveActor(env: Env, n: Node, a: ActorId): Node
    requires a in n.actors
  {
    var shard := ShardOf(env, a);
    var n' := n.(disableActors := n.disableActors - {a},
                 actors := n.actors - {a},
                 past := n.past[a := n.actors[a].proc.history]);
    if shard !in n.shards then n'
    else
      var left := n.shards[shard].actors - {a};
      if left == {} && shard !in n.registerShards then n'.(shards := n.shards - {shard})
      else n'.(shards := n.shards[shard := n.shards[shard].(actors := left)])
  }

  ghost function ReceiveStopped(env: Env, n: Node, a: ActorId, io: Io): Node {
    if a !in n.actors then n
    else
      var n' := RemoveActor(env, SnapshotOne(env, n, a, io), a);
      if n.stopping then HandleEnding(n')
      else if n.actors[a].pending.Some? then Seek(n', ShardOf(env, a), n.actors[a].pending.value, io.seekFails)
      else n'
  }
}
