/**
  Runs of a node: the node, the actors' goroutines, the poller and crashes take steps in any
  order.  Signals of one actor reach the node in the order sent; nothing else is assumed of
  the node's mailbox.  In particular a seek withdraws nothing: any message of the log may
  reach the dispatcher at any time, in any order and any number of times.
*/
module NodeRuns {
  import opened Types
  import opened InflightWindow
  import opened ActorModel
  import opened Timers
  import opened NodeModel

  datatype Action =
    | Subscribe(shard: ShardId)
    | Poll(shard: ShardId, upTo: Offset)
    | Dispatch(message: Message, io: Io)
    | TakeReady(actor: ActorId, io: Io)
    | TakeIdle(actor: ActorId, io: Io)
    | TakeAlive(actor: ActorId)
    | TakeSnapshot(actor: ActorId)
    | TakeStopped(actor: ActorId, io: Io)
    | SnapshotTick(io: Io)
    | Stop
    | Exit(io: Io)
    | ActorStep(actor: ActorId, step: ProcStep)
    | Crash

  /** One turn of an actor's loop: a message, the idle and alive clocks, the timer, the stop
      channel (after which the mailbox is drained message by message), the deferred end; and
      a timer that a handler adds. */
  datatype ProcStep =
    | Handles | Idles | Alives | Triggers(now: int) | AddsTimer(key: TimerKey, command: Command, when: int)
    | TakesStop | Finishes

  /** Reading starts at the last commit, or at the first retained message. */
  function Checkpoint(env: Env, p: Partition, shard: ShardId): Offset {
    if p.commits == [] then StartOf(env, shard) else p.commits[|p.commits| - 1]
  }

  /** `shard` is registered and its partition assigned. */
  function Subscribed(env: Env, n: Node, shard: ShardId): Node {
    var p := PartitionOf(n, shard);
    StartShard(env, n, shard).(partitions :=
      n.partitions[shard := Sought(p, Checkpoint(env, p, shard)).(paused := false)])
  }

  function WithProc(n: Node, a: ActorId, p: Proc): Node
    requires a in n.actors
  {
    n.(actors := n.actors[a := n.actors[a].(proc := p)])
  }

  function Polled(n: Node, shard: ShardId, upTo: Offset): Node {
    n.(partitions := n.partitions[shard := PartitionOf(n, shard).(polled := upTo)])
  }

  function Advanced(n: Node, shard: ShardId, position: Offset): Node {
    n.(partitions := n.partitions[shard := PartitionOf(n, shard).(position := position)])
  }

  /** The process dies: the broker, the store and what handlers did remain. */
  function Crashed(n: Node): Node {
    NodeModel.Idle(n.stored, n.partitions,
         map a | a in n.actors.Keys + n.past.Keys :: HistoryOf(n, a))
  }

  /** `m` is the next message of its partition that has been polled. */
  ghost predicate IsNext(env: Env, p: Partition, shard: ShardId, m: Message) {
    && LogAt(env, shard, m.offset) == Some(m)
    && p.position <= m.offset < p.polled
    && forall x :: p.position <= x < m.offset ==> LogAt(env, shard, x).None?
  }

  ghost predicate InTurn(env: Env, n: Node, m: Message) {
    var s := ShardOf(env, m.receiver);
    s in n.partitions && IsNext(env, n.partitions[s], s, m)
  }

  /** `m` reaches the node.  The read position follows the message that is next in the log, and
      no other, such as one that was polled before a seek. */
  ghost function Read(env: Env, n: Node, m: Message): Node {
    if InTurn(env, n, m) then Advanced(n, ShardOf(env, m.receiver), m.offset + 1) else n
  }

  predicate HasSignal(n: Node, a: ActorId) {
    a in n.actors && n.actors[a].proc.signals != []
  }

  function NextSignal(n: Node, a: ActorId): Signal
    requires HasSignal(n, a)
  {
    n.actors[a].proc.signals[0]
  }

  /** The next signal of `a` leaves the node's mailbox. */
  function Taken(n: Node, a: ActorId): Node
    requires HasSignal(n, a)
  {
    WithProc(n, a, n.actors[a].proc.(signals := n.actors[a].proc.signals[1..]))
  }

  ghost predicate CanStep(c: Config, na: NodeActor, step: ProcStep) {
    match step
    case Handles => na.proc.phase != Finished && na.proc.mailbox != []
    case Idles => na.proc.phase == Running
    case Alives => na.proc.phase == Running
    case Triggers(_) => na.proc.phase == Running
    case AddsTimer(_, _, _) => na.proc.phase != Finished
    case TakesStop => na.stopping && na.proc.phase == Running
    case Finishes => na.proc.phase == Stopping && na.proc.mailbox == []
  }

  ghost function Stepped(c: Config, p: Proc, step: ProcStep): Proc
    requires UsableConfig(c) && (step.Handles? ==> p.mailbox != [])
  {
    match step
    case Handles => Handled(c, p)
    case Idles => IdleFired(p)
    case Alives => AliveFired(p)
    case Triggers(now) => TriggerFired(c, p, now)
    case AddsTimer(key, command, when) => TimerAdded(p, key, command, when)
    case TakesStop => p.(phase := Stopping)
    case Finishes => Finish(p)
  }

  /** One step of a run: when it can be taken, and what it leads to. */
  ghost predicate IsStep(env: Env, n: Node, act: Action, n': Node)
    requires UsableConfig(env.config)
  {
    match act
    case Subscribe(shard) =>
      && !n.stopping && !n.exited && shard !in n.shards
      && n' == Subscribed(env, n, shard)
    case Poll(shard, upTo) =>
      && !n.stopping && shard in n.partitions && shard in n.registerShards
      && !n.partitions[shard].paused && n.partitions[shard].polled <= upTo
      && n' == Polled(n, shard, upTo)
    case Dispatch(m, io) =>
      && !n.exited && LogAt(env, ShardOf(env, m.receiver), m.offset) == Some(m)
      && n' == Dispatcher(env, Read(env, n, m), m, io)
    case TakeReady(a, io) =>
      && !n.exited && HasSignal(n, a) && NextSignal(n, a).Ready?
      && n' == ReceiveReady(env, Taken(n, a), a, io)
    case TakeIdle(a, io) =>
      && !n.exited && HasSignal(n, a) && NextSignal(n, a).Idle? && ShardOf(env, a) in n.shards
      && n' == RecycleActor(env, Taken(n, a), a, io)
    case TakeAlive(a) =>
      && !n.exited && HasSignal(n, a) && NextSignal(n, a).Alive?
      && n' == Taken(n, a)
    case TakeSnapshot(a) =>
      && !n.exited && HasSignal(n, a) && NextSignal(n, a).Snapshot?
      && n' == ReceiveSnapshot(Taken(n, a), a, NextSignal(n, a).snapshot)
    case TakeStopped(a, io) =>
      && !n.exited && HasSignal(n, a) && NextSignal(n, a).Stopped?
      && n' == ReceiveStopped(env, Taken(n, a), a, io)
    case SnapshotTick(io) =>
      && !n.exited
      && n' == SnapshotBatch(env, n, io)
    case Stop =>
      && !n.exited
      && n' == BeforeStop(n)
    case Exit(io) =>
      && !n.exited && n.stopping
      && n' == SnapshotBatch(env, n, io).(exited := true)
    case ActorStep(a, step) =>
      && a in n.actors && CanStep(env.config, n.actors[a], step)
      && n' == WithProc(n, a, Stepped(env.config, n.actors[a].proc, step))
    case Crash =>
      n' == Crashed(n)
  }

  ghost function Initial(): Node {
    NodeModel.Idle({}, map[], map[])
  }

  /** `states` is a run of the actions from a fresh node. */
  ghost predicate IsRun(env: Env, states: seq<Node>, acts: seq<Action>) {
    && UsableConfig(env.config)
    && |states| == |acts| + 1 && states[0] == Initial()
    && forall i :: 0 <= i < |acts| ==> IsStep(env, states[i], acts[i], states[i + 1])
  }
}
