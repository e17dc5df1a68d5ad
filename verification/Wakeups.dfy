/**
  No lost wake-up.  The node pauses an actor whose mailbox is full and drops what comes for
  it; only a ready signal ends the pause, and the actor decides alone when to send one
  (core/actor.go:321-329, core/node.go:265-275, core/node.go:389-406).
*/
module Wakeups {
  import opened Types
  import opened Schedule
  import opened Timers
  import opened InflightWindow
  import opened ActorModel
  import opened NodeModel
  import opened NodeRuns

  // ---------- the invariant ----------

  /** A paused actor still has to send its ready signal, or has sent it. */
  ghost predicate WillWake(c: Config, na: NodeActor) {
    na.pause.Some? && na.proc.phase != Finished ==>
      |na.proc.mailbox| >= c.capacity || na.proc.mailFull || Signal.Ready in na.proc.signals
  }

  /** An actor that remembers a full mailbox has more than half of it left. */
  ghost predicate StillLoaded(c: Config, na: NodeActor) {
    na.proc.mailFull ==> |na.proc.mailbox| > c.capacity / 2
  }

  ghost predicate AllWillWake(env: Env, n: Node) {
    forall a :: a in n.actors ==> WillWake(env.config, n.actors[a]) && StillLoaded(env.config, n.actors[a])
  }

  // ---------- what a step does to one actor ----------

  ghost predicate SameWake(na: NodeActor, na': NodeActor) {
    na'.proc == na.proc && na'.pause == na.pause
  }

  ghost predicate TookSignal(na: NodeActor, na': NodeActor) {
    && na.proc.signals != [] && na'.proc == na.proc.(signals := na.proc.signals[1..])
    && na'.pause == if na.proc.signals[0].Ready? then None else na.pause
  }

  /** How one step can change an actor that is there before and after it. */
  ghost predicate ActorMoves(c: Config, act: Action, a: ActorId, na: NodeActor, na': NodeActor)
    requires UsableConfig(c)
  {
    if act.Dispatch? && act.message.receiver == a then
      SameWake(na, na') || SameWake(Offered(c.capacity, na, act.message), na')
    else if TakesSignalOf(act, a) then TookSignal(na, na')
    else if act.ActorStep? && act.actor == a then
      CanStep(c, na, act.step) && na'.pause == na.pause && na'.proc == Stepped(c, na.proc, act.step)
    else SameWake(na, na')
  }

  predicate TakesSignalOf(act: Action, a: ActorId) {
    match act
    case TakeReady(b, _) => b == a
    case TakeIdle(b, _) => b == a
    case TakeAlive(b) => b == a
    case TakeSnapshot(b) => b == a
    case _ => false
  }

  lemma DispatchMoves(env: Env, n: Node, m: Message, io: Io, n': Node)
    requires n' == Dispatcher(env, n, m, io)
    ensures var a := m.receiver;
            || n'.actors == n.actors
            || n'.actors == n.actors[a := Offered(env.config.capacity, if a in n.actors then n.actors[a] else NewNodeActor(n, a), m)]
  {
    var a, shard := m.receiver, ShardOf(env, m.receiver);
    if shard !in n.registerShards || shard !in n.shards || n.shards[shard].pause.Some? {
    } else if Full(n.shards[shard].inflight, m.offset) {
    } else if a in n.disableActors {
    } else if a in n.actors {
    } else if !io.startFails {
      StartMoves(env, n, m);
    }
  }

  function NewNodeActor(n: Node, a: ActorId): NodeActor {
    NodeActor(false, None, None, None, NewProc(a, HistoryOf(n, a)))
  }

  lemma StartMoves(env: Env, n: Node, m: Message)
    requires ShardOf(env, m.receiver) in n.shards
    ensures var a, s := m.receiver, ShardOf(env, m.receiver);
            Offer(env, AddInflight(StartActor(n, a, s), s, m.offset, a), a, m).actors
            == n.actors[a := Offered(env.config.capacity, NewNodeActor(n, a), m)]
  {
  }

  lemma SavedMoves(env: Env, n: Node, done: set<ActorId>, io: Io, n': Node, a: ActorId)
    requires n' == Saved(env, n, done, io)
    ensures a in n.actors <==> a in n'.actors
    ensures a in n.actors ==> SameWake(n.actors[a], n'.actors[a])
  {
  }

  lemma StopOneMoves(n: Node, ids: set<ActorId>, a: ActorId)
    ensures a in n.actors <==> a in StopActors(n, ids).actors
    ensures a in n.actors ==> SameWake(n.actors[a], StopActors(n, ids).actors[a])
  {
  }

  lemma RecycleMoves(env: Env, n: Node, b: ActorId, io: Io, n': Node, a: ActorId)
    requires b in n.actors && ShardOf(env, b) in n.shards && n' == RecycleActor(env, n, b, io)
    ensures a in n.actors <==> a in n'.actors
    ensures a in n.actors ==> SameWake(n.actors[a], n'.actors[a])
  {
    if RecycleTarget(n, b, ShardOf(env, b)).Some? {
    } else if n.actors[b].snapshot.Some? {
      var saved := SnapshotBatch(env, n, io);
      if !io.saveFails { SavedMoves(env, n, SavedActors(n, io.saved), io, saved, a); }
      StopOneMoves(saved, {b}, a);
    } else {
      StopOneMoves(n, {b}, a);
    }
  }

  lemma RemoveMoves(env: Env, n: Node, b: ActorId)
    requires b in n.actors
    ensures RemoveActor(env, n, b).actors == n.actors - {b}
  {
    var shard := ShardOf(env, b);
    if shard !in n.shards {
    } else if n.shards[shard].actors - {b} == {} && shard !in n.registerShards {
    } else {
    }
  }

  lemma StoppedMoves(env: Env, n: Node, b: ActorId, io: Io, n': Node, a: ActorId)
    requires b in n.actors && n' == ReceiveStopped(env, n, b, io)
    ensures a in n'.actors <==> a in n.actors && a != b
    ensures a in n'.actors ==> SameWake(n.actors[a], n'.actors[a])
  {
    var saved := SnapshotOne(env, n, b, io);
    if !io.saveFails { SavedMoves(env, n, SavedActors(n, {b}), io, saved, a); }
    RemoveMoves(env, saved, b);
    assert b in saved.actors;
    assert n'.actors == saved.actors - {b};
  }

  lemma StopMoves(n: Node, n': Node, a: ActorId)
    requires n' == BeforeStop(n)
    ensures a in n.actors <==> a in n'.actors
    ensures a in n.actors ==> SameWake(n.actors[a], n'.actors[a])
  {
  }

  /** What is there after a step was there before and changed as stated, or has just started. */
  ghost predicate Moves(env: Env, n: Node, act: Action, n': Node, a: ActorId)
    requires UsableConfig(env.config) && a in n'.actors
  {
    if a in n.actors then ActorMoves(env.config, act, a, n.actors[a], n'.actors[a])
    else act.Dispatch? && act.message.receiver == a && n'.actors[a].pause.None? && !n'.actors[a].proc.mailFull
  }

  lemma StepMovesOther(env: Env, n: Node, act: Action, n': Node, a: ActorId)
    requires UsableConfig(env.config) && IsStep(env, n, act, n') && a in n'.actors
    requires act.Subscribe? || act.Poll? || act.SnapshotTick? || act.Exit? || act.Stop? || act.ActorStep? || act.Crash?
    ensures Moves(env, n, act, n', a)
  {
    match act
    case Stop => StopMoves(n, n', a);
    case _ =>
  }

  lemma StepMovesSignal(env: Env, n: Node, act: Action, n': Node, a: ActorId)
    requires UsableConfig(env.config) && IsStep(env, n, act, n') && a in n'.actors
    requires act.TakeAlive? || act.TakeSnapshot?
    ensures Moves(env, n, act, n', a)
  {
  }

  lemma StepMovesReady(env: Env, n: Node, b: ActorId, io: Io, n': Node, a: ActorId)
    requires UsableConfig(env.config) && IsStep(env, n, TakeReady(b, io), n') && a in n'.actors
    ensures Moves(env, n, TakeReady(b, io), n', a)
  {
  }

  lemma StepMovesIdle(env: Env, n: Node, act: Action, n': Node, a: ActorId)
    requires UsableConfig(env.config) && IsStep(env, n, act, n') && a in n'.actors
    requires act.TakeIdle? || act.TakeStopped?
    ensures Moves(env, n, act, n', a)
  {
    var taken := Taken(n, act.actor);
    if act.TakeIdle? {
      RecycleMoves(env, taken, act.actor, act.io, n', a);
    } else {
      StoppedMoves(env, taken, act.actor, act.io, n', a);
    }
  }

  lemma StepMovesDispatch(env: Env, n: Node, m: Message, io: Io, n': Node, a: ActorId, at: Node)
    requires UsableConfig(env.config) && a in n'.actors
    requires at.actors == n.actors && n' == Dispatcher(env, at, m, io)
    ensures Moves(env, n, Dispatch(m, io), n', a)
  {
    DispatchMoves(env, at, m, io, n');
  }

  lemma StepMoves(env: Env, n: Node, act: Action, n': Node, a: ActorId)
    requires UsableConfig(env.config) && IsStep(env, n, act, n') && a in n'.actors
    ensures Moves(env, n, act, n', a)
  {
    if act.Dispatch? {
      StepMovesDispatch(env, n, act.message, act.io, n', a,
                        Read(env, n, act.message));
    } else if act.TakeReady? {
      StepMovesReady(env, n, act.actor, act.io, n', a);
    } else if act.TakeAlive? || act.TakeSnapshot? {
      StepMovesSignal(env, n, act, n', a);
    } else if act.TakeIdle? || act.TakeStopped? {
      StepMovesIdle(env, n, act, n', a);
    } else {
      StepMovesOther(env, n, act, n', a);
    }
  }

  // ---------- the invariant holds in every run ----------

  lemma MovesKeep(c: Config, act: Action, a: ActorId, na: NodeActor, na': NodeActor)
    requires UsableConfig(c) && ActorMoves(c, act, a, na, na') && WillWake(c, na) && StillLoaded(c, na)
    ensures WillWake(c, na') && StillLoaded(c, na')
  {
  }

  /** Handling takes one message out, and sends a ready signal or remembers the pressure. */
  lemma HandledLength(c: Config, p: Proc)
    requires UsableConfig(c) && p.mailbox != []
    ensures var q := Handled(c, p);
            var full := p.mailFull || |q.mailbox| >= c.capacity - 1;
            && q.mailbox == p.mailbox[1..] && q.phase == p.phase
            && q.mailFull == (full && |q.mailbox| > c.capacity / 2)
            && q.signals == p.signals + if full && !q.mailFull then [Signal.Ready] else []
  {
  }

  /** In every state of every run, whatever calls fail, each paused actor will wake up. */
  lemma {:induction false} NoLostWakeUp(env: Env, states: seq<Node>, acts: seq<Action>, i: nat)
    requires IsRun(env, states, acts) && i < |states|
    ensures AllWillWake(env, states[i])
  {
    if i > 0 {
      NoLostWakeUp(env, states, acts, i - 1);
      assert IsStep(env, states[i - 1], acts[i - 1], states[i]);
      forall a | a in states[i].actors
        ensures WillWake(env.config, states[i].actors[a]) && StillLoaded(env.config, states[i].actors[a])
      {
        StepMoves(env, states[i - 1], acts[i - 1], states[i], a);
        if a in states[i - 1].actors {
          MovesKeep(env.config, acts[i - 1], a, states[i - 1].actors[a], states[i].actors[a]);
        }
      }
    }
  }

  // ---------- every pause ends ----------

  ghost predicate Paused(n: Node, a: ActorId) {
    a in n.actors && n.actors[a].pause.Some? && n.actors[a].proc.phase != Finished
  }

  ghost predicate ReadyQueued(n: Node, a: ActorId)
    requires a in n.actors
  {
    Signal.Ready in n.actors[a].proc.signals
  }

  /** A paused actor that has yet to send its ready signal has a message it can handle, and
      one that has sent it has a signal the node can take. */
  lemma PausedCanMove(env: Env, states: seq<Node>, acts: seq<Action>, i: nat, a: ActorId)
    requires IsRun(env, states, acts) && i < |states| && Paused(states[i], a)
    ensures ReadyQueued(states[i], a) ==> HasSignal(states[i], a)
    ensures ReadyQueued(states[i], a) || CanStep(env.config, states[i].actors[a], Handles)
    ensures ReadyQueued(states[i], a) || |states[i].actors[a].proc.mailbox| > env.config.capacity / 2
  {
    NoLostWakeUp(env, states, acts, i);
    assert WillWake(env.config, states[i].actors[a]) && StillLoaded(env.config, states[i].actors[a]);
  }

  /** Messages that `a` handles in a run segment. */
  ghost function HandledBy(acts: seq<Action>, a: ActorId): nat {
    if acts == [] then 0
    else HandledBy(acts[..|acts| - 1], a) + if acts[|acts| - 1] == ActorStep(a, Handles) then 1 else 0
  }

  /** Timers that handlers of `a` add in a run segment. */
  ghost function TimersAdded(acts: seq<Action>, a: ActorId): nat {
    if acts == [] then 0
    else
      var last := acts[|acts| - 1];
      TimersAdded(acts[..|acts| - 1], a) + if last.ActorStep? && last.actor == a && last.step.AddsTimer? then 1 else 0
  }

  /** What the actor has to work off: its mailbox and the timers that will come into it. */
  function Load(p: Proc): nat {
    |p.mailbox| + |p.timer.arrivals|
  }

  /** Signals of `a` that the node takes in a run segment. */
  ghost function TakenOf(acts: seq<Action>, a: ActorId): nat {
    if acts == [] then 0
    else TakenOf(acts[..|acts| - 1], a) + if TakesSignalOf(acts[|acts| - 1], a) then 1 else 0
  }

  /** How many signals stand before the first ready signal. */
  ghost function Before(signals: seq<Signal>): (k: nat)
    ensures k <= |signals| && (k < |signals| <==> Signal.Ready in signals)
    ensures k < |signals| ==> signals[k] == Signal.Ready
  {
    if signals == [] || signals[0] == Signal.Ready then 0 else 1 + Before(signals[1..])
  }

  lemma {:induction false} BeforeAppended(signals: seq<Signal>, more: seq<Signal>)
    requires Signal.Ready in signals
    ensures Before(signals + more) == Before(signals)
  {
    if signals[0] != Signal.Ready {
      BeforeAppended(signals[1..], more);
      assert (signals + more)[1..] == signals[1..] + more;
    }
  }

  ghost predicate PausedThroughout(states: seq<Node>, i: nat, j: nat, a: ActorId)
    requires i <= j < |states|
  {
    forall k :: i <= k <= j ==> Paused(states[k], a)
  }

  ghost predicate OnePausedStep(act: Action, a: ActorId, na: NodeActor, na': NodeActor) {
    && na'.pause == na.pause
    && (Signal.Ready in na.proc.signals ==>
          && Signal.Ready in na'.proc.signals
          && Before(na'.proc.signals) == Before(na.proc.signals) - TakenOf([act], a))
    && (Signal.Ready !in na'.proc.signals ==>
          Load(na'.proc) <= Load(na.proc) - HandledBy([act], a) + TimersAdded([act], a))
  }

  /** One step that does not end the pause: the ready signal comes nearer, or it is not sent
      and every message handled leaves the mailbox for good. */
  lemma PausedStep(c: Config, act: Action, a: ActorId, na: NodeActor, na': NodeActor)
    requires UsableConfig(c) && ActorMoves(c, act, a, na, na') && na.pause.Some? && na'.pause.Some?
    ensures OnePausedStep(act, a, na, na')
  {
    assert [act][..0] == [];
    if act.ActorStep? && act.actor == a {
      ActedStep(c, act.step, na.proc, na'.proc);
    }
  }

  lemma ActedStep(c: Config, step: ProcStep, p: Proc, p': Proc)
    requires UsableConfig(c) && (step.Handles? ==> p.mailbox != []) && p' == Stepped(c, p, step)
    ensures Signal.Ready in p.signals ==> Signal.Ready in p'.signals && Before(p'.signals) == Before(p.signals)
    ensures Load(p') <= Load(p) - (if step.Handles? then 1 else 0) + if step.AddsTimer? then 1 else 0
  {
    match step
    case Handles =>
      HandledLength(c, p);
      if Signal.Ready in p.signals { BeforeAppended(p.signals, p'.signals[|p.signals|..]); }
    case Idles => if Signal.Ready in p.signals { TwoAppended(p); }
    case Alives => if Signal.Ready in p.signals { BeforeAppended(p.signals, [Signal.Alive]); }
    case Triggers(_) =>
    case AddsTimer(_, _, _) =>
    case TakesStop =>
    case Finishes => if Signal.Ready in p.signals { TwoAppended(p); }
  }

  lemma TwoAppended(p: Proc)
    requires Signal.Ready in p.signals
    ensures Before(IdleFired(p).signals) == Before(p.signals) && Before(Finish(p).signals) == Before(p.signals)
  {
    BeforeAppended(p.signals, [Snapshot(SnapshotOf(p))]);
    BeforeAppended(p.signals + [Snapshot(SnapshotOf(p))], [Signal.Idle]);
    BeforeAppended(p.signals + [Snapshot(SnapshotOf(p))], [Signal.Stopped]);
  }

  ghost predicate AllMove(env: Env, states: seq<Node>, acts: seq<Action>)
    requires UsableConfig(env.config) && |states| == |acts| + 1
  {
    forall k :: 0 <= k < |acts| ==> EachMoves(env, states[k], acts[k], states[k + 1])
  }

  ghost predicate EachMoves(env: Env, n: Node, act: Action, n': Node)
    requires UsableConfig(env.config)
  {
    forall a :: a in n'.actors ==> Moves(env, n, act, n', a)
  }

  lemma RunsMove(env: Env, states: seq<Node>, acts: seq<Action>)
    requires IsRun(env, states, acts)
    ensures AllMove(env, states, acts)
  {
    forall k | 0 <= k < |acts| ensures EachMoves(env, states[k], acts[k], states[k + 1]) {
      assert IsStep(env, states[k], acts[k], states[k + 1]);
      AllStepMoves(env, states[k], acts[k], states[k + 1]);
    }
  }

  lemma AllStepMoves(env: Env, n: Node, act: Action, n': Node)
    requires UsableConfig(env.config) && IsStep(env, n, act, n')
    ensures EachMoves(env, n, act, n')
  {
    forall a | a in n'.actors ensures Moves(env, n, act, n', a) {
      StepMoves(env, n, act, n', a);
    }
  }

  /** A paused actor through the steps of a run segment. */
  ghost predicate PausedChain(acts: seq<Action>, chain: seq<NodeActor>, a: ActorId) {
    && |chain| == |acts| + 1
    && forall k :: 0 <= k < |acts| ==> OnePausedStep(acts[k], a, chain[k], chain[k + 1])
  }

  ghost function Along(states: seq<Node>, i: nat, j: nat, a: ActorId): (r: seq<NodeActor>)
    requires i <= j < |states| && PausedThroughout(states, i, j, a)
    ensures |r| == j - i + 1 && r[0] == states[i].actors[a] && r[j - i] == states[j].actors[a]
  {
    seq(j - i + 1, k requires 0 <= k <= j - i && i + k < |states| && a in states[i + k].actors => states[i + k].actors[a])
  }

  ghost predicate PausedSteps(states: seq<Node>, acts: seq<Action>, i: nat, j: nat, a: ActorId)
    requires i <= j < |states| && j <= |acts| && PausedThroughout(states, i, j, a)
  {
    forall k :: i <= k < j ==> OnePausedStep(acts[k], a, states[k].actors[a], states[k + 1].actors[a])
  }

  lemma PausedRunSteps(env: Env, states: seq<Node>, acts: seq<Action>, i: nat, j: nat, a: ActorId)
    requires UsableConfig(env.config) && |states| == |acts| + 1 && AllMove(env, states, acts)
    requires i <= j < |states| && PausedThroughout(states, i, j, a)
    ensures PausedSteps(states, acts, i, j, a)
  {
    forall k | i <= k < j ensures OnePausedStep(acts[k], a, states[k].actors[a], states[k + 1].actors[a]) {
      assert Paused(states[k], a) && Paused(states[k + 1], a);
      assert EachMoves(env, states[k], acts[k], states[k + 1]);
      PausedStep(env.config, acts[k], a, states[k].actors[a], states[k + 1].actors[a]);
    }
  }

  lemma StepsAlong(states: seq<Node>, acts: seq<Action>, i: nat, j: nat, a: ActorId)
    requires i <= j < |states| && j <= |acts| && PausedThroughout(states, i, j, a) && PausedSteps(states, acts, i, j, a)
    ensures PausedChain(acts[i..j], Along(states, i, j, a), a)
  {
    forall k | 0 <= k < j - i
      ensures OnePausedStep(acts[i..j][k], a, Along(states, i, j, a)[k], Along(states, i, j, a)[k + 1])
    {
      assert OnePausedStep(acts[i + k], a, states[i + k].actors[a], states[i + k + 1].actors[a]);
    }
  }

  lemma PausedRun(env: Env, states: seq<Node>, acts: seq<Action>, i: nat, j: nat, a: ActorId)
    requires IsRun(env, states, acts) && i <= j < |states| && PausedThroughout(states, i, j, a)
    ensures PausedChain(acts[i..j], Along(states, i, j, a), a)
  {
    RunsMove(env, states, acts);
    PausedRunSteps(env, states, acts, i, j, a);
    StepsAlong(states, acts, i, j, a);
  }

  lemma CountsSplit(acts: seq<Action>, a: ActorId)
    requires acts != []
    ensures var most, last := acts[..|acts| - 1], [acts[|acts| - 1]];
            && HandledBy(acts, a) == HandledBy(most, a) + HandledBy(last, a)
            && TimersAdded(acts, a) == TimersAdded(most, a) + TimersAdded(last, a)
            && TakenOf(acts, a) == TakenOf(most, a) + TakenOf(last, a)
  {
  }

  lemma {:induction false} ChainHandles(acts: seq<Action>, chain: seq<NodeActor>, a: ActorId)
    requires PausedChain(acts, chain, a) && Signal.Ready !in chain[|acts|].proc.signals
    ensures Signal.Ready !in chain[0].proc.signals
    ensures Load(chain[|acts|].proc) <= Load(chain[0].proc) - HandledBy(acts, a) + TimersAdded(acts, a)
  {
    if acts != [] {
      var k := |acts| - 1;
      CountsSplit(acts, a);
      assert OnePausedStep(acts[k], a, chain[k], chain[k + 1]);
      ChainHandles(acts[..k], chain[..k + 1], a);
    }
  }

  lemma {:induction false} ChainTakes(acts: seq<Action>, chain: seq<NodeActor>, a: ActorId)
    requires PausedChain(acts, chain, a) && Signal.Ready in chain[0].proc.signals
    ensures Signal.Ready in chain[|acts|].proc.signals
    ensures TakenOf(acts, a) + Before(chain[|acts|].proc.signals) == Before(chain[0].proc.signals)
  {
    if acts != [] {
      var k := |acts| - 1;
      CountsSplit(acts, a);
      assert OnePausedStep(acts[k], a, chain[k], chain[k + 1]);
      ChainTakes(acts[..k], chain[..k + 1], a);
    }
  }

  lemma {:induction false} ChainPause(acts: seq<Action>, chain: seq<NodeActor>, a: ActorId)
    requires PausedChain(acts, chain, a)
    ensures chain[|acts|].pause == chain[0].pause
  {
    if acts != [] {
      var k := |acts| - 1;
      assert OnePausedStep(acts[k], a, chain[k], chain[k + 1]);
      ChainPause(acts[..k], chain[..k + 1], a);
    }
  }

  /**
    As long as a pause lasts and no ready signal is on its way, each message handled is one
    less of those in the mailbox and in the timer, and the mailbox never gets down to half:
    so there can only be as many as there were, and as handlers add timers.
  */
  lemma HandlingSendsReady(env: Env, states: seq<Node>, acts: seq<Action>, i: nat, j: nat, a: ActorId)
    requires IsRun(env, states, acts) && i <= j < |states| && PausedThroughout(states, i, j, a)
    requires !ReadyQueued(states[j], a)
    ensures !ReadyQueued(states[i], a)
    ensures Load(states[j].actors[a].proc)
         <= Load(states[i].actors[a].proc) - HandledBy(acts[i..j], a) + TimersAdded(acts[i..j], a)
    ensures HandledBy(acts[i..j], a) < Load(states[i].actors[a].proc) + TimersAdded(acts[i..j], a) - env.config.capacity / 2
  {
    PausedCanMove(env, states, acts, j, a);
    PausedRun(env, states, acts, i, j, a);
    ChainHandles(acts[i..j], Along(states, i, j, a), a);
  }

  /**
    Once the ready signal is queued, the node ends the pause after it has taken the signals
    before it and that one: no more are taken while the pause lasts.
  */
  lemma ReadyEndsPause(env: Env, states: seq<Node>, acts: seq<Action>, i: nat, j: nat, a: ActorId)
    requires IsRun(env, states, acts) && i <= j < |states| && PausedThroughout(states, i, j, a)
    requires ReadyQueued(states[i], a)
    ensures ReadyQueued(states[j], a)
    ensures TakenOf(acts[i..j], a) + Before(states[j].actors[a].proc.signals) == Before(states[i].actors[a].proc.signals)
  {
    PausedRun(env, states, acts, i, j, a);
    ChainTakes(acts[i..j], Along(states, i, j, a), a);
  }

  /** And the pause ends with the read position back at the message that was dropped first. */
  lemma PauseEndsWhereItBegan(env: Env, states: seq<Node>, acts: seq<Action>, i: nat, j: nat, a: ActorId, io: Io)
    requires IsRun(env, states, acts) && i <= j < |acts| && PausedThroughout(states, i, j, a)
    requires acts[j] == TakeReady(a, io) && !io.seekFails
    ensures a in states[j + 1].actors && states[j + 1].actors[a].pause.None?
    ensures Some(PartitionOf(states[j + 1], ShardOf(env, a)).position) == states[i].actors[a].pause
  {
    PausedRun(env, states, acts, i, j, a);
    ChainPause(acts[i..j], Along(states, i, j, a), a);
    ReadySeeks(env, states[j], a, io, states[j + 1]);
  }

  lemma ReadySeeks(env: Env, n: Node, a: ActorId, io: Io, n': Node)
    requires UsableConfig(env.config) && IsStep(env, n, TakeReady(a, io), n') && Paused(n, a) && !io.seekFails
    ensures a in n'.actors && n'.actors[a].pause.None?
    ensures Some(PartitionOf(n', ShardOf(env, a)).position) == n.actors[a].pause
  {
  }

  // ---------- timers can keep a ready signal away ----------

  /** A handler adds a timer that is due, and the trigger moves what is due. */
  ghost function Round(c: Config, p: Proc, key: TimerKey, command: Command, now: int): Proc
    requires UsableConfig(c) && p.mailbox != []
  {
    TriggerFired(c, TimerAdded(Handled(c, p), key, command, now), now)
  }

  /** Well above half of the mailbox, with no ready signal sent. */
  ghost predicate Pressed(c: Config, p: Proc) {
    && p.phase == Running && p.mailFull && Signal.Ready !in p.signals
    && c.capacity / 2 + 1 < |p.mailbox| <= c.capacity
  }

  ghost predicate IsRound(c: Config, p: Proc, key: TimerKey, command: Command, now: int, p': Proc)
    requires UsableConfig(c)
  {
    Pressed(c, p) && p' == Round(c, p, key, command, now)
  }

  lemma RoundKeepsPressed(c: Config, p: Proc, key: TimerKey, command: Command, now: int)
    requires UsableConfig(c) && Pressed(c, p)
    ensures Pressed(c, Round(c, p, key, command, now))
  {
    HandledLength(c, p);
    var added := TimerAdded(Handled(c, p), key, command, now);
    AddedIsDue(Handled(c, p).timer, key, Task(key, command), now);
    assert Moved(added.timer.arrivals, now, Room(c, added)) > 0;
  }

  lemma OneRound(c: Config, p: Proc, key: TimerKey, command: Command, now: int) returns (p': Proc)
    requires UsableConfig(c) && Pressed(c, p)
    ensures IsRound(c, p, key, command, now, p') && Pressed(c, p')
  {
    RoundKeepsPressed(c, p, key, command, now);
    p' := Round(c, p, key, command, now);
  }

  lemma AddedIsDue<V>(t: TimerState<V>, key: TimerKey, task: V, now: int)
    ensures DueCount(Schedule.Drain(Added(t, key, task, now).arrivals), now) > 0
  {
    var arrivals := Upserted(t.arrivals, key, task, now);
    var i := if HasKey(t.arrivals, key) then PlaceOf(t.arrivals, key) else |t.arrivals|;
    assert arrivals[i].when == now;
    assert arrivals[Earliest(arrivals)].when <= now;
  }

  /** The bound has to count the timers that handlers add: with one for each message, any
      number is handled and the ready signal is not sent. */
  lemma {:induction false} TimersCanDelayReady(c: Config, p: Proc, key: TimerKey, command: Command, now: int, n: nat)
      returns (rounds: seq<Proc>)
    requires UsableConfig(c) && Pressed(c, p)
    ensures |rounds| == n + 1 && rounds[0] == p && Pressed(c, rounds[n])
    ensures forall i :: 0 <= i < n ==> IsRound(c, rounds[i], key, command, now, rounds[i + 1])
  {
    if n == 0 {
      rounds := [p];
    } else {
      rounds := TimersCanDelayReady(c, p, key, command, now, n - 1);
      var next := OneRound(c, rounds[n - 1], key, command, now);
      rounds := rounds + [next];
    }
  }
}
