/**
  What the node commits, in every run and whatever calls fail or seeks do: a committed next
  offset is at or below everything in flight, and an offset leaves a window only because a
  saved snapshot of its actor reaches it, or because its actor is disabled.
*/
module NodeCommits {
  import opened Types
  import opened InflightWindow
  import opened ActorModel
  import opened NodeModel
  import opened NodeRuns
  import opened Delivery
  import opened Coverage

  /** Each offset has one fixed receiver, on the shard of its partition. */
  ghost predicate OneReceiverEach(env: Env) {
    && UsableConfig(env.config)
    && forall s, x {:trigger LogAt(env, s, x)} :: LogAt(env, s, x).Some? ==>
         var m := LogAt(env, s, x).value;
         m.offset == x && ShardOf(env, m.receiver) == s && 0 <= x
  }

  // ---------- what a step does to the window of a shard ----------

  /** The save of this step succeeds and is for `a`, or for all and reports it. */
  ghost predicate SavesIn(act: Action, a: ActorId) {
    match act
    case SnapshotTick(io) => !io.saveFails && a in io.saved
    case Exit(io) => !io.saveFails && a in io.saved
    case TakeIdle(_, io) => !io.saveFails && a in io.saved
    case TakeStopped(b, io) => !io.saveFails && a == b
    case _ => false
  }

  /** Why a step may release the offsets of `a` up to `x`: it saves the snapshot the node
      keeps of `a`, or `a` is disabled. */
  ghost predicate Backed(n: Node, act: Action, n': Node, a: ActorId, x: Offset) {
    || (SavesIn(act, a) && a in n.actors && n.actors[a].snapshot.Some?
        && n.actors[a].snapshot.value.offset == x && n.actors[a].snapshot.value in n'.stored)
    || (act.Dispatch? && act.message.receiver == a && a in n.disableActors && act.message.offset == x)
  }

  ghost predicate Adds(env: Env, n: Node, act: Action, s: ShardId, w: Window, w': Window) {
    || w' == w
    || (act.Dispatch? && ShardOf(env, act.message.receiver) == s && LogAt(env, s, act.message.offset) == Some(act.message)
        && w' == InflightWindow.Add(w, act.message.offset, act.message.receiver))
  }

  ghost predicate Completes(w: Window, reach: Reaches, w': Window, commits: seq<Offset>, commits': seq<Offset>) {
    || (w' == w && commits' == commits)
    || (w' == AfterComplete(w, reach).window
        && (commits' == commits
            || (AfterComplete(w, reach).advanced && commits' == commits + [AfterComplete(w, reach).nextOffset])))
  }

  /** The whole of it: possibly one offset comes in, and then backed completions are made. */
  ghost predicate WindowStep(env: Env, n: Node, act: Action, n': Node, s: ShardId, added: Window, reach: Reaches)
    requires s in n.shards && s in n'.shards
  {
    && Adds(env, n, act, s, n.shards[s].inflight, added)
    && (forall a :: a in reach ==> Backed(n, act, n', a, reach[a]))
    && Completes(added, reach, n'.shards[s].inflight, PartitionOf(n, s).commits, PartitionOf(n', s).commits)
  }

  ghost predicate ShardMoves(env: Env, n: Node, act: Action, n': Node, s: ShardId)
    requires s in n'.shards
  {
    if s in n.shards then exists added, reach :: WindowStep(env, n, act, n', s, added, reach)
    else n'.shards[s].inflight == Empty(env.windowLimit)
  }

  ghost predicate SameWindows(n: Node, n': Node) {
    && n'.shards.Keys <= n.shards.Keys
    && (forall s :: s in n'.shards ==> n'.shards[s].inflight == n.shards[s].inflight)
    && (forall s :: PartitionOf(n', s).commits == PartitionOf(n, s).commits)
  }

  lemma SameWindowsMove(env: Env, n: Node, act: Action, n': Node, s: ShardId)
    requires SameWindows(n, n') && s in n'.shards
    ensures ShardMoves(env, n, act, n', s)
  {
    assert WindowStep(env, n, act, n', s, n.shards[s].inflight, map[]);
  }

  // ---------- saves ----------

  lemma ReleasedCompletes(s: NodeShard, p: Partition, reach: Reaches, shard: ShardId, io: Io)
    ensures var r := ReleasedShard(s, p, reach, shard, io);
            Completes(s.inflight, reach, r.shard.inflight, p.commits, r.partition.commits)
  {
  }

  lemma SavedCompletes(env: Env, n: Node, done: set<ActorId>, io: Io, n': Node, s: ShardId)
    requires n' == Saved(env, n, done, io) && s in n.shards
    ensures n'.shards.Keys == n.shards.Keys
    ensures Completes(n.shards[s].inflight, ReachOn(env, n, done, s), n'.shards[s].inflight,
                      PartitionOf(n, s).commits, PartitionOf(n', s).commits)
  {
    ReleasedCompletes(n.shards[s], PartitionOf(n, s), ReachOn(env, n, done, s), s, io);
  }

  lemma SavedStores(env: Env, n: Node, done: set<ActorId>, io: Io, n': Node, s: ShardId, a: ActorId)
    requires n' == Saved(env, n, done, io) && a in ReachOn(env, n, done, s)
    ensures a in n.actors && n.actors[a].snapshot.Some? && n.actors[a].snapshot.value in n'.stored
    ensures n.actors[a].snapshot.value.offset == ReachOn(env, n, done, s)[a]
  {
  }

  /** `saved` is `n` after a save that may have been refused, `n'` the end of the step. */
  lemma SavesMove(env: Env, n: Node, act: Action, done: set<ActorId>, io: Io, saved: Node, n': Node, s: ShardId, was: Node)
    requires (saved == Saved(env, n, done, io) || saved == n) && SameWindows(saved, n') && s in n'.shards
    requires saved != n ==> forall a :: a in done ==> SavesIn(act, a)
    requires SameWindows(was, n) && was.shards.Keys == n.shards.Keys && saved.stored <= n'.stored
    requires forall a :: a in n.actors ==> a in was.actors && n.actors[a].snapshot == was.actors[a].snapshot
    ensures ShardMoves(env, was, act, n', s)
  {
    if saved == n {
      assert WindowStep(env, was, act, n', s, was.shards[s].inflight, map[]);
    } else {
      SavedCompletes(env, n, done, io, saved, s);
      var reach := ReachOn(env, n, done, s);
      forall a | a in reach ensures Backed(was, act, n', a, reach[a]) {
        SavedStores(env, n, done, io, saved, s, a);
      }
      assert WindowStep(env, was, act, n', s, was.shards[s].inflight, reach);
    }
  }

  lemma TickMoves(env: Env, n: Node, act: Action, io: Io, n': Node, s: ShardId)
    requires (act.SnapshotTick? || act.Exit?) && act.io == io
    requires n' == SnapshotBatch(env, n, io).(exited := n'.exited) && s in n'.shards
    ensures ShardMoves(env, n, act, n', s)
  {
    SavesMove(env, n, act, SavedActors(n, io.saved), io, SnapshotBatch(env, n, io), n', s, n);
  }

  lemma TakenSame(n: Node, a: ActorId, taken: Node)
    requires HasSignal(n, a) && taken == Taken(n, a)
    ensures SameWindows(n, taken) && taken.shards == n.shards && taken.stored == n.stored
    ensures forall b :: b in taken.actors ==> b in n.actors && taken.actors[b].snapshot == n.actors[b].snapshot
  {
  }

  lemma SeekSame(n: Node, s: ShardId, q: Offset, fails: bool)
    ensures SameWindows(n, Seek(n, s, q, fails))
  {
  }

  lemma SameTwice(n: Node, m: Node, n': Node)
    requires SameWindows(n, m) && SameWindows(m, n')
    ensures SameWindows(n, n')
  {
  }

  /** Apart from a batch it may save, the node's answer to an idle actor moves no window. */
  lemma RecycleSame(env: Env, n: Node, a: ActorId, io: Io, n': Node, saved: Node)
    requires a in n.actors && ShardOf(env, a) in n.shards && n' == RecycleActor(env, n, a, io)
    requires saved == if RecycleTarget(n, a, ShardOf(env, a)).None? && n.actors[a].snapshot.Some?
                      then SnapshotBatch(env, n, io) else n
    ensures SameWindows(saved, n') && saved.stored <= n'.stored
  {
  }

  lemma IdleMoves(env: Env, n: Node, a: ActorId, io: Io, n': Node, s: ShardId, taken: Node, saved: Node)
    requires HasSignal(n, a) && taken == Taken(n, a) && ShardOf(env, a) in n.shards && s in n'.shards
    requires (saved == Saved(env, taken, SavedActors(taken, io.saved), io) && !io.saveFails) || saved == taken
    requires SameWindows(saved, n') && saved.stored <= n'.stored
    ensures ShardMoves(env, n, TakeIdle(a, io), n', s)
  {
    TakenSame(n, a, taken);
    SavesMove(env, taken, TakeIdle(a, io), SavedActors(taken, io.saved), io, saved, n', s, n);
  }

  lemma RemoveSame(env: Env, n: Node, a: ActorId)
    requires a in n.actors
    ensures SameWindows(n, RemoveActor(env, n, a)) && RemoveActor(env, n, a).stored == n.stored
  {
    var shard := ShardOf(env, a);
    if shard !in n.shards {
    } else if n.shards[shard].actors - {a} == {} && shard !in n.registerShards {
    } else {
    }
  }

  lemma StoppedSame(env: Env, n: Node, a: ActorId, io: Io, saved: Node, n': Node)
    requires a in n.actors && saved == SnapshotOne(env, n, a, io) && n' == ReceiveStopped(env, n, a, io)
    ensures SameWindows(saved, n') && saved.stored <= n'.stored
  {
    assert a in saved.actors;
    var removed := RemoveActor(env, saved, a);
    RemoveSame(env, saved, a);
    if n.stopping {
    } else if n.actors[a].pending.Some? {
      SeekSame(removed, ShardOf(env, a), n.actors[a].pending.value, io.seekFails);
    }
  }

  lemma OneMoves(env: Env, n: Node, a: ActorId, io: Io, n': Node, s: ShardId, taken: Node, saved: Node)
    requires (saved == Saved(env, taken, SavedActors(taken, {a}), io) && !io.saveFails) || saved == taken
    requires SameWindows(saved, n') && saved.stored <= n'.stored && s in n'.shards
    requires SameWindows(n, taken) && n.shards.Keys == taken.shards.Keys
    requires forall b :: b in taken.actors ==> b in n.actors && taken.actors[b].snapshot == n.actors[b].snapshot
    ensures ShardMoves(env, n, TakeStopped(a, io), n', s)
  {
    SavesMove(env, taken, TakeStopped(a, io), SavedActors(taken, {a}), io, saved, n', s, n);
  }

  lemma StoppedMoves(env: Env, n: Node, a: ActorId, io: Io, n': Node, s: ShardId, taken: Node)
    requires HasSignal(n, a) && taken == Taken(n, a) && s in n'.shards
    requires n' == ReceiveStopped(env, taken, a, io)
    ensures ShardMoves(env, n, TakeStopped(a, io), n', s)
  {
    TakenSame(n, a, taken);
    var saved := SnapshotOne(env, taken, a, io);
    StoppedSame(env, taken, a, io, saved, n');
    OneMoves(env, n, a, io, n', s, taken, saved);
  }

  // ---------- a dispatch ----------

  lemma OfferSame(env: Env, n: Node, a: ActorId, m: Message)
    requires a in n.actors
    ensures SameWindows(n, Offer(env, n, a, m)) && Offer(env, n, a, m).shards == n.shards
  {
  }

  lemma StartSame(n: Node, a: ActorId, s: ShardId)
    requires s in n.shards
    ensures SameWindows(n, StartActor(n, a, s)) && StartActor(n, a, s).shards.Keys == n.shards.Keys
  {
  }

  lemma AddedMoves(env: Env, n: Node, m: Message, io: Io, n': Node, s: ShardId, started: Node)
    requires LogAt(env, ShardOf(env, m.receiver), m.offset) == Some(m)
    requires SameWindows(n, started) && started.shards.Keys == n.shards.Keys && m.receiver in started.actors
    requires ShardOf(env, m.receiver) in started.shards && s in n'.shards
    requires n' == Offer(env, AddInflight(started, ShardOf(env, m.receiver), m.offset, m.receiver), m.receiver, m)
    ensures ShardMoves(env, n, Dispatch(m, io), n', s)
  {
    var to := ShardOf(env, m.receiver);
    OfferSame(env, AddInflight(started, to, m.offset, m.receiver), m.receiver, m);
    assert WindowStep(env, n, Dispatch(m, io), n', s, n'.shards[s].inflight, map[]);
  }

  lemma DeadLetterHere(env: Env, n: Node, m: Message, io: Io, n': Node, s: ShardId, at: Node, added: Window)
    requires s == ShardOf(env, m.receiver) && m.receiver in n.disableActors && LogAt(env, s, m.offset) == Some(m)
    requires SameWindows(n, at) && at.shards == n.shards && s in at.shards && s in n'.shards
    requires n' == DeadLetter(at, s, m, io) && added == InflightWindow.Add(n.shards[s].inflight, m.offset, m.receiver)
    ensures WindowStep(env, n, Dispatch(m, io), n', s, added, map[m.receiver := m.offset])
  {
  }

  lemma DeadLetterElsewhere(env: Env, n: Node, m: Message, io: Io, n': Node, s: ShardId, at: Node, to: ShardId)
    requires SameWindows(n, at) && at.shards == n.shards && to in at.shards && s in n'.shards && s != to
    requires n' == DeadLetter(at, to, m, io)
    ensures WindowStep(env, n, Dispatch(m, io), n', s, n.shards[s].inflight, map[])
  {
  }

  lemma DeadLetterMoves(env: Env, n: Node, m: Message, io: Io, n': Node, s: ShardId, at: Node)
    requires m.receiver in n.disableActors && LogAt(env, ShardOf(env, m.receiver), m.offset) == Some(m)
    requires SameWindows(n, at) && at.shards == n.shards && ShardOf(env, m.receiver) in at.shards && s in n'.shards
    requires n' == DeadLetter(at, ShardOf(env, m.receiver), m, io)
    ensures ShardMoves(env, n, Dispatch(m, io), n', s)
  {
    if s == ShardOf(env, m.receiver) {
      DeadLetterHere(env, n, m, io, n', s, at, InflightWindow.Add(n.shards[s].inflight, m.offset, m.receiver));
    } else {
      DeadLetterElsewhere(env, n, m, io, n', s, at, ShardOf(env, m.receiver));
    }
  }

  lemma AdvanceSame(n: Node, s: ShardId, position: Offset)
    ensures SameWindows(n, Advanced(n, s, position))
  {
  }

  lemma PauseSame(n: Node, shard: ShardId, offset: Offset, pauseFails: bool)
    requires shard in n.shards
    ensures SameWindows(n, PauseShard(n, shard, offset, pauseFails))
  {
  }

  /** The dispatches that add nothing. */
  lemma DropsMove(env: Env, n: Node, m: Message, io: Io, n': Node, s: ShardId, at: Node)
    requires SameWindows(n, at) && (n' == at || (ShardOf(env, m.receiver) in at.shards
               && n' == PauseShard(at, ShardOf(env, m.receiver), m.offset, io.pauseFails))) && s in n'.shards
    ensures ShardMoves(env, n, Dispatch(m, io), n', s)
  {
    if n' != at { PauseSame(at, ShardOf(env, m.receiver), m.offset, io.pauseFails); }
    SameTwice(n, at, n');
    SameWindowsMove(env, n, Dispatch(m, io), n', s);
  }

  lemma DispatchMoves(env: Env, n: Node, m: Message, io: Io, n': Node, s: ShardId, at: Node)
    requires LogAt(env, ShardOf(env, m.receiver), m.offset) == Some(m)
    requires SameWindows(n, at) && at.shards == n.shards && at.disableActors == n.disableActors
    requires n' == Dispatcher(env, at, m, io) && s in n'.shards
    ensures ShardMoves(env, n, Dispatch(m, io), n', s)
  {
    var a, to := m.receiver, ShardOf(env, m.receiver);
    if to !in at.registerShards || to !in at.shards || at.shards[to].pause.Some? {
      DropsMove(env, n, m, io, n', s, at);
    } else if Full(at.shards[to].inflight, m.offset) {
      DropsMove(env, n, m, io, n', s, at);
    } else if a in at.disableActors {
      DeadLetterMoves(env, n, m, io, n', s, at);
    } else if a !in at.actors && io.startFails {
      DropsMove(env, n, m, io, n', s, at);
    } else if a in at.actors {
      AddedMoves(env, n, m, io, n', s, at);
    } else {
      StartSame(at, a, to);
      SameTwice(n, at, StartActor(at, a, to));
      AddedMoves(env, n, m, io, n', s, StartActor(at, a, to));
    }
  }

  // ---------- every step ----------

  lemma SubscribeMoves(env: Env, n: Node, t: ShardId, n': Node, s: ShardId)
    requires n' == Subscribed(env, n, t) && t !in n.shards && s in n'.shards
    ensures ShardMoves(env, n, Subscribe(t), n', s)
  {
    if s != t {
      assert WindowStep(env, n, Subscribe(t), n', s, n.shards[s].inflight, map[]);
    }
  }

  lemma StopSame(n: Node, n': Node)
    requires n' == BeforeStop(n)
    ensures SameWindows(n, n')
  {
  }

  lemma QuietMoves(env: Env, n: Node, act: Action, n': Node, s: ShardId)
    requires UsableConfig(env.config) && IsStep(env, n, act, n') && s in n'.shards
    requires act.Poll? || act.Stop? || act.ActorStep? || act.Crash?
    ensures ShardMoves(env, n, act, n', s)
  {
    if act.Stop? { StopSame(n, n'); }
    SameWindowsMove(env, n, act, n', s);
  }

  lemma SignalMoves(env: Env, n: Node, act: Action, n': Node, s: ShardId)
    requires UsableConfig(env.config) && IsStep(env, n, act, n') && s in n'.shards
    requires act.TakeAlive? || act.TakeSnapshot?
    ensures ShardMoves(env, n, act, n', s)
  {
    SameWindowsMove(env, n, act, n', s);
  }

  lemma ReadyMoves(env: Env, n: Node, a: ActorId, io: Io, n': Node, s: ShardId, taken: Node)
    requires HasSignal(n, a) && taken == Taken(n, a) && s in n'.shards && n' == ReceiveReady(env, taken, a, io)
    ensures ShardMoves(env, n, TakeReady(a, io), n', s)
  {
    TakenSame(n, a, taken);
    SameWindowsMove(env, n, TakeReady(a, io), n', s);
  }

  lemma IdleStepMoves(env: Env, n: Node, a: ActorId, io: Io, n': Node, s: ShardId, taken: Node)
    requires HasSignal(n, a) && taken == Taken(n, a) && ShardOf(env, a) in n.shards && s in n'.shards
    requires n' == RecycleActor(env, taken, a, io)
    ensures ShardMoves(env, n, TakeIdle(a, io), n', s)
  {
    var saved := if RecycleTarget(taken, a, ShardOf(env, a)).None? && taken.actors[a].snapshot.Some?
                 then SnapshotBatch(env, taken, io) else taken;
    RecycleSame(env, taken, a, io, n', saved);
    IdleMoves(env, n, a, io, n', s, taken, saved);
  }

  lemma DispatchStepMoves(env: Env, n: Node, m: Message, io: Io, n': Node, s: ShardId, at: Node)
    requires LogAt(env, ShardOf(env, m.receiver), m.offset) == Some(m)
    requires at == Read(env, n, m)
    requires n' == Dispatcher(env, at, m, io) && s in n'.shards
    ensures ShardMoves(env, n, Dispatch(m, io), n', s)
  {
    if InTurn(env, n, m) { AdvanceSame(n, ShardOf(env, m.receiver), m.offset + 1); }
    DispatchMoves(env, n, m, io, n', s, at);
  }

  lemma StepMovesShard(env: Env, n: Node, act: Action, n': Node, s: ShardId)
    requires UsableConfig(env.config) && IsStep(env, n, act, n') && s in n'.shards
    ensures ShardMoves(env, n, act, n', s)
  {
    if act.Subscribe? {
      SubscribeMoves(env, n, act.shard, n', s);
    } else if act.Dispatch? {
      DispatchStepMoves(env, n, act.message, act.io, n', s, Read(env, n, act.message));
    } else if act.TakeIdle? {
      IdleStepMoves(env, n, act.actor, act.io, n', s, Taken(n, act.actor));
    } else if act.TakeStopped? {
      StoppedMoves(env, n, act.actor, act.io, n', s, Taken(n, act.actor));
    } else if act.SnapshotTick? || act.Exit? {
      TickMoves(env, n, act, act.io, n', s);
    } else if act.TakeReady? {
      ReadyMoves(env, n, act.actor, act.io, n', s, Taken(n, act.actor));
    } else if act.TakeAlive? || act.TakeSnapshot? {
      SignalMoves(env, n, act, n', s);
    } else {
      QuietMoves(env, n, act, n', s);
    }
  }

  // ---------- windows stay valid ----------

  ghost predicate WindowsOk(env: Env, n: Node) {
    forall s :: s in n.shards ==> WindowOk(env, s, n.shards[s].inflight)
  }

  lemma AddsKeeps(env: Env, n: Node, act: Action, s: ShardId, w: Window, w': Window)
    requires OneReceiverEach(env) && WindowOk(env, s, w) && Adds(env, n, act, s, w, w')
    ensures WindowOk(env, s, w')
    ensures forall o :: o in w.offsetActor ==> o in w'.offsetActor && w'.offsetActor[o] == w.offsetActor[o]
  {
    if w' != w {
      var m := act.message;
      assert LogAt(env, s, m.offset) == Some(m);
      if m.offset in w.offsetActor { assert Sent(env, w.offsetActor[m.offset], m.offset); }
      AddKeepsValid(w, m.offset, m.receiver);
    }
  }

  lemma CompletesKeeps(env: Env, s: ShardId, w: Window, reach: Reaches, w': Window, commits: seq<Offset>, commits': seq<Offset>)
    requires WindowOk(env, s, w) && Completes(w, reach, w', commits, commits')
    ensures WindowOk(env, s, w')
  {
    if w' != w {
      CompleteKeepsValid(w, reach);
      forall o | o in w'.offsetActor ensures o in w.offsetActor && w'.offsetActor[o] == w.offsetActor[o] {
        NothingAppears(w, reach, o);
        OnlyReachedLeave(w, reach, o);
      }
    }
  }

  lemma StepKeepsWindow(env: Env, n: Node, act: Action, n': Node, s: ShardId)
    requires OneReceiverEach(env) && WindowsOk(env, n) && s in n'.shards && ShardMoves(env, n, act, n', s)
    ensures WindowOk(env, s, n'.shards[s].inflight)
  {
    if s in n.shards {
      var added, reach :| WindowStep(env, n, act, n', s, added, reach);
      AddsKeeps(env, n, act, s, n.shards[s].inflight, added);
      CompletesKeeps(env, s, added, reach, n'.shards[s].inflight, PartitionOf(n, s).commits, PartitionOf(n', s).commits);
    }
  }

  lemma StepKeepsWindows(env: Env, n: Node, act: Action, n': Node)
    requires OneReceiverEach(env) && WindowsOk(env, n) && IsStep(env, n, act, n')
    ensures WindowsOk(env, n')
  {
    forall s | s in n'.shards ensures WindowOk(env, s, n'.shards[s].inflight) {
      StepMovesShard(env, n, act, n', s);
      StepKeepsWindow(env, n, act, n', s);
    }
  }

  lemma {:induction false} RunsKeepWindows(env: Env, states: seq<Node>, acts: seq<Action>, i: nat)
    requires OneReceiverEach(env) && IsRun(env, states, acts) && i < |states|
    ensures WindowsOk(env, states[i])
  {
    if i > 0 {
      RunsKeepWindows(env, states, acts, i - 1);
      assert IsStep(env, states[i - 1], acts[i - 1], states[i]);
      StepKeepsWindows(env, states[i - 1], acts[i - 1], states[i]);
    }
  }

  // ---------- one step ----------

  lemma CommitIsSafe(env: Env, n: Node, act: Action, n': Node, s: ShardId, o: Offset)
    requires OneReceiverEach(env) && WindowsOk(env, n) && s in n.shards && s in n'.shards && ShardMoves(env, n, act, n', s)
    requires PartitionOf(n', s).commits != PartitionOf(n, s).commits
    ensures var was, now := PartitionOf(n, s).commits, PartitionOf(n', s).commits;
            |now| == |was| + 1 && now[..|was|] == was
            && (o in n'.shards[s].inflight.offsetActor ==> now[|was|] <= o)
  {
    var added, reach :| WindowStep(env, n, act, n', s, added, reach);
    AddsKeeps(env, n, act, s, n.shards[s].inflight, added);
    NextOffsetIsSafe(added, reach);
  }

  ghost predicate NothingUpTo(w: Window, x: Offset) {
    forall o :: o in w.offsetActor ==> x < o
  }

  /** A commit passes what was in flight before the step exactly as far as nothing that is left
      in flight stands in the way. */
  lemma CommitIsTight(env: Env, n: Node, act: Action, n': Node, s: ShardId, x: Offset)
    requires OneReceiverEach(env) && WindowsOk(env, n) && s in n.shards && s in n'.shards && ShardMoves(env, n, act, n', s)
    requires PartitionOf(n', s).commits != PartitionOf(n, s).commits && x in n.shards[s].inflight.offsetActor
    ensures var was, now := PartitionOf(n, s).commits, PartitionOf(n', s).commits;
            && |now| == |was| + 1
            && (x < now[|was|] <==> NothingUpTo(n'.shards[s].inflight, x))
  {
    var added, reach :| WindowStep(env, n, act, n', s, added, reach);
    AddsKeeps(env, n, act, s, n.shards[s].inflight, added);
    NextOffsetIsSafe(added, reach);
    if NothingUpTo(n'.shards[s].inflight, x) {
      NextOffsetIsTight(added, reach, x + 1);
    }
  }

  /** So it does in every run, whichever step commits. */
  lemma CommitsReachAllReleased(env: Env, states: seq<Node>, acts: seq<Action>, i: nat, s: ShardId, x: Offset)
    requires OneReceiverEach(env) && IsRun(env, states, acts) && i < |acts|
    requires s in states[i].shards && s in states[i + 1].shards && x in states[i].shards[s].inflight.offsetActor
    requires PartitionOf(states[i + 1], s).commits != PartitionOf(states[i], s).commits
    ensures var was, now := PartitionOf(states[i], s).commits, PartitionOf(states[i + 1], s).commits;
            && |now| == |was| + 1
            && (x < now[|was|] <==> NothingUpTo(states[i + 1].shards[s].inflight, x))
  {
    RunsKeepWindows(env, states, acts, i);
    assert IsStep(env, states[i], acts[i], states[i + 1]);
    StepMovesShard(env, states[i], acts[i], states[i + 1], s);
    CommitIsTight(env, states[i], acts[i], states[i + 1], s, x);
  }

  /** What leaves a window was reached by a saved snapshot, or its actor is disabled. */
  lemma LeavesOnlyBacked(env: Env, n: Node, act: Action, n': Node, s: ShardId, o: Offset)
    requires OneReceiverEach(env) && WindowsOk(env, n) && s in n.shards && s in n'.shards && ShardMoves(env, n, act, n', s)
    requires o in n.shards[s].inflight.offsetActor
    ensures o in n'.shards[s].inflight.offsetActor || Released(n, act, n', n.shards[s].inflight.offsetActor[o], o)
  {
    var added, reach :| WindowStep(env, n, act, n', s, added, reach);
    AddsKeeps(env, n, act, s, n.shards[s].inflight, added);
    BackedLeaves(env, n, act, n', s, o, added, reach);
  }

  lemma BackedLeaves(env: Env, n: Node, act: Action, n': Node, s: ShardId, o: Offset, added: Window, reach: Reaches)
    requires s in n.shards && s in n'.shards && WindowOk(env, s, added) && o in added.offsetActor
    requires forall a :: a in reach ==> Backed(n, act, n', a, reach[a])
    requires Completes(added, reach, n'.shards[s].inflight, PartitionOf(n, s).commits, PartitionOf(n', s).commits)
    ensures o in n'.shards[s].inflight.offsetActor || Released(n, act, n', added.offsetActor[o], o)
  {
    OnlyReachedLeave(added, reach, o);
    var a := added.offsetActor[o];
    if o !in n'.shards[s].inflight.offsetActor {
      assert Backed(n, act, n', a, reach[a]) && o <= reach[a];
    }
  }

  ghost predicate Released(n: Node, act: Action, n': Node, a: ActorId, o: Offset) {
    exists x :: o <= x && Backed(n, act, n', a, x)
  }

  // ---------- every run ----------

  /** `s` is there, and the node is not restarted, from state `i` to state `j`. */
  ghost predicate Lives(states: seq<Node>, s: ShardId, i: nat, j: nat)
    requires j < |states|
  {
    forall k :: i <= k <= j ==> s in states[k].shards
  }

  ghost predicate ReleasedAt(states: seq<Node>, acts: seq<Action>, k: nat, a: ActorId, o: Offset)
    requires k < |acts| && |states| == |acts| + 1
  {
    Released(states[k], acts[k], states[k + 1], a, o)
  }

  ghost predicate InFlight(n: Node, s: ShardId, o: Offset) {
    s in n.shards && o in n.shards[s].inflight.offsetActor
  }

  lemma RunMovesShard(env: Env, states: seq<Node>, acts: seq<Action>, k: nat, s: ShardId)
    requires OneReceiverEach(env) && IsRun(env, states, acts) && k < |acts| && s in states[k + 1].shards
    ensures ShardMoves(env, states[k], acts[k], states[k + 1], s) && WindowsOk(env, states[k])
  {
    assert IsStep(env, states[k], acts[k], states[k + 1]);
    StepMovesShard(env, states[k], acts[k], states[k + 1], s);
    RunsKeepWindows(env, states, acts, k);
  }

  /** If `o` leaves the window of `s` in this step, it is released. */
  ghost predicate LeavesReleased(n: Node, act: Action, n': Node, s: ShardId, a: ActorId, o: Offset) {
    s in n'.shards && InFlight(n, s, o) && !InFlight(n', s, o) ==> Released(n, act, n', a, o)
  }

  ghost predicate AllReleased(states: seq<Node>, acts: seq<Action>, s: ShardId, a: ActorId, o: Offset) {
    && |states| == |acts| + 1
    && forall k :: 0 <= k < |acts| ==> LeavesReleased(states[k], acts[k], states[k + 1], s, a, o)
  }

  lemma LeavesStep(env: Env, n: Node, act: Action, n': Node, s: ShardId, a: ActorId, o: Offset)
    requires OneReceiverEach(env) && Sent(env, a, o) && ShardOf(env, a) == s
    requires s in n'.shards ==> ShardMoves(env, n, act, n', s) && WindowsOk(env, n)
    ensures LeavesReleased(n, act, n', s, a, o)
  {
    if s in n'.shards && InFlight(n, s, o) {
      var w := n.shards[s].inflight;
      assert WindowOk(env, s, w);
      assert Sent(env, w.offsetActor[o], o);
      LeavesOnlyBacked(env, n, act, n', s, o);
    }
  }

  lemma RunsRelease(env: Env, states: seq<Node>, acts: seq<Action>, s: ShardId, a: ActorId, o: Offset)
    requires OneReceiverEach(env) && IsRun(env, states, acts) && Sent(env, a, o) && ShardOf(env, a) == s
    ensures AllReleased(states, acts, s, a, o)
  {
    forall k | 0 <= k < |acts| ensures LeavesReleased(states[k], acts[k], states[k + 1], s, a, o) {
      if s in states[k + 1].shards { RunMovesShard(env, states, acts, k, s); }
      LeavesStep(env, states[k], acts[k], states[k + 1], s, a, o);
    }
  }

  lemma {:induction false} LeavingStep(states: seq<Node>, acts: seq<Action>, s: ShardId, a: ActorId, o: Offset, i: nat, j: nat)
    returns (k: nat)
    requires AllReleased(states, acts, s, a, o) && i <= j < |states| && Lives(states, s, i, j)
    requires InFlight(states[i], s, o) && !InFlight(states[j], s, o)
    ensures i <= k < j && ReleasedAt(states, acts, k, a, o)
    decreases j
  {
    if InFlight(states[j - 1], s, o) {
      k := j - 1;
      assert LeavesReleased(states[k], acts[k], states[k + 1], s, a, o);
    } else {
      k := LeavingStep(states, acts, s, a, o, i, j - 1);
    }
  }

  /**
    Commit coverage.  When step `j` commits `c` for `s`, nothing in flight is below `c`, and
    each offset below `c` that was in flight in state `i`, such as right after it was last
    added, has been released at some step since.
  */
  lemma CommitCoverage(env: Env, states: seq<Node>, acts: seq<Action>, s: ShardId, j: nat, a: ActorId, o: Offset, i: nat)
    requires OneReceiverEach(env) && IsRun(env, states, acts) && i <= j < |acts| && Lives(states, s, i, j + 1)
    requires PartitionOf(states[j + 1], s).commits != PartitionOf(states[j], s).commits
    ensures var now := PartitionOf(states[j + 1], s).commits;
            && now != [] && (InFlight(states[j + 1], s, o) ==> now[|now| - 1] <= o)
            && (InFlight(states[i], s, o) && o < now[|now| - 1] && Sent(env, a, o) && ShardOf(env, a) == s ==>
                  exists k :: i <= k <= j && ReleasedAt(states, acts, k, a, o))
  {
    RunMovesShard(env, states, acts, j, s);
    CommitIsSafe(env, states[j], acts[j], states[j + 1], s, o);
    var now := PartitionOf(states[j + 1], s).commits;
    if InFlight(states[i], s, o) && o < now[|now| - 1] && Sent(env, a, o) && ShardOf(env, a) == s {
      RunsRelease(env, states, acts, s, a, o);
      var k := LeavingStep(states, acts, s, a, o, i, j + 1);
    }
  }
}
