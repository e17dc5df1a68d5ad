/**
  What the hypotheses of at-least-once delivery are for.  From any state in which the read
  position has passed an offset in flight that was not delivered, and the log goes on with a
  message for the same actor, steps without a failing call or a seek commit past it.
*/
module Losses {
  import opened Types
  import opened InflightWindow
  import opened DedupFilter
  import opened ActorModel
  import opened NodeModel
  import opened NodeRuns
  import opened NodeIndex
  import opened Delivery
  import opened Coverage
  import opened CoverageSteps
  import opened CoverageDispatch
  import opened AtLeastOnce
  import opened Marks
  import opened Paths

  // ---------- the situation ----------

  /** Not started, or with nothing to do and nothing to tell. */
  ghost predicate Free(n: Node, a: ActorId) {
    a in n.actors ==>
      var na := n.actors[a];
      && !na.stopping && na.pause.None?
      && na.proc.phase == Running && na.proc.mailbox == [] && na.proc.signals == [] && !na.proc.mailFull
  }

  /** Releasing all of the receiver's offsets up to past `x` moves the window past it: up to
      `x` nothing of other actors is in flight, and the window knows. */
  ghost predicate NextToGo(w: Window, x: Offset, a: ActorId) {
    && x in w.offsetActor && w.minOffset in w.offsetActor && w.minOffset <= x
    && forall o :: o in w.offsetActor && o <= x ==> w.offsetActor[o] == a
  }

  /** `x` is in flight at a listening shard and its receiver free. */
  ghost predicate Exposed(env: Env, n: Node, s: ShardId, x: Offset) {
    && Listening(n, s) && s in n.partitions && !n.partitions[s].paused && !n.exited && !n.stopping
    && InLog(env, s, x) && WindowOk(env, s, n.shards[s].inflight)
    && NextToGo(n.shards[s].inflight, x, ReceiverAt(env, s, x))
    && Free(n, ReceiverAt(env, s, x)) && n.disableActors == {}
  }

  /** The read position is past it. */
  ghost predicate Passed(env: Env, n: Node, s: ShardId, x: Offset) {
    Exposed(env, n, s, x) && x < n.partitions[s].position
  }

  /** The log goes on with `m` for the receiver of `x`, with messages for others before it: a
      new message of a known command, within the window, and none of the receiver's offsets in
      flight is above it. */
  ghost predicate GoesOn(env: Env, n: Node, s: ShardId, x: Offset, m: Message)
    requires InLog(env, s, x) && s in n.partitions && s in n.shards
  {
    var a, w := ReceiverAt(env, s, x), n.shards[s].inflight;
    && m.receiver == a && m.command in env.config.handlers
    && LogAt(env, s, m.offset) == Some(m) && n.partitions[s].position <= m.offset
    && (forall y {:trigger InLog(env, s, y)} :: n.partitions[s].position <= y < m.offset && InLog(env, s, y) ==> ReceiverAt(env, s, y) != a)
    && (a in n.actors ==> m.id !in n.actors[a].proc.dedup)
    && m.offset - w.minOffset < w.windowLimit && w.maxOffset - w.minOffset < w.windowLimit
    && forall o :: o in ListOf(w, a) ==> o <= m.offset
  }

  /** As long as what comes is close to the first offset in flight, the window is not full. */
  lemma NotFull(w: Window, o: Offset)
    requires o - w.minOffset < w.windowLimit && w.maxOffset - w.minOffset < w.windowLimit
    ensures !Full(w, o)
  {
  }

  // ---------- the steps ----------

  /** `k` is `n` with `a` at work on the message: what later steps look at. */
  ghost predicate Working(n: Node, s: ShardId, a: ActorId, na: NodeActor, w: Window, k: Node) {
    && k.stopping == n.stopping && k.exited == n.exited && k.stored == n.stored
    && a in k.actors && k.actors[a] == na
    && s in n.partitions && s in k.shards && k.shards[s].inflight == w && k.shards[s].pause.None?
    && s in k.partitions && k.partitions[s].commits == n.partitions[s].commits
  }

  /** The actor before it is given the message. */
  function Before(n: Node, a: ActorId): NodeActor {
    if a in n.actors then n.actors[a] else NodeActor(false, None, None, None, NewProc(a, HistoryOf(n, a)))
  }

  function Mailed(na: NodeActor, m: Message): NodeActor {
    na.(proc := na.proc.(mailbox := [Network(m)]))
  }

  lemma Dispatched(env: Env, n: Node, s: ShardId, m: Message, k: Node)
    requires UsableConfig(env.config) && Listening(n, s) && s in n.partitions && ShardOf(env, m.receiver) == s
    requires Free(n, m.receiver) && m.receiver !in n.disableActors && !Full(n.shards[s].inflight, m.offset)
    requires k == Dispatcher(env, n, m, CALM)
    ensures Working(n, s, m.receiver, Mailed(Before(n, m.receiver), m), Add(n.shards[s].inflight, m.offset, m.receiver), k)
    ensures k.partitions == n.partitions
  {
    var a := m.receiver;
    assert [] + [Network(m)] == [Network(m)];
    if a !in n.actors {
      var started := StartActor(n, a, s);
      assert Offered(env.config.capacity, Before(n, a), m) == Mailed(Before(n, a), m);
    }
  }

  /** `m` is next in the log and for an actor that is free. */
  ghost predicate CanCome(env: Env, n: Node, s: ShardId, m: Message) {
    && Listening(n, s) && s in n.partitions && !n.partitions[s].paused && !n.exited && !n.stopping && n.disableActors == {}
    && ShardOf(env, m.receiver) == s && IsNext(env, n.partitions[s].(polled := m.offset + 1), s, m)
    && Free(n, m.receiver) && !Full(n.shards[s].inflight, m.offset)
  }

  lemma DispatchLeads(law: Law, env: Env, n: Node, s: ShardId, m: Message) returns (k: Node)
    requires UsableConfig(env.config) && CanCome(env, n, s, m)
    ensures Leads(law, env, n, k)
    ensures Working(n, s, m.receiver, Mailed(Before(n, m.receiver), m), Add(n.shards[s].inflight, m.offset, m.receiver), k)
  {
    var p := n.partitions[s];
    var polled := Polled(n, s, if p.polled <= m.offset then m.offset + 1 else p.polled);
    LeadsToItself(law, env, n);
    PollLeads(law, env, n, s, polled);
    k := Dispatcher(env, Advanced(polled, s, m.offset + 1), m, CALM);
    DispatchedFrom(env, n, s, m, polled, Advanced(polled, s, m.offset + 1), k);
    CalmDispatchLeads(law, env, n, s, m, polled, k);
  }

  lemma DispatchedFrom(env: Env, n: Node, s: ShardId, m: Message, polled: Node, at: Node, k: Node)
    requires UsableConfig(env.config) && Listening(n, s) && s in n.partitions && ShardOf(env, m.receiver) == s
    requires Free(n, m.receiver) && m.receiver !in n.disableActors && !Full(n.shards[s].inflight, m.offset)
    requires s in polled.partitions && polled == Polled(n, s, polled.partitions[s].polled) && at == Advanced(polled, s, m.offset + 1)
    requires k == Dispatcher(env, at, m, CALM)
    ensures Working(n, s, m.receiver, Mailed(Before(n, m.receiver), m), Add(n.shards[s].inflight, m.offset, m.receiver), k)
  {
    assert Before(at, m.receiver) == Before(n, m.receiver);
    Dispatched(env, at, s, m, k);
  }

  lemma CalmDispatchLeads(law: Law, env: Env, n: Node, s: ShardId, m: Message, polled: Node, k: Node)
    requires UsableConfig(env.config) && Leads(law, env, n, polled) && Listening(polled, s) && !polled.exited
    requires ShardOf(env, m.receiver) == s && s in polled.partitions && IsNext(env, polled.partitions[s], s, m)
    requires k == Dispatcher(env, Advanced(polled, s, m.offset + 1), m, CALM)
    ensures Leads(law, env, n, k)
  {
    DispatchIsCalm(env, s, m, polled, k);
    DispatchIsStep(env, s, m, polled, k);
    CalmLeads(law, env, n, polled, Dispatch(m, CALM), k);
  }

  lemma DispatchIsStep(env: Env, s: ShardId, m: Message, polled: Node, k: Node)
    requires UsableConfig(env.config) && !polled.exited
    requires ShardOf(env, m.receiver) == s && s in polled.partitions && IsNext(env, polled.partitions[s], s, m)
    requires k == Dispatcher(env, Advanced(polled, s, m.offset + 1), m, CALM)
    ensures IsStep(env, polled, Dispatch(m, CALM), k)
  {
  }

  lemma DispatchIsCalm(env: Env, s: ShardId, m: Message, polled: Node, k: Node)
    requires Listening(polled, s) && ShardOf(env, m.receiver) == s && InTurn(env, polled, m)
    ensures Calm(env, polled, Dispatch(m, CALM), k)
  {
  }

  lemma PollLeads(law: Law, env: Env, n: Node, s: ShardId, polled: Node)
    requires UsableConfig(env.config) && Listening(n, s) && s in n.partitions && !n.partitions[s].paused && !n.stopping
    requires s in polled.partitions && n.partitions[s].polled <= polled.partitions[s].polled
    requires polled == Polled(n, s, polled.partitions[s].polled) && Leads(law, env, n, n)
    ensures Leads(law, env, n, polled)
  {
    assert forall t :: t != s ==> PartitionOf(polled, t) == PartitionOf(n, t);
    BackwardLeads(law, env, n, n, Poll(s, polled.partitions[s].polled), polled);
  }

  lemma ActsLeads(law: Law, env: Env, n: Node, s: ShardId, a: ActorId, na: NodeActor, w: Window, k: Node, step: ProcStep, na': NodeActor)
      returns (k': Node)
    requires UsableConfig(env.config) && Leads(law, env, n, k) && Working(n, s, a, na, w, k)
    requires CanStep(env.config, na, step) && na' == na.(proc := Stepped(env.config, na.proc, step))
    ensures Leads(law, env, n, k') && Working(n, s, a, na', w, k')
  {
    k' := WithProc(k, a, na'.proc);
    assert Backward(k, k');
    BackwardLeads(law, env, n, k, ActorStep(a, step), k');
  }

  /** The next signal is a ready signal nobody waits for. */
  lemma ReadyLeads(law: Law, env: Env, n: Node, s: ShardId, a: ActorId, na: NodeActor, w: Window, k: Node, rest: seq<Signal>, na': NodeActor)
      returns (k': Node)
    requires UsableConfig(env.config) && Leads(law, env, n, k) && Working(n, s, a, na, w, k) && !n.exited
    requires na.pause.None? && na.proc.signals == [Signal.Ready] + rest && na' == na.(proc := na.proc.(signals := rest))
    ensures Leads(law, env, n, k') && Working(n, s, a, na', w, k')
  {
    k' := Taken(k, a);
    assert na.proc.signals[1..] == rest;
    assert Backward(k, k');
    BackwardLeads(law, env, n, k, TakeReady(a, CALM), k');
  }

  lemma SnapshotLeads(law: Law, env: Env, n: Node, s: ShardId, a: ActorId, na: NodeActor, w: Window, k: Node,
                      snapshot: ActorSnapshot, rest: seq<Signal>, na': NodeActor)
      returns (k': Node)
    requires UsableConfig(env.config) && Leads(law, env, n, k) && Working(n, s, a, na, w, k) && !n.exited
    requires na.proc.signals == [Snapshot(snapshot)] + rest
    requires na' == na.(snapshot := Some(snapshot), proc := na.proc.(signals := rest))
    ensures Leads(law, env, n, k') && Working(n, s, a, na', w, k')
  {
    k' := ReceiveSnapshot(Taken(k, a), a, snapshot);
    assert na.proc.signals[1..] == rest;
    assert Backward(k, k');
    BackwardLeads(law, env, n, k, TakeSnapshot(a), k');
  }

  // ---------- the save ----------

  lemma SavedElsewhere(env: Env, k: Node, a: ActorId, t: ShardId)
    requires t in k.shards && t != ShardOf(env, a)
    ensures ReachOn(env, k, {a}, t) == map[]
  {
  }

  lemma SavedHere(env: Env, k: Node, a: ActorId, snapshot: ActorSnapshot)
    requires a in k.actors && k.actors[a].snapshot == Some(snapshot)
    ensures ReachOn(env, k, {a}, ShardOf(env, a)) == map[a := snapshot.offset] && SavedActors(k, {a}) == {a}
  {
    assert a in ReachOn(env, k, {a}, ShardOf(env, a));
  }

  lemma SaveCommits(env: Env, n: Node, s: ShardId, a: ActorId, na: NodeActor, w: Window, k: Node, snapshot: ActorSnapshot, k': Node)
    requires Working(n, s, a, na, w, k) && ShardOf(env, a) == s && na.snapshot == Some(snapshot)
    requires k' == Saved(env, k, {a}, CALM.(saved := {a})) && AfterComplete(w, map[a := snapshot.offset]).advanced
    ensures k'.stored == n.stored + {snapshot}
    ensures s in k'.partitions
    ensures k'.partitions[s].commits == n.partitions[s].commits + [AfterComplete(w, map[a := snapshot.offset]).nextOffset]
  {
    SavedHere(env, k, a, snapshot);
    SavedSnapshots(env, k, a, snapshot, k');
    var c := AfterComplete(w, map[a := snapshot.offset]);
    var shard := k.shards[s].(inflight := c.window);
    assert a in ReachOn(env, k, {a}, s);
    assert ReleasedOn(env, k, {a}, s, CALM.(saved := {a}))
        == Outcome(shard, k.partitions[s].(commits := k.partitions[s].commits + [c.nextOffset]), false);
  }

  lemma SavedSnapshots(env: Env, k: Node, a: ActorId, snapshot: ActorSnapshot, k': Node)
    requires a in k.actors && k.actors[a].snapshot == Some(snapshot) && k' == Saved(env, k, {a}, CALM.(saved := {a}))
    ensures k'.stored == k.stored + {snapshot}
  {
  }

  lemma SaveHistory(env: Env, k: Node, a: ActorId, io: Io, k': Node)
    requires a in k.actors && k' == Saved(env, k, {a}, io)
    ensures HistoryOf(k', a) == k.actors[a].proc.history
  {
  }

  lemma SaveStays(env: Env, k: Node, a: ActorId, io: Io, k': Node)
    requires ShardOf(env, a) in k.shards && k.shards[ShardOf(env, a)].pause.None?
    requires k' == Saved(env, k, {a}, io)
    ensures Backward(k, k')
  {
    forall t | t in k.partitions ensures PartitionOf(k', t).position <= k.partitions[t].position {
      if t in k.shards && t != ShardOf(env, a) { SavedElsewhere(env, k, a, t); }
    }
  }

  lemma SaveLeads(law: Law, env: Env, n: Node, s: ShardId, a: ActorId, na: NodeActor, w: Window, k: Node, snapshot: ActorSnapshot)
      returns (k': Node)
    requires UsableConfig(env.config) && Leads(law, env, n, k) && Working(n, s, a, na, w, k) && !n.exited
    requires ShardOf(env, a) == s && na.snapshot == Some(snapshot) && AfterComplete(w, map[a := snapshot.offset]).advanced
    ensures Leads(law, env, n, k') && k'.stored == n.stored + {snapshot} && HistoryOf(k', a) == na.proc.history
    ensures s in k'.partitions
    ensures k'.partitions[s].commits == n.partitions[s].commits + [AfterComplete(w, map[a := snapshot.offset]).nextOffset]
  {
    var io := CALM.(saved := {a});
    k' := Saved(env, k, {a}, io);
    SavedHere(env, k, a, snapshot);
    SaveCommits(env, n, s, a, na, w, k, snapshot, k');
    SaveHistory(env, k, a, io, k');
    SaveStays(env, k, a, io, k');
    BackwardLeads(law, env, n, k, SnapshotTick(io), k');
  }

  lemma AllReleased(env: Env, s: ShardId, w: Window, a: ActorId, o: Offset, m: Message)
    requires WindowOk(env, s, w) && o in w.offsetActor && w.offsetActor[o] == a
    requires m.receiver == a && o != m.offset && forall p :: p in ListOf(w, a) ==> p <= m.offset
    ensures Released(Add(w, m.offset, a), map[a := m.offset], o)
  {
    var w' := Add(w, m.offset, a);
    var list := ListOf(w', a);
    assert o in ListOf(w, a);
    AllLead(list, m.offset);
    assert list[..|list|] == list;
  }

  /** What is in flight after the completion is past `x`. */
  lemma NothingLeft(env: Env, s: ShardId, w: Window, a: ActorId, x: Offset, m: Message, o: Offset)
    requires WindowOk(env, s, w) && NextToGo(w, x, a)
    requires m.receiver == a && x < m.offset && forall p :: p in ListOf(w, a) ==> p <= m.offset
    requires o in AfterRemovals(Add(w, m.offset, a), map[a := m.offset]).offsetActor
    ensures x < o && (o in w.offsetActor || o == m.offset)
  {
    if o <= x {
      AllReleased(env, s, w, a, o, m);
    }
  }

  /** Releasing all that its actor has in flight moves the commit past `x`. */
  lemma WindowMovesOn(env: Env, s: ShardId, w: Window, a: ActorId, x: Offset, m: Message)
    requires WindowOk(env, s, w) && NextToGo(w, x, a)
    requires m.receiver == a && x < m.offset && forall o :: o in ListOf(w, a) ==> o <= m.offset
    ensures var c := AfterComplete(Add(w, m.offset, a), map[a := m.offset]); c.advanced && x < c.nextOffset
  {
    var w', reach := Add(w, m.offset, a), map[a := m.offset];
    AllReleased(env, s, w, a, w.minOffset, m);
    var r := AfterRemovals(w', reach);
    if r.offsetActor != map[] {
      NothingLeft(env, s, w, a, x, m, MinOf(r.offsetActor.Keys));
    }
  }

  lemma {:induction false} AllLead(list: seq<Offset>, m: Offset)
    requires forall o :: o in list ==> o <= m
    ensures Lead(list, m) == |list|
  {
    forall i | 0 <= i < |list| ensures list[i] <= m { assert list[i] in list; }
    LeadUnique(list, m, |list|);
  }

  // ---------- the loss ----------

  /** `n'` has committed past `x`, which no handler has seen and no saved snapshot covers. */
  ghost predicate Lost(env: Env, n': Node, s: ShardId, x: Offset) {
    && InLog(env, s, x)
    && (exists k: nat :: CommitsPast(env, n', s, k, x))
    && x !in HistoryOf(n', ReceiverAt(env, s, x)).handled
    && !HandledAndSaved(env, n', s, x)
  }

  function AfterHandling(env: Env, na: NodeActor, m: Message): NodeActor
    requires UsableConfig(env.config)
  {
    na.(proc := Handled(env.config, Mailed(na, m).proc))
  }

  /** The actor handles the message and tells, if its mailbox has room for one message only,
      that it is ready again. */
  lemma HandleLeads(law: Law, env: Env, n: Node, s: ShardId, a: ActorId, na: NodeActor, w: Window, m: Message, k: Node)
      returns (k': Node, na': NodeActor)
    requires UsableConfig(env.config) && Leads(law, env, n, k) && Working(n, s, a, Mailed(na, m), w, k) && !n.exited
    requires na.pause.None? && na.proc.phase == Running && na.proc.signals == [] && !na.proc.mailFull
    requires m.command in env.config.handlers && m.id !in na.proc.dedup
    ensures Leads(law, env, n, k') && Working(n, s, a, na', w, k')
    ensures na'.pause.None? && na'.proc.phase == Running && na'.proc.signals == [] && na'.proc.offset == m.offset && na'.proc.id == na.proc.id
    ensures na'.proc.history.handled == na.proc.history.handled + {m.offset}
  {
    na' := AfterHandling(env, na, m);
    HandledFacts(env, na, m);
    k' := ActsLeads(law, env, n, s, a, Mailed(na, m), w, k, Handles, na');
    if na'.proc.signals != [] {
      var quiet := na'.(proc := na'.proc.(signals := []));
      assert [Signal.Ready] + [] == [Signal.Ready];
      k' := ReadyLeads(law, env, n, s, a, na', w, k', [], quiet);
      na' := quiet;
    }
  }

  lemma HandledFacts(env: Env, na: NodeActor, m: Message)
    requires UsableConfig(env.config)
    requires na.pause.None? && na.proc.phase == Running && na.proc.signals == [] && !na.proc.mailFull
    requires m.command in env.config.handlers && m.id !in na.proc.dedup
    ensures var p := AfterHandling(env, na, m).proc;
            && p.phase == Running && p.signals in {[], [Signal.Ready]} && p.offset == m.offset && p.id == na.proc.id
            && p.history.handled == na.proc.history.handled + {m.offset}
  {
    assert [Network(m)][1..] == [];
    assert [] + [Signal.Ready] == [Signal.Ready];
  }

  /** The actor idles, and the node takes its snapshot and saves it. */
  lemma IdleAndSave(law: Law, env: Env, n: Node, s: ShardId, a: ActorId, na: NodeActor, w: Window, k: Node) returns (k': Node)
    requires UsableConfig(env.config) && Leads(law, env, n, k) && Working(n, s, a, na, w, k) && !n.exited
    requires ShardOf(env, a) == s && na.proc.phase == Running && na.proc.signals == []
    requires AfterComplete(w, map[a := na.proc.offset]).advanced
    ensures Leads(law, env, n, k') && k'.stored == n.stored + {SnapshotOf(na.proc)} && HistoryOf(k', a) == na.proc.history
    ensures s in k'.partitions
    ensures k'.partitions[s].commits == n.partitions[s].commits + [AfterComplete(w, map[a := na.proc.offset]).nextOffset]
  {
    var snapshot := SnapshotOf(na.proc);
    var idle := na.(proc := na.proc.(signals := [Snapshot(snapshot), Signal.Idle]));
    assert IdleFired(na.proc).signals == [Snapshot(snapshot), Signal.Idle];
    k' := ActsLeads(law, env, n, s, a, na, w, k, Idles, idle);
    var known := na.(snapshot := Some(snapshot), proc := na.proc.(signals := [Signal.Idle]));
    assert [Snapshot(snapshot)] + [Signal.Idle] == [Snapshot(snapshot), Signal.Idle];
    k' := SnapshotLeads(law, env, n, s, a, idle, w, k', snapshot, [Signal.Idle], known);
    k' := SaveLeads(law, env, n, s, a, known, w, k', snapshot);
  }

  /** Neither the saves so far nor one more snapshot that does not have `x` covers it. */
  lemma StaysUnhandled(env: Env, n: Node, s: ShardId, x: Offset, snapshot: ActorSnapshot, n': Node)
    requires StoredOk(env, n) && InLog(env, s, x) && x !in HistoryOf(n, ReceiverAt(env, s, x)).handled
    requires n'.stored == n.stored + {snapshot} && x !in snapshot.history.handled
    ensures !HandledAndSaved(env, n', s, x)
  {
    forall t | t in n'.stored ensures !Covers(t, ReceiverAt(env, s, x), x) {
      if t in n.stored && t.actorId == ReceiverAt(env, s, x) {
        assert HonestSnapshot(env, t.actorId, t, HistoryOf(n, t.actorId));
      }
    }
  }

  lemma WorkingHere(n: Node, s: ShardId, a: ActorId, na: NodeActor, w: Window, k: Node)
    requires Working(n, s, a, na, w, k)
    ensures Working(k, s, a, na, w, k)
  {
  }

  /** The message in the mailbox of the actor is handled and the snapshot taken then is saved. */
  lemma MailedIsSaved(law: Law, env: Env, k: Node, s: ShardId, a: ActorId, na: NodeActor, w: Window, m: Message)
      returns (n': Node, snapshot: ActorSnapshot)
    requires UsableConfig(env.config) && Working(k, s, a, Mailed(na, m), w, k) && !k.exited && ShardOf(env, a) == s
    requires na.pause.None? && na.proc.phase == Running && na.proc.signals == [] && !na.proc.mailFull
    requires m.command in env.config.handlers && m.id !in na.proc.dedup
    requires AfterComplete(w, map[a := m.offset]).advanced
    ensures Leads(law, env, k, n') && n'.stored == k.stored + {snapshot} && HistoryOf(n', a) == snapshot.history
    ensures snapshot.actorId == na.proc.id
    ensures snapshot.history.handled == na.proc.history.handled + {m.offset}
    ensures s in n'.partitions
    ensures n'.partitions[s].commits == k.partitions[s].commits + [AfterComplete(w, map[a := m.offset]).nextOffset]
  {
    LeadsToItself(law, env, k);
    var k', na' := HandleLeads(law, env, k, s, a, na, w, m, k);
    n' := IdleAndSave(law, env, k, s, a, na', w, k');
    snapshot := SnapshotOf(na'.proc);
  }

  /** Once the message is in the mailbox of the receiver, `x` is lost. */
  lemma MailedIsLost(law: Law, env: Env, n: Node, k: Node, s: ShardId, x: Offset, m: Message) returns (n': Node)
    requires FixedReceivers(env) && StoredOk(env, n) && Exposed(env, n, s, x) && !Delivered(env, n, s, x)
    requires m.receiver == ReceiverAt(env, s, x) && ShardOf(env, m.receiver) == s && x < m.offset
    requires m.command in env.config.handlers && m.id !in Before(n, m.receiver).proc.dedup
    requires forall o :: o in ListOf(n.shards[s].inflight, m.receiver) ==> o <= m.offset
    requires Working(n, s, m.receiver, Mailed(Before(n, m.receiver), m), Add(n.shards[s].inflight, m.offset, m.receiver), k)
    ensures Leads(law, env, k, n') && Lost(env, n', s, x)
  {
    var a, w := m.receiver, Add(n.shards[s].inflight, m.offset, m.receiver);
    WorkingHere(n, s, a, Mailed(Before(n, a), m), w, k);
    WindowMovesOn(env, s, n.shards[s].inflight, a, x, m);
    var snapshot;
    n', snapshot := MailedIsSaved(law, env, k, s, a, Before(n, a), w, m);
    StaysUnhandled(env, n, s, x, snapshot, n');
    assert CommitsPast(env, n', s, |n'.partitions[s].commits| - 1, x);
  }

  /** The next message is the one for the receiver of `x`. */
  lemma NextIsLost(law: Law, env: Env, n: Node, s: ShardId, x: Offset, m: Message) returns (n': Node)
    requires FixedReceivers(env) && StoredOk(env, n) && Passed(env, n, s, x) && GoesOn(env, n, s, x, m)
    requires IsNext(env, n.partitions[s].(polled := m.offset + 1), s, m) && !Delivered(env, n, s, x)
    ensures Leads(law, env, n, n') && Lost(env, n', s, x)
  {
    NotFull(n.shards[s].inflight, m.offset);
    var k := DispatchLeads(law, env, n, s, m);
    n' := MailedIsLost(law, env, n, k, s, x, m);
    LeadsTwice(law, env, n, k, n');
  }

  // ---------- messages for others in between ----------

  /** The first message of the log from `from` on, which is `m` at the latest. */
  lemma NextLogged(env: Env, s: ShardId, from: Offset, m: Message) returns (d: Message)
    requires FixedReceivers(env) && LogAt(env, s, m.offset) == Some(m) && from <= m.offset
    ensures LogAt(env, s, d.offset) == Some(d) && from <= d.offset <= m.offset && ShardOf(env, d.receiver) == s
    ensures forall y :: from <= y < d.offset ==> LogAt(env, s, y).None?
    decreases m.offset - from
  {
    if LogAt(env, s, from).Some? {
      d := LogAt(env, s, from).value;
    } else {
      d := NextLogged(env, s, from + 1, m);
    }
  }

  /** What the dispatch of `d` to another actor leaves of the situation. */
  ghost predicate AfterOther(n: Node, s: ShardId, d: Message, k: Node)
    requires s in n.shards
  {
    && k.registerShards == n.registerShards && k.disableActors == n.disableActors
    && k.stopping == n.stopping && k.exited == n.exited && k.stored == n.stored
    && s in k.shards && k.shards[s].inflight == Add(n.shards[s].inflight, d.offset, d.receiver) && k.shards[s].pause.None?
    && s in k.partitions && !k.partitions[s].paused && k.partitions[s].position == d.offset + 1
    && (forall b :: b != d.receiver ==> (b in k.actors <==> b in n.actors))
    && (forall b :: b != d.receiver && b in n.actors ==> k.actors[b] == n.actors[b])
    && (forall b :: HistoryOf(k, b) == HistoryOf(n, b))
  }

  lemma OtherDispatched(env: Env, n: Node, s: ShardId, d: Message, at: Node, k: Node)
    requires Listening(n, s) && s in n.partitions && !n.partitions[s].paused && ShardOf(env, d.receiver) == s
    requires d.receiver !in n.disableActors && !Full(n.shards[s].inflight, d.offset)
    requires at == n.(partitions := at.partitions) && s in at.partitions && !at.partitions[s].paused && at.partitions[s].position == d.offset + 1
    requires k == Dispatcher(env, at, d, CALM)
    ensures AfterOther(n, s, d, k)
  {
    var c := d.receiver;
    if c in n.actors {
      OfferedHistory(env.config.capacity, n.actors[c], d);
    } else {
      OfferedHistory(env.config.capacity, Before(n, c), d);
    }
  }

  lemma OfferedHistory(capacity: int, na: NodeActor, d: Message)
    ensures Offered(capacity, na, d).proc.history == na.proc.history
  {
  }

  lemma OtherLeads(law: Law, env: Env, n: Node, s: ShardId, x: Offset, d: Message) returns (k: Node)
    requires UsableConfig(env.config) && Passed(env, n, s, x) && ShardOf(env, d.receiver) == s
    requires IsNext(env, n.partitions[s].(polled := d.offset + 1), s, d) && !Full(n.shards[s].inflight, d.offset)
    ensures Leads(law, env, n, k) && AfterOther(n, s, d, k)
  {
    var p := n.partitions[s];
    var polled := Polled(n, s, if p.polled <= d.offset then d.offset + 1 else p.polled);
    LeadsToItself(law, env, n);
    PollLeads(law, env, n, s, polled);
    k := Dispatcher(env, Advanced(polled, s, d.offset + 1), d, CALM);
    OtherDispatched(env, n, s, d, Advanced(polled, s, d.offset + 1), k);
    CalmDispatchLeads(law, env, n, s, d, polled, k);
  }

  lemma StillStored(env: Env, n: Node, s: ShardId, d: Message, k: Node)
    requires s in n.shards && StoredOk(env, n) && AfterOther(n, s, d, k)
    ensures StoredOk(env, k)
  {
  }

  lemma WindowStaysOk(env: Env, s: ShardId, w: Window, x: Offset, a: ActorId, d: Message)
    requires FixedReceivers(env) && WindowOk(env, s, w) && LogAt(env, s, d.offset) == Some(d)
    requires NextToGo(w, x, a) && x < d.offset
    ensures var w' := Add(w, d.offset, d.receiver); WindowOk(env, s, w') && NextToGo(w', x, a) && w'.minOffset == w.minOffset
  {
    if d.offset in w.offsetActor { assert Sent(env, w.offsetActor[d.offset], d.offset); }
    AddKeepsValid(w, d.offset, d.receiver);
  }

  lemma StillPassed(env: Env, n: Node, s: ShardId, x: Offset, d: Message, k: Node)
    requires FixedReceivers(env) && Passed(env, n, s, x) && LogAt(env, s, d.offset) == Some(d)
    requires n.partitions[s].position <= d.offset && d.receiver != ReceiverAt(env, s, x) && AfterOther(n, s, d, k)
    ensures Passed(env, k, s, x)
  {
    WindowStaysOk(env, s, n.shards[s].inflight, x, ReceiverAt(env, s, x), d);
  }

  lemma StillGoesOn(env: Env, n: Node, s: ShardId, x: Offset, d: Message, m: Message, k: Node)
    requires Passed(env, n, s, x) && GoesOn(env, n, s, x, m)
    requires n.partitions[s].position <= d.offset < m.offset && d.receiver != ReceiverAt(env, s, x) && AfterOther(n, s, d, k)
    ensures GoesOn(env, k, s, x, m)
  {
    assert ListOf(k.shards[s].inflight, m.receiver) == ListOf(n.shards[s].inflight, m.receiver);
  }

  lemma StillUndelivered(env: Env, n: Node, s: ShardId, x: Offset, d: Message, k: Node)
    requires Passed(env, n, s, x) && d.receiver != ReceiverAt(env, s, x) && AfterOther(n, s, d, k) && !Delivered(env, n, s, x)
    ensures !Delivered(env, k, s, x)
  {
    var a := ReceiverAt(env, s, x);
    assert ReachedOf(k, a) == ReachedOf(n, a);
  }

  /**
    An undelivered offset that was passed is lost: with no call failing and no seek at all,
    steps lead to a commit past it, for any node, any shard, any actors and any log that goes
    on with a message for the same actor.
  */
  lemma {:induction false} PassedIsLost(law: Law, env: Env, n: Node, s: ShardId, x: Offset, m: Message) returns (n': Node)
    requires FixedReceivers(env) && StoredOk(env, n) && Passed(env, n, s, x) && GoesOn(env, n, s, x, m)
    requires !Delivered(env, n, s, x)
    ensures Leads(law, env, n, n') && Lost(env, n', s, x)
    decreases m.offset - n.partitions[s].position
  {
    var d := NextLogged(env, s, n.partitions[s].position, m);
    if d.offset == m.offset {
      n' := NextIsLost(law, env, n, s, x, m);
    } else {
      assert InLog(env, s, d.offset);
      NotFull(n.shards[s].inflight, d.offset);
      var k := OtherLeads(law, env, n, s, x, d);
      StillStored(env, n, s, d, k);
      StillPassed(env, n, s, x, d, k);
      StillGoesOn(env, n, s, x, d, m, k);
      StillUndelivered(env, n, s, x, d, k);
      n' := PassedIsLost(law, env, k, s, x, m);
      LeadsTwice(law, env, n, k, n');
    }
  }
}
