/**
  Offset 0 is the one exception to at-least-once delivery: an actor that has handled nothing
  claims it (core/actor.go:56), so its message can be committed unhandled.
*/
module OffsetZero {
  import opened Types
  import opened InflightWindow
  import opened ActorModel
  import opened NodeModel
  import opened NodeRuns
  import opened NodeIndex
  import opened Delivery
  import opened Coverage
  import opened AtLeastOnce
  import opened Paths
  import opened OneShard

  /** As `FixedReceivers`, with offset 0 allowed. */
  ghost predicate FixedFromZero(env: Env) {
    && UsableConfig(env.config) && 0 < env.windowLimit
    && forall s, x {:trigger LogAt(env, s, x)} :: LogAt(env, s, x).Some? ==>
         var m := LogAt(env, s, x).value;
         m.offset == x && ShardOf(env, m.receiver) == s && StartOf(env, s) <= x && 0 <= x
  }

  ghost predicate NothingAtZero(env: Env) {
    forall s {:trigger InLog(env, s, 0)} :: !InLog(env, s, 0)
  }

  /** At-least-once delivery in every careful run over these logs. */
  ghost predicate AlwaysHandled(env: Env) {
    AlwaysHandledAfter(env, Initial())
  }

  // ---------- a run that loses the message at offset 0 ----------

  ghost predicate MessageAtZero(env: Env, m: Message) {
    && FixedFromZero(env) && m.offset == 0 && LogAt(env, ShardOf(env, m.receiver), 0) == Some(m)
  }

  function Holding(m: Message, signals: seq<Signal>, snapshot: Option<ActorSnapshot>): NodeActor {
    NodeActor(false, snapshot, None, None, NewProc(m.receiver, NO_HISTORY).(mailbox := [Network(m)], signals := signals))
  }

  function Blank(a: ActorId): ActorSnapshot {
    ActorSnapshot(a, 0, [], NO_HISTORY)
  }

  function Window0(env: Env, a: ActorId): Window {
    Window(env.windowLimit, 0, 0, map[0 := a], map[a := [0]])
  }

  function Dispatched0(env: Env, m: Message, na: NodeActor): Scene {
    Scene(ShardOf(env, m.receiver), map[m.receiver := na], Window0(env, m.receiver), None, Partition(1, 1, false, []), {}, map[])
  }

  function Saved0(env: Env, m: Message): Scene {
    Scene(ShardOf(env, m.receiver), map[m.receiver := Holding(m, [Signal.Idle], None)], Empty(env.windowLimit), None,
          Partition(1, 1, false, [1]), {Blank(m.receiver)}, map[])
  }

  lemma NextIsZero(env: Env, m: Message, p: Partition)
    requires MessageAtZero(env, m) && p.position <= 0 < p.polled
    ensures IsNext(env, p, ShardOf(env, m.receiver), m)
  {
  }

  lemma AddedZero(env: Env, a: ActorId)
    ensures Add(Empty(env.windowLimit), 0, a) == Window0(env, a)
  {
    assert [] + [0] == [0];
  }

  lemma ReleasedZero(env: Env, a: ActorId)
    ensures AfterComplete(Window0(env, a), map[a := 0]) == Completed(Empty(env.windowLimit), 1, true)
  {
    var w := Window0(env, a);
    assert ListOf(w, a) == [0] && Lead([0], 0) == 1;
    assert Released(w, map[a := 0], 0);
  }

  lemma DispatchesZero(env: Env, m: Message)
    requires MessageAtZero(env, m)
    ensures Reachable(CarefulSteps, env, Show(Dispatched0(env, m, Holding(m, [], None))))
  {
    var a, s := m.receiver, ShardOf(env, m.receiver);
    var v := Scene(s, map[], Empty(env.windowLimit), None, Partition(StartOf(env, s), StartOf(env, s), false, []), {}, map[]);
    Begins(CarefulSteps, env, s, v);
    Polls(CarefulSteps, env, v, 1);
    var polled := v.(p := v.p.(polled := 1));
    NextIsZero(env, m, polled.p);
    AddedZero(env, a);
    Replaced(a, Holding(m, [], None), Holding(m, [], None));
    Dispatches(CarefulSteps, env, polled, m, Holding(m, [], None));
  }

  lemma TellsZero(env: Env, m: Message)
    requires MessageAtZero(env, m)
    ensures Reachable(CarefulSteps, env, Show(Dispatched0(env, m, Holding(m, [Signal.Idle], Some(Blank(m.receiver))))))
  {
    var a, s := m.receiver, Blank(m.receiver);
    DispatchesZero(env, m);
    var x, y, z := Holding(m, [], None), Holding(m, [Snapshot(s), Signal.Idle], None), Holding(m, [Signal.Idle], Some(s));
    assert [] + [Snapshot(s)] + [Signal.Idle] == [Snapshot(s)] + [Signal.Idle] == [Snapshot(s), Signal.Idle];
    Acts(CarefulSteps, env, Dispatched0(env, m, x), a, Idles, y);
    Replaced(a, x, y);
    TakesSnapshot(CarefulSteps, env, Dispatched0(env, m, y), a, s, [Signal.Idle], z);
    Replaced(a, y, z);
  }

  lemma SavesZero(env: Env, m: Message)
    requires MessageAtZero(env, m)
    ensures Reachable(CarefulSteps, env, Show(Saved0(env, m)))
  {
    var a, s, z := m.receiver, Blank(m.receiver), Holding(m, [Signal.Idle], Some(Blank(m.receiver)));
    TellsZero(env, m);
    ReleasedZero(env, a);
    Ticks(CarefulSteps, env, Dispatched0(env, m, z), a, s, Empty(env.windowLimit), Partition(1, 1, false, [1]));
    Replaced(a, z, Holding(m, [Signal.Idle], None));
    assert {} + {s} == {s} && [] + [1] == [1];
  }

  lemma ZeroIsLost(env: Env, m: Message)
    requires MessageAtZero(env, m)
    ensures !AlwaysHandled(env)
  {
    SavesZero(env, m);
    var n, s := Show(Saved0(env, m)), ShardOf(env, m.receiver);
    assert CommitsPast(env, n, s, 0, 0);
    assert !HandledAndSaved(env, n, s, 0);
  }

  lemma PositiveIsFixed(env: Env)
    requires FixedFromZero(env) && NothingAtZero(env)
    ensures FixedReceivers(env)
  {
    forall s, x | LogAt(env, s, x).Some? ensures 0 < x {
      assert InLog(env, s, 0) <==> LogAt(env, s, 0).Some?;
    }
  }

  /**
    Delivery is at least once in all careful runs exactly when no message has offset 0.
  */
  lemma AtLeastOnceUnlessZero(env: Env)
    requires FixedFromZero(env)
    ensures AlwaysHandled(env) <==> NothingAtZero(env)
  {
    if NothingAtZero(env) {
      PositiveIsFixed(env);
      InitialInv(env);
      KeptIsAlwaysHandled(env, Initial());
    } else {
      var s :| InLog(env, s, 0);
      ZeroIsLost(env, LogAt(env, s, 0).value);
    }
  }
}
