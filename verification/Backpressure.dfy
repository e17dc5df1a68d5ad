/**
  Ordinary backpressure with messages out of turn.  A mailbox is full, the actor is paused, and
  when it is ready again the node seeks back to the message that found the mailbox full; a
  later one that was polled before is still in the node's own mailbox, overtakes it, and
  `Losses.MailedIsLost` does the rest.
*/
module Backpressure {
  import opened Types
  import opened InflightWindow
  import opened DedupFilter
  import opened ActorModel
  import opened Timers
  import opened NodeModel
  import opened NodeRuns
  import opened Delivery
  import opened Coverage
  import opened AtLeastOnce
  import opened Marks
  import opened Paths
  import opened Losses
  import opened Safety
  import opened OneShard
  import opened ForwardSeek
  import opened Wakeups

  // ---------- the log and the window ----------

  /** The first messages of a partition are for one actor, two more than its mailbox has room
      for; the last one is new and of a known command. */
  ghost predicate Burst(env: Env, a: ActorId, log: seq<Message>) {
    && FixedReceivers(env) && |log| == env.config.capacity + 2 && |log| <= env.windowLimit
    && (forall i :: 0 <= i < |log| ==> IsNth(env, a, i, log[i]))
    && log[|log| - 1].command in env.config.handlers
    && forall i :: 0 <= i < |log| - 1 ==> log[i].id != log[|log| - 1].id
  }

  predicate IsNth(env: Env, a: ActorId, i: nat, m: Message) {
    m.offset == First(env, a) + i && m.receiver == a && LogAt(env, ShardOf(env, a), m.offset) == Some(m)
  }

  function First(env: Env, a: ActorId): Offset {
    StartOf(env, ShardOf(env, a))
  }

  /** The window after `k` of them. */
  function Flying(limit: int, log: seq<Message>, k: nat): Window
    requires k <= |log|
  {
    if k == 0 then Empty(limit) else Add(Flying(limit, log, k - 1), log[k - 1].offset, log[k - 1].receiver)
  }

  ghost predicate HoldsFirst(env: Env, a: ActorId, k: nat, w: Window) {
    && w.windowLimit == env.windowLimit && WindowOk(env, ShardOf(env, a), w)
    && w.minOffset == (if k == 0 then -1 else First(env, a)) && w.maxOffset == (if k == 0 then -1 else First(env, a) + k - 1)
    && (forall o :: o in w.offsetActor <==> First(env, a) <= o < First(env, a) + k)
    && forall o :: o in w.offsetActor ==> w.offsetActor[o] == a
  }

  lemma EmptyHolds(env: Env, a: ActorId)
    ensures HoldsFirst(env, a, 0, Empty(env.windowLimit))
  {
  }

  lemma AddHolds(env: Env, a: ActorId, k: nat, w: Window, m: Message)
    requires FixedReceivers(env) && IsNth(env, a, k, m) && HoldsFirst(env, a, k, w)
    ensures HoldsFirst(env, a, k + 1, Add(w, m.offset, a))
  {
    AddKeepsValid(w, m.offset, a);
  }

  lemma {:induction false} FlyingHolds(env: Env, a: ActorId, log: seq<Message>, k: nat)
    requires Burst(env, a, log) && k <= |log|
    ensures HoldsFirst(env, a, k, Flying(env.windowLimit, log, k))
  {
    if k == 0 {
      EmptyHolds(env, a);
    } else {
      FlyingHolds(env, a, log, k - 1);
      assert IsNth(env, a, k - 1, log[k - 1]);
      AddHolds(env, a, k - 1, Flying(env.windowLimit, log, k - 1), log[k - 1]);
    }
  }

  lemma NeverFull(env: Env, a: ActorId, log: seq<Message>, k: nat)
    requires Burst(env, a, log) && k < |log|
    ensures !Full(Flying(env.windowLimit, log, k), log[k].offset)
  {
    FlyingHolds(env, a, log, k);
    assert IsNth(env, a, k, log[k]);
  }

  // ---------- the actor ----------

  function Mails(log: seq<Message>): (r: seq<Mail>)
    ensures |r| == |log| && forall i :: 0 <= i < |log| ==> r[i] == Network(log[i])
  {
    seq(|log|, i requires 0 <= i < |log| => Network(log[i]))
  }

  /** With `capacity` messages in the mailbox at first, after `k` of them. */
  predicate FullAfter(capacity: int, k: nat) {
    0 < k && capacity - k > capacity / 2
  }

  function SignalsAfter(capacity: int, k: nat): seq<Signal> {
    if 0 < k && capacity - k <= capacity / 2 then [Ready] else []
  }

  /** `a` with `k` messages handled and those up to `j` in its mailbox. */
  function AtWork(c: Config, a: ActorId, log: seq<Message>, k: nat, j: nat): Proc
    requires UsableConfig(c) && k <= j <= |log|
  {
    HandledAll(c, NewProc(a, NO_HISTORY), log[..k])
      .(mailbox := Mails(log[k..j]), mailFull := FullAfter(c.capacity, k), signals := SignalsAfter(c.capacity, k))
  }

  /** What handling does to the rest of the actor. */
  lemma {:induction false} HandledAllKeeps(c: Config, p: Proc, messages: seq<Message>)
    requires UsableConfig(c)
    ensures var r := HandledAll(c, p, messages); r.id == p.id && r.phase == p.phase && r.timer == p.timer
    ensures forall o :: o in HandledAll(c, p, messages).history.handled ==>
              o in p.history.handled || exists i :: 0 <= i < |messages| && messages[i].offset == o
    ensures forall id :: id in HandledAll(c, p, messages).dedup ==>
              id in p.dedup || exists i :: 0 <= i < |messages| && messages[i].id == id
  {
    if messages != [] {
      var before, m := messages[..|messages| - 1], messages[|messages| - 1];
      HandledAllKeeps(c, p, before);
    }
  }

  lemma HandlesNext(c: Config, a: ActorId, log: seq<Message>, k: nat)
    requires UsableConfig(c) && k < c.capacity <= |log|
    ensures Handled(c, AtWork(c, a, log, k, c.capacity)) == AtWork(c, a, log, k + 1, c.capacity)
  {
    var p := AtWork(c, a, log, k, c.capacity);
    assert log[..k + 1][..k] == log[..k];
    assert p.mailbox[1..] == Mails(log[k + 1..c.capacity]);
    assert [] + [Ready] == [Ready];
  }

  function Instance(pause: Option<Offset>, p: Proc): NodeActor {
    NodeActor(false, None, pause, None, p)
  }

  // ---------- the run ----------

  /** The partition is read up to message `j` of the log and polled to the end of it. */
  function ReadTo(env: Env, a: ActorId, log: seq<Message>, j: nat): Partition {
    Partition(First(env, a) + j, First(env, a) + |log|, false, [])
  }

  function Shown(env: Env, a: ActorId, log: seq<Message>, j: nat, na: NodeActor, p: Partition): Scene
    requires j <= |log|
  {
    Scene(ShardOf(env, a), map[a := na], Flying(env.windowLimit, log, j), None, p, {}, map[])
  }

  lemma NextComes(env: Env, a: ActorId, log: seq<Message>, k: nat)
    requires Burst(env, a, log) && k < |log|
    ensures IsNext(env, ReadTo(env, a, log, k), ShardOf(env, a), log[k])
    ensures log[k].receiver == a && log[k].offset == First(env, a) + k
  {
    assert IsNth(env, a, k, log[k]);
  }

  lemma Starting(c: Config, a: ActorId, log: seq<Message>)
    requires UsableConfig(c) && 0 < |log|
    ensures AtWork(c, a, log, 0, 1) == NewProc(a, NO_HISTORY).(mailbox := [Network(log[0])])
  {
    assert Mails(log[0..1]) == [Network(log[0])];
  }

  lemma ComesFirst(law: Law, env: Env, a: ActorId, log: seq<Message>)
    requires Burst(env, a, log)
    ensures Reachable(law, env, Show(Shown(env, a, log, 1, Instance(None, AtWork(env.config, a, log, 0, 1)), ReadTo(env, a, log, 1))))
  {
    var s, f := ShardOf(env, a), First(env, a);
    var v := Scene(s, map[], Empty(env.windowLimit), None, Partition(f, f, false, []), {}, map[]);
    Begins(law, env, s, v);
    Polls(law, env, v, f + |log|);
    NextComes(env, a, log, 0);
    NeverFull(env, a, log, 0);
    Starting(env.config, a, log);
    Dispatches(law, env, v.(p := ReadTo(env, a, log, 0)), log[0], Instance(None, AtWork(env.config, a, log, 0, 1)));
  }

  /** The next message is offered to the actor. */
  lemma ComesNext(law: Law, env: Env, a: ActorId, log: seq<Message>, k: nat, x: NodeActor, y: NodeActor)
    requires Burst(env, a, log) && k <= env.config.capacity && y == Offered(env.config.capacity, x, log[k])
    requires Reachable(law, env, Show(Shown(env, a, log, k, x, ReadTo(env, a, log, k))))
    ensures Reachable(law, env, Show(Shown(env, a, log, k + 1, y, ReadTo(env, a, log, k + 1))))
  {
    var v := Shown(env, a, log, k, x, ReadTo(env, a, log, k));
    NextComes(env, a, log, k);
    NeverFull(env, a, log, k);
    assert Given(env, v, log[k]) == y;
    NextShown(env, a, log, k, x, y);
    Dispatches(law, env, v, log[k], y);
  }

  lemma NextShown(env: Env, a: ActorId, log: seq<Message>, k: nat, x: NodeActor, y: NodeActor)
    requires k < |log| && log[k].receiver == a && log[k].offset == First(env, a) + k
    ensures Passing(WithGiven(Shown(env, a, log, k, x, ReadTo(env, a, log, k)), log[k], y), log[k])
         == Shown(env, a, log, k + 1, y, ReadTo(env, a, log, k + 1))
  {
    Replaced(a, x, y);
  }

  lemma FindsRoom(c: Config, a: ActorId, log: seq<Message>, k: nat)
    requires UsableConfig(c) && k < c.capacity < |log|
    ensures Offered(c.capacity, Instance(None, AtWork(c, a, log, 0, k)), log[k]) == Instance(None, AtWork(c, a, log, 0, k + 1))
  {
    assert Mails(log[0..k]) + [Network(log[k])] == Mails(log[0..k + 1]);
  }

  lemma {:induction false} Fills(law: Law, env: Env, a: ActorId, log: seq<Message>, k: nat)
    requires Burst(env, a, log) && 0 < k <= env.config.capacity
    ensures Reachable(law, env, Show(Shown(env, a, log, k, Instance(None, AtWork(env.config, a, log, 0, k)), ReadTo(env, a, log, k))))
  {
    if k == 1 {
      ComesFirst(law, env, a, log);
    } else {
      Fills(law, env, a, log, k - 1);
      FindsRoom(env.config, a, log, k - 1);
      ComesNext(law, env, a, log, k - 1, Instance(None, AtWork(env.config, a, log, 0, k - 1)), Instance(None, AtWork(env.config, a, log, 0, k)));
    }
  }

  /** The paused actor, at the message that found no room, whatever it has in its mailbox. */
  ghost function PausedWith(env: Env, a: ActorId, log: seq<Message>, p: Proc): Scene
    requires Burst(env, a, log)
  {
    var c := env.config.capacity;
    Shown(env, a, log, c + 1, Instance(Some(log[c].offset), p), ReadTo(env, a, log, c + 1))
  }

  /** The actor has handled `k` of the messages that filled its mailbox. */
  ghost function Paused(env: Env, a: ActorId, log: seq<Message>, k: nat): Scene
    requires Burst(env, a, log) && k <= env.config.capacity
  {
    PausedWith(env, a, log, AtWork(env.config, a, log, k, env.config.capacity))
  }

  lemma FindsNone(c: Config, a: ActorId, log: seq<Message>)
    requires UsableConfig(c) && c.capacity < |log|
    ensures var x := Instance(None, AtWork(c, a, log, 0, c.capacity));
            Offered(c.capacity, x, log[c.capacity]) == x.(pause := Some(log[c.capacity].offset))
  {
  }

  lemma Pauses(law: Law, env: Env, a: ActorId, log: seq<Message>)
    requires Burst(env, a, log)
    ensures Reachable(law, env, Show(Paused(env, a, log, 0)))
  {
    var c := env.config.capacity;
    var p := AtWork(env.config, a, log, 0, c);
    Fills(law, env, a, log, c);
    FindsNone(env.config, a, log);
    ComesNext(law, env, a, log, c, Instance(None, p), Instance(Some(log[c].offset), p));
  }

  lemma StaysRunning(c: Config, a: ActorId, log: seq<Message>, k: nat, j: nat)
    requires UsableConfig(c) && k <= j <= |log|
    ensures AtWork(c, a, log, k, j).phase == Running
  {
    HandledAllKeeps(c, NewProc(a, NO_HISTORY), log[..k]);
  }

  lemma {:induction false} Empties(law: Law, env: Env, a: ActorId, log: seq<Message>, k: nat)
    requires Burst(env, a, log) && k <= env.config.capacity
    ensures Reachable(law, env, Show(Paused(env, a, log, k)))
  {
    if k == 0 {
      Pauses(law, env, a, log);
    } else {
      Empties(law, env, a, log, k - 1);
      HandlesOneMore(law, env, a, log, k - 1);
    }
  }

  lemma StepsOn(law: Law, env: Env, a: ActorId, log: seq<Message>, p: Proc, step: ProcStep, p': Proc)
    requires Burst(env, a, log) && Reachable(law, env, Show(PausedWith(env, a, log, p)))
    requires CanStep(env.config, Instance(None, p), step) && p' == Stepped(env.config, p, step) && !step.TakesStop?
    ensures Reachable(law, env, Show(PausedWith(env, a, log, p')))
  {
    var v, v' := PausedWith(env, a, log, p), PausedWith(env, a, log, p');
    Replaced(a, v.actors[a], v'.actors[a]);
    Acts(law, env, v, a, step, v'.actors[a]);
  }

  lemma HandlesOneMore(law: Law, env: Env, a: ActorId, log: seq<Message>, k: nat)
    requires Burst(env, a, log) && k < env.config.capacity && Reachable(law, env, Show(Paused(env, a, log, k)))
    ensures Reachable(law, env, Show(Paused(env, a, log, k + 1)))
  {
    var c := env.config.capacity;
    HandlesNext(env.config, a, log, k);
    StaysRunning(env.config, a, log, k, c);
    StepsOn(law, env, a, log, AtWork(env.config, a, log, k, c), Handles, AtWork(env.config, a, log, k + 1, c));
  }

  /** Ready again, and read back to the message it is ready for. */
  ghost function Rewound(env: Env, a: ActorId, log: seq<Message>): Scene
    requires Burst(env, a, log)
  {
    var c := env.config.capacity;
    Shown(env, a, log, c + 1, Instance(None, AtWork(env.config, a, log, c, c).(signals := [])),
          Partition(log[c].offset, log[c].offset, false, []))
  }

  lemma Rewinds(law: Law, env: Env, a: ActorId, log: seq<Message>)
    requires Burst(env, a, log)
    ensures Reachable(law, env, Show(Rewound(env, a, log)))
  {
    var c := env.config.capacity;
    Empties(law, env, a, log, c);
    var v, v' := Paused(env, a, log, c), Rewound(env, a, log);
    NextComes(env, a, log, c);
    Replaced(a, v.actors[a], v'.actors[a]);
    assert [Ready] + [] == [Ready];
    ReadyGoesBack(law, env, v, a, log[c].offset, [], v'.actors[a]);
  }

  // ---------- what the last message does ----------

  lemma OnlyFirstHandled(env: Env, a: ActorId, log: seq<Message>)
    requires Burst(env, a, log)
    ensures var c := env.config.capacity;
            var p := AtWork(env.config, a, log, c, c);
            && p.mailbox == [] && p.phase == Running && !p.mailFull && log[c + 1].id !in p.dedup
            && forall i :: c <= i < |log| ==> log[i].offset !in p.history.handled
  {
    var c := env.config.capacity;
    HandledAllKeeps(env.config, NewProc(a, NO_HISTORY), log[..c]);
    forall i, j | 0 <= i < c <= j < |log| ensures log[i].offset != log[j].offset {
      assert IsNth(env, a, i, log[i]) && IsNth(env, a, j, log[j]);
    }
  }

  lemma RewoundIsExposed(env: Env, a: ActorId, log: seq<Message>)
    requires Burst(env, a, log)
    ensures var c, n, s := env.config.capacity, Show(Rewound(env, a, log)), ShardOf(env, a);
            Exposed(env, n, s, log[c].offset) && !Delivered(env, n, s, log[c].offset) && ReceiverAt(env, s, log[c].offset) == a
  {
    var c := env.config.capacity;
    assert IsNth(env, a, c, log[c]);
    FlyingHolds(env, a, log, c + 1);
    OnlyFirstHandled(env, a, log);
  }

  lemma LastOvertakes(env: Env, a: ActorId, log: seq<Message>)
    requires Burst(env, a, log)
    ensures var c, n, s := env.config.capacity, Show(Rewound(env, a, log)), ShardOf(env, a);
            InLog(env, s, log[c].offset) && Overtakes(env, n, s, log[c].offset, log[c + 1])
  {
    var c := env.config.capacity;
    assert IsNth(env, a, c, log[c]) && IsNth(env, a, c + 1, log[c + 1]);
    FlyingHolds(env, a, log, c + 1);
    NeverFull(env, a, log, c + 1);
    OnlyFirstHandled(env, a, log);
  }

  /** The last message, which was polled before the seek, has reached the dispatcher. */
  ghost function Overtaken(env: Env, a: ActorId, log: seq<Message>): Node
    requires Burst(env, a, log)
  {
    Dispatcher(env, Show(Rewound(env, a, log)), log[env.config.capacity + 1], CALM)
  }

  lemma OvertakenStep(env: Env, a: ActorId, log: seq<Message>)
    requires Burst(env, a, log)
    ensures IsStep(env, Show(Rewound(env, a, log)), Dispatch(log[env.config.capacity + 1], CALM), Overtaken(env, a, log))
  {
    assert IsNth(env, a, env.config.capacity + 1, log[env.config.capacity + 1]);
  }

  /**
    Whatever the capacity of mailboxes, and with every call succeeding, no refused pause and
    every seek going back, messages for one actor that fill its mailbox are enough: a run
    commits past the one that paused it, which no handler has seen.
  */
  lemma BackpressureLoses(env: Env, a: ActorId, log: seq<Message>) returns (n: Node)
    requires Burst(env, a, log)
    ensures Reachable(AnyOrder, env, n) && Lost(env, n, ShardOf(env, a), log[env.config.capacity].offset)
  {
    var s, x, m := ShardOf(env, a), log[env.config.capacity].offset, log[env.config.capacity + 1];
    var before, after := Show(Rewound(env, a, log)), Overtaken(env, a, log);
    Rewinds(AnyOrder, env, a, log);
    RewoundIsExposed(env, a, log);
    LastOvertakes(env, a, log);
    OvertakenStep(env, a, log);
    LeadsOn(AnyOrder, env, Initial(), before, Dispatch(m, CALM), after);
    Dispatched(env, before, s, m, after);
    n := MailedIsLost(AnyOrder, env, before, after, s, x, m);
    LeadsTwice(AnyOrder, env, Initial(), after, n);
  }

  /** All steps up to that message are careful; after it, careful steps are not enough. */
  lemma OneStaleMessageIsEnough(env: Env, a: ActorId, log: seq<Message>)
    requires Burst(env, a, log)
    ensures var n := Show(Rewound(env, a, log));
            && Reachable(CarefulSteps, env, n) && AlwaysHandledAfter(env, n)
            && IsStep(env, n, Dispatch(log[env.config.capacity + 1], CALM), Overtaken(env, a, log))
            && !AlwaysHandledAfter(env, Overtaken(env, a, log))
  {
    var n := Show(Rewound(env, a, log));
    Rewinds(CarefulSteps, env, a, log);
    ReachableKept(env, n);
    KeptIsAlwaysHandled(env, n);
    RewoundIsExposed(env, a, log);
    LastOvertakes(env, a, log);
    OvertakenStep(env, a, log);
    OvertakenIsLost(env, n, ShardOf(env, a), log[env.config.capacity].offset, log[env.config.capacity + 1], Overtaken(env, a, log));
  }

  // ---------- with the constants of the code ----------

  function Nth(i: nat): Message {
    For(A, i + 1, seq(i, _ => 'm'))
  }

  function BurstLog(): seq<Message> {
    seq(ACTOR_CHANNEL_CAP + 2, i requires 0 <= i => Nth(i))
  }

  /** The messages of the burst by offset. */
  function ByOffset(n: nat): (r: map<Offset, Message>)
    ensures forall x :: x in r <==> 1 <= x <= n
    ensures forall x :: x in r ==> r[x] == Nth(x - 1)
  {
    if n == 0 then map[] else ByOffset(n - 1)[n := Nth(n - 1)]
  }

  function BurstEnv(): Env {
    Env(map[], Config(ACTOR_CHANNEL_CAP, ACTOR_DEDUP_CAP, {RUN}), INFLIGHT_WINDOW_LIMIT,
        map[0 := 1], map[0 := ByOffset(ACTOR_CHANNEL_CAP + 2)])
  }

  lemma BurstInOrder(i: nat, m: Message)
    requires i < ACTOR_CHANNEL_CAP + 2 && m == BurstLog()[i]
    ensures IsNth(BurstEnv(), A, i, m) && |m.id.text| == i && m.command == RUN
  {
    assert m == Nth(i);
  }

  /** A thousand messages for one actor are such a burst. */
  lemma ItIsABurst()
    ensures Burst(BurstEnv(), A, BurstLog())
    ensures BurstEnv().config == Ensured(Config(0, 0, {RUN})) && BurstEnv().windowLimit == INFLIGHT_WINDOW_LIMIT
  {
    forall i | 0 <= i < |BurstLog()|
      ensures IsNth(BurstEnv(), A, i, BurstLog()[i]) && |BurstLog()[i].id.text| == i && BurstLog()[i].command == RUN
    {
      BurstInOrder(i, BurstLog()[i]);
    }
  }

  // ---------- a ready signal kept away ----------

  lemma PressedWhenPaused(env: Env, a: ActorId, log: seq<Message>)
    requires Burst(env, a, log) && 5 <= env.config.capacity
    ensures Pressed(env.config, AtWork(env.config, a, log, 1, env.config.capacity))
  {
    StaysRunning(env.config, a, log, 1, env.config.capacity);
  }

  lemma RoundsOn(law: Law, env: Env, a: ActorId, log: seq<Message>, p: Proc, key: TimerKey, command: Command, now: int, p': Proc)
    requires Burst(env, a, log) && Reachable(law, env, Show(PausedWith(env, a, log, p)))
    requires IsRound(env.config, p, key, command, now, p')
    ensures Reachable(law, env, Show(PausedWith(env, a, log, p')))
  {
    var handled := Handled(env.config, p);
    var added := TimerAdded(handled, key, command, now);
    StepsOn(law, env, a, log, p, Handles, handled);
    StepsOn(law, env, a, log, handled, AddsTimer(key, command, now), added);
    StepsOn(law, env, a, log, added, Triggers(now), p');
  }

  /** A run reaches the paused actor with `p`, well above half of its mailbox and not ready. */
  ghost predicate KeptAway(law: Law, env: Env, a: ActorId, log: seq<Message>, p: Proc) {
    Burst(env, a, log) && Pressed(env.config, p) && Reachable(law, env, Show(PausedWith(env, a, log, p)))
  }

  ghost predicate AllKeptAway(law: Law, env: Env, a: ActorId, log: seq<Message>, rounds: seq<Proc>) {
    forall i :: 0 <= i < |rounds| ==> KeptAway(law, env, a, log, rounds[i])
  }

  ghost predicate AreRounds(c: Config, key: TimerKey, command: Command, now: int, rounds: seq<Proc>) {
    UsableConfig(c) && forall i :: 0 <= i < |rounds| - 1 ==> IsRound(c, rounds[i], key, command, now, rounds[i + 1])
  }

  lemma FirstKeptAway(law: Law, env: Env, a: ActorId, log: seq<Message>, key: TimerKey, command: Command, now: int)
      returns (rounds: seq<Proc>)
    requires Burst(env, a, log) && 5 <= env.config.capacity
    ensures |rounds| == 1 && AllKeptAway(law, env, a, log, rounds) && AreRounds(env.config, key, command, now, rounds)
  {
    var p := AtWork(env.config, a, log, 1, env.config.capacity);
    PressedWhenPaused(env, a, log);
    Empties(law, env, a, log, 1);
    rounds := [p];
    assert KeptAway(law, env, a, log, p);
  }

  lemma NextKeptAway(law: Law, env: Env, a: ActorId, log: seq<Message>, p: Proc, key: TimerKey, command: Command, now: int)
      returns (p': Proc)
    requires UsableConfig(env.config) && KeptAway(law, env, a, log, p)
    ensures IsRound(env.config, p, key, command, now, p') && KeptAway(law, env, a, log, p')
  {
    p' := OneRound(env.config, p, key, command, now);
    RoundsOn(law, env, a, log, p, key, command, now, p');
  }

  /**
    An actor that is paused and whose handler adds a timer that is due at once for each message
    stays paused for as long as one likes: with a mailbox for five messages or more there are
    runs with any number of rounds of handling, adding and triggering, and without a ready
    signal.
  */
  lemma {:induction false} ReadyCanBeKeptAway(law: Law, env: Env, a: ActorId, log: seq<Message>,
                                              key: TimerKey, command: Command, now: int, n: nat)
      returns (rounds: seq<Proc>)
    requires Burst(env, a, log) && 5 <= env.config.capacity
    ensures |rounds| == n + 1 && AllKeptAway(law, env, a, log, rounds) && AreRounds(env.config, key, command, now, rounds)
  {
    if n == 0 {
      rounds := FirstKeptAway(law, env, a, log, key, command, now);
    } else {
      var before := ReadyCanBeKeptAway(law, env, a, log, key, command, now, n - 1);
      rounds := OneMoreRound(law, env, a, log, key, command, now, before);
    }
  }

  lemma OneMoreRound(law: Law, env: Env, a: ActorId, log: seq<Message>, key: TimerKey, command: Command, now: int, before: seq<Proc>)
      returns (rounds: seq<Proc>)
    requires |before| > 0 && AllKeptAway(law, env, a, log, before) && AreRounds(env.config, key, command, now, before)
    ensures |rounds| == |before| + 1 && AllKeptAway(law, env, a, log, rounds) && AreRounds(env.config, key, command, now, rounds)
  {
    var p := before[|before| - 1];
    assert KeptAway(law, env, a, log, p);
    var next := NextKeptAway(law, env, a, log, p, key, command, now);
    rounds := before + [next];
    MoreRounds(env.config, key, command, now, before, next);
  }

  lemma MoreRounds(c: Config, key: TimerKey, command: Command, now: int, rounds: seq<Proc>, next: Proc)
    requires |rounds| > 0 && AreRounds(c, key, command, now, rounds) && IsRound(c, rounds[|rounds| - 1], key, command, now, next)
    ensures AreRounds(c, key, command, now, rounds + [next])
  {
  }
}
