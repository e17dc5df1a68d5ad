/**
  One actor goroutine (core/actor.go): its bounded mailbox, the ready signal that ends a
  pause, the duplicate filter, the timer, and the snapshots it sends to its node.

  `Proc` is its state as a value, with one function per step; class `Actor` is the code.
  `History` is bookkeeping of the model only: which messages `handleNetwork` has been given
  and which ids a handler has run for, in this and earlier instances of the actor.
*/
module ActorModel {
  import opened Types
  import opened Schedule
  import opened QuadHeaps
  import opened Timers
  import opened DedupFilter

  datatype Command = Command(name: string)
  datatype Message = Message(offset: Offset, receiver: ActorId, id: MessageId, command: Command)
  datatype Task = Task(key: TimerKey, command: Command)
  datatype Mail = Network(message: Message) | Timed(task: Task) | Memory

  datatype History = History(handled: set<Offset>, ran: set<MessageId>)

  datatype ActorSnapshot = ActorSnapshot(
    actorId: ActorId, offset: Offset, dedup: seq<MessageId>, history: History)

  datatype Signal = Ready | Idle | Alive | Snapshot(snapshot: ActorSnapshot) | Stopped

  datatype Phase = Running | Stopping | Finished

  datatype Config = Config(capacity: int, dedupLimit: int, handlers: set<Command>)

  const ACTOR_CHANNEL_CAP := 1024
  const ACTOR_DEDUP_CAP := 512

  ghost predicate UsableConfig(c: Config) {
    0 < c.capacity && 0 < c.dedupLimit
  }

  function Ensured(c: Config): (r: Config)
    ensures UsableConfig(r) && r.handlers == c.handlers
    ensures UsableConfig(c) ==> r == c
  {
    c.(capacity := if c.capacity <= 0 then ACTOR_CHANNEL_CAP else c.capacity,
       dedupLimit := if c.dedupLimit <= 0 then ACTOR_DEDUP_CAP else c.dedupLimit)
  }

  datatype Proc = Proc(
    id: ActorId,
    mailbox: seq<Mail>,
    mailFull: bool,
    offset: Offset,
    dedup: seq<MessageId>,
    timer: TimerState<Task>,
    phase: Phase,
    signals: seq<Signal>,
    history: History)

  // ---------- the steps on values ----------

  function NewProc(id: ActorId, history: History): Proc {
    Proc(id, [], false, 0, [], TimerState([], None), Running, [], history)
  }

  function Signalled(p: Proc, s: Signal): Proc {
    p.(signals := p.signals + [s])
  }

  function SnapshotOf(p: Proc): ActorSnapshot {
    ActorSnapshot(p.id, p.offset, p.dedup, p.history)
  }

  /** The length checks at the head of `handle`, after the message has left the mailbox. */
  function LengthChecked(c: Config, p: Proc): Proc {
    var full := p.mailFull || |p.mailbox| >= c.capacity - 1;
    if full && |p.mailbox| <= c.capacity / 2 then Signalled(p, Ready).(mailFull := false)
    else p.(mailFull := full)
  }

  function NetworkHandled(c: Config, p: Proc, m: Message): Proc
    requires UsableConfig(c)
  {
    var seen := p.(history := p.history.(handled := p.history.handled + {m.offset}));
    if m.id in p.dedup || m.command !in c.handlers then seen
    else
      seen.(dedup := Accept(p.dedup, c.dedupLimit, m.id),
            offset := m.offset,
            history := seen.history.(ran := p.history.ran + {m.id}))
  }

  function Handled(c: Config, p: Proc): Proc
    requires UsableConfig(c) && p.mailbox != []
  {
    var checked := LengthChecked(c, p.(mailbox := p.mailbox[1..]));
    match p.mailbox[0]
    case Network(m) => NetworkHandled(c, checked, m)
    case Timed(_) => checked
    case Memory => checked
  }

  function IdleFired(p: Proc): Proc {
    Signalled(Signalled(p, Snapshot(SnapshotOf(p))), Idle)
  }

  function AliveFired(p: Proc): Proc {
    Signalled(p, Signal.Alive)
  }

  function Drained(c: Config, p: Proc): (r: Proc)
    requires UsableConfig(c)
    ensures r.mailbox == []
    decreases |p.mailbox|
  {
    if p.mailbox == [] then p else Drained(c, Handled(c, p))
  }

  /** `NewTimer` of a handler's context. */
  ghost function TimerAdded(p: Proc, key: TimerKey, command: Command, when: int): Proc {
    p.(timer := Added(p.timer, key, Task(key, command), when))
  }

  function Room(c: Config, p: Proc): nat {
    if |p.mailbox| <= c.capacity then c.capacity - |p.mailbox| else 0
  }

  /** The trigger: due items go to the mailbox while it has room. */
  ghost function TriggerFired(c: Config, p: Proc, now: int): Proc {
    p.(mailbox := p.mailbox + Tasks(Schedule.Drain(p.timer.arrivals)[..Moved(p.timer.arrivals, now, Room(c, p))]),
       timer := Triggered(p.timer, now, Room(c, p)))
  }

  /** The messages of the items a trigger moves. */
  function Tasks(items: seq<Item<TimerKey, Task>>): (r: seq<Mail>)
    ensures |r| == |items|
    ensures forall i :: 0 <= i < |items| ==> r[i] == Timed(items[i].value)
  {
    if items == [] then [] else Tasks(items[..|items| - 1]) + [Timed(items[|items| - 1].value)]
  }

  function Finish(p: Proc): Proc {
    Signalled(Signalled(p, Snapshot(SnapshotOf(p))), Signal.Stopped).(phase := Finished)
  }

  // ---------- which messages a handler runs for ----------

  /** A fresh actor's state after network messages in this order, whatever comes between. */
  function HandledAll(c: Config, p: Proc, messages: seq<Message>): Proc
    requires UsableConfig(c)
  {
    if messages == [] then p
    else NetworkHandled(c, HandledAll(c, p, messages[..|messages| - 1]), messages[|messages| - 1])
  }

  /** The ids of those messages a handler ran for, in order: what each step adds to `ran`. */
  ghost function Runs(c: Config, p: Proc, messages: seq<Message>): seq<MessageId>
    requires UsableConfig(c)
  {
    if messages == [] then []
    else
      var before, m := messages[..|messages| - 1], messages[|messages| - 1];
      Runs(c, p, before)
      + if m.id in HandledAll(c, p, before).dedup || m.command !in c.handlers then [] else [m.id]
  }

  function KnownIds(c: Config, messages: seq<Message>): seq<MessageId> {
    if messages == [] then []
    else
      KnownIds(c, messages[..|messages| - 1])
      + if messages[|messages| - 1].command in c.handlers then [messages[|messages| - 1].id] else []
  }

  /** Handlers run for exactly the ids the duplicate filter accepts. */
  lemma {:induction false} RunsAreAccepted(c: Config, p: Proc, messages: seq<Message>)
    requires UsableConfig(c) && p.dedup == []
    ensures HandledAll(c, p, messages).dedup == AcceptAll([], c.dedupLimit, KnownIds(c, messages))
    ensures Runs(c, p, messages) == Accepted(c.dedupLimit, KnownIds(c, messages))
    ensures HandledAll(c, p, messages).history.ran == p.history.ran + (set id | id in Runs(c, p, messages))
  {
    if messages != [] {
      var before, m := messages[..|messages| - 1], messages[|messages| - 1];
      RunsAreAccepted(c, p, before);
      var known := KnownIds(c, before);
      if m.command in c.handlers {
        assert (known + [m.id])[..|known + [m.id]| - 1] == known;
      } else {
        assert known + [] == known;
      }
    }
  }

  /** A handler runs again for an id only after at least as many newer ones as the filter
      remembers. */
  lemma RunsAgainOnlyAfterEviction(c: Config, p: Proc, messages: seq<Message>, i: nat, j: nat)
    requires UsableConfig(c) && p.dedup == [] && i < j < |Runs(c, p, messages)|
    requires Runs(c, p, messages)[i] == Runs(c, p, messages)[j]
    ensures j - i - 1 >= c.dedupLimit
  {
    RunsAreAccepted(c, p, messages);
    AcceptedAgainOnlyAfterEviction(c.dedupLimit, KnownIds(c, messages), i, j);
  }

  /** No message of a known command is lost to the filter: a handler ran under its id. */
  lemma {:induction false} EveryKnownMessageRan(c: Config, p: Proc, messages: seq<Message>, k: nat)
    requires UsableConfig(c) && p.dedup == [] && k < |messages| && messages[k].command in c.handlers
    ensures messages[k].id in Runs(c, p, messages)
  {
    var before, m := messages[..|messages| - 1], messages[|messages| - 1];
    if k < |before| {
      EveryKnownMessageRan(c, p, before, k);
    } else if m.id in HandledAll(c, p, before).dedup {
      RememberedRan(c, p, before, m.id);
    }
  }

  lemma RememberedRan(c: Config, p: Proc, messages: seq<Message>, id: MessageId)
    requires UsableConfig(c) && p.dedup == [] && id in HandledAll(c, p, messages).dedup
    ensures id in Runs(c, p, messages)
  {
    RunsAreAccepted(c, p, messages);
    WindowIsNewestAccepted(c.dedupLimit, KnownIds(c, messages));
    NewestAreOld(Accepted(c.dedupLimit, KnownIds(c, messages)), c.dedupLimit, id);
  }

  lemma NewestAreOld<T>(s: seq<T>, n: nat, x: T)
    requires x in Newest(s, n)
    ensures x in s
  {
  }

  // ---------- what the offset says ----------

  /** A message for which no handler runs leaves the offset, the filter and the runs alone; one
      for which a handler runs adds its id to the filter and sets its own offset. */
  lemma RunSetsOffset(c: Config, p: Proc, messages: seq<Message>, m: Message)
    requires UsableConfig(c)
    ensures var r, r' := HandledAll(c, p, messages), HandledAll(c, p, messages + [m]);
            var runs, runs' := Runs(c, p, messages), Runs(c, p, messages + [m]);
            && r'.history.handled == r.history.handled + {m.offset}
            && (runs' == runs || runs' == runs + [m.id])
            && (runs' == runs ==> r'.offset == r.offset && r'.dedup == r.dedup && r'.history.ran == r.history.ran)
            && (runs' == runs + [m.id] ==>
                  r'.offset == m.offset && r'.dedup == Accept(r.dedup, c.dedupLimit, m.id) && r'.history.ran == r.history.ran + {m.id})
  {
    assert (messages + [m])[..|messages|] == messages;
    assert Runs(c, p, messages) + [] == Runs(c, p, messages);
  }

  /** A handler runs for the message at `k`, and for none after it. */
  ghost predicate RunsLast(c: Config, p: Proc, messages: seq<Message>, k: nat)
    requires UsableConfig(c) && k < |messages|
  {
    && Runs(c, p, messages[..k + 1]) == Runs(c, p, messages[..k]) + [messages[k].id]
    && Runs(c, p, messages) == Runs(c, p, messages[..k + 1])
  }

  /** Over any messages the offset is that of the last one a handler ran for, and without a run
      the one there was: redelivered messages that the filter knows move nothing back. */
  lemma {:induction false} OffsetIsOfLastRun(c: Config, p: Proc, messages: seq<Message>)
    requires UsableConfig(c)
    ensures var r := HandledAll(c, p, messages);
            if Runs(c, p, messages) == [] then r.offset == p.offset && r.dedup == p.dedup && r.history.ran == p.history.ran
            else exists k :: 0 <= k < |messages| && RunsLast(c, p, messages, k) && r.offset == messages[k].offset
  {
    if messages != [] {
      var n := |messages| - 1;
      var before, m := messages[..n], messages[n];
      OffsetIsOfLastRun(c, p, before);
      assert before + [m] == messages;
      RunSetsOffset(c, p, before, m);
      if Runs(c, p, messages) != Runs(c, p, before) {
        assert messages[..n + 1] == messages;
        assert RunsLast(c, p, messages, n);
      } else if Runs(c, p, before) != [] {
        var k :| 0 <= k < n && RunsLast(c, p, before, k) && HandledAll(c, p, before).offset == before[k].offset;
        assert before[..k + 1] == messages[..k + 1] && before[..k] == messages[..k];
        assert RunsLast(c, p, messages, k);
      }
    }
  }

  /** Messages whose ids are all remembered change nothing but which were handled. */
  lemma {:induction false} RepeatsChangeNothing(c: Config, p: Proc, repeats: seq<Message>)
    requires UsableConfig(c) && forall i :: 0 <= i < |repeats| ==> repeats[i].id in p.dedup
    ensures HandledAll(c, p, repeats) == p.(history := HandledAll(c, p, repeats).history)
    ensures HandledAll(c, p, repeats).history.ran == p.history.ran && Runs(c, p, repeats) == []
  {
    if repeats != [] {
      RepeatsChangeNothing(c, p, repeats[..|repeats| - 1]);
    }
  }

  // ---------- draining ----------

  /** The messages of the mailbox, in order, whatever stands between them. */
  function Messages(box: seq<Mail>): seq<Message> {
    if box == [] then [] else (if box[0].Network? then [box[0].message] else []) + Messages(box[1..])
  }

  /** `HandledAll` from the first message on. */
  lemma {:induction false} HandledFirst(c: Config, p: Proc, m: Message, rest: seq<Message>)
    requires UsableConfig(c)
    ensures HandledAll(c, p, [m] + rest) == HandledAll(c, NetworkHandled(c, p, m), rest)
    decreases |rest|
  {
    if rest == [] {
      assert [m] + rest == [m] && [m][..0] == [];
    } else {
      var before := rest[..|rest| - 1];
      HandledFirst(c, p, m, before);
      assert ([m] + rest)[..|rest|] == [m] + before;
    }
  }

  /** What `HandledAll` does does not depend on the mailbox, nor on what was signalled. */
  lemma {:induction false} HandledAside(c: Config, p: Proc, messages: seq<Message>, box: seq<Mail>, full: bool, signals: seq<Signal>)
    requires UsableConfig(c)
    ensures HandledAll(c, p.(mailbox := box, mailFull := full, signals := signals), messages)
         == HandledAll(c, p, messages).(mailbox := box, mailFull := full, signals := signals)
  {
    if messages != [] {
      HandledAside(c, p, messages[..|messages| - 1], box, full, signals);
    }
  }

  ghost predicate SameWork(p: Proc, q: Proc) {
    && p.id == q.id && p.offset == q.offset && p.dedup == q.dedup && p.history == q.history
    && p.phase == q.phase && p.timer == q.timer
  }

  /** Draining a mailbox puts every message in it through the handler, in order: offset, filter
      and history are those after all of them. */
  lemma {:induction false} DrainedHandlesAll(c: Config, p: Proc)
    requires UsableConfig(c)
    ensures SameWork(Drained(c, p), HandledAll(c, p, Messages(p.mailbox)))
    decreases |p.mailbox|
  {
    if p.mailbox != [] {
      var next := Handled(c, p);
      DrainedHandlesAll(c, next);
      DrainedNext(c, p, next);
    }
  }

  lemma DrainedNext(c: Config, p: Proc, next: Proc)
    requires UsableConfig(c) && p.mailbox != [] && next == Handled(c, p)
    ensures SameWork(HandledAll(c, next, Messages(next.mailbox)), HandledAll(c, p, Messages(p.mailbox)))
  {
    var rest := Messages(next.mailbox);
    assert next.mailbox == p.mailbox[1..];
    if p.mailbox[0].Network? {
      var m := p.mailbox[0].message;
      HandledFirst(c, p, m, rest);
      var done := NetworkHandled(c, p, m);
      assert next == done.(mailbox := next.mailbox, mailFull := next.mailFull, signals := next.signals);
      HandledAside(c, done, rest, next.mailbox, next.mailFull, next.signals);
    } else {
      assert [] + rest == rest;
      HandledAside(c, p, rest, next.mailbox, next.mailFull, next.signals);
    }
  }

  /** A timer that a handler adds is pending under its key with its command, and replaces one
      added under that key before. */
  lemma TimerIsPending(p: Proc, key: TimerKey, command: Command, when: int)
    requires DistinctKeys(p.timer.arrivals)
    ensures var r := TimerAdded(p, key, command, when);
            && r == p.(timer := r.timer)
            && Lookup(r.timer.arrivals, key) == Some(Item(key, Task(key, command), when))
            && forall other :: other != key ==> Lookup(r.timer.arrivals, other) == Lookup(p.timer.arrivals, other)
  {
    UpsertReplaces(p.timer.arrivals, key, Task(key, command), when);
    forall other | other != key
      ensures Lookup(TimerAdded(p, key, command, when).timer.arrivals, other) == Lookup(p.timer.arrivals, other)
    {
      UpsertLeavesOthers(p.timer.arrivals, key, Task(key, command), when, other);
    }
  }

  // ---------- the code ----------

  class Actor {
    const id: ActorId
    const config: Config
    const dedup: Dedup
    const timer: Timer<Task>
    var mailbox: seq<Mail>
    var mailFull: bool
    var offset: Offset
    var phase: Phase
    var signals: seq<Signal>
    var history: History

    ghost predicate Valid()
      reads this, dedup, dedup.queue, dedup.queue.items, timer, timer.heap
    {
      && UsableConfig(config)
      && dedup.Valid() && dedup.queue.items.Length == config.dedupLimit
      && TimerAndMailboxValid()
    }

    /** The part of `Valid` that the timer trigger touches. */
    ghost predicate TimerAndMailboxValid()
      reads this, timer, timer.heap
    {
      timer.Valid() && |mailbox| <= config.capacity
    }

    ghost function View(): Proc
      reads this, dedup, dedup.queue, timer, timer.heap
    {
      Proc(id, mailbox, mailFull, offset, dedup.queue.contents, timer.View(), phase, signals, history)
    }

    constructor (id: ActorId, config: Config, history: History)
      ensures Valid() && View() == NewProc(id, history) && this.config == Ensured(config)
      ensures fresh(dedup) && fresh(dedup.queue) && fresh(dedup.queue.items) && fresh(timer) && fresh(timer.heap)
    {
      this.id := id;
      this.config := Ensured(config);
      dedup := new Dedup(Ensured(config).dedupLimit);
      timer := new Timer();
      mailbox, mailFull, offset, phase, signals := [], false, 0, Running, [];
      this.history := history;
    }

    method Send(s: Signal)
      modifies this`signals
      ensures signals == old(signals) + [s]
    {
      signals := signals + [s];
    }

    method SignalSnapshot()
      requires Valid()
      modifies this`signals
      ensures Valid() && View() == Signalled(old(View()), Snapshot(SnapshotOf(old(View()))))
    {
      var ids := dedup.Ids();
      Send(Snapshot(ActorSnapshot(id, offset, ids, history)));
    }

    /** Takes the next message and handles it. */
    method Handle()
      requires Valid() && mailbox != []
      modifies this, dedup, dedup.queue, dedup.queue.items
      ensures Valid() && View() == Handled(config, old(View()))
    {
      var m := mailbox[0];
      mailbox := mailbox[1..];
      var length := |mailbox|;
      if length >= config.capacity - 1 {
        mailFull := true;
      }
      if mailFull && length <= config.capacity / 2 {
        Send(Ready);
        mailFull := false;
      }
      match m
      case Network(message) => HandleNetwork(message);
      case Memory =>
      case Timed(_) =>
    }

    method HandleNetwork(m: Message)
      requires Valid()
      modifies this, dedup, dedup.queue, dedup.queue.items
      ensures Valid() && View() == NetworkHandled(config, old(View()), m)
    {
      history := history.(handled := history.handled + {m.offset});
      var has := dedup.Has(m.id);
      if has {
        return;
      }
      if m.command !in config.handlers {
        return;
      }
      history := history.(ran := history.ran + {m.id});
      var _ := dedup.Add(m.id);
      offset := m.offset;
    }

    method IdleFires()
      requires Valid()
      modifies this`signals
      ensures Valid() && View() == IdleFired(old(View()))
    {
      SignalSnapshot();
      Send(Idle);
    }

    /** The alive clock.  Nothing ever raises the advance that would also send a snapshot. */
    method AliveFires()
      requires Valid()
      modifies this`signals
      ensures Valid() && View() == AliveFired(old(View()))
    {
      Send(Signal.Alive);
    }

    method Drain()
      requires Valid()
      modifies this, dedup, dedup.queue, dedup.queue.items
      ensures Valid() && View() == Drained(config, old(View()))
    {
      while mailbox != []
        invariant Valid() && Drained(config, View()) == Drained(config, old(View()))
        decreases |mailbox|
      {
        Handle();
      }
    }

    /** The stop case of the actor loop, followed by the deferred `finish`. */
    method TakeStop()
      requires Valid()
      modifies this, dedup, dedup.queue, dedup.queue.items
      ensures Valid() && View() == Finish(Drained(config, old(View()).(phase := Stopping)))
    {
      phase := Stopping;
      Drain();
      SignalSnapshot();
      Send(Signal.Stopped);
      phase := Finished;
    }

    method AddTimer(key: TimerKey, command: Command, when: int, now: int)
      requires Valid() && |timer.heap.arrivals| < MAX_LENGTH
      modifies timer, timer.heap
      ensures Valid() && View() == TimerAdded(old(View()), key, command, when)
    {
      timer.Add(key, Task(key, command), when, now);
    }

    /** The loop of the trigger: moves due items into the free places of the mailbox,
        earliest first, and says whether one was left over. */
    method MoveDue(now: int) returns (full: bool)
      requires TimerAndMailboxValid()
      modifies this`mailbox, timer.heap
      ensures TimerAndMailboxValid()
      ensures MovedAll(old(timer.heap.arrivals), now, old(mailbox), config.capacity - old(|mailbox|),
                       mailbox, timer.heap.arrivals, full)
    {
      ghost var was, box, room, k := timer.heap.arrivals, mailbox, config.capacity - |mailbox|, 0;
      MovedNone(was, now, box);
      while true
        invariant TimerAndMailboxValid() && MovedFirst(was, now, box, k, mailbox, timer.heap.arrivals)
        decreases |was| - k
      {
        var item := timer.Peek();
        if item.None? || item.value.when > now {
          NextIsNotDue(was, now, box, k, mailbox, timer.heap.arrivals, room);
          return false;
        }
        NextIsDue(was, now, box, k, mailbox, timer.heap.arrivals);
        if |mailbox| == config.capacity {
          RoomIsFull(was, now, box, k, mailbox, timer.heap.arrivals, room);
          return true;
        }
        MoveHead(item.value);
        k := k + 1;
      }
    }

    method MoveHead(head: Item<TimerKey, Task>)
      requires TimerAndMailboxValid() && |mailbox| < config.capacity
      requires timer.heap.arrivals != [] && head == timer.heap.arrivals[Earliest(timer.heap.arrivals)]
      modifies this`mailbox, timer.heap
      ensures TimerAndMailboxValid() && mailbox == old(mailbox) + [Timed(head.value)]
      ensures timer.heap.arrivals == Popped(old(timer.heap.arrivals))
    {
      AgreesDistinct(Table(timer.heap.items, timer.heap.indexes), timer.heap.arrivals);
      RemoveEarliestIsPop(timer.heap.arrivals);
      mailbox := mailbox + [Timed(head.value)];
      timer.Remove(head.key);
    }

    /** What does not fit stays in the heap for a retry one second later. */
    method HandleTimerTrigger(now: int)
      requires TimerAndMailboxValid()
      modifies this`mailbox, timer, timer.heap
      ensures TimerAndMailboxValid()
      ensures View() == if phase == Stopping then old(View()) else TriggerFired(config, old(View()), now)
    {
      if phase == Stopping {
        return;
      }
      ghost var was := View();
      TriggerDue(now);
      FiredIs(config, was, now, View());
    }

    method TriggerDue(now: int)
      requires TimerAndMailboxValid()
      modifies this`mailbox, timer, timer.heap
      ensures TimerAndMailboxValid()
      ensures var room := config.capacity - old(|mailbox|);
              && mailbox == old(mailbox) + Tasks(Schedule.Drain(old(timer.heap.arrivals))[..Moved(old(timer.heap.arrivals), now, room)])
              && timer.View() == Triggered(old(timer.View()), now, room)
    {
      var full := MoveDue(now);
      MovedIsTriggered(old(timer.View()), now, old(mailbox), config.capacity - old(|mailbox|),
                       mailbox, timer.heap.arrivals, full);
      if full {
        timer.RetryAfter(1, now);
      } else {
        timer.Calibration(now);
      }
    }
  }

  lemma FiredIs(c: Config, p: Proc, now: int, q: Proc)
    requires |p.mailbox| <= c.capacity && q == p.(mailbox := q.mailbox, timer := q.timer)
    requires var room := c.capacity - |p.mailbox|;
             && q.mailbox == p.mailbox + Tasks(Schedule.Drain(p.timer.arrivals)[..Moved(p.timer.arrivals, now, room)])
             && q.timer == Triggered(p.timer, now, room)
    ensures q == TriggerFired(c, p, now)
  {
  }

  /** The first `k` items in draining order have moved from the heap to the mailbox. */
  ghost predicate MovedFirst(was: seq<Item<TimerKey, Task>>, now: int, box: seq<Mail>, k: nat,
                                mailbox: seq<Mail>, arrivals: seq<Item<TimerKey, Task>>)
  {
    && k <= |was| && k <= DueCount(Schedule.Drain(was), now)
    && arrivals == PopMany(was, k)
    && mailbox == box + Tasks(Schedule.Drain(was)[..k])
  }

  /** All that are due and fit have moved; `full` says whether one was left over. */
  ghost predicate MovedAll(was: seq<Item<TimerKey, Task>>, now: int, box: seq<Mail>, room: int,
                              mailbox: seq<Mail>, arrivals: seq<Item<TimerKey, Task>>, full: bool)
  {
    && 0 <= room
    && mailbox == box + Tasks(Schedule.Drain(was)[..Moved(was, now, room)])
    && arrivals == PopMany(was, Moved(was, now, room))
    && (full <==> DueCount(Schedule.Drain(was), now) > room)
  }

  lemma MovedIsTriggered(t: TimerState<Task>, now: int, box: seq<Mail>, room: int,
                            mailbox: seq<Mail>, arrivals: seq<Item<TimerKey, Task>>, full: bool)
    requires MovedAll(t.arrivals, now, box, room, mailbox, arrivals, full)
    ensures Triggered(t, now, room) == if full then TimerState(arrivals, Some(now + 1)) else Calibrated(arrivals)
  {
  }

  lemma MovedNone(was: seq<Item<TimerKey, Task>>, now: int, box: seq<Mail>)
    ensures MovedFirst(was, now, box, 0, box, was)
  {
    assert Schedule.Drain(was)[..0] == [];
  }

  lemma NextIsDue(was: seq<Item<TimerKey, Task>>, now: int, box: seq<Mail>, k: nat,
                  mailbox: seq<Mail>, arrivals: seq<Item<TimerKey, Task>>)
    requires MovedFirst(was, now, box, k, mailbox, arrivals)
    requires arrivals != [] && NextDue(arrivals) <= now
    ensures |mailbox| == |box| + k && k < DueCount(Schedule.Drain(was), now)
    ensures MovedFirst(was, now, box, k + 1, mailbox + [Timed(arrivals[Earliest(arrivals)].value)], Popped(arrivals))
  {
    PopManyLast(was, k);
    DueIsPrefix(was, now, k);
    OneMoreTask(Schedule.Drain(was), k);
  }

  lemma RoomIsFull(was: seq<Item<TimerKey, Task>>, now: int, box: seq<Mail>, k: nat,
                   mailbox: seq<Mail>, arrivals: seq<Item<TimerKey, Task>>, room: int)
    requires MovedFirst(was, now, box, k, mailbox, arrivals) && k < DueCount(Schedule.Drain(was), now) && k == room
    ensures MovedAll(was, now, box, room, mailbox, arrivals, true)
  {
  }

  lemma OneMoreTask(drained: seq<Item<TimerKey, Task>>, k: nat)
    requires k < |drained|
    ensures Tasks(drained[..k + 1]) == Tasks(drained[..k]) + [Timed(drained[k].value)]
  {
    assert drained[..k + 1][..k] == drained[..k];
  }

  lemma NextIsNotDue(was: seq<Item<TimerKey, Task>>, now: int, box: seq<Mail>, k: nat,
                        mailbox: seq<Mail>, arrivals: seq<Item<TimerKey, Task>>, room: int)
    requires MovedFirst(was, now, box, k, mailbox, arrivals)
    requires arrivals != [] ==> NextDue(arrivals) > now
    ensures |mailbox| <= |box| + room ==> MovedAll(was, now, box, room, mailbox, arrivals, false)
  {
    if k < |was| {
      PopManyLast(was, k);
      DueIsPrefix(was, now, k);
    }
  }

  /** Trigger conservation: the moved items and the ones left are the old heap in draining
      order, everything moved is due, and a due item is left only in a full mailbox. */
  lemma TriggerConserves<V>(t: TimerState<V>, now: int, room: nat)
    ensures var n := Moved(t.arrivals, now, room);
            var left := Triggered(t, now, room).arrivals;
            && n <= room
            && Schedule.Drain(t.arrivals)[..n] + Schedule.Drain(left) == Schedule.Drain(t.arrivals)
            && multiset(Schedule.Drain(t.arrivals)[..n]) + multiset(left) == multiset(t.arrivals)
            && (forall i :: 0 <= i < n ==> Schedule.Drain(t.arrivals)[i].when <= now)
            && ((exists x :: x in left && x.when <= now) ==> n == room)
  {
    var n, drained := Moved(t.arrivals, now, room), Schedule.Drain(t.arrivals);
    var left := PopMany(t.arrivals, n);
    PopManyDrains(t.arrivals, n);
    assert drained == drained[..n] + drained[n..];
    assert multiset(drained[..n]) + multiset(left) == multiset(t.arrivals) by {
      DrainIsPermutation(t.arrivals);
      DrainIsPermutation(left);
    }
    if n < room {
      forall x | x in left ensures x.when > now {
        LeftIsNotDue(t.arrivals, now, n, x);
      }
    }
  }

  /** What was in the mailbox stays in front and fits with what the trigger puts behind it: the
      due timers in order of deadline, as many as there is room for. */
  lemma TriggerAppends(c: Config, p: Proc, now: int, i: nat, n: nat, drained: seq<Item<TimerKey, Task>>)
    requires |p.mailbox| <= c.capacity
    requires drained == Schedule.Drain(p.timer.arrivals) && n == Moved(p.timer.arrivals, now, Room(c, p))
    ensures var box := TriggerFired(c, p, now).mailbox;
            && |box| == |p.mailbox| + n <= c.capacity
            && (n == DueCount(drained, now) || |box| == c.capacity)
            && (i < |box| ==> box[i] == if i < |p.mailbox| then p.mailbox[i] else Timed(drained[i - |p.mailbox|].value))
  {
    var tasks := Tasks(drained[..n]);
    assert TriggerFired(c, p, now).mailbox == p.mailbox + tasks;
    if |p.mailbox| <= i < |p.mailbox| + n {
      assert drained[..n][i - |p.mailbox|] == drained[i - |p.mailbox|];
    }
  }

  lemma LeftIsNotDue<V>(arrivals: seq<Item<TimerKey, V>>, now: int, n: nat, x: Item<TimerKey, V>)
    requires n == DueCount(Schedule.Drain(arrivals), now) && n <= |arrivals| && x in PopMany(arrivals, n)
    ensures x.when > now
  {
  }
}
