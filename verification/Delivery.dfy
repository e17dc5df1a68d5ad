/**
  What one actor owes: the messages sent to it, those it has been given, and what its
  snapshots may claim.
*/
module Delivery {
  import opened Types
  import opened DedupFilter
  import opened ActorModel
  import opened NodeModel

  ghost predicate InLog(env: Env, shard: ShardId, x: Offset) {
    LogAt(env, shard, x).Some?
  }

  function ReceiverAt(env: Env, shard: ShardId, x: Offset): ActorId
    requires LogAt(env, shard, x).Some?
  {
    LogAt(env, shard, x).value.receiver
  }

  ghost predicate Sent(env: Env, a: ActorId, x: Offset) {
    InLog(env, ShardOf(env, a), x) && ReceiverAt(env, ShardOf(env, a), x) == a
  }

  /** Each retained offset has one fixed message, on the shard of its receiver, and offsets
      are positive: an actor that has handled nothing claims offset 0. */
  ghost predicate FixedReceivers(env: Env) {
    && UsableConfig(env.config)
    && forall s, x {:trigger LogAt(env, s, x)} :: LogAt(env, s, x).Some? ==>
         var m := LogAt(env, s, x).value;
         m.offset == x && ShardOf(env, m.receiver) == s && StartOf(env, s) <= x && 0 < x
  }

  // ---------- histories and snapshots ----------

  /** A message that went through `handleNetwork` had its handler run, if it has one. */
  ghost predicate Knows(env: Env, a: ActorId, h: History) {
    forall x {:trigger Sent(env, a, x)} :: Sent(env, a, x) && x in h.handled ==>
      var m := LogAt(env, ShardOf(env, a), x).value;
      m.command in env.config.handlers ==> m.id in h.ran
  }

  ghost predicate Grows(h: History, h': History) {
    h.handled <= h'.handled && h.ran <= h'.ran
  }

  /** Every message sent to `a` below `b` is in `reached`. */
  ghost predicate UpTo(env: Env, a: ActorId, reached: set<Offset>, b: Offset) {
    forall x {:trigger Sent(env, a, x)} :: Sent(env, a, x) && x < b ==> x in reached
  }

  /** A snapshot claims no more than was handled when it was taken. */
  ghost predicate HonestSnapshot(env: Env, a: ActorId, s: ActorSnapshot, h: History) {
    && s.actorId == a
    && Grows(s.history, h)
    && UpTo(env, a, s.history.handled, s.offset + 1)
    && Knows(env, a, s.history)
  }

  lemma HonestLater(env: Env, a: ActorId, s: ActorSnapshot, h: History, h': History)
    requires HonestSnapshot(env, a, s, h) && Grows(h, h')
    ensures HonestSnapshot(env, a, s, h')
  {
  }

  // ---------- the mailbox ----------

  ghost predicate RightMessage(env: Env, a: ActorId, m: Message) {
    Sent(env, a, m.offset) && LogAt(env, ShardOf(env, a), m.offset) == Some(m)
  }

  /** Messages stand in the mailbox in such an order that each, when its turn comes, finds
      everything sent before it handled. */
  ghost predicate InOrder(env: Env, a: ActorId, handled: set<Offset>, box: seq<Mail>)
    decreases |box|
  {
    if box == [] then true
    else
      match box[0]
      case Network(m) =>
        RightMessage(env, a, m) && UpTo(env, a, handled, m.offset)
        && InOrder(env, a, handled + {m.offset}, box[1..])
      case Timed(_) => InOrder(env, a, handled, box[1..])
      case Memory => InOrder(env, a, handled, box[1..])
  }

  function Offsets(box: seq<Mail>): set<Offset> {
    if box == [] then {}
    else (if box[0].Network? then {box[0].message.offset} else {}) + Offsets(box[1..])
  }

  lemma {:induction false} OffsetsConcat(box: seq<Mail>, more: seq<Mail>)
    ensures Offsets(box + more) == Offsets(box) + Offsets(more)
  {
    if box == [] {
      assert box + more == more;
    } else {
      OffsetsConcat(box[1..], more);
      assert (box + more)[1..] == box[1..] + more;
    }
  }

  lemma {:induction false} InOrderConcat(env: Env, a: ActorId, handled: set<Offset>, box: seq<Mail>, more: seq<Mail>)
    requires InOrder(env, a, handled, box) && InOrder(env, a, handled + Offsets(box), more)
    ensures InOrder(env, a, handled, box + more)
    decreases |box|
  {
    if box == [] {
      assert box + more == more && handled + Offsets(box) == handled;
    } else {
      assert (box + more)[1..] == box[1..] + more;
      var here := if box[0].Network? then {box[0].message.offset} else {};
      assert handled + Offsets(box) == (handled + here) + Offsets(box[1..]);
      assert handled + {} == handled;
      InOrderConcat(env, a, handled + here, box[1..], more);
    }
  }

  lemma InOrderMessage(env: Env, a: ActorId, handled: set<Offset>, box: seq<Mail>, m: Message)
    requires InOrder(env, a, handled, box) && RightMessage(env, a, m)
    requires UpTo(env, a, handled + Offsets(box), m.offset)
    ensures InOrder(env, a, handled, box + [Network(m)])
    ensures Offsets(box + [Network(m)]) == Offsets(box) + {m.offset}
  {
    assert [Network(m)][1..] == [];
    InOrderConcat(env, a, handled, box, [Network(m)]);
    OffsetsConcat(box, [Network(m)]);
  }

  lemma {:induction false} TimersInOrder(env: Env, a: ActorId, handled: set<Offset>, tasks: seq<Mail>)
    requires forall i :: 0 <= i < |tasks| ==> tasks[i].Timed?
    ensures InOrder(env, a, handled, tasks) && Offsets(tasks) == {}
  {
    if tasks != [] {
      TimersInOrder(env, a, handled, tasks[1..]);
    }
  }

  lemma {:induction false} MessagesAreOffsets(box: seq<Mail>, c: Config, p: Proc)
    requires UsableConfig(c)
    ensures HandledAll(c, p, Messages(box)).history.handled == p.history.handled + Offsets(box)
    decreases |box|
  {
    if box != [] {
      if box[0].Network? {
        HandledFirst(c, p, box[0].message, Messages(box[1..]));
        MessagesAreOffsets(box[1..], c, NetworkHandled(c, p, box[0].message));
      } else {
        MessagesAreOffsets(box[1..], c, p);
        assert [] + Messages(box[1..]) == Messages(box[1..]);
      }
    }
  }

  /** A stopping actor handles whatever its mailbox holds before it sends its last snapshot. */
  lemma LastSnapshotHasAll(c: Config, p: Proc)
    requires UsableConfig(c)
    ensures var last := Finish(Drained(c, p));
            && last.mailbox == [] && last.phase == Finished
            && last.history.handled == p.history.handled + Offsets(p.mailbox)
            && |last.signals| >= 2 && last.signals[|last.signals| - 1] == Signal.Stopped
            && last.signals[|last.signals| - 2] == Snapshot(ActorSnapshot(
                 p.id, HandledAll(c, p, Messages(p.mailbox)).offset, HandledAll(c, p, Messages(p.mailbox)).dedup,
                 HandledAll(c, p, Messages(p.mailbox)).history))
  {
    DrainedHandlesAll(c, p);
    MessagesAreOffsets(p.mailbox, c, p);
    HandledAllKeepsId(c, p, Messages(p.mailbox));
  }

  lemma {:induction false} HandledAllKeepsId(c: Config, p: Proc, messages: seq<Message>)
    requires UsableConfig(c)
    ensures HandledAll(c, p, messages).id == p.id
  {
    if messages != [] { HandledAllKeepsId(c, p, messages[..|messages| - 1]); }
  }

  // ---------- the actor ----------

  ghost predicate RecordedRan(p: Proc) {
    forall i :: 0 <= i < |p.dedup| ==> p.dedup[i] in p.history.ran
  }

  ghost predicate SignalsHonest(env: Env, a: ActorId, signals: seq<Signal>, h: History) {
    forall i :: 0 <= i < |signals| && signals[i].Snapshot? ==> HonestSnapshot(env, a, signals[i].snapshot, h)
  }

  /** What holds of an actor also while it has a message in hand. */
  ghost predicate Honest(env: Env, a: ActorId, p: Proc) {
    && p.id == a
    && Knows(env, a, p.history) && RecordedRan(p)
    && UpTo(env, a, p.history.handled, p.offset + 1)
    && SignalsHonest(env, a, p.signals, p.history)
    && (Signal.Stopped in p.signals ==> p.phase == Finished)
  }

  ghost predicate ProcOk(env: Env, a: ActorId, p: Proc) {
    && Honest(env, a, p)
    && InOrder(env, a, p.history.handled, p.mailbox)
    && (p.phase == Finished ==> p.mailbox == [])
  }

  /** Everything `p` has been given or will be, unless it dies. */
  function Reached(p: Proc): set<Offset> {
    p.history.handled + Offsets(p.mailbox)
  }

  lemma NewProcOk(env: Env, a: ActorId, h: History)
    requires FixedReceivers(env) && Knows(env, a, h)
    ensures ProcOk(env, a, NewProc(a, h)) && Reached(NewProc(a, h)) == h.handled
  {
  }

  lemma SignalledHonest(env: Env, a: ActorId, p: Proc, s: Signal)
    requires Honest(env, a, p) && !s.Stopped?
    requires s.Snapshot? ==> HonestSnapshot(env, a, s.snapshot, p.history)
    ensures Honest(env, a, Signalled(p, s))
  {
  }

  lemma IdleFiredOk(env: Env, a: ActorId, p: Proc)
    requires ProcOk(env, a, p)
    ensures ProcOk(env, a, IdleFired(p))
  {
  }

  lemma FinishOk(env: Env, a: ActorId, p: Proc)
    requires ProcOk(env, a, p) && p.mailbox == []
    ensures ProcOk(env, a, Finish(p))
  {
  }

  lemma LengthCheckedHonest(env: Env, a: ActorId, c: Config, p: Proc)
    requires Honest(env, a, p)
    ensures var q := LengthChecked(c, p);
            Honest(env, a, q) && q.history == p.history && q.mailbox == p.mailbox && q.phase == p.phase
  {
  }

  /** A message that finds everything sent before it handled may move the offset. */
  lemma NetworkHandledHonest(env: Env, a: ActorId, p: Proc, m: Message)
    requires FixedReceivers(env) && Honest(env, a, p)
    requires RightMessage(env, a, m) && UpTo(env, a, p.history.handled, m.offset)
    ensures var q := NetworkHandled(env.config, p, m);
            && Honest(env, a, q) && Grows(p.history, q.history)
            && q.history.handled == p.history.handled + {m.offset}
            && q.mailbox == p.mailbox && q.phase == p.phase
  {
  }

  lemma HandledOk(env: Env, a: ActorId, p: Proc)
    requires FixedReceivers(env) && ProcOk(env, a, p) && p.mailbox != [] && p.phase != Finished
    ensures ProcOk(env, a, Handled(env.config, p))
    ensures Grows(p.history, Handled(env.config, p).history)
    ensures Reached(Handled(env.config, p)) == Reached(p) && Handled(env.config, p).phase == p.phase
  {
    var rest := p.(mailbox := p.mailbox[1..]);
    assert Honest(env, a, rest);
    LengthCheckedHonest(env, a, env.config, rest);
    if p.mailbox[0].Network? {
      NetworkHandledHonest(env, a, LengthChecked(env.config, rest), p.mailbox[0].message);
    }
  }

  lemma TriggerFiredOk(env: Env, a: ActorId, p: Proc, now: int)
    requires ProcOk(env, a, p) && p.phase == Running
    ensures ProcOk(env, a, TriggerFired(env.config, p, now)) && Reached(TriggerFired(env.config, p, now)) == Reached(p)
  {
    var tasks := TriggerFired(env.config, p, now).mailbox[|p.mailbox|..];
    TimersInOrder(env, a, p.history.handled + Offsets(p.mailbox), tasks);
    InOrderConcat(env, a, p.history.handled, p.mailbox, tasks);
    OffsetsConcat(p.mailbox, tasks);
  }

  lemma MailedOk(env: Env, a: ActorId, p: Proc, m: Message)
    requires ProcOk(env, a, p) && p.phase == Running
    requires RightMessage(env, a, m) && UpTo(env, a, Reached(p), m.offset)
    ensures ProcOk(env, a, p.(mailbox := p.mailbox + [Network(m)]))
    ensures Reached(p.(mailbox := p.mailbox + [Network(m)])) == Reached(p) + {m.offset}
  {
    InOrderMessage(env, a, p.history.handled, p.mailbox, m);
  }

  lemma TakenOk(env: Env, a: ActorId, p: Proc)
    requires ProcOk(env, a, p) && p.signals != []
    ensures ProcOk(env, a, p.(signals := p.signals[1..]))
  {
  }
}
