/**
  Runs from any state, under what is assumed of their steps.
*/
module Paths {
  import opened Types
  import opened ActorModel
  import opened NodeModel
  import opened NodeRuns
  import opened NodeIndex
  import opened Delivery
  import opened Coverage
  import opened CoverageSteps
  import opened CoverageDispatch
  import opened AtLeastOnce
  import opened Marks

  /** No call fails and messages come in turn, whatever seeks skip; or seeks never go forward
      and messages come in turn, whether or not a pause is refused; or no call fails and seeks
      never go forward, in whatever order messages come; or the hypotheses of at-least-once
      delivery. */
  datatype Law = NoCallFails | NoSeekForward | AnyOrder | CarefulSteps

  /** Every call succeeds, and a save reports nothing. */
  const CALM := Io(false, false, false, false, {}, {}, {}, {})

  ghost predicate Obeys(law: Law, env: Env, n: Node, act: Action, n': Node) {
    match law
    case NoCallFails => NothingFails(act) && !PauseRefused(act) && InTurnStep(env, n, act)
    case NoSeekForward => NothingFails(act) && SeeksBackward(env, n, act, n') && InTurnStep(env, n, act)
    case AnyOrder => NothingFails(act) && !PauseRefused(act) && SeeksBackward(env, n, act, n')
    case CarefulSteps => Careful(env, n, act, n')
  }

  /** Such a step is covered by every law. */
  ghost predicate Calm(env: Env, n: Node, act: Action, n': Node) {
    NothingFails(act) && !PauseRefused(act) && NeverForward(env, n, act, n')
  }

  lemma CalmObeys(law: Law, env: Env, n: Node, act: Action, n': Node)
    requires Calm(env, n, act, n')
    ensures Obeys(law, env, n, act, n')
  {
    if law == CarefulSteps {
      BackwardIsHarmless(env, n, act, n');
      NothingFailsHarmlessly(env, n, act);
    }
  }

  ghost predicate IsPath(law: Law, env: Env, states: seq<Node>, acts: seq<Action>) {
    && UsableConfig(env.config) && |states| == |acts| + 1
    && forall i :: 0 <= i < |acts| ==> PathStep(law, env, states[i], acts[i], states[i + 1])
  }

  ghost predicate PathStep(law: Law, env: Env, n: Node, act: Action, n': Node)
    requires UsableConfig(env.config)
  {
    IsStep(env, n, act, n') && Obeys(law, env, n, act, n')
  }

  ghost predicate Leads(law: Law, env: Env, n: Node, n': Node) {
    exists states, acts :: IsPath(law, env, states, acts) && states[0] == n && states[|acts|] == n'
  }

  ghost predicate Reachable(law: Law, env: Env, n: Node) {
    Leads(law, env, Initial(), n)
  }

  lemma LeadsToItself(law: Law, env: Env, n: Node)
    requires UsableConfig(env.config)
    ensures Leads(law, env, n, n)
  {
    var states: seq<Node>, acts: seq<Action> := [n], [];
    assert IsPath(law, env, states, acts) && states[0] == n && states[|acts|] == n;
  }

  lemma LeadsOn(law: Law, env: Env, n: Node, m: Node, act: Action, n': Node)
    requires Leads(law, env, n, m) && UsableConfig(env.config) && PathStep(law, env, m, act, n')
    ensures Leads(law, env, n, n')
  {
    var states, acts :| IsPath(law, env, states, acts) && states[0] == n && states[|acts|] == m;
    PathExtends(law, env, states, acts, act, n');
    var states', acts' := states + [n'], acts + [act];
    assert IsPath(law, env, states', acts') && states'[0] == n && states'[|acts'|] == n';
  }

  lemma PathExtends(law: Law, env: Env, states: seq<Node>, acts: seq<Action>, act: Action, n': Node)
    requires IsPath(law, env, states, acts) && PathStep(law, env, states[|acts|], act, n')
    ensures IsPath(law, env, states + [n'], acts + [act])
  {
    var states', acts' := states + [n'], acts + [act];
    forall i | 0 <= i < |acts'| ensures PathStep(law, env, states'[i], acts'[i], states'[i + 1]) {
      PathStepAt(law, env, states, acts, act, n', states', acts', i);
    }
  }

  lemma PathStepAt(law: Law, env: Env, states: seq<Node>, acts: seq<Action>, act: Action, n': Node,
                   states': seq<Node>, acts': seq<Action>, i: nat)
    requires UsableConfig(env.config) && |states| == |acts| + 1 && i < |acts'| && states' == states + [n'] && acts' == acts + [act]
    requires if i < |acts| then PathStep(law, env, states[i], acts[i], states[i + 1]) else PathStep(law, env, states[|acts|], act, n')
    ensures PathStep(law, env, states'[i], acts'[i], states'[i + 1])
  {
    if i < |acts| {
      SameStep(law, env, states[i], acts[i], states[i + 1], states'[i], acts'[i], states'[i + 1]);
    } else {
      SameStep(law, env, states[|acts|], act, n', states'[i], acts'[i], states'[i + 1]);
    }
  }

  lemma SameStep(law: Law, env: Env, n: Node, act: Action, n': Node, m: Node, act': Action, m': Node)
    requires UsableConfig(env.config) && PathStep(law, env, n, act, n') && m == n && act' == act && m' == n'
    ensures PathStep(law, env, m, act', m')
  {
  }

  lemma {:induction false} LeadsAlong(law: Law, env: Env, n: Node, states: seq<Node>, acts: seq<Action>, i: nat)
    requires IsPath(law, env, states, acts) && i < |states| && Leads(law, env, n, states[0])
    ensures Leads(law, env, n, states[i])
  {
    if i > 0 {
      LeadsAlong(law, env, n, states, acts, i - 1);
      LeadsOn(law, env, n, states[i - 1], acts[i - 1], states[i]);
    }
  }

  lemma LeadsTwice(law: Law, env: Env, n: Node, m: Node, n': Node)
    requires Leads(law, env, n, m) && Leads(law, env, m, n')
    ensures Leads(law, env, n, n')
  {
    var states, acts :| IsPath(law, env, states, acts) && states[0] == m && states[|acts|] == n';
    LeadsAlong(law, env, n, states, acts, |acts|);
  }

  lemma CalmLeads(law: Law, env: Env, n: Node, m: Node, act: Action, n': Node)
    requires Leads(law, env, n, m) && UsableConfig(env.config) && IsStep(env, m, act, n') && Calm(env, m, act, n')
    ensures Leads(law, env, n, n')
  {
    CalmObeys(law, env, m, act, n');
    LeadsOn(law, env, n, m, act, n');
  }

  /** A step that is neither a dispatch nor the end of an actor, with every position where it
      was or further back. */
  lemma BackwardLeads(law: Law, env: Env, n: Node, m: Node, act: Action, n': Node)
    requires Leads(law, env, n, m) && UsableConfig(env.config) && IsStep(env, m, act, n') && NothingFails(act)
    requires !act.Dispatch? && !act.TakeStopped? && Backward(m, n')
    ensures Leads(law, env, n, n')
  {
    CalmLeads(law, env, n, m, act, n');
  }

  // ---------- at-least-once from a state on ----------

  /** The `k`-th commit of `s` is past the message at `x`. */
  ghost predicate CommitsPast(env: Env, n: Node, s: ShardId, k: nat, x: Offset) {
    && LogAt(env, s, x).Some?
    && s in n.partitions && k < |n.partitions[s].commits| && x < n.partitions[s].commits[k]
  }

  /** Wherever careful steps lead from here, what is committed was handled. */
  ghost predicate AlwaysHandledAfter(env: Env, n: Node) {
    forall n', s, k: nat, x ::
      Leads(CarefulSteps, env, n, n') && CommitsPast(env, n', s, k, x) ==> HandledAndSaved(env, n', s, x)
  }

  lemma KeptIsHandled(env: Env, n: Node, s: ShardId, k: nat, x: Offset)
    requires FixedReceivers(env) && Inv(env, n) && CommitsPast(env, n, s, k, x)
    ensures HandledAndSaved(env, n, s, x)
  {
    var m := LogAt(env, s, x).value;
    assert CoveredBelow(env, n.stored, s, n.partitions[s].commits[k]);
    assert InLog(env, s, x);
    var snapshot :| snapshot in n.stored && Covers(snapshot, m.receiver, x);
    assert HonestSnapshot(env, snapshot.actorId, snapshot, HistoryOf(n, snapshot.actorId));
    assert Sent(env, m.receiver, x);
  }

  lemma StepIsCareful(env: Env, n: Node, act: Action, n': Node)
    requires UsableConfig(env.config) && PathStep(CarefulSteps, env, n, act, n')
    ensures IsStep(env, n, act, n') && Careful(env, n, act, n')
  {
  }

  lemma StepKept(env: Env, n: Node, act: Action, n': Node)
    requires KeptSoFar(env, n) && IsStep(env, n, act, n') && Careful(env, n, act, n')
    ensures KeptSoFar(env, n')
  {
    StepKeepsInv(env, n, act, n');
    StepKeeps(env, n, act, n');
  }

  lemma {:induction false} PathKept(env: Env, states: seq<Node>, acts: seq<Action>, i: nat)
    requires IsPath(CarefulSteps, env, states, acts) && i < |states| && KeptSoFar(env, states[0])
    ensures KeptSoFar(env, states[i])
  {
    if i > 0 {
      PathKept(env, states, acts, i - 1);
      StepIsCareful(env, states[i - 1], acts[i - 1], states[i]);
      StepKept(env, states[i - 1], acts[i - 1], states[i]);
    }
  }

  lemma ReachableKept(env: Env, n: Node)
    requires FixedReceivers(env) && Reachable(CarefulSteps, env, n)
    ensures KeptSoFar(env, n)
  {
    var states, acts :| IsPath(CarefulSteps, env, states, acts) && states[0] == Initial() && states[|acts|] == n;
    InitialInv(env);
    PathKept(env, states, acts, |acts|);
  }

  /** From a state that keeps the invariant, all that careful steps commit was handled. */
  lemma KeptIsAlwaysHandled(env: Env, n: Node)
    requires KeptSoFar(env, n)
    ensures AlwaysHandledAfter(env, n)
  {
    forall n', s, k: nat, x | Leads(CarefulSteps, env, n, n') && CommitsPast(env, n', s, k, x)
      ensures HandledAndSaved(env, n', s, x)
    {
      var states, acts :| IsPath(CarefulSteps, env, states, acts) && states[0] == n && states[|acts|] == n';
      PathKept(env, states, acts, |acts|);
      KeptIsHandled(env, n', s, k, x);
    }
  }
}
