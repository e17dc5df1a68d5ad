/** A value that may be switched off (structs/bool_value.go). */
module BoolValues {
  import opened Types

  class BoolValue<T(0)> {
    var enabled: bool
    var value: T

    /** What callers can see: the value, while it is enabled. */
    ghost function View(): Option<T>
      reads this
    {
      if enabled then Some(value) else None
    }

    constructor ()
      ensures View() == None
    {
      enabled := false;
      value := *;
    }

    method IsEnabled() returns (r: bool)
      ensures r == View().Some?
    {
      r := enabled;
    }

    method Get() returns (v: T, ok: bool)
      ensures (if ok then Some(v) else None) == View()
    {
      v, ok := value, enabled;
    }

    /** The first value wins. */
    method Enable(v: T)
      modifies this
      ensures View() == FirstWins(old(View()), v)
    {
      if enabled {
        return;
      }
      enabled := true;
      value := v;
    }

    method UpdateEnable(v: T)
      modifies this
      ensures View() == Some(v)
    {
      enabled := true;
      value := v;
    }

    method Disable()
      modifies this`enabled
      ensures View() == None
    {
      enabled := false;
    }
  }

  // ---------- runs ----------

  datatype Op<T> = Enable(v: T) | UpdateEnable(v: T) | Disable

  function Step<T>(current: Option<T>, op: Op<T>): Option<T> {
    match op
    case Enable(v) => FirstWins(current, v)
    case UpdateEnable(v) => Some(v)
    case Disable => None
  }

  function After<T>(ops: seq<Op<T>>): Option<T> {
    if ops == [] then None else Step(After(ops[..|ops| - 1]), ops[|ops| - 1])
  }

  /** The last call that set the value whatever it was before. */
  ghost predicate Settles<T(!new)>(ops: seq<Op<T>>, i: int) {
    && 0 <= i < |ops| && !ops[i].Enable?
    && forall j :: i < j < |ops| ==> ops[j].Enable?
  }

  /** With only `Enable` since the last `Disable`, the value is the first one given since:
      the oldest offset a pause was asked for. */
  lemma {:induction false} FirstSinceDisableWins<T(!new)>(ops: seq<Op<T>>, i: nat)
    requires Settles(ops, i) && ops[i].Disable?
    ensures After(ops) == if i == |ops| - 1 then None else Some(ops[i + 1].v)
  {
    if i < |ops| - 1 {
      FirstSinceDisableWins(ops[..|ops| - 1], i);
    }
  }

  /** With only `Enable` since the last `UpdateEnable`, that one stands. */
  lemma {:induction false} UpdateStandsUntilDisabled<T(!new)>(ops: seq<Op<T>>, i: nat)
    requires Settles(ops, i) && ops[i].UpdateEnable?
    ensures After(ops) == Some(ops[i].v)
  {
    if i < |ops| - 1 {
      UpdateStandsUntilDisabled(ops[..|ops| - 1], i);
    }
  }
}
