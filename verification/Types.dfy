/** Identifiers and small value types shared by the other modules. */
module Types {

  datatype ActorId = ActorId(text: string)
  datatype MessageId = MessageId(text: string)
  type ShardId = int
  type Offset = int

  datatype Option<+T> = None | Some(value: T) {
    function GetOr(default: T): T {
      if Some? then value else default
    }
  }

  /** `BoolValue.Enable`: the first value wins. */
  function FirstWins<T>(current: Option<T>, value: T): (r: Option<T>) {
    if current.Some? then current else Some(value)
  }

  /** Some member of a non-empty set. */
  ghost function Pick<T>(s: set<T>): (x: T)
    requires |s| > 0
    ensures x in s
  {
    var x :| x in s; x
  }

  /** The next key of a `range` over a map: whichever comes. */
  method Choose<T(==)>(s: set<T>) returns (x: T)
    requires |s| > 0
    ensures x in s
  {
    x :| x in s;
  }
}
