/**
  The PostgreSQL and MongoDB stores (storage/postgres.go, storage/mongo.go).  The database
  is the table itself with the statements the stores send it; what the network makes of a
  statement is a parameter of the call.  Every `Save` is a `Fencing.SaveStep`, every
  successful `Load` a `Fencing.LoadStep`.
*/
module Stores {
  import opened Types
  import opened Fencing

  datatype StoreError =
    | NoError
    | Invalid
    | NotFound
    | Stale(actors: seq<ActorId>)
    | Failed(actors: seq<ActorId>, stale: seq<ActorId>)

  /** Each row of the batch on its own, against the row the table holds for it. */
  function ApplyAll(table: Table, inputs: seq<Snapshot>): Table {
    if inputs == [] then table
    else
      var rest, s := ApplyAll(table, inputs[..|inputs| - 1]), inputs[|inputs| - 1];
      if Admits(table, s) then rest[s.actorId := RowOf(s)] else rest
  }

  /** The ids of the rows the fence lets through, in the order of the batch. */
  function Admitted(table: Table, inputs: seq<Snapshot>): seq<ActorId> {
    if inputs == [] then []
    else
      var rest, s := Admitted(table, inputs[..|inputs| - 1]), inputs[|inputs| - 1];
      if Admits(table, s) then rest + [s.actorId] else rest
  }

  function Refused(table: Table, inputs: seq<Snapshot>): seq<ActorId> {
    if inputs == [] then []
    else
      var rest, s := Refused(table, inputs[..|inputs| - 1]), inputs[|inputs| - 1];
      if Admits(table, s) then rest else rest + [s.actorId]
  }

  /** `after` holds the inputs listed in `ids` and is otherwise the table as it was. */
  ghost predicate Applied(table: Table, inputs: seq<Snapshot>, n: nat, after: Table, ids: seq<ActorId>)
    requires n <= |inputs|
  {
    && after.Keys == table.Keys + (set id | id in ids)
    && (forall id :: id in table && id !in ids ==> after[id] == table[id])
    && (forall i :: 0 <= i < n && Admits(table, inputs[i]) ==>
          inputs[i].actorId in ids && after[inputs[i].actorId] == RowOf(inputs[i]))
    && (forall id :: id in ids ==> exists i :: 0 <= i < n && inputs[i].actorId == id && Admits(table, inputs[i]))
  }

  lemma {:induction false} ApplyAllIs(table: Table, inputs: seq<Snapshot>, n: nat)
    requires n <= |inputs| && DistinctActors(inputs)
    ensures Applied(table, inputs, n, ApplyAll(table, inputs[..n]), Admitted(table, inputs[..n]))
  {
    if n == 0 {
      assert inputs[..0] == [];
      NoneApplied(table, inputs);
    } else {
      ApplyAllIs(table, inputs, n - 1);
      assert inputs[..n][..n - 1] == inputs[..n - 1];
      ApplyNext(table, inputs, n - 1, ApplyAll(table, inputs[..n - 1]), Admitted(table, inputs[..n - 1]));
    }
  }

  lemma NoneApplied(table: Table, inputs: seq<Snapshot>)
    ensures Applied(table, inputs, 0, table, [])
  {
  }

  lemma ApplyNext(table: Table, inputs: seq<Snapshot>, n: nat, after: Table, ids: seq<ActorId>)
    requires n < |inputs| && DistinctActors(inputs) && Applied(table, inputs, n, after, ids)
    ensures var s := inputs[n];
            if Admits(table, s) then Applied(table, inputs, n + 1, after[s.actorId := RowOf(s)], ids + [s.actorId])
            else Applied(table, inputs, n + 1, after, ids)
  {
  }

  /** An error-free batch is a fenced step that reports every row set to its input. */
  lemma ApplyAllIsSaveStep(table: Table, inputs: seq<Snapshot>, reported: seq<ActorId>)
    requires ValidBatch(inputs)
    requires forall id :: id in reported ==> id in Admitted(table, inputs)
    ensures SaveStep(table, inputs, ApplyAll(table, inputs), reported)
  {
    var after := ApplyAll(table, inputs);
    ApplyAllIs(table, inputs, |inputs|);
    assert inputs[..|inputs|] == inputs;
    forall id | id in Admitted(table, inputs) ensures id in after && WrittenBy(table, inputs, after, id) {
      var i :| 0 <= i < |inputs| && inputs[i].actorId == id && Admits(table, inputs[i]);
      assert inputs[i] in inputs;
    }
  }

  lemma NothingSaved(table: Table, inputs: seq<Snapshot>)
    ensures SaveStep(table, inputs, table, [])
  {
  }

  lemma {:induction false} AdmittedOrRefused(table: Table, inputs: seq<Snapshot>)
    ensures |Admitted(table, inputs)| + |Refused(table, inputs)| == |inputs|
  {
    if inputs != [] {
      AdmittedOrRefused(table, inputs[..|inputs| - 1]);
    }
  }

  /** The batch is split into the two lists, each in the order of the batch. */
  lemma {:induction false} SplitInOrder(table: Table, inputs: seq<Snapshot>, n: nat, i: nat)
    requires i < n <= |inputs|
    ensures var list, before := Admitted(table, inputs[..n]), Admitted(table, inputs[..i]);
            Admits(table, inputs[i]) ==> |before| < |list| && list[|before|] == inputs[i].actorId
    ensures var list, before := Refused(table, inputs[..n]), Refused(table, inputs[..i]);
            !Admits(table, inputs[i]) ==> |before| < |list| && list[|before|] == inputs[i].actorId
    decreases n
  {
    assert inputs[..n][..n - 1] == inputs[..n - 1];
    if i < n - 1 {
      SplitInOrder(table, inputs, n - 1, i);
    }
  }

  /** What is refused is exactly what the fence does not let through. */
  lemma {:induction false} RefusedExactly(table: Table, inputs: seq<Snapshot>, n: nat, id: ActorId)
    requires n <= |inputs|
    ensures id in Refused(table, inputs[..n]) <==> exists i :: 0 <= i < n && inputs[i].actorId == id && !Admits(table, inputs[i])
  {
    if n > 0 {
      RefusedExactly(table, inputs, n - 1, id);
      assert inputs[..n][..n - 1] == inputs[..n - 1];
    }
  }

  // ---------- PostgreSQL ----------

  /** What becomes of one statement: it runs, it fails with unknown effect, or reading its
      result fails after some rows. */
  datatype Reply = Ran | Lost(applied: bool) | CutShort(rowsRead: nat)

  class PostgresStore {
    var rows: Table

    /** `INSERT ... ON CONFLICT DO UPDATE ... WHERE target.version <= EXCLUDED.version RETURNING actor_id` */
    method InsertOnConflict(docs: seq<Snapshot>, reply: Reply) returns (returned: seq<ActorId>)
      modifies this
      ensures rows == if reply == Lost(false) then old(rows) else ApplyAll(old(rows), docs)
      ensures returned == if reply.Lost? then [] else Admitted(old(rows), docs)
    {
      returned := if reply.Lost? then [] else Admitted(rows, docs);
      if reply != Lost(false) {
        rows := ApplyAll(rows, docs);
      }
    }

    method Save(inputs: seq<Snapshot>, reply: Reply) returns (success: seq<ActorId>, error: StoreError)
      modifies this
      ensures SaveStep(old(rows), inputs, rows, success)
      ensures reply == Ran && ValidBatch(inputs) ==>
                rows == ApplyAll(old(rows), inputs) && success == Admitted(old(rows), inputs)
      ensures reply == Ran && ValidBatch(inputs) ==>
                error == if Refused(old(rows), inputs) == [] then NoError else Stale(Refused(old(rows), inputs))
      ensures !ValidBatch(inputs) ==> error == Invalid && success == [] && rows == old(rows)
      ensures reply != Ran && ValidBatch(inputs) && inputs != [] ==>
                error.Failed? && rows == if reply == Lost(false) then old(rows) else ApplyAll(old(rows), inputs)
    {
      if |inputs| == 0 {
        return [], NoError;
      }
      if |inputs| == 1 {
        error := SaveOne(inputs[0], reply);
        assert inputs == [inputs[0]];
        SingleBatch(old(rows), inputs);
        if error != NoError {
          return [], error;
        }
        return [inputs[0].actorId], NoError;
      }
      success, error := SaveBatch(inputs, reply);
    }

    method SaveOne(input: Snapshot, reply: Reply) returns (error: StoreError)
      modifies this
      ensures SaveStep(old(rows), [input], rows, if error == NoError then [input.actorId] else [])
      ensures error == NoError ==> Acceptable(input) && Admits(old(rows), input) && reply == Ran
      ensures Acceptable(input) ==> rows == if reply == Lost(false) then old(rows) else ApplyAll(old(rows), [input])
      ensures Acceptable(input) && reply != Ran ==> error == Failed([input.actorId], [])
      ensures Acceptable(input) && reply == Ran ==>
                error == if Admits(old(rows), input) then NoError else Stale([input.actorId])
      ensures !Acceptable(input) ==> error == Invalid && rows == old(rows)
    {
      SingleBatch(rows, [input]);
      if !Acceptable(input) {
        return Invalid;
      }
      ApplyAllIsSaveStep(rows, [input], Admitted(rows, [input]));
      var returned := InsertOnConflict([input], reply);
      if reply != Ran {
        return Failed([input.actorId], []);
      }
      if |returned| == 0 {
        return Stale([input.actorId]);
      }
      return NoError;
    }

    method SaveBatch(inputs: seq<Snapshot>, reply: Reply) returns (success: seq<ActorId>, error: StoreError)
      modifies this
      ensures SaveStep(old(rows), inputs, rows, success)
      ensures reply == Ran && ValidBatch(inputs) ==>
                rows == ApplyAll(old(rows), inputs) && success == Admitted(old(rows), inputs)
      ensures reply == Ran && ValidBatch(inputs) ==>
                error == if Refused(old(rows), inputs) == [] then NoError else Stale(Refused(old(rows), inputs))
      ensures !ValidBatch(inputs) ==> error == Invalid && success == [] && rows == old(rows)
      ensures reply != Ran && ValidBatch(inputs) ==>
                && error == Failed([], [])
                && rows == (if reply == Lost(false) then old(rows) else ApplyAll(old(rows), inputs))
                && success == if reply.Lost? then [] else FirstOf(Admitted(old(rows), inputs), reply.rowsRead)
    {
      var ok := ValidateBatch(inputs);
      if !ok {
        return [], Invalid;
      }
      ApplyAllIsSaveStep(rows, inputs, Admitted(rows, inputs));
      var returned := InsertOnConflict(inputs, reply);
      if reply.Lost? {
        return [], Failed([], []);
      }
      var cut;
      success, cut := ReadRows(returned, reply);
      if cut {
        return success, Failed([], []);
      }
      AdmittedOrRefused(old(rows), inputs);
      if |success| == |inputs| {
        return success, NoError;
      }
      var stale := StaleOf(old(rows), inputs, success);
      return success, Stale(stale);
    }

    /** The ids of the rows returned, as far as they can be read. */
    static method ReadRows(returned: seq<ActorId>, reply: Reply) returns (success: seq<ActorId>, cut: bool)
      ensures cut <==> reply.CutShort?
      ensures success == if reply.CutShort? then FirstOf(returned, reply.rowsRead) else returned
    {
      success := [];
      for i := 0 to |returned|
        invariant success == returned[..i] && (reply.CutShort? ==> i <= reply.rowsRead)
      {
        if reply.CutShort? && i == reply.rowsRead {
          return success, true;
        }
        success := success + [returned[i]];
      }
      return success, reply.CutShort?;
    }

    /** The inputs whose id was not returned, in the order of the batch. */
    static method StaleOf(ghost table: Table, inputs: seq<Snapshot>, success: seq<ActorId>) returns (stale: seq<ActorId>)
      requires DistinctActors(inputs) && success == Admitted(table, inputs)
      ensures stale == Refused(table, inputs)
    {
      var successSet := set id | id in success;
      stale := [];
      for i := 0 to |inputs|
        invariant stale == Refused(table, inputs[..i])
      {
        AdmittedExactly(table, inputs, i);
        assert inputs[..i + 1][..i] == inputs[..i];
        if inputs[i].actorId !in successSet {
          stale := stale + [inputs[i].actorId];
        }
      }
      assert inputs[..|inputs|] == inputs;
    }

    /** `UPDATE ... SET version = version + 1 ... RETURNING`; a lost reply may have run. */
    method Load(id: ActorId, reply: Reply) returns (loaded: Snapshot, error: StoreError)
      requires SoundTable(rows)
      requires forall a :: a in rows ==> rows[a].version.Some?
      modifies this
      ensures error == NoError ==> LoadStep(old(rows), id, rows, loaded)
      ensures error != NoError ==> FailedLoadStep(old(rows), id, rows)
      ensures error == if Blank(id.text) then Invalid else if reply != Ran then Failed([id], [])
                       else if id in old(rows) then NoError else NotFound
      ensures rows == if !Blank(id.text) && id in old(rows) && reply != Lost(false) then MovedOn(old(rows), id) else old(rows)
      ensures forall a :: a in rows ==> rows[a].version.Some?
    {
      loaded := Snapshot(id, "", 0, 0, "", []);
      if Blank(id.text) {
        return loaded, Invalid;
      }
      if id in rows && reply != Lost(false) {
        rows := rows[id := rows[id].(version := Some(rows[id].version.value + 1))];
        assert LoadStep(old(rows), id, rows, SnapshotOf(id, rows[id]));
      }
      if reply != Ran {
        return loaded, Failed([id], []);
      }
      if id !in rows {
        return loaded, NotFound;
      }
      return SnapshotOf(id, rows[id]), NoError;
    }
  }

  /** The row as the next owner has it: its version is the next one, a missing one counting as 0. */
  function MovedOn(table: Table, id: ActorId): Table
    requires id in table
  {
    table[id := table[id].(version := Some(table[id].version.GetOr(0) + 1))]
  }

  /** What was read of the list before reading failed. */
  function FirstOf<T>(list: seq<T>, n: nat): seq<T> {
    if n < |list| then list[..n] else list
  }

  lemma SingleBatch(table: Table, inputs: seq<Snapshot>)
    requires |inputs| == 1
    ensures ValidBatch(inputs) <==> Acceptable(inputs[0])
    ensures Admitted(table, inputs) == if Admits(table, inputs[0]) then [inputs[0].actorId] else []
    ensures Refused(table, inputs) == if Admits(table, inputs[0]) then [] else [inputs[0].actorId]
    ensures ApplyAll(table, inputs) == if Admits(table, inputs[0]) then table[inputs[0].actorId := RowOf(inputs[0])] else table
  {
  }

  lemma AdmittedExactly(table: Table, inputs: seq<Snapshot>, i: nat)
    requires DistinctActors(inputs) && i < |inputs|
    ensures inputs[i].actorId in Admitted(table, inputs) <==> Admits(table, inputs[i])
  {
    ApplyAllIs(table, inputs, |inputs|);
    assert inputs[..|inputs|] == inputs;
  }

  // ---------- MongoDB ----------

  /** One failed write of a bulk: the fence shows as a duplicate key. */
  datatype WriteError = WriteError(index: int, duplicateKey: bool)

  datatype BulkReply =
    | BulkRan
    | BulkException(writeErrors: seq<WriteError>, writeConcernFailed: bool)
    | BulkLost

  /** What the network and the server make of a bulk: writes that fail for a reason other
      than the fence, an unconfirmed write concern, or a lost reply with unknown effect. */
  datatype Fate = Fate(failing: set<nat>, writeConcernFailed: bool, lost: bool)

  predicate Writes(docs: Table, inputs: seq<Snapshot>, failing: set<nat>, i: nat)
    requires i < |inputs|
  {
    Admits(docs, inputs[i]) && i !in failing
  }

  ghost predicate ErrorsFor(docs: Table, inputs: seq<Snapshot>, failing: set<nat>, n: nat, errors: seq<WriteError>)
    requires n <= |inputs|
  {
    && (forall e :: e in errors ==>
          0 <= e.index < n && !Writes(docs, inputs, failing, e.index) && (e.duplicateKey <==> !Admits(docs, inputs[e.index])))
    && (forall i :: 0 <= i < n && !Writes(docs, inputs, failing, i) ==>
          WriteError(i, !Admits(docs, inputs[i])) in errors)
  }

  /** The table after the writes among the first `n` that the fence and the server let through. */
  ghost predicate WrittenUpTo(docs: Table, inputs: seq<Snapshot>, failing: set<nat>, n: nat, after: Table)
    requires n <= |inputs|
  {
    && docs.Keys <= after.Keys
    && (forall id :: id in after ==>
          (id in docs && after[id] == docs[id])
          || exists i :: 0 <= i < n && WroteAt(docs, inputs, failing, after, id, i))
    && (forall i :: 0 <= i < n && Writes(docs, inputs, failing, i) ==>
          inputs[i].actorId in after && after[inputs[i].actorId] == RowOf(inputs[i]))
    && (forall i :: n <= i < |inputs| ==>
          (inputs[i].actorId in after <==> inputs[i].actorId in docs)
          && (inputs[i].actorId in docs ==> after[inputs[i].actorId] == docs[inputs[i].actorId]))
  }

  ghost predicate WroteAt(docs: Table, inputs: seq<Snapshot>, failing: set<nat>, after: Table, id: ActorId, i: nat)
    requires i < |inputs| && id in after
  {
    inputs[i].actorId == id && Writes(docs, inputs, failing, i) && after[id] == RowOf(inputs[i])
  }

  lemma RefuseNext(was: Table, inputs: seq<Snapshot>, failing: set<nat>, i: nat, docs: Table)
    requires i < |inputs| && WrittenUpTo(was, inputs, failing, i, docs) && !Writes(was, inputs, failing, i)
    ensures WrittenUpTo(was, inputs, failing, i + 1, docs)
  {
  }

  lemma AcceptNext(was: Table, inputs: seq<Snapshot>, failing: set<nat>, i: nat, docs: Table)
    requires DistinctActors(inputs) && i < |inputs| && WrittenUpTo(was, inputs, failing, i, docs)
    requires Writes(was, inputs, failing, i)
    ensures WrittenUpTo(was, inputs, failing, i + 1, docs[inputs[i].actorId := RowOf(inputs[i])])
  {
    var after := docs[inputs[i].actorId := RowOf(inputs[i])];
    assert WroteAt(was, inputs, failing, after, inputs[i].actorId, i);
    forall id | id in after && id != inputs[i].actorId && !(id in was && after[id] == was[id])
      ensures exists j :: 0 <= j < i + 1 && WroteAt(was, inputs, failing, after, id, j)
    {
      var j :| 0 <= j < i && WroteAt(was, inputs, failing, docs, id, j);
      assert WroteAt(was, inputs, failing, after, id, j);
    }
  }

  lemma WrittenIsSaveStep(docs: Table, inputs: seq<Snapshot>, failing: set<nat>, after: Table, reported: seq<ActorId>)
    requires ValidBatch(inputs) && WrittenUpTo(docs, inputs, failing, |inputs|, after)
    requires forall id :: id in reported ==>
               exists i :: 0 <= i < |inputs| && inputs[i].actorId == id && Writes(docs, inputs, failing, i)
    ensures SaveStep(docs, inputs, after, reported)
  {
  }

  /** The writes of a bulk that did not happen, because of the fence or for another reason. */
  ghost predicate FailedAt(docs: Table, inputs: seq<Snapshot>, failing: set<nat>, id: ActorId, stale: bool) {
    exists i :: 0 <= i < |inputs| && inputs[i].actorId == id && !Writes(docs, inputs, failing, i) && (stale <==> !Admits(docs, inputs[i]))
  }

  ghost predicate WroteFor(docs: Table, inputs: seq<Snapshot>, failing: set<nat>, id: ActorId) {
    exists i :: 0 <= i < |inputs| && inputs[i].actorId == id && Writes(docs, inputs, failing, i)
  }

  ghost predicate Confirmed(fate: Fate) {
    !fate.lost && !fate.writeConcernFailed
  }

  /** The ids reported are those written, if that was confirmed, and there is no error exactly
      when all of them were. */
  ghost predicate Succeeded(docs: Table, inputs: seq<Snapshot>, fate: Fate, success: seq<ActorId>, error: StoreError) {
    && (forall id :: id in success <==> Confirmed(fate) && WroteFor(docs, inputs, fate.failing, id))
    && (error == NoError <==> Confirmed(fate) && forall i :: 0 <= i < |inputs| ==> Writes(docs, inputs, fate.failing, i))
    && (error.NoError? || error.Stale? || error.Failed?)
  }

  /** The error of a bulk: stale when the fence alone stood in the way, else a failure, with the
      ids concerned. */
  ghost predicate Refusal(docs: Table, inputs: seq<Snapshot>, fate: Fate, error: StoreError) {
    && (error.Stale? <==>
          && Confirmed(fate) && error != NoError
          && forall i :: 0 <= i < |inputs| && !Writes(docs, inputs, fate.failing, i) ==> !Admits(docs, inputs[i]))
    && (error.Stale? ==> forall id :: id in error.actors <==> FailedAt(docs, inputs, fate.failing, id, true))
    && (error.Failed? && !fate.lost ==>
          && (forall id :: id in error.stale <==> FailedAt(docs, inputs, fate.failing, id, true))
          && (forall id :: id in error.actors <==> FailedAt(docs, inputs, fate.failing, id, false)))
  }

  /** The write errors of a bulk are its failed writes, and its duplicate keys the stale ones. */
  lemma ErrorsMean(docs: Table, inputs: seq<Snapshot>, failing: set<nat>, errors: seq<WriteError>)
    requires ErrorsFor(docs, inputs, failing, |inputs|, errors)
    ensures forall i :: 0 <= i < |inputs| ==> (Named(errors, i) <==> !Writes(docs, inputs, failing, i))
    ensures forall id, stale :: FailedAt(docs, inputs, failing, id, stale) <==>
              exists e :: e in errors && e.duplicateKey == stale && NameOf(inputs, e) == id
    ensures errors == [] <==> forall i :: 0 <= i < |inputs| ==> Writes(docs, inputs, failing, i)
    ensures (forall e :: e in errors ==> e.duplicateKey) <==>
              forall i :: 0 <= i < |inputs| && !Writes(docs, inputs, failing, i) ==> !Admits(docs, inputs[i])
  {
    forall id, stale ensures FailedAt(docs, inputs, failing, id, stale) <==>
              exists e :: e in errors && e.duplicateKey == stale && NameOf(inputs, e) == id
    {
      ErrorsNamed(docs, inputs, failing, errors, id, stale);
    }
    assert errors != [] ==> errors[0] in errors;
  }

  lemma ErrorsNamed(docs: Table, inputs: seq<Snapshot>, failing: set<nat>, errors: seq<WriteError>, id: ActorId, stale: bool)
    requires ErrorsFor(docs, inputs, failing, |inputs|, errors)
    ensures FailedAt(docs, inputs, failing, id, stale) <==> exists e :: e in errors && e.duplicateKey == stale && NameOf(inputs, e) == id
  {
    if FailedAt(docs, inputs, failing, id, stale) {
      var i :| 0 <= i < |inputs| && inputs[i].actorId == id && !Writes(docs, inputs, failing, i) && (stale <==> !Admits(docs, inputs[i]));
      assert NameOf(inputs, WriteError(i, stale)) == id && WriteError(i, stale) in errors;
    }
  }

  /** A batch of one, saved by itself. */
  lemma SingleWrite(docs: Table, inputs: seq<Snapshot>, fate: Fate, after: Table, error: StoreError)
    requires |inputs| == 1
    requires var input := inputs[0];
             && error == (if !Acceptable(input) then Invalid
                          else if 0 in fate.failing || fate.lost || fate.writeConcernFailed then Failed([input.actorId], [])
                          else if Admits(docs, input) then NoError else Stale([input.actorId]))
             && after == if Acceptable(input) && 0 !in fate.failing && Admits(docs, input) then docs[input.actorId := RowOf(input)] else docs
    ensures Acceptable(inputs[0]) ==> WrittenUpTo(docs, inputs, fate.failing, 1, after)
    ensures Acceptable(inputs[0]) ==>
              Succeeded(docs, inputs, fate, if error == NoError then [inputs[0].actorId] else [], error)
  {
    if Acceptable(inputs[0]) {
      if Writes(docs, inputs, fate.failing, 0) {
        AcceptNext(docs, inputs, fate.failing, 0, docs);
      } else {
        RefuseNext(docs, inputs, fate.failing, 0, docs);
      }
    }
  }

  class MongoStore {
    var docs: Table

    /** The unordered bulk of fenced upserts: a write the filter does not match tries to
        insert its `_id` again and fails on the duplicate key. */
    method BulkWrite(inputs: seq<Snapshot>, fate: Fate) returns (reply: BulkReply)
      requires ValidBatch(inputs)
      modifies this
      ensures WrittenUpTo(old(docs), inputs, fate.failing, |inputs|, docs)
      ensures reply.BulkLost? <==> fate.lost
      ensures reply.BulkRan? ==> !fate.writeConcernFailed
      ensures reply.BulkRan? ==> forall i :: 0 <= i < |inputs| ==> Writes(old(docs), inputs, fate.failing, i)
      ensures reply.BulkException? ==> reply.writeConcernFailed == fate.writeConcernFailed && (reply.writeErrors != [] || fate.writeConcernFailed)
      ensures reply.BulkException? ==> ErrorsFor(old(docs), inputs, fate.failing, |inputs|, reply.writeErrors)
    {
      var errors: seq<WriteError> := [];
      for i := 0 to |inputs|
        invariant WrittenUpTo(old(docs), inputs, fate.failing, i, docs)
        invariant ErrorsFor(old(docs), inputs, fate.failing, i, errors)
      {
        errors := WriteOne(old(docs), inputs, fate.failing, i, errors);
      }
      if fate.lost {
        return BulkLost;
      }
      if |errors| == 0 && !fate.writeConcernFailed {
        return BulkRan;
      }
      return BulkException(errors, fate.writeConcernFailed);
    }

    method WriteOne(ghost was: Table, inputs: seq<Snapshot>, failing: set<nat>, i: nat, errors: seq<WriteError>)
        returns (errors': seq<WriteError>)
      requires ValidBatch(inputs) && i < |inputs|
      requires WrittenUpTo(was, inputs, failing, i, docs) && ErrorsFor(was, inputs, failing, i, errors)
      modifies this
      ensures WrittenUpTo(was, inputs, failing, i + 1, docs) && ErrorsFor(was, inputs, failing, i + 1, errors')
    {
      var doc := inputs[i];
      if i in failing || !Admits(docs, doc) {
        errors' := errors + [WriteError(i, !Admits(docs, doc))];
        RefuseNext(was, inputs, failing, i, docs);
      } else {
        errors' := errors;
        AcceptNext(was, inputs, failing, i, docs);
        docs := docs[doc.actorId := RowOf(doc)];
      }
    }

    method Save(inputs: seq<Snapshot>, fate: Fate) returns (success: seq<ActorId>, error: StoreError)
      modifies this
      ensures SaveStep(old(docs), inputs, docs, success)
      ensures ValidBatch(inputs) ==> WrittenUpTo(old(docs), inputs, fate.failing, |inputs|, docs)
      ensures ValidBatch(inputs) ==> Succeeded(old(docs), inputs, if inputs == [] then Fate({}, false, false) else fate, success, error)
      ensures !ValidBatch(inputs) ==> error == Invalid && success == [] && docs == old(docs)
    {
      if |inputs| == 0 {
        return [], NoError;
      }
      if |inputs| == 1 {
        success, error := SaveSingle(inputs, fate);
        return;
      }
      success, error := SaveBatch(inputs, fate);
    }

    method SaveSingle(inputs: seq<Snapshot>, fate: Fate) returns (success: seq<ActorId>, error: StoreError)
      requires |inputs| == 1
      modifies this
      ensures SaveStep(old(docs), inputs, docs, success)
      ensures ValidBatch(inputs) ==> WrittenUpTo(old(docs), inputs, fate.failing, 1, docs) && Succeeded(old(docs), inputs, fate, success, error)
      ensures !ValidBatch(inputs) ==> error == Invalid && success == [] && docs == old(docs)
    {
      error := SaveOne(inputs[0], fate);
      assert inputs == [inputs[0]];
      SingleBatch(old(docs), inputs);
      SingleWrite(old(docs), inputs, fate, docs, error);
      success := if error != NoError then [] else [inputs[0].actorId];
    }

    /** A single fenced upsert; unlike a bulk it reports a failed write concern as an error
        of the call. */
    method SaveOne(input: Snapshot, fate: Fate) returns (error: StoreError)
      modifies this
      ensures SaveStep(old(docs), [input], docs, if error == NoError then [input.actorId] else [])
      ensures error == NoError ==> Acceptable(input) && Admits(old(docs), input)
      ensures error == if !Acceptable(input) then Invalid
                       else if 0 in fate.failing || fate.lost || fate.writeConcernFailed then Failed([input.actorId], [])
                       else if Admits(old(docs), input) then NoError else Stale([input.actorId])
      ensures docs == if Acceptable(input) && 0 !in fate.failing && Admits(old(docs), input)
                      then old(docs)[input.actorId := RowOf(input)] else old(docs)
    {
      if !Acceptable(input) {
        return Invalid;
      }
      assert [input][0] in [input];
      if 0 in fate.failing {
        return Failed([input.actorId], []);
      }
      if !Admits(docs, input) {
        return if fate.lost || fate.writeConcernFailed then Failed([input.actorId], []) else Stale([input.actorId]);
      }
      docs := docs[input.actorId := RowOf(input)];
      assert WrittenBy(old(docs), [input], docs, input.actorId);
      return if fate.lost || fate.writeConcernFailed then Failed([input.actorId], []) else NoError;
    }

    method SaveBatch(inputs: seq<Snapshot>, fate: Fate) returns (success: seq<ActorId>, error: StoreError)
      modifies this
      ensures SaveStep(old(docs), inputs, docs, success)
      ensures ValidBatch(inputs) ==> WrittenUpTo(old(docs), inputs, fate.failing, |inputs|, docs)
      ensures ValidBatch(inputs) && inputs != [] ==> Succeeded(old(docs), inputs, fate, success, error) && Refusal(old(docs), inputs, fate, error)
      ensures !ValidBatch(inputs) ==> error == Invalid && success == [] && docs == old(docs)
      ensures inputs == [] ==> error == NoError && success == []
    {
      var ok := ValidateBatch(inputs);
      if !ok {
        return [], Invalid;
      }
      if |inputs| == 0 {
        return [], NoError;
      }
      var reply := BulkWrite(inputs, fate);
      if reply.BulkRan? {
        success := IdsOf(inputs);
        WrittenIsSaveStep(old(docs), inputs, fate.failing, docs, success);
        return success, NoError;
      }
      success := SuccessfulActorIDs(inputs, reply);
      error := ClassifyBulkError(inputs, reply);
      if reply.BulkException? {
        ErrorsMean(old(docs), inputs, fate.failing, reply.writeErrors);
      }
      WrittenIsSaveStep(old(docs), inputs, fate.failing, docs, success);
    }

    static method IdsOf(inputs: seq<Snapshot>) returns (ids: seq<ActorId>)
      ensures |ids| == |inputs| && forall i :: 0 <= i < |inputs| ==> ids[i] == inputs[i].actorId
    {
      ids := [];
      for i := 0 to |inputs|
        invariant |ids| == i && forall j :: 0 <= j < i ==> ids[j] == inputs[j].actorId
      {
        ids := ids + [inputs[i].actorId];
      }
    }

    /** The inputs no write error names, or none at all when the reply confirms nothing. */
    static method SuccessfulActorIDs(inputs: seq<Snapshot>, reply: BulkReply) returns (success: seq<ActorId>)
      requires !reply.BulkRan?
      ensures reply.BulkLost? || reply.writeConcernFailed ==> success == []
      ensures reply.BulkException? && !reply.writeConcernFailed ==>
                forall id :: id in success <==>
                  exists i :: 0 <= i < |inputs| && inputs[i].actorId == id && !Named(reply.writeErrors, i)
    {
      if reply.BulkLost? || reply.writeConcernFailed {
        return [];
      }
      var failed: set<int> := {};
      for k := 0 to |reply.writeErrors|
        invariant forall i :: i in failed <==> exists l :: 0 <= l < k && reply.writeErrors[l].index == i
      {
        failed := failed + {reply.writeErrors[k].index};
      }
      success := [];
      for index := 0 to |inputs|
        invariant forall id :: id in success <==>
          exists i :: 0 <= i < index && inputs[i].actorId == id && !Named(reply.writeErrors, i)
      {
        assert index in failed <==> Named(reply.writeErrors, index);
        if index !in failed {
          success := success + [inputs[index].actorId];
        }
      }
    }

    /** Duplicate keys are stale snapshots, everything else is a failure of its own.  An index
        outside the batch names nobody. */
    static method ClassifyBulkError(inputs: seq<Snapshot>, reply: BulkReply) returns (error: StoreError)
      requires !reply.BulkRan?
      ensures error.Stale? <==>
                && reply.BulkException? && !reply.writeConcernFailed && reply.writeErrors != []
                && forall e :: e in reply.writeErrors ==> e.duplicateKey
      ensures !error.Stale? ==> error.Failed?
      ensures reply.BulkException? ==>
                var stale := if error.Stale? then error.actors else error.stale;
                forall id :: id in stale <==> exists e :: e in reply.writeErrors && e.duplicateKey && NameOf(inputs, e) == id
      ensures reply.BulkException? && error.Failed? ==>
                forall id :: id in error.actors <==> exists e :: e in reply.writeErrors && !e.duplicateKey && NameOf(inputs, e) == id
    {
      if reply.BulkLost? {
        return Failed([], []);
      }
      var stale: seq<ActorId> := [];
      var other: seq<ActorId> := [];
      for k := 0 to |reply.writeErrors|
        invariant forall id :: id in stale <==>
          exists l :: 0 <= l < k && reply.writeErrors[l].duplicateKey && NameOf(inputs, reply.writeErrors[l]) == id
        invariant forall id :: id in other <==>
          exists l :: 0 <= l < k && !reply.writeErrors[l].duplicateKey && NameOf(inputs, reply.writeErrors[l]) == id
        invariant |stale| + |other| == k
      {
        var item := reply.writeErrors[k];
        if item.duplicateKey {
          stale := stale + [NameOf(inputs, item)];
        } else {
          other := other + [NameOf(inputs, item)];
        }
      }
      if |other| == 0 && !reply.writeConcernFailed && |stale| != 0 {
        assert forall e :: e in reply.writeErrors && !e.duplicateKey ==> NameOf(inputs, e) in other;
        return Stale(stale);
      }
      assert |other| != 0 ==> other[0] in other;
      return Failed(other, stale);
    }

    /** `$inc` of a missing version starts at one. */
    method Load(id: ActorId, reply: Reply) returns (loaded: Snapshot, error: StoreError)
      requires SoundTable(docs)
      modifies this
      ensures error == NoError ==> LoadStep(old(docs), id, docs, loaded)
      ensures error != NoError ==> FailedLoadStep(old(docs), id, docs)
      ensures error == if Blank(id.text) then Invalid else if reply != Ran then Failed([id], [])
                       else if id in old(docs) then NoError else NotFound
      ensures docs == if !Blank(id.text) && id in old(docs) && reply != Lost(false) then MovedOn(old(docs), id) else old(docs)
    {
      loaded := Snapshot(id, "", 0, 0, "", []);
      if Blank(id.text) {
        return loaded, Invalid;
      }
      if id in docs && reply != Lost(false) {
        docs := docs[id := docs[id].(version := Some(docs[id].version.GetOr(0) + 1))];
        assert LoadStep(old(docs), id, docs, SnapshotOf(id, docs[id]));
      }
      if reply != Ran {
        return loaded, Failed([id], []);
      }
      if id !in docs {
        return loaded, NotFound;
      }
      return SnapshotOf(id, docs[id]), NoError;
    }
  }

  function NameOf(inputs: seq<Snapshot>, e: WriteError): ActorId {
    if 0 <= e.index < |inputs| then inputs[e.index].actorId else ActorId("?")
  }

  predicate Named(errors: seq<WriteError>, i: nat) {
    exists k :: 0 <= k < |errors| && errors[k].index == i
  }
}
