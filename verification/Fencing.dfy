/**
  What the snapshot stores guarantee (storage/storage.go and the query text of both
  stores): a row is only ever replaced by a snapshot of at least its version, and every
  load moves the version past all snapshots of earlier owners.
*/
module Fencing {
  import opened Types

  datatype Snapshot = Snapshot(
    actorId: ActorId,
    actorType: string,
    version: int,
    offset: Offset,
    state: string,
    dedup: seq<MessageId>)

  /** A stored row; only a MongoDB document can lack its version field. */
  datatype Row = Row(actorType: string, version: Option<int>, offset: Offset, state: string, dedup: seq<MessageId>)

  type Table = map<ActorId, Row>

  // ---------- validation ----------

  predicate IsSpace(c: char) {
    || '\t' <= c <= '\r' || c == ' ' || c == '\U{85}' || c == '\U{A0}' || c == '\U{1680}'
    || '\U{2000}' <= c <= '\U{200A}' || c == '\U{2028}' || c == '\U{2029}' || c == '\U{202F}'
    || c == '\U{205F}' || c == '\U{3000}'
  }

  /** `strings.TrimSpace` of the text leaves nothing. */
  predicate Blank(text: string) {
    forall i :: 0 <= i < |text| ==> IsSpace(text[i])
  }

  predicate Acceptable(s: Snapshot) {
    !Blank(s.actorId.text) && 0 <= s.version && 0 <= s.offset
  }

  ghost predicate DistinctActors(inputs: seq<Snapshot>) {
    forall i, j :: 0 <= i < j < |inputs| ==> inputs[i].actorId != inputs[j].actorId
  }

  ghost predicate ValidBatch(inputs: seq<Snapshot>) {
    && DistinctActors(inputs)
    && forall i :: 0 <= i < |inputs| ==> Acceptable(inputs[i])
  }

  method ValidateBatch(inputs: seq<Snapshot>) returns (ok: bool)
    ensures ok <==> ValidBatch(inputs)
  {
    var seen: set<ActorId> := {};
    for i := 0 to |inputs|
      invariant ValidBatch(inputs[..i])
      invariant forall a :: a in seen <==> exists j :: 0 <= j < i && inputs[j].actorId == a
    {
      if !Acceptable(inputs[i]) {
        return false;
      }
      if inputs[i].actorId in seen {
        return false;
      }
      seen := seen + {inputs[i].actorId};
    }
    assert inputs[..|inputs|] == inputs;
    return true;
  }

  function RowOf(s: Snapshot): Row {
    Row(s.actorType, Some(s.version), s.offset, s.state, s.dedup)
  }

  function SnapshotOf(id: ActorId, row: Row): Snapshot {
    Snapshot(id, row.actorType, row.version.GetOr(0), row.offset, row.state, row.dedup)
  }

  /** A saved snapshot is what the row gives back. */
  lemma RowRoundTrip(s: Snapshot)
    ensures SnapshotOf(s.actorId, RowOf(s)) == s
  {
  }

  // ---------- the conditional write ----------

  function VersionOf(table: Table, id: ActorId): int {
    if id in table then table[id].version.GetOr(-1) else -1
  }

  ghost predicate SoundTable(table: Table) {
    forall id :: id in table && table[id].version.Some? ==> 0 <= table[id].version.value
  }

  /** The fence: no row, no version, or a version not above the written one. */
  predicate Admits(table: Table, s: Snapshot) {
    s.actorId in table ==> table[s.actorId].version.GetOr(s.version) <= s.version
  }

  /** Every row is as before or holds one of the inputs, which the fence let through; only
      rows that hold their input are reported. */
  ghost predicate SaveStep(before: Table, inputs: seq<Snapshot>, after: Table, reported: seq<ActorId>) {
    && before.Keys <= after.Keys
    && (forall id :: id in after ==>
          (id in before && after[id] == before[id]) || WrittenBy(before, inputs, after, id))
    && (forall id :: id in reported ==> id in after && WrittenBy(before, inputs, after, id))
  }

  ghost predicate WrittenBy(before: Table, inputs: seq<Snapshot>, after: Table, id: ActorId)
    requires id in after
  {
    exists s :: s in inputs && s.actorId == id && Acceptable(s) && Admits(before, s) && after[id] == RowOf(s)
  }

  /** `version = version + 1 ... RETURNING`: the row moves on and is handed out. */
  ghost predicate LoadStep(before: Table, id: ActorId, after: Table, loaded: Snapshot) {
    && id in before && loaded.version == before[id].version.GetOr(0) + 1
    && after == before[id := before[id].(version := Some(loaded.version))]
    && loaded == SnapshotOf(id, after[id])
  }

  /** A load that failed: nothing happened, or the version moved on and the reply was lost. */
  ghost predicate FailedLoadStep(before: Table, id: ActorId, after: Table) {
    || after == before
    || exists loaded: Snapshot :: LoadStep(before, id, after, loaded)
  }

  // ---------- interleaved owners ----------

  datatype Event =
    | Loaded(id: ActorId, snapshot: Snapshot)
    | NotLoaded(id: ActorId)
    | Saved(inputs: seq<Snapshot>, reported: seq<ActorId>)

  ghost predicate Step(before: Table, e: Event, after: Table) {
    match e
    case Loaded(id, snapshot) => LoadStep(before, id, after, snapshot)
    case NotLoaded(id) => FailedLoadStep(before, id, after)
    case Saved(inputs, reported) => SaveStep(before, inputs, after, reported)
  }

  /** Any number of owners loading and saving in any order. */
  ghost predicate Run(tables: seq<Table>, events: seq<Event>) {
    && |tables| == |events| + 1
    && SoundTable(tables[0])
    && forall i :: 0 <= i < |events| ==> Step(tables[i], events[i], tables[i + 1])
  }

  lemma StepKeepsVersions(before: Table, e: Event, after: Table, id: ActorId)
    requires SoundTable(before) && Step(before, e, after)
    ensures SoundTable(after) && VersionOf(before, id) <= VersionOf(after, id)
    ensures id in before ==> id in after
  {
  }

  lemma {:induction false} RunStaysSound(tables: seq<Table>, events: seq<Event>, i: nat)
    requires Run(tables, events) && i < |tables|
    ensures SoundTable(tables[i])
  {
    if i > 0 {
      RunStaysSound(tables, events, i - 1);
      assert Step(tables[i - 1], events[i - 1], tables[i]);
      StepKeepsVersions(tables[i - 1], events[i - 1], tables[i], ActorId(""));
    }
  }

  /** The version of a row never decreases, whoever writes. */
  lemma {:induction false} VersionsNeverDecrease(tables: seq<Table>, events: seq<Event>, i: nat, j: nat, id: ActorId)
    requires Run(tables, events) && i <= j < |tables|
    ensures VersionOf(tables[i], id) <= VersionOf(tables[j], id)
    ensures id in tables[i] ==> id in tables[j]
    decreases j
  {
    if i < j {
      VersionsNeverDecrease(tables, events, i, j - 1, id);
      RunStaysSound(tables, events, j - 1);
      assert Step(tables[j - 1], events[j - 1], tables[j]);
      StepKeepsVersions(tables[j - 1], events[j - 1], tables[j], id);
    }
  }

  /** A load leaves the row at the version it hands out. */
  lemma AfterLoad(tables: seq<Table>, events: seq<Event>, i: nat, j: nat)
    requires Run(tables, events) && i < j < |tables| && events[i].Loaded?
    ensures events[i].id in tables[j] && events[i].snapshot.version <= VersionOf(tables[j], events[i].id)
  {
    assert Step(tables[i], events[i], tables[i + 1]);
    VersionsNeverDecrease(tables, events, i + 1, j, events[i].id);
  }

  /** Successive loads of an actor hand out strictly increasing versions. */
  lemma LoadsStrictlyIncrease(tables: seq<Table>, events: seq<Event>, i: nat, j: nat)
    requires Run(tables, events) && i < j < |events|
    requires events[i].Loaded? && events[j].Loaded? && events[i].id == events[j].id
    ensures events[i].snapshot.version < events[j].snapshot.version
  {
    AfterLoad(tables, events, i, j);
    assert Step(tables[j], events[j], tables[j + 1]);
  }

  /** Nobody loads the actor, or saves it with a version above `v`. */
  ghost predicate KeepsOwner(e: Event, id: ActorId, v: int) {
    match e
    case Loaded(a, _) => a != id
    case NotLoaded(a) => a != id
    case Saved(inputs, _) => forall s :: s in inputs && s.actorId == id ==> s.version <= v
  }

  lemma OwnerStep(before: Table, e: Event, after: Table, id: ActorId, v: int)
    requires SoundTable(before) && Step(before, e, after) && KeepsOwner(e, id, v)
    requires id in before && before[id].version == Some(v)
    ensures id in after && after[id].version == Some(v)
  {
    StepKeepsVersions(before, e, after, id);
    if e.Saved? && after[id] != before[id] {
      assert WrittenBy(before, e.inputs, after, id);
    }
  }

  lemma LoadStepVersion(tables: seq<Table>, events: seq<Event>, i: nat)
    requires Run(tables, events) && i < |events| && events[i].Loaded?
    ensures events[i].id in tables[i + 1] && tables[i + 1][events[i].id].version == Some(events[i].snapshot.version)
  {
    assert Step(tables[i], events[i], tables[i + 1]);
  }

  lemma {:induction false} OwnerKeepsVersion(tables: seq<Table>, events: seq<Event>, i: nat, j: nat)
    requires Run(tables, events) && i < j < |tables| && events[i].Loaded?
    requires forall k :: i < k < j ==> KeepsOwner(events[k], events[i].id, events[i].snapshot.version)
    ensures events[i].id in tables[j] && tables[j][events[i].id].version == Some(events[i].snapshot.version)
    decreases j
  {
    if j == i + 1 {
      LoadStepVersion(tables, events, i);
    } else {
      OwnerKeepsVersion(tables, events, i, j - 1);
      RunStaysSound(tables, events, j - 1);
      assert Step(tables[j - 1], events[j - 1], tables[j]);
      OwnerStep(tables[j - 1], events[j - 1], tables[j], events[i].id, events[i].snapshot.version);
    }
  }

  /** From a load until the next one the fence lets through exactly the snapshots of at least
      the version handed out: the owner may save as often as it likes. */
  lemma OwnerIsAdmitted(tables: seq<Table>, events: seq<Event>, i: nat, j: nat, s: Snapshot)
    requires Run(tables, events) && i < j < |tables| && events[i].Loaded? && s.actorId == events[i].id
    requires forall k :: i < k < j ==> KeepsOwner(events[k], events[i].id, events[i].snapshot.version)
    ensures Admits(tables[j], s) <==> events[i].snapshot.version <= s.version
  {
    OwnerKeepsVersion(tables, events, i, j);
  }

  /** A first snapshot is let through, and so is any for a row without a version. */
  lemma UnversionedIsAdmitted(table: Table, s: Snapshot)
    requires s.actorId in table ==> table[s.actorId].version.None?
    ensures Admits(table, s)
  {
  }

  /** A save older than a load changes nothing of that actor and is not reported. */
  lemma StaleSaveIsRefused(tables: seq<Table>, events: seq<Event>, i: nat, j: nat)
    requires Run(tables, events) && i < j < |events|
    requires events[i].Loaded? && events[j].Saved?
    requires forall s :: s in events[j].inputs && s.actorId == events[i].id ==> s.version < events[i].snapshot.version
    ensures events[i].id in tables[j] && events[i].id in tables[j + 1]
    ensures tables[j + 1][events[i].id] == tables[j][events[i].id]
    ensures events[i].id !in events[j].reported
  {
    AfterLoad(tables, events, i, j);
    AfterLoad(tables, events, i, j + 1);
    assert Step(tables[j], events[j], tables[j + 1]);
    assert !WrittenBy(tables[j], events[j].inputs, tables[j + 1], events[i].id);
  }

  /** What a save reported is stored and stays: the row holds the snapshot given for it, and
      whoever writes later, its version is never again below that. */
  lemma ReportedIsDurable(tables: seq<Table>, events: seq<Event>, j: nat, k: nat, id: ActorId) returns (s: Snapshot)
    requires Run(tables, events) && j < k < |tables| && events[j].Saved? && id in events[j].reported
    ensures s in events[j].inputs && s.actorId == id && Acceptable(s)
    ensures id in tables[j + 1] && tables[j + 1][id] == RowOf(s)
    ensures id in tables[k] && s.version <= VersionOf(tables[k], id)
  {
    assert Step(tables[j], events[j], tables[j + 1]);
    assert WrittenBy(tables[j], events[j].inputs, tables[j + 1], id);
    s :| s in events[j].inputs && s.actorId == id && Acceptable(s) && tables[j + 1][id] == RowOf(s);
    WrittenVersion(tables[j + 1], id, s);
    VersionsNeverDecrease(tables, events, j + 1, k, id);
  }

  lemma WrittenVersion(table: Table, id: ActorId, s: Snapshot)
    requires id in table && table[id] == RowOf(s)
    ensures VersionOf(table, id) == s.version
  {
    assert table[id].version.Some?;
  }

  /** A later save with only older snapshots of the actor neither changes its row nor reports it. */
  lemma OlderThanReportedIsRefused(tables: seq<Table>, events: seq<Event>, j: nat, k: nat, id: ActorId)
    requires Run(tables, events) && j < k < |events| && events[j].Saved? && events[k].Saved? && id in events[j].reported
    requires forall s, t :: s in events[j].inputs && t in events[k].inputs && s.actorId == t.actorId == id ==> t.version < s.version
    ensures id in tables[k] && id in tables[k + 1] && tables[k + 1][id] == tables[k][id]
    ensures id !in events[k].reported
  {
    var s := ReportedIsDurable(tables, events, j, k, id);
    assert Step(tables[k], events[k], tables[k + 1]);
    OlderIsRefused(tables[k], events[k].inputs, tables[k + 1], events[k].reported, id, s.version);
  }

  lemma OlderIsRefused(before: Table, inputs: seq<Snapshot>, after: Table, reported: seq<ActorId>, id: ActorId, version: int)
    requires SaveStep(before, inputs, after, reported) && id in before && 0 <= version <= VersionOf(before, id)
    requires forall t :: t in inputs && t.actorId == id ==> t.version < version
    ensures id in after && after[id] == before[id] && id !in reported
  {
    assert !WrittenBy(before, inputs, after, id);
  }
}
