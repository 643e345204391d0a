/**
 Agents and their version history: control-plane/api-server/src/agents/repository.ts.

 One incarnation of one agent: it is created once, and may be soft-deleted.  Each SQL statement is
 one atomic step.  `AgentRepository` runs `update` and `rollbackToVersion` without interference;
 the module AgentVersionRuns interleaves their statements.
 */
module AgentVersions {
  import opened Options

  /** A JSON object by its top-level keys; the values are JSON text. */
  type Json = map<string, string>

  datatype Content = Content(spec: Json, labels: Json, annotations: Json)
  datatype Row = Row(version: nat, content: Content)
  datatype Agent = Missing | Live(row: Row) | Deleted(row: Row)
  datatype Snapshot = Snapshot(version: nat, content: Content)
  datatype Db = Db(agent: Agent, versions: seq<Snapshot>)
  datatype Patch = Patch(spec: Option<Json>, labels: Option<Json>, annotations: Option<Json>)

  /** One element of the SET list of the UPDATE statement. */
  datatype Assignment = MergeSpec(spec: Json) | MergeLabels(labels: Json) | MergeAnnotations(annotations: Json) | BumpVersion

  // ----- Statements -----

  function SelectAgent(db: Db): Option<Row> {
    if db.agent.Live? then Some(db.agent.row) else None
  }

  function Inserted(db: Db, row: Row): Db {
    db.(versions := db.versions + [Snapshot(row.version, row.content)])
  }

  /** The rows for one version, in table order. */
  function Matching(versions: seq<Snapshot>, version: nat): (rows: seq<Snapshot>)
    ensures forall i :: 0 <= i < |rows| ==> rows[i] in versions && rows[i].version == version
    ensures rows == [] ==> forall i :: 0 <= i < |versions| ==> versions[i].version != version
  {
    if versions == [] then []
    else if versions[0].version == version then [versions[0]] + Matching(versions[1..], version)
    else Matching(versions[1..], version)
  }

  /** `getVersion`: the first row of an unordered result, so any matching row, as `pick` says. */
  function SelectVersion(db: Db, version: nat, pick: nat): (r: Option<Content>)
    ensures r.Some? ==> exists i :: 0 <= i < |db.versions| && db.versions[i] == Snapshot(version, r.value)
    ensures r.None? ==> !HasSnapshot(db.versions, version)
  {
    var rows := Matching(db.versions, version);
    if rows == [] then None
    else
      assert rows[pick % |rows|] in db.versions;
      Some(rows[pick % |rows|].content)
  }

  predicate HasSnapshot(versions: seq<Snapshot>, version: nat) {
    exists i :: 0 <= i < |versions| && versions[i].version == version
  }

  /** `json || patch` of PostgreSQL on objects: top-level keys of the patch win. */
  function Merged(json: Json, patch: Option<Json>): Json {
    if patch.Some? then json + patch.value else json
  }

  function Patched(content: Content, patch: Patch): Content {
    Content(Merged(content.spec, patch.spec), Merged(content.labels, patch.labels), Merged(content.annotations, patch.annotations))
  }

  /** No field is given; an empty object counts as given. */
  predicate NothingToSet(patch: Patch) {
    patch.spec.None? && patch.labels.None? && patch.annotations.None?
  }

  function Written(db: Db, content: Content): Db
    requires db.agent.Live?
  {
    db.(agent := Live(Row(db.agent.row.version + 1, content)))
  }

  /** The UPDATE of `update`, which touches no row unless the agent is live. */
  function UpdateMerged(db: Db, patch: Patch): Db {
    if db.agent.Live? then Written(db, Patched(db.agent.row.content, patch)) else db
  }

  function UpdateReplaced(db: Db, content: Content): Db {
    if db.agent.Live? then Written(db, content) else db
  }

  // ----- Whole operations without interference -----

  function UpdateAlone(db: Db, patch: Patch, snapshotOk: bool): Db {
    var saved := if db.agent.Live? && snapshotOk then Inserted(db, db.agent.row) else db;
    if NothingToSet(patch) then saved else UpdateMerged(saved, patch)
  }

  datatype RollbackResult = Returned(row: Option<Row>) | Threw

  function RollbackAlone(db: Db, target: nat, pick: nat, snapshotOk: bool): (Db, RollbackResult) {
    var content := SelectVersion(db, target, pick);
    if content.None? || !db.agent.Live? then (db, Returned(None))
    else if !snapshotOk then (db, Threw)
    else
      var db' := UpdateReplaced(Inserted(db, db.agent.row), content.value);
      (db', Returned(SelectAgent(db')))
  }

  function Assigned(row: Row, a: Assignment): Row {
    match a
    case MergeSpec(spec) => row.(content := row.content.(spec := row.content.spec + spec))
    case MergeLabels(labels) => row.(content := row.content.(labels := row.content.labels + labels))
    case MergeAnnotations(annotations) => row.(content := row.content.(annotations := row.content.annotations + annotations))
    case BumpVersion => row.(version := row.version + 1)
  }

  function AllAssigned(row: Row, sets: seq<Assignment>): Row
    decreases |sets|
  {
    if sets == [] then row else AllAssigned(Assigned(row, sets[0]), sets[1..])
  }

  class AgentRepository {
    var agent: Agent
    var versions: seq<Snapshot>

    function View(): Db
      reads this
    {
      Db(agent, versions)
    }

    constructor ()
      ensures View() == Db(Missing, [])
    {
      agent, versions := Missing, [];
    }

    method Create(content: Content) returns (row: Row)
      requires agent.Missing?
      modifies this`agent
      ensures row == Row(1, content) && agent == Live(row)
    {
      row := Row(1, content);
      agent := Live(row);
    }

    /** The source's INSERT can fail; `ok` says whether this one does. */
    method CreateVersionSnapshot(row: Row, ok: bool) returns (threw: bool)
      modifies this`versions
      ensures threw == !ok
      ensures View() == if ok then Inserted(old(View()), row) else old(View())
    {
      if !ok {
        return true;
      }
      versions := versions + [Snapshot(row.version, row.content)];
      return false;
    }

    method UpdateAgents(sets: seq<Assignment>) returns (row: Option<Row>)
      modifies this`agent
      ensures agent == if old(agent).Live? then Live(AllAssigned(old(agent).row, sets)) else old(agent)
      ensures row == SelectAgent(View())
    {
      if agent.Live? {
        agent := Live(AllAssigned(agent.row, sets));
        return Some(agent.row);
      }
      return None;
    }

    method Update(patch: Patch, snapshotOk: bool) returns (row: Option<Row>)
      modifies this
      ensures View() == UpdateAlone(old(View()), patch, snapshotOk) && row == SelectAgent(View())
    {
      var currentAgent := SelectAgent(View());
      if currentAgent.Some? {
        // A failed snapshot is not fatal here.
        var _ := CreateVersionSnapshot(currentAgent.value, snapshotOk);
      }
      var sets: seq<Assignment> := [];
      if patch.spec.Some? {
        sets := sets + [MergeSpec(patch.spec.value)];
      }
      if patch.labels.Some? {
        sets := sets + [MergeLabels(patch.labels.value)];
      }
      if patch.annotations.Some? {
        sets := sets + [MergeAnnotations(patch.annotations.value)];
      }
      if |sets| == 0 {
        return SelectAgent(View());
      }
      sets := sets + [BumpVersion];
      if agent.Live? {
        SetListPatches(agent.row, patch);
      }
      assert sets == SetList(patch);
      row := UpdateAgents(sets);
    }

    method RollbackToVersion(target: nat, pick: nat, snapshotOk: bool) returns (result: RollbackResult)
      modifies this
      ensures (View(), result) == RollbackAlone(old(View()), target, pick, snapshotOk)
    {
      var versionSnapshot := SelectVersion(View(), target, pick);
      if versionSnapshot.None? {
        return Returned(None);
      }
      var currentAgent := SelectAgent(View());
      if currentAgent.None? {
        return Returned(None);
      }
      var threw := CreateVersionSnapshot(currentAgent.value, snapshotOk);
      if threw {
        return Threw;
      }
      if agent.Live? {
        agent := Live(Row(agent.row.version + 1, versionSnapshot.value));
      }
      return Returned(SelectAgent(View()));
    }
  }

  /** The SET list that `update` builds for a patch. */
  function SetList(patch: Patch): seq<Assignment> {
    (if patch.spec.Some? then [MergeSpec(patch.spec.value)] else []) +
    (if patch.labels.Some? then [MergeLabels(patch.labels.value)] else []) +
    (if patch.annotations.Some? then [MergeAnnotations(patch.annotations.value)] else []) +
    [BumpVersion]
  }

  lemma {:induction false} AssignedAppend(row: Row, sets: seq<Assignment>, more: seq<Assignment>)
    ensures AllAssigned(row, sets + more) == AllAssigned(AllAssigned(row, sets), more)
    decreases |sets|
  {
    if sets == [] {
      assert sets + more == more;
    } else {
      assert (sets + more)[1..] == sets[1..] + more;
      AssignedAppend(Assigned(row, sets[0]), sets[1..], more);
    }
  }

  /** Executing the SET list merges each given field and raises the version by one. */
  lemma SetListPatches(row: Row, patch: Patch)
    ensures AllAssigned(row, SetList(patch)) == Row(row.version + 1, Patched(row.content, patch))
  {
    var s1 := if patch.spec.Some? then [MergeSpec(patch.spec.value)] else [];
    var s2 := if patch.labels.Some? then [MergeLabels(patch.labels.value)] else [];
    var s3 := if patch.annotations.Some? then [MergeAnnotations(patch.annotations.value)] else [];
    AssignedAppend(row, s1 + s2 + s3, [BumpVersion]);
    AssignedAppend(row, s1 + s2, s3);
    AssignedAppend(row, s1, s2);
    assert AllAssigned(row, s1) == row.(content := row.content.(spec := Merged(row.content.spec, patch.spec)));
  }

  // ----- What the operations mean, key by key -----

  /** Every key of the given object has its value there, and every other key is as before. */
  ghost predicate TakesOver(before: Json, given: Option<Json>, after: Json) {
    && (forall key :: key in after <==> key in before || (given.Some? && key in given.value))
    && (forall key :: key in after ==> after[key] == if given.Some? && key in given.value then given.value[key] else before[key])
  }

  predicate GivesSomething(patch: Patch) {
    patch.spec.Some? || patch.labels.Some? || patch.annotations.Some?
  }

  /** A row that an update with this patch may leave behind. */
  ghost predicate UpdatedRow(row: Row, patch: Patch, row': Row) {
    if GivesSomething(patch) then
      && row'.version == row.version + 1
      && TakesOver(row.content.spec, patch.spec, row'.content.spec)
      && TakesOver(row.content.labels, patch.labels, row'.content.labels)
      && TakesOver(row.content.annotations, patch.annotations, row'.content.annotations)
    else row' == row
  }

  /**
   An update of a live agent that gives any field raises the version by one, overwrites just the given keys of the
   given fields, and leaves everything else alone; one that gives none leaves the row alone.  Either
   way the old row is saved as a snapshot, unless that fails, which does not matter to the update.
   Without a live agent nothing happens.
   */
  lemma UpdateMeans(db: Db, patch: Patch, snapshotOk: bool)
    ensures var db' := UpdateAlone(db, patch, snapshotOk);
      if db.agent.Live? then
        var row := db.agent.row;
        && db'.agent.Live? && UpdatedRow(row, patch, db'.agent.row)
        && db'.versions == db.versions + (if snapshotOk then [Snapshot(row.version, row.content)] else [])
      else db' == db
  {
  }

  /**
   A rollback needs a snapshot of the target version and a live agent; otherwise it returns null and does nothing.  If the
   current row cannot be saved it throws and does nothing.  If it can, that row is saved and the
   content of a snapshot of the target is written as the next version, and returned.
   */
  lemma RollbackMeans(db: Db, target: nat, pick: nat, snapshotOk: bool)
    ensures var (db', result) := RollbackAlone(db, target, pick, snapshotOk);
      if !db.agent.Live? || (forall i :: 0 <= i < |db.versions| ==> db.versions[i].version != target) then
        db' == db && result == Returned(None)
      else if !snapshotOk then db' == db && result == Threw
      else
        var row := db.agent.row;
        && db'.versions == db.versions + [Snapshot(row.version, row.content)]
        && db'.agent.Live? && db'.agent.row.version == row.version + 1 && result == Returned(Some(db'.agent.row))
        && exists i :: 0 <= i < |db.versions| && db.versions[i] == Snapshot(target, db'.agent.row.content)
  {
    assert HasSnapshot(db.versions, target) <==> exists i :: 0 <= i < |db.versions| && db.versions[i].version == target;
  }

  // ----- Sequential use with all snapshots succeeding -----

  /** Snapshots of one version agree with each other and with the agent, and none is from the future. */
  predicate Consistent(db: Db) {
    && (forall i, j :: 0 <= i < j < |db.versions| && db.versions[i].version == db.versions[j].version ==>
          db.versions[i].content == db.versions[j].content)
    && (db.agent.Live? ==> forall i :: 0 <= i < |db.versions| ==>
          db.versions[i].version <= db.agent.row.version &&
          (db.versions[i].version == db.agent.row.version ==> db.versions[i].content == db.agent.row.content))
  }

  predicate AllRestorable(db: Db) {
    db.agent.Live? ==> forall v: nat :: 1 <= v < db.agent.row.version ==> HasSnapshot(db.versions, v)
  }

  datatype Operation = DoUpdate(patch: Patch) | DoRollback(target: nat, pick: nat)

  function Perform(db: Db, op: Operation): Db {
    match op
    case DoUpdate(patch) => UpdateAlone(db, patch, true)
    case DoRollback(target, pick) => RollbackAlone(db, target, pick, true).0
  }

  lemma InsertedHas(db: Db, row: Row, v: nat)
    ensures HasSnapshot(Inserted(db, row).versions, v) <==> HasSnapshot(db.versions, v) || v == row.version
  {
    var db' := Inserted(db, row);
    if HasSnapshot(db.versions, v) {
      var i :| 0 <= i < |db.versions| && db.versions[i].version == v;
      assert db'.versions[i].version == v;
    }
    if v == row.version {
      assert db'.versions[|db.versions|].version == v;
    }
  }

  /** After any sequence of operations every version below the current one can be restored. */
  lemma PerformKeepsRestorable(db: Db, op: Operation)
    requires Consistent(db) && AllRestorable(db)
    ensures Consistent(Perform(db, op)) && AllRestorable(Perform(db, op))
  {
    if db.agent.Live? {
      forall v: nat ensures HasSnapshot(Inserted(db, db.agent.row).versions, v) <==> HasSnapshot(db.versions, v) || v == db.agent.row.version {
        InsertedHas(db, db.agent.row, v);
      }
      var db' := Perform(db, op);
      assert db' == db || db'.versions == Inserted(db, db.agent.row).versions;
    }
  }

  /**
   Rolling back to `v` from version `n` gives the content of `v` at `n + 1`; rolling back to `n`
   afterwards gives the content of `n` at `n + 2`.  Which of several rows the database picks does not matter.
   */
  lemma RollbackAndBack(db: Db, v: nat, pick: nat, pick': nat, k: nat)
    requires Consistent(db) && db.agent.Live?
    requires k < |db.versions| && db.versions[k].version == v
    ensures var n, content := db.agent.row.version, db.agent.row.content;
      var (db1, r1) := RollbackAlone(db, v, pick, true);
      var (db2, r2) := RollbackAlone(db1, n, pick', true);
      && r1 == Returned(Some(Row(n + 1, db.versions[k].content)))
      && r2 == Returned(Some(Row(n + 2, content)))
  {
    var n := db.agent.row.version;
    var db1 := RollbackAlone(db, v, pick, true).0;
    assert HasSnapshot(db.versions, v);
    InsertedHas(db, db.agent.row, n);
    assert db1.versions == Inserted(db, db.agent.row).versions;
    assert HasSnapshot(db1.versions, n);
  }
}
