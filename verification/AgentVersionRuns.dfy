/** Concurrent clients of the agent repository: the SQL statements of their calls interleave freely. */
module AgentVersionRuns {
  import opened Options
  import opened Runs
  import opened AgentVersions

  /** Where a client stands, named after its next statement. */
  datatype Client =
    | UpdateSelect(patch: Patch)
    | UpdateSnapshot(patch: Patch, row: Row)
    | UpdateWrite(patch: Patch)
    | RollbackLookup(target: nat)
    | RollbackSelect(target: nat, content: Content)
    | RollbackSnapshot(target: nat, content: Content, row: Row)
    | RollbackWrite(target: nat, content: Content)
    | Finished(result: Option<Row>)
    | Failed

  datatype State = State(db: Db, clients: map<nat, Client>)

  const INITIAL := State(Db(Missing, []), map[])

  /** A statement succeeds, fails, or takes effect although the client sees an error. */
  datatype Outcome = Succeeds | Fails | Lost

  datatype Event =
    | Create(content: Content)
    | Delete
    | CallUpdate(id: nat, patch: Patch)
    | CallRollback(id: nat, target: nat)
    | Advance(id: nat, pick: nat, outcome: Outcome)

  /** The effect of the client's next statement on the tables. */
  function Effect(db: Db, client: Client): Db {
    match client
    case UpdateSnapshot(_, row) => Inserted(db, row)
    case UpdateWrite(patch) => if NothingToSet(patch) then db else UpdateMerged(db, patch)
    case RollbackSnapshot(_, _, row) => Inserted(db, row)
    case RollbackWrite(_, content) => UpdateReplaced(db, content)
    case _ => db
  }

  /** Where the client goes after its statement, given what the statement returned. */
  function Next(db: Db, client: Client, pick: nat, ok: bool): Client {
    match client
    case UpdateSelect(patch) =>
      if !ok then Failed
      else if SelectAgent(db).Some? then UpdateSnapshot(patch, SelectAgent(db).value)
      else UpdateWrite(patch)
    case UpdateSnapshot(patch, _) => UpdateWrite(patch)
    case UpdateWrite(_) => if ok then Finished(SelectAgent(Effect(db, client))) else Failed
    case RollbackLookup(target) =>
      if !ok then Failed
      else if SelectVersion(db, target, pick).None? then Finished(None)
      else RollbackSelect(target, SelectVersion(db, target, pick).value)
    case RollbackSelect(target, content) =>
      if !ok then Failed
      else if SelectAgent(db).None? then Finished(None)
      else RollbackSnapshot(target, content, SelectAgent(db).value)
    case RollbackSnapshot(target, content, _) => if ok then RollbackWrite(target, content) else Failed
    case RollbackWrite(_, _) => if ok then Finished(SelectAgent(Effect(db, client))) else Failed
    case Finished(_) => client
    case Failed => client
  }

  function Advanced(s: State, id: nat, pick: nat, outcome: Outcome): State
    requires id in s.clients
  {
    var client := s.clients[id];
    State(if outcome.Fails? then s.db else Effect(s.db, client),
          s.clients[id := Next(s.db, client, pick, outcome.Succeeds?)])
  }

  function Step(s: State, e: Event): State {
    match e
    case Create(content) => if s.db.agent.Missing? then s.(db := s.db.(agent := Live(Row(1, content)))) else s
    case Delete => if s.db.agent.Live? then s.(db := s.db.(agent := Deleted(s.db.agent.row))) else s
    case CallUpdate(id, patch) => if id in s.clients then s else s.(clients := s.clients[id := UpdateSelect(patch)])
    case CallRollback(id, target) => if id in s.clients then s else s.(clients := s.clients[id := RollbackLookup(target)])
    case Advance(id, pick, outcome) => if id in s.clients then Advanced(s, id, pick, outcome) else s
  }

  function StateAfter(run: Run<Event>): State {
    match run
    case Start => INITIAL
    case Then(before, e) => Step(StateAfter(before), e)
  }

  /** The agent row, deleted or not. */
  function RowOf(s: State): Option<Row> {
    if s.db.agent.Missing? then None else Some(s.db.agent.row)
  }

  // ----- What the agent was at each version -----

  /** At some point of the run the agent was at this version with this content. */
  predicate Had(run: Run<Event>, version: nat, content: Content) {
    RowOf(StateAfter(run)) == Some(Row(version, content)) || (run.Then? && Had(run.before, version, content))
  }

  lemma StepRow(s: State, e: Event)
    ensures var r, r' := RowOf(s), RowOf(Step(s, e));
      r' == r || (r.None? && r'.Some?) || (r.Some? && r'.Some? && r'.value.version == r.value.version + 1)
  {
  }

  lemma {:induction false} HadAtMostNow(run: Run<Event>, version: nat, content: Content)
    requires Had(run, version, content)
    ensures RowOf(StateAfter(run)).Some?
    ensures version <= RowOf(StateAfter(run)).value.version
    ensures version == RowOf(StateAfter(run)).value.version ==> content == RowOf(StateAfter(run)).value.content
  {
    if RowOf(StateAfter(run)) != Some(Row(version, content)) {
      HadAtMostNow(run.before, version, content);
      StepRow(StateAfter(run.before), run.event);
    }
  }

  /** Under every interleaving a version number stands for one content: the agent never had two. */
  lemma {:induction false} VersionFixesContent(run: Run<Event>, version: nat, c: Content, d: Content)
    requires Had(run, version, c) && Had(run, version, d)
    ensures c == d
  {
    HadAtMostNow(run, version, c);
    HadAtMostNow(run, version, d);
    if version < RowOf(StateAfter(run)).value.version {
      VersionFixesContent(run.before, version, c, d);
    }
  }

  /** The version never falls, and every change of content raises it. */
  lemma {:induction false} VersionIncreases(base: Run<Event>, run: Run<Event>)
    requires Extends(run, base) && RowOf(StateAfter(base)).Some?
    ensures RowOf(StateAfter(run)).Some?
    ensures var r, r' := RowOf(StateAfter(base)).value, RowOf(StateAfter(run)).value;
      r' == r || r.version < r'.version
  {
    if run != base {
      VersionIncreases(base, run.before);
      StepRow(StateAfter(run.before), run.event);
    }
  }

  // ----- Snapshots -----

  /** What the client has read from the tables is true to the run. */
  predicate Truthful(run: Run<Event>, client: Client) {
    match client
    case UpdateSnapshot(_, row) => Had(run, row.version, row.content)
    case RollbackSelect(target, content) => Had(run, target, content)
    case RollbackSnapshot(target, content, row) => Had(run, target, content) && Had(run, row.version, row.content)
    case RollbackWrite(target, content) => Had(run, target, content)
    case _ => true
  }

  predicate SnapshotsTrue(run: Run<Event>, versions: seq<Snapshot>) {
    forall i :: 0 <= i < |versions| ==> Had(run, versions[i].version, versions[i].content)
  }

  predicate ClientsTrue(run: Run<Event>, clients: map<nat, Client>) {
    forall id :: id in clients ==> Truthful(run, clients[id])
  }

  lemma LaterToo(run: Run<Event>, e: Event)
    ensures forall versions :: SnapshotsTrue(run, versions) ==> SnapshotsTrue(Then(run, e), versions)
    ensures forall clients :: ClientsTrue(run, clients) ==> ClientsTrue(Then(run, e), clients)
  {
  }

  lemma NextTruthful(run: Run<Event>, client: Client, pick: nat, ok: bool)
    requires var db := StateAfter(run).db; SnapshotsTrue(run, db.versions)
    requires Truthful(run, client)
    ensures Truthful(run, Next(StateAfter(run).db, client, pick, ok))
  {
    hide StateAfter;
    var db := StateAfter(run).db;
    if client.RollbackLookup? && SelectVersion(db, client.target, pick).Some? {
      var content := SelectVersion(db, client.target, pick).value;
      var i :| 0 <= i < |db.versions| && db.versions[i] == Snapshot(client.target, content);
      assert Had(run, db.versions[i].version, db.versions[i].content);
    }
  }

  lemma EffectTrue(run: Run<Event>, db: Db, client: Client)
    requires SnapshotsTrue(run, db.versions) && Truthful(run, client)
    ensures SnapshotsTrue(run, Effect(db, client).versions)
  {
    hide Had;
  }

  lemma {:induction false} RunTrue(run: Run<Event>)
    ensures SnapshotsTrue(run, StateAfter(run).db.versions) && ClientsTrue(run, StateAfter(run).clients)
  {
    if run.Then? {
      var s, e := StateAfter(run.before), run.event;
      RunTrue(run.before);
      if e.Advance? && e.id in s.clients {
        hide Effect, Next, SnapshotsTrue, Truthful;
        NextTruthful(run.before, s.clients[e.id], e.pick, e.outcome.Succeeds?);
        EffectTrue(run.before, s.db, s.clients[e.id]);
        assert ClientsTrue(run.before, StateAfter(run).clients);
      }
      LaterToo(run.before, e);
    }
  }

  /**
   Under every interleaving of the statements of concurrent `update` and `rollbackToVersion`
   calls, each snapshot row holds the content the agent had at that version, so all the
   snapshots of one version agree.
   */
  lemma {:induction false} SnapshotsAccurate(run: Run<Event>, i: nat, j: nat)
    requires var versions := StateAfter(run).db.versions;
      i < |versions| && j < |versions| && versions[i].version == versions[j].version
    ensures var versions := StateAfter(run).db.versions;
      Had(run, versions[i].version, versions[i].content) && versions[i].content == versions[j].content
  {
    hide StateAfter, Had;
    RunTrue(run);
    var versions := StateAfter(run).db.versions;
    VersionFixesContent(run, versions[i].version, versions[i].content, versions[j].content);
  }

  /** However many calls ran in between, a rollback that writes restores exactly what the target version was, as a new version. */
  lemma RollbackRestores(run: Run<Event>, id: nat, pick: nat)
    requires id in StateAfter(run).clients && StateAfter(run).clients[id].RollbackWrite?
    requires StateAfter(run).db.agent.Live?
    ensures var row' := StateAfter(Then(run, Advance(id, pick, Succeeds))).db.agent.row;
      && Had(run, StateAfter(run).clients[id].target, row'.content)
      && row'.version == StateAfter(run).db.agent.row.version + 1
  {
    RunTrue(run);
    assert Truthful(run, StateAfter(run).clients[id]);
  }

  // ----- Which versions stay restorable -----

  /** The event is the successful SELECT of the agent by this call. */
  predicate Selects(s: State, e: Event, id: nat) {
    && e.Advance? && e.id == id && e.outcome.Succeeds?
    && id in s.clients && (s.clients[id].UpdateSelect? || s.clients[id].RollbackSelect?)
  }

  predicate AtSnapshot(client: Client) {
    client.UpdateSnapshot? || client.RollbackSnapshot?
  }

  /** The event is this call's INSERT of a snapshot, and it takes effect. */
  predicate Saves(s: State, e: Event, id: nat) {
    e.Advance? && e.id == id && !e.outcome.Fails? && id in s.clients && AtSnapshot(s.clients[id])
  }

  /** In the run, the call SELECTed the agent while it was live at version `v`. */
  predicate ReadAt(run: Run<Event>, id: nat, v: nat) {
    run.Then? &&
      var s := StateAfter(run.before);
      || (Selects(s, run.event, id) && s.db.agent.Live? && s.db.agent.row.version == v)
      || ReadAt(run.before, id, v)
  }

  /** In the run, some call SELECTed the agent at version `v` and its INSERT then took effect. */
  predicate ReadAndSaved(run: Run<Event>, v: nat) {
    run.Then? &&
      var e := run.event;
      || (e.Advance? && Saves(StateAfter(run.before), e, e.id) && ReadAt(run.before, e.id, v))
      || ReadAndSaved(run.before, v)
  }

  /** A call has read at most one version, which is the one it is about to save. */
  ghost predicate ReadsKnown(run: Run<Event>, clients: map<nat, Client>, id: nat) {
    if id in clients && AtSnapshot(clients[id]) then forall v: nat :: ReadAt(run, id, v) <==> v == clients[id].row.version
    else if id in clients && !clients[id].UpdateSelect? && !clients[id].RollbackLookup? && !clients[id].RollbackSelect? then true
    else forall v: nat :: !ReadAt(run, id, v)
  }

  lemma ReadAtStep(before: Run<Event>, e: Event, id: nat, v: nat)
    ensures var s := StateAfter(before);
      ReadAt(Then(before, e), id, v) <==>
      (Selects(s, e, id) && s.db.agent.Live? && s.db.agent.row.version == v) || ReadAt(before, id, v)
  {
  }

  lemma {:induction false} RunReadsKnown(run: Run<Event>, id: nat)
    ensures ReadsKnown(run, StateAfter(run).clients, id)
  {
    if run.Then? {
      var s, e := StateAfter(run.before), run.event;
      RunReadsKnown(run.before, id);
      StepReadsKnown(run.before, e, s, id);
    }
  }

  lemma StepReadsKnown(before: Run<Event>, e: Event, s: State, id: nat)
    requires s == StateAfter(before) && ReadsKnown(before, s.clients, id)
    ensures ReadsKnown(Then(before, e), Step(s, e).clients, id)
  {
    hide StateAfter, ReadAt;
    forall v: nat ensures ReadAt(Then(before, e), id, v) <==>
      (Selects(s, e, id) && s.db.agent.Live? && s.db.agent.row.version == v) || ReadAt(before, id, v)
    {
      ReadAtStep(before, e, id, v);
    }
  }

  /** Under every interleaving a version has a snapshot if and only if some call read the agent at that version and its INSERT took effect. */
  lemma {:induction false} SnapshotIff(run: Run<Event>, v: nat)
    ensures HasSnapshot(StateAfter(run).db.versions, v) <==> ReadAndSaved(run, v)
  {
    if run.Then? {
      var s, e := StateAfter(run.before), run.event;
      SnapshotIff(run.before, v);
      if e.Advance? && Saves(s, e, e.id) {
        RunReadsKnown(run.before, e.id);
        InsertedHas(s.db, s.clients[e.id].row, v);
      }
    }
  }

  predicate EarlierReadAndSaved(run: Run<Event>, current: nat) {
    forall v: nat :: 1 <= v < current ==> ReadAndSaved(run, v)
  }

  /** So every version below the current one can be restored if and only if each was so read and saved. */
  lemma AllRestorableIff(run: Run<Event>)
    ensures var db := StateAfter(run).db;
      AllRestorable(db) <==> (db.agent.Live? ==> EarlierReadAndSaved(run, db.agent.row.version))
  {
    hide StateAfter, HasSnapshot, ReadAndSaved;
    var db := StateAfter(run).db;
    forall v: nat ensures HasSnapshot(db.versions, v) <==> ReadAndSaved(run, v) {
      SnapshotIff(run, v);
    }
  }

  // ----- Calls that do not overlap in their writes -----

  /** The event creates the agent or gives it a new version. */
  predicate Writes(s: State, e: Event) {
    RowOf(Step(s, e)) != RowOf(s)
  }

  /** Since the call last SELECTed the agent, or ever if it has not, the agent was created or written. */
  predicate WrittenSince(run: Run<Event>, id: nat) {
    run.Then? &&
      var s := StateAfter(run.before);
      !Selects(s, run.event, id) && (Writes(s, run.event) || WrittenSince(run.before, id))
  }

  /** No call writes after another write that came later than its own SELECT. */
  predicate WritesApart(run: Run<Event>) {
    run.Then? ==>
      && WritesApart(run.before)
      && (run.event.Advance? && Writes(StateAfter(run.before), run.event) ==> !WrittenSince(run.before, run.event.id))
  }

  predicate InsertsSucceed(run: Run<Event>) {
    run.Then? ==>
      && InsertsSucceed(run.before)
      && (run.event.Advance? && run.event.outcome.Fails? ==>
            var s := StateAfter(run.before);
            run.event.id in s.clients ==> !AtSnapshot(s.clients[run.event.id]))
  }

  /** What a call knows while nothing has been written since its SELECT. */
  predicate UpToDate(db: Db, client: Client) {
    match client
    case UpdateSnapshot(_, row) => db.agent.Live? ==> db.agent.row == row
    case RollbackSnapshot(_, _, row) => db.agent.Live? ==> db.agent.row == row
    case UpdateWrite(_) => db.agent.Live? ==> HasSnapshot(db.versions, db.agent.row.version)
    case RollbackWrite(_, _) => db.agent.Live? ==> HasSnapshot(db.versions, db.agent.row.version)
    case _ => true
  }

  predicate KnowsUnlessWritten(run: Run<Event>, s: State, id: nat) {
    id in s.clients && !WrittenSince(run, id) ==> UpToDate(s.db, s.clients[id])
  }

  lemma StepSnapshots(s: State, e: Event, v: nat)
    requires HasSnapshot(s.db.versions, v)
    ensures HasSnapshot(Step(s, e).db.versions, v)
  {
    if e.Advance? && e.id in s.clients && AtSnapshot(s.clients[e.id]) {
      InsertedHas(s.db, s.clients[e.id].row, v);
    }
  }

  lemma StepOfOther(s: State, e: Event, id: nat)
    requires !Writes(s, e) && id in s.clients && UpToDate(s.db, s.clients[id]) && !(e.Advance? && e.id == id)
    ensures UpToDate(Step(s, e).db, s.clients[id]) && Step(s, e).clients[id] == s.clients[id]
  {
    hide HasSnapshot;
    if s.db.agent.Live? && HasSnapshot(s.db.versions, s.db.agent.row.version) {
      StepSnapshots(s, e, s.db.agent.row.version);
    }
  }

  lemma StepOfOwn(s: State, e: Event)
    requires e.Advance? && e.id in s.clients
    requires Selects(s, e, e.id) || (!Writes(s, e) && UpToDate(s.db, s.clients[e.id]))
    requires AtSnapshot(s.clients[e.id]) ==> !e.outcome.Fails?
    ensures UpToDate(Step(s, e).db, Step(s, e).clients[e.id])
  {
    hide HasSnapshot;
    if AtSnapshot(s.clients[e.id]) {
      InsertedHas(s.db, s.clients[e.id].row, s.clients[e.id].row.version);
    }
  }

  lemma StepKnows(before: Run<Event>, e: Event, s: State, id: nat)
    requires s == StateAfter(before) && InsertsSucceed(Then(before, e)) && KnowsUnlessWritten(before, s, id)
    ensures KnowsUnlessWritten(Then(before, e), Step(s, e), id)
  {
    if !WrittenSince(Then(before, e), id) && id in Step(s, e).clients {
      hide StateAfter, WrittenSince, UpToDate;
      if e.Advance? && e.id == id {
        StepOfOwn(s, e);
      } else if id in s.clients {
        StepOfOther(s, e, id);
      }
    }
  }

  lemma {:induction false} RunKnows(run: Run<Event>, id: nat)
    requires InsertsSucceed(run)
    ensures KnowsUnlessWritten(run, StateAfter(run), id)
  {
    if run.Then? {
      RunKnows(run.before, id);
      StepKnows(run.before, run.event, StateAfter(run.before), id);
    }
  }

  lemma StepKeepsRestorable(s: State, e: Event)
    requires AllRestorable(s.db)
    requires e.Advance? && e.id in s.clients && Writes(s, e) ==> UpToDate(s.db, s.clients[e.id])
    ensures AllRestorable(Step(s, e).db)
  {
    hide HasSnapshot;
    forall v: nat | HasSnapshot(s.db.versions, v) ensures HasSnapshot(Step(s, e).db.versions, v) {
      StepSnapshots(s, e, v);
    }
  }

  /**
   Calls may overlap, but as long as no other call writes between a call's SELECT and its UPDATE
   and no snapshot fails, every version below the current one can be restored.
   */
  lemma {:induction false} WritesApartKeepRestorable(run: Run<Event>)
    requires WritesApart(run) && InsertsSucceed(run)
    ensures AllRestorable(StateAfter(run).db)
  {
    if run.Then? {
      hide Step, Writes, UpToDate, AllRestorable;
      var s, e := StateAfter(run.before), run.event;
      WritesApartKeepRestorable(run.before);
      if e.Advance? {
        RunKnows(run.before, e.id);
      }
      StepKeepsRestorable(s, e);
    }
  }

  /** A lookup of such a version then finds what the agent was at it, whichever matching row the database picks. */
  lemma WritesApartRestore(run: Run<Event>, v: nat, pick: nat)
    requires WritesApart(run) && InsertsSucceed(run)
    requires StateAfter(run).db.agent.Live? && 1 <= v < StateAfter(run).db.agent.row.version
    ensures var found := SelectVersion(StateAfter(run).db, v, pick);
      found.Some? && Had(run, v, found.value)
  {
    hide StateAfter, Had;
    WritesApartKeepRestorable(run);
    RunTrue(run);
    var db := StateAfter(run).db;
    var found := SelectVersion(db, v, pick);
    assert HasSnapshot(db.versions, v);
    var i :| 0 <= i < |db.versions| && db.versions[i] == Snapshot(v, found.value);
    assert Had(run, db.versions[i].version, db.versions[i].content);
  }

  /** Clients 0 and 1 execute their next statements. */
  function BothAdvance(run: Run<Event>): Run<Event> {
    Then(Then(run, Advance(0, 0, Succeeds)), Advance(1, 0, Succeeds))
  }

  function BothCall(content: Content, patch: Patch): Run<Event> {
    Then(Then(Then(Start, Create(content)), CallUpdate(0, patch)), CallUpdate(1, patch))
  }

  /** Two updates that overlap: both read and save version 1, both write, and version 2 is gone. */
  lemma OverlapLosesVersion(content: Content, patch: Patch)
    requires !NothingToSet(patch)
    ensures var db := StateAfter(BothAdvance(BothAdvance(BothAdvance(BothCall(content, patch))))).db;
      db.agent.Live? && db.agent.row.version == 3 && !HasSnapshot(db.versions, 2) && !AllRestorable(db)
  {
    hide Patched;
    var row, snapshot := Row(1, content), Snapshot(1, content);
    var called := BothCall(content, patch);
    var read := BothAdvance(called);
    var saved := BothAdvance(read);
    assert StateAfter(called) == State(Db(Live(row), []), map[0 := UpdateSelect(patch), 1 := UpdateSelect(patch)]) by {
      assert StateAfter(Then(Start, Create(content))) == State(Db(Live(row), []), map[]);
    }
    assert StateAfter(read) ==
      State(Db(Live(row), []), map[0 := UpdateSnapshot(patch, row), 1 := UpdateSnapshot(patch, row)]);
    assert StateAfter(saved) ==
      State(Db(Live(row), [snapshot, snapshot]), map[0 := UpdateWrite(patch), 1 := UpdateWrite(patch)]);
    var first := StateAfter(Then(saved, Advance(0, 0, Succeeds)));
    assert first == Step(StateAfter(saved), Advance(0, 0, Succeeds));
    assert first.db == Db(Live(Row(2, Patched(content, patch))), [snapshot, snapshot]);
    var db := StateAfter(BothAdvance(saved)).db;
    assert db == Step(first, Advance(1, 0, Succeeds)).db;
    assert db.agent.Live? && db.agent.row.version == 3 && db.versions == [snapshot, snapshot];
    assert !HasSnapshot(db.versions, 2);
  }

  // ----- Calls without interference -----

  /** A client that runs alone does what the sequential `update` does. */
  lemma UpdateAloneIsARun(s: State, id: nat, patch: Patch, outcome: Outcome)
    requires id !in s.clients && !outcome.Lost?
    ensures var s1 := Step(s, CallUpdate(id, patch));
      var s2 := Step(s1, Advance(id, 0, Succeeds));
      var s3 := if s.db.agent.Live? then Step(s2, Advance(id, 0, outcome)) else s2;
      Step(s3, Advance(id, 0, Succeeds)).db == UpdateAlone(s.db, patch, outcome.Succeeds?)
  {
  }

  /** What a client that has ended tells its caller. */
  function ResultOf(client: Client): Option<RollbackResult> {
    match client
    case Finished(row) => Some(Returned(row))
    case Failed => Some(Threw)
    case _ => None
  }

  /** A client that runs alone does what the sequential `rollbackToVersion` does, and returns or throws the same. */
  lemma RollbackAloneIsARun(s: State, id: nat, target: nat, pick: nat, outcome: Outcome)
    requires id !in s.clients && !outcome.Lost?
    ensures var s1 := Step(s, CallRollback(id, target));
      var s2 := Step(s1, Advance(id, pick, Succeeds));
      var s3 := Step(Step(s2, Advance(id, 0, Succeeds)), Advance(id, 0, outcome));
      var s4 := Step(s3, Advance(id, 0, Succeeds));
      (s4.db, ResultOf(s4.clients[id])) ==
        (RollbackAlone(s.db, target, pick, outcome.Succeeds?).0, Some(RollbackAlone(s.db, target, pick, outcome.Succeeds?).1))
  {
    hide SelectVersion;
    var s1 := Step(s, CallRollback(id, target));
    var s2 := Step(s1, Advance(id, pick, Succeeds));
    assert s2.db == s.db;
    var s3 := Step(s2, Advance(id, 0, Succeeds));
    assert s3.db == s.db;
  }

  /** The UPDATE statement of `update`, whatever has happened since its SELECT: it raises the version and overwrites just the given keys of the row as it is now. */
  lemma {:induction false} UpdateWriteMeans(run: Run<Event>, id: nat, pick: nat, outcome: Outcome)
    requires id in StateAfter(run).clients && StateAfter(run).clients[id].UpdateWrite? && !outcome.Fails?
    ensures var s, s' := StateAfter(run), StateAfter(Then(run, Advance(id, pick, outcome)));
      var patch := s.clients[id].patch;
      && s'.db.versions == s.db.versions
      && (if s.db.agent.Live? then s'.db.agent.Live? && UpdatedRow(s.db.agent.row, patch, s'.db.agent.row) else s'.db == s.db)
      && (outcome.Succeeds? ==> s'.clients[id] == Finished(if s'.db.agent.Live? then Some(s'.db.agent.row) else None))
  {
    hide StateAfter;
    AfterThen(run, Advance(id, pick, outcome));
  }

  lemma AfterThen(run: Run<Event>, e: Event)
    ensures StateAfter(Then(run, e)) == Step(StateAfter(run), e)
  {
  }

  /** The next statement of a client that has read the agent saves just the row it read, or nothing if it fails; `update` goes on in either case. */
  lemma {:induction false} SnapshotStatementMeans(run: Run<Event>, id: nat, pick: nat, outcome: Outcome)
    requires id in StateAfter(run).clients && AtSnapshot(StateAfter(run).clients[id])
    ensures var s, s' := StateAfter(run), StateAfter(Then(run, Advance(id, pick, outcome)));
      var client := s.clients[id];
      && s'.db.agent == s.db.agent
      && s'.db.versions ==
           s.db.versions + (if outcome.Fails? then [] else [Snapshot(client.row.version, client.row.content)])
      && (client.UpdateSnapshot? ==> s'.clients[id] == UpdateWrite(client.patch))
      && (client.RollbackSnapshot? ==>
            s'.clients[id] == if outcome.Succeeds? then RollbackWrite(client.target, client.content) else Failed)
  {
    hide StateAfter;
    AfterThen(run, Advance(id, pick, outcome));
  }

  /**
   The reading statements change no table.  `update` reads the row as it is and saves it next, or, finding no live
   agent, goes straight on to its UPDATE; a rollback goes on only with a live agent and a snapshot of its target.
   */
  lemma {:induction false} ReadStatementMeans(run: Run<Event>, id: nat, pick: nat, outcome: Outcome)
    requires id in StateAfter(run).clients
    requires var client := StateAfter(run).clients[id]; client.UpdateSelect? || client.RollbackLookup? || client.RollbackSelect?
    ensures var s, s' := StateAfter(run), StateAfter(Then(run, Advance(id, pick, outcome)));
      var client, next, agent := s.clients[id], s'.clients[id], s.db.agent;
      && s'.db == s.db
      && (!outcome.Succeeds? ==> next == Failed)
      && (outcome.Succeeds? && client.UpdateSelect? ==>
            next == if agent.Live? then UpdateSnapshot(client.patch, agent.row) else UpdateWrite(client.patch))
      && (outcome.Succeeds? && client.RollbackSelect? ==>
            next == if agent.Live? then RollbackSnapshot(client.target, client.content, agent.row) else Finished(None))
      && (outcome.Succeeds? && client.RollbackLookup? ==>
            if HasSnapshot(s.db.versions, client.target) then
              next.RollbackSelect? && next.target == client.target && Snapshot(client.target, next.content) in s.db.versions
            else next == Finished(None))
  {
    hide StateAfter;
    AfterThen(run, Advance(id, pick, outcome));
  }

  /** Once deleted the agent stays as it is, whatever calls are still under way. */
  lemma {:induction false} DeletedForGood(base: Run<Event>, run: Run<Event>)
    requires StateAfter(base).db.agent.Live? && Extends(run, Then(base, Delete))
    ensures StateAfter(run).db.agent == Deleted(StateAfter(base).db.agent.row)
  {
    if run != Then(base, Delete) {
      DeletedForGood(base, run.before);
      StepOfDeleted(StateAfter(run.before), run.event);
    }
  }

  lemma StepOfDeleted(s: State, e: Event)
    requires s.db.agent.Deleted?
    ensures Step(s, e).db.agent == s.db.agent
  {
  }

  function AfterOperations(content: Content, run: Run<Operation>): Db {
    match run
    case Start => Db(Live(Row(1, content)), [])
    case Then(before, op) => Perform(AfterOperations(content, before), op)
  }

  /** Sequentially and with all snapshots succeeding, every version below the current one is restorable after any operations. */
  lemma {:induction false} SequentialHistory(content: Content, run: Run<Operation>)
    ensures var db := AfterOperations(content, run);
      db.agent.Live? && Consistent(db) && AllRestorable(db)
  {
    if run.Then? {
      SequentialHistory(content, run.before);
      PerformKeepsRestorable(AfterOperations(content, run.before), run.event);
    }
  }
}
