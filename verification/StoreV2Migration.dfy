/** What an import of a v1 directory guarantees, and exactly when the directory can be opened again. */
module StoreV2Migration {
  import opened Common
  import opened Session
  import opened StoreV2Tables
  import opened StoreV2Theorems
  import opened StoreV2Runs
  import opened StoreV2
  import V1 = StoreV1

  /** Importing a published v1 session into an empty database succeeds exactly when the store admits its plan, and
      then `load` returns the checkpoint the v1 store loads. */
  lemma ImportLoadsTheSource(mode: Mode, source: int, disk: V1.Disk)
    requires SourceCheckpoint(disk).Ok?
    ensures var c := SourceCheckpoint(disk).value;
      var (r, t, migrations) := Imported(mode, EMPTY_TABLES, map[], source, disk);
      && (r.Ok? <==> PlanAllowed(mode, c.plan))
      && (r.Ok? ==> Sound(mode, t) && LoadTx(mode, t) == Ok(c) && PersistTx(EMPTY_TABLES, c) == Ok(t)
                    && migrations == map[source := disk.current.value])
      && (r.Err? ==> t == EMPTY_TABLES && migrations == map[])
  {
    var c := SourceCheckpoint(disk).value;
    FirstPersistSucceeds(c);
    if PlanAllowed(mode, c.plan) {
      var t := PersistTx(EMPTY_TABLES, c).value;
      PersistRoundTrip(mode, EMPTY_TABLES, c, t);
      LoadSucceedsExactly(mode, t);
    }
  }

  /** A single-target session reads as such; every other published session reads as a batch. */
  lemma SourceReadsAsPublished(mode: Mode, disk: V1.Disk)
    requires V1.CurrentNamesPair(mode, disk) && disk.current.Some?
    ensures SourceCheckpoint(disk).Ok? && SourceCheckpoint(disk) == V1.LoadDisk(mode, disk)
  {
    V1.CurrentLoads(mode, disk);
    var c :| ValidCheckpoint(c) && PlanAllowed(mode, c.plan) && V1.PairPublished(disk.files, c)
             && disk.current.value == V1.PointerTo(c);
    V1.PublishedPairLoads(mode, disk.files, disk.files, c);
    if PlanAllowed(SingleTarget, c.plan) {
      V1.PublishedPairLoads(SingleTarget, disk.files, disk.files, c);
    }
  }

  /** An operation that changes the tables advances the sequence. */
  lemma ChangeAdvances(mode: Mode, limit: int, t: Tables, op: Op)
    requires t.state.Some?
    ensures var after := Step(mode, limit, t, op);
      after.state.Some? && (after == t || t.state.value.sequence < after.state.value.sequence)
  {
    if Attempt(mode, limit, t, op).Ok? {
      match op {
        case Persist(c) =>
        case Append(_, batch, _, _, _) => assert |batch| > 0;
        case CompleteBanner(_, _, _, _) =>
      }
    }
  }

  lemma {:induction false} RunAdvances(mode: Mode, limit: int, t: Tables, ops: seq<Op>)
    requires t.state.Some?
    ensures var after := Run(mode, limit, t, ops);
      after.state.Some? && (after == t || t.state.value.sequence < after.state.value.sequence)
  {
    if ops != [] {
      RunAdvances(mode, limit, t, ops[..|ops| - 1]);
      ChangeAdvances(mode, limit, Run(mode, limit, t, ops[..|ops| - 1]), ops[|ops| - 1]);
    }
  }

  lemma StepKeepsSession(mode: Mode, limit: int, t: Tables, op: Op)
    requires t.state.Some?
    ensures var after := Step(mode, limit, t, op);
      && after.state.Some? && after.state.value.sessionId == t.state.value.sessionId
      && after.state.value.fingerprint == t.state.value.fingerprint
  {
  }

  /** No operation changes the session's identity or the plan's fingerprint. */
  lemma {:induction false} SameSession(mode: Mode, limit: int, t: Tables, ops: seq<Op>)
    requires t.state.Some?
    ensures var after := Run(mode, limit, t, ops);
      && after.state.Some? && after.state.value.sessionId == t.state.value.sessionId
      && after.state.value.fingerprint == t.state.value.fingerprint
  {
    if ops != [] {
      SameSession(mode, limit, t, ops[..|ops| - 1]);
      StepKeepsSession(mode, limit, Run(mode, limit, t, ops[..|ops| - 1]), ops[|ops| - 1]);
    }
  }

  lemma ImportedState(c: Checkpoint, t: Tables)
    requires PersistTx(EMPTY_TABLES, c) == Ok(t)
    ensures t.state.Some? && t.state.value.sessionId == c.sessionId && t.state.value.fingerprint == PlanDigest(c.plan)
    ensures t.state.value.sequence == c.sequence && t.state.value.checkpointSha == Some(CheckpointDigest(c))
  {
  }

  /** Persisting a checkpoint that the same session has reached or passed: a no-op, or refused. */
  lemma PersistedAgain(mode: Mode, t: Tables, c: Checkpoint)
    requires t.state.Some? && t.state.value.sessionId == c.sessionId && t.state.value.fingerprint == PlanDigest(c.plan)
    requires PlanAllowed(mode, c.plan)
    requires if c.sequence == t.state.value.sequence then t.state.value.checkpointSha == Some(CheckpointDigest(c))
             else c.sequence < t.state.value.sequence
    ensures Persisted(mode, t, c) ==
            if c.sequence == t.state.value.sequence then (Ok(PersistReceipt(c)), t) else (Err(SequenceBack), t)
  {
  }

  /** The checkpoint of a fresh import, persisted again after any operations. */
  lemma PersistedAfterRun(mode: Mode, limit: int, c: Checkpoint, migrated: Tables, ops: seq<Op>)
    requires PersistTx(EMPTY_TABLES, c) == Ok(migrated) && PlanAllowed(mode, c.plan)
    ensures var t := Run(mode, limit, migrated, ops);
      t.state.Some? && Persisted(mode, t, c) ==
        if t.state.value.sequence == c.sequence then (Ok(PersistReceipt(c)), t) else (Err(SequenceBack), t)
  {
    ImportedState(c, migrated);
    RunAdvances(mode, limit, migrated, ops);
    SameSession(mode, limit, migrated, ops);
    PersistedAgain(mode, Run(mode, limit, migrated, ops), c);
  }

  /** The second half of an import whose source is on record as it is. */
  lemma ImportedOnRecord(mode: Mode, t: Tables, migrations: map<int, V1.Pointer>, source: int, disk: V1.Disk)
    requires SourceCheckpoint(disk).Ok? && migrations == map[source := disk.current.value]
    ensures var (r, after) := Persisted(mode, t, SourceCheckpoint(disk).value);
      Imported(mode, t, migrations, source, disk) == (r, after, migrations)
  {
    assert migrations[source := disk.current.value] == migrations;
  }

  /** Opening a migrated directory again, after any operations on the database.  It succeeds, and changes nothing,
      exactly while the session has not advanced; afterwards the import is refused as a sequence going back. */
  lemma ReopenExactly(mode: Mode, limit: int, source: int, disk: V1.Disk, ops: seq<Op>)
    requires SourceCheckpoint(disk).Ok? && PlanAllowed(mode, SourceCheckpoint(disk).value.plan)
    ensures var c := SourceCheckpoint(disk).value;
      var (_, migrated, migrations) := Imported(mode, EMPTY_TABLES, map[], source, disk);
      var t := Run(mode, limit, migrated, ops);
      t.state.Some? && Imported(mode, t, migrations, source, disk) ==
        (if t.state.value.sequence == c.sequence then Ok(PersistReceipt(c)) else Err(SequenceBack), t, migrations)
  {
    ImportLoadsTheSource(mode, source, disk);
    var (_, migrated, migrations) := Imported(mode, EMPTY_TABLES, map[], source, disk);
    PersistedAfterRun(mode, limit, SourceCheckpoint(disk).value, migrated, ops);
    ImportedOnRecord(mode, Run(mode, limit, migrated, ops), migrations, source, disk);
  }
}
