/** The v2 store object: one committed database, a plan cache beside it, and the methods that change both.

    Each method works on a local copy of the tables and assigns it to `db` only where the source commits, so
    returning early, or crashing anywhere before that assignment, leaves `db` as it was. */
module StoreV2 {
  import opened Common
  import opened Session
  import opened StoreV2Tables
  import opened StoreV2Theorems
  import opened StoreV2Increments
  import V1 = StoreV1

  const BALANCED_RESULT_BATCH_SIZE := 128
  const STRICT_RESULT_BATCH_SIZE := 1

  datatype Durability = Strict | Balanced

  function BatchLimit(d: Durability): int {
    match d case Strict => STRICT_RESULT_BATCH_SIZE case Balanced => BALANCED_RESULT_BATCH_SIZE
  }

  /** The receipt of a confirmed transaction. */
  datatype Commit = Commit(
    sequence: int, fingerprint: Digest, checkpointSha: Option<Digest>, completedPorts: int, totalPorts: int,
    status: Status)

  function TotalRows(rows: seq<EndpointRow>): int {
    if rows == [] then 0 else TotalRows(rows[..|rows| - 1]) + |rows[|rows| - 1].results|
  }

  function PersistReceipt(c: Checkpoint): Commit {
    Commit(c.sequence, PlanDigest(c.plan), Some(CheckpointDigest(c)), Total(c.endpoints, CountCompleted),
           |c.plan.ports| * |c.endpoints|, c.status)
  }

  function ChainReceipt(t: Tables): Commit
    requires t.state.Some?
  {
    var s := t.state.value;
    Commit(s.sequence, s.fingerprint, None, TotalRows(t.endpoints), |s.plan.ports| * |s.plan.targets|, Running)
  }

  /** `persist` as a whole: the guard on the plan, the transaction, and the comparison with what `load` returns. */
  function Persisted(mode: Mode, t: Tables, c: Checkpoint): (Result<Commit, Error>, Tables) {
    if !PlanAllowed(mode, c.plan) then (Err(PlanRejected), t)
    else
      match PersistTx(t, c)
      case Err(e) => (Err(e), t)
      case Ok(after) =>
        if t.state.Some? && c.sequence == t.state.value.sequence then (Ok(PersistReceipt(c)), after)
        else
          match LoadTx(mode, after)
          case Err(e) => (Err(e), after)
          case Ok(loaded) => (if loaded == c then Ok(PersistReceipt(c)) else Err(ReconstructedDiffers), after)
  }

  /** The checkpoint a v1 directory publishes, read as a single-target session or else as a batch. */
  function SourceCheckpoint(disk: V1.Disk): (r: Result<Checkpoint, V1.Failure>)
    ensures r.Ok? ==> ValidCheckpoint(r.value) && disk.current.Some? && V1.PointerTo(r.value) == disk.current.value
  {
    var single := V1.LoadDisk(SingleTarget, disk);
    if single.Ok? then single else V1.LoadDisk(MultiTarget, disk)
  }

  /** The import of a v1 directory: its checkpoint is persisted, then the source is recorded, unless it is on record
      in another state. */
  function Imported(mode: Mode, t: Tables, migrations: map<int, V1.Pointer>, source: int, disk: V1.Disk)
    : (Result<Commit, Error>, Tables, map<int, V1.Pointer>)
  {
    var loaded := SourceCheckpoint(disk);
    if disk.current.None? || loaded.Err? then (Err(SourceInvalid), t, migrations)
    else
      var (receipt, after) := Persisted(mode, t, loaded.value);
      if receipt.Err? then (receipt, after, migrations)
      else if source in migrations && migrations[source] != disk.current.value
      then (Err(SourceChanged), after, migrations)
      else (receipt, after, migrations[source := disk.current.value])
  }

  predicate SamePlan(s: StateRow, c: Checkpoint) { s.sessionId == c.sessionId && s.plan == c.plan }

  /** Under the stored sequence nothing but the stored checkpoint is acknowledged, and that only after a `persist`. */
  lemma SameSequenceExactly(mode: Mode, t: Tables, c: Checkpoint)
    requires Sound(mode, t) && t.state.Some? && SamePlan(t.state.value, c) && c.sequence == t.state.value.sequence
    ensures PersistTx(t, c) ==
      if t.state.value.checkpointSha.Some? && LoadTx(mode, t) == Ok(c) then Ok(t) else Err(SequenceCollision)
  {
    LoadSucceedsExactly(mode, t);
  }

  /** Whatever is acknowledged is what `load` returns from then on. */
  lemma AcknowledgedLoads(mode: Mode, t: Tables, c: Checkpoint)
    requires Sound(mode, t) && Persisted(mode, t, c).0.Ok?
    ensures LoadTx(mode, Persisted(mode, t, c).1) == Ok(c)
  {
    if t.state.Some? && c.sequence == t.state.value.sequence {
      SameSequenceExactly(mode, t, c);
    }
  }

  /** The merge of a result map, entry by entry: `done` says which incoming entries have been looked at. */
  ghost predicate UpsertedSoFar(stored: map<int, ResultRow>, incoming: map<int, PortResult>, done: set<int>,
                                rows: map<int, ResultRow>)
    requires done <= incoming.Keys
  {
    && rows.Keys == stored.Keys + done
    && forall x :: x in rows ==>
         rows[x] == if x in done && !(x in stored && stored[x].sha == ResultDigest(incoming[x]))
                    then NewRow(incoming[x]) else stored[x]
  }

  lemma UpsertedAll(stored: map<int, ResultRow>, incoming: map<int, PortResult>, done: set<int>,
                    rows: map<int, ResultRow>)
    requires done == incoming.Keys && UpsertedSoFar(stored, incoming, done, rows)
    ensures rows == Upsert(stored, incoming)
  {
    var all := Upsert(stored, incoming);
    assert rows.Keys == all.Keys;
    assert forall x :: x in rows ==> rows[x] == all[x];
  }

  class SessionStoreV2 {
    const mode: Mode
    const durability: Durability
    var db: Tables
    var migrations: map<int, V1.Pointer>     // the migration table: what was imported from each source directory
    var cachedPlan: Option<Plan>
    var cachedFingerprint: Option<Digest>
    var cachedAllowedPorts: set<int>

    /** Whatever plan is cached has been validated, and its fingerprint and port set belong to it. */
    ghost predicate CacheCoherent()
      reads this
    {
      && (cachedPlan.Some? ==>
            && ValidPlan(cachedPlan.value) && PlanAllowed(mode, cachedPlan.value)
            && cachedFingerprint == Some(PlanDigest(cachedPlan.value))
            && cachedAllowedPorts == cachedPlan.value.ports)
    }

    ghost predicate Valid()
      reads this
    {
      && CacheCoherent()
      && (db.state.Some? ==> db.state.value.fingerprint == PlanDigest(db.state.value.plan))
      && NoRepeats(RowKeys(db.endpoints))
    }

    constructor (mode: Mode, durability: Durability)
      ensures Valid() && db == EMPTY_TABLES && migrations == map[] && cachedPlan == None
      ensures this.mode == mode && this.durability == durability
    {
      this.mode := mode;
      this.durability := durability;
      db := EMPTY_TABLES;
      migrations := map[];
      cachedPlan := None;
      cachedFingerprint := None;
      cachedAllowedPorts := {};
    }

    /** A new process on an existing database: the tables are what they were, the cache is empty. */
    constructor Open(mode: Mode, durability: Durability, tables: Tables, migrations: map<int, V1.Pointer>)
      requires tables.state.Some? ==> tables.state.value.fingerprint == PlanDigest(tables.state.value.plan)
      requires NoRepeats(RowKeys(tables.endpoints))
      ensures Valid() && db == tables && this.migrations == migrations && cachedPlan == None
      ensures this.mode == mode && this.durability == durability
    {
      this.mode := mode;
      this.durability := durability;
      db := tables;
      this.migrations := migrations;
      cachedPlan := None;
      cachedFingerprint := None;
      cachedAllowedPorts := {};
    }

    method CachePlan(plan: Plan)
      requires ValidPlan(plan) && PlanAllowed(mode, plan)
      modifies this`cachedPlan, this`cachedFingerprint, this`cachedAllowedPorts
      ensures CacheCoherent() && cachedPlan == Some(plan)
    {
      cachedPlan := Some(plan);
      cachedFingerprint := Some(PlanDigest(plan));
      cachedAllowedPorts := plan.ports;
    }

    /** The stored plan, from the cache when the fingerprint matches, otherwise parsed, validated and cached.
        On success the cached port set is the stored plan's, whatever plan an earlier call had cached. */
    method PlanFromState(s: StateRow) returns (r: Result<Plan, Error>)
      requires CacheCoherent() && s.fingerprint == PlanDigest(s.plan)
      modifies this`cachedPlan, this`cachedFingerprint, this`cachedAllowedPorts
      ensures CacheCoherent()
      ensures r == match PlanFault(mode, s) case None => Ok(s.plan) case Some(e) => Err(e)
      ensures r.Ok? ==> cachedPlan == Some(s.plan) && cachedAllowedPorts == s.plan.ports
      ensures r.Err? ==> cachedPlan == old(cachedPlan)
    {
      if cachedPlan.Some? && cachedFingerprint == Some(s.fingerprint) {
        return Ok(cachedPlan.value);
      }
      if !ValidPlan(s.plan) {
        return Err(Incompatible);
      }
      if !PlanAllowed(mode, s.plan) {
        return Err(PlanRejected);
      }
      CachePlan(s.plan);
      return Ok(s.plan);
    }

    method HasCheckpoint() returns (r: bool)
      ensures r <==> db.state.Some?
    {
      r := db.state.Some?;
    }

    /** Upserts the result rows of one endpoint, skipping the ones whose digest has not changed. */
    method MergeResults(stored: map<int, ResultRow>, incoming: map<int, PortResult>) returns (rows: map<int, ResultRow>)
      ensures rows == Upsert(stored, incoming)
    {
      var done, todo: set<int> := {}, incoming.Keys;
      rows := stored;
      while exists port :: port in todo
        invariant done !! todo && done + todo == incoming.Keys
        invariant UpsertedSoFar(stored, incoming, done, rows)
        decreases todo
      {
        var port :| port in todo;
        if !(port in stored && stored[port].sha == ResultDigest(incoming[port])) {
          rows := rows[port := NewRow(incoming[port])];
        }
        done, todo := done + {port}, todo - {port};
      }
      assert todo == {};
      UpsertedAll(stored, incoming, done, rows);
    }

    /** Merges one endpoint: its results row by row, then its banners and its error text. */
    method MergeEndpoint(row: EndpointRow, p: Progress) returns (r: Result<EndpointRow, Error>)
      ensures r == MergeRow(row, p)
    {
      var rows := MergeResults(row.results, p.completed);
      if !(row.results.Keys <= p.completed.Keys) {
        return Err(DropsResults);
      }
      if !(row.banners <= p.banners) {
        return Err(DropsBanners);
      }
      assert row.banners + (p.banners - row.banners) == p.banners;
      return Ok(EndpointRow(row.identity, p.error, rows, row.banners + (p.banners - row.banners)));
    }

    /** Merges every endpoint of a checkpoint into the row with its key. */
    method MergeEndpoints(rows: seq<EndpointRow>, ps: seq<Progress>) returns (r: Result<seq<EndpointRow>, Error>)
      ensures r == MergeAll(rows, ps)
    {
      var merged := rows;
      assert ps[..0] == [];
      for k := 0 to |ps|
        invariant MergeAll(rows, ps[..k]) == Ok(merged)
      {
        var p := ps[k];
        assert ps[..k + 1][..k] == ps[..k];
        var i := FindRow(merged, KeyOf(p.identity));
        if i == |merged| {
          MergeFails(rows, ps, k + 1, EndpointMismatch);
          return Err(EndpointMismatch);
        }
        var row := MergeEndpoint(merged[i], p);
        if row.Err? {
          MergeFails(rows, ps, k + 1, row.error);
          return Err(row.error);
        }
        merged := merged[i := row.value];
      }
      assert ps[..|ps|] == ps;
      return Ok(merged);
    }

    /** The transaction of `Persist`: every step on the working copy, and the copy to commit. */
    method WriteCheckpoint(c: Checkpoint) returns (r: Result<Tables, Error>)
      ensures r == PersistTx(db, c)
    {
      var work := db;
      if work.state.None? {
        var rows: seq<EndpointRow> := [];
        for ordinal := 0 to |c.endpoints|
          invariant rows == InitialRows(c.endpoints[..ordinal])
        {
          rows := rows + [InitialRow(c.endpoints[ordinal])];
        }
        assert c.endpoints[..|c.endpoints|] == c.endpoints;
        work := work.(state := Some(InitialState(c)), endpoints := rows);
      } else {
        var s := work.state.value;
        if s.sessionId != c.sessionId {
          return Err(OtherSession);
        }
        if s.fingerprint != PlanDigest(c.plan) {
          return Err(PlanChanged);
        }
        if c.sequence < s.sequence {
          return Err(SequenceBack);
        }
        if c.sequence > s.sequence + 1 {
          return Err(SequenceGap);
        }
        if c.sequence == s.sequence {
          if s.checkpointSha != Some(CheckpointDigest(c)) {
            return Err(SequenceCollision);
          }
          return Ok(work);
        }
      }
      if |work.endpoints| != |c.endpoints| {
        return Err(EndpointMismatch);
      }
      var rows := MergeEndpoints(work.endpoints, c.endpoints);
      if rows.Err? {
        return Err(rows.error);
      }
      var sha := CheckpointDigest(c);
      work := Tables(
        Some(work.state.value.(status := c.status, updatedAt := c.updatedAt, sequence := c.sequence,
                               lastError := c.lastError, checkpointSha := Some(sha), stateDigest := sha)),
        rows.value,
        work.history[c.sequence := HistoryRow(c.status, sha)]);
      return Ok(work);
    }

    /** Saves a whole checkpoint in one transaction, then reads it back and compares. */
    method Persist(c: Checkpoint) returns (r: Result<Commit, Error>)
      requires Valid() && ValidCheckpoint(c)
      modifies this`db, this`cachedPlan, this`cachedFingerprint, this`cachedAllowedPorts
      ensures Valid()
      ensures (r, db) == Persisted(mode, old(db), c)
      ensures r.Ok? && old(Sound(mode, db)) ==> LoadTx(mode, db) == Ok(c)
      ensures !PlanAllowed(mode, c.plan) ==> cachedPlan == old(cachedPlan)
      ensures PlanAllowed(mode, c.plan) && (r.Ok? || db == old(db)) ==> cachedPlan == Some(c.plan)
    {
      if !PlanAllowed(mode, c.plan) {
        return Err(PlanRejected);
      }
      if Sound(mode, db) && Persisted(mode, db, c).0.Ok? {
        AcknowledgedLoads(mode, db, c);
      }
      CachePlan(c.plan);
      var repeated := db.state.Some? && db.state.value.sequence == c.sequence;
      var work := WriteCheckpoint(c);
      if work.Err? {
        return Err(work.error);
      }
      PersistKeepsKeys(db, c);
      db := work.value;
      if repeated {
        return Ok(PersistReceipt(c));
      }
      var loaded := Load();
      if loaded.Err? {
        return Err(loaded.error);
      }
      if loaded.value != c {
        return Err(ReconstructedDiffers);
      }
      return Ok(PersistReceipt(c));
    }

    /** Checks the batch entry by entry against the cached port set and inserts its rows. */
    method CollectRows(row: EndpointRow, id: Identity, batch: seq<PortResult>)
      returns (r: Result<(map<int, ResultRow>, seq<Digest>), Error>)
      ensures r == match BatchFault(row, cachedAllowedPorts, id, batch, |batch|)
        case Some(e) => Err(e)
        case None => Ok((InsertResults(row.results, batch), Digests(batch)))
    {
      var digests: seq<Digest>, seen: set<int>, rows := [], {}, row.results;
      assert batch[..0] == [];
      for k := 0 to |batch|
        invariant BatchFault(row, cachedAllowedPorts, id, batch, k) == None
        invariant rows == InsertResults(row.results, batch[..k])
        invariant digests == Digests(batch[..k])
        invariant seen == Elems(Ports(batch[..k]))
        invariant rows.Keys == row.results.Keys + seen
        invariant forall x :: x in row.results.Keys - seen ==> rows[x] == row.results[x]
      {
        var result := batch[k];
        assert batch[..k + 1][..k] == batch[..k];
        assert forall j :: 0 <= j < k ==> Ports(batch[..k])[j] == batch[j].port;
        assert result.port in seen <==> exists j :: 0 <= j < k && batch[j].port == result.port;
        if !Canonical(result, id) {
          FaultStays(row, cachedAllowedPorts, id, batch, k);
          return Err(BadResult);
        }
        if result.port in seen {
          FaultStays(row, cachedAllowedPorts, id, batch, k);
          return Err(DuplicateInBatch);
        }
        if result.port !in cachedAllowedPorts {
          FaultStays(row, cachedAllowedPorts, id, batch, k);
          return Err(PortOutsidePlan);
        }
        if result.port in rows {
          FaultStays(row, cachedAllowedPorts, id, batch, k);
          return Err(if rows[result.port].sha != ResultDigest(result) then ResultCollision else AlreadyConfirmed);
        }
        assert Ports(batch[..k + 1]) == Ports(batch[..k]) + [result.port];
        seen := seen + {result.port};
        rows := rows[result.port := NewRow(result)];
        digests := digests + [ResultDigest(result)];
      }
      assert batch[..|batch|] == batch;
      return Ok((rows, digests));
    }

    /** Confirms a batch of results in one transaction; the sequence advances by one per result. */
    method AppendResults(id: Identity, batch: seq<PortResult>, now: int, status: Status, lastError: Option<string>)
      returns (r: Result<Commit, Error>)
      requires Valid()
      modifies this`db, this`cachedPlan, this`cachedFingerprint, this`cachedAllowedPorts
      ensures Valid()
      ensures match AppendTx(mode, BatchLimit(durability), old(db), id, batch, now, status, lastError)
        case Err(e) => r == Err(e) && db == old(db)
        case Ok(after) => db == after && after.state.Some? && r == Ok(ChainReceipt(after))
    {
      if batch == [] {
        return Err(EmptyBatch);
      }
      if |batch| > BatchLimit(durability) {
        return Err(OversizeBatch);
      }
      var work := db;
      if work.state.None? {
        return Err(NotFound);
      }
      var s := work.state.value;
      if Terminal(s.status) {
        return Err(TerminalSession);
      }
      if now < s.updatedAt {
        return Err(TimeWentBack);
      }
      if status != Running {
        return Err(StatusNotRunning);
      }
      var plan := PlanFromState(s);
      if plan.Err? {
        return Err(plan.error);
      }
      var i := FindRow(work.endpoints, KeyOf(id));
      if i == |work.endpoints| {
        return Err(UnknownEndpoint);
      }
      var row := work.endpoints[i];
      var collected := CollectRows(row, id, batch);
      if collected.Err? {
        return Err(collected.error);
      }
      var (rows, digests) := collected.value;
      var next := ChainState(s, |batch|, now, lastError, digests, None);
      if next.sequence in work.history {
        return Err(HistoryCollision);
      }
      work := Tables(Some(next), work.endpoints[i := row.(results := rows)],
                     work.history[next.sequence := HistoryRow(Running, next.stateDigest)]);
      assert RowKeys(work.endpoints) == RowKeys(db.endpoints);
      db := work;
      return Ok(ChainReceipt(work));
    }

    /** Records the banner of one confirmed port. */
    method CompleteBanner(id: Identity, port: int, banner: Option<string>, now: int)
      returns (r: Result<Commit, Error>)
      requires Valid()
      modifies this`db, this`cachedPlan, this`cachedFingerprint, this`cachedAllowedPorts
      ensures Valid()
      ensures match BannerTx(mode, old(db), id, port, banner, now)
        case Err(e) => r == Err(e) && db == old(db)
        case Ok(after) => db == after && after.state.Some? && r == Ok(ChainReceipt(after))
    {
      var work := db;
      if work.state.None? {
        return Err(NotFound);
      }
      var s := work.state.value;
      if Terminal(s.status) {
        return Err(TerminalSession);
      }
      if now < s.updatedAt {
        return Err(TimeWentBack);
      }
      var plan := PlanFromState(s);
      if plan.Err? {
        return Err(plan.error);
      }
      var i := FindRow(work.endpoints, KeyOf(id));
      if i == |work.endpoints| {
        return Err(UnknownEndpoint);
      }
      var row := work.endpoints[i];
      if port !in row.results {
        return Err(NoResultForBanner);
      }
      var document := row.results[port].document.(banner := if banner == Some("") then None else banner);
      if !Canonical(document, id) {
        return Err(BadResult);
      }
      if port in row.banners {
        return Err(BannerAlreadyConfirmed);
      }
      var rows := row.results[port := NewRow(document)];
      var banners := row.banners + {port};
      var next := ChainState(s, 1, now, None, [ResultDigest(document)], Some(port));
      if next.sequence in work.history {
        return Err(HistoryCollision);
      }
      work := Tables(Some(next), work.endpoints[i := row.(results := rows, banners := banners)],
                     work.history[next.sequence := HistoryRow(Running, next.stateDigest)]);
      assert RowKeys(work.endpoints) == RowKeys(db.endpoints);
      db := work;
      return Ok(ChainReceipt(work));
    }

    /** The endpoints of the checkpoint, in ordinal order, each with its digests checked. */
    method LoadEndpoints(plan: Plan) returns (r: Result<seq<Progress>, Error>)
      ensures r == LoadRows(db.endpoints, plan)
    {
      var endpoints: seq<Progress> := [];
      assert db.endpoints[..0] == [];
      for k := 0 to |db.endpoints|
        invariant LoadRows(db.endpoints[..k], plan) == Ok(endpoints)
      {
        var row := db.endpoints[k];
        assert db.endpoints[..k + 1][..k] == db.endpoints[..k];
        if exists x :: x in row.results && row.results[x].sha != ResultDigest(row.results[x].document) {
          LoadFails(db.endpoints, plan, k + 1, BadResultDigest);
          return Err(BadResultDigest);
        }
        var progress := Progress(row.identity, map x | x in row.results :: row.results[x].document,
                                 (set x | x in plan.ports && x !in row.results), row.banners, row.error);
        assert progress.pending == plan.ports - row.results.Keys;
        if !ValidProgress(progress) {
          LoadFails(db.endpoints, plan, k + 1, Incompatible);
          return Err(Incompatible);
        }
        endpoints := endpoints + [progress];
      }
      assert db.endpoints[..|db.endpoints|] == db.endpoints;
      return Ok(endpoints);
    }

    /** Rebuilds the public checkpoint from the tables. */
    method Load() returns (r: Result<Checkpoint, Error>)
      requires Valid()
      modifies this`cachedPlan, this`cachedFingerprint, this`cachedAllowedPorts
      ensures Valid()
      ensures r == LoadTx(mode, db)
      ensures r.Ok? ==> cachedPlan == Some(r.value.plan)
    {
      if db.state.None? {
        return Err(NotFound);
      }
      var s := db.state.value;
      var plan := PlanFromState(s);
      if plan.Err? {
        return Err(plan.error);
      }
      var endpoints := LoadEndpoints(s.plan);
      if endpoints.Err? {
        return Err(endpoints.error);
      }
      if s.sequence !in db.history || db.history[s.sequence].stateDigest != s.stateDigest {
        return Err(BadHistory);
      }
      var c := Checkpoint(s.sessionId, s.plan, s.status, endpoints.value, s.createdAt, s.updatedAt, s.sequence,
                          s.lastError);
      if !ValidCheckpoint(c) {
        return Err(Incompatible);
      }
      if s.checkpointSha.Some? && CheckpointDigest(c) != s.checkpointSha.value {
        return Err(BadCheckpointDigest);
      }
      return Ok(c);
    }

    /** The second transaction of an import: a new source is inserted, a known one must be unchanged. */
    method RecordSource(source: int, pointer: V1.Pointer) returns (ok: bool)
      modifies this`migrations
      ensures ok <==> (source in old(migrations) ==> old(migrations)[source] == pointer)
      ensures migrations == if ok then old(migrations)[source := pointer] else old(migrations)
    {
      ok := source in migrations ==> migrations[source] == pointer;
      if source !in migrations {
        migrations := migrations[source := pointer];
      }
    }

    /** Imports the checkpoint that a v1 directory publishes, and then records the import, in two transactions.  A
        second import of the same source succeeds only while neither side has changed. */
    method MigrateFromV1(source: int, disk: V1.Disk) returns (r: Result<Commit, Error>)
      requires Valid()
      modifies this
      ensures Valid()
      ensures (r, db, migrations) == Imported(mode, old(db), old(migrations), source, disk)
    {
      if disk.current.None? {
        return Err(SourceInvalid);
      }
      var loaded := SourceCheckpoint(disk);
      if loaded.Err? {
        return Err(SourceInvalid);
      }
      var c := loaded.value;
      var receipt := Persist(c);
      if receipt.Err? {
        return receipt;
      }
      var recorded := RecordSource(source, disk.current.value);
      if !recorded {
        return Err(SourceChanged);
      }
      return receipt;
    }
  }

  /** Sound tables can be opened. */
  lemma SoundIsOpenable(mode: Mode, t: Tables)
    requires Sound(mode, t)
    ensures t.state.Some? ==> t.state.value.fingerprint == PlanDigest(t.state.value.plan)
    ensures NoRepeats(RowKeys(t.endpoints))
  {
    if t.state.Some? {
      EndpointKeysDistinct(Rebuild(t).endpoints, Rebuild(t).plan);
      assert RowKeys(t.endpoints) == EndpointKeys(Rebuild(t).endpoints);
    }
  }

  lemma PersistKeepsKeys(t: Tables, c: Checkpoint)
    requires ValidCheckpoint(c) && NoRepeats(RowKeys(t.endpoints)) && PersistTx(t, c).Ok?
    requires t.state.Some? ==> t.state.value.fingerprint == PlanDigest(t.state.value.plan)
    ensures var after := PersistTx(t, c).value;
      && after.state.Some? && after.state.value.fingerprint == PlanDigest(after.state.value.plan)
      && NoRepeats(RowKeys(after.endpoints))
  {
    var after := PersistTx(t, c).value;
    if after != t {
      var rows := if t.state.Some? then t.endpoints else InitialRows(c.endpoints);
      MergeNeverDrops(rows, c.endpoints);
      assert RowKeys(after.endpoints) == RowKeys(rows);
      EndpointKeysDistinct(c.endpoints, c.plan);
      assert RowKeys(InitialRows(c.endpoints)) == EndpointKeys(c.endpoints);
    }
  }

  /** The first fault of a loop is the fault of the whole. */
  lemma {:induction false} MergeFails(rows: seq<EndpointRow>, ps: seq<Progress>, k: nat, e: Error)
    requires k <= |ps| && MergeAll(rows, ps[..k]) == Err(e)
    ensures MergeAll(rows, ps) == Err(e)
    decreases |ps| - k
  {
    if k == |ps| {
      assert ps[..k] == ps;
    } else {
      assert ps[..k + 1][..k] == ps[..k];
      MergeFails(rows, ps, k + 1, e);
    }
  }

  lemma {:induction false} LoadFails(rows: seq<EndpointRow>, plan: Plan, k: nat, e: Error)
    requires k <= |rows| && LoadRows(rows[..k], plan) == Err(e)
    ensures LoadRows(rows, plan) == Err(e)
    decreases |rows| - k
  {
    if k == |rows| {
      assert rows[..k] == rows;
    } else {
      assert rows[..k + 1][..k] == rows[..k];
      LoadFails(rows, plan, k + 1, e);
    }
  }

  lemma FaultStays(row: EndpointRow, ports: set<int>, id: Identity, batch: seq<PortResult>, k: nat)
    requires k < |batch| && BatchFault(row, ports, id, batch, k) == None && EntryFault(row, ports, id, batch, k).Some?
    ensures BatchFault(row, ports, id, batch, |batch|) == EntryFault(row, ports, id, batch, k)
  {
    FaultPropagates(row, ports, id, batch, k + 1, |batch|);
  }

  lemma {:induction false} FaultPropagates(row: EndpointRow, ports: set<int>, id: Identity, batch: seq<PortResult>,
                                           k: nat, n: nat)
    requires k <= n <= |batch| && BatchFault(row, ports, id, batch, k).Some?
    ensures BatchFault(row, ports, id, batch, n) == BatchFault(row, ports, id, batch, k)
  {
    if k < n { FaultPropagates(row, ports, id, batch, k, n - 1); }
  }
}
