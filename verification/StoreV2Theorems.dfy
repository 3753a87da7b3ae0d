/** What the v2 store guarantees: the tables always rebuild to a checkpoint, `persist` round-trips, and the
    incremental commits refine the simple path that persists a whole checkpoint for every result. */
module StoreV2Theorems {
  import opened Common
  import opened Session
  import opened StoreV2Tables

  // ---------- load ----------

  lemma {:induction false} LoadRowsExactly(rows: seq<EndpointRow>, plan: Plan)
    ensures LoadRows(rows, plan).Ok? <==>
            forall i :: 0 <= i < |rows| ==> RowHashesMatch(rows[i]) && ValidProgress(RowProgress(rows[i], plan))
    ensures LoadRows(rows, plan).Ok? ==>
            LoadRows(rows, plan).value == seq(|rows|, i requires 0 <= i < |rows| => RowProgress(rows[i], plan))
  {
    if rows != [] {
      var front := rows[..|rows| - 1];
      LoadRowsExactly(front, plan);
      assert forall i :: 0 <= i < |front| ==> front[i] == rows[i];
    }
  }

  /** `load` succeeds exactly on sound tables, up to history rows of later sequences, and rebuilds them. */
  lemma LoadSucceedsExactly(mode: Mode, t: Tables)
    requires t.state.Some?
    ensures LoadTx(mode, t).Ok? ==> LoadTx(mode, t).value == Rebuild(t)
    ensures Sound(mode, t) <==>
            LoadTx(mode, t).Ok? && forall k :: k in t.history ==> k <= t.state.value.sequence
  {
    var s := t.state.value;
    LoadRowsExactly(t.endpoints, s.plan);
    var c := Rebuild(t);
    assert forall i :: 0 <= i < |t.endpoints| ==> c.endpoints[i] == RowProgress(t.endpoints[i], s.plan);
    if LoadRows(t.endpoints, s.plan).Ok? {
      assert LoadRows(t.endpoints, s.plan).value == c.endpoints;
    }
  }

  // ---------- persist ----------

  /** The columns `persist` never rewrites agree with the checkpoint. */
  predicate SameColumns(t: Tables, c: Checkpoint) {
    t.state.Some? ==>
      && t.state.value.createdAt == c.createdAt
      && |t.endpoints| == |c.endpoints|
      && forall i :: 0 <= i < |c.endpoints| ==> t.endpoints[i].identity == c.endpoints[i].identity
  }

  lemma MergedRowHolds(row: EndpointRow, p: Progress, plan: Plan)
    requires RowHashesMatch(row) && row.identity == p.identity
    requires ValidProgress(p) && AccountsFor(p, plan) && MergeRow(row, p).Ok?
    ensures var merged := MergeRow(row, p).value; RowHashesMatch(merged) && RowProgress(merged, plan) == p
  {
    var merged := MergeRow(row, p).value;
    assert merged.results.Keys == p.completed.Keys;
    forall x | x in p.completed ensures merged.results[x] == NewRow(p.completed[x]) {
    }
    assert RowProgress(merged, plan).completed == p.completed;
  }

  predicate Grows(before: EndpointRow, after: EndpointRow) {
    && after.identity == before.identity
    && before.results.Keys <= after.results.Keys
    && before.banners <= after.banners
  }

  /** `persist` drops no result row and no banner row, and rewrites no identity. */
  lemma {:induction false} MergeNeverDrops(rows: seq<EndpointRow>, ps: seq<Progress>)
    requires MergeAll(rows, ps).Ok?
    ensures var merged := MergeAll(rows, ps).value;
      |merged| == |rows| && forall i :: 0 <= i < |rows| ==> Grows(rows[i], merged[i])
  {
    if ps != [] {
      MergeNeverDrops(rows, ps[..|ps| - 1]);
    }
  }

  predicate Aligned(rows: seq<EndpointRow>, ps: seq<Progress>) {
    |rows| == |ps| && forall i :: 0 <= i < |ps| ==> rows[i].identity == ps[i].identity
  }

  lemma FindRowAt(rows: seq<EndpointRow>, i: nat)
    requires i < |rows| && NoRepeats(RowKeys(rows))
    ensures FindRow(rows, KeyOf(rows[i].identity)) == i
  {
    var j := FindRow(rows, KeyOf(rows[i].identity));
    assert j <= i;
    assert RowKeys(rows)[j] == RowKeys(rows)[i];
  }

  lemma {:induction false} MergeAligned(rows: seq<EndpointRow>, ps: seq<Progress>, n: nat)
    requires Aligned(rows, ps) && NoRepeats(RowKeys(rows)) && n <= |ps|
    requires MergeAll(rows, ps[..n]).Ok?
    ensures var merged := MergeAll(rows, ps[..n]).value;
      && (forall i :: 0 <= i < n ==> MergeRow(rows[i], ps[i]) == Ok(merged[i]))
      && (forall i :: n <= i < |rows| ==> merged[i] == rows[i])
  {
    if n > 0 {
      assert ps[..n][..n - 1] == ps[..n - 1];
      MergeAligned(rows, ps, n - 1);
      var merged := MergeAll(rows, ps[..n - 1]).value;
      MergeNeverDrops(rows, ps[..n - 1]);
      assert RowKeys(merged) == RowKeys(rows);
      FindRowAt(merged, n - 1);
    }
  }

  /** What a successful write leaves behind when the columns agree: the checkpoint itself, row by row. */
  lemma WriteRebuilds(t: Tables, c: Checkpoint)
    requires t.state.Some? && SameColumns(t, c) && ValidCheckpoint(c)
    requires t.state.value.sessionId == c.sessionId && t.state.value.plan == c.plan
    requires forall i :: 0 <= i < |t.endpoints| ==> RowHashesMatch(t.endpoints[i])
    requires WriteTx(t, c).Ok?
    ensures var after := WriteTx(t, c).value;
      && Rebuild(after) == c
      && forall i :: 0 <= i < |after.endpoints| ==> RowHashesMatch(after.endpoints[i])
  {
    var after := WriteTx(t, c).value;
    EndpointKeysDistinct(c.endpoints, c.plan);
    assert RowKeys(t.endpoints) == EndpointKeys(c.endpoints);
    assert c.endpoints[..|c.endpoints|] == c.endpoints;
    MergeAligned(t.endpoints, c.endpoints, |c.endpoints|);
    forall i | 0 <= i < |after.endpoints|
      ensures RowProgress(after.endpoints[i], c.plan) == c.endpoints[i] && RowHashesMatch(after.endpoints[i])
    {
      MergedRowHolds(t.endpoints[i], c.endpoints[i], c.plan);
    }
    assert Rebuild(after).endpoints == c.endpoints;
  }

  lemma WriteFacts(mode: Mode, t: Tables, c: Checkpoint, after: Tables)
    requires Sound(mode, t) && ValidCheckpoint(c) && PlanAllowed(mode, c.plan)
    requires PersistTx(t, c) == Ok(after) && after != t
    ensures after.state.Some? && after.state.value.checkpointSha == Some(CheckpointDigest(c))
    ensures PlanFault(mode, after.state.value) == None && HistorySound(after)
  {
  }

  /** Round trip.  After an accepted `persist` that wrote, the tables are sound, and `load` returns exactly the
      checkpoint, if and only if the columns that are never rewritten agree with it. */
  lemma PersistRoundTrip(mode: Mode, t: Tables, c: Checkpoint, after: Tables)
    requires Sound(mode, t) && ValidCheckpoint(c) && PlanAllowed(mode, c.plan)
    requires PersistTx(t, c) == Ok(after) && after != t
    ensures SameColumns(t, c) ==> Sound(mode, after) && LoadTx(mode, after) == Ok(c)
    ensures !SameColumns(t, c) ==> !Sound(mode, after) && LoadTx(mode, after).Err?
  {
    WriteFacts(mode, t, c, after);
    LoadSucceedsExactly(mode, after);
    if SameColumns(t, c) {
      var from :=
        if t.state.Some? then t else t.(state := Some(InitialState(c)), endpoints := InitialRows(c.endpoints));
      assert t.state.Some? ==> t.state.value.fingerprint == PlanDigest(t.state.value.plan);
      WriteRebuilds(from, c);
    } else {
      assert t.state.Some?;
      MergeNeverDrops(t.endpoints, c.endpoints);
      assert Rebuild(after) != c by {
        if i :| 0 <= i < |c.endpoints| && t.endpoints[i].identity != c.endpoints[i].identity {
          assert Rebuild(after).endpoints[i].identity == t.endpoints[i].identity;
        }
      }
    }
  }

  /** Persisting the loaded checkpoint again changes nothing when the last commit was a `persist`, and is
      refused as a collision when it was an incremental commit, which stores no checkpoint digest. */
  lemma PersistAgain(mode: Mode, t: Tables)
    requires Sound(mode, t) && t.state.Some?
    ensures PersistTx(t, Rebuild(t)) ==
            if t.state.value.checkpointSha.Some? then Ok(t) else Err(SequenceCollision)
  {
  }

  /** No accepted `persist` removes a confirmed result or banner, or moves the sequence back. */
  lemma PersistNeverDrops(t: Tables, c: Checkpoint, after: Tables)
    requires t.state.Some? && PersistTx(t, c) == Ok(after)
    ensures |after.endpoints| == |t.endpoints|
    ensures forall i :: 0 <= i < |t.endpoints| ==> Grows(t.endpoints[i], after.endpoints[i])
    ensures after.state.Some? && t.state.value.sequence <= after.state.value.sequence <= t.state.value.sequence + 1
  {
    if after != t {
      MergeNeverDrops(t.endpoints, c.endpoints);
    }
  }

  lemma {:induction false} MergeAlignedSucceeds(rows: seq<EndpointRow>, ps: seq<Progress>, n: nat)
    requires Aligned(rows, ps) && NoRepeats(RowKeys(rows)) && n <= |ps|
    ensures MergeAll(rows, ps[..n]).Ok? <==> forall i :: 0 <= i < n ==> MergeRow(rows[i], ps[i]).Ok?
  {
    if n > 0 {
      assert ps[..n][..n - 1] == ps[..n - 1];
      MergeAlignedSucceeds(rows, ps, n - 1);
      if MergeAll(rows, ps[..n - 1]).Ok? {
        var merged := MergeAll(rows, ps[..n - 1]).value;
        MergeAligned(rows, ps, n - 1);
        MergeNeverDrops(rows, ps[..n - 1]);
        assert RowKeys(merged) == RowKeys(rows);
        FindRowAt(merged, n - 1);
      }
    }
  }

  predicate Extends(c: Checkpoint, next: Checkpoint) {
    |next.endpoints| == |c.endpoints| && forall i :: 0 <= i < |c.endpoints| ==>
      && c.endpoints[i].completed.Keys <= next.endpoints[i].completed.Keys
      && c.endpoints[i].banners <= next.endpoints[i].banners
  }

  /** The successor of the stored checkpoint is accepted exactly when it keeps every confirmed port and banner. */
  lemma PersistAcceptsExactly(mode: Mode, t: Tables, c: Checkpoint)
    requires Sound(mode, t) && t.state.Some? && ValidCheckpoint(c) && SameColumns(t, c)
    requires c.sessionId == t.state.value.sessionId && c.plan == t.state.value.plan
    requires c.sequence == t.state.value.sequence + 1
    ensures PersistTx(t, c).Ok? <==> Extends(Rebuild(t), c)
  {
    EndpointKeysDistinct(c.endpoints, c.plan);
    assert RowKeys(t.endpoints) == EndpointKeys(c.endpoints);
    assert c.endpoints[..|c.endpoints|] == c.endpoints;
    MergeAlignedSucceeds(t.endpoints, c.endpoints, |c.endpoints|);
    forall i | 0 <= i < |c.endpoints|
      ensures Rebuild(t).endpoints[i].completed.Keys == t.endpoints[i].results.Keys
      ensures Rebuild(t).endpoints[i].banners == t.endpoints[i].banners
    {
    }
  }

  /** The first checkpoint of a session is always accepted by an empty store. */
  lemma FirstPersistSucceeds(c: Checkpoint)
    requires ValidCheckpoint(c)
    ensures PersistTx(EMPTY_TABLES, c).Ok?
  {
    var rows := InitialRows(c.endpoints);
    EndpointKeysDistinct(c.endpoints, c.plan);
    assert RowKeys(rows) == EndpointKeys(c.endpoints);
    MergeAlignedSucceeds(rows, c.endpoints, |c.endpoints|);
    assert c.endpoints[..|c.endpoints|] == c.endpoints;
  }
}
