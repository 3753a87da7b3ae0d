/** Whole runs of the v2 store: any split of a phase into batches, and any sequence of operations. */
module StoreV2Runs {
  import opened Common
  import opened Session
  import opened StoreV2Tables
  import opened StoreV2Theorems
  import opened StoreV2Increments

  // ---------- Batch size and arrival order do not matter ----------

  function Flatten(batches: seq<seq<PortResult>>): seq<PortResult> {
    if batches == [] then [] else Flatten(batches[..|batches| - 1]) + batches[|batches| - 1]
  }

  function AppendAll(mode: Mode, limit: int, t: Tables, id: Identity, batches: seq<seq<PortResult>>, times: seq<int>)
    : Result<Tables, Error>
    requires |times| == |batches|
  {
    if batches == [] then Ok(t)
    else
      var n := |batches| - 1;
      var before :- AppendAll(mode, limit, t, id, batches[..n], times[..n]);
      AppendTx(mode, limit, before, id, batches[n], times[n], Running, None)
  }

  predicate WithinLimit(batches: seq<seq<PortResult>>, limit: int) {
    forall k :: 0 <= k < |batches| ==> 0 < |batches[k]| <= limit
  }

  predicate Chronological(from: int, times: seq<int>) {
    (times != [] ==> from <= times[0]) && forall i, j :: 0 <= i < j < |times| ==> times[i] <= times[j]
  }

  lemma AppendableSplit(p: Progress, a: seq<PortResult>, b: seq<PortResult>)
    ensures Appendable(p, a + b) <==> Appendable(p, a) && Appendable(Recorded(p, a), b)
  {
    ByPortFacts(a);
    assert Ports(a + b) == Ports(a) + Ports(b);
    NoRepeatsAppend(Ports(a), Ports(b));
    var q := Recorded(p, a);
    assert q.pending == p.pending - Elems(Ports(a));
    if Appendable(p, a + b) {
      forall k | 0 <= k < |a| ensures Canonical(a[k], p.identity) && a[k].port in p.pending {
        assert (a + b)[k] == a[k];
      }
      forall k | 0 <= k < |b| ensures Canonical(b[k], q.identity) && b[k].port in q.pending {
        assert (a + b)[|a| + k] == b[k];
        assert Ports(b)[k] in Elems(Ports(b));
      }
    }
    if Appendable(p, a) && Appendable(q, b) {
      forall x | x in Elems(Ports(b)) ensures x !in Elems(Ports(a)) {
        var k :| 0 <= k < |b| && Ports(b)[k] == x;
        assert b[k].port in q.pending;
      }
      forall k | 0 <= k < |a + b| ensures Canonical((a + b)[k], p.identity) && (a + b)[k].port in p.pending {
        if k < |a| { assert (a + b)[k] == a[k]; } else { assert (a + b)[k] == b[k - |a|]; }
      }
    }
  }

  /** The tables between two batches: sound, running or untouched, with everything so far recorded. */
  predicate Recording(mode: Mode, t: Tables, i: nat, done: seq<PortResult>, after: Tables) {
    && t.state.Some? && i < |t.endpoints|
    && Sound(mode, after) && after.state.Some?
    && RowKeys(after.endpoints) == RowKeys(t.endpoints)
    && if done == [] then after == t
       else Rebuild(after) == RecordedAt(Rebuild(t), i, done, after.state.value.updatedAt, None)
  }

  lemma FindRowByKeys(a: seq<EndpointRow>, b: seq<EndpointRow>, key: Key)
    requires RowKeys(a) == RowKeys(b)
    ensures FindRow(a, key) == FindRow(b, key)
  {
    var i, j := FindRow(a, key), FindRow(b, key);
    assert |a| == |RowKeys(a)| && |b| == |RowKeys(b)|;
    assert forall k :: 0 <= k < |a| ==> RowKeys(a)[k] == KeyOf(a[k].identity) && RowKeys(b)[k] == KeyOf(b[k].identity);
  }

  lemma RecordedAgain(c: Checkpoint, i: nat, a: seq<PortResult>, b: seq<PortResult>, earlier: int, now: int)
    requires i < |c.endpoints|
    ensures RecordedAt(RecordedAt(c, i, a, earlier, None), i, b, now, None) == RecordedAt(c, i, a + b, now, None)
  {
    RecordedTwice(c.endpoints[i], a, b);
  }

  lemma RecordingNext(mode: Mode, limit: int, t: Tables, id: Identity, done: seq<PortResult>, before: Tables,
                      batch: seq<PortResult>, now: int)
    requires Sound(mode, t) && t.state.Some? && !Terminal(t.state.value.status)
    requires FindRow(t.endpoints, KeyOf(id)) < |t.endpoints|
    requires Recording(mode, t, FindRow(t.endpoints, KeyOf(id)), done, before)
    requires 0 < |batch| <= limit && before.state.value.updatedAt <= now
    ensures var i := FindRow(t.endpoints, KeyOf(id));
      var result := AppendTx(mode, limit, before, id, batch, now, Running, None);
      && (result.Ok? <==> Appendable(Recorded(Rebuild(t).endpoints[i], done), batch))
      && (result.Ok? ==> Recording(mode, t, i, done + batch, result.value) && result.value.state.value.updatedAt == now)
  {
    var i := FindRow(t.endpoints, KeyOf(id));
    FindRowByKeys(t.endpoints, before.endpoints, KeyOf(id));
    AppendAcceptsExactly(mode, limit, before, id, batch, now, Running, None);
    var p := Rebuild(t).endpoints[i];
    assert Rebuild(before).endpoints[i] == RowProgress(before.endpoints[i], before.state.value.plan);
    assert done == [] ==> Recorded(p, done) == p;
    var result := AppendTx(mode, limit, before, id, batch, now, Running, None);
    if result.Ok? {
      RecordingExtends(mode, limit, t, id, done, before, batch, now, result.value);
    }
  }

  lemma RecordingExtends(mode: Mode, limit: int, t: Tables, id: Identity, done: seq<PortResult>, before: Tables,
                         batch: seq<PortResult>, now: int, after: Tables)
    requires Sound(mode, t) && t.state.Some? && batch != []
    requires FindRow(t.endpoints, KeyOf(id)) < |t.endpoints|
    requires Recording(mode, t, FindRow(t.endpoints, KeyOf(id)), done, before)
    requires AppendTx(mode, limit, before, id, batch, now, Running, None) == Ok(after)
    ensures Recording(mode, t, FindRow(t.endpoints, KeyOf(id)), done + batch, after)
    ensures after.state.value.updatedAt == now
  {
    var i := FindRow(t.endpoints, KeyOf(id));
    FindRowByKeys(t.endpoints, before.endpoints, KeyOf(id));
    AppendRebuilds(mode, limit, before, id, batch, now, Running, None, after);
    assert RowKeys(after.endpoints) == RowKeys(before.endpoints);
    assert Rebuild(after).updatedAt == now;
    if done == [] {
      assert done + batch == batch;
    } else {
      RecordedAgain(Rebuild(t), i, done, batch, before.state.value.updatedAt, now);
    }
  }

  lemma {:induction false} AppendAllRecords(mode: Mode, limit: int, t: Tables, id: Identity,
                                            batches: seq<seq<PortResult>>, times: seq<int>)
    requires |times| == |batches| && Sound(mode, t) && t.state.Some? && !Terminal(t.state.value.status)
    requires FindRow(t.endpoints, KeyOf(id)) < |t.endpoints|
    requires WithinLimit(batches, limit) && Chronological(t.state.value.updatedAt, times)
    ensures var i := FindRow(t.endpoints, KeyOf(id));
      var result := AppendAll(mode, limit, t, id, batches, times);
      && (result.Ok? <==> Appendable(Rebuild(t).endpoints[i], Flatten(batches)))
      && (result.Ok? ==>
            && Recording(mode, t, i, Flatten(batches), result.value)
            && (batches != [] ==> result.value.state.value.updatedAt == times[|times| - 1]))
  {
    if batches != [] {
      var n := |batches| - 1;
      var i, p := FindRow(t.endpoints, KeyOf(id)), Rebuild(t).endpoints[FindRow(t.endpoints, KeyOf(id))];
      AppendAllRecords(mode, limit, t, id, batches[..n], times[..n]);
      var done := Flatten(batches[..n]);
      AppendableSplit(p, done, batches[n]);
      var before := AppendAll(mode, limit, t, id, batches[..n], times[..n]);
      if before.Ok? {
        RecordingNext(mode, limit, t, id, done, before.value, batches[n], times[n]);
      }
    }
  }

  lemma AppendableInAnyOrder(p: Progress, a: seq<PortResult>, b: seq<PortResult>)
    requires multiset(a) == multiset(b)
    ensures Appendable(p, a) <==> Appendable(p, b)
  {
    if Appendable(p, a) { AppendableReordered(p, a, b); }
    if Appendable(p, b) { AppendableReordered(p, b, a); }
  }

  lemma AppendableReordered(p: Progress, a: seq<PortResult>, b: seq<PortResult>)
    requires multiset(a) == multiset(b) && Appendable(p, a)
    ensures Appendable(p, b)
  {
    forall k | 0 <= k < |b| ensures Canonical(b[k], p.identity) && b[k].port in p.pending {
      assert b[k] in multiset(a);
      var l :| 0 <= l < |a| && a[l] == b[k];
    }
    ByPortIgnoresOrder(a, b);
    ByPortFacts(a);
    ByPortFacts(b);
    assert Elems(Ports(a)) == Elems(Ports(b));
    NoRepeatsByCount(Ports(a));
    NoRepeatsByCount(Ports(b));
  }

  // ---------- Any sequence of operations ----------

  datatype Op =
    | Persist(checkpoint: Checkpoint)
    | Append(id: Identity, batch: seq<PortResult>, now: int, status: Status, lastError: Option<string>)
    | CompleteBanner(id: Identity, port: int, banner: Option<string>, now: int)

  function Attempt(mode: Mode, limit: int, t: Tables, op: Op): Result<Tables, Error> {
    match op
    case Persist(c) => PersistTx(t, c)
    case Append(id, batch, now, status, lastError) => AppendTx(mode, limit, t, id, batch, now, status, lastError)
    case CompleteBanner(id, port, banner, now) => BannerTx(mode, t, id, port, banner, now)
  }

  /** A transaction is all or nothing: a refused operation, or a crash before COMMIT, leaves the tables as they were. */
  function Step(mode: Mode, limit: int, t: Tables, op: Op): Tables {
    match Attempt(mode, limit, t, op)
    case Ok(after) => after
    case Err(_) => t
  }

  /** What the runners see to before they call the store. */
  predicate RunnerSeesTo(mode: Mode, t: Tables, op: Op) {
    match op
    case Persist(c) => ValidCheckpoint(c) && PlanAllowed(mode, c.plan) && SameColumns(t, c)
    case Append(_, _, _, _, lastError) => lastError == None
    case CompleteBanner(id, port, _, _) =>
      t.state.Some? ==>
        && t.state.value.plan.bannerGrab
        && var i := FindRow(t.endpoints, KeyOf(id));
           i < |t.endpoints| ==> port in OpenPorts(RowProgress(t.endpoints[i], t.state.value.plan))
  }

  function Run(mode: Mode, limit: int, t: Tables, ops: seq<Op>): Tables {
    if ops == [] then t else Step(mode, limit, Run(mode, limit, t, ops[..|ops| - 1]), ops[|ops| - 1])
  }

  predicate RunnerRun(mode: Mode, limit: int, t: Tables, ops: seq<Op>) {
    forall k :: 0 <= k < |ops| ==> RunnerSeesTo(mode, Run(mode, limit, t, ops[..k]), ops[k])
  }

  predicate Monotone(before: Tables, after: Tables) {
    before.state.Some? ==>
      && after.state.Some? && before.state.value.sequence <= after.state.value.sequence
      && after.state.value.plan == before.state.value.plan
      && |after.endpoints| == |before.endpoints|
      && forall i :: 0 <= i < |before.endpoints| ==> Grows(before.endpoints[i], after.endpoints[i])
  }

  lemma {:induction false} BatchFaultKinds(row: EndpointRow, ports: set<int>, id: Identity, batch: seq<PortResult>,
                                           n: nat)
    requires n <= |batch|
    ensures BatchFault(row, ports, id, batch, n) != Some(HistoryCollision)
  {
    if n > 0 { BatchFaultKinds(row, ports, id, batch, n - 1); }
  }

  lemma {:induction false} MergeFaultKinds(rows: seq<EndpointRow>, ps: seq<Progress>)
    ensures MergeAll(rows, ps) != Err(HistoryCollision)
  {
    if ps != [] { MergeFaultKinds(rows, ps[..|ps| - 1]); }
  }

  /** The plain INSERTs into the history never meet an existing row. */
  lemma HistoryNeverCollides(mode: Mode, limit: int, t: Tables, op: Op)
    requires Sound(mode, t)
    ensures Attempt(mode, limit, t, op) != Err(HistoryCollision)
  {
    match op {
      case Persist(c) =>
        MergeFaultKinds(t.endpoints, c.endpoints);
        MergeFaultKinds(InitialRows(c.endpoints), c.endpoints);
      case Append(id, batch, _, _, _) =>
        if t.state.Some? {
          var i := FindRow(t.endpoints, KeyOf(id));
          if i < |t.endpoints| { BatchFaultKinds(t.endpoints[i], t.state.value.plan.ports, id, batch, |batch|); }
        }
      case CompleteBanner(_, _, _, _) =>
    }
  }

  lemma StepStaysSound(mode: Mode, limit: int, t: Tables, op: Op)
    requires Sound(mode, t) && RunnerSeesTo(mode, t, op)
    ensures Sound(mode, Step(mode, limit, t, op))
  {
    if Attempt(mode, limit, t, op).Ok? {
      var after := Step(mode, limit, t, op);
      match op {
        case Persist(c) =>
          if after != t { PersistRoundTrip(mode, t, c, after); }
        case Append(id, batch, now, status, lastError) =>
          AppendRebuilds(mode, limit, t, id, batch, now, status, lastError, after);
        case CompleteBanner(id, port, banner, now) =>
          BannerRebuilds(mode, t, id, port, banner, now, after);
      }
    }
  }

  lemma {:induction false} InsertedKeys(rows: map<int, ResultRow>, batch: seq<PortResult>)
    ensures rows.Keys <= InsertResults(rows, batch).Keys
  {
    if batch != [] { InsertedKeys(rows, batch[..|batch| - 1]); }
  }

  /** No operation drops a confirmed row, replaces the plan or moves the sequence back. */
  lemma StepIsMonotone(mode: Mode, limit: int, t: Tables, op: Op)
    ensures Monotone(t, Step(mode, limit, t, op))
  {
    if t.state.Some? && Attempt(mode, limit, t, op).Ok? {
      match op {
        case Persist(c) => PersistNeverDrops(t, c, Step(mode, limit, t, op));
        case Append(id, batch, _, _, _) =>
          var i := FindRow(t.endpoints, KeyOf(id));
          InsertedKeys(t.endpoints[i].results, batch);
        case CompleteBanner(_, _, _, _) =>
      }
    }
  }

  /** Representation invariant over every run from the empty store: the tables stay sound, so `load` succeeds
      whenever a session exists, returns exactly their content, and no history INSERT ever collides. */
  lemma {:induction false} RunsStaySound(mode: Mode, limit: int, ops: seq<Op>)
    requires RunnerRun(mode, limit, EMPTY_TABLES, ops)
    ensures var t := Run(mode, limit, EMPTY_TABLES, ops);
      && Sound(mode, t)
      && (t.state.Some? ==> LoadTx(mode, t) == Ok(Rebuild(t)))
      && forall op :: Attempt(mode, limit, t, op) != Err(HistoryCollision)
  {
    var t := Run(mode, limit, EMPTY_TABLES, ops);
    if ops != [] {
      var n := |ops| - 1;
      forall k | 0 <= k < n
        ensures RunnerSeesTo(mode, Run(mode, limit, EMPTY_TABLES, ops[..n][..k]), ops[..n][k])
      {
        assert ops[..n][..k] == ops[..k];
      }
      RunsStaySound(mode, limit, ops[..n]);
      StepStaysSound(mode, limit, Run(mode, limit, EMPTY_TABLES, ops[..n]), ops[n]);
    }
    if t.state.Some? { LoadSucceedsExactly(mode, t); }
    forall op ensures Attempt(mode, limit, t, op) != Err(HistoryCollision) {
      HistoryNeverCollides(mode, limit, t, op);
    }
  }

  /** Along every run, from any tables, confirmed rows are never dropped and the sequence never goes back. */
  lemma {:induction false} RunsAreMonotone(mode: Mode, limit: int, t: Tables, ops: seq<Op>, k: nat)
    requires k <= |ops|
    ensures Monotone(Run(mode, limit, t, ops[..k]), Run(mode, limit, t, ops))
    decreases |ops| - k
  {
    if k == |ops| {
      assert ops[..k] == ops;
    } else {
      assert ops[..k + 1][..k] == ops[..k];
      StepIsMonotone(mode, limit, Run(mode, limit, t, ops[..k]), ops[k]);
      RunsAreMonotone(mode, limit, t, ops, k + 1);
    }
  }
}
