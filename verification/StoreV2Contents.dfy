/** What the database holds after an accepted call, field by field, and why a call is refused. */
module StoreV2Contents {
  import opened Common
  import opened Session
  import opened StoreV2Tables
  import opened StoreV2Theorems
  import opened StoreV2Increments
  import opened StoreV2Runs
  import opened StoreV2
  import opened SessionChanges

  /** After an accepted append `load` returns the session with exactly these results confirmed, each as it was given. */
  lemma AppendLoads(mode: Mode, limit: int, t: Tables, id: Identity, batch: seq<PortResult>, now: int, after: Tables)
    requires Sound(mode, t) && AppendTx(mode, limit, t, id, batch, now, Running, None) == Ok(after)
    ensures LoadTx(mode, t).Ok? && LoadTx(mode, after).Ok?
    ensures var c, d, i := LoadTx(mode, t).value, LoadTx(mode, after).value, FindRow(t.endpoints, KeyOf(id));
      && Stamped(c, d, Running, None, |batch|, now) && OthersStay(c, d, i)
      && KeyOf(c.endpoints[i].identity) == KeyOf(id) && ResultsAdded(c.endpoints[i], d.endpoints[i], batch)
  {
    AppendAcceptsExactly(mode, limit, t, id, batch, now, Running, None);
    AppendRebuilds(mode, limit, t, id, batch, now, Running, None, after);
    LoadSucceedsExactly(mode, t);
    LoadSucceedsExactly(mode, after);
    var c, i := Rebuild(t), FindRow(t.endpoints, KeyOf(id));
    assert c.endpoints[i] == RowProgress(t.endpoints[i], c.plan);
    RecordedAtContents(c, i, batch, now);
  }

  /** After an accepted banner of an open port, `load` returns the session with exactly this banner recorded. */
  lemma BannerLoads(mode: Mode, t: Tables, id: Identity, port: int, banner: Option<string>, now: int, after: Tables)
    requires Sound(mode, t) && BannerTx(mode, t, id, port, banner, now) == Ok(after)
    ensures LoadTx(mode, t).Ok?
    ensures var c, i := LoadTx(mode, t).value, FindRow(t.endpoints, KeyOf(id));
      && i < |c.endpoints| && KeyOf(c.endpoints[i].identity) == KeyOf(id)
      && (LoadTx(mode, after).Ok? <==> port in OpenPorts(c.endpoints[i]) && c.plan.bannerGrab)
      && (LoadTx(mode, after).Ok? ==>
            var d := LoadTx(mode, after).value;
            && Stamped(c, d, Running, None, 1, now) && OthersStay(c, d, i)
            && BannerAdded(c.endpoints[i], d.endpoints[i], port, banner))
  {
    BannerRebuilds(mode, t, id, port, banner, now, after);
    LoadSucceedsExactly(mode, t);
    LoadSucceedsExactly(mode, after);
    var c, i := Rebuild(t), FindRow(t.endpoints, KeyOf(id));
    assert c.endpoints[i] == RowProgress(t.endpoints[i], c.plan);
    BanneredAtContents(c, i, port, banner, now);
  }

  // ---------- persist ----------

  /** The stored checkpoint digest tells what the last commit was. */
  lemma LastCommit(mode: Mode, limit: int, t: Tables, op: Op, after: Tables)
    requires Attempt(mode, limit, t, op) == Ok(after) && after != t
    ensures after.state.Some? && (after.state.value.checkpointSha.Some? <==> op.Persist?)
  {
  }

  /** Why a whole checkpoint is refused before anything is written. */
  lemma PersistRefusesExactly(mode: Mode, t: Tables, c: Checkpoint)
    requires Sound(mode, t) && t.state.Some?
    ensures var s, r := t.state.value, PersistTx(t, c);
      && (r == Err(OtherSession) <==> s.sessionId != c.sessionId)
      && (r == Err(PlanChanged) <==> s.sessionId == c.sessionId && s.plan != c.plan)
      && (r == Err(SequenceBack) <==> SamePlan(s, c) && c.sequence < s.sequence)
      && (r == Err(SequenceGap) <==> SamePlan(s, c) && c.sequence > s.sequence + 1)
      && (r == Err(SequenceCollision) <==>
            SamePlan(s, c) && c.sequence == s.sequence && !(s.checkpointSha.Some? && LoadTx(mode, t) == Ok(c)))
  {
    MergeKinds(t.endpoints, c.endpoints);
    if SamePlan(t.state.value, c) && c.sequence == t.state.value.sequence {
      SameSequenceExactly(mode, t, c);
    }
  }

  lemma {:induction false} MergeKinds(rows: seq<EndpointRow>, ps: seq<Progress>)
    ensures MergeAll(rows, ps).Err? ==> MergeAll(rows, ps).error in {EndpointMismatch, DropsResults, DropsBanners}
  {
    if ps != [] { MergeKinds(rows, ps[..|ps| - 1]); }
  }

  /** An endpoint is refused for a confirmed port that the checkpoint lacks, and else for a banner that it lacks. */
  lemma MergeRefusesExactly(row: EndpointRow, p: Progress)
    ensures var lost, lostBanners := row.results.Keys - p.completed.Keys, row.banners - p.banners;
      && (MergeRow(row, p) == Err(DropsResults) <==> lost != {})
      && (MergeRow(row, p) == Err(DropsBanners) <==> lost == {} && lostBanners != {})
  {
    SubsetExactly(row.results.Keys, p.completed.Keys);
    SubsetExactly(row.banners, p.banners);
  }

  /** The merge of one more endpoint depends on its own row alone. */
  lemma {:induction false} MergeNext(rows: seq<EndpointRow>, ps: seq<Progress>, n: nat)
    requires Aligned(rows, ps) && NoRepeats(RowKeys(rows)) && n < |ps|
    ensures var before, after := MergeAll(rows, ps[..n]), MergeAll(rows, ps[..n + 1]);
      if before.Err? then after == before
      else (after.Ok? <==> MergeRow(rows[n], ps[n]).Ok?)
           && (after.Err? ==> MergeRow(rows[n], ps[n]) == Err(after.error))
  {
    assert ps[..n + 1][..n] == ps[..n];
    var before := MergeAll(rows, ps[..n]);
    if before.Ok? {
      MergeAligned(rows, ps, n);
      MergeNeverDrops(rows, ps[..n]);
      assert RowKeys(before.value) == RowKeys(rows);
      FindRowAt(before.value, n);
    }
  }

  lemma {:induction false} MergeSucceedsExactly(rows: seq<EndpointRow>, ps: seq<Progress>, n: nat)
    requires Aligned(rows, ps) && NoRepeats(RowKeys(rows)) && n <= |ps|
    ensures MergeAll(rows, ps[..n]).Ok? <==> forall j :: 0 <= j < n ==> MergeRow(rows[j], ps[j]).Ok?
  {
    if n > 0 {
      MergeNext(rows, ps, n - 1);
      MergeSucceedsExactly(rows, ps, n - 1);
    }
  }

  /** Endpoint `k` is the first that cannot be merged, and this is why. */
  predicate FailsAt(rows: seq<EndpointRow>, ps: seq<Progress>, k: nat, e: Error)
    requires Aligned(rows, ps)
  {
    && k < |ps| && MergeRow(rows[k], ps[k]) == Err(e)
    && forall j :: 0 <= j < k ==> MergeRow(rows[j], ps[j]).Ok?
  }

  /** The first endpoint that drops something decides the error of the whole checkpoint. */
  lemma {:induction false} FirstDropDecides(rows: seq<EndpointRow>, ps: seq<Progress>, n: nat, e: Error)
    requires Aligned(rows, ps) && NoRepeats(RowKeys(rows)) && n <= |ps|
    ensures MergeAll(rows, ps[..n]) == Err(e) <==> exists k :: 0 <= k < n && FailsAt(rows, ps, k, e)
  {
    if n > 0 {
      MergeNext(rows, ps, n - 1);
      FirstDropDecides(rows, ps, n - 1, e);
      MergeSucceedsExactly(rows, ps, n - 1);
      assert FailsAt(rows, ps, n - 1, e) <==>
             MergeAll(rows, ps[..n - 1]).Ok? && MergeRow(rows[n - 1], ps[n - 1]) == Err(e);
    }
  }

  // ---------- The history ----------

  /** Every accepted call that changes the tables puts one row into the history: the status and the digest that it
      leaves, under the sequence that it leaves.  All other rows stay. */
  lemma HistoryGrows(mode: Mode, limit: int, t: Tables, op: Op, after: Tables)
    requires Attempt(mode, limit, t, op) == Ok(after) && after != t
    ensures after.state.Some?
    ensures var s := after.state.value;
      && after.history.Keys == t.history.Keys + {s.sequence}
      && after.history[s.sequence].status == s.status && after.history[s.sequence].stateDigest == s.stateDigest
      && forall k :: k in t.history && k != s.sequence ==> after.history[k] == t.history[k]
  {
  }

  // ---------- Receipts ----------

  lemma {:induction false} RowsCounted(t: Tables, n: nat)
    requires t.state.Some? && n <= |t.endpoints|
    ensures TotalRows(t.endpoints[..n]) == Total(Rebuild(t).endpoints[..n], CountCompleted)
  {
    if n > 0 {
      RowsCounted(t, n - 1);
      var rows, es := t.endpoints[..n], Rebuild(t).endpoints[..n];
      assert rows[..n - 1] == t.endpoints[..n - 1] && es[..n - 1] == Rebuild(t).endpoints[..n - 1];
      assert es[n - 1].completed.Keys == rows[n - 1].results.Keys;
      assert |es[n - 1].completed| == |es[n - 1].completed.Keys| == |rows[n - 1].results.Keys| == |rows[n - 1].results|;
    }
  }

  /** The receipt describes the session `c`: its confirmed and its requested ports, counted one by one. */
  predicate Describes(receipt: Commit, c: Checkpoint) {
    && receipt.sequence == c.sequence && receipt.fingerprint == PlanDigest(c.plan) && receipt.status == c.status
    && receipt.completedPorts == |Pairs(CompletedPorts(c.endpoints))|
    && receipt.totalPorts == |Pairs(seq(|c.endpoints|, _ => c.plan.ports))|
  }

  /** The receipt of `persist` describes what was persisted, with its digest. */
  lemma PersistReceiptExactly(c: Checkpoint)
    ensures Describes(PersistReceipt(c), c) && PersistReceipt(c).checkpointSha == Some(CheckpointDigest(c))
  {
    CompletedCounted(c.endpoints);
    AllPortsCounted(c.plan.ports, |c.endpoints|);
  }

  /** The receipt of an increment describes what `load` returns, and has no checkpoint digest. */
  lemma ChainReceiptExactly(mode: Mode, t: Tables)
    requires Sound(mode, t) && t.state.Some? && t.state.value.status == Running
    ensures LoadTx(mode, t).Ok? && Describes(ChainReceipt(t), LoadTx(mode, t).value)
    ensures ChainReceipt(t).checkpointSha == None
  {
    LoadSucceedsExactly(mode, t);
    var c := Rebuild(t);
    RowsCounted(t, |t.endpoints|);
    assert t.endpoints[..|t.endpoints|] == t.endpoints && c.endpoints[..|c.endpoints|] == c.endpoints;
    CompletedCounted(c.endpoints);
    AllPortsCounted(c.plan.ports, |c.endpoints|);
  }

  // ---------- The batch size ----------

  /** A strict store takes one result at a time, so nothing waits in a buffer; a balanced one takes up to 128. */
  lemma BatchLimits(mode: Mode, t: Tables, id: Identity, batch: seq<PortResult>, now: int)
    requires Sound(mode, t)
    ensures var strict := AppendTx(mode, BatchLimit(Strict), t, id, batch, now, Running, None);
      var balanced := AppendTx(mode, BatchLimit(Balanced), t, id, batch, now, Running, None);
      && (strict.Ok? ==> |batch| == 1)
      && (strict == Err(OversizeBatch) <==> |batch| > 1) && (balanced == Err(OversizeBatch) <==> |batch| > 128)
  {
    if t.state.Some? {
      var i := FindRow(t.endpoints, KeyOf(id));
      if i < |t.endpoints| {
        SizeIsNoBatchFault(t.endpoints[i], t.state.value.plan.ports, id, batch, |batch|);
      }
    }
  }

  lemma {:induction false} SizeIsNoBatchFault(row: EndpointRow, ports: set<int>, id: Identity, batch: seq<PortResult>,
                                              n: nat)
    requires n <= |batch|
    ensures BatchFault(row, ports, id, batch, n) != Some(OversizeBatch)
  {
    if n > 0 { SizeIsNoBatchFault(row, ports, id, batch, n - 1); }
  }

  // ---------- Why an increment is refused ----------

  /** The guards that `append_results` and `complete_banner` share. */
  predicate Ready(t: Tables, now: int) {
    t.state.Some? && t.state.value.status !in {Cancelled, Failed, Completed} && t.state.value.updatedAt <= now
  }

  predicate Known(t: Tables, id: Identity) {
    exists i :: 0 <= i < |t.endpoints| && KeyOf(t.endpoints[i].identity) == KeyOf(id)
  }

  /** The guards of `append_results` in their order, each with its error. */
  lemma AppendRefusesExactly(mode: Mode, limit: int, t: Tables, id: Identity, batch: seq<PortResult>, now: int,
                             status: Status, lastError: Option<string>)
    requires Sound(mode, t)
    ensures var r, sized := AppendTx(mode, limit, t, id, batch, now, status, lastError), 0 < |batch| <= limit;
      && (r == Err(EmptyBatch) <==> batch == [])
      && (r == Err(OversizeBatch) <==> batch != [] && |batch| > limit)
      && (r == Err(NotFound) <==> sized && t.state.None?)
      && (r == Err(TerminalSession) <==>
            sized && t.state.Some? && t.state.value.status in {Cancelled, Failed, Completed})
      && (r == Err(TimeWentBack) <==>
            && sized && t.state.Some? && t.state.value.status !in {Cancelled, Failed, Completed}
            && now < t.state.value.updatedAt)
      && (r == Err(StatusNotRunning) <==> sized && Ready(t, now) && status != Running)
      && (r == Err(UnknownEndpoint) <==> sized && Ready(t, now) && status == Running && !Known(t, id))
      && (sized && Ready(t, now) && status == Running && Known(t, id) ==>
            var row := t.endpoints[FindRow(t.endpoints, KeyOf(id))];
            BatchFault(row, t.state.value.plan.ports, id, batch, |batch|) == if r.Err? then Some(r.error) else None)
  {
    if t.state.Some? {
      var i := FindRow(t.endpoints, KeyOf(id));
      if i < |t.endpoints| {
        FaultKinds(t.endpoints[i], t.state.value.plan.ports, id, batch, |batch|);
      }
    }
  }

  lemma {:induction false} FaultKinds(row: EndpointRow, ports: set<int>, id: Identity, batch: seq<PortResult>, n: nat)
    requires n <= |batch|
    ensures BatchFault(row, ports, id, batch, n) in
      {None, Some(BadResult), Some(DuplicateInBatch), Some(PortOutsidePlan), Some(ResultCollision),
       Some(AlreadyConfirmed)}
  {
    if n > 0 { FaultKinds(row, ports, id, batch, n - 1); }
  }

  /** The first entry that is at fault decides the error of a batch. */
  lemma {:induction false} FirstFaultDecides(row: EndpointRow, ports: set<int>, id: Identity, batch: seq<PortResult>,
                                             n: nat, e: Error)
    requires n <= |batch|
    ensures BatchFault(row, ports, id, batch, n) == Some(e) <==>
      exists k :: 0 <= k < n && EntryFault(row, ports, id, batch, k) == Some(e)
                  && forall j :: 0 <= j < k ==> EntryFault(row, ports, id, batch, j) == None
    ensures BatchFault(row, ports, id, batch, n) == None <==>
      forall j :: 0 <= j < n ==> EntryFault(row, ports, id, batch, j) == None
  {
    if n > 0 {
      FirstFaultDecides(row, ports, id, batch, n - 1, e);
      var earlier := BatchFault(row, ports, id, batch, n - 1);
      if earlier.Some? {
        FirstFaultDecides(row, ports, id, batch, n - 1, earlier.value);
      }
    }
  }

  /** What is wrong with an entry: not canonical, a port of the batch before it, a port outside the plan, and a port
      that has been confirmed, with another result or with this one. */
  lemma EntryFaultExactly(row: EndpointRow, ports: set<int>, id: Identity, batch: seq<PortResult>, k: nat)
    requires k < |batch| && RowHashesMatch(row)
    ensures var r, fault := batch[k], EntryFault(row, ports, id, batch, k);
      var repeated := exists j :: 0 <= j < k && batch[j].port == r.port;
      && (fault == Some(BadResult) <==> !Canonical(r, id))
      && (fault == Some(DuplicateInBatch) <==> Canonical(r, id) && repeated)
      && (fault == Some(PortOutsidePlan) <==> Canonical(r, id) && !repeated && r.port !in ports)
      && (fault == Some(ResultCollision) <==>
            && Canonical(r, id) && !repeated && r.port in ports && r.port in row.results
            && row.results[r.port].document != r)
      && (fault == Some(AlreadyConfirmed) <==>
            && Canonical(r, id) && !repeated && r.port in ports && r.port in row.results
            && row.results[r.port].document == r)
      && (fault == None <==> Canonical(r, id) && !repeated && r.port in ports && r.port !in row.results)
  {
  }

  /** The guards of `complete_banner` in their order, each with its error. */
  lemma BannerRefusesExactly(mode: Mode, t: Tables, id: Identity, port: int, banner: Option<string>, now: int)
    requires Sound(mode, t)
    ensures var r, i := BannerTx(mode, t, id, port, banner, now), FindRow(t.endpoints, KeyOf(id));
      && (r == Err(NotFound) <==> t.state.None?)
      && (r == Err(TerminalSession) <==> t.state.Some? && t.state.value.status in {Cancelled, Failed, Completed})
      && (r == Err(TimeWentBack) <==>
            && t.state.Some? && t.state.value.status !in {Cancelled, Failed, Completed}
            && now < t.state.value.updatedAt)
      && (r == Err(UnknownEndpoint) <==> Ready(t, now) && !Known(t, id))
      && (r == Err(NoResultForBanner) <==> Ready(t, now) && Known(t, id) && port !in t.endpoints[i].results)
      && (Ready(t, now) && Known(t, id) && port in t.endpoints[i].results ==>
            && (r == Err(BadResult) <==> banner.Some? && |banner.value| > 300)
            && (r == Err(BannerAlreadyConfirmed) <==>
                  (banner.Some? ==> |banner.value| <= 300) && port in t.endpoints[i].banners))
  {
    BannerAcceptsExactly(mode, t, id, port, banner, now);
    if t.state.Some? {
      var i := FindRow(t.endpoints, KeyOf(id));
      if i < |t.endpoints| && port in t.endpoints[i].results {
        assert Rebuild(t).endpoints[i].completed[port] == t.endpoints[i].results[port].document;
      }
    }
  }

  // ---------- Why a load is refused ----------

  predicate RowFine(row: EndpointRow, plan: Plan) { RowHashesMatch(row) && ValidProgress(RowProgress(row, plan)) }

  lemma {:induction false} RowsRefuseExactly(rows: seq<EndpointRow>, plan: Plan)
    ensures LoadRows(rows, plan) == Err(BadResultDigest) <==>
      exists i :: 0 <= i < |rows| && !RowHashesMatch(rows[i]) && forall j :: 0 <= j < i ==> RowFine(rows[j], plan)
    ensures LoadRows(rows, plan).Err? ==> LoadRows(rows, plan).error in {BadResultDigest, Incompatible}
  {
    if rows != [] {
      var n := |rows| - 1;
      RowsRefuseExactly(rows[..n], plan);
      LoadRowsExactly(rows[..n], plan);
      assert forall i :: 0 <= i < n ==> rows[..n][i] == rows[i];
    }
  }

  /** Whatever is wrong with the tables, the first check that fails decides the error. */
  lemma LoadRefusesExactly(mode: Mode, t: Tables)
    requires t.state.Some? && PlanFault(mode, t.state.value) == None
    ensures var s, r := t.state.value, LoadTx(mode, t);
      var rowsFine := forall i :: 0 <= i < |t.endpoints| ==> RowFine(t.endpoints[i], s.plan);
      var onRecord := s.sequence in t.history && t.history[s.sequence].stateDigest == s.stateDigest;
      && (r == Err(BadResultDigest) <==>
            exists i :: 0 <= i < |t.endpoints| && !RowHashesMatch(t.endpoints[i])
                        && forall j :: 0 <= j < i ==> RowFine(t.endpoints[j], s.plan))
      && (r == Err(BadHistory) <==> rowsFine && !onRecord)
      && (r == Err(BadCheckpointDigest) <==>
            && rowsFine && onRecord && ValidCheckpoint(Rebuild(t)) && s.checkpointSha.Some?
            && s.checkpointSha.value != CheckpointDigest(Rebuild(t)))
  {
    var plan := t.state.value.plan;
    RowsRefuseExactly(t.endpoints, plan);
    LoadRowsExactly(t.endpoints, plan);
    if LoadRows(t.endpoints, plan).Ok? {
      assert LoadRows(t.endpoints, plan).value == Rebuild(t).endpoints;
    }
  }
}
