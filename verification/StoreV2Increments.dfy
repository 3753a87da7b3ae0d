/** The incremental commits of the v2 store refine the simple path that persists one checkpoint per result. */
module StoreV2Increments {
  import opened Common
  import opened Session
  import opened StoreV2Tables
  import opened StoreV2Theorems

  // ---------- The simple path ----------

  /** The checkpoints of the loop that a runner executes over a store without `append_results`: one for every result,
      each with a clock reading of its own. */
  function RecordAll(c: Checkpoint, i: nat, rs: seq<PortResult>, times: seq<int>): (r: Checkpoint)
    requires i < |c.endpoints| && |times| == |rs|
    ensures |r.endpoints| == |c.endpoints|
  {
    if rs == [] then c
    else
      var n := |rs| - 1;
      var before := RecordAll(c, i, rs[..n], times[..n]);
      Advance(before, before.endpoints[i := WithResult(before.endpoints[i], rs[n])], Running, None, times[n])
  }

  function Ports(rs: seq<PortResult>): seq<int> {
    seq(|rs|, k requires 0 <= k < |rs| => rs[k].port)
  }

  function ByPort(rs: seq<PortResult>): map<int, PortResult> {
    if rs == [] then map[] else ByPort(rs[..|rs| - 1])[rs[|rs| - 1].port := rs[|rs| - 1]]
  }

  /** All results of a batch recorded at once. */
  function Recorded(p: Progress, rs: seq<PortResult>): Progress {
    p.(completed := p.completed + ByPort(rs), pending := p.pending - ByPort(rs).Keys)
  }

  function RecordedAt(c: Checkpoint, i: nat, rs: seq<PortResult>, now: int, lastError: Option<string>): Checkpoint
    requires i < |c.endpoints|
  {
    c.(endpoints := c.endpoints[i := Recorded(c.endpoints[i], rs)], status := Running, lastError := lastError,
       updatedAt := now, sequence := c.sequence + |rs|)
  }

  lemma {:induction false} ByPortFacts(rs: seq<PortResult>)
    ensures ByPort(rs).Keys == Elems(Ports(rs))
    ensures forall x :: x in ByPort(rs) ==> ByPort(rs)[x] in rs && ByPort(rs)[x].port == x
  {
    if rs != [] {
      var front, last := rs[..|rs| - 1], rs[|rs| - 1];
      ByPortFacts(front);
      assert Ports(rs) == Ports(front) + [last.port];
      assert rs == front + [last];
    }
  }

  lemma {:induction false} FoundByPort(rs: seq<PortResult>, k: nat)
    requires k < |rs| && NoRepeats(Ports(rs))
    ensures rs[k].port in ByPort(rs) && ByPort(rs)[rs[k].port] == rs[k]
  {
    var front := rs[..|rs| - 1];
    assert Ports(rs)[k] == rs[k].port && Ports(rs)[|rs| - 1] == rs[|rs| - 1].port;
    if k < |rs| - 1 {
      assert Ports(front) == Ports(rs)[..|rs| - 1];
      FoundByPort(front, k);
    }
  }

  /** Distinct ports make the recorded map independent of the order of arrival. */
  lemma ByPortIgnoresOrder(a: seq<PortResult>, b: seq<PortResult>)
    requires multiset(a) == multiset(b) && NoRepeats(Ports(a))
    ensures ByPort(a) == ByPort(b) && |a| == |b|
  {
    assert |multiset(a)| == |a| && |multiset(b)| == |b|;
    ByPortFacts(a);
    ByPortFacts(b);
    forall x | x in ByPort(b) ensures x in ByPort(a) && ByPort(a)[x] == ByPort(b)[x] {
      assert ByPort(b)[x] in multiset(a);
      var k :| 0 <= k < |a| && a[k] == ByPort(b)[x];
      FoundByPort(a, k);
    }
    forall x | x in ByPort(a) ensures x in ByPort(b) {
      assert ByPort(a)[x] in multiset(b);
      var k :| 0 <= k < |b| && b[k] == ByPort(a)[x];
      assert Ports(b)[k] == x;
    }
  }

  /** The same checkpoint with the error of one endpoint cleared. */
  function ErrorCleared(c: Checkpoint, i: nat): Checkpoint
    requires i < |c.endpoints|
  {
    c.(endpoints := c.endpoints[i := WithError(c.endpoints[i], None)])
  }

  lemma RecordOne(p: Progress, front: seq<PortResult>, last: PortResult)
    ensures WithResult(WithError(Recorded(p, front), None), last) == WithError(Recorded(p, front + [last]), None)
  {
    RecordedTwice(p, front, [last]);
    var q := Recorded(p, front);
    assert [last][..0] == [] && ByPort([last]) == map[last.port := last];
    assert q.completed + ByPort([last]) == q.completed[last.port := last];
  }

  /** The loop ends with all results recorded at once, at its last clock reading, and the endpoint's error cleared. */
  lemma {:induction false} RecordAllAtOnce(c: Checkpoint, i: nat, rs: seq<PortResult>, times: seq<int>)
    requires i < |c.endpoints| && |times| == |rs| && rs != []
    ensures RecordAll(c, i, rs, times) == ErrorCleared(RecordedAt(c, i, rs, times[|rs| - 1], None), i)
  {
    var n := |rs| - 1;
    var front, p := rs[..n], c.endpoints[i];
    assert rs == front + [rs[n]];
    RecordOne(p, front, rs[n]);
    if front == [] {
      assert RecordAll(c, i, front, times[..n]) == c;
      assert p.completed + ByPort([]) == p.completed && p.pending - ByPort([]).Keys == p.pending;
      assert WithResult(p, rs[n]) == WithResult(WithError(Recorded(p, front), None), rs[n]);
    } else {
      RecordAllAtOnce(c, i, front, times[..n]);
    }
    var all := RecordAll(c, i, rs, times);
    assert all.endpoints[i] == WithError(Recorded(p, rs), None);
    assert all.endpoints == ErrorCleared(RecordedAt(c, i, rs, times[n], None), i).endpoints;
  }

  lemma RecordedTwice(p: Progress, a: seq<PortResult>, b: seq<PortResult>)
    ensures Recorded(Recorded(p, a), b) == Recorded(p, a + b)
  {
    ByPortAppend(a, b);
    assert (p.completed + ByPort(a)) + ByPort(b) == p.completed + (ByPort(a) + ByPort(b));
    assert (p.pending - ByPort(a).Keys) - ByPort(b).Keys == p.pending - ByPort(a + b).Keys;
  }

  lemma {:induction false} ByPortAppend(a: seq<PortResult>, b: seq<PortResult>)
    ensures ByPort(a + b) == ByPort(a) + ByPort(b)
  {
    if b == [] {
      assert a + b == a;
    } else {
      ByPortAppend(a, b[..|b| - 1]);
      assert (a + b)[..|a + b| - 1] == a + b[..|b| - 1];
    }
  }

  // ---------- append_results ----------

  /** The results a batch may hold: canonical, for distinct ports that are still pending. */
  predicate Appendable(p: Progress, batch: seq<PortResult>) {
    && (forall k :: 0 <= k < |batch| ==> Canonical(batch[k], p.identity) && batch[k].port in p.pending)
    && NoRepeats(Ports(batch))
  }

  lemma {:induction false} NoBatchFault(row: EndpointRow, ports: set<int>, id: Identity, batch: seq<PortResult>, n: nat)
    requires n <= |batch|
    ensures BatchFault(row, ports, id, batch, n) == None <==>
            forall k :: 0 <= k < n ==> EntryFault(row, ports, id, batch, k) == None
  {
    if n > 0 {
      NoBatchFault(row, ports, id, batch, n - 1);
    }
  }

  lemma AppendableExactly(row: EndpointRow, plan: Plan, id: Identity, batch: seq<PortResult>)
    requires KeyOf(id) == KeyOf(row.identity)
    ensures BatchFault(row, plan.ports, id, batch, |batch|) == None <==> Appendable(RowProgress(row, plan), batch)
  {
    NoBatchFault(row, plan.ports, id, batch, |batch|);
    var p := RowProgress(row, plan);
    if BatchFault(row, plan.ports, id, batch, |batch|) == None {
      forall i, j | 0 <= i < j < |batch| ensures Ports(batch)[i] != Ports(batch)[j] {
        assert EntryFault(row, plan.ports, id, batch, j) == None;
      }
      forall k | 0 <= k < |batch| ensures Canonical(batch[k], p.identity) && batch[k].port in p.pending {
        assert EntryFault(row, plan.ports, id, batch, k) == None;
      }
    }
    if Appendable(p, batch) {
      forall k | 0 <= k < |batch| ensures EntryFault(row, plan.ports, id, batch, k) == None {
        assert batch[k].port in p.pending && KeyOf(p.identity) == KeyOf(id);
        forall j | 0 <= j < k ensures batch[j].port != batch[k].port {
          assert Ports(batch)[j] != Ports(batch)[k];
        }
      }
    }
  }

  /** On sound tables an append is accepted exactly in the cases the contract names. */
  lemma AppendAcceptsExactly(mode: Mode, limit: int, t: Tables, id: Identity, batch: seq<PortResult>, now: int,
                             status: Status, lastError: Option<string>)
    requires Sound(mode, t)
    ensures AppendTx(mode, limit, t, id, batch, now, status, lastError).Ok? <==>
      && 0 < |batch| <= limit && t.state.Some? && !Terminal(t.state.value.status)
      && t.state.value.updatedAt <= now && status == Running
      && var i := FindRow(t.endpoints, KeyOf(id));
         i < |t.endpoints| && Appendable(RowProgress(t.endpoints[i], t.state.value.plan), batch)
  {
    if t.state.Some? {
      var i := FindRow(t.endpoints, KeyOf(id));
      if i < |t.endpoints| {
        AppendableExactly(t.endpoints[i], t.state.value.plan, id, batch);
      }
      assert t.state.value.sequence + |batch| in t.history ==> |batch| <= 0;
    }
  }

  lemma {:induction false} InsertedRows(rows: map<int, ResultRow>, batch: seq<PortResult>)
    ensures InsertResults(rows, batch) == rows + (map x | x in ByPort(batch) :: NewRow(ByPort(batch)[x]))
  {
    if batch != [] {
      InsertedRows(rows, batch[..|batch| - 1]);
    }
  }

  lemma InsertedProgress(row: EndpointRow, plan: Plan, batch: seq<PortResult>)
    requires RowHashesMatch(row)
    ensures var after := row.(results := InsertResults(row.results, batch));
      RowHashesMatch(after) && RowProgress(after, plan) == Recorded(RowProgress(row, plan), batch)
  {
    InsertedRows(row.results, batch);
    var after := row.(results := InsertResults(row.results, batch));
    var p := RowProgress(row, plan);
    assert after.results.Keys == row.results.Keys + ByPort(batch).Keys;
    assert RowProgress(after, plan).completed == p.completed + ByPort(batch);
    assert RowProgress(after, plan).pending == p.pending - ByPort(batch).Keys;
  }

  lemma RecordedIsValid(p: Progress, batch: seq<PortResult>, plan: Plan)
    requires ValidProgress(p) && AccountsFor(p, plan) && Appendable(p, batch)
    ensures ValidProgress(Recorded(p, batch)) && AccountsFor(Recorded(p, batch), plan)
    ensures ByPort(batch).Keys == Elems(Ports(batch)) <= p.pending
  {
    ByPortFacts(batch);
    var q := Recorded(p, batch);
    forall x | x in ByPort(batch) ensures x in p.pending && Canonical(ByPort(batch)[x], p.identity) {
      var k :| 0 <= k < |batch| && batch[k] == ByPort(batch)[x];
    }
    assert q.completed.Keys == p.completed.Keys + ByPort(batch).Keys;
    assert OpenPorts(p) <= OpenPorts(q);
  }

  lemma RebuildReplaced(t: Tables, after: Tables, i: nat, row: EndpointRow)
    requires t.state.Some? && after.state.Some? && i < |t.endpoints|
    requires after.state.value.plan == t.state.value.plan && after.endpoints == t.endpoints[i := row]
    ensures Rebuild(after).endpoints == Rebuild(t).endpoints[i := RowProgress(row, t.state.value.plan)]
  {
  }

  /** An incremental commit keeps every table condition except, possibly, the validity of the checkpoint. */
  lemma CommitChainSound(mode: Mode, t: Tables, steps: int, now: int, lastError: Option<string>, results: seq<Digest>,
                         banner: Option<int>, i: nat, row: EndpointRow, after: Tables)
    requires Sound(mode, t) && t.state.Some? && i < |t.endpoints| && steps > 0 && RowHashesMatch(row)
    requires CommitChain(t, ChainState(t.state.value, steps, now, lastError, results, banner), i, row) == Ok(after)
    ensures after.state.Some? && after.state.value.plan == t.state.value.plan
    ensures Rebuild(after) == Rebuild(t).(
      endpoints := Rebuild(t).endpoints[i := RowProgress(row, t.state.value.plan)], status := Running,
      lastError := lastError, updatedAt := now, sequence := Rebuild(t).sequence + steps)
    ensures Sound(mode, after) <==> ValidCheckpoint(Rebuild(after))
    ensures LoadTx(mode, after).Ok? <==> Sound(mode, after)
  {
    RebuildReplaced(t, after, i, row);
    LoadSucceedsExactly(mode, after);
  }

  lemma ReplacedIsValid(c: Checkpoint, i: nat, p: Progress, steps: nat, now: int, lastError: Option<string>)
    requires ValidCheckpoint(c) && i < |c.endpoints| && p.identity == c.endpoints[i].identity && c.createdAt <= now
    ensures ValidCheckpoint(c.(endpoints := c.endpoints[i := p], status := Running, lastError := lastError,
                               updatedAt := now, sequence := c.sequence + steps))
            <==> ValidProgress(p) && AccountsFor(p, c.plan) && ValidText(lastError)
  {
    var d := c.(endpoints := c.endpoints[i := p], status := Running, lastError := lastError,
                updatedAt := now, sequence := c.sequence + steps);
    assert EndpointKeys(d.endpoints) == EndpointKeys(c.endpoints);
    assert d.endpoints[i] == p;
  }

  /** An accepted append rebuilds to the checkpoint with the batch recorded; the tables stay sound exactly when
      the error text passed along is one a checkpoint admits (the runners pass none). */
  lemma AppendRebuilds(mode: Mode, limit: int, t: Tables, id: Identity, batch: seq<PortResult>, now: int,
                       status: Status, lastError: Option<string>, after: Tables)
    requires Sound(mode, t) && AppendTx(mode, limit, t, id, batch, now, status, lastError) == Ok(after)
    ensures var i := FindRow(t.endpoints, KeyOf(id));
      && t.state.Some? && after.state.Some? && i < |t.endpoints|
      && Rebuild(after) == RecordedAt(Rebuild(t), i, batch, now, lastError)
    ensures Sound(mode, after) <==> ValidText(lastError)
  {
    AppendAcceptsExactly(mode, limit, t, id, batch, now, status, lastError);
    var s, i := t.state.value, FindRow(t.endpoints, KeyOf(id));
    var row, c := t.endpoints[i], Rebuild(t);
    assert c.endpoints[i] == RowProgress(row, s.plan);
    InsertedProgress(row, s.plan, batch);
    CommitChainSound(mode, t, |batch|, now, lastError, Digests(batch), None, i,
                     row.(results := InsertResults(row.results, batch)), after);
    RecordedIsValid(c.endpoints[i], batch, s.plan);
    ReplacedIsValid(c, i, Recorded(c.endpoints[i], batch), |batch|, now, lastError);
  }

  // ---------- complete_banner ----------

  /** On sound tables a banner is accepted exactly in these cases; an open port is not among the conditions. */
  lemma BannerAcceptsExactly(mode: Mode, t: Tables, id: Identity, port: int, banner: Option<string>, now: int)
    requires Sound(mode, t)
    ensures BannerTx(mode, t, id, port, banner, now).Ok? <==>
      && t.state.Some? && !Terminal(t.state.value.status) && t.state.value.updatedAt <= now
      && (banner.Some? ==> |banner.value| <= 300)
      && var i := FindRow(t.endpoints, KeyOf(id));
         i < |t.endpoints| && port in t.endpoints[i].results && port !in t.endpoints[i].banners
  {
    if t.state.Some? {
      var i := FindRow(t.endpoints, KeyOf(id));
      if i < |t.endpoints| && port in t.endpoints[i].results {
        assert Rebuild(t).endpoints[i].completed[port] == t.endpoints[i].results[port].document;
      }
    }
  }

  lemma BannerRowProgress(row: EndpointRow, plan: Plan, port: int, banner: Option<string>)
    requires RowHashesMatch(row) && port in row.results
    ensures RowHashesMatch(BannerRow(row, port, banner))
    ensures var p := RowProgress(row, plan);
      RowProgress(BannerRow(row, port, banner), plan) == WithBanner(p, port, banner).(error := p.error)
  {
    var p, after := RowProgress(row, plan), BannerRow(row, port, banner);
    assert after.results.Keys == row.results.Keys;
    assert RowProgress(after, plan).completed == WithBanner(p, port, banner).completed;
  }

  lemma BannerValidExactly(p: Progress, plan: Plan, port: int, banner: Option<string>)
    requires ValidProgress(p) && AccountsFor(p, plan) && port in p.completed
    requires banner.Some? ==> |banner.value| <= MAX_BANNER_LENGTH
    ensures var q := WithBanner(p, port, banner).(error := p.error);
      ValidProgress(q) && AccountsFor(q, plan) <==> port in OpenPorts(p) && plan.bannerGrab
  {
    var q := WithBanner(p, port, banner).(error := p.error);
    if port in OpenPorts(p) && plan.bannerGrab {
      WithBannerIsValid(p, port, banner, plan);
    }
    assert port in q.banners;
    assert OpenPorts(q) == OpenPorts(p);
  }

  /** The checkpoint an accepted banner leaves: that endpoint gets the banner, its error text stays. */
  function BanneredAt(c: Checkpoint, i: nat, port: int, banner: Option<string>, now: int): Checkpoint
    requires i < |c.endpoints|
  {
    var p := c.endpoints[i];
    Advance(c, c.endpoints[i := WithBanner(p, port, banner).(error := p.error)], Running, None, now)
  }

  lemma BannerCommits(mode: Mode, t: Tables, id: Identity, port: int, banner: Option<string>, now: int, after: Tables)
    requires Sound(mode, t) && BannerTx(mode, t, id, port, banner, now) == Ok(after)
    ensures var i := FindRow(t.endpoints, KeyOf(id));
      && t.state.Some? && after.state.Some? && i < |t.endpoints| && port in t.endpoints[i].results
      && Rebuild(after) == BanneredAt(Rebuild(t), i, port, banner, now)
      && (Sound(mode, after) <==> ValidCheckpoint(BanneredAt(Rebuild(t), i, port, banner, now)))
    ensures LoadTx(mode, after).Ok? <==> Sound(mode, after)
  {
    var s, i := t.state.value, FindRow(t.endpoints, KeyOf(id));
    var row := t.endpoints[i];
    assert Rebuild(t).endpoints[i] == RowProgress(row, s.plan);
    BannerRowProgress(row, s.plan, port, banner);
    CommitChainSound(mode, t, 1, now, None, [ResultDigest(BannerDocument(row, port, banner))], Some(port), i,
                     BannerRow(row, port, banner), after);
  }

  lemma BanneredIsValidExactly(c: Checkpoint, i: nat, port: int, banner: Option<string>, now: int)
    requires ValidCheckpoint(c) && i < |c.endpoints| && port in c.endpoints[i].completed && c.createdAt <= now
    requires banner.Some? ==> |banner.value| <= MAX_BANNER_LENGTH
    ensures ValidCheckpoint(BanneredAt(c, i, port, banner, now)) <==>
            port in OpenPorts(c.endpoints[i]) && c.plan.bannerGrab
  {
    var p := c.endpoints[i];
    BannerValidExactly(p, c.plan, port, banner);
    ReplacedIsValid(c, i, WithBanner(p, port, banner).(error := p.error), 1, now, None);
  }

  /** An accepted banner rebuilds to the checkpoint with that banner recorded.  The tables stay sound, so `load`
      still succeeds, exactly when the port is open and the plan asks for banners, which the store never checks. */
  lemma BannerRebuilds(mode: Mode, t: Tables, id: Identity, port: int, banner: Option<string>, now: int, after: Tables)
    requires Sound(mode, t) && BannerTx(mode, t, id, port, banner, now) == Ok(after)
    ensures var i := FindRow(t.endpoints, KeyOf(id));
      && t.state.Some? && after.state.Some? && i < |t.endpoints|
      && Rebuild(after) == BanneredAt(Rebuild(t), i, port, banner, now)
      && (Sound(mode, after) <==> port in OpenPorts(Rebuild(t).endpoints[i]) && t.state.value.plan.bannerGrab)
    ensures LoadTx(mode, after).Ok? <==> Sound(mode, after)
  {
    BannerCommits(mode, t, id, port, banner, now, after);
    BannerAcceptsExactly(mode, t, id, port, banner, now);
    var c, i := Rebuild(t), FindRow(t.endpoints, KeyOf(id));
    assert c.endpoints[i] == RowProgress(t.endpoints[i], c.plan);
    BanneredIsValidExactly(c, i, port, banner, now);
  }
}
