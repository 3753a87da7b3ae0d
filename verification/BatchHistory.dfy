/** No lost updates: the checkpoint a batch session is at is, endpoint by endpoint, the fold of that endpoint's own
    committed steps. */
module BatchHistory {
  import opened Common
  import opened Session
  import opened StoreV2Increments
  import opened BatchRunner
  import ScanPhase
  import Single = SingleRunner

  function Fresh(plan: Plan, i: nat): Progress
    requires i < |plan.targets|
  {
    Progress(plan.targets[i], map[], plan.ports, {}, None)
  }

  /** What one entry of the history does to endpoint `i`. */
  function Effect(i: nat, p: Progress, e: Entry): Progress {
    match e
    case Transition => WithError(p, None)
    case Confirmed(j, r) => if j == i then WithResult(p, r) else p
    case Bannered(j, port, banner) => if j == i then WithBanner(p, port, banner) else p
    case Errored(j, text) => if j == i then WithError(p, Some(text)) else p
    case Terminated => p
  }

  function Fold(i: nat, p: Progress, log: seq<Entry>): Progress {
    if log == [] then p else Effect(i, Fold(i, p, log[..|log| - 1]), log[|log| - 1])
  }

  /** The entries that concern endpoint `i`: its own and the resumes. */
  predicate Concerns(i: nat, e: Entry) {
    e.Transition? || (e.Confirmed? && e.endpoint == i) || (e.Bannered? && e.endpoint == i)
    || (e.Errored? && e.endpoint == i)
  }

  function Own(i: nat, log: seq<Entry>): seq<Entry> {
    if log == [] then []
    else Own(i, log[..|log| - 1]) + if Concerns(i, log[|log| - 1]) then [log[|log| - 1]] else []
  }

  /** Whatever the other endpoints commit, and whenever, has no part in the fold. */
  lemma {:induction false} OthersHaveNoEffect(i: nat, p: Progress, log: seq<Entry>)
    ensures Fold(i, p, log) == Fold(i, p, Own(i, log))
  {
    if log != [] {
      var front, last := log[..|log| - 1], log[|log| - 1];
      OthersHaveNoEffect(i, p, front);
      if Concerns(i, last) {
        assert Own(i, log) == Own(i, front) + [last];
      } else {
        assert Own(i, log) == Own(i, front);
      }
    }
  }

  lemma {:induction false} FoldAppend(i: nat, p: Progress, a: seq<Entry>, b: seq<Entry>)
    ensures Fold(i, p, a + b) == Fold(i, Fold(i, p, a), b)
  {
    if b == [] {
      assert a + b == a;
    } else {
      FoldAppend(i, p, a, b[..|b| - 1]);
      assert (a + b)[..|a + b| - 1] == a + b[..|b| - 1];
    }
  }

  lemma FoldOne(i: nat, p: Progress, e: Entry)
    ensures Fold(i, p, [e]) == Effect(i, p, e)
  {
    assert [e][..0] == [] && Fold(i, p, []) == p;
  }

  /** A batch of results is the same as its results one by one. */
  lemma {:induction false} FoldConfirmed(i: nat, j: nat, p: Progress, batch: seq<PortResult>)
    requires p.error == None
    ensures Fold(i, p, ConfirmedAll(j, batch)) == if i == j then Recorded(p, batch) else p
  {
    var entries := ConfirmedAll(j, batch);
    if batch == [] {
      assert p.completed + ByPort(batch) == p.completed && p.pending - ByPort(batch).Keys == p.pending;
    } else {
      var front, last := batch[..|batch| - 1], batch[|batch| - 1];
      FoldConfirmed(i, j, p, front);
      assert entries[..|entries| - 1] == ConfirmedAll(j, front);
      var q := Recorded(p, front);
      assert q.completed[last.port := last] == p.completed + ByPort(batch);
      assert q.pending - {last.port} == p.pending - ByPort(batch).Keys;
    }
  }

  /** A result in the history of an endpoint is a completed port of it, and the other way round. */
  lemma {:induction false} CompletedIsLogged(plan: Plan, i: nat, log: seq<Entry>, port: int)
    requires i < |plan.targets|
    ensures port in Fold(i, Fresh(plan, i), log).completed <==>
            exists k :: 0 <= k < |log| && log[k].Confirmed? && log[k].endpoint == i && log[k].result.port == port
  {
    if log != [] {
      var front, last := log[..|log| - 1], log[|log| - 1];
      CompletedIsLogged(plan, i, front, port);
      if last.Confirmed? && last.endpoint == i && last.result.port == port {
        assert log[|log| - 1] == last;
      }
      if k :| 0 <= k < |front| && front[k].Confirmed? && front[k].endpoint == i && front[k].result.port == port {
        assert log[k] == front[k];
      }
    }
  }

  /** Every port of an endpoint is committed at most once. */
  predicate OncePerPort(log: seq<Entry>) {
    forall a, b :: 0 <= a < b < |log| && log[a].Confirmed? && log[b].Confirmed? && log[a].endpoint == log[b].endpoint
      ==> log[a].result.port != log[b].result.port
  }

  lemma OncePerPortOther(log: seq<Entry>, entries: seq<Entry>)
    requires OncePerPort(log) && forall k :: 0 <= k < |entries| ==> !entries[k].Confirmed?
    ensures OncePerPort(log + entries)
  {
  }

  lemma OncePerPortBatch(plan: Plan, i: nat, log: seq<Entry>, batch: seq<PortResult>)
    requires i < |plan.targets| && OncePerPort(log) && NoRepeats(Ports(batch))
    requires forall k :: 0 <= k < |batch| ==> batch[k].port !in Fold(i, Fresh(plan, i), log).completed
    ensures OncePerPort(log + ConfirmedAll(i, batch))
  {
    var all := log + ConfirmedAll(i, batch);
    forall a, b | 0 <= a < b < |all| && all[a].Confirmed? && all[b].Confirmed? && all[a].endpoint == all[b].endpoint
      ensures all[a].result.port != all[b].result.port
    {
      if |log| <= b {
        var port := Ports(batch)[b - |log|];
        CompletedIsLogged(plan, i, log, port);
        if |log| <= a {
          assert Ports(batch)[a - |log|] != port;
        }
      }
    }
  }

  // ---------- The durable invariant ----------

  /** Each endpoint is the fold of its own entries. */
  predicate Folded(plan: Plan, es: seq<Progress>, log: seq<Entry>) {
    |es| <= |plan.targets| && forall i :: 0 <= i < |es| ==> es[i] == Fold(i, Fresh(plan, i), log)
  }

  /** The checkpoint is valid, its sequence counts the entries, and each endpoint is the fold of its own. */
  predicate StoreInv(c: Checkpoint, log: seq<Entry>) {
    && ValidCheckpoint(c) && PlanAllowed(MultiTarget, c.plan) && c.sequence == |log| && OncePerPort(log)
    && Folded(c.plan, c.endpoints, log)
  }

  lemma CreatedInv(sessionId: int, plan: Plan, now: int)
    requires ValidPlan(plan) && PlanAllowed(MultiTarget, plan)
    ensures StoreInv(CreatedCheckpoint(sessionId, plan, now), [])
  {
    CreatedIsValid(sessionId, plan, now);
  }

  /** Each endpoint moves on by its own entries among these. */
  predicate Moves(es: seq<Progress>, entries: seq<Entry>, next: seq<Progress>) {
    |next| == |es| && forall j :: 0 <= j < |es| ==> next[j] == Fold(j, es[j], entries)
  }

  lemma FoldedMoves(plan: Plan, es: seq<Progress>, log: seq<Entry>, next: seq<Progress>, entries: seq<Entry>)
    requires Folded(plan, es, log) && Moves(es, entries, next)
    ensures Folded(plan, next, log + entries)
  {
    forall j: nat | j < |es| ensures next[j] == Fold(j, Fresh(plan, j), log + entries) {
      FoldAppend(j, Fresh(plan, j), log, entries);
    }
  }

  predicate SameSession(c: Checkpoint, d: Checkpoint) {
    && d.sessionId == c.sessionId && d.plan == c.plan && d.createdAt == c.createdAt && c.sequence <= d.sequence
    && |d.endpoints| == |c.endpoints|
  }

  /** A valid successor whose endpoints moved by these entries is accounted for by the longer history. */
  lemma SuccessorInv(c: Checkpoint, log: seq<Entry>, d: Checkpoint, entries: seq<Entry>)
    requires StoreInv(c, log) && ValidCheckpoint(d) && d.plan == c.plan && d.sequence == c.sequence + |entries|
    requires Moves(c.endpoints, entries, d.endpoints) && OncePerPort(log + entries)
    ensures StoreInv(d, log + entries)
  {
    FoldedMoves(c.plan, c.endpoints, log, d.endpoints, entries);
  }

  lemma WrittenScan(cfg: Config, c: Checkpoint, log: seq<Entry>, i: nat, worker: Worker, now: int)
    requires ValidConfig(cfg) && StoreInv(c, log) && i < |c.endpoints| && c.createdAt <= now
    requires WorkerInv(cfg, c.plan, c.endpoints[i], worker) && Wants(worker) && worker.Scans?
    ensures var p, q := c.endpoints[i], Recorded(c.endpoints[i], worker.phase.inflight);
      && WorkerInv(cfg, c.plan, q, WroteWorker(worker))
      && ValidProgress(q) && AccountsFor(q, c.plan) && Single.KeepsProgress(p, q) && q.error == None
      && q == Fold(i, p, WrittenEntries(i, worker))
      && OncePerPort(log + WrittenEntries(i, worker))
  {
    var p, batch := c.endpoints[i], worker.phase.inflight;
    ScanPhase.BatchIsAcceptable(p, worker.phase, cfg.limit);
    ScanPhase.CommitInv(p, worker.phase, cfg.limit, c.plan);
    RecordedIsValid(p, batch, c.plan);
    Single.CommitKeepsProgress(p, batch);
    FoldConfirmed(i, i, p, batch);
    OncePerPortBatch(c.plan, i, log, batch);
  }

  lemma WrittenBanner(cfg: Config, c: Checkpoint, log: seq<Entry>, i: nat, worker: Worker)
    requires ValidConfig(cfg) && StoreInv(c, log) && i < |c.endpoints|
    requires WorkerInv(cfg, c.plan, c.endpoints[i], worker) && Wants(worker) && worker.Banners?
    ensures var p, grab := c.endpoints[i], worker.grabbed.value; var q := WithBanner(p, grab.port, grab.banner);
      && WorkerInv(cfg, c.plan, q, WroteWorker(worker))
      && ValidProgress(q) && AccountsFor(q, c.plan) && Single.KeepsProgress(p, q) && q.error == None
      && q == Fold(i, p, WrittenEntries(i, worker))
      && OncePerPort(log + WrittenEntries(i, worker))
  {
    var p, grab := c.endpoints[i], worker.grabbed.value;
    WithBannerIsValid(p, grab.port, grab.banner, c.plan);
    Single.BannerKeepsProgress(p, grab.port, grab.banner);
    FoldOne(i, p, Bannered(i, grab.port, grab.banner));
    OncePerPortOther(log, WrittenEntries(i, worker));
  }

  lemma {:induction false} OthersUnmoved(i: nat, j: nat, p: Progress, worker: Worker)
    requires i != j && Wants(worker)
    ensures Fold(j, p, WrittenEntries(i, worker)) == p
  {
    if worker.Scans? {
      ConfirmedElsewhere(i, j, p, worker.phase.inflight);
    } else {
      FoldOne(j, p, WrittenEntries(i, worker)[0]);
    }
  }

  lemma {:induction false} ConfirmedElsewhere(i: nat, j: nat, p: Progress, batch: seq<PortResult>)
    requires i != j
    ensures Fold(j, p, ConfirmedAll(i, batch)) == p
  {
    if batch != [] {
      ConfirmedElsewhere(i, j, p, batch[..|batch| - 1]);
      assert ConfirmedAll(i, batch)[..|batch| - 1] == ConfirmedAll(i, batch[..|batch| - 1]);
    }
  }

  /** Both kinds of store call, with or without a snapshot, come to the endpoint's own entries. */
  lemma WrittenEndpoint(cfg: Config, c: Checkpoint, log: seq<Entry>, i: nat, worker: Worker, now: int)
    requires ValidConfig(cfg) && StoreInv(c, log) && i < |c.endpoints| && c.createdAt <= now
    requires WorkerInv(cfg, c.plan, c.endpoints[i], worker) && Wants(worker)
    ensures var p, entries := c.endpoints[i], WrittenEntries(i, worker); var q := Fold(i, p, entries);
      && WorkerInv(cfg, c.plan, q, WroteWorker(worker))
      && ValidProgress(q) && AccountsFor(q, c.plan) && Single.KeepsProgress(p, q)
      && OncePerPort(log + entries)
      && Written(cfg, c, i, worker, now) ==
         c.(endpoints := c.endpoints[i := q], status := Running, lastError := None, updatedAt := now,
            sequence := c.sequence + |entries|)
  {
    var q := Fold(i, c.endpoints[i], WrittenEntries(i, worker));
    if worker.Scans? {
      WrittenScan(cfg, c, log, i, worker, now);
    } else {
      WrittenBanner(cfg, c, log, i, worker);
    }
    assert WithError(q, None) == q;
    assert c.endpoints[i := q][i := q] == c.endpoints[i := q];
  }

  /** A worker's store call, through the snapshot or directly, moves its own endpoint on and no other. */
  lemma WriteMoves(cfg: Config, c: Checkpoint, log: seq<Entry>, i: nat, worker: Worker, now: int)
    requires ValidConfig(cfg) && StoreInv(c, log) && i < |c.endpoints| && c.createdAt <= now
    requires WorkerInv(cfg, c.plan, c.endpoints[i], worker) && Wants(worker)
    ensures var after := Written(cfg, c, i, worker, now);
      && StoreInv(after, log + WrittenEntries(i, worker))
      && SameSession(c, after) && after.status == Running
      && after.endpoints == c.endpoints[i := after.endpoints[i]]
      && WorkerInv(cfg, c.plan, after.endpoints[i], WroteWorker(worker))
      && Single.KeepsProgress(c.endpoints[i], after.endpoints[i])
  {
    var p, entries := c.endpoints[i], WrittenEntries(i, worker);
    var q, after := Fold(i, p, entries), Written(cfg, c, i, worker, now);
    WrittenEndpoint(cfg, c, log, i, worker, now);
    assert Moves(c.endpoints, entries, after.endpoints) by {
      forall j: nat | j < |c.endpoints| && j != i ensures Fold(j, c.endpoints[j], entries) == c.endpoints[j] {
        OthersUnmoved(i, j, c.endpoints[j], worker);
      }
    }
    ReplacedIsValid(c, i, q, |entries|, now, None);
    SuccessorInv(c, log, after, entries);
  }

  // ---------- Store calls of the coordinator ----------

  lemma MarkMoves(c: Checkpoint, log: seq<Entry>, i: nat, text: string, now: int)
    requires StoreInv(c, log) && i < |c.endpoints| && c.createdAt <= now && ValidText(Some(text))
    ensures var d := Advance(c, c.endpoints[i := WithError(c.endpoints[i], Some(text))], Running, None, now);
      StoreInv(d, log + [Errored(i, text)])
  {
    var q := WithError(c.endpoints[i], Some(text));
    var d := Advance(c, c.endpoints[i := q], Running, None, now);
    ReplacedIsValid(c, i, q, 1, now, None);
    OncePerPortOther(log, [Errored(i, text)]);
    assert Moves(c.endpoints, [Errored(i, text)], d.endpoints) by {
      forall j: nat | j < |c.endpoints| ensures d.endpoints[j] == Fold(j, c.endpoints[j], [Errored(i, text)]) {
        FoldOne(j, c.endpoints[j], Errored(i, text));
      }
    }
    SuccessorInv(c, log, d, [Errored(i, text)]);
  }

  lemma TransitionMoves(c: Checkpoint, log: seq<Entry>, now: int)
    requires StoreInv(c, log) && c.createdAt <= now
    ensures StoreInv(Advance(c, Cleared(c.endpoints), Running, None, now), log + [Transition])
  {
    var d := Advance(c, Cleared(c.endpoints), Running, None, now);
    assert EndpointKeys(d.endpoints) == EndpointKeys(c.endpoints);
    OncePerPortOther(log, [Transition]);
    assert Moves(c.endpoints, [Transition], d.endpoints) by {
      forall j: nat | j < |c.endpoints| ensures d.endpoints[j] == Fold(j, c.endpoints[j], [Transition]) {
        FoldOne(j, c.endpoints[j], Transition);
      }
    }
    SuccessorInv(c, log, d, [Transition]);
  }

  /** A terminal checkpoint changes the session's status and no endpoint. */
  lemma TerminalMoves(c: Checkpoint, log: seq<Entry>, status: Status, lastError: Option<string>, now: int)
    requires StoreInv(c, log) && c.createdAt <= now && ValidText(lastError) && Terminal(status)
    requires if status == Completed
             then lastError == None && forall i :: 0 <= i < |c.endpoints| ==> Finished(c.endpoints[i], c.plan)
             else lastError.Some?
    ensures StoreInv(Advance(c, c.endpoints, status, lastError, now), log + [Terminated])
  {
    var d := Advance(c, c.endpoints, status, lastError, now);
    OncePerPortOther(log, [Terminated]);
    assert Moves(c.endpoints, [Terminated], d.endpoints) by {
      forall j: nat | j < |c.endpoints| ensures d.endpoints[j] == Fold(j, c.endpoints[j], [Terminated]) {
        FoldOne(j, c.endpoints[j], Terminated);
      }
    }
    SuccessorInv(c, log, d, [Terminated]);
  }
}
